/**
 The command line's check of merge resolutions: the answers read from a file
 against the conflicts a merge reported.
 */
module MergeResolutions {
  import opened Wrappers

  datatype Side = Local | Remote

  datatype Resolution<Id> = Resolution(entryId: Option<Id>, groupId: Option<Id>, keep: Side)

  datatype Input<Id> = Input(resolutions: seq<Resolution<Id>>, metadata: Option<Side>)

  datatype Picks<Id> = Picks(entries: map<Id, Side>, groups: map<Id, Side>, metadata: Option<Side>)

  datatype CliError = InvalidResolution | IncompleteResolution

  /** The conflicts a merge reported. */
  datatype Conflicts<Id> = Conflicts(entries: set<Id>, groups: set<Id>, metadata: bool)

  // ------------------------------------------------------ what an answer has to be

  predicate AnswersEntry<Id(==)>(r: Resolution<Id>, id: Id) { r.entryId == Some(id) && r.groupId.None? }

  predicate AnswersGroup<Id(==)>(r: Resolution<Id>, id: Id) { r.entryId.None? && r.groupId == Some(id) }

  /** It names one conflict there is. */
  predicate Known<Id(==)>(r: Resolution<Id>, c: Conflicts<Id>) {
    match (r.entryId, r.groupId)
    case (Some(id), None) => id in c.entries
    case (None, Some(id)) => id in c.groups
    case _ => false
  }

  predicate SameConflict<Id(==)>(a: Resolution<Id>, b: Resolution<Id>) {
    a.entryId == b.entryId && a.groupId == b.groupId
  }

  /** Something in it is wrong in itself, whatever is missing. */
  ghost predicate Wrong<Id(!new)>(input: Input<Id>, c: Conflicts<Id>) {
    || (exists i :: 0 <= i < |input.resolutions| && !Known(input.resolutions[i], c))
    || (exists i, j :: 0 <= i < j < |input.resolutions| && SameConflict(input.resolutions[i], input.resolutions[j]))
    || (input.metadata.Some? && !c.metadata)
  }

  /** Every conflict is answered. */
  ghost predicate AllAnswered<Id(!new)>(input: Input<Id>, c: Conflicts<Id>) {
    && (forall id <- c.entries :: exists r <- input.resolutions :: AnswersEntry(r, id))
    && (forall id <- c.groups :: exists r <- input.resolutions :: AnswersGroup(r, id))
    && (c.metadata ==> input.metadata.Some?)
  }

  /** `picks` holds the answers of the first `n` resolutions, and no other. */
  ghost predicate PicksOf<Id(!new)>(input: Input<Id>, n: nat, picks: Picks<Id>)
    requires n <= |input.resolutions|
  {
    && (forall i :: 0 <= i < n ==> Picked(input.resolutions[i], picks))
    && (forall id <- picks.entries :: exists i :: 0 <= i < n && AnswersEntry(input.resolutions[i], id))
    && (forall id <- picks.groups :: exists i :: 0 <= i < n && AnswersGroup(input.resolutions[i], id))
  }

  ghost predicate Picked<Id>(r: Resolution<Id>, picks: Picks<Id>) {
    match (r.entryId, r.groupId)
    case (Some(id), None) => id in picks.entries && picks.entries[id] == r.keep
    case (None, Some(id)) => id in picks.groups && picks.groups[id] == r.keep
    case _ => false
  }

  // -------------------------------------------------------------- counting suffices

  lemma {:induction false} SubsetSize<T>(a: set<T>, b: set<T>)
    requires a <= b
    ensures |a| <= |b| && (|a| == |b| <==> a == b)
    decreases |a|
  {
    if a != {} {
      var x :| x in a;
      SubsetSize(a - {x}, b - {x});
      assert a == (a - {x}) + {x} && b == (b - {x}) + {x};
    }
  }

  /** Where every pick is a conflict, comparing the numbers tells whether every conflict is picked. */
  lemma CountsDecide<Id(!new)>(input: Input<Id>, c: Conflicts<Id>, picks: Picks<Id>)
    requires PicksOf(input, |input.resolutions|, picks)
    requires picks.entries.Keys <= c.entries && picks.groups.Keys <= c.groups
    ensures |picks.entries| == |c.entries| && |picks.groups| == |c.groups| <==>
      picks.entries.Keys == c.entries && picks.groups.Keys == c.groups
    ensures picks.entries.Keys == c.entries <==>
      forall id <- c.entries :: exists r <- input.resolutions :: AnswersEntry(r, id)
    ensures picks.groups.Keys == c.groups <==>
      forall id <- c.groups :: exists r <- input.resolutions :: AnswersGroup(r, id)
  {
    SubsetSize(picks.entries.Keys, c.entries);
    SubsetSize(picks.groups.Keys, c.groups);
    forall id ensures id in picks.entries <==> exists r <- input.resolutions :: AnswersEntry(r, id) {
      if r :| r in input.resolutions && AnswersEntry(r, id) {
        assert Picked(r, picks);
      }
    }
    forall id ensures id in picks.groups <==> exists r <- input.resolutions :: AnswersGroup(r, id) {
      if r :| r in input.resolutions && AnswersGroup(r, id) {
        assert Picked(r, picks);
      }
    }
  }

  // ------------------------------------------------------------------- the check

  /** The first `n` resolutions are answers to different conflicts, and `picks` holds them. */
  ghost predicate GoodSoFar<Id(!new)>(input: Input<Id>, n: nat, c: Conflicts<Id>, picks: Picks<Id>)
    requires n <= |input.resolutions|
  {
    && picks.entries.Keys <= c.entries && picks.groups.Keys <= c.groups
    && PicksOf(input, n, picks)
    && (forall i :: 0 <= i < n ==> Known(input.resolutions[i], c))
    && (forall i, j :: 0 <= i < j < n ==> !SameConflict(input.resolutions[i], input.resolutions[j]))
  }

  /** The answer to an entry conflict. */
  method PickEntry<Id(==, !new)>(input: Input<Id>, n: nat, c: Conflicts<Id>, picks: Picks<Id>, id: Id)
    returns (r: Result<Picks<Id>, CliError>)
    requires n < |input.resolutions| && GoodSoFar(input, n, c, picks) && AnswersEntry(input.resolutions[n], id)
    ensures r.Err? ==> r.error == InvalidResolution && Wrong(input, c)
    ensures r.Ok? ==> GoodSoFar(input, n + 1, c, r.value) && r.value.metadata == picks.metadata
  {
    hide Wrong;
    if id !in c.entries {
      Unknown(input, n, c);
      return Err(InvalidResolution);
    }
    if id in picks.entries {
      ghost var i :| 0 <= i < n && AnswersEntry(input.resolutions[i], id);
      Duplicate(input, i, n, c);
      return Err(InvalidResolution);
    }
    AddEntry(input, n, picks, id);
    hide PicksOf;
    return Ok(picks.(entries := picks.entries[id := input.resolutions[n].keep]));
  }

  /** The answer to a group conflict. */
  method PickGroup<Id(==, !new)>(input: Input<Id>, n: nat, c: Conflicts<Id>, picks: Picks<Id>, id: Id)
    returns (r: Result<Picks<Id>, CliError>)
    requires n < |input.resolutions| && GoodSoFar(input, n, c, picks) && AnswersGroup(input.resolutions[n], id)
    ensures r.Err? ==> r.error == InvalidResolution && Wrong(input, c)
    ensures r.Ok? ==> GoodSoFar(input, n + 1, c, r.value) && r.value.metadata == picks.metadata
  {
    hide Wrong;
    if id !in c.groups {
      Unknown(input, n, c);
      return Err(InvalidResolution);
    }
    if id in picks.groups {
      ghost var i :| 0 <= i < n && AnswersGroup(input.resolutions[i], id);
      Duplicate(input, i, n, c);
      return Err(InvalidResolution);
    }
    AddGroup(input, n, picks, id);
    hide PicksOf;
    return Ok(picks.(groups := picks.groups[id := input.resolutions[n].keep]));
  }

  /** One turn of the loop. */
  method PickNext<Id(==, !new)>(input: Input<Id>, n: nat, c: Conflicts<Id>, picks: Picks<Id>)
    returns (r: Result<Picks<Id>, CliError>)
    requires n < |input.resolutions| && GoodSoFar(input, n, c, picks)
    ensures r.Err? ==> r.error == InvalidResolution && Wrong(input, c)
    ensures r.Ok? ==> GoodSoFar(input, n + 1, c, r.value) && r.value.metadata == picks.metadata
  {
    hide Wrong, GoodSoFar;
    var resolution := input.resolutions[n];
    match (resolution.entryId, resolution.groupId) {
      case (Some(id), None) => r := PickEntry(input, n, c, picks, id);
      case (None, Some(id)) => r := PickGroup(input, n, c, picks, id);
      case _ =>
        Unknown(input, n, c);
        return Err(InvalidResolution);
    }
  }

  lemma Unknown<Id(!new)>(input: Input<Id>, n: nat, c: Conflicts<Id>)
    requires n < |input.resolutions| && !Known(input.resolutions[n], c)
    ensures Wrong(input, c)
  {
  }

  lemma Duplicate<Id(!new)>(input: Input<Id>, i: nat, n: nat, c: Conflicts<Id>)
    requires i < n < |input.resolutions| && SameConflict(input.resolutions[i], input.resolutions[n])
    ensures Wrong(input, c)
  {
  }

  /** `validate_resolution_input`: malformed answers are told from missing ones,
      and accepted answers are exactly one for each conflict. */
  method ValidateResolutionInput<Id(==, !new)>(input: Input<Id>, c: Conflicts<Id>)
    returns (r: Result<Picks<Id>, CliError>)
    ensures r == Err(InvalidResolution) <==> Wrong(input, c)
    ensures r.Ok? <==> !Wrong(input, c) && AllAnswered(input, c)
    ensures r.Ok? ==>
      && r.value.entries.Keys == c.entries && r.value.groups.Keys == c.groups
      && r.value.metadata == input.metadata && (r.value.metadata.Some? <==> c.metadata)
      && PicksOf(input, |input.resolutions|, r.value)
  {
    var picks: Picks<Id> := Picks(map[], map[], None);
    for n := 0 to |input.resolutions|
      invariant picks.metadata.None? && GoodSoFar(input, n, c, picks)
    {
      picks :- PickNext(input, n, c, picks);
    }
    hide PicksOf;
    match (input.metadata, c.metadata) {
      case (Some(side), true) =>
        MetadataApart(input, picks, side);
        picks := picks.(metadata := Some(side));
      case (Some(_), false) => return Err(InvalidResolution);
      case (None, _) =>
    }
    CountsDecide(input, c, picks);
    if |picks.entries| != |c.entries| || |picks.groups| != |c.groups| || picks.metadata.Some? != c.metadata {
      return Err(IncompleteResolution);
    }
    return Ok(picks);
  }

  lemma MetadataApart<Id(!new)>(input: Input<Id>, picks: Picks<Id>, side: Side)
    requires PicksOf(input, |input.resolutions|, picks)
    ensures PicksOf(input, |input.resolutions|, picks.(metadata := Some(side)))
  {
  }

  lemma AddEntry<Id(!new)>(input: Input<Id>, n: nat, picks: Picks<Id>, id: Id)
    requires n < |input.resolutions| && PicksOf(input, n, picks)
    requires AnswersEntry(input.resolutions[n], id) && id !in picks.entries
    ensures PicksOf(input, n + 1, picks.(entries := picks.entries[id := input.resolutions[n].keep]))
    ensures forall i :: 0 <= i < n ==> !SameConflict(input.resolutions[i], input.resolutions[n])
  {
  }

  lemma AddGroup<Id(!new)>(input: Input<Id>, n: nat, picks: Picks<Id>, id: Id)
    requires n < |input.resolutions| && PicksOf(input, n, picks)
    requires AnswersGroup(input.resolutions[n], id) && id !in picks.groups
    ensures PicksOf(input, n + 1, picks.(groups := picks.groups[id := input.resolutions[n].keep]))
    ensures forall i :: 0 <= i < n ==> !SameConflict(input.resolutions[i], input.resolutions[n])
  {
  }
}
