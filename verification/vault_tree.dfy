/**
 The vault tree as the user interface shows it: walks that collect entries, and
 the counts and rows of the sidebar, which have to agree with the lists that
 selecting them shows.
 */
module VaultTree {
  import opened Texts
  import opened Wrappers

  datatype Entry = Entry(id: Text, tags: seq<Text>, starred: bool, hasOtp: bool, inRecycleBin: bool)

  datatype Group = Group(id: Text, groups: seq<Group>, entries: seq<Entry>, inRecycleBin: bool)

  function Filter<T(!new)>(s: seq<T>, p: T -> bool): (r: seq<T>)
    ensures forall x :: x in r <==> x in s && p(x)
  {
    if s == [] then []
    else
      assert forall x :: x in s <==> x == s[0] || x in s[1..];
      if p(s[0]) then [s[0]] + Filter(s[1..], p) else Filter(s[1..], p)
  }

  lemma {:induction false} FilterConcat<T(!new)>(a: seq<T>, b: seq<T>, p: T -> bool)
    ensures Filter(a + b, p) == Filter(a, p) + Filter(b, p)
    decreases |a|
  {
    if a == [] {
      assert a + b == b;
    } else {
      FilterConcat(a[1..], b, p);
      assert (a + b)[1..] == a[1..] + b;
    }
  }

  // ------------------------------------------------------------ all the entries

  function AllEntries(g: Group): seq<Entry>
    decreases g, 0
  {
    g.entries + AllBelow(g.groups)
  }

  function AllBelow(groups: seq<Group>): seq<Entry>
    decreases groups, 1
  {
    if groups == [] then [] else AllEntries(groups[0]) + AllBelow(groups[1..])
  }

  /** `collect_entries`. */
  method CollectEntries(g: Group, out: seq<Entry>) returns (entries: seq<Entry>)
    ensures entries == out + AllEntries(g)
    decreases g
  {
    entries := out + g.entries;
    assert g.groups[0..] == g.groups;
    for i := 0 to |g.groups|
      invariant entries + AllBelow(g.groups[i..]) == out + AllEntries(g)
    {
      assert g.groups[i..][0] == g.groups[i] && g.groups[i..][1..] == g.groups[i + 1..];
      entries := CollectEntries(g.groups[i], entries);
    }
  }

  // ------------------------------------------------------- on either side of the bin

  predicate Wanted(e: Entry, trashed: bool) { e.inRecycleBin == trashed }

  function InBin(g: Group, trashed: bool): seq<Entry>
    decreases g, 0
  {
    Filter(g.entries, e => Wanted(e, trashed)) + InBinBelow(g.groups, trashed)
  }

  function InBinBelow(groups: seq<Group>, trashed: bool): seq<Entry>
    decreases groups, 1
  {
    if groups == [] then []
    else
      (if trashed || !groups[0].inRecycleBin then InBin(groups[0], trashed) else []) + InBinBelow(groups[1..], trashed)
  }

  function Live(g: Group): seq<Entry> { InBin(g, false) }

  function Trashed(g: Group): seq<Entry> { InBin(g, true) }

  /** `collect_entries_in_bin`. */
  method CollectEntriesInBin(g: Group, wantTrashed: bool, out: seq<Entry>) returns (entries: seq<Entry>)
    ensures entries == out + InBin(g, wantTrashed)
    decreases g
  {
    entries := out + Filter(g.entries, e => Wanted(e, wantTrashed));
    assert g.groups[0..] == g.groups;
    for i := 0 to |g.groups|
      invariant entries + InBinBelow(g.groups[i..], wantTrashed) == out + InBin(g, wantTrashed)
    {
      assert g.groups[i..][0] == g.groups[i] && g.groups[i..][1..] == g.groups[i + 1..];
      if wantTrashed || !g.groups[i].inRecycleBin {
        entries := CollectEntriesInBin(g.groups[i], wantTrashed, entries);
      }
    }
  }

  /** The entries that neither list shows: not marked as deleted, below a group that is. */
  function Hidden(g: Group): seq<Entry>
    decreases g, 0
  {
    HiddenBelow(g.groups)
  }

  function HiddenBelow(groups: seq<Group>): seq<Entry>
    decreases groups, 1
  {
    if groups == [] then []
    else
      (if groups[0].inRecycleBin then Filter(AllEntries(groups[0]), (e: Entry) => Wanted(e, false)) else Hidden(groups[0]))
      + HiddenBelow(groups[1..])
  }

  /** Every entry below a deleted group is marked as deleted itself. */
  ghost predicate FlagsInherited(g: Group)
    decreases g, 0
  {
    FlagsInheritedBelow(g.groups)
  }

  ghost predicate FlagsInheritedBelow(groups: seq<Group>)
    decreases groups, 1
  {
    groups != [] ==>
    && (if groups[0].inRecycleBin then forall e <- AllEntries(groups[0]) :: e.inRecycleBin else FlagsInherited(groups[0]))
    && FlagsInheritedBelow(groups[1..])
  }

  lemma {:induction false} SplitByFlag(s: seq<Entry>)
    ensures multiset(s) ==
      multiset(Filter(s, (e: Entry) => Wanted(e, false))) + multiset(Filter(s, (e: Entry) => Wanted(e, true)))
    decreases |s|
  {
    if s != [] {
      SplitByFlag(s[1..]);
      assert s == [s[0]] + s[1..];
    }
  }

  lemma {:induction false} TrashedIsFiltered(g: Group)
    ensures Trashed(g) == Filter(AllEntries(g), (e: Entry) => Wanted(e, true))
    decreases g, 0
  {
    TrashedBelowIsFiltered(g.groups);
    FilterConcat(g.entries, AllBelow(g.groups), (e: Entry) => Wanted(e, true));
  }

  lemma {:induction false} TrashedBelowIsFiltered(groups: seq<Group>)
    ensures InBinBelow(groups, true) == Filter(AllBelow(groups), (e: Entry) => Wanted(e, true))
    decreases groups, 1
  {
    if groups != [] {
      TrashedIsFiltered(groups[0]);
      TrashedBelowIsFiltered(groups[1..]);
      FilterConcat(AllEntries(groups[0]), AllBelow(groups[1..]), (e: Entry) => Wanted(e, true));
    }
  }

  lemma {:induction false} ThreeParts(g: Group)
    ensures multiset(AllEntries(g)) == multiset(Live(g)) + multiset(Trashed(g)) + multiset(Hidden(g))
    decreases g, 0
  {
    ThreePartsBelow(g.groups);
    SplitByFlag(g.entries);
  }

  lemma {:induction false} ThreePartsBelow(groups: seq<Group>)
    ensures multiset(AllBelow(groups)) ==
      multiset(InBinBelow(groups, false)) + multiset(InBinBelow(groups, true)) + multiset(HiddenBelow(groups))
    decreases groups, 1
  {
    if groups != [] {
      ThreePartsBelow(groups[1..]);
      if groups[0].inRecycleBin {
        TrashedIsFiltered(groups[0]);
        SplitByFlag(AllEntries(groups[0]));
      } else {
        ThreeParts(groups[0]);
      }
    }
  }

  lemma {:induction false} NothingHidden(g: Group)
    ensures Hidden(g) == [] <==> FlagsInherited(g)
    decreases g, 0
  {
    NothingHiddenBelow(g.groups);
  }

  lemma {:induction false} NothingHiddenBelow(groups: seq<Group>)
    ensures HiddenBelow(groups) == [] <==> FlagsInheritedBelow(groups)
    decreases groups, 1
  {
    if groups != [] {
      NothingHiddenBelow(groups[1..]);
      if groups[0].inRecycleBin {
        var kept := Filter(AllEntries(groups[0]), (e: Entry) => Wanted(e, false));
        assert kept != [] ==> kept[0] in kept;
      } else {
        NothingHidden(groups[0]);
      }
    }
  }

  /** The live and the deleted entries are all the entries, each once, if and only
      if every entry below a deleted group carries its mark. */
  lemma PartitionIffInherited(g: Group)
    ensures multiset(AllEntries(g)) == multiset(Live(g)) + multiset(Trashed(g)) <==> FlagsInherited(g)
  {
    ThreeParts(g);
    NothingHidden(g);
    if multiset(AllEntries(g)) == multiset(Live(g)) + multiset(Trashed(g)) {
      assert |multiset(AllEntries(g))| == |Live(g)| + |Trashed(g)| + |Hidden(g)|;
    }
  }

  // ------------------------------------------------------------------- finding

  function FirstWith(entries: seq<Entry>, id: Text): (r: Option<Entry>) {
    if entries == [] then None else if entries[0].id == id then Some(entries[0]) else FirstWith(entries[1..], id)
  }

  /** `find_entry`. */
  function FindEntry(g: Group, id: Text): Option<Entry>
    decreases g, 0
  {
    match FirstWith(g.entries, id)
    case Some(e) => Some(e)
    case None => FindBelow(g.groups, id)
  }

  function FindBelow(groups: seq<Group>, id: Text): Option<Entry>
    decreases groups, 1
  {
    if groups == [] then None
    else
      match FindEntry(groups[0], id)
      case Some(e) => Some(e)
      case None => FindBelow(groups[1..], id)
  }

  lemma {:induction false} FirstWithConcat(a: seq<Entry>, b: seq<Entry>, id: Text)
    ensures FirstWith(a + b, id) == if FirstWith(a, id).Some? then FirstWith(a, id) else FirstWith(b, id)
    decreases |a|
  {
    if a == [] {
      assert a + b == b;
    } else {
      FirstWithConcat(a[1..], b, id);
      assert (a + b)[1..] == a[1..] + b;
    }
  }

  ghost predicate IsFirst(entries: seq<Entry>, id: Text, e: Entry) {
    e.id == id && exists k :: 0 <= k < |entries| && entries[k] == e && forall j :: 0 <= j < k ==> entries[j].id != id
  }

  lemma {:induction false} FirstWithIs(entries: seq<Entry>, id: Text)
    ensures FirstWith(entries, id).None? ==> forall e <- entries :: e.id != id
    ensures FirstWith(entries, id).Some? ==> IsFirst(entries, id, FirstWith(entries, id).value)
    decreases |entries|
  {
    if entries != [] {
      FirstWithIs(entries[1..], id);
      if entries[0].id == id {
        assert IsFirst(entries, id, entries[0]);
      } else if FirstWith(entries, id).Some? {
        var e := FirstWith(entries, id).value;
        var k :| 0 <= k < |entries| - 1 && entries[1..][k] == e && forall j :: 0 <= j < k ==> entries[1..][j].id != id;
        assert entries[k + 1] == e;
        forall j | 0 <= j < k + 1 ensures entries[j].id != id {
          if j > 0 {
            assert entries[1..][j - 1].id != id;
          }
        }
      } else {
        assert entries == [entries[0]] + entries[1..];
      }
    }
  }

  /** The search down the tree finds the first entry of the flat list that has the id. */
  lemma {:induction false} FindIsFirst(g: Group, id: Text)
    ensures FindEntry(g, id) == FirstWith(AllEntries(g), id)
    ensures FindEntry(g, id).None? ==> forall e <- AllEntries(g) :: e.id != id
    ensures FindEntry(g, id).Some? ==> IsFirst(AllEntries(g), id, FindEntry(g, id).value)
    decreases g, 0
  {
    FindBelowIsFirst(g.groups, id);
    FirstWithConcat(g.entries, AllBelow(g.groups), id);
    FirstWithIs(AllEntries(g), id);
  }

  lemma {:induction false} FindBelowIsFirst(groups: seq<Group>, id: Text)
    ensures FindBelow(groups, id) == FirstWith(AllBelow(groups), id)
    decreases groups, 1
  {
    if groups != [] {
      FindIsFirst(groups[0], id);
      FindBelowIsFirst(groups[1..], id);
      FirstWithConcat(AllEntries(groups[0]), AllBelow(groups[1..]), id);
    }
  }

  // -------------------------------------------------------------- library counts

  datatype LibraryCounts = LibraryCounts(starred: nat, withOtp: nat)

  function EntriesStarred(g: Group): seq<Entry> { Filter(Live(g), (e: Entry) => e.starred) }

  function EntriesWithOtp(g: Group): seq<Entry> { Filter(Live(g), (e: Entry) => e.hasOtp) }

  /** The counts of a list, added to those there are. */
  function Tally(entries: seq<Entry>, counts: LibraryCounts): LibraryCounts {
    LibraryCounts(counts.starred + |Filter(entries, (e: Entry) => e.starred)|,
                  counts.withOtp + |Filter(entries, (e: Entry) => e.hasOtp)|)
  }

  lemma TallyConcat(a: seq<Entry>, b: seq<Entry>, counts: LibraryCounts)
    ensures Tally(a + b, counts) == Tally(b, Tally(a, counts))
  {
    FilterConcat(a, b, (e: Entry) => e.starred);
    FilterConcat(a, b, (e: Entry) => e.hasOtp);
  }

  lemma {:induction false} FilterLast(s: seq<Entry>, i: nat, p: Entry -> bool)
    requires i < |s|
    ensures Filter(s[..i + 1], p) == Filter(s[..i], p) + if p(s[i]) then [s[i]] else []
  {
    assert s[..i + 1] == s[..i] + [s[i]];
    FilterConcat(s[..i], [s[i]], p);
    assert [s[i]][1..] == [];
  }

  /** The walk of `library_counts`. */
  method Walk(g: Group, counts: LibraryCounts) returns (r: LibraryCounts)
    ensures r == Tally(Live(g), counts)
    decreases g
  {
    r := counts;
    var live := (e: Entry) => Wanted(e, false);
    for i := 0 to |g.entries|
      invariant r == Tally(Filter(g.entries[..i], live), counts)
    {
      var entry := g.entries[i];
      FilterLast(g.entries, i, live);
      if entry.inRecycleBin {
        assert Filter(g.entries[..i], live) + [] == Filter(g.entries[..i], live);
        continue;
      }
      TallyConcat(Filter(g.entries[..i], live), [entry], counts);
      assert [entry][1..] == [];
      if entry.starred {
        r := r.(starred := r.starred + 1);
      }
      if entry.hasOtp {
        r := r.(withOtp := r.withOtp + 1);
      }
    }
    assert g.entries[..|g.entries|] == g.entries && g.groups[0..] == g.groups;
    TallyConcat(Filter(g.entries, live), InBinBelow(g.groups, false), counts);
    for i := 0 to |g.groups|
      invariant Tally(InBinBelow(g.groups[i..], false), r) == Tally(Live(g), counts)
    {
      var child := g.groups[i];
      assert g.groups[i..][0] == child && g.groups[i..][1..] == g.groups[i + 1..];
      var rest := InBinBelow(g.groups[i + 1..], false);
      if !child.inRecycleBin {
        TallyConcat(Live(child), rest, r);
        r := Walk(child, r);
      } else {
        assert [] + rest == rest;
      }
    }
  }

  /** `library_counts`: one walk of the tree counts what the two lists hold. */
  method CountLibrary(root: Group) returns (counts: LibraryCounts)
    ensures counts.starred == |EntriesStarred(root)| && counts.withOtp == |EntriesWithOtp(root)|
  {
    counts := Walk(root, LibraryCounts(0, 0));
  }
}
