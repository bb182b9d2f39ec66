/**
 From the database to the tree the user interface shows. The recycle bin is a
 group like any other in the database; in the tree all that lies under it carries
 a mark, so each entry of a snapshot is in the live list or in the deleted one.
 */
module VaultSnapshot {
  import opened Texts
  import opened Wrappers
  import opened VaultTree

  datatype RawEntry = RawEntry(title: Text, id: Text, tags: seq<Text>, starred: bool, hasOtp: bool)

  datatype RawGroup = RawGroup(name: Text, id: Text, groups: seq<RawGroup>, entries: seq<RawEntry>)

  /** How the platform folds text, and what it takes for blank. */
  datatype Platform = Platform(lower: Text -> Text, blank: Text -> bool)

  function NonEmpty(value: Text, fallback: Text, platform: Platform): Text {
    if platform.blank(value) then fallback else value
  }

  // ------------------------------------------------------------- `sort_by_key`

  datatype Keyed<T> = Keyed(key: Text, value: T)

  function Values<T>(s: seq<Keyed<T>>): (r: seq<T>)
    ensures |r| == |s|
  {
    if s == [] then [] else [s[0].value] + Values(s[1..])
  }

  function Insert<T>(x: Keyed<T>, sorted: seq<Keyed<T>>): seq<Keyed<T>> {
    if sorted == [] || !Less(sorted[0].key, x.key) then [x] + sorted else [sorted[0]] + Insert(x, sorted[1..])
  }

  function SortByKey<T>(s: seq<Keyed<T>>): seq<Keyed<T>> {
    if s == [] then [] else Insert(s[0], SortByKey(s[1..]))
  }

  ghost predicate InOrder<T>(s: seq<Keyed<T>>) {
    forall i, j :: 0 <= i < j < |s| ==> !Less(s[j].key, s[i].key)
  }

  function WithKey<T>(s: seq<Keyed<T>>, key: Text): seq<Keyed<T>> {
    if s == [] then [] else (if s[0].key == key then [s[0]] else []) + WithKey(s[1..], key)
  }

  lemma {:induction false} InsertIn<T>(x: Keyed<T>, sorted: seq<Keyed<T>>, y: Keyed<T>)
    ensures y in Insert(x, sorted) <==> y == x || y in sorted
    decreases |sorted|
  {
    hide Less;
    if sorted != [] && Less(sorted[0].key, x.key) {
      InsertIn(x, sorted[1..], y);
      assert sorted == [sorted[0]] + sorted[1..];
    }
  }

  lemma {:induction false} InsertKeepsOrder<T>(x: Keyed<T>, sorted: seq<Keyed<T>>)
    requires InOrder(sorted)
    ensures InOrder(Insert(x, sorted))
    decreases |sorted|
  {
    hide Less;
    if sorted == [] {
    } else if !Less(sorted[0].key, x.key) {
      forall j | 0 <= j < |sorted| ensures !Less(sorted[j].key, x.key) {
        if Less(sorted[j].key, x.key) && j > 0 {
          LessIsTotal(sorted[0].key, sorted[j].key);
          if sorted[0].key != sorted[j].key {
            LessIsTransitive(sorted[0].key, sorted[j].key, x.key);
          }
        }
      }
    } else {
      var rest := Insert(x, sorted[1..]);
      InsertKeepsOrder(x, sorted[1..]);
      LessIsTotal(sorted[0].key, x.key);
      forall j | 0 <= j < |rest| ensures !Less(rest[j].key, sorted[0].key) {
        InsertIn(x, sorted[1..], rest[j]);
      }
      assert sorted == [sorted[0]] + sorted[1..];
    }
  }

  lemma WithKeyFirst<T>(x: Keyed<T>, s: seq<Keyed<T>>, key: Text)
    ensures WithKey([x] + s, key) == (if x.key == key then [x] else []) + WithKey(s, key)
  {
    assert ([x] + s)[1..] == s;
  }

  lemma {:induction false} InsertIsStable<T>(x: Keyed<T>, sorted: seq<Keyed<T>>, key: Text)
    ensures WithKey(Insert(x, sorted), key) == (if x.key == key then [x] else []) + WithKey(sorted, key)
    decreases |sorted|
  {
    hide Less, WithKey;
    if sorted == [] || !Less(sorted[0].key, x.key) {
      WithKeyFirst(x, sorted, key);
    } else {
      InsertIsStable(x, sorted[1..], key);
      LessIsTotal(sorted[0].key, x.key);
      WithKeyFirst(sorted[0], Insert(x, sorted[1..]), key);
      WithKeyFirst(sorted[0], sorted[1..], key);
      assert sorted == [sorted[0]] + sorted[1..];
    }
  }

  /** Sorted, and what has the same key stays in the order it had. */
  lemma {:induction false} SortIsStable<T>(s: seq<Keyed<T>>)
    ensures InOrder(SortByKey(s))
    ensures forall x :: x in SortByKey(s) <==> x in s
    ensures forall key :: WithKey(SortByKey(s), key) == WithKey(s, key)
    decreases |s|
  {
    if s != [] {
      SortIsStable(s[1..]);
      InsertKeepsOrder(s[0], SortByKey(s[1..]));
      forall x ensures x in SortByKey(s) <==> x in s {
        InsertIn(s[0], SortByKey(s[1..]), x);
      }
      forall key ensures WithKey(SortByKey(s), key) == WithKey(s, key) {
        InsertIsStable(s[0], SortByKey(s[1..]), key);
      }
    }
  }

  // ------------------------------------------------------------ building the tree

  /** `entry_from_ref`. */
  function EntryFromRef(e: RawEntry, inRecycleBin: bool): Entry {
    Entry(e.id, e.tags, e.starred, e.hasOtp, inRecycleBin)
  }

  function EntriesFromRefs(entries: seq<RawEntry>, inRecycleBin: bool, platform: Platform): seq<Keyed<Entry>> {
    if entries == [] then []
    else
      [Keyed(platform.lower(NonEmpty(entries[0].title, "Untitled", platform)), EntryFromRef(entries[0], inRecycleBin))]
      + EntriesFromRefs(entries[1..], inRecycleBin, platform)
  }

  predicate IsBelow(g: RawGroup, bin: Option<Text>, inherited: bool) { inherited || bin == Some(g.id) }

  /** `group_from_ref`. */
  function GroupFromRef(g: RawGroup, bin: Option<Text>, inherited: bool, platform: Platform): Group
    decreases g, 0
  {
    var inBin := IsBelow(g, bin, inherited);
    Group(g.id, Values(SortByKey(GroupsFromRefs(g.groups, bin, inBin, platform))),
          Values(SortByKey(EntriesFromRefs(g.entries, inBin, platform))), inBin)
  }

  function GroupsFromRefs(groups: seq<RawGroup>, bin: Option<Text>, inherited: bool, platform: Platform): seq<Keyed<Group>>
    decreases groups, 1
  {
    if groups == [] then []
    else
      [Keyed(platform.lower(NonEmpty(groups[0].name, "Root", platform)), GroupFromRef(groups[0], bin, inherited, platform))]
      + GroupsFromRefs(groups[1..], bin, inherited, platform)
  }

  /** `snapshot_from_database`. */
  function Snapshot(root: RawGroup, bin: Option<Text>, platform: Platform): Group {
    GroupFromRef(root, bin, false, platform)
  }

  // ------------------------------------------------------------ marks go all the way

  lemma {:induction false} ValuesIn<T>(s: seq<Keyed<T>>, v: T)
    ensures v in Values(s) <==> exists x <- s :: x.value == v
    decreases |s|
  {
    if s != [] {
      ValuesIn(s[1..], v);
      assert s == [s[0]] + s[1..];
    }
  }

  lemma SortedValuesIn<T>(s: seq<Keyed<T>>, v: T)
    ensures v in Values(SortByKey(s)) <==> v in Values(s)
  {
    SortIsStable(s);
    ValuesIn(s, v);
    ValuesIn(SortByKey(s), v);
  }

  lemma {:induction false} InAllBelow(groups: seq<Group>, e: Entry)
    requires e in AllBelow(groups)
    ensures exists g <- groups :: e in AllEntries(g)
    decreases |groups|
  {
    if e in AllEntries(groups[0]) {
      assert groups[0] in groups;
    } else {
      InAllBelow(groups[1..], e);
    }
  }

  ghost predicate FlagsReach(g: Group) {
    FlagsInherited(g) && (g.inRecycleBin ==> forall e <- AllEntries(g) :: e.inRecycleBin)
  }

  lemma {:induction false} ReachBelow(groups: seq<Group>)
    requires forall g <- groups :: FlagsReach(g)
    ensures FlagsInheritedBelow(groups)
    decreases |groups|
  {
    if groups != [] {
      assert groups[0] in groups;
      ReachBelow(groups[1..]);
    }
  }

  lemma {:induction false} EntriesMarked(entries: seq<RawEntry>, inRecycleBin: bool, platform: Platform)
    ensures forall e <- Values(EntriesFromRefs(entries, inRecycleBin, platform)) :: e.inRecycleBin == inRecycleBin
    decreases |entries|
  {
    if entries != [] {
      EntriesMarked(entries[1..], inRecycleBin, platform);
    }
  }

  lemma {:induction false} GroupMarked(g: RawGroup, bin: Option<Text>, inherited: bool, platform: Platform)
    ensures FlagsReach(GroupFromRef(g, bin, inherited, platform))
    ensures inherited ==> GroupFromRef(g, bin, inherited, platform).inRecycleBin
    decreases g, 0
  {
    var inBin := IsBelow(g, bin, inherited);
    var built := GroupFromRef(g, bin, inherited, platform);
    var children := GroupsFromRefs(g.groups, bin, inBin, platform);
    var entries := EntriesFromRefs(g.entries, inBin, platform);
    GroupsMarked(g.groups, bin, inBin, platform);
    EntriesMarked(g.entries, inBin, platform);
    forall child | child in built.groups ensures FlagsReach(child) && (inBin ==> child.inRecycleBin) {
      SortedValuesIn(children, child);
    }
    ReachBelow(built.groups);
    forall e | e in AllEntries(built) && inBin ensures e.inRecycleBin {
      if e in built.entries {
        SortedValuesIn(entries, e);
      } else {
        InAllBelow(built.groups, e);
      }
    }
  }

  lemma {:induction false} GroupsMarked(groups: seq<RawGroup>, bin: Option<Text>, inherited: bool, platform: Platform)
    ensures forall child <- Values(GroupsFromRefs(groups, bin, inherited, platform)) ::
              FlagsReach(child) && (inherited ==> child.inRecycleBin)
    decreases groups, 1
  {
    if groups != [] {
      GroupMarked(groups[0], bin, inherited, platform);
      GroupsMarked(groups[1..], bin, inherited, platform);
    }
  }

  /** In every snapshot, of whatever database and with whatever bin, all below a deleted group is deleted. */
  lemma SnapshotInherits(root: RawGroup, bin: Option<Text>, platform: Platform)
    ensures FlagsInherited(Snapshot(root, bin, platform))
  {
    GroupMarked(root, bin, false, platform);
  }

  // ---------------------------------------------------- each entry in one of two lists

  /** The entries on one side of the bin, as the database has them. */
  function OnSide(g: RawGroup, bin: Option<Text>, inherited: bool, trashed: bool): seq<Entry>
    decreases g, 0
  {
    var inBin := IsBelow(g, bin, inherited);
    (if inBin == trashed then Marked(g.entries, trashed) else []) + OnSideBelow(g.groups, bin, inBin, trashed)
  }

  function OnSideBelow(groups: seq<RawGroup>, bin: Option<Text>, inherited: bool, trashed: bool): seq<Entry>
    decreases groups, 1
  {
    if groups == [] then []
    else OnSide(groups[0], bin, inherited, trashed) + OnSideBelow(groups[1..], bin, inherited, trashed)
  }

  function Marked(entries: seq<RawEntry>, trashed: bool): seq<Entry> {
    if entries == [] then [] else [EntryFromRef(entries[0], trashed)] + Marked(entries[1..], trashed)
  }

  lemma {:induction false} NothingLiveBelow(groups: seq<RawGroup>, bin: Option<Text>)
    ensures OnSideBelow(groups, bin, true, false) == []
    decreases groups
  {
    if groups != [] {
      NothingLiveBelow(groups[0].groups, bin);
      NothingLiveBelow(groups[1..], bin);
    }
  }

  lemma {:induction false} InsertEntry(x: Keyed<Entry>, s: seq<Keyed<Entry>>, p: Entry -> bool)
    ensures multiset(Filter(Values(Insert(x, s)), p)) == multiset(Filter([x.value], p)) + multiset(Filter(Values(s), p))
    decreases |s|
  {
    if s == [] || !Less(s[0].key, x.key) {
      FilterConcat([x.value], Values(s), p);
      assert ([x] + s)[1..] == s;
    } else {
      InsertEntry(x, s[1..], p);
      FilterConcat([s[0].value], Values(Insert(x, s[1..])), p);
      FilterConcat([s[0].value], Values(s[1..]), p);
      assert ([s[0]] + Insert(x, s[1..]))[1..] == Insert(x, s[1..]);
    }
  }

  lemma {:induction false} SortEntries(s: seq<Keyed<Entry>>, p: Entry -> bool)
    ensures multiset(Filter(Values(SortByKey(s)), p)) == multiset(Filter(Values(s), p))
    decreases |s|
  {
    if s != [] {
      SortEntries(s[1..], p);
      InsertEntry(s[0], SortByKey(s[1..]), p);
      FilterConcat([s[0].value], Values(s[1..]), p);
    }
  }

  lemma {:induction false} InBinConcat(a: seq<Group>, b: seq<Group>, trashed: bool)
    ensures InBinBelow(a + b, trashed) == InBinBelow(a, trashed) + InBinBelow(b, trashed)
    decreases |a|
  {
    hide InBin;
    if a == [] {
      assert a + b == b;
    } else {
      assert (a + b)[0] == a[0] && (a + b)[1..] == a[1..] + b;
      InBinConcat(a[1..], b, trashed);
    }
  }

  lemma {:induction false} InsertGroup(x: Keyed<Group>, s: seq<Keyed<Group>>, trashed: bool)
    ensures multiset(InBinBelow(Values(Insert(x, s)), trashed))
         == multiset(InBinBelow([x.value], trashed)) + multiset(InBinBelow(Values(s), trashed))
    decreases |s|
  {
    if s == [] || !Less(s[0].key, x.key) {
      InBinConcat([x.value], Values(s), trashed);
      assert ([x] + s)[1..] == s;
    } else {
      InsertGroup(x, s[1..], trashed);
      InBinConcat([s[0].value], Values(Insert(x, s[1..])), trashed);
      InBinConcat([s[0].value], Values(s[1..]), trashed);
      assert ([s[0]] + Insert(x, s[1..]))[1..] == Insert(x, s[1..]);
    }
  }

  lemma {:induction false} SortGroups(s: seq<Keyed<Group>>, trashed: bool)
    ensures multiset(InBinBelow(Values(SortByKey(s)), trashed)) == multiset(InBinBelow(Values(s), trashed))
    decreases |s|
  {
    if s != [] {
      SortGroups(s[1..], trashed);
      InsertGroup(s[0], SortByKey(s[1..]), trashed);
      InBinConcat([s[0].value], Values(s[1..]), trashed);
    }
  }

  lemma {:induction false} EntriesOnSide(entries: seq<RawEntry>, inBin: bool, trashed: bool, platform: Platform)
    ensures Filter(Values(EntriesFromRefs(entries, inBin, platform)), (e: Entry) => Wanted(e, trashed))
         == if inBin == trashed then Marked(entries, trashed) else []
    decreases |entries|
  {
    if entries != [] {
      EntriesOnSide(entries[1..], inBin, trashed, platform);
      var first := EntryFromRef(entries[0], inBin);
      FilterConcat([first], Values(EntriesFromRefs(entries[1..], inBin, platform)), (e: Entry) => Wanted(e, trashed));
    }
  }

  lemma {:induction false} GroupOnSide(g: RawGroup, bin: Option<Text>, inherited: bool, trashed: bool, platform: Platform)
    ensures multiset(InBin(GroupFromRef(g, bin, inherited, platform), trashed))
         == multiset(OnSide(g, bin, inherited, trashed))
    decreases g, 0
  {
    var inBin := IsBelow(g, bin, inherited);
    SortEntries(EntriesFromRefs(g.entries, inBin, platform), (e: Entry) => Wanted(e, trashed));
    EntriesOnSide(g.entries, inBin, trashed, platform);
    SortGroups(GroupsFromRefs(g.groups, bin, inBin, platform), trashed);
    GroupsOnSide(g.groups, bin, inBin, trashed, platform);
  }

  lemma {:induction false} GroupsOnSide(groups: seq<RawGroup>, bin: Option<Text>, inherited: bool, trashed: bool,
                                        platform: Platform)
    ensures multiset(InBinBelow(Values(GroupsFromRefs(groups, bin, inherited, platform)), trashed))
         == multiset(OnSideBelow(groups, bin, inherited, trashed))
    decreases groups, 1
  {
    if groups != [] {
      GroupOnSide(groups[0], bin, inherited, trashed, platform);
      GroupsOnSide(groups[1..], bin, inherited, trashed, platform);
      if IsBelow(groups[0], bin, inherited) && !trashed {
        NothingLiveBelow(groups[0].groups, bin);
      }
    }
  }

  // ------------------------------------------------------- where the entries were

  /** An entry of the database with the ids of the groups it lies in. */
  datatype Located = Located(entry: RawEntry, above: seq<Text>)

  function LocateEach(entries: seq<RawEntry>, above: seq<Text>): seq<Located> {
    if entries == [] then [] else [Located(entries[0], above)] + LocateEach(entries[1..], above)
  }

  function Locate(g: RawGroup, above: seq<Text>): seq<Located>
    decreases g, 0
  {
    LocateEach(g.entries, above + [g.id]) + LocateBelow(g.groups, above + [g.id])
  }

  function LocateBelow(groups: seq<RawGroup>, above: seq<Text>): seq<Located>
    decreases groups, 1
  {
    if groups == [] then [] else Locate(groups[0], above) + LocateBelow(groups[1..], above)
  }

  predicate UnderTheBin(above: seq<Text>, bin: Option<Text>) { bin.Some? && bin.value in above }

  /** The entries that lie under the bin, or those that do not, marked accordingly. */
  function Pick(located: seq<Located>, bin: Option<Text>, trashed: bool): seq<Entry> {
    if located == [] then []
    else
      var e := located[0].entry;
      (if UnderTheBin(located[0].above, bin) == trashed then [Entry(e.id, e.tags, e.starred, e.hasOtp, trashed)] else [])
      + Pick(located[1..], bin, trashed)
  }

  lemma {:induction false} PickConcat(a: seq<Located>, b: seq<Located>, bin: Option<Text>, trashed: bool)
    ensures Pick(a + b, bin, trashed) == Pick(a, bin, trashed) + Pick(b, bin, trashed)
    decreases |a|
  {
    if a == [] {
      assert a + b == b;
    } else {
      assert (a + b)[0] == a[0] && (a + b)[1..] == a[1..] + b;
      PickConcat(a[1..], b, bin, trashed);
    }
  }

  lemma {:induction false} PickEach(entries: seq<RawEntry>, above: seq<Text>, bin: Option<Text>, trashed: bool)
    ensures Pick(LocateEach(entries, above), bin, trashed)
         == if UnderTheBin(above, bin) == trashed then Marked(entries, trashed) else []
    decreases |entries|
  {
    if entries != [] {
      PickEach(entries[1..], above, bin, trashed);
      assert LocateEach(entries, above)[1..] == LocateEach(entries[1..], above);
    }
  }

  lemma {:induction false} SideIsPicked(g: RawGroup, above: seq<Text>, bin: Option<Text>, trashed: bool)
    ensures OnSide(g, bin, UnderTheBin(above, bin), trashed) == Pick(Locate(g, above), bin, trashed)
    decreases g, 0
  {
    var here := above + [g.id];
    assert UnderTheBin(here, bin) == IsBelow(g, bin, UnderTheBin(above, bin));
    PickEach(g.entries, here, bin, trashed);
    SideIsPickedBelow(g.groups, here, bin, trashed);
    PickConcat(LocateEach(g.entries, here), LocateBelow(g.groups, here), bin, trashed);
  }

  lemma {:induction false} SideIsPickedBelow(groups: seq<RawGroup>, above: seq<Text>, bin: Option<Text>, trashed: bool)
    ensures OnSideBelow(groups, bin, UnderTheBin(above, bin), trashed) == Pick(LocateBelow(groups, above), bin, trashed)
    decreases groups, 1
  {
    if groups != [] {
      SideIsPicked(groups[0], above, bin, trashed);
      SideIsPickedBelow(groups[1..], above, bin, trashed);
      PickConcat(Locate(groups[0], above), LocateBelow(groups[1..], above), bin, trashed);
    }
  }

  /** Whatever the database and whichever group is its bin: the live list holds exactly the
      entries with no bin on the way down to them and the deleted list exactly those with one,
      each entry of the snapshot is in one of them, once, and none is in neither. */
  lemma SnapshotSplitsAtTheBin(root: RawGroup, bin: Option<Text>, platform: Platform)
    ensures
      var tree := Snapshot(root, bin, platform);
      && multiset(Live(tree)) == multiset(Pick(Locate(root, []), bin, false))
      && multiset(Trashed(tree)) == multiset(Pick(Locate(root, []), bin, true))
      && multiset(AllEntries(tree)) == multiset(Live(tree)) + multiset(Trashed(tree))
      && Hidden(tree) == []
  {
    var tree := Snapshot(root, bin, platform);
    GroupOnSide(root, bin, false, false, platform);
    GroupOnSide(root, bin, false, true, platform);
    SideIsPicked(root, [], bin, false);
    SideIsPicked(root, [], bin, true);
    SnapshotInherits(root, bin, platform);
    PartitionIffInherited(tree);
    NothingHidden(tree);
  }

  // -------------------------------------------------------------- in what order

  /** `values` are those of `from`, in the order of their keys, and where keys are the same as they were. */
  ghost predicate SortedFrom<T(!new)>(values: seq<T>, from: seq<Keyed<T>>) {
    exists sorted: seq<Keyed<T>> ::
      && values == Values(sorted) && InOrder(sorted)
      && forall key :: WithKey(sorted, key) == WithKey(from, key)
  }

  function Named(text: Text, unnamed: Text, platform: Platform): Text {
    platform.lower(if platform.blank(text) then unnamed else text)
  }

  function ByTitle(entries: seq<RawEntry>, inRecycleBin: bool, platform: Platform): seq<Keyed<Entry>> {
    seq(|entries|, i requires 0 <= i < |entries| =>
      Keyed(Named(entries[i].title, "Untitled", platform),
            Entry(entries[i].id, entries[i].tags, entries[i].starred, entries[i].hasOtp, inRecycleBin)))
  }

  function ByName(groups: seq<RawGroup>, bin: Option<Text>, inherited: bool, platform: Platform): seq<Keyed<Group>> {
    seq(|groups|, i requires 0 <= i < |groups| =>
      Keyed(Named(groups[i].name, "Root", platform), GroupFromRef(groups[i], bin, inherited, platform)))
  }

  lemma {:induction false} EntriesByTitle(entries: seq<RawEntry>, inRecycleBin: bool, platform: Platform)
    ensures EntriesFromRefs(entries, inRecycleBin, platform) == ByTitle(entries, inRecycleBin, platform)
    decreases |entries|
  {
    if entries != [] {
      EntriesByTitle(entries[1..], inRecycleBin, platform);
    }
  }

  lemma {:induction false} GroupsByName(groups: seq<RawGroup>, bin: Option<Text>, inherited: bool, platform: Platform)
    ensures GroupsFromRefs(groups, bin, inherited, platform) == ByName(groups, bin, inherited, platform)
    decreases |groups|
  {
    if groups != [] {
      GroupsByName(groups[1..], bin, inherited, platform);
    }
  }

  /** What is shown of any group: its id and its mark, its entries by title and its groups by name,
      where what has none stands as "Untitled" or "Root". */
  lemma GroupIsOrdered(g: RawGroup, bin: Option<Text>, inherited: bool, platform: Platform)
    ensures
      var shown, below := GroupFromRef(g, bin, inherited, platform), inherited || bin == Some(g.id);
      && shown.id == g.id && shown.inRecycleBin == below
      && SortedFrom(shown.entries, ByTitle(g.entries, below, platform))
      && SortedFrom(shown.groups, ByName(g.groups, bin, below, platform))
  {
    var below := inherited || bin == Some(g.id);
    EntriesByTitle(g.entries, below, platform);
    GroupsByName(g.groups, bin, below, platform);
    SortIsStable(EntriesFromRefs(g.entries, below, platform));
    SortIsStable(GroupsFromRefs(g.groups, bin, below, platform));
  }
}
