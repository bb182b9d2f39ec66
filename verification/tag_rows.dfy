/**
 The tag rows of the sidebar: grouped by the lower-case spelling, labelled with
 the first spelling there is, and counted by entries. Selecting a row compares
 tags without regard to ASCII case only, so the two agree under a condition.
 */
module TagRows {
  import opened Texts
  import opened Wrappers
  import opened VaultTree

  const FAVORITE_TAG: Text := "Favorite"

  predicate IsFavorite(tag: Text) { EqIgnoreAsciiCase(tag, FAVORITE_TAG) }

  /** What is used of Unicode lower case: it takes no notice of ASCII case, it is
      settled after one time, and it makes "favorite" out of nothing else. */
  ghost predicate IsLowerCase(lower: Text -> Text) {
    && (forall a :: lower(AsciiLower(a)) == lower(a))
    && (forall a :: lower(lower(a)) == lower(a))
    && (forall a :: lower(a) == lower(FAVORITE_TAG) ==> IsFavorite(a))
  }

  // --------------------------------------------------------------- what rows mean

  datatype TagRow = TagRow(key: Text, display: Text, entryCount: nat)

  /** The entry has this tag, and it makes a row of this key. */
  predicate Spells(e: Entry, tag: Text, key: Text, lower: Text -> Text) {
    tag in e.tags && !IsFavorite(tag) && lower(tag) == key
  }

  predicate HasKey(e: Entry, key: Text, lower: Text -> Text) {
    exists tag <- e.tags :: Spells(e, tag, key, lower)
  }

  ghost predicate Used(entries: seq<Entry>, key: Text, lower: Text -> Text) {
    exists e <- entries :: HasKey(e, key, lower)
  }

  ghost predicate HasRow(rows: seq<TagRow>, key: Text) { exists row <- rows :: row.key == key }

  /** The number of entries, not of occurrences. */
  function CountKey(entries: seq<Entry>, key: Text, lower: Text -> Text): nat {
    |Filter(entries, e => HasKey(e, key, lower))|
  }

  /** The first spelling of the key in the alphabet. */
  ghost predicate IsLabel(entries: seq<Entry>, key: Text, display: Text, lower: Text -> Text) {
    && (exists e <- entries :: Spells(e, display, key, lower))
    && (forall e <- entries, tag <- e.tags :: Spells(e, tag, key, lower) ==> tag == display || Less(display, tag))
  }

  /** The right row, if there is to be one under this key. */
  ghost predicate RowFor(entries: seq<Entry>, key: Text, row: Option<TagRow>, lower: Text -> Text) {
    match row
    case None => forall e <- entries :: !HasKey(e, key, lower)
    case Some(r) => r.key == key && r.entryCount == CountKey(entries, key, lower) && IsLabel(entries, key, r.display, lower)
  }

  function RowAt(rows: map<Text, TagRow>, key: Text): Option<TagRow> {
    if key in rows then Some(rows[key]) else None
  }

  ghost predicate RowsFor(entries: seq<Entry>, rows: map<Text, TagRow>, lower: Text -> Text) {
    forall key :: RowFor(entries, key, RowAt(rows, key), lower)
  }

  // ------------------------------------------------------------------ one tag more

  /** The entry as far as its first `j` tags. */
  function Upto(e: Entry, j: nat): Entry
    requires j <= |e.tags|
  {
    e.(tags := e.tags[..j])
  }

  lemma OneTagMore(e: Entry, j: nat, key: Text, lower: Text -> Text)
    requires j < |e.tags|
    ensures HasKey(Upto(e, j + 1), key, lower) <==>
      HasKey(Upto(e, j), key, lower) || (!IsFavorite(e.tags[j]) && lower(e.tags[j]) == key)
    ensures forall tag :: Spells(Upto(e, j + 1), tag, key, lower) <==>
      Spells(Upto(e, j), tag, key, lower) || (tag == e.tags[j] && !IsFavorite(tag) && lower(tag) == key)
  {
    assert e.tags[..j + 1] == e.tags[..j] + [e.tags[j]];
    if HasKey(Upto(e, j), key, lower) {
      var tag :| tag in e.tags[..j] && Spells(Upto(e, j), tag, key, lower);
      assert Spells(Upto(e, j + 1), tag, key, lower);
    }
    if !IsFavorite(e.tags[j]) && lower(e.tags[j]) == key {
      assert Spells(Upto(e, j + 1), e.tags[j], key, lower);
    }
  }

  lemma CountWith(before: seq<Entry>, e: Entry, key: Text, lower: Text -> Text)
    ensures CountKey(before + [e], key, lower) == CountKey(before, key, lower) + if HasKey(e, key, lower) then 1 else 0
  {
    FilterConcat(before, [e], x => HasKey(x, key, lower));
    assert [e][1..] == [];
  }

  lemma InAppended(before: seq<Entry>, e: Entry)
    ensures forall x :: x in before + [e] <==> x in before || x == e
  {
  }

  /** A tag that makes no row of this key leaves the row as it is. */
  lemma OtherKey(before: seq<Entry>, e: Entry, j: nat, key: Text, row: Option<TagRow>, lower: Text -> Text)
    requires j < |e.tags| && (IsFavorite(e.tags[j]) || lower(e.tags[j]) != key)
    requires RowFor(before + [Upto(e, j)], key, row, lower)
    ensures RowFor(before + [Upto(e, j + 1)], key, row, lower)
  {
    OneTagMore(e, j, key, lower);
    CountWith(before, Upto(e, j), key, lower);
    CountWith(before, Upto(e, j + 1), key, lower);
    InAppended(before, Upto(e, j));
    InAppended(before, Upto(e, j + 1));
    hide HasKey, CountKey, IsFavorite;
    if row.Some? {
      LabelStays(before, Upto(e, j), Upto(e, j + 1), key, row.value.display, lower);
    }
  }

  lemma LabelStays(before: seq<Entry>, e: Entry, more: Entry, key: Text, display: Text, lower: Text -> Text)
    requires IsLabel(before + [e], key, display, lower)
    requires forall tag :: Spells(more, tag, key, lower) <==> Spells(e, tag, key, lower)
    ensures IsLabel(before + [more], key, display, lower)
  {
  }

  /** The row a tag makes or joins. */
  function Join(row: Option<TagRow>, tag: Text, key: Text, counted: bool): TagRow {
    var r := match row case Some(r) => r case None => TagRow(key, tag, 0);
    var labelled := if Less(tag, r.display) then r.(display := tag) else r;
    if counted then labelled else labelled.(entryCount := labelled.entryCount + 1)
  }

  lemma SameKey(before: seq<Entry>, e: Entry, j: nat, row: Option<TagRow>, lower: Text -> Text)
    requires j < |e.tags| && !IsFavorite(e.tags[j])
    requires RowFor(before + [Upto(e, j)], lower(e.tags[j]), row, lower)
    ensures var key := lower(e.tags[j]);
            RowFor(before + [Upto(e, j + 1)], key, Some(Join(row, e.tags[j], key, HasKey(Upto(e, j), key, lower))), lower)
  {
    var tag := e.tags[j];
    var key := lower(tag);
    OneTagMore(e, j, key, lower);
    CountWith(before, Upto(e, j), key, lower);
    CountWith(before, Upto(e, j + 1), key, lower);
    if row.None? {
      NoneHave(before + [Upto(e, j)], key, lower);
      assert Upto(e, j) in before + [Upto(e, j)];
    }
    LabelJoins(before, e, j, row, lower);
  }

  lemma {:induction false} NoneHave(entries: seq<Entry>, key: Text, lower: Text -> Text)
    requires forall e <- entries :: !HasKey(e, key, lower)
    ensures CountKey(entries, key, lower) == 0
  {
    if entries != [] {
      NoneHave(entries[1..], key, lower);
    }
  }

  lemma LabelJoins(before: seq<Entry>, e: Entry, j: nat, row: Option<TagRow>, lower: Text -> Text)
    requires j < |e.tags| && !IsFavorite(e.tags[j])
    requires RowFor(before + [Upto(e, j)], lower(e.tags[j]), row, lower)
    ensures var tag := e.tags[j];
            var display := match row case Some(r) => r.display case None => tag;
            IsLabel(before + [Upto(e, j + 1)], lower(tag), if Less(tag, display) then tag else display, lower)
  {
    var tag, key := e.tags[j], lower(e.tags[j]);
    var was, now := Upto(e, j), Upto(e, j + 1);
    OneTagMore(e, j, key, lower);
    InAppended(before, was);
    InAppended(before, now);
    assert Spells(now, tag, key, lower);
    var display := match row case Some(r) => r.display case None => tag;
    var first := if Less(tag, display) then tag else display;
    LessIsTotal(tag, display);
    forall y, t | y in before + [now] && t in y.tags && Spells(y, t, key, lower) ensures t == first || Less(first, t) {
      if t != tag || y != now {
        var x := if y == now && Spells(was, t, key, lower) then was else y;
        if Spells(was, t, key, lower) || y in before {
          assert x in before + [was] && Spells(x, t, key, lower);
          if row.None? {
            assert HasKey(x, key, lower);
          } else if t != display && Less(tag, display) {
            LessIsTransitive(tag, display, t);
          }
        }
      }
    }
    if row.Some? && first == display {
      var x :| x in before + [was] && Spells(x, display, key, lower);
      assert x == was ==> Spells(now, display, key, lower);
    }
  }

  // ------------------------------------------------------------------- the loops

  lemma NextEntry(entries: seq<Entry>, i: nat, rows: map<Text, TagRow>, lower: Text -> Text)
    requires i < |entries|
    ensures RowsFor(entries[..i], rows, lower) ==> RowsFor(entries[..i] + [Upto(entries[i], 0)], rows, lower)
    ensures RowsFor(entries[..i] + [Upto(entries[i], |entries[i].tags|)], rows, lower) ==>
      RowsFor(entries[..i + 1], rows, lower)
  {
    var e, before := entries[i], entries[..i];
    assert Upto(e, |e.tags|) == e && entries[..i + 1] == before + [e];
    InAppended(before, Upto(e, 0));
    if RowsFor(before, rows, lower) {
      forall key ensures RowFor(before + [Upto(e, 0)], key, RowAt(rows, key), lower) {
        assert RowFor(before, key, RowAt(rows, key), lower);
        CountWith(before, Upto(e, 0), key, lower);
      }
    }
  }

  /** The inner loop of `tags`, over the tags of one entry. */
  method CountEntry(before: seq<Entry>, entry: Entry, rows: map<Text, TagRow>, lower: Text -> Text)
    returns (r: map<Text, TagRow>)
    requires RowsFor(before + [Upto(entry, 0)], rows, lower)
    ensures RowsFor(before + [Upto(entry, |entry.tags|)], r, lower)
  {
    r := rows;
    var counted: set<Text> := {};
    for j := 0 to |entry.tags|
      invariant RowsFor(before + [Upto(entry, j)], r, lower)
      invariant forall key :: key in counted <==> HasKey(Upto(entry, j), key, lower)
    {
      var tag := entry.tags[j];
      ghost var was := r;
      forall key ensures HasKey(Upto(entry, j + 1), key, lower) <==>
        HasKey(Upto(entry, j), key, lower) || (!IsFavorite(tag) && lower(tag) == key)
      {
        OneTagMore(entry, j, key, lower);
      }
      if IsFavorite(tag) {
        RowsOther(before, entry, j, was, r, lower, None);
        continue;
      }
      var key := lower(tag);
      var row := if key in r then r[key] else TagRow(key, tag, 0);
      if Less(tag, row.display) {
        row := row.(display := tag);
      }
      if key !in counted {
        counted := counted + {key};
        row := row.(entryCount := row.entryCount + 1);
      }
      LessIsTotal(tag, tag);
      SameKeyAt(before, entry, j, was, lower);
      r := r[key := row];
      RowsOther(before, entry, j, was, r, lower, Some(key));
    }
  }

  lemma SameKeyAt(before: seq<Entry>, e: Entry, j: nat, rows: map<Text, TagRow>, lower: Text -> Text)
    requires j < |e.tags| && !IsFavorite(e.tags[j]) && RowsFor(before + [Upto(e, j)], rows, lower)
    ensures var key := lower(e.tags[j]);
            RowFor(before + [Upto(e, j + 1)], key,
                   Some(Join(RowAt(rows, key), e.tags[j], key, HasKey(Upto(e, j), key, lower))), lower)
  {
    assert RowFor(before + [Upto(e, j)], lower(e.tags[j]), RowAt(rows, lower(e.tags[j])), lower);
    SameKey(before, e, j, RowAt(rows, lower(e.tags[j])), lower);
  }

  /** All the rows but the one the tag belongs to. */
  lemma RowsOther(before: seq<Entry>, e: Entry, j: nat, was: map<Text, TagRow>, now: map<Text, TagRow>,
                  lower: Text -> Text, joined: Option<Text>)
    requires j < |e.tags| && RowsFor(before + [Upto(e, j)], was, lower)
    requires if IsFavorite(e.tags[j]) then joined == None else joined == Some(lower(e.tags[j]))
    requires forall key :: joined != Some(key) ==> RowAt(now, key) == RowAt(was, key)
    requires joined.Some? ==> RowFor(before + [Upto(e, j + 1)], joined.value, RowAt(now, joined.value), lower)
    ensures RowsFor(before + [Upto(e, j + 1)], now, lower)
  {
    forall key ensures RowFor(before + [Upto(e, j + 1)], key, RowAt(now, key), lower) {
      if joined != Some(key) {
        assert RowFor(before + [Upto(e, j)], key, RowAt(was, key), lower);
        OtherKey(before, e, j, key, RowAt(was, key), lower);
      }
    }
  }

  lemma {:induction false} LeastKey(keys: set<Text>) returns (least: Text)
    requires keys != {}
    ensures least in keys && forall k <- keys :: k == least || Less(least, k)
    decreases |keys|
  {
    least :| least in keys;
    assert forall k <- keys :: k == least || k in keys - {least};
    if keys - {least} != {} {
      var other := LeastKey(keys - {least});
      LessIsTotal(least, other);
      if Less(other, least) {
        least := other;
      } else {
        forall k | k in keys && k != least && k != other ensures Less(least, k) {
          LessIsTransitive(least, other, k);
        }
      }
    }
  }

  /** `tags`: the rows of all live tags but the favorite marker, in the order of their keys. */
  method Tags(root: Group, lower: Text -> Text) returns (rows: seq<TagRow>)
    ensures forall i, j :: 0 <= i < j < |rows| ==> Less(rows[i].key, rows[j].key)
    ensures forall key :: HasRow(rows, key) <==> Used(Live(root), key, lower)
    ensures forall row <- rows ::
      row.entryCount == CountKey(Live(root), row.key, lower) && IsLabel(Live(root), row.key, row.display, lower)
  {
    var entries := Live(root);
    var byKey: map<Text, TagRow> := map[];
    for i := 0 to |entries|
      invariant RowsFor(entries[..i], byKey, lower)
    {
      NextEntry(entries, i, byKey, lower);
      byKey := CountEntry(entries[..i], entries[i], byKey, lower);
      NextEntry(entries, i, byKey, lower);
    }
    assert entries[..|entries|] == entries;
    hide IsLabel, CountKey, HasKey, Used;
    forall key | key in byKey ensures byKey[key].key == key {
      RowExists(entries, key, byKey, lower);
    }
    rows := InKeyOrder(byKey);
    forall key ensures HasRow(rows, key) <==> Used(entries, key, lower) {
      RowExists(entries, key, byKey, lower);
      if key in byKey {
        assert byKey[key] in rows;
      }
    }
    forall row | row in rows
      ensures row.entryCount == CountKey(entries, row.key, lower) && IsLabel(entries, row.key, row.display, lower)
    {
      assert RowFor(entries, row.key, RowAt(byKey, row.key), lower);
    }
  }

  lemma RowExists(entries: seq<Entry>, key: Text, rows: map<Text, TagRow>, lower: Text -> Text)
    requires RowsFor(entries, rows, lower)
    ensures key in rows <==> Used(entries, key, lower)
    ensures key in rows ==> rows[key].key == key
  {
    assert RowFor(entries, key, RowAt(rows, key), lower);
    if key in rows {
      var e :| e in entries && Spells(e, rows[key].display, key, lower);
      assert HasKey(e, key, lower);
    }
  }

  /** The values of an ordered map, in the order of the keys. */
  method InKeyOrder(rows: map<Text, TagRow>) returns (ordered: seq<TagRow>)
    requires forall key <- rows :: rows[key].key == key
    ensures forall i, j :: 0 <= i < j < |ordered| ==> Less(ordered[i].key, ordered[j].key)
    ensures forall row :: row in ordered <==> row.key in rows && rows[row.key] == row
  {
    ordered := [];
    var left := rows.Keys;
    while left != {}
      invariant left <= rows.Keys
      invariant forall i, j :: 0 <= i < j < |ordered| ==> Less(ordered[i].key, ordered[j].key)
      invariant forall row :: row in ordered <==> row.key in rows && row.key !in left && rows[row.key] == row
      invariant forall row <- ordered, key <- left :: Less(row.key, key)
      decreases |left|
    {
      ghost var first := LeastKey(left);
      var least :| least in left && forall k <- left :: k == least || Less(least, k);
      ordered := ordered + [rows[least]];
      left := left - {least};
    }
  }

  // ------------------------------------------------------- rows against selection

  /** What selecting a row lists: `entries_with_tag`. */
  predicate Selected(e: Entry, tag: Text) { exists t <- e.tags :: EqIgnoreAsciiCase(t, tag) }

  function EntriesWithTag(root: Group, tag: Text): seq<Entry> { Filter(Live(root), (e: Entry) => Selected(e, tag)) }

  lemma {:induction false} FilterWithin(s: seq<Entry>, p: Entry -> bool, q: Entry -> bool)
    requires forall e <- s :: p(e) ==> q(e)
    ensures |Filter(s, p)| <= |Filter(s, q)|
    ensures |Filter(s, p)| == |Filter(s, q)| <==> forall e <- s :: q(e) ==> p(e)
    decreases |s|
  {
    if s != [] {
      FilterWithin(s[1..], p, q);
      assert forall e :: e in s <==> e == s[0] || e in s[1..];
    }
  }

  /** Under the key of a row, selection lists only entries the row counts. */
  lemma SelectedIsCounted(e: Entry, key: Text, lower: Text -> Text, spelling: Text)
    requires IsLowerCase(lower) && lower(spelling) == key && !IsFavorite(spelling) && Selected(e, key)
    ensures HasKey(e, key, lower)
  {
  }

  /** A row counts what selecting it lists if and only if every entry it counts has
      a tag that differs from the key in ASCII case alone; it never counts less. */
  lemma CountMatchesSelection(root: Group, key: Text, lower: Text -> Text)
    requires IsLowerCase(lower) && Used(Live(root), key, lower)
    ensures |EntriesWithTag(root, key)| <= CountKey(Live(root), key, lower)
    ensures |EntriesWithTag(root, key)| == CountKey(Live(root), key, lower) <==>
      forall e <- Live(root) :: HasKey(e, key, lower) ==> Selected(e, key)
  {
    var some :| some in Live(root) && HasKey(some, key, lower);
    var spelling :| spelling in some.tags && Spells(some, spelling, key, lower);
    forall e | e in Live(root) && Selected(e, key) ensures HasKey(e, key, lower) {
      SelectedIsCounted(e, key, lower, spelling);
    }
    FilterWithin(Live(root), (e: Entry) => Selected(e, key), e => HasKey(e, key, lower));
  }

  predicate IsAscii(s: Text) { forall c <- s :: c as int < 128 }

  /** In a vault of ASCII tags every row counts what selecting it lists. */
  lemma AsciiTagsAgree(root: Group, key: Text, lower: Text -> Text)
    requires IsLowerCase(lower) && (forall s :: IsAscii(s) ==> lower(s) == AsciiLower(s))
    requires Used(Live(root), key, lower)
    requires forall e <- Live(root), tag <- e.tags :: IsAscii(tag)
    ensures |EntriesWithTag(root, key)| == CountKey(Live(root), key, lower)
  {
    forall e | e in Live(root) && HasKey(e, key, lower) ensures Selected(e, key) {
      var tag :| tag in e.tags && Spells(e, tag, key, lower);
      assert AsciiLower(AsciiLower(tag)) == AsciiLower(tag);
      assert EqIgnoreAsciiCase(tag, key);
    }
    CountMatchesSelection(root, key, lower);
  }

  // ----------------------------------------------- a row that counts more than it lists

  /** Lower case of ASCII and of one letter more. */
  function SmallLower(s: Text): (r: Text)
    ensures |r| == |s| && forall k :: 0 <= k < |s| ==> r[k] == SmallLowerChar(s[k])
  {
    seq(|s|, k requires 0 <= k < |s| => SmallLowerChar(s[k]))
  }

  function SmallLowerChar(c: char): char { if c == '\U{00C4}' then '\U{00E4}' else AsciiLowerChar(c) }

  lemma SmallLowerIsLowerCase()
    ensures IsLowerCase(SmallLower)
  {
  }

  lemma FilterTwo(a: Entry, b: Entry, p: Entry -> bool)
    ensures Filter([a, b], p) == (if p(a) then [a] else []) + (if p(b) then [b] else [])
  {
    assert [a, b][1..] == [b] && [b][1..] == [];
    assert Filter([b], p) == if p(b) then [b] else [];
  }

  /** Two entries tagged with the same letter in different case make one row of two,
      and selecting it lists one. */
  lemma UmlautRowCountsMore(upper: Entry, small: Entry)
    requires upper.tags == [['\U{00C4}']] && small.tags == [['\U{00E4}']] && !upper.inRecycleBin && !small.inRecycleBin
    ensures var root := Group([], [], [upper, small], false);
            CountKey(Live(root), ['\U{00E4}'], SmallLower) == 2 && |EntriesWithTag(root, ['\U{00E4}'])| == 1
    ensures IsLowerCase(SmallLower)
  {
    SmallLowerIsLowerCase();
    var root := Group([], [], [upper, small], false);
    var key: Text := ['\U{00E4}'];
    var A: Text := ['\U{00C4}'];
    FilterTwo(upper, small, e => Wanted(e, false));
    FilterTwo(upper, small, e => HasKey(e, key, SmallLower));
    FilterTwo(upper, small, (e: Entry) => Selected(e, key));
    assert root.entries == [upper, small] && InBinBelow(root.groups, false) == [];
    assert Live(root) == Filter([upper, small], e => Wanted(e, false)) + [];
    assert Live(root) == [upper, small];
    assert SmallLower(A) == key && SmallLower(key) == key;
    assert AsciiLower(A)[0] == A[0] && AsciiLower(key)[0] == key[0];
    assert |FAVORITE_TAG| == 8 && |AsciiLower(A)| == 1 && |AsciiLower(key)| == 1;
    assert Spells(upper, A, key, SmallLower) && Spells(small, key, key, SmallLower);
    assert Selected(small, key) && !Selected(upper, key);
  }
}
