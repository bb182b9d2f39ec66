/**
 Little-endian numbers and the VariantDictionary of the KDBX 4 file format, as
 the resource check reads it: a loop over a moving position that keeps, of each
 parameter it knows, the last value.
 */
module VariantDictionary {
  import opened Wrappers

  type Byte = b: int | 0 <= b < 256
  type Bytes = seq<Byte>

  const U32: nat := 0x1_0000_0000

  // ------------------------------------------------------------ numbers in bytes

  function Number(s: Bytes): nat {
    if s == [] then 0 else s[0] + 256 * Number(s[1..])
  }

  function LittleEndian(n: nat, width: nat): (s: Bytes)
    ensures |s| == width
  {
    if width == 0 then [] else [n % 256] + LittleEndian(n / 256, width - 1)
  }

  function Power256(width: nat): nat {
    if width == 0 then 1 else 256 * Power256(width - 1)
  }

  lemma Widths()
    ensures Power256(1) == 256 && Power256(2) == 0x1_0000 && Power256(4) == U32 && Power256(8) == U64
  {
  }

  lemma {:induction false} NumberOfLittleEndian(n: nat, width: nat)
    requires n < Power256(width)
    ensures Number(LittleEndian(n, width)) == n
    decreases width
  {
    if width > 0 {
      NumberOfLittleEndian(n / 256, width - 1);
      assert LittleEndian(n, width)[1..] == LittleEndian(n / 256, width - 1);
    }
  }

  lemma LowByte(b: Byte, n: nat)
    ensures (b + 256 * n) % 256 == b && (b + 256 * n) / 256 == n
  {
  }

  lemma {:induction false} LittleEndianOfNumber(s: Bytes)
    ensures Number(s) < Power256(|s|) && LittleEndian(Number(s), |s|) == s
    decreases |s|
  {
    if s != [] {
      LittleEndianOfNumber(s[1..]);
      LowByte(s[0], Number(s[1..]));
      assert [s[0]] + s[1..] == s;
    }
  }

  /** The bytes `[at, at + width)` as a number, where there are that many. */
  function ReadNumber(s: Bytes, at: nat, width: nat): Option<nat> {
    if at + width <= |s| then Some(Number(s[at..at + width])) else None
  }

  function Slice(s: Bytes, from: nat, length: nat): Option<Bytes> {
    if from + length <= |s| then Some(s[from..from + length]) else None
  }

  // ---------------------------------------------------------- dictionary entries

  datatype Entry = Entry(kind: Byte, key: Bytes, value: Bytes)

  /** What is known about a value type: its length, if it has a fixed one. */
  predicate ValueFits(kind: Byte, value: Bytes) {
    if kind == 0x04 || kind == 0x0c then |value| == 4
    else if kind == 0x05 || kind == 0x0d then |value| == 8
    else if kind == 0x08 then |value| == 1
    else kind == 0x18 || kind == 0x42
  }

  predicate WellTyped(e: Entry) {
    ValueFits(e.kind, e.value) && |e.key| < U32 && |e.value| < U32
  }

  function EntryBytes(e: Entry): Bytes {
    [e.kind] + LittleEndian(|e.key|, 4) + e.key + LittleEndian(|e.value|, 4) + e.value
  }

  function EntriesBytes(entries: seq<Entry>): Bytes {
    if entries == [] then [0] else EntryBytes(entries[0]) + EntriesBytes(entries[1..])
  }

  /** A dictionary as a file holds it: version, entries, terminator. */
  function Serialize(entries: seq<Entry>): Bytes {
    LittleEndian(0x0100, 2) + EntriesBytes(entries)
  }

  /** The entry at the front of `s`. */
  function FirstEntry(s: Bytes): Option<Entry> {
    if s == [] then None
    else
      match ReadNumber(s, 1, 4)
      case None => None
      case Some(keyLength) =>
        match Slice(s, 5, keyLength)
        case None => None
        case Some(key) =>
          match ReadNumber(s, 5 + keyLength, 4)
          case None => None
          case Some(valueLength) =>
            match Slice(s, 9 + keyLength, valueLength)
            case None => None
            case Some(value) => if ValueFits(s[0], value) then Some(Entry(s[0], key, value)) else None
  }

  function EntrySize(e: Entry): nat { 9 + |e.key| + |e.value| }

  /** A first entry is where it was read from, and nowhere else. */
  lemma FirstEntryBytes(s: Bytes, e: Entry)
    ensures FirstEntry(s) == Some(e) <==>
      WellTyped(e) && EntrySize(e) <= |s| && s[..EntrySize(e)] == EntryBytes(e)
  {
    Widths();
    if FirstEntry(s) == Some(e) {
      LittleEndianOfNumber(s[1..5]);
      LittleEndianOfNumber(s[5 + |e.key|..9 + |e.key|]);
      assert s[..EntrySize(e)] ==
        [s[0]] + s[1..5] + s[5..5 + |e.key|] + s[5 + |e.key|..9 + |e.key|] + s[9 + |e.key|..EntrySize(e)];
    } else if WellTyped(e) && EntrySize(e) <= |s| && s[..EntrySize(e)] == EntryBytes(e) {
      EntryReadBack(s, e);
    }
  }

  /** The five pieces of an entry, cut out of it again. */
  lemma EntryPieces(s: Bytes, kind: Byte, keyLength: Bytes, key: Bytes, valueLength: Bytes, value: Bytes)
    requires |keyLength| == 4 && |valueLength| == 4
    requires 9 + |key| + |value| <= |s| && s[..9 + |key| + |value|] == [kind] + keyLength + key + valueLength + value
    ensures s[0] == kind && s[1..5] == keyLength && s[5..5 + |key|] == key
    ensures s[5 + |key|..9 + |key|] == valueLength && s[9 + |key|..9 + |key| + |value|] == value
  {
    var k := |key|;
    var front := s[..9 + k + |value|];
    assert front[1..5] == keyLength && front[5..5 + k] == key;
    assert front[5 + k..9 + k] == valueLength && front[9 + k..] == value;
  }

  lemma EntryReadBack(s: Bytes, e: Entry)
    requires WellTyped(e) && EntrySize(e) <= |s| && s[..EntrySize(e)] == EntryBytes(e)
    ensures FirstEntry(s) == Some(e)
  {
    Widths();
    NumberOfLittleEndian(|e.key|, 4);
    NumberOfLittleEndian(|e.value|, 4);
    EntryPieces(s, e.kind, LittleEndian(|e.key|, 4), e.key, LittleEndian(|e.value|, 4), e.value);
    hide Number, LittleEndian, Power256, EntryBytes;
  }

  /** All the entries of `s` up to a terminator, which has to be its last byte. */
  function EntriesOf(s: Bytes): Option<seq<Entry>>
    decreases |s|
  {
    if s == [] then None
    else if s[0] == 0 then if |s| == 1 then Some([]) else None
    else
      match FirstEntry(s)
      case None => None
      case Some(e) =>
        if EntrySize(e) <= |s| then
          match EntriesOf(s[EntrySize(e)..])
          case None => None
          case Some(rest) => Some([e] + rest)
        else None
  }

  function Entries(buffer: Bytes): Option<seq<Entry>> {
    if ReadNumber(buffer, 0, 2) == Some(0x0100) then EntriesOf(buffer[2..]) else None
  }

  lemma {:induction false} EntriesOfBytes(s: Bytes, entries: seq<Entry>)
    ensures EntriesOf(s) == Some(entries) <==> (forall e <- entries :: WellTyped(e)) && s == EntriesBytes(entries)
    decreases |s|, |entries|
  {
    if s == [] {
    } else if s[0] == 0 {
      if entries != [] {
        assert EntriesBytes(entries)[0] == entries[0].kind;
        assert entries[0] in entries;
      }
    } else if EntriesOf(s) == Some(entries) {
      var e := FirstEntry(s).value;
      FirstEntryBytes(s, e);
      assert entries[1..] == EntriesOf(s[EntrySize(e)..]).value;
      EntriesOfBytes(s[EntrySize(e)..], entries[1..]);
      assert entries == [e] + entries[1..];
      assert s == s[..EntrySize(e)] + s[EntrySize(e)..];
    } else if (forall e <- entries :: WellTyped(e)) && s == EntriesBytes(entries) && entries != [] {
      var e := entries[0];
      assert e in entries && EntrySize(e) <= |s| && s[..EntrySize(e)] == EntryBytes(e);
      FirstEntryBytes(s, e);
      assert s[EntrySize(e)..] == EntriesBytes(entries[1..]) && entries == [e] + entries[1..];
      EntriesOfBytes(s[EntrySize(e)..], entries[1..]);
    }
  }

  /** A buffer is accepted if and only if it is the serialisation of well-typed
      entries; which ones it is determines, and nothing follows the terminator. */
  lemma AcceptedIffSerialised(buffer: Bytes, entries: seq<Entry>)
    ensures Entries(buffer) == Some(entries) <==> (forall e <- entries :: WellTyped(e)) && buffer == Serialize(entries)
  {
    Widths();
    NumberOfLittleEndian(0x0100, 2);
    var version := LittleEndian(0x0100, 2);
    if |buffer| >= 2 {
      assert buffer == buffer[0..2] + buffer[2..];
      LittleEndianOfNumber(buffer[0..2]);
      EntriesOfBytes(buffer[2..], entries);
      assert Serialize(entries)[..2] == version && Serialize(entries)[2..] == EntriesBytes(entries);
    }
  }

  /** Reading what was written gives it back. */
  lemma DictionaryRoundTrip(entries: seq<Entry>)
    requires forall e <- entries :: WellTyped(e)
    ensures Entries(Serialize(entries)) == Some(entries)
  {
    AcceptedIffSerialised(Serialize(entries), entries);
  }

  // -------------------------------------------------------- the parameters kept

  datatype KdfFields = KdfFields(
    uuid: Option<Bytes>,
    memory: Option<nat>,
    iterations: Option<nat>,
    parallelism: Option<nat>,
    rounds: Option<nat>)

  const NO_FIELDS := KdfFields(None, None, None, None, None)

  const KEY_UUID: Bytes := [0x24, 0x55, 0x55, 0x49, 0x44]
  const KEY_M: Bytes := [0x4d]
  const KEY_I: Bytes := [0x49]
  const KEY_P: Bytes := [0x50]
  const KEY_R: Bytes := [0x52]

  function Keep(fields: KdfFields, e: Entry): KdfFields {
    if e.key == KEY_UUID && e.kind == 0x42 then fields.(uuid := Some(e.value))
    else if e.key == KEY_M && e.kind == 0x05 then fields.(memory := Some(Number(e.value)))
    else if e.key == KEY_I && e.kind == 0x05 then fields.(iterations := Some(Number(e.value)))
    else if e.key == KEY_P && e.kind == 0x04 then fields.(parallelism := Some(Number(e.value)))
    else if e.key == KEY_R && e.kind == 0x05 then fields.(rounds := Some(Number(e.value)))
    else fields
  }

  function FieldsOf(entries: seq<Entry>): KdfFields {
    if entries == [] then NO_FIELDS else Keep(FieldsOf(entries[..|entries| - 1]), entries[|entries| - 1])
  }

  ghost predicate IsLast(entries: seq<Entry>, i: nat, key: Bytes, kind: Byte, value: Bytes) {
    && i < |entries| && entries[i] == Entry(kind, key, value)
    && forall j :: i < j < |entries| ==> !(entries[j].key == key && entries[j].kind == kind)
  }

  /** The value of the last entry of this key and kind. */
  function LastValue(entries: seq<Entry>, key: Bytes, kind: Byte): (r: Option<Bytes>)
    ensures r.None? <==> forall e <- entries :: !(e.key == key && e.kind == kind)
    ensures r.Some? ==> exists i: nat :: IsLast(entries, i, key, kind, r.value)
  {
    if entries == [] then None
    else
      var n := |entries| - 1;
      assert entries == entries[..n] + [entries[n]];
      if entries[n].key == key && entries[n].kind == kind then
        assert IsLast(entries, n, key, kind, entries[n].value);
        Some(entries[n].value)
      else
        var r := LastValue(entries[..n], key, kind);
        assert r.Some? ==> forall i: nat :: IsLast(entries[..n], i, key, kind, r.value) ==> IsLast(entries, i, key, kind, r.value);
        r
  }

  function AsNumber(value: Option<Bytes>): Option<nat> {
    match value
    case None => None
    case Some(bytes) => Some(Number(bytes))
  }

  /** Of a repeated parameter the last one decides; one under another type is none at all. */
  lemma {:induction false} LastWins(entries: seq<Entry>)
    ensures FieldsOf(entries) == KdfFields(
      LastValue(entries, KEY_UUID, 0x42),
      AsNumber(LastValue(entries, KEY_M, 0x05)),
      AsNumber(LastValue(entries, KEY_I, 0x05)),
      AsNumber(LastValue(entries, KEY_P, 0x04)),
      AsNumber(LastValue(entries, KEY_R, 0x05)))
    decreases |entries|
  {
    if entries != [] {
      LastWins(entries[..|entries| - 1]);
    }
  }

  // ------------------------------------------------------------------- the loop

  function Prepend<T>(front: seq<T>, rest: Option<seq<T>>): Option<seq<T>> {
    match rest
    case None => None
    case Some(s) => Some(front + s)
  }

  lemma Shift(buffer: Bytes, position: nat, at: nat, width: nat)
    requires position <= |buffer|
    ensures ReadNumber(buffer[position..], at, width) == ReadNumber(buffer, position + at, width)
    ensures Slice(buffer[position..], at, width) == Slice(buffer, position + at, width)
  {
    if position + at + width <= |buffer| {
      assert buffer[position..][at..at + width] == buffer[position + at..position + at + width];
    }
  }

  /** One turn of the loop: the entry that starts at `position`. */
  method ReadEntry(buffer: Bytes, position: nat) returns (r: Option<Entry>)
    requires position < |buffer|
    ensures r == FirstEntry(buffer[position..])
    ensures r.Some? ==> position + EntrySize(r.value) <= |buffer|
  {
    hide Number;
    Shift(buffer, position, 1, 4);
    var kind := buffer[position];
    var at := position + 1;
    var keyLength := ReadNumber(buffer, at, 4);
    if keyLength.None? {
      return None;
    }
    at := at + 4;
    Shift(buffer, position, 5, keyLength.value);
    var key := Slice(buffer, at, keyLength.value);
    if key.None? {
      return None;
    }
    at := at + keyLength.value;
    Shift(buffer, position, 5 + keyLength.value, 4);
    var valueLength := ReadNumber(buffer, at, 4);
    if valueLength.None? {
      return None;
    }
    at := at + 4;
    Shift(buffer, position, 9 + keyLength.value, valueLength.value);
    var value := Slice(buffer, at, valueLength.value);
    if value.None? || !ValueFits(kind, value.value) {
      return None;
    }
    return Some(Entry(kind, key.value, value.value));
  }

  /** `parse_variant_dictionary`; every failure is the same kind of error. */
  method ParseVariantDictionary(buffer: Bytes) returns (r: Option<KdfFields>)
    ensures r == match Entries(buffer) case None => None case Some(entries) => Some(FieldsOf(entries))
  {
    var version := ReadNumber(buffer, 0, 2);
    if version != Some(0x0100) {
      return None;
    }
    hide Number, FirstEntry, Keep;
    var position: nat := 2;
    var fields := NO_FIELDS;
    ghost var read: seq<Entry> := [];
    NothingBefore(EntriesOf(buffer[2..]));
    while true
      invariant 2 <= position <= |buffer|
      invariant fields == FieldsOf(read)
      invariant Entries(buffer) == Prepend(read, EntriesOf(buffer[position..]))
      decreases |buffer| - position
    {
      if position == |buffer| {
        return None;
      }
      ghost var s := buffer[position..];
      if buffer[position] == 0 {
        if position + 1 != |buffer| {
          return None;
        }
        assert read + [] == read;
        return Some(fields);
      }
      var e := ReadEntry(buffer, position);
      if e.None? {
        return None;
      }
      fields := Keep(fields, e.value);
      position := position + EntrySize(e.value);
      assert s[EntrySize(e.value)..] == buffer[position..];
      EntryMoves(read, e.value, EntriesOf(buffer[position..]));
      read := read + [e.value];
    }
  }

  lemma NothingBefore<T>(rest: Option<seq<T>>)
    ensures Prepend([], rest) == rest
  {
    if rest.Some? {
      assert [] + rest.value == rest.value;
    }
  }

  lemma EntryMoves(read: seq<Entry>, e: Entry, rest: Option<seq<Entry>>)
    ensures rest.Some? ==> read + ([e] + rest.value) == read + [e] + rest.value
    ensures FieldsOf(read + [e]) == Keep(FieldsOf(read), e)
  {
  }
}
