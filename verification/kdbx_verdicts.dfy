/**
 The resource check in bytes and numbers: for each kind of KeePass file exactly
 which files are let through, with the constants of the formats written out.
 */
module KdbxVerdicts {
  import opened Wrappers
  import opened V = VariantDictionary
  import opened L = KdbxLimits

  // ------------------------------------------------------------ what kind of file

  /** The four bytes of every KeePass file, and the size that is let through. */
  predicate IsKeePass(data: Bytes) {
    12 <= |data| <= 250_000_000 && data[..4] == [0x03, 0xd9, 0xa2, 0x9a]
  }

  predicate HasFormat(data: Bytes, format: Bytes) { IsKeePass(data) && data[4..8] == format }

  const KDB: Bytes := [0x65, 0xfb, 0x4b, 0xb5]
  const KDBX2: Bytes := [0x66, 0xfb, 0x4b, 0xb5]
  const KDBX: Bytes := [0x67, 0xfb, 0x4b, 0xb5]

  /** Four bytes as a number, the least one first. */
  function Quad(a: int, b: int, c: int, d: int): int { a + 0x100 * b + 0x1_0000 * c + 0x100_0000 * d }

  lemma FourBytes(s: Bytes)
    requires |s| == 4
    ensures Number(s) == Quad(s[0], s[1], s[2], s[3])
  {
    assert Number(s[1..]) == s[1] + 256 * Number(s[2..]);
    assert Number(s[2..]) == s[2] + 256 * Number(s[3..]);
    assert s[1..][1..] == s[2..] && s[2..][1..] == s[3..] && s[3..][1..] == [];
  }

  lemma TwoBytes(s: Bytes)
    requires |s| == 2
    ensures Number(s) == Quad(s[0], s[1], 0, 0)
  {
    assert Number(s[1..]) == s[1];
  }

  /** The number of four bytes is one number exactly for one row of bytes. */
  lemma FormatIs(s: Bytes)
    requires |s| == 4
    ensures Number(s) == 0xb54b_fb65 <==> s == KDB
    ensures Number(s) == 0xb54b_fb66 <==> s == KDBX2
    ensures Number(s) == 0xb54b_fb67 <==> s == KDBX
  {
    FourBytes(s);
    FourBytes(KDB);
    FourBytes(KDBX2);
    FourBytes(KDBX);
    LittleEndianOfNumber(s);
    LittleEndianOfNumber(KDB);
    LittleEndianOfNumber(KDBX2);
    LittleEndianOfNumber(KDBX);
    hide LittleEndian, Number;
  }

  /** Nothing else is let through, and of the oldest KDBX format everything. */
  lemma OtherFiles(data: Bytes, confirmed: seq<KdfCost>)
    ensures !IsKeePass(data) ==> ResourceCheck(data, confirmed) == REJECT
    ensures HasFormat(data, KDBX2) ==> ResourceCheck(data, confirmed) == ACCEPT
    ensures IsKeePass(data) && data[4..8] !in {KDB, KDBX2, KDBX} ==> ResourceCheck(data, confirmed) == REJECT
    ensures HasFormat(data, KDBX) && data[10..12] !in {[3, 0], [4, 0]} ==> ResourceCheck(data, confirmed) == REJECT
  {
    if IsKeePass(data) {
      FormatIs(data[4..8]);
      TwoBytes(data[10..12]);
      hide Number, Kdbx3Check, Kdbx4Check;
      assert data[10..12] == [data[10], data[11]];
    }
  }

  // ------------------------------------------------------------------------- KDB

  /** A KDB file has its whole header, and at most a thousand million AES rounds in it. */
  lemma KdbVerdict(data: Bytes, confirmed: seq<KdfCost>)
    requires HasFormat(data, KDB)
    ensures ResourceCheck(data, confirmed) ==
      if |data| >= 124 && Quad(data[120], data[121], data[122], data[123]) <= 1_000_000_000
      then ACCEPT else REJECT
  {
    FormatIs(data[4..8]);
    if |data| >= 124 {
      FourBytes(data[120..124]);
    }
    hide Number;
  }

  // ---------------------------------------------------------------------- KDBX 3

  /** The header of a KDBX 3 file written field by field, and whatever comes after it. */
  function Kdbx3File(minor: nat, fields: seq<Field>, end: Field, rest: Bytes): Bytes {
    [0x03, 0xd9, 0xa2, 0x9a] + KDBX + LittleEndian(minor, 2) + [3, 0] + HeaderBytes(fields, end, 2) + rest
  }

  lemma Kdbx3Layout(minor: nat, fields: seq<Field>, end: Field, rest: Bytes)
    ensures var data := Kdbx3File(minor, fields, end, rest);
            && |data| >= 12 && data[..4] == [0x03, 0xd9, 0xa2, 0x9a] && data[4..8] == KDBX && data[10..12] == [3, 0]
            && data[12..] == HeaderBytes(fields, end, 2) + rest
  {
    hide LittleEndian, HeaderBytes;
    var header := HeaderBytes(fields, end, 2);
    var front := [0x03, 0xd9, 0xa2, 0x9a] + KDBX + LittleEndian(minor, 2) + [3, 0];
    assert |front| == 12 && front[..4] == [0x03, 0xd9, 0xa2, 0x9a] && front[4..8] == KDBX && front[10..12] == [3, 0];
    assert Kdbx3File(minor, fields, end, rest) == front + (header + rest);
  }

  lemma JudgedAsKdbx3(data: Bytes, confirmed: seq<KdfCost>)
    requires HasFormat(data, KDBX) && data[10..12] == [3, 0]
    ensures ResourceCheck(data, confirmed) == Kdbx3Check(data)
  {
    FormatIs(data[4..8]);
    TwoBytes(data[10..12]);
    hide Number, Kdbx3Check;
  }

  ghost predicate LastField(fields: seq<Field>, kind: Byte, i: nat) {
    i < |fields| && fields[i].kind == kind && forall j :: i < j < |fields| ==> fields[j].kind != kind
  }

  lemma {:induction false} LastOfIs(fields: seq<Field>, kind: Byte)
    ensures LastOf(fields, kind).None? <==> forall f <- fields :: f.kind != kind
    ensures forall i: nat :: LastField(fields, kind, i) ==> LastOf(fields, kind) == Some(fields[i].value)
    ensures LastOf(fields, kind).Some? ==> exists i: nat :: LastField(fields, kind, i)
    decreases |fields|
  {
    if fields != [] {
      var n := |fields| - 1;
      assert fields == fields[..n] + [fields[n]];
      if fields[n].kind == kind {
        assert LastField(fields, kind, n);
      } else {
        LastOfIs(fields[..n], kind);
        forall i: nat ensures LastField(fields, kind, i) <==> LastField(fields[..n], kind, i) {
        }
      }
    }
  }

  ghost predicate Sized3(fields: seq<Field>) {
    forall f <- fields ::
      && (f.kind == 3 ==> |f.value| == 4) && (f.kind == 10 ==> |f.value| == 4) && (f.kind == 6 ==> |f.value| == 8)
  }

  /** The last rounds field, of kind 6, holds `n` in eight bytes, the least one first. */
  ghost predicate StatesRounds(fields: seq<Field>, n: nat) {
    exists i: nat :: LastField(fields, 6, i) && fields[i].value == LittleEndian(n, 8) && n < 0x1_0000_0000_0000_0000
  }

  /** A KDBX 3 file is let through exactly when its numeric fields have their sizes and the last
      rounds it states, if it states any, are at most a thousand million. */
  lemma Kdbx3Verdict(minor: nat, fields: seq<Field>, end: Field, rest: Bytes, confirmed: seq<KdfCost>)
    requires end.kind == 0 && |end.value| < 0x1_0000 && |Kdbx3File(minor, fields, end, rest)| <= 250_000_000
    requires forall f <- fields :: f.kind != 0 && |f.value| < 0x1_0000
    ensures ResourceCheck(Kdbx3File(minor, fields, end, rest), confirmed) ==
      if Sized3(fields) && forall n :: StatesRounds(fields, n) ==> n <= 1_000_000_000 then ACCEPT else REJECT
  {
    var data := Kdbx3File(minor, fields, end, rest);
    Kdbx3Layout(minor, fields, end, rest);
    JudgedAsKdbx3(data, confirmed);
    Widths();
    HeaderRoundTrip(fields, end, rest, 2);
    hide ResourceCheck, Number, LittleEndian, HeaderFields, HeaderBytes, LastOf, CheckRounds, Power256, Kdbx3File;
    assert Sized3(fields) <==> forall f <- fields :: Kdbx3FieldOk(f);
    if Sized3(fields) {
      RoundsVerdict(fields);
    }
  }

  lemma RoundsVerdict(fields: seq<Field>)
    requires Sized3(fields)
    ensures CheckRounds(LastOf(fields, 6)) ==
      if forall n :: StatesRounds(fields, n) ==> n <= 1_000_000_000 then ACCEPT else REJECT
  {
    LastOfIs(fields, 6);
    Widths();
    forall n | StatesRounds(fields, n) ensures LastOf(fields, 6).Some? && Number(LastOf(fields, 6).value) == n {
      NumberOfLittleEndian(n, 8);
    }
    if LastOf(fields, 6).Some? {
      var i: nat :| LastField(fields, 6, i);
      assert fields[i] in fields;
      LittleEndianOfNumber(fields[i].value);
      assert StatesRounds(fields, Number(fields[i].value));
    }
    hide Number, LittleEndian;
  }

  // ------------------------------------------------------- the cost in a dictionary

  const AES: Bytes := [0xc9, 0xd9, 0xf3, 0x9a, 0x62, 0x8a, 0x44, 0x60, 0xbf, 0x74, 0x0d, 0x08, 0xc1, 0x8a, 0x4f, 0xea]
  const AES_ALIAS: Bytes :=
    [0x7c, 0x02, 0xbb, 0x82, 0x79, 0xa7, 0x4a, 0xc0, 0x92, 0x7d, 0x11, 0x4a, 0x00, 0x64, 0x82, 0x38]
  const ARGON2D: Bytes :=
    [0xef, 0x63, 0x6d, 0xdf, 0x8c, 0x29, 0x44, 0x4b, 0x91, 0xf7, 0xa9, 0xa4, 0x03, 0xe3, 0x0a, 0x0c]
  const ARGON2ID: Bytes :=
    [0x9e, 0x29, 0x8b, 0x19, 0x56, 0xdb, 0x47, 0x73, 0xb2, 0x3d, 0xfc, 0x3e, 0xc6, 0xf0, 0xa1, 0xe6]

  /** With AES the rounds alone decide, under either identifier; without an identifier, or with
      one that is neither AES nor Argon2, nothing does. */
  lemma AesVerdict(fields: KdfFields, confirmed: seq<KdfCost>)
    ensures fields.uuid == Some(AES) || fields.uuid == Some(AES_ALIAS) ==>
      ValidateKdf(fields, confirmed) == if fields.rounds.Some? && fields.rounds.value > 1_000_000_000 then REJECT else ACCEPT
    ensures fields.uuid.None? || fields.uuid.value !in {AES, AES_ALIAS, ARGON2D, ARGON2ID} ==>
      ValidateKdf(fields, confirmed) == ACCEPT
  {
  }

  /** Memory in bytes, at least one MiB for each lane; an absent number of lanes counts as one. */
  function Work(memory: nat, passes: nat, lanes: Option<nat>): nat {
    var floor := (if lanes.None? then 1 else lanes.value) * 1_048_576;
    (if memory < floor then floor else memory) * passes
  }

  ghost predicate MachineNumbers(fields: KdfFields) {
    && (fields.memory.Some? ==> fields.memory.value < 0x1_0000_0000_0000_0000)
    && (fields.iterations.Some? ==> fields.iterations.value < 0x1_0000_0000_0000_0000)
    && (fields.parallelism.Some? ==> fields.parallelism.value < 0x1_0000_0000)
  }

  /** With Argon2: 1 GiB of memory, 524288 passes, 64 lanes and 512 GiB of work are the limits;
      above 32 GiB of work the very cost has to be confirmed. A cost that is not stated in full
      is bounded part by part. */
  lemma Argon2Verdict(fields: KdfFields, confirmed: seq<KdfCost>)
    requires MachineNumbers(fields) && (fields.uuid == Some(ARGON2D) || fields.uuid == Some(ARGON2ID))
    ensures
      var m, i, p := fields.memory, fields.iterations, fields.parallelism;
      var cost := KdfCost(if fields.uuid == Some(ARGON2ID) then Argon2id else Argon2d, if m.Some? then m.value else 0,
                          if i.Some? then i.value else 0, if p.Some? then p.value else 0);
      ValidateKdf(fields, confirmed) ==
        if (m.Some? && m.value > 1_073_741_824) || (i.Some? && i.value > 524_288) || (p.Some? && p.value > 64) then REJECT
        else if m.None? || i.None? then ACCEPT
        else if Work(m.value, i.value, p) > 549_755_813_888 then REJECT
        else if Work(m.value, i.value, p) > 34_359_738_368 && cost !in confirmed then Err(ConfirmationRequired(cost))
        else ACCEPT
  {
    if fields.memory.Some? && fields.iterations.Some? {
      WorkIsExact(fields, 549_755_813_888);
      WorkIsExact(fields, 34_359_738_368);
      assert ExactWork(fields) == Work(fields.memory.value, fields.iterations.value, fields.parallelism);
      hide Argon2Work, ExactWork, Work;
    }
  }

  // ---------------------------------------------------------------------- KDBX 4

  /** What a dictionary's values may be, by their type: numbers of 32 and 64 bits with and
      without a sign, a truth value, text, bytes. */
  predicate TypedValue(kind: Byte, value: Bytes) {
    || ((kind == 0x04 || kind == 0x0c) && |value| == 4) || ((kind == 0x05 || kind == 0x0d) && |value| == 8)
    || (kind == 0x08 && |value| == 1) || kind == 0x18 || kind == 0x42
  }

  /** The last value under this key and type, as a number, the least byte first. */
  function Stated(entries: seq<Entry>, key: Bytes, kind: Byte): Option<nat> {
    AsNumber(LastValue(entries, key, kind))
  }

  /** What a dictionary states, by the keys of the format: `$UUID`, `M`, `I`, `P` and `R`. */
  lemma DictionaryStates(entries: seq<Entry>)
    ensures FieldsOf(entries) == KdfFields(
      LastValue(entries, [0x24, 0x55, 0x55, 0x49, 0x44], 0x42), Stated(entries, [0x4d], 0x05),
      Stated(entries, [0x49], 0x05), Stated(entries, [0x50], 0x04), Stated(entries, [0x52], 0x05))
  {
    LastWins(entries);
  }

  lemma {:induction false} TypesDecide(entries: seq<Entry>)
    requires forall e <- entries :: |e.key| < 0x1_0000_0000 && |e.value| < 0x1_0000_0000
    ensures (forall e <- entries :: WellTyped(e)) <==> forall e <- entries :: TypedValue(e.kind, e.value)
  {
    assert forall e <- entries :: WellTyped(e) <==> TypedValue(e.kind, e.value);
  }

  /** A KDBX 4 file with this dictionary is judged by what the dictionary states under the five
      keys: `AesVerdict` and `Argon2Verdict` say how. */
  lemma Kdbx4Verdict(entries: seq<Entry>, rest: Bytes, confirmed: seq<KdfCost>)
    requires forall e <- entries :: TypedValue(e.kind, e.value) && |e.key| < 0x1_0000_0000 && |e.value| < 0x1_0000_0000
    requires |Serialize(entries)| < 0x1_0000_0000 && |Kdbx4File(entries, rest)| <= 250_000_000
    ensures HasFormat(Kdbx4File(entries, rest), KDBX) && Kdbx4File(entries, rest)[10..12] == [4, 0]
    ensures ResourceCheck(Kdbx4File(entries, rest), confirmed) == ValidateKdf(KdfFields(
      LastValue(entries, [0x24, 0x55, 0x55, 0x49, 0x44], 0x42), Stated(entries, [0x4d], 0x05),
      Stated(entries, [0x49], 0x05), Stated(entries, [0x50], 0x04), Stated(entries, [0x52], 0x05)), confirmed)
  {
    TypesDecide(entries);
    DictionaryStates(entries);
    FileVerdict(entries, rest, confirmed);
    FileLayout(entries, rest);
    FormatBytes();
    hide ResourceCheck, ValidateKdf, Kdbx4File, Serialize, LastValue, FieldsOf;
  }

  lemma FormatBytes()
    ensures LittleEndian(KDBX_ID, 4) == KDBX && LittleEndian(4, 2) == [4, 0]
  {
    FourBytes(KDBX);
    LittleEndianOfNumber(KDBX);
    TwoBytes([4, 0]);
    LittleEndianOfNumber([4, 0]);
    hide LittleEndian, Number;
  }

  /** The header of a KDBX 4 file written field by field, and whatever comes after it. */
  function Kdbx4FileOf(minor: nat, fields: seq<Field>, end: Field, rest: Bytes): Bytes {
    [0x03, 0xd9, 0xa2, 0x9a] + KDBX + LittleEndian(minor, 2) + [4, 0] + HeaderBytes(fields, end, 4) + rest
  }

  lemma Kdbx4Layout(minor: nat, fields: seq<Field>, end: Field, rest: Bytes)
    ensures var data := Kdbx4FileOf(minor, fields, end, rest);
            && |data| >= 12 && data[..4] == [0x03, 0xd9, 0xa2, 0x9a] && data[4..8] == KDBX && data[10..12] == [4, 0]
            && data[12..] == HeaderBytes(fields, end, 4) + rest
  {
    hide LittleEndian, HeaderBytes;
    var header := HeaderBytes(fields, end, 4);
    var front := [0x03, 0xd9, 0xa2, 0x9a] + KDBX + LittleEndian(minor, 2) + [4, 0];
    assert |front| == 12 && front[..4] == [0x03, 0xd9, 0xa2, 0x9a] && front[4..8] == KDBX && front[10..12] == [4, 0];
    assert Kdbx4FileOf(minor, fields, end, rest) == front + (header + rest);
  }

  lemma JudgedAsKdbx4(data: Bytes, confirmed: seq<KdfCost>)
    requires HasFormat(data, KDBX) && data[10..12] == [4, 0]
    ensures ResourceCheck(data, confirmed) == Kdbx4Check(data, confirmed)
  {
    FormatIs(data[4..8]);
    TwoBytes(data[10..12]);
    hide Number, Kdbx4Check;
  }

  /** These bytes are the dictionary of these entries. */
  ghost predicate IsDictionary(bytes: Bytes, entries: seq<Entry>) {
    && (forall e <- entries :: TypedValue(e.kind, e.value) && |e.key| < 0x1_0000_0000 && |e.value| < 0x1_0000_0000)
    && bytes == Serialize(entries)
  }

  lemma DictionaryIs(bytes: Bytes, entries: seq<Entry>)
    ensures IsDictionary(bytes, entries) <==> Entries(bytes) == Some(entries)
  {
    AcceptedIffSerialised(bytes, entries);
    assert forall e <- entries :: WellTyped(e) <==>
      TypedValue(e.kind, e.value) && |e.key| < 0x1_0000_0000 && |e.value| < 0x1_0000_0000;
    hide Entries, Serialize;
  }

  /** The compression field has four bytes, and the parameters of the key derivation and the
      public data are dictionaries. */
  ghost predicate Sized4(fields: seq<Field>) {
    forall f <- fields ::
      && (f.kind == 3 ==> |f.value| == 4)
      && (f.kind == 11 || f.kind == 12 ==> exists entries :: IsDictionary(f.value, entries))
  }

  ghost predicate StatesCosts(fields: seq<Field>, entries: seq<Entry>) {
    exists i: nat :: LastField(fields, 11, i) && IsDictionary(fields[i].value, entries)
  }

  lemma SizedIs(fields: seq<Field>)
    ensures Sized4(fields) <==> forall f <- fields :: Kdbx4FieldOk(f)
  {
    forall f | f in fields ensures (exists entries :: IsDictionary(f.value, entries)) <==> Entries(f.value).Some? {
      if Entries(f.value).Some? {
        DictionaryIs(f.value, Entries(f.value).value);
      }
      forall entries ensures IsDictionary(f.value, entries) <==> Entries(f.value) == Some(entries) {
        DictionaryIs(f.value, entries);
      }
    }
    hide Entries, IsDictionary;
  }

  /** Whatever fields its header has: a KDBX 4 file whose fields have their shapes is judged by
      the last parameters of the key derivation, and let through if there are none. */
  lemma Kdbx4FieldsVerdict(minor: nat, fields: seq<Field>, end: Field, rest: Bytes, confirmed: seq<KdfCost>, entries: seq<Entry>)
    requires end.kind == 0 && |end.value| < 0x1_0000_0000 && |Kdbx4FileOf(minor, fields, end, rest)| <= 250_000_000
    requires forall f <- fields :: f.kind != 0 && |f.value| < 0x1_0000_0000
    ensures
      var verdict := ResourceCheck(Kdbx4FileOf(minor, fields, end, rest), confirmed);
      && (!Sized4(fields) ==> verdict == REJECT)
      && (Sized4(fields) && StatesCosts(fields, entries) ==> verdict == ValidateKdf(FieldsOf(entries), confirmed))
      && (Sized4(fields) && (forall f <- fields :: f.kind != 11) ==> verdict == ACCEPT)
  {
    var data := Kdbx4FileOf(minor, fields, end, rest);
    Kdbx4Layout(minor, fields, end, rest);
    JudgedAsKdbx4(data, confirmed);
    Widths();
    HeaderRoundTrip(fields, end, rest, 4);
    SizedIs(fields);
    LastOfIs(fields, 11);
    hide ResourceCheck, Number, LittleEndian, HeaderFields, HeaderBytes, LastOf, Power256, Kdbx4FileOf, Sized4, Kdbx4FieldOk,
      ValidateKdf, FieldsOf;
    if StatesCosts(fields, entries) {
      var i: nat :| LastField(fields, 11, i) && IsDictionary(fields[i].value, entries);
      DictionaryIs(fields[i].value, entries);
    }
  }

  /** A KDBX file whose header was not written field by field, up to a terminator, is refused. */
  lemma UnwrittenRefused(data: Bytes, confirmed: seq<KdfCost>)
    requires HasFormat(data, KDBX)
    ensures data[10..12] == [3, 0] && (forall fields, end, rest :: !IsWritten(data[12..], 2, fields, end, rest))
            ==> ResourceCheck(data, confirmed) == REJECT
    ensures data[10..12] == [4, 0] && (forall fields, end, rest :: !IsWritten(data[12..], 4, fields, end, rest))
            ==> ResourceCheck(data, confirmed) == REJECT
  {
    hide HeaderFields, IsWritten, ResourceCheck, CheckRounds, Number;
    if data[10..12] == [3, 0] {
      JudgedAsKdbx3(data, confirmed);
      if HeaderFields(data[12..], 2).Some? {
        var end, rest := HeaderWasWritten(data[12..], 2);
      }
    }
    if data[10..12] == [4, 0] {
      JudgedAsKdbx4(data, confirmed);
      if HeaderFields(data[12..], 4).Some? {
        var end, rest := HeaderWasWritten(data[12..], 4);
      }
    }
  }
}
