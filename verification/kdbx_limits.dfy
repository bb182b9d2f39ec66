/**
 The resource check of a KeePass file before it is opened: two header formats,
 and the gate on the cost of its key derivation. All failures are one error,
 except the one that asks the user to confirm a cost.
 */
module KdbxLimits {
  import opened Wrappers
  import opened V = VariantDictionary

  const MAX_KDBX_BYTES: nat := 250_000_000
  const VERSION_HEADER_LEN: nat := 12
  const KDB_HEADER_LEN: nat := 124
  const SIGNATURE: Bytes := [0x03, 0xd9, 0xa2, 0x9a]
  const KDB_ID: nat := 0xb54b_fb65
  const KDBX2_ID: nat := 0xb54b_fb66
  const KDBX_ID: nat := 0xb54b_fb67

  const KDF_AES: Bytes :=
    [0xc9, 0xd9, 0xf3, 0x9a, 0x62, 0x8a, 0x44, 0x60, 0xbf, 0x74, 0x0d, 0x08, 0xc1, 0x8a, 0x4f, 0xea]
  const KDF_AES_LEGACY_ALIAS: Bytes :=
    [0x7c, 0x02, 0xbb, 0x82, 0x79, 0xa7, 0x4a, 0xc0, 0x92, 0x7d, 0x11, 0x4a, 0x00, 0x64, 0x82, 0x38]
  const KDF_ARGON2: Bytes :=
    [0xef, 0x63, 0x6d, 0xdf, 0x8c, 0x29, 0x44, 0x4b, 0x91, 0xf7, 0xa9, 0xa4, 0x03, 0xe3, 0x0a, 0x0c]
  const KDF_ARGON2ID: Bytes :=
    [0x9e, 0x29, 0x8b, 0x19, 0x56, 0xdb, 0x47, 0x73, 0xb2, 0x3d, 0xfc, 0x3e, 0xc6, 0xf0, 0xa1, 0xe6]

  const MIB: nat := 1024 * 1024
  const GIB: nat := 1024 * MIB
  const MAX_AES_ROUNDS: nat := 1_000_000_000
  const MAX_ARGON2_MEMORY: nat := GIB
  const MAX_ARGON2_PARALLELISM: nat := 64
  const MAX_ARGON2_WORK: nat := 32 * GIB
  const MAX_CONFIRMED_ARGON2_WORK: nat := 16 * MAX_ARGON2_WORK
  const MAX_ARGON2_ITERATIONS: nat := MAX_CONFIRMED_ARGON2_WORK / MIB

  datatype Argon2Variant = Argon2d | Argon2id

  datatype KdfCost = KdfCost(variant: Argon2Variant, memory: nat, iterations: nat, parallelism: nat)

  datatype LimitError = InvalidData | ConfirmationRequired(cost: KdfCost)

  type Check = Result<Unit, LimitError>

  const ACCEPT: Check := Ok(Unit)
  const REJECT: Check := Err(InvalidData)

  // ----------------------------------------------------------- confirmed costs

  /** The process-wide set of costs the user said yes to. */
  class ConfirmedCosts {
    var costs: seq<KdfCost>

    constructor ()
      ensures costs == []
    {
      costs := [];
    }

    /** `set_confirmed_kdf_costs`. */
    method Set(stored: seq<KdfCost>)
      modifies this
      ensures costs == stored
    {
      costs := stored;
    }

    /** `confirm_kdf_cost`. */
    method Confirm(cost: KdfCost)
      modifies this
      ensures costs == if cost in old(costs) then old(costs) else old(costs) + [cost]
      ensures forall c :: c in costs <==> c == cost || c in old(costs)
    {
      if cost !in costs {
        costs := costs + [cost];
      }
    }

    /** `remember_kdf_cost`: confirm for this process, and keep in the settings. Writing the
        settings replaces the set by what they hold, and nothing is lost by it. */
    method Remember(cost: KdfCost, stored: seq<KdfCost>) returns (saved: seq<KdfCost>)
      requires forall c :: c in costs <==> c in stored
      modifies this
      ensures forall c :: c in costs <==> c == cost || c in old(costs)
      ensures forall c :: c in costs <==> c in saved
    {
      Confirm(cost);
      saved := stored;
      if cost !in stored {
        saved := stored + [cost];
        Set(saved);
      }
    }
  }

  // ------------------------------------------------------------- the cost gate

  function Max(a: nat, b: nat): nat { if a < b then b else a }

  /** Multiplication in 64 bits that stays at the largest number instead of wrapping. */
  function SaturatingMul(a: nat, b: nat): nat { if a * b < U64 then a * b else U64 - 1 }

  function Or(value: Option<nat>, otherwise: nat): nat {
    match value
    case None => otherwise
    case Some(v) => v
  }

  /** `argon2_work`. */
  function Argon2Work(memory: nat, iterations: nat, parallelism: Option<nat>): nat {
    SaturatingMul(Max(memory, SaturatingMul(Or(parallelism, 1), MIB)), iterations)
  }

  function ValidateAesRounds(rounds: nat): Check {
    if rounds > MAX_AES_ROUNDS then REJECT else ACCEPT
  }

  predicate IsArgon2(fields: KdfFields) {
    fields.uuid == Some(KDF_ARGON2) || fields.uuid == Some(KDF_ARGON2ID)
  }

  /** The cost the user would be asked about. */
  function CostOf(fields: KdfFields): KdfCost
    requires fields.memory.Some? && fields.iterations.Some?
  {
    KdfCost(if fields.uuid == Some(KDF_ARGON2ID) then Argon2id else Argon2d,
            fields.memory.value, fields.iterations.value, Or(fields.parallelism, 0))
  }

  /** `validate_kdf`. */
  function ValidateKdf(fields: KdfFields, confirmed: seq<KdfCost>): Check {
    ValidateKdfCapped(fields, confirmed, MAX_ARGON2_ITERATIONS)
  }

  /** The same with another cap on the iterations. */
  function ValidateKdfCapped(fields: KdfFields, confirmed: seq<KdfCost>, iterationCap: nat): Check {
    if fields.uuid.None? then ACCEPT
    else if fields.uuid.value == KDF_AES || fields.uuid.value == KDF_AES_LEGACY_ALIAS then
      match fields.rounds
      case Some(rounds) => ValidateAesRounds(rounds)
      case None => ACCEPT
    else if fields.uuid.value != KDF_ARGON2 && fields.uuid.value != KDF_ARGON2ID then ACCEPT
    else if fields.memory.Some? && fields.memory.value > MAX_ARGON2_MEMORY then REJECT
    else if fields.iterations.Some? && fields.iterations.value > iterationCap then REJECT
    else if fields.parallelism.Some? && fields.parallelism.value > MAX_ARGON2_PARALLELISM then REJECT
    else if fields.memory.None? || fields.iterations.None? then ACCEPT
    else
      var work := Argon2Work(fields.memory.value, fields.iterations.value, fields.parallelism);
      if work > MAX_CONFIRMED_ARGON2_WORK then REJECT
      else if work > MAX_ARGON2_WORK && CostOf(fields) !in confirmed then Err(ConfirmationRequired(CostOf(fields)))
      else ACCEPT
  }

  // ------------------------------------------------- what the gate lets through

  /** The work in unbounded numbers: the larger of the memory and one MiB a lane, each pass. */
  function ExactWork(fields: KdfFields): nat
    requires fields.memory.Some? && fields.iterations.Some?
  {
    Max(fields.memory.value, Or(fields.parallelism, 1) * MIB) * fields.iterations.value
  }

  /** An Argon2 header that states memory and iterations, as 64-bit and 32-bit numbers are. */
  ghost predicate StatesCost(fields: KdfFields) {
    && IsArgon2(fields) && fields.memory.Some? && fields.iterations.Some?
    && fields.memory.value < U64 && fields.iterations.value < U64 && Or(fields.parallelism, 0) < U32
  }

  lemma Product(a: nat, b: nat, c: nat)
    requires a <= b
    ensures a * c <= b * c
  {
  }

  /** Saturation changes no comparison with a limit. */
  lemma WorkIsExact(fields: KdfFields, limit: nat)
    requires StatesCost(fields) && limit < U64 - 1
    ensures Argon2Work(fields.memory.value, fields.iterations.value, fields.parallelism) <= limit <==>
            ExactWork(fields) <= limit
  {
  }

  ghost predicate WithinLimits(fields: KdfFields)
    requires StatesCost(fields)
  {
    && fields.memory.value <= GIB && Or(fields.parallelism, 1) <= 64
    && fields.iterations.value <= MAX_ARGON2_ITERATIONS
    && ExactWork(fields) <= 512 * GIB
  }

  /** Exactly which costs open without a question, which are asked about, and which never open. */
  lemma Argon2Gate(fields: KdfFields, confirmed: seq<KdfCost>)
    requires StatesCost(fields)
    ensures ValidateKdf(fields, confirmed) == ACCEPT <==>
      WithinLimits(fields) && (ExactWork(fields) <= 32 * GIB || CostOf(fields) in confirmed)
    ensures forall cost :: ValidateKdf(fields, confirmed) == Err(ConfirmationRequired(cost)) <==>
      WithinLimits(fields) && ExactWork(fields) > 32 * GIB && cost == CostOf(fields) && cost !in confirmed
  {
  }

  /** With at least one lane the work cap is reached no later than the iteration cap. */
  lemma CapFollowsFromWork(fields: KdfFields)
    requires StatesCost(fields) && fields.parallelism != Some(0) && ExactWork(fields) <= 512 * GIB
    ensures fields.iterations.value <= MAX_ARGON2_ITERATIONS
  {
    Product(MIB, Max(fields.memory.value, Or(fields.parallelism, 1) * MIB), fields.iterations.value);
  }

  ghost predicate CapIsIdle(fields: KdfFields, confirmed: seq<KdfCost>) {
    ValidateKdf(fields, confirmed) == ValidateKdfCapped(fields, confirmed, U64)
  }

  /** Of a header that states memory and iterations, the iteration cap decides
      nothing by itself if and only if the lanes are not given as none. */
  lemma CapIdleIffLanes(parallelism: Option<nat>)
    requires Or(parallelism, 0) < U32
    ensures parallelism != Some(0) <==>
      forall fields, confirmed :: StatesCost(fields) && fields.parallelism == parallelism ==> CapIsIdle(fields, confirmed)
  {
    if parallelism == Some(0) {
      var fields := KdfFields(Some(KDF_ARGON2ID), Some(1), Some(MAX_ARGON2_ITERATIONS + 1), Some(0), None);
      assert ExactWork(fields) == MAX_ARGON2_ITERATIONS + 1;
      assert StatesCost(fields) && !CapIsIdle(fields, []);
    } else {
      forall fields, confirmed | StatesCost(fields) && fields.parallelism == parallelism
        ensures CapIsIdle(fields, confirmed)
      {
        WorkIsExact(fields, MAX_ARGON2_WORK);
        WorkIsExact(fields, MAX_CONFIRMED_ARGON2_WORK);
        if ExactWork(fields) <= 512 * GIB {
          CapFollowsFromWork(fields);
        }
      }
    }
  }

  // -------------------------------------------------- what one confirmation admits

  /** `g` is refused before the cost of `f` is confirmed, and accepted after. */
  ghost predicate NewlyAdmits(f: KdfFields, g: KdfFields, confirmed: seq<KdfCost>)
    requires StatesCost(f)
  {
    ValidateKdf(g, confirmed) != ACCEPT && ValidateKdf(g, confirmed + [CostOf(f)]) == ACCEPT
  }

  /** The same settings, down to the lanes; no lanes stated counts as none. */
  ghost predicate SameSettings(f: KdfFields, g: KdfFields) {
    && f.uuid == g.uuid && f.memory == g.memory && f.iterations == g.iterations
    && Or(f.parallelism, 0) == Or(g.parallelism, 0)
  }

  /** Confirming one cost admits, of all the headers that asked, exactly the ones with the same settings. */
  lemma ConfirmationIsExact(f: KdfFields, g: KdfFields, confirmed: seq<KdfCost>)
    requires StatesCost(f) && StatesCost(g)
    ensures NewlyAdmits(f, g, confirmed) <==>
      ValidateKdf(g, confirmed) == Err(ConfirmationRequired(CostOf(g))) && SameSettings(f, g)
  {
  }

  /** Among headers that state their lanes, it admits no cost but the one confirmed. */
  lemma NoOtherCostWithLanes(f: KdfFields, g: KdfFields, confirmed: seq<KdfCost>)
    requires StatesCost(f) && StatesCost(g) && f.parallelism.Some? && g.parallelism.Some?
    requires NewlyAdmits(f, g, confirmed)
    ensures g.uuid == f.uuid && g.memory == f.memory && g.iterations == f.iterations && g.parallelism == f.parallelism
    ensures ExactWork(g) == ExactWork(f)
  {
  }

  /** A header without lanes shares its cost with one of zero lanes, at twice the work. */
  lemma AbsentLanesShareACost()
    ensures exists f, g :: StatesCost(f) && StatesCost(g) && NewlyAdmits(f, g, []) && ExactWork(g) == 2 * ExactWork(f)
  {
    var f := KdfFields(Some(KDF_ARGON2), Some(524_288), Some(131_072), Some(0), None);
    var g := f.(parallelism := None);
    assert ExactWork(f) == 64 * GIB && ExactWork(g) == 128 * GIB;
    Argon2Gate(g, []);
    ConfirmationIsExact(f, g, []);
    assert StatesCost(f) && StatesCost(g) && NewlyAdmits(f, g, []);
  }

  // ------------------------------------------------------------- header fields

  datatype Field = Field(kind: Byte, value: Bytes)

  function FieldSize(f: Field, width: nat): nat { 1 + width + |f.value| }

  function FirstField(s: Bytes, width: nat): Option<Field> {
    if s == [] then None
    else
      match ReadNumber(s, 1, width)
      case None => None
      case Some(length) =>
        match Slice(s, 1 + width, length)
        case None => None
        case Some(value) => Some(Field(s[0], value))
  }

  /** The fields of a header up to its terminator, a field of kind 0; lengths
      take `width` bytes. What follows the terminator is not looked at. */
  function HeaderFields(s: Bytes, width: nat): Option<seq<Field>>
    decreases |s|
  {
    match FirstField(s, width)
    case None => None
    case Some(f) =>
      if f.kind == 0 then Some([])
      else if FieldSize(f, width) <= |s| then
        match HeaderFields(s[FieldSize(f, width)..], width)
        case None => None
        case Some(rest) => Some([f] + rest)
      else None
  }

  function FieldBytes(f: Field, width: nat): Bytes {
    [f.kind] + LittleEndian(|f.value|, width) + f.value
  }

  function HeaderBytes(fields: seq<Field>, end: Field, width: nat): Bytes {
    if fields == [] then FieldBytes(end, width) else FieldBytes(fields[0], width) + HeaderBytes(fields[1..], end, width)
  }

  lemma FieldReadBack(f: Field, rest: Bytes, width: nat)
    requires |f.value| < Power256(width)
    ensures var s := FieldBytes(f, width) + rest;
            FirstField(s, width) == Some(f) && FieldSize(f, width) <= |s| && s[FieldSize(f, width)..] == rest
  {
    NumberOfLittleEndian(|f.value|, width);
    hide Number, LittleEndian;
    var s := FieldBytes(f, width) + rest;
    assert s[0] == f.kind;
    assert s[1..1 + width] == LittleEndian(|f.value|, width);
    assert s[1 + width..1 + width + |f.value|] == f.value;
  }

  /** A header that was written field by field is read back as those fields, whatever comes after it. */
  lemma {:induction false} HeaderRoundTrip(fields: seq<Field>, end: Field, rest: Bytes, width: nat)
    requires end.kind == 0 && |end.value| < Power256(width)
    requires forall f <- fields :: f.kind != 0 && |f.value| < Power256(width)
    ensures HeaderFields(HeaderBytes(fields, end, width) + rest, width) == Some(fields)
    decreases |fields|
  {
    hide FirstField, FieldBytes;
    if fields == [] {
      FieldReadBack(end, rest, width);
    } else {
      var f := fields[0];
      assert f in fields;
      var more := HeaderBytes(fields[1..], end, width) + rest;
      FieldReadBack(f, more, width);
      assert HeaderBytes(fields, end, width) + rest == FieldBytes(f, width) + more;
      HeaderRoundTrip(fields[1..], end, rest, width);
      assert fields == [f] + fields[1..];
    }
  }

  lemma FieldWasWritten(s: Bytes, width: nat)
    requires FirstField(s, width).Some?
    ensures var f := FirstField(s, width).value;
            FieldSize(f, width) <= |s| && |f.value| < Power256(width) && s == FieldBytes(f, width) + s[FieldSize(f, width)..]
  {
    LittleEndianOfNumber(s[1..1 + width]);
    hide Number, LittleEndian, Power256;
    var f := FirstField(s, width).value;
    assert s[..FieldSize(f, width)] == [s[0]] + s[1..1 + width] + s[1 + width..FieldSize(f, width)];
  }

  /** `s` begins with these fields and a terminator, written one after the other. */
  ghost predicate IsWritten(s: Bytes, width: nat, fields: seq<Field>, end: Field, rest: Bytes) {
    && end.kind == 0 && |end.value| < Power256(width)
    && (forall f <- fields :: f.kind != 0 && |f.value| < Power256(width))
    && s == HeaderBytes(fields, end, width) + rest
  }

  /** What is read as a header was written field by field. */
  lemma {:induction false} HeaderWasWritten(s: Bytes, width: nat) returns (end: Field, rest: Bytes)
    requires HeaderFields(s, width).Some?
    ensures IsWritten(s, width, HeaderFields(s, width).value, end, rest)
    decreases |s|
  {
    var f := FirstField(s, width).value;
    FieldWasWritten(s, width);
    hide FirstField, FieldBytes, Power256;
    var more := s[FieldSize(f, width)..];
    if f.kind == 0 {
      end, rest := f, more;
    } else {
      end, rest := HeaderWasWritten(more, width);
      var fields := HeaderFields(s, width).value;
      assert fields[1..] == HeaderFields(more, width).value;
      assert FieldBytes(f, width) + (HeaderBytes(fields[1..], end, width) + rest)
          == FieldBytes(f, width) + HeaderBytes(fields[1..], end, width) + rest;
    }
  }

  // ------------------------------------------------------------------ KDBX 3

  predicate Kdbx3FieldOk(f: Field) {
    && (f.kind == 3 || f.kind == 10 ==> |f.value| == 4)
    && (f.kind == 6 ==> |f.value| == 8)
  }

  /** The value of the last field of this kind. */
  function LastOf(fields: seq<Field>, kind: Byte): Option<Bytes> {
    if fields == [] then None
    else if fields[|fields| - 1].kind == kind then Some(fields[|fields| - 1].value)
    else LastOf(fields[..|fields| - 1], kind)
  }

  function CheckRounds(rounds: Option<Bytes>): Check {
    match rounds
    case None => ACCEPT
    case Some(bytes) => ValidateAesRounds(Number(bytes))
  }

  /** What a KDBX 3 header is checked for: readable fields, fixed lengths, and the last rounds. */
  function Kdbx3Check(data: Bytes): Check {
    if |data| < VERSION_HEADER_LEN then REJECT
    else
      match HeaderFields(data[VERSION_HEADER_LEN..], 2)
      case None => REJECT
      case Some(fields) =>
        if exists f <- fields :: !Kdbx3FieldOk(f) then REJECT else CheckRounds(LastOf(fields, 6))
  }

  /** One turn of a header loop: the field that starts at `position`. */
  method ReadField(data: Bytes, position: nat, width: nat) returns (r: Option<Field>)
    requires position <= |data|
    ensures r == FirstField(data[position..], width)
    ensures r.Some? ==> position + FieldSize(r.value, width) <= |data|
  {
    hide Number;
    if position == |data| {
      return None;
    }
    Shift(data, position, 1, width);
    var length := ReadNumber(data, position + 1, width);
    if length.None? {
      return None;
    }
    Shift(data, position, 1 + width, length.value);
    var value := Slice(data, position + 1 + width, length.value);
    if value.None? {
      return None;
    }
    return Some(Field(data[position], value.value));
  }

  lemma LastOfMore(fields: seq<Field>, f: Field, kind: Byte)
    ensures LastOf(fields + [f], kind) == if f.kind == kind then Some(f.value) else LastOf(fields, kind)
  {
  }

  lemma FieldsMove(read: seq<Field>, data: Bytes, position: nat, width: nat)
    requires position <= |data| && FirstField(data[position..], width).Some?
    ensures var f := FirstField(data[position..], width).value;
            && position + FieldSize(f, width) <= |data|
            && Prepend(read, HeaderFields(data[position..], width)) ==
               if f.kind == 0 then Some(read)
               else Prepend(read + [f], HeaderFields(data[position + FieldSize(f, width)..], width))
  {
    var f := FirstField(data[position..], width).value;
    assert data[position..][FieldSize(f, width)..] == data[position + FieldSize(f, width)..];
    if f.kind == 0 {
      assert read + [] == read;
    } else if HeaderFields(data[position + FieldSize(f, width)..], width).Some? {
      var rest := HeaderFields(data[position + FieldSize(f, width)..], width).value;
      assert read + ([f] + rest) == read + [f] + rest;
    }
  }

  /** `validate_kdbx3_header`. */
  method ValidateKdbx3Header(data: Bytes) returns (r: Check)
    requires |data| >= VERSION_HEADER_LEN
    ensures r == Kdbx3Check(data)
  {
    hide Number, FirstField, HeaderFields, LastOf;
    var position := VERSION_HEADER_LEN;
    var rounds: Option<nat> := None;
    ghost var read: seq<Field> := [];
    ghost var all := HeaderFields(data[VERSION_HEADER_LEN..], 2);
    NothingBefore(all);
    EmptyLast(6);
    while true
      invariant VERSION_HEADER_LEN <= position <= |data|
      invariant rounds == AsNumber(LastOf(read, 6))
      invariant forall f <- read :: Kdbx3FieldOk(f)
      invariant all == Prepend(read, HeaderFields(data[position..], 2))
      decreases |data| - position
    {
      var field := ReadField(data, position, 2);
      if field.None? {
        NoField(data[position..], 2);
        return REJECT;
      }
      FieldsMove(read, data, position, 2);
      var f := field.value;
      position := position + FieldSize(f, 2);
      if f.kind == 0 {
        break;
      }
      LastOfMore(read, f, 6);
      read := read + [f];
      assert all.Some? ==> f in read && forall g <- read :: g in all.value;
      if (f.kind == 3 || f.kind == 10) && |f.value| != 4 {
        return REJECT;
      }
      if f.kind == 6 {
        if |f.value| != 8 {
          return REJECT;
        }
        rounds := Some(Number(f.value));
      }
    }
    if rounds.Some? {
      return ValidateAesRounds(rounds.value);
    }
    return ACCEPT;
  }

  lemma NoField(s: Bytes, width: nat)
    requires FirstField(s, width).None?
    ensures HeaderFields(s, width).None?
  {
  }

  lemma EmptyLast(kind: Byte)
    ensures LastOf([], kind) == None
  {
  }

  // ------------------------------------------------------------------ KDBX 4

  predicate Kdbx4FieldOk(f: Field) {
    && (f.kind == 3 ==> |f.value| == 4)
    && (f.kind == 11 || f.kind == 12 ==> Entries(f.value).Some?)
  }

  /** What the last key-derivation dictionary asks for. */
  function CheckKdf(dictionary: Option<Bytes>, confirmed: seq<KdfCost>): Check {
    if dictionary.None? then ACCEPT
    else
      match Entries(dictionary.value)
      case None => REJECT
      case Some(entries) => ValidateKdf(FieldsOf(entries), confirmed)
  }

  /** What a KDBX 4 header is checked for: readable fields, dictionaries that
      parse, and the cost in the last key-derivation dictionary. */
  function Kdbx4Check(data: Bytes, confirmed: seq<KdfCost>): Check {
    if |data| < VERSION_HEADER_LEN then REJECT
    else
      match HeaderFields(data[VERSION_HEADER_LEN..], 4)
      case None => REJECT
      case Some(fields) =>
        if exists f <- fields :: !Kdbx4FieldOk(f) then REJECT else CheckKdf(LastOf(fields, 11), confirmed)
  }

  function Dictionary(bytes: Option<Bytes>): Option<KdfFields> {
    if bytes.None? then None
    else match Entries(bytes.value) case None => None case Some(entries) => Some(FieldsOf(entries))
  }

  /** `validate_kdbx4_header`. */
  method ValidateKdbx4Header(data: Bytes, confirmed: seq<KdfCost>) returns (r: Check)
    requires |data| >= VERSION_HEADER_LEN
    ensures r == Kdbx4Check(data, confirmed)
  {
    hide Number, FirstField, HeaderFields, LastOf, Entries, FieldsOf, ValidateKdf;
    var position := VERSION_HEADER_LEN;
    var kdf: Option<KdfFields> := None;
    ghost var read: seq<Field> := [];
    ghost var all := HeaderFields(data[VERSION_HEADER_LEN..], 4);
    NothingBefore(all);
    EmptyLast(11);
    while true
      invariant VERSION_HEADER_LEN <= position <= |data|
      invariant kdf == Dictionary(LastOf(read, 11)) && (kdf.Some? <==> LastOf(read, 11).Some?)
      invariant forall f <- read :: Kdbx4FieldOk(f)
      invariant all == Prepend(read, HeaderFields(data[position..], 4))
      decreases |data| - position
    {
      var field := ReadField(data, position, 4);
      if field.None? {
        NoField(data[position..], 4);
        return REJECT;
      }
      FieldsMove(read, data, position, 4);
      var f := field.value;
      position := position + FieldSize(f, 4);
      if f.kind == 0 {
        break;
      }
      LastOfMore(read, f, 11);
      read := read + [f];
      assert all.Some? ==> f in read && forall g <- read :: g in all.value;
      if f.kind == 3 && |f.value| != 4 {
        return REJECT;
      }
      if f.kind == 11 || f.kind == 12 {
        var parsed := ParseVariantDictionary(f.value);
        if parsed.None? {
          return REJECT;
        }
        if f.kind == 11 {
          kdf := parsed;
        }
      }
    }
    if kdf.Some? {
      return ValidateKdf(kdf.value, confirmed);
    }
    return ACCEPT;
  }

  // ------------------------------------------------------------- the whole check

  /** What a file is checked for, by the kind of file it says it is. */
  function ResourceCheck(data: Bytes, confirmed: seq<KdfCost>): Check {
    if |data| > MAX_KDBX_BYTES || |data| < VERSION_HEADER_LEN || data[..4] != SIGNATURE then REJECT
    else
      var id := Number(data[4..8]);
      if id == KDB_ID then if |data| < KDB_HEADER_LEN then REJECT else ValidateAesRounds(Number(data[120..124]))
      else if id == KDBX2_ID then ACCEPT
      else if id == KDBX_ID then
        var major := Number(data[10..12]);
        if major == 3 then Kdbx3Check(data) else if major == 4 then Kdbx4Check(data, confirmed) else REJECT
      else REJECT
  }

  /** `validate_kdbx_resources`. */
  method ValidateKdbxResources(data: Bytes, confirmed: ConfirmedCosts) returns (r: Check)
    ensures r == ResourceCheck(data, confirmed.costs)
  {
    hide Number, Kdbx3Check, Kdbx4Check;
    if |data| > MAX_KDBX_BYTES || |data| < VERSION_HEADER_LEN {
      return REJECT;
    }
    var header := data[..VERSION_HEADER_LEN];
    assert header[..4] == data[..4] && header[4..8] == data[4..8] && header[10..12] == data[10..12];
    if header[..4] != SIGNATURE {
      return REJECT;
    }
    var id := Number(header[4..8]);
    if id == KDB_ID {
      if |data| < KDB_HEADER_LEN {
        return REJECT;
      }
      return ValidateAesRounds(Number(data[120..124]));
    } else if id == KDBX2_ID {
      return ACCEPT;
    } else if id == KDBX_ID {
      var major := Number(header[10..12]);
      if major == 3 {
        r := ValidateKdbx3Header(data);
      } else if major == 4 {
        r := ValidateKdbx4Header(data, confirmed.costs);
      } else {
        r := REJECT;
      }
    } else {
      r := REJECT;
    }
  }

  /** Whatever bytes a file consists of: when its cost is asked about, confirming that cost
      is all it takes, whatever else is confirmed with it; and no confirmation closes a file. */
  lemma ConfirmedOpens(data: Bytes, confirmed: seq<KdfCost>, more: seq<KdfCost>)
    requires forall c <- confirmed :: c in more
    ensures var verdict := ResourceCheck(data, confirmed);
            && (verdict == ACCEPT ==> ResourceCheck(data, more) == ACCEPT)
            && (verdict == REJECT ==> ResourceCheck(data, more) == REJECT)
            && (verdict.Err? && verdict.error.ConfirmationRequired? ==>
                  ResourceCheck(data, more) == if verdict.error.cost in more then ACCEPT else verdict)
  {
    hide Number, HeaderFields, LastOf, Entries, FieldsOf, Argon2Work;
  }

  /** "Allow and unlock": the question is asked once, and answered for good. */
  method AllowAndOpen(data: Bytes, confirmed: ConfirmedCosts, stored: seq<KdfCost>)
    returns (r: Check, saved: seq<KdfCost>)
    requires forall c :: c in confirmed.costs <==> c in stored
    modifies confirmed
    ensures r == if ResourceCheck(data, old(confirmed.costs)) == REJECT then REJECT else ACCEPT
    ensures r == ResourceCheck(data, confirmed.costs)
    ensures forall c :: c in confirmed.costs <==> c in saved
    ensures forall c :: c in confirmed.costs <==>
      c in old(confirmed.costs) || ResourceCheck(data, old(confirmed.costs)) == Err(ConfirmationRequired(c))
  {
    hide ResourceCheck;
    saved := stored;
    r := ValidateKdbxResources(data, confirmed);
    assert r.Ok? ==> r.value == Unit;
    if r.Err? && r.error.ConfirmationRequired? {
      ghost var before := confirmed.costs;
      saved := confirmed.Remember(r.error.cost, stored);
      ConfirmedOpens(data, before, confirmed.costs);
      r := ValidateKdbxResources(data, confirmed);
    }
  }

  /** The header of a KDBX 4 file that holds one key-derivation dictionary. */
  function Kdbx4File(entries: seq<Entry>, rest: Bytes): Bytes {
    SIGNATURE + LittleEndian(KDBX_ID, 4) + LittleEndian(1, 2) + LittleEndian(4, 2)
    + HeaderBytes([Field(11, Serialize(entries))], Field(0, []), 4) + rest
  }

  lemma FileLayout(entries: seq<Entry>, rest: Bytes)
    ensures var data := Kdbx4File(entries, rest);
            && |data| >= VERSION_HEADER_LEN && data[..4] == SIGNATURE
            && data[4..8] == LittleEndian(KDBX_ID, 4) && data[10..12] == LittleEndian(4, 2)
            && data[VERSION_HEADER_LEN..] == HeaderBytes([Field(11, Serialize(entries))], Field(0, []), 4) + rest
  {
    hide LittleEndian, Serialize, HeaderBytes, EntriesBytes;
    var header := HeaderBytes([Field(11, Serialize(entries))], Field(0, []), 4);
    var data := Kdbx4File(entries, rest);
    var front := SIGNATURE + LittleEndian(KDBX_ID, 4) + LittleEndian(1, 2) + LittleEndian(4, 2);
    assert data == front + (header + rest);
  }

  lemma FileFields(entries: seq<Entry>, rest: Bytes, confirmed: seq<KdfCost>)
    requires forall e <- entries :: WellTyped(e)
    requires |Serialize(entries)| < U32
    ensures Kdbx4Check(Kdbx4File(entries, rest), confirmed) == ValidateKdf(FieldsOf(entries), confirmed)
  {
    var field := Field(11, Serialize(entries));
    Widths();
    DictionaryRoundTrip(entries);
    HeaderRoundTrip([field], Field(0, []), rest, 4);
    LastOfMore([], field, 11);
    FileLayout(entries, rest);
    hide Serialize, Entries, FieldsOf, ValidateKdf, HeaderFields, LastOf, Kdbx4File, HeaderBytes, Power256;
    assert [] + [field] == [field];
  }

  /** From the bytes of a file to the verdict on its cost: whatever well-typed
      entries its dictionary holds, and whatever comes after the header. */
  lemma FileVerdict(entries: seq<Entry>, rest: Bytes, confirmed: seq<KdfCost>)
    requires forall e <- entries :: WellTyped(e)
    requires |Serialize(entries)| < U32 && |Kdbx4File(entries, rest)| <= MAX_KDBX_BYTES
    ensures ResourceCheck(Kdbx4File(entries, rest), confirmed) == ValidateKdf(FieldsOf(entries), confirmed)
  {
    Widths();
    NumberOfLittleEndian(KDBX_ID, 4);
    NumberOfLittleEndian(4, 2);
    FileLayout(entries, rest);
    FileFields(entries, rest, confirmed);
    hide Number, LittleEndian, Serialize, Kdbx4File, Kdbx4Check, FieldsOf, ValidateKdf, Power256;
  }

  // ------------------------------------------------- for whatever bytes there are

  /** What a dictionary states are 64-bit and 32-bit numbers. */
  lemma {:induction false} StatedNumbersFit(entries: seq<Entry>)
    requires forall e <- entries :: WellTyped(e)
    ensures var f := FieldsOf(entries);
            Or(f.memory, 0) < U64 && Or(f.iterations, 0) < U64 && Or(f.parallelism, 0) < U32
    decreases |entries|
  {
    if entries != [] {
      var n := |entries| - 1;
      assert entries[n] in entries && forall e <- entries[..n] :: e in entries;
      StatedNumbersFit(entries[..n]);
      Widths();
      LittleEndianOfNumber(entries[n].value);
    }
  }

  /** The parameters a KDBX 4 file is judged by: its last key-derivation dictionary. */
  function KdfOf(data: Bytes): Option<KdfFields>
    requires |data| >= VERSION_HEADER_LEN
  {
    match HeaderFields(data[VERSION_HEADER_LEN..], 4)
    case None => None
    case Some(fields) => Dictionary(LastOf(fields, 11))
  }

  lemma DictionaryFits(bytes: Option<Bytes>)
    ensures Dictionary(bytes).Some? ==>
      var f := Dictionary(bytes).value;
      Or(f.memory, 0) < U64 && Or(f.iterations, 0) < U64 && Or(f.parallelism, 0) < U32
  {
    if Dictionary(bytes).Some? {
      var entries := Entries(bytes.value).value;
      AcceptedIffSerialised(bytes.value, entries);
      StatedNumbersFit(entries);
    }
  }

  /** Whatever bytes a KDBX 4 file consists of: if it is let through and asks for
      Argon2 with memory and passes, its cost is within the limits, and above the
      free budget only if exactly that cost was confirmed. */
  lemma AcceptedFileIsBounded(data: Bytes, confirmed: seq<KdfCost>)
    requires |data| >= VERSION_HEADER_LEN && Kdbx4Check(data, confirmed) == ACCEPT
    requires KdfOf(data).Some? && IsArgon2(KdfOf(data).value)
    requires KdfOf(data).value.memory.Some? && KdfOf(data).value.iterations.Some?
    ensures var f := KdfOf(data).value;
            StatesCost(f) && WithinLimits(f) && (ExactWork(f) <= 32 * GIB || CostOf(f) in confirmed)
  {
    var fields := HeaderFields(data[VERSION_HEADER_LEN..], 4).value;
    DictionaryFits(LastOf(fields, 11));
    hide HeaderFields, LastOf, Entries, FieldsOf, ExactWork;
    Argon2Gate(KdfOf(data).value, confirmed);
  }
}
