/** The failure-compatible datatypes the other modules share, and text as they see it. */
module Wrappers {

  /** One more than the largest unsigned 64-bit number. */
  const U64: nat := 0x1_0000_0000_0000_0000

  datatype Unit = Unit

  datatype Option<+T> = None | Some(value: T)

  datatype Result<+T, +E> = Ok(value: T) | Err(error: E) {
    predicate IsFailure() { Err? }

    function PropagateFailure<U>(): Result<U, E>
      requires Err?
    {
      Err(error)
    }

    function Extract(): T
      requires Ok?
    {
      value
    }
  }
}

module Texts {

  type Text = seq<char>

  function AsciiLowerChar(c: char): char { if 'A' <= c <= 'Z' then (c as int + 32) as char else c }

  function AsciiLower(s: Text): (r: Text)
    ensures |r| == |s| && forall k :: 0 <= k < |s| ==> r[k] == AsciiLowerChar(s[k])
  {
    seq(|s|, k requires 0 <= k < |s| => AsciiLowerChar(s[k]))
  }

  /** `eq_ignore_ascii_case`. */
  predicate EqIgnoreAsciiCase(a: Text, b: Text) { AsciiLower(a) == AsciiLower(b) }

  /** Character by character, a prefix before what it is a prefix of. */
  predicate Less(a: Text, b: Text) {
    if b == [] then false
    else if a == [] then true
    else if a[0] != b[0] then a[0] < b[0]
    else Less(a[1..], b[1..])
  }

  lemma {:induction false} LessIsTotal(a: Text, b: Text)
    ensures a == b || Less(a, b) || Less(b, a)
    ensures !(Less(a, b) && Less(b, a)) && !Less(a, a)
    decreases |a|
  {
    if a != [] && b != [] {
      LessIsTotal(a[1..], b[1..]);
      assert a == [a[0]] + a[1..] && b == [b[0]] + b[1..];
    } else if a != [] {
      LessIsTotal(a[1..], a[1..]);
    }
  }

  lemma {:induction false} LessIsTransitive(a: Text, b: Text, c: Text)
    requires Less(a, b) && Less(b, c)
    ensures Less(a, c)
    decreases |a|
  {
    if a != [] && a[0] == b[0] == c[0] {
      LessIsTransitive(a[1..], b[1..], c[1..]);
    }
  }
}
