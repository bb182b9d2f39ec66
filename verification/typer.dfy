/**
 Typing a rendered sequence into the focused window. The window, the user who
 may cancel at any moment, and the clock are a `World` that answers as it likes;
 what reached the window is its log.
 */
module Typer {
  import opened Texts
  import opened Wrappers
  import opened S = AutoTypeSequence

  const POLL_INTERVAL_MS: nat := 10

  datatype TyperError = Cancelled | Init | Dispatch | FocusChanged(title: Text)

  type Outcome = Result<Unit, TyperError>

  const DONE: Outcome := Ok(Unit)

  /** A look at the window in focus, and whether it was still the right one; or one stroke sent to it. */
  datatype Event = Checked(good: bool) | Sent(stroke: Stroke)

  // ------------------------------------------------------------------- the world

  class World {
    var log: seq<Event>
    var cancelled: bool
    var clock: nat
    /** The log's length when the token was last found active. */
    ghost var activeAt: nat

    constructor ()
      ensures log == [] && !cancelled
    {
      log, cancelled, clock := [], false, 0;
      activeAt := 0;
    }

    /** `is_cancelled`; a token once cancelled stays so. */
    method IsCancelled() returns (c: bool)
      modifies this
      ensures c == cancelled && (old(cancelled) ==> cancelled)
      ensures log == old(log) && clock == old(clock)
      ensures if c then activeAt == old(activeAt) else activeAt == |log|
    {
      var now: bool := *;
      cancelled := cancelled || now;
      c := cancelled;
      if !c {
        activeAt := |log|;
      }
    }

    /** `focus_guard`: the title of another window if that has the focus. */
    method FocusGuard() returns (stranger: Option<Text>)
      modifies this
      ensures log == old(log) + [Checked(stranger.None?)]
      ensures (old(cancelled) ==> cancelled) && clock == old(clock)
    {
      var moved: bool, title: Text := *, *;
      stranger := if moved then Some(title) else None;
      log := log + [Checked(!moved)];
    }

    /** One event for the system, which may refuse it. */
    method Send(stroke: Stroke) returns (accepted: bool)
      modifies this
      ensures log == if accepted then old(log) + [Sent(stroke)] else old(log)
      ensures cancelled == old(cancelled) && clock == old(clock)
    {
      accepted := *;
      if accepted {
        log := log + [Sent(stroke)];
      }
    }

    /** `thread::sleep`, never longer than the ten milliseconds between two polls. */
    method Nap(ms: nat)
      requires ms <= 10
      modifies this
      ensures clock >= old(clock) + ms
      ensures log == old(log) && cancelled == old(cancelled) && activeAt == old(activeAt)
    {
      var wakes :| wakes >= clock + ms;
      clock := wakes;
    }
  }

  // ------------------------------------------------------------------ the pieces

  /** `ensure_active`. */
  method EnsureActive(w: World) returns (r: Outcome)
    modifies w
    ensures r == if w.cancelled then Err(Cancelled) else DONE
    ensures old(w.cancelled) ==> w.cancelled
    ensures w.log == old(w.log) && w.clock == old(w.clock)
    ensures r.Ok? ==> w.activeAt == |w.log|
  {
    var c := w.IsCancelled();
    return if c then Err(Cancelled) else DONE;
  }

  /** `sleep_cancelably`: sleeps the whole time or is cancelled. */
  method SleepCancelably(w: World, ms: nat) returns (r: Outcome)
    modifies w
    ensures r.Ok? ==> w.clock >= old(w.clock) + ms && !w.cancelled
    ensures r.Err? ==> r.error == Cancelled && w.cancelled
    ensures old(w.cancelled) ==> w.cancelled && w.clock == old(w.clock)
    ensures w.log == old(w.log) && w.clock >= old(w.clock)
  {
    var _ :- EnsureActive(w);
    var deadline := w.clock + ms;
    while true
      invariant !w.cancelled && !old(w.cancelled) && w.log == old(w.log) && w.clock >= old(w.clock)
      decreases if deadline < w.clock then 0 else deadline - w.clock
    {
      var remaining := if deadline < w.clock then 0 else deadline - w.clock;
      if remaining == 0 {
        r := EnsureActive(w);
        return;
      }
      w.Nap(if remaining < POLL_INTERVAL_MS then remaining else POLL_INTERVAL_MS);
      var _ :- EnsureActive(w);
    }
  }

  function Events(strokes: seq<Stroke>): (r: seq<Event>)
    ensures |r| == |strokes| && forall k :: 0 <= k < |r| ==> r[k] == Sent(strokes[k])
  {
    seq(|strokes|, k requires 0 <= k < |strokes| => Sent(strokes[k]))
  }

  /** `dispatch_text`: what is sent is a prefix of the text, all of it on success. */
  method DispatchText(w: World, text: Text, secret: bool) returns (r: Outcome, ghost sent: nat)
    modifies w
    ensures sent <= |text| && w.log == old(w.log) + Events(Keys(text, secret))[..sent]
    ensures r.Ok? ==> sent == |text|
    ensures r.Err? ==> sent < |text| && ((r.error == Cancelled && w.cancelled) || r.error == Dispatch)
    ensures (old(w.cancelled) ==> w.cancelled) && w.clock == old(w.clock)
  {
    sent := 0;
    assert old(w.log) + Events(Keys(text, secret))[..0] == old(w.log);
    for i := 0 to |text|
      invariant sent == i && w.log == old(w.log) + Events(Keys(text, secret))[..i]
      invariant (old(w.cancelled) ==> w.cancelled) && w.clock == old(w.clock)
    {
      r := EnsureActive(w);
      if r.Err? {
        return;
      }
      var accepted := w.Send(Key(text[i], secret));
      if !accepted {
        r := Err(Dispatch);
        return;
      }
      assert Events(Keys(text, secret))[..i + 1] == Events(Keys(text, secret))[..i] + [Sent(Key(text[i], secret))];
      sent := i + 1;
    }
    r := DONE;
  }

  method PressKey(w: World, key: Stroke) returns (r: Outcome, ghost sent: nat)
    modifies w
    ensures sent <= 1 && w.log == old(w.log) + Events([key])[..sent]
    ensures r == if sent == 1 then DONE else Err(Dispatch)
    ensures w.cancelled == old(w.cancelled) && w.clock == old(w.clock)
  {
    var accepted := w.Send(key);
    sent := if accepted then 1 else 0;
    assert accepted ==> Events([key])[..1] == [Sent(key)];
    return if accepted then DONE else Err(Dispatch), sent;
  }

  /** The closure of `perform`, under the token's gate: `dispatch_if_active`. */
  method DispatchIfActive(w: World, op: TypeOp) returns (r: Outcome, ghost sent: nat)
    requires !op.Sleep?
    modifies w
    ensures sent <= |Strokes(op)| && w.log == old(w.log) + Events(Strokes(op))[..sent]
    ensures r.Ok? ==> sent == |Strokes(op)|
    ensures r.Err? ==> (r.error == Cancelled && w.cancelled) || r.error == Dispatch
    ensures r.Err? ==> sent < |Strokes(op)| || (r.error == Cancelled && sent == 0)
    ensures old(w.cancelled) ==> r == Err(Cancelled) && sent == 0
    ensures (old(w.cancelled) ==> w.cancelled) && w.clock == old(w.clock)
  {
    sent := 0;
    assert old(w.log) + Events(Strokes(op))[..0] == old(w.log);
    r := EnsureActive(w);
    if r.Err? {
      return;
    }
    match op
    case Type(text) =>
      if text != [] { r, sent := DispatchText(w, text, false); }
    case TypeSecret(text) =>
      if text != [] { r, sent := DispatchText(w, text, true); }
    case PressTab => r, sent := PressKey(w, TabKey);
    case PressReturn => r, sent := PressKey(w, ReturnKey);
    case Sleep(_) =>
  }

  // ---------------------------------------------------------------------- the run

  /** An operation done: a good look at the window, then its strokes. */
  function Attempt(op: TypeOp): seq<Event> { [Checked(true)] + Events(Strokes(op)) }

  /** What doing all the operations leaves in the log. */
  function Performed(ops: seq<TypeOp>): seq<Event> {
    if ops == [] then []
    else Performed(ops[..|ops| - 1]) + if ops[|ops| - 1].Sleep? then [] else Attempt(ops[|ops| - 1])
  }

  /** The least time they take. */
  function Pauses(ops: seq<TypeOp>, interOp: nat): nat {
    if ops == [] then 0
    else
      var n := |ops| - 1;
      Pauses(ops[..n], interOp) + (if n > 0 then interOp else 0) + if ops[n].Sleep? then ops[n].ms else 0
  }

  lemma OneMore(ops: seq<TypeOp>, i: nat, interOp: nat)
    requires i < |ops|
    ensures Performed(ops[..i + 1]) == Performed(ops[..i]) + if ops[i].Sleep? then [] else Attempt(ops[i])
    ensures Pauses(ops[..i + 1], interOp) ==
      Pauses(ops[..i], interOp) + (if i > 0 then interOp else 0) + if ops[i].Sleep? then ops[i].ms else 0
  {
    assert ops[..i + 1][..i] == ops[..i];
  }

  /** `tail` is as far as `op` got, which could not be finished. */
  ghost predicate BrokenOff(op: TypeOp, tail: seq<Event>, error: TyperError) {
    && !op.Sleep?
    && match error
       case FocusChanged(_) => tail == [Checked(false)]
       case Dispatch => tail != [] && tail < Attempt(op)
       case Cancelled => tail == [Checked(false)] || tail == [Checked(true)] || tail < Attempt(op)
       case Init => false
  }

  /** One turn of the loop, after the pause: look at the window, then dispatch. */
  method PerformOne(w: World, op: TypeOp) returns (r: Outcome, ghost tail: seq<Event>)
    requires !op.Sleep?
    modifies w
    ensures w.log == old(w.log) + tail && w.clock == old(w.clock) && (old(w.cancelled) ==> w.cancelled)
    ensures r.Ok? ==> tail == Attempt(op)
    ensures r.Err? ==> BrokenOff(op, tail, r.error)
    ensures r.Err? && r.error.FocusChanged? ==> w.activeAt == |w.log|
    ensures r == Err(Cancelled) ==> w.cancelled
    ensures old(w.cancelled) ==> r == Err(Cancelled) && tail == []
  {
    tail := [];
    assert w.log + [] == w.log && [] < Attempt(op);
    r := EnsureActive(w);
    if r.Err? {
      return;
    }
    var stranger := w.FocusGuard();
    tail := [Checked(stranger.None?)];
    r := EnsureActive(w);
    if r.Err? {
      return;
    }
    if stranger.Some? {
      r := Err(FocusChanged(stranger.value));
      return;
    }
    ghost var sent;
    r, sent := DispatchIfActive(w, op);
    tail := [Checked(true)] + Events(Strokes(op))[..sent];
    if r.Err? {
      Prefixed(op, sent);
    }
  }

  /** `perform_ops`: the operations are done in order, each right after its own good
      look at the window, as far as `at`; on success all of them are. */
  method PerformOps(w: World, ops: seq<TypeOp>, interOp: nat)
    returns (r: Outcome, ghost at: nat, ghost tail: seq<Event>)
    modifies w
    ensures at <= |ops| && w.log == old(w.log) + Performed(ops[..at]) + tail
    ensures r.Ok? ==> at == |ops| && tail == [] && !w.cancelled && w.clock >= old(w.clock) + Pauses(ops, interOp)
    ensures r.Err? ==> (r.error == Cancelled && tail == []) || (at < |ops| && BrokenOff(ops[at], tail, r.error))
    ensures r.Err? && r.error.FocusChanged? ==> w.activeAt == |w.log|
    ensures r == Err(Cancelled) ==> w.cancelled
    ensures old(w.cancelled) ==> r == Err(Cancelled) && w.log == old(w.log)
  {
    hide BrokenOff, Attempt;
    at, tail := 0, [];
    assert Performed(ops[..0]) == [] && old(w.log) + [] + [] == old(w.log);
    r := EnsureActive(w);
    if r.Err? {
      return;
    }
    assert Pauses(ops[..0], interOp) == 0;
    hide Performed, Pauses;
    for i := 0 to |ops|
      invariant at == i && tail == [] && !old(w.cancelled)
      invariant w.log == old(w.log) + Performed(ops[..i])
      invariant w.clock >= old(w.clock) + Pauses(ops[..i], interOp)
    {
      OneMore(ops, i, interOp);
      assert w.log + [] == w.log;
      if i > 0 {
        r := SleepCancelably(w, interOp);
        if r.Err? {
          return;
        }
      }
      if ops[i].Sleep? {
        r := SleepCancelably(w, ops[i].ms);
        if r.Err? {
          return;
        }
        assert Performed(ops[..i]) + [] == Performed(ops[..i]);
      } else {
        r, tail := PerformOne(w, ops[i]);
        if r.Err? {
          return;
        }
        Appended(old(w.log), Performed(ops[..i]), tail);
      }
      at, tail := i + 1, [];
    }
    assert ops[..|ops|] == ops && w.log + [] == w.log;
    r := EnsureActive(w);
  }

  lemma Prefixed(op: TypeOp, sent: nat)
    requires sent < |Strokes(op)| || sent == 0
    ensures var tail := [Checked(true)] + Events(Strokes(op))[..sent];
            tail == [Checked(true)] || tail < Attempt(op)
  {
  }

  lemma Appended(log: seq<Event>, performed: seq<Event>, tail: seq<Event>)
    ensures log + performed + tail == log + (performed + tail)
  {
  }

  /** `perform`: nothing is asked of the system for a token already cancelled. */
  method Perform(w: World, ops: seq<TypeOp>, interOp: nat) returns (r: Outcome)
    modifies w
    ensures r.Ok? ==> w.log == old(w.log) + Performed(ops)
    ensures r.Err? ==> exists at: nat, tail ::
      at <= |ops| && w.log == old(w.log) + Performed(ops[..at]) + tail && Struck(tail, ops[at..])
    ensures old(w.cancelled) ==> r == Err(Cancelled) && w.log == old(w.log)
  {
    hide Performed, Struck;
    assert ops[..|ops|] == ops && ops[0..] == ops;
    NothingStruck(w.log, ops);
    r := EnsureActive(w);
    if r.Err? {
      return;
    }
    var simulator: bool := *;
    if !simulator {
      return Err(Init);
    }
    ghost var at, tail;
    r, at, tail := PerformOps(w, ops, interOp);
    if r.Ok? {
      assert old(w.log) + Performed(ops) + tail == old(w.log) + Performed(ops);
    } else {
      BrokenOffIsStruck(ops, at, tail, r.error);
    }
  }

  // --------------------------------------------------- what that means for a template

  function StrokesOf(log: seq<Event>): seq<Stroke> {
    if log == [] then []
    else if log[0].Sent? then [log[0].stroke] + StrokesOf(log[1..])
    else StrokesOf(log[1..])
  }

  function NoWaits(strokes: seq<Stroke>): seq<Stroke> {
    if strokes == [] then []
    else if strokes[0].Wait? then NoWaits(strokes[1..])
    else [strokes[0]] + NoWaits(strokes[1..])
  }

  /** What `tail` sent are the first strokes of what is left to do. */
  ghost predicate Struck(tail: seq<Event>, rest: seq<TypeOp>) {
    StrokesOf(tail) <= NoWaits(Flatten(rest))
  }

  lemma NothingStruck(log: seq<Event>, ops: seq<TypeOp>)
    ensures log == log + Performed(ops[..0]) + [] && Struck([], ops[0..])
  {
  }

  lemma {:induction false} StrokesConcat(a: seq<Event>, b: seq<Event>)
    ensures StrokesOf(a + b) == StrokesOf(a) + StrokesOf(b)
    decreases |a|
  {
    if a == [] {
      assert a + b == b;
    } else {
      StrokesConcat(a[1..], b);
      assert (a + b)[1..] == a[1..] + b;
    }
  }

  lemma {:induction false} NoWaitsConcat(a: seq<Stroke>, b: seq<Stroke>)
    ensures NoWaits(a + b) == NoWaits(a) + NoWaits(b)
    decreases |a|
  {
    if a == [] {
      assert a + b == b;
    } else {
      NoWaitsConcat(a[1..], b);
      assert (a + b)[1..] == a[1..] + b;
    }
  }

  lemma {:induction false} StrokesOfEvents(strokes: seq<Stroke>)
    ensures StrokesOf(Events(strokes)) == strokes
    decreases |strokes|
  {
    if strokes != [] {
      StrokesOfEvents(strokes[1..]);
      assert Events(strokes)[1..] == Events(strokes[1..]);
    }
  }

  lemma {:induction false} NoWaitsAmong(strokes: seq<Stroke>)
    requires forall s <- strokes :: !s.Wait?
    ensures NoWaits(strokes) == strokes
    decreases |strokes|
  {
    if strokes != [] {
      NoWaitsAmong(strokes[1..]);
    }
  }

  lemma AttemptStrokes(op: TypeOp, sent: nat)
    requires !op.Sleep? && sent <= |Strokes(op)|
    ensures StrokesOf([Checked(true)] + Events(Strokes(op))[..sent]) == Strokes(op)[..sent]
    ensures NoWaits(Strokes(op)) == Strokes(op)
  {
    var tail := [Checked(true)] + Events(Strokes(op))[..sent];
    assert tail[1..] == Events(Strokes(op)[..sent]);
    StrokesOfEvents(Strokes(op)[..sent]);
    NoWaitsAmong(Strokes(op));
  }

  lemma BrokenOffIsStruck(ops: seq<TypeOp>, at: nat, tail: seq<Event>, error: TyperError)
    requires at <= |ops|
    requires (error == Cancelled && tail == []) || (at < |ops| && BrokenOff(ops[at], tail, error))
    ensures Struck(tail, ops[at..])
  {
    if tail != [] && tail != [Checked(false)] {
      var op, sent := ops[at], |tail| - 1;
      if sent == 0 {
        assert tail == [Checked(true)] && tail[1..] == [];
      } else {
        assert tail == Attempt(op)[..|tail|] == [Checked(true)] + Events(Strokes(op))[..sent];
        AttemptStrokes(op, sent);
        NoWaitsConcat(Strokes(op), Flatten(ops[at..][1..]));
      }
    } else {
      assert tail == [] || tail[1..] == [];
    }
  }

  lemma OperationStrokes(op: TypeOp)
    ensures StrokesOf(if op.Sleep? then [] else Attempt(op)) == NoWaits(Strokes(op))
  {
    if op.Sleep? {
      assert [Wait(op.ms)][1..] == [];
    } else {
      AttemptStrokes(op, |Strokes(op)|);
      assert Events(Strokes(op))[..|Strokes(op)|] == Events(Strokes(op));
      assert Strokes(op)[..|Strokes(op)|] == Strokes(op);
    }
  }

  lemma {:induction false} PerformedStrokes(ops: seq<TypeOp>)
    ensures StrokesOf(Performed(ops)) == NoWaits(Flatten(ops))
    decreases |ops|
  {
    if ops != [] {
      var n := |ops| - 1;
      var front, op := ops[..n], ops[n];
      assert ops == front + [op];
      PerformedStrokes(front);
      FlattenConcat(front, [op]);
      FlattenShort(op);
      NoWaitsConcat(Flatten(front), Strokes(op));
      OperationStrokes(op);
      StrokesConcat(Performed(front), if op.Sleep? then [] else Attempt(op));
      hide Flatten, StrokesOf, NoWaits, Strokes, Attempt;
    }
  }

  /** From the template to the window: a run that succeeds has sent exactly the
      strokes the template stands for, and each operation's right after a good look. */
  lemma SuccessTypesTheTemplate(template: Text, ctx: RenderContext)
    requires Parsed(template).Ok?
    ensures StrokesOf(Performed(RenderFrom(Parsed(template).value, [], ctx))) ==
            NoWaits(Expand(Parsed(template).value, ctx))
  {
    PerformedStrokes(RenderFrom(Parsed(template).value, [], ctx));
    RenderConserves(Parsed(template).value, ctx);
  }

  /** Up to where a run broke off, what it sent is a beginning of that. */
  lemma FailureTypesAPrefix(ops: seq<TypeOp>, at: nat, tail: seq<Event>)
    requires at <= |ops| && Struck(tail, ops[at..])
    ensures StrokesOf(Performed(ops[..at]) + tail) <= NoWaits(Flatten(ops))
  {
    StrokesConcat(Performed(ops[..at]), tail);
    PerformedStrokes(ops[..at]);
    FlattenConcat(ops[..at], ops[at..]);
    NoWaitsConcat(Flatten(ops[..at]), Flatten(ops[at..]));
    assert ops[..at] + ops[at..] == ops;
  }
}
