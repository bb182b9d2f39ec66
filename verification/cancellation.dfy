/**
 The cancellation token of auto-type: a flag, and a gate that every dispatch
 holds. Cancelling sets the flag first and passes the gate afterwards. Each
 access is a step of its own; the steps of all threads interleave in any order.
 */
module Cancellation {

  // ------------------------------------------------------------------- the state

  /** A thread in `cancel`. */
  datatype CancelPhase = Called | FlagSet | Passing | Returned

  /** What is dispatched: text, with a look at the flag before each character, or one key. */
  datatype Work = Characters(left: nat) | OneKey

  /** A thread in `dispatch_if_active`. From `Holding` to `Armed` it has the gate. */
  datatype DispatchPhase =
    | Wanting                // wants the gate
    | Holding                // has it, about to read the flag
    | Running(work: Work)    // inside the dispatch, about to read the flag for the next character
    | Armed(work: Work)      // has read it, about to send one event to the system
    | Over

  datatype Dispatcher = Dispatcher(work: Work, phase: DispatchPhase)

  datatype Thread = Nobody | CancelThread(c: nat) | DispatchThread(d: nat)

  /** `sent`: the events sent to the system so far. */
  datatype Token = Token(
    cancelled: bool,
    gate: Thread,
    cancels: seq<CancelPhase>,
    dispatchers: seq<Dispatcher>,
    sent: nat)

  const START := Token(false, Nobody, [], [], 0)

  // ------------------------------------------------------------------- the steps

  datatype Step =
    | CallCancel
    | SetFlag(c: nat)
    | TakeGate(c: nat)
    | DropGate(c: nat)
    | CallDispatch(work: Work)
    | Enter(d: nat)
    | ReadFlag(d: nat)
    | ReadFlagAgain(d: nat)
    | SendEvent(d: nat)

  predicate CancelAt(s: Token, c: nat, phase: CancelPhase) { c < |s.cancels| && s.cancels[c] == phase }

  predicate Enabled(s: Token, step: Step) {
    match step
    case CallCancel => true
    case SetFlag(c) => CancelAt(s, c, Called)
    case TakeGate(c) => CancelAt(s, c, FlagSet) && s.gate == Nobody
    case DropGate(c) => CancelAt(s, c, Passing)
    case CallDispatch(_) => true
    case Enter(d) => d < |s.dispatchers| && s.dispatchers[d].phase == Wanting && s.gate == Nobody
    case ReadFlag(d) => d < |s.dispatchers| && s.dispatchers[d].phase == Holding
    case ReadFlagAgain(d) => d < |s.dispatchers| && s.dispatchers[d].phase.Running?
    case SendEvent(d) => d < |s.dispatchers| && s.dispatchers[d].phase.Armed?
  }

  function DispatchTo(s: Token, d: nat, phase: DispatchPhase): Token
    requires d < |s.dispatchers|
  {
    s.(dispatchers := s.dispatchers[d := s.dispatchers[d].(phase := phase)])
  }

  function Do(s: Token, step: Step): Token
    requires Enabled(s, step)
  {
    match step
    case CallCancel => s.(cancels := s.cancels + [Called])
    case SetFlag(c) => s.(cancelled := true, cancels := s.cancels[c := FlagSet])
    case TakeGate(c) => s.(gate := CancelThread(c), cancels := s.cancels[c := Passing])
    case DropGate(c) => s.(gate := Nobody, cancels := s.cancels[c := Returned])
    case CallDispatch(work) => s.(dispatchers := s.dispatchers + [Dispatcher(work, Wanting)])
    case Enter(d) => DispatchTo(s, d, Holding).(gate := DispatchThread(d))
    case ReadFlag(d) =>
      if s.cancelled then DispatchTo(s, d, Over).(gate := Nobody)
      else if s.dispatchers[d].work.OneKey? then DispatchTo(s, d, Armed(OneKey))
      else DispatchTo(s, d, Running(s.dispatchers[d].work))
    case ReadFlagAgain(d) =>
      var work := s.dispatchers[d].phase.work;
      if s.cancelled || work == OneKey || work.left == 0 then DispatchTo(s, d, Over).(gate := Nobody)
      else DispatchTo(s, d, Armed(work))
    case SendEvent(d) =>
      var work := s.dispatchers[d].phase.work;
      var t := s.(sent := s.sent + 1);
      if work.OneKey? then DispatchTo(t, d, Over).(gate := Nobody)
      else DispatchTo(t, d, Running(Characters(if work.left == 0 then 0 else work.left - 1)))
  }

  ghost predicate Next(s: Token, t: Token) {
    exists step :: Enabled(s, step) && t == Do(s, step)
  }

  ghost predicate IsRun(run: seq<Token>) {
    && run != [] && run[0] == START
    && forall k :: 0 <= k < |run| - 1 ==> Next(run[k], run[k + 1])
  }

  // --------------------------------------------------------------- the invariant

  predicate Inside(phase: DispatchPhase) { phase == Holding || phase.Running? || phase.Armed? }

  /** A dispatch is under way: it was let through and is not over. */
  predicate UnderWay(d: Dispatcher) { d.phase.Running? || d.phase.Armed? }

  ghost predicate GateOk(s: Token) {
    && (forall d :: 0 <= d < |s.dispatchers| ==> (Inside(s.dispatchers[d].phase) <==> s.gate == DispatchThread(d)))
    && (forall c :: 0 <= c < |s.cancels| ==> (s.cancels[c] == Passing <==> s.gate == CancelThread(c)))
    && (s.gate.DispatchThread? ==> s.gate.d < |s.dispatchers|)
    && (s.gate.CancelThread? ==> s.gate.c < |s.cancels|)
  }

  ghost predicate FlagOk(s: Token) {
    forall c :: 0 <= c < |s.cancels| ==> s.cancels[c] != Called ==> s.cancelled
  }

  /** Somebody has passed the gate since the flag was set. */
  predicate Passed(s: Token) {
    exists c :: 0 <= c < |s.cancels| && s.cancels[c] in {Passing, Returned}
  }

  ghost predicate Quiet(s: Token) {
    forall d :: 0 <= d < |s.dispatchers| ==> !UnderWay(s.dispatchers[d])
  }

  ghost predicate Inv(s: Token) {
    GateOk(s) && FlagOk(s) && (Passed(s) ==> Quiet(s))
  }

  lemma GateKept(s: Token, step: Step)
    requires GateOk(s) && Enabled(s, step)
    ensures GateOk(Do(s, step))
  {
  }

  lemma FlagKept(s: Token, step: Step)
    requires FlagOk(s) && Enabled(s, step)
    ensures FlagOk(Do(s, step)) && (s.cancelled ==> Do(s, step).cancelled)
  {
  }

  lemma QuietKept(s: Token, step: Step)
    requires Inv(s) && Enabled(s, step) && Passed(Do(s, step))
    ensures Quiet(Do(s, step))
  {
  }

  lemma NextKeepsInv(s: Token, t: Token)
    requires Inv(s) && Next(s, t)
    ensures Inv(t) && (s.cancelled ==> t.cancelled)
  {
    var step :| Enabled(s, step) && t == Do(s, step);
    GateKept(s, step);
    FlagKept(s, step);
    if Passed(t) {
      QuietKept(s, step);
    }
  }

  lemma {:induction false} RunKeepsInv(run: seq<Token>)
    requires IsRun(run)
    ensures forall k :: 0 <= k < |run| ==> Inv(run[k])
    decreases |run|
  {
    var n := |run| - 1;
    if n > 0 {
      RunKeepsInv(run[..n]);
      hide Inv, Next;
      assert Inv(run[..n][n - 1]);
      NextKeepsInv(run[n - 1], run[n]);
    }
  }

  // ------------------------------------------------------------------ the theorems

  /** Dispatches under one token never overlap. */
  lemma OneDispatchAtATime(run: seq<Token>, k: nat, d: nat, d': nat)
    requires IsRun(run) && k < |run| && d < d' < |run[k].dispatchers|
    ensures !(UnderWay(run[k].dispatchers[d]) && UnderWay(run[k].dispatchers[d']))
  {
    RunKeepsInv(run);
  }

  lemma QuietStep(s: Token, t: Token)
    requires Inv(s) && Next(s, t) && Passed(s)
    ensures Passed(t) && t.sent == s.sent
  {
    var step :| Enabled(s, step) && t == Do(s, step);
    var c :| 0 <= c < |s.cancels| && s.cancels[c] in {Passing, Returned};
    assert t.cancels[c] in {Passing, Returned};
  }

  lemma InvAt(run: seq<Token>, k: nat)
    requires IsRun(run) && k < |run|
    ensures Inv(run[k])
  {
    hide Inv, Next;
    RunKeepsInv(run);
  }

  /** Cancelling is a barrier: when one call has returned, no dispatch is under way,
      none ever starts again, and nothing more is sent, however the run goes on. */
  lemma {:induction false} CancelIsABarrier(run: seq<Token>, k: nat, n: nat, c: nat)
    requires IsRun(run) && k <= n < |run| && CancelAt(run[k], c, Returned)
    ensures Quiet(run[n]) && run[n].sent == run[k].sent && Passed(run[n])
    decreases n
  {
    hide Inv, Next, Quiet;
    InvAt(run, n);
    if k < n {
      InvAt(run, n - 1);
      CancelIsABarrier(run, k, n - 1, c);
      hide Passed;
      QuietStep(run[n - 1], run[n]);
    }
    PassedIsQuiet(run[n]);
  }

  lemma PassedIsQuiet(s: Token)
    requires Inv(s) && Passed(s)
    ensures Quiet(s)
  {
  }

  /** The event that may already be past the last look at the flag. */
  function Committed(s: Token): nat {
    s.sent + if exists d :: 0 <= d < |s.dispatchers| && s.dispatchers[d].phase.Armed? then 1 else 0
  }

  lemma CancelledStep(s: Token, t: Token)
    requires Inv(s) && Next(s, t) && s.cancelled
    ensures Committed(t) <= Committed(s)
  {
  }

  /** From the moment the flag is set, at most one more event is sent. */
  lemma {:induction false} AtMostOneEventMore(run: seq<Token>, k: nat, n: nat)
    requires IsRun(run) && k <= n < |run| && run[k].cancelled
    ensures run[n].cancelled && run[n].sent <= Committed(run[n]) <= Committed(run[k]) <= run[k].sent + 1
    decreases n
  {
    if k < n {
      RunKeepsInv(run);
      hide Inv, Next, Committed;
      AtMostOneEventMore(run, k, n - 1);
      assert Inv(run[n - 1]);
      CancelledStep(run[n - 1], run[n]);
      NextKeepsInv(run[n - 1], run[n]);
      CommittedCovers(run[n]);
    }
  }

  lemma CommittedCovers(s: Token)
    ensures s.sent <= Committed(s) <= s.sent + 1
  {
  }

  /** How many steps of its own the thread at the gate needs to leave it. */
  function StepsToLeave(s: Token): nat {
    match s.gate
    case Nobody => 0
    case CancelThread(_) => 1
    case DispatchThread(d) =>
      if d >= |s.dispatchers| then 0
      else
        match s.dispatchers[d].phase
        case Armed(_) => 2
        case _ => 1
  }

  /** After the flag is set nobody waits long for the gate: whoever has it can
      always go on, and leaves after two steps at most. */
  lemma GateComesFree(s: Token) returns (step: Step)
    requires Inv(s) && s.cancelled && s.gate != Nobody
    ensures Enabled(s, step) && StepsToLeave(s) <= 2
    ensures StepsToLeave(Do(s, step)) < StepsToLeave(s)
    ensures StepsToLeave(s) == 1 ==> Do(s, step).gate == Nobody
  {
    match s.gate
    case Nobody =>
    case CancelThread(c) => step := DropGate(c);
    case DispatchThread(d) =>
      match s.dispatchers[d].phase {
        case Holding => step := ReadFlag(d);
        case Running(_) => step := ReadFlagAgain(d);
        case _ => step := SendEvent(d);
      }
  }

  /** What other threads do in between does not prolong it. */
  lemma OthersDoNotDelay(s: Token, step: Step)
    requires Inv(s) && Enabled(s, step) && s.cancelled && s.gate != Nobody
    ensures StepsToLeave(Do(s, step)) <= StepsToLeave(s)
  {
  }

  // -------------------------------------------------------------- what is sent

  /** The events of a whole dispatch. */
  function Whole(work: Work): nat { if work.OneKey? then 1 else work.left }

  /** The events a dispatch has sent, if its text was not broken off. */
  function SentBy(d: Dispatcher): int {
    match d.phase
    case Wanting => 0
    case Holding => 0
    case Running(now) => Whole(d.work) - Whole(now)
    case Armed(now) => Whole(d.work) - Whole(now)
    case Over => Whole(d.work)
  }

  function SentByAll(ds: seq<Dispatcher>): int {
    if ds == [] then 0 else SentByAll(ds[..|ds| - 1]) + SentBy(ds[|ds| - 1])
  }

  lemma {:induction false} SentByOne(ds: seq<Dispatcher>, d: nat, phase: DispatchPhase)
    requires d < |ds|
    ensures
      var now := ds[d].(phase := phase);
      SentByAll(ds[d := now]) == SentByAll(ds) - SentBy(ds[d]) + SentBy(now)
  {
    var n := |ds| - 1;
    var changed := ds[d := ds[d].(phase := phase)];
    if d < n {
      assert changed[..n] == ds[..n][d := ds[..n][d].(phase := phase)];
      SentByOne(ds[..n], d, phase);
    } else {
      assert changed[..n] == ds[..n];
    }
  }

  /** What is under way is a rest of what was asked for, and text is only read for while some is left. */
  ghost predicate RestsOk(s: Token) {
    forall d :: 0 <= d < |s.dispatchers| && UnderWay(s.dispatchers[d]) ==>
      var whole, now := s.dispatchers[d].work, s.dispatchers[d].phase.work;
      && (whole.OneKey? <==> now.OneKey?) && Whole(now) <= Whole(whole)
      && (now.OneKey? ==> s.dispatchers[d].phase.Armed?)
      && (s.dispatchers[d].phase.Armed? ==> 0 < Whole(now))
  }

  /** Nothing is sent but what was asked for, and as long as nobody cancels all of it. */
  ghost predicate AddsUp(s: Token) {
    && RestsOk(s) && s.sent <= SentByAll(s.dispatchers)
    && (!s.cancelled ==> s.sent == SentByAll(s.dispatchers))
    && (s.cancelled <==> exists c :: 0 <= c < |s.cancels| && s.cancels[c] != Called)
  }

  lemma RestsKept(s: Token, step: Step)
    requires RestsOk(s) && Enabled(s, step)
    ensures RestsOk(Do(s, step))
  {
  }

  /** The dispatcher whose step it is. */
  function StepOf(step: Step): Thread {
    match step
    case Enter(d) => DispatchThread(d)
    case ReadFlag(d) => DispatchThread(d)
    case ReadFlagAgain(d) => DispatchThread(d)
    case SendEvent(d) => DispatchThread(d)
    case _ => Nobody
  }

  /** A dispatcher's step changes its phase alone, and counts what it sends. */
  lemma StepSends(s: Token, step: Step, d: nat)
    requires RestsOk(s) && Enabled(s, step) && StepOf(step) == DispatchThread(d)
    ensures
      var ds, t := s.dispatchers, Do(s, step);
      && d < |ds| && |t.dispatchers| == |ds| && t.dispatchers == ds[d := ds[d].(phase := t.dispatchers[d].phase)]
      && t.cancelled == s.cancelled
      && t.sent - s.sent <= SentBy(t.dispatchers[d]) - SentBy(ds[d])
      && (!s.cancelled ==> t.sent - s.sent == SentBy(t.dispatchers[d]) - SentBy(ds[d]))
  {
  }

  /** The other steps send nothing, and leave every dispatcher as it is. */
  lemma StepSendsNothing(s: Token, step: Step)
    requires Enabled(s, step) && StepOf(step) == Nobody
    ensures
      var t := Do(s, step);
      && t.sent == s.sent && (t.cancelled || !s.cancelled)
      && t.dispatchers == s.dispatchers + if step.CallDispatch? then [Dispatcher(step.work, Wanting)] else []
  {
  }

  lemma SumOfOneMore(ds: seq<Dispatcher>, work: Work)
    ensures SentByAll(ds + [Dispatcher(work, Wanting)]) == SentByAll(ds)
  {
    assert (ds + [Dispatcher(work, Wanting)])[..|ds|] == ds;
  }

  lemma SumKept(s: Token, step: Step)
    requires AddsUp(s) && Enabled(s, step)
    ensures var t := Do(s, step);
            t.sent <= SentByAll(t.dispatchers) && (!t.cancelled ==> t.sent == SentByAll(t.dispatchers))
  {
    var ds, t := s.dispatchers, Do(s, step);
    hide RestsOk, Enabled, Do, SentBy, SentByAll;
    if StepOf(step).DispatchThread? {
      var d := StepOf(step).d;
      StepSends(s, step, d);
      SentByOne(ds, d, t.dispatchers[d].phase);
    } else {
      StepSendsNothing(s, step);
      if step.CallDispatch? {
        SumOfOneMore(ds, step.work);
      }
    }
  }

  lemma SetKept(s: Token, step: Step)
    requires Enabled(s, step) && (s.cancelled <==> exists c :: 0 <= c < |s.cancels| && s.cancels[c] != Called)
    ensures var t := Do(s, step); t.cancelled <==> exists c :: 0 <= c < |t.cancels| && t.cancels[c] != Called
  {
    var t := Do(s, step);
    if s.cancelled {
      var c :| 0 <= c < |s.cancels| && s.cancels[c] != Called;
      assert t.cancels[c] != Called;
    }
    if step.SetFlag? {
      assert t.cancels[step.c] != Called;
    }
  }

  lemma NextAddsUp(s: Token, t: Token)
    requires AddsUp(s) && Next(s, t)
    ensures AddsUp(t)
  {
    var step :| Enabled(s, step) && t == Do(s, step);
    RestsKept(s, step);
    SumKept(s, step);
    SetKept(s, step);
  }

  /** Over whole runs: without a cancellation exactly the asked-for events are sent, each dispatch
      that is over all of its own; with one, never more; and the flag is set by cancelling alone. */
  lemma {:induction false} EverythingIsSent(run: seq<Token>, k: nat)
    requires IsRun(run) && k < |run|
    ensures AddsUp(run[k])
    decreases k
  {
    hide Next, AddsUp;
    if k == 0 {
      StartAddsUp();
    } else {
      EverythingIsSent(run, k - 1);
      NextAddsUp(run[k - 1], run[k]);
    }
  }

  lemma StartAddsUp()
    ensures AddsUp(START)
  {
  }

  // ------------------------------------------------------------ everybody returns

  function CancelWork(c: CancelPhase): nat {
    match c
    case Called => 3
    case FlagSet => 2
    case Passing => 1
    case Returned => 0
  }

  function DispatchWork(d: Dispatcher): nat {
    match d.phase
    case Wanting => 2 * Whole(d.work) + 3
    case Holding => 2 * Whole(d.work) + 2
    case Running(now) => 2 * Whole(now) + 1
    case Armed(now) => 2 * Whole(now)
    case Over => 0
  }

  function CancelsWork(cs: seq<CancelPhase>): nat {
    if cs == [] then 0 else CancelsWork(cs[..|cs| - 1]) + CancelWork(cs[|cs| - 1])
  }

  function DispatchersWork(ds: seq<Dispatcher>): nat {
    if ds == [] then 0 else DispatchersWork(ds[..|ds| - 1]) + DispatchWork(ds[|ds| - 1])
  }

  /** What the threads that have called have still to do. */
  function WorkLeft(s: Token): nat { CancelsWork(s.cancels) + DispatchersWork(s.dispatchers) }

  predicate IsCall(step: Step) { step.CallCancel? || step.CallDispatch? }

  ghost predicate AllReturned(s: Token) {
    (forall c <- s.cancels :: c == Returned) && (forall d <- s.dispatchers :: d.phase == Over)
  }

  lemma {:induction false} CancelsWorkOne(cs: seq<CancelPhase>, c: nat, phase: CancelPhase)
    requires c < |cs|
    ensures CancelsWork(cs[c := phase]) == CancelsWork(cs) - CancelWork(cs[c]) + CancelWork(phase)
  {
    var n := |cs| - 1;
    if c < n {
      assert cs[c := phase][..n] == cs[..n][c := phase];
      CancelsWorkOne(cs[..n], c, phase);
    } else {
      assert cs[c := phase][..n] == cs[..n];
    }
  }

  lemma {:induction false} DispatchersWorkOne(ds: seq<Dispatcher>, d: nat, phase: DispatchPhase)
    requires d < |ds|
    ensures
      var now := ds[d].(phase := phase);
      DispatchersWork(ds[d := now]) == DispatchersWork(ds) - DispatchWork(ds[d]) + DispatchWork(now)
  {
    var n := |ds| - 1;
    var changed := ds[d := ds[d].(phase := phase)];
    if d < n {
      assert changed[..n] == ds[..n][d := ds[..n][d].(phase := phase)];
      DispatchersWorkOne(ds[..n], d, phase);
    } else {
      assert changed[..n] == ds[..n];
    }
  }

  lemma DispatcherWorks(s: Token, step: Step, d: nat)
    requires RestsOk(s) && Enabled(s, step) && StepOf(step) == DispatchThread(d)
    ensures
      var ds, t := s.dispatchers, Do(s, step);
      && d < |ds| && |t.dispatchers| == |ds| && t.dispatchers == ds[d := ds[d].(phase := t.dispatchers[d].phase)]
      && t.cancels == s.cancels && DispatchWork(t.dispatchers[d]) < DispatchWork(ds[d])
  {
  }

  /** Every step of a thread that has called leaves less to do. */
  lemma WorkDecreases(s: Token, step: Step)
    requires RestsOk(s) && Enabled(s, step) && !IsCall(step)
    ensures WorkLeft(Do(s, step)) < WorkLeft(s)
  {
    var cs, t := s.cancels, Do(s, step);
    if StepOf(step).DispatchThread? {
      var d := StepOf(step).d;
      DispatcherWorks(s, step, d);
      hide RestsOk, Enabled, Do, DispatchWork, DispatchersWork;
      DispatchersWorkOne(s.dispatchers, d, t.dispatchers[d].phase);
    } else {
      hide RestsOk, DispatchWork, DispatchersWork, CancelsWork;
      match step
      case SetFlag(c) => CancelsWorkOne(cs, c, t.cancels[c]);
      case TakeGate(c) => CancelsWorkOne(cs, c, t.cancels[c]);
      case DropGate(c) => CancelsWorkOne(cs, c, t.cancels[c]);
    }
  }

  /** The threads never block each other for good: until all have returned, one can go on. */
  lemma SomebodyCanGoOn(s: Token) returns (step: Step)
    requires Inv(s) && !AllReturned(s)
    ensures Enabled(s, step) && !IsCall(step)
  {
    match s.gate
    case CancelThread(c) => step := DropGate(c);
    case DispatchThread(d) =>
      match s.dispatchers[d].phase {
        case Holding => step := ReadFlag(d);
        case Running(_) => step := ReadFlagAgain(d);
        case _ => step := SendEvent(d);
      }
    case Nobody =>
      if c :| 0 <= c < |s.cancels| && s.cancels[c] != Returned {
        step := if s.cancels[c] == Called then SetFlag(c) else TakeGate(c);
      } else {
        var d :| 0 <= d < |s.dispatchers| && s.dispatchers[d].phase != Over;
        step := Enter(d);
      }
  }

  /** A call can be made at any time, and only joins the others. */
  lemma CallsJoin(s: Token, work: Work)
    ensures Enabled(s, CallCancel) && Do(s, CallCancel) == Token(s.cancelled, s.gate, s.cancels + [Called], s.dispatchers, s.sent)
    ensures Enabled(s, CallDispatch(work))
    ensures Do(s, CallDispatch(work)) ==
      Token(s.cancelled, s.gate, s.cancels, s.dispatchers + [Dispatcher(work, Wanting)], s.sent)
  {
  }

  /** Steps of threads that have already called, from `from`. */
  ghost predicate IsContinuation(states: seq<Token>, steps: seq<Step>, from: Token) {
    && |states| == |steps| + 1 && states[0] == from
    && forall k :: 0 <= k < |steps| ==>
         Enabled(states[k], steps[k]) && !IsCall(steps[k]) && states[k + 1] == Do(states[k], steps[k])
  }

  lemma {:induction false} ContinuationsEnd(states: seq<Token>, steps: seq<Step>, from: Token)
    requires Inv(from) && AddsUp(from) && IsContinuation(states, steps, from)
    ensures Inv(states[|steps|]) && AddsUp(states[|steps|]) && WorkLeft(states[|steps|]) + |steps| <= WorkLeft(from)
    decreases |steps|
  {
    var n := |steps|;
    if n > 0 {
      assert IsContinuation(states[..n], steps[..n - 1], from);
      ContinuationsEnd(states[..n], steps[..n - 1], from);
      var s, t := states[n - 1], states[n];
      assert states[..n][n - 1] == s;
      assert RestsOk(s);
      hide Inv, AddsUp, RestsOk, WorkLeft, Do, Enabled;
      WorkDecreases(s, steps[n - 1]);
      assert Next(s, t);
      NextKeepsInv(s, t);
      NextAddsUp(s, t);
    }
  }

  /** From every state a run leads to, threads that have called take at most so many steps as there
      is work left, in whatever order; and when none can go on, all have returned. */
  lemma EverybodyReturns(run: seq<Token>, k: nat, states: seq<Token>, steps: seq<Step>)
    requires IsRun(run) && k < |run| && IsContinuation(states, steps, run[k])
    ensures |steps| <= WorkLeft(run[k])
    ensures (forall step :: Enabled(states[|steps|], step) ==> IsCall(step)) ==> AllReturned(states[|steps|])
  {
    hide Next, AddsUp, WorkLeft, Do, Enabled, AllReturned, Inv;
    InvAt(run, k);
    EverythingIsSent(run, k);
    ContinuationsEnd(states, steps, run[k]);
    if !AllReturned(states[|steps|]) {
      var step := SomebodyCanGoOn(states[|steps|]);
    }
  }
}
