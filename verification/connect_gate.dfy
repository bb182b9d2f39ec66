/**
 The gate between connecting a vault and disconnecting it: a generation, a count
 of pending cleanups, a mutex and a condition variable. Every atomic access is a
 step of its own, and the steps of all threads interleave in any order.
 */
module ConnectGate {

  // ------------------------------------------------------------------- the state

  /** A worker in `commit_if_current`. From `Holding` to `Publishing` it has the lock. */
  datatype CommitPhase =
    | Waiting                 // wants the lock
    | Holding                 // has the lock, about to read the pending count
    | MustSleep               // read a pending cleanup
    | Sleeping                // asleep on the condition variable, without the lock
    | Clear                   // read none, about to compare the generation
    | Publishing              // runs the irreversible part
    | Returned(published: bool)

  /** A worker in `run_reserved_cleanup`. From `Running` to `Leaving` it has the lock. */
  datatype CleanupPhase =
    | Reserved
    | Running
    | Finished(last: bool)    // has taken itself off the pending count
    | Leaving
    | Done

  datatype Committer = Committer(generation: nat, phase: CommitPhase)

  /** `number` is the generation its reservation advanced to. */
  datatype Cleanup = Cleanup(number: nat, phase: CleanupPhase)

  datatype Thread = Nobody | CommitThread(i: nat) | CleanupThread(j: nat)

  /** `reserving`: the user-interface thread is between the two halves of a reservation. */
  datatype Gate = Gate(
    generation: nat,
    pending: nat,
    lock: Thread,
    reserving: bool,
    committers: seq<Committer>,
    cleanups: seq<Cleanup>)

  const START := Gate(0, 0, Nobody, false, [], [])

  // ------------------------------------------------------------------- the steps

  datatype Step =
    // the user-interface thread, which never blocks
    | Advance
    | Connect
    | ReserveGeneration
    | ReservePending
    // a committer
    | LockCommit(i: nat)
    | ReadPending(i: nat)
    | Sleep(i: nat)
    | WakeUnasked(i: nat)
    | CheckGeneration(i: nat)
    | EndPublication(i: nat)
    // a cleanup
    | LockCleanup(j: nat)
    | EndCleanup(j: nat)
    | NotifyAll(j: nat)
    | UnlockCleanup(j: nat)

  predicate CommitAt(s: Gate, i: nat, phase: CommitPhase) {
    i < |s.committers| && s.committers[i].phase == phase
  }

  predicate CleanupAt(s: Gate, j: nat, phase: CleanupPhase) {
    j < |s.cleanups| && s.cleanups[j].phase == phase
  }

  predicate Enabled(s: Gate, step: Step) {
    match step
    case Advance => !s.reserving
    case Connect => !s.reserving
    case ReserveGeneration => !s.reserving
    case ReservePending => s.reserving
    case LockCommit(i) => CommitAt(s, i, Waiting) && s.lock == Nobody
    case ReadPending(i) => CommitAt(s, i, Holding)
    case Sleep(i) => CommitAt(s, i, MustSleep)
    case WakeUnasked(i) => CommitAt(s, i, Sleeping)
    case CheckGeneration(i) => CommitAt(s, i, Clear)
    case EndPublication(i) => CommitAt(s, i, Publishing)
    case LockCleanup(j) => CleanupAt(s, j, Reserved) && s.lock == Nobody
    case EndCleanup(j) => CleanupAt(s, j, Running)
    case NotifyAll(j) => j < |s.cleanups| && s.cleanups[j].phase.Finished?
    case UnlockCleanup(j) => CleanupAt(s, j, Leaving)
  }

  function CommitTo(s: Gate, i: nat, phase: CommitPhase): Gate
    requires i < |s.committers|
  {
    s.(committers := s.committers[i := s.committers[i].(phase := phase)])
  }

  function CleanupTo(s: Gate, j: nat, phase: CleanupPhase): Gate
    requires j < |s.cleanups|
  {
    s.(cleanups := s.cleanups[j := s.cleanups[j].(phase := phase)])
  }

  function Woken(c: Committer): Committer { if c.phase == Sleeping then c.(phase := Waiting) else c }

  function WakeAll(committers: seq<Committer>): (r: seq<Committer>)
    ensures |r| == |committers| && forall i :: 0 <= i < |r| ==> r[i] == Woken(committers[i])
  {
    seq(|committers|, i requires 0 <= i < |committers| => Woken(committers[i]))
  }

  function Do(s: Gate, step: Step): Gate
    requires Enabled(s, step)
  {
    match step
    case Advance => s.(generation := s.generation + 1)
    case Connect =>
      s.(generation := s.generation + 1, committers := s.committers + [Committer(s.generation + 1, Waiting)])
    case ReserveGeneration => s.(generation := s.generation + 1, reserving := true)
    case ReservePending =>
      s.(pending := s.pending + 1, reserving := false, cleanups := s.cleanups + [Cleanup(s.generation, Reserved)])
    case LockCommit(i) => CommitTo(s, i, Holding).(lock := CommitThread(i))
    case ReadPending(i) => CommitTo(s, i, if s.pending != 0 then MustSleep else Clear)
    case Sleep(i) => CommitTo(s, i, Sleeping).(lock := Nobody)
    case WakeUnasked(i) => CommitTo(s, i, Waiting)
    case CheckGeneration(i) =>
      if s.committers[i].generation == s.generation then CommitTo(s, i, Publishing)
      else CommitTo(s, i, Returned(false)).(lock := Nobody)
    case EndPublication(i) => CommitTo(s, i, Returned(true)).(lock := Nobody)
    case LockCleanup(j) => CleanupTo(s, j, Running).(lock := CleanupThread(j))
    case EndCleanup(j) =>
      CleanupTo(s, j, Finished(s.pending == 1)).(pending := if s.pending == 0 then 0 else s.pending - 1)
    case NotifyAll(j) =>
      var t := CleanupTo(s, j, Leaving);
      if s.cleanups[j].phase.last then t.(committers := WakeAll(t.committers)) else t
    case UnlockCleanup(j) => CleanupTo(s, j, Done).(lock := Nobody)
  }

  ghost predicate Next(s: Gate, t: Gate) {
    exists step :: Enabled(s, step) && t == Do(s, step)
  }

  ghost predicate IsRun(run: seq<Gate>) {
    && run != [] && run[0] == START
    && forall k :: 0 <= k < |run| - 1 ==> Next(run[k], run[k + 1])
  }

  // --------------------------------------------------------------- the invariant

  predicate HasLock(phase: CommitPhase) { phase in {Holding, MustSleep, Clear, Publishing} }

  predicate HasLockToClean(phase: CleanupPhase) { phase == Running || phase.Finished? || phase == Leaving }

  predicate Open(c: Cleanup) { c.phase == Reserved || c.phase == Running }

  function OpenCount(cleanups: seq<Cleanup>): nat {
    if cleanups == [] then 0
    else OpenCount(cleanups[..|cleanups| - 1]) + if Open(cleanups[|cleanups| - 1]) then 1 else 0
  }

  /** Exactly the thread that the lock names is inside. */
  ghost predicate LockOk(s: Gate) {
    && (forall i :: 0 <= i < |s.committers| ==> (HasLock(s.committers[i].phase) <==> s.lock == CommitThread(i)))
    && (forall j :: 0 <= j < |s.cleanups| ==> (HasLockToClean(s.cleanups[j].phase) <==> s.lock == CleanupThread(j)))
    && (s.lock.CommitThread? ==> s.lock.i < |s.committers|)
    && (s.lock.CleanupThread? ==> s.lock.j < |s.cleanups|)
  }

  ghost predicate GenerationsOk(s: Gate) {
    && (forall i :: 0 <= i < |s.committers| ==> s.committers[i].generation <= s.generation)
    && (forall j :: 0 <= j < |s.cleanups| ==> s.cleanups[j].number <= s.generation)
    && (forall i, j :: 0 <= i < |s.committers| && 0 <= j < |s.cleanups| ==>
          s.committers[i].generation != s.cleanups[j].number)
    && (s.reserving ==>
          && (forall i :: 0 <= i < |s.committers| ==> s.committers[i].generation < s.generation)
          && (forall j :: 0 <= j < |s.cleanups| ==> s.cleanups[j].number < s.generation))
  }

  /** Past the pending count, every older cleanup is over; whoever gave up was overtaken. */
  ghost predicate CommitsOk(s: Gate) {
    && (forall i, j :: 0 <= i < |s.committers| && 0 <= j < |s.cleanups| ==>
          s.committers[i].phase in {Clear, Publishing} && s.cleanups[j].number < s.committers[i].generation ==>
            s.cleanups[j].phase == Done)
    && (forall i :: 0 <= i < |s.committers| ==>
          s.committers[i].phase == Returned(false) ==> s.committers[i].generation < s.generation)
  }

  ghost predicate Notifying(s: Gate) {
    exists j :: 0 <= j < |s.cleanups| && s.cleanups[j].phase == Finished(true)
  }

  /** Nobody sleeps, or is about to, without a cleanup that will wake it. */
  ghost predicate SleepersOk(s: Gate) {
    && (forall i :: 0 <= i < |s.committers| ==> s.committers[i].phase == Sleeping ==> s.pending > 0 || Notifying(s))
    && (forall i :: 0 <= i < |s.committers| ==> s.committers[i].phase == MustSleep ==> s.pending > 0)
  }

  ghost predicate Inv(s: Gate) {
    && LockOk(s) && GenerationsOk(s) && CommitsOk(s) && SleepersOk(s)
    && s.pending == OpenCount(s.cleanups)
  }

  // ------------------------------------------------------------ counting cleanups

  lemma {:induction false} CountUpdate(cleanups: seq<Cleanup>, j: nat, c: Cleanup)
    requires j < |cleanups|
    ensures OpenCount(cleanups[j := c]) ==
      OpenCount(cleanups) - (if Open(cleanups[j]) then 1 else 0) + if Open(c) then 1 else 0
    decreases |cleanups|
  {
    var n := |cleanups| - 1;
    if j < n {
      CountUpdate(cleanups[..n], j, c);
      assert cleanups[j := c][..n] == cleanups[..n][j := c];
    } else {
      assert cleanups[j := c][..n] == cleanups[..n];
    }
  }

  lemma CountAppend(cleanups: seq<Cleanup>, c: Cleanup)
    ensures OpenCount(cleanups + [c]) == OpenCount(cleanups) + if Open(c) then 1 else 0
  {
  }

  lemma {:induction false} CountZero(cleanups: seq<Cleanup>)
    ensures OpenCount(cleanups) == 0 <==> forall j :: 0 <= j < |cleanups| ==> !Open(cleanups[j])
    decreases |cleanups|
  {
    if cleanups != [] {
      CountZero(cleanups[..|cleanups| - 1]);
    }
  }

  // ------------------------------------------------------- every step keeps it

  lemma CountKept(s: Gate, step: Step)
    requires Inv(s) && Enabled(s, step)
    ensures Do(s, step).pending == OpenCount(Do(s, step).cleanups)
  {
    match step
    case ReservePending => CountAppend(s.cleanups, Cleanup(s.generation, Reserved));
    case LockCleanup(j) => CountUpdate(s.cleanups, j, s.cleanups[j].(phase := Running));
    case EndCleanup(j) =>
      CountUpdate(s.cleanups, j, s.cleanups[j].(phase := Finished(s.pending == 1)));
      CountZero(s.cleanups);
    case NotifyAll(j) => CountUpdate(s.cleanups, j, s.cleanups[j].(phase := Leaving));
    case UnlockCleanup(j) => CountUpdate(s.cleanups, j, s.cleanups[j].(phase := Done));
    case _ =>
  }

  /** Only the user-interface thread hands out numbers. */
  predicate HandsOut(step: Step) {
    step.Advance? || step.Connect? || step.ReserveGeneration? || step.ReservePending?
  }

  predicate IsCleanupStep(step: Step) {
    step.LockCleanup? || step.EndCleanup? || step.NotifyAll? || step.UnlockCleanup?
  }

  predicate IsCommitStep(step: Step) { !HandsOut(step) && !IsCleanupStep(step) }

  /** A committer that takes, keeps or gives up the lock leaves everybody else where they were. */
  lemma CommitterLocks(s: Gate, i: nat, phase: CommitPhase, lock: Thread)
    requires LockOk(s) && i < |s.committers| && (HasLock(phase) <==> lock == CommitThread(i))
    requires lock == s.lock || (s.lock in {Nobody, CommitThread(i)} && lock in {Nobody, CommitThread(i)})
    ensures LockOk(CommitTo(s, i, phase).(lock := lock))
  {
  }

  lemma CleanupLocks(s: Gate, j: nat, phase: CleanupPhase, lock: Thread)
    requires LockOk(s) && j < |s.cleanups| && (HasLockToClean(phase) <==> lock == CleanupThread(j))
    requires lock == s.lock || (s.lock in {Nobody, CleanupThread(j)} && lock in {Nobody, CleanupThread(j)})
    ensures LockOk(CleanupTo(s, j, phase).(lock := lock))
  {
  }

  lemma WakingKeepsLock(s: Gate)
    requires LockOk(s)
    ensures LockOk(s.(committers := WakeAll(s.committers)))
  {
  }

  lemma LockKeptByCommit(s: Gate, step: Step)
    requires LockOk(s) && Enabled(s, step) && IsCommitStep(step)
    ensures LockOk(Do(s, step))
  {
    var t := Do(s, step);
    var i := step.i;
    var phase := t.committers[i].phase;
    assert (HasLock(phase) <==> t.lock == CommitThread(i)) && t == CommitTo(s, i, phase).(lock := t.lock);
    hide Do, LockOk, CommitTo;
    CommitterLocks(s, i, phase, t.lock);
  }

  lemma LockKeptByCleanup(s: Gate, step: Step)
    requires LockOk(s) && Enabled(s, step) && IsCleanupStep(step)
    ensures LockOk(Do(s, step))
  {
    var t := Do(s, step);
    var j := step.j;
    var phase := t.cleanups[j].phase;
    assert HasLockToClean(phase) <==> t.lock == CleanupThread(j);
    hide LockOk;
    CleanupLocks(s, j, phase, t.lock);
    WakingKeepsLock(CleanupTo(s, j, phase).(lock := t.lock));
  }

  lemma LockKeptByUser(s: Gate, step: Step)
    requires LockOk(s) && Enabled(s, step) && HandsOut(step)
    ensures LockOk(Do(s, step))
  {
  }

  lemma LockKept(s: Gate, step: Step)
    requires LockOk(s) && Enabled(s, step)
    ensures LockOk(Do(s, step))
  {
    hide Do, LockOk;
    if HandsOut(step) {
      LockKeptByUser(s, step);
    } else if IsCleanupStep(step) {
      LockKeptByCleanup(s, step);
    } else {
      LockKeptByCommit(s, step);
    }
  }

  /** The same generations and numbers throughout. */
  ghost predicate SameNumbers(s: Gate, t: Gate) {
    && t.generation == s.generation && t.reserving == s.reserving
    && |t.committers| == |s.committers| && |t.cleanups| == |s.cleanups|
    && (forall i :: 0 <= i < |s.committers| ==> t.committers[i].generation == s.committers[i].generation)
    && (forall j :: 0 <= j < |s.cleanups| ==> t.cleanups[j].number == s.cleanups[j].number)
  }

  lemma WorkersKeepNumbers(s: Gate, step: Step)
    requires Enabled(s, step) && !HandsOut(step)
    ensures SameNumbers(s, Do(s, step))
  {
  }

  lemma GenerationsKept(s: Gate, step: Step)
    requires GenerationsOk(s) && Enabled(s, step)
    ensures GenerationsOk(Do(s, step))
  {
    if !HandsOut(step) {
      WorkersKeepNumbers(s, step);
      hide Do, Enabled;
    }
  }

  lemma ReadingKeepsCommits(s: Gate, i: nat)
    requires LockOk(s) && CommitsOk(s) && s.pending == OpenCount(s.cleanups) && Enabled(s, ReadPending(i))
    ensures CommitsOk(Do(s, ReadPending(i)))
  {
    CountZero(s.cleanups);
  }

  lemma CommitsKept(s: Gate, step: Step)
    requires Inv(s) && Enabled(s, step)
    ensures CommitsOk(Do(s, step))
  {
    if step.ReadPending? {
      ReadingKeepsCommits(s, step.i);
    } else {
      OthersKeepCommits(s, step);
    }
  }

  /** A committer that does not get past the pending count, or returns, or was past
      it already, breaks no promise to the others. */
  lemma CommitterKeepsCommits(s: Gate, i: nat, phase: CommitPhase)
    requires CommitsOk(s) && i < |s.committers|
    requires phase in {Clear, Publishing} ==> s.committers[i].phase in {Clear, Publishing}
    requires phase == Returned(false) ==> s.committers[i].generation < s.generation
    ensures CommitsOk(CommitTo(s, i, phase))
  {
  }

  lemma CommitsKeptByCommit(s: Gate, step: Step)
    requires GenerationsOk(s) && CommitsOk(s) && Enabled(s, step) && IsCommitStep(step) && !step.ReadPending?
    ensures CommitsOk(Do(s, step))
  {
    var t := Do(s, step);
    var phase := t.committers[step.i].phase;
    assert t == CommitTo(s, step.i, phase).(lock := t.lock);
    assert phase == Returned(false) ==> s.committers[step.i].generation < s.generation;
    hide CommitsOk, Do, CommitTo;
    CommitterKeepsCommits(s, step.i, phase);
    LockApart(CommitTo(s, step.i, phase), t.lock);
  }

  lemma LockApart(s: Gate, lock: Thread)
    requires CommitsOk(s)
    ensures CommitsOk(s.(lock := lock))
  {
  }

  lemma CommitsKeptByCleanup(s: Gate, step: Step)
    requires CommitsOk(s) && Enabled(s, step) && IsCleanupStep(step)
    ensures CommitsOk(Do(s, step))
  {
  }

  lemma CommitsKeptByUser(s: Gate, step: Step)
    requires GenerationsOk(s) && CommitsOk(s) && Enabled(s, step) && HandsOut(step)
    ensures CommitsOk(Do(s, step))
  {
  }

  lemma OthersKeepCommits(s: Gate, step: Step)
    requires GenerationsOk(s) && CommitsOk(s) && Enabled(s, step) && !step.ReadPending?
    ensures CommitsOk(Do(s, step))
  {
    hide Do, CommitsOk, GenerationsOk;
    if HandsOut(step) {
      CommitsKeptByUser(s, step);
    } else if IsCleanupStep(step) {
      CommitsKeptByCleanup(s, step);
    } else {
      CommitsKeptByCommit(s, step);
    }
  }

  /** The last cleanup, when it is done, is the one that notifies. */
  lemma LastOneNotifies(s: Gate, j: nat)
    requires LockOk(s) && SleepersOk(s) && s.pending == OpenCount(s.cleanups) && Enabled(s, EndCleanup(j))
    ensures SleepersOk(Do(s, EndCleanup(j)))
  {
    CountZero(s.cleanups);
    var t := Do(s, EndCleanup(j));
    hide OpenCount;
    assert s.pending == 1 ==> t.cleanups[j].phase == Finished(true);
    NotifierStays(s, EndCleanup(j));
  }

  /** Until it has notified, a cleanup goes on being about to. */
  lemma NotifierStays(s: Gate, step: Step)
    requires Enabled(s, step) && !step.NotifyAll?
    ensures Notifying(s) ==> Notifying(Do(s, step))
  {
    if Notifying(s) {
      var j :| 0 <= j < |s.cleanups| && s.cleanups[j].phase == Finished(true);
      assert Do(s, step).cleanups[j].phase == Finished(true);
    }
  }

  lemma NotifyingKeepsSleepers(s: Gate, j: nat)
    requires SleepersOk(s) && Enabled(s, NotifyAll(j))
    ensures SleepersOk(Do(s, NotifyAll(j)))
  {
    if Notifying(s) && !s.cleanups[j].phase.last {
      var k :| 0 <= k < |s.cleanups| && s.cleanups[k].phase == Finished(true);
      assert Do(s, NotifyAll(j)).cleanups[k].phase == Finished(true);
    }
  }

  lemma OthersKeepSleepers(s: Gate, step: Step)
    requires SleepersOk(s) && Enabled(s, step) && !step.EndCleanup? && !step.NotifyAll?
    ensures SleepersOk(Do(s, step))
  {
    NotifierStays(s, step);
    hide Notifying;
  }

  lemma SleepersKept(s: Gate, step: Step)
    requires LockOk(s) && SleepersOk(s) && s.pending == OpenCount(s.cleanups) && Enabled(s, step)
    ensures SleepersOk(Do(s, step))
  {
    hide SleepersOk, Do, OpenCount, LockOk;
    match step
    case EndCleanup(j) => LastOneNotifies(s, j);
    case NotifyAll(j) => NotifyingKeepsSleepers(s, j);
    case _ => OthersKeepSleepers(s, step);
  }

  lemma StepKeepsInv(s: Gate, step: Step)
    requires Inv(s) && Enabled(s, step)
    ensures Inv(Do(s, step))
  {
    LockKept(s, step);
    GenerationsKept(s, step);
    CommitsKept(s, step);
    SleepersKept(s, step);
    CountKept(s, step);
  }

  lemma StartOk()
    ensures Inv(START)
  {
  }

  lemma NextKeepsInv(s: Gate, t: Gate)
    requires Inv(s) && Next(s, t)
    ensures Inv(t)
  {
    var step :| Enabled(s, step) && t == Do(s, step);
    hide Inv, Enabled, Do;
    StepKeepsInv(s, step);
  }

  lemma {:induction false} RunKeepsInv(run: seq<Gate>)
    requires IsRun(run)
    ensures forall k :: 0 <= k < |run| ==> Inv(run[k])
    decreases |run|
  {
    hide Inv, Next;
    var n := |run| - 1;
    StartOk();
    if n > 0 {
      RunKeepsInv(run[..n]);
      assert Inv(run[..n][n - 1]);
      NextKeepsInv(run[n - 1], run[n]);
    }
  }

  // ------------------------------------------------------------------ the theorems

  /** Publications and cleanups exclude each other, and one another. */
  lemma OneAtATime(run: seq<Gate>, k: nat)
    requires IsRun(run) && k < |run|
    ensures forall i, i' :: 0 <= i < i' < |run[k].committers| ==>
      !(run[k].committers[i].phase == Publishing && run[k].committers[i'].phase == Publishing)
    ensures forall j, j' :: 0 <= j < j' < |run[k].cleanups| ==>
      !(run[k].cleanups[j].phase == Running && run[k].cleanups[j'].phase == Running)
    ensures forall i, j :: 0 <= i < |run[k].committers| && 0 <= j < |run[k].cleanups| ==>
      !(run[k].committers[i].phase == Publishing && run[k].cleanups[j].phase == Running)
  {
    RunKeepsInv(run);
  }

  /** While a publication runs, every cleanup reserved before it was asked for is
      over, and every cleanup reserved since has yet to start. */
  lemma PublicationBetweenCleanups(run: seq<Gate>, k: nat, i: nat, j: nat)
    requires IsRun(run) && k < |run|
    requires i < |run[k].committers| && j < |run[k].cleanups| && run[k].committers[i].phase == Publishing
    ensures run[k].cleanups[j].number < run[k].committers[i].generation ==> run[k].cleanups[j].phase == Done
    ensures run[k].cleanups[j].number > run[k].committers[i].generation ==> run[k].cleanups[j].phase in {Reserved, Done}
    ensures run[k].cleanups[j].number != run[k].committers[i].generation
  {
    RunKeepsInv(run);
  }

  /** A cleanup has started that is newer than an operation not being published. */
  predicate Overtaken(s: Gate, i: nat, j: nat) {
    && i < |s.committers| && j < |s.cleanups| && s.committers[i].generation < s.cleanups[j].number
    && s.cleanups[j].phase != Reserved && s.committers[i].phase != Publishing
  }

  lemma StaysOvertaken(s: Gate, step: Step, i: nat, j: nat)
    requires Enabled(s, step) && Overtaken(s, i, j) && s.cleanups[j].number <= s.generation
    ensures Overtaken(Do(s, step), i, j)
    ensures Do(s, step).committers[i].phase == Returned(true) ==> s.committers[i].phase == Returned(true)
  {
  }

  lemma NextStaysOvertaken(s: Gate, t: Gate, i: nat, j: nat)
    requires Inv(s) && Next(s, t) && Overtaken(s, i, j)
    ensures Overtaken(t, i, j)
    ensures t.committers[i].phase == Returned(true) ==> s.committers[i].phase == Returned(true)
  {
    var step :| Enabled(s, step) && t == Do(s, step);
    hide Enabled, Do, CommitsOk, SleepersOk, LockOk, OpenCount;
    StaysOvertaken(s, step, i, j);
  }

  lemma InvAt(run: seq<Gate>, k: nat)
    requires IsRun(run) && k < |run|
    ensures Inv(run[k])
  {
    hide Inv, Next;
    RunKeepsInv(run);
  }

  /** Once a cleanup has started, no older operation is published any more: it was
      published before, or it never is. */
  lemma {:induction false} NoOlderPublicationAfterCleanup(run: seq<Gate>, k: nat, n: nat, i: nat, j: nat)
    requires IsRun(run) && k <= n < |run| && Overtaken(run[k], i, j)
    ensures Overtaken(run[n], i, j)
    ensures run[n].committers[i].phase == Returned(true) ==> run[k].committers[i].phase == Returned(true)
    decreases n
  {
    hide Inv, Next;
    if k < n {
      NoOlderPublicationAfterCleanup(run, k, n - 1, i, j);
      InvAt(run, n - 1);
      NextStaysOvertaken(run[n - 1], run[n], i, j);
    }
  }

  /** A call of the user-interface thread never waits and touches no worker. Each that takes a
      number takes one above all there are; a connection gets it for its own, and so does the
      cleanup whose reservation began with it. */
  lemma CallsOvertake(s: Gate, step: Step)
    requires Inv(s) && HandsOut(step)
    ensures Enabled(s, step) <==> (step.ReservePending? <==> s.reserving)
    ensures !START.reserving
    ensures Enabled(s, step) ==>
      var t := Do(s, step);
      && t.lock == s.lock && t.reserving == step.ReserveGeneration?
      && (step.ReservePending? ==> t.generation == s.generation)
      && (!step.ReservePending? ==>
            && (forall i :: 0 <= i < |s.committers| ==> s.committers[i].generation < t.generation)
            && (forall j :: 0 <= j < |s.cleanups| ==> s.cleanups[j].number < t.generation))
      && t.committers == s.committers + (if step.Connect? then [Committer(t.generation, Waiting)] else [])
      && t.cleanups == s.cleanups + (if step.ReservePending? then [Cleanup(t.generation, Reserved)] else [])
      && t.pending == s.pending + (if step.ReservePending? then 1 else 0)
  {
  }

  /** A newer number is out, and the operation is not being published. */
  predicate Stale(s: Gate, i: nat) {
    && i < |s.committers| && s.committers[i].generation < s.generation
    && s.committers[i].phase != Publishing && s.committers[i].phase != Returned(true)
  }

  lemma StaysStale(s: Gate, t: Gate, i: nat)
    requires Next(s, t) && Stale(s, i)
    ensures Stale(t, i)
  {
  }

  /** Whole runs: a newer number invalidates every older operation for good, unless its
      publication has begun. */
  lemma {:induction false} StaleForGood(run: seq<Gate>, k: nat, n: nat, i: nat)
    requires IsRun(run) && k <= n < |run| && Stale(run[k], i)
    ensures Stale(run[n], i)
    decreases n
  {
    hide Next, Stale;
    if k < n {
      StaleForGood(run, k, n - 1, i);
      StaysStale(run[n - 1], run[n], i);
    }
  }

  /** A publication starts only while its operation is the newest there is. */
  lemma StartsOnlyWhenCurrent(s: Gate, step: Step, i: nat)
    requires Inv(s) && Enabled(s, step) && i < |s.committers|
    requires s.committers[i].phase != Publishing && Do(s, step).committers[i].phase == Publishing
    ensures s.committers[i].generation == s.generation && s.lock == CommitThread(i)
    ensures forall i' :: 0 <= i' < |s.committers| ==> s.committers[i'].generation <= s.committers[i].generation
  {
  }

  /** Nobody sleeps while no cleanup is pending, unless the last one is about to wake it. */
  lemma NobodySleepsInVain(run: seq<Gate>, k: nat, i: nat)
    requires IsRun(run) && k < |run| && i < |run[k].committers|
    requires run[k].committers[i].phase == Sleeping && run[k].pending == 0
    ensures exists j :: Enabled(run[k], NotifyAll(j)) && Do(run[k], NotifyAll(j)).committers[i].phase == Waiting
  {
    RunKeepsInv(run);
    var s := run[k];
    assert Notifying(s);
    var j :| 0 <= j < |s.cleanups| && s.cleanups[j].phase == Finished(true);
    assert Enabled(s, NotifyAll(j)) && Do(s, NotifyAll(j)).committers[i].phase == Waiting;
  }

  /** Whoever gives up has been overtaken by a newer operation. */
  lemma GivesUpOnlyWhenOvertaken(run: seq<Gate>, k: nat, i: nat)
    requires IsRun(run) && k < |run| && i < |run[k].committers|
    requires run[k].committers[i].phase == Returned(false)
    ensures run[k].committers[i].generation < run[k].generation
  {
    RunKeepsInv(run);
  }

  // -------------------------------------------------------- everybody gets through

  /** A step of a worker that does not happen by accident. */
  predicate IsWork(step: Step) {
    match step
    case Advance => false
    case Connect => false
    case ReserveGeneration => false
    case ReservePending => false
    case WakeUnasked(_) => false
    case _ => true
  }

  ghost predicate AllReturned(s: Gate) {
    && (forall i :: 0 <= i < |s.committers| ==> s.committers[i].phase.Returned?)
    && (forall j :: 0 <= j < |s.cleanups| ==> s.cleanups[j].phase == Done)
  }

  lemma HolderCanWork(s: Gate) returns (step: Step)
    requires Inv(s) && s.lock != Nobody
    ensures IsWork(step) && Enabled(s, step)
  {
    match s.lock
    case Nobody =>
    case CommitThread(i) =>
      match s.committers[i].phase {
        case Holding => step := ReadPending(i);
        case MustSleep => step := Sleep(i);
        case Clear => step := CheckGeneration(i);
        case _ => step := EndPublication(i);
      }
    case CleanupThread(j) =>
      match s.cleanups[j].phase {
        case Running => step := EndCleanup(j);
        case Finished(_) => step := NotifyAll(j);
        case _ => step := UnlockCleanup(j);
      }
  }

  /** There is no deadlock: as long as somebody is not through, some worker can take a step. */
  lemma SomebodyCanWork(s: Gate) returns (step: Step)
    requires Inv(s) && !AllReturned(s)
    ensures IsWork(step) && Enabled(s, step)
  {
    CountZero(s.cleanups);
    if s.lock != Nobody {
      step := HolderCanWork(s);
    } else if j :| 0 <= j < |s.cleanups| && s.cleanups[j].phase == Reserved {
      step := LockCleanup(j);
    } else {
      assert forall j :: 0 <= j < |s.cleanups| ==> s.cleanups[j].phase == Done;
      var i :| 0 <= i < |s.committers| && !s.committers[i].phase.Returned?;
      step := LockCommit(i);
    }
  }

  function CommitRank(c: Committer): nat {
    match c.phase
    case Waiting => 4
    case Holding => 3
    case MustSleep => 2
    case Clear => 2
    case Sleeping => 1
    case Publishing => 1
    case Returned(_) => 0
  }

  function CleanupRank(c: Cleanup): nat {
    match c.phase
    case Reserved => 4
    case Running => 3
    case Finished(_) => 2
    case Leaving => 1
    case Done => 0
  }

  function CommitWork(committers: seq<Committer>): nat {
    if committers == [] then 0
    else CommitWork(committers[..|committers| - 1]) + CommitRank(committers[|committers| - 1])
  }

  function CleanupWork(cleanups: seq<Cleanup>): nat {
    if cleanups == [] then 0
    else CleanupWork(cleanups[..|cleanups| - 1]) + CleanupRank(cleanups[|cleanups| - 1])
  }

  /** How many steps the workers can take at most before all are through. */
  function Work(s: Gate): nat { CleanupWork(s.cleanups) * (4 * |s.committers| + 1) + CommitWork(s.committers) }

  lemma {:induction false} CommitWorkUpdate(committers: seq<Committer>, i: nat, c: Committer)
    requires i < |committers|
    ensures CommitWork(committers[i := c]) == CommitWork(committers) - CommitRank(committers[i]) + CommitRank(c)
    decreases |committers|
  {
    var n := |committers| - 1;
    if i < n {
      CommitWorkUpdate(committers[..n], i, c);
      assert committers[i := c][..n] == committers[..n][i := c];
    } else {
      assert committers[i := c][..n] == committers[..n];
    }
  }

  lemma {:induction false} CleanupWorkUpdate(cleanups: seq<Cleanup>, j: nat, c: Cleanup)
    requires j < |cleanups|
    ensures CleanupWork(cleanups[j := c]) == CleanupWork(cleanups) - CleanupRank(cleanups[j]) + CleanupRank(c)
    decreases |cleanups|
  {
    var n := |cleanups| - 1;
    if j < n {
      CleanupWorkUpdate(cleanups[..n], j, c);
      assert cleanups[j := c][..n] == cleanups[..n][j := c];
    } else {
      assert cleanups[j := c][..n] == cleanups[..n];
    }
  }

  lemma {:induction false} CommitWorkBound(committers: seq<Committer>)
    ensures CommitWork(committers) <= 4 * |committers|
    decreases |committers|
  {
    if committers != [] {
      CommitWorkBound(committers[..|committers| - 1]);
    }
  }

  /** One step of a cleanup outweighs whatever it wakes. */
  lemma Outweighs(before: nat, after: nat, unit: nat, was: nat, now: nat)
    requires after < before && now < unit
    ensures after * unit + now < before * unit + was
  {
    assert (after + 1) * unit <= before * unit;
  }

  lemma CleanupStepWorks(s: Gate, step: Step)
    requires Enabled(s, step) && IsCleanupStep(step)
    ensures var t := Do(s, step);
            CleanupWork(t.cleanups) < CleanupWork(s.cleanups) && |t.committers| == |s.committers|
  {
    var j := step.j;
    var c := Do(s, step).cleanups[j];
    CleanupWorkUpdate(s.cleanups, j, c);
    assert Do(s, step).cleanups == s.cleanups[j := c];
    hide CleanupWork;
  }

  lemma CommitStepWorks(s: Gate, step: Step)
    requires Enabled(s, step) && IsWork(step) && !IsCleanupStep(step)
    ensures var t := Do(s, step);
            && CommitWork(t.committers) < CommitWork(s.committers) && |t.committers| == |s.committers|
            && t.cleanups == s.cleanups
  {
    var i := step.i;
    var c := Do(s, step).committers[i];
    CommitWorkUpdate(s.committers, i, c);
    assert Do(s, step).committers == s.committers[i := c];
    hide CommitWork;
  }

  /** Every step of a worker leaves less work. */
  lemma WorkDecreases(s: Gate, step: Step)
    requires Enabled(s, step) && IsWork(step)
    ensures Work(Do(s, step)) < Work(s)
  {
    hide Do, Enabled, CleanupWork, CommitWork;
    var t := Do(s, step);
    if IsCleanupStep(step) {
      CleanupStepWorks(s, step);
      CommitWorkBound(t.committers);
      Outweighs(CleanupWork(s.cleanups), CleanupWork(t.cleanups), 4 * |s.committers| + 1,
                CommitWork(s.committers), CommitWork(t.committers));
    } else {
      CommitStepWorks(s, step);
    }
  }

  ghost predicate NextWork(s: Gate, t: Gate) {
    exists step :: IsWork(step) && Enabled(s, step) && t == Do(s, step)
  }

  lemma WorkStep(s: Gate, t: Gate)
    requires Inv(s) && NextWork(s, t)
    ensures Inv(t) && Work(t) < Work(s)
  {
    var step :| IsWork(step) && Enabled(s, step) && t == Do(s, step);
    hide Inv, Do, Enabled, Work;
    StepKeepsInv(s, step);
    WorkDecreases(s, step);
  }

  /** Left to themselves the workers all get through, however they are scheduled: the
      number of their steps is bounded, and when none is left everybody has returned
      and the operation that is still current, if there is one, is published. */
  lemma {:induction false} EverybodyReturns(run: seq<Gate>)
    requires run != [] && Inv(run[0])
    requires forall k :: 0 <= k < |run| - 1 ==> NextWork(run[k], run[k + 1])
    ensures |run| - 1 <= Work(run[0]) - Work(run[|run| - 1])
    ensures var t := run[|run| - 1];
            (forall step :: IsWork(step) ==> !Enabled(t, step)) ==>
              && AllReturned(t)
              && forall i :: 0 <= i < |t.committers| ==>
                t.committers[i].generation == t.generation ==> t.committers[i].phase == Returned(true)
    decreases |run|
  {
    if |run| == 1 {
      var t := run[0];
      if !AllReturned(t) {
        var step := SomebodyCanWork(t);
      }
    } else {
      hide Inv, NextWork, Work, Enabled, AllReturned;
      WorkStep(run[0], run[1]);
      EverybodyReturns(run[1..]);
      assert run[1..][|run| - 2] == run[|run| - 1];
    }
  }
}
