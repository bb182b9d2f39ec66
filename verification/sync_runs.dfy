/**
 What holds in every run of the sync routing: bindings stay with their vaults,
 answers from an ended relationship bind nothing, no push is left behind, and an
 old remote never lands on top of a newer one.
 */
module SyncRuns {
  import opened Wrappers
  import opened SyncRouting

  // --------------------------------------------------------------- the invariant

  /** No vault is both in front and parked, and without one in front there is no binding there. */
  ghost predicate FrontOk(s: State) {
    && (s.front.Some? ==> s.front.value.path !in s.parked)
    && (s.front.None? ==> s.sync.None?)
    && (s.pendingSync.Some? ==> s.pendingSync.value.binding.owner == s.pendingSync.value.path)
  }

  ghost predicate SlotOk(s: State, p: Path) {
    OwnedAt(s, p) && (SlotAt(s, p).Some? ==> SlotAt(s, p).value.session < s.nextSession)
  }

  /** A session there is or was. */
  predicate Issued(s: State, p: Path, x: SyncSession) {
    x.vault < s.nextSession && x.binding <= GenerationOf(s, p)
  }

  ghost predicate TaskOk(s: State, id: nat) {
    id in s.tasks ==> id < s.nextTask && Issued(s, s.tasks[id].path, s.tasks[id].session)
  }

  predicate IsPush(s: State, id: nat, p: Path, owner: SyncSession) {
    id in s.tasks && s.tasks[id].kind == Push && s.tasks[id].path == p && s.tasks[id].session == owner
  }

  /** A push under way has its task, and what waits behind it is of the same session,
      or of one that came after it. */
  ghost predicate FlightOk(s: State, p: Path) {
    p in s.inFlight ==>
      var q := s.inFlight[p];
      && Issued(s, p, q.owner) && (exists id :: IsPush(s, id, p, q.owner))
      && (q.pending.Some? ==>
            && Issued(s, p, q.pending.value.session)
            && (q.pending.value.session == q.owner || !IsCurrent(s, p, q.owner)))
  }

  ghost predicate AwaitOk(s: State, p: Path) {
    p in s.awaiting ==> Issued(s, p, s.awaiting[p].session)
  }

  ghost predicate SlotsOk(s: State) { forall p :: SlotOk(s, p) }

  ghost predicate TasksOk(s: State) { forall id :: TaskOk(s, id) }

  ghost predicate FlightsOk(s: State) { forall p :: FlightOk(s, p) }

  ghost predicate AwaitsOk(s: State) { forall p :: AwaitOk(s, p) }

  /** Requests, pushes and background work. */
  ghost predicate BooksOk(s: State) { TasksOk(s) && FlightsOk(s) && AwaitsOk(s) }

  /** A conflict waits for the user only at a bound vault, and is not called synced. The
      status is a failure, unless the connect dialog has replaced it. */
  predicate WaitOk(s: State, p: Path) {
    Waits(s, p) ==> HasBinding(s, p) && SlotAt(s, p).value.status in {Failed, Connecting, Idle}
  }

  ghost predicate WaitsOk(s: State) { forall p :: WaitOk(s, p) }

  ghost predicate Inv(s: State) { FrontOk(s) && SlotsOk(s) && BooksOk(s) && WaitsOk(s) }

  // ----------------------------------------------- how sessions come and go

  /** Only the user's steps that lock, disconnect or open change who is where. */
  predicate MovesOnly(step: Step) {
    step.DoSwitch? || step.DoRequestPassword? || step.DoRehydrate? || step.DoConnected?
  }

  /** Background work and what it answers leave everybody where they are. */
  predicate WorkOnly(step: Step) {
    !MovesOnly(step) && !step.DoOpened? && !step.DoDisconnect? && !step.DoLock?
  }

  /** The connect dialog writes over the status of whatever is in front. */
  predicate Dialog(step: Step) { step.DoShowConnecting? || step.DoUnwind? }

  lemma ParkSlot(s: State, p: Path)
    requires FrontOk(s)
    ensures SlotAt(Park(s), p) == SlotAt(s, p) && FrontOk(Park(s)) && Park(s).front.None?
    ensures Park(s).generations == s.generations
    ensures Park(s).parked.Keys == s.parked.Keys + (if s.front.Some? then {s.front.value.path} else {})
  {
  }

  lemma UnparkSlot(s: State, q: Path, p: Path)
    requires FrontOk(s) && s.front.None?
    ensures SlotAt(Unpark(s, q), p) == SlotAt(s, p) && FrontOk(Unpark(s, q))
    ensures Unpark(s, q).generations == s.generations
  {
  }

  lemma SwitchSlot(s: State, q: Path, p: Path)
    requires FrontOk(s)
    ensures SlotAt(SwitchTo(s, q), p) == SlotAt(s, p) && FrontOk(SwitchTo(s, q))
    ensures SwitchTo(s, q).generations == s.generations
  {
    ParkSlot(s, p);
    UnparkSlot(Park(s), q, p);
  }

  lemma RequestSlot(s: State, q: Path, p: Path)
    requires FrontOk(s)
    ensures SlotAt(RequestPassword(s, q), p) == SlotAt(s, p) && FrontOk(RequestPassword(s, q))
    ensures RequestPassword(s, q).generations == s.generations
  {
    SwitchSlot(s, q, p);
    ParkSlot(s, p);
    var t := s.(pendingSync := if s.pendingSync.Some? && s.pendingSync.value.path != q then None else s.pendingSync);
    assert SlotAt(t, p) == SlotAt(s, p) && FrontOk(t);
    ParkSlot(t, p);
  }

  /** Switching, asking for a password and going back move slots and change none. */
  lemma MoveSlot(s: State, step: Step, p: Path)
    requires FrontOk(s) && Enabled(s, step) && MovesOnly(step)
    ensures SlotAt(Do(s, step), p) == SlotAt(s, p) && FrontOk(Do(s, step))
    ensures Do(s, step).generations == s.generations
  {
    match step
    case DoSwitch(q) => SwitchSlot(s, q, p);
    case DoRequestPassword(q) => RequestSlot(s, q, p);
    case DoRehydrate(q) =>
      var t := s.(front := None, sync := None, status := Disconnected, pendingSync := None);
      assert SlotAt(t, p) == SlotAt(s, p);
      UnparkSlot(t, q, p);
    case DoConnected(pending) =>
      var t := s.(pendingSync := Some(pending));
      assert SlotAt(t, p) == SlotAt(s, p) && FrontOk(t);
      RequestSlot(t, pending.path, p);
  }

  /** The books are as they were. */
  predicate SameBooks(s: State, t: State) {
    && t.tasks == s.tasks && t.nextTask == s.nextTask && t.inFlight == s.inFlight && t.awaiting == s.awaiting
    && t.nextSession == s.nextSession
  }

  lemma MoveKeepsBooks(s: State, step: Step)
    requires Enabled(s, step) && MovesOnly(step)
    ensures SameBooks(s, Do(s, step)) && Do(s, step).notices == s.notices
  {
    match step
    case DoSwitch(q) => SwitchKeepsBooks(s, q);
    case DoRequestPassword(q) => RequestKeepsBooks(s, q);
    case DoRehydrate(q) =>
    case DoConnected(pending) => RequestKeepsBooks(s.(pendingSync := Some(pending)), pending.path);
  }

  lemma SwitchKeepsBooks(s: State, q: Path)
    ensures SameBooks(s, SwitchTo(s, q)) && SwitchTo(s, q).notices == s.notices
  {
  }

  lemma RequestKeepsBooks(s: State, q: Path)
    ensures SameBooks(s, RequestPassword(s, q)) && RequestPassword(s, q).notices == s.notices
  {
    SwitchKeepsBooks(s, q);
    hide SwitchTo;
  }

  lemma OpenedSlot(s: State, q: Path, hasConfig: bool, p: Path)
    requires FrontOk(s) && SlotOk(s, p) && s.front.None? && q !in s.parked
    ensures var t := Opened(s, q, hasConfig);
            && FrontOk(t) && SlotOk(t, p) && t.generations == s.generations && t.nextSession == s.nextSession + 1
            && (if p == q then SlotAt(t, p).Some? && SlotAt(t, p).value.session == s.nextSession
                else SlotAt(t, p) == SlotAt(s, p))
  {
    hide Cleared;
  }

  lemma EndSlot(s: State, p: Path)
    requires FrontOk(s) && SlotOk(s, p)
    ensures var t := EndRelationship(s);
            && FrontOk(t) && SlotOk(t, p)
            && (if IsActive(s, p) then GenerationOf(t, p) == GenerationOf(s, p) + 1 && SlotAt(t, p).Some?
                  && SlotAt(t, p).value.session == SlotAt(s, p).value.session
                else GenerationOf(t, p) == GenerationOf(s, p) && SlotAt(t, p) == SlotAt(s, p))
  {
  }

  /** The vault a step of background work is about. */
  function TargetOf(s: State, step: Step): Path
    requires Enabled(s, step)
  {
    if step.DoAnswer? then s.tasks[step.id].path
    else if step.DoSync? || step.DoPoll? || step.DoStart? then step.p
    else if s.front.Some? then s.front.value.path
    else 0
  }

  /** Answers and requests leave all sessions where they are, and other vaults alone. */
  lemma WorkOnlyAt(s: State, step: Step)
    requires Enabled(s, step) && WorkOnly(step) && !Dialog(step)
    ensures OnlyAt(s, Do(s, step), TargetOf(s, step))
  {
    var p := TargetOf(s, step);
    hide OnlyAt, Answered, SyncNow, Poll, Start, Resolve, TakeCost, ReconnectFails, TryRestore, CanAnswer, SessionFor;
    match step
    case DoAnswer(id, a, gate, hasConfig) => AnswerStaysAtItsSession(s, id, a, gate, hasConfig);
    case DoSync(_, interactive, bytes, hasConfig) =>
      SyncNowOnlyAt(s, p, Request(SessionFor(s, p).value, interactive, bytes), hasConfig);
    case DoPoll(_, overlay, throttled, ahead, hasConfig) => PollOnlyAt(s, p, overlay, throttled, ahead, hasConfig);
    case DoStart(kind, _) => StartOnlyAt(s, kind, p);
    case DoResolve(blocked, stale) => ResolveOnlyAt(s, blocked, stale, p);
    case DoTakeCost => TakeCostOnlyAt(s, p);
    case DoRetryRestore(hasConfig) => RetryOnlyAt(s, hasConfig, p);
    case DoReconnectFails => ReconnectFailsOnlyAt(s, p);
  }

  lemma RetryOnlyAt(s: State, hasConfig: bool, p: Path)
    requires s.front.Some? ==> p == s.front.value.path
    ensures OnlyAt(s, TryRestore(s, hasConfig), p)
  {
    BooksOnly(s, s, p);
    if s.front.Some? {
      TryRestoreOnlyAt(s, p, hasConfig);
    }
  }

  lemma WorkStays(s: State, step: Step, p: Path)
    requires Enabled(s, step) && WorkOnly(step)
    ensures SessionFor(Do(s, step), p) == SessionFor(s, p) && (OwnedAt(s, p) ==> OwnedAt(Do(s, step), p))
    ensures FreshToken(s, Do(s, step), p) && (WaitOk(s, p) ==> WaitOk(Do(s, step), p))
    ensures Settled(s, Do(s, step))
  {
    if Dialog(step) {
      DialogStays(s, TargetOf(s, step), p);
      DialogWaits(s, p);
    } else {
      WorkOnlyAt(s, step);
      hide Do;
      assert Stays(s, Do(s, step), TargetOf(s, step), p);
    }
  }

  lemma DialogWaits(s: State, p: Path)
    ensures WaitOk(s, p) ==> WaitOk(s.(status := Connecting), p) && WaitOk(Unwind(s), p)
  {
  }

  // ------------------------------------------------------- keeping the books

  ghost predicate Below(s: State, p: Path) { SlotAt(s, p).Some? ==> SlotAt(s, p).value.session < s.nextSession }

  ghost predicate Good(s: State) { BooksOk(s) && forall p :: Below(s, p) }

  /** Sessions may end and new ones begin, and the books stay in order. */
  ghost predicate Later(s: State, t: State, p: Path) {
    GenerationOf(s, p) <= GenerationOf(t, p) && forall x :: IsCurrent(t, p, x) && Issued(s, p, x) ==> IsCurrent(s, p, x)
  }

  lemma BooksCarry(s: State, t: State)
    requires BooksOk(s) && s.nextSession <= t.nextSession && forall p :: Later(s, t, p)
    requires t.tasks == s.tasks && t.nextTask == s.nextTask
    requires forall p :: p in t.inFlight ==> p in s.inFlight && t.inFlight[p] == s.inFlight[p]
    requires forall p :: p in t.awaiting ==> p in s.awaiting && t.awaiting[p] == s.awaiting[p]
    ensures BooksOk(t)
  {
    hide IsCurrent;
    forall id ensures TaskOk(t, id) {
      assert TaskOk(s, id) && (id in s.tasks ==> Later(s, t, s.tasks[id].path));
    }
    forall p ensures FlightOk(t, p) {
      assert FlightOk(s, p) && Later(s, t, p);
      if p in t.inFlight {
        var id :| IsPush(s, id, p, s.inFlight[p].owner);
        assert IsPush(t, id, p, s.inFlight[p].owner);
      }
    }
    forall p ensures AwaitOk(t, p) {
      assert AwaitOk(s, p) && Later(s, t, p);
    }
  }

  /** Writes to one slot leave the books in order. */
  lemma WriteGood(s: State, t: State, p: Path)
    requires Good(s) && OnlyAt(s, t, p) && SameBooks(s, t)
    ensures Good(t)
  {
    forall q ensures Later(s, t, q) && Below(t, q) {
      assert Stays(s, t, p, q) && Below(s, q);
    }
    BooksCarry(s, t);
  }

  lemma NewTaskGood(s: State, kind: Kind, p: Path, x: SyncSession, interactive: bool)
    requires Good(s) && Issued(s, p, x)
    ensures Good(NewTask(s, kind, p, x, interactive))
    ensures IsPush(NewTask(s, Push, p, x, interactive), s.nextTask, p, x)
  {
    var t := NewTask(s, kind, p, x, interactive);
    forall id ensures TaskOk(t, id) {
      assert TaskOk(s, id);
    }
    forall q ensures FlightOk(t, q) && AwaitOk(t, q) && Below(t, q) {
      assert FlightOk(s, q) && AwaitOk(s, q) && Below(s, q);
      if q in s.inFlight {
        var id :| IsPush(s, id, q, s.inFlight[q].owner);
        assert TaskOk(s, id);
        assert IsPush(t, id, q, s.inFlight[q].owner);
      }
    }
  }

  lemma CurrentIsIssued(s: State, p: Path, x: SyncSession)
    requires Below(s, p) && IsCurrent(s, p, x)
    ensures Issued(s, p, x)
  {
  }

  lemma TryRestoreGood(s: State, hasConfig: bool)
    requires Good(s)
    ensures Good(TryRestore(s, hasConfig))
  {
    if s.front.Some? && s.sync.None? && hasConfig {
      var p := s.front.value.path;
      var x := SyncSession(s.front.value.session, GenerationOf(s, p));
      assert Below(s, p);
      CurrentIsIssued(s, p, x);
      SetStatusOnlyAt(s, p, Restoring);
      assert SameBooks(s, SetStatus(s, p, Restoring));
      hide OnlyAt, Good, SetStatus;
      WriteGood(s, SetStatus(s, p, Restoring), p);
      NewTaskGood(SetStatus(s, p, Restoring), Restore, p, x, false);
    }
  }

  /** Only the entry of `p` in the queue is another one. */
  lemma FlightGood(s: State, t: State, p: Path)
    requires Good(s) && t == s.(inFlight := t.inFlight) && FlightOk(t, p)
    requires forall q :: q != p && q in t.inFlight ==> q in s.inFlight && t.inFlight[q] == s.inFlight[q]
    ensures Good(t)
  {
    forall id ensures TaskOk(t, id) {
      assert TaskOk(s, id);
    }
    forall q ensures FlightOk(t, q) && AwaitOk(t, q) && Below(t, q) {
      assert FlightOk(s, q) && AwaitOk(s, q) && Below(s, q);
      if q != p && q in t.inFlight {
        var id :| IsPush(s, id, q, s.inFlight[q].owner);
        assert IsPush(t, id, q, s.inFlight[q].owner);
      }
    }
  }

  lemma AwaitGood(s: State, t: State)
    requires Good(s) && t == s.(awaiting := t.awaiting)
    requires forall p :: p in t.awaiting ==> (p in s.awaiting && t.awaiting[p] == s.awaiting[p]) || Issued(s, p, t.awaiting[p].session)
    ensures Good(t)
  {
    forall id ensures TaskOk(t, id) {
      assert TaskOk(s, id);
    }
    forall q ensures FlightOk(t, q) && AwaitOk(t, q) && Below(t, q) {
      assert FlightOk(s, q) && AwaitOk(s, q) && Below(s, q);
      if q in t.inFlight {
        var id :| IsPush(s, id, q, s.inFlight[q].owner);
        assert IsPush(t, id, q, s.inFlight[q].owner);
      }
    }
  }

  lemma QueuedOk(s: State, p: Path, r: Request)
    requires Good(s) && IsCurrent(s, p, r.session) && p in s.inFlight
    ensures FlightOk(s.(inFlight := s.inFlight[p := Queue(s.inFlight[p], r)]), p)
  {
    assert Below(s, p) && FlightOk(s, p);
    CurrentIsIssued(s, p, r.session);
    var t := s.(inFlight := s.inFlight[p := Queue(s.inFlight[p], r)]);
    var id :| IsPush(s, id, p, s.inFlight[p].owner);
    assert IsPush(t, id, p, t.inFlight[p].owner);
    assert SessionFor(t, p) == SessionFor(s, p);
  }

  lemma PushGood(s: State, p: Path, r: Request)
    requires Good(s) && Issued(s, p, r.session)
    ensures var t := NewTask(s, Push, p, r.session, r.interactive);
            Good(SetStatus(t.(inFlight := t.inFlight[p := QueuedSync(r.session, None)]), p, Syncing))
  {
    var t := NewTask(s, Push, p, r.session, r.interactive);
    NewTaskGood(s, Push, p, r.session, r.interactive);
    var u := t.(inFlight := t.inFlight[p := QueuedSync(r.session, None)]);
    assert IsPush(u, s.nextTask, p, r.session);
    FlightGood(t, u, p);
    SetStatusOnlyAt(u, p, Syncing);
    assert SameBooks(u, SetStatus(u, p, Syncing));
    hide OnlyAt, Good, SetStatus;
    WriteGood(u, SetStatus(u, p, Syncing), p);
  }

  lemma SyncNowGood(s: State, p: Path, r: Request, hasConfig: bool)
    requires Good(s)
    ensures Good(SyncNow(s, p, r, hasConfig))
  {
    if IsCurrent(s, p, r.session) {
      assert Below(s, p);
      CurrentIsIssued(s, p, r.session);
      hide BooksOk, Issued;
      if p in s.inFlight {
        QueuedOk(s, p, r);
        FlightGood(s, s.(inFlight := s.inFlight[p := Queue(s.inFlight[p], r)]), p);
      } else if SlotAt(s, p).value.sync.Some? {
        PushGood(s, p, r);
      } else if IsActive(s, p) {
        var t := s.(awaiting := s.awaiting[p := r]);
        AwaitGood(s, t);
        TryRestoreGood(t, hasConfig);
      }
    }
  }

  // --------------------------------------------------- answers keep the books

  lemma StatusKeepsBooks(s: State, p: Path, status: Status)
    ensures SameBooks(s, SetStatus(s, p, status))
  {
    hide Cleared, IsActive;
    if IsActive(s, p) {
    } else if p in s.parked {
    }
  }

  lemma RouteGood(s: State, p: Path, x: SyncSession, status: Status)
    requires Good(s)
    ensures Good(RouteStatus(s, p, x, status))
  {
    hide OnlyAt, Good;
    RoutedOnlyAt(s, p, x, status, NoBinding(p), WithToken(0));
    StatusKeepsBooks(s, p, status);
    assert SameBooks(s, RouteStatus(s, p, x, status));
    hide RouteStatus;
    WriteGood(s, RouteStatus(s, p, x, status), p);
  }

  lemma RebindGood(s: State, p: Path, x: SyncSession, b: Binding)
    requires Good(s) && b.owner == p
    ensures Good(RebindSync(s, p, x, b))
  {
    hide OnlyAt, Good;
    RoutedOnlyAt(s, p, x, Idle, b, WithToken(0));
    assert SameBooks(s, RebindSync(s, p, x, b));
    hide RebindSync;
    WriteGood(s, RebindSync(s, p, x, b), p);
  }

  lemma UpdateGood(s: State, p: Path, x: SyncSession, change: Binding -> Binding)
    requires Good(s) && KeepsOwner(change)
    ensures Good(UpdateBinding(s, p, x, change))
  {
    hide OnlyAt, Good;
    RoutedOnlyAt(s, p, x, Idle, NoBinding(p), change);
    assert SameBooks(s, UpdateBinding(s, p, x, change));
    hide UpdateBinding;
    WriteGood(s, UpdateBinding(s, p, x, change), p);
  }

  lemma NoticesGood(s: State, n: Notices)
    requires Good(s)
    ensures Good(s.(notices := n))
  {
    var t := s.(notices := n);
    forall p ensures Later(s, t, p) && Below(t, p) {
      assert Below(s, p);
    }
    BooksCarry(s, t);
  }

  lemma MergeGood(s: State, p: Path, x: SyncSession, interactive: bool)
    requires Good(s)
    ensures Good(StartMerge(s, p, x, interactive))
  {
    if IsCurrent(s, p, x) {
      assert Below(s, p);
      CurrentIsIssued(s, p, x);
      NewTaskGood(s, Decrypt, p, x, interactive);
      hide Good;
      NoticesGood(NewTask(s, Decrypt, p, x, interactive), s.notices.(merging := s.notices.merging[p := s.nextTask]));
    }
  }

  lemma CommitMergeGood(s: State, p: Path, x: SyncSession, stale: bool)
    requires Good(s)
    ensures Good(CommitMerge(s, p, x, stale))
  {
    if IsCurrent(s, p, x) {
      RouteGood(s, p, x, Syncing);
      IssuedAfterRoute(s, p, x, Syncing);
      hide Good, RouteStatus, Issued;
      NewTaskGood(RouteStatus(s, p, x, Syncing), Commit, p, x, false);
    }
  }

  lemma IssuedAfterRoute(s: State, p: Path, x: SyncSession, status: Status)
    requires Good(s) && IsCurrent(s, p, x)
    ensures Issued(RouteStatus(s, p, x, status), p, x)
  {
    assert Below(s, p);
    CurrentIsIssued(s, p, x);
    RoutedOnlyAt(s, p, x, status, NoBinding(p), WithToken(0));
    hide RouteStatus, IsCurrent;
  }

  lemma ReplayGood(s: State, p: Path, hasConfig: bool)
    requires Good(s)
    ensures Good(ReplayAwaiting(s, p, hasConfig))
  {
    if p in s.awaiting {
      var t := s.(awaiting := s.awaiting - {p});
      AwaitGood(s, t);
      hide Good, SyncNow;
      SyncNowGood(t, p, s.awaiting[p], hasConfig);
    }
  }

  lemma RestoreAnsweredGood(s: State, t: Task, a: Answer, hasConfig: bool)
    requires Good(s) && CanAnswer(t, a)
    ensures Good(RestoreAnswered(s, t, a, hasConfig))
  {
    hide Good, RouteStatus, RebindSync, ReplayAwaiting, IsCurrent;
    match a
    case Bound(b) =>
      RebindGood(s, t.path, t.session, b);
      RouteGood(RebindSync(s, t.path, t.session, b), t.path, t.session, Idle);
      ReplayGood(RouteStatus(RebindSync(s, t.path, t.session, b), t.path, t.session, Idle), t.path, hasConfig);
    case GoneWrong(status) => RouteGood(s, t.path, t.session, status);
    case _ => RouteGood(s, t.path, t.session, Disconnected);
  }

  lemma StartQueuedGood(s: State, p: Path, pending: Option<Request>, hasConfig: bool)
    requires Good(s)
    ensures Good(StartQueued(s, p, pending, hasConfig))
  {
    hide Good, SyncNow;
    if pending.Some? {
      SyncNowGood(s, p, pending.value, hasConfig);
    }
  }

  lemma UploadedGood(s: State, p: Path, x: SyncSession, token: nat, etag: nat, revision: nat)
    requires Good(s)
    ensures Good(Uploaded(s, p, x, token, etag, revision))
  {
    hide Good, RouteStatus, UpdateBinding;
    var u := UpdateBinding(s, p, x, WithToken(token));
    UpdateGood(s, p, x, WithToken(token));
    UpdateGood(u, p, x, WithBaseline(etag, revision));
    RouteGood(UpdateBinding(u, p, x, WithBaseline(etag, revision)), p, x, Synced);
  }

  lemma OwnPushAnsweredGood(s: State, t: Task, pending: Option<Request>, a: Answer, hasConfig: bool)
    requires Good(s)
    ensures Good(OwnPushAnswered(s, t, pending, a, hasConfig))
  {
    var p, x := t.path, t.session;
    hide Good, RouteStatus, UpdateBinding, Uploaded, StartMerge, StartQueued, IsCurrent;
    if !IsCurrent(s, p, x) {
      StartQueuedGood(s, p, pending, hasConfig);
    } else {
      match a
      case Sent(token, etag, revision) =>
        UploadedGood(s, p, x, token, etag, revision);
        StartQueuedGood(Uploaded(s, p, x, token, etag, revision), p, pending, hasConfig);
      case Refused(token) =>
        UpdateGood(s, p, x, WithToken(token));
        MergeGood(UpdateBinding(s, p, x, WithToken(token)), p, x,
                  t.interactive || (pending.Some? && pending.value.session == x && pending.value.interactive));
      case GoneWrong(status) => RouteGood(s, p, x, status);
      case _ =>
    }
  }

  lemma PullAppliedGood(s: State, t: Task, a: Answer)
    requires Good(s)
    ensures Good(PullApplied(s, t, a))
  {
    var p, x := t.path, t.session;
    hide Good, RouteStatus, UpdateBinding, StartMerge, IsCurrent, HasBinding, SlotAt;
    RouteGood(s, p, x, Reconnect);
    match a
    case UpToDate(token) =>
      UpdateGood(s, p, x, WithToken(token));
      RouteGood(UpdateBinding(s, p, x, WithToken(token)), p, x, Synced);
    case RemoteAhead(token) =>
      UpdateGood(s, p, x, WithToken(token));
      MergeGood(UpdateBinding(s, p, x, WithToken(token)), p, x, false);
    case _ =>
  }

  lemma PullAnsweredGood(s: State, t: Task, a: Answer)
    requires Good(s)
    ensures Good(PullAnswered(s, t, a))
  {
    hide Good, PullApplied;
    NoticesGood(s, PullOver(s, t.path).notices);
    PullAppliedGood(PullOver(s, t.path), t, a);
  }

  lemma ConflictFoundGood(s: State, t: Task, etag: nat, editing: bool)
    requires Good(s)
    ensures Good(ConflictFound(s, t, etag, editing))
  {
    var p, x := t.path, t.session;
    var gone := s.notices.(deferred := s.notices.deferred - {p});
    var noted := s.notices.(deferred := s.notices.deferred[p := etag]);
    hide Good, RouteStatus;
    NoticesGood(s, gone);
    RouteGood(s.(notices := gone), p, x, Conflicted(x));
    NoticesGood(s, noted);
    RouteGood(s.(notices := noted), p, x, Failed);
  }

  lemma ContinueMergeGood(s: State, t: Task, a: Answer)
    requires Good(s)
    ensures Good(ContinueMerge(s, t, a))
  {
    var p, x := t.path, t.session;
    var u := WithoutCost(s, p);
    hide Good, RouteStatus, ConflictFound, CommitMerge;
    NoticesGood(s, s.notices.(costs := s.notices.costs - {p}));
    match a
    case Unreadable(None) => RouteGood(s, p, x, Failed);
    case Unreadable(Some(cost)) =>
      var asked := s.notices.(costs := s.notices.costs[p := cost]);
      NoticesGood(s, asked);
      RouteGood(s.(notices := asked), p, x, Failed);
    case Blocked => RouteGood(u, p, x, Failed);
    case Conflicting(etag, editing) => ConflictFoundGood(u, t, etag, editing);
    case Merged(stale) => CommitMergeGood(u, p, x, stale);
    case _ =>
  }

  lemma MergeAnsweredGood(s: State, id: nat, t: Task, a: Answer)
    requires Good(s)
    ensures Good(DecryptAnswered(s, id, t, a)) && Good(CommitAnswered(s, t, a)) && Good(UploadAnswered(s, t, a))
  {
    DecryptGood(s, id, t, a);
    CommitGood(s, t, a);
    UploadGood(s, t, a);
  }

  lemma DecryptGood(s: State, id: nat, t: Task, a: Answer)
    requires Good(s)
    ensures Good(DecryptAnswered(s, id, t, a))
  {
    var handedIn := s.notices.(merging := s.notices.merging - {t.path});
    hide Good, ContinueMerge, IsCurrent, HasBinding;
    NoticesGood(s, handedIn);
    ContinueMergeGood(s.(notices := handedIn), t, a);
  }

  lemma CommitGood(s: State, t: Task, a: Answer)
    requires Good(s)
    ensures Good(CommitAnswered(s, t, a))
  {
    var p, x := t.path, t.session;
    if a.Written? && IsCurrent(s, p, x) {
      assert Below(s, p);
      CurrentIsIssued(s, p, x);
      NewTaskGood(s, Upload, p, x, false);
    }
    hide Good, RouteStatus, UpdateBinding, IsCurrent;
    match a
    case FastForward(etag, revision) =>
      UpdateGood(s, p, x, WithBaseline(etag, revision));
      RouteGood(UpdateBinding(s, p, x, WithBaseline(etag, revision)), p, x, Synced);
    case GoneWrong(status) => RouteGood(s, p, x, status);
    case _ =>
  }

  lemma UploadGood(s: State, t: Task, a: Answer)
    requires Good(s)
    ensures Good(UploadAnswered(s, t, a))
  {
    var p, x := t.path, t.session;
    hide Good, RouteStatus, UpdateBinding, Uploaded, StartMerge;
    match a
    case Sent(token, etag, revision) => UploadedGood(s, p, x, token, etag, revision);
    case Refused(token) =>
      var u := UpdateBinding(s, p, x, WithToken(token));
      UpdateGood(s, p, x, WithToken(token));
      RouteGood(u, p, x, Syncing);
      MergeGood(RouteStatus(u, p, x, Syncing), p, x, true);
    case GoneWrong(status) => RouteGood(s, p, x, status);
    case _ =>
  }

  lemma ConnectAnsweredGood(s: State, t: Task, a: Answer, gate: bool, hasConfig: bool)
    requires Good(s) && CanAnswer(t, a)
    ensures Good(PublishAnswered(s, t, a, gate)) && Good(ReconnectAnswered(s, t, a, gate, hasConfig))
  {
    var p, x := t.path, t.session;
    hide Good, RouteStatus, RebindSync, SyncNow, IsCurrent;
    RouteGood(s, p, x, Failed);
    RouteGood(s, p, x, Reconnect);
    match a
    case Bound(b) =>
      RebindGood(s, p, x, b);
      var u := RouteStatus(RebindSync(s, p, x, b), p, x, Idle);
      RouteGood(RebindSync(s, p, x, b), p, x, Idle);
      SyncNowGood(u, p, Request(x, true, None), hasConfig);
    case _ =>
  }

  /** With its task a push leaves the queue. */
  lemma TaskGone(s: State, id: nat)
    requires Good(s) && id in s.tasks
    ensures var t := s.tasks[id];
            var u := s.(tasks := s.tasks - {id});
            var own := t.kind == Push && t.path in s.inFlight && s.inFlight[t.path].owner == t.session;
            Good(if own then u.(inFlight := u.inFlight - {t.path}) else u)
  {
    var t := s.tasks[id];
    var u := s.(tasks := s.tasks - {id});
    var own := t.kind == Push && t.path in s.inFlight && s.inFlight[t.path].owner == t.session;
    var v := if own then u.(inFlight := u.inFlight - {t.path}) else u;
    forall i ensures TaskOk(v, i) {
      assert TaskOk(s, i);
    }
    forall q ensures FlightOk(v, q) && AwaitOk(v, q) && Below(v, q) {
      assert FlightOk(s, q) && AwaitOk(s, q) && Below(s, q);
      if q in v.inFlight {
        var i :| IsPush(s, i, q, s.inFlight[q].owner);
        assert i != id;
        assert IsPush(v, i, q, s.inFlight[q].owner);
      }
    }
  }

  lemma AnsweredGood(s: State, id: nat, a: Answer, gate: bool, hasConfig: bool)
    requires Good(s) && id in s.tasks && CanAnswer(s.tasks[id], a)
    ensures Good(Answered(s, id, a, gate, hasConfig))
  {
    TaskGone(s, id);
    hide Good, RestoreAnswered, OwnPushAnswered, PullAnswered, DecryptAnswered, CommitAnswered, UploadAnswered,
      PublishAnswered, ReconnectAnswered, CanAnswer;
    var t := s.tasks[id];
    var u := s.(tasks := s.tasks - {id});
    match t.kind
    case Restore => RestoreAnsweredGood(u, t, a, hasConfig);
    case Push =>
      if t.path in s.inFlight && s.inFlight[t.path].owner == t.session {
        OwnPushAnsweredGood(u.(inFlight := u.inFlight - {t.path}), t, s.inFlight[t.path].pending, a, hasConfig);
      }
    case Pull => PullAnsweredGood(u, t, a);
    case Publish => ConnectAnsweredGood(u, t, a, gate, hasConfig);
    case Rebind => ConnectAnsweredGood(u, t, a, gate, hasConfig);
    case _ => MergeAnsweredGood(u, id, t, a);
  }

  // ------------------------------------------------------------- every step

  lemma UserGood(s: State, step: Step)
    requires FrontOk(s) && Good(s) && (forall p :: SlotOk(s, p)) && Enabled(s, step)
    requires MovesOnly(step) || step.DoDisconnect? || step.DoLock?
    ensures FrontOk(Do(s, step)) && Good(Do(s, step)) && forall p :: SlotOk(Do(s, step), p)
  {
    var t := Do(s, step);
    if MovesOnly(step) {
      MoveKeepsBooks(s, step);
      MoveSlot(s, step, 0);
      hide Do, BooksOk;
      forall p ensures Later(s, t, p) && Below(t, p) && SlotOk(t, p) {
        MoveSlot(s, step, p);
        assert Below(s, p) && SlotOk(s, p);
      }
      hide Later, Below, SlotOk;
      BooksCarry(s, t);
    } else if step.DoDisconnect? {
      EndSlot(s, 0);
      hide BooksOk;
      forall p ensures Later(s, t, p) && Below(t, p) && SlotOk(t, p) {
        EndSlot(s, p);
        assert Below(s, p) && SlotOk(s, p);
      }
      hide Later, Below, SlotOk;
      BooksCarry(s, t);
    } else {
      hide BooksOk;
      forall p ensures Later(s, t, p) && Below(t, p) && SlotOk(t, p) {
      }
      hide Later, Below, SlotOk;
      BooksCarry(s, t);
    }
  }

  /** The vault is in front, before anything is done about its binding. */
  function InFront(s: State, q: Path): State {
    var t := s.(front := Some(Front(q, s.nextSession)), nextSession := s.nextSession + 1);
    if t.pendingSync.Some? && t.pendingSync.value.path == q then
      t.(sync := Some(t.pendingSync.value.binding), status := Idle, pendingSync := None)
    else t
  }

  lemma InFrontGood(s: State, q: Path)
    requires FrontOk(s) && Good(s) && s.front.None? && q !in s.parked
    ensures Good(InFront(s, q))
  {
    var t := InFront(s, q);
    forall p ensures Later(s, t, p) && Below(t, p) {
      assert Below(s, p);
    }
    hide Later, Below;
    BooksCarry(s, t);
  }

  lemma OpenedGood(s: State, q: Path, hasConfig: bool)
    requires FrontOk(s) && Good(s) && s.front.None? && q !in s.parked
    ensures Good(Opened(s, q, hasConfig))
  {
    InFrontGood(s, q);
    hide Good;
    TryRestoreGood(InFront(s, q), hasConfig);
  }

  lemma PollGood(s: State, p: Path, overlay: bool, throttled: bool, ahead: bool, hasConfig: bool)
    requires Good(s)
    ensures Good(Poll(s, p, overlay, throttled, ahead, hasConfig))
  {
    if SlotAt(s, p).Some? {
      var x := SessionFor(s, p).value;
      assert Below(s, p);
      CurrentIsIssued(s, p, x);
      NewTaskGood(s, Pull, p, x, false);
      hide Good, SyncNow;
      NoticesGood(NewTask(s, Pull, p, x, false), s.notices.(polling := s.notices.polling + {p}));
      SyncNowGood(s, p, Request(x, false, None), hasConfig);
    }
  }

  lemma StartGood(s: State, kind: Kind, p: Path)
    requires Good(s) && SessionFor(s, p).Some?
    ensures Good(Start(s, kind, p))
  {
    var x := SessionFor(s, p).value;
    var t := SetStatus(s, p, Connecting);
    RouteGood(s, p, x, Connecting);
    IssuedAfterRoute(s, p, x, Connecting);
    assert Below(s, p);
    CurrentIsIssued(s, p, x);
    assert t == RouteStatus(s, p, x, Connecting);
    hide Good, SetStatus, RouteStatus, Issued;
    NewTaskGood(s, kind, p, x, false);
    NewTaskGood(t, kind, p, x, false);
  }

  lemma ResolveGood(s: State, blocked: bool, stale: bool)
    requires Good(s)
    ensures Good(Resolve(s, blocked, stale))
  {
    hide Good, RouteStatus, CommitMerge, IsCurrent;
    if s.front.Some? && s.status.Conflicted? {
      RouteGood(s, s.front.value.path, s.status.session, Failed);
      CommitMergeGood(s, s.front.value.path, s.status.session, stale);
    }
  }

  /** The books do not depend on a status. */
  lemma StatusGood(s: State, status: Status)
    requires Good(s)
    ensures Good(s.(status := status))
  {
    var t := s.(status := status);
    forall p ensures Later(s, t, p) && Below(t, p) {
      assert Below(s, p);
    }
    BooksCarry(s, t);
  }

  lemma DialogGood(s: State)
    requires Good(s)
    ensures Good(s.(status := Connecting)) && Good(Unwind(s)) && Good(ReconnectFails(s)) && Good(TakeCost(s))
  {
    hide Good;
    StatusGood(s, Connecting);
    StatusGood(s, Unwind(s).status);
    StatusGood(s, Failed);
    NoticesGood(s, TakeCost(s).notices);
  }

  lemma WorkGood(s: State, step: Step)
    requires Good(s) && Enabled(s, step) && WorkOnly(step)
    ensures Good(Do(s, step))
  {
    hide Good, Answered, SyncNow, Poll, Start, Resolve, TakeCost, Unwind, ReconnectFails, TryRestore, CanAnswer, SessionFor;
    match step
    case DoAnswer(id, a, gate, hasConfig) => AnsweredGood(s, id, a, gate, hasConfig);
    case DoSync(p, interactive, bytes, hasConfig) =>
      SyncNowGood(s, p, Request(SessionFor(s, p).value, interactive, bytes), hasConfig);
    case DoPoll(p, overlay, throttled, ahead, hasConfig) => PollGood(s, p, overlay, throttled, ahead, hasConfig);
    case DoStart(kind, p) => StartGood(s, kind, p);
    case DoResolve(blocked, stale) => ResolveGood(s, blocked, stale);
    case DoRetryRestore(hasConfig) => TryRestoreGood(s, hasConfig);
    case _ => DialogGood(s);
  }

  lemma FrontStays(s: State, t: State)
    requires FrontOk(s) && Settled(s, t)
    ensures FrontOk(t)
  {
  }

  lemma WorkKeepsSlots(s: State, step: Step)
    requires FrontOk(s) && (forall p :: SlotOk(s, p)) && Enabled(s, step) && WorkOnly(step)
    ensures FrontOk(Do(s, step)) && forall p :: SlotOk(Do(s, step), p)
  {
    WorkStays(s, step, 0);
    var t := Do(s, step);
    FrontStays(s, t);
    hide Do, Enabled, FrontOk;
    forall p ensures SlotOk(t, p) {
      WorkStays(s, step, p);
      assert SlotOk(s, p);
    }
  }

  lemma OpenedKeepsSlots(s: State, q: Path, hasConfig: bool)
    requires FrontOk(s) && (forall p :: SlotOk(s, p)) && s.front.None? && q !in s.parked
    ensures FrontOk(Opened(s, q, hasConfig)) && forall p :: SlotOk(Opened(s, q, hasConfig), p)
  {
    OpenedSlot(s, q, hasConfig, q);
    var t := Opened(s, q, hasConfig);
    hide Opened, FrontOk;
    forall p ensures SlotOk(t, p) {
      OpenedSlot(s, q, hasConfig, p);
    }
  }

  lemma BelowEverywhere(s: State)
    requires forall p :: SlotOk(s, p)
    ensures forall p :: Below(s, p)
  {
    forall p ensures Below(s, p) {
      assert SlotOk(s, p);
    }
  }

  /** Opening a vault finds no conflict waiting there, and each step that removes a
      binding removes what waits for it. */
  lemma StepKeepsWait(s: State, step: Step, p: Path)
    requires FrontOk(s) && SlotOk(s, p) && WaitOk(s, p) && Enabled(s, step)
    ensures WaitOk(Do(s, step), p)
  {
    if WorkOnly(step) {
      WorkStays(s, step, p);
    } else if MovesOnly(step) {
      MoveSlot(s, step, p);
      MoveKeepsBooks(s, step);
    } else if step.DoOpened? {
      OpenedSlot(s, step.p, step.hasConfig, p);
      OpenedNotices(s, step.p, step.hasConfig);
    } else if step.DoDisconnect? {
      EndSlot(s, p);
    }
  }

  lemma OpenedNotices(s: State, q: Path, hasConfig: bool)
    ensures var n := Opened(s, q, hasConfig).notices; n == s.notices || n == s.notices.(deferred := s.notices.deferred - {q})
  {
  }

  lemma StepKeepsWaits(s: State, step: Step)
    requires FrontOk(s) && SlotsOk(s) && WaitsOk(s) && Enabled(s, step)
    ensures WaitsOk(Do(s, step))
  {
    hide Do, WaitOk, FrontOk, SlotOk, Enabled;
    forall p ensures WaitOk(Do(s, step), p) {
      assert SlotOk(s, p) && WaitOk(s, p);
      StepKeepsWait(s, step, p);
    }
  }

  lemma StepKeepsInv(s: State, step: Step)
    requires Inv(s) && Enabled(s, step)
    ensures Inv(Do(s, step))
  {
    BelowEverywhere(s);
    StepKeepsWaits(s, step);
    hide BooksOk, FrontOk, SlotOk, Below, Do, WaitsOk;
    if MovesOnly(step) || step.DoDisconnect? || step.DoLock? {
      UserGood(s, step);
    } else if step.DoOpened? {
      OpenedGood(s, step.p, step.hasConfig);
      OpenedKeepsSlots(s, step.p, step.hasConfig);
      OpenedIs(s, step);
    } else {
      WorkGood(s, step);
      WorkKeepsSlots(s, step);
    }
  }

  lemma OpenedIs(s: State, step: Step)
    requires step.DoOpened? && Enabled(s, step)
    ensures Do(s, step) == Opened(s, step.p, step.hasConfig)
  {
  }

  lemma StartOk()
    ensures Inv(START)
  {
  }

  lemma NextKeepsInv(s: State, t: State)
    requires Inv(s) && Next(s, t)
    ensures Inv(t)
  {
    var step :| Enabled(s, step) && t == Do(s, step);
    hide Inv, Enabled, Do;
    StepKeepsInv(s, step);
  }

  lemma {:induction false} RunKeepsInv(run: seq<State>, k: nat)
    requires IsRun(run) && k < |run|
    ensures Inv(run[k])
    decreases k
  {
    hide Inv, Next;
    StartOk();
    if k > 0 {
      RunKeepsInv(run, k - 1);
      NextKeepsInv(run[k - 1], run[k]);
    }
  }

  // ------------------------------------------------------------------ the theorems

  /** In every run each binding sits in the slot of its own vault. */
  lemma BindingsStayHome(run: seq<State>, k: nat, p: Path)
    requires IsRun(run) && k < |run| && HasBinding(run[k], p)
    ensures SlotAt(run[k], p).value.sync.value.owner == p
  {
    RunKeepsInv(run, k);
    assert SlotOk(run[k], p);
  }

  /** In every run a conflict waits for the user only at a bound vault that does not
      pass for synced. */
  lemma WaitingIsNotSynced(run: seq<State>, k: nat, p: Path)
    requires IsRun(run) && k < |run| && p in run[k].notices.deferred
    ensures HasBinding(run[k], p) && SlotAt(run[k], p).value.status in {Failed, Connecting, Idle}
  {
    RunKeepsInv(run, k);
    assert WaitOk(run[k], p);
  }

  // ------------------------------------------------ an old remote never lands

  /** The decryption `id`, under way or over, is not the one that counts for `p`. */
  predicate Superseded(s: State, id: nat, p: Path) {
    id < s.nextTask && Look(s.notices.merging, p) != Some(id)
  }

  lemma MoveTokens(s: State, step: Step)
    requires Enabled(s, step) && !WorkOnly(step)
    ensures Do(s, step).notices.merging.Keys <= s.notices.merging.Keys && s.nextTask <= Do(s, step).nextTask
    ensures forall p <- Do(s, step).notices.merging :: Do(s, step).notices.merging[p] == s.notices.merging[p]
  {
    if MovesOnly(step) {
      MoveKeepsBooks(s, step);
    } else if step.DoOpened? {
      OpenedNotices(s, step.p, step.hasConfig);
    }
  }

  lemma StepSupersedes(s: State, step: Step, id: nat, p: Path)
    requires Enabled(s, step) && Superseded(s, id, p)
    ensures Superseded(Do(s, step), id, p)
  {
    if WorkOnly(step) {
      WorkStays(s, step, p);
    } else {
      MoveTokens(s, step);
    }
  }

  lemma NextSupersedes(s: State, t: State, id: nat, p: Path)
    requires Next(s, t) && Superseded(s, id, p)
    ensures Superseded(t, id, p)
  {
    var step :| Enabled(s, step) && t == Do(s, step);
    hide Enabled, Do, Superseded;
    StepSupersedes(s, step, id, p);
  }

  lemma {:induction false} SupersededForGood(run: seq<State>, k: nat, n: nat, id: nat, p: Path)
    requires IsRun(run) && k <= n < |run| && Superseded(run[k], id, p)
    ensures Superseded(run[n], id, p)
    decreases n
  {
    hide Next, Superseded;
    if k < n {
      SupersededForGood(run, k, n - 1, id, p);
      NextSupersedes(run[n - 1], run[n], id, p);
    }
  }

  /** What supersedes the decryptions of a vault: a newer one, a new attempt or a good
      end of one, and the end of the sync relationship. */
  lemma WhatSupersedes(s: State, p: Path, x: SyncSession, interactive: bool, status: Status, id: nat)
    requires id < s.nextTask
    ensures IsCurrent(s, p, x) && HasBinding(s, p) ==> Superseded(StartMerge(s, p, x, interactive), id, p)
    ensures Settles(status) ==> Superseded(SetStatus(s, p, status), id, p)
    ensures IsActive(s, p) ==> Superseded(EndRelationship(s), id, p)
  {
  }

  /** A decryption that was superseded at some moment changes nothing by its answer,
      whatever it says and however much later it comes. */
  lemma OldRemoteNeverLands(run: seq<State>, k: nat, n: nat, id: nat, a: Answer, gate: bool, hasConfig: bool)
    requires IsRun(run) && k <= n < |run| && id in run[n].tasks && run[n].tasks[id].kind == Decrypt
    requires Superseded(run[k], id, run[n].tasks[id].path)
    ensures Answered(run[n], id, a, gate, hasConfig) == run[n].(tasks := run[n].tasks - {id})
  {
    SupersededForGood(run, k, n, id, run[n].tasks[id].path);
  }

  // ------------------------------------------------------------------ ended sessions

  /** Once over, a session never comes back. */
  lemma SessionStaysOver(s: State, step: Step, p: Path, x: SyncSession)
    requires Inv(s) && Enabled(s, step) && Issued(s, p, x) && !IsCurrent(s, p, x)
    ensures Issued(Do(s, step), p, x) && !IsCurrent(Do(s, step), p, x)
  {
    assert SlotOk(s, p);
    if MovesOnly(step) {
      MoveSlot(s, step, p);
      MoveKeepsBooks(s, step);
    } else if step.DoOpened? {
      OpenedSlot(s, step.p, step.hasConfig, p);
    } else if step.DoDisconnect? {
      EndSlot(s, p);
    } else if !step.DoLock? {
      WorkStays(s, step, p);
    }
  }

  lemma NextStaysOver(s: State, t: State, p: Path, x: SyncSession)
    requires Inv(s) && Next(s, t) && Issued(s, p, x) && !IsCurrent(s, p, x)
    ensures Issued(t, p, x) && !IsCurrent(t, p, x)
  {
    var step :| Enabled(s, step) && t == Do(s, step);
    hide Inv, Enabled, Do, Issued, IsCurrent;
    SessionStaysOver(s, step, p, x);
  }

  lemma {:induction false} OverForGood(run: seq<State>, k: nat, n: nat, p: Path, x: SyncSession)
    requires IsRun(run) && k <= n < |run| && Issued(run[k], p, x) && !IsCurrent(run[k], p, x)
    ensures Issued(run[n], p, x) && !IsCurrent(run[n], p, x)
    decreases n
  {
    hide Inv, Next, Issued, IsCurrent;
    if k < n {
      OverForGood(run, k, n - 1, p, x);
      RunKeepsInv(run, n - 1);
      NextStaysOver(run[n - 1], run[n], p, x);
    }
  }

  /** Whatever a late answer says and whenever it comes: an answer to a session that is
      over binds nothing and writes no baseline anywhere. */
  lemma LateAnswerBindsNothing(run: seq<State>, k: nat, n: nat, id: nat, a: Answer, gate: bool, hasConfig: bool, q: Path)
    requires IsRun(run) && k <= n < |run| && id in run[n].tasks && CanAnswer(run[n].tasks[id], a)
    requires var t := run[n].tasks[id]; Issued(run[k], t.path, t.session) && !IsCurrent(run[k], t.path, t.session)
    ensures SameBindingAt(run[n], Answered(run[n], id, a, gate, hasConfig), q)
  {
    var t := run[n].tasks[id];
    OverForGood(run, k, n, t.path, t.session);
    hide Answered, IsRun, CanAnswer, IsCurrent, Issued;
    AnswerStaysAtItsSession(run[n], id, a, gate, hasConfig);
    assert Stays(run[n], Answered(run[n], id, a, gate, hasConfig), t.path, q);
  }

  /** Disconnecting ends every session of the vault in front, and none of any other vault. */
  lemma DisconnectEndsOneVault(s: State, p: Path, x: SyncSession)
    requires FrontOk(s) && SlotOk(s, p)
    ensures IsActive(s, p) && Issued(s, p, x) ==> !IsCurrent(EndRelationship(s), p, x) && !HasBinding(EndRelationship(s), p)
    ensures !IsActive(s, p) ==> (IsCurrent(EndRelationship(s), p, x) <==> IsCurrent(s, p, x))
  {
  }

  /** Locking ends them all. */
  lemma LockEndsAll(s: State, waiting: bool, p: Path, x: SyncSession)
    ensures !IsCurrent(LockAll(s, waiting), p, x) && !HasBinding(LockAll(s, waiting), p)
  {
  }

  /** What was asked before the user disconnected a vault, or locked, never binds it again. */
  lemma NothingBindsAfterDisconnect(run: seq<State>, k: nat, n: nat, id: nat, a: Answer, gate: bool, hasConfig: bool,
                                    waiting: bool, q: Path)
    requires IsRun(run) && k + 1 <= n < |run| && id in run[n].tasks && CanAnswer(run[n].tasks[id], a)
    requires Issued(run[k], run[n].tasks[id].path, run[n].tasks[id].session)
    requires (IsActive(run[k], run[n].tasks[id].path) && run[k + 1] == EndRelationship(run[k]))
      || run[k + 1] == LockAll(run[k], waiting)
    ensures SameBindingAt(run[n], Answered(run[n], id, a, gate, hasConfig), q)
  {
    var t := run[n].tasks[id];
    RunKeepsInv(run, k);
    assert SlotOk(run[k], t.path);
    DisconnectEndsOneVault(run[k], t.path, t.session);
    LockEndsAll(run[k], waiting, t.path, t.session);
    StillIssued(run[k], waiting, t.path, t.session);
    hide Answered, IsCurrent, Issued, EndRelationship, LockAll, Inv, Next, CanAnswer, IsActive;
    LateAnswerBindsNothing(run, k + 1, n, id, a, gate, hasConfig, q);
  }

  lemma StillIssued(s: State, waiting: bool, p: Path, x: SyncSession)
    requires Issued(s, p, x)
    ensures Issued(EndRelationship(s), p, x) && Issued(LockAll(s, waiting), p, x)
  {
  }

  /** Every place in the push queue has its push under way, which gives it up when it
      is answered: no vault is left waiting behind a push that is not there. */
  lemma NoPushLeftBehind(run: seq<State>, k: nat, p: Path)
    requires IsRun(run) && k < |run| && p in run[k].inFlight
    ensures exists id :: IsPush(run[k], id, p, run[k].inFlight[p].owner)
    ensures forall id, a, gate, hasConfig :: IsPush(run[k], id, p, run[k].inFlight[p].owner) ==>
      NextIsCurrent(run[k], Answered(run[k], id, a, gate, hasConfig), p)
  {
    RunKeepsInv(run, k);
    var s := run[k];
    assert FlightOk(s, p);
    hide Answered, NextIsCurrent;
    forall id, a, gate, hasConfig | IsPush(s, id, p, s.inFlight[p].owner)
      ensures NextIsCurrent(s, Answered(s, id, a, gate, hasConfig), p)
    {
      PushGivesWay(s, id, a, gate, hasConfig);
    }
  }

  /** Who is next in the queue, if anybody is, is the session there is. */
  predicate NextIsCurrent(s: State, t: State, p: Path) {
    p in t.inFlight ==> t.inFlight[p].pending.None? && SessionFor(s, p) == Some(t.inFlight[p].owner)
  }

  lemma PushGivesWay(s: State, id: nat, a: Answer, gate: bool, hasConfig: bool)
    requires id in s.tasks && s.tasks[id].kind == Push && s.tasks[id].path in s.inFlight
    requires s.inFlight[s.tasks[id].path].owner == s.tasks[id].session
    ensures NextIsCurrent(s, Answered(s, id, a, gate, hasConfig), s.tasks[id].path)
  {
    var t := s.tasks[id];
    var u := s.(tasks := s.tasks - {id}, inFlight := s.inFlight - {t.path});
    var pending := s.inFlight[t.path].pending;
    BooksOnly(s, u, t.path);
    assert Stays(s, u, t.path, t.path);
    OwnGivesWay(u, t, pending, a, hasConfig);
    hide OwnPushAnswered, SessionFor;
    assert Answered(s, id, a, gate, hasConfig) == OwnPushAnswered(u, t, pending, a, hasConfig);
  }

  lemma UploadedKeepsFlights(s: State, p: Path, x: SyncSession, token: nat, etag: nat, revision: nat)
    ensures Uploaded(s, p, x, token, etag, revision).inFlight == s.inFlight
  {
    var u := UpdateBinding(s, p, x, WithToken(token));
    assert u.inFlight == s.inFlight;
    var v := UpdateBinding(u, p, x, WithBaseline(etag, revision));
    assert v.inFlight == u.inFlight;
    hide UpdateBinding;
  }

  lemma OwnGivesWay(s: State, t: Task, pending: Option<Request>, a: Answer, hasConfig: bool)
    requires t.path !in s.inFlight
    ensures NextIsCurrent(s, OwnPushAnswered(s, t, pending, a, hasConfig), t.path)
  {
    var p, x := t.path, t.session;
    if !IsCurrent(s, p, x) {
      hide StartQueued;
      QueuedGivesWay(s, p, pending, hasConfig);
    } else {
      match a
      case Sent(token, etag, revision) =>
        UploadedOnlyAt(s, p, x, token, etag, revision);
        UploadedKeepsFlights(s, p, x, token, etag, revision);
        var w := Uploaded(s, p, x, token, etag, revision);
        hide Uploaded, StartQueued, IsCurrent;
        assert Stays(s, w, p, p);
        QueuedGivesWay(w, p, pending, hasConfig);
      case Refused(token) => assert UpdateBinding(s, p, x, WithToken(token)).inFlight == s.inFlight;
      case GoneWrong(status) => assert RouteStatus(s, p, x, status).inFlight == s.inFlight;
      case _ =>
    }
  }

  lemma QueuedGivesWay(s: State, p: Path, pending: Option<Request>, hasConfig: bool)
    requires p !in s.inFlight
    ensures NextIsCurrent(s, StartQueued(s, p, pending, hasConfig), p)
  {
    hide Cleared;
  }

  /** When an answer has the request behind it dropped, that is one of the same session. */
  lemma DroppedIsOfTheSameSession(run: seq<State>, k: nat, p: Path)
    requires IsRun(run) && k < |run| && p in run[k].inFlight
    requires IsCurrent(run[k], p, run[k].inFlight[p].owner) && run[k].inFlight[p].pending.Some?
    ensures run[k].inFlight[p].pending.value.session == run[k].inFlight[p].owner
  {
    RunKeepsInv(run, k);
    assert FlightOk(run[k], p);
  }

  // --------------------------------------------------- what coalescing keeps

  function QueueAll(q: QueuedSync, requests: seq<Request>): QueuedSync {
    if requests == [] then q else Queue(QueueAll(q, requests[..|requests| - 1]), requests[|requests| - 1])
  }

  /** The last requests that are all of one session start at `i`. */
  ghost predicate LastRun(requests: seq<Request>, i: nat) {
    && i < |requests|
    && (forall j :: i <= j < |requests| ==> requests[j].session == requests[|requests| - 1].session)
    && (i > 0 ==> requests[i - 1].session != requests[|requests| - 1].session)
  }

  /** What waits behind a push is the last request with its bytes; it is interactive
      if any request was since the session last changed, and keeps nothing older. */
  lemma {:induction false} CoalescedRequest(owner: SyncSession, requests: seq<Request>, i: nat)
    requires LastRun(requests, i)
    ensures QueueAll(QueuedSync(owner, None), requests).pending == Some(Request(
      requests[|requests| - 1].session,
      exists j :: i <= j < |requests| && requests[j].interactive,
      requests[|requests| - 1].bytes))
    decreases |requests|
  {
    var n := |requests| - 1;
    var front := requests[..n];
    if n == 0 {
    } else if i == n {
      var i' := StartOfRun(front);
      CoalescedRequest(owner, front, i');
    } else {
      assert LastRun(front, i);
      CoalescedRequest(owner, front, i);
      assert (exists j :: i <= j < |requests| && requests[j].interactive) <==>
        (exists j :: i <= j < n && front[j].interactive) || requests[n].interactive;
    }
  }

  lemma {:induction false} StartOfRun(requests: seq<Request>) returns (i: nat)
    requires requests != []
    ensures LastRun(requests, i)
    decreases |requests|
  {
    var n := |requests| - 1;
    if n == 0 || requests[n - 1].session != requests[n].session {
      i := n;
    } else {
      i := StartOfRun(requests[..n]);
    }
  }
}
