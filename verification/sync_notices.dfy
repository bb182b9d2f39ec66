/**
 Two promises the notices of sync make, each kept up to one kind of step: a
 conflict that waits for the user is shown as a failure, and one poll at a time
 is under way for a vault.
 */
module SyncNotices {
  import opened Wrappers
  import opened SyncRouting
  import opened SyncRuns

  // ------------------------------------------------- a waiting conflict is a failure

  /** The connect dialog writes over the mark of a conflict that waits in front. */
  predicate WritesOverMark(s: State, step: Step) {
    Dialog(step) && s.front.Some? && Waits(s, s.front.value.path)
  }

  lemma DialogMark(s: State, step: Step, p: Path)
    requires Enabled(s, step) && Dialog(step) && Waits(s, p) && HasBinding(s, p) && Failing(s, p)
    ensures Failing(Do(s, step), p) <==> !IsActive(s, p)
  {
  }

  lemma WorkMark(s: State, step: Step, p: Path)
    requires Enabled(s, step) && WorkOnly(step) && !Dialog(step)
    ensures KeepsMark(s, Do(s, step), p)
  {
    WorkOnlyAt(s, step);
    hide Do;
    assert Stays(s, Do(s, step), TargetOf(s, step), p);
  }

  /** Moving, opening, disconnecting and locking give no conflict to wait for, and where one
      waits on they leave the slot as it is. */
  lemma MoveMark(s: State, step: Step, p: Path)
    requires FrontOk(s) && SlotOk(s, p) && WaitOk(s, p) && Enabled(s, step) && !WorkOnly(step)
    ensures Waits(Do(s, step), p) ==> Waits(s, p) && SlotAt(Do(s, step), p) == SlotAt(s, p)
  {
    if MovesOnly(step) {
      MoveSlot(s, step, p);
      MoveKeepsBooks(s, step);
    } else if step.DoOpened? {
      OpenedSlot(s, step.p, step.hasConfig, p);
      OpenedNotices(s, step.p, step.hasConfig);
    } else if step.DoDisconnect? {
      EndSlot(s, p);
    }
  }

  /** Of all steps that leave a conflict waiting, exactly the connect dialog's two take away
      its mark, and only from the vault in front. */
  lemma MarkLostIffDialog(s: State, step: Step, p: Path)
    requires Inv(s) && Enabled(s, step) && Waits(s, p) && Failing(s, p) && Waits(Do(s, step), p)
    ensures Failing(Do(s, step), p) <==> !(IsActive(s, p) && (step.DoShowConnecting? || step.DoUnwind?))
  {
    assert WaitOk(s, p) && SlotOk(s, p);
    hide BooksOk, SlotsOk, WaitsOk;
    if !WorkOnly(step) {
      MoveMark(s, step, p);
    } else if Dialog(step) {
      DialogMark(s, step, p);
    } else {
      WorkMark(s, step, p);
      hide Do;
    }
  }

  ghost predicate MarksShown(s: State) { forall p :: Waits(s, p) ==> Failing(s, p) }

  /** A step that does not write over a mark. */
  ghost predicate CalmNext(s: State, t: State) {
    exists step :: Enabled(s, step) && t == Do(s, step) && !WritesOverMark(s, step)
  }

  lemma NextShows(s: State, step: Step, p: Path)
    requires Inv(s) && Enabled(s, step) && !WritesOverMark(s, step) && (Waits(s, p) ==> Failing(s, p))
    ensures Waits(Do(s, step), p) ==> Failing(Do(s, step), p)
  {
    assert WaitOk(s, p) && SlotOk(s, p);
    hide BooksOk, SlotsOk, WaitsOk;
    if !WorkOnly(step) {
      MoveMark(s, step, p);
    } else if Dialog(step) {
      if Waits(s, p) {
        DialogMark(s, step, p);
      }
    } else {
      WorkMark(s, step, p);
      hide Do;
    }
  }

  lemma CalmShows(s: State, t: State)
    requires Inv(s) && CalmNext(s, t) && MarksShown(s)
    ensures MarksShown(t)
  {
    var step :| Enabled(s, step) && t == Do(s, step) && !WritesOverMark(s, step);
    hide Inv, Enabled, Do, WritesOverMark, Waits, Failing;
    forall p ensures Waits(t, p) ==> Failing(t, p) {
      NextShows(s, step, p);
    }
  }

  /** In every run in which the connect dialog is not opened or closed over a vault whose
      conflict waits, every conflict that waits is shown as a failure, at a bound vault. */
  lemma {:induction false} WaitingShowsFailed(run: seq<State>, k: nat)
    requires IsRun(run) && k < |run| && forall i :: 0 <= i < k ==> CalmNext(run[i], run[i + 1])
    ensures forall p :: Waits(run[k], p) ==> Failing(run[k], p) && HasBinding(run[k], p)
    decreases k
  {
    MarksShownAt(run, k);
    RunKeepsInv(run, k);
    hide Next, CalmNext, FrontOk, SlotsOk, BooksOk, HasBinding, Failing;
    forall p | Waits(run[k], p) ensures HasBinding(run[k], p) {
      assert WaitOk(run[k], p);
    }
  }

  lemma {:induction false} MarksShownAt(run: seq<State>, k: nat)
    requires IsRun(run) && k < |run| && forall i :: 0 <= i < k ==> CalmNext(run[i], run[i + 1])
    ensures MarksShown(run[k])
    decreases k
  {
    hide Inv, Next, CalmNext;
    if k > 0 {
      MarksShownAt(run, k - 1);
      RunKeepsInv(run, k - 1);
      CalmShows(run[k - 1], run[k]);
    }
  }

  // --------------------------------------------- a run that hides a waiting conflict

  const VAULT: Path := 7
  const BOUND: Binding := Binding(VAULT, 0, 0, None)
  const FIRST: SyncSession := SyncSession(0, 0)
  const SECOND: SyncSession := SyncSession(1, 0)

  ghost predicate Leads(s: State, step: Step, t: State) { Enabled(s, step) && Do(s, step) == t }

  function Last(run: seq<State>): State
    requires run != []
  {
    run[|run| - 1]
  }

  lemma GoOn(run: seq<State>, step: Step, t: State) returns (more: seq<State>)
    requires IsRun(run) && Leads(Last(run), step, t)
    ensures IsRun(more) && Last(more) == t
  {
    more := run + [t];
    assert Enabled(Last(run), step) && t == Do(Last(run), step);
    hide Enabled, Do;
    forall k | 0 <= k < |more| - 1 ensures Next(more[k], more[k + 1]) {
      if k < |run| - 1 {
        assert Next(run[k], run[k + 1]);
      }
    }
  }

  const CONNECT := DoConnected(Pending(VAULT, BOUND))
  const CONNECTED := START.(pendingSync := Some(Pending(VAULT, BOUND)))

  /** The vault is open and bound, and nothing is under way. */
  const OPENED := START.(front := Some(Front(VAULT, 0)), sync := Some(BOUND), status := Idle, nextSession := 1)

  lemma Opens()
    ensures Leads(START, CONNECT, CONNECTED) && Leads(CONNECTED, DoOpened(VAULT, true), OPENED)
  {
  }

  const PUSHING := OPENED.(
    status := Syncing, inFlight := map[VAULT := QueuedSync(FIRST, None)], tasks := map[0 := Task(Push, VAULT, FIRST, true)],
    nextTask := 1)

  /** The remote had moved. */
  const DECRYPTING := OPENED.(
    sync := Some(BOUND.(token := 1)), status := Syncing, notices := START.notices.(merging := map[VAULT := 1]),
    tasks := map[1 := Task(Decrypt, VAULT, FIRST, true)], nextTask := 2)

  /** The user was editing: the conflict waits. */
  const WAITING := DECRYPTING.(
    status := Failed, notices := START.notices.(deferred := map[VAULT := 5]), tasks := map[])

  lemma Pushes()
    ensures Leads(OPENED, DoSync(VAULT, true, None, true), PUSHING)
    ensures Leads(PUSHING, DoAnswer(0, Refused(1), true, true), DECRYPTING)
  {
    assert PUSHING.tasks - {0} == map[] && PUSHING.inFlight - {VAULT} == map[];
  }

  lemma ComesToWait()
    ensures Leads(DECRYPTING, DoAnswer(1, Conflicting(5, true), true, true), WAITING)
    ensures Leads(WAITING, DoUnwind, WAITING.(status := Idle))
  {
    assert DECRYPTING.tasks - {1} == map[] && DECRYPTING.notices.merging - {VAULT} == map[];
  }

  lemma OpenedRun() returns (run: seq<State>)
    ensures IsRun(run) && Last(run) == OPENED
  {
    Opens();
    hide Leads, Next;
    run := GoOn([START], CONNECT, CONNECTED);
    run := GoOn(run, DoOpened(VAULT, true), OPENED);
  }

  /** A run to a vault that looks idle while a conflict waits there: the connect dialog was
      opened over it and closed again. */
  lemma WaitingLooksIdle() returns (run: seq<State>)
    ensures IsRun(run) && Waits(Last(run), VAULT) && StatusAt(Last(run), VAULT) == Some(Idle)
  {
    Pushes();
    ComesToWait();
    run := OpenedRun();
    hide Leads, IsRun;
    run := GoOn(run, DoSync(VAULT, true, None, true), PUSHING);
    run := GoOn(run, DoAnswer(0, Refused(1), true, true), DECRYPTING);
    run := GoOn(run, DoAnswer(1, Conflicting(5, true), true, true), WAITING);
    run := GoOn(run, DoUnwind, WAITING.(status := Idle));
  }

  // --------------------------------------------------------- one poll at a time

  predicate IsPull(s: State, id: nat) { id in s.tasks && s.tasks[id].kind == Pull }

  ghost predicate Pulling(s: State) { exists id :: IsPull(s, id) }

  /** A lock that waits for saves forgets the polls under way. */
  ghost predicate ForgetsPoll(s: State, step: Step) { step.DoLock? && step.waiting && Pulling(s) }

  /** A poll under way is known, and no vault has two. */
  ghost predicate PollsKnown(s: State) {
    && (forall id :: IsPull(s, id) ==> s.tasks[id].path in s.notices.polling)
    && (forall i, j :: IsPull(s, i) && IsPull(s, j) && s.tasks[i].path == s.tasks[j].path ==> i == j)
  }

  /** No poll begins and none is forgotten. */
  ghost predicate NoPoll(s: State, t: State) {
    && t.notices.polling == s.notices.polling
    && forall id :: IsPull(t, id) ==> IsPull(s, id) && t.tasks[id] == s.tasks[id]
  }

  lemma NoPollTwice(s: State, t: State, u: State)
    requires NoPoll(s, t) && NoPoll(t, u)
    ensures NoPoll(s, u)
  {
  }

  lemma KnownStill(s: State, t: State)
    requires PollsKnown(s) && NoPoll(s, t)
    ensures PollsKnown(t)
  {
  }

  lemma TaskNoPoll(s: State, kind: Kind, p: Path, x: SyncSession, interactive: bool)
    requires kind != Pull
    ensures NoPoll(s, NewTask(s, kind, p, x, interactive))
  {
  }

  lemma StatusNoPoll(s: State, p: Path, x: SyncSession, status: Status)
    ensures NoPoll(s, SetStatus(s, p, status)) && NoPoll(s, RouteStatus(s, p, x, status))
  {
    assert Cleared(s.notices, p, status).polling == s.notices.polling;
    StatusKeepsBooks(s, p, status);
    SetStatusNotices(s, p, status);
    hide Cleared, SetStatus, IsCurrent;
  }

  lemma BindingNoPoll(s: State, p: Path, x: SyncSession, b: Binding, change: Binding -> Binding)
    ensures NoPoll(s, RebindSync(s, p, x, b)) && NoPoll(s, UpdateBinding(s, p, x, change))
  {
    hide IsCurrent;
  }

  lemma RestoreNoPoll(s: State, hasConfig: bool)
    ensures NoPoll(s, TryRestore(s, hasConfig))
  {
    if s.front.Some? {
      var p := s.front.value.path;
      StatusNoPoll(s, p, FIRST, Restoring);
      hide SetStatus;
      TaskNoPoll(SetStatus(s, p, Restoring), Restore, p, SyncSession(s.front.value.session, GenerationOf(s, p)), false);
    }
  }

  lemma SyncNowNoPoll(s: State, p: Path, r: Request, hasConfig: bool)
    ensures NoPoll(s, SyncNow(s, p, r, hasConfig))
  {
    var t := NewTask(s, Push, p, r.session, r.interactive);
    StatusNoPoll(t.(inFlight := t.inFlight[p := QueuedSync(r.session, None)]), p, r.session, Syncing);
    RestoreNoPoll(s.(awaiting := s.awaiting[p := r]), hasConfig);
    hide SetStatus, TryRestore, IsCurrent, SlotAt;
  }

  lemma MergeNoPoll(s: State, p: Path, x: SyncSession, interactive: bool)
    ensures NoPoll(s, StartMerge(s, p, x, interactive))
  {
    hide IsCurrent, HasBinding;
  }

  lemma CommitNoPoll(s: State, p: Path, x: SyncSession, stale: bool)
    ensures NoPoll(s, CommitMerge(s, p, x, stale))
  {
    StatusNoPoll(s, p, x, Syncing);
    hide IsCurrent, HasBinding, RouteStatus;
    TaskNoPoll(RouteStatus(s, p, x, Syncing), Commit, p, x, false);
  }

  lemma UploadedNoPoll(s: State, p: Path, x: SyncSession, token: nat, etag: nat, revision: nat)
    ensures NoPoll(s, Uploaded(s, p, x, token, etag, revision))
  {
    var u := UpdateBinding(s, p, x, WithToken(token));
    BindingNoPoll(s, p, x, BOUND, WithToken(token));
    BindingNoPoll(u, p, x, BOUND, WithBaseline(etag, revision));
    StatusNoPoll(UpdateBinding(u, p, x, WithBaseline(etag, revision)), p, x, Synced);
    hide UpdateBinding, RouteStatus;
  }

  lemma ReboundNoPoll(s: State, p: Path, x: SyncSession, b: Binding, status: Status)
    ensures NoPoll(s, RouteStatus(RebindSync(s, p, x, b), p, x, status))
  {
    BindingNoPoll(s, p, x, b, WithToken(0));
    StatusNoPoll(RebindSync(s, p, x, b), p, x, status);
    hide RebindSync, RouteStatus;
  }

  lemma RestoreAnsweredNoPoll(s: State, t: Task, a: Answer, hasConfig: bool)
    ensures NoPoll(s, RestoreAnswered(s, t, a, hasConfig))
  {
    var p, x := t.path, t.session;
    hide RouteStatus, RebindSync, SyncNow, IsCurrent;
    match a
    case Bound(b) =>
      var u := RouteStatus(RebindSync(s, p, x, b), p, x, Idle);
      ReboundNoPoll(s, p, x, b, Idle);
      if p in u.awaiting {
        SyncNowNoPoll(u.(awaiting := u.awaiting - {p}), p, u.awaiting[p], hasConfig);
      }
    case GoneWrong(status) => StatusNoPoll(s, p, x, status);
    case _ => StatusNoPoll(s, p, x, Disconnected);
  }

  lemma QueuedNoPoll(s: State, p: Path, pending: Option<Request>, hasConfig: bool)
    ensures NoPoll(s, StartQueued(s, p, pending, hasConfig))
  {
    hide SyncNow;
    if pending.Some? {
      SyncNowNoPoll(s, p, pending.value, hasConfig);
    }
  }

  lemma OwnPushNoPoll(s: State, t: Task, pending: Option<Request>, a: Answer, hasConfig: bool)
    ensures NoPoll(s, OwnPushAnswered(s, t, pending, a, hasConfig))
  {
    var p, x := t.path, t.session;
    hide RouteStatus, UpdateBinding, Uploaded, StartMerge, StartQueued, IsCurrent;
    if !IsCurrent(s, p, x) {
      QueuedNoPoll(s, p, pending, hasConfig);
    } else {
      match a
      case Sent(token, etag, revision) =>
        UploadedNoPoll(s, p, x, token, etag, revision);
        QueuedNoPoll(Uploaded(s, p, x, token, etag, revision), p, pending, hasConfig);
      case Refused(token) =>
        BindingNoPoll(s, p, x, BOUND, WithToken(token));
        MergeNoPoll(UpdateBinding(s, p, x, WithToken(token)), p, x,
                    t.interactive || (pending.Some? && pending.value.session == x && pending.value.interactive));
      case GoneWrong(status) => StatusNoPoll(s, p, x, status);
      case _ =>
    }
  }

  lemma PullAppliedNoPoll(s: State, t: Task, a: Answer)
    ensures NoPoll(s, PullApplied(s, t, a))
  {
    var p, x := t.path, t.session;
    StatusNoPoll(s, p, x, Reconnect);
    hide RouteStatus, UpdateBinding, StartMerge, IsCurrent, HasBinding, SlotAt;
    match a
    case UpToDate(token) =>
      BindingNoPoll(s, p, x, BOUND, WithToken(token));
      StatusNoPoll(UpdateBinding(s, p, x, WithToken(token)), p, x, Synced);
    case RemoteAhead(token) =>
      BindingNoPoll(s, p, x, BOUND, WithToken(token));
      MergeNoPoll(UpdateBinding(s, p, x, WithToken(token)), p, x, false);
    case _ =>
  }

  lemma ConflictNoPoll(s: State, t: Task, etag: nat, editing: bool)
    ensures NoPoll(s, ConflictFound(s, t, etag, editing))
  {
    var p, x := t.path, t.session;
    hide RouteStatus, IsActive;
    StatusNoPoll(s.(notices := s.notices.(deferred := s.notices.deferred - {p})), p, x, Conflicted(x));
    StatusNoPoll(s.(notices := s.notices.(deferred := s.notices.deferred[p := etag])), p, x, Failed);
  }

  lemma ContinueNoPoll(s: State, t: Task, a: Answer)
    ensures NoPoll(s, ContinueMerge(s, t, a))
  {
    var p, x := t.path, t.session;
    hide RouteStatus, ConflictFound, CommitMerge;
    match a
    case Unreadable(None) => StatusNoPoll(s, p, x, Failed);
    case Unreadable(Some(cost)) => StatusNoPoll(s.(notices := s.notices.(costs := s.notices.costs[p := cost])), p, x, Failed);
    case Blocked => StatusNoPoll(WithoutCost(s, p), p, x, Failed);
    case Conflicting(etag, editing) => ConflictNoPoll(WithoutCost(s, p), t, etag, editing);
    case Merged(stale) => CommitNoPoll(WithoutCost(s, p), p, x, stale);
    case _ =>
  }

  lemma MergeAnsweredNoPoll(s: State, id: nat, t: Task, a: Answer)
    ensures NoPoll(s, DecryptAnswered(s, id, t, a)) && NoPoll(s, CommitAnswered(s, t, a)) && NoPoll(s, UploadAnswered(s, t, a))
  {
    DecryptNoPoll(s, id, t, a);
    CommitAnsweredNoPoll(s, t, a);
    UploadNoPoll(s, t, a);
  }

  lemma DecryptNoPoll(s: State, id: nat, t: Task, a: Answer)
    ensures NoPoll(s, DecryptAnswered(s, id, t, a))
  {
    hide ContinueMerge, IsCurrent, HasBinding;
    ContinueNoPoll(WithoutToken(s, t.path), t, a);
  }

  lemma CommitAnsweredNoPoll(s: State, t: Task, a: Answer)
    ensures NoPoll(s, CommitAnswered(s, t, a))
  {
    var p, x := t.path, t.session;
    TaskNoPoll(s, Upload, p, x, false);
    hide RouteStatus, UpdateBinding, IsCurrent;
    match a
    case FastForward(etag, revision) =>
      BindingNoPoll(s, p, x, BOUND, WithBaseline(etag, revision));
      StatusNoPoll(UpdateBinding(s, p, x, WithBaseline(etag, revision)), p, x, Synced);
    case GoneWrong(status) => StatusNoPoll(s, p, x, status);
    case _ =>
  }

  lemma UploadNoPoll(s: State, t: Task, a: Answer)
    ensures NoPoll(s, UploadAnswered(s, t, a))
  {
    var p, x := t.path, t.session;
    hide RouteStatus, UpdateBinding, Uploaded, StartMerge;
    match a
    case Sent(token, etag, revision) => UploadedNoPoll(s, p, x, token, etag, revision);
    case Refused(token) =>
      var u := UpdateBinding(s, p, x, WithToken(token));
      BindingNoPoll(s, p, x, BOUND, WithToken(token));
      StatusNoPoll(u, p, x, Syncing);
      MergeNoPoll(RouteStatus(u, p, x, Syncing), p, x, true);
    case GoneWrong(status) => StatusNoPoll(s, p, x, status);
    case _ =>
  }

  lemma ConnectNoPoll(s: State, t: Task, a: Answer, gate: bool, hasConfig: bool)
    ensures NoPoll(s, PublishAnswered(s, t, a, gate)) && NoPoll(s, ReconnectAnswered(s, t, a, gate, hasConfig))
  {
    var p, x := t.path, t.session;
    StatusNoPoll(s, p, x, Failed);
    StatusNoPoll(s, p, x, Reconnect);
    hide RouteStatus, RebindSync, SyncNow, IsCurrent;
    match a
    case Bound(b) =>
      ReboundNoPoll(s, p, x, b, Idle);
      SyncNowNoPoll(RouteStatus(RebindSync(s, p, x, b), p, x, Idle), p, Request(x, true, None), hasConfig);
    case _ =>
  }

  lemma OtherAnswerNoPoll(s: State, id: nat, t: Task, a: Answer, gate: bool, hasConfig: bool)
    requires t.kind != Pull
    ensures NoPoll(s, Dispatched(s, id, t, a, gate, hasConfig))
  {
    hide RestoreAnswered, OwnPushAnswered, DecryptAnswered, CommitAnswered, UploadAnswered, PublishAnswered, ReconnectAnswered;
    match t.kind
    case Restore => RestoreAnsweredNoPoll(s, t, a, hasConfig);
    case Push =>
      if t.path in s.inFlight {
        OwnPushNoPoll(s.(inFlight := s.inFlight - {t.path}), t, s.inFlight[t.path].pending, a, hasConfig);
      }
    case Publish => ConnectNoPoll(s, t, a, gate, hasConfig);
    case Rebind => ConnectNoPoll(s, t, a, gate, hasConfig);
    case _ => MergeAnsweredNoPoll(s, id, t, a);
  }

  /** With a poll that is answered goes its entry, and no other. */
  lemma AnswerKnown(s: State, id: nat, a: Answer, gate: bool, hasConfig: bool)
    requires PollsKnown(s) && id in s.tasks
    ensures PollsKnown(Answered(s, id, a, gate, hasConfig))
  {
    var t := s.tasks[id];
    var u := s.(tasks := s.tasks - {id});
    hide Dispatched, PullApplied;
    if t.kind == Pull {
      PullAppliedNoPoll(PullOver(u, t.path), t, a);
      PullKnown(s, id);
      KnownStill(PullOver(u, t.path), PullApplied(PullOver(u, t.path), t, a));
      PullDispatched(u, id, t, a, gate, hasConfig);
    } else {
      OtherAnswerNoPoll(u, id, t, a, gate, hasConfig);
      KnownStill(u, Dispatched(u, id, t, a, gate, hasConfig));
    }
  }

  lemma PullDispatched(s: State, id: nat, t: Task, a: Answer, gate: bool, hasConfig: bool)
    requires t.kind == Pull
    ensures Dispatched(s, id, t, a, gate, hasConfig) == PullApplied(PullOver(s, t.path), t, a)
  {
  }

  lemma PullKnown(s: State, id: nat)
    requires PollsKnown(s) && IsPull(s, id)
    ensures PollsKnown(PullOver(s.(tasks := s.tasks - {id}), s.tasks[id].path))
  {
  }

  lemma PollStarts(s: State, p: Path, x: SyncSession)
    requires PollsKnown(s) && p !in s.notices.polling && !IsPull(s, s.nextTask)
    ensures PollsKnown(StartPull(s, p, x))
  {
  }

  lemma PollKnown(s: State, p: Path, overlay: bool, throttled: bool, ahead: bool, hasConfig: bool)
    requires PollsKnown(s) && !IsPull(s, s.nextTask)
    ensures PollsKnown(Poll(s, p, overlay, throttled, ahead, hasConfig))
  {
    if SlotAt(s, p).Some? && p !in s.notices.polling {
      var x := SessionFor(s, p).value;
      SyncNowNoPoll(s, p, Request(x, false, None), hasConfig);
      PollStarts(s, p, x);
      hide PollsKnown, SyncNow, StartPull;
      KnownStill(s, SyncNow(s, p, Request(x, false, None), hasConfig));
    }
  }

  lemma OpenedNoPoll(s: State, p: Path, hasConfig: bool)
    ensures NoPoll(s, Opened(s, p, hasConfig))
  {
    RestoreNoPoll(InFront(s, p), hasConfig);
    hide TryRestore;
  }

  lemma StartNoPoll(s: State, kind: Kind, p: Path)
    requires kind != Pull && SessionFor(s, p).Some?
    ensures NoPoll(s, Start(s, kind, p))
  {
    var x := SessionFor(s, p).value;
    StatusNoPoll(s, p, x, Connecting);
    TaskNoPoll(s, kind, p, x, false);
    hide SetStatus;
    TaskNoPoll(SetStatus(s, p, Connecting), kind, p, x, false);
  }

  lemma ResolveNoPoll(s: State, blocked: bool, stale: bool)
    ensures NoPoll(s, Resolve(s, blocked, stale))
  {
    hide IsCurrent, RouteStatus, CommitMerge;
    if s.front.Some? && s.status.Conflicted? {
      StatusNoPoll(s, s.front.value.path, s.status.session, Failed);
      CommitNoPoll(s, s.front.value.path, s.status.session, stale);
    }
  }

  /** Of all steps only a poll, an answer and a waiting lock have to do with polls. */
  lemma QuietNoPoll(s: State, step: Step)
    requires Enabled(s, step) && !step.DoAnswer? && !step.DoPoll? && !(step.DoLock? && step.waiting)
    ensures NoPoll(s, Do(s, step))
  {
    if MovesOnly(step) {
      MoveKeepsBooks(s, step);
      hide Do;
    } else {
      hide SyncNow, Start, Resolve, TryRestore, Opened, SessionFor;
      match step
      case DoOpened(p, hasConfig) => OpenedNoPoll(s, p, hasConfig);
      case DoSync(p, interactive, bytes, hasConfig) =>
        SyncNowNoPoll(s, p, Request(SessionFor(s, p).value, interactive, bytes), hasConfig);
      case DoStart(kind, p) => StartNoPoll(s, kind, p);
      case DoResolve(blocked, stale) => ResolveNoPoll(s, blocked, stale);
      case DoRetryRestore(hasConfig) => RestoreNoPoll(s, hasConfig);
      case _ =>
    }
  }

  /** While polls are known, they stay known by every step but one: a lock that waits for
      saves forgets the polls under way. */
  lemma ForgottenIffWaitingLock(s: State, step: Step)
    requires Inv(s) && Enabled(s, step) && PollsKnown(s)
    ensures PollsKnown(Do(s, step)) <==> !ForgetsPoll(s, step)
  {
    assert TaskOk(s, s.nextTask);
    hide Inv;
    if step.DoLock? && step.waiting {
      LockForgets(s);
    } else if step.DoAnswer? {
      AnswerKnown(s, step.id, step.answer, step.gate, step.hasConfig);
    } else if step.DoPoll? {
      PollKnown(s, step.p, step.overlay, step.throttled, step.ahead, step.hasConfig);
    } else {
      QuietNoPoll(s, step);
      hide Do;
      KnownStill(s, Do(s, step));
    }
  }

  lemma LockForgets(s: State)
    ensures PollsKnown(LockAll(s, true)) <==> !Pulling(s)
  {
    assert forall id :: IsPull(LockAll(s, true), id) <==> IsPull(s, id);
  }

  ghost predicate PatientNext(s: State, t: State) {
    exists step :: Enabled(s, step) && t == Do(s, step) && !ForgetsPoll(s, step)
  }

  /** In every run without a waiting lock during a poll, one poll at a time is under way for
      a vault. */
  lemma {:induction false} OnePollAtATime(run: seq<State>, k: nat)
    requires IsRun(run) && k < |run| && forall i :: 0 <= i < k ==> PatientNext(run[i], run[i + 1])
    ensures PollsKnown(run[k])
    decreases k
  {
    StartKnown();
    hide Inv, Next, PollsKnown, PatientNext;
    if k > 0 {
      OnePollAtATime(run, k - 1);
      RunKeepsInv(run, k - 1);
      PatientKnown(run[k - 1], run[k]);
    }
  }

  lemma StartKnown()
    ensures PollsKnown(START)
  {
  }

  lemma PatientKnown(s: State, t: State)
    requires Inv(s) && PollsKnown(s) && PatientNext(s, t)
    ensures PollsKnown(t)
  {
    var step :| Enabled(s, step) && t == Do(s, step) && !ForgetsPoll(s, step);
    hide Inv, PollsKnown, Enabled, Do, ForgetsPoll;
    ForgottenIffWaitingLock(s, step);
  }

  // --------------------------------------------------- a run with two polls at a time

  const POLLING := OPENED.(
    tasks := map[0 := Task(Pull, VAULT, FIRST, false)], notices := START.notices.(polling := {VAULT}), nextTask := 1)

  const LOCKED := START.(tasks := POLLING.tasks, nextSession := 1, nextTask := 1)

  /** Opened again, and bound from what is kept on disk. */
  const RESTORING := LOCKED.(
    front := Some(Front(VAULT, 1)), status := Restoring, nextSession := 2,
    tasks := POLLING.tasks[1 := Task(Restore, VAULT, SECOND, false)], nextTask := 2)

  const RESTORED := RESTORING.(sync := Some(BOUND), status := Idle, tasks := POLLING.tasks)

  const POLLING_ANEW := RESTORED.(
    tasks := POLLING.tasks[2 := Task(Pull, VAULT, SECOND, false)], notices := POLLING.notices, nextTask := 3)

  /** The poll from before the lock makes room that is not its to make. */
  const MADE_ROOM := POLLING_ANEW.(tasks := map[2 := Task(Pull, VAULT, SECOND, false)], notices := START.notices)

  const POLLING_TWICE := MADE_ROOM.(
    tasks := MADE_ROOM.tasks[3 := Task(Pull, VAULT, SECOND, false)], notices := POLLING.notices, nextTask := 4)

  const POLL := DoPoll(VAULT, false, false, false, true)

  lemma PollsAndLocks()
    ensures Leads(OPENED, POLL, POLLING) && Leads(POLLING, DoLock(true), LOCKED)
  {
  }

  lemma ComesBack()
    ensures Leads(LOCKED, DoOpened(VAULT, true), RESTORING)
    ensures Leads(RESTORING, DoAnswer(1, Bound(BOUND), true, true), RESTORED)
  {
    assert RESTORING.tasks - {1} == POLLING.tasks;
  }

  lemma PollsAnew()
    ensures Leads(RESTORED, POLL, POLLING_ANEW)
    ensures Leads(POLLING_ANEW, DoAnswer(0, Nothing, true, true), MADE_ROOM)
    ensures Leads(MADE_ROOM, POLL, POLLING_TWICE)
  {
    assert POLLING_ANEW.tasks - {0} == MADE_ROOM.tasks && POLLING_ANEW.notices.polling - {VAULT} == {};
  }

  /** A run to two polls of one vault, both of its present session: the lock forgot the first,
      and its answer then unlocked the second. */
  lemma TwoPollsAtATime() returns (run: seq<State>, i: nat, j: nat)
    ensures IsRun(run) && i != j && PollsNow(Last(run), i, VAULT) && PollsNow(Last(run), j, VAULT)
  {
    PollsAndLocks();
    ComesBack();
    PollsAnew();
    run := OpenedRun();
    hide Leads, IsRun;
    run := GoOn(run, POLL, POLLING);
    run := GoOn(run, DoLock(true), LOCKED);
    run := GoOn(run, DoOpened(VAULT, true), RESTORING);
    run := GoOn(run, DoAnswer(1, Bound(BOUND), true, true), RESTORED);
    run := GoOn(run, POLL, POLLING_ANEW);
    run := GoOn(run, DoAnswer(0, Nothing, true, true), MADE_ROOM);
    run := GoOn(run, POLL, POLLING_TWICE);
    i, j := 2, 3;
    PollingTwice();
  }

  predicate PollsNow(s: State, id: nat, p: Path) {
    IsPull(s, id) && s.tasks[id].path == p && IsCurrent(s, p, s.tasks[id].session)
  }

  lemma PollingTwice()
    ensures PollsNow(POLLING_TWICE, 2, VAULT) && PollsNow(POLLING_TWICE, 3, VAULT)
  {
  }
}
