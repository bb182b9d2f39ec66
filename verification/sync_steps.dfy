/**
 What the steps of the user and of the timer do to a vault's sync: what is shown,
 what is started, queued or held back, and where bindings are when vaults are
 opened, switched, locked and disconnected.
 */
module SyncSteps {
  import opened Wrappers
  import opened SyncRouting
  import opened SyncRuns
  import opened SyncAnswers

  // ------------------------------------------------------------- asking for a sync

  /** What a step changes at a vault: the status shown, the work begun, the push under way with
      what is queued behind it, and the request held back for a restore. */
  datatype Change = Change(status: Option<Status>, task: Option<Task>, flight: Option<QueuedSync>, held: Option<Request>)

  const NO_CHANGE := Change(None, None, None, None)

  /** One push a vault. Behind one under way the request waits, joined with what waits there of the
      same session: the newest bytes, and interactive if either is. An unbound vault in front holds
      it back and looks for its configuration; an unbound vault elsewhere drops it. */
  function Pushed(s: State, p: Path, r: Request, hasConfig: bool): Change
    requires SlotAt(s, p).Some?
  {
    if p in s.inFlight then
      var q := s.inFlight[p];
      var joins := q.pending.Some? && q.pending.value.session == r.session;
      var interactive := r.interactive || (joins && q.pending.value.interactive);
      Change(None, None, Some(QueuedSync(q.owner, Some(Request(r.session, interactive, r.bytes)))), None)
    else if SlotAt(s, p).value.sync.Some? then
      Change(Some(Syncing), Some(Task(Push, p, r.session, r.interactive)), Some(QueuedSync(r.session, None)), None)
    else if !IsActive(s, p) then NO_CHANGE
    else if hasConfig then Change(Some(Restoring), Some(Task(Restore, p, r.session, false)), None, Some(r))
    else Change(None, None, None, Some(r))
  }

  /** What a status makes out of date: all but a failure ends the wait for the user, and a new attempt
      or a good end the cost that was asked about and the decryption under way. */
  function UnderStatus(n: Notices, p: Path, status: Status): Notices {
    var settled := status == Synced || status == Idle || status == Disconnected || status == Syncing;
    Notices(if status == Failed then n.deferred else n.deferred - {p},
            if settled then n.costs - {p} else n.costs,
            if settled then n.merging - {p} else n.merging, n.polling)
  }

  /** `u` is `s` with that change at `p` and no other. */
  ghost predicate Changed(s: State, u: State, p: Path, c: Change) {
    && SlotAt(s, p).Some?
    && (var slot := SlotAt(s, p).value;
        SlotAt(u, p) == Some(Slot(slot.session, slot.sync, if c.status.Some? then c.status.value else slot.status)))
    && u.tasks == (if c.task.Some? then s.tasks[s.nextTask := c.task.value] else s.tasks)
    && u.nextTask == (if c.task.Some? then s.nextTask + 1 else s.nextTask)
    && u.inFlight == (if c.flight.Some? then s.inFlight[p := c.flight.value] else s.inFlight)
    && u.awaiting == (if c.held.Some? then s.awaiting[p := c.held.value] else s.awaiting)
    && u.notices == (if c.status.Some? then UnderStatus(s.notices, p, c.status.value) else s.notices)
    && ElsewhereSame(s, u, p)
  }

  /** No other vault's slot is different. */
  ghost predicate ElsewhereSame(s: State, u: State, p: Path) {
    && u.front == s.front && u.generations == s.generations && u.pendingSync == s.pendingSync && u.nextSession == s.nextSession
    && forall q :: q != p ==> SlotAt(u, q) == SlotAt(s, q)
  }

  lemma StatusChanges(s: State, p: Path, status: Status)
    requires SlotAt(s, p).Some?
    ensures Changed(s, SetStatus(s, p, status), p, Change(Some(status), None, None, None))
  {
    var u := SetStatus(s, p, status);
    StatusKeepsBooks(s, p, status);
    SetStatusSettled(s, p, status);
    SetStatusNotices(s, p, status);
    forall q ensures SlotAt(u, q) == if q == p then Some(SlotAt(s, p).value.(status := status)) else SlotAt(s, q) {
      SetStatusSlot(s, p, status, q);
    }
    assert UnderStatus(s.notices, p, status) == Cleared(s.notices, p, status);
    hide SetStatus, SlotAt, Cleared;
  }

  lemma TaskChanges(s: State, kind: Kind, p: Path, x: SyncSession, interactive: bool)
    requires SlotAt(s, p).Some?
    ensures Changed(s, NewTask(s, kind, p, x, interactive), p, Change(None, Some(Task(kind, p, x, interactive)), None, None))
  {
  }

  lemma ThenTask(s: State, u: State, p: Path, c: Change, kind: Kind, x: SyncSession)
    requires Changed(s, u, p, c) && c.task.None?
    ensures Changed(s, NewTask(u, kind, p, x, false), p, c.(task := Some(Task(kind, p, x, false))))
  {
    var v := NewTask(u, kind, p, x, false);
    assert forall q :: SlotAt(v, q) == SlotAt(u, q);
    hide SlotAt;
  }

  /** A request of the session there is. */
  lemma RequestChanges(s: State, p: Path, r: Request, hasConfig: bool)
    requires IsCurrent(s, p, r.session)
    ensures Changed(s, SyncNow(s, p, r, hasConfig), p, Pushed(s, p, r, hasConfig))
  {
    if p in s.inFlight {
      QueuedChanges(s, p, r, hasConfig);
    } else if SlotAt(s, p).value.sync.Some? {
      PushChanges(s, p, r, hasConfig);
    } else if IsActive(s, p) {
      HeldChanges(s, p, r, hasConfig);
      hide TryRestore, Changed, Pushed;
    } else {
      Unchanged(s, p);
    }
  }

  lemma Unchanged(s: State, p: Path)
    requires SlotAt(s, p).Some?
    ensures Changed(s, s, p, NO_CHANGE)
  {
  }

  lemma QueuedChanges(s: State, p: Path, r: Request, hasConfig: bool)
    requires IsCurrent(s, p, r.session) && p in s.inFlight
    ensures Changed(s, SyncNow(s, p, r, hasConfig), p, Pushed(s, p, r, hasConfig))
  {
    var u := SyncNow(s, p, r, hasConfig);
    assert u == s.(inFlight := s.inFlight[p := Queue(s.inFlight[p], r)]);
    assert forall q :: SlotAt(u, q) == SlotAt(s, q);
    hide SlotAt, SyncNow;
  }

  lemma PushChanges(s: State, p: Path, r: Request, hasConfig: bool)
    requires IsCurrent(s, p, r.session) && p !in s.inFlight && SlotAt(s, p).value.sync.Some?
    ensures Changed(s, SyncNow(s, p, r, hasConfig), p, Pushed(s, p, r, hasConfig))
  {
    var v := s.(tasks := s.tasks[s.nextTask := Task(Push, p, r.session, r.interactive)], nextTask := s.nextTask + 1,
                inFlight := s.inFlight[p := QueuedSync(r.session, None)]);
    assert SyncNow(s, p, r, hasConfig) == SetStatus(v, p, Syncing) by { hide SetStatus; }
    assert SlotAt(v, p) == SlotAt(s, p);
    hide SetStatus, SlotAt, SyncNow, Changed;
    StatusChanges(v, p, Syncing);
    StartedPush(s, v, SetStatus(v, p, Syncing), p, r);
  }

  lemma StartedPush(s: State, v: State, u: State, p: Path, r: Request)
    requires SlotAt(s, p).Some?
    requires v == s.(tasks := s.tasks[s.nextTask := Task(Push, p, r.session, r.interactive)], nextTask := s.nextTask + 1,
                     inFlight := s.inFlight[p := QueuedSync(r.session, None)])
    requires Changed(v, u, p, Change(Some(Syncing), None, None, None))
    ensures Changed(s, u, p, Change(Some(Syncing), Some(Task(Push, p, r.session, r.interactive)), Some(QueuedSync(r.session, None)), None))
  {
    assert forall q :: SlotAt(v, q) == SlotAt(s, q);
    hide SlotAt, UnderStatus;
  }

  lemma HeldChanges(s: State, p: Path, r: Request, hasConfig: bool)
    requires IsCurrent(s, p, r.session) && IsActive(s, p) && SlotAt(s, p).value.sync.None? && p !in s.inFlight
    ensures Changed(s, TryRestore(s.(awaiting := s.awaiting[p := r]), hasConfig), p, Pushed(s, p, r, hasConfig))
  {
    var t := s.(awaiting := s.awaiting[p := r]);
    assert forall q :: SlotAt(t, q) == SlotAt(s, q);
    if hasConfig {
      StatusChanges(t, p, Restoring);
      ThenTask(t, SetStatus(t, p, Restoring), p, Change(Some(Restoring), None, None, None), Restore, r.session);
      hide SetStatus, SlotAt;
    }
  }

  /** What becomes of a sync somebody asks for. */
  lemma SyncShows(s: State, p: Path, interactive: bool, bytes: Option<Bytes>, hasConfig: bool)
    requires Enabled(s, DoSync(p, interactive, bytes, hasConfig))
    ensures Changed(s, Do(s, DoSync(p, interactive, bytes, hasConfig)), p,
                    Pushed(s, p, Request(SessionFor(s, p).value, interactive, bytes), hasConfig))
  {
    RequestChanges(s, p, Request(SessionFor(s, p).value, interactive, bytes), hasConfig);
    hide SyncNow, Changed, Pushed;
  }

  // ------------------------------------------------------------------- the timer

  /** The timer leaves a vault alone whose sync is busy or waits on the screen. */
  predicate Unbothered(s: State, p: Path, overlay: bool)
    requires SlotAt(s, p).Some?
  {
    var status := SlotAt(s, p).value.status;
    && status != Syncing && status != Connecting && status != Restoring && !status.Conflicted?
    && !overlay && p !in s.notices.polling && p !in s.notices.merging
  }

  /** It pushes anew what has failed, unless it has to wait or the user is to decide, and what a bound
      vault never sent; otherwise it looks whether the remote of a bound vault has moved. */
  lemma TimerShows(s: State, p: Path, overlay: bool, throttled: bool, ahead: bool, hasConfig: bool)
    ensures
      var u := Do(s, DoPoll(p, overlay, throttled, ahead, hasConfig));
      if SlotAt(s, p).None? || !Unbothered(s, p, overlay) then u == s
      else
        var slot, x := SlotAt(s, p).value, SessionFor(s, p).value;
        var again := slot.status == Failed && p !in s.notices.deferred;
        if again && throttled then u == s
        else if again || (slot.sync.Some? && ahead) then Changed(s, u, p, Pushed(s, p, Request(x, false, None), hasConfig))
        else if slot.sync.None? then u == s
        else
          && u.notices == s.notices.(polling := s.notices.polling + {p})
          && Changed(s, u.(notices := s.notices), p, Change(None, Some(Task(Pull, p, x, false)), None, None))
  {
    if SlotAt(s, p).Some? && Unbothered(s, p, overlay) {
      var slot, x := SlotAt(s, p).value, SessionFor(s, p).value;
      RequestChanges(s, p, Request(x, false, None), hasConfig);
      LookChanges(s, p, x);
      hide SyncNow, StartPull, Changed, Pushed, SlotAt;
    }
  }

  lemma LookChanges(s: State, p: Path, x: SyncSession)
    requires SlotAt(s, p).Some?
    ensures var u := StartPull(s, p, x);
            && u.notices == s.notices.(polling := s.notices.polling + {p})
            && Changed(s, u.(notices := s.notices), p, Change(None, Some(Task(Pull, p, x, false)), None, None))
  {
    TaskChanges(s, Pull, p, x, false);
    assert StartPull(s, p, x).(notices := s.notices) == NewTask(s, Pull, p, x, false);
    hide Changed, SlotAt;
  }

  // -------------------------------------------------------------- the user's work

  /** Publishing to the cloud drive starts quietly; signing in again shows that it connects. */
  lemma StartShows(s: State, kind: Kind, p: Path)
    requires Enabled(s, DoStart(kind, p))
    ensures Changed(s, Do(s, DoStart(kind, p)), p,
                    Change(if kind == Rebind then Some(Connecting) else None, Some(Task(kind, p, SessionFor(s, p).value, false)), None, None))
  {
    var x := SessionFor(s, p).value;
    StatusChanges(s, p, Connecting);
    TaskChanges(s, kind, p, x, false);
    ThenTask(s, SetStatus(s, p, Connecting), p, Change(Some(Connecting), None, None, None), kind, x);
    SetStatusSlot(s, p, Connecting, p);
    assert SessionFor(SetStatus(s, p, Connecting), p) == SessionFor(s, p);
    hide SetStatus, SlotAt, Changed;
  }

  /** The conflict that is answered: the one on the screen, if its session is the one there is. */
  ghost predicate Answerable(s: State) {
    s.front.Some? && s.status.Conflicted? && IsCurrent(s, s.front.value.path, s.status.session)
  }

  /** An answered conflict is committed and uploaded for the session it was shown for, if that is
      still bound; an answer that cannot be merged fails, and a stale one starts nothing. */
  lemma ResolveShows(s: State, blocked: bool, stale: bool)
    ensures
      var u := Do(s, DoResolve(blocked, stale));
      if !Answerable(s) then u == s
      else
        var p, x := s.front.value.path, s.status.session;
        if blocked then Changed(s, u, p, Change(Some(Failed), None, None, None))
        else if s.sync.None? then u == s
        else Changed(s, u, p, Change(Some(Syncing), if stale then None else Some(Task(Commit, p, x, false)), None, None))
  {
    if Answerable(s) {
      var p, x := s.front.value.path, s.status.session;
      StatusChanges(s, p, Failed);
      StatusChanges(s, p, Syncing);
      ThenTask(s, SetStatus(s, p, Syncing), p, Change(Some(Syncing), None, None, None), Commit, x);
      hide SetStatus, Changed;
    }
  }

  lemma RetryShows(s: State, hasConfig: bool)
    ensures
      var u := Do(s, DoRetryRestore(hasConfig));
      if s.front.None? || s.sync.Some? || !hasConfig then u == s
      else
        var p := s.front.value.path;
        Changed(s, u, p, Change(Some(Restoring), Some(Task(Restore, p, SessionFor(s, p).value, false)), None, None))
  {
    if s.front.Some? {
      var p := s.front.value.path;
      StatusChanges(s, p, Restoring);
      ThenTask(s, SetStatus(s, p, Restoring), p, Change(Some(Restoring), None, None, None), Restore, SessionFor(s, p).value);
      hide SetStatus, Changed;
    }
  }

  /** The connect dialog shows its progress in front, and closing it leaves what the binding says;
      nothing else is touched. Allowing a cost forgets the question alone. */
  lemma DialogShows(s: State)
    ensures Do(s, DoShowConnecting) == s.(status := Connecting)
    ensures Do(s, DoUnwind) ==
      s.(status := if s.status == Connecting || s.status == Failed then (if s.sync.Some? then Idle else Disconnected) else s.status)
    ensures Do(s, DoReconnectFails) == s.(status := if s.front.Some? then Failed else s.status)
    ensures Do(s, DoTakeCost) ==
      s.(notices := s.notices.(costs := if s.front.Some? then s.notices.costs - {s.front.value.path} else s.notices.costs))
  {
  }

  // ----------------------------------------------------------- how vaults move

  /** Every vault keeps its opening, binding, status, relationship and requests. */
  ghost predicate AllKept(s: State, u: State) {
    && (forall q :: SlotAt(u, q) == SlotAt(s, q)) && u.generations == s.generations
    && SameBooks(s, u) && u.notices == s.notices
  }

  lemma MovesKeep(s: State, step: Step)
    requires FrontOk(s) && Enabled(s, step) && MovesOnly(step)
    ensures AllKept(s, Do(s, step))
  {
    forall q ensures SlotAt(Do(s, step), q) == SlotAt(s, q) && Do(s, step).generations == s.generations {
      hide FrontOk, Do, SlotAt;
      MoveSlot(s, step, q);
    }
    hide Do, SlotAt, SameBooks;
    MoveKeepsBooks(s, step);
  }

  /** Asked for the vault at `p`, that one is in front if it is open, and otherwise none is. */
  ghost predicate FrontIs(s: State, u: State, p: Path) {
    if SlotAt(s, p).Some? then u.front == Some(Front(p, SlotAt(s, p).value.session)) else u.front.None?
  }

  /** Where a binding that waits for its unlock goes: a question for another path drops it. */
  function StillPending(pending: Option<Pending>, p: Path, open: bool): Option<Pending> {
    if open || pending.None? || pending.value.path == p then pending else None
  }

  lemma SwitchShows(s: State, p: Path)
    requires FrontOk(s)
    ensures var u := Do(s, DoSwitch(p));
            && u.pendingSync == s.pendingSync && (if SlotAt(s, p).Some? then FrontIs(s, u, p) else u == s)
  {
  }

  lemma AskShows(s: State, p: Path)
    requires FrontOk(s)
    ensures var u := RequestPassword(s, p);
            FrontIs(s, u, p) && u.pendingSync == StillPending(s.pendingSync, p, SlotAt(s, p).Some?)
  {
    SwitchShows(s, p);
  }

  /** Which vault is in front after the user has asked for one, and what is still pending. */
  lemma MovesShow(s: State, p: Path, b: Binding)
    requires FrontOk(s) && b.owner == p
    ensures var u := Do(s, DoRequestPassword(p));
            FrontIs(s, u, p) && u.pendingSync == StillPending(s.pendingSync, p, SlotAt(s, p).Some?)
    ensures var u := Do(s, DoConnected(Pending(p, b))); FrontIs(s, u, p) && u.pendingSync == Some(Pending(p, b))
  {
    var t := s.(pendingSync := Some(Pending(p, b)));
    assert FrontOk(t) && SlotAt(t, p) == SlotAt(s, p);
    hide RequestPassword, FrontOk, SlotAt;
    AskShows(s, p);
    AskShows(t, p);
  }

  lemma EscapeShows(s: State, p: Path)
    requires Enabled(s, DoRehydrate(p))
    ensures var u := Do(s, DoRehydrate(p)); FrontIs(s, u, p) && u.pendingSync.None?
  {
  }

  /** A vault that is opened takes the binding that waited for it, and otherwise looks for its
      configuration; the others keep theirs. */
  lemma OpenedShows(s: State, p: Path, hasConfig: bool)
    requires FrontOk(s) && Enabled(s, DoOpened(p, hasConfig))
    ensures
      var u := Do(s, DoOpened(p, hasConfig));
      var adopts := s.pendingSync.Some? && s.pendingSync.value.path == p;
      && u.front == Some(Front(p, s.nextSession)) && u.nextSession == s.nextSession + 1 && u.generations == s.generations
      && u.parked == s.parked && u.awaiting == s.awaiting && u.inFlight == s.inFlight
      && u.pendingSync == (if adopts then None else s.pendingSync)
      && u.sync == (if adopts then Some(s.pendingSync.value.binding) else None)
      && u.status == (if adopts then Idle else if hasConfig then Restoring else s.status)
      && u.tasks == (if adopts || !hasConfig then s.tasks
                     else s.tasks[s.nextTask := Task(Restore, p, SyncSession(s.nextSession, GenerationOf(s, p)), false)])
  {
    var t := s.(front := Some(Front(p, s.nextSession)), nextSession := s.nextSession + 1);
    RestoringShows(t, p);
    hide SetStatus;
  }

  lemma RestoringShows(t: State, p: Path)
    requires IsActive(t, p)
    ensures SetStatus(t, p, Restoring) == t.(notices := SetStatus(t, p, Restoring).notices, status := Restoring)
  {
    hide Cleared;
  }

  /** Disconnecting ends the relationship of the vault in front, and what was to be decided in it. */
  lemma DisconnectShows(s: State)
    ensures
      var u := Do(s, DoDisconnect);
      && u.sync.None? && u.status == Disconnected && u.front == s.front && u.parked == s.parked
      && u.tasks == s.tasks && u.inFlight == s.inFlight && u.awaiting == s.awaiting && u.pendingSync == s.pendingSync
      && (if s.front.None? then u.generations == s.generations && u.notices == s.notices
          else
            var p := s.front.value.path;
            && u.generations == s.generations[p := GenerationOf(s, p) + 1]
            && u.notices == Notices(s.notices.deferred - {p}, s.notices.costs - {p}, s.notices.merging - {p}, s.notices.polling))
  {
    assert Do(s, DoDisconnect) == EndRelationship(s);
    hide Do, Enabled;
  }

  /** Locking leaves no vault, no binding and no request; one that waits for saves forgets pushes
      and polls as well. Relationships keep their numbers, so that late answers find none of them. */
  lemma LockShows(s: State, waiting: bool)
    ensures
      var u := Do(s, DoLock(waiting));
      && (forall q :: SlotAt(u, q).None?) && u.sync.None? && u.status == Disconnected
      && u.pendingSync.None? && u.awaiting == map[] && u.tasks == s.tasks
      && u.generations == s.generations && u.nextSession == s.nextSession
      && u.inFlight == (if waiting then map[] else s.inFlight)
      && u.notices == Notices(map[], s.notices.costs, s.notices.merging, if waiting then {} else s.notices.polling)
  {
  }
}
