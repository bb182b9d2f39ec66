/**
 What an answer of sync work leaves behind when it comes in time: for each kind of
 work and each answer, the binding and the status of the vault it was asked for,
 and the work that follows.
 */
module SyncAnswers {
  import opened Wrappers
  import opened SyncRouting
  import opened SyncRuns

  /** The answer counts: its session is current, and where the work has a place to give up or a
      token to hand in, that is still its own. */
  ghost predicate InTime(s: State, id: nat, gate: bool) {
    && id in s.tasks
    && var t := s.tasks[id];
       && IsCurrent(s, t.path, t.session)
       && (t.kind in {Push, Pull, Decrypt, Commit, Upload} ==> HasBinding(s, t.path))
       && (t.kind == Push ==> t.path in s.inFlight && s.inFlight[t.path].owner == t.session)
       && (t.kind == Decrypt ==> t.path in s.notices.merging && s.notices.merging[t.path] == id)
       && (t.kind == Publish || t.kind == Rebind ==> gate)
  }

  /** The binding an answer leaves: new ones as they came, an upload's token, revision and
      what was sent, a merge's without a token, a look's token alone. */
  function BindingAfter(a: Answer, b: Option<Binding>): Option<Binding> {
    match a
    case Bound(binding) => Some(binding)
    case Sent(token, etag, revision) => if b.None? then None else Some(Binding(b.value.owner, token, etag, Some(revision)))
    case FastForward(etag, revision) =>
      if b.None? then None else Some(Binding(b.value.owner, b.value.token, etag, Some(revision)))
    case Refused(token) => if b.None? then None else Some(Binding(b.value.owner, token, b.value.etag, b.value.uploaded))
    case UpToDate(token) => if b.None? then None else Some(Binding(b.value.owner, token, b.value.etag, b.value.uploaded))
    case RemoteAhead(token) => if b.None? then None else Some(Binding(b.value.owner, token, b.value.etag, b.value.uploaded))
    case _ => b
  }

  /** The request that is due right after the answer: one that was queued behind the push, one
      that was held back until the binding was restored, and always one after signing in again. */
  ghost function Due(s: State, t: Task, a: Answer): Option<Request> {
    match t.kind
    case Push => if a.Sent? && t.path in s.inFlight then s.inFlight[t.path].pending else None
    case Restore => if a.Bound? && t.path in s.awaiting then Some(s.awaiting[t.path]) else None
    case Rebind => if a.Bound? then Some(Request(t.session, true, None)) else None
    case _ => None
  }

  /** It begins a push, if it is of the session there is and no other push is under way. */
  ghost predicate PushFollows(s: State, t: Task, a: Answer) {
    && Due(s, t, a).Some? && IsCurrent(s, t.path, Due(s, t, a).value.session)
    && (t.kind == Push || t.path !in s.inFlight)
  }

  /** The status an answer leaves. */
  ghost function StatusLeft(s: State, t: Task, a: Answer, was: Status): Status {
    if PushFollows(s, t, a) then Syncing
    else
      match a
      case NoConfiguration => Disconnected
      case Bound(_) => Idle
      case Nothing => was
      case GoneWrong(status) =>
        if t.kind == Publish then Failed
        else if t.kind == Rebind then Reconnect
        else if t.kind == Pull && status != Reconnect then was
        else status
      case Sent(_, _, _) => Synced
      case Refused(_) => if t.kind == Upload then Syncing else was
      case UpToDate(_) => if was in {Idle, Synced} && t.path !in s.notices.deferred then Synced else was
      case RemoteAhead(_) => was
      case Unreadable(_) => Failed
      case Blocked => Failed
      case Conflicting(_, editing) => if IsActive(s, t.path) && t.interactive && !editing then Conflicted(t.session) else Failed
      case Merged(_) => Syncing
      case FastForward(_, _) => Synced
      case Written => was
  }

  lemma RoutedSlot(s: State, p: Path, x: SyncSession, status: Status)
    requires IsCurrent(s, p, x)
    ensures var u := RouteStatus(s, p, x, status);
            && SlotAt(u, p) == Some(SlotAt(s, p).value.(status := status)) && IsCurrent(u, p, x)
            && IsActive(u, p) == IsActive(s, p)
            && u.notices == Cleared(s.notices, p, status)
            && u.tasks == s.tasks && u.nextTask == s.nextTask && u.inFlight == s.inFlight && u.awaiting == s.awaiting
  {
    SetStatusSlot(s, p, status, p);
    SetStatusNotices(s, p, status);
    StatusKeepsBooks(s, p, status);
    SetStatusSettled(s, p, status);
    hide SetStatus, Cleared;
  }

  lemma BoundSlot(s: State, p: Path, x: SyncSession, b: Binding)
    requires IsCurrent(s, p, x)
    ensures var u := RebindSync(s, p, x, b);
            && SlotAt(u, p) == Some(SlotAt(s, p).value.(sync := Some(b))) && IsCurrent(u, p, x)
            && u.notices == s.notices && u.tasks == s.tasks && u.nextTask == s.nextTask
            && u.inFlight == s.inFlight && u.awaiting == s.awaiting
  {
    PutBindingSlot(s, p, b, p);
  }

  lemma ChangedSlot(s: State, p: Path, x: SyncSession, change: Binding -> Binding)
    requires IsCurrent(s, p, x)
    ensures var u := UpdateBinding(s, p, x, change);
            var b := SlotAt(s, p).value.sync;
            && SlotAt(u, p) == Some(SlotAt(s, p).value.(sync := if b.None? then None else Some(change(b.value))))
            && IsCurrent(u, p, x) && IsActive(u, p) == IsActive(s, p)
            && u.notices == s.notices && u.tasks == s.tasks && u.nextTask == s.nextTask
            && u.inFlight == s.inFlight && u.awaiting == s.awaiting
  {
    if HasBinding(s, p) {
      PutBindingSlot(s, p, change(SlotAt(s, p).value.sync.value), p);
    }
  }

  /** The work that follows an answer, if one does: the push that is due, the decryption of a
      remote that has moved, and the next part of a merge. */
  ghost function Follow(s: State, t: Task, a: Answer, was: Status): Option<Task> {
    if PushFollows(s, t, a) then
      Some(Task(Push, t.path, Due(s, t, a).value.session, Due(s, t, a).value.interactive))
    else
      match a
      case Refused(_) => Some(Task(Decrypt, t.path, t.session, t.kind == Upload || t.interactive || AskedMeanwhile(s, t)))
      case RemoteAhead(_) =>
        if was in {Idle, Synced} || t.path in s.notices.deferred then Some(Task(Decrypt, t.path, t.session, false)) else None
      case Merged(stale) => if stale then None else Some(Task(Commit, t.path, t.session, false))
      case Written => Some(Task(Upload, t.path, t.session, false))
      case _ => None
  }

  /** The user has asked for the same sync while the push was under way. */
  ghost predicate AskedMeanwhile(s: State, t: Task) {
    && t.path in s.inFlight && s.inFlight[t.path].pending.Some?
    && s.inFlight[t.path].pending.value.session == t.session && s.inFlight[t.path].pending.value.interactive
  }

  /** `u` is what the answer of `t` leaves; `s` is the state with that work taken off. */
  ghost predicate Leaves(s: State, t: Task, a: Answer, u: State)
    requires SlotAt(s, t.path).Some?
  {
    var slot := SlotAt(s, t.path).value;
    var follow := Follow(s, t, a, slot.status);
    && SlotAt(u, t.path) == Some(Slot(slot.session, BindingAfter(a, slot.sync), StatusLeft(s, t, a, slot.status)))
    && u.tasks == (if follow.Some? then s.tasks[s.nextTask := follow.value] else s.tasks)
    && (PushFollows(s, t, a) ==> t.path in u.inFlight && u.inFlight[t.path] == QueuedSync(Due(s, t, a).value.session, None))
    && (follow.Some? && follow.value.kind == Decrypt ==> Look(u.notices.merging, t.path) == Some(s.nextTask))
  }

  // ----------------------------------------------------------- pushes that follow

  lemma PushBegins(s: State, p: Path, r: Request, hasConfig: bool)
    requires IsCurrent(s, p, r.session) && p !in s.inFlight && HasBinding(s, p)
    ensures var u := SyncNow(s, p, r, hasConfig);
            && SlotAt(u, p) == Some(SlotAt(s, p).value.(status := Syncing))
            && u.tasks == s.tasks[s.nextTask := Task(Push, p, r.session, r.interactive)]
            && u.inFlight == s.inFlight[p := QueuedSync(r.session, None)]
  {
    var t := NewTask(s, Push, p, r.session, r.interactive);
    var v := t.(inFlight := t.inFlight[p := QueuedSync(r.session, None)]);
    SetStatusSlot(v, p, Syncing, p);
    StatusKeepsBooks(v, p, Syncing);
    assert SlotAt(v, p) == SlotAt(s, p);
    hide SetStatus;
  }

  lemma NoPushBegins(s: State, p: Path, r: Request, hasConfig: bool)
    requires !IsCurrent(s, p, r.session) || p in s.inFlight
    ensures var u := SyncNow(s, p, r, hasConfig); SlotAt(u, p) == SlotAt(s, p) && u.tasks == s.tasks
  {
  }

  // ------------------------------------------------------------- kind by kind

  /** A new binding, and nothing is wrong any more. */
  lemma BoundAndIdle(s: State, p: Path, x: SyncSession, b: Binding)
    requires IsCurrent(s, p, x)
    ensures var u := RouteStatus(RebindSync(s, p, x, b), p, x, Idle);
            && SlotAt(u, p) == Some(SlotAt(s, p).value.(sync := Some(b), status := Idle)) && IsCurrent(u, p, x)
            && u.tasks == s.tasks && u.nextTask == s.nextTask && u.inFlight == s.inFlight && u.awaiting == s.awaiting
  {
    BoundSlot(s, p, x, b);
    RoutedSlot(RebindSync(s, p, x, b), p, x, Idle);
    hide RebindSync, RouteStatus;
  }

  lemma SameSession(s: State, u: State, p: Path)
    requires SessionFor(s, p).Some? && IsCurrent(u, p, SessionFor(s, p).value)
    ensures forall x :: IsCurrent(u, p, x) <==> IsCurrent(s, p, x)
  {
  }

  /** After binding, the request that is due, with whatever else is still held back. */
  lemma BoundThenSync(s: State, p: Path, x: SyncSession, b: Binding, r: Request, awaiting: map<Path, Request>, hasConfig: bool)
    requires IsCurrent(s, p, x)
    ensures
      var w := RouteStatus(RebindSync(s, p, x, b), p, x, Idle);
      var u := SyncNow(w.(awaiting := awaiting), p, r, hasConfig);
      if IsCurrent(s, p, r.session) && p !in s.inFlight then
        && SlotAt(u, p) == Some(SlotAt(s, p).value.(sync := Some(b), status := Syncing))
        && u.tasks == s.tasks[s.nextTask := Task(Push, p, r.session, r.interactive)]
        && p in u.inFlight && u.inFlight[p] == QueuedSync(r.session, None)
      else SlotAt(u, p) == Some(SlotAt(s, p).value.(sync := Some(b), status := Idle)) && u.tasks == s.tasks
  {
    var w := RouteStatus(RebindSync(s, p, x, b), p, x, Idle);
    var y := w.(awaiting := awaiting);
    BoundAndIdle(s, p, x, b);
    SameSession(s, w, p);
    assert SlotAt(y, p) == SlotAt(w, p) && SessionFor(y, p) == SessionFor(w, p);
    hide RebindSync, RouteStatus, SyncNow, SlotAt;
    if IsCurrent(s, p, r.session) && p !in s.inFlight {
      PushBegins(y, p, r, hasConfig);
    } else {
      NoPushBegins(y, p, r, hasConfig);
    }
  }

  lemma RestoreBinds(s: State, t: Task, b: Binding, hasConfig: bool)
    requires t.kind == Restore && IsCurrent(s, t.path, t.session)
    ensures Leaves(s, t, Bound(b), RestoreAnswered(s, t, Bound(b), hasConfig))
  {
    var p, x := t.path, t.session;
    BoundAndIdle(s, p, x, b);
    if p in s.awaiting {
      BoundThenSync(s, p, x, b, s.awaiting[p], s.awaiting - {p}, hasConfig);
    }
    hide RebindSync, RouteStatus, SyncNow, SlotAt, IsCurrent;
  }

  lemma RestoreLeaves(s: State, t: Task, a: Answer, hasConfig: bool)
    requires t.kind == Restore && CanAnswer(t, a) && IsCurrent(s, t.path, t.session)
    ensures Leaves(s, t, a, RestoreAnswered(s, t, a, hasConfig))
  {
    var p, x := t.path, t.session;
    match a
    case Bound(b) => RestoreBinds(s, t, b, hasConfig);
    case GoneWrong(status) =>
      RoutedSlot(s, p, x, status);
      hide RouteStatus;
    case _ =>
      RoutedSlot(s, p, x, Disconnected);
      hide RouteStatus;
  }

  lemma UploadedSlot(s: State, p: Path, x: SyncSession, token: nat, etag: nat, revision: nat)
    requires IsCurrent(s, p, x)
    ensures var u := Uploaded(s, p, x, token, etag, revision);
            var a := Sent(token, etag, revision);
            && SlotAt(u, p) == Some(SlotAt(s, p).value.(sync := BindingAfter(a, SlotAt(s, p).value.sync), status := Synced))
            && IsCurrent(u, p, x) && u.tasks == s.tasks && u.nextTask == s.nextTask && u.inFlight == s.inFlight
  {
    var v := UpdateBinding(s, p, x, WithToken(token));
    var w := UpdateBinding(v, p, x, WithBaseline(etag, revision));
    ChangedSlot(s, p, x, WithToken(token));
    ChangedSlot(v, p, x, WithBaseline(etag, revision));
    RoutedSlot(w, p, x, Synced);
    hide UpdateBinding, RouteStatus;
  }

  lemma MergeBegins(s: State, p: Path, x: SyncSession, interactive: bool)
    requires IsCurrent(s, p, x) && HasBinding(s, p)
    ensures var u := StartMerge(s, p, x, interactive);
            && SlotAt(u, p) == SlotAt(s, p) && u.tasks == s.tasks[s.nextTask := Task(Decrypt, p, x, interactive)]
            && Look(u.notices.merging, p) == Some(s.nextTask)
  {
  }

  /** After an upload, the push that was queued behind this one. */
  lemma SentThenQueued(s: State, p: Path, x: SyncSession, token: nat, etag: nat, revision: nat,
                       pending: Option<Request>, hasConfig: bool)
    requires IsCurrent(s, p, x) && HasBinding(s, p) && p !in s.inFlight
    ensures
      var u := StartQueued(Uploaded(s, p, x, token, etag, revision), p, pending, hasConfig);
      var slot := SlotAt(s, p).value.(sync := BindingAfter(Sent(token, etag, revision), SlotAt(s, p).value.sync));
      if pending.Some? && IsCurrent(s, p, pending.value.session) then
        && SlotAt(u, p) == Some(slot.(status := Syncing))
        && u.tasks == s.tasks[s.nextTask := Task(Push, p, pending.value.session, pending.value.interactive)]
        && p in u.inFlight && u.inFlight[p] == QueuedSync(pending.value.session, None)
      else SlotAt(u, p) == Some(slot.(status := Synced)) && u.tasks == s.tasks
  {
    var w := Uploaded(s, p, x, token, etag, revision);
    UploadedSlot(s, p, x, token, etag, revision);
    SameSession(s, w, p);
    hide Uploaded, SyncNow;
    if pending.Some? {
      if IsCurrent(s, p, pending.value.session) {
        PushBegins(w, p, pending.value, hasConfig);
      } else {
        NoPushBegins(w, p, pending.value, hasConfig);
      }
    }
  }

  lemma PushSent(s: State, t: Task, token: nat, etag: nat, revision: nat, hasConfig: bool)
    requires t.kind == Push && IsCurrent(s, t.path, t.session) && HasBinding(s, t.path)
    requires t.path in s.inFlight && s.inFlight[t.path].owner == t.session
    ensures Leaves(s, t, Sent(token, etag, revision), PushAnswered(s, t, Sent(token, etag, revision), hasConfig))
  {
    var p, x, pending := t.path, t.session, s.inFlight[t.path].pending;
    var v := s.(inFlight := s.inFlight - {p});
    assert SlotAt(v, p) == SlotAt(s, p) && SessionFor(v, p) == SessionFor(s, p);
    SentThenQueued(v, p, x, token, etag, revision, pending, hasConfig);
    hide Uploaded, StartQueued, SlotAt;
  }

  lemma PushRefused(s: State, t: Task, token: nat, hasConfig: bool)
    requires t.kind == Push && IsCurrent(s, t.path, t.session) && HasBinding(s, t.path)
    requires t.path in s.inFlight && s.inFlight[t.path].owner == t.session
    ensures Leaves(s, t, Refused(token), PushAnswered(s, t, Refused(token), hasConfig))
  {
    var p, x := t.path, t.session;
    var v := s.(inFlight := s.inFlight - {p});
    assert SlotAt(v, p) == SlotAt(s, p) && SessionFor(v, p) == SessionFor(s, p);
    var w := UpdateBinding(v, p, x, WithToken(token));
    TokenSlot(v, p, x, token);
    hide UpdateBinding, StartMerge;
    MergeBegins(w, p, x, t.interactive || AskedMeanwhile(s, t));
    hide SlotAt;
  }

  lemma PushLeaves(s: State, t: Task, a: Answer, hasConfig: bool)
    requires t.kind == Push && CanAnswer(t, a) && IsCurrent(s, t.path, t.session) && HasBinding(s, t.path)
    requires t.path in s.inFlight && s.inFlight[t.path].owner == t.session
    ensures Leaves(s, t, a, PushAnswered(s, t, a, hasConfig))
  {
    var p, x := t.path, t.session;
    var v := s.(inFlight := s.inFlight - {p});
    assert SlotAt(v, p) == SlotAt(s, p) && IsActive(v, p) == IsActive(s, p) && SessionFor(v, p) == SessionFor(s, p);
    match a
    case Sent(token, etag, revision) => PushSent(s, t, token, etag, revision, hasConfig);
    case Refused(token) => PushRefused(s, t, token, hasConfig);
    case GoneWrong(status) =>
      RoutedSlot(v, p, x, status);
      hide RouteStatus, SlotAt;
    case _ => hide SlotAt;
  }

  lemma TokenSlot(s: State, p: Path, x: SyncSession, token: nat)
    requires IsCurrent(s, p, x)
    ensures var u := UpdateBinding(s, p, x, WithToken(token));
            var b := SlotAt(s, p).value.sync;
            && SlotAt(u, p) == Some(SlotAt(s, p).value.(sync :=
                 if b.None? then None else Some(Binding(b.value.owner, token, b.value.etag, b.value.uploaded))))
            && IsCurrent(u, p, x) && u.notices == s.notices && u.tasks == s.tasks && u.nextTask == s.nextTask
  {
    ChangedSlot(s, p, x, WithToken(token));
    hide UpdateBinding;
  }

  lemma PullLeaves(s: State, t: Task, a: Answer)
    requires t.kind == Pull && CanAnswer(t, a) && IsCurrent(s, t.path, t.session) && HasBinding(s, t.path)
    ensures Leaves(s, t, a, PullAnswered(s, t, a))
  {
    var p, x := t.path, t.session;
    var v := PullOver(s, p);
    SamePlace(s, v, p);
    match a
    case UpToDate(token) =>
      TokenSlot(v, p, x, token);
      RoutedSlot(UpdateBinding(v, p, x, WithToken(token)), p, x, Synced);
      hide UpdateBinding, RouteStatus, SlotAt;
    case RemoteAhead(token) =>
      var w := UpdateBinding(v, p, x, WithToken(token));
      TokenSlot(v, p, x, token);
      hide UpdateBinding, StartMerge;
      MergeBegins(w, p, x, false);
      hide SlotAt;
    case GoneWrong(status) =>
      RoutedSlot(v, p, x, Reconnect);
      hide RouteStatus, SlotAt;
    case _ => hide SlotAt;
  }

  lemma CommitBegins(s: State, p: Path, x: SyncSession, stale: bool)
    requires IsCurrent(s, p, x) && HasBinding(s, p)
    ensures var u := CommitMerge(s, p, x, stale);
            && SlotAt(u, p) == Some(SlotAt(s, p).value.(status := Syncing))
            && u.tasks == if stale then s.tasks else s.tasks[s.nextTask := Task(Commit, p, x, false)]
  {
    RoutedSlot(s, p, x, Syncing);
    hide RouteStatus;
  }

  lemma DecryptLeaves(s: State, id: nat, t: Task, a: Answer)
    requires t.kind == Decrypt && CanAnswer(t, a) && IsCurrent(s, t.path, t.session) && HasBinding(s, t.path)
    requires Look(s.notices.merging, t.path) == Some(id)
    ensures Leaves(s, t, a, DecryptAnswered(s, id, t, a))
  {
    var p, x := t.path, t.session;
    var v := WithoutToken(s, p);
    SamePlace(s, v, p);
    MergeContinues(v, t, a);
    hide ContinueMerge, IsCurrent, HasBinding, SlotAt;
  }

  lemma SamePlace(s: State, u: State, p: Path)
    requires u == s.(notices := u.notices)
    ensures SlotAt(u, p) == SlotAt(s, p) && IsActive(u, p) == IsActive(s, p) && SessionFor(u, p) == SessionFor(s, p)
    ensures HasBinding(u, p) == HasBinding(s, p)
  {
  }

  lemma MergeContinues(s: State, t: Task, a: Answer)
    requires t.kind == Decrypt && CanAnswer(t, a) && IsCurrent(s, t.path, t.session) && HasBinding(s, t.path)
    ensures var u := ContinueMerge(s, t, a);
            var slot := SlotAt(s, t.path).value;
            && SlotAt(u, t.path) == Some(slot.(status := StatusLeft(s, t, a, slot.status)))
            && u.tasks == match a case Merged(false) => s.tasks[s.nextTask := Task(Commit, t.path, t.session, false)] case _ => s.tasks
  {
    var p, x := t.path, t.session;
    var v := WithoutCost(s, p);
    SamePlace(s, v, p);
    match a
    case Unreadable(None) =>
      RoutedSlot(s, p, x, Failed);
      hide RouteStatus;
    case Unreadable(Some(cost)) =>
      var w := s.(notices := s.notices.(costs := s.notices.costs[p := cost]));
      SamePlace(s, w, p);
      RoutedSlot(w, p, x, Failed);
      hide RouteStatus;
    case Blocked =>
      RoutedSlot(v, p, x, Failed);
      hide RouteStatus;
    case Conflicting(etag, editing) =>
      var gone := v.(notices := v.notices.(deferred := v.notices.deferred - {p}));
      var noted := v.(notices := v.notices.(deferred := v.notices.deferred[p := etag]));
      SamePlace(v, gone, p);
      SamePlace(v, noted, p);
      RoutedSlot(gone, p, x, Conflicted(x));
      RoutedSlot(noted, p, x, Failed);
      hide RouteStatus;
    case Merged(stale) =>
      CommitBegins(v, p, x, stale);
      hide CommitMerge;
    case _ =>
  }

  lemma CommitLeaves(s: State, t: Task, a: Answer)
    requires t.kind == Commit && CanAnswer(t, a) && IsCurrent(s, t.path, t.session)
    ensures Leaves(s, t, a, CommitAnswered(s, t, a))
  {
    var p, x := t.path, t.session;
    match a
    case FastForward(etag, revision) =>
      var w := UpdateBinding(s, p, x, WithBaseline(etag, revision));
      ChangedSlot(s, p, x, WithBaseline(etag, revision));
      RoutedSlot(w, p, x, Synced);
      hide UpdateBinding, RouteStatus;
    case GoneWrong(status) =>
      RoutedSlot(s, p, x, status);
      hide RouteStatus;
    case _ =>
  }

  lemma UploadLeaves(s: State, t: Task, a: Answer)
    requires t.kind == Upload && CanAnswer(t, a) && IsCurrent(s, t.path, t.session) && HasBinding(s, t.path)
    ensures Leaves(s, t, a, UploadAnswered(s, t, a))
  {
    var p, x := t.path, t.session;
    match a
    case Sent(token, etag, revision) =>
      UploadedSlot(s, p, x, token, etag, revision);
      hide Uploaded;
    case Refused(token) =>
      var v := UpdateBinding(s, p, x, WithToken(token));
      var w := RouteStatus(v, p, x, Syncing);
      ChangedSlot(s, p, x, WithToken(token));
      RoutedSlot(v, p, x, Syncing);
      hide UpdateBinding, RouteStatus, StartMerge;
      MergeBegins(w, p, x, true);
    case GoneWrong(status) =>
      RoutedSlot(s, p, x, status);
      hide RouteStatus;
    case _ =>
  }

  lemma PublishLeaves(s: State, t: Task, a: Answer)
    requires t.kind == Publish && CanAnswer(t, a) && IsCurrent(s, t.path, t.session)
    ensures Leaves(s, t, a, PublishAnswered(s, t, a, true))
  {
    var p, x := t.path, t.session;
    match a
    case Bound(b) =>
      BoundAndIdle(s, p, x, b);
      hide RebindSync, RouteStatus;
    case _ =>
      RoutedSlot(s, p, x, Failed);
      hide RouteStatus;
  }

  lemma RebindBinds(s: State, t: Task, b: Binding, hasConfig: bool)
    requires t.kind == Rebind && IsCurrent(s, t.path, t.session)
    ensures Leaves(s, t, Bound(b), ReconnectAnswered(s, t, Bound(b), true, hasConfig))
  {
    var p, x := t.path, t.session;
    BoundThenSync(s, p, x, b, Request(x, true, None), s.awaiting, hasConfig);
    BoundAndIdle(s, p, x, b);
    var w := RouteStatus(RebindSync(s, p, x, b), p, x, Idle);
    assert w.(awaiting := s.awaiting) == w;
    hide RebindSync, RouteStatus, SyncNow, SlotAt, IsCurrent;
  }

  lemma RebindLeaves(s: State, t: Task, a: Answer, hasConfig: bool)
    requires t.kind == Rebind && CanAnswer(t, a) && IsCurrent(s, t.path, t.session)
    ensures Leaves(s, t, a, ReconnectAnswered(s, t, a, true, hasConfig))
  {
    var p, x := t.path, t.session;
    match a
    case Bound(b) => RebindBinds(s, t, b, hasConfig);
    case _ =>
      RoutedSlot(s, p, x, Reconnect);
      hide RouteStatus;
  }

  // ------------------------------------------------------------------ the theorem

  lemma TaskLeaves(s: State, id: nat, t: Task, a: Answer, hasConfig: bool)
    requires CanAnswer(t, a) && IsCurrent(s, t.path, t.session)
    requires t.kind in {Push, Pull, Decrypt, Commit, Upload} ==> HasBinding(s, t.path)
    requires t.kind == Push ==> t.path in s.inFlight && s.inFlight[t.path].owner == t.session
    requires t.kind == Decrypt ==> Look(s.notices.merging, t.path) == Some(id)
    ensures Leaves(s, t, a, Dispatched(s, id, t, a, true, hasConfig))
  {
    hide Leaves, RestoreAnswered, PushAnswered, PullAnswered, DecryptAnswered, CommitAnswered, UploadAnswered,
      PublishAnswered, ReconnectAnswered, CanAnswer;
    match t.kind
    case Restore => RestoreLeaves(s, t, a, hasConfig);
    case Push => PushLeaves(s, t, a, hasConfig);
    case Pull => PullLeaves(s, t, a);
    case Decrypt => DecryptLeaves(s, id, t, a);
    case Commit => CommitLeaves(s, t, a);
    case Upload => UploadLeaves(s, t, a);
    case Publish => PublishLeaves(s, t, a);
    case Rebind => RebindLeaves(s, t, a, hasConfig);
  }

  function WithoutTask(s: State, id: nat): State { s.(tasks := s.tasks - {id}) }

  /** What any answer that comes in time leaves: the binding, the status and the work that
      follows are exactly the ones the tables say. */
  lemma AnswerWrites(s: State, id: nat, a: Answer, gate: bool, hasConfig: bool)
    requires Enabled(s, DoAnswer(id, a, gate, hasConfig)) && InTime(s, id, gate)
    ensures SlotAt(WithoutTask(s, id), s.tasks[id].path).Some?
    ensures Leaves(WithoutTask(s, id), s.tasks[id], a, Do(s, DoAnswer(id, a, gate, hasConfig)))
  {
    var t, u := s.tasks[id], WithoutTask(s, id);
    assert SlotAt(u, t.path) == SlotAt(s, t.path) && SessionFor(u, t.path) == SessionFor(s, t.path);
    hide Leaves, Dispatched;
    TaskLeaves(u, id, t, a, hasConfig);
    GateMatters(u, id, t, a, gate, hasConfig);
  }

  lemma GateMatters(s: State, id: nat, t: Task, a: Answer, gate: bool, hasConfig: bool)
    requires t.kind == Publish || t.kind == Rebind ==> gate
    ensures Dispatched(s, id, t, a, gate, hasConfig) == Dispatched(s, id, t, a, true, hasConfig)
  {
    hide RestoreAnswered, PushAnswered, PullAnswered, DecryptAnswered, CommitAnswered, UploadAnswered;
  }

  /** A conflict that is found but not shown is noted by the remote's revision, and a cost nobody
      allowed by the cost. */
  lemma NoticesKept(s: State, id: nat, a: Answer, gate: bool, hasConfig: bool)
    requires Enabled(s, DoAnswer(id, a, gate, hasConfig)) && InTime(s, id, gate) && s.tasks[id].kind == Decrypt
    ensures var p := s.tasks[id].path;
            var n := Do(s, DoAnswer(id, a, gate, hasConfig)).notices;
            && Look(n.costs, p) == (if a.Unreadable? then (if a.cost.Some? then a.cost else Look(s.notices.costs, p)) else None)
            && Look(n.deferred, p) ==
                 (if a.Conflicting? then
                    if IsActive(s, p) && s.tasks[id].interactive && !a.editing then None else Some(a.etag)
                  else if a.Merged? then None
                  else Look(s.notices.deferred, p))
            && (Look(n.merging, p).None?)
  {
    var t := s.tasks[id];
    var v := WithoutToken(WithoutTask(s, id), t.path);
    assert SlotAt(v, t.path) == SlotAt(s, t.path) && IsActive(v, t.path) == IsActive(s, t.path);
    assert SessionFor(v, t.path) == SessionFor(s, t.path);
    TokenHandedIn(s, id, a, gate, hasConfig);
    hide ContinueMerge, HasBinding, IsCurrent, SlotAt, Do, Enabled;
    ContinueNotices(v, t, a);
  }

  lemma TokenHandedIn(s: State, id: nat, a: Answer, gate: bool, hasConfig: bool)
    requires Enabled(s, DoAnswer(id, a, gate, hasConfig)) && InTime(s, id, gate) && s.tasks[id].kind == Decrypt
    ensures Do(s, DoAnswer(id, a, gate, hasConfig)) ==
      ContinueMerge(WithoutToken(WithoutTask(s, id), s.tasks[id].path), s.tasks[id], a)
    ensures CanAnswer(s.tasks[id], a)
  {
    hide ContinueMerge;
  }

  lemma ContinueNotices(s: State, t: Task, a: Answer)
    requires t.kind == Decrypt && CanAnswer(t, a) && IsCurrent(s, t.path, t.session) && HasBinding(s, t.path)
    ensures var n, p := ContinueMerge(s, t, a).notices, t.path;
            && Look(n.costs, p) == (if a.Unreadable? then (if a.cost.Some? then a.cost else Look(s.notices.costs, p)) else None)
            && Look(n.deferred, p) ==
                 (if a.Conflicting? then
                    if IsActive(s, p) && t.interactive && !a.editing then None else Some(a.etag)
                  else if a.Merged? then None
                  else Look(s.notices.deferred, p))
            && (Look(s.notices.merging, p).None? ==> Look(n.merging, p).None?)
  {
    var p, x := t.path, t.session;
    var v := WithoutCost(s, p);
    SamePlace(s, v, p);
    match a
    case Unreadable(None) =>
      RoutedSlot(s, p, x, Failed);
      hide RouteStatus;
    case Unreadable(Some(cost)) =>
      var w := s.(notices := s.notices.(costs := s.notices.costs[p := cost]));
      SamePlace(s, w, p);
      RoutedSlot(w, p, x, Failed);
      hide RouteStatus;
    case Blocked =>
      RoutedSlot(v, p, x, Failed);
      hide RouteStatus;
    case Conflicting(etag, editing) =>
      var gone := v.(notices := v.notices.(deferred := v.notices.deferred - {p}));
      var noted := v.(notices := v.notices.(deferred := v.notices.deferred[p := etag]));
      SamePlace(v, gone, p);
      SamePlace(v, noted, p);
      RoutedSlot(gone, p, x, Conflicted(x));
      RoutedSlot(noted, p, x, Failed);
      hide RouteStatus;
    case Merged(stale) =>
      RoutedSlot(v, p, x, Syncing);
      hide RouteStatus;
    case _ =>
  }
}
