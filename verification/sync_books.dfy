/**
 The books that sync work leaves: the pushes under way, the requests held back and
 the notices, after an answer that comes in time; and all there is to an answer
 that comes too late. In any run an answer is one or the other.
 */
module SyncBooks {
  import opened Wrappers
  import opened SyncRouting
  import opened SyncRuns
  import opened SyncAnswers
  import opened SyncSteps

  // --------------------------------------------------------------- answers in time

  /** The pushes under way after a request of the present session: it waits behind the one there is,
      joined with what waits there of the same session, or is the one. */
  function WithRequest(flights: map<Path, QueuedSync>, p: Path, r: Request): map<Path, QueuedSync> {
    if p !in flights then flights[p := QueuedSync(r.session, None)]
    else
      var q := flights[p];
      var joins := q.pending.Some? && q.pending.value.session == r.session;
      var interactive := r.interactive || (joins && q.pending.value.interactive);
      flights[p := QueuedSync(q.owner, Some(Request(r.session, interactive, r.bytes)))]
  }

  /** An answered push gives up its place; the request that is due takes it, or waits for it. */
  ghost function FlightsLeft(s: State, t: Task, a: Answer): map<Path, QueuedSync> {
    var flights := if t.kind == Push then s.inFlight - {t.path} else s.inFlight;
    if Due(s, t, a).Some? && IsCurrent(s, t.path, Due(s, t, a).value.session)
    then WithRequest(flights, t.path, Due(s, t, a).value) else flights
  }

  /** The status an answer writes, if it does; a push that follows makes no difference to the notices. */
  function StatusWritten(s: State, t: Task, a: Answer, was: Status): Option<Status> {
    match a
    case NoConfiguration => Some(Disconnected)
    case Bound(_) => Some(Idle)
    case Nothing => None
    case GoneWrong(status) =>
      if t.kind == Publish then Some(Failed)
      else if t.kind == Rebind then Some(Reconnect)
      else if t.kind == Pull && status != Reconnect then None
      else Some(status)
    case Sent(_, _, _) => Some(Synced)
    case Refused(_) => if t.kind == Upload then Some(Syncing) else None
    case UpToDate(_) => if was in {Idle, Synced} && t.path !in s.notices.deferred then Some(Synced) else None
    case RemoteAhead(_) => None
    case FastForward(_, _) => Some(Synced)
    case _ => None
  }

  /** A poll is over, a status makes notices out of date, and a decryption that follows is the newest. */
  ghost function NoticesLeft(s: State, t: Task, a: Answer, was: Status): Notices {
    var n := if t.kind == Pull then s.notices.(polling := s.notices.polling - {t.path}) else s.notices;
    var written := StatusWritten(s, t, a, was);
    var m := if written.Some? then UnderStatus(n, t.path, written.value) else n;
    var merges := (a.Refused? || (a.RemoteAhead? && (was in {Idle, Synced} || t.path in s.notices.deferred)));
    if merges then m.(merging := m.merging[t.path := s.nextTask]) else m
  }

  ghost predicate Keeps(s: State, t: Task, a: Answer, u: State)
    requires SlotAt(s, t.path).Some?
  {
    && u.inFlight == FlightsLeft(s, t, a)
    && u.awaiting == (if t.kind == Restore && a.Bound? then s.awaiting - {t.path} else s.awaiting)
    && (t.kind != Decrypt ==> u.notices == NoticesLeft(s, t, a, SlotAt(s, t.path).value.status))
  }

  lemma ClearedIs(n: Notices, p: Path, status: Status)
    ensures Cleared(n, p, status) == UnderStatus(n, p, status)
  {
  }

  lemma TwiceUnder(n: Notices, p: Path, status: Status)
    requires status in {Idle, Synced}
    ensures UnderStatus(UnderStatus(n, p, status), p, Syncing) == UnderStatus(n, p, status)
  {
    assert n.deferred - {p} - {p} == n.deferred - {p};
  }

  lemma RoutedBooks(s: State, p: Path, x: SyncSession, status: Status)
    requires IsCurrent(s, p, x)
    ensures var u := RouteStatus(s, p, x, status);
            u.notices == UnderStatus(s.notices, p, status) && u.inFlight == s.inFlight && u.awaiting == s.awaiting
            && u.nextTask == s.nextTask && SlotAt(u, p) == Some(SlotAt(s, p).value.(status := status)) && IsCurrent(u, p, x)
  {
    ClearedIs(s.notices, p, status);
    RoutedSlot(s, p, x, status);
    hide RouteStatus, Cleared, UnderStatus;
  }

  /** A request where there is a binding. */
  lemma RequestBooks(s: State, p: Path, r: Request, hasConfig: bool)
    requires HasBinding(s, p)
    ensures
      var u := SyncNow(s, p, r, hasConfig);
      if !IsCurrent(s, p, r.session) then u == s
      else
        && u.awaiting == s.awaiting && u.inFlight == WithRequest(s.inFlight, p, r)
        && u.notices == (if p in s.inFlight then s.notices else UnderStatus(s.notices, p, Syncing))
  {
    if IsCurrent(s, p, r.session) {
      RequestChanges(s, p, r, hasConfig);
      hide SyncNow, UnderStatus, SlotAt;
    }
  }

  lemma BoundBooks(s: State, p: Path, x: SyncSession, b: Binding)
    requires IsCurrent(s, p, x)
    ensures var u := RouteStatus(RebindSync(s, p, x, b), p, x, Idle);
            && u.notices == UnderStatus(s.notices, p, Idle) && u.inFlight == s.inFlight && u.awaiting == s.awaiting
            && HasBinding(u, p) && SessionFor(u, p) == SessionFor(s, p)
  {
    BoundSlot(s, p, x, b);
    RoutedBooks(RebindSync(s, p, x, b), p, x, Idle);
    hide RebindSync, RouteStatus, UnderStatus;
  }

  lemma BoundThenBooks(s: State, p: Path, x: SyncSession, b: Binding, r: Request, awaiting: map<Path, Request>, hasConfig: bool)
    requires IsCurrent(s, p, x)
    ensures
      var w := RouteStatus(RebindSync(s, p, x, b), p, x, Idle);
      var u := SyncNow(w.(awaiting := awaiting), p, r, hasConfig);
      && u.awaiting == awaiting && u.notices == UnderStatus(s.notices, p, Idle)
      && u.inFlight == (if IsCurrent(s, p, r.session) then WithRequest(s.inFlight, p, r) else s.inFlight)
  {
    var w := RouteStatus(RebindSync(s, p, x, b), p, x, Idle);
    var y := w.(awaiting := awaiting);
    BoundBooks(s, p, x, b);
    assert SlotAt(y, p) == SlotAt(w, p) && SessionFor(y, p) == SessionFor(w, p);
    TwiceUnder(s.notices, p, Idle);
    hide RebindSync, RouteStatus, SyncNow, SlotAt, UnderStatus, WithRequest;
    RequestBooks(y, p, r, hasConfig);
  }

  lemma RestoreKeeps(s: State, t: Task, a: Answer, hasConfig: bool)
    requires t.kind == Restore && CanAnswer(t, a) && IsCurrent(s, t.path, t.session)
    ensures Keeps(s, t, a, RestoreAnswered(s, t, a, hasConfig))
  {
    var p, x := t.path, t.session;
    match a
    case Bound(b) =>
      BoundBooks(s, p, x, b);
      if p in s.awaiting {
        BoundThenBooks(s, p, x, b, s.awaiting[p], s.awaiting - {p}, hasConfig);
      }
      hide RebindSync, RouteStatus, SyncNow, UnderStatus, WithRequest, SlotAt, IsCurrent;
    case GoneWrong(status) =>
      RoutedBooks(s, p, x, status);
      hide RouteStatus, UnderStatus;
    case _ =>
      RoutedBooks(s, p, x, Disconnected);
      hide RouteStatus, UnderStatus;
  }

  lemma UploadedBooks(s: State, p: Path, x: SyncSession, token: nat, etag: nat, revision: nat)
    requires IsCurrent(s, p, x) && HasBinding(s, p)
    ensures var u := Uploaded(s, p, x, token, etag, revision);
            && u.notices == UnderStatus(s.notices, p, Synced) && u.inFlight == s.inFlight && u.awaiting == s.awaiting
            && HasBinding(u, p) && SessionFor(u, p) == SessionFor(s, p)
  {
    var v := UpdateBinding(s, p, x, WithToken(token));
    var w := UpdateBinding(v, p, x, WithBaseline(etag, revision));
    ChangedSlot(s, p, x, WithToken(token));
    ChangedSlot(v, p, x, WithBaseline(etag, revision));
    RoutedBooks(w, p, x, Synced);
    hide UpdateBinding, RouteStatus, UnderStatus;
  }

  lemma SentKeeps(s: State, t: Task, token: nat, etag: nat, revision: nat, hasConfig: bool)
    requires t.kind == Push && IsCurrent(s, t.path, t.session) && HasBinding(s, t.path)
    requires t.path in s.inFlight && s.inFlight[t.path].owner == t.session
    ensures Keeps(s, t, Sent(token, etag, revision), PushAnswered(s, t, Sent(token, etag, revision), hasConfig))
  {
    var p, x, pending := t.path, t.session, s.inFlight[t.path].pending;
    var v := s.(inFlight := s.inFlight - {p});
    assert SlotAt(v, p) == SlotAt(s, p) && SessionFor(v, p) == SessionFor(s, p);
    var w := Uploaded(v, p, x, token, etag, revision);
    UploadedBooks(v, p, x, token, etag, revision);
    TwiceUnder(s.notices, p, Synced);
    hide Uploaded, SyncNow, SlotAt, UnderStatus, WithRequest;
    if pending.Some? {
      RequestBooks(w, p, pending.value, hasConfig);
    }
  }

  lemma TokenBooks(s: State, p: Path, x: SyncSession, token: nat)
    requires IsCurrent(s, p, x) && HasBinding(s, p)
    ensures var u := UpdateBinding(s, p, x, WithToken(token));
            && u.notices == s.notices && u.inFlight == s.inFlight && u.awaiting == s.awaiting && u.nextTask == s.nextTask
            && IsCurrent(u, p, x) && HasBinding(u, p)
  {
    ChangedSlot(s, p, x, WithToken(token));
    hide UpdateBinding;
  }

  lemma PushKeeps(s: State, t: Task, a: Answer, hasConfig: bool)
    requires t.kind == Push && CanAnswer(t, a) && IsCurrent(s, t.path, t.session) && HasBinding(s, t.path)
    requires t.path in s.inFlight && s.inFlight[t.path].owner == t.session
    ensures Keeps(s, t, a, PushAnswered(s, t, a, hasConfig))
  {
    var p, x := t.path, t.session;
    var v := s.(inFlight := s.inFlight - {p});
    assert SlotAt(v, p) == SlotAt(s, p) && SessionFor(v, p) == SessionFor(s, p);
    match a
    case Sent(token, etag, revision) => SentKeeps(s, t, token, etag, revision, hasConfig);
    case Refused(token) =>
      TokenBooks(v, p, x, token);
      hide UpdateBinding, SlotAt;
    case GoneWrong(status) =>
      RoutedBooks(v, p, x, status);
      hide RouteStatus, SlotAt, UnderStatus;
  }

  lemma UpToDateKeeps(s: State, t: Task, token: nat)
    requires t.kind == Pull && IsCurrent(s, t.path, t.session) && HasBinding(s, t.path)
    ensures Keeps(s, t, UpToDate(token), PullAnswered(s, t, UpToDate(token)))
  {
    var p, x := t.path, t.session;
    var v := PullOver(s, p);
    SamePlace(s, v, p);
    TokenBooks(v, p, x, token);
    RoutedBooks(UpdateBinding(v, p, x, WithToken(token)), p, x, Synced);
    hide UpdateBinding, RouteStatus, SlotAt, UnderStatus, HasBinding;
  }

  lemma AheadKeeps(s: State, t: Task, token: nat)
    requires t.kind == Pull && IsCurrent(s, t.path, t.session) && HasBinding(s, t.path)
    ensures Keeps(s, t, RemoteAhead(token), PullAnswered(s, t, RemoteAhead(token)))
  {
    var v := PullOver(s, t.path);
    SamePlace(s, v, t.path);
    TokenBooks(v, t.path, t.session, token);
    hide UpdateBinding, SlotAt, HasBinding, UnderStatus;
  }

  lemma PullKeeps(s: State, t: Task, a: Answer)
    requires t.kind == Pull && CanAnswer(t, a) && IsCurrent(s, t.path, t.session) && HasBinding(s, t.path)
    ensures Keeps(s, t, a, PullAnswered(s, t, a))
  {
    var v := PullOver(s, t.path);
    SamePlace(s, v, t.path);
    match a
    case UpToDate(token) => UpToDateKeeps(s, t, token);
    case RemoteAhead(token) => AheadKeeps(s, t, token);
    case GoneWrong(status) =>
      RoutedBooks(v, t.path, t.session, Reconnect);
      hide RouteStatus, SlotAt, UnderStatus, HasBinding;
    case _ => hide SlotAt, HasBinding, UnderStatus;
  }

  lemma CommitKeeps(s: State, t: Task, a: Answer)
    requires t.kind == Commit && CanAnswer(t, a) && IsCurrent(s, t.path, t.session)
    ensures Keeps(s, t, a, CommitAnswered(s, t, a))
  {
    var p, x := t.path, t.session;
    match a
    case FastForward(etag, revision) =>
      ChangedSlot(s, p, x, WithBaseline(etag, revision));
      RoutedBooks(UpdateBinding(s, p, x, WithBaseline(etag, revision)), p, x, Synced);
      hide UpdateBinding, RouteStatus, UnderStatus;
    case GoneWrong(status) =>
      RoutedBooks(s, p, x, status);
      hide RouteStatus, UnderStatus;
    case _ =>
  }

  lemma UploadKeeps(s: State, t: Task, a: Answer)
    requires t.kind == Upload && CanAnswer(t, a) && IsCurrent(s, t.path, t.session) && HasBinding(s, t.path)
    ensures Keeps(s, t, a, UploadAnswered(s, t, a))
  {
    var p, x := t.path, t.session;
    match a
    case Sent(token, etag, revision) =>
      UploadedBooks(s, p, x, token, etag, revision);
      hide Uploaded, UnderStatus;
    case Refused(token) =>
      var v := UpdateBinding(s, p, x, WithToken(token));
      TokenBooks(s, p, x, token);
      RoutedBooks(v, p, x, Syncing);
      hide UpdateBinding, RouteStatus, UnderStatus;
    case GoneWrong(status) =>
      RoutedBooks(s, p, x, status);
      hide RouteStatus, UnderStatus;
  }

  lemma PublishKeeps(s: State, t: Task, a: Answer)
    requires t.kind == Publish && CanAnswer(t, a) && IsCurrent(s, t.path, t.session)
    ensures Keeps(s, t, a, PublishAnswered(s, t, a, true))
  {
    var p, x := t.path, t.session;
    match a
    case Bound(b) =>
      BoundBooks(s, p, x, b);
      hide RebindSync, RouteStatus, UnderStatus;
    case _ =>
      RoutedBooks(s, p, x, Failed);
      hide RouteStatus, UnderStatus;
  }

  lemma RebindKeeps(s: State, t: Task, a: Answer, hasConfig: bool)
    requires t.kind == Rebind && CanAnswer(t, a) && IsCurrent(s, t.path, t.session)
    ensures Keeps(s, t, a, ReconnectAnswered(s, t, a, true, hasConfig))
  {
    var p, x := t.path, t.session;
    match a
    case Bound(b) => ReboundKeeps(s, t, b, hasConfig);
    case _ =>
      RoutedBooks(s, p, x, Reconnect);
      hide RouteStatus, UnderStatus;
  }

  lemma ReboundKeeps(s: State, t: Task, b: Binding, hasConfig: bool)
    requires t.kind == Rebind && IsCurrent(s, t.path, t.session)
    ensures Keeps(s, t, Bound(b), ReconnectAnswered(s, t, Bound(b), true, hasConfig))
  {
    var p, x := t.path, t.session;
    var w := RouteStatus(RebindSync(s, p, x, b), p, x, Idle);
    var r := Request(x, true, None);
    BoundBooks(s, p, x, b);
    assert w.(awaiting := s.awaiting) == w;
    assert ReconnectAnswered(s, t, Bound(b), true, hasConfig) == SyncNow(w, p, r, hasConfig) by {
      hide RebindSync, RouteStatus, SyncNow;
    }
    hide ReconnectAnswered, RebindSync, RouteStatus, SyncNow, SlotAt, UnderStatus, WithRequest, IsCurrent;
    BoundThenBooks(s, p, x, b, r, s.awaiting, hasConfig);
  }

  lemma ContinueKeeps(s: State, t: Task, a: Answer)
    requires t.kind == Decrypt && CanAnswer(t, a) && IsCurrent(s, t.path, t.session) && HasBinding(s, t.path)
    ensures var u := ContinueMerge(s, t, a); u.inFlight == s.inFlight && u.awaiting == s.awaiting
  {
    StatusBooks();
    hide SetStatus, SlotAt;
  }

  lemma StatusBooks()
    ensures forall s, p, status :: SameBooks(s, SetStatus(s, p, status))
  {
    forall s, p, status ensures SameBooks(s, SetStatus(s, p, status)) {
      StatusKeepsBooks(s, p, status);
    }
  }

  lemma DecryptKeeps(s: State, id: nat, t: Task, a: Answer)
    requires t.kind == Decrypt && CanAnswer(t, a) && IsCurrent(s, t.path, t.session) && HasBinding(s, t.path)
    requires Look(s.notices.merging, t.path) == Some(id)
    ensures Keeps(s, t, a, DecryptAnswered(s, id, t, a))
  {
    var v := WithoutToken(s, t.path);
    SamePlace(s, v, t.path);
    ContinueKeeps(v, t, a);
    hide ContinueMerge, SlotAt;
  }

  lemma TaskKeeps(s: State, id: nat, t: Task, a: Answer, hasConfig: bool)
    requires CanAnswer(t, a) && IsCurrent(s, t.path, t.session)
    requires t.kind in {Push, Pull, Decrypt, Commit, Upload} ==> HasBinding(s, t.path)
    requires t.kind == Push ==> t.path in s.inFlight && s.inFlight[t.path].owner == t.session
    requires t.kind == Decrypt ==> Look(s.notices.merging, t.path) == Some(id)
    ensures Keeps(s, t, a, Dispatched(s, id, t, a, true, hasConfig))
  {
    hide Keeps, RestoreAnswered, PushAnswered, PullAnswered, DecryptAnswered, CommitAnswered, UploadAnswered,
      PublishAnswered, ReconnectAnswered, CanAnswer;
    match t.kind
    case Restore => RestoreKeeps(s, t, a, hasConfig);
    case Push => PushKeeps(s, t, a, hasConfig);
    case Pull => PullKeeps(s, t, a);
    case Decrypt => DecryptKeeps(s, id, t, a);
    case Commit => CommitKeeps(s, t, a);
    case Upload => UploadKeeps(s, t, a);
    case Publish => PublishKeeps(s, t, a);
    case Rebind => RebindKeeps(s, t, a, hasConfig);
  }

  /** The books after any answer that comes in time. */
  lemma AnswerKeepsBooks(s: State, id: nat, a: Answer, gate: bool, hasConfig: bool)
    requires Enabled(s, DoAnswer(id, a, gate, hasConfig)) && InTime(s, id, gate)
    ensures SlotAt(WithoutTask(s, id), s.tasks[id].path).Some?
    ensures Keeps(WithoutTask(s, id), s.tasks[id], a, Do(s, DoAnswer(id, a, gate, hasConfig)))
  {
    var t, u := s.tasks[id], WithoutTask(s, id);
    assert SlotAt(u, t.path) == SlotAt(s, t.path) && SessionFor(u, t.path) == SessionFor(s, t.path);
    hide Keeps, Dispatched;
    TaskKeeps(u, id, t, a, hasConfig);
    GateMatters(u, id, t, a, gate, hasConfig);
  }

  // ----------------------------------------------------------------- answers too late

  /** Its session is over, or its place, its token or its generation is no longer its own. */
  ghost predicate TooLate(s: State, id: nat, gate: bool)
    requires id in s.tasks
  {
    var t := s.tasks[id];
    || !IsCurrent(s, t.path, t.session)
    || (t.kind == Push && !(t.path in s.inFlight && s.inFlight[t.path].owner == t.session))
    || (t.kind == Decrypt && Look(s.notices.merging, t.path) != Some(id))
    || ((t.kind == Publish || t.kind == Rebind) && !gate)
  }

  /** All that is left of an answer that is too late: a push gives up its place to what is queued for
      the session there is now, a decryption hands in its token, and a poll is over. */
  ghost predicate OnlyGivesUp(s: State, id: nat, t: Task, u: State, hasConfig: bool) {
    var p := t.path;
    match t.kind
    case Push =>
      if !(p in s.inFlight && s.inFlight[p].owner == t.session) then u == s
      else
        var pending, v := s.inFlight[p].pending, s.(inFlight := s.inFlight - {p});
        if pending.Some? && IsCurrent(s, p, pending.value.session) then Changed(v, u, p, Pushed(v, p, pending.value, hasConfig))
        else u == v
    case Decrypt =>
      u == if Look(s.notices.merging, p) == Some(id) then s.(notices := s.notices.(merging := s.notices.merging - {p})) else s
    case Pull => u == s.(notices := s.notices.(polling := s.notices.polling - {p}))
    case _ => u == s
  }

  lemma LatePush(s: State, t: Task, a: Answer, hasConfig: bool)
    requires t.kind == Push && !(IsCurrent(s, t.path, t.session) && t.path in s.inFlight && s.inFlight[t.path].owner == t.session)
    ensures OnlyGivesUp(s, 0, t, PushAnswered(s, t, a, hasConfig), hasConfig)
  {
    var p := t.path;
    if p in s.inFlight && s.inFlight[p].owner == t.session {
      var pending, v := s.inFlight[p].pending, s.(inFlight := s.inFlight - {p});
      assert SlotAt(v, p) == SlotAt(s, p) && SessionFor(v, p) == SessionFor(s, p);
      if pending.Some? && IsCurrent(s, p, pending.value.session) {
        RequestChanges(v, p, pending.value, hasConfig);
      }
      hide SyncNow, Changed, Pushed, SlotAt;
    }
  }

  lemma LateDispatch(s: State, id: nat, t: Task, a: Answer, gate: bool, hasConfig: bool)
    requires CanAnswer(t, a)
    requires
      || !IsCurrent(s, t.path, t.session)
      || (t.kind == Push && !(t.path in s.inFlight && s.inFlight[t.path].owner == t.session))
      || (t.kind == Decrypt && Look(s.notices.merging, t.path) != Some(id))
      || ((t.kind == Publish || t.kind == Rebind) && !gate)
    ensures OnlyGivesUp(s, id, t, Dispatched(s, id, t, a, gate, hasConfig), hasConfig)
  {
    if t.kind == Push {
      LatePush(s, t, a, hasConfig);
      hide PushAnswered;
    } else {
      hide SyncNow, SetStatus, PutBinding, ContinueMerge, SlotAt;
    }
  }

  /** An answer that is too late gives up what it held, and touches nothing else at all. */
  lemma LateAnswerGivesUp(s: State, id: nat, a: Answer, gate: bool, hasConfig: bool)
    requires Enabled(s, DoAnswer(id, a, gate, hasConfig)) && TooLate(s, id, gate)
    ensures OnlyGivesUp(WithoutTask(s, id), id, s.tasks[id], Do(s, DoAnswer(id, a, gate, hasConfig)), hasConfig)
  {
    var t, u := s.tasks[id], WithoutTask(s, id);
    assert SlotAt(u, t.path) == SlotAt(s, t.path) && SessionFor(u, t.path) == SessionFor(s, t.path);
    hide OnlyGivesUp, Dispatched, SlotAt;
    LateDispatch(u, id, t, a, gate, hasConfig);
  }

  // ------------------------------------------------------- one or the other, in any run

  predicate NeedsBinding(kind: Kind) { kind in {Push, Pull, Decrypt, Commit, Upload} }

  /** Work that needs a binding finds it as long as its session is the one there is. */
  ghost predicate WorkBound(s: State) {
    forall id <- s.tasks :: NeedsBinding(s.tasks[id].kind) && IsCurrent(s, s.tasks[id].path, s.tasks[id].session)
                            ==> HasBinding(s, s.tasks[id].path)
  }

  /** What is begun in a step and needs a binding has one. */
  ghost predicate NewIsBound(s: State, u: State) {
    forall id <- u.tasks :: (id in s.tasks && u.tasks[id] == s.tasks[id])
                            || (NeedsBinding(u.tasks[id].kind) ==> HasBinding(u, u.tasks[id].path))
  }

  /** A session that goes on keeps having its binding. */
  ghost predicate StaysBound(s: State, u: State) {
    forall p, x :: IsCurrent(s, p, x) && IsCurrent(u, p, x) && HasBinding(s, p) ==> HasBinding(u, p)
  }

  lemma ChangedStays(s: State, u: State, p: Path, c: Change)
    requires Changed(s, u, p, c)
    requires c.task.Some? && NeedsBinding(c.task.value.kind) ==> c.task.value.path == p && HasBinding(s, p)
    ensures NewIsBound(s, u) && forall q :: HasBinding(u, q) <==> HasBinding(s, q)
  {
    forall q ensures HasBinding(u, q) <==> HasBinding(s, q) {
      if q != p {
        assert SlotAt(u, q) == SlotAt(s, q);
      }
    }
    hide SlotAt, HasBinding;
  }

  lemma PushedStays(s: State, u: State, p: Path, r: Request, hasConfig: bool)
    requires SlotAt(s, p).Some? && Changed(s, u, p, Pushed(s, p, r, hasConfig))
    ensures NewIsBound(s, u) && forall q :: HasBinding(u, q) <==> HasBinding(s, q)
  {
    hide Changed, SlotAt;
    ChangedStays(s, u, p, Pushed(s, p, r, hasConfig));
  }

  /** Steps of the user and of the timer. */
  lemma WorkStaysBound(s: State, step: Step)
    requires Enabled(s, step) && WorkOnly(step) && !step.DoAnswer?
    ensures NewIsBound(s, Do(s, step)) && StaysBound(s, Do(s, step))
  {
    hide Do, Changed, Pushed, SlotAt, NewIsBound, HasBinding;
    SameStays(s, s);
    match step
    case DoSync(p, interactive, bytes, hasConfig) =>
      SyncShows(s, p, interactive, bytes, hasConfig);
      PushedStays(s, Do(s, step), p, Request(SessionFor(s, p).value, interactive, bytes), hasConfig);
    case DoPoll(p, overlay, throttled, ahead, hasConfig) => TimerStays(s, p, overlay, throttled, ahead, hasConfig);
    case DoStart(kind, p) =>
      StartShows(s, kind, p);
      ChangedStays(s, Do(s, step), p, Change(if kind == Rebind then Some(Connecting) else None,
                                             Some(Task(kind, p, SessionFor(s, p).value, false)), None, None));
    case DoResolve(blocked, stale) => ResolveStays(s, blocked, stale);
    case DoRetryRestore(hasConfig) => RetryStays(s, hasConfig);
    case DoTakeCost => DialogStaysBound(s, step);
    case DoShowConnecting => DialogStaysBound(s, step);
    case DoUnwind => DialogStaysBound(s, step);
    case DoReconnectFails => DialogStaysBound(s, step);
    case _ =>
  }

  lemma DialogStaysBound(s: State, step: Step)
    requires step.DoTakeCost? || step.DoShowConnecting? || step.DoUnwind? || step.DoReconnectFails?
    ensures NewIsBound(s, Do(s, step)) && StaysBound(s, Do(s, step))
  {
    DialogShows(s);
    hide Do, NewIsBound, HasBinding;
    SameStays(s, Do(s, step));
  }

  lemma RetryStays(s: State, hasConfig: bool)
    ensures var u := Do(s, DoRetryRestore(hasConfig)); NewIsBound(s, u) && forall q :: HasBinding(u, q) <==> HasBinding(s, q)
  {
    RetryShows(s, hasConfig);
    SameStays(s, s);
    if s.front.Some? && s.sync.None? && hasConfig {
      var p := s.front.value.path;
      ChangedStays(s, Do(s, DoRetryRestore(hasConfig)), p,
                   Change(Some(Restoring), Some(Task(Restore, p, SessionFor(s, p).value, false)), None, None));
    }
    hide Do, Changed, NewIsBound;
  }

  /** The bindings and the work are the same. */
  lemma SameStays(s: State, u: State)
    requires u == s.(status := u.status, notices := u.notices)
    ensures NewIsBound(s, u) && forall q :: HasBinding(u, q) <==> HasBinding(s, q)
  {
  }

  lemma TimerStays(s: State, p: Path, overlay: bool, throttled: bool, ahead: bool, hasConfig: bool)
    ensures var u := Do(s, DoPoll(p, overlay, throttled, ahead, hasConfig));
            NewIsBound(s, u) && forall q :: HasBinding(u, q) <==> HasBinding(s, q)
  {
    var u := Do(s, DoPoll(p, overlay, throttled, ahead, hasConfig));
    TimerShows(s, p, overlay, throttled, ahead, hasConfig);
    SameStays(s, s);
    hide Do, Changed, Pushed, NewIsBound;
    if SlotAt(s, p).Some? && u != s {
      var slot, x := SlotAt(s, p).value, SessionFor(s, p).value;
      if (slot.status == Failed && p !in s.notices.deferred) || ahead {
        PushedStays(s, u, p, Request(x, false, None), hasConfig);
      } else {
        var v := u.(notices := s.notices);
        ChangedStays(s, v, p, Change(None, Some(Task(Pull, p, x, false)), None, None));
        NoticesAside(s, v, u);
      }
    }
  }

  lemma NoticesAside(s: State, v: State, u: State)
    requires u == v.(notices := u.notices) && NewIsBound(s, v)
    ensures NewIsBound(s, u) && forall q :: HasBinding(u, q) <==> HasBinding(v, q)
  {
    assert forall q :: HasBinding(u, q) <==> HasBinding(v, q);
    hide HasBinding;
  }

  lemma ResolveStays(s: State, blocked: bool, stale: bool)
    ensures var u := Do(s, DoResolve(blocked, stale)); NewIsBound(s, u) && forall q :: HasBinding(u, q) <==> HasBinding(s, q)
  {
    var u := Do(s, DoResolve(blocked, stale));
    ResolveShows(s, blocked, stale);
    SameStays(s, s);
    hide Do, Changed, NewIsBound;
    if Answerable(s) {
      var p, x := s.front.value.path, s.status.session;
      if blocked {
        ChangedStays(s, u, p, Change(Some(Failed), None, None, None));
      } else if s.sync.Some? {
        ChangedStays(s, u, p, Change(Some(Syncing), if stale then None else Some(Task(Commit, p, x, false)), None, None));
      }
    }
  }

  /** Answers in time. */
  lemma TimelyStaysBound(s: State, id: nat, a: Answer, gate: bool, hasConfig: bool)
    requires Enabled(s, DoAnswer(id, a, gate, hasConfig)) && InTime(s, id, gate)
    ensures var u := Do(s, DoAnswer(id, a, gate, hasConfig)); NewIsBound(s, u) && StaysBound(s, u)
  {
    var t, v, u := s.tasks[id], WithoutTask(s, id), Do(s, DoAnswer(id, a, gate, hasConfig));
    assert SlotAt(v, t.path) == SlotAt(s, t.path);
    AnswerWrites(s, id, a, gate, hasConfig);
    LeavesBound(v, t, a, u);
    AnswerElsewhere(s, id, a, gate, hasConfig);
    hide Do, Leaves, CanAnswer;
  }

  lemma AnswerElsewhere(s: State, id: nat, a: Answer, gate: bool, hasConfig: bool)
    requires Enabled(s, DoAnswer(id, a, gate, hasConfig))
    ensures forall q :: q != s.tasks[id].path ==> SlotAt(Do(s, DoAnswer(id, a, gate, hasConfig)), q) == SlotAt(s, q)
  {
    var step := DoAnswer(id, a, gate, hasConfig);
    WorkOnlyAt(s, step);
    hide Do;
    forall q | q != s.tasks[id].path ensures SlotAt(Do(s, step), q) == SlotAt(s, q) {
      assert Stays(s, Do(s, step), TargetOf(s, step), q);
    }
  }

  /** The binding is kept or renewed, and what follows is bound. */
  lemma LeavesBound(s: State, t: Task, a: Answer, u: State)
    requires SlotAt(s, t.path).Some? && CanAnswer(t, a) && Leaves(s, t, a, u)
    requires NeedsBinding(t.kind) ==> HasBinding(s, t.path)
    ensures HasBinding(s, t.path) ==> HasBinding(u, t.path)
    ensures forall i <- u.tasks :: (i in s.tasks && u.tasks[i] == s.tasks[i])
                                   || (u.tasks[i].path == t.path && (NeedsBinding(u.tasks[i].kind) ==> HasBinding(u, t.path)))
  {
    hide SlotAt, StatusLeft;
  }

  /** Answers too late. */
  lemma LateStaysBound(s: State, id: nat, a: Answer, gate: bool, hasConfig: bool)
    requires Enabled(s, DoAnswer(id, a, gate, hasConfig)) && TooLate(s, id, gate)
    ensures var u := Do(s, DoAnswer(id, a, gate, hasConfig)); NewIsBound(s, u) && StaysBound(s, u)
  {
    var t, v, u := s.tasks[id], WithoutTask(s, id), Do(s, DoAnswer(id, a, gate, hasConfig));
    LateAnswerGivesUp(s, id, a, gate, hasConfig);
    hide Do, TooLate, CanAnswer;
    GivesUpBound(v, id, t, u, hasConfig);
    WithoutTaskBound(s, id, u);
  }

  lemma GivesUpBound(s: State, id: nat, t: Task, u: State, hasConfig: bool)
    requires OnlyGivesUp(s, id, t, u, hasConfig)
    ensures NewIsBound(s, u) && forall q :: HasBinding(u, q) <==> HasBinding(s, q)
  {
    var p := t.path;
    if t.kind == Push && p in s.inFlight && s.inFlight[p].owner == t.session {
      var pending, v := s.inFlight[p].pending, s.(inFlight := s.inFlight - {p});
      assert forall q :: SlotAt(v, q) == SlotAt(s, q);
      if pending.Some? && IsCurrent(s, p, pending.value.session) {
        PushedStays(v, u, p, pending.value, hasConfig);
      }
      hide Changed, Pushed, SlotAt;
    } else {
      SameStays(s, u);
      hide SlotAt, HasBinding;
    }
  }

  lemma WithoutTaskBound(s: State, id: nat, u: State)
    requires NewIsBound(WithoutTask(s, id), u) && forall q :: HasBinding(u, q) <==> HasBinding(WithoutTask(s, id), q)
    ensures NewIsBound(s, u) && forall q :: HasBinding(u, q) <==> HasBinding(s, q)
  {
    assert forall q :: SlotAt(WithoutTask(s, id), q) == SlotAt(s, q);
  }

  lemma OneOrTheOther(s: State, id: nat, gate: bool)
    requires WorkBound(s) && id in s.tasks
    ensures InTime(s, id, gate) <==> !TooLate(s, id, gate)
  {
  }

  lemma MovesStayBound(s: State, step: Step)
    requires Inv(s) && Enabled(s, step) && !WorkOnly(step)
    ensures NewIsBound(s, Do(s, step)) && StaysBound(s, Do(s, step))
  {
    if MovesOnly(step) {
      MovesKeep(s, step);
      hide Do, Inv;
    } else if step.DoOpened? {
      OpenedShows(s, step.p, step.hasConfig);
      BelowEverywhere(s);
      hide Do, BooksOk, WaitsOk, SlotsOk;
    } else if step.DoDisconnect? {
      DisconnectShows(s);
      hide Do, Inv;
    } else {
      LockShows(s, step.waiting);
      hide Do, Inv;
    }
  }

  lemma StepKeepsWorkBound(s: State, step: Step)
    requires Inv(s) && WorkBound(s) && Enabled(s, step)
    ensures WorkBound(Do(s, step))
  {
    var u := Do(s, step);
    if step.DoAnswer? {
      OneOrTheOther(s, step.id, step.gate);
      if InTime(s, step.id, step.gate) {
        TimelyStaysBound(s, step.id, step.answer, step.gate, step.hasConfig);
      } else {
        LateStaysBound(s, step.id, step.answer, step.gate, step.hasConfig);
      }
    } else if WorkOnly(step) {
      WorkStaysBound(s, step);
    } else {
      MovesStayBound(s, step);
    }
    hide Do, Enabled, NeedsBinding, HasBinding, InTime, TooLate, WorkOnly;
    forall id | id in u.tasks && NeedsBinding(u.tasks[id].kind) && IsCurrent(u, u.tasks[id].path, u.tasks[id].session)
      ensures HasBinding(u, u.tasks[id].path)
    {
      if id in s.tasks && u.tasks[id] == s.tasks[id] {
        assert TaskOk(s, id);
        var t := s.tasks[id];
        hide Inv;
        if !IsCurrent(s, t.path, t.session) {
          SessionStaysOver(s, step, t.path, t.session);
        }
      }
    }
  }

  lemma {:induction false} RunWorkBound(run: seq<State>, k: nat)
    requires IsRun(run) && k < |run|
    ensures WorkBound(run[k])
    decreases k
  {
    hide Inv, WorkBound, Next;
    StartBound();
    if k > 0 {
      RunWorkBound(run, k - 1);
      RunKeepsInv(run, k - 1);
      NextKeepsWorkBound(run[k - 1], run[k]);
    }
  }

  lemma StartBound()
    ensures WorkBound(START)
  {
  }

  lemma NextKeepsWorkBound(s: State, t: State)
    requires Inv(s) && WorkBound(s) && Next(s, t)
    ensures WorkBound(t)
  {
    var step :| Enabled(s, step) && t == Do(s, step);
    hide Inv, WorkBound, Enabled, Do;
    StepKeepsWorkBound(s, step);
  }

  /** In any run, whatever background work answers and whenever: in time, it leaves the binding, the
      status, the work, the books and the notices the tables say; too late, it gives up what it held. */
  lemma EveryAnswer(run: seq<State>, k: nat, id: nat, a: Answer, gate: bool, hasConfig: bool)
    requires IsRun(run) && k < |run| && Enabled(run[k], DoAnswer(id, a, gate, hasConfig))
    ensures
      var s, t, u := WithoutTask(run[k], id), run[k].tasks[id], Do(run[k], DoAnswer(id, a, gate, hasConfig));
      if TooLate(run[k], id, gate) then OnlyGivesUp(s, id, t, u, hasConfig)
      else SlotAt(s, t.path).Some? && Leaves(s, t, a, u) && Keeps(s, t, a, u)
  {
    RunWorkBound(run, k);
    OneOrTheOther(run[k], id, gate);
    hide Do, Leaves, Keeps, OnlyGivesUp, Enabled, WorkBound, InTime, TooLate;
    if TooLate(run[k], id, gate) {
      LateAnswerGivesUp(run[k], id, a, gate, hasConfig);
    } else {
      AnswerWrites(run[k], id, a, gate, hasConfig);
      AnswerKeepsBooks(run[k], id, a, gate, hasConfig);
    }
  }
}
