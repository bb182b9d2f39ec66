/**
 Where the answers of background sync work end up. Vaults move between the front
 and the parked ones, are locked and reopened, disconnected and connected anew,
 while restores, pushes, pulls, merges, publications and reconnects are under
 way; an answer may touch only the relationship that asked.
 */
module SyncRouting {
  import opened Wrappers

  type Path = nat
  type Bytes = nat

  /** `owner` is the local path in the binding's configuration. */
  datatype Binding = Binding(owner: Path, token: nat, etag: nat, uploaded: Option<nat>)

  /** Which opening of a vault, and which of its sync relationships. */
  datatype SyncSession = SyncSession(vault: nat, binding: nat)

  datatype Status =
    Disconnected | Idle | Connecting | Restoring | Syncing | Synced | Conflicted(session: SyncSession) | Failed | Reconnect

  datatype Slot = Slot(session: nat, sync: Option<Binding>, status: Status)

  datatype Request = Request(session: SyncSession, interactive: bool, bytes: Option<Bytes>)

  /** A push under way, and the latest request that came meanwhile. */
  datatype QueuedSync = QueuedSync(owner: SyncSession, pending: Option<Request>)

  datatype Front = Front(path: Path, session: nat)

  datatype Pending = Pending(path: Path, binding: Binding)

  /** A remote that has moved is decrypted, the merge committed to disk, and the
      result uploaded, each in the background. */
  datatype Kind = Restore | Push | Pull | Decrypt | Commit | Upload | Publish | Rebind

  /** By vault: the remote revision a conflict waits for the user about, the unlock cost
      to be confirmed, the newest decryption under way, and whether a poll is. */
  datatype Notices = Notices(deferred: map<Path, nat>, costs: map<Path, nat>, merging: map<Path, nat>, polling: set<Path>)

  /** Background work, and the session it was dispatched for. */
  datatype Task = Task(kind: Kind, path: Path, session: SyncSession, interactive: bool)

  datatype State = State(
    front: Option<Front>,
    sync: Option<Binding>,
    status: Status,
    parked: map<Path, Slot>,
    generations: map<Path, nat>,
    pendingSync: Option<Pending>,
    inFlight: map<Path, QueuedSync>,
    awaiting: map<Path, Request>,
    notices: Notices,
    nextSession: nat,
    tasks: map<nat, Task>,
    nextTask: nat)

  const START :=
    State(None, None, Disconnected, map[], map[], None, map[], map[], Notices(map[], map[], map[], {}), 0, map[], 0)

  // ------------------------------------------------------------------- lookups

  predicate IsActive(s: State, p: Path) { s.front.Some? && s.front.value.path == p }

  /** The slot that holds the vault at `p`, whichever it is at present. */
  function SlotAt(s: State, p: Path): Option<Slot> {
    if IsActive(s, p) then Some(Slot(s.front.value.session, s.sync, s.status))
    else if p in s.parked then Some(s.parked[p])
    else None
  }

  function GenerationOf(s: State, p: Path): nat { if p in s.generations then s.generations[p] else 0 }

  function SessionFor(s: State, p: Path): Option<SyncSession> {
    match SlotAt(s, p)
    case None => None
    case Some(slot) => Some(SyncSession(slot.session, GenerationOf(s, p)))
  }

  /** `sync_session_is_current`. */
  predicate IsCurrent(s: State, p: Path, x: SyncSession) { SessionFor(s, p) == Some(x) }

  // ----------------------------------------------------------------- routed writes

  /** A new attempt, or a good end of one. */
  predicate Settles(status: Status) { status in {Synced, Idle, Disconnected, Syncing} }

  /** What a new status makes out of date. */
  function Cleared(n: Notices, p: Path, status: Status): Notices {
    var m := if Settles(status) then n.(costs := n.costs - {p}, merging := n.merging - {p}) else n;
    if status == Failed then m else m.(deferred := m.deferred - {p})
  }

  /** `route_sync_status`. */
  function SetStatus(s: State, p: Path, status: Status): State {
    var t := s.(notices := Cleared(s.notices, p, status));
    if IsActive(s, p) then t.(status := status)
    else if p in s.parked then t.(parked := s.parked[p := s.parked[p].(status := status)])
    else t
  }

  /** `route_sync_status_for_session`. */
  function RouteStatus(s: State, p: Path, x: SyncSession, status: Status): State {
    if IsCurrent(s, p, x) then SetStatus(s, p, status) else s
  }

  function PutBinding(s: State, p: Path, b: Binding): State {
    if IsActive(s, p) then s.(sync := Some(b))
    else if p in s.parked then s.(parked := s.parked[p := s.parked[p].(sync := Some(b))])
    else s
  }

  /** `rebind_sync_for_session`. */
  function RebindSync(s: State, p: Path, x: SyncSession, b: Binding): State {
    if IsCurrent(s, p, x) then PutBinding(s, p, b) else s
  }

  /** `with_sync_binding_mut_for_session`: only where there is a binding. */
  function UpdateBinding(s: State, p: Path, x: SyncSession, change: Binding -> Binding): State {
    if IsCurrent(s, p, x) && SlotAt(s, p).value.sync.Some? then PutBinding(s, p, change(SlotAt(s, p).value.sync.value))
    else s
  }

  function WithToken(token: nat): Binding -> Binding { (b: Binding) => b.(token := token) }

  function WithBaseline(etag: nat, revision: nat): Binding -> Binding {
    (b: Binding) => b.(etag := etag, uploaded := Some(revision))
  }

  // ------------------------------------------------------------- the user's steps

  /** `park_active`. */
  function Park(s: State): State {
    match s.front
    case None => s
    case Some(f) =>
      s.(front := None, sync := None, status := Disconnected,
         parked := s.parked[f.path := Slot(f.session, s.sync, s.status)])
  }

  /** `unpark`. */
  function Unpark(s: State, p: Path): State {
    if p !in s.parked then s
    else
      var slot := s.parked[p];
      s.(front := Some(Front(p, slot.session)), sync := slot.sync, status := slot.status, parked := s.parked - {p})
  }

  /** `switch_to_unlocked`. */
  function SwitchTo(s: State, p: Path): State {
    if IsActive(s, p) || p !in s.parked then s else Unpark(Park(s), p)
  }

  /** `request_password`. */
  function RequestPassword(s: State, p: Path): State {
    if IsActive(s, p) || p in s.parked then SwitchTo(s, p)
    else Park(s.(pendingSync := if s.pendingSync.Some? && s.pendingSync.value.path != p then None else s.pendingSync))
  }

  /** `rehydrate_most_recent_park`. */
  function Rehydrate(s: State, p: Path): State {
    Unpark(s.(front := None, sync := None, status := Disconnected, pendingSync := None), p)
  }

  function NewTask(s: State, kind: Kind, p: Path, x: SyncSession, interactive: bool): State {
    s.(tasks := s.tasks[s.nextTask := Task(kind, p, x, interactive)], nextTask := s.nextTask + 1)
  }

  /** `try_restore_sync_binding` for the vault in front. */
  function TryRestore(s: State, hasConfig: bool): State {
    match s.front
    case None => s
    case Some(f) =>
      if s.sync.Some? || !hasConfig then s
      else
        NewTask(SetStatus(s, f.path, Restoring), Restore, f.path, SyncSession(f.session, GenerationOf(s, f.path)), false)
  }

  /** A password was right: `finish_open_attempt`. */
  function Opened(s: State, p: Path, hasConfig: bool): State {
    var t := s.(front := Some(Front(p, s.nextSession)), nextSession := s.nextSession + 1);
    if t.pendingSync.Some? && t.pendingSync.value.path == p then
      t.(sync := Some(t.pendingSync.value.binding), status := Idle, pendingSync := None)
    else TryRestore(t, hasConfig)
  }

  /** `end_sync_relationship`, as `disconnect_sync` calls it. */
  function EndRelationship(s: State): State {
    var t := s.(sync := None, status := Disconnected);
    match s.front
    case None => t
    case Some(f) =>
      t.(generations := t.generations[f.path := GenerationOf(s, f.path) + 1],
         notices := Notices(s.notices.deferred - {f.path}, s.notices.costs - {f.path}, s.notices.merging - {f.path},
                            s.notices.polling))
  }

  /** Every vault is locked; a lock that has to wait for saves forgets the pushes too. */
  function LockAll(s: State, waiting: bool): State {
    s.(front := None, sync := None, status := Disconnected, parked := map[], pendingSync := None, awaiting := map[],
       notices := s.notices.(deferred := map[], polling := if waiting then {} else s.notices.polling),
       inFlight := if waiting then map[] else s.inFlight)
  }

  /** A file was downloaded and bound. */
  function Connected(s: State, pending: Pending): State {
    RequestPassword(s.(pendingSync := Some(pending)), pending.path)
  }

  /** `QueuedSync::queue`. */
  function Queue(q: QueuedSync, r: Request): QueuedSync {
    if q.pending.Some? && q.pending.value.session == r.session then
      q.(pending := Some(Request(r.session, q.pending.value.interactive || r.interactive, r.bytes)))
    else q.(pending := Some(r))
  }

  /** `sync_now_for_path_inner`. */
  function SyncNow(s: State, p: Path, r: Request, hasConfig: bool): State {
    if !IsCurrent(s, p, r.session) then s
    else if p in s.inFlight then s.(inFlight := s.inFlight[p := Queue(s.inFlight[p], r)])
    else if SlotAt(s, p).value.sync.None? then
      if IsActive(s, p) then TryRestore(s.(awaiting := s.awaiting[p := r]), hasConfig) else s
    else
      var t := NewTask(s, Push, p, r.session, r.interactive);
      SetStatus(t.(inFlight := t.inFlight[p := QueuedSync(r.session, None)]), p, Syncing)
  }

  /** `start_queued_sync`. */
  function StartQueued(s: State, p: Path, pending: Option<Request>, hasConfig: bool): State {
    match pending
    case None => s
    case Some(r) => SyncNow(s, p, r, hasConfig)
  }

  predicate HasBinding(s: State, p: Path) { SlotAt(s, p).Some? && SlotAt(s, p).value.sync.Some? }

  /** `handle_remote_conflict_for`: decrypt the remote, and forget any older one. */
  function StartMerge(s: State, p: Path, x: SyncSession, interactive: bool): State {
    if IsCurrent(s, p, x) && HasBinding(s, p) then
      NewTask(s, Decrypt, p, x, interactive).(notices := s.notices.(merging := s.notices.merging[p := s.nextTask]))
    else s
  }

  /** `commit_merged_for`. A merge whose base is `stale` is not committed: the save of the
      present document that is asked for instead ends in a push of its own. */
  function CommitMerge(s: State, p: Path, x: SyncSession, stale: bool): State {
    if !IsCurrent(s, p, x) || !HasBinding(s, p) then s
    else if stale then RouteStatus(s, p, x, Syncing)
    else NewTask(RouteStatus(s, p, x, Syncing), Commit, p, x, false)
  }

  /** `apply_conflict_resolution`: the user has answered the conflict on the screen. */
  function Resolve(s: State, blocked: bool, stale: bool): State {
    if s.front.None? || !s.status.Conflicted? then s
    else
      var p, x := s.front.value.path, s.status.session;
      if !IsCurrent(s, p, x) then s
      else if blocked then RouteStatus(s, p, x, Failed)
      else CommitMerge(s, p, x, stale)
  }

  /** `take_remote_kdf_confirmation`. */
  function TakeCost(s: State): State {
    match s.front
    case None => s
    case Some(f) => s.(notices := s.notices.(costs := s.notices.costs - {f.path}))
  }

  /** The connect dialog shows its progress in the status of whatever is in front,
      and gives it back when it is closed (`unwind_connect_flow`). */
  function Unwind(s: State): State {
    if s.status != Connecting && s.status != Failed then s
    else s.(status := if s.sync.Some? then Idle else Disconnected)
  }

  /** `start_sharepoint_reconnect` without a configuration to reconnect. */
  function ReconnectFails(s: State): State { if s.front.None? then s else s.(status := Failed) }

  function StartPull(s: State, p: Path, x: SyncSession): State {
    NewTask(s, Pull, p, x, false).(notices := s.notices.(polling := s.notices.polling + {p}))
  }

  predicate Busy(status: Status) { status in {Syncing, Connecting, Restoring} || status.Conflicted? }

  /** `auto_sync_for_path`: push again after a failure, push what was never sent, or look
      whether the remote has moved. `overlay` says that the connect dialog or a conflict is on
      the screen, and `ahead` that the file differs from what was sent. */
  function Poll(s: State, p: Path, overlay: bool, throttled: bool, ahead: bool, hasConfig: bool): State {
    match SlotAt(s, p)
    case None => s
    case Some(slot) =>
      var x := SessionFor(s, p).value;
      if Busy(slot.status) || overlay || p in s.notices.polling || p in s.notices.merging then s
      else if slot.status == Failed && p !in s.notices.deferred then
        if throttled then s else SyncNow(s, p, Request(x, false, None), hasConfig)
      else if slot.sync.None? then s
      else if ahead then SyncNow(s, p, Request(x, false, None), hasConfig)
      else StartPull(s, p, x)
  }

  /** `publish_active_to_icloud`, and `finish_reconnect` after the sign-in. */
  function Start(s: State, kind: Kind, p: Path): State
    requires SessionFor(s, p).Some?
  {
    NewTask(if kind == Rebind then SetStatus(s, p, Connecting) else s, kind, p, SessionFor(s, p).value, false)
  }

  // --------------------------------------------------------------- the answers

  datatype Answer =
    | NoConfiguration                                   // restore
    | Bound(binding: Binding)                           // restore, publish, reconnect
    | Nothing                                           // publish, reconnect: overtaken; pull: try again later;
                                                        // commit: another save has to come first
    | GoneWrong(status: Status)                         // any but a decryption
    | Sent(token: nat, etag: nat, revision: nat)        // push, upload
    | Refused(token: nat)                               // push, upload: the remote has moved
    | UpToDate(token: nat)                              // pull
    | RemoteAhead(token: nat)                           // pull
    | Unreadable(cost: Option<nat>)                     // decryption: perhaps for a cost nobody allowed
    | Blocked                                           // decryption: the merge cannot be built
    | Conflicting(etag: nat, editing: bool)             // decryption: the user has to decide
    | Merged(stale: bool)                               // decryption: nothing to decide
    | FastForward(etag: nat, revision: nat)             // commit without anything to upload
    | Written                                           // commit with something to upload

  /** What background work can answer. A binding is made from the configuration
      kept for the path; what goes wrong leaves one of two states. */
  predicate CanAnswer(t: Task, a: Answer) {
    match a
    case NoConfiguration => t.kind == Restore
    case Bound(b) => (t.kind == Restore || t.kind == Publish || t.kind == Rebind) && b.owner == t.path
    case Nothing => t.kind == Publish || t.kind == Rebind || t.kind == Pull || t.kind == Commit
    case GoneWrong(status) => t.kind != Decrypt && (status == Failed || (status == Reconnect && t.kind != Commit))
    case Sent(_, _, _) => t.kind == Push || t.kind == Upload
    case Refused(_) => t.kind == Push || t.kind == Upload
    case UpToDate(_) => t.kind == Pull
    case RemoteAhead(_) => t.kind == Pull
    case Unreadable(_) => t.kind == Decrypt
    case Blocked => t.kind == Decrypt
    case Conflicting(_, _) => t.kind == Decrypt
    case Merged(_) => t.kind == Decrypt
    case FastForward(_, _) => t.kind == Commit
    case Written => t.kind == Commit
  }

  /** `take_push_awaiting_restore` and its replay. */
  function ReplayAwaiting(s: State, p: Path, hasConfig: bool): State {
    if p !in s.awaiting then s
    else SyncNow(s.(awaiting := s.awaiting - {p}), p, s.awaiting[p], hasConfig)
  }

  function RestoreAnswered(s: State, t: Task, a: Answer, hasConfig: bool): State {
    match a
    case Bound(b) =>
      if IsCurrent(s, t.path, t.session) then
        ReplayAwaiting(RouteStatus(RebindSync(s, t.path, t.session, b), t.path, t.session, Idle), t.path, hasConfig)
      else s
    case GoneWrong(status) => RouteStatus(s, t.path, t.session, status)
    case _ => RouteStatus(s, t.path, t.session, Disconnected)
  }

  /** The three writes of a successful upload. */
  function Uploaded(s: State, p: Path, x: SyncSession, token: nat, etag: nat, revision: nat): State {
    var u := UpdateBinding(s, p, x, WithToken(token));
    RouteStatus(UpdateBinding(u, p, x, WithBaseline(etag, revision)), p, x, Synced)
  }

  /** The callback of a push that still owns the vault's place in the queue. */
  function OwnPushAnswered(s: State, t: Task, pending: Option<Request>, a: Answer, hasConfig: bool): State {
    if !IsCurrent(s, t.path, t.session) then StartQueued(s, t.path, pending, hasConfig)
    else
      match a
      case Sent(token, etag, revision) =>
        StartQueued(Uploaded(s, t.path, t.session, token, etag, revision), t.path, pending, hasConfig)
      case Refused(token) =>
        var interactive := t.interactive
          || (pending.Some? && pending.value.session == t.session && pending.value.interactive);
        StartMerge(UpdateBinding(s, t.path, t.session, WithToken(token)), t.path, t.session, interactive)
      case GoneWrong(status) => RouteStatus(s, t.path, t.session, status)
      case _ => s
  }

  function PushAnswered(s: State, t: Task, a: Answer, hasConfig: bool): State {
    if t.path !in s.inFlight || s.inFlight[t.path].owner != t.session then s
    else
      OwnPushAnswered(s.(inFlight := s.inFlight - {t.path}), t, s.inFlight[t.path].pending, a, hasConfig)
  }

  function PullOver(s: State, p: Path): State { s.(notices := s.notices.(polling := s.notices.polling - {p})) }

  function PullAnswered(s: State, t: Task, a: Answer): State { PullApplied(PullOver(s, t.path), t, a) }

  /** A result counts in a resting state, and while a conflict waits for the user. */
  function PullApplied(s: State, t: Task, a: Answer): State {
    if !IsCurrent(s, t.path, t.session) || !HasBinding(s, t.path) then s
    else
      var waiting := t.path in s.notices.deferred;
      var resting := SlotAt(s, t.path).value.status in {Idle, Synced};
      match a
      case UpToDate(token) =>
        var u := UpdateBinding(s, t.path, t.session, WithToken(token));
        if resting && !waiting then RouteStatus(u, t.path, t.session, Synced) else u
      case RemoteAhead(token) =>
        var u := UpdateBinding(s, t.path, t.session, WithToken(token));
        if resting || waiting then StartMerge(u, t.path, t.session, false) else u
      case GoneWrong(Reconnect) => RouteStatus(s, t.path, t.session, Reconnect)
      case _ => s
  }

  function WithoutCost(s: State, p: Path): State { s.(notices := s.notices.(costs := s.notices.costs - {p})) }

  /** A conflict takes the screen only from a user who asked, sees the vault and edits nothing. */
  function ConflictFound(s: State, t: Task, etag: nat, editing: bool): State {
    if IsActive(s, t.path) && t.interactive && !editing then
      RouteStatus(s.(notices := s.notices.(deferred := s.notices.deferred - {t.path})), t.path, t.session, Conflicted(t.session))
    else
      RouteStatus(s.(notices := s.notices.(deferred := s.notices.deferred[t.path := etag])), t.path, t.session, Failed)
  }

  /** `continue_remote_conflict_for`. */
  function ContinueMerge(s: State, t: Task, a: Answer): State {
    match a
    case Unreadable(None) => RouteStatus(s, t.path, t.session, Failed)
    case Unreadable(Some(cost)) =>
      RouteStatus(s.(notices := s.notices.(costs := s.notices.costs[t.path := cost])), t.path, t.session, Failed)
    case Blocked => RouteStatus(WithoutCost(s, t.path), t.path, t.session, Failed)
    case Conflicting(etag, editing) => ConflictFound(WithoutCost(s, t.path), t, etag, editing)
    case Merged(stale) => CommitMerge(WithoutCost(s, t.path), t.path, t.session, stale)
    case _ => s
  }

  /** Only the newest decryption goes on, and only if there is still something to merge into. */
  function DecryptAnswered(s: State, id: nat, t: Task, a: Answer): State {
    if t.path !in s.notices.merging || s.notices.merging[t.path] != id then s
    else
      var u := s.(notices := s.notices.(merging := s.notices.merging - {t.path}));
      if !IsCurrent(s, t.path, t.session) || !HasBinding(s, t.path) then u else ContinueMerge(u, t, a)
  }

  function CommitAnswered(s: State, t: Task, a: Answer): State {
    match a
    case FastForward(etag, revision) =>
      RouteStatus(UpdateBinding(s, t.path, t.session, WithBaseline(etag, revision)), t.path, t.session, Synced)
    case Written => if IsCurrent(s, t.path, t.session) then NewTask(s, Upload, t.path, t.session, false) else s
    case GoneWrong(status) => RouteStatus(s, t.path, t.session, status)
    case _ => s
  }

  /** A third device may have written meanwhile, and the merge begins anew. */
  function UploadAnswered(s: State, t: Task, a: Answer): State {
    match a
    case Sent(token, etag, revision) => Uploaded(s, t.path, t.session, token, etag, revision)
    case Refused(token) =>
      var u := RouteStatus(UpdateBinding(s, t.path, t.session, WithToken(token)), t.path, t.session, Syncing);
      StartMerge(u, t.path, t.session, true)
    case GoneWrong(status) => RouteStatus(s, t.path, t.session, status)
    case _ => s
  }

  /** `gate`: the connect generation it was started under is still current. */
  function PublishAnswered(s: State, t: Task, a: Answer, gate: bool): State {
    if !gate then s
    else
      match a
      case Bound(b) => RouteStatus(RebindSync(s, t.path, t.session, b), t.path, t.session, Idle)
      case GoneWrong(_) => RouteStatus(s, t.path, t.session, Failed)
      case _ => s
  }

  function ReconnectAnswered(s: State, t: Task, a: Answer, gate: bool, hasConfig: bool): State {
    if !gate || !IsCurrent(s, t.path, t.session) then s
    else
      match a
      case Bound(b) =>
        var u := RouteStatus(RebindSync(s, t.path, t.session, b), t.path, t.session, Idle);
        SyncNow(u, t.path, Request(t.session, true, None), hasConfig)
      case GoneWrong(_) => RouteStatus(s, t.path, t.session, Reconnect)
      case _ => s
  }

  function Dispatched(s: State, id: nat, t: Task, a: Answer, gate: bool, hasConfig: bool): State {
    match t.kind
    case Restore => RestoreAnswered(s, t, a, hasConfig)
    case Push => PushAnswered(s, t, a, hasConfig)
    case Pull => PullAnswered(s, t, a)
    case Decrypt => DecryptAnswered(s, id, t, a)
    case Commit => CommitAnswered(s, t, a)
    case Upload => UploadAnswered(s, t, a)
    case Publish => PublishAnswered(s, t, a, gate)
    case Rebind => ReconnectAnswered(s, t, a, gate, hasConfig)
  }

  function Answered(s: State, id: nat, a: Answer, gate: bool, hasConfig: bool): State
    requires id in s.tasks
  {
    Dispatched(s.(tasks := s.tasks - {id}), id, s.tasks[id], a, gate, hasConfig)
  }

  // ---------------------------------------------------------------------- runs

  datatype Step =
    | DoSwitch(p: Path)
    | DoRequestPassword(p: Path)
    | DoRehydrate(p: Path)
    | DoOpened(p: Path, hasConfig: bool)
    | DoDisconnect
    | DoLock(waiting: bool)
    | DoConnected(pending: Pending)
    | DoRetryRestore(hasConfig: bool)
    | DoSync(p: Path, interactive: bool, bytes: Option<Bytes>, hasConfig: bool)
    | DoPoll(p: Path, overlay: bool, throttled: bool, ahead: bool, hasConfig: bool)
    | DoStart(kind: Kind, p: Path)
    | DoResolve(blocked: bool, stale: bool)
    | DoTakeCost
    | DoShowConnecting
    | DoUnwind
    | DoReconnectFails
    | DoAnswer(id: nat, answer: Answer, gate: bool, hasConfig: bool)

  /** A vault is opened, or brought back by Escape, only while none is in front; it
      is opened only if it is not parked. */
  predicate Enabled(s: State, step: Step) {
    match step
    case DoRehydrate(p) => s.front.None? && p in s.parked
    case DoOpened(p, _) => s.front.None? && p !in s.parked
    case DoConnected(pending) => pending.binding.owner == pending.path
    case DoSync(p, _, _, _) => SessionFor(s, p).Some?
    case DoStart(kind, p) => kind in {Publish, Rebind} && SessionFor(s, p).Some?
    case DoAnswer(id, a, _, _) => id in s.tasks && CanAnswer(s.tasks[id], a)
    case _ => true
  }

  function Do(s: State, step: Step): State
    requires Enabled(s, step)
  {
    match step
    case DoSwitch(p) => SwitchTo(s, p)
    case DoRequestPassword(p) => RequestPassword(s, p)
    case DoRehydrate(p) => Rehydrate(s, p)
    case DoOpened(p, hasConfig) => Opened(s, p, hasConfig)
    case DoDisconnect => EndRelationship(s)
    case DoLock(waiting) => LockAll(s, waiting)
    case DoConnected(pending) => Connected(s, pending)
    case DoRetryRestore(hasConfig) => TryRestore(s, hasConfig)
    case DoSync(p, interactive, bytes, hasConfig) =>
      SyncNow(s, p, Request(SessionFor(s, p).value, interactive, bytes), hasConfig)
    case DoPoll(p, overlay, throttled, ahead, hasConfig) => Poll(s, p, overlay, throttled, ahead, hasConfig)
    case DoStart(kind, p) => Start(s, kind, p)
    case DoResolve(blocked, stale) => Resolve(s, blocked, stale)
    case DoTakeCost => TakeCost(s)
    case DoShowConnecting => s.(status := Connecting)
    case DoUnwind => Unwind(s)
    case DoReconnectFails => ReconnectFails(s)
    case DoAnswer(id, a, gate, hasConfig) => Answered(s, id, a, gate, hasConfig)
  }

  ghost predicate Next(s: State, t: State) { exists step :: Enabled(s, step) && t == Do(s, step) }

  ghost predicate IsRun(run: seq<State>) {
    && run != [] && run[0] == START
    && forall k :: 0 <= k < |run| - 1 ==> Next(run[k], run[k + 1])
  }

  // ---------------------------------------------------- what an answer may touch

  /** Nothing but the slot and the notices of `p` is different, and the slot still holds
      the same opening and no binding of another vault. */
  ghost predicate OnlyAt(s: State, t: State, p: Path) {
    Settled(s, t) && forall q :: Stays(s, t, p, q)
  }

  /** The same vaults in the same places, at most with other bindings and statuses. */
  predicate Settled(s: State, t: State) {
    && t.front == s.front && t.parked.Keys == s.parked.Keys && t.pendingSync == s.pendingSync
    && t.generations == s.generations && t.nextSession == s.nextSession && s.nextTask <= t.nextTask
    && (s.front.None? ==> t.sync == s.sync)
  }

  /** A binding in the slot of `p` is one for `p`. */
  predicate OwnedAt(s: State, p: Path) {
    HasBinding(s, p) ==> SlotAt(s, p).value.sync.value.owner == p
  }

  predicate Stays(s: State, t: State, p: Path, q: Path) { StaysPut(s, t, p, q) && KeepsMark(s, t, q) }

  predicate StaysPut(s: State, t: State, p: Path, q: Path) {
    && SessionFor(t, q) == SessionFor(s, q)
    && (OwnedAt(s, q) ==> OwnedAt(t, q))
    && (q == p || (SlotAt(t, q) == SlotAt(s, q) && SameNotices(s.notices, t.notices, q)))
    && FreshToken(s, t, q)
  }

  function Look(m: map<Path, nat>, p: Path): Option<nat> { if p in m then Some(m[p]) else None }

  predicate SameNotices(n: Notices, m: Notices, q: Path) {
    && Look(n.deferred, q) == Look(m.deferred, q) && Look(n.costs, q) == Look(m.costs, q)
    && Look(n.merging, q) == Look(m.merging, q) && (q in n.polling <==> q in m.polling)
  }

  /** The token of a decryption under way is the one it was, or one that is newer than all. */
  predicate FreshToken(s: State, t: State, q: Path) {
    q in t.notices.merging ==>
      (q in s.notices.merging && t.notices.merging[q] == s.notices.merging[q]) || s.nextTask <= t.notices.merging[q] < t.nextTask
  }

  predicate Waits(s: State, p: Path) { p in s.notices.deferred }

  predicate Failing(s: State, p: Path) { SlotAt(s, p).Some? && SlotAt(s, p).value.status == Failed }

  /** A conflict that begins to wait does so at a bound vault and is shown as a failure; while
      it waits the binding stays, and no status but a failure comes in the place of the one there is. */
  predicate KeepsMark(s: State, t: State, q: Path) {
    Waits(t, q) ==>
      if Waits(s, q) then (HasBinding(s, q) ==> HasBinding(t, q) && (Failing(t, q) || StatusAt(t, q) == StatusAt(s, q)))
      else HasBinding(t, q) && Failing(t, q)
  }

  function StatusAt(s: State, p: Path): Option<Status> {
    match SlotAt(s, p)
    case None => None
    case Some(slot) => Some(slot.status)
  }

  ghost predicate SameBindingAt(s: State, t: State, p: Path) {
    match (SlotAt(s, p), SlotAt(t, p))
    case (Some(a), Some(b)) => a.sync == b.sync
    case (None, None) => true
    case _ => false
  }

  lemma SetStatusSlot(s: State, p: Path, status: Status, q: Path)
    ensures SlotAt(SetStatus(s, p, status), q) ==
      if q == p && SlotAt(s, p).Some? then Some(SlotAt(s, p).value.(status := status)) else SlotAt(s, q)
    ensures SetStatus(s, p, status).generations == s.generations
  {
    hide Cleared;
    if IsActive(s, p) {
    } else if p in s.parked {
    }
  }

  lemma SetStatusNotices(s: State, p: Path, status: Status)
    ensures SetStatus(s, p, status).notices == Cleared(s.notices, p, status)
    ensures SetStatus(s, p, status).nextTask == s.nextTask
  {
  }

  lemma SetStatusStays(s: State, p: Path, status: Status, q: Path)
    ensures Stays(s, SetStatus(s, p, status), p, q)
  {
    SetStatusSlot(s, p, status, q);
    SetStatusNotices(s, p, status);
    hide SetStatus, SlotAt;
  }

  lemma SetStatusSettled(s: State, p: Path, status: Status)
    ensures Settled(s, SetStatus(s, p, status))
  {
    hide Cleared;
    if p in s.parked {
      assert s.parked[p := s.parked[p].(status := status)].Keys == s.parked.Keys;
    }
  }

  lemma SetStatusOnlyAt(s: State, p: Path, status: Status)
    ensures OnlyAt(s, SetStatus(s, p, status), p) && SameBindingAt(s, SetStatus(s, p, status), p)
    ensures SlotAt(s, p).Some? ==> SlotAt(SetStatus(s, p, status), p) == Some(SlotAt(s, p).value.(status := status))
  {
    hide SetStatus, SlotAt, Settled, Stays;
    SetStatusSettled(s, p, status);
    SetStatusSlot(s, p, status, p);
    forall q ensures Stays(s, SetStatus(s, p, status), p, q) {
      SetStatusStays(s, p, status, q);
    }
  }

  lemma PutBindingSlot(s: State, p: Path, b: Binding, q: Path)
    ensures SlotAt(PutBinding(s, p, b), q) ==
      if q == p && SlotAt(s, p).Some? then Some(SlotAt(s, p).value.(sync := Some(b))) else SlotAt(s, q)
    ensures PutBinding(s, p, b).generations == s.generations
    ensures PutBinding(s, p, b).notices == s.notices && PutBinding(s, p, b).nextTask == s.nextTask
  {
  }

  lemma PutBindingStays(s: State, p: Path, b: Binding, q: Path)
    requires OwnedAt(s, p) ==> b.owner == p
    ensures Stays(s, PutBinding(s, p, b), p, q)
  {
    PutBindingSlot(s, p, b, q);
    hide PutBinding, SlotAt;
  }

  lemma PutBindingSettled(s: State, p: Path, b: Binding)
    ensures Settled(s, PutBinding(s, p, b))
  {
    if p in s.parked {
      assert s.parked[p := s.parked[p].(sync := Some(b))].Keys == s.parked.Keys;
    }
  }

  lemma PutBindingOnlyAt(s: State, p: Path, b: Binding)
    requires OwnedAt(s, p) ==> b.owner == p
    ensures OnlyAt(s, PutBinding(s, p, b), p)
    ensures SlotAt(s, p).Some? ==> SlotAt(PutBinding(s, p, b), p) == Some(SlotAt(s, p).value.(sync := Some(b)))
  {
    hide PutBinding, SlotAt, Settled, Stays, OwnedAt;
    PutBindingSettled(s, p, b);
    PutBindingSlot(s, p, b, p);
    forall q ensures Stays(s, PutBinding(s, p, b), p, q) {
      PutBindingStays(s, p, b, q);
    }
  }

  lemma OnlyAtTwice(s: State, t: State, u: State, p: Path)
    requires OnlyAt(s, t, p) && OnlyAt(t, u, p)
    ensures OnlyAt(s, u, p)
  {
    hide SlotAt, SessionFor;
    forall q ensures Stays(s, u, p, q) {
      assert Stays(s, t, p, q) && Stays(t, u, p, q);
    }
  }

  /** Bookkeeping of requests and tasks moves no vault. */
  lemma BooksOnly(s: State, t: State, p: Path)
    requires t.front == s.front && t.sync == s.sync && t.status == s.status && t.parked == s.parked
    requires t.generations == s.generations && t.nextSession == s.nextSession && t.pendingSync == s.pendingSync
    requires t.notices == s.notices && s.nextTask <= t.nextTask
    ensures OnlyAt(s, t, p) && SameBindingAt(s, t, p) && SlotAt(t, p) == SlotAt(s, p) && IsActive(t, p) == IsActive(s, p)
  {
  }

  /** Nor does a notice about `p`. */
  lemma NoticeOnly(s: State, t: State, p: Path)
    requires t == s.(notices := t.notices, tasks := t.tasks, nextTask := t.nextTask) && s.nextTask <= t.nextTask
    requires forall q :: q != p ==> SameNotices(s.notices, t.notices, q)
    requires FreshToken(s, t, p) && (Waits(t, p) ==> Waits(s, p))
    ensures OnlyAt(s, t, p) && SameBindingAt(s, t, p) && SlotAt(t, p) == SlotAt(s, p) && IsActive(t, p) == IsActive(s, p)
  {
    forall q ensures Stays(s, t, p, q) {
      assert q != p ==> SameNotices(s.notices, t.notices, q);
      assert SlotAt(t, q) == SlotAt(s, q);
    }
  }

  lemma SameBindingTwice(s: State, t: State, u: State, p: Path)
    requires SameBindingAt(s, t, p) && SameBindingAt(t, u, p)
    ensures SameBindingAt(s, u, p)
  {
  }

  lemma TryRestoreOnlyAt(s: State, p: Path, hasConfig: bool)
    requires IsActive(s, p)
    ensures OnlyAt(s, TryRestore(s, hasConfig), p) && SameBindingAt(s, TryRestore(s, hasConfig), p)
  {
    BooksOnly(s, s, p);
    if s.sync.None? && hasConfig {
      var t := SetStatus(s, p, Restoring);
      SetStatusOnlyAt(s, p, Restoring);
      BooksOnly(t, TryRestore(s, hasConfig), p);
      hide OnlyAt, SameBindingAt, SetStatus;
      OnlyAtTwice(s, t, TryRestore(s, hasConfig), p);
      SameBindingTwice(s, t, TryRestore(s, hasConfig), p);
    }
  }

  lemma PushStarted(s: State, p: Path, r: Request)
    ensures var t := NewTask(s, Push, p, r.session, r.interactive).(inFlight := s.inFlight[p := QueuedSync(r.session, None)]);
            OnlyAt(s, SetStatus(t, p, Syncing), p) && SameBindingAt(s, SetStatus(t, p, Syncing), p)
  {
    var t := NewTask(s, Push, p, r.session, r.interactive).(inFlight := s.inFlight[p := QueuedSync(r.session, None)]);
    BooksOnly(s, t, p);
    SetStatusOnlyAt(t, p, Syncing);
    hide OnlyAt, SlotAt, SetStatus;
    OnlyAtTwice(s, t, SetStatus(t, p, Syncing), p);
    SameBindingTwice(s, t, SetStatus(t, p, Syncing), p);
  }

  lemma SyncNowOnlyAt(s: State, p: Path, r: Request, hasConfig: bool)
    ensures OnlyAt(s, SyncNow(s, p, r, hasConfig), p) && SameBindingAt(s, SyncNow(s, p, r, hasConfig), p)
    ensures !IsCurrent(s, p, r.session) ==> SyncNow(s, p, r, hasConfig) == s
  {
    BooksOnly(s, s, p);
    if IsCurrent(s, p, r.session) {
      if p in s.inFlight {
        BooksOnly(s, SyncNow(s, p, r, hasConfig), p);
      } else if SlotAt(s, p).value.sync.Some? {
        PushStarted(s, p, r);
      } else if IsActive(s, p) {
        var t := s.(awaiting := s.awaiting[p := r]);
        BooksOnly(s, t, p);
        TryRestoreOnlyAt(t, p, hasConfig);
        hide OnlyAt, SameBindingAt, TryRestore;
        OnlyAtTwice(s, t, TryRestore(t, hasConfig), p);
        SameBindingTwice(s, t, TryRestore(t, hasConfig), p);
      }
    }
  }

  /** Both changes to a binding leave it the binding of its vault. */
  ghost predicate KeepsOwner(change: Binding -> Binding) { forall b :: change(b).owner == b.owner }

  lemma RoutedOnlyAt(s: State, p: Path, x: SyncSession, status: Status, b: Binding, change: Binding -> Binding)
    requires b.owner == p && KeepsOwner(change)
    ensures OnlyAt(s, RouteStatus(s, p, x, status), p) && SameBindingAt(s, RouteStatus(s, p, x, status), p)
    ensures OnlyAt(s, RebindSync(s, p, x, b), p) && OnlyAt(s, UpdateBinding(s, p, x, change), p)
    ensures !IsCurrent(s, p, x) ==>
      RouteStatus(s, p, x, status) == s && RebindSync(s, p, x, b) == s && UpdateBinding(s, p, x, change) == s
  {
    SetStatusOnlyAt(s, p, status);
    PutBindingOnlyAt(s, p, b);
    if HasBinding(s, p) {
      ChangedOnlyAt(s, p, change);
    }
  }

  lemma ChangedOnlyAt(s: State, p: Path, change: Binding -> Binding)
    requires HasBinding(s, p) && KeepsOwner(change)
    ensures OnlyAt(s, PutBinding(s, p, change(SlotAt(s, p).value.sync.value)), p)
  {
    PutBindingOnlyAt(s, p, change(SlotAt(s, p).value.sync.value));
  }

  function NoBinding(p: Path): Binding { Binding(p, 0, 0, None) }

  /** The three writes of an answer that binds: binding, status, and what follows. */
  lemma ReboundOnlyAt(s: State, p: Path, x: SyncSession, b: Binding, status: Status)
    requires b.owner == p
    ensures OnlyAt(s, RouteStatus(RebindSync(s, p, x, b), p, x, status), p)
    ensures !IsCurrent(s, p, x) ==> RouteStatus(RebindSync(s, p, x, b), p, x, status) == s
  {
    hide OnlyAt, IsCurrent, RouteStatus, RebindSync, UpdateBinding;
    var u := RebindSync(s, p, x, b);
    RoutedOnlyAt(s, p, x, status, b, WithToken(0));
    RoutedOnlyAt(u, p, x, status, b, WithToken(0));
    OnlyAtTwice(s, u, RouteStatus(u, p, x, status), p);
  }

  lemma ReplayOnlyAt(s: State, p: Path, hasConfig: bool)
    ensures OnlyAt(s, ReplayAwaiting(s, p, hasConfig), p)
  {
    BooksOnly(s, s, p);
    if p in s.awaiting {
      var t := s.(awaiting := s.awaiting - {p});
      BooksOnly(s, t, p);
      SyncNowOnlyAt(t, p, s.awaiting[p], hasConfig);
      hide OnlyAt, SyncNow;
      OnlyAtTwice(s, t, SyncNow(t, p, s.awaiting[p], hasConfig), p);
    }
  }

  lemma RestoreAnsweredOnlyAt(s: State, t: Task, a: Answer, hasConfig: bool)
    requires a.Bound? ==> a.binding.owner == t.path
    ensures OnlyAt(s, RestoreAnswered(s, t, a, hasConfig), t.path)
    ensures !IsCurrent(s, t.path, t.session) ==> RestoreAnswered(s, t, a, hasConfig) == s
  {
    hide OnlyAt, IsCurrent, RouteStatus, RebindSync, ReplayAwaiting;
    RoutedOnlyAt(s, t.path, t.session, Disconnected, NoBinding(t.path), WithToken(0));
    BooksOnly(s, s, t.path);
    match a
    case Bound(b) =>
      ReboundOnlyAt(s, t.path, t.session, b, Idle);
      var u := RouteStatus(RebindSync(s, t.path, t.session, b), t.path, t.session, Idle);
      ReplayOnlyAt(u, t.path, hasConfig);
      OnlyAtTwice(s, u, ReplayAwaiting(u, t.path, hasConfig), t.path);
    case GoneWrong(status) => RoutedOnlyAt(s, t.path, t.session, status, NoBinding(t.path), WithToken(0));
    case _ =>
  }

  lemma StartQueuedOnlyAt(s: State, p: Path, pending: Option<Request>, hasConfig: bool)
    ensures OnlyAt(s, StartQueued(s, p, pending, hasConfig), p)
    ensures SameBindingAt(s, StartQueued(s, p, pending, hasConfig), p)
  {
    if pending.Some? {
      SyncNowOnlyAt(s, p, pending.value, hasConfig);
    }
  }

  lemma UploadedOnlyAt(s: State, p: Path, x: SyncSession, token: nat, etag: nat, revision: nat)
    ensures OnlyAt(s, Uploaded(s, p, x, token, etag, revision), p)
    ensures !IsCurrent(s, p, x) ==> Uploaded(s, p, x, token, etag, revision) == s
  {
    hide OnlyAt, IsCurrent, RouteStatus, RebindSync, UpdateBinding;
    var u := UpdateBinding(s, p, x, WithToken(token));
    var v := UpdateBinding(u, p, x, WithBaseline(etag, revision));
    RoutedOnlyAt(s, p, x, Synced, NoBinding(p), WithToken(token));
    RoutedOnlyAt(u, p, x, Synced, NoBinding(p), WithBaseline(etag, revision));
    RoutedOnlyAt(v, p, x, Synced, NoBinding(p), WithToken(token));
    OnlyAtTwice(s, u, v, p);
    OnlyAtTwice(s, v, RouteStatus(v, p, x, Synced), p);
  }

  lemma OwnPushAnsweredOnlyAt(s: State, t: Task, pending: Option<Request>, a: Answer, hasConfig: bool)
    ensures OnlyAt(s, OwnPushAnswered(s, t, pending, a, hasConfig), t.path)
    ensures !IsCurrent(s, t.path, t.session) ==> SameBindingAt(s, OwnPushAnswered(s, t, pending, a, hasConfig), t.path)
  {
    hide OnlyAt, SameBindingAt, IsCurrent, RouteStatus, UpdateBinding, StartMerge, StartQueued, Uploaded;
    BooksOnly(s, s, t.path);
    if !IsCurrent(s, t.path, t.session) {
      StartQueuedOnlyAt(s, t.path, pending, hasConfig);
    } else {
      match a
      case Sent(token, etag, revision) =>
        UploadedOnlyAt(s, t.path, t.session, token, etag, revision);
        var v := Uploaded(s, t.path, t.session, token, etag, revision);
        StartQueuedOnlyAt(v, t.path, pending, hasConfig);
        OnlyAtTwice(s, v, StartQueued(v, t.path, pending, hasConfig), t.path);
      case Refused(token) =>
        RoutedOnlyAt(s, t.path, t.session, Synced, NoBinding(t.path), WithToken(token));
        var interactive := t.interactive
          || (pending.Some? && pending.value.session == t.session && pending.value.interactive);
        var u := UpdateBinding(s, t.path, t.session, WithToken(token));
        MergeStarted(u, t.path, t.session, interactive);
        OnlyAtTwice(s, u, StartMerge(u, t.path, t.session, interactive), t.path);
      case GoneWrong(status) => RoutedOnlyAt(s, t.path, t.session, status, NoBinding(t.path), WithToken(0));
      case _ =>
    }
  }

  lemma MergeStarted(s: State, p: Path, x: SyncSession, interactive: bool)
    ensures OnlyAt(s, StartMerge(s, p, x, interactive), p) && SameBindingAt(s, StartMerge(s, p, x, interactive), p)
    ensures !IsCurrent(s, p, x) ==> StartMerge(s, p, x, interactive) == s
  {
    NoticeOnly(s, StartMerge(s, p, x, interactive), p);
  }

  lemma PullOverOnlyAt(s: State, p: Path)
    ensures OnlyAt(s, PullOver(s, p), p) && SameBindingAt(s, PullOver(s, p), p)
  {
    NoticeOnly(s, PullOver(s, p), p);
  }

  lemma PullAnsweredOnlyAt(s: State, t: Task, a: Answer)
    ensures OnlyAt(s, PullAnswered(s, t, a), t.path)
    ensures !IsCurrent(s, t.path, t.session) ==>
      PullAnswered(s, t, a) == PullOver(s, t.path) && SameBindingAt(s, PullAnswered(s, t, a), t.path)
  {
    var u := PullOver(s, t.path);
    PullOverOnlyAt(s, t.path);
    SameSessionStays(s, u, t.path, t.session);
    hide OnlyAt, SameBindingAt, IsCurrent, PullApplied, PullOver;
    PullAppliedOnlyAt(u, t, a);
    OnlyAtTwice(s, u, PullApplied(u, t, a), t.path);
  }

  lemma PullAppliedOnlyAt(s: State, t: Task, a: Answer)
    ensures OnlyAt(s, PullApplied(s, t, a), t.path)
    ensures !IsCurrent(s, t.path, t.session) ==> PullApplied(s, t, a) == s
  {
    hide OnlyAt, IsCurrent, HasBinding, RouteStatus, UpdateBinding, StartMerge, SlotAt;
    RoutedOnlyAt(s, t.path, t.session, Reconnect, NoBinding(t.path), WithToken(0));
    BooksOnly(s, s, t.path);
    match a
    case UpToDate(token) =>
      var u := UpdateBinding(s, t.path, t.session, WithToken(token));
      RoutedOnlyAt(s, t.path, t.session, Synced, NoBinding(t.path), WithToken(token));
      RoutedOnlyAt(u, t.path, t.session, Synced, NoBinding(t.path), WithToken(token));
      OnlyAtTwice(s, u, RouteStatus(u, t.path, t.session, Synced), t.path);
    case RemoteAhead(token) =>
      var u := UpdateBinding(s, t.path, t.session, WithToken(token));
      RoutedOnlyAt(s, t.path, t.session, Synced, NoBinding(t.path), WithToken(token));
      MergeStarted(u, t.path, t.session, false);
      OnlyAtTwice(s, u, StartMerge(u, t.path, t.session, false), t.path);
    case _ =>
  }

  lemma CommitMergeOnlyAt(s: State, p: Path, x: SyncSession, stale: bool)
    ensures OnlyAt(s, CommitMerge(s, p, x, stale), p)
    ensures !IsCurrent(s, p, x) ==> CommitMerge(s, p, x, stale) == s
  {
    BooksOnly(s, s, p);
    hide OnlyAt, IsCurrent, RouteStatus, HasBinding;
    if IsCurrent(s, p, x) {
      var t := RouteStatus(s, p, x, Syncing);
      RoutedOnlyAt(s, p, x, Syncing, NoBinding(p), WithToken(0));
      BooksOnly(t, NewTask(t, Commit, p, x, false), p);
      OnlyAtTwice(s, t, NewTask(t, Commit, p, x, false), p);
    }
  }

  lemma WithoutCostOnlyAt(s: State, p: Path)
    ensures OnlyAt(s, WithoutCost(s, p), p)
    ensures HasBinding(s, p) ==> HasBinding(WithoutCost(s, p), p)
  {
    NoticeOnly(s, WithoutCost(s, p), p);
  }

  lemma ConflictFoundOnlyAt(s: State, t: Task, etag: nat, editing: bool)
    requires HasBinding(s, t.path) && IsCurrent(s, t.path, t.session)
    ensures OnlyAt(s, ConflictFound(s, t, etag, editing), t.path)
  {
    var p := t.path;
    if IsActive(s, p) && t.interactive && !editing {
      var u := s.(notices := s.notices.(deferred := s.notices.deferred - {p}));
      NoticeOnly(s, u, p);
      SetStatusOnlyAt(u, p, Conflicted(t.session));
      hide OnlyAt, SetStatus;
      OnlyAtTwice(s, u, ConflictFound(s, t, etag, editing), p);
    } else {
      DeferredOnlyAt(s, p, etag);
    }
  }

  lemma DeferredOnlyAt(s: State, p: Path, etag: nat)
    requires HasBinding(s, p)
    ensures OnlyAt(s, SetStatus(s.(notices := s.notices.(deferred := s.notices.deferred[p := etag])), p, Failed), p)
  {
    var u := s.(notices := s.notices.(deferred := s.notices.deferred[p := etag]));
    var v := SetStatus(u, p, Failed);
    SetStatusSettled(u, p, Failed);
    SetStatusNotices(u, p, Failed);
    forall q ensures Stays(s, v, p, q) {
      SetStatusSlot(u, p, Failed, q);
      assert SlotAt(u, q) == SlotAt(s, q);
      hide SetStatus, SlotAt;
    }
  }

  lemma UnreadableOnlyAt(s: State, t: Task, cost: Option<nat>)
    ensures OnlyAt(s, ContinueMerge(s, t, Unreadable(cost)), t.path)
  {
    var p, x := t.path, t.session;
    hide OnlyAt, IsCurrent, RouteStatus;
    RoutedOnlyAt(s, p, x, Failed, NoBinding(p), WithToken(0));
    if cost.Some? {
      var u := s.(notices := s.notices.(costs := s.notices.costs[p := cost.value]));
      CostOnlyAt(s, p, cost.value);
      RoutedOnlyAt(u, p, x, Failed, NoBinding(p), WithToken(0));
      OnlyAtTwice(s, u, RouteStatus(u, p, x, Failed), p);
    }
  }

  lemma BlockedOnlyAt(s: State, t: Task)
    ensures OnlyAt(s, ContinueMerge(s, t, Blocked), t.path)
  {
    var p, x, u := t.path, t.session, WithoutCost(s, t.path);
    hide OnlyAt, IsCurrent, RouteStatus, WithoutCost;
    WithoutCostOnlyAt(s, p);
    RoutedOnlyAt(u, p, x, Failed, NoBinding(p), WithToken(0));
    OnlyAtTwice(s, u, RouteStatus(u, p, x, Failed), p);
  }

  lemma ConflictingOnlyAt(s: State, t: Task, etag: nat, editing: bool)
    requires HasBinding(s, t.path) && IsCurrent(s, t.path, t.session)
    ensures OnlyAt(s, ContinueMerge(s, t, Conflicting(etag, editing)), t.path)
  {
    var u := WithoutCost(s, t.path);
    hide OnlyAt, IsCurrent, HasBinding, ConflictFound, WithoutCost;
    WithoutCostOnlyAt(s, t.path);
    SameSessionStays(s, u, t.path, t.session);
    ConflictFoundOnlyAt(u, t, etag, editing);
    OnlyAtTwice(s, u, ConflictFound(u, t, etag, editing), t.path);
  }

  lemma MergedOnlyAt(s: State, t: Task, stale: bool)
    ensures OnlyAt(s, ContinueMerge(s, t, Merged(stale)), t.path)
  {
    var u := WithoutCost(s, t.path);
    hide OnlyAt, IsCurrent, CommitMerge, WithoutCost;
    WithoutCostOnlyAt(s, t.path);
    CommitMergeOnlyAt(u, t.path, t.session, stale);
    OnlyAtTwice(s, u, CommitMerge(u, t.path, t.session, stale), t.path);
  }

  lemma ContinueMergeOnlyAt(s: State, t: Task, a: Answer)
    requires HasBinding(s, t.path) && IsCurrent(s, t.path, t.session)
    ensures OnlyAt(s, ContinueMerge(s, t, a), t.path)
  {
    BooksOnly(s, s, t.path);
    hide OnlyAt, IsCurrent, HasBinding;
    match a
    case Unreadable(cost) => UnreadableOnlyAt(s, t, cost);
    case Blocked => BlockedOnlyAt(s, t);
    case Conflicting(etag, editing) => ConflictingOnlyAt(s, t, etag, editing);
    case Merged(stale) => MergedOnlyAt(s, t, stale);
    case _ =>
  }

  lemma CostOnlyAt(s: State, p: Path, cost: nat)
    ensures OnlyAt(s, s.(notices := s.notices.(costs := s.notices.costs[p := cost])), p)
  {
    NoticeOnly(s, s.(notices := s.notices.(costs := s.notices.costs[p := cost])), p);
  }

  /** A token given up. */
  function WithoutToken(s: State, p: Path): State { s.(notices := s.notices.(merging := s.notices.merging - {p})) }

  lemma WithoutTokenOnlyAt(s: State, p: Path)
    ensures OnlyAt(s, WithoutToken(s, p), p) && SameBindingAt(s, WithoutToken(s, p), p)
    ensures SlotAt(WithoutToken(s, p), p) == SlotAt(s, p) && SessionFor(WithoutToken(s, p), p) == SessionFor(s, p)
  {
    NoticeOnly(s, WithoutToken(s, p), p);
  }

  lemma DecryptAnsweredOnlyAt(s: State, id: nat, t: Task, a: Answer)
    ensures OnlyAt(s, DecryptAnswered(s, id, t, a), t.path)
    ensures !IsCurrent(s, t.path, t.session) ==>
      && SameBindingAt(s, DecryptAnswered(s, id, t, a), t.path)
      && DecryptAnswered(s, id, t, a) == if Look(s.notices.merging, t.path) == Some(id) then WithoutToken(s, t.path) else s
  {
    BooksOnly(s, s, t.path);
    if Look(s.notices.merging, t.path) == Some(id) {
      var u := WithoutToken(s, t.path);
      WithoutTokenOnlyAt(s, t.path);
      if IsCurrent(s, t.path, t.session) && HasBinding(s, t.path) {
        hide OnlyAt, ContinueMerge;
        ContinueMergeOnlyAt(u, t, a);
        OnlyAtTwice(s, u, ContinueMerge(u, t, a), t.path);
      }
    }
  }

  lemma CommitAnsweredOnlyAt(s: State, t: Task, a: Answer)
    ensures OnlyAt(s, CommitAnswered(s, t, a), t.path)
    ensures !IsCurrent(s, t.path, t.session) ==> CommitAnswered(s, t, a) == s
  {
    BooksOnly(s, s, t.path);
    hide OnlyAt, IsCurrent, RouteStatus, RebindSync, UpdateBinding;
    match a
    case FastForward(etag, revision) =>
      var u := UpdateBinding(s, t.path, t.session, WithBaseline(etag, revision));
      RoutedOnlyAt(s, t.path, t.session, Synced, NoBinding(t.path), WithBaseline(etag, revision));
      RoutedOnlyAt(u, t.path, t.session, Synced, NoBinding(t.path), WithToken(0));
      OnlyAtTwice(s, u, RouteStatus(u, t.path, t.session, Synced), t.path);
    case Written => BooksOnly(s, NewTask(s, Upload, t.path, t.session, false), t.path);
    case GoneWrong(status) => RoutedOnlyAt(s, t.path, t.session, status, NoBinding(t.path), WithToken(0));
    case _ =>
  }

  lemma UploadAnsweredOnlyAt(s: State, t: Task, a: Answer)
    ensures OnlyAt(s, UploadAnswered(s, t, a), t.path)
    ensures !IsCurrent(s, t.path, t.session) ==> UploadAnswered(s, t, a) == s
  {
    var p, x := t.path, t.session;
    BooksOnly(s, s, p);
    hide OnlyAt, IsCurrent, RouteStatus, UpdateBinding, StartMerge, Uploaded;
    match a
    case Sent(token, etag, revision) => UploadedOnlyAt(s, p, x, token, etag, revision);
    case Refused(token) =>
      var u := UpdateBinding(s, p, x, WithToken(token));
      var v := RouteStatus(u, p, x, Syncing);
      RoutedOnlyAt(s, p, x, Syncing, NoBinding(p), WithToken(token));
      RoutedOnlyAt(u, p, x, Syncing, NoBinding(p), WithToken(token));
      MergeStarted(v, p, x, true);
      OnlyAtTwice(s, u, v, p);
      OnlyAtTwice(s, v, StartMerge(v, p, x, true), p);
    case GoneWrong(status) => RoutedOnlyAt(s, p, x, status, NoBinding(p), WithToken(0));
    case _ =>
  }

  lemma ConnectAnsweredOnlyAt(s: State, t: Task, a: Answer, gate: bool, hasConfig: bool)
    requires a.Bound? ==> a.binding.owner == t.path
    ensures OnlyAt(s, PublishAnswered(s, t, a, gate), t.path)
    ensures OnlyAt(s, ReconnectAnswered(s, t, a, gate, hasConfig), t.path)
    ensures !IsCurrent(s, t.path, t.session) ==>
      PublishAnswered(s, t, a, gate) == s && ReconnectAnswered(s, t, a, gate, hasConfig) == s
  {
    hide OnlyAt, IsCurrent, RouteStatus, RebindSync, SyncNow;
    BooksOnly(s, s, t.path);
    RoutedOnlyAt(s, t.path, t.session, Failed, NoBinding(t.path), WithToken(0));
    RoutedOnlyAt(s, t.path, t.session, Reconnect, NoBinding(t.path), WithToken(0));
    match a
    case Bound(b) =>
      ReboundOnlyAt(s, t.path, t.session, b, Idle);
      var u := RouteStatus(RebindSync(s, t.path, t.session, b), t.path, t.session, Idle);
      SyncNowOnlyAt(u, t.path, Request(t.session, true, None), hasConfig);
      OnlyAtTwice(s, u, SyncNow(u, t.path, Request(t.session, true, None), hasConfig), t.path);
    case _ =>
  }

  /** An answer changes only the vault it was asked for, wherever that is by now;
      and of that vault the binding only while it is the same opening and the same
      sync relationship. Apart from a push, which may set off the request queued
      behind it, a late answer changes nothing at all, except that a decryption
      hands in its token and a poll makes room for the next. */
  lemma AnswerStaysAtItsSession(s: State, id: nat, a: Answer, gate: bool, hasConfig: bool)
    requires id in s.tasks && CanAnswer(s.tasks[id], a)
    ensures OnlyAt(s, Answered(s, id, a, gate, hasConfig), s.tasks[id].path)
    ensures !IsCurrent(s, s.tasks[id].path, s.tasks[id].session) ==>
      SameBindingAt(s, Answered(s, id, a, gate, hasConfig), s.tasks[id].path)
    ensures !IsCurrent(s, s.tasks[id].path, s.tasks[id].session) && s.tasks[id].kind != Push ==>
      Answered(s, id, a, gate, hasConfig) == HandedIn(s.(tasks := s.tasks - {id}), id, s.tasks[id])
  {
    var t := s.tasks[id];
    var u := s.(tasks := s.tasks - {id});
    BooksOnly(s, u, t.path);
    hide OnlyAt, SameBindingAt, SlotAt, HandedIn;
    AnswerOnlyAt(u, id, t, a, gate, hasConfig);
    OnlyAtTwice(s, u, Answered(s, id, a, gate, hasConfig), t.path);
    if !IsCurrent(s, t.path, t.session) {
      SameBindingTwice(s, u, Answered(s, id, a, gate, hasConfig), t.path);
    }
  }

  function HandedIn(s: State, id: nat, t: Task): State {
    if t.kind == Decrypt && Look(s.notices.merging, t.path) == Some(id) then WithoutToken(s, t.path)
    else if t.kind == Pull then PullOver(s, t.path)
    else s
  }

  lemma AnswerOnlyAt(u: State, id: nat, t: Task, a: Answer, gate: bool, hasConfig: bool)
    requires CanAnswer(t, a)
    ensures var v := Dispatched(u, id, t, a, gate, hasConfig);
            && OnlyAt(u, v, t.path)
            && (!IsCurrent(u, t.path, t.session) ==> SameBindingAt(u, v, t.path) && (t.kind != Push ==> v == HandedIn(u, id, t)))
  {
    hide OnlyAt, SameBindingAt, IsCurrent, RestoreAnswered, OwnPushAnswered, PullAnswered, DecryptAnswered,
      CommitAnswered, UploadAnswered, PublishAnswered, ReconnectAnswered, WithoutToken, PullOver;
    BooksOnly(u, u, t.path);
    match t.kind
    case Restore => RestoreAnsweredOnlyAt(u, t, a, hasConfig);
    case Push => PushAnsweredOnlyAt(u, t, a, hasConfig);
    case Pull => PullAnsweredOnlyAt(u, t, a);
    case Decrypt => DecryptAnsweredOnlyAt(u, id, t, a);
    case Commit => CommitAnsweredOnlyAt(u, t, a);
    case Upload => UploadAnsweredOnlyAt(u, t, a);
    case Publish => ConnectAnsweredOnlyAt(u, t, a, gate, hasConfig);
    case Rebind => ConnectAnsweredOnlyAt(u, t, a, gate, hasConfig);
  }

  lemma PushAnsweredOnlyAt(u: State, t: Task, a: Answer, hasConfig: bool)
    ensures OnlyAt(u, PushAnswered(u, t, a, hasConfig), t.path)
    ensures !IsCurrent(u, t.path, t.session) ==> SameBindingAt(u, PushAnswered(u, t, a, hasConfig), t.path)
  {
    BooksOnly(u, u, t.path);
    hide OnlyAt, SameBindingAt, IsCurrent, OwnPushAnswered;
    if t.path in u.inFlight && u.inFlight[t.path].owner == t.session {
      var v := u.(inFlight := u.inFlight - {t.path});
      BooksOnly(u, v, t.path);
      var w := OwnPushAnswered(v, t, u.inFlight[t.path].pending, a, hasConfig);
      OwnPushAnsweredOnlyAt(v, t, u.inFlight[t.path].pending, a, hasConfig);
      OnlyAtTwice(u, v, w, t.path);
      SameSessionStays(u, v, t.path, t.session);
      if !IsCurrent(v, t.path, t.session) {
        SameBindingTwice(u, v, w, t.path);
      }
    }
  }

  lemma SameSessionStays(s: State, t: State, p: Path, x: SyncSession)
    requires OnlyAt(s, t, p)
    ensures IsCurrent(t, p, x) <==> IsCurrent(s, p, x)
  {
    assert Stays(s, t, p, p);
  }

  // ---------------------------------------------- the steps that are no answers

  lemma PollOnlyAt(s: State, p: Path, overlay: bool, throttled: bool, ahead: bool, hasConfig: bool)
    ensures OnlyAt(s, Poll(s, p, overlay, throttled, ahead, hasConfig), p)
  {
    BooksOnly(s, s, p);
    if SlotAt(s, p).Some? {
      var x := SessionFor(s, p).value;
      SyncNowOnlyAt(s, p, Request(x, false, None), hasConfig);
      NoticeOnly(s, StartPull(s, p, x), p);
    }
  }

  lemma StartOnlyAt(s: State, kind: Kind, p: Path)
    requires SessionFor(s, p).Some?
    ensures OnlyAt(s, Start(s, kind, p), p)
  {
    var t := SetStatus(s, p, Connecting);
    BooksOnly(s, NewTask(s, kind, p, SessionFor(s, p).value, false), p);
    SetStatusOnlyAt(s, p, Connecting);
    BooksOnly(t, NewTask(t, kind, p, SessionFor(s, p).value, false), p);
    hide OnlyAt, SetStatus;
    OnlyAtTwice(s, t, NewTask(t, kind, p, SessionFor(s, p).value, false), p);
  }

  lemma ResolveOnlyAt(s: State, blocked: bool, stale: bool, p: Path)
    requires s.front.Some? ==> p == s.front.value.path
    ensures OnlyAt(s, Resolve(s, blocked, stale), p)
  {
    BooksOnly(s, s, p);
    if s.front.Some? && s.status.Conflicted? {
      RoutedOnlyAt(s, p, s.status.session, Failed, NoBinding(p), WithToken(0));
      CommitMergeOnlyAt(s, p, s.status.session, stale);
    }
  }

  lemma TakeCostOnlyAt(s: State, p: Path)
    requires s.front.Some? ==> p == s.front.value.path
    ensures OnlyAt(s, TakeCost(s), p)
  {
    BooksOnly(s, s, p);
    WithoutCostOnlyAt(s, p);
  }

  lemma ReconnectFailsOnlyAt(s: State, p: Path)
    requires s.front.Some? ==> p == s.front.value.path
    ensures OnlyAt(s, ReconnectFails(s), p)
  {
    BooksOnly(s, s, p);
    if s.front.Some? {
      forall q ensures Stays(s, ReconnectFails(s), p, q) {
      }
    }
  }

  /** The connect dialog writes the status and leaves the notices alone, also where the
      status is the mark of a conflict that waits. */
  lemma DialogStays(s: State, p: Path, q: Path)
    requires s.front.Some? ==> p == s.front.value.path
    ensures StaysPut(s, s.(status := Connecting), p, q) && StaysPut(s, Unwind(s), p, q)
    ensures Settled(s, s.(status := Connecting)) && Settled(s, Unwind(s))
  {
  }
}
