/**
 The save, merge and lock protocol of `AppState`, as a transition system.

 The foreground half is single-threaded: one action is one public call or one
 completion callback. The background half is the pool of writer tasks, which
 advance between any two foreground actions. The state is abstract in one
 respect: a retained document is found by session id alone, wherever the
 program keeps it (active, parked or quarantined). `AppStateModel` gives the
 concrete fields back and proves that each method is one of these actions.
 */
module SaveProtocol {
  import opened Wrappers

  type Path = string
  type SessionId = nat
  type WriterId = nat
  type Edit = nat

  /** A database, reduced to the log of the edits it carries. */
  type Database = seq<Edit>

  ghost predicate Carries(database: Database, other: Database) {
    forall e <- other :: e in database
  }

  datatype Document = Document(database: Database, generation: nat) {
    function Mutate(e: Edit): Document { Document(database + [e], generation + 1) }
    function Replace(d: Database): Document { Document(d, generation + 1) }
  }

  datatype SaveStatus = Idle | Saving | Saved | Failed

  datatype Session = Session(path: Path, document: Document, status: SaveStatus)

  datatype Screen =
    | Welcome
    | AwaitingPassword(path: Path)
    | Opening(path: Path)
    | Open(session: SessionId)
    | LockedPendingSave
    | Error

  /** `QueuedSave`: the per-path writer slot. `writer` names the background
      task, and with it the abort handle the two share. */
  datatype Slot = Slot(owner: SessionId, pending: Option<SessionId>, syncAfter: bool, writer: WriterId)

  /** The states of `SaveAbortHandle`. */
  datatype Phase = Writing | Publishing | Published | Aborted

  /** What the background task has returned so far. */
  datatype Outcome = Running | WriteFailed | Durable | NotDurable

  datatype Kind = Plain(syncAfter: bool) | Merge(base: nat)

  datatype Writer = Writer(path: Path, session: SessionId, payload: Database,
                           kind: Kind, phase: Phase, outcome: Outcome)

  datatype OpenTask = OpenTask(path: Path, attempt: nat, read: Option<Database>)

  /** A remote answer being merged against a clone of the document taken at
      generation `generation`. It may be committed while it exists. */
  datatype MergeJob = MergeJob(path: Path, session: SessionId, base: Database, generation: nat)

  /** History only: what a session accepted, and whether the user discarded it. */
  datatype Account = Account(path: Path, edits: set<Edit>, discarded: bool)

  /** Documents, save bookkeeping and the disk. */
  datatype Store = Store(
    sessions: map<SessionId, Session>,
    unpersisted: set<SessionId>,
    slots: map<Path, Slot>,
    nextSession: SessionId,
    // background tasks and the disk
    writers: map<WriterId, Writer>,
    nextWriter: WriterId,
    merges: map<nat, MergeJob>,
    nextMerge: nat,
    disk: map<Path, Database>,
    // history
    lastPublisher: map<Path, WriterId>,
    accounts: map<SessionId, Account>)

  datatype State = State(
    screen: Screen,
    parkedOrder: seq<Path>,
    lockRequested: bool,
    openAttempt: nat,
    opens: map<nat, OpenTask>,
    nextOpen: nat,
    typingContext: nat,
    revokedContexts: set<nat>,
    store: Store)

  // ---------------------------------------------------------------- lookups

  ghost predicate Locked(s: State) { s.screen.LockedPendingSave? }

  ghost predicate RetainedAt(t: Store, path: Path, sid: SessionId) {
    sid in t.sessions && t.sessions[sid].path == path
  }

  /** `vault_session_is_current`: reachable by the user-facing lookups. */
  ghost predicate Current(s: State, path: Path, sid: SessionId) {
    !Locked(s) && RetainedAt(s.store, path, sid)
  }

  ghost predicate Occupied(t: Store, path: Path) {
    exists sid :: RetainedAt(t, path, sid)
  }

  ghost function SessionAt(t: Store, path: Path): (sid: SessionId)
    requires Occupied(t, path)
    ensures RetainedAt(t, path, sid)
  {
    var sid :| RetainedAt(t, path, sid);
    sid
  }

  ghost function DiskAt(disk: map<Path, Database>, path: Path): Database {
    if path in disk then disk[path] else []
  }

  ghost predicate HasSaveWork(t: Store) {
    t.unpersisted != {} || t.slots != map[]
  }

  ghost predicate Queued(t: Store, sid: SessionId) {
    exists p <- t.slots :: t.slots[p].owner == sid || t.slots[p].pending == Some(sid)
  }

  function Without(order: seq<Path>, path: Path): (r: seq<Path>)
    ensures forall p :: p in r <==> p in order && p != path
  {
    if order == [] then []
    else if order[0] == path then Without(order[1..], path)
    else [order[0]] + Without(order[1..], path)
  }

  // ----------------------------------------------------- steps on the store

  ghost function SetStatus(t: Store, path: Path, sid: SessionId, status: SaveStatus): Store {
    if RetainedAt(t, path, sid) then
      t.(sessions := t.sessions[sid := t.sessions[sid].(status := status)])
    else
      t
  }

  ghost function SetDocument(t: Store, sid: SessionId, document: Document): Store
    requires sid in t.sessions
  {
    t.(sessions := t.sessions[sid := t.sessions[sid].(document := document)])
  }

  /** While a lock waits every retained session is quarantined, and
      persisting a quarantined session drops its document. */
  ghost function MarkPersisted(t: Store, sid: SessionId, locked: bool): Store {
    t.(unpersisted := t.unpersisted - {sid},
       sessions := if locked then t.sessions - {sid} else t.sessions)
  }

  /** Mark `sid` unpersisted and show it as saving. */
  ghost function AnnounceSave(t: Store, sid: SessionId): Store
    requires sid in t.sessions
  {
    t.(unpersisted := t.unpersisted + {sid},
       sessions := t.sessions[sid := t.sessions[sid].(status := Saving)])
  }

  /** Take the free slot of `sid`'s path and start a writer for `payload`. */
  ghost function StartWriter(t: Store, sid: SessionId, payload: Database, kind: Kind): Store
    requires sid in t.sessions
  {
    var path := t.sessions[sid].path;
    AnnounceSave(t, sid).(
      slots := t.slots[path := Slot(sid, None, false, t.nextWriter)],
      writers := t.writers[t.nextWriter := Writer(path, sid, payload, kind, Writing, Running)],
      nextWriter := t.nextWriter + 1)
  }

  /** Leave a request with the slot that is already writing. */
  ghost function QueueBehind(t: Store, sid: SessionId, syncAfter: bool): Store
    requires sid in t.sessions && t.sessions[sid].path in t.slots
  {
    var path := t.sessions[sid].path;
    var slot := t.slots[path];
    AnnounceSave(t, sid).(
      slots := t.slots[path := slot.(pending := Some(sid), syncAfter := slot.syncAfter || syncAfter)])
  }

  /** `request_save_for_session`. */
  ghost function RequestSave(t: Store, path: Path, sid: SessionId, syncAfter: bool): Store {
    if !RetainedAt(t, path, sid) then t
    else if path in t.slots then QueueBehind(t, sid, syncAfter)
    else StartWriter(t, sid, t.sessions[sid].document.database, Plain(syncAfter))
  }

  /** The sessions `retry_unpersisted_vault_saves` requests a save for. The
      program visits a hash set, so any enumeration of it is possible. */
  ghost predicate IsRetryOrder(t: Store, order: seq<SessionId>) {
    && (forall sid :: sid in order <==> sid in t.unpersisted && sid in t.sessions && !Queued(t, sid))
    && (forall i, j :: 0 <= i < j < |order| ==> order[i] != order[j])
  }

  ghost function RetryAll(t: Store, order: seq<SessionId>): Store
    decreases |order|
  {
    if order == [] then t
    else if order[0] in t.sessions then
      RetryAll(RequestSave(t, t.sessions[order[0]].path, order[0], false), order[1..])
    else
      RetryAll(t, order[1..])
  }

  /** The sessions a deferred lock keeps: those that still need a writer. */
  ghost function Quarantined(t: Store): Store {
    t.(sessions := map sid | sid in t.sessions && (sid in t.unpersisted || Queued(t, sid)) :: t.sessions[sid])
  }

  ghost predicate IsSlotWriter(t: Store, w: WriterId) {
    exists p <- t.slots :: t.slots[p].writer == w
  }

  function TryAbort(phase: Phase): Phase {
    if phase == Writing then Aborted else phase
  }

  ghost predicate AnyPublicationStarted(t: Store) {
    exists p <- t.slots :: t.slots[p].writer in t.writers && t.writers[t.slots[p].writer].phase in {Publishing, Published}
  }

  ghost function AbortSlots(t: Store): Store {
    t.(writers := map w | w in t.writers ::
                    if IsSlotWriter(t, w) then t.writers[w].(phase := TryAbort(t.writers[w].phase)) else t.writers[w])
  }

  /** Everything retained is given up, and the history records it. */
  ghost function WriteOff(t: Store): Store {
    t.(accounts := map sid | sid in t.accounts ::
                     if sid in t.sessions then t.accounts[sid].(discarded := true) else t.accounts[sid],
       sessions := map[], unpersisted := {}, slots := map[])
  }

  /** The document is exactly the one the merge was computed against. */
  ghost predicate AtBase(t: Store, path: Path, sid: SessionId, base: nat) {
    RetainedAt(t, path, sid) && t.sessions[sid].document.generation == base
  }

  ghost function Install(t: Store, sid: SessionId, database: Database): Store
    requires sid in t.sessions
  {
    SetDocument(t, sid, t.sessions[sid].document.Replace(database))
  }

  // ----------------------------------------------------- small steps up front

  ghost function Rotate(s: State): State {
    s.(typingContext := s.typingContext + 1,
       revokedContexts := s.revokedContexts + {s.typingContext})
  }

  ghost function ParkActive(s: State): State {
    if s.screen.Open? && s.screen.session in s.store.sessions then
      var path := s.store.sessions[s.screen.session].path;
      s.(screen := Welcome, parkedOrder := Without(s.parkedOrder, path) + [path])
    else
      s
  }

  ghost function Unpark(s: State, sid: SessionId): State
    requires sid in s.store.sessions
  {
    s.(screen := Open(sid), parkedOrder := Without(s.parkedOrder, s.store.sessions[sid].path))
  }

  ghost function LockNow(s: State): State {
    Rotate(s).(screen := Welcome, parkedOrder := [], lockRequested := false,
               store := s.store.(sessions := map[]))
  }

  ghost function FinishLock(s: State): State {
    if !s.lockRequested || HasSaveWork(s.store) then s else LockNow(s)
  }

  /** `quarantine_sessions_for_deferred_lock`, once the lock is requested. */
  ghost function RequestLock(s: State): State {
    if Locked(s) then s.(lockRequested := true)
    else
      Rotate(s).(screen := LockedPendingSave, parkedOrder := [], lockRequested := true,
                 store := Quarantined(s.store))
  }

  // ------------------------------------------------------ foreground actions

  /** `switch_to_unlocked`, when it reports the path as handled. */
  ghost function Switch(s: State, path: Path): State
    requires Occupied(s.store, path)
  {
    var sid := SessionAt(s.store, path);
    if s.screen == Open(sid) then s
    else Unpark(ParkActive(Rotate(s)), sid)
  }

  ghost function SwitchTo(s: State, path: Path): State {
    if Locked(s) || !Occupied(s.store, path) then s else Switch(s, path)
  }

  ghost function RequestPassword(s: State, path: Path): State {
    if Locked(s) then s
    else if Occupied(s.store, path) then Switch(s, path)
    else ParkActive(Rotate(s)).(screen := AwaitingPassword(path))
  }

  /** `rehydrate_most_recent_park`; its callers run it only when no vault is open. */
  ghost function Rehydrate(s: State): State {
    if s.parkedOrder == [] || !Occupied(s.store, s.parkedOrder[|s.parkedOrder| - 1]) then s
    else Unpark(Rotate(s), SessionAt(s.store, s.parkedOrder[|s.parkedOrder| - 1]))
  }

  ghost function BeginOpen(s: State, path: Path): State {
    if Locked(s) then s
    else if Occupied(s.store, path) then Switch(s, path)
    else ParkActive(Rotate(s)).(screen := Opening(path), openAttempt := s.openAttempt + 1)
  }

  /** The shell starts the background open right after `begin_open`, stamped
      with the newest attempt, whether or not `begin_open` changed anything. */
  ghost function SubmitPassword(s: State, path: Path): State {
    var t := BeginOpen(s, path);
    t.(opens := t.opens[t.nextOpen := OpenTask(path, t.openAttempt, None)], nextOpen := t.nextOpen + 1)
  }

  /** `finish_open_attempt` with a document read from disk. */
  ghost function OpenDocument(s: State, path: Path, d: Database): State {
    var t := s.store;
    Rotate(s).(screen := Open(t.nextSession),
               store := t.(sessions := t.sessions[t.nextSession := Session(path, Document(d, 0), Idle)],
                           accounts := t.accounts[t.nextSession := Account(path, {}, false)],
                           nextSession := t.nextSession + 1))
  }

  ghost predicate OpenAttemptIsCurrent(s: State, path: Path, attempt: nat) {
    attempt == s.openAttempt && s.screen == Opening(path)
  }

  ghost function FinishOpen(s: State, id: nat, decrypted: bool): State
    requires id in s.opens
  {
    var task := s.opens[id];
    var t := s.(opens := s.opens - {id});
    if !OpenAttemptIsCurrent(s, task.path, task.attempt) then t
    else if decrypted && task.read.Some? then OpenDocument(t, task.path, task.read.value)
    else Rotate(t).(screen := AwaitingPassword(task.path))
  }

  ghost function FailSelection(s: State): State {
    if s.screen.Open? || Locked(s) then s else Rotate(s).(screen := Error)
  }

  ghost function ApplyEdit(t: Store, sid: SessionId, e: Edit): Store
    requires sid in t.sessions && sid in t.accounts
  {
    SetDocument(t, sid, t.sessions[sid].document.Mutate(e)).(
      accounts := t.accounts[sid := t.accounts[sid].(edits := t.accounts[sid].edits + {e})])
  }

  /** Every entry and group mutation: change the open document, then `save_async`. */
  ghost function EditOpen(s: State, e: Edit, syncAfter: bool): State {
    if s.screen.Open? && s.screen.session in s.store.sessions && s.screen.session in s.store.accounts then
      var sid := s.screen.session;
      s.(store := RequestSave(ApplyEdit(s.store, sid, e), s.store.sessions[sid].path, sid, syncAfter))
    else
      s
  }

  ghost function SaveAsync(s: State, syncAfter: bool, order: seq<SessionId>): State {
    if Locked(s) then s.(store := RetryAll(s.store, order))
    else if s.screen.Open? && s.screen.session in s.store.sessions then
      s.(store := RequestSave(s.store, s.store.sessions[s.screen.session].path, s.screen.session, syncAfter))
    else s
  }

  ghost function LockVault(s: State, order: seq<SessionId>): State {
    if HasSaveWork(s.store) then
      var t := RequestLock(s);
      t.(store := RetryAll(t.store, order))
    else
      LockNow(s)
  }

  ghost predicate DiscardGateOpen(s: State, stuck: bool) {
    && Locked(s)
    && (stuck || (s.store.slots == map[] && exists sid <- s.store.sessions :: s.store.sessions[sid].status.Failed?))
  }

  ghost predicate DiscardSucceeds(s: State, stuck: bool) {
    DiscardGateOpen(s, stuck) && !AnyPublicationStarted(s.store)
  }

  /** `discard_deferred_saves_and_lock_now`. */
  ghost function Discard(s: State, stuck: bool): State {
    if !DiscardGateOpen(s, stuck) then s
    else if AnyPublicationStarted(s.store) then s.(store := AbortSlots(s.store))
    else LockNow(s.(store := WriteOff(AbortSlots(s.store))))
  }

  /** `handle_remote_conflict_for`: clone the document as the merge base. */
  ghost function StartMerge(s: State, path: Path, bound: bool): State {
    if Locked(s) || !bound || !Occupied(s.store, path) then s
    else
      var t := s.store;
      var sid := SessionAt(t, path);
      var document := t.sessions[sid].document;
      s.(store := t.(merges := t.merges[t.nextMerge := MergeJob(path, sid, document.database, document.generation)],
                     nextMerge := t.nextMerge + 1))
  }

  /** `commit_merged_for`, up to spawning the merge save. `bound` says whether
      the sync relationship the merge belongs to still stands. */
  ghost function CommitMerged(s: State, path: Path, sid: SessionId, merged: Database, base: nat, bound: bool): State {
    if !bound || !Current(s, path, sid) then s
    else if !AtBase(s.store, path, sid, base) || path in s.store.slots then
      s.(store := RequestSave(s.store, path, sid, true))
    else
      s.(store := StartWriter(s.store, sid, merged, Merge(base)))
  }

  // ------------------------------------------------------ completion callbacks

  ghost function AfterWriter(s: State, path: Path, sid: SessionId, durable: bool,
                             pending: Option<SessionId>, syncAfter: bool): State {
    var settled := if durable && pending != Some(sid) then s.(store := MarkPersisted(s.store, sid, Locked(s))) else s;
    if pending.Some? then settled.(store := RequestSave(settled.store, path, pending.value, syncAfter))
    else if durable then FinishLock(settled)
    else settled
  }

  ghost function StatusAfter(outcome: Outcome): SaveStatus {
    if outcome.Durable? then Saved else Failed
  }

  /** The callback of an ordinary save; its slot has been released in `s`. */
  ghost function PlainDone(s: State, w: Writer, slot: Slot): State
    requires w.kind.Plain?
  {
    AfterWriter(s.(store := SetStatus(s.store, w.path, w.session, StatusAfter(w.outcome))),
                w.path, w.session, w.outcome.Durable?, slot.pending, slot.syncAfter || w.kind.syncAfter)
  }

  /** The callback of a merge save; its slot has been released in `s`. */
  ghost function MergeDone(s: State, w: Writer, slot: Slot): State
    requires w.kind.Merge?
  {
    var t := s.store;
    if w.outcome.WriteFailed? then
      var kept := if slot.pending.None? && Locked(s) && AtBase(t, w.path, w.session, w.kind.base)
                  then Install(t, w.session, w.payload) else t;
      AfterWriter(s.(store := SetStatus(kept, w.path, w.session, Failed)),
                  w.path, w.session, false, slot.pending, true)
    else if !AtBase(t, w.path, w.session, w.kind.base) then
      var saved := RequestSave(t, w.path, w.session, true);
      if slot.pending.Some? && slot.pending.value != w.session
      then s.(store := RequestSave(saved, w.path, slot.pending.value, true))
      else s.(store := saved)
    else
      AfterWriter(s.(store := SetStatus(Install(t, w.session, w.payload), w.path, w.session, StatusAfter(w.outcome))),
                  w.path, w.session, w.outcome.Durable?, slot.pending, true)
  }

  ghost predicate Finished(t: Store, w: WriterId) {
    w in t.writers && !t.writers[w].outcome.Running?
  }

  ghost function Callback(s: State, id: WriterId): State
    requires Finished(s.store, id)
  {
    var w := s.store.writers[id];
    var t := s.store.(writers := s.store.writers - {id});
    if w.path !in t.slots || t.slots[w.path].owner != w.session then
      s.(store := t)
    else
      var released := s.(store := t.(slots := t.slots - {w.path}));
      if w.kind.Plain? then PlainDone(released, w, t.slots[w.path]) else MergeDone(released, w, t.slots[w.path])
  }

  // ------------------------------------------------------ background steps

  ghost predicate InPhase(t: Store, w: WriterId, phases: set<Phase>) {
    w in t.writers && t.writers[w].outcome.Running? && t.writers[w].phase in phases
  }

  ghost function SetWriter(t: Store, w: WriterId, phase: Phase, outcome: Outcome): Store
    requires w in t.writers
  {
    t.(writers := t.writers[w := t.writers[w].(phase := phase, outcome := outcome)])
  }

  ghost function Publish(t: Store, w: WriterId): Store
    requires w in t.writers
  {
    SetWriter(t, w, Published, Running).(
      disk := t.disk[t.writers[w].path := t.writers[w].payload],
      lastPublisher := t.lastPublisher[t.writers[w].path := w])
  }

  // --------------------------------------------------------------- run steps

  datatype Action =
    // foreground
    | SwitchToA(path: Path)
    | RequestPasswordA(path: Path)
    | RehydrateA
    | SubmitPasswordA(path: Path)
    | FinishOpenA(task: nat, decrypted: bool)
    | FailSelectionA
    | EditA(edit: Edit, syncAfter: bool)
    | SaveA(syncAfter: bool, order: seq<SessionId>)
    | LockA(order: seq<SessionId>)
    | DiscardA(stuck: bool)
    | StartMergeA(path: Path, bound: bool)
    | CommitMergeA(job: nat, merged: Database, bound: bool)
    | CallbackA(writer: WriterId)
    // background
    | ReadVaultA(task: nat)
    | DropMergeA(job: nat)
    | FailA(writer: WriterId)
    | ClaimA(writer: WriterId)
    | PublishA(writer: WriterId)
    | RenameFailedA(writer: WriterId)
    | SyncDirectoryA(writer: WriterId, durable: bool)

  ghost predicate Enabled(s: State, a: Action) {
    match a
    case RehydrateA => !s.screen.Open?
    case FinishOpenA(t, _) => t in s.opens
    case SaveA(_, order) => Locked(s) ==> IsRetryOrder(s.store, order)
    case LockA(order) => HasSaveWork(s.store) ==> IsRetryOrder(RequestLock(s).store, order)
    // `apply_picks` is opaque, except that a merge keeps what its local side carries
    case CommitMergeA(j, merged, _) => j in s.store.merges && Carries(merged, s.store.merges[j].base)
    case CallbackA(w) => Finished(s.store, w)
    case ReadVaultA(t) => t in s.opens && s.opens[t].read.None?
    case DropMergeA(j) => j in s.store.merges
    case FailA(w) => InPhase(s.store, w, {Writing, Aborted})
    case ClaimA(w) => InPhase(s.store, w, {Writing})
    case PublishA(w) => InPhase(s.store, w, {Publishing})
    case RenameFailedA(w) => InPhase(s.store, w, {Publishing})
    case SyncDirectoryA(w, _) => InPhase(s.store, w, {Published})
    case _ => true
  }

  ghost function Next(s: State, a: Action): State
    requires Enabled(s, a)
  {
    match a
    case SwitchToA(path) => SwitchTo(s, path)
    case RequestPasswordA(path) => RequestPassword(s, path)
    case RehydrateA => Rehydrate(s)
    case SubmitPasswordA(path) => SubmitPassword(s, path)
    case FinishOpenA(t, decrypted) => FinishOpen(s, t, decrypted)
    case FailSelectionA => FailSelection(s)
    case EditA(e, syncAfter) => EditOpen(s, e, syncAfter)
    case SaveA(syncAfter, order) => SaveAsync(s, syncAfter, order)
    case LockA(order) => LockVault(s, order)
    case DiscardA(stuck) => Discard(s, stuck)
    case StartMergeA(path, bound) => StartMerge(s, path, bound)
    case CommitMergeA(j, merged, bound) =>
      var job := s.store.merges[j];
      CommitMerged(s, job.path, job.session, merged, job.generation, bound)
    case CallbackA(w) => Callback(s, w)
    case ReadVaultA(t) => s.(opens := s.opens[t := s.opens[t].(read := Some(DiskAt(s.store.disk, s.opens[t].path)))])
    case DropMergeA(j) => s.(store := s.store.(merges := s.store.merges - {j}))
    case FailA(w) => s.(store := SetWriter(s.store, w, s.store.writers[w].phase, WriteFailed))
    case ClaimA(w) => s.(store := SetWriter(s.store, w, Publishing, Running))
    case PublishA(w) => s.(store := Publish(s.store, w))
    case RenameFailedA(w) => s.(store := SetWriter(s.store, w, Publishing, WriteFailed))
    case SyncDirectoryA(w, durable) => s.(store := SetWriter(s.store, w, Published, if durable then Durable else NotDurable))
  }

  ghost predicate InitStore(t: Store) {
    && t.sessions == map[] && t.unpersisted == {} && t.slots == map[]
    && t.writers == map[] && t.merges == map[]
    && t.lastPublisher == map[] && t.accounts == map[]
  }

  ghost predicate Init(s: State) {
    && s.screen == Welcome && s.parkedOrder == [] && !s.lockRequested
    && s.opens == map[] && s.revokedContexts == {} && InitStore(s.store)
  }

  /** A finite run of any length: states, and the actions between them. */
  ghost predicate IsRun(states: seq<State>, actions: seq<Action>) {
    && |states| == |actions| + 1
    && Init(states[0])
    && forall i :: 0 <= i < |actions| ==> Enabled(states[i], actions[i]) && states[i + 1] == Next(states[i], actions[i])
  }

  /** A step of a background task, between any two calls of the program. */
  predicate Background(a: Action) {
    a.ReadVaultA? || a.DropMergeA? || a.FailA? || a.ClaimA? || a.PublishA? || a.RenameFailedA? || a.SyncDirectoryA?
  }

  /** A program just started over `disk`. */
  ghost function Fresh(disk: map<Path, Database>): (s: State)
    ensures Init(s)
  {
    State(Welcome, [], false, 0, map[], 0, 0, {}, Store(map[], {}, map[], 1, map[], 0, map[], 0, disk, map[], map[]))
  }

  datatype History = History(states: seq<State>, actions: seq<Action>)

  /** A run as one value. */
  type Run = h: History | IsRun(h.states, h.actions) ghost witness History([Fresh(map[])], [])

  ghost function Present(run: Run): State {
    run.states[|run.actions|]
  }

  ghost function Then(run: Run, a: Action): (longer: Run)
    requires Enabled(Present(run), a)
    ensures Present(longer) == Next(Present(run), a)
  {
    History(run.states + [Next(Present(run), a)], run.actions + [a])
  }
}
