/**
 What every step of the save protocol keeps.

 The invariant of the store is stated session by session: `LocalOk` speaks of
 one session, its slot and its writer, and `Frame` says that a step touched one
 session only. `StoreOk(t, x)` excuses session `x` from the three clauses an
 operation on `x` breaks half way: being equal to the disk when clean, being
 equal to its writer's payload, and being `Failed` when dirty without a writer.
 */
module SaveInvariant {
  import opened Wrappers
  import opened SaveProtocol

  // ------------------------------------------------- the clauses on the store

  /** One session and everything the protocol keeps for it. */
  datatype Local = Local(session: Session, dirty: bool, slot: Option<Slot>, writer: Option<Writer>,
                         disk: Database, lastPublisher: Option<WriterId>, edits: set<Edit>)

  ghost function Look(t: Store, sid: SessionId): Local
    requires sid in t.sessions
  {
    var path := t.sessions[sid].path;
    Local(t.sessions[sid],
          sid in t.unpersisted,
          if path in t.slots then Some(t.slots[path]) else None,
          if path in t.slots && t.slots[path].writer in t.writers then Some(t.writers[t.slots[path].writer]) else None,
          DiskAt(t.disk, path),
          if path in t.lastPublisher then Some(t.lastPublisher[path]) else None,
          if sid in t.accounts then t.accounts[sid].edits else {})
  }

  /** A slot's owner stays unpersisted, and what waits behind it is the owner itself. */
  ghost predicate SlotOk(v: Local, sid: SessionId) {
    v.slot.Some? ==>
      && v.dirty
      && v.slot.value.owner == sid
      && (v.slot.value.pending.None? || v.slot.value.pending == Some(sid))
      && v.writer.Some?
      && v.writer.value.path == v.session.path
      && v.writer.value.session == sid
  }

  ghost predicate PublishedOk(v: Local)
    requires v.slot.Some? && v.writer.Some?
  {
    var writer := v.writer.value;
    && (writer.phase.Published? ==> v.disk == writer.payload)
    && (writer.outcome.Durable? || writer.outcome.NotDurable? ==> writer.phase.Published?)
    && (!writer.phase.Published? && v.lastPublisher.Some? ==> v.lastPublisher.value < v.slot.value.writer)
  }

  /** An owner with nothing queued equals its writer's payload, or is its merge's base. */
  ghost predicate FreshOk(v: Local, excused: bool)
    requires v.slot.Some? && v.writer.Some?
  {
    var document := v.session.document;
    var latest := v.slot.value.pending.None? && !excused;
    match v.writer.value.kind
    case Plain(_) => latest ==> v.writer.value.payload == document.database
    case Merge(base) =>
      && base <= document.generation
      && (latest ==> document.generation == base)
      && (document.generation == base ==> Carries(v.writer.value.payload, document.database))
  }

  ghost predicate LocalOk(v: Local, sid: SessionId, excused: bool) {
    && SlotOk(v, sid)
    && (v.slot.Some? ==> PublishedOk(v) && FreshOk(v, excused))
    // a session that is not marked unpersisted equals the disk
    && (!v.dirty && !excused ==> v.disk == v.session.document.database)
    // a dirty session without a writer shows a failed save
    && (v.dirty && !excused && v.slot.None? ==> v.session.status.Failed?)
    && (forall e <- v.edits :: e in v.session.document.database)
  }

  ghost predicate LocalsOk(t: Store, x: Option<SessionId>) {
    forall sid <- t.sessions :: LocalOk(Look(t, sid), sid, x == Some(sid))
  }

  ghost predicate HoldsSlot(t: Store, w: WriterId)
    requires w in t.writers
  {
    t.writers[w].path in t.slots && t.slots[t.writers[w].path].writer == w
  }

  /** A writer without its slot is aborted, and its session is gone. */
  ghost predicate WriterOk(t: Store, w: WriterId)
    requires w in t.writers
  {
    HoldsSlot(t, w) ||
    (t.writers[w].phase.Aborted? && t.writers[w].session !in t.sessions &&
     (t.writers[w].outcome.Running? || t.writers[w].outcome.WriteFailed?))
  }

  ghost predicate ShapeOk(t: Store) {
    && (forall sid <- t.sessions :: sid in t.accounts && t.accounts[sid].path == t.sessions[sid].path
                                    && !t.accounts[sid].discarded)
    && (forall sid <- t.accounts :: sid < t.nextSession)
    && (forall w <- t.writers :: w < t.nextWriter && t.writers[w].session < t.nextSession)
    && (forall p <- t.lastPublisher :: t.lastPublisher[p] < t.nextWriter)
    && (forall a <- t.sessions, b <- t.sessions :: t.sessions[a].path == t.sessions[b].path ==> a == b)
    && t.unpersisted <= t.sessions.Keys
    && (forall p <- t.slots :: RetainedAt(t, p, t.slots[p].owner))
    && (forall w <- t.writers :: WriterOk(t, w))
  }

  /** `database` carries every edit accepted at `p` by a session that is gone
      and was not discarded. */
  ghost predicate Pays(t: Store, p: Path, database: Database) {
    PaysAll(t.accounts, t.sessions.Keys, p, database)
  }

  ghost predicate PaysAll(accounts: map<SessionId, Account>, kept: set<SessionId>, p: Path, database: Database) {
    forall d <- accounts :: accounts[d].path == p && d !in kept && !accounts[d].discarded ==>
      forall e <- accounts[d].edits :: e in database
  }

  ghost predicate SessionPays(t: Store, sid: SessionId)
    requires sid in t.sessions
  {
    var v := Look(t, sid);
    && Pays(t, v.session.path, v.session.document.database)
    && (v.writer.Some? ==> Pays(t, v.session.path, v.writer.value.payload))
  }

  ghost predicate SettledOk(t: Store) {
    && (forall p :: Pays(t, p, DiskAt(t.disk, p)))
    && (forall sid <- t.sessions :: SessionPays(t, sid))
  }

  ghost predicate MergeOk(t: Store, j: nat)
    requires j in t.merges
  {
    var job := t.merges[j];
    && j < t.nextMerge
    && job.session < t.nextSession
    && (RetainedAt(t, job.path, job.session) ==>
          var document := t.sessions[job.session].document;
          && job.generation <= document.generation
          && (job.generation == document.generation ==> job.base == document.database)
          && Pays(t, job.path, job.base))
  }

  ghost predicate MergesOk(t: Store) {
    forall j <- t.merges :: MergeOk(t, j)
  }

  ghost predicate StoreOk(t: Store, x: Option<SessionId>) {
    ShapeOk(t) && LocalsOk(t, x) && SettledOk(t) && MergesOk(t)
  }

  // ------------------------------------------------- the clauses on the front

  ghost predicate ScreenOk(s: State) {
    && (s.screen.Open? ==> s.screen.session in s.store.sessions)
    && (s.screen.Opening? ==> !Occupied(s.store, s.screen.path))
    && (s.lockRequested <==> Locked(s))
    && (Locked(s) ==> s.store.sessions.Keys <= s.store.unpersisted)
    && (forall c <- s.revokedContexts :: c < s.typingContext)
  }

  /** `parked_order` lists the retained paths that are not on screen. */
  ghost predicate OrderOk(s: State) {
    if Locked(s) then s.parkedOrder == []
    else
      && (forall p <- s.parkedOrder :: exists sid :: RetainedAt(s.store, p, sid) && s.screen != Open(sid))
      && (forall sid <- s.store.sessions :: s.screen != Open(sid) ==> s.store.sessions[sid].path in s.parkedOrder)
  }

  /** What the current open attempt has read is still what the disk holds. */
  ghost predicate OpensOk(s: State) {
    && (forall t <- s.opens ::
          && t < s.nextOpen
          && s.opens[t].attempt <= s.openAttempt
          && (OpenAttemptIsCurrent(s, s.opens[t].path, s.opens[t].attempt) && s.opens[t].read.Some? ==>
                s.opens[t].read.value == DiskAt(s.store.disk, s.opens[t].path)))
  }

  ghost predicate FrontOk(s: State) {
    ScreenOk(s) && OrderOk(s) && OpensOk(s)
  }

  /** A lock that waits has something to wait for. */
  ghost predicate Inv(s: State) {
    && StoreOk(s.store, None)
    && FrontOk(s)
    && (Locked(s) ==> s.store.unpersisted != {})
  }

  lemma InitInv(s: State)
    requires Init(s)
    ensures Inv(s)
  {
  }

  /** The same sessions at the same paths. */
  ghost predicate SamePlaces(t: Store, u: Store) {
    && t.sessions.Keys == u.sessions.Keys
    && forall sid <- t.sessions :: t.sessions[sid].path == u.sessions[sid].path
  }

  /** Moving documents and bookkeeping about, at the same paths, leaves the front alone. */
  lemma FrontFrame(s: State, u: Store)
    requires FrontOk(s)
    requires SamePlaces(s.store, u) && u.disk == s.store.disk
    requires Locked(s) ==> u.sessions.Keys <= u.unpersisted
    ensures FrontOk(s.(store := u))
  {
  }

  // ------------------------------------------------- navigating between vaults

  lemma RotateFront(s: State)
    requires FrontOk(s)
    ensures FrontOk(Rotate(s))
  {
  }

  lemma ParkFront(s: State)
    requires FrontOk(s) && !Locked(s) && ShapeOk(s.store)
    ensures FrontOk(ParkActive(s))
    ensures var u := ParkActive(s); !u.screen.Open? && !Locked(u) && u.store == s.store && u.openAttempt == s.openAttempt
  {
  }

  lemma UnparkFront(s: State, sid: SessionId)
    requires FrontOk(s) && !Locked(s) && !s.screen.Open? && sid in s.store.sessions && ShapeOk(s.store)
    ensures FrontOk(Unpark(s, sid))
  {
  }

  lemma SwitchInv(s: State, path: Path)
    requires Inv(s) && !Locked(s) && Occupied(s.store, path)
    ensures Inv(Switch(s, path))
  {
    RotateFront(s);
    ParkFront(Rotate(s));
    UnparkFront(ParkActive(Rotate(s)), SessionAt(s.store, path));
  }

  lemma RequestPasswordInv(s: State, path: Path)
    requires Inv(s)
    ensures Inv(RequestPassword(s, path))
  {
    if !Locked(s) {
      if Occupied(s.store, path) {
        SwitchInv(s, path);
      } else {
        RotateFront(s);
        ParkFront(Rotate(s));
      }
    }
  }

  lemma SubmitPasswordInv(s: State, path: Path)
    requires Inv(s)
    ensures Inv(SubmitPassword(s, path))
  {
    if !Locked(s) {
      if Occupied(s.store, path) {
        SwitchInv(s, path);
      } else {
        RotateFront(s);
        ParkFront(Rotate(s));
      }
    }
    assert Inv(BeginOpen(s, path));
  }

  lemma RehydrateInv(s: State)
    requires Inv(s) && !s.screen.Open?
    ensures Inv(Rehydrate(s))
  {
    if s.parkedOrder != [] {
      RotateFront(s);
      var path := s.parkedOrder[|s.parkedOrder| - 1];
      assert path in s.parkedOrder;
      assert Occupied(s.store, path);
      UnparkFront(Rotate(s), SessionAt(s.store, path));
    }
  }

  lemma FailSelectionInv(s: State)
    requires Inv(s)
    ensures Inv(FailSelection(s))
  {
  }

  // ------------------------------------------------- steps on one session

  /** The writer that holds `path`'s slot, or none. */
  ghost predicate HoldsPath(t: Store, path: Path, w: WriterId) {
    path in t.slots && t.slots[path].writer == w && w in t.writers && t.writers[w].path == path
  }

  /** From `t` to `u` no other session changed, nor any account of one. */
  ghost predicate FrameSessions(t: Store, u: Store, sid: SessionId)
    requires sid in t.sessions
  {
    && u.sessions.Keys == t.sessions.Keys
    && u.sessions[sid].path == t.sessions[sid].path
    && (forall o <- t.sessions :: o != sid ==> u.sessions[o] == t.sessions[o])
    && u.accounts.Keys == t.accounts.Keys
    && (forall o <- t.accounts :: o != sid ==> u.accounts[o] == t.accounts[o])
    && (sid in t.accounts ==> u.accounts[sid].path == t.accounts[sid].path && u.accounts[sid].discarded == t.accounts[sid].discarded)
    && u.nextSession == t.nextSession && u.merges == t.merges && u.nextMerge == t.nextMerge
    && u.unpersisted <= t.unpersisted + {sid} && t.unpersisted <= u.unpersisted + {sid}
  }

  /** From `t` to `u` nothing changed at any path but `sid`'s. */
  ghost predicate FramePaths(t: Store, u: Store, sid: SessionId)
    requires sid in t.sessions
  {
    var path := t.sessions[sid].path;
    && (forall p :: p != path ==> (p in u.slots <==> p in t.slots) && (p in t.slots ==> u.slots[p] == t.slots[p]))
    && (forall p :: p != path ==> DiskAt(u.disk, p) == DiskAt(t.disk, p))
    && (forall p :: p != path ==> (p in u.lastPublisher <==> p in t.lastPublisher)
                                  && (p in t.lastPublisher ==> u.lastPublisher[p] == t.lastPublisher[p]))
    && t.nextWriter <= u.nextWriter
    && (path in u.slots ==> u.slots[path].owner == sid)
    && (path in u.lastPublisher ==> u.lastPublisher[path] < u.nextWriter)
  }

  /** From `t` to `u` no writer changed but the one that holds `sid`'s slot. */
  ghost predicate FrameTasks(t: Store, u: Store, sid: SessionId)
    requires sid in t.sessions
  {
    var path := t.sessions[sid].path;
    && (forall w <- t.writers :: !HoldsPath(t, path, w) ==> w in u.writers && u.writers[w] == t.writers[w])
    && (forall w <- u.writers ::
          || (w in t.writers && !HoldsPath(t, path, w))
          || (HoldsPath(u, path, w) && u.writers[w].session == sid && w < u.nextWriter))
  }

  ghost predicate Frame(t: Store, u: Store, sid: SessionId)
    requires sid in t.sessions
  {
    FrameSessions(t, u, sid) && FramePaths(t, u, sid) && FrameTasks(t, u, sid)
  }

  lemma FrameWriters(t: Store, u: Store, sid: SessionId, w: WriterId)
    requires ShapeOk(t) && sid in t.sessions && Frame(t, u, sid) && w in u.writers
    ensures WriterOk(u, w)
  {
  }

  lemma FrameShape(t: Store, u: Store, sid: SessionId)
    requires ShapeOk(t) && sid in t.sessions && Frame(t, u, sid)
    ensures ShapeOk(u)
  {
    forall w <- u.writers ensures WriterOk(u, w) {
      FrameWriters(t, u, sid, w);
    }
    FrameOwners(t, u, sid);
    hide WriterOk, RetainedAt;
  }

  lemma FrameOwners(t: Store, u: Store, sid: SessionId)
    requires ShapeOk(t) && sid in t.sessions && Frame(t, u, sid)
    ensures forall p <- u.slots :: RetainedAt(u, p, u.slots[p].owner)
  {
    hide WriterOk;
    assert forall p, o :: RetainedAt(u, p, o) <==> RetainedAt(t, p, o);
  }

  lemma FrameLook(t: Store, u: Store, sid: SessionId, o: SessionId)
    requires ShapeOk(t) && sid in t.sessions && Frame(t, u, sid) && o in t.sessions && o != sid
    requires SlotOk(Look(t, o), o)
    ensures Look(u, o) == Look(t, o)
  {
    assert t.sessions[o].path != t.sessions[sid].path;
  }

  lemma FramePays(t: Store, u: Store, sid: SessionId, p: Path, database: Database)
    requires ShapeOk(t) && sid in t.sessions && Frame(t, u, sid)
    ensures Pays(t, p, database) <==> Pays(u, p, database)
  {
  }

  /** The document moved on, if at all, to a newer generation. */
  ghost predicate Newer(was: Document, now: Document) {
    was == now || was.generation < now.generation
  }

  lemma FrameLocal(t: Store, u: Store, sid: SessionId, o: SessionId, excused: bool)
    requires ShapeOk(t) && sid in t.sessions && Frame(t, u, sid) && o in t.sessions && o != sid
    requires LocalOk(Look(t, o), o, excused) && SessionPays(t, o)
    ensures LocalOk(Look(u, o), o, excused) && SessionPays(u, o)
  {
    FrameLook(t, u, sid, o);
    FramePays(t, u, sid, t.sessions[o].path, t.sessions[o].document.database);
    if Look(t, o).writer.Some? {
      FramePays(t, u, sid, t.sessions[o].path, Look(t, o).writer.value.payload);
    }
  }

  lemma FrameSettled(t: Store, u: Store, sid: SessionId)
    requires ShapeOk(t) && SettledOk(t) && sid in t.sessions && Frame(t, u, sid)
    requires Pays(t, t.sessions[sid].path, DiskAt(u.disk, t.sessions[sid].path))
    ensures forall p :: Pays(u, p, DiskAt(u.disk, p))
  {
  }

  lemma FrameMerges(t: Store, u: Store, sid: SessionId)
    requires ShapeOk(t) && MergesOk(t) && sid in t.sessions && Frame(t, u, sid)
    requires Newer(t.sessions[sid].document, u.sessions[sid].document)
    ensures MergesOk(u)
  {
    forall j <- u.merges ensures MergeOk(u, j) {
      assert MergeOk(t, j);
      FramePays(t, u, sid, t.merges[j].path, t.merges[j].base);
    }
  }

  /** A step that touches only session `sid` keeps the store in order when it
      keeps that session in order. */
  lemma FrameLocals(t: Store, u: Store, sid: SessionId, x: Option<SessionId>, y: Option<SessionId>)
    requires StoreOk(t, x) && (x.None? || x == Some(sid)) && (y.None? || y == Some(sid))
    requires sid in t.sessions && Frame(t, u, sid)
    requires LocalOk(Look(u, sid), sid, y.Some?) && SessionPays(u, sid)
    ensures LocalsOk(u, y) && forall o <- u.sessions :: SessionPays(u, o)
  {
    forall o <- u.sessions ensures LocalOk(Look(u, o), o, y == Some(o)) && SessionPays(u, o) {
      if o != sid {
        FrameLocal(t, u, sid, o, false);
      }
    }
  }

  lemma FrameBooks(t: Store, u: Store, sid: SessionId, x: Option<SessionId>)
    requires StoreOk(t, x) && sid in t.sessions && Frame(t, u, sid)
    requires Newer(t.sessions[sid].document, u.sessions[sid].document)
    requires Pays(t, t.sessions[sid].path, DiskAt(u.disk, t.sessions[sid].path))
    ensures ShapeOk(u) && (forall p :: Pays(u, p, DiskAt(u.disk, p))) && MergesOk(u)
  {
    FrameShape(t, u, sid);
    FrameSettled(t, u, sid);
    FrameMerges(t, u, sid);
  }

  lemma FrameOk(t: Store, u: Store, sid: SessionId, x: Option<SessionId>, y: Option<SessionId>)
    requires StoreOk(t, x) && (x.None? || x == Some(sid)) && (y.None? || y == Some(sid))
    requires sid in t.sessions && Frame(t, u, sid)
    requires LocalOk(Look(u, sid), sid, y.Some?)
    requires Newer(t.sessions[sid].document, u.sessions[sid].document)
    requires SessionPays(u, sid)
    requires Pays(t, t.sessions[sid].path, DiskAt(u.disk, t.sessions[sid].path))
    ensures StoreOk(u, y)
  {
    FrameBooks(t, u, sid, x);
    FrameLocals(t, u, sid, x, y);
  }

  // --------------------------------------------------------- requesting a save

  /** What a save request leaves alone. */
  ghost predicate OnlyBookkeeping(t: Store, u: Store, sid: SessionId) {
    && SamePlaces(t, u)
    && u.disk == t.disk && u.accounts == t.accounts && u.merges == t.merges
    && u.lastPublisher == t.lastPublisher
    && u.unpersisted == t.unpersisted + {sid}
    && (forall o <- t.sessions :: u.sessions[o].document == t.sessions[o].document)
  }

  lemma AnnounceFrame(t: Store, sid: SessionId)
    requires sid in t.sessions
    ensures FrameSessions(t, AnnounceSave(t, sid), sid)
    ensures OnlyBookkeeping(t, AnnounceSave(t, sid), sid)
  {
  }

  lemma StartWriterPaths(t: Store, sid: SessionId, payload: Database, kind: Kind)
    requires ShapeOk(t) && sid in t.sessions && t.sessions[sid].path !in t.slots
    ensures FramePaths(t, StartWriter(t, sid, payload, kind), sid)
  {
  }

  lemma StartWriterFrame(t: Store, sid: SessionId, payload: Database, kind: Kind)
    requires ShapeOk(t) && sid in t.sessions && t.sessions[sid].path !in t.slots
    ensures Frame(t, StartWriter(t, sid, payload, kind), sid)
    ensures OnlyBookkeeping(t, StartWriter(t, sid, payload, kind), sid)
  {
    AnnounceFrame(t, sid);
    StartWriterPaths(t, sid, payload, kind);
    assert forall w <- t.writers :: w < t.nextWriter;
  }

  lemma StartWriterLocal(t: Store, sid: SessionId, payload: Database, kind: Kind)
    requires ShapeOk(t) && sid in t.sessions && t.sessions[sid].path !in t.slots
    requires LocalOk(Look(t, sid), sid, true)
    requires kind.Plain? ==> payload == t.sessions[sid].document.database
    requires kind.Merge? ==> kind.base == t.sessions[sid].document.generation
    requires Carries(payload, t.sessions[sid].document.database)
    ensures LocalOk(Look(StartWriter(t, sid, payload, kind), sid), sid, false)
  {
  }

  lemma StartWriterOk(t: Store, sid: SessionId, payload: Database, kind: Kind)
    requires StoreOk(t, Some(sid)) && sid in t.sessions && t.sessions[sid].path !in t.slots
    requires kind.Plain? ==> payload == t.sessions[sid].document.database
    requires kind.Merge? ==> kind.base == t.sessions[sid].document.generation
    requires Carries(payload, t.sessions[sid].document.database)
    ensures StoreOk(StartWriter(t, sid, payload, kind), None)
    ensures OnlyBookkeeping(t, StartWriter(t, sid, payload, kind), sid)
  {
    var u := StartWriter(t, sid, payload, kind);
    var path := t.sessions[sid].path;
    StartWriterFrame(t, sid, payload, kind);
    assert LocalOk(Look(t, sid), sid, true) && SessionPays(t, sid);
    StartWriterLocal(t, sid, payload, kind);
    FramePays(t, u, sid, path, t.sessions[sid].document.database);
    FramePays(t, u, sid, path, payload);
    FrameOk(t, u, sid, Some(sid), None);
  }

  lemma QueueBehindPaths(t: Store, sid: SessionId, syncAfter: bool)
    requires ShapeOk(t) && sid in t.sessions && t.sessions[sid].path in t.slots
    requires SlotOk(Look(t, sid), sid)
    ensures FramePaths(t, QueueBehind(t, sid, syncAfter), sid)
  {
  }

  lemma QueueBehindFrame(t: Store, sid: SessionId, syncAfter: bool)
    requires ShapeOk(t) && sid in t.sessions && t.sessions[sid].path in t.slots
    requires SlotOk(Look(t, sid), sid)
    ensures Frame(t, QueueBehind(t, sid, syncAfter), sid)
    ensures OnlyBookkeeping(t, QueueBehind(t, sid, syncAfter), sid)
  {
    AnnounceFrame(t, sid);
    QueueBehindPaths(t, sid, syncAfter);
    assert Look(t, sid).slot.Some?;
  }

  lemma QueueBehindOk(t: Store, sid: SessionId, syncAfter: bool)
    requires StoreOk(t, Some(sid)) && sid in t.sessions && t.sessions[sid].path in t.slots
    ensures StoreOk(QueueBehind(t, sid, syncAfter), None)
    ensures OnlyBookkeeping(t, QueueBehind(t, sid, syncAfter), sid)
  {
    var u := QueueBehind(t, sid, syncAfter);
    var path := t.sessions[sid].path;
    assert LocalOk(Look(t, sid), sid, true) && SessionPays(t, sid);
    QueueBehindFrame(t, sid, syncAfter);
    FramePays(t, u, sid, path, t.sessions[sid].document.database);
    FramePays(t, u, sid, path, Look(t, sid).writer.value.payload);
    FrameOk(t, u, sid, Some(sid), None);
  }

  lemma RequestSaveOk(t: Store, path: Path, sid: SessionId, syncAfter: bool)
    requires StoreOk(t, Some(sid)) && RetainedAt(t, path, sid)
    ensures StoreOk(RequestSave(t, path, sid, syncAfter), None)
    ensures OnlyBookkeeping(t, RequestSave(t, path, sid, syncAfter), sid)
  {
    if path in t.slots {
      QueueBehindOk(t, sid, syncAfter);
    } else {
      StartWriterOk(t, sid, t.sessions[sid].document.database, Plain(syncAfter));
    }
  }

  lemma ExcuseOk(t: Store, sid: SessionId)
    requires StoreOk(t, None)
    ensures StoreOk(t, Some(sid))
  {
  }

  lemma RequestSaveInv(s: State, path: Path, sid: SessionId, syncAfter: bool)
    requires RetainedAt(s.store, path, sid) && StoreOk(s.store, Some(sid)) && FrontOk(s)
    ensures Inv(s.(store := RequestSave(s.store, path, sid, syncAfter)))
  {
    RequestSaveOk(s.store, path, sid, syncAfter);
    FrontFrame(s, RequestSave(s.store, path, sid, syncAfter));
    assert sid in RequestSave(s.store, path, sid, syncAfter).unpersisted;
  }

  lemma {:induction false} RetryAllInv(s: State, order: seq<SessionId>)
    requires Inv(s)
    ensures Inv(s.(store := RetryAll(s.store, order)))
    decreases |order|
  {
    if order == [] {
      assert s.(store := s.store) == s;
    } else if order[0] in s.store.sessions {
      var sid := order[0];
      var path := s.store.sessions[sid].path;
      ExcuseOk(s.store, sid);
      RequestSaveInv(s, path, sid, false);
      RetryAllInv(s.(store := RequestSave(s.store, path, sid, false)), order[1..]);
    } else {
      RetryAllInv(s, order[1..]);
    }
  }

  lemma SaveAsyncInv(s: State, syncAfter: bool, order: seq<SessionId>)
    requires Inv(s)
    ensures Inv(SaveAsync(s, syncAfter, order))
  {
    if Locked(s) {
      RetryAllInv(s, order);
    } else if s.screen.Open? {
      ExcuseOk(s.store, s.screen.session);
      RequestSaveInv(s, s.store.sessions[s.screen.session].path, s.screen.session, syncAfter);
    }
  }

  // ------------------------------------------------------------------- editing

  /** A step on `sid`'s document or status alone. */
  ghost predicate Quiet(t: Store, u: Store) {
    && u.slots == t.slots && u.writers == t.writers && u.nextWriter == t.nextWriter
    && u.disk == t.disk && u.lastPublisher == t.lastPublisher && u.unpersisted == t.unpersisted
  }

  lemma QuietFrame(t: Store, u: Store, sid: SessionId)
    requires ShapeOk(t) && sid in t.sessions && SlotOk(Look(t, sid), sid)
    requires FrameSessions(t, u, sid) && Quiet(t, u)
    ensures Frame(t, u, sid)
  {
  }

  /** A step on `sid`'s document or status alone keeps the store in order, up
      to what `sid` is then excused from. */
  lemma QuietOk(t: Store, u: Store, sid: SessionId, x: Option<SessionId>)
    requires StoreOk(t, x) && (x.None? || x == Some(sid))
    requires sid in t.sessions && FrameSessions(t, u, sid) && Quiet(t, u)
    requires LocalOk(Look(u, sid), sid, true)
    requires Newer(t.sessions[sid].document, u.sessions[sid].document)
    requires Carries(u.sessions[sid].document.database, t.sessions[sid].document.database)
    ensures StoreOk(u, Some(sid))
  {
    var path := t.sessions[sid].path;
    assert LocalOk(Look(t, sid), sid, x.Some?) && SessionPays(t, sid);
    QuietFrame(t, u, sid);
    QuietPays(t, u, sid);
    FrameOk(t, u, sid, x, Some(sid));
  }

  lemma QuietPays(t: Store, u: Store, sid: SessionId)
    requires ShapeOk(t) && sid in t.sessions && Frame(t, u, sid) && Quiet(t, u) && SessionPays(t, sid)
    requires Carries(u.sessions[sid].document.database, t.sessions[sid].document.database)
    ensures SessionPays(u, sid)
  {
    var path := t.sessions[sid].path;
    FramePays(t, u, sid, path, u.sessions[sid].document.database);
    if Look(u, sid).writer.Some? {
      FramePays(t, u, sid, path, Look(u, sid).writer.value.payload);
    }
  }

  lemma ApplyEditSessions(t: Store, sid: SessionId, e: Edit)
    requires sid in t.sessions && sid in t.accounts
    ensures FrameSessions(t, ApplyEdit(t, sid, e), sid) && SamePlaces(t, ApplyEdit(t, sid, e))
  {
  }

  lemma ApplyEditLocal(t: Store, sid: SessionId, e: Edit)
    requires sid in t.sessions && sid in t.accounts && LocalOk(Look(t, sid), sid, false)
    ensures LocalOk(Look(ApplyEdit(t, sid, e), sid), sid, true)
  {
  }

  lemma ApplyEditOk(t: Store, sid: SessionId, e: Edit)
    requires StoreOk(t, None) && sid in t.sessions
    ensures StoreOk(ApplyEdit(t, sid, e), Some(sid))
    ensures SamePlaces(t, ApplyEdit(t, sid, e))
  {
    ApplyEditSessions(t, sid, e);
    ApplyEditLocal(t, sid, e);
    QuietOk(t, ApplyEdit(t, sid, e), sid, None);
  }

  lemma EditInv(s: State, e: Edit, syncAfter: bool)
    requires Inv(s)
    ensures Inv(EditOpen(s, e, syncAfter))
  {
    if s.screen.Open? {
      var sid := s.screen.session;
      ApplyEditOk(s.store, sid, e);
      var u := ApplyEdit(s.store, sid, e);
      FrontFrame(s, u);
      RequestSaveInv(s.(store := u), s.store.sessions[sid].path, sid, syncAfter);
    }
  }

  // ------------------------------------------------------------------- locking

  ghost function Restrict(t: Store, kept: set<SessionId>): Store {
    t.(sessions := map sid | sid in t.sessions && sid in kept :: t.sessions[sid])
  }

  lemma RestrictPays(t: Store, kept: set<SessionId>, p: Path, database: Database)
    requires ShapeOk(t) && kept <= t.sessions.Keys && Pays(t, p, database)
    requires (exists o <- kept :: t.sessions[o].path == p) || DiskAt(t.disk, p) == database
    requires LocalsOk(t, None) && t.unpersisted <= kept
    ensures Pays(Restrict(t, kept), p, database)
  {
  }

  lemma RestrictShape(t: Store, kept: set<SessionId>)
    requires ShapeOk(t) && t.unpersisted <= kept <= t.sessions.Keys
    requires forall p <- t.slots :: t.slots[p].owner in t.unpersisted
    ensures ShapeOk(Restrict(t, kept))
  {
  }

  lemma OwnersUnpersisted(t: Store, x: Option<SessionId>)
    requires ShapeOk(t) && LocalsOk(t, x)
    ensures forall p <- t.slots :: t.slots[p].owner in t.unpersisted
    ensures forall sid :: Queued(t, sid) ==> sid in t.unpersisted
  {
  }

  lemma RestrictLocal(t: Store, kept: set<SessionId>, sid: SessionId)
    requires StoreOk(t, None) && t.unpersisted <= kept <= t.sessions.Keys && sid in kept
    ensures var u := Restrict(t, kept); LocalOk(Look(u, sid), sid, false) && SessionPays(u, sid)
  {
    var u := Restrict(t, kept);
    assert LocalOk(Look(t, sid), sid, false) && SessionPays(t, sid);
    assert Look(u, sid) == Look(t, sid);
    RestrictPays(t, kept, t.sessions[sid].path, t.sessions[sid].document.database);
    if Look(t, sid).writer.Some? {
      RestrictPays(t, kept, t.sessions[sid].path, Look(t, sid).writer.value.payload);
    }
  }

  lemma RestrictMerges(t: Store, kept: set<SessionId>)
    requires StoreOk(t, None) && t.unpersisted <= kept <= t.sessions.Keys
    ensures MergesOk(Restrict(t, kept))
  {
    var u := Restrict(t, kept);
    forall j <- u.merges ensures MergeOk(u, j) {
      assert MergeOk(t, j);
      var job := t.merges[j];
      if RetainedAt(u, job.path, job.session) {
        RestrictPays(t, kept, job.path, job.base);
      }
    }
  }

  /** Clean sessions may go: everything they accepted is on disk. */
  lemma RestrictOk(t: Store, kept: set<SessionId>)
    requires StoreOk(t, None) && t.unpersisted <= kept <= t.sessions.Keys
    ensures StoreOk(Restrict(t, kept), None)
  {
    var u := Restrict(t, kept);
    OwnersUnpersisted(t, None);
    RestrictShape(t, kept);
    RestrictMerges(t, kept);
    forall sid <- u.sessions ensures LocalOk(Look(u, sid), sid, false) && SessionPays(u, sid) {
      RestrictLocal(t, kept, sid);
    }
    forall p ensures Pays(u, p, DiskAt(u.disk, p)) {
      RestrictPays(t, kept, p, DiskAt(t.disk, p));
    }
  }

  lemma QuarantinedIsRestricted(t: Store)
    requires ShapeOk(t) && LocalsOk(t, None)
    ensures Quarantined(t) == Restrict(t, t.unpersisted)
    ensures Quarantined(t).sessions.Keys == t.unpersisted
  {
    OwnersUnpersisted(t, None);
    assert Quarantined(t).sessions == Restrict(t, t.unpersisted).sessions;
  }

  lemma LockNowInv(s: State)
    requires StoreOk(s.store, None) && FrontOk(s) && s.store.unpersisted == {}
    ensures Inv(LockNow(s))
  {
    RestrictOk(s.store, {});
    assert Restrict(s.store, {}).sessions == map[];
  }

  lemma RequestLockInv(s: State)
    requires Inv(s) && s.store.unpersisted != {}
    ensures Inv(RequestLock(s))
  {
    hide LocalsOk, SettledOk, MergesOk, ShapeOk;
    if !Locked(s) {
      QuarantinedIsRestricted(s.store);
      RestrictOk(s.store, s.store.unpersisted);
    }
  }

  lemma LockInv(s: State, order: seq<SessionId>)
    requires Inv(s)
    ensures Inv(LockVault(s, order))
  {
    OwnersUnpersisted(s.store, None);
    if HasSaveWork(s.store) {
      RequestLockInv(s);
      RetryAllInv(RequestLock(s), order);
    } else {
      LockNowInv(s);
    }
  }

  // ---------------------------------------------------------------- discarding

  lemma AbortedLook(t: Store, sid: SessionId)
    requires ShapeOk(t) && sid in t.sessions && SlotOk(Look(t, sid), sid)
    ensures
      var v := Look(t, sid);
      Look(AbortSlots(t), sid) ==
        if v.slot.Some? then v.(writer := Some(v.writer.value.(phase := TryAbort(v.writer.value.phase)))) else v
  {
  }

  lemma AbortedShape(t: Store)
    requires ShapeOk(t)
    ensures ShapeOk(AbortSlots(t))
  {
  }

  lemma AbortedLocal(t: Store, sid: SessionId)
    requires StoreOk(t, None) && sid in t.sessions
    ensures var u := AbortSlots(t); LocalOk(Look(u, sid), sid, false) && SessionPays(u, sid)
  {
    var u := AbortSlots(t);
    assert LocalOk(Look(t, sid), sid, false) && SessionPays(t, sid);
    AbortedLook(t, sid);
  }

  /** Aborting every writer that can still be aborted changes nothing else. */
  lemma AbortSlotsOk(t: Store)
    requires StoreOk(t, None)
    ensures StoreOk(AbortSlots(t), None)
  {
    var u := AbortSlots(t);
    AbortedShape(t);
    forall sid <- u.sessions ensures LocalOk(Look(u, sid), sid, false) && SessionPays(u, sid) {
      AbortedLocal(t, sid);
    }
    forall p ensures Pays(u, p, DiskAt(u.disk, p)) {
      assert Pays(t, p, DiskAt(t.disk, p));
    }
    forall j <- u.merges ensures MergeOk(u, j) {
      assert MergeOk(t, j);
    }
  }

  /** The writer that holds a slot writes for that slot's owner. */
  lemma HolderLook(t: Store, x: Option<SessionId>, w: WriterId)
    requires ShapeOk(t) && LocalsOk(t, x) && w in t.writers && HoldsSlot(t, w)
    ensures
      var path, sid := t.writers[w].path, t.writers[w].session;
      && RetainedAt(t, path, sid) && t.slots[path].owner == sid
      && Look(t, sid).slot == Some(t.slots[path]) && Look(t, sid).writer == Some(t.writers[w])
      && LocalOk(Look(t, sid), sid, x == Some(sid))
  {
  }

  lemma WriteOffWriters(t: Store, w: WriterId)
    requires ShapeOk(t) && LocalsOk(t, None) && !AnyPublicationStarted(t) && w in t.writers
    ensures var u := AbortSlots(t).writers[w]; u.phase.Aborted? && (u.outcome.Running? || u.outcome.WriteFailed?)
  {
  }

  lemma WriteOffOk(t: Store)
    requires StoreOk(t, None) && !AnyPublicationStarted(t)
    ensures StoreOk(WriteOff(AbortSlots(t)), None)
  {
    var u := WriteOff(AbortSlots(t));
    forall w <- u.writers ensures WriterOk(u, w) {
      WriteOffWriters(t, w);
    }
    forall p ensures Pays(u, p, DiskAt(u.disk, p)) {
      assert Pays(t, p, DiskAt(t.disk, p));
    }
    forall j <- u.merges ensures MergeOk(u, j) {
      assert MergeOk(t, j);
    }
  }

  lemma RefusedDiscardInv(s: State)
    requires Inv(s)
    ensures Inv(s.(store := AbortSlots(s.store)))
  {
    AbortSlotsOk(s.store);
    FrontFrame(s, AbortSlots(s.store));
  }

  lemma DiscardInv(s: State, stuck: bool)
    requires Inv(s)
    ensures Inv(Discard(s, stuck))
  {
    hide Inv, AbortSlots, WriteOff, LockNow, AnyPublicationStarted, DiscardGateOpen;
    if DiscardGateOpen(s, stuck) {
      if AnyPublicationStarted(s.store) {
        RefusedDiscardInv(s);
      } else {
        WrittenOffInv(s);
      }
    }
  }

  lemma WrittenOffInv(s: State)
    requires Inv(s) && !AnyPublicationStarted(s.store)
    ensures Inv(LockNow(s.(store := WriteOff(AbortSlots(s.store)))))
  {
    WriteOffOk(s.store);
  }

  // ------------------------------------------------------------------- opening

  lemma OpenedShape(s: State, path: Path, d: Database)
    requires StoreOk(s.store, None) && !Occupied(s.store, path)
    ensures ShapeOk(OpenDocument(s, path, d).store)
  {
    var t, u := s.store, OpenDocument(s, path, d).store;
    assert t.nextSession !in t.sessions;
    assert forall sid <- t.sessions :: RetainedAt(t, t.sessions[sid].path, sid);
    forall p <- u.slots ensures RetainedAt(u, p, u.slots[p].owner) {
      assert RetainedAt(t, p, t.slots[p].owner);
    }
    forall w <- u.writers ensures WriterOk(u, w) {
      assert WriterOk(t, w);
    }
  }

  lemma OpenedPays(s: State, path: Path, d: Database, p: Path, database: Database)
    requires StoreOk(s.store, None)
    ensures Pays(s.store, p, database) <==> Pays(OpenDocument(s, path, d).store, p, database)
  {
    var t, u := s.store, OpenDocument(s, path, d).store;
    assert t.nextSession !in t.accounts && t.nextSession !in t.sessions;
    assert forall a <- t.accounts :: u.accounts[a] == t.accounts[a] && (a in u.sessions <==> a in t.sessions);
  }

  lemma OpenedLocal(s: State, path: Path, sid: SessionId)
    requires StoreOk(s.store, None) && !Occupied(s.store, path)
    requires sid in s.store.sessions || sid == s.store.nextSession
    ensures
      var u := OpenDocument(s, path, DiskAt(s.store.disk, path)).store;
      LocalOk(Look(u, sid), sid, false) && SessionPays(u, sid)
  {
    var t, d := s.store, DiskAt(s.store.disk, path);
    var u := OpenDocument(s, path, d).store;
    assert t.nextSession !in t.accounts && t.nextSession !in t.sessions;
    if sid in t.sessions {
      assert LocalOk(Look(t, sid), sid, false) && SessionPays(t, sid);
      assert Look(u, sid) == Look(t, sid);
      OpenedPays(s, path, d, t.sessions[sid].path, t.sessions[sid].document.database);
      if Look(t, sid).writer.Some? {
        OpenedPays(s, path, d, t.sessions[sid].path, Look(t, sid).writer.value.payload);
      }
    } else {
      assert path !in t.slots;
      OpenedPays(s, path, d, path, d);
    }
  }

  /** A vault opens equal to the disk, which carries all that is settled there. */
  lemma OpenedOk(s: State, path: Path)
    requires StoreOk(s.store, None) && !Occupied(s.store, path)
    ensures StoreOk(OpenDocument(s, path, DiskAt(s.store.disk, path)).store, None)
  {
    var t, d := s.store, DiskAt(s.store.disk, path);
    var u := OpenDocument(s, path, d).store;
    OpenedShape(s, path, d);
    forall sid <- u.sessions ensures LocalOk(Look(u, sid), sid, false) && SessionPays(u, sid) {
      OpenedLocal(s, path, sid);
    }
    forall p ensures Pays(u, p, DiskAt(u.disk, p)) {
      OpenedPays(s, path, d, p, DiskAt(t.disk, p));
    }
    forall j <- u.merges ensures MergeOk(u, j) {
      assert MergeOk(t, j);
      OpenedPays(s, path, d, t.merges[j].path, t.merges[j].base);
    }
  }

  lemma OpenedFront(s: State, path: Path, d: Database)
    requires Inv(s) && s.screen == Opening(path)
    ensures FrontOk(OpenDocument(s, path, d))
  {
    var u := OpenDocument(s, path, d);
    var t := s.store;
    assert t.nextSession !in t.sessions;
    forall p <- u.parkedOrder ensures exists sid :: RetainedAt(u.store, p, sid) && u.screen != Open(sid) {
      var sid :| RetainedAt(t, p, sid) && s.screen != Open(sid);
      assert RetainedAt(u.store, p, sid) && u.screen != Open(sid);
    }
  }

  /** What the current open attempt read is what the disk still holds, so the
      vault it opens is clean. */
  lemma FinishOpenInv(s: State, id: nat, decrypted: bool)
    requires Inv(s) && id in s.opens
    ensures Inv(FinishOpen(s, id, decrypted))
  {
    var task := s.opens[id];
    var t := s.(opens := s.opens - {id});
    assert Inv(t);
    if OpenAttemptIsCurrent(s, task.path, task.attempt) && decrypted && task.read.Some? {
      OpenedOk(t, task.path);
      OpenedFront(t, task.path, task.read.value);
    }
  }

  // ------------------------------------------------------------------- merging

  lemma MergesChangeLocal(t: Store, u: Store, sid: SessionId)
    requires u == t.(merges := u.merges, nextMerge := u.nextMerge) && sid in t.sessions
    requires LocalOk(Look(t, sid), sid, false) && SessionPays(t, sid)
    ensures LocalOk(Look(u, sid), sid, false) && SessionPays(u, sid)
  {
  }

  lemma MergesChangeLocals(t: Store, u: Store)
    requires LocalsOk(t, None) && SettledOk(t) && u == t.(merges := u.merges, nextMerge := u.nextMerge)
    ensures LocalsOk(u, None) && SettledOk(u)
  {
    forall sid <- u.sessions ensures LocalOk(Look(u, sid), sid, false) && SessionPays(u, sid) {
      MergesChangeLocal(t, u, sid);
    }
    assert forall p :: Pays(t, p, DiskAt(t.disk, p));
  }

  lemma MergesChangeOk(t: Store, u: Store)
    requires StoreOk(t, None) && u == t.(merges := u.merges, nextMerge := u.nextMerge)
    requires MergesOk(u)
    ensures StoreOk(u, None)
  {
    MergesChangeLocals(t, u);
    MergesChangeShape(t, u);
    hide ShapeOk, LocalsOk, SettledOk, MergesOk;
  }

  lemma MergesChangeShape(t: Store, u: Store)
    requires ShapeOk(t) && u == t.(merges := u.merges, nextMerge := u.nextMerge)
    ensures ShapeOk(u)
  {
    forall w <- u.writers ensures WriterOk(u, w) {
      assert WriterOk(t, w);
    }
  }

  lemma StartMergeInv(s: State, path: Path, bound: bool)
    requires Inv(s)
    ensures Inv(StartMerge(s, path, bound))
  {
    var t, u := s.store, StartMerge(s, path, bound).store;
    if t != u {
      var sid := SessionAt(t, path);
      assert SessionPays(t, sid);
      forall j <- u.merges ensures MergeOk(u, j) {
        if j in t.merges && j != t.nextMerge {
          assert MergeOk(t, j);
        }
      }
      MergesChangeOk(t, u);
      FrontFrame(s, u);
    }
  }

  lemma DropMergeInv(s: State, j: nat)
    requires Inv(s) && j in s.store.merges
    ensures Inv(s.(store := s.store.(merges := s.store.merges - {j})))
  {
    var t, u := s.store, s.store.(merges := s.store.merges - {j});
    forall k <- u.merges ensures MergeOk(u, k) {
      assert MergeOk(t, k);
    }
    MergesChangeOk(t, u);
    FrontFrame(s, u);
  }

  /** A merge is written only when the document is exactly its base. */
  lemma CommitMergeInv(s: State, j: nat, merged: Database, bound: bool)
    requires Inv(s) && j in s.store.merges && Carries(merged, s.store.merges[j].base)
    ensures
      var job := s.store.merges[j];
      Inv(CommitMerged(s, job.path, job.session, merged, job.generation, bound))
  {
    var t, job := s.store, s.store.merges[j];
    if bound && Current(s, job.path, job.session) {
      ExcuseOk(t, job.session);
      if !AtBase(t, job.path, job.session, job.generation) || job.path in t.slots {
        RequestSaveInv(s, job.path, job.session, true);
      } else {
        assert MergeOk(t, j);
        StartWriterOk(t, job.session, merged, Merge(job.generation));
        FrontFrame(s, StartWriter(t, job.session, merged, Merge(job.generation)));
      }
    }
  }

  // ------------------------------------------------------- background steps

  /** The writer's own bookkeeping, when it neither publishes nor finishes a publication. */
  lemma SetWriterOk(t: Store, w: WriterId, phase: Phase, outcome: Outcome)
    requires StoreOk(t, None) && w in t.writers
    requires outcome.Running? || outcome.WriteFailed? || phase.Published?
    requires phase.Published? <==> t.writers[w].phase.Published?
    requires t.writers[w].phase.Aborted? ==> phase.Aborted?
    ensures StoreOk(SetWriter(t, w, phase, outcome), None)
  {
    var u := SetWriter(t, w, phase, outcome);
    assert WriterOk(t, w);
    if HoldsSlot(t, w) {
      HolderLook(t, None, w);
      HolderStep(t, u, w, phase, outcome);
    } else {
      OrphanStep(t, u, w);
    }
  }

  lemma HolderStep(t: Store, u: Store, w: WriterId, phase: Phase, outcome: Outcome)
    requires StoreOk(t, None) && w in t.writers && HoldsSlot(t, w)
    requires u == SetWriter(t, w, phase, outcome)
    requires var sid := t.writers[w].session; RetainedAt(t, t.writers[w].path, sid) && t.slots[t.writers[w].path].owner == sid
    requires outcome.Running? || outcome.WriteFailed? || phase.Published?
    requires phase.Published? <==> t.writers[w].phase.Published?
    ensures StoreOk(u, None)
  {
    var sid := t.writers[w].session;
    assert LocalOk(Look(t, sid), sid, false) && SessionPays(t, sid);
    HolderStepFrame(t, u, w);
    assert Look(u, sid) == Look(t, sid).(writer := Some(u.writers[w]));
    FramePays(t, u, sid, t.writers[w].path, t.sessions[sid].document.database);
    FramePays(t, u, sid, t.writers[w].path, t.writers[w].payload);
    FrameOk(t, u, sid, None, None);
  }

  lemma HolderStepFrame(t: Store, u: Store, w: WriterId)
    requires ShapeOk(t) && w in t.writers && HoldsSlot(t, w)
    requires var sid := t.writers[w].session; RetainedAt(t, t.writers[w].path, sid) && t.slots[t.writers[w].path].owner == sid
    requires w in u.writers && u == SetWriter(t, w, u.writers[w].phase, u.writers[w].outcome)
    ensures Frame(t, u, t.writers[w].session)
  {
  }

  lemma OrphanLocal(t: Store, u: Store, w: WriterId, sid: SessionId)
    requires ShapeOk(t) && OnlyOrphan(t, u, w) && sid in t.sessions
    requires LocalOk(Look(t, sid), sid, false) && SessionPays(t, sid)
    ensures LocalOk(Look(u, sid), sid, false) && SessionPays(u, sid)
  {
    if Look(t, sid).slot.Some? {
      assert Look(t, sid).slot.value.writer != w;
    }
    assert Look(u, sid) == Look(t, sid);
  }

  /** From `t` to `u` only the writer `w`, which holds no slot, changed or went. */
  ghost predicate OnlyOrphan(t: Store, u: Store, w: WriterId) {
    && w in t.writers && !HoldsSlot(t, w) && u == t.(writers := u.writers)
    && (forall v <- t.writers :: v != w ==> v in u.writers && u.writers[v] == t.writers[v])
    && (forall v <- u.writers :: v in t.writers)
    && (w in u.writers ==>
          && u.writers[w].phase.Aborted? && u.writers[w].session == t.writers[w].session
          && (u.writers[w].outcome.Running? || u.writers[w].outcome.WriteFailed?))
  }

  lemma OrphanShape(t: Store, u: Store, w: WriterId)
    requires ShapeOk(t) && OnlyOrphan(t, u, w)
    ensures ShapeOk(u)
  {
    forall v <- u.writers ensures WriterOk(u, v) {
      assert WriterOk(t, v);
    }
  }

  lemma OrphanLocals(t: Store, u: Store, w: WriterId)
    requires ShapeOk(t) && LocalsOk(t, None) && SettledOk(t) && OnlyOrphan(t, u, w)
    ensures LocalsOk(u, None) && SettledOk(u)
  {
    forall sid <- u.sessions ensures LocalOk(Look(u, sid), sid, false) && SessionPays(u, sid) {
      OrphanLocal(t, u, w, sid);
    }
    assert forall p :: Pays(t, p, DiskAt(t.disk, p));
  }

  /** What a writer without a slot does concerns nobody. */
  lemma OrphanStep(t: Store, u: Store, w: WriterId)
    requires StoreOk(t, None) && OnlyOrphan(t, u, w)
    ensures StoreOk(u, None)
  {
    OrphanShape(t, u, w);
    OrphanLocals(t, u, w);
    forall j <- u.merges ensures MergeOk(u, j) {
      assert MergeOk(t, j);
    }
  }

  lemma PublishFrame(t: Store, w: WriterId)
    requires ShapeOk(t) && w in t.writers && HoldsSlot(t, w)
    requires var sid := t.writers[w].session; RetainedAt(t, t.writers[w].path, sid) && t.slots[t.writers[w].path].owner == sid
    ensures Frame(t, Publish(t, w), t.writers[w].session)
  {
  }

  lemma PublishOk(t: Store, w: WriterId)
    requires StoreOk(t, None) && InPhase(t, w, {Publishing})
    ensures StoreOk(Publish(t, w), None)
    ensures Occupied(t, t.writers[w].path)
  {
    var u := Publish(t, w);
    assert WriterOk(t, w);
    HolderLook(t, None, w);
    var sid, path := t.writers[w].session, t.writers[w].path;
    PublishFrame(t, w);
    assert SessionPays(t, sid);
    assert Look(u, sid) == Look(t, sid).(writer := Some(u.writers[w]), disk := t.writers[w].payload, lastPublisher := Some(w));
    FramePays(t, u, sid, path, t.sessions[sid].document.database);
    FramePays(t, u, sid, path, t.writers[w].payload);
    FrameOk(t, u, sid, None, None);
  }

  /** Nobody reads a path while it is being published to, so no open attempt goes stale. */
  lemma PublishInv(s: State, w: WriterId)
    requires Inv(s) && InPhase(s.store, w, {Publishing})
    ensures Inv(s.(store := Publish(s.store, w)))
  {
    PublishOk(s.store, w);
    PublishFront(s, w);
  }

  lemma PublishFront(s: State, w: WriterId)
    requires FrontOk(s) && w in s.store.writers && Occupied(s.store, s.store.writers[w].path)
    ensures FrontOk(s.(store := Publish(s.store, w)))
  {
    var t, u := s.store, Publish(s.store, w);
    assert forall p, sid :: RetainedAt(u, p, sid) <==> RetainedAt(t, p, sid);
  }

  lemma SetWriterInv(s: State, w: WriterId, phase: Phase, outcome: Outcome)
    requires Inv(s) && w in s.store.writers
    requires outcome.Running? || outcome.WriteFailed? || phase.Published?
    requires phase.Published? <==> s.store.writers[w].phase.Published?
    requires s.store.writers[w].phase.Aborted? ==> phase.Aborted?
    ensures Inv(s.(store := SetWriter(s.store, w, phase, outcome)))
  {
    SetWriterOk(s.store, w, phase, outcome);
    FrontFrame(s, SetWriter(s.store, w, phase, outcome));
  }

  // ------------------------------------------------------ completion callbacks

  ghost function Release(t: Store, w: WriterId): Store
    requires w in t.writers
  {
    t.(writers := t.writers - {w}, slots := t.slots - {t.writers[w].path})
  }

  lemma ReleaseFrame(t: Store, w: WriterId)
    requires ShapeOk(t) && w in t.writers && HoldsSlot(t, w)
    requires var sid := t.writers[w].session; RetainedAt(t, t.writers[w].path, sid) && t.slots[t.writers[w].path].owner == sid
    ensures Frame(t, Release(t, w), t.writers[w].session)
  {
  }

  /** Releasing a slot leaves its owner excused, and nobody else affected. */
  lemma ReleaseOk(t: Store, w: WriterId)
    requires StoreOk(t, None) && w in t.writers && HoldsSlot(t, w)
    ensures StoreOk(Release(t, w), Some(t.writers[w].session))
  {
    var u := Release(t, w);
    HolderLook(t, None, w);
    var sid, path := t.writers[w].session, t.writers[w].path;
    ReleaseFrame(t, w);
    assert SessionPays(t, sid);
    assert Look(u, sid) == Look(t, sid).(slot := None, writer := None);
    FramePays(t, u, sid, path, t.sessions[sid].document.database);
    FrameOk(t, u, sid, None, Some(sid));
  }

  lemma SetStatusOk(t: Store, path: Path, sid: SessionId, status: SaveStatus)
    requires RetainedAt(t, path, sid) && StoreOk(t, Some(sid))
    ensures StoreOk(SetStatus(t, path, sid, status), Some(sid))
    ensures SamePlaces(t, SetStatus(t, path, sid, status))
  {
    var u := SetStatus(t, path, sid, status);
    assert LocalOk(Look(t, sid), sid, true);
    SetStatusLook(t, path, sid, status);
    hide SetStatus;
    QuietOk(t, u, sid, Some(sid));
  }

  lemma SetStatusLook(t: Store, path: Path, sid: SessionId, status: SaveStatus)
    requires RetainedAt(t, path, sid)
    ensures
      var u := SetStatus(t, path, sid, status);
      && u == t.(sessions := u.sessions) && SamePlaces(t, u) && u.sessions.Keys == t.sessions.Keys
      && (forall o <- t.sessions :: o != sid ==> u.sessions[o] == t.sessions[o])
      && u.sessions[sid] == t.sessions[sid].(status := status)
      && Look(u, sid) == Look(t, sid).(session := u.sessions[sid])
  {
  }

  lemma InstallOk(t: Store, sid: SessionId, d: Database)
    requires sid in t.sessions && StoreOk(t, Some(sid)) && t.sessions[sid].path !in t.slots
    requires Carries(d, t.sessions[sid].document.database)
    ensures StoreOk(Install(t, sid, d), Some(sid))
    ensures SamePlaces(t, Install(t, sid, d))
  {
    var u := Install(t, sid, d);
    assert LocalOk(Look(t, sid), sid, true);
    assert u.sessions.Keys == t.sessions.Keys;
    assert Look(u, sid) == Look(t, sid).(session := u.sessions[sid]);
    QuietOk(t, u, sid, Some(sid));
  }

  lemma PersistOk(t: Store, sid: SessionId)
    requires sid in t.sessions && StoreOk(t, Some(sid)) && t.sessions[sid].path !in t.slots
    requires DiskAt(t.disk, t.sessions[sid].path) == t.sessions[sid].document.database
    ensures StoreOk(MarkPersisted(t, sid, false), None)
  {
    var u := MarkPersisted(t, sid, false);
    var path := t.sessions[sid].path;
    assert LocalOk(Look(t, sid), sid, true) && SessionPays(t, sid);
    assert Look(u, sid) == Look(t, sid).(dirty := false);
    FramePays(t, u, sid, path, t.sessions[sid].document.database);
    FrameOk(t, u, sid, Some(sid), None);
  }

  lemma PersistLockedOk(t: Store, sid: SessionId)
    requires sid in t.sessions && StoreOk(t, Some(sid)) && t.sessions[sid].path !in t.slots
    requires DiskAt(t.disk, t.sessions[sid].path) == t.sessions[sid].document.database
    ensures StoreOk(MarkPersisted(t, sid, true), None)
  {
    var u := MarkPersisted(t, sid, false);
    PersistOk(t, sid);
    RestrictOk(u, t.sessions.Keys - {sid});
    PersistLockedRestricts(t, sid);
  }

  lemma PersistLockedRestricts(t: Store, sid: SessionId)
    ensures MarkPersisted(t, sid, true) == Restrict(MarkPersisted(t, sid, false), t.sessions.Keys - {sid})
  {
    assert MarkPersisted(t, sid, true).sessions
        == Restrict(MarkPersisted(t, sid, false), t.sessions.Keys - {sid}).sessions;
  }

  lemma PersistFront(s: State, sid: SessionId)
    requires FrontOk(s)
    ensures FrontOk(s.(store := MarkPersisted(s.store, sid, Locked(s))))
  {
    var u := MarkPersisted(s.store, sid, Locked(s));
    assert !Locked(s) ==> SamePlaces(s.store, u);
    if !Locked(s) {
      FrontFrame(s, u);
    }
  }

  /** With no dirty session left there is no slot left either, so a waiting
      lock completes here and now. */
  lemma FinishLockInv(s: State)
    requires StoreOk(s.store, None) && FrontOk(s)
    ensures Inv(FinishLock(s))
    ensures s.store.unpersisted == {} ==> !Locked(FinishLock(s))
  {
    OwnersUnpersisted(s.store, None);
    if s.store.unpersisted == {} {
      assert s.store.slots == map[];
      LockNowInv(s);
    }
  }

  lemma AfterWriterInv(s: State, path: Path, sid: SessionId, durable: bool, pending: Option<SessionId>, syncAfter: bool)
    requires FrontOk(s) && StoreOk(s.store, Some(sid)) && RetainedAt(s.store, path, sid)
    requires path !in s.store.slots && sid in s.store.unpersisted
    requires pending.None? || pending == Some(sid)
    requires pending.None? && durable ==> DiskAt(s.store.disk, path) == s.store.sessions[sid].document.database
    requires pending.None? && !durable ==> s.store.sessions[sid].status.Failed?
    ensures Inv(AfterWriter(s, path, sid, durable, pending, syncAfter))
  {
    var t := s.store;
    if pending.Some? {
      RequestSaveInv(s, path, sid, syncAfter);
    } else if durable {
      if Locked(s) { PersistLockedOk(t, sid); } else { PersistOk(t, sid); }
      PersistFront(s, sid);
      FinishLockInv(s.(store := MarkPersisted(t, sid, Locked(s))));
    } else {
      assert LocalOk(Look(t, sid), sid, true);
      assert LocalOk(Look(t, sid), sid, false);
      UnexcuseOk(t, sid);
    }
  }

  lemma UnexcuseOk(t: Store, sid: SessionId)
    requires StoreOk(t, Some(sid)) && sid in t.sessions && LocalOk(Look(t, sid), sid, false)
    ensures StoreOk(t, None)
  {
    forall o <- t.sessions ensures LocalOk(Look(t, o), o, false) {
      assert LocalOk(Look(t, o), o, Some(sid) == Some(o));
    }
  }

  /** The facts a callback inherits from the slot it releases. */
  ghost predicate Released(s: State, w: Writer, slot: Slot) {
    var t := s.store;
    && FrontOk(s) && StoreOk(t, Some(w.session)) && RetainedAt(t, w.path, w.session)
    && w.path !in t.slots && w.session in t.unpersisted
    && (slot.pending.None? || slot.pending == Some(w.session))
    && (w.outcome.Durable? || w.outcome.NotDurable? ==> DiskAt(t.disk, w.path) == w.payload)
    && (var document := t.sessions[w.session].document;
        match w.kind
        case Plain(_) => slot.pending.None? ==> w.payload == document.database
        case Merge(base) =>
          && (slot.pending.None? ==> document.generation == base)
          && (document.generation == base ==> Carries(w.payload, document.database)))
  }

  lemma PlainDoneInv(s: State, w: Writer, slot: Slot)
    requires w.kind.Plain? && Released(s, w, slot) && !w.outcome.Running?
    ensures Inv(PlainDone(s, w, slot))
  {
    var t := SetStatus(s.store, w.path, w.session, StatusAfter(w.outcome));
    SetStatusOk(s.store, w.path, w.session, StatusAfter(w.outcome));
    FrontFrame(s, t);
    AfterWriterInv(s.(store := t), w.path, w.session, w.outcome.Durable?, slot.pending, slot.syncAfter || w.kind.syncAfter);
  }

  lemma InstalledInv(s: State, w: Writer, slot: Slot)
    requires w.kind.Merge? && Released(s, w, slot) && !w.outcome.Running?
    requires AtBase(s.store, w.path, w.session, w.kind.base)
    requires w.outcome.Durable? ==> DiskAt(s.store.disk, w.path) == w.payload
    ensures
      var t := SetStatus(Install(s.store, w.session, w.payload), w.path, w.session, StatusAfter(w.outcome));
      Inv(AfterWriter(s.(store := t), w.path, w.session, w.outcome.Durable?, slot.pending, true))
  {
    var installed := Install(s.store, w.session, w.payload);
    InstallOk(s.store, w.session, w.payload);
    FrontFrame(s, installed);
    var t := SetStatus(installed, w.path, w.session, StatusAfter(w.outcome));
    SetStatusOk(installed, w.path, w.session, StatusAfter(w.outcome));
    FrontFrame(s.(store := installed), t);
    AfterWriterInv(s.(store := t), w.path, w.session, w.outcome.Durable?, slot.pending, true);
  }

  lemma MergeFailedInv(s: State, w: Writer, slot: Slot)
    requires w.kind.Merge? && Released(s, w, slot)
    ensures
      var t := SetStatus(s.store, w.path, w.session, Failed);
      Inv(AfterWriter(s.(store := t), w.path, w.session, false, slot.pending, true))
  {
    var t := SetStatus(s.store, w.path, w.session, Failed);
    SetStatusOk(s.store, w.path, w.session, Failed);
    FrontFrame(s, t);
    AfterWriterInv(s.(store := t), w.path, w.session, false, slot.pending, true);
  }

  lemma MergeDoneInv(s: State, w: Writer, slot: Slot)
    requires w.kind.Merge? && Released(s, w, slot) && !w.outcome.Running?
    ensures Inv(MergeDone(s, w, slot))
  {
    if w.outcome.WriteFailed? {
      if slot.pending.None? && Locked(s) && AtBase(s.store, w.path, w.session, w.kind.base) {
        InstalledInv(s, w, slot);
      } else {
        MergeFailedInv(s, w, slot);
      }
    } else if !AtBase(s.store, w.path, w.session, w.kind.base) {
      RequestSaveInv(s, w.path, w.session, true);
    } else {
      InstalledInv(s, w, slot);
    }
  }

  lemma CallbackReleases(s: State, id: WriterId)
    requires Inv(s) && Finished(s.store, id) && HoldsSlot(s.store, id)
    ensures
      var w := s.store.writers[id];
      && s.store.slots[w.path].owner == w.session
      && Released(s.(store := Release(s.store, id)), w, s.store.slots[w.path])
  {
    var t, w := s.store, s.store.writers[id];
    HolderLook(t, None, id);
    ReleaseOk(t, id);
    FrontFrame(s, Release(t, id));
  }

  lemma HolderCallbackInv(s: State, id: WriterId)
    requires Inv(s) && Finished(s.store, id) && HoldsSlot(s.store, id)
    ensures Inv(Callback(s, id))
  {
    var w := s.store.writers[id];
    CallbackReleases(s, id);
    var released := s.(store := Release(s.store, id));
    if w.kind.Plain? {
      PlainDoneInv(released, w, s.store.slots[w.path]);
    } else {
      MergeDoneInv(released, w, s.store.slots[w.path]);
    }
  }

  /** The slot a late callback finds, if any, belongs to another session. */
  lemma OrphanCallback(s: State, id: WriterId)
    requires ShapeOk(s.store) && Finished(s.store, id) && !HoldsSlot(s.store, id)
    ensures Callback(s, id) == s.(store := s.store.(writers := s.store.writers - {id}))
  {
    var w := s.store.writers[id];
    assert WriterOk(s.store, id);
    if w.path in s.store.slots {
      assert RetainedAt(s.store, w.path, s.store.slots[w.path].owner);
    }
  }

  lemma CallbackInv(s: State, id: WriterId)
    requires Inv(s) && Finished(s.store, id)
    ensures Inv(Callback(s, id))
  {
    if HoldsSlot(s.store, id) {
      HolderCallbackInv(s, id);
    } else {
      assert WriterOk(s.store, id);
      OrphanCallback(s, id);
      var u := s.store.(writers := s.store.writers - {id});
      OrphanStep(s.store, u, id);
      FrontFrame(s, u);
    }
  }

  // ----------------------------------------------------------------- every run

  lemma ReadVaultInv(s: State, id: nat)
    requires Inv(s) && id in s.opens
    ensures Inv(s.(opens := s.opens[id := s.opens[id].(read := Some(DiskAt(s.store.disk, s.opens[id].path)))]))
  {
  }

  /** Every action, foreground or background, keeps the invariant. */
  lemma NextInv(s: State, a: Action)
    requires Inv(s) && Enabled(s, a)
    ensures Inv(Next(s, a))
  {
    match a
    case SwitchToA(path) => if !Locked(s) && Occupied(s.store, path) { SwitchInv(s, path); }
    case RequestPasswordA(path) => RequestPasswordInv(s, path);
    case RehydrateA => RehydrateInv(s);
    case SubmitPasswordA(path) => SubmitPasswordInv(s, path);
    case FinishOpenA(t, decrypted) => FinishOpenInv(s, t, decrypted);
    case FailSelectionA => FailSelectionInv(s);
    case EditA(e, syncAfter) => EditInv(s, e, syncAfter);
    case SaveA(syncAfter, order) => SaveAsyncInv(s, syncAfter, order);
    case LockA(order) => LockInv(s, order);
    case DiscardA(stuck) => DiscardInv(s, stuck);
    case StartMergeA(path, bound) => StartMergeInv(s, path, bound);
    case CommitMergeA(j, merged, bound) => CommitMergeInv(s, j, merged, bound);
    case CallbackA(w) => CallbackInv(s, w);
    case ReadVaultA(t) => ReadVaultInv(s, t);
    case DropMergeA(j) => DropMergeInv(s, j);
    case FailA(w) => SetWriterInv(s, w, s.store.writers[w].phase, WriteFailed);
    case ClaimA(w) => SetWriterInv(s, w, Publishing, Running);
    case PublishA(w) => PublishInv(s, w);
    case RenameFailedA(w) => SetWriterInv(s, w, Publishing, WriteFailed);
    case SyncDirectoryA(w, durable) => SetWriterInv(s, w, Published, if durable then Durable else NotDurable);
  }

  lemma {:induction false} RunInv(states: seq<State>, actions: seq<Action>, i: nat)
    requires IsRun(states, actions) && i < |states|
    ensures Inv(states[i])
  {
    if i == 0 {
      InitInv(states[0]);
    } else {
      RunInv(states, actions, i - 1);
      NextInv(states[i - 1], actions[i - 1]);
    }
  }

  lemma PresentInv(run: Run)
    ensures Inv(Present(run))
  {
    RunInv(run.states, run.actions, |run.actions|);
  }
}
