/**
 The vault-session half of `AppState`, with the program's own fields: one
 active vault, a map of parked ones, a map of quarantined ones, the dirty set
 and the per-path writer slots. Every public method is proved to be the action
 of `SaveProtocol` it stands for, and so is every step of a background task.
 An object carries its history, and each call makes that history longer by its
 own action: whatever `SaveTheorems` says of runs is said of the object.
 */
module AppStateModel {
  import opened Wrappers
  import P = SaveProtocol
  import I = SaveInvariant
  import T = SaveTheorems

  type Path = P.Path
  type SessionId = P.SessionId
  type Database = P.Database
  type SaveStatus = P.SaveStatus
  type Document = P.Document

  datatype VaultStatus =
    | Empty
    | AwaitingPassword(path: Path)
    | Opening(path: Path)
    | Open(path: Path, document: Document)
    | LockedPendingSave
    | Error

  datatype ParkedSession = ParkedSession(sessionId: SessionId, document: Document, saveStatus: SaveStatus)

  datatype DeferredSaveSession = DeferredSaveSession(path: Path, document: Document, saveStatus: SaveStatus)

  // ------------------------------------------- the fields, as one value

  datatype Fields = Fields(
    vault: VaultStatus, active: Option<SessionId>, saveStatus: SaveStatus,
    parked: map<Path, ParkedSession>, parkedOrder: seq<Path>,
    unpersisted: set<SessionId>, lockRequested: bool,
    deferred: map<SessionId, DeferredSaveSession>, saves: map<Path, P.Slot>,
    openAttempt: nat, nextSession: SessionId, autoTypeContext: nat,
    writers: map<P.WriterId, P.Writer>, nextWriter: P.WriterId)

  ghost predicate ActiveTied(h: Fields, t: P.Store) {
    && (h.vault.Open? <==> h.active.Some?)
    && (h.vault.Open? ==>
          && h.active.value in t.sessions
          && t.sessions[h.active.value] == P.Session(h.vault.path, h.vault.document, h.saveStatus)
          && h.vault.path !in h.parked)
  }

  ghost predicate ParkedTied(h: Fields, t: P.Store) {
    forall p <- h.parked ::
      && h.parked[p].sessionId in t.sessions
      && t.sessions[h.parked[p].sessionId] == P.Session(p, h.parked[p].document, h.parked[p].saveStatus)
      && h.active != Some(h.parked[p].sessionId)
  }

  ghost predicate DeferredTied(h: Fields, t: P.Store) {
    forall sid <- h.deferred ::
      && sid in t.sessions
      && t.sessions[sid] == P.Session(h.deferred[sid].path, h.deferred[sid].document, h.deferred[sid].saveStatus)
  }

  /** No session is kept anywhere else. */
  ghost predicate AllHeld(h: Fields, t: P.Store) {
    forall sid <- t.sessions ::
      || h.active == Some(sid)
      || (t.sessions[sid].path in h.parked && h.parked[t.sessions[sid].path].sessionId == sid)
      || sid in h.deferred
  }

  /** What the locked screen shows: a failed save if there is one. */
  function LockedStatus(deferred: map<SessionId, DeferredSaveSession>): SaveStatus {
    if exists sid <- deferred :: deferred[sid].saveStatus.Failed? then P.Failed else P.Saving
  }

  ghost predicate StatusTied(h: Fields) {
    && (h.deferred != map[] ==> h.vault.LockedPendingSave?)
    && (h.vault.LockedPendingSave? ==> h.parked == map[] && h.saveStatus == LockedStatus(h.deferred))
    && (!h.vault.Open? && !h.vault.LockedPendingSave? ==> h.saveStatus == P.Idle)
  }

  ghost function ScreenOf(vault: VaultStatus, active: Option<SessionId>): P.Screen {
    match vault
    case Empty => P.Welcome
    case AwaitingPassword(p) => P.AwaitingPassword(p)
    case Opening(p) => P.Opening(p)
    case Open(_, _) => if active.Some? then P.Open(active.value) else P.Welcome
    case LockedPendingSave => P.LockedPendingSave
    case Error => P.Error
  }

  /** What the fields and the protocol state have in common, documents aside. */
  datatype Books = Books(
    screen: P.Screen, parkedOrder: seq<Path>, lockRequested: bool, openAttempt: nat, typingContext: nat,
    unpersisted: set<SessionId>, slots: map<Path, P.Slot>, nextSession: SessionId,
    writers: map<P.WriterId, P.Writer>, nextWriter: P.WriterId)

  ghost function BooksOf(s: P.State): Books {
    Books(s.screen, s.parkedOrder, s.lockRequested, s.openAttempt, s.typingContext, s.store.unpersisted,
          s.store.slots, s.store.nextSession, s.store.writers, s.store.nextWriter)
  }

  ghost predicate SameBooks(h: Fields, s: P.State) {
    BooksOf(s) == Books(ScreenOf(h.vault, h.active), h.parkedOrder, h.lockRequested, h.openAttempt, h.autoTypeContext,
                        h.unpersisted, h.saves, h.nextSession, h.writers, h.nextWriter)
  }

  /** The fields stand for the protocol state `s`. */
  ghost predicate Rep(h: Fields, s: P.State) {
    && ActiveTied(h, s.store) && ParkedTied(h, s.store) && DeferredTied(h, s.store) && AllHeld(h, s.store)
    && StatusTied(h) && SameBooks(h, s)
  }

  // ----------------------------- one document's place changes, or its content

  function Parked(h: Fields): Fields
    requires h.vault.Open? && h.active.Some?
  {
    h.(vault := Empty, active := None, saveStatus := P.Idle,
       parkedOrder := P.Without(h.parkedOrder, h.vault.path) + [h.vault.path],
       parked := h.parked[h.vault.path := ParkedSession(h.active.value, h.vault.document, h.saveStatus)])
  }

  lemma ParkedRep(h: Fields, s: P.State)
    requires Rep(h, s)
    ensures if h.vault.Open? then h.active.Some? && Rep(Parked(h), P.ParkActive(s)) else P.ParkActive(s) == s
  {
  }

  function Unparked(h: Fields, path: Path): Fields
    requires path in h.parked
  {
    var session := h.parked[path];
    h.(vault := Open(path, session.document), active := Some(session.sessionId), saveStatus := session.saveStatus,
       parked := h.parked - {path}, parkedOrder := P.Without(h.parkedOrder, path))
  }

  lemma UnparkedRep(h: Fields, s: P.State, path: Path)
    requires Rep(h, s) && !h.vault.Open? && !h.vault.LockedPendingSave? && path in h.parked
    ensures h.parked[path].sessionId in s.store.sessions
    ensures Rep(Unparked(h, path), P.Unpark(s, h.parked[path].sessionId))
  {
    var u := Unparked(h, path);
    forall p <- u.parked ensures u.active != Some(u.parked[p].sessionId) {
      assert u.parked[p].sessionId == h.parked[path].sessionId ==> p == path;
    }
  }

  lemma RotatedRep(h: Fields, s: P.State)
    requires Rep(h, s)
    ensures Rep(h.(autoTypeContext := h.autoTypeContext + 1), P.Rotate(s))
  {
  }

  /** Swapping one screen without a vault for another. */
  lemma ScreenRep(h: Fields, s: P.State, vault: VaultStatus, openAttempt: nat)
    requires Rep(h, s) && !h.vault.Open? && !h.vault.LockedPendingSave?
    requires !vault.Open? && !vault.LockedPendingSave?
    ensures Rep(h.(vault := vault, openAttempt := openAttempt), s.(screen := ScreenOf(vault, None), openAttempt := openAttempt))
  {
  }

  ghost predicate KeptActive(h: Fields, target: Path, sid: SessionId) {
    h.vault.Open? && h.vault.path == target && h.active == Some(sid)
  }

  ghost predicate KeptParked(h: Fields, target: Path, sid: SessionId) {
    target in h.parked && h.parked[target].sessionId == sid
  }

  ghost predicate KeptDeferred(h: Fields, target: Path, sid: SessionId) {
    sid in h.deferred && h.deferred[sid].path == target
  }

  /** `document` and `status` put where the session is kept. */
  ghost function Put(h: Fields, target: Path, sid: SessionId, document: Document, status: SaveStatus): Fields {
    if KeptActive(h, target, sid) then h.(vault := Open(target, document), saveStatus := status)
    else if KeptParked(h, target, sid) then h.(parked := h.parked[target := ParkedSession(sid, document, status)])
    else if KeptDeferred(h, target, sid) then
      var deferred := h.deferred[sid := DeferredSaveSession(target, document, status)];
      h.(deferred := deferred, saveStatus := LockedStatus(deferred))
    else h
  }

  lemma KeptIffRetained(h: Fields, s: P.State, target: Path, sid: SessionId)
    requires Rep(h, s)
    ensures P.RetainedAt(s.store, target, sid) <==>
              KeptActive(h, target, sid) || KeptParked(h, target, sid) || KeptDeferred(h, target, sid)
  {
  }

  ghost function PutSession(s: P.State, sid: SessionId, document: Document, status: SaveStatus): P.State
    requires sid in s.store.sessions
  {
    s.(store := s.store.(sessions := s.store.sessions[sid := s.store.sessions[sid].(document := document, status := status)]))
  }

  lemma PutRep(h: Fields, s: P.State, target: Path, sid: SessionId, document: Document, status: SaveStatus)
    requires Rep(h, s) && P.RetainedAt(s.store, target, sid)
    ensures Rep(Put(h, target, sid, document, status), PutSession(s, sid, document, status))
  {
    KeptIffRetained(h, s, target, sid);
    if KeptActive(h, target, sid) {
      PutActiveRep(h, s, target, sid, document, status);
    } else if KeptParked(h, target, sid) {
      PutParkedRep(h, s, target, sid, document, status);
    } else {
      PutDeferredRep(h, s, target, sid, document, status);
    }
  }

  lemma PutActiveRep(h: Fields, s: P.State, target: Path, sid: SessionId, document: Document, status: SaveStatus)
    requires Rep(h, s) && P.RetainedAt(s.store, target, sid) && KeptActive(h, target, sid)
    ensures Rep(h.(vault := Open(target, document), saveStatus := status), PutSession(s, sid, document, status))
  {
  }

  lemma PutParkedRep(h: Fields, s: P.State, target: Path, sid: SessionId, document: Document, status: SaveStatus)
    requires Rep(h, s) && P.RetainedAt(s.store, target, sid) && KeptParked(h, target, sid)
    ensures Rep(h.(parked := h.parked[target := ParkedSession(sid, document, status)]), PutSession(s, sid, document, status))
  {
  }

  lemma PutDeferredRep(h: Fields, s: P.State, target: Path, sid: SessionId, document: Document, status: SaveStatus)
    requires Rep(h, s) && P.RetainedAt(s.store, target, sid) && KeptDeferred(h, target, sid)
    ensures
      var deferred := h.deferred[sid := DeferredSaveSession(target, document, status)];
      Rep(h.(deferred := deferred, saveStatus := LockedStatus(deferred)), PutSession(s, sid, document, status))
  {
  }

  ghost function PutStatus(h: Fields, target: Path, sid: SessionId, status: SaveStatus): Fields {
    if KeptActive(h, target, sid) then h.(saveStatus := status)
    else if KeptParked(h, target, sid) then h.(parked := h.parked[target := h.parked[target].(saveStatus := status)])
    else if KeptDeferred(h, target, sid) then
      var deferred := h.deferred[sid := h.deferred[sid].(saveStatus := status)];
      h.(deferred := deferred, saveStatus := LockedStatus(deferred))
    else h
  }

  lemma PutStatusIsPut(h: Fields, s: P.State, target: Path, sid: SessionId, status: SaveStatus)
    requires Rep(h, s) && P.RetainedAt(s.store, target, sid)
    ensures PutStatus(h, target, sid, status) == Put(h, target, sid, s.store.sessions[sid].document, status)
  {
  }

  lemma PutStatusRep(h: Fields, s: P.State, target: Path, sid: SessionId, status: SaveStatus)
    requires Rep(h, s)
    ensures Rep(PutStatus(h, target, sid, status), s.(store := P.SetStatus(s.store, target, sid, status)))
  {
    KeptIffRetained(h, s, target, sid);
    hide Rep;
    if P.RetainedAt(s.store, target, sid) {
      PutRep(h, s, target, sid, s.store.sessions[sid].document, status);
      PutStatusIsPut(h, s, target, sid, status);
    }
  }

  ghost function PutDocument(h: Fields, target: Path, sid: SessionId, document: Document): Fields {
    if KeptActive(h, target, sid) then h.(vault := Open(target, document))
    else if KeptParked(h, target, sid) then h.(parked := h.parked[target := h.parked[target].(document := document)])
    else if KeptDeferred(h, target, sid) then h.(deferred := h.deferred[sid := h.deferred[sid].(document := document)])
    else h
  }

  lemma PutDocumentIsPut(h: Fields, s: P.State, target: Path, sid: SessionId, document: Document)
    requires Rep(h, s) && P.RetainedAt(s.store, target, sid)
    ensures PutDocument(h, target, sid, document) == Put(h, target, sid, document, s.store.sessions[sid].status)
  {
    if KeptDeferred(h, target, sid) {
      var deferred := h.deferred[sid := h.deferred[sid].(document := document)];
      assert forall o <- deferred :: o in h.deferred && deferred[o].saveStatus == h.deferred[o].saveStatus;
      assert forall o <- h.deferred :: o in deferred;
    }
  }

  lemma PutDocumentRep(h: Fields, s: P.State, target: Path, sid: SessionId, document: Document)
    requires Rep(h, s) && P.RetainedAt(s.store, target, sid)
    ensures Rep(PutDocument(h, target, sid, document), s.(store := P.SetDocument(s.store, sid, document)))
  {
    PutDocumentIsPut(h, s, target, sid, document);
    hide Rep;
    PutRep(h, s, target, sid, document, s.store.sessions[sid].status);
  }

  /** Bookkeeping that touches no document. */
  lemma BooksRep(h: Fields, s: P.State, unpersisted: set<SessionId>, saves: map<Path, P.Slot>,
                 writers: map<P.WriterId, P.Writer>, nextWriter: P.WriterId)
    requires Rep(h, s)
    ensures Rep(h.(unpersisted := unpersisted, saves := saves, writers := writers, nextWriter := nextWriter),
                s.(store := s.store.(unpersisted := unpersisted, slots := saves, writers := writers, nextWriter := nextWriter)))
  {
  }

  // ------------------------------------------------- documents come and go

  function Opened(h: Fields, path: Path, database: Database): Fields {
    h.(vault := Open(path, P.Document(database, 0)), active := Some(h.nextSession), nextSession := h.nextSession + 1)
  }

  lemma OpenedRep(h: Fields, s: P.State, path: Path, database: Database)
    requires Rep(h, s) && !h.vault.Open? && !h.vault.LockedPendingSave? && path !in h.parked
    requires s.store.nextSession !in s.store.sessions
    ensures Rep(Opened(h, path, database).(autoTypeContext := h.autoTypeContext + 1), P.OpenDocument(s, path, database))
  {
  }

  function Dropped(h: Fields, sid: SessionId): Fields {
    var deferred := h.deferred - {sid};
    h.(unpersisted := h.unpersisted - {sid}, deferred := deferred,
       saveStatus := if h.vault.LockedPendingSave? then LockedStatus(deferred) else h.saveStatus)
  }

  lemma DroppedRep(h: Fields, s: P.State, sid: SessionId)
    requires Rep(h, s)
    ensures Rep(Dropped(h, sid), s.(store := P.MarkPersisted(s.store, sid, P.Locked(s))))
  {
  }

  function Cleared(h: Fields): Fields {
    h.(vault := Empty, active := None, saveStatus := P.Idle, parked := map[], parkedOrder := [], deferred := map[],
       lockRequested := false, autoTypeContext := h.autoTypeContext + 1)
  }

  lemma ClearedRep(h: Fields, s: P.State)
    requires SameBooks(h, s)
    ensures Rep(Cleared(h), P.LockNow(s))
  {
  }

  ghost predicate NeedsSaving(t: P.Store, sid: SessionId) {
    sid in t.unpersisted || P.Queued(t, sid)
  }

  /** `deferred` holds exactly the retained sessions that still need saving. */
  ghost predicate IsQuarantine(s: P.State, deferred: map<SessionId, DeferredSaveSession>) {
    && (forall sid <- deferred ::
          && sid in s.store.sessions && NeedsSaving(s.store, sid)
          && s.store.sessions[sid] == P.Session(deferred[sid].path, deferred[sid].document, deferred[sid].saveStatus))
    && (forall sid <- s.store.sessions :: NeedsSaving(s.store, sid) ==> sid in deferred)
  }

  function Quarantined(h: Fields, deferred: map<SessionId, DeferredSaveSession>): Fields {
    h.(vault := LockedPendingSave, active := None, parked := map[], parkedOrder := [], deferred := deferred,
       saveStatus := LockedStatus(deferred), autoTypeContext := h.autoTypeContext + 1, lockRequested := true)
  }

  lemma QuarantinedRep(h: Fields, s: P.State, deferred: map<SessionId, DeferredSaveSession>)
    requires SameBooks(h, s) && !P.Locked(s) && IsQuarantine(s, deferred)
    ensures Rep(Quarantined(h, deferred), P.RequestLock(s))
  {
    assert P.Quarantined(s.store).sessions.Keys == deferred.Keys;
  }

  lemma BooksForgotten(h: Fields, s: P.State)
    requires SameBooks(h, s)
    ensures SameBooks(h.(unpersisted := {}, saves := map[], lockRequested := false),
                      s.(lockRequested := false, store := P.WriteOff(s.store)))
  {
  }

  // ------------------------------------------- collecting what a lock keeps

  datatype Candidate = Candidate(path: Path, sessionId: SessionId, document: Document, saveStatus: SaveStatus)

  /** Every candidate is a retained session, as it is retained. */
  ghost predicate AreRetained(s: P.State, candidates: seq<Candidate>) {
    forall i :: 0 <= i < |candidates| ==>
      && candidates[i].sessionId in s.store.sessions
      && s.store.sessions[candidates[i].sessionId] == P.Session(candidates[i].path, candidates[i].document, candidates[i].saveStatus)
  }

  ghost predicate IsCandidate(candidates: seq<Candidate>, sid: SessionId) {
    exists i :: 0 <= i < |candidates| && candidates[i].sessionId == sid
  }

  /** The candidates are all of the retained sessions. */
  ghost predicate Collected(s: P.State, candidates: seq<Candidate>) {
    AreRetained(s, candidates) && forall sid <- s.store.sessions :: IsCandidate(candidates, sid)
  }

  // ------------------------------------------------------ retrying, step by step

  lemma RequestSavePaths(t: P.Store, path: Path, sid: SessionId, syncAfter: bool)
    ensures var u := P.RequestSave(t, path, sid, syncAfter);
      u.sessions.Keys == t.sessions.Keys && forall o <- t.sessions :: u.sessions[o].path == t.sessions[o].path
  {
    T.RequestSaveSame(t, path, sid, syncAfter);
    T.RequestSaveKeys(t, path, sid, syncAfter);
    hide P.RequestSave;
  }

  lemma {:induction false} RetryAllPaths(t: P.Store, order: seq<SessionId>)
    ensures var u := P.RetryAll(t, order);
      u.sessions.Keys == t.sessions.Keys && forall o <- t.sessions :: u.sessions[o].path == t.sessions[o].path
    decreases |order|
  {
    if order != [] {
      if order[0] in t.sessions {
        RequestSavePaths(t, t.sessions[order[0]].path, order[0], false);
        RetryAllPaths(P.RequestSave(t, t.sessions[order[0]].path, order[0], false), order[1..]);
      } else {
        RetryAllPaths(t, order[1..]);
      }
    }
  }

  lemma {:induction false} RetryAllLast(t: P.Store, order: seq<SessionId>, sid: SessionId)
    requires sid in t.sessions
    ensures P.RetryAll(t, order + [sid]) == P.RequestSave(P.RetryAll(t, order), t.sessions[sid].path, sid, false)
    decreases |order|
  {
    if order == [] {
      assert order + [sid] == [sid];
    } else {
      assert (order + [sid])[1..] == order[1..] + [sid];
      if order[0] in t.sessions {
        RequestSavePaths(t, t.sessions[order[0]].path, order[0], false);
        RetryAllLast(P.RequestSave(t, t.sessions[order[0]].path, order[0], false), order[1..], sid);
      } else {
        RetryAllLast(t, order[1..], sid);
      }
    }
  }

  // ------------------------------------------------ the abort handles, one by one

  ghost predicate IsSlotWriter(saves: map<Path, P.Slot>, paths: set<Path>, w: P.WriterId) {
    exists p <- saves :: p in paths && saves[p].writer == w
  }

  /** The writers once the abort handles of the slots in `paths` have been tried. */
  ghost function Tried(saves: map<Path, P.Slot>, writers: map<P.WriterId, P.Writer>, paths: set<Path>): map<P.WriterId, P.Writer> {
    map w | w in writers ::
      if IsSlotWriter(saves, paths, w) then writers[w].(phase := P.TryAbort(writers[w].phase)) else writers[w]
  }

  lemma TriedOneMore(saves: map<Path, P.Slot>, writers: map<P.WriterId, P.Writer>, paths: set<Path>, path: Path)
    requires path in saves && saves[path].writer in writers
    ensures
      var w := saves[path].writer;
      var before := Tried(saves, writers, paths);
      var phase := P.TryAbort(before[w].phase);
      && phase == P.TryAbort(writers[w].phase)
      && Tried(saves, writers, paths + {path}) == before[w := before[w].(phase := phase)]
  {
    var w := saves[path].writer;
    forall o <- writers ensures IsSlotWriter(saves, paths + {path}, o) <==> IsSlotWriter(saves, paths, o) || o == w {
      if IsSlotWriter(saves, paths, o) {
        var p :| p in saves && p in paths && saves[p].writer == o;
        assert p in paths + {path};
      }
    }
  }

  /** What the program has been through so far. */
  class Journal {
    ghost var run: P.Run

    ghost constructor (disk: map<Path, Database>)
      ensures run == P.History([P.Fresh(disk)], [])
    {
      run := P.History([P.Fresh(disk)], []);
    }
  }

  class AppState {
    var vault: VaultStatus
    var activeVaultSessionId: Option<SessionId>
    var saveStatus: SaveStatus
    var parked: map<Path, ParkedSession>
    var parkedOrder: seq<Path>
    var unpersisted: set<SessionId>
    var lockRequestedAfterSave: bool
    var deferredLockSessions: map<SessionId, DeferredSaveSession>
    var savesInFlight: map<Path, P.Slot>
    var openAttempt: nat
    var nextSession: SessionId
    var autoTypeContext: nat
    // the background save tasks, and with them the abort handles the slots share
    var writers: map<P.WriterId, P.Writer>
    var nextWriter: P.WriterId

    /** The protocol state these fields stand for, disk and history included. */
    ghost var view: P.State

    /** Every call and every background step there has been. */
    ghost const journal: Journal

    ghost function Now(): Fields
      reads this
    {
      Fields(vault, activeVaultSessionId, saveStatus, parked, parkedOrder, unpersisted, lockRequestedAfterSave,
             deferredLockSessions, savesInFlight, openAttempt, nextSession, autoTypeContext, writers, nextWriter)
    }

    ghost predicate Valid()
      reads this
    {
      Rep(Now(), view)
    }

    /** No call is under way: the history has come as far as the fields. */
    ghost predicate AtRest()
      reads this, journal
    {
      Valid() && P.Present(journal.run) == view
    }

    /** A fresh program: nothing unlocked, and whatever the disk holds. */
    constructor (ghost disk: map<Path, Database>)
      ensures AtRest() && fresh(journal)
      ensures view == P.Fresh(disk) && journal.run == P.History([view], [])
    {
      vault, activeVaultSessionId, saveStatus := Empty, None, P.Idle;
      parked, parkedOrder, deferredLockSessions := map[], [], map[];
      unpersisted, lockRequestedAfterSave, savesInFlight := {}, false, map[];
      openAttempt, nextSession, autoTypeContext := 0, 1, 0;
      writers, nextWriter := map[], 0;
      view := P.Fresh(disk);
      journal := new Journal(disk);
    }

    // ------------------------------------------------------------- history

    lemma SoundNow()
      requires AtRest()
      ensures I.Inv(view)
    {
      I.PresentInv(journal.run);
    }

    /** What is proved of runs is proved of the object, at every moment between two calls. */
    lemma EveryAcceptedEditIsKept(i: nat)
      requires AtRest() && i < |journal.run.actions|
      requires journal.run.actions[i].EditA? && journal.run.states[i].screen.Open?
      ensures
        var before, sid := journal.run.states[i], journal.run.states[i].screen.session;
        sid in before.store.sessions &&
        (T.Kept(view.store, before.store.sessions[sid].path, sid, journal.run.actions[i].edit)
         || T.DiscardedBetween(journal.run.states, journal.run.actions, sid, i + 1, |journal.run.actions|))
    {
      T.NoAcceptedEditLost(journal.run.states, journal.run.actions, i, |journal.run.actions|);
    }

    /** The call that ends here was action `a`. */
    ghost method Log(a: P.Action)
      requires P.Enabled(P.Present(journal.run), a) && view == P.Next(P.Present(journal.run), a)
      modifies journal
      ensures journal.run == P.Then(old(journal.run), a) && P.Present(journal.run) == view
    {
      hide P.Enabled, P.Next;
      journal.run := P.Then(journal.run, a);
    }

    /** What the disk, the merges and the background opens are is not in the fields. */
    ghost method SetBackground(opens: map<nat, P.OpenTask>, merges: map<nat, P.MergeJob>,
                               disk: map<Path, Database>, lastPublisher: map<Path, P.WriterId>)
      requires Valid()
      modifies this`view
      ensures Valid()
      ensures view == old(view).(opens := opens, store := old(view).store.(
                merges := merges, disk := disk, lastPublisher := lastPublisher))
    {
      RepIgnoresBackground(Now(), view, opens, merges, disk, lastPublisher);
      hide Rep;
      view := view.(opens := opens, store := view.store.(merges := merges, disk := disk, lastPublisher := lastPublisher));
    }

    lemma RepIgnoresBackground(h: Fields, s: P.State, opens: map<nat, P.OpenTask>, merges: map<nat, P.MergeJob>,
                               disk: map<Path, Database>, lastPublisher: map<Path, P.WriterId>)
      requires Rep(h, s)
      ensures Rep(h, s.(opens := opens, store := s.store.(merges := merges, disk := disk, lastPublisher := lastPublisher)))
    {
    }

    /** A background task moves: the only steps that happen outside of a call. */
    method BackgroundStep(a: P.Action)
      requires AtRest() && P.Background(a) && P.Enabled(view, a)
      modifies this`writers, this`view, journal
      ensures AtRest() && journal.run == P.Then(old(journal.run), a)
      ensures view == P.Next(old(view), a)
    {
      hide Rep, P.Enabled, P.Next;
      Advance(a);
      Log(a);
    }

    method Advance(a: P.Action)
      requires Valid() && P.Background(a) && P.Enabled(view, a)
      modifies this`writers, this`view
      ensures Valid() && view == P.Next(old(view), a)
    {
      WritersAgree();
      hide Rep;
      match a {
        case ReadVaultA(task) =>
          ghost var read := P.DiskAt(view.store.disk, view.opens[task].path);
          SetBackground(view.opens[task := view.opens[task].(read := Some(read))],
                        view.store.merges, view.store.disk, view.store.lastPublisher);
        case DropMergeA(job) =>
          SetBackground(view.opens, view.store.merges - {job}, view.store.disk, view.store.lastPublisher);
        case FailA(w) =>
          SetWriter(w, writers[w].phase, P.WriteFailed);
        case ClaimA(w) =>
          SetWriter(w, P.Publishing, P.Running);
        case PublishA(w) =>
          SetWriter(w, P.Published, P.Running);
          SetBackground(view.opens, view.store.merges, view.store.disk[writers[w].path := writers[w].payload],
                        view.store.lastPublisher[writers[w].path := w]);
        case RenameFailedA(w) =>
          SetWriter(w, P.Publishing, P.WriteFailed);
        case SyncDirectoryA(w, durable) =>
          SetWriter(w, P.Published, if durable then P.Durable else P.NotDurable);
        case _ => assert false;
      }
    }

    method SetWriter(w: P.WriterId, phase: P.Phase, outcome: P.Outcome)
      requires Valid() && w in writers && w in view.store.writers
      modifies this`writers, this`view
      ensures Valid()
      ensures view == old(view).(store := P.SetWriter(old(view).store, w, phase, outcome))
    {
      WritersAgree();
      ghost var next := P.SetWriter(view.store, w, phase, outcome);
      BooksRep(Now(), view, unpersisted, savesInFlight, next.writers, nextWriter);
      hide Rep;
      view := view.(store := next);
      writers := writers[w := writers[w].(phase := phase, outcome := outcome)];
    }

    lemma WritersAgree()
      requires Valid()
      ensures writers == view.store.writers
      ensures unpersisted == view.store.unpersisted && savesInFlight == view.store.slots && nextWriter == view.store.nextWriter
    {
    }

    // ------------------------------------------------------------- lookups

    predicate IsActiveVault(target: Path)
      reads this
    {
      vault.Open? && vault.path == target
    }

    /** `vault_session_id_for`: what every user-facing lookup goes through. */
    function VaultSessionIdFor(target: Path): (r: Option<SessionId>)
      requires Valid()
      reads this
      ensures r.Some? ==> P.Current(view, target, r.value)
      ensures r.None? ==> forall sid :: !P.Current(view, target, sid)
    {
      if IsActiveVault(target) then activeVaultSessionId
      else if target in parked then Some(parked[target].sessionId)
      else None
    }

    /** The document a save or a merge of this session works on, quarantine included. */
    function DocumentFor(target: Path, sid: SessionId): (r: Option<Document>)
      requires Valid()
      reads this
      ensures r == if P.RetainedAt(view.store, target, sid) then Some(view.store.sessions[sid].document) else None
    {
      if IsActiveVault(target) && activeVaultSessionId == Some(sid) then Some(vault.document)
      else if target in parked && parked[target].sessionId == sid then Some(parked[target].document)
      else if sid in deferredLockSessions && deferredLockSessions[sid].path == target then Some(deferredLockSessions[sid].document)
      else None
    }

    predicate SaveQueueContainsSession(sid: SessionId)
      requires Valid()
      reads this
      ensures SaveQueueContainsSession(sid) <==> P.Queued(view.store, sid)
    {
      exists p <- savesInFlight :: savesInFlight[p].owner == sid || savesInFlight[p].pending == Some(sid)
    }

    predicate HasUnpersistedSaveWork()
      requires Valid()
      reads this
      ensures HasUnpersistedSaveWork() <==> P.HasSaveWork(view.store)
    {
      unpersisted != {} || savesInFlight != map[]
    }

    // --------------------------------------------------- parking and unparking

    method RotateAutoTypeContext()
      requires Valid()
      modifies this`autoTypeContext, this`view
      ensures Valid() && view == P.Rotate(old(view))
    {
      hide Rep, P.Rotate;
      RotatedRep(Now(), view);
      view := P.Rotate(view);
      autoTypeContext := autoTypeContext + 1;
    }

    method ParkActive()
      requires Valid()
      modifies this`vault, this`activeVaultSessionId, this`saveStatus, this`parkedOrder, this`parked, this`view
      ensures Valid() && !vault.Open?
      ensures view == P.ParkActive(old(view))
      ensures Now() == if old(vault).Open? && old(activeVaultSessionId).Some? then Parked(old(Now())) else old(Now())
    {
      hide Rep, P.ParkActive;
      ParkedRep(Now(), view);
      if vault.Open? {
        SetParked(parked[vault.path := ParkedSession(activeVaultSessionId.value, vault.document, saveStatus)],
                  P.Without(parkedOrder, vault.path) + [vault.path]);
        SetFront(Empty, None, P.Idle);
        StandFor(P.ParkActive(view));
      }
    }

    method SetFront(next: VaultStatus, session: Option<SessionId>, status: SaveStatus)
      modifies this`vault, this`activeVaultSessionId, this`saveStatus
      ensures Now() == old(Now()).(vault := next, active := session, saveStatus := status)
    {
      vault, activeVaultSessionId, saveStatus := next, session, status;
    }

    method SetParked(sessions: map<Path, ParkedSession>, order: seq<Path>)
      modifies this`parked, this`parkedOrder
      ensures Now() == old(Now()).(parked := sessions, parkedOrder := order)
    {
      parked, parkedOrder := sessions, order;
    }

    /** Every lock also takes the auto-type context away. */
    method SetQuarantine(sessions: map<SessionId, DeferredSaveSession>, requested: bool)
      modifies this`deferredLockSessions, this`lockRequestedAfterSave, this`autoTypeContext
      ensures Now() == old(Now()).(deferred := sessions, lockRequested := requested,
                                   autoTypeContext := old(autoTypeContext) + 1)
    {
      deferredLockSessions, lockRequestedAfterSave := sessions, requested;
      autoTypeContext := autoTypeContext + 1;
    }

    /** The fields have been brought to `s`. */
    ghost method StandFor(s: P.State)
      requires Rep(Now(), s)
      modifies this`view
      ensures Valid() && view == s && Now() == old(Now())
    {
      view := s;
    }

    method Unpark(path: Path) returns (found: bool)
      requires Valid() && !vault.Open? && !vault.LockedPendingSave?
      modifies this`vault, this`activeVaultSessionId, this`saveStatus, this`parkedOrder, this`parked, this`view
      ensures Valid()
      ensures found == (path in old(parked))
      ensures !found ==> view == old(view)
      ensures found ==> old(parked)[path].sessionId in old(view).store.sessions
                        && view == P.Unpark(old(view), old(parked)[path].sessionId)
    {
      hide Rep, P.Unpark;
      if path !in parked {
        return false;
      }
      UnparkedRep(Now(), view, path);
      var session := parked[path];
      SetParked(parked - {path}, P.Without(parkedOrder, path));
      SetFront(Open(path, session.document), Some(session.sessionId), session.saveStatus);
      StandFor(P.Unpark(view, session.sessionId));
      return true;
    }

    // ------------------------------------------------------------- saving

    method SetSaveStatusForSession(target: Path, sid: SessionId, status: SaveStatus)
      requires Valid()
      modifies this`saveStatus, this`parked, this`deferredLockSessions, this`view
      ensures Valid()
      ensures view == old(view).(store := P.SetStatus(old(view).store, target, sid, status))
    {
      hide Rep, P.SetStatus;
      PutStatusRep(Now(), view, target, sid, status);
      view := view.(store := P.SetStatus(view.store, target, sid, status));
      if IsActiveVault(target) && activeVaultSessionId == Some(sid) {
        saveStatus := status;
      } else if target in parked && parked[target].sessionId == sid {
        parked := parked[target := parked[target].(saveStatus := status)];
      } else if sid in deferredLockSessions && deferredLockSessions[sid].path == target {
        deferredLockSessions := deferredLockSessions[sid := deferredLockSessions[sid].(saveStatus := status)];
        saveStatus := LockedStatus(deferredLockSessions);
      }
    }

    /** `request_save_for_session`. */
    method RequestSaveForSession(target: Path, sid: SessionId, syncAfter: bool)
      requires Valid()
      modifies this`saveStatus, this`parked, this`deferredLockSessions, this`unpersisted, this`savesInFlight,
               this`writers, this`nextWriter, this`view
      ensures Valid()
      ensures view == old(view).(store := P.RequestSave(old(view).store, target, sid, syncAfter))
    {
      var payload := DocumentFor(target, sid);
      if payload.None? {
        return;
      }
      hide Rep;
      SetSaveStatusForSession(target, sid, P.Saving);
      if target in savesInFlight {
        var slot := savesInFlight[target];
        Record(unpersisted + {sid},
               savesInFlight[target := slot.(pending := Some(sid), syncAfter := slot.syncAfter || syncAfter)],
               writers, nextWriter);
      } else {
        StartWriter(target, sid, payload.value.database, P.Plain(syncAfter));
      }
    }

    method Record(unpersisted': set<SessionId>, saves: map<Path, P.Slot>,
                  writers': map<P.WriterId, P.Writer>, nextWriter': P.WriterId)
      requires Valid()
      modifies this`unpersisted, this`savesInFlight, this`writers, this`nextWriter, this`view
      ensures Valid()
      ensures unpersisted == unpersisted' && savesInFlight == saves && writers == writers' && nextWriter == nextWriter'
      ensures view == old(view).(store := old(view).store.(unpersisted := unpersisted', slots := saves,
                                                           writers := writers', nextWriter := nextWriter'))
    {
      hide Rep;
      BooksRep(Now(), view, unpersisted', saves, writers', nextWriter');
      view := view.(store := view.store.(unpersisted := unpersisted', slots := saves,
                                         writers := writers', nextWriter := nextWriter'));
      unpersisted, savesInFlight, writers, nextWriter := unpersisted', saves, writers', nextWriter';
    }

    /** Take the slot of `target` and spawn the background task that writes `payload`. */
    method StartWriter(target: Path, sid: SessionId, payload: Database, kind: P.Kind)
      requires Valid()
      modifies this`unpersisted, this`savesInFlight, this`writers, this`nextWriter, this`view
      ensures Valid()
      ensures view == old(view).(store := old(view).store.(
                unpersisted := old(unpersisted) + {sid},
                slots := old(savesInFlight)[target := P.Slot(sid, None, false, old(nextWriter))],
                writers := old(writers)[old(nextWriter) := P.Writer(target, sid, payload, kind, P.Writing, P.Running)],
                nextWriter := old(nextWriter) + 1))
    {
      Record(unpersisted + {sid},
             savesInFlight[target := P.Slot(sid, None, false, nextWriter)],
             writers[nextWriter := P.Writer(target, sid, payload, kind, P.Writing, P.Running)],
             nextWriter + 1);
    }

    method StartMergeWriter(target: Path, sid: SessionId, merged: Database, baseGeneration: nat)
      requires Valid() && P.RetainedAt(view.store, target, sid)
      modifies this`saveStatus, this`parked, this`deferredLockSessions, this`unpersisted, this`savesInFlight,
               this`writers, this`nextWriter, this`view
      ensures Valid()
      ensures view == old(view).(store := P.StartWriter(old(view).store, sid, merged, P.Merge(baseGeneration)))
    {
      BooksAgree();
      hide Rep;
      SetSaveStatusForSession(target, sid, P.Saving);
      StartWriter(target, sid, merged, P.Merge(baseGeneration));
    }

    /** `commit_merged_for`, up to spawning the merge save. */
    method CommitMergedFor(target: Path, sid: SessionId, merged: Database, baseGeneration: nat, bound: bool)
      requires Valid()
      modifies this`saveStatus, this`parked, this`deferredLockSessions, this`unpersisted, this`savesInFlight,
               this`writers, this`nextWriter, this`view
      ensures Valid()
      ensures view == P.CommitMerged(old(view), target, sid, merged, baseGeneration, bound)
    {
      var current := VaultSessionIdFor(target);
      if !bound || current != Some(sid) {
        assert !bound || !P.Current(view, target, sid) by { OneSessionPerPath(target, sid); }
        return;
      }
      var document := DocumentFor(target, sid);
      if document.value.generation != baseGeneration || target in savesInFlight {
        hide Rep;
        RequestSaveForSession(target, sid, true);
      } else {
        StartMergeWriter(target, sid, merged, baseGeneration);
      }
    }

    /** The event loop hands over a merge computed from the job's clone. What the
        picks made of it is not looked into, except that it keeps the clone's edits. */
    method MergeReturned(ghost job: nat, target: Path, sid: SessionId, merged: Database, baseGeneration: nat, bound: bool)
      requires AtRest() && job in view.store.merges
      requires view.store.merges[job].path == target && view.store.merges[job].session == sid
      requires view.store.merges[job].generation == baseGeneration && P.Carries(merged, view.store.merges[job].base)
      modifies this, journal
      ensures AtRest() && journal.run == P.Then(old(journal.run), P.CommitMergeA(job, merged, bound))
      ensures view == P.CommitMerged(old(view), target, sid, merged, baseGeneration, bound)
    {
      hide Rep, P.Carries, P.CommitMerged;
      CommitMergedFor(target, sid, merged, baseGeneration, bound);
      Log(P.CommitMergeA(job, merged, bound));
    }

    lemma OneSessionPerPath(target: Path, sid: SessionId)
      requires Valid()
      ensures P.Current(view, target, sid) ==> VaultSessionIdFor(target) == Some(sid)
    {
    }

    // ------------------------------------------------- completion callbacks

    /** `mark_vault_session_persisted`. */
    method MarkVaultSessionPersisted(sid: SessionId)
      requires Valid()
      modifies this`unpersisted, this`deferredLockSessions, this`saveStatus, this`view
      ensures Valid()
      ensures view == old(view).(store := P.MarkPersisted(old(view).store, sid, P.Locked(old(view))))
      ensures unpersisted == old(unpersisted) - {sid} && deferredLockSessions == old(deferredLockSessions) - {sid}
    {
      hide Rep, P.MarkPersisted;
      DroppedRep(Now(), view, sid);
      view := view.(store := P.MarkPersisted(view.store, sid, P.Locked(view)));
      unpersisted := unpersisted - {sid};
      deferredLockSessions := deferredLockSessions - {sid};
      if vault.LockedPendingSave? {
        saveStatus := LockedStatus(deferredLockSessions);
      }
    }

    method LockVaultNow()
      requires SameBooks(Now(), view)
      modifies this
      ensures Valid() && view == P.LockNow(old(view))
    {
      hide Rep, P.LockNow, SameBooks;
      ClearedRep(Now(), view);
      SetFront(Empty, None, P.Idle);
      SetParked(map[], []);
      SetQuarantine(map[], false);
      StandFor(P.LockNow(view));
    }

    method FinishDeferredLockIfReady() returns (locked: bool)
      requires Valid()
      modifies this
      ensures Valid() && view == P.FinishLock(old(view))
      ensures locked <==> old(lockRequestedAfterSave) && !P.HasSaveWork(old(view).store)
    {
      assert view.lockRequested == lockRequestedAfterSave;
      if !lockRequestedAfterSave || HasUnpersistedSaveWork() {
        return false;
      }
      hide Rep, P.LockNow;
      LockVaultNow();
      return true;
    }

    /** What every save callback does once its status is recorded. */
    method AfterWriter(target: Path, sid: SessionId, durable: bool, pending: Option<SessionId>, syncAfter: bool)
      requires Valid()
      modifies this
      ensures Valid()
      ensures view == P.AfterWriter(old(view), target, sid, durable, pending, syncAfter)
    {
      hide Rep, P.RequestSave, P.FinishLock, P.MarkPersisted;
      if durable && pending != Some(sid) {
        MarkVaultSessionPersisted(sid);
      }
      if pending.Some? {
        RequestSaveForSession(target, pending.value, syncAfter);
      } else if durable {
        var _ := FinishDeferredLockIfReady();
      }
    }

    /** Write `document` where the session's document is kept. */
    method SetDocumentForSession(target: Path, sid: SessionId, document: Document)
      requires Valid() && P.RetainedAt(view.store, target, sid)
      modifies this`vault, this`parked, this`deferredLockSessions, this`view
      ensures Valid()
      ensures view == old(view).(store := P.SetDocument(old(view).store, sid, document))
    {
      hide Rep, P.SetDocument;
      PutDocumentRep(Now(), view, target, sid, document);
      view := view.(store := P.SetDocument(view.store, sid, document));
      if IsActiveVault(target) && activeVaultSessionId == Some(sid) {
        vault := Open(target, document);
      } else if target in parked && parked[target].sessionId == sid {
        parked := parked[target := parked[target].(document := document)];
      } else if sid in deferredLockSessions && deferredLockSessions[sid].path == target {
        deferredLockSessions := deferredLockSessions[sid := deferredLockSessions[sid].(document := document)];
      }
    }

    /** The callback of an ordinary save, its slot already released. */
    method PlainSaveDone(w: P.Writer, slot: P.Slot)
      requires Valid() && w.kind.Plain?
      modifies this
      ensures Valid() && view == P.PlainDone(old(view), w, slot)
    {
      hide Rep, P.SetStatus, P.AfterWriter;
      var durable := w.outcome.Durable?;
      SetSaveStatusForSession(w.path, w.session, if durable then P.Saved else P.Failed);
      AfterWriter(w.path, w.session, durable, slot.pending, slot.syncAfter || w.kind.syncAfter);
    }

    /** The callback of a merge save, its slot already released. */
    method MergeSaveDone(w: P.Writer, slot: P.Slot)
      requires Valid() && w.kind.Merge?
      modifies this
      ensures Valid() && view == P.MergeDone(old(view), w, slot)
    {
      var document := DocumentFor(w.path, w.session);
      var atBase := document.Some? && document.value.generation == w.kind.base;
      assert atBase <==> P.AtBase(view.store, w.path, w.session, w.kind.base);
      assert vault.LockedPendingSave? == P.Locked(view);
      hide Rep, P.SetStatus, P.AfterWriter, P.RequestSave, P.SetDocument, P.RetainedAt;
      if w.outcome.WriteFailed? {
        // keep the resolved merge for the retry, but only inside the quarantine
        if slot.pending.None? && vault.LockedPendingSave? && atBase {
          SetDocumentForSession(w.path, w.session, document.value.Replace(w.payload));
        }
        SetSaveStatusForSession(w.path, w.session, P.Failed);
        AfterWriter(w.path, w.session, false, slot.pending, true);
      } else if !atBase {
        RequestSaveForSession(w.path, w.session, true);
        if slot.pending.Some? && slot.pending.value != w.session {
          RequestSaveForSession(w.path, slot.pending.value, true);
        }
      } else {
        var durable := w.outcome.Durable?;
        SetDocumentForSession(w.path, w.session, document.value.Replace(w.payload));
        SetSaveStatusForSession(w.path, w.session, if durable then P.Saved else P.Failed);
        AfterWriter(w.path, w.session, durable, slot.pending, true);
      }
    }

    /** What the event loop runs when a background save has returned. */
    method SaveTaskReturned(id: P.WriterId)
      requires AtRest() && id in writers && !writers[id].outcome.Running? && P.Finished(view.store, id)
      modifies this, journal
      ensures AtRest() && journal.run == P.Then(old(journal.run), P.CallbackA(id))
      ensures view == P.Callback(old(view), id)
    {
      hide Rep, P.Callback;
      ReleaseSlot(id);
      Log(P.CallbackA(id));
    }

    method ReleaseSlot(id: P.WriterId)
      requires Valid() && id in writers && P.Finished(view.store, id)
      modifies this
      ensures Valid() && view == P.Callback(old(view), id)
    {
      BooksAgree();
      hide Rep, P.PlainDone, P.MergeDone;
      var w := writers[id];
      if w.path !in savesInFlight || savesInFlight[w.path].owner != w.session {
        // a different writer owns the slot: leave its bookkeeping alone
        Record(unpersisted, savesInFlight, writers - {id}, nextWriter);
        return;
      }
      var slot := savesInFlight[w.path];
      Record(unpersisted, savesInFlight - {w.path}, writers - {id}, nextWriter);
      if w.kind.Plain? {
        PlainSaveDone(w, slot);
      } else {
        MergeSaveDone(w, slot);
      }
    }

    lemma BooksAgree()
      requires Valid()
      ensures SameBooks(Now(), view)
    {
    }

    // ------------------------------------------------------- editing and saving

    /** Every entry and group mutation: change the open document, then save. */
    method EditEntry(e: P.Edit, syncAfter: bool) returns (accepted: bool)
      requires AtRest()
      modifies this, journal
      ensures AtRest() && journal.run == P.Then(old(journal.run), P.EditA(e, syncAfter))
      ensures accepted == old(vault).Open?
      ensures view == P.EditOpen(old(view), e, syncAfter)
    {
      SoundNow();
      EverySessionAccounted();
      hide Rep, I.Inv, P.EditOpen;
      accepted := MutateAndSave(e, syncAfter);
      Log(P.EditA(e, syncAfter));
    }

    lemma EverySessionAccounted()
      requires I.Inv(view)
      ensures forall sid <- view.store.sessions :: sid in view.store.accounts
    {
    }

    method MutateAndSave(e: P.Edit, syncAfter: bool) returns (accepted: bool)
      requires Valid() && forall sid <- view.store.sessions :: sid in view.store.accounts
      modifies this
      ensures Valid()
      ensures accepted == old(vault).Open?
      ensures view == P.EditOpen(old(view), e, syncAfter)
    {
      ActiveIsOpen();
      hide Rep, P.RequestSave, P.SetDocument;
      if !vault.Open? {
        return false;
      }
      var path, sid, document := vault.path, activeVaultSessionId.value, vault.document.Mutate(e);
      SetDocumentForSession(path, sid, document);
      RecordAccepted(sid, e);
      RequestSaveForSession(path, sid, syncAfter);
      return true;
    }

    /** History only: the edit counts as accepted from here on. */
    ghost method RecordAccepted(sid: SessionId, e: P.Edit)
      requires Valid() && sid in view.store.accounts
      modifies this`view
      ensures Valid()
      ensures
        var accounts := old(view).store.accounts;
        view == old(view).(store := old(view).store.(accounts := accounts[sid := accounts[sid].(edits := accounts[sid].edits + {e})]))
    {
      var accounts := view.store.accounts;
      view := view.(store := view.store.(accounts := accounts[sid := accounts[sid].(edits := accounts[sid].edits + {e})]));
    }

    lemma ActiveIsOpen()
      requires Valid()
      ensures vault.Open? <==> view.screen.Open?
      ensures vault.Open? ==>
        && activeVaultSessionId == Some(view.screen.session)
        && P.RetainedAt(view.store, vault.path, view.screen.session)
        && view.store.sessions[view.screen.session].document == vault.document
    {
    }

    function PathForVaultSession(sid: SessionId): (r: Option<Path>)
      requires Valid()
      reads this
      ensures r == if sid in view.store.sessions then Some(view.store.sessions[sid].path) else None
    {
      if vault.Open? && activeVaultSessionId == Some(sid) then Some(vault.path)
      else if exists p <- parked :: parked[p].sessionId == sid then
        var p :| p in parked && parked[p].sessionId == sid;
        Some(p)
      else if sid in deferredLockSessions then Some(deferredLockSessions[sid].path)
      else None
    }

    method RetryTargets() returns (retries: seq<(Path, SessionId)>, ghost order: seq<SessionId>)
      requires Valid()
      ensures |retries| == |order| && P.IsRetryOrder(view.store, order)
      ensures forall i :: 0 <= i < |order| ==>
                retries[i] == (view.store.sessions[order[i]].path, order[i]) && order[i] in view.store.sessions
    {
      retries, order := [], [];
      var rest := unpersisted;
      BooksAgree();
      while rest != {}
        invariant rest <= unpersisted && |retries| == |order|
        invariant forall sid :: sid in order <==> sid in unpersisted - rest && sid in view.store.sessions && !P.Queued(view.store, sid)
        invariant forall i, j :: 0 <= i < j < |order| ==> order[i] != order[j]
        invariant forall i :: 0 <= i < |order| ==>
                    order[i] in view.store.sessions && retries[i] == (view.store.sessions[order[i]].path, order[i])
      {
        var sid :| sid in rest;
        rest := rest - {sid};
        var path := PathForVaultSession(sid);
        if !SaveQueueContainsSession(sid) && path.Some? {
          retries, order := retries + [(path.value, sid)], order + [sid];
        }
      }
    }

    method RetryUnpersistedVaultSaves() returns (ghost order: seq<SessionId>)
      requires Valid()
      modifies this`saveStatus, this`parked, this`deferredLockSessions, this`unpersisted, this`savesInFlight,
               this`writers, this`nextWriter, this`view
      ensures Valid() && P.IsRetryOrder(old(view).store, order)
      ensures view == old(view).(store := P.RetryAll(old(view).store, order))
    {
      var retries;
      retries, order := RetryTargets();
      hide Rep, P.RequestSave;
      ghost var before := view;
      assert order[..0] == [];
      for i := 0 to |retries|
        invariant Valid()
        invariant view == before.(store := P.RetryAll(before.store, order[..i]))
      {
        assert order[..i + 1] == order[..i] + [order[i]];
        RetryAllLast(before.store, order[..i], order[i]);
        RequestSaveForSession(retries[i].0, retries[i].1, false);
      }
      assert order[..|order|] == order;
    }

    /** `save_async` and `save_async_local_only`. */
    method SaveAsync(syncAfter: bool) returns (ghost order: seq<SessionId>)
      requires AtRest()
      modifies this, journal
      ensures P.Locked(old(view)) ==> P.IsRetryOrder(old(view).store, order)
      ensures AtRest() && journal.run == P.Then(old(journal.run), P.SaveA(syncAfter, order))
      ensures view == P.SaveAsync(old(view), syncAfter, order)
    {
      hide Rep, P.SaveAsync, P.IsRetryOrder;
      order := SaveOrRetry(syncAfter);
      Log(P.SaveA(syncAfter, order));
    }

    method SaveOrRetry(syncAfter: bool) returns (ghost order: seq<SessionId>)
      requires Valid()
      modifies this
      ensures P.Locked(old(view)) ==> P.IsRetryOrder(old(view).store, order)
      ensures Valid() && view == P.SaveAsync(old(view), syncAfter, order)
    {
      ScreenAgrees();
      ActiveIsOpen();
      hide Rep, P.RequestSave, P.RetryAll, P.IsRetryOrder;
      order := [];
      if vault.LockedPendingSave? {
        order := RetryUnpersistedVaultSaves();
      } else if vault.Open? {
        RequestSaveForSession(vault.path, activeVaultSessionId.value, syncAfter);
      }
    }

    // --------------------------------------------------------------- locking

    /** Everything retained while no lock waits: the active vault, then the parked ones. */
    method CollectCandidates() returns (candidates: seq<Candidate>)
      requires Valid() && !vault.LockedPendingSave?
      ensures Collected(view, candidates)
    {
      candidates := [];
      if vault.Open? {
        candidates := [Candidate(vault.path, activeVaultSessionId.value, vault.document, saveStatus)];
        assert candidates[0].sessionId == activeVaultSessionId.value;
      }
      var rest := parked.Keys;
      while rest != {}
        invariant rest <= parked.Keys
        invariant AreRetained(view, candidates)
        invariant vault.Open? ==> IsCandidate(candidates, activeVaultSessionId.value)
        invariant forall p <- parked :: p !in rest ==> IsCandidate(candidates, parked[p].sessionId)
      {
        var path :| path in rest;
        rest := rest - {path};
        var session := parked[path];
        ghost var before := candidates;
        candidates := candidates + [Candidate(path, session.sessionId, session.document, session.saveStatus)];
        assert candidates[|before|].sessionId == session.sessionId;
        assert forall sid :: IsCandidate(before, sid) ==> IsCandidate(candidates, sid) by {
          assert forall i :: 0 <= i < |before| ==> candidates[i] == before[i];
        }
      }
    }

    /** Of all retained sessions, those that a save still has to land for. */
    method SelectQuarantine(candidates: seq<Candidate>) returns (deferred: map<SessionId, DeferredSaveSession>)
      requires Valid() && Collected(view, candidates)
      ensures IsQuarantine(view, deferred)
    {
      deferred := map[];
      BooksAgree();
      for i := 0 to |candidates|
        invariant forall sid <- deferred ::
          && sid in view.store.sessions && NeedsSaving(view.store, sid)
          && view.store.sessions[sid] == P.Session(deferred[sid].path, deferred[sid].document, deferred[sid].saveStatus)
        invariant forall j :: 0 <= j < i && NeedsSaving(view.store, candidates[j].sessionId) ==> candidates[j].sessionId in deferred
      {
        var c := candidates[i];
        if c.sessionId in unpersisted || SaveQueueContainsSession(c.sessionId) {
          deferred := deferred[c.sessionId := DeferredSaveSession(c.path, c.document, c.saveStatus)];
        }
      }
      assert forall sid <- view.store.sessions :: IsCandidate(candidates, sid);
    }

    method ChooseQuarantine() returns (deferred: map<SessionId, DeferredSaveSession>)
      requires Valid() && !vault.LockedPendingSave?
      ensures IsQuarantine(view, deferred)
    {
      hide Rep, IsQuarantine, Collected;
      var candidates := CollectCandidates();
      deferred := SelectQuarantine(candidates);
    }

    /** Every document that needs no saving is dropped, and the others are put out of reach. */
    method Withdraw(deferred: map<SessionId, DeferredSaveSession>)
      requires Rep(Quarantined(Now(), deferred), P.RequestLock(view)) && lockRequestedAfterSave
      modifies this
      ensures Valid() && view == P.RequestLock(old(view))
    {
      hide Rep, P.RequestLock;
      SetFront(LockedPendingSave, None, LockedStatus(deferred));
      SetParked(map[], []);
      SetQuarantine(deferred, true);
      StandFor(P.RequestLock(view));
    }

    /** `quarantine_sessions_for_deferred_lock`, the lock already requested. */
    method QuarantineSessionsForDeferredLock()
      requires Valid() && lockRequestedAfterSave && view.lockRequested
      modifies this
      ensures Valid() && view == P.RequestLock(old(view))
    {
      if vault.LockedPendingSave? {
        return;
      }
      assert !P.Locked(view);
      hide Rep, P.RequestLock, IsQuarantine;
      var deferred := ChooseQuarantine();
      QuarantinedRep(Now(), view, deferred);
      Withdraw(deferred);
    }

    lemma SetLockRequestedRep()
      requires Valid()
      ensures Rep(Now().(lockRequested := true), view.(lockRequested := true))
    {
    }

    lemma RequestLockTwice(s: P.State)
      ensures P.RequestLock(s.(lockRequested := true)) == P.RequestLock(s)
    {
    }

    /** `lock_vault`: at once when the disk is current, deferred otherwise. */
    method LockVault() returns (locked: bool, ghost order: seq<SessionId>)
      requires AtRest()
      modifies this, journal
      ensures P.HasSaveWork(old(view).store) ==> P.IsRetryOrder(P.RequestLock(old(view)).store, order)
      ensures AtRest() && journal.run == P.Then(old(journal.run), P.LockA(order))
      ensures view == P.LockVault(old(view), order)
      ensures locked <==> !P.HasSaveWork(old(view).store)
    {
      hide Rep, P.HasSaveWork, P.LockVault, P.RequestLock, P.IsRetryOrder;
      locked, order := LockOrDefer();
      Log(P.LockA(order));
    }

    method LockOrDefer() returns (locked: bool, ghost order: seq<SessionId>)
      requires Valid()
      modifies this
      ensures P.HasSaveWork(old(view).store) ==> P.IsRetryOrder(P.RequestLock(old(view)).store, order)
      ensures Valid() && view == P.LockVault(old(view), order)
      ensures locked <==> !P.HasSaveWork(old(view).store)
    {
      BooksAgree();
      order := [];
      locked := !HasUnpersistedSaveWork();
      hide Rep, P.HasSaveWork, P.LockNow, P.RequestLock, P.RetryAll, P.IsRetryOrder;
      if locked {
        LockVaultNow();
      } else {
        order := DeferLock();
      }
    }

    /** Remember the request, withdraw every vault and ask once more for the saves still owed. */
    method DeferLock() returns (ghost order: seq<SessionId>)
      requires Valid()
      modifies this
      ensures Valid() && P.IsRetryOrder(P.RequestLock(old(view)).store, order)
      ensures
        var t := P.RequestLock(old(view));
        view == t.(store := P.RetryAll(t.store, order))
    {
      RequestLockTwice(view);
      hide Rep, P.RequestLock, P.RetryAll, P.IsRetryOrder;
      SetLockRequested();
      QuarantineSessionsForDeferredLock();
      order := RetryUnpersistedVaultSaves();
    }

    method SetLockRequested()
      requires Valid()
      modifies this`lockRequestedAfterSave, this`view
      ensures Valid() && view == old(view).(lockRequested := true) && lockRequestedAfterSave
    {
      SetLockRequestedRep();
      hide Rep;
      lockRequestedAfterSave, view := true, view.(lockRequested := true);
    }

    // -------------------------------------------------------------- discarding

    /** Every slot's abort handle is asked once; the answers are what counts. */
    method AbortEverySlot() returns (aborted: map<P.WriterId, P.Writer>, allAborted: bool)
      requires forall p <- savesInFlight :: savesInFlight[p].writer in writers
      ensures aborted == Tried(savesInFlight, writers, savesInFlight.Keys)
      ensures allAborted <==> forall p <- savesInFlight :: P.TryAbort(writers[savesInFlight[p].writer].phase) == P.Aborted
    {
      aborted, allAborted := writers, true;
      var rest := savesInFlight.Keys;
      assert Tried(savesInFlight, writers, {}) == writers;
      while rest != {}
        invariant rest <= savesInFlight.Keys
        invariant aborted == Tried(savesInFlight, writers, savesInFlight.Keys - rest)
        invariant allAborted <==> forall p <- savesInFlight :: p !in rest ==> P.TryAbort(writers[savesInFlight[p].writer].phase) == P.Aborted
      {
        var path :| path in rest;
        TriedOneMore(savesInFlight, writers, savesInFlight.Keys - rest, path);
        rest := rest - {path};
        hide Tried;
        var w := savesInFlight[path].writer;
        var phase := P.TryAbort(aborted[w].phase);
        aborted := aborted[w := aborted[w].(phase := phase)];
        allAborted := allAborted && phase == P.Aborted;
      }
    }

    predicate DeferredDiscardGateOpen(stuck: bool)
      reads this
    {
      vault.LockedPendingSave? && (stuck || (saveStatus.Failed? && savesInFlight == map[]))
    }

    lemma GateAgrees(stuck: bool)
      requires Valid()
      ensures DeferredDiscardGateOpen(stuck) <==> P.DiscardGateOpen(view, stuck)
    {
      if vault.LockedPendingSave? {
        assert forall sid <- deferredLockSessions :: deferredLockSessions[sid].saveStatus == view.store.sessions[sid].status;
        assert forall sid <- view.store.sessions :: sid in deferredLockSessions;
      }
    }

    lemma SlotsHaveWriters()
      requires Valid() && I.Inv(view)
      ensures forall p <- savesInFlight :: savesInFlight[p].writer in writers
    {
      forall p <- savesInFlight ensures savesInFlight[p].writer in writers {
        T.SlotHasWriter(view.store, p);
      }
    }

    /** Dropping every quarantined document one by one; the slots go with them. */
    method ForgetEverything()
      requires Valid()
      modifies this`unpersisted, this`deferredLockSessions, this`saveStatus, this`savesInFlight, this`view
      ensures unpersisted == {} && savesInFlight == map[]
    {
      hide Rep, P.MarkPersisted;
      var rest := unpersisted + deferredLockSessions.Keys;
      while rest != {}
        invariant Valid()
        invariant unpersisted <= rest && deferredLockSessions.Keys <= rest
        decreases rest
      {
        var sid :| sid in rest;
        rest := rest - {sid};
        MarkVaultSessionPersisted(sid);
      }
      savesInFlight := map[];
    }

    /** Once every writer is aborted: forget the sessions, the slots and the request, and lock. */
    method FinishDiscard()
      requires Valid()
      modifies this
      ensures Valid() && view == P.LockNow(old(view).(store := P.WriteOff(old(view).store)))
    {
      ghost var before := view;
      BooksAgree();
      BooksForgotten(Now(), view);
      hide Rep, P.WriteOff, P.LockNow, SameBooks;
      ForgetEverything();
      lockRequestedAfterSave := false;
      view := before.(lockRequested := false, store := P.WriteOff(before.store));
      LockVaultNow();
      LockNowForgetsRequest(before.(store := P.WriteOff(before.store)));
    }

    /** `discard_deferred_saves_and_lock_now`. */
    method DiscardDeferredSavesAndLock(stuck: bool) returns (discarded: bool)
      requires AtRest()
      modifies this, journal
      ensures AtRest() && journal.run == P.Then(old(journal.run), P.DiscardA(stuck))
      ensures discarded <==> P.DiscardSucceeds(old(view), stuck)
      ensures view == P.Discard(old(view), stuck)
    {
      SoundNow();
      SlotsHaveWriters();
      hide Rep, I.Inv, P.Discard, P.DiscardSucceeds;
      discarded := TryDiscard(stuck);
      Log(P.DiscardA(stuck));
    }

    method TryDiscard(stuck: bool) returns (discarded: bool)
      requires Valid() && forall p <- savesInFlight :: savesInFlight[p].writer in writers
      modifies this
      ensures discarded <==> P.DiscardSucceeds(old(view), stuck)
      ensures Valid() && view == P.Discard(old(view), stuck)
    {
      GateAgrees(stuck);
      hide Rep, P.AbortSlots, P.WriteOff, P.LockNow, P.AnyPublicationStarted, P.DiscardGateOpen;
      if !DeferredDiscardGateOpen(stuck) {
        return false;
      }
      discarded := AbortWriters();
      if discarded {
        FinishDiscard();
      }
    }

    method AbortWriters() returns (allAborted: bool)
      requires Valid() && forall p <- savesInFlight :: savesInFlight[p].writer in writers
      modifies this`unpersisted, this`savesInFlight, this`writers, this`nextWriter, this`view
      ensures Valid() && view == old(view).(store := P.AbortSlots(old(view).store))
      ensures allAborted <==> !P.AnyPublicationStarted(old(view).store)
    {
      WritersAgree();
      var aborted;
      aborted, allAborted := AbortEverySlot();
      AbortAgrees(view.store, aborted, allAborted);
      hide Rep, P.AbortSlots, P.AnyPublicationStarted, Tried;
      Record(unpersisted, savesInFlight, aborted, nextWriter);
    }

    lemma AbortAgrees(t: P.Store, aborted: map<P.WriterId, P.Writer>, allAborted: bool)
      requires forall p <- t.slots :: t.slots[p].writer in t.writers
      requires aborted == Tried(t.slots, t.writers, t.slots.Keys)
      requires allAborted <==> forall p <- t.slots :: P.TryAbort(t.writers[t.slots[p].writer].phase) == P.Aborted
      ensures P.AbortSlots(t) == t.(writers := aborted)
      ensures allAborted <==> !P.AnyPublicationStarted(t)
    {
      forall w <- t.writers ensures IsSlotWriter(t.slots, t.slots.Keys, w) <==> P.IsSlotWriter(t, w) {
      }
      assert P.AbortSlots(t).writers == aborted;
      forall p <- t.slots
        ensures P.TryAbort(t.writers[t.slots[p].writer].phase) == P.Aborted
                <==> t.writers[t.slots[p].writer].phase !in {P.Publishing, P.Published}
      {
      }
    }

    lemma LockNowForgetsRequest(s: P.State)
      ensures P.LockNow(s.(lockRequested := false)) == P.LockNow(s)
    {
    }

    // ------------------------------------------------ moving between vaults

    lemma ParkedAgrees(path: Path)
      requires Valid() && I.ShapeOk(view.store) && !vault.LockedPendingSave?
      ensures path in parked || IsActiveVault(path) <==> P.Occupied(view.store, path)
      ensures P.Occupied(view.store, path) ==>
        P.SessionAt(view.store, path) == if IsActiveVault(path) then activeVaultSessionId.value else parked[path].sessionId
      ensures IsActiveVault(path) ==> view.screen == P.Open(activeVaultSessionId.value)
      ensures !IsActiveVault(path) && path in parked ==> view.screen != P.Open(parked[path].sessionId)
    {
      if IsActiveVault(path) {
        assert P.RetainedAt(view.store, path, activeVaultSessionId.value);
      } else if path in parked {
        assert P.RetainedAt(view.store, path, parked[path].sessionId);
      }
    }

    lemma ScreenAgrees()
      requires Valid()
      ensures vault.LockedPendingSave? <==> P.Locked(view)
      ensures vault.Open? <==> view.screen.Open?
      ensures openAttempt == view.openAttempt
    {
    }

    /** `switch_to_unlocked`: swap to an unlocked vault, if there is one at `path`. */
    method SwitchToUnlocked(path: Path) returns (handled: bool)
      requires AtRest()
      modifies this, journal
      ensures AtRest() && journal.run == P.Then(old(journal.run), P.SwitchToA(path))
      ensures handled <==> !P.Locked(old(view)) && P.Occupied(old(view).store, path)
      ensures view == P.SwitchTo(old(view), path)
    {
      SoundNow();
      hide Rep, P.SwitchTo, P.Occupied;
      handled := TrySwitch(path);
      Log(P.SwitchToA(path));
    }

    method TrySwitch(path: Path) returns (handled: bool)
      requires Valid() && I.ShapeOk(view.store)
      modifies this
      ensures handled <==> !P.Locked(old(view)) && P.Occupied(old(view).store, path)
      ensures Valid() && view == P.SwitchTo(old(view), path)
    {
      ScreenAgrees();
      if vault.LockedPendingSave? {
        return false;
      }
      ParkedAgrees(path);
      hide Rep, I.ShapeOk, P.Rotate, P.ParkActive, P.Unpark, P.Occupied;
      if IsActiveVault(path) {
        return true;
      }
      if path !in parked {
        return false;
      }
      BringForward(path);
      return true;
    }

    method BringForward(path: Path)
      requires Valid() && !vault.LockedPendingSave? && !IsActiveVault(path) && path in parked
      modifies this
      ensures old(parked)[path].sessionId in old(view).store.sessions
      ensures Valid() && view == P.Unpark(P.ParkActive(P.Rotate(old(view))), old(parked)[path].sessionId)
    {
      ParkedIsRetained(path);
      hide Rep, P.Rotate, P.ParkActive, P.Unpark;
      RotateAutoTypeContext();
      ParkActive();
      var _ := Unpark(path);
    }

    lemma ParkedIsRetained(path: Path)
      requires Valid() && path in parked
      ensures parked[path].sessionId in view.store.sessions
    {
    }

    /** Park what is active and show a screen that holds no vault. */
    method LeaveFor(next: VaultStatus, attempt: nat)
      requires Valid() && !vault.LockedPendingSave?
      requires !next.Open? && !next.LockedPendingSave?
      modifies this
      ensures Valid()
      ensures view == P.ParkActive(P.Rotate(old(view))).(screen := ScreenOf(next, None), openAttempt := attempt)
      ensures !old(vault).Open? ==> parked == old(parked)
      ensures vault == next
    {
      hide Rep, P.Rotate, P.ParkActive;
      RotateAutoTypeContext();
      ParkActive();
      ScreenRep(Now(), view, next, attempt);
      view := view.(screen := ScreenOf(next, None), openAttempt := attempt);
      vault, openAttempt := next, attempt;
    }

    lemma ColdPath(s: P.State, path: Path)
      requires !P.Locked(s) && !P.Occupied(s.store, path)
      ensures P.ParkActive(P.Rotate(s)).openAttempt == s.openAttempt
      ensures P.RequestPassword(s, path)
           == P.ParkActive(P.Rotate(s)).(screen := P.AwaitingPassword(path), openAttempt := s.openAttempt)
      ensures P.BeginOpen(s, path)
           == P.ParkActive(P.Rotate(s)).(screen := P.Opening(path), openAttempt := s.openAttempt + 1)
    {
    }

    lemma WarmPath(s: P.State, path: Path)
      requires P.Locked(s) || P.Occupied(s.store, path)
      ensures P.RequestPassword(s, path) == P.SwitchTo(s, path) == P.BeginOpen(s, path)
    {
    }

    method RequestPassword(path: Path)
      requires AtRest()
      modifies this, journal
      ensures AtRest() && journal.run == P.Then(old(journal.run), P.RequestPasswordA(path))
      ensures view == P.RequestPassword(old(view), path)
    {
      SoundNow();
      hide Rep, P.RequestPassword;
      AskPassword(path);
      Log(P.RequestPasswordA(path));
    }

    method AskPassword(path: Path)
      requires Valid() && I.ShapeOk(view.store)
      modifies this
      ensures Valid() && view == P.RequestPassword(old(view), path)
    {
      hide Rep, I.ShapeOk, P.RequestPassword, P.BeginOpen, P.ParkActive, P.Rotate;
      var handled := TryWarm(path);
      if !handled {
        LeaveFor(AwaitingPassword(path), openAttempt);
      }
    }

    /** A waiting lock turns every request down, and an unlocked vault only comes to the front. */
    method TryWarm(path: Path) returns (handled: bool)
      requires Valid() && I.ShapeOk(view.store)
      modifies this
      ensures Valid()
      ensures handled ==> view == P.RequestPassword(old(view), path) == P.BeginOpen(old(view), path)
      ensures !handled ==> view == old(view) && !vault.LockedPendingSave?
      ensures !handled ==>
        && P.RequestPassword(view, path)
           == P.ParkActive(P.Rotate(view)).(screen := P.AwaitingPassword(path), openAttempt := openAttempt)
        && P.BeginOpen(view, path)
           == P.ParkActive(P.Rotate(view)).(screen := P.Opening(path), openAttempt := openAttempt + 1)
    {
      ScreenAgrees();
      ghost var before := view;
      hide Rep, I.ShapeOk, P.RequestPassword, P.BeginOpen, P.SwitchTo, P.ParkActive, P.Rotate, P.Occupied;
      if vault.LockedPendingSave? {
        WarmPath(before, path);
        return true;
      }
      handled := TrySwitch(path);
      if handled {
        WarmPath(before, path);
      } else {
        SwitchToNothing(before, path);
        ScreenAgrees();
        ColdPath(before, path);
      }
    }

    lemma SwitchToNothing(s: P.State, path: Path)
      requires !P.Occupied(s.store, path)
      ensures P.SwitchTo(s, path) == s
    {
    }

    method BeginOpen(path: Path)
      requires Valid() && I.ShapeOk(view.store)
      modifies this
      ensures Valid() && view == P.BeginOpen(old(view), path)
    {
      hide Rep, I.ShapeOk, P.RequestPassword, P.BeginOpen, P.ParkActive, P.Rotate;
      var handled := TryWarm(path);
      if !handled {
        LeaveFor(Opening(path), openAttempt + 1);
      }
    }

    /** The shell's submit: `begin_open`, then a background open stamped with the attempt. */
    method SubmitPassword(path: Path) returns (ghost task: nat, attempt: nat)
      requires AtRest()
      modifies this, journal
      ensures AtRest() && journal.run == P.Then(old(journal.run), P.SubmitPasswordA(path))
      ensures view == P.SubmitPassword(old(view), path)
      ensures attempt == openAttempt == view.openAttempt && task == view.nextOpen - 1
    {
      SoundNow();
      hide Rep, P.SubmitPassword;
      task, attempt := BeginAndSpawn(path);
      Log(P.SubmitPasswordA(path));
    }

    method BeginAndSpawn(path: Path) returns (ghost task: nat, attempt: nat)
      requires Valid() && I.ShapeOk(view.store)
      modifies this
      ensures Valid() && view == P.SubmitPassword(old(view), path)
      ensures attempt == openAttempt == view.openAttempt && task == view.nextOpen - 1
    {
      hide Rep, I.ShapeOk, P.BeginOpen;
      BeginOpen(path);
      ScreenAgrees();
      task, attempt := view.nextOpen, openAttempt;
      SetTasks(view.opens[task := P.OpenTask(path, attempt, None)], task + 1);
    }

    /** The pool of background opens is not one of the fields. */
    ghost method SetTasks(opens: map<nat, P.OpenTask>, nextOpen: nat)
      requires Valid()
      modifies this`view
      ensures Valid() && view == old(view).(opens := opens, nextOpen := nextOpen)
    {
      RepIgnoresTasks(Now(), view, opens, nextOpen);
      view := view.(opens := opens, nextOpen := nextOpen);
    }

    /** A vault being opened is not unlocked already, and its session will be a new one. */
    ghost predicate ColdIfOpening()
      reads this
    {
      vault.Opening? ==> vault.path !in parked && view.store.nextSession !in view.store.sessions
    }

    lemma OpeningIsCold()
      requires Valid() && I.Inv(view)
      ensures ColdIfOpening()
    {
      if vault.Opening? && vault.path in parked {
        assert P.RetainedAt(view.store, vault.path, parked[vault.path].sessionId);
      }
    }

    lemma NextSessionAgrees()
      requires Valid()
      ensures nextSession == view.store.nextSession
    {
    }

    /** The unlocked document takes the screen under a fresh session id. */
    method InstallOpened(path: Path, database: Database)
      requires Valid() && vault == Opening(path) && path !in parked
      requires view.store.nextSession !in view.store.sessions
      modifies this
      ensures Valid() && view == P.OpenDocument(old(view), path, database)
    {
      NextSessionAgrees();
      hide Rep, P.OpenDocument;
      OpenedRep(Now(), view, path, database);
      SetFront(Open(path, P.Document(database, 0)), Some(nextSession), saveStatus);
      autoTypeContext, nextSession := autoTypeContext + 1, nextSession + 1;
      StandFor(P.OpenDocument(view, path, database));
    }

    /** `finish_open_attempt`, gated as its caller gates it on the attempt being current. */
    method FinishOpenAttempt(ghost task: nat, path: Path, attempt: nat, result: Option<Database>) returns (didOpen: bool)
      requires AtRest()
      requires task in view.opens && view.opens[task].path == path && view.opens[task].attempt == attempt
      requires result.Some? ==> view.opens[task].read == result
      modifies this, journal
      ensures AtRest() && journal.run == P.Then(old(journal.run), P.FinishOpenA(task, result.Some?))
      ensures view == P.FinishOpen(old(view), task, result.Some?)
      ensures didOpen <==> P.OpenAttemptIsCurrent(old(view), path, attempt) && result.Some?
    {
      SoundNow();
      OpeningIsCold();
      hide Rep, I.Inv, P.FinishOpen, P.OpenAttemptIsCurrent;
      didOpen := InstallOrAskAgain(task, path, attempt, result);
      Log(P.FinishOpenA(task, result.Some?));
    }

    method InstallOrAskAgain(ghost task: nat, path: Path, attempt: nat, result: Option<Database>) returns (didOpen: bool)
      requires Valid() && ColdIfOpening()
      requires task in view.opens && view.opens[task].path == path && view.opens[task].attempt == attempt
      requires result.Some? ==> view.opens[task].read == result
      modifies this
      ensures Valid() && view == P.FinishOpen(old(view), task, result.Some?)
      ensures didOpen <==> P.OpenAttemptIsCurrent(old(view), path, attempt) && result.Some?
    {
      BooksAgree();
      hide Rep, P.OpenDocument, P.Rotate;
      SetTasks(view.opens - {task}, view.nextOpen);
      if !(attempt == openAttempt && vault == Opening(path)) {
        return false;
      }
      if result.None? {
        RotateAutoTypeContext();
        Show(AwaitingPassword(path));
        return false;
      }
      InstallOpened(path, result.value);
      return true;
    }

    /** Swap one screen without a vault for another. */
    method Show(next: VaultStatus)
      requires Valid() && !vault.Open? && !vault.LockedPendingSave?
      requires !next.Open? && !next.LockedPendingSave?
      modifies this`vault, this`view
      ensures Valid() && view == old(view).(screen := ScreenOf(next, None))
      ensures vault == next
    {
      BooksAgree();
      ScreenRep(Now(), view, next, openAttempt);
      hide Rep;
      view := view.(screen := ScreenOf(next, None));
      vault := next;
    }

    lemma RepIgnoresTasks(h: Fields, s: P.State, opens: map<nat, P.OpenTask>, nextOpen: nat)
      ensures Rep(h, s.(opens := opens, nextOpen := nextOpen)) <==> Rep(h, s)
    {
    }

    lemma OrderedIsParked(path: Path)
      requires Valid() && I.OrderOk(view) && !vault.Open? && path in parkedOrder
      ensures !vault.LockedPendingSave? && path in parked && parked[path].sessionId in view.store.sessions
    {
      var sid :| P.RetainedAt(view.store, path, sid) && view.screen != P.Open(sid);
    }

    lemma LastParked()
      requires Valid() && I.ShapeOk(view.store) && I.OrderOk(view) && !vault.Open?
      ensures view.parkedOrder == parkedOrder
      ensures parkedOrder != [] ==>
        var path := parkedOrder[|parkedOrder| - 1];
        && path in parked && !vault.LockedPendingSave? && parked[path].sessionId in view.store.sessions
        && P.Rehydrate(view) == P.Unpark(P.Rotate(view), parked[path].sessionId)
      ensures parkedOrder == [] ==> P.Rehydrate(view) == view
    {
      BooksAgree();
      hide I.ShapeOk, I.OrderOk, Rep;
      if parkedOrder != [] {
        var path := parkedOrder[|parkedOrder| - 1];
        OrderedIsParked(path);
        ParkedAgrees(path);
      }
    }

    lemma UnparkIgnoresScreen(s: P.State, screen: P.Screen, sid: SessionId)
      requires sid in s.store.sessions
      ensures P.Unpark(s.(screen := screen), sid) == P.Unpark(s, sid)
    {
    }

    /** `rehydrate_most_recent_park`: back to the vault last parked. */
    method RehydrateMostRecentPark() returns (found: bool)
      requires AtRest() && !vault.Open?
      modifies this, journal
      ensures !old(view).screen.Open?
      ensures AtRest() && journal.run == P.Then(old(journal.run), P.RehydrateA)
      ensures view == P.Rehydrate(old(view))
      ensures found <==> old(parkedOrder) != []
    {
      SoundNow();
      ScreenAgrees();
      hide Rep, P.Rehydrate;
      found := UnparkLast();
      Log(P.RehydrateA);
    }

    method UnparkLast() returns (found: bool)
      requires Valid() && I.Inv(view) && !vault.Open?
      modifies this
      ensures Valid() && view == P.Rehydrate(old(view))
      ensures found <==> old(parkedOrder) != []
    {
      LastParked();
      hide Rep, I.Inv, P.Unpark, P.Rotate, P.Rehydrate;
      if parkedOrder == [] {
        return false;
      }
      AbandonScreenFor(parkedOrder[|parkedOrder| - 1]);
      return true;
    }

    /** Drop the unlock screen without parking it, and unpark `path`. */
    method AbandonScreenFor(path: Path)
      requires Valid() && !vault.Open? && !vault.LockedPendingSave? && path in parked
      requires parked[path].sessionId in view.store.sessions
      modifies this
      ensures Valid()
      ensures old(parked)[path].sessionId in old(view).store.sessions
      ensures view == P.Unpark(P.Rotate(old(view)), old(parked)[path].sessionId)
    {
      UnparkIgnoresScreen(P.Rotate(view), P.Welcome, parked[path].sessionId);
      hide Rep, P.Unpark, P.Rotate;
      ClearScreen();
      var _ := Unpark(path);
    }

    method ClearScreen()
      requires Valid() && !vault.Open? && !vault.LockedPendingSave?
      modifies this`vault, this`autoTypeContext, this`view
      ensures Valid() && vault == Empty
      ensures view == P.Rotate(old(view)).(screen := P.Welcome)
    {
      hide Rep, P.Rotate;
      RotateAutoTypeContext();
      Show(Empty);
    }

    /** `record_vault_selection_failure`: never over an open or a waiting vault. */
    method FailVaultSelection()
      requires AtRest()
      modifies this, journal
      ensures AtRest() && journal.run == P.Then(old(journal.run), P.FailSelectionA)
      ensures view == P.FailSelection(old(view))
    {
      hide Rep, P.FailSelection;
      ShowError();
      Log(P.FailSelectionA);
    }

    method ShowError()
      requires Valid()
      modifies this
      ensures Valid() && view == P.FailSelection(old(view))
    {
      ScreenAgrees();
      hide Rep, P.Rotate;
      if vault.Open? || vault.LockedPendingSave? {
        return;
      }
      RotateAutoTypeContext();
      Show(Error);
    }

    /** `handle_remote_conflict_for`: clone the document a remote answer will be merged against. */
    method StartMerge(target: Path, bound: bool) returns (base: Option<Document>)
      requires AtRest()
      modifies this`view, journal
      ensures AtRest() && journal.run == P.Then(old(journal.run), P.StartMergeA(target, bound))
      ensures view == P.StartMerge(old(view), target, bound)
      ensures base.Some? <==> bound && !P.Locked(old(view)) && P.Occupied(old(view).store, target)
      ensures base.Some? ==> base.value == old(view).store.sessions[P.SessionAt(old(view).store, target)].document
    {
      SoundNow();
      hide Rep, P.StartMerge, P.Occupied;
      base := CloneDocument(target, bound);
      Log(P.StartMergeA(target, bound));
    }

    method CloneDocument(target: Path, bound: bool) returns (base: Option<Document>)
      requires Valid() && I.ShapeOk(view.store)
      modifies this`view
      ensures Valid() && view == P.StartMerge(old(view), target, bound)
      ensures base.Some? <==> bound && !P.Locked(old(view)) && P.Occupied(old(view).store, target)
      ensures base.Some? ==> base.value == old(view).store.sessions[P.SessionAt(old(view).store, target)].document
    {
      CurrentIsSessionAt(target);
      RepIgnoresMerges(Now(), view, target, bound);
      hide Rep, I.ShapeOk, P.StartMerge, P.Occupied;
      var sid := VaultSessionIdFor(target);
      base := None;
      if bound && sid.Some? {
        base := DocumentFor(target, sid.value);
      }
      StandFor(P.StartMerge(view, target, bound));
    }

    lemma RepIgnoresMerges(h: Fields, s: P.State, target: Path, bound: bool)
      ensures Rep(h, P.StartMerge(s, target, bound)) <==> Rep(h, s)
    {
    }

    lemma CurrentIsSessionAt(target: Path)
      requires Valid() && I.ShapeOk(view.store)
      ensures
        var sid := VaultSessionIdFor(target);
        if sid.Some? then !P.Locked(view) && P.Occupied(view.store, target) && P.SessionAt(view.store, target) == sid.value
        else P.Locked(view) || !P.Occupied(view.store, target)
    {
      if !vault.LockedPendingSave? {
        ParkedAgrees(target);
      }
    }
  }
}
