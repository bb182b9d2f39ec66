/**
 What the steps of the save protocol do, told from their results: which database an
 asked save writes, how a save's callback leaves its session, what a lock and a
 discard do with the saves there are, and that an asked sync outlives coalescing.
 */
module SaveSteps {
  import opened Wrappers
  import opened SaveProtocol
  import opened SaveInvariant
  import opened SaveTheorems
  import opened SaveCommits

  // ------------------------------------------------------------ asking for a save

  /** From `t` to `u` a save of `document` was asked for `sid`: a writer of exactly that is
      started, or the one under way is told that another has to follow. */
  ghost predicate Asked(t: Store, u: Store, path: Path, sid: SessionId, document: Document, syncAfter: bool) {
    && u.unpersisted == t.unpersisted + {sid} && u.disk == t.disk && u.merges == t.merges
    && u.sessions == t.sessions[sid := Session(path, document, Saving)]
    && if path in t.slots then
         u.slots == t.slots[path := Slot(sid, Some(sid), t.slots[path].syncAfter || syncAfter, t.slots[path].writer)]
         && u.writers == t.writers
       else
         u.slots == t.slots[path := Slot(sid, None, false, t.nextWriter)]
         && u.writers == t.writers[t.nextWriter := Writer(path, sid, document.database, Plain(syncAfter), Writing, Running)]
  }

  lemma RequestAsks(t: Store, path: Path, sid: SessionId, syncAfter: bool)
    requires RetainedAt(t, path, sid) && (path in t.slots ==> t.slots[path].owner == sid)
    ensures Asked(t, RequestSave(t, path, sid, syncAfter), path, sid, t.sessions[sid].document, syncAfter)
  {
  }

  /** An edit is the last of the open document, and what is written for it has it. */
  lemma EditAsks(s: State, e: Edit, syncAfter: bool)
    requires Inv(s)
    ensures
      var u := Next(s, EditA(e, syncAfter));
      if !s.screen.Open? then u == s
      else
        var sid, t := s.screen.session, s.store;
        var session := t.sessions[sid];
        && u.screen == s.screen && sid in t.sessions
        && Asked(t, u.store, session.path, sid,
                 Document(session.document.database + [e], session.document.generation + 1), syncAfter)
  {
    EditIs(s, e, syncAfter);
    hide Inv, Next, RequestSave, ApplyEdit, Asked;
    if s.screen.Open? {
      var sid, t := s.screen.session, s.store;
      RequestAsks(ApplyEdit(t, sid, e), t.sessions[sid].path, sid, syncAfter);
      EditedAsks(t, sid, e, RequestSave(ApplyEdit(t, sid, e), t.sessions[sid].path, sid, syncAfter), syncAfter);
    }
  }

  lemma EditIs(s: State, e: Edit, syncAfter: bool)
    requires Inv(s)
    ensures
      if !s.screen.Open? then Next(s, EditA(e, syncAfter)) == s
      else
        var sid, t := s.screen.session, s.store;
        && sid in t.sessions && sid in t.accounts
        && Next(s, EditA(e, syncAfter)) == s.(store := RequestSave(ApplyEdit(t, sid, e), t.sessions[sid].path, sid, syncAfter))
        && (t.sessions[sid].path in t.slots ==> t.slots[t.sessions[sid].path].owner == sid)
        && sid in ApplyEdit(t, sid, e).sessions && RetainedAt(ApplyEdit(t, sid, e), t.sessions[sid].path, sid)
        && ApplyEdit(t, sid, e).slots == t.slots
  {
    hide RequestSave, LocalsOk, SettledOk, MergesOk, OrderOk, OpensOk;
  }

  lemma EditedAsks(t: Store, sid: SessionId, e: Edit, u: Store, syncAfter: bool)
    requires sid in t.sessions && sid in t.accounts
    requires var v := ApplyEdit(t, sid, e);
             sid in v.sessions && Asked(v, u, t.sessions[sid].path, sid, v.sessions[sid].document, syncAfter)
    ensures Asked(t, u, t.sessions[sid].path, sid,
                  Document(t.sessions[sid].document.database + [e], t.sessions[sid].document.generation + 1), syncAfter)
  {
  }

  lemma SaveAsks(s: State, syncAfter: bool, order: seq<SessionId>)
    requires Inv(s) && Enabled(s, SaveA(syncAfter, order)) && !Locked(s)
    ensures
      var u := Next(s, SaveA(syncAfter, order));
      if !s.screen.Open? then u == s
      else
        var sid, t := s.screen.session, s.store;
        u.screen == s.screen && Asked(t, u.store, t.sessions[sid].path, sid, t.sessions[sid].document, syncAfter)
  {
    if s.screen.Open? {
      var sid, t := s.screen.session, s.store;
      ShapeFacts(t, t.sessions[sid].path, sid);
      hide Inv, RequestSave, ShapeOk;
      RequestAsks(t, t.sessions[sid].path, sid, syncAfter);
    }
  }

  /** A merge is computed from the document of the vault and remembers which one that was. */
  lemma MergeStarts(s: State, path: Path, sid: SessionId, bound: bool)
    requires Inv(s) && RetainedAt(s.store, path, sid)
    ensures
      var t, u := s.store, Next(s, StartMergeA(path, bound));
      if Locked(s) || !bound then u == s
      else
        var document := t.sessions[sid].document;
        && t.nextMerge !in t.merges
        && u == s.(store := t.(merges := t.merges[t.nextMerge := MergeJob(path, sid, document.database, document.generation)],
                               nextMerge := t.nextMerge + 1))
  {
  }

  // ------------------------------------------------------------- a save reports

  /** The document after a save: the merge's, if it came over its base and the write went as far
      as the file, or failed under a waiting lock with nothing else to write. */
  function DocumentAfter(was: Document, w: Writer, again: bool, locked: bool): Document {
    if w.kind.Merge? && was.generation == w.kind.base && (!w.outcome.WriteFailed? || (locked && !again))
    then Document(w.payload, was.generation + 1) else was
  }

  /** Nobody else is touched. */
  ghost predicate OthersStay(t: Store, u: Store, sid: SessionId, path: Path) {
    && (forall o :: o != sid ==> (o in u.sessions <==> o in t.sessions) && (o in t.sessions ==> u.sessions[o] == t.sessions[o]))
    && (forall o :: o != sid ==> (o in u.unpersisted <==> o in t.unpersisted))
    && (forall p :: p != path ==> (p in u.slots <==> p in t.slots) && (p in t.slots ==> u.slots[p] == t.slots[p]))
  }

  /** How a save ends for the session it was for. With a request behind it the latest document is
      written anew. Otherwise the slot is free, and the session is clean and saved, or dirty and
      failed; what is quarantined goes when it is saved. */
  ghost predicate Ends(t: Store, u: Store, path: Path, sid: SessionId, document: Document,
                       again: bool, syncAfter: bool, durable: bool, locked: bool)
  {
    && u.disk == t.disk && OthersStay(t, u, sid, path)
    && if again then
         && sid in u.sessions && u.sessions[sid] == Session(path, document, Saving) && sid in u.unpersisted
         && path in u.slots && u.slots[path] == Slot(sid, None, false, t.nextWriter)
         && u.writers == t.writers[t.nextWriter := Writer(path, sid, document.database, Plain(syncAfter), Writing, Running)]
       else
         && path !in u.slots && u.writers == t.writers
         && if durable then
              sid !in u.unpersisted && (if locked then sid !in u.sessions
                                        else sid in u.sessions && u.sessions[sid] == Session(path, document, Saved))
            else sid in u.unpersisted && sid in u.sessions && u.sessions[sid] == Session(path, document, Failed)
  }

  /** A released slot, and a session that is still dirty. */
  ghost predicate AtRest(s: State, path: Path, sid: SessionId, pending: Option<SessionId>) {
    && RetainedAt(s.store, path, sid) && path !in s.store.slots && sid in s.store.unpersisted
    && s.store.nextWriter !in s.store.writers && (Locked(s) <==> s.lockRequested)
    && (pending.None? || pending == Some(sid))
    && s.store.sessions.Keys >= s.store.unpersisted && (Locked(s) ==> s.store.sessions.Keys == s.store.unpersisted)
  }

  lemma AfterWriterEnds(s: State, path: Path, sid: SessionId, durable: bool, pending: Option<SessionId>, syncAfter: bool)
    requires AtRest(s, path, sid, pending)
    requires pending.None? ==> s.store.sessions[sid].status == if durable then Saved else Failed
    ensures Ends(s.store, AfterWriter(s, path, sid, durable, pending, syncAfter).store, path, sid,
                 s.store.sessions[sid].document, pending.Some?, syncAfter, durable, Locked(s))
  {
  }

  /** It begins with what the session shows of it. */
  lemma ShownEnds(s: State, path: Path, sid: SessionId, document: Document, outcome: Outcome,
                  pending: Option<SessionId>, syncAfter: bool)
    requires AtRest(s, path, sid, pending)
    ensures
      var t := s.store.(sessions := s.store.sessions[sid := Session(path, document, StatusAfter(outcome))]);
      Ends(s.store, AfterWriter(s.(store := t), path, sid, outcome.Durable?, pending, syncAfter).store, path, sid,
           document, pending.Some?, syncAfter, outcome.Durable?, Locked(s))
  {
    var t := s.store.(sessions := s.store.sessions[sid := Session(path, document, StatusAfter(outcome))]);
    assert AtRest(s.(store := t), path, sid, pending);
    hide AfterWriter, AtRest;
    AfterWriterEnds(s.(store := t), path, sid, outcome.Durable?, pending, syncAfter);
  }

  lemma PlainEnds(s: State, w: Writer, slot: Slot)
    requires w.kind.Plain? && AtRest(s, w.path, w.session, slot.pending)
    ensures Ends(s.store, PlainDone(s, w, slot).store, w.path, w.session, s.store.sessions[w.session].document,
                 slot.pending.Some?, slot.syncAfter || w.kind.syncAfter, w.outcome.Durable?, Locked(s))
  {
    var session := s.store.sessions[w.session];
    assert session.(status := StatusAfter(w.outcome)) == Session(w.path, session.document, StatusAfter(w.outcome));
    ShownEnds(s, w.path, w.session, session.document, w.outcome, slot.pending, slot.syncAfter || w.kind.syncAfter);
    hide AfterWriter, Ends, AtRest;
  }

  lemma ResavedEnds(t: Store, path: Path, sid: SessionId, locked: bool)
    requires RetainedAt(t, path, sid) && path !in t.slots && t.nextWriter !in t.writers
    ensures Ends(t, RequestSave(t, path, sid, true), path, sid, t.sessions[sid].document, true, true, false, locked)
    ensures Ends(t, RequestSave(t, path, sid, true), path, sid, t.sessions[sid].document, true, true, true, locked)
  {
  }

  lemma MergeEnds(s: State, w: Writer, slot: Slot)
    requires w.kind.Merge? && AtRest(s, w.path, w.session, slot.pending) && !w.outcome.Running?
    requires slot.pending.None? ==> s.store.sessions[w.session].document.generation == w.kind.base
    ensures Ends(s.store, MergeDone(s, w, slot).store, w.path, w.session,
                 DocumentAfter(s.store.sessions[w.session].document, w, slot.pending.Some?, Locked(s)),
                 slot.pending.Some?, true, w.outcome.Durable?, Locked(s))
  {
    var session := s.store.sessions[w.session];
    var document := DocumentAfter(session.document, w, slot.pending.Some?, Locked(s));
    if !w.outcome.WriteFailed? && !AtBase(s.store, w.path, w.session, w.kind.base) {
      hide RequestSave, AfterWriter, Ends;
      ResavedEnds(s.store, w.path, w.session, Locked(s));
    } else {
      MergeShown(s, w, slot);
      hide AfterWriter, Ends, AtRest, MergeDone, DocumentAfter;
      ShownEnds(s, w.path, w.session, document, w.outcome, slot.pending, true);
    }
  }

  lemma MergeShown(s: State, w: Writer, slot: Slot)
    requires w.kind.Merge? && RetainedAt(s.store, w.path, w.session) && !w.outcome.Running?
    requires w.outcome.WriteFailed? || AtBase(s.store, w.path, w.session, w.kind.base)
    ensures
      var document := DocumentAfter(s.store.sessions[w.session].document, w, slot.pending.Some?, Locked(s));
      var t := s.store.(sessions := s.store.sessions[w.session := Session(w.path, document, StatusAfter(w.outcome))]);
      MergeDone(s, w, slot) == AfterWriter(s.(store := t), w.path, w.session, w.outcome.Durable?, slot.pending, true)
  {
    hide AfterWriter, MergeDone, DocumentAfter;
    if w.outcome.WriteFailed? { FailedShown(s, w, slot); } else { InstalledShown(s, w, slot); }
  }

  lemma FailedShown(s: State, w: Writer, slot: Slot)
    requires w.kind.Merge? && RetainedAt(s.store, w.path, w.session) && w.outcome.WriteFailed?
    ensures
      var document := DocumentAfter(s.store.sessions[w.session].document, w, slot.pending.Some?, Locked(s));
      var t := s.store.(sessions := s.store.sessions[w.session := Session(w.path, document, Failed)]);
      MergeDone(s, w, slot) == AfterWriter(s.(store := t), w.path, w.session, false, slot.pending, true)
  {
    var t := s.store;
    var fits := slot.pending.None? && Locked(s) && AtBase(t, w.path, w.session, w.kind.base);
    var kept := if fits then Install(t, w.session, w.payload) else t;
    InstallShows(t, w.session, w.payload);
    hide Install;
    StatusShows(kept, w.path, w.session, Failed);
    hide AfterWriter, SetStatus;
  }

  lemma InstalledShown(s: State, w: Writer, slot: Slot)
    requires w.kind.Merge? && !w.outcome.WriteFailed? && !w.outcome.Running?
    requires AtBase(s.store, w.path, w.session, w.kind.base)
    ensures
      var document := DocumentAfter(s.store.sessions[w.session].document, w, slot.pending.Some?, Locked(s));
      var t := s.store.(sessions := s.store.sessions[w.session := Session(w.path, document, StatusAfter(w.outcome))]);
      MergeDone(s, w, slot) == AfterWriter(s.(store := t), w.path, w.session, w.outcome.Durable?, slot.pending, true)
  {
    var t := s.store;
    var shown := SetStatus(Install(t, w.session, w.payload), w.path, w.session, StatusAfter(w.outcome));
    var document := Document(w.payload, t.sessions[w.session].document.generation + 1);
    assert MergeDone(s, w, slot) == AfterWriter(s.(store := shown), w.path, w.session, w.outcome.Durable?, slot.pending, true) by {
      hide AfterWriter, SetStatus, Install;
    }
    assert DocumentAfter(t.sessions[w.session].document, w, slot.pending.Some?, Locked(s)) == document;
    InstallShows(t, w.session, w.payload);
    hide AfterWriter, Install, MergeDone, DocumentAfter;
    StatusShows(Install(t, w.session, w.payload), w.path, w.session, StatusAfter(w.outcome));
    assert shown.sessions == t.sessions[w.session := Session(w.path, document, StatusAfter(w.outcome))];
    hide SetStatus, StatusAfter;
  }

  lemma StatusShows(t: Store, path: Path, sid: SessionId, status: SaveStatus)
    requires RetainedAt(t, path, sid)
    ensures SetStatus(t, path, sid, status) ==
      t.(sessions := t.sessions[sid := Session(path, t.sessions[sid].document, status)])
  {
  }

  lemma InstallShows(t: Store, sid: SessionId, database: Database)
    requires sid in t.sessions
    ensures var session := t.sessions[sid];
            Install(t, sid, database) ==
            t.(sessions := t.sessions[sid := Session(session.path, Document(database, session.document.generation + 1), session.status)])
  {
  }

  lemma RestsReleased(s: State, id: WriterId)
    requires Inv(s) && Finished(s.store, id) && HoldsSlot(s.store, id)
    ensures
      var w, t := s.store.writers[id], s.store;
      && t.slots[w.path].owner == w.session && w.session in t.sessions
      && AtRest(s.(store := Release(t, id)), w.path, w.session, t.slots[w.path].pending)
      && (w.kind.Merge? && t.slots[w.path].pending.None? ==> t.sessions[w.session].document.generation == w.kind.base)
  {
    HolderLook(s.store, None, id);
  }

  lemma CallbackIs(s: State, id: WriterId)
    requires Finished(s.store, id) && HoldsSlot(s.store, id)
    requires s.store.slots[s.store.writers[id].path].owner == s.store.writers[id].session
    ensures
      var w, slot, released := s.store.writers[id], s.store.slots[s.store.writers[id].path], s.(store := Release(s.store, id));
      Next(s, CallbackA(id)) == if w.kind.Plain? then PlainDone(released, w, slot) else MergeDone(released, w, slot)
  {
    hide PlainDone, MergeDone;
  }

  lemma SlotlessIs(s: State, id: WriterId)
    requires Inv(s) && Finished(s.store, id) && !HoldsSlot(s.store, id)
    ensures Next(s, CallbackA(id)).store == s.store.(writers := s.store.writers - {id})
  {
    assert WriterOk(s.store, id);
    hide PlainDone, MergeDone;
    assert s.store.writers[id].session !in s.store.sessions;
  }

  /** How any save ends: as `Ends` says for its session, with the document that is due, and for no
      other session at all. A writer whose slot is gone reports to nobody. */
  lemma CallbackReports(s: State, id: WriterId)
    requires Inv(s) && Finished(s.store, id)
    ensures
      var w, t, u := s.store.writers[id], s.store, Next(s, CallbackA(id)).store;
      var unheld := t.(writers := t.writers - {id});
      if w.path !in t.slots || t.slots[w.path].writer != id then u == unheld
      else
        var slot := t.slots[w.path];
        && w.session in t.sessions
        && Ends(unheld.(slots := t.slots - {w.path}), u, w.path, w.session,
                DocumentAfter(t.sessions[w.session].document, w, slot.pending.Some?, Locked(s)), slot.pending.Some?,
                w.kind.Merge? || slot.syncAfter || w.kind.syncAfter, w.outcome.Durable?, Locked(s))
  {
    var w, t := s.store.writers[id], s.store;
    if HoldsSlot(t, id) {
      RestsReleased(s, id);
      CallbackIs(s, id);
      var released := s.(store := Release(t, id));
      hide Inv, Next, PlainDone, MergeDone, AtRest, Ends;
      if w.kind.Plain? {
        PlainEnds(released, w, t.slots[w.path]);
      } else {
        MergeEnds(released, w, t.slots[w.path]);
      }
    } else {
      SlotlessIs(s, id);
      hide Inv, Next, Ends;
    }
  }

  // --------------------------------------------------------- locks and discards

  /** A writer begun since `t` writes the document of `sid`, and nothing is queued behind it. */
  ghost predicate WritesAnew(t: Store, u: Store, sid: SessionId)
    requires sid in t.sessions
  {
    var session := t.sessions[sid];
    && sid in u.sessions && u.sessions[sid] == session.(status := Saving)
    && session.path in u.slots
    && var id := u.slots[session.path].writer;
       && t.nextWriter <= id && u.slots[session.path] == Slot(sid, None, false, id)
       && id in u.writers && u.writers[id] == Writer(session.path, sid, session.document.database, Plain(false), Writing, Running)
  }

  ghost predicate LeftAlone(t: Store, u: Store, sid: SessionId)
    requires sid in t.sessions
  {
    var path := t.sessions[sid].path;
    && sid in u.sessions && u.sessions[sid] == t.sessions[sid]
    && (path in u.slots <==> path in t.slots) && (path in t.slots ==> u.slots[path] == t.slots[path])
  }

  ghost predicate OneEach(t: Store, order: seq<SessionId>) {
    && (forall a <- t.sessions, b <- t.sessions :: t.sessions[a].path == t.sessions[b].path ==> a == b)
    && (forall w <- t.writers :: w < t.nextWriter)
    && (forall o <- order :: o in t.sessions && t.sessions[o].path !in t.slots)
    && (forall i, j :: 0 <= i < j < |order| ==> order[i] != order[j])
  }

  lemma OneRetried(t: Store, order: seq<SessionId>, sid: SessionId)
    requires order != [] && OneEach(t, order) && sid in t.sessions
    ensures
      var u := RequestSave(t, t.sessions[order[0]].path, order[0], false);
      && OneEach(u, order[1..]) && t.nextWriter <= u.nextWriter && sid in u.sessions
      && (if sid == order[0] then WritesAnew(t, u, sid) else LeftAlone(t, u, sid))
      && (forall w <- t.writers :: w in u.writers && u.writers[w] == t.writers[w])
  {
  }

  lemma {:induction false} RetriesKeepWriters(t: Store, order: seq<SessionId>)
    requires OneEach(t, order)
    ensures forall w <- t.writers :: w in RetryAll(t, order).writers && RetryAll(t, order).writers[w] == t.writers[w]
    decreases |order|
  {
    if order != [] {
      OneRetried(t, order, order[0]);
      hide RequestSave, OneEach;
      RetriesKeepWriters(RequestSave(t, t.sessions[order[0]].path, order[0], false), order[1..]);
    }
  }

  lemma {:induction false} RetriesEach(t: Store, order: seq<SessionId>, sid: SessionId)
    requires OneEach(t, order) && sid in t.sessions
    ensures var u := RetryAll(t, order); if sid in order then WritesAnew(t, u, sid) else LeftAlone(t, u, sid)
    decreases |order|
  {
    if order != [] {
      var v := RequestSave(t, t.sessions[order[0]].path, order[0], false);
      OneRetried(t, order, sid);
      assert sid == order[0] ==> sid !in order[1..];
      RetriesKeepWriters(v, order[1..]);
      RetriesEach(v, order[1..], sid);
      hide RequestSave, OneEach;
    }
  }

  /** The orders in which unsaved sessions are retried name each session without a writer once. */
  lemma RetryOrderIs(t: Store, order: seq<SessionId>)
    requires ShapeOk(t) && LocalsOk(t, None) && IsRetryOrder(t, order)
    ensures OneEach(t, order)
    ensures forall sid <- t.unpersisted :: sid in t.sessions && (sid in order <==> t.sessions[sid].path !in t.slots)
  {
    forall sid <- t.unpersisted ensures sid in order <==> t.sessions[sid].path !in t.slots {
      var path := t.sessions[sid].path;
      assert LocalOk(Look(t, sid), sid, false);
    }
  }

  /** While a lock waits, or a save is asked for under it, every unsaved document is being written:
      by the writer it has, or by a new one. Those writers are not asked to sync. */
  ghost predicate EachBeingWritten(t: Store, u: Store) {
    && (forall sid <- t.unpersisted :: sid in t.sessions &&
          (if t.sessions[sid].path in t.slots then LeftAlone(t, u, sid) else WritesAnew(t, u, sid)))
    && (forall w <- t.writers :: w in u.writers && u.writers[w] == t.writers[w])
  }

  lemma RetryWritesAll(t: Store, order: seq<SessionId>)
    requires ShapeOk(t) && LocalsOk(t, None) && IsRetryOrder(t, order)
    ensures EachBeingWritten(t, RetryAll(t, order))
  {
    RetryOrderIs(t, order);
    RetriesKeepWriters(t, order);
    forall sid <- t.unpersisted
      ensures sid in t.sessions &&
              (if t.sessions[sid].path in t.slots then LeftAlone(t, RetryAll(t, order), sid) else WritesAnew(t, RetryAll(t, order), sid))
    {
      hide RetryAll, OneEach, LeftAlone, WritesAnew, LocalsOk, IsRetryOrder;
      RetriesEach(t, order, sid);
    }
  }

  lemma LockWritesAll(s: State, order: seq<SessionId>)
    requires Inv(s) && Enabled(s, LockA(order)) && s.store.unpersisted != {}
    ensures EachBeingWritten(s.store, Next(s, LockA(order)).store)
  {
    var t := RequestLock(s).store;
    QuarantinedIsRestricted(s.store);
    LockIs(s, order);
    hide RetryAll, Quarantined, LockVault, RequestLock, Inv, IsRetryOrder, EachBeingWritten, Enabled, Next;
    RetryWritesAll(t, order);
    SameUnsaved(s.store, t, RetryAll(t, order));
  }

  lemma LockIs(s: State, order: seq<SessionId>)
    requires Inv(s) && Enabled(s, LockA(order)) && s.store.unpersisted != {}
    ensures var t := RequestLock(s).store;
            && Next(s, LockA(order)).store == RetryAll(t, order) && IsRetryOrder(t, order)
            && ShapeOk(t) && LocalsOk(t, None) && (t == s.store || t == Quarantined(s.store))
  {
    RequestLockInv(s);
    LockRetries(s, order);
    hide Enabled, Next, RequestLock, RetryAll, IsRetryOrder, ShapeOk, LocalsOk, SettledOk, MergesOk;
  }

  lemma LockRetries(s: State, order: seq<SessionId>)
    requires Enabled(s, LockA(order)) && s.store.unpersisted != {}
    ensures var t := RequestLock(s).store;
            && Next(s, LockA(order)).store == RetryAll(t, order) && IsRetryOrder(t, order)
            && (t == s.store || t == Quarantined(s.store))
  {
    hide RetryAll, Quarantined, IsRetryOrder;
  }

  lemma SameUnsaved(t: Store, v: Store, u: Store)
    requires v == t || v == Restrict(t, t.unpersisted)
    requires EachBeingWritten(v, u)
    ensures EachBeingWritten(t, u)
  {
  }

  lemma SaveUnderLockWritesAll(s: State, syncAfter: bool, order: seq<SessionId>)
    requires Inv(s) && Enabled(s, SaveA(syncAfter, order)) && Locked(s)
    ensures EachBeingWritten(s.store, Next(s, SaveA(syncAfter, order)).store)
  {
    RetryWritesAll(s.store, order);
  }

  /** Some writer that holds a slot has claimed the file, or renamed it. */
  ghost predicate TooLate(t: Store) {
    exists p <- t.slots :: t.slots[p].writer in t.writers && !t.writers[t.slots[p].writer].phase.Writing?
                           && !t.writers[t.slots[p].writer].phase.Aborted?
  }

  /** Exactly the writers that hold a slot and still write are called off. */
  ghost predicate CalledOff(t: Store, u: Store) {
    && u.writers.Keys == t.writers.Keys
    && forall w <- t.writers ::
         u.writers[w] == if t.writers[w].phase.Writing? && (exists p <- t.slots :: t.slots[p].writer == w)
                         then t.writers[w].(phase := Aborted) else t.writers[w]
  }

  lemma AbortsCallOff(t: Store)
    ensures CalledOff(t, AbortSlots(t)) && AbortSlots(t) == t.(writers := AbortSlots(t).writers)
    ensures AnyPublicationStarted(t) <==> TooLate(t)
  {
  }

  lemma DiscardIs(s: State, stuck: bool)
    requires Inv(s)
    ensures
      var u := Next(s, DiscardA(stuck));
      if !(Locked(s) && (stuck || s.store.slots == map[])) then u == s
      else if AnyPublicationStarted(s.store) then u == s.(store := AbortSlots(s.store))
      else u.screen == Welcome && !u.lockRequested && u.store.sessions == map[]
           && u.store.writers == AbortSlots(s.store).writers && u.store.disk == s.store.disk
  {
    if Locked(s) && s.store.slots == map[] {
      WaitingLockNeverWedges(s);
    }
    hide Inv, AnyPublicationStarted;
  }

  /** A discard ends a waiting lock exactly when the user is stuck, or all saves have failed, and no
      writer has gone too far; if one has, the others are called off all the same. In any other
      state it does nothing. */
  lemma DiscardEndsTheLock(s: State, stuck: bool)
    requires Inv(s)
    ensures
      var t, u := s.store, Next(s, DiscardA(stuck));
      var allowed := Locked(s) && (stuck || t.slots == map[]);
      && (Locked(s) && !Locked(u) <==> allowed && !TooLate(t))
      && (!allowed ==> u == s)
      && (allowed && TooLate(t) ==> u == s.(store := t.(writers := u.store.writers)) && CalledOff(t, u.store))
      && (allowed && !TooLate(t) ==> u.screen == Welcome && !u.lockRequested && u.store.sessions == map[]
                                     && CalledOff(t, u.store) && u.store.disk == t.disk)
  {
    DiscardIs(s, stuck);
    AbortsCallOff(s.store);
    hide Inv, Next, AbortSlots, AnyPublicationStarted, TooLate;
  }

  // -------------------------------------------------------------- syncs asked for

  /** Saving `path` is to end in a sync: the writer carries it, or the save behind it will. */
  ghost predicate SyncDue(t: Store, path: Path) {
    && path in t.slots && t.slots[path].writer in t.writers
    && var kind := t.writers[t.slots[path].writer].kind; (kind.Merge? || kind.syncAfter || t.slots[path].syncAfter)
  }

  /** The save of `path` reports, with nothing queued behind it. */
  ghost predicate LastReport(t: Store, a: Action, path: Path) {
    a.CallbackA? && path in t.slots && t.slots[path].writer == a.writer && t.slots[path].pending.None?
  }

  /** A sync is due only with the writer itself when nothing is queued behind it. */
  ghost predicate FlagsOk(t: Store) {
    forall p <- t.slots :: t.slots[p].pending.None? ==> !t.slots[p].syncAfter
  }

  /** The slot and its writer's kind are the same, or gone on by a request. */
  ghost predicate SlotKept(t: Store, u: Store, path: Path) {
    && (path in t.slots <==> path in u.slots)
    && (path in t.slots ==> u.slots[path] == t.slots[path])
    && (path in t.slots && t.slots[path].writer in t.writers ==>
          t.slots[path].writer in u.writers && u.writers[t.slots[path].writer].kind == t.writers[t.slots[path].writer].kind)
  }

  lemma AskedKeepsSync(t: Store, u: Store, at: Path, sid: SessionId, document: Document, syncAfter: bool, path: Path)
    requires Asked(t, u, at, sid, document, syncAfter) && t.nextWriter !in t.writers
    ensures SyncDue(t, path) ==> SyncDue(u, path)
    ensures syncAfter && (at in t.slots ==> t.slots[at].writer in t.writers) ==> SyncDue(u, at)
    ensures FlagsOk(t) ==> FlagsOk(u)
  {
  }

  lemma EndsKeepsSync(t: Store, u: Store, at: Path, sid: SessionId, document: Document,
                      again: bool, syncAfter: bool, durable: bool, locked: bool, path: Path)
    requires Ends(t, u, at, sid, document, again, syncAfter, durable, locked) && t.nextWriter !in t.writers
    ensures path != at && SyncDue(t, path) ==> SyncDue(u, path)
    ensures again && syncAfter ==> SyncDue(u, at)
    ensures FlagsOk(t) ==> FlagsOk(u)
  {
  }

  lemma NextWriterUnused(s: State)
    requires Inv(s)
    ensures s.store.nextWriter !in s.store.writers
    ensures forall p <- s.store.slots :: s.store.slots[p].owner in s.store.unpersisted
    ensures forall p <- s.store.slots :: s.store.slots[p].writer in s.store.writers
  {
    forall p <- s.store.slots ensures s.store.slots[p].owner in s.store.unpersisted && s.store.slots[p].writer in s.store.writers {
      assert LocalOk(Look(s.store, s.store.slots[p].owner), s.store.slots[p].owner, false);
    }
  }

  lemma ReleasedSync(t: Store, id: WriterId, path: Path)
    requires id in t.writers && t.writers[id].path in t.slots && t.slots[t.writers[id].path].writer == id
    ensures var w := t.writers[id];
      var v, slot := t.(writers := t.writers - {id}, slots := t.slots - {w.path}), t.slots[w.path];
      && (path != w.path && (path in t.slots ==> t.slots[path].writer != id) && SyncDue(t, path) ==> SyncDue(v, path))
      && (SyncDue(t, w.path) ==> w.kind.Merge? || slot.syncAfter || w.kind.syncAfter)
      && (path == w.path && !LastReport(t, CallbackA(id), path) ==> slot.pending.Some?)
      && (FlagsOk(t) ==> FlagsOk(v))
  {
  }

  lemma CallbackKeepsSync(s: State, id: WriterId, path: Path)
    requires Inv(s) && Finished(s.store, id)
    ensures SyncStep(s, CallbackA(id), Next(s, CallbackA(id)).store, path)
  {
    hide Inv, Next, Ends, DocumentAfter;
    var t, u := s.store, Next(s, CallbackA(id)).store;
    var w := t.writers[id];
    CallbackReports(s, id);
    HoldersApart(s, id, path);
    if w.path in t.slots && t.slots[w.path].writer == id {
      hide SyncDue, FlagsOk, LastReport;
      var v, slot := t.(writers := t.writers - {id}, slots := t.slots - {w.path}), t.slots[w.path];
      NextWriterUnused(s);
      ReleasedSync(t, id, path);
      EndsKeepsSync(v, u, w.path, w.session, DocumentAfter(t.sessions[w.session].document, w, slot.pending.Some?, Locked(s)),
                    slot.pending.Some?, w.kind.Merge? || slot.syncAfter || w.kind.syncAfter, w.outcome.Durable?, Locked(s), path);
    } else {
      assert u == t.(writers := t.writers - {id});
    }
  }

  /** A writer that holds the slot of a path holds no other. */
  lemma HoldersApart(s: State, id: WriterId, path: Path)
    requires Inv(s) && id in s.store.writers
    ensures path in s.store.slots && s.store.slots[path].writer == id ==> s.store.writers[id].path == path
  {
    if path in s.store.slots {
      var sid := s.store.slots[path].owner;
      assert LocalOk(Look(s.store, sid), sid, false);
    }
  }

  /** An asked sync is passed on, unless the save that carries it reports, and no flag is left behind. */
  ghost predicate SyncStep(s: State, a: Action, u: Store, path: Path) {
    && (SyncDue(s.store, path) ==>
          SyncDue(u, path) || LastReport(s.store, a, path) || (a.DiscardA? && u.slots == map[]))
    && (FlagsOk(s.store) ==> FlagsOk(u))
  }

  lemma WrittenKeepsSync(s: State, u: Store, path: Path)
    requires Inv(s) && EachBeingWritten(s.store, u) && SyncDue(s.store, path)
    ensures SyncDue(u, path)
  {
    OwnersUnpersisted(s.store, None);
  }

  lemma RequestKeepsFlags(t: Store, path: Path, sid: SessionId, syncAfter: bool)
    requires FlagsOk(t)
    ensures FlagsOk(RequestSave(t, path, sid, syncAfter))
  {
  }

  lemma {:induction false} RetryKeepsFlags(t: Store, order: seq<SessionId>)
    requires FlagsOk(t)
    ensures FlagsOk(RetryAll(t, order))
    decreases |order|
  {
    if order != [] {
      if order[0] in t.sessions {
        RequestKeepsFlags(t, t.sessions[order[0]].path, order[0], false);
        hide RequestSave, FlagsOk;
        RetryKeepsFlags(RequestSave(t, t.sessions[order[0]].path, order[0], false), order[1..]);
      } else {
        RetryKeepsFlags(t, order[1..]);
      }
    }
  }

  lemma EditKeepsSync(s: State, e: Edit, syncAfter: bool, path: Path)
    requires Inv(s)
    ensures SyncStep(s, EditA(e, syncAfter), Next(s, EditA(e, syncAfter)).store, path)
  {
    hide Inv, Next, Asked, SyncDue, FlagsOk;
    EditAsks(s, e, syncAfter);
    NextWriterUnused(s);
    if s.screen.Open? {
      var sid, t := s.screen.session, s.store;
      AskedKeepsSync(t, Next(s, EditA(e, syncAfter)).store, t.sessions[sid].path, sid,
                     Document(t.sessions[sid].document.database + [e], t.sessions[sid].document.generation + 1), syncAfter, path);
    }
  }

  lemma SaveKeepsSync(s: State, syncAfter: bool, order: seq<SessionId>, path: Path)
    requires Inv(s) && Enabled(s, SaveA(syncAfter, order))
    ensures SyncStep(s, SaveA(syncAfter, order), Next(s, SaveA(syncAfter, order)).store, path)
  {
    var t, u := s.store, Next(s, SaveA(syncAfter, order)).store;
    NextWriterUnused(s);
    if Locked(s) {
      SaveUnderLockWritesAll(s, syncAfter, order);
      assert u == RetryAll(t, order) by { hide RetryAll, Inv; }
      hide Inv, Next, SyncDue, FlagsOk, EachBeingWritten, RetryAll;
      if SyncDue(t, path) { WrittenKeepsSync(s, u, path); }
      if FlagsOk(t) { RetryKeepsFlags(t, order); }
    } else {
      SaveAsks(s, syncAfter, order);
      hide Inv, Next, Asked, SyncDue, FlagsOk;
      if s.screen.Open? {
        var sid := s.screen.session;
        AskedKeepsSync(t, u, t.sessions[sid].path, sid, t.sessions[sid].document, syncAfter, path);
      }
    }
  }

  lemma LockKeepsSync(s: State, order: seq<SessionId>, path: Path)
    requires Inv(s) && Enabled(s, LockA(order))
    ensures SyncStep(s, LockA(order), Next(s, LockA(order)).store, path)
  {
    var t, u := s.store, Next(s, LockA(order)).store;
    NextWriterUnused(s);
    if t.unpersisted == {} {
      assert t.slots == map[];
      assert u.slots == t.slots && u.writers == t.writers by { hide Inv; }
      hide Inv, Next, Enabled;
    } else {
      LockWritesAll(s, order);
      LockRetries(s, order);
      hide Inv, Next, EachBeingWritten, RetryAll, Enabled, RequestLock;
      if SyncDue(t, path) { WrittenKeepsSync(s, u, path); }
      if FlagsOk(t) {
        assert FlagsOk(RequestLock(s).store);
        hide FlagsOk;
        RetryKeepsFlags(RequestLock(s).store, order);
      }
    }
  }

  /** Slots, and what their writers are for, are the same. */
  ghost predicate SameSlots(t: Store, u: Store) {
    && u.slots == t.slots
    && forall w <- t.writers :: w in u.writers && u.writers[w].kind == t.writers[w].kind
  }

  lemma SameSlotsKeepSync(t: Store, u: Store, path: Path)
    requires SameSlots(t, u)
    ensures SyncDue(t, path) ==> SyncDue(u, path)
    ensures FlagsOk(t) ==> FlagsOk(u)
  {
  }

  lemma QuietSlots(s: State, a: Action)
    requires Enabled(s, a)
    requires Background(a) || a.SwitchToA? || a.RequestPasswordA? || a.SubmitPasswordA? || a.RehydrateA? || a.FailSelectionA?
    ensures SameSlots(s.store, Next(s, a).store)
  {
    if Background(a) {
      BackgroundSlots(s, a);
    } else {
      hide SameSlots;
      SlotsStay(s.store);
      match a
      case SwitchToA(path) => NavigationStore(s, path);
      case RequestPasswordA(path) => NavigationStore(s, path);
      case SubmitPasswordA(path) => NavigationStore(s, path);
      case _ => NavigationStore(s, "");
    }
  }

  lemma SlotsStay(t: Store)
    ensures SameSlots(t, t)
  {
  }

  lemma BackgroundSlots(s: State, a: Action)
    requires Enabled(s, a) && Background(a)
    ensures SameSlots(s.store, Next(s, a).store)
  {
  }

  lemma OpenSlots(s: State, task: nat, decrypted: bool)
    requires task in s.opens
    ensures SameSlots(s.store, FinishOpen(s, task, decrypted).store)
  {
    var u := FinishOpen(s, task, decrypted).store;
    assert u.slots == s.store.slots && u.writers == s.store.writers;
    hide FinishOpen;
  }

  lemma StartedKeepsSync(t: Store, u: Store, at: Path, sid: SessionId, payload: Database, kind: Kind, path: Path)
    requires Starts(t, u, at, sid, payload, kind) && at !in t.slots && t.nextWriter !in t.writers
    ensures SyncDue(t, path) ==> SyncDue(u, path)
    ensures FlagsOk(t) ==> FlagsOk(u)
  {
  }

  lemma CommittedKeepsSync(s: State, j: nat, merged: Database, path: Path)
    requires Inv(s) && Enabled(s, CommitMergeA(j, merged, true)) && Committable(s, j)
    ensures SyncStep(s, CommitMergeA(j, merged, true), Next(s, CommitMergeA(j, merged, true)).store, path)
  {
    var job, t, u := s.store.merges[j], s.store, Next(s, CommitMergeA(j, merged, true)).store;
    hide Inv, Next, Starts, OnlyAnnounced, SyncDue, FlagsOk, Enabled;
    CommitWritesTheMerge(s, j, merged);
    StartedKeepsSync(t, u, job.path, job.session, merged, Merge(job.generation), path);
  }

  lemma QueuedKeepsSync(t: Store, u: Store, at: Path, sid: SessionId, path: Path)
    requires at in t.slots && u.slots == t.slots[at := Slot(sid, Some(sid), true, t.slots[at].writer)] && u.writers == t.writers
    ensures SyncDue(t, path) ==> SyncDue(u, path)
    ensures FlagsOk(t) ==> FlagsOk(u)
  {
  }

  lemma UncommittedKeepsSync(s: State, j: nat, merged: Database, bound: bool, path: Path)
    requires Inv(s) && Enabled(s, CommitMergeA(j, merged, bound)) && !(bound && Committable(s, j))
    ensures SyncStep(s, CommitMergeA(j, merged, bound), Next(s, CommitMergeA(j, merged, bound)).store, path)
  {
    var job, t, u := s.store.merges[j], s.store, Next(s, CommitMergeA(j, merged, bound)).store;
    hide Inv, Next, Starts, OnlyAnnounced, Committable, SyncDue, FlagsOk;
    NextWriterUnused(s);
    CommitKeepsTheDocument(s, j, merged, bound);
    if bound && !Locked(s) && RetainedAt(t, job.path, job.session) {
      if job.path in t.slots {
        QueuedKeepsSync(t, u, job.path, job.session, path);
      } else {
        StartedKeepsSync(t, u, job.path, job.session, t.sessions[job.session].document.database, Plain(true), path);
      }
    }
  }

  lemma AbortsKeepSlots(t: Store)
    ensures SameSlots(t, AbortSlots(t))
  {
  }

  lemma DiscardKeepsSync(s: State, stuck: bool, path: Path)
    requires Inv(s)
    ensures SyncStep(s, DiscardA(stuck), Next(s, DiscardA(stuck)).store, path)
  {
    hide Inv, Next, AbortSlots, SameSlots, DiscardSucceeds;
    var u := Next(s, DiscardA(stuck)).store;
    DiscardIs(s, stuck);
    DiscardEmpties(s, stuck);
    if u.slots != map[] {
      AbortsKeepSlots(s.store);
      SlotsStay(s.store);
      SameSlotsKeepSync(s.store, u, path);
    }
  }

  lemma DiscardEmpties(s: State, stuck: bool)
    requires Inv(s)
    ensures var u := Next(s, DiscardA(stuck)).store;
            u == s.store || u == AbortSlots(s.store) || u.slots == map[]
  {
    hide Inv, AbortSlots, DiscardGateOpen, AnyPublicationStarted;
  }

  lemma QuietKeepsSync(s: State, a: Action, path: Path)
    requires Enabled(s, a) && SameSlots(s.store, Next(s, a).store)
    ensures SyncStep(s, a, Next(s, a).store, path)
  {
    hide Next, Enabled, SyncDue, FlagsOk;
    SameSlotsKeepSync(s.store, Next(s, a).store, path);
  }

  lemma MergeSlots(s: State, path: Path, bound: bool)
    ensures SameSlots(s.store, StartMerge(s, path, bound).store)
  {
    var u := StartMerge(s, path, bound).store;
    assert u.slots == s.store.slots && u.writers == s.store.writers;
    hide StartMerge;
  }

  lemma StepKeepsSync(s: State, a: Action, path: Path)
    requires Inv(s) && Enabled(s, a)
    ensures SyncStep(s, a, Next(s, a).store, path)
  {
    hide Inv, SyncStep, SameSlots;
    match a
    case EditA(e, syncAfter) => EditKeepsSync(s, e, syncAfter, path);
    case SaveA(syncAfter, order) => SaveKeepsSync(s, syncAfter, order, path);
    case LockA(order) => LockKeepsSync(s, order, path);
    case CommitMergeA(j, merged, bound) =>
      hide Next, Committable;
      if bound && Committable(s, j) { CommittedKeepsSync(s, j, merged, path); } else { UncommittedKeepsSync(s, j, merged, bound, path); }
    case CallbackA(id) =>
      CallbackKeepsSync(s, id, path);
    case DiscardA(stuck) => DiscardKeepsSync(s, stuck, path);
    case FinishOpenA(task, decrypted) =>
      OpenSlots(s, task, decrypted);
      QuietKeepsSync(s, a, path);
    case StartMergeA(at, bound) =>
      MergeSlots(s, at, bound);
      QuietKeepsSync(s, a, path);
    case _ =>
      hide Next, Enabled;
      QuietSlots(s, a);
      QuietKeepsSync(s, a, path);
  }

  lemma {:induction false} RunFlags(states: seq<State>, actions: seq<Action>, i: nat)
    requires IsRun(states, actions) && i < |states|
    ensures FlagsOk(states[i].store)
    decreases i
  {
    hide Next, Enabled, Inv;
    if i > 0 {
      RunFlags(states, actions, i - 1);
      RunInv(states, actions, i - 1);
      StepKeepsSync(states[i - 1], actions[i - 1], "");
    }
  }

  lemma {:induction false} SyncStaysDue(states: seq<State>, actions: seq<Action>, i: nat, k: nat, path: Path)
    requires IsRun(states, actions) && i <= k < |states| && SyncDue(states[i].store, path)
    requires forall j | i <= j < k :: !LastReport(states[j].store, actions[j], path) && !actions[j].DiscardA?
    ensures SyncDue(states[k].store, path)
    decreases k
  {
    hide Next, Enabled, Inv, Init, SyncDue, LastReport, FlagsOk;
    if i < k {
      SyncStaysDue(states, actions, i, k - 1, path);
      RunInv(states, actions, k - 1);
      StepKeepsSync(states[k - 1], actions[k - 1], path);
    }
  }

  /** Over whole runs: an edit whose save is to reach the cloud is followed, whatever other saves
      and merges come between, by a last save that carries the sync; only a discard takes it back. */
  lemma AskedSyncFollows(states: seq<State>, actions: seq<Action>, i: nat, k: nat, e: Edit)
    requires IsRun(states, actions) && i < k < |actions| && actions[i] == EditA(e, true) && states[i].screen.Open?
    requires states[i].screen.session in states[i].store.sessions
    requires
      var path := states[i].store.sessions[states[i].screen.session].path;
      && LastReport(states[k].store, actions[k], path)
      && forall j | i < j < k :: !LastReport(states[j].store, actions[j], path) && !actions[j].DiscardA?
    ensures
      var path, t := states[i].store.sessions[states[i].screen.session].path, states[k].store;
      && path in t.slots && t.slots[path].writer in t.writers
      && var kind := t.writers[t.slots[path].writer].kind; (kind.Merge? || kind.syncAfter)
  {
    var sid := states[i].screen.session;
    RunInv(states, actions, i);
    RunFlags(states, actions, k);
    EditFallsDue(states[i], e);
    var path := states[i].store.sessions[sid].path;
    assert states[i + 1] == Next(states[i], actions[i]);
    hide Next, Enabled, Inv, Init;
    SyncStaysDue(states, actions, i + 1, k, path);
  }

  lemma EditFallsDue(s: State, e: Edit)
    requires Inv(s) && s.screen.Open?
    ensures SyncDue(Next(s, EditA(e, true)).store, s.store.sessions[s.screen.session].path)
  {
    hide Inv, Next, Asked, SyncDue;
    var t, sid := s.store, s.screen.session;
    EditAsks(s, e, true);
    NextWriterUnused(s);
    AskedKeepsSync(t, Next(s, EditA(e, true)).store, t.sessions[sid].path, sid,
                   Document(t.sessions[sid].document.database + [e], t.sessions[sid].document.generation + 1), true,
                   t.sessions[sid].path);
  }
}
