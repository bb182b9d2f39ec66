/**
 What a committed merge becomes: the merged database, and no other, is written for
 the session it was computed for, and once it lands the document and the disk hold it.
 */
module SaveCommits {
  import opened Wrappers
  import opened SaveProtocol
  import opened SaveInvariant
  import opened SaveTheorems

  /** The document the merge was computed from is the one there is, and nobody is writing. */
  ghost predicate Committable(s: State, j: nat)
    requires j in s.store.merges
  {
    var job := s.store.merges[j];
    && !Locked(s) && RetainedAt(s.store, job.path, job.session)
    && s.store.sessions[job.session].document.generation == job.generation && job.path !in s.store.slots
  }

  /** The one slot and the one writer that are new: the session's, writing exactly this. */
  ghost predicate Starts(t: Store, u: Store, path: Path, sid: SessionId, payload: Database, kind: Kind) {
    && u.slots == t.slots[path := Slot(sid, None, false, t.nextWriter)]
    && u.writers == t.writers[t.nextWriter := Writer(path, sid, payload, kind, Writing, Running)]
    && u.nextWriter == t.nextWriter + 1
  }

  /** Of two stores all but slots, writers, dirty marks and the status of `sid` is the same. */
  ghost predicate OnlyAnnounced(t: Store, u: Store, sid: SessionId)
    requires sid in t.sessions
  {
    && u.unpersisted == t.unpersisted + {sid}
    && u.sessions == t.sessions[sid := t.sessions[sid].(status := Saving)]
    && u.disk == t.disk && u.accounts == t.accounts && u.merges == t.merges
  }

  /** The commit writes the merge: the whole merged database, over its base, for its session. */
  lemma CommitWritesTheMerge(s: State, j: nat, merged: Database)
    requires Inv(s) && Enabled(s, CommitMergeA(j, merged, true)) && Committable(s, j)
    ensures
      var job, t, u := s.store.merges[j], s.store, Next(s, CommitMergeA(j, merged, true)).store;
      && t.nextWriter !in t.writers
      && Starts(t, u, job.path, job.session, merged, Merge(job.generation)) && OnlyAnnounced(t, u, job.session)
  {
    var job, t := s.store.merges[j], s.store;
    ShapeFacts(t, job.path, job.session);
    NextCommit(s, j, merged, true);
    hide Inv, Next, Enabled, StartWriter, OnlyAnnounced, Starts, RequestSave;
    StartWrites(t, job.session, merged, Merge(job.generation));
  }

  lemma ShapeFacts(t: Store, path: Path, sid: SessionId)
    requires ShapeOk(t)
    ensures t.nextWriter !in t.writers
    ensures RetainedAt(t, path, sid) && path in t.slots ==> t.slots[path].owner == sid
  {
  }

  lemma NextCommit(s: State, j: nat, merged: Database, bound: bool)
    requires Enabled(s, CommitMergeA(j, merged, bound))
    ensures
      var job, t, u := s.store.merges[j], s.store, Next(s, CommitMergeA(j, merged, bound)).store;
      u == if !bound || Locked(s) || !RetainedAt(t, job.path, job.session) then t
           else if Committable(s, j) then StartWriter(t, job.session, merged, Merge(job.generation))
           else RequestSave(t, job.path, job.session, true)
  {
    hide StartWriter, RequestSave;
  }

  lemma StartWrites(t: Store, sid: SessionId, payload: Database, kind: Kind)
    requires sid in t.sessions
    ensures
      var u := StartWriter(t, sid, payload, kind);
      Starts(t, u, t.sessions[sid].path, sid, payload, kind) && OnlyAnnounced(t, u, sid)
  {
  }

  lemma QueueWaits(t: Store, sid: SessionId)
    requires sid in t.sessions && t.sessions[sid].path in t.slots && t.slots[t.sessions[sid].path].owner == sid
    ensures
      var path, u := t.sessions[sid].path, QueueBehind(t, sid, true);
      && OnlyAnnounced(t, u, sid) && u.writers == t.writers
      && u.slots == t.slots[path := Slot(sid, Some(sid), true, t.slots[path].writer)]
  {
  }

  /** Without a relationship to sync with, behind a lock or without its session, a merge is
      nothing; otherwise, where it cannot be committed, the live document is written or queued. */
  lemma CommitKeepsTheDocument(s: State, j: nat, merged: Database, bound: bool)
    requires Inv(s) && Enabled(s, CommitMergeA(j, merged, bound)) && !(bound && Committable(s, j))
    ensures
      var job, t, u := s.store.merges[j], s.store, Next(s, CommitMergeA(j, merged, bound)).store;
      if !bound || Locked(s) || !RetainedAt(t, job.path, job.session) then u == t
      else
        && OnlyAnnounced(t, u, job.session)
        && if job.path !in t.slots
           then Starts(t, u, job.path, job.session, t.sessions[job.session].document.database, Plain(true))
           else u.slots == t.slots[job.path := Slot(job.session, Some(job.session), true, t.slots[job.path].writer)]
                && u.writers == t.writers
  {
    var job, t := s.store.merges[j], s.store;
    ShapeFacts(t, job.path, job.session);
    NextCommit(s, j, merged, bound);
    hide Inv, Next, Enabled, StartWriter, QueueBehind, OnlyAnnounced, Starts;
    if RetainedAt(t, job.path, job.session) {
      if job.path in t.slots {
        QueueWaits(t, job.session);
      } else {
        StartWrites(t, job.session, t.sessions[job.session].document.database, Plain(true));
      }
    }
  }

  // --------------------------------------------------------- until it has landed

  /** As long as it is there, a writer writes what it was started for. */
  ghost predicate SameWriter(t: Store, u: Store, id: WriterId) {
    && t.nextWriter <= u.nextWriter
    && (id in u.writers ==>
          && id in t.writers && u.writers[id].path == t.writers[id].path && u.writers[id].session == t.writers[id].session
          && u.writers[id].payload == t.writers[id].payload && u.writers[id].kind == t.writers[id].kind)
  }

  lemma SameWriterTwice(t: Store, u: Store, v: Store, id: WriterId)
    requires SameWriter(t, u, id) && SameWriter(u, v, id)
    ensures SameWriter(t, v, id)
  {
  }

  lemma RequestSameWriter(t: Store, path: Path, sid: SessionId, syncAfter: bool, id: WriterId)
    requires id < t.nextWriter
    ensures SameWriter(t, RequestSave(t, path, sid, syncAfter), id)
  {
  }

  lemma {:induction false} RetrySameWriter(t: Store, order: seq<SessionId>, id: WriterId)
    requires id < t.nextWriter
    ensures SameWriter(t, RetryAll(t, order), id)
    decreases |order|
  {
    if order != [] {
      if order[0] in t.sessions {
        var u := RequestSave(t, t.sessions[order[0]].path, order[0], false);
        RequestSameWriter(t, t.sessions[order[0]].path, order[0], false, id);
        hide RequestSave;
        RetrySameWriter(u, order[1..], id);
        SameWriterTwice(t, u, RetryAll(t, order), id);
      } else {
        RetrySameWriter(t, order[1..], id);
      }
    }
  }

  lemma AfterWriterSameWriter(s: State, path: Path, sid: SessionId, durable: bool, pending: Option<SessionId>,
                              syncAfter: bool, id: WriterId)
    requires id < s.store.nextWriter
    ensures SameWriter(s.store, AfterWriter(s, path, sid, durable, pending, syncAfter).store, id)
  {
    var settled := if durable && pending != Some(sid) then s.(store := MarkPersisted(s.store, sid, Locked(s))) else s;
    if pending.Some? {
      RequestSameWriter(settled.store, path, pending.value, syncAfter, id);
      hide RequestSave;
    }
  }

  lemma ReportSameWriter(s: State, t: Store, path: Path, sid: SessionId, status: SaveStatus, durable: bool,
                         pending: Option<SessionId>, syncAfter: bool, id: WriterId)
    requires id < t.nextWriter
    ensures SameWriter(t, AfterWriter(s.(store := SetStatus(t, path, sid, status)), path, sid, durable, pending, syncAfter).store, id)
  {
    var u := SetStatus(t, path, sid, status);
    assert SameWriter(t, u, id);
    hide SetStatus, AfterWriter;
    AfterWriterSameWriter(s.(store := u), path, sid, durable, pending, syncAfter, id);
    SameWriterTwice(t, u, AfterWriter(s.(store := u), path, sid, durable, pending, syncAfter).store, id);
  }

  lemma PlainDoneSameWriter(s: State, w: Writer, slot: Slot, id: WriterId)
    requires w.kind.Plain? && id < s.store.nextWriter
    ensures SameWriter(s.store, PlainDone(s, w, slot).store, id)
  {
    hide SetStatus, AfterWriter, SameWriter;
    ReportSameWriter(s, s.store, w.path, w.session, StatusAfter(w.outcome), w.outcome.Durable?, slot.pending,
                     slot.syncAfter || w.kind.syncAfter, id);
  }

  lemma MergeDoneSameWriter(s: State, w: Writer, slot: Slot, id: WriterId)
    requires w.kind.Merge? && id < s.store.nextWriter
    ensures SameWriter(s.store, MergeDone(s, w, slot).store, id)
  {
    var t := s.store;
    var installed := if AtBase(t, w.path, w.session, w.kind.base) then Install(t, w.session, w.payload) else t;
    var kept := if slot.pending.None? && Locked(s) then installed else t;
    var saved := RequestSave(t, w.path, w.session, true);
    RequestSameWriter(t, w.path, w.session, true, id);
    assert installed.writers == t.writers && installed.nextWriter == t.nextWriter;
    hide SetStatus, AfterWriter, RequestSave, Install;
    if w.outcome.WriteFailed? {
      ReportSameWriter(s, kept, w.path, w.session, Failed, false, slot.pending, true, id);
    } else if !AtBase(t, w.path, w.session, w.kind.base) {
      if slot.pending.Some? {
        RequestSameWriter(saved, w.path, slot.pending.value, true, id);
        SameWriterTwice(t, saved, RequestSave(saved, w.path, slot.pending.value, true), id);
      }
    } else {
      ReportSameWriter(s, installed, w.path, w.session, StatusAfter(w.outcome), w.outcome.Durable?, slot.pending, true, id);
    }
  }

  lemma CallbackSameWriter(s: State, w: WriterId, id: WriterId)
    requires Finished(s.store, w) && id < s.store.nextWriter
    ensures SameWriter(s.store, Callback(s, w).store, id)
  {
    var t, writer := s.store, s.store.writers[w];
    var released := s.(store := t.(writers := t.writers - {w}, slots := t.slots - {writer.path}));
    assert SameWriter(t, released.store, id) && SameWriter(t, t.(writers := t.writers - {w}), id);
    if writer.path in t.slots && t.slots[writer.path].owner == writer.session {
      if writer.kind.Plain? {
        PlainDoneSameWriter(released, writer, t.slots[writer.path], id);
      } else {
        MergeDoneSameWriter(released, writer, t.slots[writer.path], id);
      }
      assert Callback(s, w) == if writer.kind.Plain? then PlainDone(released, writer, t.slots[writer.path])
                               else MergeDone(released, writer, t.slots[writer.path]);
      hide PlainDone, MergeDone, Callback;
      SameWriterTwice(t, released.store, Callback(s, w).store, id);
    }
  }

  lemma EditSameWriter(s: State, e: Edit, syncAfter: bool, id: WriterId)
    requires id < s.store.nextWriter
    ensures SameWriter(s.store, EditOpen(s, e, syncAfter).store, id)
  {
    var t := s.store;
    if s.screen.Open? && s.screen.session in t.sessions && s.screen.session in t.accounts {
      RequestSameWriter(ApplyEdit(t, s.screen.session, e), t.sessions[s.screen.session].path, s.screen.session, syncAfter, id);
      hide RequestSave;
    }
  }

  lemma SaveSameWriter(s: State, syncAfter: bool, order: seq<SessionId>, id: WriterId)
    requires id < s.store.nextWriter
    ensures SameWriter(s.store, SaveAsync(s, syncAfter, order).store, id)
  {
    RetrySameWriter(s.store, order, id);
    if s.screen.Open? && s.screen.session in s.store.sessions {
      RequestSameWriter(s.store, s.store.sessions[s.screen.session].path, s.screen.session, syncAfter, id);
    }
    hide RequestSave, RetryAll;
  }

  lemma LockSameWriter(s: State, order: seq<SessionId>, id: WriterId)
    requires id < s.store.nextWriter
    ensures SameWriter(s.store, LockVault(s, order).store, id)
  {
    var t := RequestLock(s);
    assert t.store.writers == s.store.writers && t.store.nextWriter == s.store.nextWriter;
    assert LockNow(s).store.writers == s.store.writers && LockNow(s).store.nextWriter == s.store.nextWriter;
    hide RetryAll, RequestLock, LockNow;
    RetrySameWriter(t.store, order, id);
  }

  lemma CommitSameWriter(s: State, path: Path, sid: SessionId, merged: Database, base: nat, bound: bool, id: WriterId)
    requires id < s.store.nextWriter
    ensures SameWriter(s.store, CommitMerged(s, path, sid, merged, base, bound).store, id)
  {
    RequestSameWriter(s.store, path, sid, true, id);
    hide RequestSave;
  }

  lemma BackgroundSameWriter(s: State, a: Action, id: WriterId)
    requires Enabled(s, a) && Background(a) && id < s.store.nextWriter
    ensures SameWriter(s.store, Next(s, a).store, id)
  {
  }

  lemma DiscardSameWriter(s: State, stuck: bool, id: WriterId)
    ensures SameWriter(s.store, Discard(s, stuck).store, id)
  {
    var t := AbortSlots(s.store);
    assert SameWriter(s.store, t, id) && SameWriter(s.store, s.store, id);
    assert LockNow(s.(store := WriteOff(t))).store.writers == t.writers;
    assert LockNow(s.(store := WriteOff(t))).store.nextWriter == t.nextWriter;
    hide AbortSlots, WriteOff, LockNow, DiscardGateOpen, AnyPublicationStarted;
  }

  lemma OpenSameWriter(s: State, task: nat, decrypted: bool, id: WriterId)
    requires task in s.opens
    ensures SameWriter(s.store, FinishOpen(s, task, decrypted).store, id)
  {
    var t := FinishOpen(s, task, decrypted).store;
    assert t.writers == s.store.writers && t.nextWriter == s.store.nextWriter;
    hide FinishOpen;
  }

  lemma MergeSameWriter(s: State, path: Path, bound: bool, id: WriterId)
    ensures SameWriter(s.store, StartMerge(s, path, bound).store, id)
  {
    var t := StartMerge(s, path, bound).store;
    assert t.writers == s.store.writers && t.nextWriter == s.store.nextWriter;
    hide StartMerge;
  }

  lemma NavigationSameWriter(s: State, a: Action, id: WriterId)
    requires Enabled(s, a)
    requires a.SwitchToA? || a.RequestPasswordA? || a.SubmitPasswordA? || a.RehydrateA? || a.FailSelectionA?
    ensures SameWriter(s.store, Next(s, a).store, id)
  {
    StaysItself(s.store, id);
    hide SameWriter;
    match a
    case SwitchToA(path) => NavigationStore(s, path);
    case RequestPasswordA(path) => NavigationStore(s, path);
    case SubmitPasswordA(path) => NavigationStore(s, path);
    case _ => NavigationStore(s, "");
  }

  lemma StepSameWriter(s: State, a: Action, id: WriterId)
    requires Enabled(s, a) && id < s.store.nextWriter
    ensures SameWriter(s.store, Next(s, a).store, id)
  {
    hide SameWriter;
    match a
    case EditA(e, syncAfter) => EditSameWriter(s, e, syncAfter, id);
    case SaveA(syncAfter, order) => SaveSameWriter(s, syncAfter, order, id);
    case LockA(order) => LockSameWriter(s, order, id);
    case CommitMergeA(j, merged, bound) =>
      var job := s.store.merges[j];
      CommitSameWriter(s, job.path, job.session, merged, job.generation, bound, id);
    case CallbackA(w) => CallbackSameWriter(s, w, id);
    case FinishOpenA(task, decrypted) => OpenSameWriter(s, task, decrypted, id);
    case DiscardA(stuck) => DiscardSameWriter(s, stuck, id);
    case StartMergeA(path, bound) => MergeSameWriter(s, path, bound, id);
    case _ =>
      hide Next, Enabled;
      if Background(a) {
        BackgroundSameWriter(s, a, id);
      } else {
        NavigationSameWriter(s, a, id);
      }
  }

  lemma {:induction false} WriterStays(states: seq<State>, actions: seq<Action>, id: WriterId, i: nat, k: nat)
    requires IsRun(states, actions) && i <= k < |states| && id < states[i].store.nextWriter
    ensures SameWriter(states[i].store, states[k].store, id)
    decreases k
  {
    hide Enabled, Next, Init, SameWriter;
    if k == i {
      StaysItself(states[i].store, id);
    } else {
      WriterStays(states, actions, id, i, k - 1);
      WriterCounted(states[i].store, states[k - 1].store, id);
      StepSameWriter(states[k - 1], actions[k - 1], id);
      SameWriterTwice(states[i].store, states[k - 1].store, states[k].store, id);
    }
  }

  lemma StaysItself(t: Store, id: WriterId)
    ensures SameWriter(t, t, id)
  {
  }

  lemma WriterCounted(t: Store, u: Store, id: WriterId)
    requires SameWriter(t, u, id) && id < t.nextWriter
    ensures id < u.nextWriter
  {
  }

  /** A durable merge over the document it was computed from: the callback puts it into the
      document, and it is what the disk holds. */
  lemma DurableMergeLands(s: State, id: WriterId)
    requires Inv(s) && Finished(s.store, id) && s.store.writers[id].outcome.Durable? && s.store.writers[id].kind.Merge?
    requires var w := s.store.writers[id]; AtBase(s.store, w.path, w.session, w.kind.base)
    ensures
      var w, u := s.store.writers[id], Callback(s, id).store;
      && DiskAt(u.disk, w.path) == w.payload
      && (w.session in u.sessions ==> u.sessions[w.session].document.database == w.payload)
  {
    var w, t := s.store.writers[id], s.store;
    assert WriterOk(t, id);
    HolderLook(t, None, id);
    assert LocalOk(Look(t, w.session), w.session, false);
    MergeInstallsOverItsBase(s, id);
    DiskStays(s, id);
    hide Inv, LocalOk, Callback;
  }

  lemma DiskStays(s: State, id: WriterId)
    requires Inv(s) && Finished(s.store, id)
    ensures Callback(s, id).store.disk == s.store.disk
  {
    hide Inv;
    CallbackAfter(s, id);
  }

  /** Over whole runs: what was committed as the merge of a document is, when its save has landed
      and the document is still that one, what document and disk hold. */
  lemma CommittedMergeLands(states: seq<State>, actions: seq<Action>, i: nat, k: nat, j: nat, merged: Database)
    requires IsRun(states, actions) && i < k < |actions|
    requires actions[i] == CommitMergeA(j, merged, true) && j in states[i].store.merges && Committable(states[i], j)
    requires actions[k] == CallbackA(states[i].store.nextWriter)
    requires Finished(states[k].store, states[i].store.nextWriter)
    requires states[k].store.writers[states[i].store.nextWriter].outcome.Durable?
    requires var job := states[i].store.merges[j]; AtBase(states[k].store, job.path, job.session, job.generation)
    ensures
      var job, u := states[i].store.merges[j], states[k + 1].store;
      && DiskAt(u.disk, job.path) == merged
      && (job.session in u.sessions ==> u.sessions[job.session].document.database == merged)
  {
    hide Inv, Init;
    var id := states[i].store.nextWriter;
    RunInv(states, actions, i);
    RunInv(states, actions, k);
    CommitWritesTheMerge(states[i], j, merged);
    assert states[i + 1] == Next(states[i], actions[i]) && Enabled(states[k], actions[k]);
    WriterStays(states, actions, id, i + 1, k);
    DurableMergeLands(states[k], id);
    hide Next, Callback, Enabled, Committable;
    assert states[k + 1] == Next(states[k], actions[k]) == Callback(states[k], id) by { CallbackIsNext(states[k], id); }
  }

  lemma CallbackIsNext(s: State, id: WriterId)
    requires Finished(s.store, id)
    ensures Enabled(s, CallbackA(id)) && Next(s, CallbackA(id)) == Callback(s, id)
  {
  }
}
