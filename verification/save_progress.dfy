/**
 Saves come to an end. Whatever order the background writers and their callbacks
 take their steps in, there is only a number of them known beforehand, and a lock
 that waits for saves is then done, or every save that is left has failed.
 */
module SaveProgress {
  import opened Wrappers
  import opened SaveProtocol
  import opened SaveInvariant
  import opened SaveTheorems

  /** A step of a writer, or its callback. */
  predicate IsSaving(a: Action) {
    a.FailA? || a.ClaimA? || a.PublishA? || a.RenameFailedA? || a.SyncDirectoryA? || a.CallbackA?
  }

  /** How many steps the writer has left, and what the request behind it will need. */
  ghost function StepsLeft(t: Store, w: WriterId): nat
    requires w in t.writers
  {
    var own := if !t.writers[w].outcome.Running? then 1
               else match t.writers[w].phase
                 case Writing => 4
                 case Publishing => 3
                 case Published => 2
                 case Aborted => 2;
    own + if HoldsSlot(t, w) && t.slots[t.writers[w].path].pending.Some? then 5 else 0
  }

  ghost function Share(t: Store, w: WriterId): nat { if w in t.writers then StepsLeft(t, w) else 0 }

  ghost function WorkBelow(t: Store, n: nat): nat {
    if n == 0 then 0 else WorkBelow(t, n - 1) + Share(t, n - 1)
  }

  /** All the steps that are left. */
  ghost function Work(t: Store): nat { WorkBelow(t, t.nextWriter) }

  lemma {:induction false} SameShares(t: Store, u: Store, n: nat)
    requires forall v :: 0 <= v < n ==> Share(u, v) == Share(t, v)
    ensures WorkBelow(u, n) == WorkBelow(t, n)
    decreases n
  {
    if n > 0 {
      SameShares(t, u, n - 1);
    }
  }

  lemma {:induction false} OneShare(t: Store, u: Store, w: WriterId, n: nat)
    requires w < n && forall v :: 0 <= v < n && v != w ==> Share(u, v) == Share(t, v)
    ensures WorkBelow(u, n) + Share(t, w) == WorkBelow(t, n) + Share(u, w)
    decreases n
  {
    if w == n - 1 {
      SameShares(t, u, n - 1);
    } else {
      OneShare(t, u, w, n - 1);
    }
  }

  // ------------------------------------------------------------ a writer's own steps

  lemma WriterStepShares(t: Store, w: WriterId, phase: Phase, outcome: Outcome, v: WriterId)
    requires w in t.writers && v != w
    ensures Share(SetWriter(t, w, phase, outcome), v) == Share(t, v)
    ensures Share(Publish(t, w), v) == Share(t, v)
  {
  }

  lemma WriterStepWorks(s: State, a: Action)
    requires Inv(s) && Enabled(s, a) && IsSaving(a) && !a.CallbackA?
    ensures Work(Next(s, a).store) < Work(s.store)
  {
    var t, u, w := s.store, Next(s, a).store, a.writer;
    assert w < t.nextWriter && u.nextWriter == t.nextWriter;
    forall v | 0 <= v < t.nextWriter && v != w ensures Share(u, v) == Share(t, v) {
      match a
      case FailA(_) => WriterStepShares(t, w, t.writers[w].phase, WriteFailed, v);
      case ClaimA(_) => WriterStepShares(t, w, Publishing, Running, v);
      case PublishA(_) => WriterStepShares(t, w, Publishing, Running, v);
      case RenameFailedA(_) => WriterStepShares(t, w, Publishing, WriteFailed, v);
      case SyncDirectoryA(_, durable) => WriterStepShares(t, w, Published, if durable then Durable else NotDurable, v);
    }
    OwnStepCounts(s, a);
    hide Next, Enabled, Inv, Share;
    OneShare(t, u, w, t.nextWriter);
  }

  lemma OwnStepCounts(s: State, a: Action)
    requires Enabled(s, a) && IsSaving(a) && !a.CallbackA?
    ensures Share(Next(s, a).store, a.writer) < Share(s.store, a.writer)
  {
  }

  // --------------------------------------------------------------- a callback

  /** The writers, the slots and the numbers of `u` are those of `t`. */
  ghost predicate SameWriters(t: Store, u: Store) {
    u.writers == t.writers && u.slots == t.slots && u.nextWriter == t.nextWriter
  }

  /** One more writer has the slot of `path`, with nothing queued behind it. */
  ghost predicate OneMoreWriter(t: Store, u: Store, path: Path) {
    && u.nextWriter == t.nextWriter + 1
    && (exists w: Writer :: w.path == path && w.phase == Writing && w.outcome == Running
          && u.writers == t.writers[t.nextWriter := w])
    && (exists slot: Slot :: slot.pending.None? && slot.writer == t.nextWriter && u.slots == t.slots[path := slot])
  }

  lemma RequestStarts(t: Store, path: Path, sid: SessionId, syncAfter: bool)
    requires path !in t.slots
    ensures var u := RequestSave(t, path, sid, syncAfter); SameWriters(t, u) || OneMoreWriter(t, u, path)
  {
    if RetainedAt(t, path, sid) {
      var u := RequestSave(t, path, sid, syncAfter);
      var w := Writer(path, sid, t.sessions[sid].document.database, Plain(syncAfter), Writing, Running);
      assert u.writers == t.writers[t.nextWriter := w];
      assert u.slots == t.slots[path := Slot(sid, None, false, t.nextWriter)];
    }
  }

  /** Nothing but at most one writer for `path` is new, and that only for a queued request. */
  ghost predicate StartsAtMost(t: Store, u: Store, path: Path, queued: bool) {
    SameWriters(t, u) || (queued && OneMoreWriter(t, u, path))
  }

  lemma StartsAfter(t: Store, settled: Store, u: Store, path: Path, queued: bool)
    requires SameWriters(t, settled) && StartsAtMost(settled, u, path, queued)
    ensures StartsAtMost(t, u, path, queued)
  {
  }

  lemma AfterWriterStarts(s: State, path: Path, sid: SessionId, durable: bool, pending: Option<SessionId>, syncAfter: bool)
    requires path !in s.store.slots
    ensures StartsAtMost(s.store, AfterWriter(s, path, sid, durable, pending, syncAfter).store, path, pending.Some?)
  {
    var settled := if durable && pending != Some(sid) then s.(store := MarkPersisted(s.store, sid, Locked(s))) else s;
    var u := AfterWriter(s, path, sid, durable, pending, syncAfter).store;
    assert SameWriters(s.store, settled.store);
    if pending.Some? {
      RequestStarts(settled.store, path, pending.value, syncAfter);
      hide RequestSave, OneMoreWriter;
      assert u == RequestSave(settled.store, path, pending.value, syncAfter);
      assert StartsAtMost(settled.store, u, path, true);
      StartsAfter(s.store, settled.store, u, path, true);
    } else {
      assert SameWriters(s.store, u);
    }
  }

  /** The tail every callback shares, after a status and perhaps an installed document. */
  lemma ReportStarts(s: State, t: Store, path: Path, sid: SessionId, status: SaveStatus,
                     durable: bool, pending: Option<SessionId>, syncAfter: bool)
    requires SameWriters(s.store, t) && path !in s.store.slots
    ensures
      var u := AfterWriter(s.(store := SetStatus(t, path, sid, status)), path, sid, durable, pending, syncAfter).store;
      StartsAtMost(s.store, u, path, pending.Some?)
  {
    var shown := SetStatus(t, path, sid, status);
    var u := AfterWriter(s.(store := shown), path, sid, durable, pending, syncAfter).store;
    assert SameWriters(s.store, shown);
    hide AfterWriter, OneMoreWriter, SetStatus;
    AfterWriterStarts(s.(store := shown), path, sid, durable, pending, syncAfter);
    StartsAfter(s.store, shown, u, path, pending.Some?);
  }

  lemma MergeDoneStarts(s: State, w: Writer, slot: Slot)
    requires w.kind.Merge? && Released(s, w, slot) && !w.outcome.Running?
    ensures StartsAtMost(s.store, MergeDone(s, w, slot).store, w.path, slot.pending.Some?)
  {
    var t := s.store;
    assert !AtBase(t, w.path, w.session, w.kind.base) ==> slot.pending == Some(w.session);
    hide Released, AfterWriter, RequestSave, OneMoreWriter;
    if w.outcome.WriteFailed? {
      var kept := if slot.pending.None? && Locked(s) && AtBase(t, w.path, w.session, w.kind.base)
                  then Install(t, w.session, w.payload) else t;
      ReportStarts(s, kept, w.path, w.session, Failed, false, slot.pending, true);
    } else if AtBase(t, w.path, w.session, w.kind.base) {
      ReportStarts(s, Install(t, w.session, w.payload), w.path, w.session, StatusAfter(w.outcome),
                   w.outcome.Durable?, slot.pending, true);
    } else {
      RequestStarts(t, w.path, w.session, true);
    }
  }

  /** Once its slot is released, a callback starts at most the save that was queued. */
  lemma DoneStarts(s: State, w: Writer, slot: Slot)
    requires w.path !in s.store.slots && (w.kind.Merge? ==> Released(s, w, slot) && !w.outcome.Running?)
    ensures var u := (if w.kind.Plain? then PlainDone(s, w, slot) else MergeDone(s, w, slot)).store;
      StartsAtMost(s.store, u, w.path, slot.pending.Some?)
  {
    hide AfterWriter, MergeDone, StartsAtMost;
    if w.kind.Plain? {
      ReportStarts(s, s.store, w.path, w.session, StatusAfter(w.outcome), w.outcome.Durable?, slot.pending,
                   slot.syncAfter || w.kind.syncAfter);
    } else {
      MergeDoneStarts(s, w, slot);
    }
  }

  lemma CallbackStarts(s: State, id: WriterId)
    requires Inv(s) && Finished(s.store, id) && HoldsSlot(s.store, id)
    ensures
      var path := s.store.writers[id].path;
      var t, u := Release(s.store, id), Callback(s, id).store;
      StartsAtMost(t, u, path, s.store.slots[path].pending.Some?)
  {
    CallbackReleases(s, id);
    hide Inv, Released, PlainDone, MergeDone, StartsAtMost;
    DoneStarts(s.(store := Release(s.store, id)), s.store.writers[id], s.store.slots[s.store.writers[id].path]);
  }

  /** Releasing takes the writer's own share away and touches no other. */
  lemma ReleaseShares(t: Store, id: WriterId, v: WriterId)
    requires id in t.writers && HoldsSlot(t, id) && v != id
    ensures Share(Release(t, id), v) == Share(t, v) && Share(Release(t, id), id) == 0
  {
  }

  lemma SameWritersShares(t: Store, u: Store, v: WriterId)
    requires SameWriters(t, u)
    ensures Share(u, v) == Share(t, v)
  {
  }

  lemma OneMoreShares(t: Store, u: Store, path: Path, v: WriterId)
    requires OneMoreWriter(t, u, path) && path !in t.slots && forall w <- t.writers :: w < t.nextWriter
    ensures v < t.nextWriter ==> Share(u, v) == Share(t, v)
    ensures Share(u, t.nextWriter) == 4
  {
  }

  lemma ReleaseWorks(t: Store, id: WriterId)
    requires id in t.writers && id < t.nextWriter && HoldsSlot(t, id)
    ensures Work(Release(t, id)) + Share(t, id) == Work(t)
  {
    forall v | 0 <= v < t.nextWriter && v != id ensures Share(Release(t, id), v) == Share(t, v) {
      ReleaseShares(t, id, v);
    }
    assert Share(Release(t, id), id) == 0;
    hide Share;
    OneShare(t, Release(t, id), id, t.nextWriter);
  }

  lemma StartWorks(t: Store, u: Store, path: Path)
    requires path !in t.slots && forall w <- t.writers :: w < t.nextWriter
    ensures SameWriters(t, u) ==> Work(u) == Work(t)
    ensures OneMoreWriter(t, u, path) ==> Work(u) == Work(t) + 4
  {
    if SameWriters(t, u) {
      forall v | 0 <= v < t.nextWriter ensures Share(u, v) == Share(t, v) {
        SameWritersShares(t, u, v);
      }
      SameShares(t, u, t.nextWriter);
    }
    if OneMoreWriter(t, u, path) {
      forall v | 0 <= v < t.nextWriter ensures Share(u, v) == Share(t, v) {
        OneMoreShares(t, u, path, v);
      }
      OneMoreShares(t, u, path, t.nextWriter);
      SameShares(t, u, t.nextWriter);
    }
  }

  lemma HolderCallbackWorks(s: State, id: WriterId)
    requires Inv(s) && Finished(s.store, id) && HoldsSlot(s.store, id)
    ensures Work(Callback(s, id).store) < Work(s.store)
  {
    var t, path := s.store, s.store.writers[id].path;
    assert id < t.nextWriter && forall w <- Release(t, id).writers :: w < t.nextWriter;
    assert Share(t, id) == if t.slots[path].pending.Some? then 6 else 1;
    CallbackStarts(s, id);
    hide Inv, Callback, OneMoreWriter, SameWriters, Share, Work;
    ReleaseWorks(t, id);
    StartWorks(Release(t, id), Callback(s, id).store, path);
  }

  lemma DroppedShare(t: Store, id: WriterId)
    requires id in t.writers
    ensures Share(t, id) > 0 && Share(t.(writers := t.writers - {id}), id) == 0
  {
  }

  lemma DroppedElsewhere(t: Store, id: WriterId, v: WriterId)
    requires v != id
    ensures Share(t.(writers := t.writers - {id}), v) == Share(t, v)
  {
  }

  lemma OrphanCallbackWorks(s: State, id: WriterId)
    requires Inv(s) && Finished(s.store, id) && !HoldsSlot(s.store, id)
    ensures Work(Callback(s, id).store) < Work(s.store)
  {
    var t := s.store;
    OrphanCallback(s, id);
    var u := t.(writers := t.writers - {id});
    assert id < t.nextWriter;
    hide Inv, Callback, Share;
    DroppedShare(t, id);
    forall v | 0 <= v < t.nextWriter && v != id ensures Share(u, v) == Share(t, v) {
      DroppedElsewhere(t, id, v);
    }
    OneShare(t, u, id, t.nextWriter);
  }

  /** Every step of a writer and every callback leaves less to do, also where the
      callback starts the save that was queued. */
  lemma SavingWorks(s: State, a: Action)
    requires Inv(s) && Enabled(s, a) && IsSaving(a)
    ensures Work(Next(s, a).store) < Work(s.store)
  {
    if a.CallbackA? {
      hide Inv, Work, Callback;
      if HoldsSlot(s.store, a.writer) {
        HolderCallbackWorks(s, a.writer);
      } else {
        OrphanCallbackWorks(s, a.writer);
      }
    } else {
      WriterStepWorks(s, a);
    }
  }

  // ------------------------------------------------------------ the waiting lock

  /** The lock still waits, or it is done and nothing is left in memory. */
  ghost predicate LockedOrDone(s: State) {
    Locked(s) || (s.screen.Welcome? && s.store.sessions == map[] && s.store.unpersisted == {})
  }

  lemma StaysLockedOrDone(s: State, a: Action)
    requires Inv(s) && Enabled(s, a) && IsSaving(a) && LockedOrDone(s)
    ensures LockedOrDone(Next(s, a))
  {
    if a.CallbackA? {
      CallbackScreen(s, a.writer);
      if !Locked(s) {
        NothingToCallBack(s, a.writer);
      }
    }
  }

  /** With no session left, a callback only drops its writer. */
  lemma NothingToCallBack(s: State, id: WriterId)
    requires Inv(s) && Finished(s.store, id) && s.store.sessions == map[]
    ensures Callback(s, id) == s.(store := s.store.(writers := s.store.writers - {id}))
  {
    if HoldsSlot(s.store, id) {
      HolderLook(s.store, None, id);
    }
    OrphanCallback(s, id);
  }

  lemma NothingMovesNothingLeft(s: State)
    requires Inv(s) && forall a :: IsSaving(a) ==> !Enabled(s, a)
    ensures s.store.writers == map[] && s.store.slots == map[]
  {
    if w :| w in s.store.writers {
      EveryWriterCanMove(s, w);
      assert IsSaving(CallbackA(w)) && IsSaving(FailA(w)) && IsSaving(PublishA(w)) && IsSaving(SyncDirectoryA(w, true));
      assert false;
    }
    if p :| p in s.store.slots {
      SlotHasWriter(s.store, p);
    }
  }

  /** How a waiting lock can end. */
  ghost predicate Settled(s: State) {
    || (s.screen.Welcome? && s.store.sessions == map[] && s.store.unpersisted == {})
    || (Locked(s) && DiscardSucceeds(s, false) && forall sid <- s.store.sessions :: s.store.sessions[sid].status.Failed?)
  }

  lemma NothingMovesSettled(s: State)
    requires Inv(s) && LockedOrDone(s) && forall a :: IsSaving(a) ==> !Enabled(s, a)
    ensures Settled(s)
  {
    NothingMovesNothingLeft(s);
    if Locked(s) {
      WaitingLockNeverWedges(s);
    }
  }

  /** A waiting lock is through after a bounded number of steps of the writers and their
      callbacks, in whatever order: then everything is locked, or every save that is left
      has failed and a discard would succeed. */
  lemma {:induction false} WaitingLockDrains(states: seq<State>, actions: seq<Action>)
    requires |states| == |actions| + 1 && Inv(states[0]) && LockedOrDone(states[0])
    requires forall i :: 0 <= i < |actions| ==>
      IsSaving(actions[i]) && Enabled(states[i], actions[i]) && states[i + 1] == Next(states[i], actions[i])
    ensures |actions| <= Work(states[0].store)
    ensures (forall a :: IsSaving(a) ==> !Enabled(states[|actions|], a)) ==> Settled(states[|actions|])
    decreases |actions|
  {
    hide Inv, Enabled, Next, Work, LockedOrDone, Settled, IsSaving;
    if |actions| == 0 {
      if forall a :: IsSaving(a) ==> !Enabled(states[0], a) {
        NothingMovesSettled(states[0]);
      }
    } else {
      NextInv(states[0], actions[0]);
      StaysLockedOrDone(states[0], actions[0]);
      SavingWorks(states[0], actions[0]);
      WaitingLockDrains(states[1..], actions[1..]);
      assert states[1..][|actions| - 1] == states[|actions|];
    }
  }
}
