/**
 What the save protocol promises over whole runs: no accepted edit is lost, a
 discarded save never reaches the disk, snapshots arrive in order, a waiting
 lock gives nothing away and cannot wedge, and a merge never replaces an edit
 newer than its base.
 */
module SaveTheorems {
  import opened Wrappers
  import opened SaveProtocol
  import opened SaveInvariant

  // ------------------------------------------------ what a step does to history

  /** `u` comes after `t`: accounts only grow, a session that is gone stays
      gone, and a retained document only gains edits. */
  ghost predicate Later(t: Store, u: Store) {
    && t.nextSession <= u.nextSession
    && (forall sid <- t.accounts ::
          && sid in u.accounts && u.accounts[sid].path == t.accounts[sid].path
          && t.accounts[sid].edits <= u.accounts[sid].edits)
    && (forall sid <- u.sessions :: sid < t.nextSession ==> sid in t.sessions && Follows(t.sessions[sid], u.sessions[sid]))
  }

  ghost predicate Follows(was: Session, now: Session) {
    && now.path == was.path
    && was.document.generation <= now.document.generation
    && Carries(now.document.database, was.document.database)
  }

  /** Later, with nothing written off and nothing published. */
  ghost predicate After(t: Store, u: Store) {
    && Later(t, u)
    && (forall sid <- t.accounts :: sid in u.accounts && u.accounts[sid].discarded == t.accounts[sid].discarded)
    && u.disk == t.disk && u.lastPublisher == t.lastPublisher
  }

  lemma AfterTransitive(t: Store, u: Store, v: Store)
    requires After(t, u) && After(u, v)
    ensures After(t, v)
  {
  }

  /** Some sessions may have gone; those that stay keep path and document. */
  ghost predicate SameDocuments(t: Store, u: Store) {
    && u.nextSession == t.nextSession && u.accounts == t.accounts
    && u.disk == t.disk && u.lastPublisher == t.lastPublisher
    && (forall sid <- u.sessions ::
          sid in t.sessions && u.sessions[sid].path == t.sessions[sid].path
          && u.sessions[sid].document == t.sessions[sid].document)
  }

  lemma SameDocumentsAfter(t: Store, u: Store)
    requires SameDocuments(t, u)
    ensures After(t, u)
  {
  }

  lemma AnnounceSame(t: Store, sid: SessionId)
    requires sid in t.sessions
    ensures SameDocuments(t, AnnounceSave(t, sid))
  {
  }

  /** Whether it starts a writer or queues behind one, a request announces itself. */
  lemma RequestSaveAnnounces(t: Store, path: Path, sid: SessionId, syncAfter: bool)
    ensures var u := RequestSave(t, path, sid, syncAfter);
      if RetainedAt(t, path, sid)
      then u.sessions == AnnounceSave(t, sid).sessions && u.unpersisted == AnnounceSave(t, sid).unpersisted
           && u.nextSession == t.nextSession && u.accounts == t.accounts && u.disk == t.disk
           && u.lastPublisher == t.lastPublisher
      else u == t
  {
  }

  lemma RequestSaveSame(t: Store, path: Path, sid: SessionId, syncAfter: bool)
    ensures SameDocuments(t, RequestSave(t, path, sid, syncAfter))
  {
    RequestSaveAnnounces(t, path, sid, syncAfter);
    hide RequestSave;
    if RetainedAt(t, path, sid) {
      AnnounceSame(t, sid);
    }
  }

  lemma {:induction false} RetryAllSame(t: Store, order: seq<SessionId>)
    ensures SameDocuments(t, RetryAll(t, order))
    ensures RetryAll(t, order).sessions.Keys == t.sessions.Keys
    decreases |order|
  {
    if order != [] {
      if order[0] in t.sessions {
        var u := RequestSave(t, t.sessions[order[0]].path, order[0], false);
        RequestSaveSame(t, t.sessions[order[0]].path, order[0], false);
        RequestSaveKeys(t, t.sessions[order[0]].path, order[0], false);
        RetryAllSame(u, order[1..]);
      } else {
        RetryAllSame(t, order[1..]);
      }
    }
  }

  lemma RequestSaveKeys(t: Store, path: Path, sid: SessionId, syncAfter: bool)
    ensures RequestSave(t, path, sid, syncAfter).sessions.Keys == t.sessions.Keys
  {
    RequestSaveAnnounces(t, path, sid, syncAfter);
    hide RequestSave;
  }

  lemma FinishLockSame(s: State)
    ensures SameDocuments(s.store, FinishLock(s).store)
  {
  }

  lemma AfterWriterSame(s: State, path: Path, sid: SessionId, durable: bool, pending: Option<SessionId>, syncAfter: bool)
    ensures SameDocuments(s.store, AfterWriter(s, path, sid, durable, pending, syncAfter).store)
  {
    var settled := if durable && pending != Some(sid) then s.(store := MarkPersisted(s.store, sid, Locked(s))) else s;
    assert SameDocuments(s.store, settled.store);
    if pending.Some? {
      RequestSaveSame(settled.store, path, pending.value, syncAfter);
    } else {
      FinishLockSame(settled);
    }
  }

  lemma SetStatusSame(t: Store, path: Path, sid: SessionId, status: SaveStatus)
    ensures SameDocuments(t, SetStatus(t, path, sid, status))
  {
  }

  lemma InstallAfter(t: Store, sid: SessionId, d: Database)
    requires sid in t.sessions && Carries(d, t.sessions[sid].document.database)
    ensures After(t, Install(t, sid, d))
  {
  }

  /** The tail every callback shares: a status, then the queued request or the lock. */
  lemma ReportAfter(s: State, t: Store, path: Path, sid: SessionId, status: SaveStatus,
                    durable: bool, pending: Option<SessionId>, syncAfter: bool)
    requires After(s.store, t)
    ensures After(s.store, AfterWriter(s.(store := SetStatus(t, path, sid, status)), path, sid, durable, pending, syncAfter).store)
  {
    var u := SetStatus(t, path, sid, status);
    SetStatusSame(t, path, sid, status);
    SameDocumentsAfter(t, u);
    AfterTransitive(s.store, t, u);
    AfterWriterSame(s.(store := u), path, sid, durable, pending, syncAfter);
    SameDocumentsAfter(u, AfterWriter(s.(store := u), path, sid, durable, pending, syncAfter).store);
    AfterTransitive(s.store, u, AfterWriter(s.(store := u), path, sid, durable, pending, syncAfter).store);
  }

  lemma MergeDoneAfter(s: State, w: Writer, slot: Slot)
    requires w.kind.Merge? && Released(s, w, slot) && !w.outcome.Running?
    ensures After(s.store, MergeDone(s, w, slot).store)
  {
    var t := s.store;
    SameDocumentsAfter(t, t);
    if AtBase(t, w.path, w.session, w.kind.base) {
      InstallAfter(t, w.session, w.payload);
    }
    if w.outcome.WriteFailed? {
      var kept := if slot.pending.None? && Locked(s) && AtBase(t, w.path, w.session, w.kind.base)
                  then Install(t, w.session, w.payload) else t;
      ReportAfter(s, kept, w.path, w.session, Failed, false, slot.pending, true);
    } else if !AtBase(t, w.path, w.session, w.kind.base) {
      RequestSaveSame(t, w.path, w.session, true);
      SameDocumentsAfter(t, RequestSave(t, w.path, w.session, true));
    } else {
      ReportAfter(s, Install(t, w.session, w.payload), w.path, w.session, StatusAfter(w.outcome),
                  w.outcome.Durable?, slot.pending, true);
    }
  }

  lemma PlainDoneAfter(s: State, w: Writer, slot: Slot)
    requires w.kind.Plain?
    ensures After(s.store, PlainDone(s, w, slot).store)
  {
    SameDocumentsAfter(s.store, s.store);
    hide After;
    ReportAfter(s, s.store, w.path, w.session, StatusAfter(w.outcome),
                w.outcome.Durable?, slot.pending, slot.syncAfter || w.kind.syncAfter);
  }

  /** Releasing a slot and dropping its writer changes no document. */
  lemma ReleaseAfter(t: Store, id: WriterId, u: Store)
    requires id in t.writers && After(Release(t, id), u)
    ensures After(t, u)
  {
    SameDocumentsAfter(t, Release(t, id));
    hide After;
    AfterTransitive(t, Release(t, id), u);
  }

  lemma HolderCallbackAfter(s: State, id: WriterId)
    requires Inv(s) && Finished(s.store, id) && HoldsSlot(s.store, id)
    ensures After(s.store, Callback(s, id).store)
  {
    hide Inv, After, Released, PlainDone, MergeDone;
    var t, w := s.store, s.store.writers[id];
    CallbackReleases(s, id);
    var released := s.(store := Release(t, id));
    if w.kind.Plain? {
      PlainDoneAfter(released, w, t.slots[w.path]);
    } else {
      MergeDoneAfter(released, w, t.slots[w.path]);
    }
    ReleaseAfter(t, id, Callback(s, id).store);
  }

  lemma CallbackAfter(s: State, id: WriterId)
    requires Inv(s) && Finished(s.store, id)
    ensures After(s.store, Callback(s, id).store)
  {
    if HoldsSlot(s.store, id) {
      HolderCallbackAfter(s, id);
    } else {
      OrphanCallback(s, id);
      SameDocumentsAfter(s.store, Callback(s, id).store);
    }
  }

  lemma ApplyEditAfter(t: Store, sid: SessionId, e: Edit)
    requires sid in t.sessions && sid in t.accounts
    ensures After(t, ApplyEdit(t, sid, e))
    ensures ApplyEdit(t, sid, e).accounts[sid] == t.accounts[sid].(edits := t.accounts[sid].edits + {e})
  {
  }

  lemma EditAfter(s: State, e: Edit, syncAfter: bool)
    requires s.screen.Open? ==> s.screen.session in s.store.sessions && s.screen.session in s.store.accounts
    ensures After(s.store, EditOpen(s, e, syncAfter).store)
    ensures s.screen.Open? ==>
      var sid := s.screen.session;
      EditOpen(s, e, syncAfter).store.accounts[sid] == s.store.accounts[sid].(edits := s.store.accounts[sid].edits + {e})
  {
    if s.screen.Open? {
      var sid := s.screen.session;
      var u := ApplyEdit(s.store, sid, e);
      var v := RequestSave(u, s.store.sessions[sid].path, sid, syncAfter);
      ApplyEditAfter(s.store, sid, e);
      RequestSaveSame(u, s.store.sessions[sid].path, sid, syncAfter);
      SameDocumentsAfter(u, v);
      AfterTransitive(s.store, u, v);
    } else {
      SameDocumentsAfter(s.store, s.store);
    }
  }

  lemma SaveAfter(s: State, syncAfter: bool, order: seq<SessionId>)
    ensures After(s.store, SaveAsync(s, syncAfter, order).store)
  {
    RetryAllSame(s.store, order);
    if s.screen.Open? && s.screen.session in s.store.sessions {
      RequestSaveSame(s.store, s.store.sessions[s.screen.session].path, s.screen.session, syncAfter);
    }
    SameDocumentsAfter(s.store, SaveAsync(s, syncAfter, order).store);
  }

  lemma RequestLockSame(s: State)
    ensures SameDocuments(s.store, RequestLock(s).store)
  {
  }

  lemma LockAfter(s: State, order: seq<SessionId>)
    ensures After(s.store, LockVault(s, order).store)
  {
    RequestLockSame(s);
    RetryAllSame(RequestLock(s).store, order);
    SameDocumentsAfter(s.store, LockVault(s, order).store);
  }

  lemma OpenAfter(s: State, id: nat, decrypted: bool)
    requires ShapeOk(s.store) && id in s.opens
    ensures After(s.store, FinishOpen(s, id, decrypted).store)
  {
    SameDocumentsAfter(s.store, s.store);
    assert s.store.nextSession !in s.store.accounts;
  }

  lemma CommitAfter(s: State, path: Path, sid: SessionId, merged: Database, base: nat, bound: bool)
    ensures After(s.store, CommitMerged(s, path, sid, merged, base, bound).store)
  {
    RequestSaveSame(s.store, path, sid, true);
    SameDocumentsAfter(s.store, CommitMerged(s, path, sid, merged, base, bound).store);
  }

  /** A discard that is refused only aborts writers. */
  lemma RefusedDiscardSame(s: State, stuck: bool)
    requires !DiscardSucceeds(s, stuck)
    ensures SameDocuments(s.store, Discard(s, stuck).store)
  {
  }

  ghost predicate Discards(s: State, a: Action) {
    a.DiscardA? && DiscardSucceeds(s, a.stuck)
  }

  /** Moving between vaults touches no document at all. */
  lemma NavigationStore(s: State, path: Path)
    ensures SwitchTo(s, path).store == s.store && RequestPassword(s, path).store == s.store
    ensures SubmitPassword(s, path).store == s.store && Rehydrate(s).store == s.store
    ensures FailSelection(s).store == s.store
  {
  }

  lemma QuietSame(s: State, a: Action)
    requires Enabled(s, a)
    requires a.StartMergeA? || a.ReadVaultA? || a.DropMergeA? || a.FailA? || a.ClaimA? || a.RenameFailedA? || a.SyncDirectoryA?
    ensures SameDocuments(s.store, Next(s, a).store)
  {
    assert Next(s, a).store.sessions == s.store.sessions;
    hide Enabled;
  }

  /** No step but a publication changes the disk, none takes anything out of a
      document it keeps, and only a successful discard writes an account off. */
  lemma StepAfter(s: State, a: Action)
    requires Inv(s) && Enabled(s, a) && !Discards(s, a) && !a.PublishA?
    ensures After(s.store, Next(s, a).store)
  {
    match a
    case SwitchToA(path) => NavigationStore(s, path); SameDocumentsAfter(s.store, s.store);
    case RequestPasswordA(path) => NavigationStore(s, path); SameDocumentsAfter(s.store, s.store);
    case RehydrateA => NavigationStore(s, ""); SameDocumentsAfter(s.store, s.store);
    case SubmitPasswordA(path) => NavigationStore(s, path); SameDocumentsAfter(s.store, s.store);
    case FailSelectionA => NavigationStore(s, ""); SameDocumentsAfter(s.store, s.store);
    case FinishOpenA(t, decrypted) => OpenAfter(s, t, decrypted);
    case EditA(e, syncAfter) => EditAfter(s, e, syncAfter);
    case SaveA(syncAfter, order) => SaveAfter(s, syncAfter, order);
    case LockA(order) => LockAfter(s, order);
    case DiscardA(stuck) => RefusedDiscardSame(s, stuck); SameDocumentsAfter(s.store, Next(s, a).store);
    case CommitMergeA(j, merged, bound) =>
      var job := s.store.merges[j];
      CommitAfter(s, job.path, job.session, merged, job.generation, bound);
    case CallbackA(w) => CallbackAfter(s, w);
    case PublishA(_) =>
    case _ => QuietSame(s, a); SameDocumentsAfter(s.store, Next(s, a).store);
  }

  lemma WriteOffLater(s: State, stuck: bool)
    requires DiscardSucceeds(s, stuck)
    ensures Later(s.store, Discard(s, stuck).store) && Discard(s, stuck).store.sessions == map[]
    ensures forall sid <- s.store.accounts :: sid !in s.store.sessions ==>
              Discard(s, stuck).store.accounts[sid].discarded == s.store.accounts[sid].discarded
  {
  }

  lemma StepLater(s: State, a: Action)
    requires Inv(s) && Enabled(s, a)
    ensures Later(s.store, Next(s, a).store)
  {
    if Discards(s, a) {
      WriteOffLater(s, a.stuck);
    } else if !a.PublishA? {
      StepAfter(s, a);
    }
  }

  // ------------------------------------------------------ no accepted edit is lost

  /** The edit is kept: in the session's document while the session is
      retained, and on disk once it is gone. */
  ghost predicate Kept(t: Store, path: Path, sid: SessionId, e: Edit) {
    if sid in t.sessions
    then t.sessions[sid].path == path && e in t.sessions[sid].document.database
    else e in DiskAt(t.disk, path)
  }

  ghost predicate Accepted(t: Store, path: Path, sid: SessionId, e: Edit) {
    sid in t.accounts && t.accounts[sid].path == path && e in t.accounts[sid].edits
  }

  lemma AcceptedIsKept(s: State, path: Path, sid: SessionId, e: Edit)
    requires Inv(s) && Accepted(s.store, path, sid, e) && !s.store.accounts[sid].discarded
    ensures Kept(s.store, path, sid, e)
  {
  }

  ghost predicate DiscardedBetween(states: seq<State>, actions: seq<Action>, sid: SessionId, i: nat, j: nat)
    requires |states| == |actions| + 1 && j <= |actions|
  {
    exists k :: i <= k < j && Discards(states[k], actions[k]) && sid in states[k].store.sessions
  }

  lemma StepAccount(s: State, a: Action, path: Path, sid: SessionId, e: Edit)
    requires Inv(s) && Enabled(s, a) && Accepted(s.store, path, sid, e)
    ensures Accepted(Next(s, a).store, path, sid, e)
    ensures !s.store.accounts[sid].discarded && Next(s, a).store.accounts[sid].discarded ==>
              Discards(s, a) && sid in s.store.sessions
  {
    if Discards(s, a) {
      WriteOffLater(s, a.stuck);
    } else if !a.PublishA? {
      StepAfter(s, a);
    }
  }

  lemma {:induction false} AccountSurvives(states: seq<State>, actions: seq<Action>, path: Path, sid: SessionId, e: Edit, i: nat, j: nat)
    requires IsRun(states, actions) && i <= j < |states|
    requires Accepted(states[i].store, path, sid, e) && !states[i].store.accounts[sid].discarded
    ensures Accepted(states[j].store, path, sid, e)
    ensures states[j].store.accounts[sid].discarded ==> DiscardedBetween(states, actions, sid, i, j)
  {
    if i < j {
      AccountSurvives(states, actions, path, sid, e, i, j - 1);
      RunInv(states, actions, j - 1);
      StepAccount(states[j - 1], actions[j - 1], path, sid, e);
      if states[j - 1].store.accounts[sid].discarded {
        var k :| i <= k < j - 1 && Discards(states[k], actions[k]) && sid in states[k].store.sessions;
      }
    }
  }

  /** Over any run: an edit made in an open vault is, at every later moment, in
      that session's document or, once the session is gone, in what the disk
      holds at its path, unless a discard succeeded while it was retained. */
  lemma NoAcceptedEditLost(states: seq<State>, actions: seq<Action>, i: nat, j: nat)
    requires IsRun(states, actions) && i < j < |states|
    requires actions[i].EditA? && states[i].screen.Open?
    ensures
      var sid := states[i].screen.session;
      sid in states[i].store.sessions &&
      var path := states[i].store.sessions[sid].path;
      Kept(states[j].store, path, sid, actions[i].edit) || DiscardedBetween(states, actions, sid, i + 1, j)
  {
    hide Init, LocalsOk, SettledOk, MergesOk, OrderOk, OpensOk;
    RunInv(states, actions, i);
    var sid := states[i].screen.session;
    var path := states[i].store.sessions[sid].path;
    EditAfter(states[i], actions[i].edit, actions[i].syncAfter);
    AccountSurvives(states, actions, path, sid, actions[i].edit, i + 1, j);
    RunInv(states, actions, j);
    if !states[j].store.accounts[sid].discarded {
      AcceptedIsKept(states[j], path, sid, actions[i].edit);
    }
  }

  // --------------------------------------------------------- discard and publish

  lemma {:induction false} GoneStaysGone(states: seq<State>, actions: seq<Action>, sid: SessionId, i: nat, j: nat)
    requires IsRun(states, actions) && i <= j < |states|
    requires sid < states[i].store.nextSession && sid !in states[i].store.sessions
    ensures sid < states[j].store.nextSession && sid !in states[j].store.sessions
  {
    if i < j {
      GoneStaysGone(states, actions, sid, i, j - 1);
      RunInv(states, actions, j - 1);
      StepLater(states[j - 1], actions[j - 1]);
    }
  }

  /** A writer that publishes holds its path's slot, for a session still
      retained, and is newer than whatever published there before. */
  lemma PublisherHoldsSlot(t: Store, w: WriterId)
    requires ShapeOk(t) && LocalsOk(t, None) && InPhase(t, w, {Publishing})
    ensures HoldsSlot(t, w) && RetainedAt(t, t.writers[w].path, t.writers[w].session)
    ensures t.writers[w].path in t.lastPublisher ==> t.lastPublisher[t.writers[w].path] < w
  {
  }

  lemma RunPublisher(states: seq<State>, actions: seq<Action>, j: nat)
    requires IsRun(states, actions) && j < |actions| && actions[j].PublishA?
    ensures var t, w := states[j].store, actions[j].writer; w in t.writers && t.writers[w].session in t.sessions
  {
    RunInv(states, actions, j);
    PublisherHoldsSlot(states[j].store, actions[j].writer);
  }

  lemma {:induction false} DiscardedStaysGone(states: seq<State>, actions: seq<Action>, sid: SessionId, i: nat, j: nat)
    requires IsRun(states, actions) && i < j < |states|
    requires Discards(states[i], actions[i]) && sid in states[i].store.sessions
    ensures sid !in states[j].store.sessions
  {
    hide Inv, Init, Enabled;
    RunInv(states, actions, i);
    DiscardedIsGone(states[i], actions[i].stuck, sid);
    GoneStaysGone(states, actions, sid, i + 1, j);
  }

  /** Once a discard has succeeded, no later publication, at any path and
      through any slot, belongs to a session that was discarded. */
  lemma DiscardedNeverPublishes(states: seq<State>, actions: seq<Action>, i: nat, j: nat)
    requires IsRun(states, actions) && i < j < |actions|
    requires Discards(states[i], actions[i]) && actions[j].PublishA?
    ensures actions[j].writer in states[j].store.writers
    ensures states[j].store.writers[actions[j].writer].session !in states[i].store.sessions
  {
    RunPublisher(states, actions, j);
    var sid := states[j].store.writers[actions[j].writer].session;
    if sid in states[i].store.sessions {
      DiscardedStaysGone(states, actions, sid, i, j);
    }
  }

  lemma DiscardedIsGone(s: State, stuck: bool, sid: SessionId)
    requires Inv(s) && DiscardSucceeds(s, stuck) && sid in s.store.sessions
    ensures sid < Discard(s, stuck).store.nextSession && sid !in Discard(s, stuck).store.sessions
  {
  }

  /** A discard that is refused gives nothing up; one that succeeds leaves no
      document behind and no writer that could still publish. */
  lemma DiscardIsAllOrNothing(s: State, stuck: bool)
    requires Inv(s)
    ensures var t := Discard(s, stuck).store;
      if DiscardSucceeds(s, stuck)
      then t.sessions == map[] && t.unpersisted == {} && t.slots == map[]
           && forall w <- t.writers :: t.writers[w].phase.Aborted?
      else t.sessions == s.store.sessions && t.unpersisted == s.store.unpersisted && t.slots == s.store.slots
           && t.disk == s.store.disk && Locked(Discard(s, stuck)) == Locked(s)
  {
    if DiscardSucceeds(s, stuck) {
      forall w <- s.store.writers ensures AbortSlots(s.store).writers[w].phase.Aborted? {
        WriteOffWriters(s.store, w);
      }
    }
  }

  // ------------------------------------------------- writers, one path at a time

  /** At most one writer that is not aborted exists for a path. */
  lemma OneLiveWriter(s: State, v: WriterId, w: WriterId)
    requires Inv(s) && v in s.store.writers && w in s.store.writers
    requires s.store.writers[v].path == s.store.writers[w].path
    requires !s.store.writers[v].phase.Aborted? && !s.store.writers[w].phase.Aborted?
    ensures v == w
  {
    assert WriterOk(s.store, v) && WriterOk(s.store, w);
  }

  lemma StepPublishes(s: State, a: Action, path: Path)
    requires Inv(s) && Enabled(s, a) && path in s.store.lastPublisher
    ensures path in Next(s, a).store.lastPublisher
    ensures s.store.lastPublisher[path] <= Next(s, a).store.lastPublisher[path]
  {
    if a.PublishA? {
      PublisherHoldsSlot(s.store, a.writer);
    } else {
      OnlyPublishingPublishes(s, a);
    }
  }

  lemma OnlyPublishingPublishes(s: State, a: Action)
    requires Inv(s) && Enabled(s, a) && !a.PublishA?
    ensures Next(s, a).store.lastPublisher == s.store.lastPublisher
  {
    if !Discards(s, a) {
      hide Inv, Enabled, Next;
      StepAfter(s, a);
    }
  }

  lemma {:induction false} LastPublisherGrows(states: seq<State>, actions: seq<Action>, path: Path, i: nat, j: nat)
    requires IsRun(states, actions) && i <= j < |states|
    requires path in states[i].store.lastPublisher
    ensures path in states[j].store.lastPublisher
    ensures states[i].store.lastPublisher[path] <= states[j].store.lastPublisher[path]
  {
    if i < j {
      LastPublisherGrows(states, actions, path, i, j - 1);
      RunInv(states, actions, j - 1);
      StepPublishes(states[j - 1], actions[j - 1], path);
    }
  }

  /** Snapshots reach a path in the order they were taken: writers are numbered
      as their snapshots are taken, and the numbers a path sees only increase. */
  lemma PublicationsInOrder(states: seq<State>, actions: seq<Action>, i: nat, j: nat)
    requires IsRun(states, actions) && i < j < |actions|
    requires actions[i].PublishA? && actions[j].PublishA?
    requires actions[i].writer in states[i].store.writers && actions[j].writer in states[j].store.writers
    requires states[i].store.writers[actions[i].writer].path == states[j].store.writers[actions[j].writer].path
    ensures actions[i].writer < actions[j].writer
  {
    var path := states[i].store.writers[actions[i].writer].path;
    RunInv(states, actions, j);
    LastPublisherGrows(states, actions, path, i + 1, j);
    PublisherHoldsSlot(states[j].store, actions[j].writer);
  }

  /** The marks tell the truth: what is not marked unpersisted is on disk as it is in
      memory; a writer with nothing queued behind it is writing exactly the document,
      or merging into exactly that generation; and a dirty session that nobody writes
      shows a failed save. */
  lemma MarksTellTheTruth(states: seq<State>, actions: seq<Action>, i: nat, sid: SessionId)
    requires IsRun(states, actions) && i < |states| && sid in states[i].store.sessions
    ensures
      var t := states[i].store;
      var path, document := t.sessions[sid].path, t.sessions[sid].document;
      && (sid !in t.unpersisted ==> path !in t.slots && DiskAt(t.disk, path) == document.database)
      && (path in t.slots ==>
            && t.slots[path].owner == sid && t.slots[path].writer in t.writers
            && (t.slots[path].pending.None? ==>
                  match t.writers[t.slots[path].writer].kind
                  case Plain(_) => t.writers[t.slots[path].writer].payload == document.database
                  case Merge(base) => document.generation == base))
      && (sid in t.unpersisted && path !in t.slots ==> t.sessions[sid].status.Failed?)
  {
    RunInv(states, actions, i);
    assert LocalOk(Look(states[i].store, sid), sid, false);
  }

  // ------------------------------------------------------------- the waiting lock

  /** The waiting screen is shown exactly while a lock was asked for and is not done. */
  lemma WaitsIffLockRequested(states: seq<State>, actions: seq<Action>, i: nat)
    requires IsRun(states, actions) && i < |states|
    ensures Locked(states[i]) <==> states[i].lockRequested
    ensures Locked(states[i]) ==> HasSaveWork(states[i].store)
  {
    RunInv(states, actions, i);
  }

  /** While a lock waits, no user-facing lookup finds anything, and what is
      retained is exactly what is not yet saved. */
  lemma WaitingLockHidesAll(states: seq<State>, actions: seq<Action>, i: nat)
    requires IsRun(states, actions) && i < |states| && states[i].lockRequested
    ensures forall path, sid :: !Current(states[i], path, sid)
    ensures states[i].store.sessions.Keys == states[i].store.unpersisted != {}
  {
    RunInv(states, actions, i);
  }

  /** Asking for a lock either locks at once, leaving nothing, or leaves only
      quarantined documents that some save still has to land. */
  lemma LockIsImmediateOrWaits(s: State, order: seq<SessionId>)
    requires Inv(s) && Enabled(s, LockA(order))
    ensures var t := LockVault(s, order);
      if s.store.unpersisted == {} then t.screen.Welcome? && t.store.sessions == map[]
      else Locked(t) && t.store.sessions.Keys == s.store.unpersisted
  {
    OwnersUnpersisted(s.store, None);
    if HasSaveWork(s.store) {
      QuarantinedIsRestricted(s.store);
      RetryAllSame(RequestLock(s).store, order);
    }
  }

  /** The lock completes in the very callback that makes the last dirty session
      durable, and never before. */
  lemma LockCompletesWithLastSave(s: State, id: WriterId)
    requires Inv(s) && Locked(s) && Finished(s.store, id)
    ensures var t := Callback(s, id);
      && (t.store.unpersisted == {} <==> !Locked(t))
      && (!Locked(t) ==> t.screen.Welcome? && t.store.sessions == map[])
  {
    CallbackInv(s, id);
    CallbackScreen(s, id);
  }

  lemma AfterWriterScreen(s: State, path: Path, sid: SessionId, durable: bool, pending: Option<SessionId>, syncAfter: bool)
    ensures var t := AfterWriter(s, path, sid, durable, pending, syncAfter);
      || (t.screen == s.screen && t.typingContext == s.typingContext && t.revokedContexts == s.revokedContexts)
      || (t.screen == Welcome && t.store.sessions == map[] && t.store.unpersisted == {} && ContextStep(s, t))
  {
  }

  lemma CallbackScreen(s: State, id: WriterId)
    requires Finished(s.store, id)
    ensures var t := Callback(s, id);
      || (t.screen == s.screen && t.typingContext == s.typingContext && t.revokedContexts == s.revokedContexts)
      || (t.screen == Welcome && t.store.sessions == map[] && t.store.unpersisted == {} && ContextStep(s, t))
  {
    var w := s.store.writers[id];
    if w.path in s.store.slots && s.store.slots[w.path].owner == w.session {
      var released := s.(store := Release(s.store, id));
      if w.kind.Plain? {
        PlainDoneScreen(released, w, s.store.slots[w.path]);
      } else {
        MergeDoneScreen(released, w, s.store.slots[w.path]);
      }
    }
  }

  lemma PlainDoneScreen(s: State, w: Writer, slot: Slot)
    requires w.kind.Plain?
    ensures var t := PlainDone(s, w, slot);
      || (t.screen == s.screen && t.typingContext == s.typingContext && t.revokedContexts == s.revokedContexts)
      || (t.screen == Welcome && t.store.sessions == map[] && t.store.unpersisted == {} && ContextStep(s, t))
  {
    AfterWriterScreen(s.(store := SetStatus(s.store, w.path, w.session, StatusAfter(w.outcome))),
                      w.path, w.session, w.outcome.Durable?, slot.pending, slot.syncAfter || w.kind.syncAfter);
  }

  lemma MergeDoneScreen(s: State, w: Writer, slot: Slot)
    requires w.kind.Merge?
    ensures var t := MergeDone(s, w, slot);
      || (t.screen == s.screen && t.typingContext == s.typingContext && t.revokedContexts == s.revokedContexts)
      || (t.screen == Welcome && t.store.sessions == map[] && t.store.unpersisted == {} && ContextStep(s, t))
  {
    var t := s.store;
    if w.outcome.WriteFailed? {
      var kept := if slot.pending.None? && Locked(s) && AtBase(t, w.path, w.session, w.kind.base)
                  then Install(t, w.session, w.payload) else t;
      AfterWriterScreen(s.(store := SetStatus(kept, w.path, w.session, Failed)), w.path, w.session, false, slot.pending, true);
    } else if AtBase(t, w.path, w.session, w.kind.base) {
      AfterWriterScreen(s.(store := SetStatus(Install(t, w.session, w.payload), w.path, w.session, StatusAfter(w.outcome))),
                        w.path, w.session, w.outcome.Durable?, slot.pending, true);
    }
  }

  /** The writer has a step of its own left, or its callback has. */
  ghost predicate CanMove(s: State, w: WriterId) {
    Enabled(s, CallbackA(w)) || Enabled(s, FailA(w)) || Enabled(s, PublishA(w)) || Enabled(s, SyncDirectoryA(w, true))
  }

  lemma EveryWriterCanMove(s: State, w: WriterId)
    requires w in s.store.writers
    ensures CanMove(s, w)
  {
    if s.store.writers[w].outcome.Running? {
      match s.store.writers[w].phase
      case Writing => assert InPhase(s.store, w, {Writing, Aborted});
      case Aborted => assert InPhase(s.store, w, {Writing, Aborted});
      case Publishing => assert InPhase(s.store, w, {Publishing});
      case Published => assert InPhase(s.store, w, {Published});
    } else {
      assert Finished(s.store, w);
    }
  }

  lemma SlotHasWriter(t: Store, p: Path)
    requires ShapeOk(t) && LocalsOk(t, None) && p in t.slots
    ensures var w := t.slots[p].writer; w in t.writers && HoldsSlot(t, w)
  {
  }

  /** A waiting lock is never stuck: a writer that holds a slot is still to move
      or to report, or every save has failed and a discard would succeed. */
  lemma WaitingLockNeverWedges(s: State)
    requires Inv(s) && Locked(s)
    ensures s.store.slots != map[] ==> exists w <- s.store.writers :: HoldsSlot(s.store, w) && CanMove(s, w)
    ensures s.store.slots == map[] ==> DiscardSucceeds(s, false)
    ensures s.store.slots == map[] ==> forall sid <- s.store.sessions :: s.store.sessions[sid].status.Failed?
  {
    if s.store.slots != map[] {
      var p :| p in s.store.slots;
      SlotHasWriter(s.store, p);
      EveryWriterCanMove(s, s.store.slots[p].writer);
    } else {
      forall sid <- s.store.sessions ensures s.store.sessions[sid].status.Failed? {
        assert LocalOk(Look(s.store, sid), sid, false);
      }
    }
  }

  // ------------------------------------------------------------------- merging

  lemma FreshSnapshot(t: Store, path: Path, sid: SessionId, syncAfter: bool)
    requires RetainedAt(t, path, sid) && path !in t.slots
    ensures
      var u := RequestSave(t, path, sid, syncAfter);
      && sid in u.sessions && u.sessions[sid].document == t.sessions[sid].document && sid in u.unpersisted
      && path in u.slots && u.slots[path].writer in u.writers
      && u.writers[u.slots[path].writer].payload == t.sessions[sid].document.database
  {
  }

  /** A merge that lost the race is dropped: when the document has moved past
      the merge base, the callback keeps the document as it is and takes a new
      snapshot of it, whatever became of the merge save. */
  lemma StaleMergeIsResaved(s: State, w: Writer, slot: Slot)
    requires w.kind.Merge? && Released(s, w, slot) && !w.outcome.Running?
    requires s.store.sessions[w.session].document.generation != w.kind.base
    ensures
      var t, u := s.store, MergeDone(s, w, slot).store;
      && w.session in u.sessions && u.sessions[w.session].document == t.sessions[w.session].document
      && w.session in u.unpersisted
      && w.path in u.slots && u.slots[w.path].writer in u.writers
      && u.writers[u.slots[w.path].writer].payload == t.sessions[w.session].document.database
  {
    var t := s.store;
    assert slot.pending == Some(w.session);
    if w.outcome.WriteFailed? {
      FreshSnapshot(SetStatus(t, w.path, w.session, Failed), w.path, w.session, true);
    } else {
      FreshSnapshot(t, w.path, w.session, true);
    }
  }

  lemma AfterWriterDocument(s: State, path: Path, sid: SessionId, durable: bool, pending: Option<SessionId>, syncAfter: bool)
    requires sid in s.store.sessions
    ensures
      var u := AfterWriter(s, path, sid, durable, pending, syncAfter).store;
      && (if sid in u.sessions then u.sessions[sid].document == s.store.sessions[sid].document else durable)
      && u.disk == s.store.disk
  {
    AfterWriterSame(s, path, sid, durable, pending, syncAfter);
    if !durable {
      AfterWriterKeeps(s, path, sid, pending, syncAfter);
    }
    hide AfterWriter;
  }

  /** Nothing is dropped for a write that failed. */
  lemma AfterWriterKeeps(s: State, path: Path, sid: SessionId, pending: Option<SessionId>, syncAfter: bool)
    ensures AfterWriter(s, path, sid, false, pending, syncAfter).store.sessions.Keys == s.store.sessions.Keys
  {
    if pending.Some? {
      RequestSaveKeys(s.store, path, pending.value, syncAfter);
      hide RequestSave;
    }
  }

  /** The merge goes into the document: it is still the merge's base, and if the write
      failed the document is quarantined with no other save queued for it. */
  ghost predicate MergeLands(s: State, w: Writer, slot: Slot)
    requires w.kind.Merge?
  {
    && AtBase(s.store, w.path, w.session, w.kind.base)
    && (w.outcome.WriteFailed? ==> Locked(s) && slot.pending.None?)
  }

  /** What the callback of a merge makes of the document, once the slot is released. */
  lemma MergeDoneDocument(s: State, w: Writer, slot: Slot)
    requires w.kind.Merge? && Released(s, w, slot) && !w.outcome.Running?
    ensures
      var t, u := s.store, MergeDone(s, w, slot).store;
      var was := t.sessions[w.session].document;
      && u.disk == t.disk
      && (if w.session in u.sessions
          then u.sessions[w.session].document == if MergeLands(s, w, slot) then was.Replace(w.payload) else was
          else MergeLands(s, w, slot) && w.outcome.Durable?)
  {
    var t := s.store;
    if w.outcome.WriteFailed? {
      var kept := if MergeLands(s, w, slot) then Install(t, w.session, w.payload) else t;
      AfterWriterDocument(s.(store := SetStatus(kept, w.path, w.session, Failed)), w.path, w.session, false, slot.pending, true);
    } else if AtBase(t, w.path, w.session, w.kind.base) {
      AfterWriterDocument(s.(store := SetStatus(Install(t, w.session, w.payload), w.path, w.session, StatusAfter(w.outcome))),
                          w.path, w.session, w.outcome.Durable?, slot.pending, true);
    } else {
      assert slot.pending == Some(w.session);
    }
  }

  /** Of a merge writer that has finished, however it has: it goes into the document. */
  ghost predicate Installs(s: State, id: WriterId)
    requires id in s.store.writers && s.store.writers[id].kind.Merge?
  {
    HoldsSlot(s.store, id) && MergeLands(s, s.store.writers[id], s.store.slots[s.store.writers[id].path])
  }

  /** Whatever became of its save, a merge is installed if and only if the document is
      still its base and, after a failed write, waits in quarantine with nothing queued;
      otherwise the document stays as it is. What is installed carries all the base
      held, and a session that the callback drops has the merge on disk. */
  lemma MergeInstallsOverItsBase(s: State, id: WriterId)
    requires Inv(s) && Finished(s.store, id) && s.store.writers[id].kind.Merge?
    ensures
      var w, t, u := s.store.writers[id], s.store, Callback(s, id).store;
      w.session in t.sessions ==>
        var was := t.sessions[w.session].document;
        && (if w.session in u.sessions
            then u.sessions[w.session].document == if Installs(s, id) then was.Replace(w.payload) else was
            else Installs(s, id) && DiskAt(u.disk, w.path) == w.payload)
        && (Installs(s, id) ==> Carries(w.payload, was.database))
  {
    var t, w := s.store, s.store.writers[id];
    assert WriterOk(t, id);
    if HoldsSlot(t, id) {
      CallbackReleases(s, id);
      HolderLook(t, None, id);
      assert LocalOk(Look(t, w.session), w.session, false);
      hide Inv, Released, LocalOk, MergeDone;
      MergeDoneDocument(s.(store := Release(t, id)), w, t.slots[w.path]);
    }
  }

  // ---------------------------------------------------------- typing contexts

  ghost function Active(s: State): Option<SessionId> {
    if s.screen.Open? then Some(s.screen.session) else None
  }

  /** Either the context and the active vault both stay, or the context is revoked. */
  ghost predicate ContextStep(s: State, t: State) {
    || (t.typingContext == s.typingContext && t.revokedContexts == s.revokedContexts && Active(t) == Active(s))
    || (t.typingContext == s.typingContext + 1 && t.revokedContexts == s.revokedContexts + {s.typingContext})
  }

  lemma NavigationContext(s: State, path: Path)
    ensures ContextStep(s, SwitchTo(s, path)) && ContextStep(s, RequestPassword(s, path))
    ensures ContextStep(s, SubmitPassword(s, path))
  {
  }

  lemma LockContext(s: State, order: seq<SessionId>)
    ensures ContextStep(s, LockVault(s, order))
  {
  }

  lemma StepContext(s: State, a: Action)
    requires Inv(s) && Enabled(s, a)
    ensures ContextStep(s, Next(s, a))
  {
    hide Inv;
    match a
    case SwitchToA(path) => NavigationContext(s, path);
    case RequestPasswordA(path) => NavigationContext(s, path);
    case SubmitPasswordA(path) => NavigationContext(s, path);
    case LockA(order) => LockContext(s, order);
    case CallbackA(w) => CallbackScreen(s, w);
    case _ =>
  }

  lemma RunContext(states: seq<State>, actions: seq<Action>, i: nat)
    requires IsRun(states, actions) && i + 1 < |states|
    ensures ContextStep(states[i], states[i + 1])
  {
    hide Init, Inv, Enabled, Next, ContextStep;
    RunInv(states, actions, i);
    StepContext(states[i], actions[i]);
  }

  /** An Auto-Type context is tied to one active vault: as long as it is the
      current one the active vault is the one it was issued for, and from the
      moment it is not, it is revoked for good. */
  lemma {:induction false} ContextPinsVault(states: seq<State>, actions: seq<Action>, i: nat, j: nat)
    requires IsRun(states, actions) && i <= j < |states|
    ensures if states[j].typingContext == states[i].typingContext
            then Active(states[j]) == Active(states[i])
            else states[i].typingContext in states[j].revokedContexts
    ensures states[i].typingContext <= states[j].typingContext
  {
    hide IsRun, Active;
    if i < j {
      ContextPinsVault(states, actions, i, j - 1);
      RunContext(states, actions, j - 1);
    }
  }

  // -------------------------------------------------------- favicon downloads

  /** `start_favicon_download` changes a document and marks its session dirty,
      but leaves no save request behind. */
  ghost function SetIcon(t: Store, sid: SessionId, e: Edit): Store
    requires sid in t.sessions
  {
    SetDocument(t, sid, t.sessions[sid].document.Mutate(e)).(unpersisted := t.unpersisted + {sid})
  }

  /** The writer `w` publishes, syncs the directory and reports. */
  ghost function Land(s: State, w: WriterId): State
    requires w in s.store.writers
  {
    Callback(s.(store := SetWriter(Publish(s.store, w), w, Published, Durable)), w)
  }

  ghost predicate StillOwed(t: Store, sid: SessionId) {
    sid in t.unpersisted || (sid in t.sessions && DiskAt(t.disk, t.sessions[sid].path) == t.sessions[sid].document.database)
  }

  /** How an ordinary save that landed leaves its owner, with no lock waiting. */
  lemma PlainLanding(s: State, w: Writer, slot: Slot)
    requires w.kind.Plain? && w.outcome.Durable? && !Locked(s) && !s.lockRequested
    requires RetainedAt(s.store, w.path, w.session) && w.path !in s.store.slots
    requires slot.pending.None? || slot.pending == Some(w.session)
    ensures
      var u := PlainDone(s, w, slot).store;
      && (w.session in u.unpersisted <==> slot.pending.Some?)
      && w.session in u.sessions && u.sessions[w.session].path == w.path
      && u.sessions[w.session].document == s.store.sessions[w.session].document
      && u.disk == s.store.disk
  {
  }

  lemma RequestSaveMarks(t: Store, path: Path, sid: SessionId, syncAfter: bool)
    ensures t.unpersisted <= RequestSave(t, path, sid, syncAfter).unpersisted
    ensures RetainedAt(t, path, sid) ==> sid in RequestSave(t, path, sid, syncAfter).unpersisted
  {
    RequestSaveAnnounces(t, path, sid, syncAfter);
    hide RequestSave;
  }

  /** A merge that lands while its base has moved leaves the document queued again. */
  lemma MergeLanding(s: State, w: Writer, slot: Slot)
    requires w.kind.Merge? && w.outcome.Durable? && RetainedAt(s.store, w.path, w.session)
    requires !AtBase(s.store, w.path, w.session, w.kind.base)
    ensures w.session in MergeDone(s, w, slot).store.unpersisted
  {
    hide RequestSave;
    RequestSaveMarks(s.store, w.path, w.session, true);
    if slot.pending.Some? {
      RequestSaveMarks(RequestSave(s.store, w.path, w.session, true), w.path, slot.pending.value, true);
    }
  }

  /** The icon has arrived and the save has landed; its callback has released the slot. */
  ghost function IconReleased(s: State, sid: SessionId, e: Edit): State
    requires sid in s.store.sessions && s.store.sessions[sid].path in s.store.slots
    requires s.store.slots[s.store.sessions[sid].path].writer in s.store.writers
  {
    var id := s.store.slots[s.store.sessions[sid].path].writer;
    s.(store := Release(SetWriter(Publish(SetIcon(s.store, sid, e), id), id, Published, Durable), id))
  }

  /** The session is being saved by the writer that holds its path's slot. */
  ghost predicate BeingSaved(s: State, sid: SessionId) {
    && !Locked(s) && !s.lockRequested && sid in s.store.sessions
    && var t, path := s.store, s.store.sessions[sid].path;
      && path in t.slots && t.slots[path].owner == sid && t.slots[path].writer in t.writers
      && (t.slots[path].pending.None? || t.slots[path].pending == Some(sid))
      && var w := t.writers[t.slots[path].writer];
        && w.path == path && w.session == sid && (w.kind.Merge? ==> w.kind.base <= t.sessions[sid].document.generation)
        && (w.kind.Plain? && t.slots[path].pending.None? ==> w.payload == t.sessions[sid].document.database)
  }

  lemma IconBehindPlainSave(s: State, sid: SessionId, e: Edit)
    requires BeingSaved(s, sid) && s.store.writers[s.store.slots[s.store.sessions[sid].path].writer].kind.Plain?
    ensures
      var slot := s.store.slots[s.store.sessions[sid].path];
      StillOwed(Land(s.(store := SetIcon(s.store, sid, e)), slot.writer).store, sid) <==> slot.pending == Some(sid)
  {
    var t, path := s.store, s.store.sessions[sid].path;
    var slot := t.slots[path];
    var w := t.writers[slot.writer].(phase := Published, outcome := Durable);
    var released := IconReleased(s, sid, e);
    assert Land(s.(store := SetIcon(t, sid, e)), slot.writer) == PlainDone(released, w, slot);
    PlainLanding(released, w, slot);
    hide PlainDone, Land;
    assert |t.sessions[sid].document.database + [e]| == |t.sessions[sid].document.database| + 1;
  }

  lemma IconBehindMerge(s: State, sid: SessionId, e: Edit)
    requires BeingSaved(s, sid) && s.store.writers[s.store.slots[s.store.sessions[sid].path].writer].kind.Merge?
    ensures
      var slot := s.store.slots[s.store.sessions[sid].path];
      StillOwed(Land(s.(store := SetIcon(s.store, sid, e)), slot.writer).store, sid)
  {
    var t, path := s.store, s.store.sessions[sid].path;
    var slot := t.slots[path];
    var w := t.writers[slot.writer].(phase := Published, outcome := Durable);
    var released := IconReleased(s, sid, e);
    assert Land(s.(store := SetIcon(t, sid, e)), slot.writer) == MergeDone(released, w, slot);
    hide MergeDone, Land;
    MergeLanding(released, w, slot);
  }

  /** An icon that arrives while a save is being published keeps its session owed past
      that save if and only if another save was already queued behind it, or the save
      is a merge's, which the icon makes stale; otherwise the session counts as saved
      although the disk lacks the icon. */
  lemma IconSurvivesRunningSave(s: State, sid: SessionId, e: Edit)
    requires Inv(s) && !Locked(s) && sid in s.store.sessions && s.store.sessions[sid].path in s.store.slots
    ensures
      var slot := s.store.slots[s.store.sessions[sid].path];
      && slot.writer in s.store.writers
      && (StillOwed(Land(s.(store := SetIcon(s.store, sid, e)), slot.writer).store, sid) <==>
            slot.pending == Some(sid) || s.store.writers[slot.writer].kind.Merge?)
  {
    var t, path := s.store, s.store.sessions[sid].path;
    var slot := t.slots[path];
    assert LocalOk(Look(t, sid), sid, false);
    assert RetainedAt(t, path, slot.owner);
    hide Inv, LocalOk;
    if t.writers[slot.writer].kind.Plain? {
      IconBehindPlainSave(s, sid, e);
    } else {
      IconBehindMerge(s, sid, e);
    }
  }

  // One vault is opened, edited once, and the save of that edit claims publication.

  const VAULT: Path := "v.kdbx"

  ghost function Played(played: nat): State
    requires played <= 5
  {
    var start := Fresh(map[VAULT := []]);
    if played == 0 then start
    else if played <= 2 then
      start.(screen := Opening(VAULT), openAttempt := 1, typingContext := 1, revokedContexts := {0}, nextOpen := 1,
             opens := map[0 := OpenTask(VAULT, 1, if played == 1 then None else Some([]))])
    else
      start.(screen := Open(1), openAttempt := 1, typingContext := 2, revokedContexts := {0, 1}, nextOpen := 1,
             store :=
               if played == 3 then
                 start.store.(sessions := map[1 := Session(VAULT, Document([], 0), Idle)], nextSession := 2,
                              accounts := map[1 := Account(VAULT, {}, false)])
               else
                 start.store.(sessions := map[1 := Session(VAULT, Document([7], 1), Saving)], nextSession := 2,
                              accounts := map[1 := Account(VAULT, {7}, false)], unpersisted := {1},
                              slots := map[VAULT := Slot(1, None, false, 0)], nextWriter := 1,
                              writers := map[0 := Writer(VAULT, 1, [7], Plain(true),
                                                         if played == 4 then Writing else Publishing, Running)]))
  }

  const PLAY: seq<Action> :=
    [SubmitPasswordA(VAULT), ReadVaultA(0), FinishOpenA(0, true), EditA(7, true), ClaimA(0)]

  lemma PlayOpens()
    ensures Enabled(Played(0), PLAY[0]) && Next(Played(0), PLAY[0]) == Played(1)
    ensures Enabled(Played(1), PLAY[1]) && Next(Played(1), PLAY[1]) == Played(2)
  {
  }

  lemma PlayFinishesOpen()
    ensures Enabled(Played(2), PLAY[2]) && Next(Played(2), PLAY[2]) == Played(3)
  {
  }

  lemma PlayEdits()
    ensures Enabled(Played(3), PLAY[3]) && Next(Played(3), PLAY[3]) == Played(4)
  {
    var before := Played(3).store;
    assert before.sessions[1].document.database + [7] == [7] && before.accounts[1].edits + {7} == {7};
    var t := ApplyEdit(before, 1, 7);
    assert t.sessions == map[1 := Session(VAULT, Document([7], 1), Idle)];
    assert t.accounts == map[1 := Account(VAULT, {7}, false)];
    assert RetainedAt(t, VAULT, 1);
  }

  lemma PlayClaims()
    ensures Enabled(Played(4), PLAY[4]) && Next(Played(4), PLAY[4]) == Played(5)
  {
  }

  lemma PlayStep(i: nat)
    requires i < |PLAY|
    ensures Enabled(Played(i), PLAY[i]) && Next(Played(i), PLAY[i]) == Played(i + 1)
  {
    hide Enabled, Next, Played;
    if i <= 1 {
      PlayOpens();
    } else if i == 2 {
      PlayFinishesOpen();
    } else if i == 3 {
      PlayEdits();
    } else {
      PlayClaims();
    }
  }

  /** That play is a run, from a fresh program and an empty vault on disk. */
  lemma PlayIsARun() returns (states: seq<State>)
    ensures IsRun(states, PLAY) && states[0] == Fresh(map[VAULT := []]) && states[5] == Played(5)
  {
    states := seq(6, i requires 0 <= i < 6 => Played(i));
    assert Init(states[0]);
    hide Enabled, Next, Played, Init;
    forall i | 0 <= i < |PLAY| ensures Enabled(states[i], PLAY[i]) && states[i + 1] == Next(states[i], PLAY[i]) {
      PlayStep(i);
    }
  }

  /** The session in front is being saved, and an icon that arrives now is owed no more
      after that save, although the disk lacks it. */
  ghost predicate LosesIcon(s: State, e: Edit) {
    && s.screen.Open? && s.screen.session in s.store.sessions
    && var sid := s.screen.session;
      && s.store.sessions[sid].path in s.store.slots
      && s.store.slots[s.store.sessions[sid].path].writer in s.store.writers
      && !StillOwed(Land(s.(store := SetIcon(s.store, sid, e)), s.store.slots[s.store.sessions[sid].path].writer).store, sid)
  }

  /** A run ends in a state in which an icon that is downloaded right then loses its mark. */
  lemma IconMarkCanBeLost() returns (states: seq<State>, actions: seq<Action>)
    ensures IsRun(states, actions) && states[0] == Fresh(map[VAULT := []]) && LosesIcon(states[|actions|], 8)
  {
    actions := PLAY;
    states := PlayIsARun();
    RunInv(states, actions, 5);
    IconSurvivesRunningSave(Played(5), 1, 8);
  }
}
