/**
 Favicon downloads among everything else that happens to a vault. An icon marks
 its session dirty and leaves the save request to the end of the download, so the
 invariant of the save protocol does not hold in between. A weaker one does, and
 it is enough: until that request no icon is lost except with its whole session.
 */
module SaveIcons {
  import opened Wrappers
  import opened SaveProtocol
  import T = SaveTheorems

  // ----------------------------------------------------------- runs with icons

  datatype Move =
    | Does(action: Action)
    | Icon(path: Path, session: SessionId, edit: Edit)
    // the download is through: one save request for all its icons
    | IconsDone(path: Path, session: SessionId)

  ghost predicate CanMove(s: State, m: Move) {
    match m
    case Does(a) => Enabled(s, a)
    case Icon(path, sid, _) => Current(s, path, sid)
    case IconsDone(_, _) => true
  }

  ghost function Moved(s: State, m: Move): State
    requires CanMove(s, m)
  {
    match m
    case Does(a) => Next(s, a)
    case Icon(_, sid, e) => s.(store := T.SetIcon(s.store, sid, e))
    case IconsDone(path, sid) => s.(store := RequestSave(s.store, path, sid, true))
  }

  ghost predicate IsIconRun(states: seq<State>, moves: seq<Move>) {
    && |states| == |moves| + 1 && Init(states[0])
    && forall i :: 0 <= i < |moves| ==> CanMove(states[i], moves[i]) && states[i + 1] == Moved(states[i], moves[i])
  }

  // ------------------------------------------------------ what holds in between

  ghost predicate BaseOk(t: Store, sid: SessionId, base: nat) {
    sid < t.nextSession && (sid in t.sessions ==> base <= t.sessions[sid].document.generation)
  }

  /** No merge, computed or being saved, is based on a document of the future. */
  ghost predicate Dated(t: Store) {
    && (forall sid <- t.sessions :: sid < t.nextSession)
    && (forall w <- t.writers :: t.writers[w].kind.Merge? ==> BaseOk(t, t.writers[w].session, t.writers[w].kind.base))
    && (forall j <- t.merges :: BaseOk(t, t.merges[j].session, t.merges[j].generation))
  }

  ghost predicate HasEdit(t: Store, sid: SessionId, e: Edit) {
    sid in t.sessions && e in t.sessions[sid].document.database
  }

  ghost predicate AtGeneration(t: Store, sid: SessionId, session: SessionId, base: nat) {
    session == sid && sid in t.sessions && base == t.sessions[sid].document.generation
  }

  /** The document has the edit, and so has every merge that could still take its place. */
  ghost predicate Bears(t: Store, sid: SessionId, e: Edit) {
    && HasEdit(t, sid, e)
    && (forall w <- t.writers ::
          t.writers[w].kind.Merge? && AtGeneration(t, sid, t.writers[w].session, t.writers[w].kind.base) ==> e in t.writers[w].payload)
    && (forall j <- t.merges :: AtGeneration(t, sid, t.merges[j].session, t.merges[j].generation) ==> e in t.merges[j].base)
  }

  /** From `t` to `u` no session that was ever gone comes back, bases stay in the past, and
      what the document of `sid` bears it bears as long as the session is retained. */
  ghost predicate Kept(t: Store, u: Store, sid: SessionId, e: Edit) {
    Dated(u) && NoneReturns(t, u) && (Bears(t, sid, e) && sid in u.sessions ==> Bears(u, sid, e))
  }

  ghost predicate NoneReturns(t: Store, u: Store) {
    t.nextSession <= u.nextSession && forall o <- u.sessions :: o < t.nextSession ==> o in t.sessions
  }

  lemma KeptTwice(t: Store, u: Store, v: Store, sid: SessionId, e: Edit)
    requires Dated(t) && Kept(t, u, sid, e) && Kept(u, v, sid, e)
    ensures Kept(t, v, sid, e)
  {
    assert Bears(t, sid, e) ==> sid < t.nextSession;
    hide Bears;
  }

  // --------------------------------------------- steps that change no document

  /** No document changes, and no merge is added. */
  ghost predicate Plainly(t: Store, u: Store) {
    SameTexts(t, u) && SameMerges(t, u)
  }

  ghost predicate SameTexts(t: Store, u: Store) {
    && u.nextSession == t.nextSession
    && (forall sid <- u.sessions :: sid in t.sessions && u.sessions[sid].document == t.sessions[sid].document)
  }

  ghost predicate SameMerges(t: Store, u: Store) {
    && (forall w <- u.writers :: u.writers[w].kind.Merge? ==>
          w in t.writers && u.writers[w].session == t.writers[w].session && u.writers[w].kind == t.writers[w].kind
          && u.writers[w].payload == t.writers[w].payload)
    && (forall j <- u.merges :: j in t.merges && u.merges[j] == t.merges[j])
  }

  lemma PlainlyTwice(t: Store, u: Store, v: Store)
    requires Plainly(t, u) && Plainly(u, v)
    ensures Plainly(t, v)
  {
  }

  lemma PlainlyKeeps(t: Store, u: Store, sid: SessionId, e: Edit)
    requires Dated(t) && Plainly(t, u)
    ensures Kept(t, u, sid, e)
  {
  }

  lemma RequestMerges(t: Store, path: Path, sid: SessionId, syncAfter: bool)
    ensures SameMerges(t, RequestSave(t, path, sid, syncAfter))
  {
    if RetainedAt(t, path, sid) && path !in t.slots {
      StartMerges(t, sid, t.sessions[sid].document.database, syncAfter);
      hide StartWriter;
    }
  }

  lemma StartMerges(t: Store, sid: SessionId, payload: Database, syncAfter: bool)
    requires sid in t.sessions
    ensures SameMerges(t, StartWriter(t, sid, payload, Plain(syncAfter)))
  {
  }

  lemma RequestPlainly(t: Store, path: Path, sid: SessionId, syncAfter: bool)
    ensures Plainly(t, RequestSave(t, path, sid, syncAfter))
  {
    RequestMerges(t, path, sid, syncAfter);
    T.RequestSaveSame(t, path, sid, syncAfter);
    hide RequestSave, SameMerges;
  }

  lemma {:induction false} RetryPlainly(t: Store, order: seq<SessionId>)
    ensures Plainly(t, RetryAll(t, order))
    decreases |order|
  {
    if order != [] {
      if order[0] in t.sessions {
        var u := RequestSave(t, t.sessions[order[0]].path, order[0], false);
        RequestPlainly(t, t.sessions[order[0]].path, order[0], false);
        RetryPlainly(u, order[1..]);
        hide RequestSave;
        PlainlyTwice(t, u, RetryAll(t, order));
      } else {
        RetryPlainly(t, order[1..]);
      }
    }
  }

  lemma StatusPlainly(t: Store, path: Path, sid: SessionId, status: SaveStatus)
    ensures Plainly(t, SetStatus(t, path, sid, status))
  {
  }

  lemma PersistedPlainly(t: Store, sid: SessionId, locked: bool)
    ensures Plainly(t, MarkPersisted(t, sid, locked))
  {
  }

  lemma FinishPlainly(s: State)
    ensures Plainly(s.store, FinishLock(s).store)
  {
  }

  lemma AfterWriterPlainly(s: State, path: Path, sid: SessionId, durable: bool, pending: Option<SessionId>, syncAfter: bool)
    ensures Plainly(s.store, AfterWriter(s, path, sid, durable, pending, syncAfter).store)
  {
    var settled := if durable && pending != Some(sid) then s.(store := MarkPersisted(s.store, sid, Locked(s))) else s;
    PersistedPlainly(s.store, sid, Locked(s));
    assert Plainly(s.store, settled.store);
    FinishPlainly(settled);
    hide MarkPersisted, FinishLock, RequestSave, Plainly;
    if pending.Some? {
      RequestPlainly(settled.store, path, pending.value, syncAfter);
      PlainlyTwice(s.store, settled.store, RequestSave(settled.store, path, pending.value, syncAfter));
    } else {
      PlainlyTwice(s.store, settled.store, FinishLock(settled).store);
    }
  }

  /** A status, and then what every save callback ends with. */
  lemma ReportPlainly(s: State, t: Store, path: Path, sid: SessionId, status: SaveStatus,
                      durable: bool, pending: Option<SessionId>, syncAfter: bool)
    ensures Plainly(t, AfterWriter(s.(store := SetStatus(t, path, sid, status)), path, sid, durable, pending, syncAfter).store)
  {
    var u := SetStatus(t, path, sid, status);
    StatusPlainly(t, path, sid, status);
    AfterWriterPlainly(s.(store := u), path, sid, durable, pending, syncAfter);
    hide SetStatus, AfterWriter, Plainly;
    PlainlyTwice(t, u, AfterWriter(s.(store := u), path, sid, durable, pending, syncAfter).store);
  }

  // -------------------------------------------------- steps that change documents

  ghost function Mutated(t: Store, o: SessionId, added: Edit): Store
    requires o in t.sessions
  {
    SetDocument(t, o, t.sessions[o].document.Mutate(added))
  }

  lemma MutateKeeps(t: Store, o: SessionId, added: Edit, sid: SessionId, e: Edit)
    requires Dated(t) && o in t.sessions
    ensures Kept(t, Mutated(t, o, added), sid, e) && Bears(Mutated(t, o, added), o, added)
  {
  }

  /** A merge goes in only over its base, which bore what the document bears. */
  lemma InstallKeeps(t: Store, o: SessionId, payload: Database, sid: SessionId, e: Edit)
    requires Dated(t) && o in t.sessions && (o == sid && Bears(t, sid, e) ==> e in payload)
    ensures Kept(t, Install(t, o, payload), sid, e)
  {
  }

  lemma OpenKeeps(s: State, path: Path, d: Database, sid: SessionId, e: Edit)
    requires Dated(s.store)
    ensures Kept(s.store, OpenDocument(s, path, d).store, sid, e)
  {
  }

  lemma StartMergeKeeps(s: State, path: Path, bound: bool, sid: SessionId, e: Edit)
    requires Dated(s.store)
    ensures Kept(s.store, StartMerge(s, path, bound).store, sid, e)
  {
  }

  lemma MergeWriterKeeps(t: Store, o: SessionId, merged: Database, base: nat, sid: SessionId, e: Edit)
    requires Dated(t) && o in t.sessions && base == t.sessions[o].document.generation
    requires o == sid && Bears(t, sid, e) ==> e in merged
    ensures Kept(t, StartWriter(t, o, merged, Merge(base)), sid, e)
  {
  }

  lemma CommitKeeps(s: State, j: nat, merged: Database, bound: bool, sid: SessionId, e: Edit)
    requires Dated(s.store) && Enabled(s, CommitMergeA(j, merged, bound))
    ensures Kept(s.store, Next(s, CommitMergeA(j, merged, bound)).store, sid, e)
  {
    var t, job := s.store, s.store.merges[j];
    RequestPlainly(t, job.path, job.session, true);
    PlainlyKeeps(t, t, sid, e);
    hide RequestSave, StartWriter, Dated, Bears, Kept, Plainly;
    PlainlyKeeps(t, RequestSave(t, job.path, job.session, true), sid, e);
    if AtBase(t, job.path, job.session, job.generation) {
      MergedBears(t, j, merged, sid, e);
      MergeWriterKeeps(t, job.session, merged, job.generation, sid, e);
    }
  }

  lemma MergedBears(t: Store, j: nat, merged: Database, sid: SessionId, e: Edit)
    requires j in t.merges && Carries(merged, t.merges[j].base)
    requires AtBase(t, t.merges[j].path, t.merges[j].session, t.merges[j].generation)
    ensures t.merges[j].session == sid && Bears(t, sid, e) ==> e in merged
  {
  }

  // -------------------------------------------------------------- the callbacks

  /** With its writer gone and its slot released, a merge is installed, dropped or kept for a retry. */
  lemma MergeDoneKeeps(s: State, w: Writer, slot: Slot, sid: SessionId, e: Edit)
    requires w.kind.Merge? && Dated(s.store)
    requires AtBase(s.store, w.path, w.session, w.kind.base) && w.session == sid && Bears(s.store, sid, e) ==> e in w.payload
    ensures Kept(s.store, MergeDone(s, w, slot).store, sid, e)
  {
    var t, u := s.store, MergeDone(s, w, slot).store;
    var atBase := AtBase(t, w.path, w.session, w.kind.base);
    PlainlyKeeps(t, t, sid, e);
    if atBase {
      InstallKeeps(t, w.session, w.payload, sid, e);
    }
    hide Bears, RequestSave, SetStatus, AfterWriter, Plainly, Install;
    if w.outcome.WriteFailed? {
      var kept := if slot.pending.None? && Locked(s) && atBase then Install(t, w.session, w.payload) else t;
      ReportPlainly(s, kept, w.path, w.session, Failed, false, slot.pending, true);
      PlainlyKeeps(kept, u, sid, e);
      KeptTwice(t, kept, u, sid, e);
    } else if !atBase {
      DroppedMergePlainly(t, w, slot.pending);
      PlainlyKeeps(t, u, sid, e);
    } else {
      var installed := Install(t, w.session, w.payload);
      ReportPlainly(s, installed, w.path, w.session, StatusAfter(w.outcome), w.outcome.Durable?, slot.pending, true);
      PlainlyKeeps(installed, u, sid, e);
      KeptTwice(t, installed, u, sid, e);
    }
  }

  lemma DroppedMergePlainly(t: Store, w: Writer, pending: Option<SessionId>)
    ensures
      var saved := RequestSave(t, w.path, w.session, true);
      Plainly(t, saved) && (pending.Some? ==> Plainly(t, RequestSave(saved, w.path, pending.value, true)))
  {
    var saved := RequestSave(t, w.path, w.session, true);
    hide RequestSave, Plainly;
    RequestPlainly(t, w.path, w.session, true);
    if pending.Some? {
      RequestPlainly(saved, w.path, pending.value, true);
      PlainlyTwice(t, saved, RequestSave(saved, w.path, pending.value, true));
    }
  }

  lemma PlainDoneKeeps(s: State, w: Writer, slot: Slot, sid: SessionId, e: Edit)
    requires w.kind.Plain? && Dated(s.store)
    ensures Kept(s.store, PlainDone(s, w, slot).store, sid, e)
  {
    hide Dated, Kept, SetStatus, AfterWriter, Plainly;
    ReportPlainly(s, s.store, w.path, w.session, StatusAfter(w.outcome), w.outcome.Durable?, slot.pending,
                  slot.syncAfter || w.kind.syncAfter);
    PlainlyKeeps(s.store, PlainDone(s, w, slot).store, sid, e);
  }

  /** The store without the writer that has reported, its slot released if it still has it. */
  ghost function Reported(t: Store, id: WriterId, release: bool): Store
    requires id in t.writers
  {
    t.(writers := t.writers - {id}, slots := if release then t.slots - {t.writers[id].path} else t.slots)
  }

  lemma ReportedKeeps(t: Store, id: WriterId, release: bool, sid: SessionId, e: Edit)
    requires Dated(t) && id in t.writers
    ensures Kept(t, Reported(t, id, release), sid, e)
  {
    assert Plainly(t, Reported(t, id, release));
    hide Dated, Kept, Plainly;
    PlainlyKeeps(t, Reported(t, id, release), sid, e);
  }

  lemma WriterBears(t: Store, id: WriterId, sid: SessionId, e: Edit)
    requires id in t.writers && t.writers[id].kind.Merge? && Bears(t, sid, e)
    ensures var w := t.writers[id]; AtBase(Reported(t, id, true), w.path, w.session, w.kind.base) && w.session == sid ==> e in w.payload
  {
  }

  lemma CallbackKeeps(s: State, id: WriterId, sid: SessionId, e: Edit)
    requires Dated(s.store) && Finished(s.store, id)
    ensures Kept(s.store, Callback(s, id).store, sid, e)
  {
    var t, w := s.store, s.store.writers[id];
    var released := s.(store := Reported(t, id, true));
    ReportedKeeps(t, id, true, sid, e);
    ReportedKeeps(t, id, false, sid, e);
    if w.path in t.slots && t.slots[w.path].owner == w.session {
      if w.kind.Plain? {
        hide PlainDone, Bears;
        PlainDoneKeeps(released, w, t.slots[w.path], sid, e);
        KeptTwice(t, released.store, Callback(s, id).store, sid, e);
      } else {
        MergeCallbackKeeps(s, id, sid, e);
      }
    }
  }

  lemma MergeCallbackKeeps(s: State, id: WriterId, sid: SessionId, e: Edit)
    requires Dated(s.store) && Finished(s.store, id) && s.store.writers[id].kind.Merge?
    requires var w := s.store.writers[id]; w.path in s.store.slots && s.store.slots[w.path].owner == w.session
    ensures Kept(s.store, Callback(s, id).store, sid, e)
  {
    var t, w := s.store, s.store.writers[id];
    var released := s.(store := Reported(t, id, true));
    var u := Callback(s, id).store;
    ReportedKeeps(t, id, true, sid, e);
    assert u == MergeDone(released, w, t.slots[w.path]).store;
    if Bears(t, sid, e) {
      WriterBears(t, id, sid, e);
      hide MergeDone, Callback, Bears;
      MergeDoneKeeps(released, w, t.slots[w.path], sid, e);
      KeptTwice(t, released.store, u, sid, e);
    } else {
      // what nobody bears is kept all the same
      var nobody := t.nextSession;
      ReportedKeeps(t, id, true, nobody, e);
      assert nobody !in released.store.sessions;
      hide MergeDone, Callback;
      MergeDoneKeeps(released, w, t.slots[w.path], nobody, e);
      hide Bears;
      KeptTwice(t, released.store, u, nobody, e);
    }
  }

  // ------------------------------------------------------------------ every step

  lemma EditKeeps(s: State, added: Edit, syncAfter: bool, sid: SessionId, e: Edit)
    requires Dated(s.store)
    ensures Kept(s.store, EditOpen(s, added, syncAfter).store, sid, e)
  {
    var t := s.store;
    assert Plainly(t, t);
    if s.screen.Open? && s.screen.session in t.sessions && s.screen.session in t.accounts {
      var o := s.screen.session;
      var v, u := Mutated(t, o, added), ApplyEdit(t, o, added);
      var r := RequestSave(u, t.sessions[o].path, o, syncAfter);
      MutateKeeps(t, o, added, sid, e);
      assert Plainly(v, u);
      RequestPlainly(u, t.sessions[o].path, o, syncAfter);
      hide RequestSave, Mutated, ApplyEdit, Bears, Plainly;
      PlainlyTwice(v, u, r);
      PlainlyKeeps(v, r, sid, e);
      KeptTwice(t, v, r, sid, e);
    } else {
      hide Bears, Plainly;
      PlainlyKeeps(t, t, sid, e);
    }
  }

  lemma SavePlainly(s: State, syncAfter: bool, order: seq<SessionId>)
    ensures Plainly(s.store, SaveAsync(s, syncAfter, order).store)
  {
    assert Plainly(s.store, s.store);
    hide RequestSave, Plainly;
    RetryPlainly(s.store, order);
    if s.screen.Open? && s.screen.session in s.store.sessions {
      RequestPlainly(s.store, s.store.sessions[s.screen.session].path, s.screen.session, syncAfter);
    }
  }

  lemma LockPlainly(s: State, order: seq<SessionId>)
    ensures Plainly(s.store, LockVault(s, order).store)
  {
    var t := RequestLock(s);
    assert Plainly(s.store, t.store) && Plainly(s.store, LockNow(s).store);
    hide Plainly, RequestLock, LockNow;
    RetryPlainly(t.store, order);
    PlainlyTwice(s.store, t.store, RetryAll(t.store, order));
  }

  lemma DiscardPlainly(s: State, stuck: bool)
    ensures Plainly(s.store, Discard(s, stuck).store)
  {
  }

  lemma FinishOpenKeeps(s: State, id: nat, decrypted: bool, sid: SessionId, e: Edit)
    requires Dated(s.store) && id in s.opens
    ensures Kept(s.store, FinishOpen(s, id, decrypted).store, sid, e)
  {
    var t := s.(opens := s.opens - {id});
    assert Plainly(s.store, s.store);
    PlainlyKeeps(s.store, s.store, sid, e);
    if s.opens[id].read.Some? {
      OpenKeeps(t, s.opens[id].path, s.opens[id].read.value, sid, e);
    }
    hide OpenDocument, Kept;
  }

  lemma WriterPlainly(t: Store, w: WriterId, phase: Phase, outcome: Outcome)
    requires w in t.writers
    ensures Plainly(t, SetWriter(t, w, phase, outcome))
  {
  }

  lemma PublishPlainly(t: Store, w: WriterId)
    requires w in t.writers
    ensures Plainly(t, Publish(t, w))
  {
    WriterPlainly(t, w, Published, Running);
    hide SetWriter;
  }

  lemma BackgroundPlainly(s: State, a: Action)
    requires Enabled(s, a) && Background(a)
    ensures Plainly(s.store, Next(s, a).store)
  {
    hide SetWriter, Publish;
    match a
    case FailA(w) => WriterPlainly(s.store, w, s.store.writers[w].phase, WriteFailed);
    case ClaimA(w) => WriterPlainly(s.store, w, Publishing, Running);
    case PublishA(w) => PublishPlainly(s.store, w);
    case RenameFailedA(w) => WriterPlainly(s.store, w, Publishing, WriteFailed);
    case SyncDirectoryA(w, durable) => WriterPlainly(s.store, w, Published, if durable then Durable else NotDurable);
    case _ =>
  }

  /** The steps that change no document and start no merge. */
  lemma QuietPlainly(s: State, a: Action)
    requires Enabled(s, a)
    requires !a.FinishOpenA? && !a.EditA? && !a.StartMergeA? && !a.CommitMergeA? && !a.CallbackA?
    ensures Plainly(s.store, Next(s, a).store)
  {
    assert Plainly(s.store, s.store);
    if Background(a) {
      BackgroundPlainly(s, a);
    } else {
      hide Plainly, Enabled;
      match a
      case SaveA(syncAfter, order) => SavePlainly(s, syncAfter, order);
      case LockA(order) => LockPlainly(s, order);
      case DiscardA(stuck) => DiscardPlainly(s, stuck);
      case SwitchToA(path) => T.NavigationStore(s, path);
      case RequestPasswordA(path) => T.NavigationStore(s, path);
      case SubmitPasswordA(path) => T.NavigationStore(s, path);
      case _ => T.NavigationStore(s, "");
    }
  }

  lemma StepKeeps(s: State, a: Action, sid: SessionId, e: Edit)
    requires Dated(s.store) && Enabled(s, a)
    ensures Kept(s.store, Next(s, a).store, sid, e)
  {
    hide Dated, Kept, Plainly;
    match a
    case FinishOpenA(id, decrypted) => FinishOpenKeeps(s, id, decrypted, sid, e);
    case EditA(added, syncAfter) => EditKeeps(s, added, syncAfter, sid, e);
    case StartMergeA(path, bound) => StartMergeKeeps(s, path, bound, sid, e);
    case CommitMergeA(j, merged, bound) => CommitKeeps(s, j, merged, bound, sid, e);
    case CallbackA(id) => CallbackKeeps(s, id, sid, e);
    case _ =>
      QuietPlainly(s, a);
      PlainlyKeeps(s.store, Next(s, a).store, sid, e);
  }

  lemma IconKeeps(t: Store, o: SessionId, added: Edit, sid: SessionId, e: Edit)
    requires Dated(t) && o in t.sessions
    ensures Kept(t, T.SetIcon(t, o, added), sid, e) && Bears(T.SetIcon(t, o, added), o, added)
  {
    var v, u := Mutated(t, o, added), T.SetIcon(t, o, added);
    MutateKeeps(t, o, added, sid, e);
    assert Plainly(v, u) && o in u.sessions;
    hide Bears, Plainly;
    PlainlyKeeps(v, u, sid, e);
    PlainlyKeeps(v, u, o, added);
    KeptTwice(t, v, u, sid, e);
  }

  lemma MoveKeeps(s: State, m: Move, sid: SessionId, e: Edit)
    requires Dated(s.store) && CanMove(s, m)
    ensures Kept(s.store, Moved(s, m).store, sid, e)
  {
    hide Dated, Kept, Bears, Enabled, Next, Plainly, RequestSave;
    match m
    case Does(a) => StepKeeps(s, a, sid, e);
    case Icon(_, o, added) => IconKeeps(s.store, o, added, sid, e);
    case IconsDone(path, o) =>
      RequestPlainly(s.store, path, o, true);
      PlainlyKeeps(s.store, Moved(s, m).store, sid, e);
  }

  lemma InitDated(t: Store)
    requires InitStore(t)
    ensures Dated(t)
  {
  }

  lemma {:induction false} DatedAt(states: seq<State>, moves: seq<Move>, i: nat)
    requires IsIconRun(states, moves) && i < |states|
    ensures Dated(states[i].store)
  {
    hide CanMove, Moved, Dated;
    if i == 0 {
      InitDated(states[0].store);
    } else {
      DatedAt(states, moves, i - 1);
      MoveKeeps(states[i - 1], moves[i - 1], 0, 0);
    }
  }

  // ------------------------------------------------------------------ the theorems

  /** In between anything may happen: while its session is retained, the document has the icon. */
  lemma {:induction false} IconStays(states: seq<State>, moves: seq<Move>, i: nat, j: nat)
    requires IsIconRun(states, moves) && i < j < |states| && moves[i].Icon?
    ensures var sid := moves[i].session;
      && sid < states[j].store.nextSession
      && (sid in states[j].store.sessions ==> Bears(states[j].store, sid, moves[i].edit))
    decreases j
  {
    var sid, e := moves[i].session, moves[i].edit;
    hide CanMove, Moved, Dated, Bears, Init;
    DatedAt(states, moves, j - 1);
    if j == i + 1 {
      IconBegins(states[i], moves[i]);
    } else {
      IconStays(states, moves, i, j - 1);
      BearsOn(states[j - 1], moves[j - 1], sid, e);
    }
  }

  lemma BearsOn(s: State, m: Move, sid: SessionId, e: Edit)
    requires Dated(s.store) && CanMove(s, m)
    requires sid < s.store.nextSession && (sid in s.store.sessions ==> Bears(s.store, sid, e))
    ensures sid < Moved(s, m).store.nextSession
    ensures sid in Moved(s, m).store.sessions ==> Bears(Moved(s, m).store, sid, e)
  {
    hide Moved, Dated, Bears;
    MoveKeeps(s, m, sid, e);
  }

  lemma IconBegins(s: State, m: Move)
    requires Dated(s.store) && m.Icon? && CanMove(s, m)
    ensures m.session < Moved(s, m).store.nextSession && Bears(Moved(s, m).store, m.session, m.edit)
  {
    IconKeeps(s.store, m.session, m.edit, m.session, m.edit);
    hide Bears, T.SetIcon;
  }

  /** A lock, a discard that succeeds, or the callback that completes or serves a waiting lock. */
  ghost predicate LocksAway(s: State, m: Move)
    requires CanMove(s, m)
  {
    m.Does? && (m.action.LockA? || T.Discards(s, m.action) || (m.action.CallbackA? && (Locked(s) || s.lockRequested)))
  }

  lemma AnswerRetains(s: State, path: Path, sid: SessionId, durable: bool, pending: Option<SessionId>, syncAfter: bool)
    requires !Locked(s) && !s.lockRequested
    ensures AfterWriter(s, path, sid, durable, pending, syncAfter).store.sessions.Keys == s.store.sessions.Keys
  {
    var settled := if durable && pending != Some(sid) then s.(store := MarkPersisted(s.store, sid, Locked(s))) else s;
    hide RequestSave;
    if pending.Some? {
      T.RequestSaveKeys(settled.store, path, pending.value, syncAfter);
    }
  }

  lemma CallbackRetains(s: State, id: WriterId)
    requires Finished(s.store, id) && !Locked(s) && !s.lockRequested
    ensures Callback(s, id).store.sessions.Keys == s.store.sessions.Keys
  {
    var t, w := s.store, s.store.writers[id];
    if w.path in t.slots && t.slots[w.path].owner == w.session {
      var released := s.(store := Reported(t, id, true));
      if w.kind.Plain? {
        PlainRetains(released, w, t.slots[w.path]);
        hide PlainDone;
      } else {
        MergeRetains(released, w, t.slots[w.path]);
        hide MergeDone;
      }
    }
  }

  lemma PlainRetains(s: State, w: Writer, slot: Slot)
    requires w.kind.Plain? && !Locked(s) && !s.lockRequested
    ensures PlainDone(s, w, slot).store.sessions.Keys == s.store.sessions.Keys
  {
    var t := SetStatus(s.store, w.path, w.session, StatusAfter(w.outcome));
    assert t.sessions.Keys == s.store.sessions.Keys;
    hide AfterWriter, SetStatus;
    AnswerRetains(s.(store := t), w.path, w.session, w.outcome.Durable?, slot.pending, slot.syncAfter || w.kind.syncAfter);
  }

  lemma MergeRetains(s: State, w: Writer, slot: Slot)
    requires w.kind.Merge? && !Locked(s) && !s.lockRequested
    ensures MergeDone(s, w, slot).store.sessions.Keys == s.store.sessions.Keys
  {
    var t := s.store;
    var saved := RequestSave(t, w.path, w.session, true);
    T.RequestSaveKeys(t, w.path, w.session, true);
    if slot.pending.Some? {
      T.RequestSaveKeys(saved, w.path, slot.pending.value, true);
    }
    StatusRetains(t, w.path, w.session, Failed);
    AnswerRetains(s.(store := SetStatus(t, w.path, w.session, Failed)), w.path, w.session, false, slot.pending, true);
    if AtBase(t, w.path, w.session, w.kind.base) {
      var installed := Install(t, w.session, w.payload);
      assert installed.sessions.Keys == t.sessions.Keys;
      StatusRetains(installed, w.path, w.session, StatusAfter(w.outcome));
      AnswerRetains(s.(store := SetStatus(installed, w.path, w.session, StatusAfter(w.outcome))), w.path, w.session,
                    w.outcome.Durable?, slot.pending, true);
    }
    hide RequestSave, AfterWriter, SetStatus, Install;
  }

  lemma StatusRetains(t: Store, path: Path, sid: SessionId, status: SaveStatus)
    ensures SetStatus(t, path, sid, status).sessions.Keys == t.sessions.Keys
  {
  }

  lemma EditRetains(s: State, added: Edit, syncAfter: bool)
    ensures EditOpen(s, added, syncAfter).store.sessions.Keys == s.store.sessions.Keys
  {
    var t := s.store;
    if s.screen.Open? && s.screen.session in t.sessions && s.screen.session in t.accounts {
      var o := s.screen.session;
      T.RequestSaveKeys(ApplyEdit(t, o, added), t.sessions[o].path, o, syncAfter);
      hide RequestSave;
    }
  }

  lemma SaveRetains(s: State, syncAfter: bool, order: seq<SessionId>)
    ensures SaveAsync(s, syncAfter, order).store.sessions.Keys == s.store.sessions.Keys
  {
    hide RequestSave;
    T.RetryAllSame(s.store, order);
    if s.screen.Open? && s.screen.session in s.store.sessions {
      T.RequestSaveKeys(s.store, s.store.sessions[s.screen.session].path, s.screen.session, syncAfter);
    }
  }

  lemma CommitRetains(s: State, path: Path, sid: SessionId, merged: Database, base: nat, bound: bool)
    ensures CommitMerged(s, path, sid, merged, base, bound).store.sessions.Keys == s.store.sessions.Keys
  {
    T.RequestSaveKeys(s.store, path, sid, true);
    hide RequestSave;
  }

  /** Nothing else takes a session away. */
  lemma OnlyLocksEnd(s: State, m: Move)
    requires CanMove(s, m) && !LocksAway(s, m)
    ensures s.store.sessions.Keys <= Moved(s, m).store.sessions.Keys
  {
    match m
    case Does(a) =>
      if a.CallbackA? {
        CallbackRetains(s, a.writer);
      } else {
        StepRetains(s, a);
      }
    case Icon(_, _, _) =>
    case IconsDone(path, sid) =>
      T.RequestSaveKeys(s.store, path, sid, true);
      hide RequestSave;
  }

  lemma StepRetains(s: State, a: Action)
    requires Enabled(s, a) && !a.LockA? && !T.Discards(s, a) && !a.CallbackA?
    ensures s.store.sessions.Keys <= Next(s, a).store.sessions.Keys
  {
    hide RequestSave;
    match a
    case EditA(added, syncAfter) => EditRetains(s, added, syncAfter);
    case SaveA(syncAfter, order) => SaveRetains(s, syncAfter, order);
    case CommitMergeA(j, merged, bound) =>
      var job := s.store.merges[j];
      CommitRetains(s, job.path, job.session, merged, job.generation, bound);
    case DiscardA(stuck) =>
    case SwitchToA(path) => T.NavigationStore(s, path);
    case RequestPasswordA(path) => T.NavigationStore(s, path);
    case SubmitPasswordA(path) => T.NavigationStore(s, path);
    case RehydrateA => T.NavigationStore(s, "");
    case FailSelectionA => T.NavigationStore(s, "");
    case _ =>
  }

  /** In every run, from the moment an icon arrives: its document has it, or a lock or a
      discard has ended its session since. */
  lemma {:induction false} IconLostOnlyByLock(states: seq<State>, moves: seq<Move>, i: nat, j: nat)
    requires IsIconRun(states, moves) && i < j < |states| && moves[i].Icon?
    ensures var sid := moves[i].session;
      || HasEdit(states[j].store, sid, moves[i].edit)
      || exists k :: i < k < j && sid in states[k].store.sessions && LocksAway(states[k], moves[k])
    decreases j
  {
    var sid, e := moves[i].session, moves[i].edit;
    IconStays(states, moves, i, j);
    if !HasEdit(states[j].store, sid, e) && j > i + 1 {
      IconLostOnlyByLock(states, moves, i, j - 1);
      hide LocksAway, Moved, CanMove, Init;
      if sid in states[j - 1].store.sessions && !LocksAway(states[j - 1], moves[j - 1]) {
        OnlyLocksEnd(states[j - 1], moves[j - 1]);
      }
    }
  }

  /** The request at the end of the download finds the icon: a writer has started that writes
      it, or one is to start when the writer before it has reported. */
  lemma RequestTakesTheIcon(s: State, path: Path, sid: SessionId, e: Edit)
    requires RetainedAt(s.store, path, sid) && HasEdit(s.store, sid, e)
    ensures
      var u := Moved(s, IconsDone(path, sid)).store;
      && sid in u.unpersisted && HasEdit(u, sid, e) && path in u.slots
      && (u.slots[path].pending == Some(sid)
          || (u.slots[path].writer in u.writers && u.writers[u.slots[path].writer].session == sid
              && e in u.writers[u.slots[path].writer].payload))
  {
    MovedAsks(s, path, sid);
    hide Moved;
  }

  lemma MovedAsks(s: State, path: Path, sid: SessionId)
    ensures Moved(s, IconsDone(path, sid)) == s.(store := RequestSave(s.store, path, sid, true))
  {
    hide RequestSave;
  }
}
