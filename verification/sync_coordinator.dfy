/**
 The sync half of the application state as the object it is: fields that the
 methods update in place. The public methods are the steps of `SyncRouting`, and
 a background task comes back through `TaskReturned` alone, so the invariant of
 `SyncRuns` is one that every call keeps: what is bound to a vault is its own, and
 an answer that comes late finds nothing to write to.
 */
module SyncCoordinator {
  import opened Wrappers
  import R = SyncRouting
  import S = SyncRuns
  import A = SyncAnswers

  class SyncState {
    var front: Option<R.Front>
    var sync: Option<R.Binding>
    var syncStatus: R.Status
    var parked: map<R.Path, R.Slot>
    var bindingGenerations: map<R.Path, nat>
    var pendingSync: Option<R.Pending>
    var syncsInFlight: map<R.Path, R.QueuedSync>
    var pushesAwaitingRestore: map<R.Path, R.Request>
    /** The remote revision a conflict waits for the user about. */
    var deferredConflicts: map<R.Path, nat>
    var remoteKdfConfirmations: map<R.Path, nat>
    /** The newest decryption of a remote, by vault. */
    var remoteMergesInFlight: map<R.Path, nat>
    /** The vaults that the timer is looking after at present. */
    var autoSyncInFlight: set<R.Path>
    var nextSession: nat
    /** The background work under way. */
    var tasks: map<nat, R.Task>
    var nextTask: nat

    ghost function View(): R.State
      reads this
    {
      R.State(front, sync, syncStatus, parked, bindingGenerations, pendingSync, syncsInFlight, pushesAwaitingRestore,
              R.Notices(deferredConflicts, remoteKdfConfirmations, remoteMergesInFlight, autoSyncInFlight),
              nextSession, tasks, nextTask)
    }

    ghost predicate Valid()
      reads this
    {
      S.Inv(View())
    }

    /** A step taken from a state in order leaves one in order. */
    lemma Stepped(before: R.State, step: R.Step)
      requires S.Inv(before) && R.Enabled(before, step) && View() == R.Do(before, step)
      ensures Valid()
    {
      S.StepKeepsInv(before, step);
    }

    constructor ()
      ensures Valid() && View() == R.START
    {
      S.StartOk();
      deferredConflicts, remoteKdfConfirmations, remoteMergesInFlight, autoSyncInFlight := map[], map[], map[], {};
      front, sync, syncStatus, parked, bindingGenerations := None, None, R.Disconnected, map[], map[];
      pendingSync, syncsInFlight, pushesAwaitingRestore := None, map[], map[];
      nextSession, tasks, nextTask := 0, map[], 0;
    }

    predicate IsActiveVault(target: R.Path)
      reads this
      ensures IsActiveVault(target) == R.IsActive(View(), target)
    {
      front.Some? && front.value.path == target
    }

    function BindingGenerationFor(target: R.Path): (g: nat)
      reads this
      ensures g == R.GenerationOf(View(), target)
    {
      if target in bindingGenerations then bindingGenerations[target] else 0
    }

    function VaultSessionIdFor(target: R.Path): (id: Option<nat>)
      reads this
      ensures id.Some? == R.SlotAt(View(), target).Some?
      ensures id.Some? ==> id.value == R.SlotAt(View(), target).value.session
    {
      if IsActiveVault(target) then Some(front.value.session)
      else if target in parked then Some(parked[target].session)
      else None
    }

    function SyncSessionFor(target: R.Path): (session: Option<R.SyncSession>)
      reads this
      ensures session == R.SessionFor(View(), target)
    {
      match VaultSessionIdFor(target)
      case None => None
      case Some(id) => Some(R.SyncSession(id, BindingGenerationFor(target)))
    }

    predicate SyncSessionIsCurrent(target: R.Path, session: R.SyncSession)
      reads this
      ensures SyncSessionIsCurrent(target, session) == R.IsCurrent(View(), target, session)
    {
      session.binding == BindingGenerationFor(target) && VaultSessionIdFor(target) == Some(session.vault)
    }

    predicate HasSyncBindingFor(target: R.Path)
      reads this
      ensures HasSyncBindingFor(target) == R.HasBinding(View(), target)
    {
      if IsActiveVault(target) then sync.Some? else target in parked && parked[target].sync.Some?
    }

    /** What a push takes along. It is the configuration of this very vault, whichever
        vaults the user has been through since it was bound. */
    function SnapshotSyncInputs(target: R.Path): (inputs: Option<R.Binding>)
      reads this
      ensures inputs.Some? <==> R.HasBinding(View(), target)
      ensures Valid() && inputs.Some? ==> inputs.value.owner == target
    {
      assert Valid() ==> S.SlotOk(View(), target);
      if IsActiveVault(target) then sync else if target in parked then parked[target].sync else None
    }

    // -------------------------------------------------------------- routed writes

    method RouteSyncStatus(target: R.Path, status: R.Status) returns (repaint: bool)
      modifies this
      ensures View() == R.SetStatus(old(View()), target, status)
      ensures repaint == R.IsActive(old(View()), target)
    {
      ClearNotices(target, status);
      if IsActiveVault(target) {
        syncStatus := status;
        return true;
      }
      if target in parked {
        parked := parked[target := parked[target].(status := status)];
      }
      return false;
    }

    method ClearNotices(target: R.Path, status: R.Status)
      modifies this`remoteKdfConfirmations, this`remoteMergesInFlight, this`deferredConflicts
      ensures View() == old(View()).(notices := R.Cleared(old(View()).notices, target, status))
    {
      if R.Settles(status) {
        remoteKdfConfirmations := remoteKdfConfirmations - {target};
        remoteMergesInFlight := remoteMergesInFlight - {target};
      }
      if status != R.Failed {
        deferredConflicts := deferredConflicts - {target};
      }
    }

    method RouteSyncStatusForSession(target: R.Path, session: R.SyncSession, status: R.Status)
      modifies this
      ensures View() == R.RouteStatus(old(View()), target, session, status)
    {
      if SyncSessionIsCurrent(target, session) {
        var _ := RouteSyncStatus(target, status);
      }
    }

    method RebindSync(target: R.Path, binding: R.Binding) returns (found: bool)
      modifies this
      ensures View() == R.PutBinding(old(View()), target, binding)
      ensures found == R.SlotAt(old(View()), target).Some?
    {
      if IsActiveVault(target) {
        sync := Some(binding);
        return true;
      } else if target in parked {
        parked := parked[target := parked[target].(sync := Some(binding))];
        return true;
      }
      return false;
    }

    method RebindSyncForSession(target: R.Path, session: R.SyncSession, binding: R.Binding) returns (bound: bool)
      modifies this
      ensures View() == R.RebindSync(old(View()), target, session, binding)
      ensures bound == R.IsCurrent(old(View()), target, session)
    {
      bound := false;
      if SyncSessionIsCurrent(target, session) {
        bound := RebindSync(target, binding);
      }
    }

    method WithSyncBindingForSession(target: R.Path, session: R.SyncSession, change: R.Binding -> R.Binding)
      modifies this
      ensures View() == R.UpdateBinding(old(View()), target, session, change)
    {
      if SyncSessionIsCurrent(target, session) {
        if IsActiveVault(target) {
          if sync.Some? {
            sync := Some(change(sync.value));
          }
        } else if target in parked && parked[target].sync.Some? {
          parked := parked[target := parked[target].(sync := Some(change(parked[target].sync.value)))];
        }
      }
    }

    // ------------------------------------------------------------- the user's steps

    method ParkActive()
      modifies this
      ensures View() == R.Park(old(View()))
    {
      if front.Some? {
        var f := front.value;
        parked := parked[f.path := R.Slot(f.session, sync, syncStatus)];
        front, sync, syncStatus := None, None, R.Disconnected;
      }
    }

    method Unpark(path: R.Path) returns (found: bool)
      modifies this
      ensures View() == R.Unpark(old(View()), path) && found == (path in old(parked))
    {
      if path !in parked {
        return false;
      }
      var slot := parked[path];
      parked := parked - {path};
      front, sync, syncStatus := Some(R.Front(path, slot.session)), slot.sync, slot.status;
      return true;
    }

    method SwitchToUnlocked(path: R.Path) returns (known: bool)
      requires Valid()
      modifies this
      ensures Valid() && View() == R.SwitchTo(old(View()), path)
      ensures known == R.SlotAt(old(View()), path).Some?
    {
      hide S.Inv, R.SwitchTo;
      known := BringForward(path);
      Stepped(old(View()), R.DoSwitch(path));
    }

    method BringForward(path: R.Path) returns (known: bool)
      modifies this
      ensures View() == R.SwitchTo(old(View()), path)
      ensures known == R.SlotAt(old(View()), path).Some?
    {
      if IsActiveVault(path) {
        return true;
      }
      if path !in parked {
        return false;
      }
      ParkActive();
      known := Unpark(path);
    }

    method RequestPassword(path: R.Path)
      requires Valid()
      modifies this
      ensures Valid() && View() == R.RequestPassword(old(View()), path)
    {
      hide S.Inv, R.RequestPassword;
      AskPassword(path);
      Stepped(old(View()), R.DoRequestPassword(path));
    }

    method AskPassword(path: R.Path)
      modifies this
      ensures View() == R.RequestPassword(old(View()), path)
    {
      var known := BringForward(path);
      if known {
        return;
      }
      if pendingSync.Some? && pendingSync.value.path != path {
        pendingSync := None;
      }
      ParkActive();
    }

    /** The connect dialog has downloaded a file: its binding waits for the unlock. */
    method Connected(pending: R.Pending)
      requires Valid() && pending.binding.owner == pending.path
      modifies this
      ensures Valid() && View() == R.Connected(old(View()), pending)
    {
      hide S.Inv, R.RequestPassword;
      pendingSync := Some(pending);
      AskPassword(pending.path);
      Stepped(old(View()), R.DoConnected(pending));
    }

    method RehydrateMostRecentPark(path: R.Path)
      requires Valid() && front.None? && path in parked
      modifies this
      ensures Valid() && View() == R.Rehydrate(old(View()), path)
    {
      hide S.Inv, R.Unpark;
      pendingSync := None;
      front, sync, syncStatus := None, None, R.Disconnected;
      var _ := Unpark(path);
      Stepped(old(View()), R.DoRehydrate(path));
    }

    /** `disconnect_sync`, up to the cleanup on disk. */
    method DisconnectSync()
      requires Valid()
      modifies this
      ensures Valid() && View() == R.EndRelationship(old(View()))
    {
      hide S.Inv, R.EndRelationship;
      EndSyncRelationship();
      Stepped(old(View()), R.DoDisconnect);
    }

    method ForgetNotices(target: R.Path)
      modifies this`deferredConflicts, this`remoteKdfConfirmations, this`remoteMergesInFlight
      ensures
        var n := old(View()).notices;
        View() == old(View()).(notices := R.Notices(
          n.deferred - {target}, n.costs - {target}, n.merging - {target}, n.polling))
    {
      deferredConflicts := deferredConflicts - {target};
      remoteKdfConfirmations := remoteKdfConfirmations - {target};
      remoteMergesInFlight := remoteMergesInFlight - {target};
    }

    method EndSyncRelationship()
      modifies this
      ensures View() == R.EndRelationship(old(View()))
    {
      sync := None;
      if front.Some? {
        ForgetNotices(front.value.path);
        bindingGenerations := bindingGenerations[front.value.path := BindingGenerationFor(front.value.path) + 1];
      }
      syncStatus := R.Disconnected;
    }

    method LockAll(waiting: bool)
      requires Valid()
      modifies this
      ensures Valid() && View() == R.LockAll(old(View()), waiting)
    {
      hide S.Inv;
      ForgetAll(waiting);
      Stepped(old(View()), R.DoLock(waiting));
    }

    method ForgetAll(waiting: bool)
      modifies this
      ensures View() == R.LockAll(old(View()), waiting)
    {
      front, sync, syncStatus, parked := None, None, R.Disconnected, map[];
      ForgetRequests(waiting);
    }

    method ForgetRequests(waiting: bool)
      modifies this`pendingSync, this`pushesAwaitingRestore, this`deferredConflicts, this`syncsInFlight, this`autoSyncInFlight
      ensures View() == old(View()).(pendingSync := None, awaiting := map[],
        notices := old(View()).notices.(deferred := map[], polling := if waiting then {} else old(autoSyncInFlight)),
        inFlight := if waiting then map[] else old(syncsInFlight))
    {
      pendingSync, pushesAwaitingRestore, deferredConflicts := None, map[], map[];
      if waiting {
        syncsInFlight, autoSyncInFlight := map[], {};
      }
    }

    /** Without a configuration for the vault in front there is nothing to sign in for. */
    method StartSharePointReconnect(hasConfig: bool)
      requires Valid()
      modifies this
      ensures Valid()
      ensures View() == if old(front).None? then old(View())
                        else if hasConfig then old(View()).(status := R.Connecting)
                        else R.ReconnectFails(old(View()))
    {
      hide S.Inv;
      if front.None? {
        return;
      }
      if hasConfig {
        StartICloudConnect();
        return;
      }
      syncStatus := R.Failed;
      Stepped(old(View()), R.DoReconnectFails);
    }

    /** The connect dialog shows its progress in the status of what is in front. */
    method StartICloudConnect()
      requires Valid()
      modifies this
      ensures Valid() && View() == old(View()).(status := R.Connecting)
    {
      hide S.Inv;
      syncStatus := R.Connecting;
      Stepped(old(View()), R.DoShowConnecting);
    }

    method UnwindConnectFlow()
      requires Valid()
      modifies this
      ensures Valid() && View() == R.Unwind(old(View()))
    {
      hide S.Inv;
      if syncStatus == R.Connecting || syncStatus == R.Failed {
        syncStatus := if sync.Some? then R.Idle else R.Disconnected;
      }
      Stepped(old(View()), R.DoUnwind);
    }

    method Dispatch(kind: R.Kind, target: R.Path, session: R.SyncSession, interactive: bool)
      modifies this
      ensures View() == R.NewTask(old(View()), kind, target, session, interactive)
    {
      tasks := tasks[nextTask := R.Task(kind, target, session, interactive)];
      nextTask := nextTask + 1;
    }

    method TryRestoreSyncBinding(hasConfig: bool)
      modifies this
      ensures View() == R.TryRestore(old(View()), hasConfig)
    {
      if front.None? || sync.Some? || !hasConfig {
        return;
      }
      var path := front.value.path;
      var session := R.SyncSession(front.value.session, BindingGenerationFor(path));
      RouteSyncStatusForSession(path, session, R.Restoring);
      Dispatch(R.Restore, path, session, false);
    }

    method RetrySyncRestore(hasConfig: bool)
      requires Valid()
      modifies this
      ensures Valid() && View() == R.TryRestore(old(View()), hasConfig)
    {
      hide S.Inv, R.TryRestore;
      TryRestoreSyncBinding(hasConfig);
      Stepped(old(View()), R.DoRetryRestore(hasConfig));
    }

    method FinishOpenAttempt(path: R.Path, hasConfig: bool)
      requires Valid() && front.None? && path !in parked
      modifies this
      ensures Valid() && View() == R.Opened(old(View()), path, hasConfig)
    {
      hide S.Inv, R.Opened;
      InstallOpened(path, hasConfig);
      Stepped(old(View()), R.DoOpened(path, hasConfig));
    }

    method InstallOpened(path: R.Path, hasConfig: bool)
      modifies this
      ensures View() == R.Opened(old(View()), path, hasConfig)
    {
      hide R.TryRestore;
      front := Some(R.Front(path, nextSession));
      nextSession := nextSession + 1;
      if pendingSync.Some? && pendingSync.value.path == path {
        sync, syncStatus, pendingSync := Some(pendingSync.value.binding), R.Idle, None;
        return;
      }
      TryRestoreSyncBinding(hasConfig);
    }

    // ------------------------------------------------------------------- pushes

    /** The user's button, and the push that follows a save. */
    method SyncNowForPath(target: R.Path, interactive: bool, bytes: Option<R.Bytes>, hasConfig: bool)
      requires Valid()
      modifies this
      ensures Valid()
      ensures View() == match R.SessionFor(old(View()), target)
                        case None => old(View())
                        case Some(session) => R.SyncNow(old(View()), target, R.Request(session, interactive, bytes), hasConfig)
    {
      hide S.Inv, R.SyncNow;
      var session := SyncSessionFor(target);
      if session.Some? {
        SyncNowForPathInner(target, R.Request(session.value, interactive, bytes), hasConfig);
        Stepped(old(View()), R.DoSync(target, interactive, bytes, hasConfig));
      }
    }

    method SyncNowForPathInner(target: R.Path, request: R.Request, hasConfig: bool)
      modifies this
      ensures View() == R.SyncNow(old(View()), target, request, hasConfig)
    {
      if !SyncSessionIsCurrent(target, request.session) {
        return;
      }
      if target in syncsInFlight {
        syncsInFlight := syncsInFlight[target := R.Queue(syncsInFlight[target], request)];
        return;
      }
      var inputs := SnapshotSyncInputs(target);
      if inputs.None? {
        if IsActiveVault(target) {
          pushesAwaitingRestore := pushesAwaitingRestore[target := request];
          TryRestoreSyncBinding(hasConfig);
        }
        return;
      }
      syncsInFlight := syncsInFlight[target := R.QueuedSync(request.session, None)];
      RouteSyncStatusForSession(target, request.session, R.Syncing);
      Dispatch(R.Push, target, request.session, request.interactive);
    }

    method StartQueuedSync(target: R.Path, pending: Option<R.Request>, hasConfig: bool)
      modifies this
      ensures View() == R.StartQueued(old(View()), target, pending, hasConfig)
    {
      if pending.Some? {
        SyncNowForPathInner(target, pending.value, hasConfig);
      }
    }

    /** The timer's look at one vault. */
    method AutoSyncForPath(target: R.Path, overlay: bool, throttled: bool, ahead: bool, hasConfig: bool)
      requires Valid()
      modifies this
      ensures Valid() && View() == R.Poll(old(View()), target, overlay, throttled, ahead, hasConfig)
    {
      hide S.Inv, R.Poll;
      Look(target, overlay, throttled, ahead, hasConfig);
      Stepped(old(View()), R.DoPoll(target, overlay, throttled, ahead, hasConfig));
    }

    method Look(target: R.Path, overlay: bool, throttled: bool, ahead: bool, hasConfig: bool)
      modifies this
      ensures View() == R.Poll(old(View()), target, overlay, throttled, ahead, hasConfig)
    {
      hide R.SyncNow;
      var session := SyncSessionFor(target);
      if session.None? {
        return;
      }
      var status := if IsActiveVault(target) then syncStatus else parked[target].status;
      if R.Busy(status) || overlay {
        return;
      }
      if target in autoSyncInFlight || target in remoteMergesInFlight {
        return;
      }
      if status == R.Failed && target !in deferredConflicts {
        if !throttled {
          SyncNowForPathInner(target, R.Request(session.value, false, None), hasConfig);
        }
        return;
      }
      var inputs := SnapshotSyncInputs(target);
      if inputs.None? {
        return;
      }
      if ahead {
        SyncNowForPathInner(target, R.Request(session.value, false, None), hasConfig);
        return;
      }
      autoSyncInFlight := autoSyncInFlight + {target};
      Dispatch(R.Pull, target, session.value, false);
    }

    /** Copy the vault in front to iCloud Drive, if it is not synced yet. */
    method PublishActiveToICloud() returns (started: bool)
      requires Valid()
      modifies this
      ensures Valid()
      ensures started <==> old(front).Some? && old(sync).None?
      ensures View() == if started then R.Start(old(View()), R.Publish, old(front).value.path) else old(View())
    {
      hide S.Inv;
      if front.None? || sync.Some? {
        return false;
      }
      var path := front.value.path;
      Dispatch(R.Publish, path, R.SyncSession(front.value.session, BindingGenerationFor(path)), false);
      Stepped(old(View()), R.DoStart(R.Publish, path));
      return true;
    }

    /** Signed in again: the binding is made anew in the background. */
    method FinishReconnect(target: R.Path) returns (started: bool)
      requires Valid()
      modifies this
      ensures Valid()
      ensures started <==> R.SessionFor(old(View()), target).Some?
      ensures View() == if started then R.Start(old(View()), R.Rebind, target) else old(View())
    {
      hide S.Inv, R.SetStatus;
      var session := SyncSessionFor(target);
      if session.None? {
        return false;
      }
      var _ := RouteSyncStatus(target, R.Connecting);
      Dispatch(R.Rebind, target, session.value, false);
      Stepped(old(View()), R.DoStart(R.Rebind, target));
      return true;
    }

    // ------------------------------------------------------------------- merges

    /** The first half: the remote is decrypted in the background. */
    method HandleRemoteConflict(target: R.Path, session: R.SyncSession, interactive: bool)
      modifies this
      ensures View() == R.StartMerge(old(View()), target, session, interactive)
    {
      if !SyncSessionIsCurrent(target, session) || !HasSyncBindingFor(target) {
        return;
      }
      remoteMergesInFlight := remoteMergesInFlight[target := nextTask];
      Dispatch(R.Decrypt, target, session, interactive);
    }

    /** A decryption comes back: it counts only while its token does. */
    method RemoteDecrypted(id: nat, t: R.Task, answer: R.Answer)
      modifies this
      ensures View() == R.DecryptAnswered(old(View()), id, t, answer)
    {
      hide R.ContinueMerge;
      if t.path !in remoteMergesInFlight || remoteMergesInFlight[t.path] != id {
        return;
      }
      remoteMergesInFlight := remoteMergesInFlight - {t.path};
      if !SyncSessionIsCurrent(t.path, t.session) || !HasSyncBindingFor(t.path) {
        return;
      }
      ContinueRemoteConflict(t, answer);
    }

    method ContinueRemoteConflict(t: R.Task, answer: R.Answer)
      modifies this
      ensures View() == R.ContinueMerge(old(View()), t, answer)
    {
      hide R.RouteStatus, R.CommitMerge, R.ConflictFound;
      match answer
      case Unreadable(cost) =>
        if cost.Some? {
          remoteKdfConfirmations := remoteKdfConfirmations[t.path := cost.value];
        }
        RouteSyncStatusForSession(t.path, t.session, R.Failed);
      case Blocked =>
        remoteKdfConfirmations := remoteKdfConfirmations - {t.path};
        RouteSyncStatusForSession(t.path, t.session, R.Failed);
      case Conflicting(etag, editing) =>
        remoteKdfConfirmations := remoteKdfConfirmations - {t.path};
        AskOrDefer(t, etag, editing);
      case Merged(stale) =>
        remoteKdfConfirmations := remoteKdfConfirmations - {t.path};
        CommitMergedFor(t.path, t.session, stale);
      case _ =>
    }

    method AskOrDefer(t: R.Task, etag: nat, editing: bool)
      modifies this
      ensures View() == R.ConflictFound(old(View()), t, etag, editing)
    {
      hide R.RouteStatus;
      if IsActiveVault(t.path) && t.interactive && !editing {
        deferredConflicts := deferredConflicts - {t.path};
        RouteSyncStatusForSession(t.path, t.session, R.Conflicted(t.session));
      } else {
        deferredConflicts := deferredConflicts[t.path := etag];
        RouteSyncStatusForSession(t.path, t.session, R.Failed);
      }
    }

    method CommitMergedFor(target: R.Path, session: R.SyncSession, stale: bool)
      modifies this
      ensures View() == R.CommitMerge(old(View()), target, session, stale)
    {
      hide R.RouteStatus;
      if !SyncSessionIsCurrent(target, session) || !HasSyncBindingFor(target) {
        return;
      }
      RouteSyncStatusForSession(target, session, R.Syncing);
      if !stale {
        Dispatch(R.Commit, target, session, false);
      }
    }

    /** The user's picks are in: merge by them and commit. */
    method ApplyConflictResolution(blocked: bool, stale: bool)
      requires Valid()
      modifies this
      ensures Valid() && View() == R.Resolve(old(View()), blocked, stale)
    {
      hide S.Inv, R.RouteStatus, R.CommitMerge;
      if front.Some? && syncStatus.Conflicted? {
        var path, session := front.value.path, syncStatus.session;
        if SyncSessionIsCurrent(path, session) {
          if blocked {
            RouteSyncStatusForSession(path, session, R.Failed);
          } else {
            CommitMergedFor(path, session, stale);
          }
        }
      }
      Stepped(old(View()), R.DoResolve(blocked, stale));
    }

    method TakeRemoteKdfConfirmation() returns (cost: Option<nat>)
      requires Valid()
      modifies this
      ensures Valid() && View() == R.TakeCost(old(View()))
      ensures cost == if old(front).Some? then R.Look(old(View()).notices.costs, old(front).value.path) else None
    {
      hide S.Inv;
      cost := None;
      if front.Some? {
        cost := R.Look(remoteKdfConfirmations, front.value.path);
        remoteKdfConfirmations := remoteKdfConfirmations - {front.value.path};
      }
      Stepped(old(View()), R.DoTakeCost);
    }

    /** The local half of a merge is on disk, or is not. */
    method MergeCommitted(t: R.Task, answer: R.Answer)
      modifies this
      ensures View() == R.CommitAnswered(old(View()), t, answer)
    {
      hide R.RouteStatus, R.UpdateBinding;
      match answer
      case FastForward(etag, revision) =>
        WithSyncBindingForSession(t.path, t.session, R.WithBaseline(etag, revision));
        RouteSyncStatusForSession(t.path, t.session, R.Synced);
      case Written =>
        if SyncSessionIsCurrent(t.path, t.session) {
          Dispatch(R.Upload, t.path, t.session, false);
        }
      case GoneWrong(status) => RouteSyncStatusForSession(t.path, t.session, status);
      case _ =>
    }

    method RecordUpload(target: R.Path, session: R.SyncSession, token: nat, etag: nat, revision: nat)
      modifies this
      ensures View() == R.Uploaded(old(View()), target, session, token, etag, revision)
    {
      hide R.RouteStatus, R.UpdateBinding;
      WithSyncBindingForSession(target, session, R.WithToken(token));
      WithSyncBindingForSession(target, session, R.WithBaseline(etag, revision));
      RouteSyncStatusForSession(target, session, R.Synced);
    }

    /** The upload of a merge: a third device may have written meanwhile. */
    method MergeUploaded(t: R.Task, answer: R.Answer)
      modifies this
      ensures View() == R.UploadAnswered(old(View()), t, answer)
    {
      hide R.RouteStatus, R.UpdateBinding, R.Uploaded, R.StartMerge;
      match answer
      case Sent(token, etag, revision) => RecordUpload(t.path, t.session, token, etag, revision);
      case Refused(token) =>
        WithSyncBindingForSession(t.path, t.session, R.WithToken(token));
        RouteSyncStatusForSession(t.path, t.session, R.Syncing);
        HandleRemoteConflict(t.path, t.session, true);
      case GoneWrong(status) => RouteSyncStatusForSession(t.path, t.session, status);
      case _ =>
    }

    /** The callback of a push: only the owner of the vault's place in the queue gives it up. */
    method PushReturned(t: R.Task, answer: R.Answer, hasConfig: bool)
      modifies this
      ensures View() == R.PushAnswered(old(View()), t, answer, hasConfig)
    {
      hide R.OwnPushAnswered;
      if t.path !in syncsInFlight {
        return;
      }
      var queued := syncsInFlight[t.path];
      if queued.owner != t.session {
        return;
      }
      syncsInFlight := syncsInFlight - {t.path};
      OwnPushReturned(t, queued.pending, answer, hasConfig);
    }

    method OwnPushReturned(t: R.Task, pending: Option<R.Request>, answer: R.Answer, hasConfig: bool)
      modifies this
      ensures View() == R.OwnPushAnswered(old(View()), t, pending, answer, hasConfig)
    {
      hide R.RouteStatus, R.UpdateBinding, R.Uploaded, R.StartMerge, R.StartQueued;
      if !SyncSessionIsCurrent(t.path, t.session) {
        StartQueuedSync(t.path, pending, hasConfig);
        return;
      }
      match answer
      case Sent(token, etag, revision) =>
        RecordUpload(t.path, t.session, token, etag, revision);
        StartQueuedSync(t.path, pending, hasConfig);
      case Refused(token) =>
        var interactive := t.interactive
          || (pending.Some? && pending.value.session == t.session && pending.value.interactive);
        WithSyncBindingForSession(t.path, t.session, R.WithToken(token));
        HandleRemoteConflict(t.path, t.session, interactive);
      case GoneWrong(status) => RouteSyncStatusForSession(t.path, t.session, status);
      case _ =>
    }

    // ------------------------------------------------------------ the other answers

    method ReplayPushAwaitingRestore(restored: R.Path, hasConfig: bool)
      modifies this
      ensures View() == R.ReplayAwaiting(old(View()), restored, hasConfig)
    {
      if restored in pushesAwaitingRestore {
        var request := pushesAwaitingRestore[restored];
        pushesAwaitingRestore := pushesAwaitingRestore - {restored};
        if SyncSessionIsCurrent(restored, request.session) {
          SyncNowForPathInner(restored, request, hasConfig);
        }
      }
    }

    method FinishSyncBindingRestore(t: R.Task, answer: R.Answer, hasConfig: bool)
      modifies this
      ensures View() == R.RestoreAnswered(old(View()), t, answer, hasConfig)
    {
      match answer
      case Bound(binding) =>
        var bound := RebindSyncForSession(t.path, t.session, binding);
        if !bound {
          return;
        }
        RouteSyncStatusForSession(t.path, t.session, R.Idle);
        ReplayPushAwaitingRestore(t.path, hasConfig);
      case GoneWrong(status) => RouteSyncStatusForSession(t.path, t.session, status);
      case _ => RouteSyncStatusForSession(t.path, t.session, R.Disconnected);
    }

    method PullReturned(t: R.Task, answer: R.Answer)
      modifies this
      ensures View() == R.PullAnswered(old(View()), t, answer)
    {
      hide R.PullApplied;
      autoSyncInFlight := autoSyncInFlight - {t.path};
      ApplyPull(t, answer);
    }

    method ApplyPull(t: R.Task, answer: R.Answer)
      modifies this
      ensures View() == R.PullApplied(old(View()), t, answer)
    {
      hide R.RouteStatus, R.UpdateBinding, R.StartMerge;
      if !SyncSessionIsCurrent(t.path, t.session) || !HasSyncBindingFor(t.path) {
        return;
      }
      var status := if IsActiveVault(t.path) then syncStatus else parked[t.path].status;
      var resting, waiting := status in {R.Idle, R.Synced}, t.path in deferredConflicts;
      match answer
      case UpToDate(token) =>
        WithSyncBindingForSession(t.path, t.session, R.WithToken(token));
        if resting && !waiting {
          RouteSyncStatusForSession(t.path, t.session, R.Synced);
        }
      case RemoteAhead(token) =>
        WithSyncBindingForSession(t.path, t.session, R.WithToken(token));
        if resting || waiting {
          HandleRemoteConflict(t.path, t.session, false);
        }
      case GoneWrong(Reconnect) => RouteSyncStatusForSession(t.path, t.session, R.Reconnect);
      case _ =>
    }

    method ApplyICloudPublishResult(t: R.Task, answer: R.Answer, gateIsCurrent: bool)
      modifies this
      ensures View() == R.PublishAnswered(old(View()), t, answer, gateIsCurrent)
    {
      var current := gateIsCurrent && SyncSessionIsCurrent(t.path, t.session);
      if !current {
        return;
      }
      match answer
      case Bound(binding) =>
        var bound := RebindSyncForSession(t.path, t.session, binding);
        if bound {
          RouteSyncStatusForSession(t.path, t.session, R.Idle);
        }
      case GoneWrong(_) => RouteSyncStatusForSession(t.path, t.session, R.Failed);
      case _ =>
    }

    method ReconnectReturned(t: R.Task, answer: R.Answer, gateIsCurrent: bool, hasConfig: bool)
      modifies this
      ensures View() == R.ReconnectAnswered(old(View()), t, answer, gateIsCurrent, hasConfig)
    {
      if !gateIsCurrent || !SyncSessionIsCurrent(t.path, t.session) {
        return;
      }
      match answer
      case Bound(binding) =>
        var bound := RebindSyncForSession(t.path, t.session, binding);
        if bound {
          RouteSyncStatusForSession(t.path, t.session, R.Idle);
          SyncNowForPathInner(t.path, R.Request(t.session, true, None), hasConfig);
        }
      case GoneWrong(_) => RouteSyncStatusForSession(t.path, t.session, R.Reconnect);
      case _ =>
    }

    // ------------------------------------------------------------ every answer

    /** The one way back from the background: the work is over, and its answer touches the
        vault it was asked for and no other, and no binding once its session has ended. */
    method TaskReturned(id: nat, answer: R.Answer, gateIsCurrent: bool, hasConfig: bool)
      requires Valid() && id in tasks && R.CanAnswer(tasks[id], answer)
      modifies this
      ensures Valid() && View() == R.Answered(old(View()), id, answer, gateIsCurrent, hasConfig)
      ensures
        var t := old(tasks)[id];
        && R.OnlyAt(old(View()), View(), t.path)
        && (!R.IsCurrent(old(View()), t.path, t.session) ==> R.SameBindingAt(old(View()), View(), t.path))
        && (A.InTime(old(View()), id, gateIsCurrent) ==>
              && R.SlotAt(A.WithoutTask(old(View()), id), t.path).Some?
              && A.Leaves(A.WithoutTask(old(View()), id), t, answer, View()))
    {
      if A.InTime(View(), id, gateIsCurrent) {
        A.AnswerWrites(View(), id, answer, gateIsCurrent, hasConfig);
      }
      hide A.InTime, A.Leaves, R.SlotAt, S.Inv, R.Dispatched, R.CanAnswer, R.OnlyAt, R.SameBindingAt, R.IsCurrent;
      R.AnswerStaysAtItsSession(View(), id, answer, gateIsCurrent, hasConfig);
      var t := tasks[id];
      tasks := tasks - {id};
      HandOver(id, t, answer, gateIsCurrent, hasConfig);
      Stepped(old(View()), R.DoAnswer(id, answer, gateIsCurrent, hasConfig));
    }

    method HandOver(id: nat, t: R.Task, answer: R.Answer, gateIsCurrent: bool, hasConfig: bool)
      modifies this
      ensures View() == R.Dispatched(old(View()), id, t, answer, gateIsCurrent, hasConfig)
    {
      hide R.RestoreAnswered, R.PushAnswered, R.PullAnswered, R.DecryptAnswered, R.CommitAnswered, R.UploadAnswered,
        R.PublishAnswered, R.ReconnectAnswered;
      match t.kind
      case Restore => FinishSyncBindingRestore(t, answer, hasConfig);
      case Push => PushReturned(t, answer, hasConfig);
      case Pull => PullReturned(t, answer);
      case Decrypt => RemoteDecrypted(id, t, answer);
      case Commit => MergeCommitted(t, answer);
      case Upload => MergeUploaded(t, answer);
      case Publish => ApplyICloudPublishResult(t, answer, gateIsCurrent);
      case Rebind => ReconnectReturned(t, answer, gateIsCurrent, hasConfig);
    }
  }
}
