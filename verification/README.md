# FerrisPass: the vault-session protocol and its algorithms, verified

FerrisPass is a desktop KeePass client. One foreground thread opens, parks,
switches, locks and discards vaults while background tasks read, save, merge
and sync them. This project models that coordinator and the compact algorithms
around it, and proves what users rely on.

* **Saving, merging and locking.** `save_protocol.dfy` is the transition system
  of the coordinator: foreground calls and completion callbacks are atomic,
  background writers advance between any two of them, and a document is a
  generation and the log of its edits. `save_invariant.dfy` proves an invariant
  of every step, `save_theorems.dfy` what follows for whole runs: no accepted
  edit is lost, discard and publish exclude each other, one live writer a path,
  a waiting lock hides everything and completes with the last save.
  `save_commits.dfy` follows a committed merge to the disk; `save_steps.dfy` tells
  what each save, its callback, a lock and a discard leave, and that an asked sync
  outlives coalescing; `save_screens.dfy` is about what is in front.
  `save_progress.dfy` bounds how long saving can take, and with it a waiting lock;
  `save_icons.dfy` adds favicon downloads to the runs.
  `app_state.dfy` is the coordinator as the object it is, with the program's
  fields: each public call, and each step of a background task, is proved to be
  an action of the protocol and makes the history the object carries longer by it,
  so that every theorem about runs is one about the object.
* **Sync routing.** `sync_routing.dfy` and `sync_runs.dfy` say where late answers
  of sync work end up over any run of parking, locking, disconnecting,
  reconnecting, polling and merging; `sync_answers.dfy` and `sync_books.dfy` say
  what each answer leaves, in time or too late, and `sync_steps.dfy` the same of
  each call; `sync_notices.dfy` is about conflicts that wait and polls under way;
  `sync_coordinator.dfy` is the same state updated in place, with an invariant
  that every call keeps.
* **Two lock protocols under all interleavings.** `connect_gate.dfy` (a generation,
  a pending count, a mutex and a condition variable) and `cancellation.dfy` (a
  flag and a gate); `typer.dfy` is the typing loop against a window, a clock and a
  user that do as they like.
* **Algorithms.** `auto_type_sequence.dfy` and `auto_type_grammar.dfy` (templates
  and their spelling), `window_matcher.dfy` (wildcards and the choice of an entry),
  `edit_distance.dfy` (typo search), `variant_dictionary.dfy`, `kdbx_limits.dfy` and
  `kdbx_verdicts.dfy` (file headers, the gate on key-derivation cost, and the verdict
  on any file built field by field), `vault_snapshot.dfy`, `vault_tree.dfy` and `tag_rows.dfy`
  (building the tree, walking it, and sidebar rows), `merge_resolutions.dfy` (the
  command line's merge answers).

Where the code does less than one would expect, the exact condition is proved:

* An icon downloaded while its vault is being saved marks the session dirty
  without queueing a save; the mark outlives the save if and only if another
  save is queued or the save is a merge's (`IconSurvivesRunningSave`), and a run
  from a fresh program leads to where it does not (`IconMarkCanBeLost`). Until the
  download asks for its save, an icon is lost only with its session
  (`IconLostOnlyByLock`).
* The wildcard scan tests literal equality before `*`, so `*` does not match
  `*a`; texts, and patterns, are matched correctly by all counterparts if and
  only if they hold no `*`.
* Tag rows fold case as Unicode does and selection folds ASCII case only; a row
  counts what it lists if and only if its entries carry an ASCII-equal spelling.
* A header without lanes and one with zero lanes share one confirmed cost; the
  iteration cap decides something by itself only for zero lanes.
* An empty password still parts the text around its placeholder: text operations
  stand side by side exactly when the password is empty and a placeholder of it
  has visible text on either side with no key or pause in between.
* A sync conflict that waits for the user is shown as a failure: a step takes the
  mark away and leaves the conflict waiting if and only if it is one of the connect
  dialog's two and the vault is in front (`MarkLostIffDialog`); a run ends with a
  vault that looks idle and has a conflict waiting (`WaitingLooksIdle`).
* One poll at a time is under way for a vault as long as the polls under way are
  known, and a step makes one unknown if and only if it is a lock that waits for
  saves during a poll (`ForgottenIffWaitingLock`); a run ends with two polls of one
  session (`TwoPollsAtATime`).

Assumptions: no other process writes the vault files; the shell installs an
opened document only while its attempt is current, and brings a parked vault
back only while none is open; a merge's result carries the edits of the document
it started from; a sync configuration kept for a path names that path.

`dafny verify dfyconfig.toml` checks everything.

## Model

| member | source | states |
|---|---|---|
| SaveInvariant.NextInv | src/app/state.rs:1508-1533 | every public call, every completion callback and every background step keeps the invariant of the vault-session coordinator: distinct paths, one slot and one live writer a path, owners retained and unpersisted, marks that match the disk, merges tied to their base |
| SaveInvariant.RunInv | src/app/state.rs:1508-1533 | the invariant holds in every state of every run from a fresh program |
| SaveTheorems.NoAcceptedEditLost | src/app/state.rs:3552-3681 | whole runs: an accepted edit is at every later moment in its session's document or, once that session is gone, in what the disk holds at its path, unless a discard succeeded in between |
| SaveTheorems.MarksTellTheTruth | src/app/state.rs:1508-1533 | whole runs: a retained session outside the unpersisted set equals the disk; an owner with nothing queued equals its writer's payload, or is at its merge's base; a dirty session nobody writes shows a failed save |
| SaveTheorems.DiscardedNeverPublishes | src/app/state.rs:3114-3149 | whole runs: after a discard that returned true no publication, at any path and through any reused slot, belongs to a discarded session |
| SaveTheorems.DiscardIsAllOrNothing | src/app/state.rs:3114-3149 | a discard succeeds and leaves only aborted writers and no document, or is refused and keeps every session, document, slot and unpersisted mark |
| SaveTheorems.OneLiveWriter | src/app/state.rs:3564-3586 | at most one writer that is not aborted exists for a path |
| SaveTheorems.PublicationsInOrder | src/app/state.rs:3564-3654 | whole runs: snapshots reach a path in the order they were taken |
| SaveTheorems.WaitsIffLockRequested | src/app/state.rs:3155-3182 | whole runs: the waiting screen is shown exactly while a lock is requested, and only while save work remains |
| SaveTheorems.WaitingLockHidesAll | src/app/state.rs:2891-2962 | whole runs: while a lock waits no lookup finds a session, and what is retained is exactly what is unpersisted |
| SaveTheorems.LockIsImmediateOrWaits | src/app/state.rs:3155-3182 | a lock empties everything at once when nothing is unsaved, and otherwise retains exactly the unsaved sessions, hidden |
| SaveTheorems.LockCompletesWithLastSave | src/app/state.rs:3009-3015 | the waiting lock completes in the very callback that makes the last dirty session durable, and never before |
| SaveProgress.SavingWorks | src/app/state.rs:3588-3681 | every step of a background writer and every completion callback, also one that starts the save queued behind, lowers one number |
| SaveProgress.WaitingLockDrains | src/app/state.rs:3009-3037 | from any reachable state with a waiting lock the steps of writers and callbacks are bounded, in whatever order they come; when none is left the lock is complete, or every remaining save has failed and a discard would succeed |
| SaveTheorems.WaitingLockNeverWedges | src/app/state.rs:3061-3075 | while a lock waits some slot's writer can still move or report, or every save has failed and the discard offered then would succeed |
| SaveTheorems.StaleMergeIsResaved | src/app/state.rs:6401-6533 | a merge whose base the document has left is dropped, and the latest document is snapshotted again |
| SaveTheorems.MergeInstallsOverItsBase | src/app/state.rs:6401-6533 | the callback of a merge save, whatever its outcome: the merge is installed if and only if its slot is still its own, the live generation is its base and, after a failed write, a lock waits with nothing queued (src/app/state.rs:2146-2169); otherwise the document stays; what is installed carries everything the base held |
| SaveCommits.CommitWritesTheMerge | src/app/state.rs:6360-6400 | a merge handed over at its base with the slot free: the one new writer writes the merged database, whole and for the merge's session, and nothing else changes |
| SaveCommits.CommitKeepsTheDocument | src/app/state.rs:6323-6359 | any other merge handed over: without a relationship, behind a lock or without its session it is nothing; otherwise the live document is written or queued, with a sync to follow |
| SaveCommits.DurableMergeLands | src/app/state.rs:6401-6533 | when a merge's save is durable and the document still its base, document and disk hold what was written |
| SaveCommits.CommittedMergeLands | src/app/state.rs:6323-6533 | whole runs: from the commit to the callback, however many steps later, what lands in the document and on disk is the database that was committed |
| SaveSteps.EditAsks | src/app/state.rs:3552-3590 | an edit is the last of the open document and in what is written for it, now or behind the save under way; nothing else changes |
| SaveSteps.SaveAsks | src/app/state.rs:3464-3493 | a save of the open vault writes its document as it is, or waits behind the save under way |
| SaveSteps.MergeStarts | src/app/state.rs:5946-6016 | a merge remembers path, session, document and generation of the one retained there; none begins behind a lock or without a relationship |
| SaveSteps.CallbackReports | src/app/state.rs:3588-3681 | however any save, ordinary or a merge's, has ended: with a request queued the latest document is written anew and the asked sync passed on; otherwise the slot is free and the session clean and saved or dirty and failed, or gone from quarantine; no other session is touched; a writer without its slot reports to nobody |
| SaveSteps.LockWritesAll | src/app/state.rs:3155-3182 | under a lock that waits every unsaved document has a writer: the one it had, or a new one with its present contents that is not to sync |
| SaveSteps.SaveUnderLockWritesAll | src/app/state.rs:3020-3037 | the same of a save asked for while a lock waits |
| SaveSteps.DiscardEndsTheLock | src/app/state.rs:3061-3149 | a discard ends the lock if and only if the lock waits, the user is stuck or every save has failed, and no writer has claimed its file; exactly the writers that still write are called off; otherwise it does nothing |
| SaveSteps.AskedSyncFollows | src/app/state.rs:3634-3680 | whole runs: an edit whose save is to reach the cloud is followed, whatever saves and merges come between, by a last save that carries the sync, unless a discard came between |
| SaveScreens.OpenShows | src/app/state.rs:2235-2317 | a background open shows the document the disk holds, under a new session, if it is the newest attempt and its path on the screen; a failed one asks for the password again; an older one changes nothing |
| SaveScreens.PasswordShows | src/app/state.rs:2198-2214 | a submitted password begins a new attempt, brings an open vault to the front, or does nothing behind a lock |
| SaveScreens.OvertakenOpenNeverLands | src/app/state.rs:2217-2235 | whole runs: once another opening was begun, the answer of an earlier one changes neither screen nor documents |
| SaveScreens.FrontShows | src/app/state.rs:1295-1361 | switching and asking for a password bring an open vault to the front; otherwise the password is asked for, or nothing happens |
| SaveScreens.EscapeBringsTheLatest | src/app/state.rs:1366-1383 | whole runs: the vault brought back is the one parked last; whatever else is parked was so already when that one was |
| SaveTheorems.ContextPinsVault | src/app/state.rs:1100-1103 | whole runs: an Auto-Type context is current only while the vault it was issued for is active, and is revoked for good from then on |
| SaveTheorems.IconSurvivesRunningSave | src/app/state.rs:3416-3425 | an icon that arrives while any save of its vault is published, an ordinary one or a merge's, keeps its session owed if and only if another save is queued behind that one or that one is a merge's |
| SaveTheorems.IconMarkCanBeLost | src/app/state.rs:3416-3425 | a run from a fresh program, of opening, editing and a claimed save, ends in a state where the mark of an icon downloaded then is cleared although the disk lacks it |
| SaveIcons.IconStays | src/app/state.rs:3398-3432 | runs with favicon downloads among everything else: as long as its session is retained, its document bears the icon, and so does every merge that could still replace it |
| SaveIcons.IconLostOnlyByLock | src/app/state.rs:3398-3445 | the same runs: an icon that arrived is in its document, or a lock, a successful discard or the callback of a save under a waiting lock has ended its session since |
| SaveIcons.RequestTakesTheIcon | src/app/state.rs:3441-3449 | the save request at the end of the download writes the icon or queues behind the writer there is |
| AppStateModel.AppState.constructor | src/app/state.rs:578-640 | a fresh program is an initial state of the protocol, with a history that begins there |
| AppStateModel.AppState.BackgroundStep | src/keepass/document.rs:1352-1513 | a background task moves: it reads a vault, claims, publishes, syncs or fails a save, or drops a merge; these are the only steps between two calls |
| AppStateModel.AppState.EveryAcceptedEditIsKept | src/app/state.rs:3552-3681 | between any two calls: every edit the object has accepted is in its session's document or on disk, unless a discard succeeded since |
| AppStateModel.AppState.MergeReturned | src/app/state.rs:6054-6098 | the merge computed from a cloned document is handed over with that clone's generation, and is the protocol's commit; what that writes is `SaveCommits.CommitWritesTheMerge` |
| AppStateModel.AppState.VaultSessionIdFor | src/app/state.rs:1410-1415 | finds a session at a path if and only if the protocol has one that is not quarantined there |
| AppStateModel.AppState.DocumentFor | src/app/state.rs:3498-3523 | the document of exactly the session retained at the path, wherever it is kept |
| AppStateModel.AppState.SaveQueueContainsSession | src/app/state.rs:1529-1533 | true exactly when some slot is owned by or waits for the session |
| AppStateModel.AppState.HasUnpersistedSaveWork | src/app/state.rs:1525-1527 | true exactly when a session is unpersisted or a slot is taken |
| AppStateModel.AppState.PathForVaultSession | src/app/state.rs:1492-1506 | the path the session is retained at, in front, parked or quarantined |
| AppStateModel.AppState.RotateAutoTypeContext | src/app/state.rs:1100-1103 | the old context is revoked and a new one issued |
| AppStateModel.AppState.MarkVaultSessionPersisted | src/app/state.rs:1517-1523 | the mark goes, and with it the quarantined document while a lock waits |
| AppStateModel.AppState.AfterWriter | src/app/state.rs:3634-3661 | what every save callback does last: clear the mark unless more is queued, start what is queued, or finish the lock |
| AppStateModel.AppState.StartWriter | src/app/state.rs:3564-3590 | takes the path's slot and starts the one background task that shares its abort handle |
| AppStateModel.AppState.ParkActive | src/app/state.rs:1539-1582 | the fields move as the protocol's park action |
| AppStateModel.AppState.Unpark | src/app/state.rs:1587-1622 | the fields move as the protocol's unpark action, and report whether the path was parked |
| AppStateModel.AppState.SwitchToUnlocked | src/app/state.rs:1336-1361 | the protocol's switch; handled exactly when the path is unlocked |
| AppStateModel.AppState.RequestPassword | src/app/state.rs:1295-1327 | the protocol's password request, warm and cold path, refused while a lock waits |
| AppStateModel.AppState.RehydrateMostRecentPark | src/app/state.rs:1366-1383 | the protocol's return to the vault parked last |
| AppStateModel.AppState.BeginOpen | src/app/state.rs:2198-2214 | the protocol's begin of an open attempt, with a new attempt number |
| AppStateModel.AppState.SubmitPassword | src/ui/app_shell.rs:3007-3080 | an open attempt and the background task that reads the file for it |
| AppStateModel.AppState.FinishOpenAttempt | src/app/state.rs:2235-2317 | only the current attempt installs a document, under a fresh session id |
| AppStateModel.AppState.FailVaultSelection | src/app/state.rs:2849-2857 | the protocol's failed selection, which never replaces an open document |
| AppStateModel.AppState.SetSaveStatusForSession | src/app/state.rs:1626-1653 | a status reaches the session it is meant for, active, parked or quarantined, and no other |
| AppStateModel.AppState.SetDocumentForSession | src/app/state.rs:2074-2142 | a document reaches the session it is meant for and no other |
| AppStateModel.AppState.EditEntry | src/app/state.rs:3686-3725 | a mutation bumps the open document and requests a save of it |
| AppStateModel.AppState.RequestSaveForSession | src/app/state.rs:3552-3681 | marks the session unpersisted, starts the path's writer or queues behind it |
| AppStateModel.AppState.SaveAsync | src/app/state.rs:3464-3493 | saves the open vault, or retries every unsaved session while a lock waits |
| AppStateModel.AppState.RetryUnpersistedVaultSaves | src/app/state.rs:3020-3037 | retries exactly the unpersisted sessions no slot knows |
| AppStateModel.AppState.CommitMergedFor | src/app/state.rs:6323-6400 | a merge writer for the merged database is started only at its base and with a free slot, else the live document is saved; as `SaveCommits` says of the protocol's commit |
| AppStateModel.AppState.SaveTaskReturned | src/app/state.rs:3588-3681 | the completion callback: only the slot's owner releases it, and what follows is the protocol's |
| AppStateModel.AppState.PlainSaveDone | src/app/state.rs:3604-3661 | completion of an ordinary save: status, unpersisted mark, queued save, deferred lock |
| AppStateModel.AppState.MergeSaveDone | src/app/state.rs:6401-6692 | completion of a merge save: install, re-save or retain, as the generation tells |
| AppStateModel.AppState.QuarantineSessionsForDeferredLock | src/app/state.rs:2891-2962 | exactly the sessions with unsaved work are moved out of reach, all others are dropped |
| AppStateModel.AppState.SelectQuarantine | src/app/state.rs:2923-2937 | of the candidates exactly those with unsaved work are kept |
| AppStateModel.AppState.LockVault | src/app/state.rs:3155-3182 | the protocol's lock; true exactly when everything is locked at once |
| AppStateModel.AppState.LockVaultNow | src/app/state.rs:2966-3007 | forgets every session and revokes the Auto-Type context |
| AppStateModel.AppState.FinishDeferredLockIfReady | src/app/state.rs:3009-3015 | completes a requested lock exactly when no save work is left |
| AppStateModel.AppState.AbortEverySlot | src/app/state.rs:3126-3134 | every writer that has not claimed publication is aborted; true exactly when all were |
| AppStateModel.AppState.DiscardDeferredSavesAndLock | src/app/state.rs:3114-3149 | the protocol's discard; true exactly when the gate is open and no writer had claimed publication |
| AppStateModel.AppState.StartMerge | src/app/state.rs:5946-6016 | clones the document and remembers its generation as the merge base |
| ConnectGate.StepKeepsInv | src/app/state.rs:60-112 | every atomic step of every thread keeps lock ownership, generations, the pending count and the sleepers in order |
| ConnectGate.RunKeepsInv | src/app/state.rs:60-112 | the same in every state of every run from an idle gate |
| ConnectGate.OneAtATime | src/app/state.rs:75-111 | whole runs, all interleavings: publications and cleanups exclude each other and one another |
| ConnectGate.StartsOnlyWhenCurrent | src/app/state.rs:75-89 | a publication starts only under the lock and while its operation is the newest there is |
| ConnectGate.PublicationBetweenCleanups | src/app/state.rs:91-111 | while a publication runs, every cleanup reserved before it is over and every later one has not started |
| ConnectGate.NoOlderPublicationAfterCleanup | src/app/state.rs:91-111 | once a cleanup has started, no older operation is published any more |
| ConnectGate.CallsOvertake | src/app/state.rs:62-69 | the calls of the user-interface thread never wait and touch no worker; each takes a number above all operations and cleanups there are |
| ConnectGate.StaleForGood | src/app/state.rs:62-89 | whole runs: a newer number invalidates every older operation for good, unless its publication has begun |
| ConnectGate.NobodySleepsInVain | src/app/state.rs:81-87 | nobody sleeps while no cleanup is pending, unless the last one is about to wake it |
| ConnectGate.GivesUpOnlyWhenOvertaken | src/app/state.rs:75-89 | a committer returns without publishing only if a newer operation exists |
| ConnectGate.SomebodyCanWork | src/app/state.rs:75-111 | no deadlock: while somebody has not returned, a worker can take a step |
| ConnectGate.WorkDecreases | src/app/state.rs:75-111 | every step of a worker leaves less work, wake-ups by notification included |
| ConnectGate.EverybodyReturns | src/app/state.rs:75-111 | under any schedule the workers' steps are bounded and end with everybody returned and the current operation published |
| Cancellation.RunKeepsInv | src/autotype/mod.rs:67-92 | in every run only the thread the gate names is inside, and since some cancel passed the gate nothing is under way |
| Cancellation.OneDispatchAtATime | src/autotype/mod.rs:85-92 | dispatches under one token never overlap |
| Cancellation.CancelIsABarrier | src/autotype/mod.rs:67-79 | whole runs: after one cancel has returned no dispatch runs or ever starts, and nothing more is sent |
| Cancellation.AtMostOneEventMore | src/autotype/typer.rs:126-142 | from the moment the flag is set at most one more event is sent |
| Cancellation.EverythingIsSent | src/autotype/typer.rs:126-142 | whole runs: as long as nobody cancels exactly the events asked for are sent, all of a dispatch that is over; never more; only cancelling sets the flag |
| Cancellation.EverybodyReturns | src/autotype/mod.rs:67-92 | from every reachable state, in whatever order, the steps of threads that have called are bounded, and when none can go on all have returned |
| Cancellation.GateComesFree | src/autotype/mod.rs:67-92 | after the flag is set whoever has the gate can always go on and leaves it within two of its steps |
| Cancellation.OthersDoNotDelay | src/autotype/mod.rs:67-92 | no step of another thread prolongs that |
| Typer.SleepCancelably | src/autotype/typer.rs:152-166 | success means the whole time passed and no cancellation was seen; each nap is at most the poll interval |
| Typer.EnsureActive | src/autotype/typer.rs:144-150 | fails exactly when the token is cancelled at that moment |
| Typer.DispatchIfActive | src/autotype/typer.rs:72-87 | a cancelled token dispatches nothing; otherwise a prefix of the operation's strokes is sent, all of them on success |
| Typer.DispatchText | src/autotype/typer.rs:126-142 | what is sent is a prefix of the text, all of it exactly on success |
| Typer.PerformOne | src/autotype/typer.rs:101-121 | an operation's strokes come right after its own good look at the focus; cancellation wins over a lost focus |
| Typer.PerformOps | src/autotype/typer.rs:90-124 | the operations are done in order as far as some point, all of them on success; how far the broken one got is told exactly; pauses are kept |
| Typer.Perform | src/autotype/typer.rs:65-88 | a cancelled token touches nothing; otherwise the log holds the operations or a beginning of them |
| Typer.SuccessTypesTheTemplate | src/autotype/typer.rs:90-124 | a successful run has sent exactly the strokes the template stands for, username and password filled in |
| Typer.FailureTypesAPrefix | src/autotype/typer.rs:90-124 | a run that broke off has sent a beginning of them |
| AutoTypeSequence.Parse | src/autotype/sequence.rs:156-206 | the loop computes the parse it is specified by, first error first; which templates mean what is `AutoTypeGrammar.TemplateMeans` |
| AutoTypeSequence.ReadBody | src/autotype/sequence.rs:176-187 | the inner loop stops at the first closing brace, or reports that there is none |
| AutoTypeSequence.NameParses | src/autotype/sequence.rs:215-249 | every token's printed name parses to the token |
| AutoTypeGrammar.PlaceholderMeans | src/autotype/sequence.rs:215-249 | every body: which token it is, by its trimmed text up to ASCII case (ENTER and RETURN are one key); a delay by DELAY, a space or a digit, and a number of at most 30,000; larger ones are refused as too large |
| AutoTypeGrammar.SpellingDoesNotMatter | src/autotype/sequence.rs:216-222 | other ASCII case and other blanks around a body give the same token |
| AutoTypeGrammar.TemplateMeans | src/autotype/sequence.rs:156-206 | a template parses to a token list if and only if it reads as its pieces: runs of text with doubled braces, and placeholders |
| AutoTypeGrammar.TemplateRefused | src/autotype/sequence.rs:156-206 | a template is refused with an error if and only if that is its first fault |
| AutoTypeSequence.ParsedIsCanonical | src/autotype/sequence.rs:156-249 | whatever parses has no empty or adjacent literals and no delay above the cap |
| AutoTypeSequence.TemplateRoundTrip | src/autotype/sequence.rs:156-249 | printing with doubled braces and parsing gives a token list back if and only if it is canonical |
| AutoTypeSequence.TemplateNormalForm | src/autotype/sequence.rs:156-249 | a template and the canonical print of its parse mean the same |
| AutoTypeSequence.Render | src/autotype/sequence.rs:255-291 | the loop computes the rendering it is specified by |
| AutoTypeSequence.RenderConserves | src/autotype/sequence.rs:255-291 | the strokes of the operations are those of the tokens, in order, and exactly the password's characters are secret |
| AutoTypeSequence.NoEmptyOperation | src/autotype/sequence.rs:255-291 | no text operation is empty |
| AutoTypeSequence.AdjacentIffParted | src/autotype/sequence.rs:255-291 | for each token list: text operations stand side by side if and only if the password is empty and some placeholder of it has visible text on either side with no key or pause in between |
| AutoTypeSequence.BatchedIffPassword | src/autotype/sequence.rs:255-291 | text operations never stand side by side if and only if the password is not empty |
| AutoTypeSequence.PasswordIsIsolated | src/autotype/sequence.rs:255-291 | between two nonempty passwords only the payloads of secret operations differ |
| AutoTypeSequence.OneSecretPerPassword | src/autotype/sequence.rs:255-291 | one secret operation for each password placeholder, carrying the password |
| WindowMatcher.GlobMatch | src/autotype/matcher.rs:129-151 | the two-position loop terminates, is sound for every pattern and text, and exact where the text or the pattern holds no `*` |
| WindowMatcher.ScanIsSound | src/autotype/matcher.rs:129-151 | whatever is accepted matches the declarative meaning of the pattern |
| WindowMatcher.ScanIsComplete | src/autotype/matcher.rs:129-151 | with no `*` in the text, backtracking to the last star alone misses no match |
| WindowMatcher.TextExactIffNoStar | src/autotype/matcher.rs:133-138 | a text is matched correctly by every pattern if and only if it holds no `*` |
| WindowMatcher.PatternExactIffNoStar | src/autotype/matcher.rs:133-138 | a pattern matches every text correctly if and only if it holds no `*` |
| WindowMatcher.StarInTextFools | src/autotype/matcher.rs:133-138 | for every text with a `*`, a pattern that matches it and is not found |
| WindowMatcher.StarInPatternFooled | src/autotype/matcher.rs:133-138 | for every pattern with a `*`, a text it matches and is not found in |
| WindowMatcher.StarMissesStarText | src/autotype/matcher.rs:133-138 | the pattern `*` does not match the text `*a` |
| WindowMatcher.PatternMeansItself | src/autotype/matcher.rs:119-151 | an association's pattern is accepted only if it matches the title, both folded; exactly then where either folded text holds no `*`; a blank pattern never |
| WindowMatcher.ChosenIffOnlyOne | src/autotype/matcher.rs:44-111 | with patterns of a plain kind, an entry is chosen unasked if and only if it is the only live one that deserves it: enabled, and a pattern matches the title, or outside a browser the application is the host |
| WindowMatcher.AutomaticIffSole | src/autotype/matcher.rs:44-78 | however the candidates are ordered, an entry is chosen unasked if and only if it is the only live one that qualifies |
| WindowMatcher.BrowserNeedsAssociation | src/autotype/matcher.rs:80-111 | in a browser only a pattern the user wrote, which matches the title, has an entry chosen unasked |
| EditDistance.DistanceIsDistance | src/app/search.rs:300-341 | the recurrence is the least number of insertions, deletions and substitutions |
| EditDistance.RowBound | src/app/search.rs:331-336 | every row holds a cell no larger than the final distance, so the row cutoff is safe |
| EditDistance.LengthBound | src/app/search.rs:309-311 | the distance is at least the difference in length, so the early bail-out is safe |
| EditDistance.NextRow | src/app/search.rs:319-329 | the inner loop fills a row of distances from the one above it and returns a lower bound of it |
| EditDistance.LevenshteinWithin | src/app/search.rs:304-341 | returns the least number of edits exactly when it is at most the budget; both early exits and the swapped rows change nothing |
| EditDistance.SplitTermsAreTheRuns | src/app/search.rs:271-274 | the terms are exactly the maximal runs of word characters |
| EditDistance.TypoScore | src/app/search.rs:279-298 | a score exactly when some term is within one edit, or within two of a token of nine characters or more; 380, 350 or 320 for a least distance of 0, 1 or 2 |
| EditDistance.ScoresRankDistances | src/app/search.rs:293-297 | a closer term scores strictly higher, and every typo score lies above the fuzzy ones and below a substring hit |
| VariantDictionary.ParseVariantDictionary | src/keepass/limits.rs:281-341 | the loop accepts exactly the buffers that are dictionaries and returns the parameters of their entries; every read is in range |
| VariantDictionary.FirstEntryBytes | src/keepass/limits.rs:296-331 | an entry is read at a place if and only if its well-typed serialisation stands there |
| VariantDictionary.ReadEntry | src/keepass/limits.rs:296-331 | one turn of the loop reads the entry at the position, in range, or fails |
| VariantDictionary.AcceptedIffSerialised | src/keepass/limits.rs:281-341 | a buffer is accepted with these entries if and only if they are well typed and it is their serialisation, with nothing after the terminator |
| VariantDictionary.DictionaryRoundTrip | src/keepass/limits.rs:776-782 | every well-typed entry list, serialised, is read back as itself |
| VariantDictionary.LastWins | src/keepass/limits.rs:333-339 | of a repeated parameter the last entry of the right type decides |
| KdbxLimits.ConfirmedCosts.Confirm | src/keepass/limits.rs:143-150 | adds the one cost, once |
| KdbxLimits.ConfirmedCosts.Set | src/keepass/limits.rs:135-139 | replaces the confirmed costs |
| KdbxLimits.ConfirmedCosts.Remember | src/ui/app_shell.rs:3364-3374 | the cost is confirmed for the process and kept in the settings; replacing the one set by the other loses nothing |
| KdbxLimits.ConfirmedOpens | src/keepass/limits.rs:168-197 | for any bytes: a file that asks about a cost opens once that cost is confirmed, whatever else is; confirmations close no file and open no refused one |
| KdbxLimits.AllowAndOpen | src/ui/app_shell.rs:3341-3360 | after "Allow and unlock" no question is left: everything but a refused file opens, and at most the cost asked about is newly confirmed |
| KdbxLimits.WorkIsExact | src/keepass/limits.rs:422-426 | saturation changes no comparison with a limit |
| KdbxLimits.Argon2Gate | src/keepass/limits.rs:343-426 | exact unbounded cost: which headers open, which are asked about and with which cost, and which never open, despite saturating arithmetic |
| KdbxLimits.CapIdleIffLanes | src/keepass/limits.rs:51-56 | the iteration cap decides nothing by itself if and only if the lanes are not stated as zero |
| KdbxLimits.ConfirmationIsExact | src/keepass/limits.rs:141-157 | confirming one cost admits, of the headers that asked, exactly those with the same settings |
| KdbxLimits.NoOtherCostWithLanes | src/keepass/limits.rs:390-407 | among headers that state their lanes it admits no other |
| KdbxLimits.AbsentLanesShareACost | src/keepass/limits.rs:398-400 | a header without lanes shares its cost with one of zero lanes at twice the work |
| KdbxLimits.HeaderRoundTrip | src/keepass/limits.rs:199-270 | a header written field by field is read back as those fields, whatever follows |
| KdbxLimits.ValidateKdbx3Header | src/keepass/limits.rs:199-233 | the loop refuses exactly unreadable headers, wrong fixed lengths and too many rounds in the last rounds field; in literal numbers in `KdbxVerdicts` |
| KdbxLimits.ValidateKdbx4Header | src/keepass/limits.rs:235-270 | the loop refuses exactly unreadable headers, bad fields and dictionaries, and what the last key-derivation dictionary is refused for; in literal numbers in `KdbxVerdicts` |
| KdbxLimits.ValidateKdbxResources | src/keepass/limits.rs:168-197 | size, signature, version and the check of that version's header, in one verdict; in literal numbers in `KdbxVerdicts` |
| KdbxLimits.AcceptedFileIsBounded | src/keepass/limits.rs:235-426 | for any bytes: a KDBX 4 header that is let through and states memory and passes is within the limits in exact numbers, above the free budget only with that very cost confirmed |
| KdbxLimits.FileVerdict | src/keepass/limits.rs:738-782 | from bytes to verdict: a KDBX 4 file built from any well-typed dictionary is judged by that dictionary's cost alone |
| KdbxVerdicts.OtherFiles | src/keepass/limits.rs:168-190 | which files are refused or let through by size, signature and version alone |
| KdbxVerdicts.KdbVerdict | src/keepass/limits.rs:192-197 | a KDB file is accepted if and only if its header is there and the rounds in it are at most 1,000,000,000 |
| KdbxVerdicts.Kdbx3Verdict | src/keepass/limits.rs:199-233 | a KDBX 3 file built field by field is accepted if and only if the fields are of their lengths and the last rounds, if stated, are at most 1,000,000,000 |
| KdbxVerdicts.AesVerdict | src/keepass/limits.rs:343-356 | an AES dictionary of either identifier is accepted if and only if its rounds are absent or at most 1,000,000,000 |
| KdbxVerdicts.Argon2Verdict | src/keepass/limits.rs:358-426 | an Argon2 dictionary, in literal numbers: refused, asked about, or accepted |
| KdbxVerdicts.Kdbx4Verdict | src/keepass/limits.rs:235-270 | a KDBX 4 file with one dictionary is judged by what that dictionary states |
| KdbxVerdicts.Kdbx4FieldsVerdict | src/keepass/limits.rs:235-270 | a KDBX 4 file built field by field is judged by its fields and its last dictionary |
| KdbxVerdicts.UnwrittenRefused | src/keepass/limits.rs:199-270 | a KDBX 3 or 4 file whose header was not written field by field up to a terminator is refused |
| VaultTree.CollectEntries | src/domain/vault.rs:470-476 | the walk appends exactly the entries of the tree in order |
| VaultTree.CollectEntriesInBin | src/domain/vault.rs:478-492 | the walk appends exactly the live, or the deleted, entries |
| VaultTree.PartitionIffInherited | src/domain/vault.rs:263-274 | live and deleted entries are all entries, as multisets, if and only if everything below a deleted group is marked |
| VaultSnapshot.SnapshotInherits | src/keepass/repository.rs:223-283 | of any database and any bin: everything below a deleted group of the snapshot is marked |
| VaultSnapshot.SnapshotSplitsAtTheBin | src/keepass/repository.rs:166-283 | of any database and any bin: the live list of the snapshot is the entries with no bin on the way down to them, the deleted list those with one, as multisets, and together they are all entries with none hidden |
| VaultSnapshot.SortIsStable | src/keepass/repository.rs:255-262 | groups and entries come in the order of their keys, and those of one key in the order they had |
| VaultSnapshot.GroupIsOrdered | src/keepass/repository.rs:223-283 | any group is shown with its id and mark, its entries by title and its groups by name, "Untitled" and "Root" where there is none, ties in their former order |
| VaultTree.ThreeParts | src/domain/vault.rs:478-492 | in any tree all entries are the live, the deleted and the hidden ones |
| VaultTree.FindIsFirst | src/domain/vault.rs:437-442 | the recursive search finds the first entry of the flat list that has the id, and none exactly when none has it |
| VaultTree.Walk | src/domain/vault.rs:364-382 | the recursive walk adds the counts of the live entries of a subtree |
| VaultTree.CountLibrary | src/domain/vault.rs:363-385 | one walk counts what the starred and the one-time-password lists hold |
| TagRows.Tags | src/domain/vault.rs:321-345 | rows in strict key order, one for exactly the keys live non-favorite tags fold to, each with its entry count and first spelling |
| TagRows.CountEntry | src/domain/vault.rs:325-342 | one entry's tags leave every row right: its count of entries and its first spelling |
| TagRows.CountMatchesSelection | src/domain/vault.rs:293-345 | a row counts what selecting it lists if and only if every entry it counts has a tag differing from the key in ASCII case alone; never less |
| TagRows.AsciiTagsAgree | src/domain/vault.rs:293-345 | in a vault of ASCII tags rows and selection agree |
| TagRows.UmlautRowCountsMore | src/domain/vault.rs:296-330 | two spellings of one non-ASCII letter make a row of two whose selection lists one |
| MergeResolutions.ValidateResolutionInput | src/cli.rs:848-902 | malformed answers are told from missing ones; accepted if and only if every conflict is answered once; the picks' keys are the conflicts |
| MergeResolutions.PickNext | src/cli.rs:856-879 | one resolution is picked, or refused because it names no conflict, more than one, or one already answered |
| MergeResolutions.CountsDecide | src/cli.rs:891-900 | comparing the numbers is enough to know that every conflict is picked |
| SyncRouting.AnswerStaysAtItsSession | src/app/state.rs:1773-1873 | an answer of any background work, a merge's decryption, commit and upload included, changes the slot and the notices of only the vault it was asked for, wherever that is by now, and its binding only in the same session and relationship; late answers change nothing, except that a push sets off what is queued and a decryption hands in its token |
| SyncAnswers.AnswerWrites | src/app/state.rs:5598-5694 | what each answer of each kind of work leaves when it comes in time: binding (token, etag and uploaded revision told apart), status, and the work that follows |
| SyncAnswers.NoticesKept | src/app/state.rs:6018-6182 | what a decryption in time leaves of the notices: the revision a conflict waits about, the cost to be allowed, and no token |
| SyncBooks.AnswerKeepsBooks | src/app/state.rs:5598-5720 | the pushes under way, the held requests and the notices after each answer in time |
| SyncBooks.LateAnswerGivesUp | src/app/state.rs:5601-5626 | an answer that is too late gives up its place in the queue, its token or its poll, and touches nothing else; what was queued for the present session then starts |
| SyncBooks.EveryAnswer | src/app/state.rs:1773-1873 | whole runs: every answer is in time, and leaves what the tables say, or too late, and gives up what it held |
| SyncSteps.SyncShows | src/app/state.rs:5525-5595 | a sync that is asked for waits behind the push under way, joined with what waits there, or starts, or is held back while the configuration is looked for, or is dropped; with status, task and notices |
| SyncSteps.TimerShows | src/app/state.rs:5756-5815 | when the timer pushes, looks or does nothing, in terms of status, overlay, notices and binding |
| SyncSteps.StartShows | src/app/state.rs:5421-5443 | publishing and signing in again: the work begun for the present session, and the status only of the latter |
| SyncSteps.ResolveShows | src/app/state.rs:6235-6293 | an answered conflict: what is shown and committed, for the session it was shown for |
| SyncSteps.RetryShows | src/app/state.rs:2341-2401 | an unbound vault in front looks for its configuration |
| SyncSteps.DialogShows | src/app/state.rs:1277-1293 | what the dialogs write over the status in front, and forgetting the question about a cost |
| SyncSteps.MovesKeep | src/app/state.rs:1295-1383 | switching, asking for a password and going back change no vault's opening, binding, status, relationship or requests |
| SyncSteps.MovesShow | src/app/state.rs:1295-1327 | which vault is in front after one was asked for, and whether a pending binding survives |
| SyncSteps.OpenedShows | src/app/state.rs:2235-2317 | an opened vault takes the binding that waited for it or looks for its configuration |
| SyncSteps.DisconnectShows | src/app/state.rs:1417-1440 | disconnecting unbinds the vault in front under a new relationship number and clears its notices alone |
| SyncSteps.LockShows | src/app/state.rs:2935-3007 | what locking forgets and what it keeps |
| SyncRuns.RunKeepsInv | src/app/state.rs:1417-1480 | whole runs: no vault is both in front and parked, sessions are fresh, bindings are owned, requests and tasks are in order |
| SyncRuns.BindingsStayHome | src/app/state.rs:1844-1873 | whole runs: each binding sits in the slot of its own vault |
| SyncRuns.OverForGood | src/app/state.rs:1451-1472 | whole runs: a session that is over never becomes current again |
| SyncRuns.LateAnswerBindsNothing | src/app/state.rs:2430-2483 | whole runs: an answer to a session that is over binds nothing and writes no baseline anywhere |
| SyncRuns.DisconnectEndsOneVault | src/app/state.rs:1417-1440 | disconnecting ends every session of the vault in front and none of any other vault |
| SyncRuns.NothingBindsAfterDisconnect | src/app/state.rs:4829-4866 | whole runs: what was asked before a disconnect or a lock never binds that vault again |
| SyncRuns.NoPushLeftBehind | src/app/state.rs:5537-5617 | whole runs: every place in the push queue has its push under way, which gives it up to the current session's next request |
| SyncRuns.DroppedIsOfTheSameSession | src/app/state.rs:5661-5690 | whole runs: a follow-up dropped after a conflict or failure is of the same session as the push |
| SyncRuns.CoalescedRequest | src/app/state.rs:523-536 | any requests coalesce to the last one's bytes, interactive if any was since the session changed |
| SyncRuns.WhatSupersedes | src/app/state.rs:1743-1751 | a decryption no longer counts once a newer one has started for its vault, a new attempt or a good status was written, or the relationship has ended |
| SyncRuns.SupersededForGood | src/app/state.rs:300-305 | whole runs: a decryption that does not count never counts again |
| SyncRuns.OldRemoteNeverLands | src/app/state.rs:5991-5997 | whole runs: the answer of a decryption that was superseded at any earlier moment changes nothing |
| SyncRuns.WaitingIsNotSynced | src/app/state.rs:326-334 | whole runs: a conflict waits for the user only at a bound vault, and whatever the connect dialog does that vault is never called synced |
| SyncNotices.MarkLostIffDialog | src/app/state.rs:1277-1293 | of the steps that leave a conflict waiting, exactly opening and closing the connect dialog take away its mark, and only from the vault in front |
| SyncNotices.WaitingShowsFailed | src/app/state.rs:326-334 | whole runs without such a step: every conflict that waits is shown as a failure, at a bound vault |
| SyncNotices.WaitingLooksIdle | src/app/state.rs:1277-1293 | a run of connecting, opening, pushing, a conflict met while editing, and a cancelled dialog ends with a vault that looks idle and has the conflict waiting |
| SyncNotices.ForgottenIffWaitingLock | src/app/state.rs:2951-2952 | known polls, at most one a vault, stay so by every step except a waiting lock during a poll, and by that never |
| SyncNotices.OnePollAtATime | src/app/state.rs:319-325 | whole runs without such a lock: one poll at a time is under way for a vault |
| SyncNotices.TwoPollsAtATime | src/app/state.rs:5838-5841 | a run with such a lock ends with two polls of the same vault, both of its present session |
| SyncCoordinator.SyncState.SwitchToUnlocked | src/app/state.rs:1336-1361 | binding and status change places with the vaults |
| SyncCoordinator.SyncState.RequestPassword | src/app/state.rs:1295-1327 | the pending binding of another path is dropped |
| SyncCoordinator.SyncState.RehydrateMostRecentPark | src/app/state.rs:1366-1383 | the vault comes back with its binding, and a pending one is dropped |
| SyncCoordinator.SyncState.LockAll | src/app/state.rs:2935-3007 | every binding, every waiting request and every waiting conflict goes; a waiting lock also empties the push queue and forgets the polls |
| SyncCoordinator.SyncState.SyncSessionIsCurrent | src/app/state.rs:1461-1464 | true exactly when the opening and the relationship are those there are |
| SyncCoordinator.SyncState.FinishOpenAttempt | src/app/state.rs:2235-2317 | a new session takes the pending binding of its own path, or asks for a restore |
| SyncCoordinator.SyncState.SyncNowForPath | src/app/state.rs:5525-5595 | one push a vault: queued behind the one under way, held for a restore, or started |
| SyncCoordinator.SyncState.FinishReconnect | src/app/state.rs:5421-5443 | after the sign-in: the vault shows that it is connecting, and the rebind is dispatched for its session |
| SyncCoordinator.SyncState.Connected | src/app/state.rs:5285-5297 | the binding of a downloaded file waits for its unlock |
| SyncCoordinator.SyncState.AutoSyncForPath | src/app/state.rs:5756-5815 | the timer pushes again after a failure, pushes what was never sent, or looks at the remote; not while the vault is busy, the connect dialog or a conflict is on the screen, it is being polled already or a remote is being decrypted |
| SyncCoordinator.SyncState.StartSharePointReconnect | src/app/state.rs:4892-4921 | shows connecting, or a failure where there is nothing to reconnect |
| SyncCoordinator.SyncState.UnwindConnectFlow | src/app/state.rs:1277-1293 | a connecting or failed status in front becomes idle or disconnected |
| SyncCoordinator.SyncState.ApplyConflictResolution | src/app/state.rs:6235-6293 | the answered conflict is committed for the session it was shown for, if that is current |
| SyncCoordinator.SyncState.SnapshotSyncInputs | src/app/state.rs:1961-1983 | what a push takes along is the configuration of that very vault, in every state the calls lead to |
| SyncCoordinator.SyncState.TaskReturned | src/app/state.rs:1773-1873 | the one way back from the background: keeps the invariant, touches only the vault it was for, and no binding once its session has ended; in time it leaves exactly what `SyncAnswers` says |

## Left out

- Windows, overlays, menus, notifications and the texts of statuses and errors.
- Networks, providers, OAuth, keychains, biometrics, clipboard and the operating system's input calls: their answers are parameters or nondeterministic.
- Encryption, serialisation and file replacement: publishing is one step that writes a snapshot to a path, and it may fail or be non-durable.
- The Touch ID route into a vault, which ends in the same open attempt.
- Counters (sessions, generations, attempts, cleanups) are unbounded numbers where the program has 64-bit ones that would wrap.
- The file-format checks add positions with overflow tests; on a 64-bit machine positions within a buffer plus a 32-bit length never overflow, so these tests are not modelled.
- The merge algorithm: a merge is any database that carries its base, and which picks made it is not looked at. The save protocol lets any merge be dropped; which decryptions are, the sync routing says.
- The two coordinators are separate models: the routing knows of a merge's commit only what it answers, and the push that follows a save is a request the user might have made.
- SyncRouting.Poll: whether a throttled vault still has to wait, whether its file differs from what was sent and whether an overlay is open are parameters.
- SyncRouting.Connected: the steps of the connect dialog before a file is bound or a vault rebound are left out, apart from the status they show.
- SaveProtocol.Database: is the log of accepted edits; which fields an edit changes, history trimming and icon pruning are not modelled.
- AppStateModel.AppState: keeps the fields the protocol is about; selection, search and view state of a vault are left out. The order in which hash tables are walked is a parameter of the retry.
- SaveTheorems.IconSurvivesRunningSave: favicon downloads are not actions of `SaveProtocol`, because the invariant does not hold of them; `SaveIcons` has runs with them and a weaker invariant.
- ConnectGate.EverybodyReturns: spurious wake-ups are steps of the model, but not among those counted, since nothing bounds them.
- Cancellation.Do: memory orderings are not modelled; every access is one step of a single global order.
- Typer.World: the title of the window and the time are whatever the environment answers; a dispatch and its check are atomic here, and `Cancellation` has their interleavings.
- EditDistance.TypoScore: alphanumeric characters are a parameter; fuzzy scores, field weights and the ranking that adds them up are not modelled.
- WindowMatcher.AutomaticIffSole: takes any order of the candidates, so the sort by score and id is not modelled; parsing addresses, trimming and lower-casing are parameters.
- VaultSnapshot.Snapshot: titles and names decide the order only; the effective Auto-Type setting of groups, icons, expiry and paths are not modelled. What is blank and how text folds are parameters.
- TagRows.Tags: Unicode lower-casing is a parameter with three stated laws.
- KdbxLimits.ConfirmedCosts: the lock around the set and the settings file are not modelled; the estimate of seconds is not either.
- VariantDictionary.ParseVariantDictionary: all malformed dictionaries are one error without its message.
- AutoTypeSequence.Parse: the redacted display of a template is not modelled.
- Password generation, recents, settings, relative times, updates and the biometric registry.
