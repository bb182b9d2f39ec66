/**
 What the user sees of the vaults: which one is in front after a step, which one a
 cancelled password prompt gives back, and that a background open only ever shows
 the vault that was asked for last.
 */
module SaveScreens {
  import opened Wrappers
  import opened SaveProtocol
  import opened SaveInvariant
  import opened SaveTheorems

  // ------------------------------------------------------------- opening a vault

  /** What is opened is the newest attempt at the path on the screen, under a number of its own,
      as the disk holds it; an older attempt shows nothing at all. */
  lemma OpenShows(s: State, id: nat, decrypted: bool)
    requires Inv(s) && id in s.opens
    ensures
      var task, t, u := s.opens[id], s.store, Next(s, FinishOpenA(id, decrypted));
      && u.opens == s.opens - {id}
      && if task.attempt != s.openAttempt || s.screen != Opening(task.path) then u.screen == s.screen && u.store == t
         else if decrypted && task.read.Some? then
           && task.read.value == DiskAt(t.disk, task.path) && t.nextSession !in t.sessions && !Occupied(t, task.path)
           && u.screen == Open(t.nextSession)
           && u.store.sessions == t.sessions[t.nextSession := Session(task.path, Document(task.read.value, 0), Idle)]
           && u.store.unpersisted == t.unpersisted && u.store.slots == t.slots && u.store.disk == t.disk
         else u.screen == AwaitingPassword(task.path) && u.store == t
  {
  }

  /** A password begins an attempt of a new number at a vault that is not open yet, brings an open
      one to the front, and does nothing under a waiting lock. A task that reads the file is
      started in any case. */
  lemma PasswordShows(s: State, path: Path)
    requires Inv(s)
    ensures
      var u := Next(s, SubmitPasswordA(path));
      && u.store == s.store && s.nextOpen !in s.opens
      && u.opens == s.opens[s.nextOpen := OpenTask(path, u.openAttempt, None)]
      && if Locked(s) then u.screen == s.screen && u.openAttempt == s.openAttempt
         else if Occupied(s.store, path) then
           u.screen.Open? && RetainedAt(s.store, path, u.screen.session) && u.openAttempt == s.openAttempt
         else u.screen == Opening(path) && u.openAttempt == s.openAttempt + 1
  {
    BeginShows(s, path);
    OpensNumbered(s);
    hide Inv, BeginOpen, Occupied, RetainedAt;
  }

  lemma BeginShows(s: State, path: Path)
    requires Inv(s)
    ensures
      var u := BeginOpen(s, path);
      && u.store == s.store && u.opens == s.opens && u.nextOpen == s.nextOpen
      && if Locked(s) then u == s
         else if Occupied(s.store, path) then
           u.screen.Open? && RetainedAt(s.store, path, u.screen.session) && u.openAttempt == s.openAttempt
         else u.screen == Opening(path) && u.openAttempt == s.openAttempt + 1
  {
    hide Inv;
  }

  lemma OpensNumbered(s: State)
    requires Inv(s)
    ensures s.nextOpen !in s.opens
  {
  }

  /** Tasks keep their number, and attempts only grow. */
  ghost predicate AttemptsGrow(s: State, u: State, id: nat) {
    && s.openAttempt <= u.openAttempt && s.nextOpen <= u.nextOpen
    && (id in u.opens ==> id in s.opens && u.opens[id].attempt == s.opens[id].attempt && u.opens[id].path == s.opens[id].path)
  }

  lemma AttemptsGrowTwice(s: State, u: State, v: State, id: nat)
    requires AttemptsGrow(s, u, id) && AttemptsGrow(u, v, id)
    ensures AttemptsGrow(s, v, id)
  {
  }

  lemma SwitchAttempts(s: State, path: Path)
    requires Occupied(s.store, path)
    ensures var u := Switch(s, path); u.opens == s.opens && u.openAttempt == s.openAttempt && u.nextOpen == s.nextOpen
  {
  }

  lemma AfterWriterAttempts(s: State, path: Path, sid: SessionId, durable: bool, pending: Option<SessionId>, syncAfter: bool)
    ensures var u := AfterWriter(s, path, sid, durable, pending, syncAfter);
            u.opens == s.opens && u.openAttempt == s.openAttempt && u.nextOpen == s.nextOpen
  {
    hide RequestSave, MarkPersisted;
  }

  lemma CallbackAttempts(s: State, id: WriterId)
    requires Finished(s.store, id)
    ensures var u := Callback(s, id); u.opens == s.opens && u.openAttempt == s.openAttempt && u.nextOpen == s.nextOpen
  {
    hide RequestSave, SetStatus, Install;
  }

  lemma StepAttempts(s: State, a: Action, id: nat)
    requires Enabled(s, a) && id < s.nextOpen
    ensures AttemptsGrow(s, Next(s, a), id)
  {
    match a
    case CallbackA(w) => CallbackAttempts(s, w); hide Callback;
    case SwitchToA(path) => if Occupied(s.store, path) { SwitchAttempts(s, path); } hide Switch;
    case RequestPasswordA(path) => if Occupied(s.store, path) { SwitchAttempts(s, path); } hide Switch;
    case SubmitPasswordA(path) => if Occupied(s.store, path) { SwitchAttempts(s, path); } hide Switch;
    case _ =>
      OtherAttempts(s, a, id);
      hide Next, Enabled;
  }

  lemma OtherAttempts(s: State, a: Action, id: nat)
    requires Enabled(s, a) && !a.SwitchToA? && !a.RequestPasswordA? && !a.SubmitPasswordA? && !a.CallbackA? && id < s.nextOpen
    ensures AttemptsGrow(s, Next(s, a), id)
  {
    hide RequestSave, RetryAll, Quarantined, AbortSlots, WriteOff, ApplyEdit, AnyPublicationStarted, Occupied;
  }

  lemma {:induction false} AttemptsGrowOn(states: seq<State>, actions: seq<Action>, id: nat, i: nat, k: nat)
    requires IsRun(states, actions) && i <= k < |states| && id < states[i].nextOpen
    ensures AttemptsGrow(states[i], states[k], id)
    decreases k
  {
    hide Enabled, Next, Init;
    if i < k {
      AttemptsGrowOn(states, actions, id, i, k - 1);
      StepAttempts(states[k - 1], actions[k - 1], id);
      AttemptsGrowTwice(states[i], states[k - 1], states[k], id);
    }
  }

  /** Over whole runs: once a password was entered for another opening, the answer of an earlier
      one changes neither the screen nor any document. */
  lemma OvertakenOpenNeverLands(states: seq<State>, actions: seq<Action>, i: nat, k: nat, path: Path, id: nat, decrypted: bool)
    requires IsRun(states, actions) && i < k < |actions|
    requires actions[i] == SubmitPasswordA(path) && states[i + 1].screen == Opening(path)
    requires id in states[i].opens && actions[k] == FinishOpenA(id, decrypted) && id in states[k].opens
    requires !Occupied(states[i].store, path)
    ensures states[k + 1].screen == states[k].screen && states[k + 1].store == states[k].store
  {
    hide Inv, Init;
    RunInv(states, actions, i);
    RunInv(states, actions, k);
    assert states[i + 1] == Next(states[i], actions[i]) && states[k + 1] == Next(states[k], actions[k]);
    hide Enabled, Next, Occupied;
    PasswordShows(states[i], path);
    OpensCounted(states[i], id);
    AttemptsGrowOn(states, actions, id, i + 1, k);
    OpenShows(states[k], id, decrypted);
  }

  lemma OpensCounted(s: State, id: nat)
    requires Inv(s) && id in s.opens
    ensures id < s.nextOpen && s.opens[id].attempt <= s.openAttempt
  {
  }

  // ------------------------------------------------------- which vault is in front

  ghost predicate InFront(s: State, path: Path) {
    s.screen.Open? && RetainedAt(s.store, path, s.screen.session)
  }

  /** What is in front after the user has asked for `path`: its vault if there is one, and otherwise
      what `cold` says. Behind a waiting lock nothing changes. */
  ghost predicate Brings(s: State, u: State, path: Path, cold: Screen) {
    && u.store == s.store
    && if Locked(s) then u.screen == s.screen
       else if Occupied(s.store, path) then InFront(u, path)
       else u.screen == cold
  }

  ghost predicate BringsBack(s: State, u: State) {
    && u.store == s.store
    && if s.parkedOrder == [] then u.screen == s.screen else InFront(u, s.parkedOrder[|s.parkedOrder| - 1])
  }

  /** Switching and asking for a password show what they should. */
  lemma FrontShows(s: State, path: Path)
    requires Inv(s)
    ensures Brings(s, Next(s, SwitchToA(path)), path, s.screen)
    ensures Brings(s, Next(s, RequestPasswordA(path)), path, AwaitingPassword(path))
  {
    AskShows(s, path);
    hide Inv, SwitchTo, RequestPassword, Brings;
  }

  /** Escape brings back the vault that is last in the order of the parked ones. */
  lemma EscapeShows(s: State)
    requires Inv(s) && !s.screen.Open?
    ensures BringsBack(s, Next(s, RehydrateA))
  {
    RehydrateShows(s);
    hide Inv, Rehydrate, BringsBack;
  }

  /** A choice that failed is shown, unless a vault is open or a lock waits. */
  lemma FailureShows(s: State)
    ensures var u := Next(s, FailSelectionA); u.store == s.store && u.parkedOrder == s.parkedOrder
    ensures Next(s, FailSelectionA).screen == if s.screen.Open? || Locked(s) then s.screen else Error
  {
  }

  lemma AskShows(s: State, path: Path)
    requires Inv(s)
    ensures Brings(s, SwitchTo(s, path), path, s.screen)
    ensures Brings(s, RequestPassword(s, path), path, AwaitingPassword(path))
  {
    SwitchShows(s, path);
    hide Inv, Switch, InFront;
  }

  lemma SwitchShows(s: State, path: Path)
    requires Inv(s)
    ensures Occupied(s.store, path) ==> Switch(s, path).store == s.store && InFront(Switch(s, path), path)
  {
  }

  lemma RehydrateShows(s: State)
    requires Inv(s)
    ensures BringsBack(s, Rehydrate(s))
  {
    if s.parkedOrder != [] {
      assert s.parkedOrder[|s.parkedOrder| - 1] in s.parkedOrder;
    }
  }

  // ---------------------------------------------------- the order of the parked vaults

  ghost predicate Distinct(order: seq<Path>) {
    forall i, j :: 0 <= i < j < |order| ==> order[i] != order[j]
  }

  ghost predicate Before(order: seq<Path>, p: Path, q: Path) {
    exists i, j :: 0 <= i < j < |order| && order[i] == p && order[j] == q
  }

  /** A step keeps the order of those that stay, and puts the one that comes last. */
  ghost predicate KeepsOrder(order: seq<Path>, now: seq<Path>) {
    && Distinct(now)
    && forall p <- now, q <- now :: p != q && p in order ==> (Before(now, p, q) <==> q !in order || Before(order, p, q))
  }

  lemma {:induction false} WithoutIs(order: seq<Path>, path: Path)
    requires Distinct(order)
    ensures var r := Without(order, path);
            Distinct(r) && forall p <- r, q <- r :: Before(r, p, q) <==> Before(order, p, q)
  {
    if order != [] {
      var rest := order[1..];
      WithoutIs(rest, path);
      forall p, q ensures Before(order, p, q) <==> (order[0] == p && q in rest) || Before(rest, p, q) {
        BeforeTail(order, p, q);
      }
      var r := Without(order, path);
      if order[0] != path {
        forall p, q ensures Before(r, p, q) <==> (order[0] == p && q in r[1..]) || Before(r[1..], p, q) {
          BeforeTail(r, p, q);
        }
        assert r[1..] == Without(rest, path);
        assert order[0] !in rest;
      }
    }
  }

  lemma BeforeTail(order: seq<Path>, p: Path, q: Path)
    requires order != []
    ensures Before(order, p, q) <==> (order[0] == p && q in order[1..]) || Before(order[1..], p, q)
  {
    var rest := order[1..];
    if Before(order, p, q) {
      var i, j :| 0 <= i < j < |order| && order[i] == p && order[j] == q;
      assert rest[j - 1] == q;
      if i > 0 {
        assert rest[i - 1] == p;
      }
    }
    if order[0] == p && q in rest {
      var j :| 0 <= j < |rest| && rest[j] == q;
      assert order[j + 1] == q;
    }
    if Before(rest, p, q) {
      var i, j :| 0 <= i < j < |rest| && rest[i] == p && rest[j] == q;
      assert order[i + 1] == p && order[j + 1] == q;
    }
  }

  lemma BeforeLast(order: seq<Path>, last: Path, p: Path, q: Path)
    ensures Before(order + [last], p, q) <==> Before(order, p, q) || (p in order && q == last)
  {
    var longer := order + [last];
    if Before(longer, p, q) {
      var i, j :| 0 <= i < j < |longer| && longer[i] == p && longer[j] == q;
      assert order[i] == p;
    }
    if p in order && q == last {
      var i :| 0 <= i < |order| && order[i] == p;
      assert longer[i] == p && longer[|order|] == q;
    }
    if Before(order, p, q) {
      var i, j :| 0 <= i < j < |order| && order[i] == p && order[j] == q;
      assert longer[i] == p && longer[j] == q;
    }
  }

  lemma BeforeIsIn(order: seq<Path>, p: Path, q: Path)
    ensures Before(order, p, q) ==> p in order && q in order
  {
  }

  lemma {:induction false} WithoutAbsent(order: seq<Path>, path: Path)
    requires path !in order
    ensures Without(order, path) == order
  {
    if order != [] {
      WithoutAbsent(order[1..], path);
    }
  }

  /** The order after a vault has been put last, or taken out, or both. */
  lemma MovesKeepOrder(order: seq<Path>, longer: seq<Path>, taken: Path)
    requires Distinct(order) && (longer == order || exists last :: last !in order && longer == order + [last])
    ensures KeepsOrder(order, longer) && KeepsOrder(order, Without(longer, taken))
  {
    if longer != order {
      var last :| last !in order && longer == order + [last];
      forall p, q ensures Before(longer, p, q) <==> Before(order, p, q) || (p in order && q == last) {
        BeforeLast(order, last, p, q);
      }
    }
    forall p, q ensures Before(order, p, q) ==> p in order && q in order {
      BeforeIsIn(order, p, q);
    }
    WithoutIs(longer, taken);
    hide Before, Without;
  }

  lemma ParkOrder(s: State)
    requires Inv(s) && !Locked(s)
    ensures
      var order, u := s.parkedOrder, ParkActive(Rotate(s));
      u.parkedOrder == order || exists last :: last !in order && u.parkedOrder == order + [last]
  {
    if s.screen.Open? {
      var path := s.store.sessions[s.screen.session].path;
      assert path !in s.parkedOrder;
      WithoutAbsent(s.parkedOrder, path);
    }
  }

  lemma SwitchOrder(s: State, path: Path)
    requires Inv(s) && Distinct(s.parkedOrder) && !Locked(s) && Occupied(s.store, path)
    ensures KeepsOrder(s.parkedOrder, Switch(s, path).parkedOrder)
  {
    var longer := ParkActive(Rotate(s)).parkedOrder;
    ParkOrder(s);
    assert Switch(s, path).parkedOrder in {s.parkedOrder, Without(longer, s.store.sessions[SessionAt(s.store, path)].path)} by { hide Inv; }
    hide Switch, KeepsOrder, Inv;
    MovesKeepOrder(s.parkedOrder, longer, s.store.sessions[SessionAt(s.store, path)].path);
    MovesKeepOrder(s.parkedOrder, s.parkedOrder, path);
  }

  lemma ColdOrder(s: State, path: Path)
    requires Inv(s) && Distinct(s.parkedOrder) && !Locked(s) && !Occupied(s.store, path)
    ensures KeepsOrder(s.parkedOrder, RequestPassword(s, path).parkedOrder)
    ensures KeepsOrder(s.parkedOrder, BeginOpen(s, path).parkedOrder)
  {
    ParkOrder(s);
    assert RequestPassword(s, path).parkedOrder == ParkActive(Rotate(s)).parkedOrder == BeginOpen(s, path).parkedOrder by { hide Inv; }
    hide RequestPassword, BeginOpen, KeepsOrder, Inv;
    MovesKeepOrder(s.parkedOrder, ParkActive(Rotate(s)).parkedOrder, path);
  }

  lemma RehydrateOrder(s: State)
    requires Distinct(s.parkedOrder)
    ensures KeepsOrder(s.parkedOrder, Rehydrate(s).parkedOrder)
  {
    var order := s.parkedOrder;
    MovesKeepOrder(order, order, "");
    if order != [] && Occupied(s.store, order[|order| - 1]) {
      MovesKeepOrder(order, order, s.store.sessions[SessionAt(s.store, order[|order| - 1])].path);
    }
    hide KeepsOrder;
  }

  /** Anything else leaves the order, or empties it. */
  lemma OtherOrder(s: State, a: Action)
    requires Enabled(s, a) && !a.SwitchToA? && !a.RequestPasswordA? && !a.SubmitPasswordA? && !a.RehydrateA? && !a.CallbackA?
    ensures Next(s, a).parkedOrder in {s.parkedOrder, []}
  {
    hide RequestSave, RetryAll, Quarantined, AbortSlots, WriteOff, ApplyEdit, AnyPublicationStarted;
  }

  lemma AfterWriterOrder(s: State, path: Path, sid: SessionId, durable: bool, pending: Option<SessionId>, syncAfter: bool)
    ensures AfterWriter(s, path, sid, durable, pending, syncAfter).parkedOrder in {s.parkedOrder, []}
  {
    hide RequestSave, MarkPersisted;
  }

  lemma CallbackOrder(s: State, id: WriterId)
    requires Finished(s.store, id)
    ensures Callback(s, id).parkedOrder in {s.parkedOrder, []}
  {
    hide RequestSave, SetStatus, Install, MarkPersisted;
  }

  lemma StepKeepsOrder(s: State, a: Action)
    requires Inv(s) && Distinct(s.parkedOrder) && Enabled(s, a)
    ensures KeepsOrder(s.parkedOrder, Next(s, a).parkedOrder)
  {
    MovesKeepOrder(s.parkedOrder, s.parkedOrder, "");
    assert KeepsOrder(s.parkedOrder, []);
    hide Inv, KeepsOrder, Distinct, Switch;
    match a
    case SwitchToA(path) => if !Locked(s) && Occupied(s.store, path) { SwitchOrder(s, path); }
    case RequestPasswordA(path) => AskedOrder(s, path);
    case SubmitPasswordA(path) => AskedOrder(s, path);
    case RehydrateA => RehydrateOrder(s);
    case CallbackA(id) =>
      CallbackOrder(s, id);
      hide Callback;
    case _ =>
      OtherOrder(s, a);
      hide Next, Enabled;
  }

  lemma AskedOrder(s: State, path: Path)
    requires Inv(s) && Distinct(s.parkedOrder)
    ensures KeepsOrder(s.parkedOrder, RequestPassword(s, path).parkedOrder)
    ensures KeepsOrder(s.parkedOrder, BeginOpen(s, path).parkedOrder)
  {
    MovesKeepOrder(s.parkedOrder, s.parkedOrder, "");
    hide Inv, KeepsOrder, Distinct, Switch;
    if !Locked(s) {
      if Occupied(s.store, path) { SwitchOrder(s, path); } else { ColdOrder(s, path); }
    }
  }

  lemma {:induction false} RunDistinct(states: seq<State>, actions: seq<Action>, i: nat)
    requires IsRun(states, actions) && i < |states|
    ensures Distinct(states[i].parkedOrder)
    decreases i
  {
    hide Inv, Next, Enabled;
    if i > 0 {
      RunDistinct(states, actions, i - 1);
      RunInv(states, actions, i - 1);
      StepKeepsOrder(states[i - 1], actions[i - 1]);
    }
  }

  ghost predicate ParkedSince(states: seq<State>, j: nat, k: nat, path: Path)
    requires k < |states|
  {
    forall m | j <= m <= k :: path in states[m].parkedOrder
  }

  lemma {:induction false} LongerParkedFirst(states: seq<State>, actions: seq<Action>, j: nat, k: nat, p: Path, q: Path)
    requires IsRun(states, actions) && j <= k < |states|
    requires ParkedSince(states, j, k, p) && q in states[k].parkedOrder && !ParkedSince(states, j, k, q)
    ensures Before(states[k].parkedOrder, p, q)
    decreases k
  {
    hide Inv, Next, Enabled, Before;
    if j < k {
      RunDistinct(states, actions, k - 1);
      RunInv(states, actions, k - 1);
      StepKeepsOrder(states[k - 1], actions[k - 1]);
      if q in states[k - 1].parkedOrder {
        LongerParkedFirst(states, actions, j, k - 1, p, q);
      }
    }
  }

  /** Over whole runs: Escape brings back the vault that was parked last. Whatever else is parked
      was so already when that vault was. */
  lemma EscapeBringsTheLatest(states: seq<State>, actions: seq<Action>, k: nat, path: Path)
    requires IsRun(states, actions) && k < |actions| && actions[k] == RehydrateA && InFront(states[k + 1], path)
    ensures path in states[k].parkedOrder
    ensures forall q <- states[k].parkedOrder, j | 0 <= j <= k && ParkedSince(states, j, k, path) :: ParkedSince(states, j, k, q)
  {
    var s, u := states[k], states[k + 1];
    RunInv(states, actions, k);
    RunInv(states, actions, k + 1);
    RunDistinct(states, actions, k);
    assert Enabled(s, actions[k]) && u == Next(s, actions[k]);
    EscapeShows(s);
    LatestIsLast(s, u, path);
    hide Inv, Next, Enabled, InFront;
    forall q <- s.parkedOrder, j | 0 <= j <= k && ParkedSince(states, j, k, path) ensures ParkedSince(states, j, k, q) {
      if !ParkedSince(states, j, k, q) {
        LongerParkedFirst(states, actions, j, k, path, q);
      }
    }
  }

  lemma LatestIsLast(s: State, u: State, path: Path)
    requires !s.screen.Open? && BringsBack(s, u) && InFront(u, path)
    ensures s.parkedOrder != [] && path == s.parkedOrder[|s.parkedOrder| - 1]
  {
  }
}
