/**
  The portfolio store against an adversarial network and server.

  The server is its own history of list snapshots. A list GET is answered with the
  snapshot of some moment between its issue and its answer, in any order, or fails.
  Events that are not enabled leave the world unchanged, so every sequence of events
  is a run, and "for all runs" is "for all event sequences".
 */
module StoreProtocol {
  import opened Wrappers
  import opened JsNumber
  import opened PortfolioContext

  /** What a page handler does once the refresh it awaits has settled. */
  datatype Task =
    | Reselect(id: Id, wasSelected: bool)  // a delete handler; the flag was read when the user clicked
    | SelectCreated(id: Id)                // the portfolio list page's create handler

  /** `from` is the snapshot the refresh was answered with, if it was answered. */
  datatype Ready = Ready(task: Task, items: seq<Card>, from: Option<nat>)

  datatype Applied = Applied(request: nat, at: nat)

  datatype Event =
    | Refresh                               // the mount effect, a rename, any other caller
    | Answered(request: nat, at: nat)       // the GET returns the server's snapshot number `at`
    | Rejected(request: nat, message: string)
    | Picked(choice: Option<Id>)            // selectPortfolio from any page
    | Created(summary: Summary)             // createPortfolio's POST returned
    | Deleted(id: Id, wasSelected: bool)    // a delete handler's DELETE returned
    | HubCreated(id: Id)                    // the portfolio list page's own POST returned
    | Resumed(request: nat)                 // a handler runs on after its refresh
    | Rendered                              // React renders: the waiting updates of the selection run
    | ServerMoves(snapshot: seq<Card>)

  datatype World = World(
    store: Store,
    history: seq<seq<Card>>,     // server snapshots so far, never empty
    gets: map<nat, nat>,         // in-flight refresh number -> snapshot number at its issue
    waiting: map<nat, Task>,     // handler awaiting that refresh
    ready: map<nat, Ready>,      // handler whose refresh has settled
    failures: map<nat, string>,  // refresh number -> message, for rejected refreshes
    applied: seq<Applied>,       // refreshes whose answer was applied, in order
    kept: seq<Card>,             // cards of creates since the last applied answer
    floor: nat,                  // no applied list may be older than this snapshot number
    batch: Option<Store>)        // the store just before the last render that had updates to run

  function Now(w: World): int { |w.history| - 1 }

  predicate ListedAt(history: seq<seq<Card>>, k: nat, id: Id) {
    k < |history| && Listed(history[k], Int(id))
  }

  /** The server listed `id` once, and no longer at snapshot `t`. */
  predicate GoneAt(history: seq<seq<Card>>, t: nat, id: Id) {
    t < |history| && !ListedAt(history, t, id) && exists j | 0 <= j < t :: ListedAt(history, j, id)
  }

  /** Ids come from a sequence: a portfolio that left the list never comes back. */
  predicate LegalSnapshot(history: seq<seq<Card>>, snapshot: seq<Card>)
    requires history != []
  {
    && UniqueIds(snapshot)
    && forall c | c in snapshot :: !GoneAt(history, |history| - 1, c.id)
  }

  function Initial(cell: Option<string>, first: seq<Card>): World {
    World(PortfolioContext.Initial(cell), [first], map[], map[], map[], map[], [], [], 0, None)
  }

  /** A caller starts `refreshList`, possibly with work to do afterwards. */
  function Start(w: World, store: Store, task: Option<Task>): World
    requires w.history != []
  {
    w.(store := store,
       gets := w.gets[store.ref := Now(w)],
       waiting := if task.Some? then w.waiting[store.ref := task.value] else w.waiting)
  }

  /** The promise of `refreshList` resolves with `items`; its awaiting handler may go on. */
  function Finish(w: World, request: nat, items: seq<Card>, from: Option<nat>): World {
    w.(gets := w.gets - {request},
       waiting := w.waiting - {request},
       ready := if request in w.waiting then w.ready[request := Ready(w.waiting[request], items, from)] else w.ready)
  }

  /** What a handler selects when it runs on, if it selects at all. */
  function HandlerChoice(ready: Ready): Option<Option<Id>> {
    match ready.task
    case Reselect(_, wasSelected) => if wasSelected then Some(FirstId(ready.items)) else None
    case SelectCreated(id) => Some(Some(id))
  }

  function Resume(s: Store, ready: Ready): Store {
    if HandlerChoice(ready).Some? then Select(s, HandlerChoice(ready).value) else s
  }

  function Next(w: World, e: Event): World
    requires w.history != []
    ensures w.history <= Next(w, e).history
  {
    match e
    case Refresh => Start(w, BeginRefresh(w.store), None)
    case Answered(r, at) =>
      if r in w.gets && w.gets[r] <= at < |w.history| then
        var items := w.history[at];
        var current := r == w.store.ref;
        Finish(w.(store := Settle(w.store, r, Ok(items)),
                  applied := if current then w.applied + [Applied(r, at)] else w.applied,
                  kept := if current then [] else w.kept,
                  floor := if current then at else w.floor), r, items, Some(at))
      else w
    case Rejected(r, message) =>
      if r in w.gets then
        Finish(w.(store := Settle(w.store, r, Failed(message)), failures := w.failures[r := message]), r, [], None)
      else w
    case Picked(choice) => w.(store := Select(w.store, choice))
    case Created(summary) =>
      var card := CreatedCard(summary);
      Start(w, CreateReturned(w.store, card), None).(floor := Now(w), kept := w.kept + [card])
    case Deleted(id, wasSelected) =>
      if GoneAt(w.history, Now(w), id) then
        Start(w, BeginRefresh(w.store), Some(Reselect(id, wasSelected)))
      else w
    case HubCreated(id) => Start(w, BeginRefresh(w.store), Some(SelectCreated(id)))
    case Resumed(r) =>
      if r in w.ready then w.(store := Resume(w.store, w.ready[r]), ready := w.ready - {r}) else w
    case Rendered => w.(store := Render(w.store), batch := if w.store.queue != [] then Some(w.store) else w.batch)
    case ServerMoves(snapshot) =>
      if LegalSnapshot(w.history, snapshot) then w.(history := w.history + [snapshot]) else w
  }

  function Run(w: World, es: seq<Event>): World
    requires w.history != []
    ensures w.history <= Run(w, es).history
    decreases |es|
  {
    if es == [] then w else Run(Next(w, es[0]), es[1..])
  }

  // ---- the server ----

  ghost predicate ServerOk(history: seq<seq<Card>>) {
    && history != []
    && (forall k | 0 <= k < |history| :: UniqueIds(history[k]))
    && (forall t, k, id | 0 <= t <= k < |history| && GoneAt(history, t, id) :: !ListedAt(history, k, id))
  }

  lemma ServerMoveOk(history: seq<seq<Card>>, snapshot: seq<Card>)
    requires ServerOk(history) && LegalSnapshot(history, snapshot)
    ensures ServerOk(history + [snapshot])
  {
    var h' := history + [snapshot];
    var n := |history|;
    forall k, id | 0 <= k < n ensures ListedAt(h', k, id) == ListedAt(history, k, id) {
      assert h'[k] == history[k];
    }
    forall t, k, id | 0 <= t <= k < |h'| && GoneAt(h', t, id) ensures !ListedAt(h', k, id) {
      if t < n {
        var j :| 0 <= j < t && ListedAt(h', j, id);
        assert ListedAt(history, j, id);
        assert GoneAt(history, t, id);
        if k == n {
          assert !ListedAt(history, n - 1, id);
          assert GoneAt(history, n - 1, id);
        }
      }
    }
  }

  // ---- the invariant ----

  /** The stored text reads back as the selection last rendered. */
  ghost predicate StorageAgrees(w: World) {
    ReadStoredId(w.store.cell) == w.store.selected
  }

  /**
    A waiting selection is stored already; with nothing waiting, the last batch of updates
    decides whether storage agrees.
   */
  ghost predicate StorageTracked(w: World) {
    && (LastSet(w.store.queue).Some? ==> w.store.cell == StoredText(LastSet(w.store.queue).value))
    && (w.store.queue == [] ==> (StorageAgrees(w) <==> (w.batch.Some? ==> Mirrors(w.batch.value))))
  }

  /** `loading` says whether the newest refresh is in flight; `error` is the newest refresh's failure. */
  ghost predicate FlagsAccurate(w: World) {
    && (forall r | r in w.gets :: 1 <= r <= w.store.ref && w.gets[r] <= Now(w) && r !in w.failures)
    && (forall r | r in w.failures :: 1 <= r <= w.store.ref)
    && (w.store.ref > 0 ==> (w.store.loading <==> w.store.ref in w.gets))
    && (w.store.ref == 0 ==> w.store.loading)
    && w.store.error == (if w.store.ref in w.failures then Some(w.failures[w.store.ref]) else None)
  }

  ghost predicate Forward(applied: seq<Applied>) {
    forall i, j | 0 <= i < j < |applied| ::
      applied[i].request < applied[j].request && applied[i].at <= applied[j].at
  }

  /** Applied answers move forward in request number and in server time. */
  ghost predicate AppliedForward(w: World) {
    && w.floor <= Now(w)
    && (w.store.ref in w.gets ==> w.floor <= w.gets[w.store.ref])
    && Forward(w.applied)
    && (forall a | a in w.applied :: a.request <= w.store.ref && a.request !in w.gets && a.at <= w.floor)
  }

  /** The last answer applied. */
  function Base(w: World): seq<Card> {
    if w.applied == [] then []
    else
      var at := w.applied[|w.applied| - 1].at;
      if at < |w.history| then w.history[at] else []
  }

  /** A list with created cards put in front, one after the other. */
  function WithAll(items: seq<Card>, created: seq<Card>): seq<Card>
    decreases |created|
  {
    if created == [] then items else WithCreated(WithAll(items, created[..|created| - 1]), created[|created| - 1])
  }

  /** The list is the last applied snapshot with the cards of later creates in front. */
  ghost predicate ListIsBase(w: World) {
    && (forall a | a in w.applied :: a.at < |w.history|)
    && w.store.portfolios == WithAll(Base(w), w.kept)
  }

  /** A delete handler never holds a list that still contains what it deleted. */
  ghost predicate TasksOk(w: World) {
    && (forall r | r in w.waiting :: r in w.gets)
    && (forall r | r in w.ready :: r <= w.store.ref && r !in w.gets)
    && (forall r | r in w.waiting && w.waiting[r].Reselect? :: GoneAt(w.history, w.gets[r], w.waiting[r].id))
    && (forall r | r in w.ready && w.ready[r].task.Reselect? ::
          !Listed(w.ready[r].items, Int(w.ready[r].task.id)))
  }

  /**
    A handler holds the items its refresh was answered with; if that is still the newest, they
    are what was applied last.
   */
  ghost predicate HandlersHold(w: World) {
    && (forall r | r in w.ready ::
          && (w.ready[r].from.Some? ==> w.ready[r].from.value < |w.history|)
          && w.ready[r].items == if w.ready[r].from.Some? then w.history[w.ready[r].from.value] else [])
    && (w.store.ref in w.ready && w.ready[w.store.ref].from.Some? ==>
          && w.applied != [] && w.applied[|w.applied| - 1] == Applied(w.store.ref, w.ready[w.store.ref].from.value)
          && w.kept == [])
  }

  ghost predicate Inv(w: World) {
    && ServerOk(w.history)
    && UniqueIds(w.store.portfolios)
    && StorageTracked(w)
    && FlagsAccurate(w)
    && AppliedForward(w)
    && ListIsBase(w)
    && TasksOk(w)
    && HandlersHold(w)
  }

  lemma NextServer(w: World, e: Event)
    requires ServerOk(w.history) && UniqueIds(w.store.portfolios)
    ensures ServerOk(Next(w, e).history) && UniqueIds(Next(w, e).store.portfolios)
  {
    hide GoneAt;
    if e.ServerMoves? && LegalSnapshot(w.history, e.snapshot) {
      ServerMoveOk(w.history, e.snapshot);
    }
    if e.Created? {
      var card := CreatedCard(e.summary);
      assert !Listed(w.store.portfolios, Int(card.id)) ==>
          forall c | c in w.store.portfolios :: c.id != card.id;
    }
  }

  lemma SelectTracked(s: Store, id: Option<Id>)
    ensures var q := Select(s, id).queue; q != [] && LastSet(q) == Some(id) && Select(s, id).cell == StoredText(id)
  {
  }

  lemma NextStorage(w: World, e: Event)
    requires w.history != [] && StorageTracked(w)
    ensures StorageTracked(Next(w, e))
  {
    hide ReadStoredId;
    hide StoredText;
    hide Mirrors;
    hide GoneAt;
    hide LegalSnapshot;
    hide ApplyAll;
    var s := w.store;
    match e
    case Answered(r, at) =>
      if r in w.gets && w.gets[r] <= at < |w.history| {
        var u := Reconcile(w.history[at]);
        assert (s.queue + [u])[..|s.queue|] == s.queue;
      }
    case Picked(choice) => SelectTracked(s, choice);
    case Created(summary) =>
      var card := CreatedCard(summary);
      SelectTracked(s.(ref := s.ref + 1, portfolios := WithCreated(s.portfolios, card)), Some(card.id));
    case Resumed(r) =>
      if r in w.ready && HandlerChoice(w.ready[r]).Some? {
        SelectTracked(s, HandlerChoice(w.ready[r]).value);
      }
    case Rendered =>
      if s.queue != [] {
        RenderedStorageAgreesIff(s);
      } else {
        NothingToRender(s);
      }
    case _ =>
  }

  lemma NextFlags(w: World, e: Event)
    requires w.history != [] && FlagsAccurate(w)
    ensures FlagsAccurate(Next(w, e))
  {
    hide GoneAt;
    hide WithCreated;
    hide StoredText;
  }

  lemma NextApplied(w: World, e: Event)
    requires w.history != [] && FlagsAccurate(w) && AppliedForward(w)
    ensures AppliedForward(Next(w, e))
  {
    if e.Answered? && e.request in w.gets && w.gets[e.request] <= e.at < |w.history| {
      AnsweredApplied(w, e.request, e.at);
    }
  }

  lemma ForwardExtends(applied: seq<Applied>, last: Applied)
    requires Forward(applied)
    requires forall a | a in applied :: a.request < last.request && a.at <= last.at
    ensures Forward(applied + [last])
  {
  }

  lemma AnsweredApplied(w: World, r: nat, at: nat)
    requires w.history != [] && FlagsAccurate(w) && AppliedForward(w)
    requires r in w.gets && w.gets[r] <= at < |w.history|
    ensures AppliedForward(Next(w, Answered(r, at)))
  {
    if r == w.store.ref {
      ForwardExtends(w.applied, Applied(r, at));
    }
  }

  lemma GoneStays(history: seq<seq<Card>>, more: seq<seq<Card>>, t: nat, id: Id)
    requires GoneAt(history, t, id) && history <= more
    ensures GoneAt(more, t, id)
  {
    var j :| 0 <= j < t && ListedAt(history, j, id);
    assert ListedAt(more, j, id);
  }

  lemma FinishTasks(w: World, r: nat, items: seq<Card>, from: Option<nat>)
    requires TasksOk(w) && r in w.gets && r <= w.store.ref
    requires r in w.waiting && w.waiting[r].Reselect? ==> !Listed(items, Int(w.waiting[r].id))
    ensures TasksOk(Finish(w, r, items, from))
  {
    hide Listed;
    hide GoneAt;
  }

  lemma AnsweredTasks(w: World, r: nat, at: nat)
    requires ServerOk(w.history) && FlagsAccurate(w) && TasksOk(w)
    requires r in w.gets && w.gets[r] <= at < |w.history|
    ensures TasksOk(Next(w, Answered(r, at)))
  {
    var items, current := w.history[at], r == w.store.ref;
    var w1 := w.(store := Settle(w.store, r, Ok(items)),
                 applied := if current then w.applied + [Applied(r, at)] else w.applied,
                 kept := if current then [] else w.kept,
                 floor := if current then at else w.floor);
    assert r in w.waiting && w.waiting[r].Reselect? ==> !ListedAt(w.history, at, w.waiting[r].id);
    FinishTasks(w1, r, items, Some(at));
  }

  lemma StartTasks(w: World, store: Store, task: Option<Task>)
    requires w.history != [] && TasksOk(w) && w.store.ref < store.ref
    requires task.Some? && task.value.Reselect? ==> GoneAt(w.history, Now(w), task.value.id)
    requires forall r | r in w.gets :: r <= w.store.ref
    ensures TasksOk(Start(w, store, task))
  {
    hide Listed;
    hide GoneAt;
  }

  lemma RejectedTasks(w: World, r: nat, message: string)
    requires w.history != [] && TasksOk(w) && r in w.gets && r <= w.store.ref
    ensures TasksOk(Next(w, Rejected(r, message)))
  {
    hide GoneAt;
    hide Finish;
    FinishTasks(w.(store := Settle(w.store, r, Failed(message)), failures := w.failures[r := message]), r, [], None);
  }

  lemma ServerMovesTasks(w: World, snapshot: seq<Card>)
    requires w.history != [] && TasksOk(w)
    ensures TasksOk(Next(w, ServerMoves(snapshot)))
  {
    hide GoneAt;
    hide LegalSnapshot;
    var w' := Next(w, ServerMoves(snapshot));
    forall r | r in w.waiting && w.waiting[r].Reselect?
      ensures GoneAt(w'.history, w'.gets[r], w'.waiting[r].id)
    {
      GoneStays(w.history, w'.history, w.gets[r], w.waiting[r].id);
    }
  }

  lemma NextTasks(w: World, e: Event)
    requires ServerOk(w.history) && FlagsAccurate(w) && TasksOk(w)
    ensures TasksOk(Next(w, e))
  {
    hide WithCreated;
    hide StoredText;
    hide Listed;
    hide GoneAt;
    hide LegalSnapshot;
    hide Finish;
    hide Start;
    hide ApplyAll;
    var s := w.store;
    match e
    case Refresh => StartTasks(w, BeginRefresh(s), None);
    case HubCreated(id) => StartTasks(w, BeginRefresh(s), Some(SelectCreated(id)));
    case Deleted(id, wasSelected) =>
      if GoneAt(w.history, Now(w), id) {
        StartTasks(w, BeginRefresh(s), Some(Reselect(id, wasSelected)));
      }
    case Created(summary) => StartTasks(w, CreateReturned(s, CreatedCard(summary)), None);
    case ServerMoves(snapshot) => ServerMovesTasks(w, snapshot);
    case Answered(r, at) =>
      if r in w.gets && w.gets[r] <= at < |w.history| {
        AnsweredTasks(w, r, at);
      }
    case Rejected(r, message) =>
      if r in w.gets {
        RejectedTasks(w, r, message);
      }
    case _ =>
  }

  lemma SameBase(w: World, w': World)
    requires ListIsBase(w) && w.history <= w'.history
    requires w'.applied == w.applied && w'.kept == w.kept && w'.store.portfolios == w.store.portfolios
    ensures ListIsBase(w')
  {
    assert Base(w') == Base(w);
  }

  lemma AnsweredBase(w: World, r: nat, at: nat)
    requires w.history != [] && ListIsBase(w) && r in w.gets && w.gets[r] <= at < |w.history|
    ensures ListIsBase(Next(w, Answered(r, at)))
  {
    hide WithCreated;
    if r != w.store.ref {
      SameBase(w, Next(w, Answered(r, at)));
    }
  }

  lemma NextBase(w: World, e: Event)
    requires w.history != [] && ListIsBase(w)
    ensures ListIsBase(Next(w, e))
  {
    hide GoneAt;
    hide LegalSnapshot;
    hide WithCreated;
    hide StoredText;
    hide ApplyAll;
    hide Listed;
    hide ListIsBase;
    match e
    case Answered(r, at) =>
      if r in w.gets && w.gets[r] <= at < |w.history| {
        AnsweredBase(w, r, at);
      }
    case Created(summary) => CreatedBase(w, summary);
    case _ => SameBase(w, Next(w, e));
  }

  lemma CreatedBase(w: World, summary: Summary)
    requires w.history != [] && ListIsBase(w)
    ensures ListIsBase(Next(w, Created(summary)))
  {
    hide WithCreated;
    hide StoredText;
    assert (w.kept + [CreatedCard(summary)])[..|w.kept|] == w.kept;
    assert Base(Next(w, Created(summary))) == Base(w);
  }

  lemma {:induction false} WithAllListed(items: seq<Card>, created: seq<Card>, n: Num)
    ensures Listed(WithAll(items, created), n) <==> Listed(items, n) || Listed(created, n)
    decreases |created|
  {
    if created != [] {
      var front, card := created[..|created| - 1], created[|created| - 1];
      WithAllListed(items, front, n);
      assert created == front + [card];
      var before := WithAll(items, front);
      assert Listed([card] + before, n) <==> Int(card.id) == n || Listed(before, n);
      assert Listed(created, n) <==> Listed(front, n) || Int(card.id) == n;
    }
  }

  lemma FinishHandlers(w: World, r: nat, items: seq<Card>, from: Option<nat>)
    requires HandlersHold(w) && TasksOk(w) && r in w.gets
    requires (from.Some? ==> from.value < |w.history|) && items == if from.Some? then w.history[from.value] else []
    requires r == w.store.ref && from.Some? ==>
               w.applied != [] && w.applied[|w.applied| - 1] == Applied(r, from.value) && w.kept == []
    ensures HandlersHold(Finish(w, r, items, from))
  {
    hide Listed;
    hide GoneAt;
  }

  lemma AnsweredHandlers(w: World, r: nat, at: nat)
    requires w.history != [] && FlagsAccurate(w) && TasksOk(w) && HandlersHold(w)
    requires r in w.gets && w.gets[r] <= at < |w.history|
    ensures HandlersHold(Next(w, Answered(r, at)))
  {
    hide Listed;
    hide GoneAt;
    hide Finish;
    var items, current := w.history[at], r == w.store.ref;
    var w1 := w.(store := Settle(w.store, r, Ok(items)),
                 applied := if current then w.applied + [Applied(r, at)] else w.applied,
                 kept := if current then [] else w.kept,
                 floor := if current then at else w.floor);
    assert TasksOk(w1) && HandlersHold(w1);
    FinishHandlers(w1, r, items, Some(at));
  }

  lemma RejectedHandlers(w: World, r: nat, message: string)
    requires w.history != [] && FlagsAccurate(w) && TasksOk(w) && HandlersHold(w) && r in w.gets
    ensures HandlersHold(Next(w, Rejected(r, message)))
  {
    hide Listed;
    hide GoneAt;
    hide Finish;
    var w1 := w.(store := Settle(w.store, r, Failed(message)), failures := w.failures[r := message]);
    assert TasksOk(w1) && HandlersHold(w1);
    FinishHandlers(w1, r, [], None);
  }

  lemma NextHandlers(w: World, e: Event)
    requires w.history != [] && FlagsAccurate(w) && TasksOk(w) && HandlersHold(w)
    ensures HandlersHold(Next(w, e))
  {
    hide GoneAt;
    hide LegalSnapshot;
    hide WithCreated;
    hide StoredText;
    hide Listed;
    hide ApplyAll;
    hide Finish;
    match e
    case Answered(r, at) =>
      if r in w.gets && w.gets[r] <= at < |w.history| {
        AnsweredHandlers(w, r, at);
      }
    case Rejected(r, message) =>
      if r in w.gets {
        RejectedHandlers(w, r, message);
      }
    case _ =>
  }

  lemma NextInv(w: World, e: Event)
    requires Inv(w)
    ensures Inv(Next(w, e))
  {
    NextServer(w, e);
    NextStorage(w, e);
    NextFlags(w, e);
    NextApplied(w, e);
    NextTasks(w, e);
    NextBase(w, e);
    NextHandlers(w, e);
  }

  lemma {:induction false} RunInv(w: World, es: seq<Event>)
    requires Inv(w)
    ensures Inv(Run(w, es))
    decreases |es|
  {
    if es != [] {
      NextInv(w, es[0]);
      RunInv(Next(w, es[0]), es[1..]);
    }
  }

  /** Every reachable state of the store, under every schedule, satisfies the invariant. */
  lemma ReachableInv(cell: Option<string>, first: seq<Card>, es: seq<Event>)
    requires UniqueIds(first)
    ensures Inv(Run(Initial(cell, first), es))
  {
    var w := Initial(cell, first);
    assert forall id :: !GoneAt(w.history, 0, id);
    RunInv(w, es);
  }

  // ---- the provider object in a run ----

  /** One event as it happens to the provider object; `w` is the world before it. */
  method Perform(p: PortfolioProvider, w: World, e: Event)
    requires w.history != [] && p.State() == w.store
    modifies p
    ensures p.State() == Next(w, e).store
  {
    match e
    case Refresh => var _ := p.RefreshStarts();
    case Answered(r, at) =>
      if r in w.gets && w.gets[r] <= at < |w.history| {
        var _ := p.RefreshAnswered(r, Some(w.history[at]));
      }
    case Rejected(r, message) =>
      if r in w.gets {
        var _ := p.RefreshFailed(r, message);
      }
    case Picked(choice) => p.SelectPortfolio(choice);
    case Created(summary) => var _, _ := p.PostAnswered(summary);
    case Deleted(id, _) =>
      if GoneAt(w.history, Now(w), id) {
        var _ := p.RefreshStarts();
      }
    case HubCreated(_) => var _ := p.RefreshStarts();
    case Resumed(r) =>
      if r in w.ready && HandlerChoice(w.ready[r]).Some? {
        p.SelectPortfolio(HandlerChoice(w.ready[r]).value);
      }
    case Rendered => p.Rerender();
    case ServerMoves(_) =>
  }

  /**
    The provider object driven through any run ends in the state the run computes: every
    theorem about runs is about it.
   */
  method Drive(stored: Option<string>, first: seq<Card>, es: seq<Event>) returns (p: PortfolioProvider)
    ensures p.State() == Run(Initial(stored, first), es).store
  {
    p := new PortfolioProvider(stored);
    var w := Initial(stored, first);
    for i := 0 to |es|
      invariant w.history != [] && p.State() == w.store
      invariant Run(w, es[i..]) == Run(Initial(stored, first), es)
    {
      Perform(p, w, es[i]);
      w := Next(w, es[i]);
      assert es[i..][1..] == es[i + 1..];
    }
  }
}
