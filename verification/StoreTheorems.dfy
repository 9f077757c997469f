/** What the store protocol guarantees over whole runs. */
module StoreTheorems {
  import opened Wrappers
  import opened JsNumber
  import opened PortfolioContext
  import opened StoreProtocol

  // ---- flags, storage, order ----

  /**
    Before the first refresh the page is loading; from then on `loading` holds exactly while
    the newest refresh is in flight, and `error` is exactly the newest refresh's failure.
   */
  lemma LoadingAndErrorAccurate(cell: Option<string>, first: seq<Card>, es: seq<Event>)
    requires UniqueIds(first)
    ensures
      var w := Run(StoreProtocol.Initial(cell, first), es);
      && (w.store.loading <==> w.store.ref == 0 || w.store.ref in w.gets)
      && (w.store.error.Some? <==> w.store.ref in w.failures)
      && (w.store.error.Some? ==> w.store.error.value == w.failures[w.store.ref] && w.store.ref !in w.gets)
  {
    ReachableInv(cell, first, es);
  }

  /**
    Storage mirrors the selection, except after one race. In every reachable state with
    nothing left to render, the stored id reads back as the selection exactly when the last
    render that had updates to run found no selection waiting behind a list answer that
    picks another id.
   */
  lemma StorageMirrorsSelectionIff(cell: Option<string>, first: seq<Card>, es: seq<Event>)
    requires UniqueIds(first)
    requires Run(StoreProtocol.Initial(cell, first), es).store.queue == []
    ensures
      var w := Run(StoreProtocol.Initial(cell, first), es);
      ReadStoredId(w.store.cell) == w.store.selected <==> (w.batch.Some? ==> Mirrors(w.batch.value))
  {
    hide Mirrors;
    ReachableInv(cell, first, es);
  }

  /** The event puts a selection into the queue. */
  ghost predicate Selects(w: World, e: Event) {
    e.Picked? || e.Created? || (e.Resumed? && e.request in w.ready && HandlerChoice(w.ready[e.request]).Some?)
  }

  /** No selection is made while a list answer waits for its render. */
  ghost predicate RendersFirst(w: World, es: seq<Event>)
    requires w.history != []
    decreases |es|
  {
    es == [] ||
    ((Selects(w, es[0]) ==> forall u | u in w.store.queue :: u.Set?) && RendersFirst(Next(w, es[0]), es[1..]))
  }

  /** No selection stands behind a list answer, neither now nor in the last batch. */
  ghost predicate Orderly(w: World) {
    && (forall i, j | 0 <= i < j < |w.store.queue| && w.store.queue[j].Set? :: w.store.queue[i].Set?)
    && (w.batch.Some? ==> Mirrors(w.batch.value))
  }

  lemma {:induction false} SetsPickNothing(c: Chosen, us: seq<Update>)
    requires forall u | u in us :: u.Set?
    ensures LastPick(c, us) == None
    decreases |us|
  {
    if us != [] {
      assert us[|us| - 1] in us;
      SetsPickNothing(c, us[..|us| - 1]);
    }
  }

  lemma OrderlyMirrors(w: World)
    requires Orderly(w)
    ensures Mirrors(w.store)
  {
    var us := w.store.queue;
    if us != [] && us[|us| - 1].Set? {
      SetsPickNothing(Chosen(w.store.selected, w.store.cell), us);
    }
  }

  lemma NextOrderly(w: World, e: Event)
    requires w.history != [] && Orderly(w)
    requires Selects(w, e) ==> forall u | u in w.store.queue :: u.Set?
    ensures Orderly(Next(w, e))
  {
    hide Mirrors;
    hide GoneAt;
    hide LegalSnapshot;
    hide StoredText;
    hide WithCreated;
    hide ApplyAll;
    if e.Rendered? {
      OrderlyMirrors(w);
    }
  }

  lemma {:induction false} RunOrderly(w: World, es: seq<Event>)
    requires w.history != [] && Orderly(w) && RendersFirst(w, es)
    ensures Orderly(Run(w, es))
    decreases |es|
  {
    hide Next;
    hide Orderly;
    if es != [] {
      NextOrderly(w, es[0]);
      RunOrderly(Next(w, es[0]), es[1..]);
    }
  }

  /**
    Storage agreement for every schedule without the race: if no selection is ever made while
    a list answer waits for its render, storage reads back as the selection whenever nothing is
    left to render, and `prev ?? readStoredId()` is `prev`.
   */
  lemma StorageMirrorsWhenRendersComeFirst(cell: Option<string>, first: seq<Card>, es: seq<Event>)
    requires UniqueIds(first) && RendersFirst(StoreProtocol.Initial(cell, first), es)
    requires Run(StoreProtocol.Initial(cell, first), es).store.queue == []
    ensures
      var s := Run(StoreProtocol.Initial(cell, first), es).store;
      && ReadStoredId(s.cell) == s.selected
      && (if s.selected.Some? then s.selected else ReadStoredId(s.cell)) == s.selected
  {
    hide Mirrors;
    StorageMirrorsSelectionIff(cell, first, es);
    RunOrderly(StoreProtocol.Initial(cell, first), es);
  }

  // ---- at rest ----

  /** The newest request is in flight, has failed, or was the last one applied with no create since. */
  ghost predicate NewestAccounted(w: World) {
    w.store.ref > 0 ==>
      || w.store.ref in w.gets
      || w.store.ref in w.failures
      || (w.applied != [] && w.applied[|w.applied| - 1].request == w.store.ref && w.kept == [])
  }

  lemma NextAccounted(w: World, e: Event)
    requires w.history != [] && NewestAccounted(w)
    ensures NewestAccounted(Next(w, e))
  {
    hide GoneAt;
    hide LegalSnapshot;
    hide StoredText;
    hide WithCreated;
    hide ApplyAll;
  }

  lemma {:induction false} RunAccounted(w: World, es: seq<Event>)
    requires w.history != [] && NewestAccounted(w)
    ensures NewestAccounted(Run(w, es))
    decreases |es|
  {
    hide Next;
    hide NewestAccounted;
    if es != [] {
      NextAccounted(w, es[0]);
      RunAccounted(Next(w, es[0]), es[1..]);
    }
  }

  /**
    At rest the list is the server's: in every reachable state, once mounted, with neither
    loading nor an error, the newest request is the one applied last and the list is exactly
    the snapshot it was answered with.
   */
  lemma ListAtRestIsSnapshot(cell: Option<string>, first: seq<Card>, es: seq<Event>)
    requires UniqueIds(first)
    ensures
      var w := Run(StoreProtocol.Initial(cell, first), es);
      w.store.ref > 0 && !w.store.loading && w.store.error.None? ==>
        && w.applied != []
        && var last := w.applied[|w.applied| - 1];
        && last.request == w.store.ref && last.at < |w.history|
        && w.store.portfolios == w.history[last.at]
  {
    ReachableInv(cell, first, es);
    RunAccounted(StoreProtocol.Initial(cell, first), es);
  }

  // ---- the list page's create and storage ----

  lemma TwoUpdates(c: Chosen, u: Update, v: Update)
    ensures ApplyAll(c, [u, v]) == Apply(Apply(c, u), v)
  {
    hide Apply;
    assert [u, v][..1] == [u] && [u][..0] == [];
    assert ApplyAll(c, [u]) == Apply(c, u);
  }

  /**
    The list page's create runs into that race: its handler goes on before the render, so the
    updater, run last, stores what it picks, and not the created id, which is what is shown.
    The list was answered as asked for and all else was idle.
   */
  lemma HubCreateStoresThePick(w: World, id: Id)
    requires w.history != [] && w.store.queue == []
    ensures
      var r := w.store.ref + 1;
      var end := Next(Next(Next(Next(w, HubCreated(id)), Answered(r, Now(w))), Resumed(r)), Rendered);
      var pick := Choice(w.store.selected, StoredText(Some(id)), w.history[Now(w)]);
      && end.store.selected == Some(Int(id))
      && ReadStoredId(end.store.cell) == AsNum(pick)
      && (ReadStoredId(end.store.cell) == end.store.selected <==> pick == Some(id))
  {
    hide ReadStoredId;
    hide StoredText;
    hide Choice;
    hide Next;
    hide ApplyAll;
    var r := w.store.ref + 1;
    HubCreateQueues(w, id);
    var resumed := Next(Next(Next(w, HubCreated(id)), Answered(r, Now(w))), Resumed(r));
    var u := Reconcile(w.history[Now(w)]);
    var start := Chosen(w.store.selected, StoredText(Some(id)));
    TwoUpdates(start, u, Set(Some(id)));
    var pick := Choice(start.selected, start.cell, w.history[Now(w)]);
    StorageRoundTrip(pick);
    AsNumInjective(pick, Some(id));
    RenderedStore(resumed);
  }

  lemma RenderedStore(w: World)
    requires w.history != []
    ensures Next(w, Rendered).store == Render(w.store)
  {
  }

  /** The handler's selection waits behind the list answer, and is stored already. */
  lemma HubCreateQueues(w: World, id: Id)
    requires w.history != [] && w.store.queue == []
    ensures
      var r := w.store.ref + 1;
      var s := Next(Next(Next(w, HubCreated(id)), Answered(r, Now(w))), Resumed(r)).store;
      && s.queue == [Reconcile(w.history[Now(w)]), Set(Some(id))]
      && s.selected == w.store.selected && s.cell == StoredText(Some(id))
  {
    hide StoredText;
    var r := w.store.ref + 1;
    var asked := Next(w, HubCreated(id));
    assert asked.gets[r] == Now(w) && asked.waiting[r] == SelectCreated(id);
    var answered := Next(asked, Answered(r, Now(w)));
    assert answered.store.queue == [Reconcile(w.history[Now(w)])];
    assert answered.ready[r].task == SelectCreated(id);
  }

  /**
    The list never goes back: applied answers strictly increase in request number and
    never decrease in server time, and no list shows a portfolio twice.
   */
  lemma AppliedAnswersMoveForward(cell: Option<string>, first: seq<Card>, es: seq<Event>, i: nat, j: nat)
    requires UniqueIds(first)
    requires i < j < |Run(StoreProtocol.Initial(cell, first), es).applied|
    ensures
      var w := Run(StoreProtocol.Initial(cell, first), es);
      && w.applied[i].request < w.applied[j].request
      && w.applied[i].at <= w.applied[j].at
      && UniqueIds(w.store.portfolios)
  {
    ReachableInv(cell, first, es);
  }

  /** The event issues a new refresh number. */
  ghost predicate Issues(w: World, e: Event)
    requires w.history != []
  {
    e.Refresh? || e.Created? || e.HubCreated? || (e.Deleted? && GoneAt(w.history, Now(w), e.id))
  }

  ghost predicate Quiet(w: World, es: seq<Event>)
    requires w.history != []
    decreases |es|
  {
    es == [] || (!Issues(w, es[0]) && Quiet(Next(w, es[0]), es[1..]))
  }

  lemma CounterStep(w: World, e: Event)
    requires w.history != []
    ensures Next(w, e).store.ref >= w.store.ref
    ensures Next(w, e).store.ref == w.store.ref <==> !Issues(w, e)
  {
  }

  lemma {:induction false} CounterCountsIssues(w: World, es: seq<Event>)
    requires w.history != []
    ensures Run(w, es).store.ref >= w.store.ref
    ensures Run(w, es).store.ref == w.store.ref <==> Quiet(w, es)
    decreases |es|
  {
    if es != [] {
      CounterStep(w, es[0]);
      CounterCountsIssues(Next(w, es[0]), es[1..]);
    }
  }

  /**
    An answer is applied exactly when nothing issued a refresh, and no create returned, since
    it was asked for, whoever asked: a plain refresh, a create or a delete handler.
   */
  lemma AppliedIffNothingIssuedSince(w: World, e: Event, es: seq<Event>, at: nat)
    requires w.history != [] && Issues(w, e)
    requires
      var asked := Next(w, e);
      var later := Run(asked, es);
      asked.store.ref in later.gets && later.gets[asked.store.ref] <= at < |later.history|
    ensures
      var asked := Next(w, e);
      var later := Run(asked, es);
      var after := Next(later, Answered(asked.store.ref, at));
      && (Quiet(asked, es) ==> after.store.portfolios == later.history[at] && |after.applied| == |later.applied| + 1)
      && (!Quiet(asked, es) ==> after.store == later.store && after.applied == later.applied)
  {
    CounterCountsIssues(Next(w, e), es);
  }

  // ---- create durability ----

  ghost predicate ServerKeeps(w: World, id: Id, since: nat) {
    forall k | since <= k < |w.history| :: ListedAt(w.history, k, id)
  }

  ghost predicate Durable(w: World, id: Id, since: nat) {
    since <= w.floor && (ServerKeeps(w, id, since) ==> Listed(w.store.portfolios, Int(id)))
  }

  lemma NextDurable(w: World, e: Event, id: Id, since: nat)
    requires w.history != [] && AppliedForward(w) && Durable(w, id, since)
    ensures Durable(Next(w, e), id, since)
  {
    var w' := Next(w, e);
    if ServerKeeps(w', id, since) {
      forall k | since <= k < |w.history| ensures ListedAt(w.history, k, id) {
        assert ListedAt(w'.history, k, id);
      }
      if e.Answered? && e.at < |w.history| {
        assert since <= e.at ==> ListedAt(w'.history, e.at, id);
      }
      if e.Created? {
        var c :| c in w.store.portfolios && Int(c.id) == Int(id);
        assert c in w'.store.portfolios;
      }
    }
  }

  lemma {:induction false} RunDurable(w: World, es: seq<Event>, id: Id, since: nat)
    requires Inv(w) && Durable(w, id, since)
    ensures Durable(Run(w, es), id, since)
    decreases |es|
  {
    if es != [] {
      NextInv(w, es[0]);
      NextDurable(w, es[0], id, since);
      RunDurable(Next(w, es[0]), es[1..], id, since);
    }
  }

  /**
    A create that returned shows the summary the POST answered with: its card comes first, with
    the summary's fields and the lifecycle DRAFT if it has none, before the list as it was,
    unless the portfolio is listed already; it is selected, and a refresh is under way.
   */
  lemma CreateShowsSummary(w: World, summary: Summary)
    requires w.history != []
    ensures
      var w' := Next(w, Created(summary));
      var state := match summary.lifecycle case Some(given) => given case None => "DRAFT";
      var card := Card(summary.id, summary.name, summary.description, state, summary.cashRub, summary.positions);
      && w'.store.portfolios
         == (if exists c | c in w.store.portfolios :: c.id == summary.id then w.store.portfolios
             else [card] + w.store.portfolios)
      && Showing(w'.store) == Some(Int(summary.id))
      && w'.store.cell == Some(Decimal(summary.id))
      && w'.store.ref == w.store.ref + 2 && w'.store.ref in w'.gets && w'.store.loading && w'.store.error == None
  {
    hide Showing;
    hide Decimal;
    var card := CreatedCard(summary);
    var kept := w.store.(ref := w.store.ref + 1, portfolios := WithCreated(w.store.portfolios, card));
    ShowsSet(kept, Some(card.id));
    SameShowing(Select(kept, Some(card.id)), Next(w, Created(summary)).store);
  }

  /** `Number("")` is zero, yet an empty cell stores no id. */
  lemma EmptyCellIsNoId()
    ensures ReadStoredId(Some("")) == None && ToNumber("") == Some(Int(0))
  {
  }

  /**
    Once `createPortfolio`'s POST has returned, the created portfolio is listed in every
    later state, whatever older, newer, failing or reordered answers arrive, for as long
    as the server keeps it.
   */
  lemma CreatedStaysListed(cell: Option<string>, first: seq<Card>, before: seq<Event>, summary: Summary,
                           after: seq<Event>)
    requires UniqueIds(first)
    ensures
      var w := Run(StoreProtocol.Initial(cell, first), before);
      var w' := Run(Next(w, Created(summary)), after);
      ServerKeeps(w', summary.id, Now(w)) ==> Listed(w'.store.portfolios, Int(summary.id))
  {
    ReachableInv(cell, first, before);
    var w := Run(StoreProtocol.Initial(cell, first), before);
    var created := Next(w, Created(summary));
    NextInv(w, Created(summary));
    assert Listed(created.store.portfolios, Int(summary.id)) by {
      var card := CreatedCard(summary);
      assert !Listed(w.store.portfolios, Int(card.id)) ==> created.store.portfolios[0] == card;
    }
    RunDurable(created, after, summary.id, Now(w));
  }

  lemma InvServer(w: World)
    requires Inv(w)
    ensures w.history != [] && ServerOk(w.history)
  {
  }

  /** Some create in `es` returned `id`. */
  ghost predicate Creates(es: seq<Event>, id: Id) {
    exists e | e in es :: e.Created? && e.summary.id == id
  }

  /** Since the list page's create: the refresh number rose and every request that can still be applied is younger. */
  ghost predicate AskedSince(w: World, ref: nat, since: nat) {
    ref < w.store.ref && since <= Now(w) && (w.store.ref in w.gets ==> since <= w.gets[w.store.ref])
  }

  lemma NextAskedSince(w: World, e: Event, ref: nat, since: nat)
    requires w.history != [] && AskedSince(w, ref, since)
    ensures AskedSince(Next(w, e), ref, since)
  {
    hide GoneAt;
    hide LegalSnapshot;
  }

  lemma ListUnchanged(w: World, e: Event)
    requires w.history != [] && !e.Created? && |Next(w, e).applied| == |w.applied|
    ensures Next(w, e).store.portfolios == w.store.portfolios
  {
    hide GoneAt;
    hide LegalSnapshot;
    hide StoredText;
    hide ApplyAll;
  }

  lemma CreateLists(items: seq<Card>, card: Card, id: Id)
    ensures Listed(WithCreated(items, card), Int(id)) <==> Listed(items, Int(id)) || card.id == id
  {
    WithAllListed(items, [card], Int(id));
    assert [card][..0] == [];
  }

  lemma ListingStep(w: World, e: Event, id: Id)
    requires w.history != [] && |Next(w, e).applied| == |w.applied|
    ensures Listed(Next(w, e).store.portfolios, Int(id)) <==>
            Listed(w.store.portfolios, Int(id)) || (e.Created? && e.summary.id == id)
  {
    hide Listed;
    hide WithCreated;
    hide StoredText;
    if e.Created? {
      CreateLists(w.store.portfolios, CreatedCard(e.summary), id);
    } else {
      ListUnchanged(w, e);
    }
  }

  lemma AppliedLists(w: World, e: Event, id: Id, ref: nat, since: nat)
    requires Inv(w) && AskedSince(w, ref, since) && ServerKeeps(Next(w, e), id, since)
    requires |Next(w, e).applied| != |w.applied|
    ensures |Next(w, e).applied| > |w.applied| && Listed(Next(w, e).store.portfolios, Int(id))
    ensures since <= Next(w, e).floor
  {
    hide GoneAt;
    hide LegalSnapshot;
    assert ListedAt(Next(w, e).history, e.at, id);
  }

  lemma KeptBefore(w: World, es: seq<Event>, id: Id, since: nat)
    requires w.history != [] && ServerKeeps(Run(w, es), id, since)
    ensures ServerKeeps(w, id, since)
  {
    hide Listed;
    forall k | since <= k < |w.history| ensures ListedAt(w.history, k, id) {
      assert ListedAt(Run(w, es).history, k, id);
    }
  }

  lemma AppliedStep(w: World, e: Event)
    requires w.history != []
    ensures |Next(w, e).applied| >= |w.applied|
  {
    hide GoneAt;
    hide LegalSnapshot;
    hide WithCreated;
  }

  lemma {:induction false} AppliedOnce(w: World, es: seq<Event>)
    requires w.history != []
    ensures |Run(w, es).applied| >= |w.applied|
    decreases |es|
  {
    hide Next;
    if es != [] {
      AppliedStep(w, es[0]);
      AppliedOnce(Next(w, es[0]), es[1..]);
    }
  }

  lemma {:induction false} ListingRun(w: World, es: seq<Event>, id: Id, ref: nat, since: nat)
    requires Inv(w) && AskedSince(w, ref, since) && ServerKeeps(Run(w, es), id, since)
    ensures
      var w' := Run(w, es);
      Listed(w'.store.portfolios, Int(id)) <==>
      Listed(w.store.portfolios, Int(id)) || |w'.applied| > |w.applied| || Creates(es, id)
    decreases |es|
  {
    hide Next;
    hide Inv;
    hide AskedSince;
    hide Listed;
    hide ServerKeeps;
    if es != [] {
      InvServer(w);
      var e, rest := es[0], es[1..];
      var v := Next(w, e);
      NextInv(w, e);
      NextAskedSince(w, e, ref, since);
      KeptBefore(v, rest, id, since);
      AppliedOnce(v, rest);
      assert Creates(es, id) <==> (e.Created? && e.summary.id == id) || Creates(rest, id) by {
        assert forall x :: x in es <==> x == e || x in rest;
      }
      ListingRun(v, rest, id, ref, since);
      if |v.applied| == |w.applied| {
        ListingStep(w, e, id);
      } else {
        AppliedLists(w, e, id, ref, since);
      }
    }
  }

  /**
    The portfolio list page creates without that protection. Whatever happens after its POST
    returned, as long as the server keeps the new portfolio, it is listed exactly when it was
    already, or some answer has been applied since, or a create added it. So it is not enough
    that the follow-up request succeeds: a superseded answer applies nothing. When the
    handler ends, the new id is what is shown as selected, listed or not.
   */
  lemma HubCreateListedIffAnswerApplied(w: World, id: Id, es: seq<Event>)
    requires Inv(w)
    ensures
      var w' := Run(Next(w, HubCreated(id)), es);
      var r := w.store.ref + 1;
      && (ServerKeeps(w', id, Now(w)) ==>
            (Listed(w'.store.portfolios, Int(id)) <==>
             Listed(w.store.portfolios, Int(id)) || |w'.applied| > |w.applied| || Creates(es, id)))
      && (r in w'.ready ==> Showing(Next(w', Resumed(r)).store) == Some(Int(id)))
  {
    hide Next;
    hide Run;
    hide Listed;
    hide ServerKeeps;
    hide Showing;
    hide Owns;
    hide AskedSince;
    InvServer(w);
    HubAsks(w, id);
    NextInv(w, HubCreated(id));
    hide Inv;
    var asked, r := Next(w, HubCreated(id)), w.store.ref + 1;
    InvServer(asked);
    var w' := Run(asked, es);
    if ServerKeeps(w', id, Now(w)) {
      ListingRun(asked, es, id, w.store.ref, Now(w));
    }
    RunOwns(asked, es, r, SelectCreated(id));
    if r in w'.ready {
      HubResumes(w', r, id);
    }
  }

  lemma HubAsks(w: World, id: Id)
    requires Inv(w)
    ensures
      var asked := Next(w, HubCreated(id));
      && Owns(asked, w.store.ref + 1, SelectCreated(id)) && AskedSince(asked, w.store.ref, Now(w))
      && asked.store.portfolios == w.store.portfolios && asked.applied == w.applied
  {
    hide StorageTracked;
    hide ListIsBase;
    ReadyNumbers(w);
    var asked := Next(w, HubCreated(id));
    assert asked.waiting[w.store.ref + 1] == SelectCreated(id);
  }

  lemma HubResumes(w: World, r: nat, id: Id)
    requires w.history != [] && Owns(w, r, SelectCreated(id)) && r in w.ready
    ensures Showing(Next(w, Resumed(r)).store) == Some(Int(id))
  {
    hide Showing;
    ShowsSet(w.store, Some(id));
  }

  lemma ReadyNumbers(w: World)
    requires Inv(w)
    ensures forall r | r in w.ready :: r <= w.store.ref
  {
  }

  lemma ShowsSet(s: Store, id: Option<Id>)
    ensures Showing(Select(s, id)) == AsNum(id)
  {
    assert (s.queue + [Set(id)])[..|s.queue|] == s.queue;
  }

  /** The second way to strand it: the follow-up request succeeds, but another refresh has superseded it. */
  lemma HubCreateStrandedBySecondRefresh(w: World, id: Id)
    requires Inv(w) && ListedAt(w.history, Now(w), id) && !Listed(w.store.portfolios, Int(id))
    ensures
      var r := w.store.ref + 1;
      var end := Next(Next(Next(Next(w, HubCreated(id)), Refresh), Answered(r, Now(w))), Resumed(r));
      Showing(end.store) == Some(Int(id)) && !Listed(end.store.portfolios, Int(id))
  {
    hide Listed;
    hide ListedAt;
    hide Inv;
    hide Showing;
    InvServer(w);
    var r := w.store.ref + 1;
    var asked := Next(w, HubCreated(id));
    assert asked.gets[r] == Now(w) && asked.waiting[r] == SelectCreated(id);
    var second := Next(asked, Refresh);
    assert second.gets[r] == Now(w) && second.waiting[r] == SelectCreated(id);
    var answered := Next(second, Answered(r, Now(w)));
    assert answered.ready[r].task == SelectCreated(id) && answered.store == second.store;
    ShowsSet(answered.store, Some(id));
  }

  // ---- delete, then reselect ----

  /** `id` is gone at the server since snapshot `t`, and the newest refresh was issued no earlier. */
  ghost predicate Barred(w: World, id: Id, t: nat) {
    GoneAt(w.history, t, id) && (w.store.ref in w.gets ==> w.gets[w.store.ref] >= t)
  }

  /** The event itself puts `id` into the selection. */
  ghost predicate Chooses(w: World, e: Event, id: Id) {
    match e
    case Picked(choice) => choice == Some(id)
    case Created(summary) => summary.id == id
    case Resumed(r) =>
      r in w.ready && HandlerChoice(w.ready[r]) == Some(Some(id))
    case _ => false
  }

  ghost predicate NobodyChooses(w: World, es: seq<Event>, id: Id)
    requires w.history != []
    decreases |es|
  {
    es == [] || (!Chooses(w, es[0], id) && NobodyChooses(Next(w, es[0]), es[1..], id))
  }

  lemma NextBarred(w: World, e: Event, id: Id, t: nat)
    requires w.history != [] && Barred(w, id, t)
    ensures Barred(Next(w, e), id, t)
  {
    GoneStays(w.history, Next(w, e).history, t, id);
  }

  /** The last update cannot leave `id` selected; a list answer selects from its list only. */
  ghost predicate Unselected(s: Store, id: Id) {
    if s.queue == [] then s.selected != Some(Int(id))
    else match s.queue[|s.queue| - 1]
      case Set(choice) => choice != Some(id)
      case Reconcile(items) => !Listed(items, Int(id))
  }

  lemma UnselectedShows(s: Store, id: Id)
    requires Unselected(s, id)
    ensures Showing(s) != Some(Int(id))
  {
    hide ReadStoredId;
    if s.queue != [] && s.queue[|s.queue| - 1].Reconcile? {
      var items := s.queue[|s.queue| - 1].items;
      if items != [] {
        assert items[0] in items;
      }
    }
  }

  lemma NextUnselected(w: World, e: Event, id: Id, t: nat)
    requires ServerOk(w.history) && Barred(w, id, t)
    requires Unselected(w.store, id) && !Chooses(w, e, id)
    ensures Unselected(Next(w, e).store, id)
  {
    hide ReadStoredId;
    hide StoredText;
    hide WithCreated;
    hide ApplyAll;
    hide Listed;
    hide LegalSnapshot;
    if e.Answered? && e.request in w.gets && w.gets[e.request] <= e.at < |w.history| && e.request == w.store.ref {
      assert !ListedAt(w.history, e.at, id);
    }
    if e.Rendered? {
      UnselectedShows(w.store, id);
    }
  }

  lemma {:induction false} RunUnselected(w: World, es: seq<Event>, id: Id, t: nat)
    requires Inv(w) && Barred(w, id, t)
    requires Unselected(w.store, id) && NobodyChooses(w, es, id)
    ensures Unselected(Run(w, es).store, id)
    decreases |es|
  {
    hide Inv;
    hide Barred;
    hide Unselected;
    if es != [] {
      InvServer(w);
      NextInv(w, es[0]);
      NextBarred(w, es[0], id, t);
      NextUnselected(w, es[0], id, t);
      RunUnselected(Next(w, es[0]), es[1..], id, t);
    }
  }

  /** Request `r` belongs to `task`, if it still belongs to anything. */
  ghost predicate Owns(w: World, r: nat, task: Task) {
    && r <= w.store.ref
    && (r in w.waiting ==> w.waiting[r] == task)
    && (r in w.ready ==> w.ready[r].task == task)
  }

  lemma NextOwns(w: World, e: Event, r: nat, task: Task)
    requires w.history != [] && Owns(w, r, task)
    ensures Owns(Next(w, e), r, task)
  {
  }

  lemma {:induction false} RunOwns(w: World, es: seq<Event>, r: nat, task: Task)
    requires w.history != [] && Owns(w, r, task)
    ensures Owns(Run(w, es), r, task)
    decreases |es|
  {
    hide Owns;
    if es != [] {
      NextOwns(w, es[0], r, task);
      RunOwns(Next(w, es[0]), es[1..], r, task);
    }
  }

  lemma {:induction false} RunBarred(w: World, es: seq<Event>, id: Id, t: nat, r: nat, task: Task)
    requires Inv(w) && Barred(w, id, t) && Owns(w, r, task)
    ensures var w' := Run(w, es); Inv(w') && Barred(w', id, t) && Owns(w', r, task)
    decreases |es|
  {
    hide Inv;
    hide Barred;
    hide Owns;
    if es != [] {
      InvServer(w);
      NextInv(w, es[0]);
      NextBarred(w, es[0], id, t);
      NextOwns(w, es[0], r, task);
      RunBarred(Next(w, es[0]), es[1..], id, t, r, task);
    }
  }

  lemma HandlerEndsUnselected(w: World, r: nat, id: Id)
    requires w.history != [] && TasksOk(w) && r in w.ready && w.ready[r].task == Reselect(id, true)
    ensures Unselected(Next(w, Resumed(r)).store, id)
  {
    hide StoredText;
    hide GoneAt;
    var items := w.ready[r].items;
    if items != [] {
      assert items[0] in items;
    }
  }

  lemma DeleteAsks(w: World, id: Id)
    requires w.history != [] && FlagsAccurate(w) && TasksOk(w) && GoneAt(w.history, Now(w), id)
    ensures
      var asked := Next(w, Deleted(id, true));
      Barred(asked, id, Now(w)) && Owns(asked, w.store.ref + 1, Reselect(id, true))
  {
    var asked := Next(w, Deleted(id, true));
    var r := w.store.ref + 1;
    assert asked.waiting[r] == Reselect(id, true) && asked.gets[r] == Now(w);
    assert r !in w.ready;
  }

  /**
    Deleting the selected portfolio: whatever happens while the handler waits for its
    refresh (`between`), and whether that refresh is applied, superseded or rejected, the
    deleted id is not shown as selected when the handler ends, nor in any later state, unless
    somebody explicitly chooses it.
   */
  lemma DeletedStaysUnselected(w: World, id: Id, between: seq<Event>, after: seq<Event>)
    requires Inv(w) && GoneAt(w.history, Now(w), id)
    ensures
      var settled := Run(Next(w, Deleted(id, true)), between);
      var end := Next(settled, Resumed(w.store.ref + 1));
      w.store.ref + 1 in settled.ready ==>
        && Showing(end.store) != Some(Int(id))
        && (NobodyChooses(end, after, id) ==> Showing(Run(end, after).store) != Some(Int(id)))
  {
    hide Next;
    hide Run;
    hide ReadStoredId;
    hide GoneAt;
    hide Barred;
    hide FlagsAccurate;
    hide AppliedForward;
    hide Unselected;
    hide Showing;
    var asked := Next(w, Deleted(id, true));
    var r, t := w.store.ref + 1, Now(w);
    NextInv(w, Deleted(id, true));
    DeleteAsks(w, id);
    RunBarred(asked, between, id, t, r, Reselect(id, true));
    var settled := Run(asked, between);
    var end := Next(settled, Resumed(r));
    if r in settled.ready {
      HandlerEndsUnselected(settled, r, id);
      UnselectedShows(end.store, id);
      NextInv(settled, Resumed(r));
      NextBarred(settled, Resumed(r), id, t);
      if NobodyChooses(end, after, id) {
        RunUnselected(end, after, id, t);
        UnselectedShows(Run(end, after).store, id);
      }
    }
  }

  /**
    Deleting a portfolio that was not selected at the click: whatever happens while the handler
    waits, running on changes nothing, neither the selection nor what storage holds.
   */
  lemma DeletingAnotherChangesNothing(w: World, id: Id, between: seq<Event>)
    requires Inv(w) && GoneAt(w.history, Now(w), id)
    ensures
      var r := w.store.ref + 1;
      var settled := Run(Next(w, Deleted(id, false)), between);
      r in settled.ready ==> Next(settled, Resumed(r)).store == settled.store
  {
    hide Run;
    hide GoneAt;
    hide StorageTracked;
    hide ListIsBase;
    var r := w.store.ref + 1;
    var asked := Next(w, Deleted(id, false));
    assert asked.waiting[r] == Reselect(id, false);
    ReadyNumbers(w);
    RunOwns(asked, between, r, Reselect(id, false));
  }

  /** What a delete handler whose refresh settled in `w` ends on. */
  function LandsOn(w: World, r: nat): Option<Id>
    requires r in w.ready && (w.ready[r].from.Some? ==> w.ready[r].from.value < |w.history|)
  {
    if w.ready[r].from.None? then None else FirstId(w.history[w.ready[r].from.value])
  }

  /**
    Where the handler of a deleted selected portfolio ends, over every run in between: on the
    head of the snapshot its own refresh was answered with, or on none if that is empty or was
    rejected. It ends on a portfolio that is not listed exactly when that head is neither in
    the snapshot applied last nor created since. That takes a superseded refresh; a handler
    whose refresh is the newest ends on a listed portfolio or on none.
   */
  lemma DeleteHandlerEndsUnlistedIff(w: World, id: Id, between: seq<Event>)
    requires Inv(w) && GoneAt(w.history, Now(w), id)
    ensures
      var r := w.store.ref + 1;
      var settled := Run(Next(w, Deleted(id, true)), between);
      var end := Next(settled, Resumed(r));
      r in settled.ready ==>
      && (settled.ready[r].from.Some? ==> settled.ready[r].from.value < |settled.history|)
      && var head := LandsOn(settled, r);
      && Showing(end.store) == AsNum(head)
      && ((head.Some? && !Listed(end.store.portfolios, Int(head.value))) <==>
          (head.Some? && !Listed(Base(settled), Int(head.value)) && !Listed(settled.kept, Int(head.value))))
      && (r == settled.store.ref ==> head.Some? ==> Listed(end.store.portfolios, Int(head.value)))
  {
    hide Next;
    hide Run;
    hide ReadStoredId;
    hide GoneAt;
    hide FlagsAccurate;
    hide AppliedForward;
    hide StorageTracked;
    hide Showing;
    hide Barred;
    var r := w.store.ref + 1;
    var asked := Next(w, Deleted(id, true));
    NextInv(w, Deleted(id, true));
    DeleteAsks(w, id);
    RunBarred(asked, between, id, Now(w), r, Reselect(id, true));
    if r in Run(asked, between).ready {
      HandlerLands(Run(asked, between), r, id);
    }
  }

  lemma HandlerLands(w: World, r: nat, id: Id)
    requires Inv(w) && r in w.ready && w.ready[r].task == Reselect(id, true)
    ensures
      var end := Next(w, Resumed(r));
      && (w.ready[r].from.Some? ==> w.ready[r].from.value < |w.history|)
      && var head := LandsOn(w, r);
      && Showing(end.store) == AsNum(head)
      && end.store.portfolios == w.store.portfolios
      && (head.Some? ==>
            (Listed(w.store.portfolios, Int(head.value)) <==>
             Listed(Base(w), Int(head.value)) || Listed(w.kept, Int(head.value))))
      && (r == w.store.ref ==> head.Some? ==> Listed(w.store.portfolios, Int(head.value)))
  {
    hide Showing;
    hide GoneAt;
    var head := LandsOn(w, r);
    ShowsSet(w.store, head);
    if head.Some? {
      WithAllListed(Base(w), w.kept, Int(head.value));
      var items := w.history[w.ready[r].from.value];
      assert items[0] in items;
    }
  }

  /**
    Over every run in between, such a handler ends on a deleted portfolio exactly when the
    server stopped listing the head of its answer after giving it.
   */
  lemma DeleteHandlerEndsDeletedIff(w: World, id: Id, between: seq<Event>)
    requires Inv(w) && GoneAt(w.history, Now(w), id)
    ensures
      var r := w.store.ref + 1;
      var settled := Run(Next(w, Deleted(id, true)), between);
      var end := Next(settled, Resumed(r));
      r in settled.ready ==>
      && (settled.ready[r].from.Some? ==> settled.ready[r].from.value < |settled.history|)
      && var head := LandsOn(settled, r);
      && Showing(end.store) == AsNum(head)
      && (head.Some? ==>
            (GoneAt(end.history, Now(end), head.value) <==> !ListedAt(settled.history, Now(settled), head.value)))
  {
    hide Next;
    hide Run;
    hide Inv;
    hide GoneAt;
    hide Showing;
    hide Barred;
    var r := w.store.ref + 1;
    InvServer(w);
    var asked := Next(w, Deleted(id, true));
    NextInv(w, Deleted(id, true));
    InvAsks(w, id);
    RunBarred(asked, between, id, Now(w), r, Reselect(id, true));
    var settled := Run(asked, between);
    if r in settled.ready {
      HandlerLands(settled, r, id);
      HandlerLandsGone(settled, r);
    }
  }

  lemma InvAsks(w: World, id: Id)
    requires Inv(w) && GoneAt(w.history, Now(w), id)
    ensures
      var asked := Next(w, Deleted(id, true));
      Barred(asked, id, Now(w)) && Owns(asked, w.store.ref + 1, Reselect(id, true))
  {
    hide StorageTracked;
    hide ListIsBase;
    hide GoneAt;
    DeleteAsks(w, id);
  }

  lemma HandlerLandsGone(w: World, r: nat)
    requires Inv(w) && r in w.ready && (w.ready[r].from.Some? ==> w.ready[r].from.value < |w.history|)
    ensures Next(w, Resumed(r)).history == w.history
    ensures LandsOn(w, r).Some? ==>
              (GoneAt(w.history, Now(w), LandsOn(w, r).value) <==> !ListedAt(w.history, Now(w), LandsOn(w, r).value))
  {
    hide Inv;
    hide StoredText;
    InvServer(w);
    if LandsOn(w, r).Some? {
      var at := w.ready[r].from.value;
      assert w.history[at][0] in w.history[at];
      assert ListedAt(w.history, at, LandsOn(w, r).value);
    }
  }

  lemma AppliedUnselects(w: World, e: Event, id: Id, t: nat)
    requires ServerOk(w.history) && Barred(w, id, t) && |Next(w, e).applied| > |w.applied|
    ensures Unselected(Next(w, e).store, id) && !Listed(Next(w, e).store.portfolios, Int(id))
  {
    hide StoredText;
    hide WithCreated;
    hide ApplyAll;
    hide LegalSnapshot;
    assert !ListedAt(w.history, e.at, id);
  }

  lemma {:induction false} RunHeals(w: World, es: seq<Event>, id: Id, t: nat)
    requires Inv(w) && Barred(w, id, t) && NobodyChooses(w, es, id)
    requires Unselected(w.store, id) || |Run(w, es).applied| > |w.applied|
    ensures Unselected(Run(w, es).store, id)
    decreases |es|
  {
    hide Inv;
    hide Barred;
    hide Unselected;
    hide Next;
    hide Chooses;
    if es != [] {
      InvServer(w);
      NextInv(w, es[0]);
      NextBarred(w, es[0], id, t);
      AppliedStep(w, es[0]);
      if |Next(w, es[0]).applied| > |w.applied| {
        AppliedUnselects(w, es[0], id, t);
      } else if Unselected(w.store, id) {
        NextUnselected(w, es[0], id, t);
      }
      RunHeals(Next(w, es[0]), es[1..], id, t);
    }
  }

  /**
    A deleted selection heals: whatever is selected, once any answer has been applied to a
    request issued after the server dropped a portfolio, that portfolio is not shown as
    selected, then and later, unless somebody chooses it again.
   */
  lemma DeletedSelectionHeals(w: World, e: Event, es: seq<Event>, id: Id)
    requires Inv(w) && GoneAt(w.history, Now(w), id) && Issues(w, e)
    requires NobodyChooses(Next(w, e), es, id)
    requires |Run(Next(w, e), es).applied| > |Next(w, e).applied|
    ensures Showing(Run(Next(w, e), es).store) != Some(Int(id))
  {
    hide Run;
    hide Unselected;
    hide Showing;
    NextInv(w, e);
    IssueBars(w, e, id);
    RunHeals(Next(w, e), es, id, Now(w));
    UnselectedShows(Run(Next(w, e), es).store, id);
  }

  lemma IssueBars(w: World, e: Event, id: Id)
    requires w.history != [] && GoneAt(w.history, Now(w), id) && Issues(w, e)
    ensures Barred(Next(w, e), id, Now(w))
  {
    hide StoredText;
    hide WithCreated;
    GoneStays(w.history, Next(w, e).history, Now(w), id);
  }

  /** The event itself empties the selection. */
  ghost predicate Empties(w: World, e: Event) {
    e == Picked(None) || (e.Resumed? && e.request in w.ready && HandlerChoice(w.ready[e.request]) == Some(None))
  }

  ghost predicate NobodyEmpties(w: World, es: seq<Event>)
    requires w.history != []
    decreases |es|
  {
    es == [] || (!Empties(w, es[0]) && NobodyEmpties(Next(w, es[0]), es[1..]))
  }

  /** What is shown as selected depends on the updates and on storage only. */
  lemma SameShowing(s: Store, s': Store)
    requires s'.selected == s.selected && s'.queue == s.queue && s'.cell == s.cell
    ensures Showing(s') == Showing(s)
  {
  }

  lemma NextEmptyOnly(w: World, e: Event)
    requires w.history != [] && !Empties(w, e)
    requires Showing(w.store).None? ==> w.store.portfolios == []
    ensures Showing(Next(w, e).store).None? ==> Next(w, e).store.portfolios == []
  {
    hide Showing;
    hide StoredText;
    hide GoneAt;
    hide LegalSnapshot;
    hide Listed;
    match e
    case Answered(r, at) =>
      if r in w.gets && w.gets[r] <= at < |w.history| && r == w.store.ref {
        AnswerEmptyOnly(w.store, w.history[at]);
      }
    case Picked(choice) => ShowsSet(w.store, choice);
    case Created(summary) =>
      var card := CreatedCard(summary);
      var kept := w.store.(ref := w.store.ref + 1, portfolios := WithCreated(w.store.portfolios, card));
      ShowsSet(kept, Some(card.id));
      SameShowing(Select(kept, Some(card.id)), Next(w, e).store);
    case Resumed(r) =>
      if r in w.ready && HandlerChoice(w.ready[r]).Some? {
        ShowsSet(w.store, HandlerChoice(w.ready[r]).value);
      }
    case Rendered => RenderShows(w.store);
    case _ => SameShowing(w.store, Next(w, e).store);
  }

  lemma RenderShows(s: Store)
    ensures Showing(Render(s)) == Showing(s)
  {
  }

  lemma AnswerEmptyOnly(s: Store, items: seq<Card>)
    ensures var s' := Settle(s, s.ref, Ok(items)); Showing(s').None? ==> s'.portfolios == []
  {
    hide Listed;
    ReconciliationSelectsListed(s, items);
  }

  lemma {:induction false} RunEmptyOnly(w: World, es: seq<Event>)
    requires w.history != [] && NobodyEmpties(w, es)
    requires Showing(w.store).None? ==> w.store.portfolios == []
    ensures Showing(Run(w, es).store).None? ==> Run(w, es).store.portfolios == []
    decreases |es|
  {
    hide Showing;
    hide Empties;
    hide Next;
    if es != [] {
      NextEmptyOnly(w, es[0]);
      RunEmptyOnly(Next(w, es[0]), es[1..]);
    }
  }

  /**
    Nothing is shown as selected only when nothing is listed, unless somebody emptied the
    selection: the app's only caller that does is a delete handler that was handed no items.
   */
  lemma UnselectedMeansEmptyList(cell: Option<string>, first: seq<Card>, es: seq<Event>)
    requires NobodyEmpties(StoreProtocol.Initial(cell, first), es)
    ensures
      var s := Run(StoreProtocol.Initial(cell, first), es).store;
      Showing(s).None? ==> s.portfolios == []
  {
    RunEmptyOnly(StoreProtocol.Initial(cell, first), es);
  }

  /** Portfolio 2 is being deleted: its handler's refresh, number 1, is in flight. */
  ghost function FirstDeleteWaits(x: Card, a: Card, y: Card): World {
    var picked := Next(StoreProtocol.Initial(None, [x, a, y]), Picked(Some(2)));
    Next(Next(picked, ServerMoves([x, y])), Deleted(2, true))
  }

  /** Portfolio 1 is deleted as well, and that handler runs to its end before the first one goes on. */
  ghost function SecondDeleteOvertakes(w: World, y: Card): World
    requires w.history != []
  {
    var asked := Next(Next(w, ServerMoves([y])), Deleted(1, false));
    Next(Next(asked, Answered(2, 2)), Resumed(2))
  }

  lemma FirstDeleteState(x: Card, a: Card, y: Card)
    requires x.id == 1 && a.id == 2 && y.id == 3
    ensures
      var w := FirstDeleteWaits(x, a, y);
      && w.history == [[x, a, y], [x, y]] && w.store.ref == 1
      && w.gets == map[1 := 1] && w.waiting == map[1 := Reselect(2, true)] && w.ready == map[]
  {
    hide ReadStoredId;
    var w0 := Next(StoreProtocol.Initial(None, [x, a, y]), Picked(Some(2)));
    assert UniqueIds([x, y]);
    assert LegalSnapshot(w0.history, [x, y]);
    var w1 := Next(w0, ServerMoves([x, y]));
    assert ListedAt(w1.history, 0, 2) by {
      assert a in w1.history[0];
    }
    assert !ListedAt(w1.history, 1, 2);
  }

  lemma SecondServerMove(history: seq<seq<Card>>, x: Card, y: Card)
    requires x.id == 1 && y.id == 3 && |history| == 2 && history[1] == [x, y]
    ensures LegalSnapshot(history, [y]) && GoneAt(history + [[y]], 2, 1)
  {
    assert ListedAt(history, 1, 3) by {
      assert y in history[1];
    }
    assert ListedAt(history + [[y]], 1, 1) by {
      assert x in (history + [[y]])[1];
    }
    assert !ListedAt(history + [[y]], 2, 1);
  }

  lemma SecondDeleteState(w: World, x: Card, y: Card)
    requires x.id == 1 && y.id == 3
    requires |w.history| == 2 && w.history[1] == [x, y] && w.store.ref == 1
    requires w.gets == map[1 := 1] && w.waiting == map[1 := Reselect(2, true)] && w.ready == map[]
    ensures
      var v := SecondDeleteOvertakes(w, y);
      && v.history == w.history + [[y]] && v.store.ref == 2 && v.store.portfolios == [y]
      && v.gets == map[1 := 1] && v.waiting == map[1 := Reselect(2, true)]
      && GoneAt(v.history, 2, 1)
  {
    hide GoneAt;
    hide LegalSnapshot;
    hide HandlerChoice;
    hide StoredText;
    SecondServerMove(w.history, x, y);
    var moved := Next(w, ServerMoves([y]));
    assert moved.history == w.history + [[y]];
    SecondDeleteSettles(Next(moved, Deleted(1, false)), y);
  }

  lemma SecondDeleteSettles(asked: World, y: Card)
    requires |asked.history| == 3 && asked.history[2] == [y] && asked.store.ref == 2 && asked.ready == map[]
    requires asked.gets == map[1 := 1, 2 := 2] && asked.waiting == map[1 := Reselect(2, true), 2 := Reselect(1, false)]
    ensures
      var v := Next(Next(asked, Answered(2, 2)), Resumed(2));
      && v.history == asked.history && v.store.ref == 2 && v.store.portfolios == [y]
      && v.gets == map[1 := 1] && v.waiting == map[1 := Reselect(2, true)]
  {
    hide StoredText;
    var answered := Next(asked, Answered(2, 2));
    assert answered.gets == map[1 := 1] && answered.waiting == map[1 := Reselect(2, true)];
  }

  /**
    Overlapping deletes can select a deleted portfolio again: the first handler's refresh is
    superseded, but that handler still selects the head of its outdated items. Here
    portfolio 1 ends up selected although it is deleted and no longer listed.
   */
  lemma OverlappingDeletesReselectDeleted(x: Card, a: Card, y: Card)
    requires x.id == 1 && a.id == 2 && y.id == 3
    ensures
      var late := SecondDeleteOvertakes(FirstDeleteWaits(x, a, y), y);
      var w := Next(Next(Next(late, Answered(1, 1)), Resumed(1)), Rendered);
      w.store.selected == Some(Int(1)) && w.store.portfolios == [y] && GoneAt(w.history, Now(w), 1)
  {
    hide FirstDeleteWaits;
    hide SecondDeleteOvertakes;
    hide GoneAt;
    hide Choice;
    FirstDeleteState(x, a, y);
    SecondDeleteState(FirstDeleteWaits(x, a, y), x, y);
    var w := SecondDeleteOvertakes(FirstDeleteWaits(x, a, y), y);
    var answered := Next(w, Answered(1, 1));
    assert answered.ready[1] == Ready(Reselect(2, true), [x, y], Some(1));
    ShowsSet(answered.store, Some(1));
  }

  // ---- refinement ----

  /** What the next render shows and how old it may be: no counters, no queue, no storage, no flags. */
  datatype View = View(list: seq<Card>, selected: Option<Num>, floor: nat)

  datatype Action =
    | Stutter
    | Replace(at: nat, stored: Option<Num>)  // take the server's snapshot `at` and reconcile
    | Prepend(card: Card, at: nat)           // a create returned when the server was at `at`
    | Choose(choice: Option<Id>)

  function ViewOf(w: World): View {
    View(w.store.portfolios, Showing(w.store), w.floor)
  }

  /** An action may only use a snapshot no older than the last one used. */
  predicate Allowed(history: seq<seq<Card>>, v: View, a: Action) {
    match a
    case Replace(at, _) => v.floor <= at < |history|
    case Prepend(_, at) => v.floor <= at < |history|
    case _ => true
  }

  function Act(history: seq<seq<Card>>, v: View, a: Action): View
    requires Allowed(history, v, a)
  {
    match a
    case Stutter => v
    case Replace(at, stored) =>
      var items := history[at];
      var preferred := if v.selected.Some? then v.selected else stored;
      View(items,
           if preferred.Some? && Listed(items, preferred.value) then preferred else AsNum(FirstId(items)), at)
    case Prepend(card, at) =>
      View(if Listed(v.list, Int(card.id)) then v.list else [card] + v.list, Some(Int(card.id)), at)
    case Choose(choice) => v.(selected := AsNum(choice))
  }

  /**
    Superseded answers, failures, new requests, renders and server moves are invisible, and so is a
    delete handler that found another portfolio selected at its click.
   */
  function ActionOf(w: World, e: Event): Action
    requires w.history != []
  {
    match e
    case Answered(r, at) =>
      if r in w.gets && w.gets[r] <= at < |w.history| && r == w.store.ref
      then Replace(at, ReadStoredId(Render(w.store).cell)) else Stutter
    case Picked(choice) => Choose(choice)
    case Created(summary) => Prepend(CreatedCard(summary), Now(w))
    case Resumed(r) =>
      if r !in w.ready then Stutter
      else
        (match w.ready[r].task
         case Reselect(_, wasSelected) => if wasSelected then Choose(FirstId(w.ready[r].items)) else Stutter
         case SelectCreated(id) => Choose(Some(id)))
    case _ => Stutter
  }

  lemma AnswerRefines(s: Store, items: seq<Card>)
    ensures
      var preferred := if Showing(s).Some? then Showing(s) else ReadStoredId(Render(s).cell);
      Showing(Settle(s, s.ref, Ok(items)))
      == if preferred.Some? && Listed(items, preferred.value) then preferred else AsNum(FirstId(items))
  {
    hide ReadStoredId;
    hide StoredText;
    RenderLast(s, items);
  }

  lemma StepRefines(w: World, e: Event, history: seq<seq<Card>>)
    requires w.history != [] && AppliedForward(w) && Next(w, e).history <= history
    ensures var a := ActionOf(w, e); Allowed(history, ViewOf(w), a) && Act(history, ViewOf(w), a) == ViewOf(Next(w, e))
  {
    hide ReadStoredId;
    hide StoredText;
    hide GoneAt;
    hide LegalSnapshot;
    hide Showing;
    hide Render;
    hide Listed;
    match e
    case Answered(r, at) =>
      if r in w.gets && w.gets[r] <= at < |w.history| && r == w.store.ref {
        AnswerRefines(w.store, w.history[at]);
      }
    case Picked(choice) => ShowsSet(w.store, choice);
    case Created(summary) =>
      var card := CreatedCard(summary);
      var kept := w.store.(ref := w.store.ref + 1, portfolios := WithCreated(w.store.portfolios, card));
      ShowsSet(kept, Some(card.id));
      SameShowing(Select(kept, Some(card.id)), Next(w, e).store);
    case Resumed(r) =>
      if r in w.ready && HandlerChoice(w.ready[r]).Some? {
        ShowsSet(w.store, HandlerChoice(w.ready[r]).value);
      }
    case Rendered =>
      RenderShows(w.store);
      RenderKeepsList(w.store);
    case _ => SameShowing(w.store, Next(w, e).store);
  }

  lemma RenderKeepsList(s: Store)
    ensures Render(s).portfolios == s.portfolios
  {
  }

  /** What storage held matters only after the race: otherwise it is the selection itself. */
  lemma StoredIsSelected(w: World, e: Event)
    requires Inv(w) && ActionOf(w, e).Replace?
    requires if w.store.queue != [] then Mirrors(w.store) else w.batch.Some? ==> Mirrors(w.batch.value)
    ensures ActionOf(w, e).stored == ViewOf(w).selected
  {
    hide ReadStoredId;
    hide StoredText;
    hide Mirrors;
    if w.store.queue != [] {
      RenderedStorageAgreesIff(w.store);
    } else {
      NothingToRender(w.store);
    }
  }

  ghost function Actions(w: World, es: seq<Event>): seq<Action>
    requires w.history != []
    decreases |es|
  {
    if es == [] then [] else [ActionOf(w, es[0])] + Actions(Next(w, es[0]), es[1..])
  }

  /** The view reached by the actions, provided each is allowed when it is taken. */
  function ActAll(history: seq<seq<Card>>, v: View, actions: seq<Action>): Option<View>
    decreases |actions|
  {
    if actions == [] then Some(v)
    else if !Allowed(history, v, actions[0]) then None
    else ActAll(history, Act(history, v, actions[0]), actions[1..])
  }

  lemma {:induction false} RunRefinesFrom(w: World, es: seq<Event>, history: seq<seq<Card>>)
    requires Inv(w) && Run(w, es).history <= history
    ensures ActAll(history, ViewOf(w), Actions(w, es)) == Some(ViewOf(Run(w, es)))
    decreases |es|
  {
    if es != [] {
      NextInv(w, es[0]);
      StepRefines(w, es[0], history);
      RunRefinesFrom(Next(w, es[0]), es[1..], history);
      assert Actions(w, es)[1..] == Actions(Next(w, es[0]), es[1..]);
    }
  }

  /** Every run of the provider is a run of the atomic specification over the same server history. */
  lemma RunRefines(cell: Option<string>, first: seq<Card>, es: seq<Event>)
    requires UniqueIds(first)
    ensures
      var w := StoreProtocol.Initial(cell, first);
      var w' := Run(w, es);
      ActAll(w'.history, ViewOf(w), Actions(w, es)) == Some(ViewOf(w'))
  {
    ReachableInv(cell, first, []);
    RunRefinesFrom(StoreProtocol.Initial(cell, first), es, Run(StoreProtocol.Initial(cell, first), es).history);
  }
}
