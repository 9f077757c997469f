/**
  The single-portfolio page: which portfolio it shows, the two routing effects, its seven
  tab resources, and the decision snapshot offered for capture.

  The page runs against any behaviour of the portfolio provider and of the child panels.
  Each event is followed by its commit: effects with the rendered values, one routing
  effect if enabled, and the effects of the render that follows.
 */
module MyPortfolioPage {
  import opened Wrappers
  import opened JsText
  import opened JsNumber
  import opened PageKeys
  import Provider = PortfolioContext
  import T = TabResource

  datatype Tab = Holdings | History | DecisionTab | AnalysisTab | Payments | CompareTab | RebalanceTab

  /** What the decision panel reports: a fingerprint and a cash amount, both possibly missing. */
  datatype Reported = Reported(fingerprint: Option<string>, newCash: Option<string>)

  /**
    A calculation the panel asked for. It keeps the callback of the render it was asked in, so
    `pid` and `version` are that render's portfolio and data version.
   */
  datatype Ask = Ask(pid: Option<Id>, version: nat, askedAt: nat)

  /** One `onDecisionChange` call. */
  datatype Call = Call(ask: Ask, reported: Option<Reported>)

  datatype Snapshot = Snapshot(portfolioId: Id, newCash: Option<Num>, fingerprint: string)

  /** The `:portfolioId` segment of the route, if it has one, with the id it names, if it names one. */
  datatype Route = NoSegment | Segment(text: string, id: Option<Num>)

  datatype Page = Page(
    portfolios: seq<Provider.Card>, selected: Option<Num>, listLoading: bool,  // from the provider
    route: Route,
    tab: Tab, isUser: bool, dataVersion: nat,
    hooks: map<Kind, T.Hook<Request>>,
    captured: Option<Snapshot>, captureDeps: (Option<Id>, nat), tabDep: Tab,
    clock: nat,          // server time
    mutatedAt: nat,      // server time of the last reported mutation
    asks: seq<Ask>,      // every calculation asked for so far
    calls: seq<Call>,    // every onDecisionChange call so far
    clearedAt: nat)      // number of calls made when an effect last cleared the snapshot

  // ---- pure parts ----

  /** The memoised reading of a route segment: only a positive integer is an id. */
  function ReadRoute(segment: Option<string>): Route {
    if segment.None? || segment.value == "" then NoSegment
    else
      Segment(segment.value,
              match ToNumber(segment.value)
              case Some(Int(n)) => if n > 0 then Some(Int(n)) else None
              case _ => None)
  }

  predicate RouteResolved(p: Page) {
    p.route.Segment? && p.route.id.Some? && Provider.Listed(p.portfolios, p.route.id.value)
  }

  /** The portfolio the page works on. */
  function ShownId(p: Page): Option<Id> {
    if p.route.Segment? then
      if RouteResolved(p) then Some(p.route.id.value.n) else None
    else if p.listLoading then None
    else if p.selected.Some? && Provider.Listed(p.portfolios, p.selected.value) then Some(p.selected.value.n)
    else None
  }

  function Active(kind: Kind, p: Page): bool {
    var shown := ShownId(p).Some?;
    match kind
    case Summary => shown
    case Analysis => shown && p.tab == AnalysisTab
    case Decision => shown && p.tab == DecisionTab
    case Cashflows => shown && p.tab == Payments
    case Compare => shown && p.tab == CompareTab
    case Rebalance => shown && p.tab == RebalanceTab
    case Coverage => p.tab == AnalysisTab
  }

  function RequestOf(p: Page): Request {
    Request(ShownId(p), p.isUser, p.dataVersion, p.clock)
  }

  // ---- effects ----

  datatype Routing = Stay | SelectRoute(selection: Num) | Navigate(segment: string)

  /** The enabled routing effect. */
  function RoutingEffect(p: Page): Routing {
    if RouteResolved(p) && p.route.id != p.selected then SelectRoute(p.route.id.value)
    else if !p.listLoading && p.route.NoSegment? && p.selected.Some? then Navigate(NumText(p.selected.value))
    else Stay
  }

  function SyncHooks(p: Page): Page {
    p.(hooks := map k: Kind | k in p.hooks :: T.Sync(p.hooks[k], Active(k, p), KeyOf(k, RequestOf(p)), RequestOf(p)))
  }

  /** The two effects that drop the decision snapshot, each when its dependencies changed. */
  function ClearCapture(p: Page): Page {
    var moved := (ShownId(p), p.dataVersion) != p.captureDeps;
    var left := p.tab != p.tabDep && p.tab != DecisionTab;
    p.(captureDeps := (ShownId(p), p.dataVersion), tabDep := p.tab,
       captured := if moved || left then None else p.captured,
       clearedAt := if moved || left then |p.calls| else p.clearedAt)
  }

  function Effects(p: Page): Page {
    SyncHooks(ClearCapture(p))
  }

  /** What the enabled routing effect changes. */
  function Routed(p: Page): Page {
    match RoutingEffect(p)
    case Stay => p
    case SelectRoute(selection) => p.(selected := Some(selection))
    case Navigate(segment) => p.(route := ReadRoute(Some(segment)))
  }

  function Commit(p: Page): Page {
    Effects(Routed(Effects(p)))
  }

  // ---- events ----

  datatype Event =
    | ProviderChanged(portfolios: seq<Provider.Card>, selected: Option<Num>, listLoading: bool)
    | RouteChanged(segment: Option<string>)
    | TabPicked(tab: Tab)
    | RoleChanged(isUser: bool)
    | Mutated                    // a panel reports a finished mutation; server time passes
    | Tick                       // server time passes
    | Network(kind: Kind, reply: T.Event<Request>)
    | DecisionAsked
    | DecisionReported(ask: nat, reported: Option<Reported>)  // however late, and however often

  /** The number a cash text reads as, if it is finite and positive. */
  function PositiveCash(raw: Option<string>): Option<Num> {
    var cash := if raw.None? || raw.value == "" then None else ToNumber(raw.value);
    if cash.Some? && Positive(cash.value) then cash else None
  }

  function Normalised(call: Call): Option<Snapshot> {
    if call.ask.pid.None? || call.reported.None? then None
    else
      var fp := if call.reported.value.fingerprint.Some? then Trim(call.reported.value.fingerprint.value) else "";
      if fp == "" then None
      else
        Some(Snapshot(call.ask.pid.value, PositiveCash(call.reported.value.newCash), fp))
  }

  function Handle(p: Page, e: Event): Page {
    match e
    case ProviderChanged(portfolios, selected, listLoading) =>
      if selected.Some? && !Proper(selected.value) then p
      else p.(portfolios := portfolios, selected := selected, listLoading := listLoading)
    case RouteChanged(segment) => p.(route := ReadRoute(segment))
    case TabPicked(tab) => p.(tab := tab)
    case RoleChanged(isUser) => p.(isUser := isUser)
    case Mutated => p.(dataVersion := p.dataVersion + 1, mutatedAt := p.clock + 1, clock := p.clock + 1)
    case Tick => p.(clock := p.clock + 1)
    case Network(kind, reply) =>
      if kind in p.hooks && (reply.Answered? || reply.Failed?) then
        p.(hooks := p.hooks[kind := T.Settle(p.hooks[kind], reply)])
      else p
    case DecisionAsked => p.(asks := p.asks + [Ask(ShownId(p), p.dataVersion, p.clock)])
    case DecisionReported(n, reported) =>
      if n < |p.asks| then
        var call := Call(p.asks[n], reported);
        p.(captured := Normalised(call), calls := p.calls + [call])
      else p
  }

  function Next(p: Page, e: Event): Page {
    Commit(Handle(p, e))
  }

  function NoLoads(): map<Kind, T.Hook<Request>> {
    map[Summary := T.NewHook(), Analysis := T.NewHook(), Decision := T.NewHook(), Cashflows := T.NewHook(),
        Compare := T.NewHook(), Rebalance := T.NewHook(), Coverage := T.NewHook()]
  }

  /** The first render, before its effects. */
  function Rendered(stored: Option<Num>, segment: Option<string>, tab: Tab, isUser: bool): Page {
    Page([], stored, true, ReadRoute(segment), tab, isUser, 0, NoLoads(), None, (None, 0), tab, 0, 0, [], [], 0)
  }

  function Mount(stored: Option<Num>, segment: Option<string>, tab: Tab, isUser: bool): Page {
    Commit(Rendered(stored, segment, tab, isUser))
  }

  function Run(p: Page, es: seq<Event>): Page
    decreases |es|
  {
    if es == [] then p else Run(Next(p, es[0]), es[1..])
  }

  // ---- routing ----

  /** The two routing effects are never both enabled. */
  lemma RoutingEffectsExclusive(p: Page)
    ensures !((RouteResolved(p) && p.route.id != p.selected)
              && (!p.listLoading && p.route.NoSegment? && p.selected.Some?))
  {
  }

  /** For a given list, one firing settles routing: afterwards neither effect is enabled. */
  lemma RoutingSettlesAtOnce(p: Page)
    requires p.selected.Some? ==> Proper(p.selected.value)
    ensures RoutingEffect(Routed(p)) == Stay
  {
    hide ToNumber;
    hide NumText;
    if RoutingEffect(p).Navigate? {
      NumTextReads(p.selected.value);
    }
  }

  /** Routing never changes which portfolio is shown, because portfolio ids are positive. */
  lemma RoutingKeepsShownPortfolio(p: Page)
    requires p.selected.Some? ==> Proper(p.selected.value)
    requires forall c | c in p.portfolios :: c.id > 0
    ensures ShownId(Routed(p)) == ShownId(p)
  {
    hide ToNumber;
    hide NumText;
    if RoutingEffect(p).Navigate? {
      NumTextReads(p.selected.value);
    }
  }

  /** The shown portfolio, and whatever routing selects, is in the loaded list. */
  lemma ShownIsListed(p: Page)
    ensures ShownId(p).Some? ==> Provider.Listed(p.portfolios, Int(ShownId(p).value))
    ensures RoutingEffect(p).SelectRoute? ==> Provider.Listed(p.portfolios, RoutingEffect(p).selection)
  {
  }

  /**
    Which portfolio the page works on: the listed one its route names, or, without a route
    segment and once the list is ready, the selected one if it is listed; otherwise none.
   */
  lemma ShownIdIff(p: Page, id: Id)
    ensures ShownId(p) == Some(id) <==>
            && Provider.Listed(p.portfolios, Int(id))
            && if p.route.Segment? then p.route.id == Some(Int(id)) else !p.listLoading && p.selected == Some(Int(id))
  {
  }

  /** A route segment names the positive integer it reads as, if it reads as one; an empty one is none. */
  lemma RouteNames(segment: Option<string>, n: Num)
    ensures ReadRoute(segment).Segment? <==> segment.Some? && segment.value != ""
    ensures ReadRoute(segment).Segment? ==>
              && ReadRoute(segment).text == segment.value
              && (ReadRoute(segment).id == Some(n) <==> ToNumber(segment.value) == Some(n) && n.Int? && n.n > 0)
  {
    hide ToNumber;
  }

  /**
    Route and selection agree: a route naming a listed portfolio selects it, and a selection
    beside a ready list has a route.
   */
  ghost predicate RouteSettled(p: Page) {
    && (p.route.Segment? && p.route.id.Some? && Provider.Listed(p.portfolios, p.route.id.value) ==>
          p.selected == p.route.id)
    && (!p.listLoading && p.selected.Some? ==> p.route.Segment?)
  }

  /** What one firing of the effects does, told by list, route and selection alone. */
  ghost predicate RoutedFrom(before: Page, after: Page) {
    var route, selected := before.route, before.selected;
    if route.Segment? then
      && after.route == route
      && after.selected == if route.id.Some? && Provider.Listed(before.portfolios, route.id.value)
                           then route.id else selected
    else
      && after.selected == selected
      && if before.listLoading || selected.None? then after.route == route
         else
           && after.route.Segment? && ToNumber(after.route.text) == selected
           && after.route == ReadRoute(Some(after.route.text))
  }

  lemma RoutedIsRoutedFrom(p: Page)
    requires p.selected.Some? ==> Proper(p.selected.value)
    ensures RoutedFrom(p, Routed(p))
  {
    hide ToNumber;
    hide NumText;
    if p.selected.Some? {
      NumTextReads(p.selected.value);
    }
  }

  lemma EffectsKeepRoute(p: Page)
    ensures
      var q := Effects(p);
      && q.route == p.route && q.selected == p.selected
      && q.portfolios == p.portfolios && q.listLoading == p.listLoading
      && q.tab == p.tab && q.isUser == p.isUser && q.dataVersion == p.dataVersion
  {
    hide KeyOf;
    hide ShownId;
    hide Active;
    hide T.Sync;
  }

  lemma CommitRoutes(p: Page)
    requires p.selected.Some? ==> Proper(p.selected.value)
    ensures RoutedFrom(p, Commit(p)) && RouteSettled(Commit(p))
  {
    hide Effects;
    hide Routed;
    hide ToNumber;
    EffectsKeepRoute(p);
    RoutedIsRoutedFrom(Effects(p));
    RoutedKeepsList(Effects(p));
    EffectsKeepRoute(Routed(Effects(p)));
  }

  /**
    Routing, step by step: after every event the page's effects leave a route segment as it is and
    make the portfolio it names, if listed, the selection; without a segment, once the list is
    ready, they navigate to one that reads back as the selection.
   */
  lemma RoutingStep(p: Page, e: Event)
    requires Settled(p)
    ensures RoutedFrom(Handle(p, e), Next(p, e)) && RouteSettled(Next(p, e))
  {
    hide Handle;
    hide Commit;
    hide RoutedFrom;
    hide RouteSettled;
    hide HookOk;
    hide InSync;
    HandleOk(p, e);
    CommitRoutes(Handle(p, e));
  }

  lemma RoutedKeepsList(p: Page)
    ensures Routed(p).portfolios == p.portfolios && Routed(p).listLoading == p.listLoading
  {
    hide RoutingEffect;
    hide ToNumber;
  }

  /** A route that is opened is read, and a list the provider reports is the page's. */
  lemma InputsTakeEffect(p: Page, segment: Option<string>, items: seq<Provider.Card>, chosen: Option<Num>, busy: bool)
    requires Settled(p) && (chosen.Some? ==> Proper(chosen.value))
    ensures segment.Some? && segment.value != "" ==> Next(p, RouteChanged(segment)).route == ReadRoute(segment)
    ensures var q := Next(p, ProviderChanged(items, chosen, busy)); q.portfolios == items && q.listLoading == busy
  {
    hide Effects;
    hide Routed;
    hide ReadRoute;
    hide HookOk;
    hide InSync;
    RouteNames(segment, Int(1));
    var routed, reported := Handle(p, RouteChanged(segment)), Handle(p, ProviderChanged(items, chosen, busy));
    CommitRoutes(routed);
    EffectsKeepRoute(reported);
    RoutedKeepsList(Effects(reported));
    EffectsKeepRoute(Routed(Effects(reported)));
  }

  /** In every state the page settles in, route and selection agree. */
  lemma RouteIsSelection(stored: Option<Num>, segment: Option<string>, tab: Tab, isUser: bool, es: seq<Event>)
    requires stored.Some? ==> Proper(stored.value)
    ensures RouteSettled(Run(Mount(stored, segment, tab, isUser), es))
  {
    hide RouteSettled;
    hide Settled;
    hide Next;
    hide Commit;
    var start := Mount(stored, segment, tab, isUser);
    if es == [] {
      CommitRoutes(Rendered(stored, segment, tab, isUser));
    } else {
      var front, e := es[..|es| - 1], es[|es| - 1];
      assert es == front + [e];
      MountSettled(stored, segment, tab, isUser);
      RunSettled(start, front);
      RunSnoc(start, front, e);
      RoutingStep(Run(start, front), e);
    }
  }

  lemma {:induction false} RunSnoc(p: Page, es: seq<Event>, e: Event)
    ensures Run(p, es + [e]) == Next(Run(p, es), e)
    decreases |es|
  {
    hide Next;
    if es == [] {
      assert [] + [e] == [e] && [e][1..] == [];
      assert Run(p, [e]) == Run(Next(p, e), []);
    } else {
      assert (es + [e])[1..] == es[1..] + [e];
      RunSnoc(Next(p, es[0]), es[1..], e);
    }
  }

  // ---- freshness ----

  /** What a resource holds or awaits: asked under its own key, in the past, after the mutation its version counts. */
  ghost predicate AskedProperly(k: Kind, key: string, r: Request, p: Page) {
    && key == KeyOf(k, r)
    && r.version <= p.dataVersion && r.issuedAt <= p.clock
    && (r.version == p.dataVersion ==> p.mutatedAt <= r.issuedAt)
  }

  ghost predicate HookOk(k: Kind, h: T.Hook<Request>, p: Page) {
    && T.LatestWins(h) && T.LoadsOk(h)
    && (forall n | n in h.loads :: AskedProperly(k, h.loads[n].key, h.loads[n].request, p))
    && (h.core.shown.data.Some? ==>
          AskedProperly(k, h.core.shown.data.value.key, h.core.shown.data.value.request, p))
  }

  ghost predicate InSync(k: Kind, h: T.Hook<Request>, p: Page) {
    h.mounted && h.active == Active(k, p) && h.key == KeyOf(k, RequestOf(p))
  }

  predicate RouteIsInteger(route: Route) {
    route.Segment? && route.id.Some? ==> route.id.value.Int?
  }

  ghost predicate HooksOk(p: Page) {
    && p.mutatedAt <= p.clock
    && (p.selected.Some? ==> Proper(p.selected.value)) && RouteIsInteger(p.route)
    && forall k: Kind :: k in p.hooks && HookOk(k, p.hooks[k], p)
  }

  ghost predicate Settled(p: Page) {
    HooksOk(p) && forall k: Kind :: InSync(k, p.hooks[k], p)
  }

  lemma SyncOk(k: Kind, h: T.Hook<Request>, p: Page)
    requires HookOk(k, h, p) && p.mutatedAt <= p.clock
    ensures
      var h' := T.Sync(h, Active(k, p), KeyOf(k, RequestOf(p)), RequestOf(p));
      HookOk(k, h', p) && InSync(k, h', p)
  {
    hide KeyOf;
    hide ShownId;
    hide Active;
    hide T.Sync;
    T.SyncLatestWins(h, Active(k, p), KeyOf(k, RequestOf(p)), RequestOf(p));
    T.SyncKeeps(h, Active(k, p), KeyOf(k, RequestOf(p)), RequestOf(p));
    hide T.LatestWins;
    hide T.LoadsOk;
  }

  lemma EffectsOnHook(p: Page, k: Kind)
    requires k in p.hooks
    ensures
      var q := Effects(p);
      && k in q.hooks
      && q.hooks[k] == T.Sync(p.hooks[k], Active(k, q), KeyOf(k, RequestOf(q)), RequestOf(q))
      && q == p.(hooks := q.hooks, captureDeps := q.captureDeps, tabDep := q.tabDep, captured := q.captured,
                 clearedAt := q.clearedAt)
  {
    hide KeyOf;
    hide T.Sync;
    hide ToNumber;
    var c := ClearCapture(p);
    assert ShownId(c) == ShownId(p) && ShownId(SyncHooks(c)) == ShownId(c);
  }

  lemma EffectsSettle(p: Page)
    requires HooksOk(p)
    ensures Settled(Effects(p))
  {
    hide KeyOf;
    hide HookOk;
    hide T.Sync;
    hide Effects;
    hide ShownId;
    hide Active;
    var q := Effects(p);
    EffectsOnHook(p, Summary);
    forall k: Kind
      ensures k in q.hooks && HookOk(k, q.hooks[k], q) && InSync(k, q.hooks[k], q)
    {
      EffectsOnHook(p, k);
      SameContext(k, p.hooks[k], p, q);
      SyncOk(k, p.hooks[k], q);
    }
  }

  /** A hook stays well-behaved as the page around it changes, as long as versions and times agree. */
  lemma SameContext(k: Kind, h: T.Hook<Request>, p: Page, q: Page)
    requires HookOk(k, h, p)
    requires p.clock <= q.clock
    requires (q.dataVersion == p.dataVersion && q.mutatedAt == p.mutatedAt) || q.dataVersion > p.dataVersion
    ensures HookOk(k, h, q)
  {
    hide KeyOf;
  }

  lemma ContextHooks(p: Page, q: Page)
    requires HooksOk(p) && q.hooks == p.hooks && q.mutatedAt <= q.clock
    requires (q.selected.Some? ==> Proper(q.selected.value)) && RouteIsInteger(q.route)
    requires p.clock <= q.clock
    requires (q.dataVersion == p.dataVersion && q.mutatedAt == p.mutatedAt) || q.dataVersion > p.dataVersion
    ensures HooksOk(q)
  {
    hide HookOk;
    forall k: Kind ensures k in q.hooks && HookOk(k, q.hooks[k], q) {
      SameContext(k, p.hooks[k], p, q);
    }
  }

  lemma CommitSettles(p: Page)
    requires HooksOk(p)
    ensures Settled(Commit(p)) && RoutingEffect(Commit(p)) == Stay
  {
    hide HooksOk;
    hide InSync;
    hide ToNumber;
    EffectsSettle(p);
    var q := Effects(p);
    assert HooksOk(Routed(q)) by {
      RoutedOk(q);
    }
    assert q.selected.Some? ==> Proper(q.selected.value) by {
      RoutedOk(q);
    }
    EffectsSettle(Routed(q));
    RoutingSettlesAtOnce(q);
    assert RoutingEffect(Commit(p)) == RoutingEffect(Routed(q));
  }

  lemma RoutedOk(q: Page)
    requires HooksOk(q)
    ensures HooksOk(Routed(q)) && (q.selected.Some? ==> Proper(q.selected.value))
  {
    hide HookOk;
    hide ToNumber;
    ContextHooks(q, Routed(q));
  }

  lemma HandleOk(p: Page, e: Event)
    requires HooksOk(p)
    ensures HooksOk(Handle(p, e))
  {
    hide HookOk;
    var q := Handle(p, e);
    if e.Network? {
      if e.kind in p.hooks && (e.reply.Answered? || e.reply.Failed?) {
        SettleOk(e.kind, p.hooks[e.kind], p, e.reply);
        forall k: Kind ensures k in q.hooks && HookOk(k, q.hooks[k], q) {
          SameContext(k, q.hooks[k], p, q);
        }
      }
    } else {
      ContextHooks(p, q);
    }
  }

  lemma SettleOk(k: Kind, h: T.Hook<Request>, p: Page, reply: T.Event<Request>)
    requires HookOk(k, h, p) && (reply.Answered? || reply.Failed?)
    ensures HookOk(k, T.Settle(h, reply), p)
  {
    hide KeyOf;
    T.NextLatestWins(h, reply);
  }

  lemma {:induction false} RunSettled(p: Page, es: seq<Event>)
    requires Settled(p)
    ensures Settled(Run(p, es))
    decreases |es|
  {
    hide HooksOk;
    hide InSync;
    hide Commit;
    hide Handle;
    if es != [] {
      HandleOk(p, es[0]);
      CommitSettles(Handle(p, es[0]));
      RunSettled(Next(p, es[0]), es[1..]);
    }
  }

  lemma MountSettled(stored: Option<Num>, segment: Option<string>, tab: Tab, isUser: bool)
    requires stored.Some? ==> Proper(stored.value)
    ensures Settled(Mount(stored, segment, tab, isUser))
  {
    hide Commit;
    var p := Rendered(stored, segment, tab, isUser);
    forall k: Kind ensures k in p.hooks && p.hooks[k] == T.NewHook() {
      match k
      case Summary => case Analysis => case Decision => case Cashflows =>
      case Compare => case Rebalance => case Coverage =>
    }
    CommitSettles(p);
  }

  /** The request is for the portfolio, role and version now current, and was issued after the last mutation. */
  ghost predicate Fresh(p: Page, k: Kind, r: Request) {
    && r.version == p.dataVersion
    && r.issuedAt >= p.mutatedAt
    && (k != Coverage ==> ShownId(p).Some? && r.portfolio == ShownId(p))
    && (k == Summary ==> r.isUser == p.isUser)
  }

  /** If resource `k` shows data, the request it answers is fresh. */
  ghost predicate DataFresh(p: Page, k: Kind) {
    k in p.hooks
    && (p.hooks[k].core.shown.data.Some? ==> Fresh(p, k, p.hooks[k].core.shown.data.value.request))
  }

  lemma FreshWhenSettled(p: Page, k: Kind)
    requires Settled(p)
    ensures DataFresh(p, k)
  {
    hide KeyOf;
    hide ShownId;
    assert HookOk(k, p.hooks[k], p) && InSync(k, p.hooks[k], p);
    if p.hooks[k].core.shown.data.Some? {
      KeysInjective(k, p.hooks[k].core.shown.data.value.request, RequestOf(p));
    }
  }

  /**
    Whole-page freshness. In every state the page settles in, whatever the provider, the
    panels and the network did: data shown by any of the seven resources answers a request
    for the current data version, issued after the last reported mutation; for the six
    portfolio resources the request named the portfolio now shown, and for the summary also
    the current role.
   */
  lemma {:induction false} ShownDataIsFresh(stored: Option<Num>, segment: Option<string>, tab: Tab, isUser: bool,
                                            es: seq<Event>, k: Kind)
    requires stored.Some? ==> Proper(stored.value)
    ensures DataFresh(Run(Mount(stored, segment, tab, isUser), es), k)
  {
    MountSettled(stored, segment, tab, isUser);
    RunSettled(Mount(stored, segment, tab, isUser), es);
    FreshWhenSettled(Run(Mount(stored, segment, tab, isUser), es), k);
  }

  /** The resource is wanted: its tab is open and, for all but the fund coverage, a portfolio is shown. */
  ghost predicate Wanted(p: Page, k: Kind) {
    match k
    case Summary => ShownId(p).Some?
    case Analysis => ShownId(p).Some? && p.tab == AnalysisTab
    case Decision => ShownId(p).Some? && p.tab == DecisionTab
    case Cashflows => ShownId(p).Some? && p.tab == Payments
    case Compare => ShownId(p).Some? && p.tab == CompareTab
    case Rebalance => ShownId(p).Some? && p.tab == RebalanceTab
    case Coverage => p.tab == AnalysisTab
  }

  /** A wanted resource shows exactly one of a spinner, data and an error, any other nothing. */
  ghost predicate ShownAsWanted(p: Page, k: Kind) {
    k in p.hooks &&
    var r := p.hooks[k].core.shown;
    if Wanted(p, k) then
      && (r.loading || r.data.Some? || r.error.Some?)
      && !(r.loading && r.data.Some?) && !(r.loading && r.error.Some?) && !(r.data.Some? && r.error.Some?)
    else !r.loading && r.data.None? && r.error.None?
  }

  lemma SettledShows(p: Page, k: Kind)
    requires Settled(p)
    ensures ShownAsWanted(p, k)
  {
    hide KeyOf;
    hide ShownId;
    assert HookOk(k, p.hooks[k], p) && InSync(k, p.hooks[k], p);
  }

  /** In every state the page settles in, the open tab's resources, and no others, are loading, shown or failed. */
  lemma OpenTabIsLoaded(stored: Option<Num>, segment: Option<string>, tab: Tab, isUser: bool, es: seq<Event>, k: Kind)
    requires stored.Some? ==> Proper(stored.value)
    ensures ShownAsWanted(Run(Mount(stored, segment, tab, isUser), es), k)
  {
    hide ShownAsWanted;
    hide Settled;
    MountSettled(stored, segment, tab, isUser);
    RunSettled(Mount(stored, segment, tab, isUser), es);
    SettledShows(Run(Mount(stored, segment, tab, isUser), es), k);
  }

  lemma CommitOnHook(p: Page, k: Kind)
    requires k in p.hooks
    ensures
      var m, q := Effects(p), Commit(p);
      && k in q.hooks
      && q.hooks[k] == T.Sync(T.Sync(p.hooks[k], Active(k, m), KeyOf(k, RequestOf(m)), RequestOf(m)),
                              Active(k, q), KeyOf(k, RequestOf(q)), RequestOf(q))
      && q.dataVersion == p.dataVersion && q.isUser == p.isUser && q.tab == p.tab && q.clock == p.clock
  {
    hide Effects;
    hide KeyOf;
    hide Active;
    hide T.Sync;
    hide RoutingEffect;
    EffectsOnHook(p, k);
    EffectsOnHook(Routed(Effects(p)), k);
  }

  lemma CommitReloads(p: Page, k: Kind)
    requires k in p.hooks && p.hooks[k].mounted
    ensures
      var q := Commit(p);
      Active(k, q) && (!p.hooks[k].active || p.hooks[k].key != KeyOf(k, RequestOf(q))) ==>
        k in q.hooks && q.hooks[k].core.shown == T.Resource(None, true, None)
  {
    hide Commit;
    hide Effects;
    hide KeyOf;
    hide Active;
    hide T.Sync;
    CommitOnHook(p, k);
    var m, q := Effects(p), Commit(p);
    if Active(k, q) && (!p.hooks[k].active || p.hooks[k].key != KeyOf(k, RequestOf(q))) {
      T.TwoSyncsLoad(p.hooks[k], Active(k, m), KeyOf(k, RequestOf(m)), RequestOf(m),
                     Active(k, q), KeyOf(k, RequestOf(q)), RequestOf(q));
    }
  }

  /** The resource shows nothing but its spinner, if it is wanted. */
  ghost predicate Reloads(p: Page, k: Kind) {
    Wanted(p, k) ==> k in p.hooks && p.hooks[k].core.shown == T.Resource(None, true, None)
  }

  /** A reported mutation raises the version by one, and every wanted resource loads anew. */
  lemma MutationReloads(p: Page, k: Kind)
    requires Settled(p)
    ensures var q := Next(p, Mutated); q.dataVersion == p.dataVersion + 1 && Reloads(q, k)
  {
    hide Commit;
    hide KeyOf;
    hide HookOk;
    hide ShownId;
    var h := Handle(p, Mutated);
    assert InSync(k, p.hooks[k], p) && k in h.hooks;
    CommitOnHook(h, k);
    if Active(k, Commit(h)) {
      if KeyOf(k, RequestOf(p)) == KeyOf(k, RequestOf(Commit(h))) {
        KeysInjective(k, RequestOf(p), RequestOf(Commit(h)));
      }
      CommitReloads(h, k);
    }
  }

  /** A change of role takes effect, and the summary, if wanted, loads anew. */
  lemma RoleChangeReloads(p: Page)
    requires Settled(p)
    ensures var q := Next(p, RoleChanged(!p.isUser)); q.isUser != p.isUser && Reloads(q, Summary)
  {
    hide Commit;
    hide KeyOf;
    hide HookOk;
    hide ShownId;
    var h := Handle(p, RoleChanged(!p.isUser));
    assert InSync(Summary, p.hooks[Summary], p) && Summary in h.hooks;
    CommitOnHook(h, Summary);
    if Active(Summary, Commit(h)) {
      if KeyOf(Summary, RequestOf(p)) == KeyOf(Summary, RequestOf(Commit(h))) {
        KeysInjective(Summary, RequestOf(p), RequestOf(Commit(h)));
      }
      CommitReloads(h, Summary);
    }
  }

  /** A tab that is picked is open, and what it wants and was not wanted before starts loading. */
  lemma PickedTabLoads(p: Page, tab: Tab, k: Kind)
    requires Settled(p) && !Wanted(p, k)
    ensures var q := Next(p, TabPicked(tab)); q.tab == tab && Reloads(q, k)
  {
    hide Commit;
    hide KeyOf;
    hide HookOk;
    hide ShownId;
    var h := Handle(p, TabPicked(tab));
    assert InSync(k, p.hooks[k], p) && k in h.hooks;
    CommitOnHook(h, k);
    if Active(k, Commit(h)) {
      CommitReloads(h, k);
    }
  }

  // ---- requests ----

  ghost predicate OldOrListed(before: T.Hook<Request>, after: T.Hook<Request>, portfolios: seq<Provider.Card>) {
    forall n | n in after.loads ::
      || (n in before.loads && before.loads[n].request == after.loads[n].request)
      || (after.loads[n].request.portfolio.Some?
          && Provider.Listed(portfolios, Int(after.loads[n].request.portfolio.value)))
  }

  lemma EffectsAskForListed(p: Page, k: Kind)
    requires k in p.hooks && k != Coverage
    ensures var q := Effects(p); k in q.hooks && q.portfolios == p.portfolios
                                 && OldOrListed(p.hooks[k], q.hooks[k], p.portfolios)
  {
    hide KeyOf;
    hide Effects;
    EffectsOnHook(p, k);
    ShownIsListed(Effects(p));
    hide ShownId;
  }

  /** A commit asks for nothing but portfolios in the loaded list: every other request in flight was so before. */
  lemma RequestsNameListedPortfolios(p: Page, k: Kind)
    requires k in p.hooks && k != Coverage
    ensures k in Commit(p).hooks && Commit(p).portfolios == p.portfolios
    ensures OldOrListed(p.hooks[k], Commit(p).hooks[k], p.portfolios)
  {
    hide Effects;
    hide RoutingEffect;
    EffectsAskForListed(p, k);
    EffectsAskForListed(Routed(Effects(p)), k);
  }

  // ---- the decision snapshot ----

  /** What the decision memory panel is offered. */
  function Offered(p: Page): Option<Snapshot> {
    if p.tab == DecisionTab && p.captured.Some? && ShownId(p) == Some(p.captured.value.portfolioId)
       && Trim(p.captured.value.fingerprint) != ""
    then p.captured else None
  }

  /** The last call since an effect dropped the snapshot. */
  function LastCall(p: Page): Option<Call> {
    if p.clearedAt < |p.calls| then Some(p.calls[|p.calls| - 1]) else None
  }

  /** An ask is older than the last reported mutation exactly when its version is. */
  ghost predicate AskOk(a: Ask, p: Page) {
    && a.version <= p.dataVersion && a.askedAt <= p.clock
    && (a.askedAt < p.mutatedAt <==> a.version < p.dataVersion)
  }

  ghost predicate CaptureOk(p: Page) {
    && p.clearedAt <= |p.calls| && p.mutatedAt <= p.clock
    && p.captured == (if LastCall(p).Some? then Normalised(LastCall(p).value) else None)
    && (forall a | a in p.asks :: AskOk(a, p))
    && (forall c | c in p.calls :: c.ask in p.asks)
  }

  ghost predicate DepsCurrent(p: Page) {
    p.captureDeps == (ShownId(p), p.dataVersion) && p.tabDep == p.tab
  }

  lemma EffectsCapture(p: Page)
    requires CaptureOk(p)
    ensures CaptureOk(Effects(p)) && DepsCurrent(Effects(p))
    ensures (ShownId(p), p.dataVersion) != p.captureDeps ==> LastCall(Effects(p)) == None
    ensures p.tab != p.tabDep && p.tab != DecisionTab ==> LastCall(Effects(p)) == None
    ensures LastCall(Effects(p)) == None || LastCall(Effects(p)) == LastCall(p)
  {
    hide Normalised;
    hide ToNumber;
    hide KeyOf;
    assert ShownId(Effects(p)) == ShownId(p);
  }

  lemma RoutedCapture(p: Page)
    requires CaptureOk(p)
    ensures CaptureOk(Routed(p)) && LastCall(Routed(p)) == LastCall(p)
  {
    hide Normalised;
    hide RoutingEffect;
  }

  lemma CommitCapture(p: Page)
    requires CaptureOk(p)
    ensures CaptureOk(Commit(p)) && DepsCurrent(Commit(p))
    ensures (ShownId(p), p.dataVersion) != p.captureDeps ==> LastCall(Commit(p)) == None
    ensures p.tab != p.tabDep && p.tab != DecisionTab ==> LastCall(Commit(p)) == None
    ensures LastCall(Commit(p)) == None || LastCall(Commit(p)) == LastCall(p)
  {
    hide Effects;
    hide Routed;
    hide LastCall;
    hide CaptureOk;
    hide ShownId;
    EffectsCapture(p);
    RoutedCapture(Effects(p));
    EffectsCapture(Routed(Effects(p)));
  }

  lemma HandleCapture(p: Page, e: Event)
    requires CaptureOk(p)
    ensures CaptureOk(Handle(p, e))
  {
    hide Normalised;
    hide ShownId;
  }

  lemma {:induction false} RunCapture(p: Page, es: seq<Event>)
    requires CaptureOk(p) && DepsCurrent(p)
    ensures CaptureOk(Run(p, es)) && DepsCurrent(Run(p, es))
    decreases |es|
  {
    hide CaptureOk;
    hide DepsCurrent;
    hide Commit;
    hide Handle;
    if es != [] {
      HandleCapture(p, es[0]);
      CommitCapture(Handle(p, es[0]));
      RunCapture(Next(p, es[0]), es[1..]);
    }
  }

  lemma MountCapture(stored: Option<Num>, segment: Option<string>, tab: Tab, isUser: bool)
    ensures var p := Mount(stored, segment, tab, isUser); CaptureOk(p) && DepsCurrent(p)
  {
    hide Commit;
    hide ToNumber;
    CommitCapture(Rendered(stored, segment, tab, isUser));
  }

  /** The call reports a decision with a fingerprint, for the portfolio `shown`. */
  predicate Reportable(call: Option<Call>, shown: Option<Id>) {
    && call.Some? && call.value.ask.pid == shown && shown.Some?
    && call.value.reported.Some? && call.value.reported.value.fingerprint.Some?
    && Trim(call.value.reported.value.fingerprint.value) != ""
  }

  /**
    Capture integrity. However late the callbacks come, the offer is decided by the last call
    since an effect dropped the snapshot: it is what that call reported, when the decision tab
    is open and the call was made for the portfolio now shown. Fingerprint and cash are both
    that call's: the fingerprint trimmed and not blank, the cash its number if that is
    positive and else missing.
   */
  lemma OfferIsLastCall(stored: Option<Num>, segment: Option<string>, tab: Tab, isUser: bool, es: seq<Event>)
    ensures
      var p := Run(Mount(stored, segment, tab, isUser), es);
      && (Offered(p).Some? <==> p.tab == DecisionTab && Reportable(LastCall(p), ShownId(p)))
      && (Offered(p).Some? ==>
            var offer, call := Offered(p).value, LastCall(p).value;
            && ShownId(p) == Some(offer.portfolioId)
            && call.reported.Some? && call.reported.value.fingerprint.Some?
            && offer.fingerprint == Trim(call.reported.value.fingerprint.value) != ""
            && IsCash(offer.newCash, call.reported.value.newCash))
  {
    hide Mount;
    hide ToNumber;
    MountCapture(stored, segment, tab, isUser);
    RunCapture(Mount(stored, segment, tab, isUser), es);
    OfferOfState(Run(Mount(stored, segment, tab, isUser), es));
  }

  /** `cash` is the number `raw` reads as, if that is above zero, and is missing otherwise. */
  ghost predicate IsCash(cash: Option<Num>, raw: Option<string>) {
    var n := if raw.Some? && raw.value != "" then ToNumber(raw.value) else None;
    if n.Some? && ((n.value.Int? && n.value.n > 0) || (n.value.Frac? && n.value.coef > 0)) then cash == n
    else cash == None
  }

  lemma OfferOfState(p: Page)
    requires CaptureOk(p)
    ensures
      && (Offered(p).Some? <==> p.tab == DecisionTab && Reportable(LastCall(p), ShownId(p)))
      && (Offered(p).Some? ==>
            var offer, call := Offered(p).value, LastCall(p).value;
            && ShownId(p) == Some(offer.portfolioId)
            && call.reported.Some? && call.reported.value.fingerprint.Some?
            && offer.fingerprint == Trim(call.reported.value.fingerprint.value) != ""
            && IsCash(offer.newCash, call.reported.value.newCash))
  {
    hide ToNumber;
    hide ShownId;
    hide Trim;
    if p.captured.Some? {
      TrimEdges(LastCall(p).value.reported.value.fingerprint.value);
      TrimFixed(p.captured.value.fingerprint);
    }
  }

  /** A change of the shown portfolio or of the data version, or leaving the decision tab, drops the snapshot. */
  lemma ChangeDropsCapture(p: Page, e: Event)
    requires CaptureOk(p) && DepsCurrent(p)
    requires
      var q := Handle(p, e);
      || (ShownId(q), q.dataVersion) != (ShownId(p), p.dataVersion)
      || (p.tab == DecisionTab && q.tab != DecisionTab)
    ensures Next(p, e).captured == None && LastCall(Next(p, e)) == None
  {
    hide Commit;
    hide ShownId;
    hide Normalised;
    HandleCapture(p, e);
    HandleKeepsDeps(p, e);
    hide Handle;
    CommitCapture(Handle(p, e));
  }

  /** Nothing else drops it: while portfolio, version and tab stay, the snapshot stays until the next call. */
  lemma CaptureStays(p: Page, e: Event)
    requires CaptureOk(p) && DepsCurrent(p) && !e.DecisionReported?
    requires
      var q := Handle(p, e);
      && ShownId(q) == ShownId(p) == ShownId(Next(p, e)) && q.dataVersion == p.dataVersion && q.tab == p.tab
    ensures Next(p, e).captured == p.captured && LastCall(Next(p, e)) == LastCall(p)
  {
    hide ShownId;
    hide Normalised;
    hide ReadRoute;
    HandleKeepsDeps(p, e);
    var h := Handle(p, e);
    assert h.captured == p.captured && LastCall(h) == LastCall(p);
    hide Handle;
    UnmovedEffects(h);
    UnmovedRouted(Effects(h));
    EffectsShow(Routed(Effects(h)));
    UnmovedEffects(Routed(Effects(h)));
  }

  lemma EffectsShow(p: Page)
    ensures ShownId(Effects(p)) == ShownId(p)
  {
    hide KeyOf;
    hide T.Sync;
    hide Active;
  }

  lemma UnmovedEffects(p: Page)
    requires (ShownId(p), p.dataVersion) == p.captureDeps && p.tabDep == p.tab
    ensures
      var q := Effects(p);
      && q.captured == p.captured && LastCall(q) == LastCall(p)
      && q.captureDeps == p.captureDeps && q.tabDep == p.tabDep && q.dataVersion == p.dataVersion && q.tab == p.tab
  {
    hide KeyOf;
    hide T.Sync;
    hide Active;
    hide ShownId;
  }

  lemma UnmovedRouted(p: Page)
    ensures
      var q := Routed(p);
      && q.captured == p.captured && LastCall(q) == LastCall(p)
      && q.captureDeps == p.captureDeps && q.tabDep == p.tabDep && q.dataVersion == p.dataVersion && q.tab == p.tab
  {
    hide RoutingEffect;
    hide ReadRoute;
  }

  lemma HandleKeepsDeps(p: Page, e: Event)
    ensures Handle(p, e).captureDeps == p.captureDeps && Handle(p, e).tabDep == p.tabDep
  {
    hide ShownId;
    hide Normalised;
    hide ReadRoute;
    hide T.Settle;
  }

  // ---- stale offers ----

  /** The offer is for a calculation asked for before the last reported mutation. */
  predicate OfferPredatesMutation(p: Page) {
    Offered(p).Some? && LastCall(p).Some? && LastCall(p).value.ask.askedAt < p.mutatedAt
  }

  /**
    The snapshot is dropped at each mutation, but the callback does not look at the data
    version. In every reachable state the offer predates the last reported mutation exactly
    when the call it comes from carries an older version than the page's.
   */
  lemma OfferPredatesMutationIff(stored: Option<Num>, segment: Option<string>, tab: Tab, isUser: bool, es: seq<Event>)
    ensures
      var p := Run(Mount(stored, segment, tab, isUser), es);
      OfferPredatesMutation(p) <==>
      Offered(p).Some? && LastCall(p).Some? && LastCall(p).value.ask.version < p.dataVersion
  {
    hide Mount;
    hide Offered;
    hide Normalised;
    MountCapture(stored, segment, tab, isUser);
    RunCapture(Mount(stored, segment, tab, isUser), es);
  }

  /** A calculation asked for before a mutation and answered after it is offered. */
  lemma LateCallIsOffered(p: Page, reported: Reported)
    requires CaptureOk(p) && DepsCurrent(p) && RoutingEffect(p) == Stay && p.tab == DecisionTab
    requires ShownId(p).Some? && reported.fingerprint.Some? && Trim(reported.fingerprint.value) != ""
    ensures
      var asked := Next(p, DecisionAsked);
      var end := Next(Next(asked, Mutated), DecisionReported(|p.asks|, Some(reported)));
      && Offered(end).Some? && Offered(end) == Normalised(Call(Ask(ShownId(p), p.dataVersion, p.clock), Some(reported)))
      && OfferPredatesMutation(end)
  {
    hide Normalised;
    hide Next;
    hide ShownId;
    hide RoutingEffect;
    hide Offered;
    QuietStep(p, DecisionAsked);
    var asked := Next(p, DecisionAsked);
    QuietStep(asked, Mutated);
    var mutated := Next(asked, Mutated);
    var n := |p.asks|;
    assert mutated.asks[n] == Ask(ShownId(p), p.dataVersion, p.clock);
    ReportableIsNormalised(Call(Ask(ShownId(p), p.dataVersion, p.clock), Some(reported)));
    hide Reportable;
    QuietStep(mutated, DecisionReported(n, Some(reported)));
    ReportCaptures(mutated, n, reported);
    OfferOfState(Next(mutated, DecisionReported(n, Some(reported))));
    OfferIsCaptured(Next(mutated, DecisionReported(n, Some(reported))));
  }

  lemma ReportableIsNormalised(call: Call)
    ensures Normalised(call).Some? <==> Reportable(Some(call), call.ask.pid)
  {
    hide Trim;
    hide ToNumber;
  }

  lemma OfferIsCaptured(p: Page)
    ensures Offered(p).Some? ==> Offered(p) == p.captured
  {
  }

  /** Asking, a mutation and a report leave routing at rest and the page where it is. */
  lemma QuietStep(p: Page, e: Event)
    requires CaptureOk(p) && DepsCurrent(p) && RoutingEffect(p) == Stay
    requires e.DecisionAsked? || e.Mutated? || e.DecisionReported?
    ensures
      var q := Next(p, e);
      && CaptureOk(q) && DepsCurrent(q) && RoutingEffect(q) == Stay
      && ShownId(q) == ShownId(p) && q.tab == p.tab
      && q.asks == Handle(p, e).asks && q.mutatedAt == Handle(p, e).mutatedAt && q.calls == Handle(p, e).calls
  {
    hide Normalised;
    hide KeyOf;
    hide ToNumber;
    hide CaptureOk;
    HandleCapture(p, e);
    CommitCapture(Handle(p, e));
    var h := Handle(p, e);
    assert ShownId(h) == ShownId(p) && RoutingEffect(h) == Stay;
    assert ShownId(Effects(h)) == ShownId(h) && RoutingEffect(Effects(h)) == Stay;
  }

  lemma ReportCaptures(p: Page, n: nat, reported: Reported)
    requires CaptureOk(p) && DepsCurrent(p) && RoutingEffect(p) == Stay && n < |p.asks|
    ensures LastCall(Next(p, DecisionReported(n, Some(reported)))) == Some(Call(p.asks[n], Some(reported)))
  {
    hide Normalised;
    hide KeyOf;
    hide ToNumber;
    var h := Handle(p, DecisionReported(n, Some(reported)));
    assert ShownId(h) == ShownId(p) && RoutingEffect(h) == Stay;
    assert ShownId(Effects(h)) == ShownId(h) && RoutingEffect(Effects(h)) == Stay;
  }

  /** A call that a check of the data version in the callback would drop. */
  predicate Outdated(p: Page, e: Event) {
    e.DecisionReported? && e.ask < |p.asks| && p.asks[e.ask].version != p.dataVersion
  }

  /** The page with that check. */
  function GuardedNext(p: Page, e: Event): Page {
    if Outdated(p, e) then p else Next(p, e)
  }

  function GuardedRun(p: Page, es: seq<Event>): Page
    decreases |es|
  {
    if es == [] then p else GuardedRun(GuardedNext(p, es[0]), es[1..])
  }

  /** The last call counted is of the current version. */
  ghost predicate Current(p: Page) {
    CaptureOk(p) && DepsCurrent(p) && (LastCall(p).Some? ==> LastCall(p).value.ask.version == p.dataVersion)
  }

  lemma GuardedStep(p: Page, e: Event)
    requires Current(p)
    ensures Current(GuardedNext(p, e))
  {
    hide Normalised;
    hide Commit;
    hide ShownId;
    hide CaptureOk;
    if !Outdated(p, e) {
      HandleCapture(p, e);
      var h := Handle(p, e);
      CommitCapture(h);
      CommitKeepsVersion(h);
    }
  }

  lemma CommitKeepsVersion(p: Page)
    ensures Commit(p).dataVersion == p.dataVersion
  {
    hide RoutingEffect;
    hide ShownId;
    hide KeyOf;
  }

  lemma {:induction false} GuardedRunCurrent(p: Page, es: seq<Event>)
    requires Current(p)
    ensures Current(GuardedRun(p, es))
    decreases |es|
  {
    hide Current;
    hide GuardedNext;
    if es != [] {
      GuardedStep(p, es[0]);
      GuardedRunCurrent(GuardedNext(p, es[0]), es[1..]);
    }
  }

  /**
    A check of the data version in the callback is exactly what is missing. With it, in every
    reachable state, no offer predates the last reported mutation, and the check drops just the
    calls that were asked for before it.
   */
  lemma VersionCheckIsExact(stored: Option<Num>, segment: Option<string>, tab: Tab, isUser: bool, es: seq<Event>,
                            n: nat, reported: Option<Reported>)
    ensures
      var p := GuardedRun(Mount(stored, segment, tab, isUser), es);
      && !OfferPredatesMutation(p)
      && (n < |p.asks| ==> (Outdated(p, DecisionReported(n, reported)) <==> p.asks[n].askedAt < p.mutatedAt))
  {
    hide Mount;
    hide Offered;
    hide Normalised;
    hide ShownId;
    MountCapture(stored, segment, tab, isUser);
    MountCurrent(stored, segment, tab, isUser);
    GuardedRunCurrent(Mount(stored, segment, tab, isUser), es);
    var p := GuardedRun(Mount(stored, segment, tab, isUser), es);
    assert n < |p.asks| ==> AskOk(p.asks[n], p);
  }

  lemma MountCurrent(stored: Option<Num>, segment: Option<string>, tab: Tab, isUser: bool)
    ensures Current(Mount(stored, segment, tab, isUser))
  {
    hide Commit;
    hide ToNumber;
    hide ShownId;
    MountCapture(stored, segment, tab, isUser);
    CommitCapture(Rendered(stored, segment, tab, isUser));
  }
}
