/** From creating a portfolio to the page that opens it: the provider and the page together. */
module CreateJourney {
  import opened Wrappers
  import opened JsNumber
  import opened PortfolioContext
  import P = StoreProtocol
  import opened StoreTheorems
  import MyPortfolioPage

  /** The page sees the store's list and was navigated to `/portfolio/{id}`. */
  predicate OpenedOn(p: MyPortfolioPage.Page, s: Store, id: Id) {
    p.portfolios == s.portfolios && p.route == MyPortfolioPage.ReadRoute(Some(Decimal(id)))
  }

  lemma OpenedShowsListed(p: MyPortfolioPage.Page, s: Store, id: Id)
    requires OpenedOn(p, s, id) && id > 0
    ensures MyPortfolioPage.ShownId(p) == if Listed(s.portfolios, Int(id)) then Some(id) else None
  {
    hide ToNumber;
    RoundTrip(id);
    DigitsPlain(id);
  }

  /**
    The switcher's create: after `createPortfolio`'s POST returned, the page opened on the
    new portfolio works on it in every later state, however the list answers, for as long as
    the server keeps the portfolio.
   */
  lemma CreatedPortfolioIsShown(cell: Option<string>, first: seq<Card>, before: seq<P.Event>, summary: Summary,
                                after: seq<P.Event>, p: MyPortfolioPage.Page)
    requires UniqueIds(first) && summary.id > 0
    ensures
      var w := P.Run(P.Initial(cell, first), before);
      var w' := P.Run(P.Next(w, P.Created(summary)), after);
      ServerKeeps(w', summary.id, P.Now(w)) && OpenedOn(p, w'.store, summary.id) ==>
        MyPortfolioPage.ShownId(p) == Some(summary.id)
  {
    hide P.Next;
    hide P.Run;
    hide MyPortfolioPage.ShownId;
    hide ServerKeeps;
    hide Listed;
    CreatedStaysListed(cell, first, before, summary, after);
    var w := P.Run(P.Initial(cell, first), before);
    if OpenedOn(p, P.Run(P.Next(w, P.Created(summary)), after).store, summary.id) {
      OpenedShowsListed(p, P.Run(P.Next(w, P.Created(summary)), after).store, summary.id);
    }
  }

  /**
    The list page's create: at any later time the page opened on the new portfolio works on it
    exactly when the portfolio was listed before, some answer has been applied since, or a
    create added it.
   */
  lemma HubCreatedIsShownIffAnswerApplied(w: P.World, id: Id, es: seq<P.Event>, p: MyPortfolioPage.Page)
    requires P.Inv(w) && id > 0
    ensures
      var w' := P.Run(P.Next(w, P.HubCreated(id)), es);
      var listed := Listed(w.store.portfolios, Int(id)) || |w'.applied| > |w.applied| || Creates(es, id);
      ServerKeeps(w', id, P.Now(w)) && OpenedOn(p, w'.store, id) ==>
        MyPortfolioPage.ShownId(p) == if listed then Some(id) else None
  {
    hide P.Next;
    hide P.Run;
    hide MyPortfolioPage.ShownId;
    hide ServerKeeps;
    hide Listed;
    hide Creates;
    HubCreateListedIffAnswerApplied(w, id, es);
    InvServer(w);
    if OpenedOn(p, P.Run(P.Next(w, P.HubCreated(id)), es).store, id) {
      OpenedShowsListed(p, P.Run(P.Next(w, P.HubCreated(id)), es).store, id);
    }
  }
}
