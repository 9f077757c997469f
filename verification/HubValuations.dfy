/**
  The portfolio list page's cards: one batch valuation per list, spread over cards by portfolio
  id; an answer counts only for the newest batch.
 */
module HubValuations {
  import opened Wrappers
  import opened JsNumber

  datatype Item = Item(portfolioId: Id, totalNavRub: Option<string>)

  datatype CardState = Loading | Failed(message: string) | Valued(item: Item)

  type Cards = map<Id, CardState>

  const NO_DATA := "Нет данных оценки"

  // ---- filling the cards ----

  /** The batch's item for `id`; of several, the last. */
  function LastFor(items: seq<Item>, id: Id): Option<Item> {
    if items == [] then None
    else if items[|items| - 1].portfolioId == id then Some(items[|items| - 1])
    else LastFor(items[..|items| - 1], id)
  }

  /** Before the request: cards already valued stay, all others load, and no other card is left. */
  function WhileLoading(ids: seq<Id>, prev: Cards): Cards {
    map id | id in ids :: if id in prev && prev[id].Valued? then prev[id] else Loading
  }

  /** After the answer: each card has its own last item or says there is no data. */
  function FromAnswer(ids: seq<Id>, items: seq<Item>): Cards {
    map id | id in (set id | id in ids) + (set it | it in items :: it.portfolioId) ::
      if LastFor(items, id).Some? then Valued(LastFor(items, id).value) else Failed(NO_DATA)
  }

  function FromFailure(ids: seq<Id>, message: string): Cards {
    map id | id in ids :: Failed(message)
  }

  method CardsWhileLoading(ids: seq<Id>, prev: Cards) returns (next: Cards)
    ensures next == WhileLoading(ids, prev)
  {
    next := map[];
    for i := 0 to |ids|
      invariant next == WhileLoading(ids[..i], prev)
    {
      next := next[ids[i] := if ids[i] in prev && prev[ids[i]].Valued? then prev[ids[i]] else Loading];
      assert ids[..i + 1] == ids[..i] + [ids[i]];
    }
    assert ids[..|ids|] == ids;
  }

  method CardsFromAnswer(ids: seq<Id>, items: seq<Item>) returns (byId: Cards)
    ensures byId == FromAnswer(ids, items)
  {
    byId := CardsFromFailure(ids, NO_DATA);
    assert byId == FromAnswer(ids, []);
    for j := 0 to |items|
      invariant byId == FromAnswer(ids, items[..j])
    {
      byId := byId[items[j].portfolioId := Valued(items[j])];
      OneMoreItem(ids, items[..j], items[j]);
      assert items[..j + 1] == items[..j] + [items[j]];
    }
    assert items[..|items|] == items;
  }

  method CardsFromFailure(ids: seq<Id>, message: string) returns (byId: Cards)
    ensures byId == FromFailure(ids, message)
  {
    byId := map[];
    for i := 0 to |ids|
      invariant byId == FromFailure(ids[..i], message)
    {
      byId := byId[ids[i] := Failed(message)];
      assert ids[..i + 1] == ids[..i] + [ids[i]];
    }
    assert ids[..|ids|] == ids;
  }

  lemma OneMoreItem(ids: seq<Id>, items: seq<Item>, item: Item)
    ensures FromAnswer(ids, items + [item]) == FromAnswer(ids, items)[item.portfolioId := Valued(item)]
  {
    var more := items + [item];
    assert more[..|items|] == items;
    assert forall it :: it in more <==> it in items || it == item;
  }

  // ---- batches over time ----

  datatype Batch = Batch(ids: seq<Id>, aborted: bool)

  /** An answer that was shown. */
  datatype Shown = Shown(number: nat, items: seq<Item>)

  /** What became of the batch that was shown last. */
  datatype Outcome = NoneYet | Items(number: nat, items: seq<Item>) | Failure(number: nat, message: string)

  datatype Hub = Hub(ids: seq<Id>, cards: Cards, request: nat, batches: map<nat, Batch>, answers: seq<Shown>,
                     outcome: Outcome)

  datatype Event =
    | ListChanged(ids: seq<Id>)
    | Answered(number: nat, items: seq<Item>)
    | Rejected(number: nat, message: string)

  /** The effect's cleanup aborts the batch it started. */
  function Cleanup(h: Hub): Hub {
    if h.ids != [] && h.request in h.batches
    then h.(batches := h.batches[h.request := h.batches[h.request].(aborted := true)])
    else h
  }

  /** An aborted batch may still be answered; its failure is ignored. */
  function Next(h: Hub, e: Event): Hub {
    match e
    case ListChanged(ids) =>
      var c := Cleanup(h).(ids := ids);
      if ids == [] then c.(cards := map[])
      else c.(cards := WhileLoading(ids, h.cards), request := h.request + 1,
              batches := c.batches[h.request + 1 := Batch(ids, false)])
    case Answered(n, items) =>
      if n !in h.batches then h
      else
        var rest := h.(batches := h.batches - {n});
        if n != h.request then rest
        else rest.(cards := FromAnswer(h.batches[n].ids, items), answers := h.answers + [Shown(n, items)],
                        outcome := Items(n, items))
    case Rejected(n, message) =>
      if n !in h.batches then h
      else
        var rest := h.(batches := h.batches - {n});
        if h.batches[n].aborted || n != h.request then rest
        else rest.(cards := FromFailure(h.batches[n].ids, message), outcome := Failure(n, message))
  }

  function Run(h: Hub, es: seq<Event>): Hub
    decreases |es|
  {
    if es == [] then h else Run(Next(h, es[0]), es[1..])
  }

  function Mounted(): Hub {
    Hub([], map[], 0, map[], [], NoneYet)
  }

  /** A valued card holds its own portfolio's item of the answer shown last. */
  ghost predicate FromLastAnswer(h: Hub, id: Id)
    requires id in h.cards
  {
    h.cards[id].Valued? ==>
      && h.cards[id].item.portfolioId == id
      && h.answers != [] && LastFor(h.answers[|h.answers| - 1].items, id) == Some(h.cards[id].item)
  }

  /** A card loads only while the newest batch is under way. */
  ghost predicate LoadsForReason(h: Hub, id: Id)
    requires id in h.cards
  {
    h.cards[id].Loading? ==> h.request in h.batches && !h.batches[h.request].aborted
  }

  /** `item` is the last of `items` for its portfolio. */
  ghost predicate IsLast(items: seq<Item>, id: Id, item: Item) {
    exists j | 0 <= j < |items| ::
      && items[j] == item && item.portfolioId == id
      && forall k | j < k < |items| :: items[k].portfolioId != id
  }

  /** The card says what became of the newest batch. */
  ghost predicate TellsOutcome(h: Hub, card: CardState, id: Id) {
    match h.outcome
    case NoneYet => false
    case Failure(n, message) => n == h.request && card == Failed(message)
    case Items(n, items) =>
      && n == h.request
      && match card
         case Valued(item) => IsLast(items, id, item)
         case Failed(message) => message == "Нет данных оценки" && forall it | it in items :: it.portfolioId != id
         case Loading => false
  }

  ghost predicate Increasing(answers: seq<Shown>) {
    forall i, j | 0 <= i < j < |answers| :: answers[i].number < answers[j].number
  }

  ghost predicate Inv(h: Hub) {
    && (forall id | id in h.cards :: FromLastAnswer(h, id) && LoadsForReason(h, id))
    && (forall id | id in h.ids :: id in h.cards)
    && (forall n | n in h.batches :: n <= h.request)
    && (h.request in h.batches ==>
          && (h.ids != [] ==> h.batches[h.request] == Batch(h.ids, false)))
    && Increasing(h.answers)
    && (forall a | a in h.answers :: a.number <= h.request && a.number !in h.batches)
    && (h.request !in h.batches ==> forall id | id in h.ids :: TellsOutcome(h, h.cards[id], id))
  }

  lemma {:induction false} LastForOwn(items: seq<Item>, id: Id)
    ensures LastFor(items, id).Some? ==> LastFor(items, id).value.portfolioId == id
  {
    if items != [] && items[|items| - 1].portfolioId != id {
      LastForOwn(items[..|items| - 1], id);
    }
  }

  lemma IsLastHere(front: seq<Item>, item: Item)
    ensures IsLast(front + [item], item.portfolioId, item)
  {
    assert (front + [item])[|front|] == item;
  }

  lemma IsLastExtends(front: seq<Item>, last: Item, id: Id, item: Item)
    requires IsLast(front, id, item) && last.portfolioId != id
    ensures IsLast(front + [last], id, item)
  {
    var j :| 0 <= j < |front| && front[j] == item && item.portfolioId == id
             && forall k | j < k < |front| :: front[k].portfolioId != id;
    assert (front + [last])[j] == item;
  }

  lemma {:induction false} LastForIsLast(items: seq<Item>, id: Id)
    ensures LastFor(items, id).Some? ==> IsLast(items, id, LastFor(items, id).value)
    ensures LastFor(items, id).None? ==> forall it | it in items :: it.portfolioId != id
  {
    hide IsLast;
    if items != [] {
      var front, last := items[..|items| - 1], items[|items| - 1];
      assert items == front + [last];
      if last.portfolioId == id {
        IsLastHere(front, last);
      } else {
        LastForIsLast(front, id);
        if LastFor(front, id).Some? {
          IsLastExtends(front, last, id, LastFor(front, id).value);
        }
      }
    }
  }

  lemma ListChangedOk(h: Hub, ids: seq<Id>)
    requires Inv(h)
    ensures Inv(Next(h, ListChanged(ids)))
  {
    hide LastFor;
  }

  lemma AnsweredOk(h: Hub, n: nat, items: seq<Item>)
    requires Inv(h)
    ensures Inv(Next(h, Answered(n, items)))
  {
    hide LastFor;
    if n in h.batches && n == h.request {
      var h' := Next(h, Answered(n, items));
      forall id | id in h'.cards ensures FromLastAnswer(h', id) && LoadsForReason(h', id) {
        LastForOwn(items, id);
      }
      hide IsLast;
      forall id | id in h'.ids ensures TellsOutcome(h', h'.cards[id], id) {
        LastForIsLast(items, id);
      }
    }
  }

  lemma RejectedOk(h: Hub, n: nat, message: string)
    requires Inv(h)
    ensures Inv(Next(h, Rejected(n, message)))
  {
    hide LastFor;
  }

  lemma NextOk(h: Hub, e: Event)
    requires Inv(h)
    ensures Inv(Next(h, e))
  {
    hide Inv;
    hide Next;
    match e
    case ListChanged(ids) => ListChangedOk(h, ids);
    case Answered(n, items) => AnsweredOk(h, n, items);
    case Rejected(n, message) => RejectedOk(h, n, message);
  }

  lemma {:induction false} RunOk(h: Hub, es: seq<Event>)
    requires Inv(h)
    ensures Inv(Run(h, es))
    decreases |es|
  {
    hide Inv;
    hide Next;
    if es != [] {
      NextOk(h, es[0]);
      RunOk(Next(h, es[0]), es[1..]);
    }
  }

  /**
    Over every run of list changes, answers, failures and late answers of aborted batches:
    each listed portfolio has a card; once the newest batch has settled, each tells what became
    of it, its own last item, that there is none, or the failure; a valued card always holds its
    own portfolio's item of the answer shown last; a card loads only while the newest batch is
    under way; the answers shown are of ever newer batches.
   */
  lemma CardsTruthful(es: seq<Event>)
    ensures
      var h := Run(Mounted(), es);
      && (forall id | id in h.ids :: id in h.cards)
      && (h.request !in h.batches ==> forall id | id in h.ids :: TellsOutcome(h, h.cards[id], id))
      && (forall id | id in h.cards :: FromLastAnswer(h, id) && LoadsForReason(h, id))
      && Increasing(h.answers)
  {
    RunOk(Mounted(), es);
  }

  /** A new list has exactly its own cards; those valued before stay as they are, all others load. */
  lemma NewListKeepsValued(h: Hub, ids: seq<Id>)
    ensures
      var cards := Next(h, ListChanged(ids)).cards;
      && (forall id :: id in cards <==> id in ids)
      && (forall id | id in ids ::
            cards[id] == if id in h.cards && h.cards[id].Valued? then h.cards[id] else Loading)
  {
  }

  /** A superseded batch changes no card, nor does the failure of an aborted one. */
  lemma StaleBatchesIgnored(h: Hub, n: nat, items: seq<Item>, message: string)
    ensures n != h.request ==> Next(h, Answered(n, items)).cards == h.cards
    ensures n != h.request || (n in h.batches && h.batches[n].aborted) ==>
              Next(h, Rejected(n, message)).cards == h.cards
  {
  }

  /** The newest batch does not settle, and `id` stays listed. */
  predicate Waits(h: Hub, es: seq<Event>, id: Id)
    decreases |es|
  {
    es == [] ||
    ((match es[0]
      case ListChanged(ids) => id in ids
      case Answered(n, _) => n != h.request
      case Rejected(n, _) => n != h.request)
     && Waits(Next(h, es[0]), es[1..], id))
  }

  /** A valued card stays as it is, through any list changes and late answers, until a newest batch settles. */
  lemma {:induction false} ValuedStays(h: Hub, es: seq<Event>, id: Id)
    requires id in h.cards && h.cards[id].Valued? && Waits(h, es, id)
    ensures id in Run(h, es).cards && Run(h, es).cards[id] == h.cards[id]
    decreases |es|
  {
    if es != [] {
      ValuedStays(Next(h, es[0]), es[1..], id);
    }
  }
}
