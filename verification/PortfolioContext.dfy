/**
  The portfolio provider: list, selection, loading flag, error, request counter
  and the one localStorage cell that is to mirror the selection.

  `Store` is the provider's whole state; each function below is one atomic piece
  of provider code (what runs between two awaits). The class performs the same
  pieces by updating its fields and is proved to follow the functions.

  Updates of the selection wait in a queue until the next render. That matters for one of
  them: the updater of an applied list reads its `prev` and writes localStorage when it runs,
  at that render, after the handlers that awaited the refresh have gone on. For list, loading
  flag and error, where order alone decides, `Store` has what the next render shows.
 */
module PortfolioContext {
  import opened Wrappers
  import opened JsNumber

  datatype Card = Card(id: Id, name: string, description: Option<string>, lifecycle: string,
                       cashRub: string, positions: nat)

  /** What the create request answers with. */
  datatype Summary = Summary(id: Id, name: string, description: Option<string>, lifecycle: Option<string>,
                             cashRub: string, positions: nat)

  /** An update of the selection: a plain value, or the updater of an applied list. */
  datatype Update = Set(id: Option<Id>) | Reconcile(items: seq<Card>)

  /** `selected` is what the last render showed; `queue` waits for the next one. */
  datatype Store = Store(portfolios: seq<Card>, selected: Option<Num>, queue: seq<Update>, loading: bool,
                         error: Option<string>, ref: nat, cell: Option<string>)

  datatype Outcome = Ok(items: seq<Card>) | Failed(message: string)

  predicate Listed(items: seq<Card>, n: Num) {
    exists c | c in items :: Int(c.id) == n
  }

  predicate UniqueIds(items: seq<Card>) {
    forall i, j | 0 <= i < j < |items| :: items[i].id != items[j].id
  }

  // ---- localStorage ----

  function ReadStoredId(cell: Option<string>): Option<Num> {
    if cell.None? || cell.value == "" then None else ToNumber(cell.value)
  }

  function StoredText(id: Option<Id>): Option<string> {
    match id case None => None case Some(n) => Some(Decimal(n))
  }

  function AsNum(id: Option<Id>): Option<Num> {
    match id case None => None case Some(n) => Some(Int(n))
  }

  lemma StorageRoundTrip(id: Option<Id>)
    ensures ReadStoredId(StoredText(id)) == AsNum(id)
  {
    if id.Some? {
      RoundTrip(id.value);
    }
  }

  // ---- the provider's atomic pieces ----

  function Initial(cell: Option<string>): Store {
    Store([], ReadStoredId(cell), [], true, None, 0, cell)
  }

  function FirstId(items: seq<Card>): Option<Id> {
    if items == [] then None else Some(items[0].id)
  }

  /** The id the updater settles on: the preferred one if it is listed, else the first card. */
  function Choice(prev: Option<Num>, cell: Option<string>, items: seq<Card>): Option<Id> {
    var preferred := if prev.Some? then prev else ReadStoredId(cell);
    if preferred.Some? && preferred.value.Int? && Listed(items, preferred.value) then Some(preferred.value.n)
    else FirstId(items)
  }

  /** `selectPortfolio`: the selection waits for the render, storage is written at once. */
  function Select(s: Store, id: Option<Id>): Store {
    s.(queue := s.queue + [Set(id)], cell := StoredText(id))
  }

  /** A selection and what storage holds beside it. */
  datatype Chosen = Chosen(selected: Option<Num>, cell: Option<string>)

  function Apply(c: Chosen, u: Update): Chosen {
    match u
    case Set(id) => c.(selected := AsNum(id))
    case Reconcile(items) =>
      var choice := Choice(c.selected, c.cell, items);
      Chosen(AsNum(choice), StoredText(choice))
  }

  function ApplyAll(c: Chosen, us: seq<Update>): Chosen
    decreases |us|
  {
    if us == [] then c else Apply(ApplyAll(c, us[..|us| - 1]), us[|us| - 1])
  }

  /** A render runs the waiting updates in order. */
  function Render(s: Store): Store {
    var c := ApplyAll(Chosen(s.selected, s.cell), s.queue);
    s.(selected := c.selected, cell := c.cell, queue := [])
  }

  /** The selection the next render shows. */
  function Showing(s: Store): Option<Num> {
    Render(s).selected
  }

  function BeginRefresh(s: Store): Store {
    s.(ref := s.ref + 1, loading := true, error := None)
  }

  function Settle(s: Store, request: nat, outcome: Outcome): Store {
    if request != s.ref then s
    else match outcome
      case Ok(items) => s.(portfolios := items, loading := false, queue := s.queue + [Reconcile(items)])
      case Failed(message) => s.(error := Some(message), loading := false)
  }

  function CreatedCard(summary: Summary): Card {
    Card(summary.id, summary.name, summary.description,
         if summary.lifecycle.Some? then summary.lifecycle.value else "DRAFT",
         summary.cashRub, summary.positions)
  }

  function WithCreated(items: seq<Card>, created: Card): seq<Card> {
    if Listed(items, Int(created.id)) then items else [created] + items
  }

  /** After a create answered: invalidate older refreshes, keep the card, select it, refresh. */
  function CreateReturned(s: Store, created: Card): Store {
    var kept := s.(ref := s.ref + 1, portfolios := WithCreated(s.portfolios, created));
    BeginRefresh(Select(kept, Some(created.id)))
  }

  class PortfolioProvider {
    var portfolios: seq<Card>
    var selectedPortfolioId: Option<Num>
    var queue: seq<Update>
    var loading: bool
    var error: Option<string>
    var refreshRequest: nat
    var cell: Option<string>

    function State(): Store
      reads this
    {
      Store(portfolios, selectedPortfolioId, queue, loading, error, refreshRequest, cell)
    }

    constructor (stored: Option<string>)
      ensures State() == Initial(stored)
    {
      portfolios, queue, loading, error, refreshRequest, cell := [], [], true, None, 0, stored;
      selectedPortfolioId := ReadStoredId(stored);
    }

    method WriteStoredId(id: Option<Id>)
      modifies this`cell
      ensures cell == StoredText(id)
    {
      if id.None? {
        cell := None;
      } else {
        cell := Some(Decimal(id.value));
      }
    }

    method SelectPortfolio(id: Option<Id>)
      modifies this
      ensures State() == Select(old(State()), id)
    {
      queue := queue + [Set(id)];
      WriteStoredId(id);
    }

    /** `refreshList` up to its await. */
    method RefreshStarts() returns (request: nat)
      modifies this
      ensures State() == BeginRefresh(old(State()))
      ensures request == refreshRequest
    {
      refreshRequest := refreshRequest + 1;
      request := refreshRequest;
      loading := true;
      error := None;
    }

    /** The selection updater; it writes localStorage as it computes. */
    method RunUpdater(prev: Option<Num>, items: seq<Card>) returns (next: Option<Num>)
      modifies this`cell
      ensures next == AsNum(Choice(prev, old(cell), items))
      ensures cell == StoredText(Choice(prev, old(cell), items))
    {
      var preferred := prev;
      if preferred.None? {
        preferred := ReadStoredId(cell);
      }
      if preferred.Some? && Listed(items, preferred.value) {
        WriteStoredId(Some(preferred.value.n));
        return preferred;
      }
      if |items| > 0 {
        WriteStoredId(Some(items[0].id));
        return Some(Int(items[0].id));
      }
      WriteStoredId(None);
      return None;
    }

    /** A render: the waiting updates run in order. */
    method Rerender()
      modifies this
      ensures State() == Render(old(State()))
    {
      var selected := selectedPortfolioId;
      for i := 0 to |queue|
        invariant queue == old(queue) && portfolios == old(portfolios) && loading == old(loading) && error == old(error)
        invariant refreshRequest == old(refreshRequest)
        invariant Chosen(selected, cell) == ApplyAll(Chosen(old(selectedPortfolioId), old(cell)), queue[..i])
      {
        assert queue[..i + 1][..i] == queue[..i];
        match queue[i] {
          case Set(id) => selected := AsNum(id);
          case Reconcile(items) => selected := RunUpdater(selected, items);
        }
      }
      assert queue[..|queue|] == queue;
      selectedPortfolioId, queue := selected, [];
    }

    /** `refreshList` after a list answer; a missing `items` field counts as empty. */
    method RefreshAnswered(request: nat, body: Option<seq<Card>>) returns (items: seq<Card>)
      modifies this
      ensures items == if body.Some? then body.value else []
      ensures State() == Settle(old(State()), request, Ok(items))
    {
      items := if body.Some? then body.value else [];
      if request == refreshRequest {
        portfolios := items;
        queue := queue + [Update.Reconcile(items)];
      }
      if request == refreshRequest {
        loading := false;
      }
    }

    /** `refreshList` after a rejected request. */
    method RefreshFailed(request: nat, message: string) returns (items: seq<Card>)
      modifies this
      ensures items == []
      ensures State() == Settle(old(State()), request, Failed(message))
    {
      if request == refreshRequest {
        error := Some(message);
      }
      items := [];
      if request == refreshRequest {
        loading := false;
      }
    }

    /** `createPortfolio` from the POST answer to its next await. */
    method PostAnswered(summary: Summary) returns (created: Card, request: nat)
      modifies this
      ensures created == CreatedCard(summary)
      ensures State() == CreateReturned(old(State()), created)
      ensures request == refreshRequest == old(refreshRequest) + 2
    {
      var lifecycle := if summary.lifecycle.Some? then summary.lifecycle.value else "DRAFT";
      created := Card(summary.id, summary.name, summary.description, lifecycle, summary.cashRub, summary.positions);
      refreshRequest := refreshRequest + 1;
      if !(exists c | c in portfolios :: c.id == created.id) {
        portfolios := [created] + portfolios;
      }
      SelectPortfolio(Some(created.id));
      request := RefreshStarts();
    }
  }

  // ---- one settlement ----

  /**
    Reconciliation: once a current answer is applied and rendered, the selection is empty
    exactly when the list is, is otherwise listed, and stays exactly when it is still listed;
    and storage holds it.
   */
  lemma ReconciliationSelectsListed(s: Store, items: seq<Card>)
    ensures
      var s' := Render(Settle(s, s.ref, Ok(items)));
      && s'.portfolios == items
      && (s'.selected.None? <==> items == [])
      && (s'.selected.Some? ==> Listed(items, s'.selected.value))
      && (Showing(s).Some? ==> (s'.selected == Showing(s) <==> Listed(items, Showing(s).value)))
      && ReadStoredId(s'.cell) == s'.selected
  {
    hide ReadStoredId;
    hide StoredText;
    RenderLast(s, items);
    var c := Render(s);
    StorageRoundTrip(Choice(c.selected, c.cell, items));
    if items != [] {
      assert items[0] in items;
    }
  }

  /** Rendering an applied answer reconciles what would have been shown without it. */
  lemma RenderLast(s: Store, items: seq<Card>)
    ensures
      var c := Render(s);
      var choice := Choice(c.selected, c.cell, items);
      Render(Settle(s, s.ref, Ok(items))) ==
      c.(portfolios := items, loading := false, selected := AsNum(choice), cell := StoredText(choice))
  {
    hide Choice;
    assert (s.queue + [Reconcile(items)])[..|s.queue|] == s.queue;
  }

  /** Running the storage-writing updater twice from the same `prev` changes nothing more. */
  lemma UpdaterTwice(prev: Option<Num>, cell: Option<string>, items: seq<Card>)
    ensures var first := Choice(prev, cell, items); Choice(prev, StoredText(first), items) == first
  {
    var first := Choice(prev, cell, items);
    StorageRoundTrip(first);
    if items != [] {
      assert items[0] in items;
    }
  }

  // ---- storage ----

  /** What the last list answer among the updates selects when it is reconciled. */
  function LastPick(c: Chosen, us: seq<Update>): Option<Option<Id>>
    decreases |us|
  {
    if us == [] then None
    else
      var front := us[..|us| - 1];
      match us[|us| - 1]
      case Set(_) => LastPick(c, front)
      case Reconcile(items) => var b := ApplyAll(c, front); Some(Choice(b.selected, b.cell, items))
  }

  function LastSet(us: seq<Update>): Option<Option<Id>>
    decreases |us|
  {
    if us == [] then None
    else match us[|us| - 1] case Set(id) => Some(id) case Reconcile(_) => LastSet(us[..|us| - 1])
  }

  /**
    No selection waits behind a list answer that picks something else: then the updater,
    which writes storage at the render, overwrites what the selection stored.
   */
  predicate Mirrors(s: Store) {
    var us := s.queue;
    us != [] && us[|us| - 1].Set? && LastPick(Chosen(s.selected, s.cell), us).Some? ==>
      us[|us| - 1].id == LastPick(Chosen(s.selected, s.cell), us).value
  }

  lemma {:induction false} StoredByUpdates(c: Chosen, us: seq<Update>)
    ensures ApplyAll(c, us).cell == if LastPick(c, us).Some? then StoredText(LastPick(c, us).value) else c.cell
    ensures LastPick(c, us).None? ==> us == [] || LastSet(us) == Some(us[|us| - 1].id)
    decreases |us|
  {
    hide Choice;
    hide StoredText;
    if us != [] {
      StoredByUpdates(c, us[..|us| - 1]);
    }
  }

  lemma NothingToRender(s: Store)
    requires s.queue == []
    ensures Render(s) == s
  {
  }

  lemma AsNumInjective(a: Option<Id>, b: Option<Id>)
    ensures AsNum(a) == AsNum(b) <==> a == b
  {
  }

  /** After a render that had updates to run, storage agrees with the selection exactly when nothing was overwritten. */
  lemma RenderedStorageAgreesIff(s: Store)
    requires s.queue != [] && (LastSet(s.queue).Some? ==> s.cell == StoredText(LastSet(s.queue).value))
    ensures ReadStoredId(Render(s).cell) == Render(s).selected <==> Mirrors(s)
  {
    hide ReadStoredId;
    hide StoredText;
    hide Choice;
    var c, us := Chosen(s.selected, s.cell), s.queue;
    StoredByUpdates(c, us);
    if LastPick(c, us).Some? {
      StorageRoundTrip(LastPick(c, us).value);
    }
    if us[|us| - 1].Set? {
      StorageRoundTrip(us[|us| - 1].id);
      if LastPick(c, us).Some? {
        AsNumInjective(us[|us| - 1].id, LastPick(c, us).value);
      }
    }
  }

  // ---- confluence ----

  /** A refresh settles, or the provider renders. */
  datatype Moment = Settles(request: nat, outcome: Outcome) | Renders

  function Pass(s: Store, m: Moment): Store {
    match m case Settles(request, outcome) => Settle(s, request, outcome) case Renders => Render(s)
  }

  function PassAll(s: Store, ms: seq<Moment>): Store
    decreases |ms|
  {
    if ms == [] then s else PassAll(Pass(s, ms[0]), ms[1..])
  }

  ghost predicate OncePerRequest(ms: seq<Moment>) {
    forall i, j | 0 <= i < j < |ms| && ms[i].Settles? && ms[j].Settles? :: ms[i].request != ms[j].request
  }

  ghost predicate Superseded(s: Store, ms: seq<Moment>) {
    forall m | m in ms && m.Settles? :: m.request != s.ref
  }

  lemma {:induction false} SupersededSettlementsStutter(s: Store, ms: seq<Moment>)
    requires Superseded(s, ms)
    ensures Render(PassAll(s, ms)) == Render(s)
    decreases |ms|
  {
    if ms != [] {
      assert ms[0] in ms;
      SupersededSettlementsStutter(Pass(s, ms[0]), ms[1..]);
    }
  }

  /** It makes no difference whether a render comes before a settlement too. */
  lemma RenderFirst(s: Store, request: nat, outcome: Outcome)
    ensures Render(Settle(Render(s), request, outcome)) == Render(Settle(s, request, outcome))
  {
    if request == s.ref && outcome.Ok? {
      RenderLast(s, outcome.items);
      RenderLast(Render(s), outcome.items);
    }
  }

  /** Whatever the order, and whenever the provider renders, only the newest request's outcome decides what is shown. */
  lemma {:induction false} NewestOutcomeDecides(s: Store, ms: seq<Moment>, m: Moment)
    requires OncePerRequest(ms) && m in ms && m.Settles? && m.request == s.ref
    ensures Render(PassAll(s, ms)) == Render(Settle(s, m.request, m.outcome))
    decreases |ms|
  {
    hide Render;
    var s' := Pass(s, ms[0]);
    if ms[0] == m {
      forall x | x in ms[1..] && x.Settles? ensures x.request != m.request {
        var j :| 1 <= j < |ms| && ms[j] == x;
        assert ms[0].request != ms[j].request;
      }
      assert s'.ref == s.ref;
      SupersededSettlementsStutter(s', ms[1..]);
    } else {
      var j :| 0 <= j < |ms| && ms[j] == m;
      assert ms[1..][j - 1] == m;
      assert s'.ref == s.ref by {
        RenderKeepsRef(s);
      }
      NewestOutcomeDecides(s', ms[1..], m);
      if ms[0].Renders? {
        RenderFirst(s, m.request, m.outcome);
      }
    }
  }

  lemma RenderKeepsRef(s: Store)
    ensures Render(s).ref == s.ref
  {
  }

  /**
    Any two orders of the same deliveries and failures, with renders anywhere between, end,
    once rendered, in the same state.
   */
  lemma SettlementsCommute(s: Store, xs: seq<Moment>, ys: seq<Moment>)
    requires OncePerRequest(xs) && OncePerRequest(ys)
    requires forall m: Moment | m.Settles? :: m in xs <==> m in ys
    ensures Render(PassAll(s, xs)) == Render(PassAll(s, ys))
  {
    hide Render;
    if m :| m in xs && m.Settles? && m.request == s.ref {
      NewestOutcomeDecides(s, xs, m);
      NewestOutcomeDecides(s, ys, m);
    } else {
      SupersededSettlementsStutter(s, xs);
      SupersededSettlementsStutter(s, ys);
    }
  }
}
