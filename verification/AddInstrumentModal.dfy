/**
  The add-instrument dialog: debounced search, picking a hit, submitting the pick.

  `Fields` is the dialog's state; the functions on it are its handlers and effect bodies.
  `Modal` adds the debounce timer and the searches in flight, which answer in any order.
 */
module AddInstrumentModal {
  import opened Wrappers
  import opened JsText
  import opened JsNumber

  datatype Instrument = Instrument(id: int, symbol: string, assetClass: string)

  datatype Fields = Fields(isOpen: bool, query: string, debounced: string, hits: seq<Instrument>,
                           searchDone: bool, selected: Option<Instrument>, busy: bool, err: Option<string>)

  const CHOOSE := "Выберите инструмент"
  const POSITIVE := "Количество должно быть больше нуля"

  // ---- handlers and effect bodies ----

  function SearchChanged(f: Fields, value: string): Fields {
    var g := f.(query := value, err := None);
    if f.selected.Some? then g.(selected := None, hits := [], searchDone := false, debounced := "") else g
  }

  function HitPicked(f: Fields, hit: Instrument): Fields {
    f.(selected := Some(hit), query := hit.symbol, hits := [], searchDone := false, err := None)
  }

  /** The term the search effect asks for, if it asks. */
  function SearchTerm(f: Fields): Option<string> {
    if !f.isOpen || f.debounced == "" || f.selected.Some? || f.debounced != Trim(f.query) then None
    else Some(f.debounced)
  }

  function SearchEffect(f: Fields): Fields {
    if !f.isOpen || f.debounced == "" || f.selected.Some? then
      f.(hits := if f.debounced == "" || f.selected.Some? then [] else f.hits,
         searchDone := if f.debounced == "" then false else f.searchDone)
    else if f.debounced != Trim(f.query) then f
    else f.(searchDone := false)
  }

  function Painted(f: Fields, items: seq<Instrument>): Fields {
    f.(hits := items, searchDone := true)
  }

  /** The instrument a click on submit sends, if it sends one. */
  function ToSend(f: Fields, units: string): Option<Instrument> {
    if f.selected.None? || ToNumber(units).None? || !Positive(ToNumber(units).value) then None else f.selected
  }

  function SubmitClicked(f: Fields, units: string): Fields {
    if f.selected.None? then f.(err := Some(CHOOSE))
    else if ToSend(f, units).None? then f.(err := Some(POSITIVE))
    else f.(busy := true, err := None)
  }

  function SubmitSucceeded(f: Fields): Fields {
    f.(isOpen := false, query := "", selected := None, hits := [], busy := false)
  }

  function SubmitFailed(f: Fields, message: string): Fields {
    f.(err := Some(message), busy := false)
  }

  class AddInstrumentModal {
    var isOpen: bool
    var query: string
    var debounced: string
    var hits: seq<Instrument>
    var searchDone: bool
    var selected: Option<Instrument>
    var busy: bool
    var err: Option<string>

    function State(): Fields
      reads this
    {
      Fields(isOpen, query, debounced, hits, searchDone, selected, busy, err)
    }

    constructor ()
      ensures State() == Fields(false, "", "", [], false, None, false, None)
    {
      isOpen, query, debounced, hits, searchDone, selected, busy, err := false, "", "", [], false, None, false, None;
    }

    method OnSearchChange(value: string)
      modifies this
      ensures State() == SearchChanged(old(State()), value)
    {
      query := value;
      if selected.Some? {
        selected := None;
        hits := [];
        searchDone := false;
        debounced := "";
      }
      err := None;
    }

    method PickHit(hit: Instrument)
      modifies this
      ensures State() == HitPicked(old(State()), hit)
    {
      selected := Some(hit);
      query := hit.symbol;
      hits := [];
      searchDone := false;
      err := None;
    }

    /** The search effect's body; returns the term it starts a search for. */
    method RunSearchEffect() returns (term: Option<string>)
      modifies this
      ensures State() == SearchEffect(old(State())) && term == SearchTerm(old(State()))
    {
      if !isOpen || debounced == "" || selected.Some? {
        if debounced == "" || selected.Some? {
          hits := [];
        }
        if debounced == "" {
          searchDone := false;
        }
        return None;
      }
      if debounced != Trim(query) {
        return None;
      }
      searchDone := false;
      return Some(debounced);
    }

    /** A search settled; a failure counts as no items. `asked` is the query its effect saw. */
    method SearchSettled(aborted: bool, term: string, asked: string, items: seq<Instrument>)
      modifies this
      ensures State() == if !aborted && term == Trim(asked) then Painted(old(State()), items) else old(State())
    {
      if !aborted && term == Trim(asked) {
        hits := items;
        searchDone := true;
      }
    }

    /** `submit` up to its request; returns the instrument it sends. */
    method Submit(units: string) returns (sent: Option<Instrument>)
      modifies this
      ensures State() == SubmitClicked(old(State()), units) && sent == ToSend(old(State()), units)
    {
      if selected.None? {
        err := Some(CHOOSE);
        return None;
      }
      var unitsNum := ToNumber(units);
      if unitsNum.None? || !Positive(unitsNum.value) {
        err := Some(POSITIVE);
        return None;
      }
      busy := true;
      err := None;
      return selected;
    }

    method SubmitReturned(failure: Option<string>)
      modifies this
      ensures failure.None? ==> State() == SubmitSucceeded(old(State()))
      ensures failure.Some? ==> State() == SubmitFailed(old(State()), failure.value)
    {
      if failure.None? {
        isOpen, query, selected, hits := false, "", None, [];
      } else {
        err := failure;
      }
      busy := false;
    }
  }

  // ---- the dialog against timers and the network ----

  datatype Search = Search(term: string, asked: string, aborted: bool)

  /** One painting of hits: the term answered, the query visible at that moment, the items. */
  datatype Paint = Paint(term: string, query: string, items: seq<Instrument>)

  /** One request: the instrument, the query visible at the click, the number of units. */
  datatype Sent = Sent(instrument: Instrument, query: string, units: Num)

  datatype Deps = Deps(debounced: string, isOpen: bool, selected: Option<Instrument>, query: string)

  datatype Modal = Modal(
    f: Fields,
    timer: Option<string>, timerDep: Option<string>,   // pending debounce value; query it was set for
    searches: map<nat, Search>, next: nat, searchDeps: Option<Deps>, live: Option<nat>,
    submitting: bool,
    paints: seq<Paint>, sent: seq<Sent>)

  datatype Event =
    | Typed(value: string)
    | Picked(hit: Instrument)
    | TimerFires
    | SearchSettles(number: nat, items: seq<Instrument>)  // a rejected search settles with no items
    | Submitted(units: string)
    | SubmitReturns(failure: Option<string>)
    | OpenChanged(isOpen: bool)

  function DepsOf(f: Fields): Deps {
    Deps(f.debounced, f.isOpen, f.selected, f.query)
  }

  function Closed(): Modal {
    Modal(Fields(false, "", "", [], false, None, false, None), None, None, map[], 0, None, None, false, [], [])
  }

  function TimerEffect(m: Modal): Modal {
    if m.timerDep == Some(m.f.query) then m
    else m.(timer := Some(Trim(m.f.query)), timerDep := Some(m.f.query))
  }

  function AbortLive(m: Modal): Modal {
    if m.live.Some? && m.live.value in m.searches then
      m.(live := None, searches := m.searches[m.live.value := m.searches[m.live.value].(aborted := true)])
    else m.(live := None)
  }

  function SearchCommit(m: Modal): Modal {
    if m.searchDeps == Some(DepsOf(m.f)) then m
    else
      var a := AbortLive(m).(searchDeps := Some(DepsOf(m.f)), f := SearchEffect(m.f));
      match SearchTerm(m.f)
      case None => a
      case Some(term) =>
        a.(searches := a.searches[a.next := Search(term, m.f.query, false)], live := Some(a.next), next := a.next + 1)
  }

  function Commit(m: Modal): Modal {
    SearchCommit(TimerEffect(m))
  }

  function Handle(m: Modal, e: Event): Modal {
    match e
    case Typed(value) => if m.f.isOpen then m.(f := SearchChanged(m.f, value)) else m
    case Picked(hit) =>
      if m.f.isOpen && m.f.selected.None? && hit in m.f.hits then m.(f := HitPicked(m.f, hit)) else m
    case TimerFires => if m.timer.Some? then m.(f := m.f.(debounced := m.timer.value), timer := None) else m
    case SearchSettles(n, items) =>
      if n !in m.searches then m
      else
        var s := m.searches[n];
        var rest := m.(searches := m.searches - {n});
        if !s.aborted && s.term == Trim(s.asked) then
          rest.(f := Painted(m.f, items), paints := m.paints + [Paint(s.term, m.f.query, items)])
        else rest
    case Submitted(units) =>
      if !m.f.isOpen || m.f.busy then m
      else
        var sent := ToSend(m.f, units);
        m.(f := SubmitClicked(m.f, units),
           submitting := m.submitting || sent.Some?,
           sent := if sent.Some? then m.sent + [Sent(sent.value, m.f.query, ToNumber(units).value)] else m.sent)
    case SubmitReturns(failure) =>
      if !m.submitting then m
      else m.(submitting := false,
              f := if failure.None? then SubmitSucceeded(m.f) else SubmitFailed(m.f, failure.value))
    case OpenChanged(isOpen) => m.(f := m.f.(isOpen := isOpen))
  }

  function Next(m: Modal, e: Event): Modal {
    Commit(Handle(m, e))
  }

  function Run(m: Modal, es: seq<Event>): Modal
    decreases |es|
  {
    if es == [] then m else Run(Next(m, es[0]), es[1..])
  }

  /** One event's handler as it happens to the dialog object; `m` is the dialog before it. */
  method PerformHandler(o: AddInstrumentModal, m: Modal, e: Event)
    requires o.State() == m.f
    modifies o
    ensures o.State() == Handle(m, e).f
  {
    hide Trim;
    hide ToNumber;
    match e
    case Typed(value) =>
      if m.f.isOpen {
        o.OnSearchChange(value);
      }
    case Picked(hit) =>
      if m.f.isOpen && m.f.selected.None? && hit in m.f.hits {
        o.PickHit(hit);
      }
    case TimerFires =>
      if m.timer.Some? {
        o.debounced := m.timer.value;
      }
    case SearchSettles(n, items) =>
      if n in m.searches {
        o.SearchSettled(m.searches[n].aborted, m.searches[n].term, m.searches[n].asked, items);
      }
    case Submitted(units) =>
      if m.f.isOpen && !m.f.busy {
        var _ := o.Submit(units);
      }
    case SubmitReturns(failure) =>
      if m.submitting {
        o.SubmitReturned(failure);
      }
    case OpenChanged(isOpen) => o.isOpen := isOpen;
  }

  method PerformEffects(o: AddInstrumentModal, m: Modal)
    requires o.State() == m.f
    modifies o
    ensures o.State() == Commit(m).f
  {
    hide Trim;
    hide SearchEffect;
    hide SearchTerm;
    var t := TimerEffect(m);
    if t.searchDeps != Some(DepsOf(t.f)) {
      var _ := o.RunSearchEffect();
    }
  }

  /** The dialog object driven through any run ends in the state the run computes. */
  method Drive(es: seq<Event>) returns (o: AddInstrumentModal)
    ensures o.State() == Run(Commit(Closed()), es).f
  {
    hide Commit;
    hide Handle;
    o := new AddInstrumentModal();
    PerformEffects(o, Closed());
    var m := Commit(Closed());
    for i := 0 to |es|
      invariant o.State() == m.f
      invariant Run(m, es[i..]) == Run(Commit(Closed()), es)
    {
      PerformHandler(o, m, es[i]);
      PerformEffects(o, Handle(m, es[i]));
      m := Next(m, es[i]);
      assert es[i..][1..] == es[i + 1..];
    }
  }

  // ---- invariants ----

  /** A picked instrument is the one the query names, and no hits are listed beside it. */
  predicate PickNamed(f: Fields) {
    f.selected.Some? ==> f.query == f.selected.value.symbol && f.hits == [] && !f.searchDone
  }

  /** A search that is not aborted is the live one, and searches for what the query says now. */
  ghost predicate SearchesOk(m: Modal) {
    && (forall n | n in m.searches :: n < m.next)
    && (forall n | n in m.searches && !m.searches[n].aborted ::
          m.live == Some(n) && m.searchDeps.Some? && m.searches[n].asked == m.searchDeps.value.query
          && m.searches[n].term == Trim(m.searchDeps.value.query) == m.searchDeps.value.debounced
          && m.searches[n].term != "" && m.searchDeps.value.isOpen && m.searchDeps.value.selected.None?)
    && (forall n | m.live == Some(n) && n in m.searches :: !m.f.searchDone)
  }

  /** When search is done for the visible query, the hits are that query's answer. */
  predicate HitsCurrent(m: Modal) {
    m.f.isOpen && m.f.selected.None? && m.f.debounced == Trim(m.f.query) && m.f.searchDone ==>
      m.paints != [] && m.paints[|m.paints| - 1].term == m.f.debounced
      && m.paints[|m.paints| - 1].items == m.f.hits
  }

  /** Nothing is listed for a blank search. */
  predicate BlankListsNothing(m: Modal) {
    m.f.debounced == "" ==> m.f.hits == [] && !m.f.searchDone
  }

  predicate LogsOk(m: Modal) {
    && (forall p | p in m.paints :: p.term == Trim(p.query))
    && (forall s | s in m.sent :: s.query == s.instrument.symbol && AboveZero(s.units))
  }

  predicate AboveZero(n: Num) {
    (n.Int? && n.n > 0) || (n.Frac? && n.coef > 0)
  }

  /** Once the debounce has caught up with what is typed, its search is under way or done. */
  predicate Answering(m: Modal) {
    m.f.isOpen && m.f.selected.None? && m.f.debounced != "" && m.f.debounced == Trim(m.f.query) ==>
      m.f.searchDone || (m.live.Some? && m.live.value in m.searches && !m.searches[m.live.value].aborted)
  }

  ghost predicate Inv(m: Modal) {
    && PickNamed(m.f) && SearchesOk(m) && HitsCurrent(m) && LogsOk(m) && Answering(m) && BlankListsNothing(m)
    && m.searchDeps == Some(DepsOf(m.f)) && m.timerDep == Some(m.f.query)
    && (m.timer.Some? ==> m.timer.value == Trim(m.f.query))
  }

  /** What a handler leaves behind: as `Inv`, with the effects' dependencies possibly outdated. */
  ghost predicate Handled(m: Modal) {
    && PickNamed(m.f) && SearchesOk(m) && LogsOk(m)
    && (m.searchDeps == Some(DepsOf(m.f)) ==> HitsCurrent(m) && Answering(m) && BlankListsNothing(m))
    && (m.timer.Some? && m.timerDep == Some(m.f.query) ==> m.timer.value == Trim(m.f.query))
  }

  lemma HandleSearchOk(m: Modal, n: nat, items: seq<Instrument>)
    requires Inv(m)
    ensures Handled(Handle(m, SearchSettles(n, items)))
  {
    hide Trim;
  }

  lemma HandleSubmitOk(m: Modal, units: string)
    requires Inv(m)
    ensures Handled(Handle(m, Submitted(units)))
  {
    hide Trim;
    hide ToNumber;
  }

  lemma HandleOk(m: Modal, e: Event)
    requires Inv(m)
    ensures Handled(Handle(m, e))
  {
    hide Trim;
    hide ToNumber;
    match e
    case SearchSettles(n, items) => HandleSearchOk(m, n, items);
    case Submitted(units) => HandleSubmitOk(m, units);
    case _ =>
  }

  lemma TimerEffectOk(m: Modal)
    requires Handled(m)
    ensures
      var t := TimerEffect(m);
      Handled(t) && t.timerDep == Some(t.f.query) && (t.timer.Some? ==> t.timer.value == Trim(t.f.query))
  {
    hide Trim;
  }

  lemma AbortLiveOk(m: Modal)
    requires SearchesOk(m)
    ensures
      var a := AbortLive(m);
      && a == m.(live := None, searches := a.searches)
      && forall n | n in a.searches :: n < m.next && a.searches[n].aborted
  {
    hide Trim;
  }

  lemma CommitOk(m: Modal)
    requires Handled(m)
    ensures Inv(Commit(m))
  {
    hide Trim;
    hide SearchesOk;
    hide AbortLive;
    hide TimerEffect;
    TimerEffectOk(m);
    var t := TimerEffect(m);
    if t.searchDeps != Some(DepsOf(t.f)) {
      AbortLiveOk(t);
      SearchesAfterCommit(t);
    }
  }

  lemma SearchesAfterCommit(t: Modal)
    requires t.searchDeps != Some(DepsOf(t.f))
    requires
      var a := AbortLive(t);
      && a == t.(live := None, searches := a.searches)
      && forall n | n in a.searches :: n < t.next && a.searches[n].aborted
    ensures SearchesOk(SearchCommit(t))
  {
    hide Trim;
    hide AbortLive;
  }

  lemma NextOk(m: Modal, e: Event)
    requires Inv(m)
    ensures Inv(Next(m, e))
  {
    hide Inv;
    hide Commit;
    hide Handle;
    HandleOk(m, e);
    CommitOk(Handle(m, e));
  }

  lemma {:induction false} RunOk(m: Modal, es: seq<Event>)
    requires Inv(m)
    ensures Inv(Run(m, es))
    decreases |es|
  {
    hide Next;
    hide Inv;
    if es != [] {
      NextOk(m, es[0]);
      RunOk(Next(m, es[0]), es[1..]);
    }
  }

  /**
    Autocomplete safety, in every state the dialog settles in. A pick is named by the visible
    query and no hits are listed beside it; hits were only ever painted for the trimmed query
    of that moment; every instrument sent was the one the query named at the click, with a
    number of units above zero; and once the debounce has caught up with what is typed, its
    search is under way or its answer is what is listed.
   */
  lemma SubmitSendsWhatTheQueryNames(es: seq<Event>)
    ensures
      var m := Run(Commit(Closed()), es);
      && PickNamed(m.f)
      && (forall p | p in m.paints :: p.term == Trim(p.query))
      && (forall s | s in m.sent ::
            s.query == s.instrument.symbol
            && ((s.units.Int? && s.units.n > 0) || (s.units.Frac? && s.units.coef > 0)))
      && Answering(m) && HitsCurrent(m)
  {
    hide Trim;
    hide Commit;
    hide Run;
    CommitOk(Closed());
    RunOk(Commit(Closed()), es);
  }

  // ---- what each action does ----

  /** The effects search and set the timer; they change no input, no pick, no error and no request. */
  lemma CommitKeeps(m: Modal)
    ensures
      var c := Commit(m);
      && c.f == m.f.(hits := c.f.hits, searchDone := c.f.searchDone)
      && c.timer == TimerEffect(m).timer && c.sent == m.sent && c.submitting == m.submitting
      && (m.f.hits == [] ==> c.f.hits == [])
  {
    hide Trim;
    hide AbortLive;
    AbortKeeps(TimerEffect(m));
  }

  lemma AbortKeeps(m: Modal)
    ensures var a := AbortLive(m); a == m.(live := None, searches := a.searches)
  {
  }

  /** What is typed becomes the query, drops a pick with its hits, and is due for the debounce. */
  lemma TypingBecomesQuery(m: Modal, value: string)
    requires Inv(m) && m.f.isOpen
    ensures
      var f := Next(m, Typed(value)).f;
      && f.query == value && f.selected == None && f.err == None && f.isOpen
      && (value != m.f.query ==> Next(m, Typed(value)).timer == Some(Trim(value)))
      && (m.f.selected.Some? ==> f.debounced == "" && f.hits == [])
      && (m.f.selected.None? ==> f.debounced == m.f.debounced)
  {
    hide Trim;
    hide Commit;
    hide SearchesOk;
    CommitKeeps(Handle(m, Typed(value)));
  }

  /** When the debounce fires, the trimmed query is what is searched for; for a blank one nothing is listed. */
  lemma DebounceCatchesUp(m: Modal)
    requires Inv(m) && m.timer.Some?
    ensures
      var end := Next(m, TimerFires);
      && end.f.query == m.f.query && end.f.debounced == Trim(m.f.query) && end.timer == None
      && (Trim(m.f.query) == "" ==> end.f.hits == [] && !end.f.searchDone)
  {
    hide Trim;
    NextOk(m, TimerFires);
    hide Commit;
    hide SearchesOk;
    CommitKeeps(Handle(m, TimerFires));
  }

  /** The answer of a live search is listed; a late one changes nothing. */
  lemma AnswerIsListed(m: Modal, n: nat, items: seq<Instrument>)
    requires Inv(m) && n in m.searches
    ensures
      var f := Next(m, SearchSettles(n, items)).f;
      f == if m.searches[n].aborted then m.f else m.f.(hits := items, searchDone := true)
  {
    hide Trim;
  }

  /** Picking a listed hit selects it, names it in the query and clears the list and the error. */
  lemma PickIsSelected(m: Modal, hit: Instrument)
    requires Inv(m) && m.f.isOpen && m.f.selected.None? && hit in m.f.hits
    ensures
      var f := Next(m, Picked(hit)).f;
      f.selected == Some(hit) && f.query == hit.symbol && f.hits == [] && f.err == None && f.isOpen
  {
    hide Trim;
    hide Commit;
    hide SearchesOk;
    CommitKeeps(Handle(m, Picked(hit)));
  }

  /**
    A click on submit sends exactly when something is picked and the units read as a number
    above zero: the pick, the query that names it, and that number. Otherwise nothing is sent and the
    error says what is missing.
   */
  lemma SubmitSendsIff(m: Modal, units: string)
    requires Inv(m) && m.f.isOpen && !m.f.busy
    ensures
      var end, n := Next(m, Submitted(units)), ToNumber(units);
      var enough := n.Some? && ((n.value.Int? && n.value.n > 0) || (n.value.Frac? && n.value.coef > 0));
      if m.f.selected.None? then
        end.sent == m.sent && end.f.err == Some("Выберите инструмент") && !end.f.busy
      else if enough then
        && end.sent == m.sent + [Sent(m.f.selected.value, m.f.selected.value.symbol, n.value)]
        && end.f.err == None && end.f.busy && end.submitting
      else
        end.sent == m.sent && end.f.err == Some("Количество должно быть больше нуля") && !end.f.busy
  {
    hide Trim;
    hide Commit;
    hide SearchesOk;
    CommitKeeps(Handle(m, Submitted(units)));
    hide ToNumber;
  }

  /** A sent request that succeeds closes and empties the dialog; one that fails leaves it open with its error. */
  lemma SubmitEnds(m: Modal, failure: Option<string>)
    requires Inv(m) && m.submitting
    ensures
      var f := Next(m, SubmitReturns(failure)).f;
      && !f.busy
      && (failure.None? ==> !f.isOpen && f.query == "" && f.selected == None && f.hits == [])
      && (failure.Some? ==>
            f.isOpen == m.f.isOpen && f.query == m.f.query && f.selected == m.f.selected && f.err == failure)
  {
    hide Trim;
    hide Commit;
    hide SearchesOk;
    CommitKeeps(Handle(m, SubmitReturns(failure)));
  }

  /** "Nothing found", once the debounce has caught up, is the answer for the visible query. */
  lemma NothingFoundIsAnswered(es: seq<Event>)
    ensures
      var m := Run(Commit(Closed()), es);
      m.f.isOpen && m.f.selected.None? && m.f.searchDone && m.f.hits == [] && m.f.debounced == Trim(m.f.query) ==>
        m.paints != [] && m.paints[|m.paints| - 1].items == [] && m.paints[|m.paints| - 1].term == Trim(m.f.query)
  {
    hide Trim;
    hide Commit;
    hide Run;
    CommitOk(Closed());
    RunOk(Commit(Closed()), es);
  }

  /** Nothing is listed and nothing in flight can paint. */
  ghost predicate Blank(m: Modal) {
    && m.f.debounced == "" && m.f.hits == [] && !m.f.searchDone
    && forall n | n in m.searches :: m.searches[n].aborted
  }

  lemma BlankHandled(m: Modal, e: Event)
    requires Blank(m) && !e.TimerFires?
    ensures Blank(Handle(m, e))
  {
    hide Trim;
    hide ToNumber;
  }

  lemma BlankCommitted(m: Modal)
    requires Blank(m)
    ensures Blank(Commit(m))
  {
    hide Trim;
  }

  lemma BlankStays(m: Modal, e: Event)
    requires Blank(m) && !e.TimerFires?
    ensures Blank(Next(m, e))
  {
    hide Blank;
    hide Commit;
    hide Handle;
    BlankHandled(m, e);
    BlankCommitted(Handle(m, e));
  }

  lemma TypingOverPickBlanks(m: Modal, value: string)
    requires Inv(m) && m.f.isOpen && m.f.selected.Some?
    ensures Blank(Next(m, Typed(value))) && Next(m, Typed(value)).f.selected == None
  {
    hide Trim;
  }

  /**
    The autocomplete race: after typing over a pick, no hits are listed, old or new, whatever
    answers arrive, until the debounce fires.
   */
  lemma NoOldHitsBeforeDebounce(m: Modal, value: string, es: seq<Event>)
    requires Inv(m) && m.f.isOpen && m.f.selected.Some?
    requires forall e | e in es :: !e.TimerFires?
    ensures Run(Next(m, Typed(value)), es).f.hits == []
  {
    hide Inv;
    hide Next;
    TypingOverPickBlanks(m, value);
    RunBlank(Next(m, Typed(value)), es);
  }

  lemma {:induction false} RunBlank(m: Modal, es: seq<Event>)
    requires Blank(m) && forall e | e in es :: !e.TimerFires?
    ensures Blank(Run(m, es))
    decreases |es|
  {
    hide Blank;
    hide Next;
    if es != [] {
      assert es[0] in es;
      BlankStays(m, es[0]);
      RunBlank(Next(m, es[0]), es[1..]);
    }
  }
}
