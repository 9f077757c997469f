/**
  The dashboard's cockpit load: a sequence number, an abort handle kept by the effect, and
  manual retries whose abort handle is dropped.
 */
module DashboardPage {
  import opened Wrappers
  import opened JsNumber

  /** A loaded cockpit, with the load it came from. */
  datatype Cockpit = Cockpit(portfolio: Option<Num>, number: nat)

  datatype Fields = Fields(data: Option<Cockpit>, loading: bool, error: Option<string>, loadSeq: nat)

  function LoadStarts(f: Fields): Fields {
    f.(loadSeq := f.loadSeq + 1, loading := true, error := None)
  }

  function LoadAnswered(f: Fields, mine: nat, aborted: bool, cockpit: Cockpit): Fields {
    if aborted || f.loadSeq != mine then f else f.(data := Some(cockpit), loading := false)
  }

  function LoadRejected(f: Fields, mine: nat, reason: Reason): Fields {
    if reason.Aborted? || f.loadSeq != mine then f else f.(error := Some(reason.message), loading := false)
  }

  /** The effect on list loading and selection; it loads when the list is ready and a portfolio is selected. */
  function SelectionEffect(f: Fields, listLoading: bool, selected: Option<Num>): Fields {
    if listLoading then f
    else if selected.None? then f.(data := None, loading := false)
    else LoadStarts(f.(data := None))
  }

  class DashboardLoader {
    var data: Option<Cockpit>
    var loading: bool
    var error: Option<string>
    var loadSeq: nat

    function State(): Fields
      reads this
    {
      Fields(data, loading, error, loadSeq)
    }

    constructor ()
      ensures State() == Fields(None, true, None, 0)
    {
      data, loading, error, loadSeq := None, true, None, 0;
    }

    method Load() returns (mine: nat)
      modifies this
      ensures State() == LoadStarts(old(State())) && mine == loadSeq
    {
      loadSeq := loadSeq + 1;
      mine := loadSeq;
      loading := true;
      error := None;
    }

    method Answered(mine: nat, aborted: bool, cockpit: Cockpit)
      modifies this
      ensures State() == LoadAnswered(old(State()), mine, aborted, cockpit)
    {
      if aborted || loadSeq != mine {
        return;
      }
      data := Some(cockpit);
      loading := false;
    }

    method Rejected(mine: nat, reason: Reason)
      modifies this
      ensures State() == LoadRejected(old(State()), mine, reason)
    {
      if reason.Aborted? {
        return;
      }
      if loadSeq != mine {
        return;
      }
      error := Some(reason.message);
      loading := false;
    }

    /** The effect body; returns the load whose abort handle it keeps. */
    method Effect(listLoading: bool, selected: Option<Num>) returns (kept: Option<nat>)
      modifies this
      ensures State() == SelectionEffect(old(State()), listLoading, selected)
      ensures kept == if !listLoading && selected.Some? then Some(loadSeq) else None
    {
      if listLoading {
        return None;
      }
      if selected.None? {
        data := None;
        loading := false;
        return None;
      }
      data := None;
      var mine := Load();
      return Some(mine);
    }
  }

  // ---- against the provider and the network ----

  datatype Load = Load(portfolio: Option<Num>, aborted: bool, byRetry: bool)

  datatype Dash = Dash(
    f: Fields,
    listLoading: bool, selected: Option<Num>, listEmpty: bool,  // from the provider
    deps: Option<(bool, Option<Num>)>,                          // what the effect last ran for
    loads: map<nat, Load>,
    kept: Option<nat>,                                          // the load whose abort handle the effect keeps
    failures: map<nat, string>)                                 // rejected loads, other than by abort

  /** What the page renders; only the failure page has the retry button. */
  datatype Screen = Onboarding | Spinner | Failure | Shows(cockpit: Cockpit)

  function ScreenOf(d: Dash): Screen {
    if !d.listLoading && d.listEmpty then Onboarding
    else if d.f.loading || (d.f.data.None? && d.selected.Some? && d.f.error.None?) then Spinner
    else if d.f.error.Some? || d.f.data.None? then Failure
    else Shows(d.f.data.value)
  }

  datatype Event =
    | ProviderChanged(listLoading: bool, selected: Option<Num>, listEmpty: bool)
    | Retry
    | Answered(number: nat)
    | Rejected(number: nat, reason: Reason)

  function AbortKept(d: Dash): Dash {
    if d.kept.Some? && d.kept.value in d.loads then
      d.(kept := None, loads := d.loads[d.kept.value := d.loads[d.kept.value].(aborted := true)])
    else d.(kept := None)
  }

  function Commit(d: Dash): Dash {
    if d.deps == Some((d.listLoading, d.selected)) then d
    else
      var a := AbortKept(d);
      var f := SelectionEffect(a.f, d.listLoading, d.selected);
      var loads := !d.listLoading && d.selected.Some?;
      a.(f := f, deps := Some((d.listLoading, d.selected)),
         kept := if loads then Some(f.loadSeq) else None,
         loads := if loads then a.loads[f.loadSeq := Load(d.selected, false, false)] else a.loads)
  }

  /** Only an aborted load rejects with `AbortError`. */
  predicate CanReject(d: Dash, n: nat, reason: Reason) {
    n in d.loads && (reason.Aborted? ==> d.loads[n].aborted)
  }

  function Handle(d: Dash, e: Event): Dash {
    match e
    case ProviderChanged(listLoading, selected, listEmpty) =>
      d.(listLoading := listLoading, selected := selected, listEmpty := listEmpty)
    case Retry =>
      if !ScreenOf(d).Failure? then d
      else
        var f := LoadStarts(d.f);
        d.(f := f, loads := d.loads[f.loadSeq := Load(d.selected, false, true)])
    case Answered(n) =>
      if n !in d.loads then d
      else
        var load := d.loads[n];
        d.(f := LoadAnswered(d.f, n, load.aborted, Cockpit(load.portfolio, n)), loads := d.loads - {n})
    case Rejected(n, reason) =>
      if !CanReject(d, n, reason) then d
      else
        d.(f := LoadRejected(d.f, n, reason), loads := d.loads - {n},
           failures := if reason.Aborted? then d.failures else d.failures[n := reason.message])
  }

  function Next(d: Dash, e: Event): Dash {
    Commit(Handle(d, e))
  }

  function Run(d: Dash, es: seq<Event>): Dash
    decreases |es|
  {
    if es == [] then d else Run(Next(d, es[0]), es[1..])
  }

  function Mount(listLoading: bool, selected: Option<Num>, listEmpty: bool): Dash {
    Commit(Dash(Fields(None, true, None, 0), listLoading, selected, listEmpty, None, map[], None, map[]))
  }

  /** One event as it happens to the loader object; `d` is the page before it. */
  method Perform(l: DashboardLoader, d: Dash, e: Event)
    requires l.State() == d.f
    modifies l
    ensures l.State() == Next(d, e).f
  {
    match e {
      case ProviderChanged(_, _, _) =>
      case Retry =>
        if ScreenOf(d).Failure? {
          var _ := l.Load();
        }
      case Answered(n) =>
        if n in d.loads {
          l.Answered(n, d.loads[n].aborted, Cockpit(d.loads[n].portfolio, n));
        }
      case Rejected(n, reason) =>
        if CanReject(d, n, reason) {
          l.Rejected(n, reason);
        }
    }
    var h := Handle(d, e);
    if h.deps != Some((h.listLoading, h.selected)) {
      var _ := l.Effect(h.listLoading, h.selected);
    }
  }

  /** The loader object driven through any run ends in the state the run computes. */
  method Drive(listLoading: bool, selected: Option<Num>, listEmpty: bool, es: seq<Event>) returns (l: DashboardLoader)
    ensures l.State() == Run(Mount(listLoading, selected, listEmpty), es).f
  {
    l := new DashboardLoader();
    var d := Mount(listLoading, selected, listEmpty);
    var _ := l.Effect(listLoading, selected);
    for i := 0 to |es|
      invariant l.State() == d.f
      invariant Run(d, es[i..]) == Run(Mount(listLoading, selected, listEmpty), es)
    {
      Perform(l, d, es[i]);
      d := Next(d, es[i]);
      assert es[i..][1..] == es[i + 1..];
    }
  }

  ghost predicate Pending(d: Dash) {
    d.f.loadSeq in d.loads && !d.loads[d.f.loadSeq].aborted
  }

  /** Once the list is ready and a portfolio is selected, the page shows what became of the newest load. */
  ghost predicate Ready(d: Dash) {
    && (d.f.data.Some? ==> d.f.data.value == Cockpit(d.selected, d.f.loadSeq))
    && (d.f.loadSeq in d.loads ==> d.loads[d.f.loadSeq].portfolio == d.selected && !d.loads[d.f.loadSeq].aborted)
    && (d.f.loading <==> Pending(d))
    && (d.f.error == if d.f.loadSeq in d.failures then Some(d.failures[d.f.loadSeq]) else None)
    && (d.f.loading || d.f.data.Some? || d.f.error.Some?)
    && !(d.f.loading && d.f.error.Some?) && !(d.f.loading && d.f.data.Some?) && !(d.f.data.Some? && d.f.error.Some?)
  }

  ghost predicate LoadsOk(d: Dash) {
    && (forall n | n in d.loads :: n <= d.f.loadSeq)
    && (forall n | n in d.loads && !d.loads[n].aborted && !d.loads[n].byRetry :: d.kept == Some(n))
    && (d.kept.Some? ==> d.kept.value <= d.f.loadSeq && d.deps.Some? && !d.deps.value.0 && d.deps.value.1.Some?)
    && (forall n | n in d.failures :: n <= d.f.loadSeq && n !in d.loads)
    && (d.f.data.Some? ==> d.f.error.None?)
    && (d.f.loadSeq in d.loads ==> d.f.data.None? && d.f.error.None?)
    && (d.deps == Some((false, None)) ==> (d.f.loading ==> d.f.data.None? && Pending(d)))
  }

  ghost predicate Inv(d: Dash) {
    && LoadsOk(d)
    && d.deps == Some((d.listLoading, d.selected))
    && (!d.listLoading && d.selected.Some? ==> Ready(d))
  }

  ghost predicate Handled(d: Dash) {
    && LoadsOk(d)
    && (d.deps == Some((d.listLoading, d.selected)) ==> Inv(d))
  }

  lemma NextOk(d: Dash, e: Event)
    requires Inv(d)
    ensures Inv(Next(d, e))
  {
    assert Handled(Handle(d, e));
    CommitOk(Handle(d, e));
  }

  lemma CommitOk(d: Dash)
    requires Handled(d)
    ensures Inv(Commit(d))
  {
  }

  lemma {:induction false} RunOk(d: Dash, es: seq<Event>)
    requires Inv(d)
    ensures Inv(Run(d, es))
    decreases |es|
  {
    if es != [] {
      NextOk(d, es[0]);
      RunOk(Next(d, es[0]), es[1..]);
    }
  }

  lemma MountOk(listLoading: bool, selected: Option<Num>, listEmpty: bool)
    ensures Inv(Mount(listLoading, selected, listEmpty))
  {
    CommitOk(Dash(Fields(None, true, None, 0), listLoading, selected, listEmpty, None, map[], None, map[]));
  }

  /**
    Dashboard freshness: in every settled state in which the list is ready and a portfolio is
    selected, the page shows exactly one of a spinner, data and an error. The spinner shows
    exactly while the newest load can still arrive; the error exactly when that load failed, and
    is that failure's; data otherwise, and it is that load's, made for the selected portfolio,
    by the effect or by a retry.
   */
  lemma CockpitIsForSelection(listLoading: bool, selected: Option<Num>, listEmpty: bool, es: seq<Event>)
    ensures
      var d := Run(Mount(listLoading, selected, listEmpty), es);
      !d.listLoading && d.selected.Some? ==>
        var n := d.f.loadSeq;
        && Ready(d)
        && (d.listEmpty || ScreenOf(d) == if Pending(d) then Spinner
                                          else if n in d.failures then Failure
                                          else Shows(Cockpit(d.selected, n)))
  {
    MountOk(listLoading, selected, listEmpty);
    RunOk(Mount(listLoading, selected, listEmpty), es);
  }

  /**
    While the list reloads the page stays as it is, even if that is another portfolio's; only
    the effect's load is aborted.
   */
  lemma ReloadingListKeepsPage(d: Dash, selected: Option<Num>, listEmpty: bool)
    requires Inv(d)
    ensures
      var d' := Next(d, ProviderChanged(true, selected, listEmpty));
      && d'.f == d.f
      && (d.deps != Some((true, selected)) ==> forall n | n in d'.loads && !d'.loads[n].aborted :: d'.loads[n].byRetry)
  {
  }

  // ---- with nothing selected ----

  /** The page holds a cockpit that was loaded for a portfolio other than the selected one. */
  predicate HasOther(d: Dash) {
    d.f.data.Some? && d.f.data.value.portfolio != d.selected
  }

  /** And it is on screen. */
  predicate ShowsOther(d: Dash) {
    ScreenOf(d).Shows? && ScreenOf(d).cockpit.portfolio != d.selected
  }

  /** The newest load answers; it was asked for a portfolio and not aborted. */
  predicate Arrives(d: Dash, e: Event) {
    && e == Answered(d.f.loadSeq) && d.f.loadSeq in d.loads
    && !d.loads[d.f.loadSeq].aborted && d.loads[d.f.loadSeq].portfolio.Some?
  }

  predicate ArrivesIn(d: Dash, es: seq<Event>)
    decreases |es|
  {
    es != [] && (Arrives(d, es[0]) || ArrivesIn(Next(d, es[0]), es[1..]))
  }

  /** The list is ready, nothing is selected, and the effect has run for that. */
  predicate Deselected(d: Dash) {
    !d.listLoading && d.selected.None?
  }

  /** The provider, when it reports, reports that again; the list may become empty or not. */
  predicate KeepsDeselected(e: Event) {
    e.ProviderChanged? ==> !e.listLoading && e.selected.None?
  }

  lemma DeselectedStep(d: Dash, e: Event)
    requires Inv(d) && Deselected(d) && KeepsDeselected(e)
    ensures Deselected(Next(d, e))
    ensures HasOther(Next(d, e)) <==> HasOther(d) || Arrives(d, e)
  {
  }

  lemma {:induction false} DeselectedRun(d: Dash, es: seq<Event>)
    requires Inv(d) && Deselected(d) && forall e | e in es :: KeepsDeselected(e)
    ensures Inv(Run(d, es)) && Deselected(Run(d, es))
    ensures HasOther(Run(d, es)) <==> HasOther(d) || ArrivesIn(d, es)
    decreases |es|
  {
    hide Inv;
    hide Next;
    hide HasOther;
    hide Deselected;
    hide KeepsDeselected;
    hide Arrives;
    if es != [] {
      assert es[0] in es;
      NextOk(d, es[0]);
      DeselectedStep(d, es[0]);
      DeselectedRun(Next(d, es[0]), es[1..]);
    }
  }

  lemma OtherOnScreen(d: Dash)
    requires Inv(d) && Deselected(d)
    ensures ShowsOther(d) <==> !d.listEmpty && HasOther(d)
  {
  }

  /**
    The effect clears the cockpit when the selection goes, but aborts only its own load. So
    after the provider dropped the selection, for as long as it reports nothing selected beside
    a ready list, empty or not, the page holds another portfolio's cockpit exactly when the
    newest load, asked for a portfolio, has been answered since; such a load is a manual
    retry's. It is on screen whenever the list is not empty.
   */
  lemma DroppedSelectionShowsOtherIff(listLoading: bool, selected: Option<Num>, listEmpty: bool,
                                      before: seq<Event>, emptied: bool, es: seq<Event>)
    requires forall e | e in es :: KeepsDeselected(e)
    requires var d := Run(Mount(listLoading, selected, listEmpty), before); d.listLoading || d.selected.Some?
    ensures
      var d := Run(Mount(listLoading, selected, listEmpty), before);
      var dropped := Next(d, ProviderChanged(false, None, emptied));
      var end := Run(dropped, es);
      && (HasOther(end) <==> ArrivesIn(dropped, es))
      && (ShowsOther(end) <==> !end.listEmpty && ArrivesIn(dropped, es))
      && (forall n | n in dropped.loads && !dropped.loads[n].aborted :: dropped.loads[n].byRetry)
  {
    var d := Run(Mount(listLoading, selected, listEmpty), before);
    var dropped := Next(d, ProviderChanged(false, None, emptied));
    MountOk(listLoading, selected, listEmpty);
    RunOk(Mount(listLoading, selected, listEmpty), before);
    NextOk(d, ProviderChanged(false, None, emptied));
    DeselectedRun(dropped, es);
    OtherOnScreen(Run(dropped, es));
  }

  /**
    What is on screen while nothing is selected beside a ready list that is not empty: a spinner
    while a retry made since is under way, the cockpit if there is one, and else the failure page
    with its retry button.
   */
  lemma DeselectedScreen(listLoading: bool, selected: Option<Num>, listEmpty: bool, es: seq<Event>)
    ensures
      var d := Run(Mount(listLoading, selected, listEmpty), es);
      Deselected(d) && !d.listEmpty ==>
        && ScreenOf(d) == (if d.f.loading then Spinner else if d.f.data.Some? then Shows(d.f.data.value) else Failure)
        && (d.f.loading ==> Pending(d))
  {
    MountOk(listLoading, selected, listEmpty);
    RunOk(Mount(listLoading, selected, listEmpty), es);
  }

  /**
    It can be: the effect's load fails, the user retries, the selection is dropped, the retry
    is answered. With an empty list the onboarding page hides it.
   */
  lemma RetryOutlivesSelection(portfolio: Num, message: string, listEmpty: bool)
    ensures
      var failed := Next(Mount(false, Some(portfolio), false), Rejected(1, Other(message)));
      var end := Next(Next(Next(failed, Retry), ProviderChanged(false, None, listEmpty)), Answered(2));
      ScreenOf(end) == if listEmpty then Onboarding else Shows(Cockpit(Some(portfolio), 2))
  {
    var d := Mount(false, Some(portfolio), false);
    assert d.loads == map[1 := Load(Some(portfolio), false, false)] && d.f.loadSeq == 1;
    var failed := Next(d, Rejected(1, Other(message)));
    assert failed.loads == map[] && ScreenOf(failed) == Failure;
    var retried := Next(failed, Retry);
    assert retried.loads == map[2 := Load(Some(portfolio), false, true)];
  }

  /** As the provider reports it unless somebody empties the selection: nothing selected only with an empty list. */
  predicate EmptyOnly(e: Event) {
    e.ProviderChanged? && !e.listLoading && e.selected.None? ==> e.listEmpty
  }

  lemma {:induction false} RunEmptyOnly(d: Dash, es: seq<Event>)
    requires (Deselected(d) ==> d.listEmpty) && forall e | e in es :: EmptyOnly(e)
    ensures Deselected(Run(d, es)) ==> Run(d, es).listEmpty
    decreases |es|
  {
    if es != [] {
      assert es[0] in es;
      RunEmptyOnly(Next(d, es[0]), es[1..]);
    }
  }

  /** Against such a provider every cockpit on screen is the selected portfolio's, once the list is ready. */
  lemma ScreenIsForSelection(listLoading: bool, selected: Option<Num>, listEmpty: bool, es: seq<Event>)
    requires EmptyOnly(ProviderChanged(listLoading, selected, listEmpty)) && forall e | e in es :: EmptyOnly(e)
    ensures
      var d := Run(Mount(listLoading, selected, listEmpty), es);
      !d.listLoading ==> !ShowsOther(d)
  {
    CockpitIsForSelection(listLoading, selected, listEmpty, es);
    RunEmptyOnly(Mount(listLoading, selected, listEmpty), es);
  }
}
