/**
  The client-error reporter's gate: one report at a time, reopened by a timer 2000 ms after
  the report settled. Time is in milliseconds; a timer may fire late but never early.
 */
module ClientErrorGate {
  const GATE_MS := 2000

  /** Whether a report passes the gate. */
  predicate Passes(closed: bool) { !closed }

  class Gate {
    var closed: bool

    constructor ()
      ensures !closed
    {
      closed := false;
    }

    /** `reportClientError` up to its await: true when a request is sent. */
    method Report() returns (sent: bool)
      modifies this
      ensures closed && sent == Passes(old(closed))
    {
      if closed {
        return false;
      }
      closed := true;
      return true;
    }

    /** The `finally` block: the delay after which the gate reopens. */
    method Settled() returns (delay: int)
      ensures delay == GATE_MS
    {
      return GATE_MS;
    }

    method TimerFires()
      modifies this
      ensures !closed
    {
      closed := false;
    }
  }

  /** The gate, the clock, reports in flight, pending timers by due time, the times of all starts and settlements. */
  datatype World = World(closed: bool, now: int, inFlight: nat, timers: seq<int>, starts: seq<int>, settles: seq<int>)

  datatype Event =
    | Reported             // an error is reported
    | ReportSettles        // the request in flight succeeds or fails
    | TimerFires
    | TimePasses(ms: nat)

  function Next(w: World, e: Event): World {
    match e
    case Reported =>
      if !Passes(w.closed) then w else w.(closed := true, inFlight := w.inFlight + 1, starts := w.starts + [w.now])
    case ReportSettles =>
      if w.inFlight == 0 then w else w.(inFlight := w.inFlight - 1, timers := w.timers + [w.now + GATE_MS],
                                       settles := w.settles + [w.now])
    case TimerFires =>
      if w.timers == [] || w.now < w.timers[0] then w else w.(closed := false, timers := w.timers[1..])
    case TimePasses(ms) => w.(now := w.now + ms)
  }

  function Run(w: World, es: seq<Event>): World
    decreases |es|
  {
    if es == [] then w else Run(Next(w, es[0]), es[1..])
  }

  function Loaded(now: int): World {
    World(false, now, 0, [], [], [])
  }

  /** The gate object driven through any run is closed, sends, and sets its timers as the run says. */
  method Drive(loadedAt: int, es: seq<Event>) returns (g: Gate, sent: seq<int>, timers: seq<int>)
    ensures g.closed == Run(Loaded(loadedAt), es).closed
    ensures sent == Run(Loaded(loadedAt), es).starts && timers == Run(Loaded(loadedAt), es).timers
  {
    g := new Gate();
    sent, timers := [], [];
    var w := Loaded(loadedAt);
    for i := 0 to |es|
      invariant g.closed == w.closed && sent == w.starts && timers == w.timers
      invariant Run(w, es[i..]) == Run(Loaded(loadedAt), es)
    {
      match es[i] {
        case Reported =>
          var passed := g.Report();
          sent := if passed then sent + [w.now] else sent;
        case ReportSettles =>
          if w.inFlight > 0 {
            var delay := g.Settled();
            timers := timers + [w.now + delay];
          }
        case TimerFires =>
          if timers != [] && w.now >= timers[0] {
            g.TimerFires();
            timers := timers[1..];
          }
        case TimePasses(_) =>
      }
      w := Next(w, es[i]);
      assert es[i..][1..] == es[i + 1..];
    }
  }

  /** Successive starts are at least the gate delay apart. */
  ghost predicate Spaced(starts: seq<int>) {
    forall i | 0 < i < |starts| :: starts[i] - starts[i - 1] >= GATE_MS
  }

  ghost predicate Inv(w: World) {
    && w.inFlight + |w.timers| <= 1
    && (w.closed <==> w.inFlight + |w.timers| == 1)
    && Spaced(w.starts)
    && (w.starts != [] ==> w.starts[|w.starts| - 1] <= w.now)
    && (w.closed ==> w.starts != [])
    && (w.timers != [] ==> w.starts[|w.starts| - 1] + GATE_MS <= w.timers[0] <= w.now + GATE_MS)
    && (!w.closed && w.starts != [] ==> w.starts[|w.starts| - 1] + GATE_MS <= w.now)
  }

  ghost predicate Paced(starts: seq<int>, settles: seq<int>) {
    |starts| <= |settles| + 1 && forall i | 0 < i < |starts| :: starts[i] >= settles[i - 1] + GATE_MS
  }

  /** Each start waits for the settlement before it, and then for the timer. */
  ghost predicate SettlesOk(w: World) {
    && |w.starts| == |w.settles| + w.inFlight
    && Paced(w.starts, w.settles)
    && (w.timers != [] ==> w.settles != [] && w.timers[0] == w.settles[|w.settles| - 1] + GATE_MS)
    && (!w.closed && w.settles != [] ==> w.settles[|w.settles| - 1] + GATE_MS <= w.now)
  }

  lemma PacedExtends(starts: seq<int>, settles: seq<int>, start: int)
    requires Paced(starts, settles) && |starts| == |settles|
    requires settles != [] ==> settles[|settles| - 1] + GATE_MS <= start
    ensures Paced(starts + [start], settles)
  {
  }

  lemma PacedSettles(starts: seq<int>, settles: seq<int>, settle: int)
    requires Paced(starts, settles)
    ensures Paced(starts, settles + [settle])
  {
  }

  lemma NextSettlesOk(w: World, e: Event)
    requires Inv(w) && SettlesOk(w)
    ensures SettlesOk(Next(w, e))
  {
    hide Paced;
    hide Spaced;
    match e
    case Reported =>
      if !w.closed {
        PacedExtends(w.starts, w.settles, w.now);
      }
    case ReportSettles => PacedSettles(w.starts, w.settles, w.now);
    case _ =>
  }

  lemma NextOk(w: World, e: Event)
    requires Inv(w)
    ensures Inv(Next(w, e))
  {
  }

  lemma {:induction false} RunOk(w: World, es: seq<Event>)
    requires Inv(w) && SettlesOk(w)
    ensures Inv(Run(w, es)) && SettlesOk(Run(w, es))
    decreases |es|
  {
    hide Inv;
    hide SettlesOk;
    hide Next;
    if es != [] {
      NextOk(w, es[0]);
      NextSettlesOk(w, es[0]);
      RunOk(Next(w, es[0]), es[1..]);
    }
  }

  /** The number of starts in the window `[from, from + width]`. */
  function InWindow(starts: seq<int>, from: int, width: nat): nat {
    if starts == [] then 0
    else
      var last := starts[|starts| - 1];
      InWindow(starts[..|starts| - 1], from, width) + if from <= last <= from + width then 1 else 0
  }

  lemma {:induction false} SpacedSpan(starts: seq<int>, from: int, width: nat)
    requires Spaced(starts) && InWindow(starts, from, width) > 0
    ensures exists i | 0 <= i < |starts| ::
              starts[i] <= from + width && starts[i] >= from + GATE_MS * (InWindow(starts, from, width) - 1)
  {
    var n := |starts| - 1;
    var rest := starts[..n];
    var count := InWindow(rest, from, width);
    if from <= starts[n] <= from + width {
      if count > 0 {
        SpacedSpan(rest, from, width);
        var i :| 0 <= i < n && rest[i] <= from + width && rest[i] >= from + GATE_MS * (count - 1);
        SpacedApart(starts, i, n);
      }
      assert starts[n] >= from + GATE_MS * count;
    } else {
      SpacedSpan(rest, from, width);
      var i :| 0 <= i < n && rest[i] <= from + width && rest[i] >= from + GATE_MS * (count - 1);
      assert starts[i] == rest[i];
    }
  }

  lemma {:induction false} SpacedApart(starts: seq<int>, i: nat, j: nat)
    requires Spaced(starts) && i < j < |starts|
    ensures starts[j] - starts[i] >= GATE_MS
    decreases j
  {
    if i < j - 1 {
      SpacedApart(starts, i, j - 1);
    }
  }

  /**
    The rate bound, for every schedule of errors, delays and failures: at most one report
    is in flight, successive starts are at least 2000 ms apart, each at least 2000 ms after the
    report before it settled, and any window of W ms holds at most W / 2000 + 1 starts.
   */
  lemma ReportRateBounded(loadedAt: int, es: seq<Event>, from: int, width: nat)
    ensures
      var w := Run(Loaded(loadedAt), es);
      && w.inFlight <= 1
      && (forall i | 0 < i < |w.starts| :: w.starts[i] - w.starts[i - 1] >= 2000)
      && |w.settles| + 1 >= |w.starts|
      && (forall i | 0 < i < |w.starts| :: w.starts[i] - w.settles[i - 1] >= 2000)
      && InWindow(w.starts, from, width) <= width / 2000 + 1
  {
    RunOk(Loaded(loadedAt), es);
    hide Run;
    var starts := Run(Loaded(loadedAt), es).starts;
    if InWindow(starts, from, width) > 0 {
      SpacedSpan(starts, from, width);
    }
  }

  lemma ReportSends(w: World)
    requires Inv(w)
    ensures
      var idle := w.inFlight == 0 && w.timers == [];
      && Next(w, Reported).starts == (if idle then w.starts + [w.now] else w.starts)
      && Next(w, Reported).inFlight == (if idle then 1 else w.inFlight)
  {
    hide Spaced;
  }

  /** In every reachable state an error is reported exactly when no report is in flight and no timer is pending. */
  lemma ReportedIffIdle(loadedAt: int, es: seq<Event>)
    ensures
      var w := Run(Loaded(loadedAt), es);
      var idle := w.inFlight == 0 && w.timers == [];
      && Next(w, Reported).starts == (if idle then w.starts + [w.now] else w.starts)
      && Next(w, Reported).inFlight == (if idle then 1 else w.inFlight)
  {
    RunOk(Loaded(loadedAt), es);
    hide *;
    ReportSends(Run(Loaded(loadedAt), es));
  }

  /** The gate never sticks: when closed and nothing is in flight, a timer is due within 2000 ms that reopens it. */
  lemma GateReopens(loadedAt: int, es: seq<Event>)
    ensures
      var w := Run(Loaded(loadedAt), es);
      w.closed && w.inFlight == 0 ==>
        && w.timers != []
        && !Next(Next(w, TimePasses(2000)), TimerFires).closed
  {
    RunOk(Loaded(loadedAt), es);
  }
}
