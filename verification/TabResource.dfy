/**
  A tab-local resource: reloads when its key or activity changes, and drops answers
  that belong to a superseded load.
 */
module TabResource {
  import opened Wrappers

  datatype Resource<A> = Resource(data: Option<A>, loading: bool, error: Option<string>)

  /** The hook's own state: its sequence counter and what it shows. */
  datatype Core<A> = Core(sequence: nat, shown: Resource<A>)

  function Empty<A>(): Resource<A> { Resource(None, false, None) }

  function EffectRuns<A>(c: Core<A>, active: bool): Core<A> {
    Core(c.sequence + 1, if active then Resource(None, true, None) else Empty())
  }

  function Resolved<A>(c: Core<A>, mine: nat, data: A): Core<A> {
    if c.sequence != mine then c else c.(shown := Resource(Some(data), false, None))
  }

  function Rejected<A>(c: Core<A>, mine: nat, reason: Reason): Core<A> {
    if c.sequence != mine || reason.Aborted? then c else c.(shown := Resource(None, false, Some(reason.message)))
  }

  class TabResource<A> {
    var sequence: nat
    var state: Resource<A>

    function Value(): Core<A>
      reads this
    {
      Core(sequence, state)
    }

    constructor ()
      ensures Value() == Core(0, Empty())
    {
      sequence, state := 0, Empty();
    }

    /** The effect body; `mine` numbers the load it starts, if it starts one. */
    method Effect(active: bool) returns (mine: nat)
      modifies this
      ensures Value() == EffectRuns(old(Value()), active)
      ensures mine == sequence
    {
      sequence := sequence + 1;
      mine := sequence;
      if !active {
        state := Empty();
        return;
      }
      state := Resource(None, true, None);
    }

    method Then(mine: nat, data: A)
      modifies this
      ensures Value() == Resolved(old(Value()), mine, data)
    {
      if sequence != mine {
        return;
      }
      state := Resource(Some(data), false, None);
    }

    method Catch(mine: nat, reason: Reason)
      modifies this
      ensures Value() == Rejected(old(Value()), mine, reason)
    {
      if sequence != mine {
        return;
      }
      if reason.Aborted? {
        return;
      }
      state := Resource(None, false, Some(reason.message));
    }
  }

  // ---- the hook against the network ----

  /** A load in flight: the key it was started for, what it asks, and its abort flag. */
  datatype Load<R> = Load(key: string, request: R, aborted: bool)

  /** Data carries where it came from. */
  datatype Answer<R> = Answer(number: nat, key: string, request: R)

  datatype Hook<R> = Hook(
    core: Core<Answer<R>>,
    mounted: bool,
    active: bool,
    key: string,
    loads: map<nat, Load<R>>,
    answered: set<nat>,          // loads that were answered
    failures: map<nat, string>)  // loads that were rejected, other than by abort, with their error

  datatype Event<R> =
    | Render(active: bool, key: string, request: R)  // a commit of the page with these hook arguments
    | Unmount
    | Answered(number: nat)
    | Failed(number: nat, reason: Reason)

  function NewHook<R>(): Hook<R> {
    Hook(Core(0, Empty()), false, false, "", map[], {}, map[])
  }

  /** The cleanup of the last effect aborts the load it started. */
  function Cleanup<R>(h: Hook<R>): Hook<R> {
    var n := h.core.sequence;
    if n in h.loads then h.(loads := h.loads[n := h.loads[n].(aborted := true)]) else h
  }

  /** A commit: the effect runs only when its dependencies changed, after the old cleanup. */
  function Sync<R>(h: Hook<R>, active: bool, key: string, request: R): Hook<R> {
    if h.mounted && h.active == active && h.key == key then h
    else
      var c := Cleanup(h);
      var core := EffectRuns(h.core, active);
      c.(core := core, mounted := true, active := active, key := key,
         loads := if active then c.loads[core.sequence := Load(key, request, false)] else c.loads)
  }

  function Settle<R>(h: Hook<R>, e: Event<R>): Hook<R>
    requires e.Answered? || e.Failed?
  {
    if e.number !in h.loads then h
    else
      var load := h.loads[e.number];
      var rest := h.loads - {e.number};
      match e
      case Answered(n) =>
        h.(core := Resolved(h.core, n, Answer(n, load.key, load.request)), loads := rest, answered := h.answered + {n})
      case Failed(n, reason) =>
        if reason.Aborted? && !load.aborted then h  // fetch rejects with AbortError only after an abort
        else h.(core := Rejected(h.core, n, reason), loads := rest,
                failures := if reason.Aborted? then h.failures else h.failures[n := reason.message])
  }

  function Next<R>(h: Hook<R>, e: Event<R>): Hook<R> {
    match e
    case Render(active, key, request) => Sync(h, active, key, request)
    case Unmount => Cleanup(h).(mounted := false)
    case _ => Settle(h, e)
  }

  function Run<R>(h: Hook<R>, es: seq<Event<R>>): Hook<R>
    decreases |es|
  {
    if es == [] then h else Run(Next(h, es[0]), es[1..])
  }

  /** One event as it happens to the hook object; `h` is the hook before it. */
  method Perform<R>(o: TabResource<Answer<R>>, h: Hook<R>, e: Event<R>)
    requires o.Value() == h.core
    modifies o
    ensures o.Value() == Next(h, e).core
  {
    match e
    case Render(active, key, _) =>
      if !(h.mounted && h.active == active && h.key == key) {
        var _ := o.Effect(active);
      }
    case Unmount =>
    case Answered(n) =>
      if n in h.loads {
        o.Then(n, Answer(n, h.loads[n].key, h.loads[n].request));
      }
    case Failed(n, reason) =>
      if n in h.loads && (reason.Aborted? ==> h.loads[n].aborted) {
        o.Catch(n, reason);
      }
  }

  /** The hook object driven through any run ends in the state the run computes. */
  method Drive<R>(es: seq<Event<R>>) returns (o: TabResource<Answer<R>>)
    ensures o.Value() == Run(NewHook<R>(), es).core
  {
    o := new TabResource();
    var h := NewHook<R>();
    for i := 0 to |es|
      invariant o.Value() == h.core
      invariant Run(h, es[i..]) == Run(NewHook<R>(), es)
    {
      Perform(o, h, es[i]);
      h := Next(h, es[i]);
      assert es[i..][1..] == es[i + 1..];
    }
  }

  /** Latest key wins: what is shown is what became of the newest load. */
  ghost predicate LatestWins<R>(h: Hook<R>) {
    var n, shown := h.core.sequence, h.core.shown;
    && (shown.data.Some? <==> n in h.answered)
    && (shown.data.Some? ==> h.active && shown.data.value.number == n && shown.data.value.key == h.key && n !in h.loads)
    && (shown.error.Some? <==> n in h.failures)
    && (shown.error.Some? ==> h.active && shown.error.value == h.failures[n] && n !in h.loads)
    && (h.mounted ==> (shown.loading <==> n in h.loads))
    && (!h.active ==> !shown.loading && shown.data.None? && shown.error.None?)
    && !(shown.data.Some? && shown.error.Some?)
  }

  /** A mounted, active hook shows exactly one of a spinner, data and an error. */
  ghost predicate ShowsOne<R>(h: Hook<R>) {
    var shown := h.core.shown;
    h.mounted && h.active ==>
      && (shown.loading || shown.data.Some? || shown.error.Some?)
      && !(shown.loading && shown.data.Some?) && !(shown.loading && shown.error.Some?)
  }

  /** Every load but a mounted hook's newest is aborted. */
  ghost predicate LoadsOk<R>(h: Hook<R>) {
    && (forall n | n in h.loads :: 1 <= n <= h.core.sequence && n !in h.failures && n !in h.answered)
    && (forall n | n in h.failures :: n <= h.core.sequence)
    && (forall n | n in h.answered :: n <= h.core.sequence)
    && (forall n | n in h.loads :: h.loads[n].aborted <==> !h.mounted || n != h.core.sequence)
    && (h.core.sequence in h.loads ==> h.active && h.loads[h.core.sequence].key == h.key)
    && ShowsOne(h)
  }

  lemma SyncLatestWins<R>(h: Hook<R>, active: bool, key: string, request: R)
    requires LatestWins(h) && LoadsOk(h)
    ensures LatestWins(Sync(h, active, key, request)) && LoadsOk(Sync(h, active, key, request))
  {
  }

  /** A commit leaves the hook mounted under its arguments; what it holds and awaits was there before or is new. */
  lemma SyncKeeps<R>(h: Hook<R>, active: bool, key: string, request: R)
    ensures
      var h' := Sync(h, active, key, request);
      && h'.mounted && h'.active == active && h'.key == key
      && (h'.core.shown.data.Some? ==> h'.core.shown.data == h.core.shown.data)
      && (forall n | n in h'.loads ::
            || (n in h.loads && h'.loads[n].key == h.loads[n].key && h'.loads[n].request == h.loads[n].request)
            || (h'.loads[n].key == key && h'.loads[n].request == request))
  {
  }

  /** However often a hook is re-rendered at once: if its arguments end up changed and active, it is loading. */
  lemma TwoSyncsLoad<R>(h: Hook<R>, a: bool, k: string, r: R, a': bool, k': string, r': R)
    requires h.mounted && a' && (!h.active || h.key != k')
    ensures Sync(Sync(h, a, k, r), a', k', r').core.shown == Resource(None, true, None)
  {
  }

  lemma SettleLatestWins<R>(h: Hook<R>, e: Event<R>)
    requires LatestWins(h) && LoadsOk(h) && (e.Answered? || e.Failed?)
    ensures LatestWins(Settle(h, e)) && LoadsOk(Settle(h, e))
  {
  }

  lemma NextLatestWins<R>(h: Hook<R>, e: Event<R>)
    requires LatestWins(h) && LoadsOk(h)
    ensures LatestWins(Next(h, e)) && LoadsOk(Next(h, e))
  {
    hide Sync;
    hide Settle;
    match e
    case Render(active, key, request) => SyncLatestWins(h, active, key, request);
    case Unmount =>
    case _ => SettleLatestWins(h, e);
  }

  lemma {:induction false} RunLatestWins<R>(h: Hook<R>, es: seq<Event<R>>)
    requires LatestWins(h) && LoadsOk(h)
    ensures LatestWins(Run(h, es)) && LoadsOk(Run(h, es))
    decreases |es|
  {
    if es != [] {
      NextLatestWins(h, es[0]);
      RunLatestWins(Next(h, es[0]), es[1..]);
    }
  }

  /**
    Over every run of renders, answers, failures and unmounts: data is shown exactly when the
    newest load was answered, and is that load's, for the current key; an error exactly when it
    failed, and is that failure's; while mounted, `loading` says whether it is in flight; an
    inactive hook shows nothing, a mounted active one exactly one of the three; and every load
    that was superseded, or outlived the hook, is aborted.
   */
  lemma LatestKeyWins<R>(es: seq<Event<R>>)
    ensures
      var h := Run(NewHook(), es);
      && LatestWins(h) && ShowsOne(h)
      && (forall n | n in h.loads :: h.loads[n].aborted <==> !h.mounted || n != h.core.sequence)
  {
    RunLatestWins(NewHook<R>(), es);
  }
}
