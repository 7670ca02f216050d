/** The session controller: the initial load, the restart with its random
    page and single fallback, and the app as a machine over user and timer
    events. The network replies and the clock readings are parameters. */
module Session {
  import opened Catalog
  import opened Flash
  import opened Deck

  /** Exclusive upper bound of the random skip a restart asks for. */
  const SKIP_BOUND: nat := 1000

  /** A value `Math.random()` can return: a number in [0, 1). */
  type Draw = x: real | 0.0 <= x < 1.0 witness 0.0

  /** `Math.floor(draw * 1000)`, computed on reals. */
  function RandomSkip(draw: Draw): (skip: nat)
    ensures skip < SKIP_BOUND
    ensures skip as real <= draw * 1000.0 < skip as real + 1.0
  {
    (draw * 1000.0).Floor
  }

  /** The state rendered while a fetch is pending: `setLoading(true)` has
      taken effect and nothing else has changed, so the loader shows. */
  function Pending(s: DeckState): (r: DeckState)
    ensures View(r) == LoaderScreen
    ensures r.(loading := s.loading) == s
  {
    s.(loading := true)
  }

  /** The state rendered while the load effect's request is pending, the
      state after it settles, the skips it asked the endpoint for, and
      whether the user was alerted. */
  datatype LoadOutcome = LoadOutcome(pending: DeckState, state: DeckState, requested: seq<nat>, alerted: bool)

  /** The mount-time load: fetch one batch with the default skip 0, install it;
      on a fetch error alert the user and keep the deck. Loading ends on
      both paths. */
  function InitialLoad(s: DeckState, reply: Reply, cb: nat): (r: LoadOutcome)
    ensures r.pending == Pending(s) && View(r.pending) == LoaderScreen
    ensures !r.state.loading && r.state.flash == s.flash
    ensures r.requested == [0]
    ensures r.alerted <==> reply.Failed?
    ensures reply.Failed? ==> r.state == s.(loading := false)
    ensures reply.Delivered? ==>
              && r.state.cats == ShapeBatch(reply.data, CAT_COUNT, cb)
              && r.state.liked == [] && r.state.dislikedCount == 0
              && r.state.currentIndex == |r.state.cats| - 1
              && |r.state.cats| <= CAT_COUNT
  {
    var busy := Pending(s);
    match FetchCats(reply, CAT_COUNT, cb)
    case Threw(_) => LoadOutcome(busy, busy.(loading := false), [0], true)
    case Cards(list) => LoadOutcome(busy, Install(busy, list).(loading := false), [0], false)
  }

  /** The state rendered while a restart's requests are pending, the state
      after it settles, the skips it asked the endpoint for in order, and
      whether a fetch error escaped (restart has no handler). */
  datatype ResetOutcome = ResetOutcome(pending: DeckState, state: DeckState, requested: seq<nat>, escaped: bool)

  /** `reset()`: fetch from the random `skip`; when that batch is shorter
      than a full deck, fetch once more from skip 0 and keep that batch
      whatever its length; install it. A fetch error leaves the deck as it
      was. The loader shows while the requests are pending, and loading
      ends on every path. `first` and `fallback` are the replies to the two requests, `cb1`
      and `cb2` the clock readings of the two fetches. */
  function Reset(s: DeckState, skip: nat, first: Reply, fallback: Reply, cb1: nat, cb2: nat): (r: ResetOutcome)
    ensures r.pending == Pending(s) && View(r.pending) == LoaderScreen
    ensures 1 <= |r.requested| <= 2 && r.requested[0] == skip
    ensures |r.requested| == 2 <==> first.Delivered? && |first.data| < CAT_COUNT
    ensures |r.requested| == 2 ==> r.requested[1] == 0
    ensures !r.state.loading && r.state.flash == s.flash
    ensures r.escaped <==> first.Failed? || (|r.requested| == 2 && fallback.Failed?)
    ensures r.escaped ==> r.state == s.(loading := false)
    ensures !r.escaped && |r.requested| == 1 ==>
              r.state == Install(s, ShapeBatch(first.data, CAT_COUNT, cb1)).(loading := false)
    ensures !r.escaped && |r.requested| == 2 ==>
              r.state == Install(s, ShapeBatch(fallback.data, CAT_COUNT, cb2)).(loading := false)
  {
    var busy := Pending(s);
    match FetchCats(first, CAT_COUNT, cb1)
    case Threw(_) => ResetOutcome(busy, busy.(loading := false), [skip], true)
    case Cards(list) =>
      if |list| < CAT_COUNT then
        match FetchCats(fallback, CAT_COUNT, cb2)
        case Threw(_) => ResetOutcome(busy, busy.(loading := false), [skip, 0], true)
        case Cards(list2) => ResetOutcome(busy, Install(busy, list2).(loading := false), [skip, 0], false)
      else ResetOutcome(busy, Install(busy, list).(loading := false), [skip], false)
  }

  /** A restart's first request uses a skip below the bound. */
  lemma ResetSkipBounded(s: DeckState, draw: Draw, first: Reply, fallback: Reply, cb1: nat, cb2: nat)
    ensures Reset(s, RandomSkip(draw), first, fallback, cb1, cb2).requested[0] < SKIP_BOUND
  {
  }

  /** Load and restart install a batch by the same transition: given the
      same full batch they leave the same state. */
  lemma LoadAndResetInstallAlike(s: DeckState, data: seq<CatRecord>, skip: nat, fallback: Reply, cb: nat, cb2: nat)
    requires |data| >= CAT_COUNT
    ensures Reset(s, skip, Delivered(data), fallback, cb, cb2).state == InitialLoad(s, Delivered(data), cb).state
  {
  }

  /** A restart whose fetch fails, issued from the summary, returns to the
      very same summary. */
  lemma FailedResetKeepsSummary(s: DeckState, skip: nat, first: Reply, fallback: Reply, cb1: nat, cb2: nat)
    requires Finished(s)
    requires Reset(s, skip, first, fallback, cb1, cb2).escaped
    ensures Reset(s, skip, first, fallback, cb1, cb2).state == s
    ensures View(Reset(s, skip, first, fallback, cb1, cb2).state) == SummaryScreen
  {
  }

  /** What can happen to a running app: a card reports a swipe with its own
      index, a button is pressed, a flash timer expires, or the restart
      button is pressed (with the random draw its skip comes from, the
      replies it gets and the clock readings). */
  datatype Event =
    | Gesture(dir: Direction, index: int)
    | Button(dir: Direction)
    | FlashTimeout(timer: nat)
    | Restart(draw: Draw, first: Reply, fallback: Reply, cb1: nat, cb2: nat)

  /** One event applied to the state. Gestures come only from attached
      cards; the buttons act only through `swipe`; the restart button exists
      only on the summary and asks for a skip drawn below the bound. A step
      is the event's settled effect: a restart's loading phase lies inside
      it (see `RestartPassesThroughLoader`). Only a restart replaces the
      deck, a timer touches only the flash, and every event ends with the
      loading flag it started with. */
  function Step(s: DeckState, e: Event): (r: DeckState)
    ensures r.loading == s.loading
    ensures !(e.Restart? && View(s) == SummaryScreen) ==> r.cats == s.cats
    ensures e.FlashTimeout? ==> r.(flash := s.flash) == s
    ensures e.Gesture? && !Mounted(s, e.index) ==> r == s
    ensures e.Button? && s.currentIndex < 0 ==> r == s
    ensures e.Gesture? && Mounted(s, e.index) ==> r.currentIndex == e.index - 1
    ensures e.Button? && r != s ==> r.currentIndex == s.currentIndex - 1
    ensures e.Restart? && View(s) == SummaryScreen ==>
              (r.liked == [] && r.dislikedCount == 0 && r.currentIndex == |r.cats| - 1) || r == s
  {
    match e
    case Gesture(dir, index) =>
      if Mounted(s, index) then HandleSwipe(s, dir, s.cats[index], index) else s
    case Button(dir) => Swipe(s, dir)
    case FlashTimeout(t) => s.(flash := TimerFires(s.flash, t))
    case Restart(draw, first, fallback, cb1, cb2) =>
      if View(s) == SummaryScreen then Reset(s, RandomSkip(draw), first, fallback, cb1, cb2).state else s
  }

  /** The events the card library and the buttons deliver in practice: a
      gesture only from the top card and only sideways, buttons only left or
      right. */
  predicate InOrder(s: DeckState, e: Event) {
    match e
    case Gesture(dir, index) => index == s.currentIndex && Horizontal(dir)
    case Button(dir) => Horizontal(dir)
    case _ => true
  }

  /** The invariant of a running app. */
  predicate Consistent(s: DeckState) {
    Balanced(s) && Valid(s.flash)
  }

  /** Every in-order event keeps the app consistent; swipes move the cursor
      by exactly one when they decide a card and not at all otherwise. */
  lemma StepConsistent(s: DeckState, e: Event)
    requires Consistent(s) && InOrder(s, e)
    ensures Consistent(Step(s, e))
    ensures e.Gesture? || e.Button? ==>
              var r := Step(s, e);
              || r == s
              || (r.currentIndex == s.currentIndex - 1 && r.cats == s.cats
                  && |r.liked| + r.dislikedCount == |s.liked| + s.dislikedCount + 1)
  {
  }

  /** Events applied in order. */
  function Run(s: DeckState, events: seq<Event>): DeckState
    decreases |events|
  {
    if |events| == 0 then s else Run(Step(s, events[0]), events[1..])
  }

  /** Every event of the run is in order at the moment it arrives. */
  predicate AllInOrder(s: DeckState, events: seq<Event>)
    decreases |events|
  {
    |events| == 0 || (InOrder(s, events[0]) && AllInOrder(Step(s, events[0]), events[1..]))
  }

  /** From the first render through the initial load and any in-order run of
      events, the counters balance against the cards consumed and a visible
      flash always has its clearing timer. */
  lemma {:induction false} SessionConsistent(reply: Reply, cb: nat, events: seq<Event>)
    requires AllInOrder(InitialLoad(Initial, reply, cb).state, events)
    ensures Consistent(Run(InitialLoad(Initial, reply, cb).state, events))
  {
    var s := InitialLoad(Initial, reply, cb).state;
    if reply.Delivered? {
      InstallBalanced(Initial, s.cats);
    }
    RunConsistent(s, events);
  }

  /** Consistency survives any in-order run of events. */
  lemma {:induction false} RunConsistent(s: DeckState, events: seq<Event>)
    requires Consistent(s) && AllInOrder(s, events)
    ensures Consistent(Run(s, events))
    decreases |events|
  {
    if |events| > 0 {
      StepConsistent(s, events[0]);
      RunConsistent(Step(s, events[0]), events[1..]);
    }
  }

  /** A failed first load leaves an empty deck that is shown as nothing, not
      as a finished session. */
  lemma FailedLoadIsBlank(e: FetchError, cb: nat)
    ensures var s := InitialLoad(Initial, Failed(e), cb).state;
            !Finished(s) && View(s) == BlankScreen
  {
  }

  /** A restart from the summary shows the loader while its requests are
      pending and settles on a state without it: the one `Restart` step is
      the summary, then the loader, then the settled state. */
  lemma RestartPassesThroughLoader(s: DeckState, draw: Draw, first: Reply, fallback: Reply, cb1: nat, cb2: nat)
    requires View(s) == SummaryScreen
    ensures var o := Reset(s, RandomSkip(draw), first, fallback, cb1, cb2);
            && View(o.pending) == LoaderScreen
            && o.pending.(loading := false) == s
            && Step(s, Restart(draw, first, fallback, cb1, cb2)) == o.state
            && View(o.state) != LoaderScreen
  {
  }

  /** Between events the loader is never on screen: the initial load and
      every later event settle with loading off, because each fetch turns
      it off again on every path. The loader shows only while a fetch is
      pending, inside the initial load or a restart step. */
  lemma {:induction false} SettlesWithLoaderOff(reply: Reply, cb: nat, events: seq<Event>)
    ensures View(Run(InitialLoad(Initial, reply, cb).state, events)) != LoaderScreen
  {
    RunKeepsLoading(InitialLoad(Initial, reply, cb).state, events);
  }

  /** Every run of events ends with the loading flag it started with. */
  lemma {:induction false} RunKeepsLoading(s: DeckState, events: seq<Event>)
    ensures Run(s, events).loading == s.loading
    decreases |events|
  {
    if |events| > 0 {
      RunKeepsLoading(Step(s, events[0]), events[1..]);
    }
  }
}
