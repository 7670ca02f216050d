/** The screen flash: one slot holding the last signal, cleared by a timer
    that each new signal cancels and replaces. */
module Flash {

  datatype FlashKind = Like | Nope

  datatype Shown = Cleared | Showing(kind: FlashKind)

  /** `shown` is the slot; `pending` is the timer whose expiry clears it
      (the only one not cancelled); `issued` numbers the timers scheduled so
      far, so every new timer gets a fresh id. */
  datatype FlashSlot = FlashSlot(shown: Shown, pending: TimerRef, issued: nat)

  datatype TimerRef = NoTimer | Timer(id: nat)

  /** Nothing shown and no timer scheduled. */
  const Idle: FlashSlot := FlashSlot(Cleared, NoTimer, 0)

  /** A visible signal always has exactly one live timer that will clear it,
      and that timer's id was issued already. */
  predicate Valid(f: FlashSlot) {
    && (f.shown.Showing? <==> f.pending.Timer?)
    && (f.pending.Timer? ==> f.pending.id < f.issued)
  }

  /** `flashScreen(kind)`: show `kind`, cancel the previous timer and schedule
      a new one. */
  function FlashScreen(f: FlashSlot, kind: FlashKind): (r: FlashSlot)
    ensures r.shown == Showing(kind)
    ensures r.pending.Timer? && r.pending.id >= f.issued
    ensures Valid(f) && f.pending.Timer? ==> r.pending != f.pending
    ensures Valid(r)
  {
    FlashSlot(Showing(kind), Timer(f.issued), f.issued + 1)
  }

  /** The timer `t` fires. A cancelled timer never fires, so only the live
      one clears the slot; any other id leaves it as it is. */
  function TimerFires(f: FlashSlot, t: nat): (r: FlashSlot)
    ensures f.pending == Timer(t) ==> r.shown == Cleared && r.pending == NoTimer
    ensures f.pending != Timer(t) ==> r == f
    ensures Valid(f) ==> Valid(r)
  {
    if f.pending == Timer(t) then f.(shown := Cleared, pending := NoTimer) else f
  }

  /** Last write wins: a second signal replaces the first, and the timer the
      first one scheduled can no longer clear the second. */
  lemma LastWriteWins(f: FlashSlot, a: FlashKind, b: FlashKind)
    ensures var first := FlashScreen(f, a);
            var second := FlashScreen(first, b);
            && second.shown == Showing(b)
            && TimerFires(second, first.pending.id) == second
            && TimerFires(second, second.pending.id).shown == Cleared
  {
  }

  /** Whatever happened before, the slot after a run of signals shows the
      last of them. */
  lemma ShowsLastSignal(f: FlashSlot, kinds: seq<FlashKind>)
    requires |kinds| > 0
    ensures FlashAll(f, kinds).shown == Showing(kinds[|kinds| - 1])
    ensures Valid(FlashAll(f, kinds))
  {
  }

  /** Signals applied one after another. */
  function FlashAll(f: FlashSlot, kinds: seq<FlashKind>): FlashSlot
    decreases |kinds|
  {
    if |kinds| == 0 then f
    else FlashScreen(FlashAll(f, kinds[..|kinds| - 1]), kinds[|kinds| - 1])
  }
}
