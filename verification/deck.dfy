/** The swipe deck: one immutable record holding what the app keeps in its
    state hooks, the swipe transitions, installing a batch, and the values
    the screen derives from the record. */
module Deck {
  import opened Catalog
  import opened Flash

  /** The directions the card library reports. */
  datatype Direction = Left | Right | Up | Down

  predicate Horizontal(d: Direction) {
    d == Left || d == Right
  }

  /** `currentIndex` is the cursor; the app mirrors it in a ref that always
      holds the same value, so the model keeps it once. */
  datatype DeckState = DeckState(
    cats: seq<Card>,
    liked: seq<Card>,
    dislikedCount: nat,
    currentIndex: int,
    loading: bool,
    flash: FlashSlot)

  /** The state on first render: no cards, cursor at -1, loading. */
  const Initial: DeckState := DeckState([], [], 0, -1, true, Idle)

  /** `handleSwipe(direction, cat, index)`: a right swipe adds the card to
      the liked list and flashes "like", a left swipe counts a dislike and
      flashes "nope", and every direction moves the cursor to `index - 1`.
      The index is the reporting card's own; it is not checked against the
      cursor. */
  function HandleSwipe(s: DeckState, dir: Direction, cat: Card, index: int): (r: DeckState)
    ensures r.cats == s.cats && r.loading == s.loading
    ensures r.currentIndex == index - 1
    ensures dir == Right ==> r.liked == s.liked + [cat] && r.dislikedCount == s.dislikedCount
    ensures dir == Left ==> r.liked == s.liked && r.dislikedCount == s.dislikedCount + 1
    ensures !Horizontal(dir) ==> r.liked == s.liked && r.dislikedCount == s.dislikedCount && r.flash == s.flash
    ensures dir == Right ==> r.flash == FlashScreen(s.flash, Like)
    ensures dir == Left ==> r.flash == FlashScreen(s.flash, Nope)
    ensures Valid(s.flash) ==> Valid(r.flash)
  {
    var afterLike :=
      if dir == Right then s.(liked := s.liked + [cat], flash := FlashScreen(s.flash, Like)) else s;
    var afterNope :=
      if dir == Left then afterLike.(dislikedCount := afterLike.dislikedCount + 1,
                                     flash := FlashScreen(afterLike.flash, Nope))
      else afterLike;
    afterNope.(currentIndex := index - 1)
  }

  /** The session is over: loaded, a non-empty deck, every card swiped.
      Equivalently, nothing remains of a loaded, non-empty deck. */
  predicate Finished(s: DeckState)
    ensures Finished(s) <==> !s.loading && |s.cats| > 0 && Remaining(s) == 0
  {
    !s.loading && |s.cats| > 0 && s.currentIndex < 0
  }

  /** Which part of the page is rendered. */
  datatype Screen = LoaderScreen | CardsScreen | SummaryScreen | BlankScreen

  function View(s: DeckState): (screen: Screen)
    ensures screen == SummaryScreen <==> Finished(s)
    ensures screen == BlankScreen <==> !s.loading && |s.cats| == 0
    ensures screen == CardsScreen <==> !s.loading && |s.cats| > 0 && s.currentIndex >= 0
    ensures screen == LoaderScreen <==> s.loading
  {
    if s.loading then LoaderScreen
    else if |s.cats| > 0 && !Finished(s) then CardsScreen
    else if Finished(s) then SummaryScreen
    else BlankScreen
  }

  /** The card at `i` is on screen, so its ref is attached. */
  predicate Mounted(s: DeckState, i: int) {
    View(s) == CardsScreen && 0 <= i < |s.cats|
  }

  /** `swipe(dir)` from a button: nothing when the cursor is negative or no
      card is attached there; otherwise the card at the cursor reports the
      swipe with its own index. */
  function Swipe(s: DeckState, dir: Direction): (r: DeckState)
    ensures Mounted(s, s.currentIndex) ==>
              r == HandleSwipe(s, dir, s.cats[s.currentIndex], s.currentIndex)
    ensures !Mounted(s, s.currentIndex) ==> r == s
  {
    var i := s.currentIndex;
    if i < 0 then s
    else if Mounted(s, i) then HandleSwipe(s, dir, s.cats[i], i)
    else s
  }

  /** Installing a fetched batch: the deck is replaced, the liked list and
      dislike count are cleared and the cursor points at the last card. */
  function Install(s: DeckState, list: seq<Card>): (r: DeckState)
    ensures r.cats == list && r.liked == [] && r.dislikedCount == 0
    ensures r.currentIndex == |list| - 1
    ensures r.loading == s.loading && r.flash == s.flash
  {
    s.(cats := list, liked := [], dislikedCount := 0, currentIndex := |list| - 1)
  }

  /** The "Remaining" counter: the cursor plus one, never below zero. */
  function Remaining(s: DeckState): (n: nat)
    ensures n == 0 <==> s.currentIndex < 0
    ensures s.currentIndex >= 0 ==> n == s.currentIndex + 1
  {
    if s.currentIndex + 1 > 0 then s.currentIndex + 1 else 0
  }

  /** The counters balance against the cards consumed: every card above the
      cursor was counted once, as a like or as a dislike. */
  predicate Balanced(s: DeckState) {
    && -1 <= s.currentIndex < |s.cats|
    && |s.liked| + s.dislikedCount == |s.cats| - 1 - s.currentIndex
  }

  /** An in-order horizontal swipe of the top card moves the cursor down by
      exactly one and keeps the counters balanced. */
  lemma InOrderSwipeBalanced(s: DeckState, dir: Direction)
    requires Balanced(s) && Horizontal(dir) && 0 <= s.currentIndex
    ensures var r := HandleSwipe(s, dir, s.cats[s.currentIndex], s.currentIndex);
            && Balanced(r)
            && r.currentIndex == s.currentIndex - 1
            && |r.liked| + r.dislikedCount == |s.liked| + s.dislikedCount + 1
  {
  }

  /** A vertical direction reaching the handler consumes the card without
      counting it, so the counters no longer balance; only the card's
      vertical-swipe block keeps such directions out. */
  lemma VerticalSwipeUnbalances(s: DeckState, dir: Direction)
    requires Balanced(s) && !Horizontal(dir) && 0 <= s.currentIndex
    ensures var r := HandleSwipe(s, dir, s.cats[s.currentIndex], s.currentIndex);
            && r.currentIndex == s.currentIndex - 1
            && !Balanced(r)
  {
  }

  /** A report carrying an index other than the cursor's is not rejected:
      it moves the cursor to that index minus one, not one below the
      cursor, and a sideways one still counts a decision. */
  lemma StaleIndexNotRejected(s: DeckState, dir: Direction, cat: Card, index: int)
    requires index != s.currentIndex
    ensures var r := HandleSwipe(s, dir, cat, index);
            && r.currentIndex == index - 1
            && r.currentIndex != s.currentIndex - 1
            && (Horizontal(dir) ==> |r.liked| + r.dislikedCount == |s.liked| + s.dislikedCount + 1)
  {
  }

  /** The harm of not rejecting: a late report from the card swiped just
      before leaves the cursor where it is and counts a second decision, so
      the counters no longer balance. */
  lemma LateReportDoubleCounts(s: DeckState, dir: Direction)
    requires Balanced(s) && Horizontal(dir) && 0 <= s.currentIndex + 1 < |s.cats|
    ensures var r := HandleSwipe(s, dir, s.cats[s.currentIndex + 1], s.currentIndex + 1);
            && r.currentIndex == s.currentIndex
            && |r.liked| + r.dislikedCount == |s.liked| + s.dislikedCount + 1
            && !Balanced(r)
  {
  }

  /** Installing establishes the balance for any batch. */
  lemma InstallBalanced(s: DeckState, list: seq<Card>)
    ensures Balanced(Install(s, list))
    ensures Remaining(Install(s, list)) == |list|
  {
  }

  /** While balanced, "Remaining" is the number of cards not yet decided. */
  lemma RemainingCountsUndecided(s: DeckState)
    requires Balanced(s)
    ensures Remaining(s) == |s.cats| - (|s.liked| + s.dislikedCount)
  {
  }
}
