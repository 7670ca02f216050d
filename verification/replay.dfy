/** A session played from a freshly installed deck by pressing the Like and
    Dislike buttons: what the liked list, the dislike count and the cursor
    are after any number of presses. */
module Replay {
  import opened Catalog
  import opened Deck

  /** A deck just installed, nothing decided yet; on screen when non-empty. */
  predicate Fresh(s: DeckState) {
    !s.loading && s.liked == [] && s.dislikedCount == 0 && s.currentIndex == |s.cats| - 1
  }

  predicate AllHorizontal(dirs: seq<Direction>) {
    forall k :: 0 <= k < |dirs| ==> Horizontal(dirs[k])
  }

  /** Button presses applied in order. */
  function Play(s: DeckState, dirs: seq<Direction>): DeckState
    decreases |dirs|
  {
    if |dirs| == 0 then s else Swipe(Play(s, dirs[..|dirs| - 1]), dirs[|dirs| - 1])
  }

  /** How many of `dirs` are `d`. */
  function Count(dirs: seq<Direction>, d: Direction): (n: nat)
    ensures n <= |dirs|
    decreases |dirs|
  {
    if |dirs| == 0 then 0
    else Count(dirs[..|dirs| - 1], d) + (if dirs[|dirs| - 1] == d then 1 else 0)
  }

  /** The cards the `k`-th press decides is the `k`-th from the top, so the
      liked list holds, in press order, the cards pressed right. */
  function Chosen(cats: seq<Card>, dirs: seq<Direction>): (liked: seq<Card>)
    requires |dirs| <= |cats|
    ensures |liked| == Count(dirs, Right)
    decreases |dirs|
  {
    if |dirs| == 0 then []
    else
      var n := |dirs|;
      Chosen(cats, dirs[..n - 1]) + (if dirs[n - 1] == Right then [cats[|cats| - n]] else [])
  }

  /** Horizontal directions are split between likes and dislikes. */
  lemma {:induction false} CountSplit(dirs: seq<Direction>)
    requires AllHorizontal(dirs)
    ensures Count(dirs, Right) + Count(dirs, Left) == |dirs|
    decreases |dirs|
  {
    if |dirs| > 0 {
      CountSplit(dirs[..|dirs| - 1]);
    }
  }

  /** Up to the size of the deck, each press decides the top card: the cursor
      falls by one per press, the liked list is exactly the right-pressed
      cards in order, and the dislike count is the number of left presses. */
  lemma {:induction false} PlayFromFresh(s: DeckState, dirs: seq<Direction>)
    requires Fresh(s) && AllHorizontal(dirs) && |dirs| <= |s.cats|
    ensures var r := Play(s, dirs);
            && r.cats == s.cats && !r.loading
            && r.currentIndex == |s.cats| - 1 - |dirs|
            && r.liked == Chosen(s.cats, dirs)
            && r.dislikedCount == Count(dirs, Left)
            && Balanced(r)
    decreases |dirs|
  {
    if |dirs| > 0 {
      var prefix := dirs[..|dirs| - 1];
      assert AllHorizontal(prefix) by {
        forall k | 0 <= k < |prefix| ensures Horizontal(prefix[k]) {
          assert prefix[k] == dirs[k];
        }
      }
      PlayFromFresh(s, prefix);
      CountSplit(dirs);
    }
  }

  /** The session is finished exactly when every card has been pressed. */
  lemma FinishedExactlyAtEnd(s: DeckState, dirs: seq<Direction>)
    requires Fresh(s) && |s.cats| > 0 && AllHorizontal(dirs) && |dirs| <= |s.cats|
    ensures Finished(Play(s, dirs)) <==> |dirs| == |s.cats|
    ensures Remaining(Play(s, dirs)) == |s.cats| - |dirs|
  {
    PlayFromFresh(s, dirs);
  }

  /** Once the deck is used up, further presses change nothing. */
  lemma {:induction false} PressesAfterEndIgnored(s: DeckState, dirs: seq<Direction>)
    requires Fresh(s) && |dirs| >= |s.cats| && AllHorizontal(dirs[..|s.cats|])
    ensures Play(s, dirs) == Play(s, dirs[..|s.cats|])
    decreases |dirs|
  {
    if |dirs| == |s.cats| {
      assert dirs[..|s.cats|] == dirs;
    } else {
      var prefix := dirs[..|dirs| - 1];
      assert prefix[..|s.cats|] == dirs[..|s.cats|];
      PressesAfterEndIgnored(s, prefix);
      PlayFromFresh(s, dirs[..|s.cats|]);
    }
  }

  /** Dislike every card of a fresh deck: every card counted as a dislike,
      nothing liked, and the session finished. */
  lemma DislikeAll(s: DeckState, dirs: seq<Direction>)
    requires Fresh(s) && |s.cats| > 0
    requires |dirs| == |s.cats| && forall k :: 0 <= k < |dirs| ==> dirs[k] == Left
    ensures var r := Play(s, dirs);
            r.dislikedCount == |s.cats| && r.liked == [] && Finished(r)
  {
    PlayFromFresh(s, dirs);
    CountSplit(dirs);
    NoRightPresses(dirs);
  }

  /** Only left presses means no right presses are counted. */
  lemma {:induction false} NoRightPresses(dirs: seq<Direction>)
    requires forall k :: 0 <= k < |dirs| ==> dirs[k] == Left
    ensures Count(dirs, Right) == 0
    decreases |dirs|
  {
    if |dirs| > 0 {
      NoRightPresses(dirs[..|dirs| - 1]);
    }
  }
}
