# Paws & Preferences: the swipe deck as a state machine

This project models the core of the Paws & Preferences app (`src/App.jsx`) in Dafny. The app shows a stack of cat pictures. The user swipes each one right (like) or left (dislike) and gets a summary at the end. The app's React state hooks become one immutable record, `Deck.DeckState`. It holds the deck `cats`, the `liked` list, `dislikedCount`, the cursor `currentIndex`, the `loading` flag and the flash slot. Every handler becomes a pure transition on that record.

- `Decimal`: the decimal text of the `Date.now()` cache-buster, with its inverse.
- `Catalog`: cards, `buildCatImageUrl` with a parser that inverts it, and the shaping step of `fetchCats`, which truncates the batch to `limit` and stamps every URL with one cache-buster.
- `Flash`: `flashScreen` as a single slot plus the one live timer that clears it. A new signal cancels the old timer.
- `Deck`: `handleSwipe`, the guard of `swipe`, installing a batch, `finished`, which screen is rendered, and the "Remaining" counter.
- `Session`: the load effect, `reset` with its random skip and single fallback to skip 0, and the app as a machine over gesture, button, timer and restart events. The central invariant: the counters balance against the cards consumed, and a visible flash always has a timer to clear it.
- `Replay`: presses played in order from a freshly installed deck. Each press decides the next card from the top, and the session finishes after exactly as many presses as there are cards.

Network replies (`Catalog.Reply`), clock readings (`cb`) and the random draw behind the skip are inputs to the transitions. `Session.RandomSkip` takes that draw as a real number in [0, 1) (`Session.Draw`).

The model states these behaviours of the code as they are:
- `handleSwipe` does not check the index it is given against the cursor. A late report from the card swiped just before leaves the cursor where it is and counts a second decision (`Deck.StaleIndexNotRejected`, `Deck.LateReportDoubleCounts`).
- `handleSwipe` moves the cursor for vertical directions too. Only the cards' vertical-swipe block keeps those out (`Deck.VerticalSwipeUnbalances`).
- Load and restart carry no generation token and no in-flight guard.
- A failing restart is not caught. Its error escapes and the deck stays as it was.
- Only the restart retries a short batch. The initial load keeps whatever it gets.

## Model

| member | source | states |
|---|---|---|
| Decimal.FromNat | src/App.jsx:8 | the rendered cache-buster is a non-empty run of digits with no leading zero |
| Decimal.ToNatFromNat | src/App.jsx:8 | reading the rendered cache-buster back gives the clock value |
| Catalog.BuildCatImageUrl | src/App.jsx:7-9 | every image URL parses back to exactly the id and cache-buster it was built from |
| Catalog.UrlInjective | src/App.jsx:7-9 | two image URLs are equal if and only if both the ids and the cache-busters are; a new cache-buster always gives a new URL for the same cat |
| Catalog.ShapeBatch | src/App.jsx:17-20 | the batch has length min(\|data\|, limit) and keeps source order and ids; card i's URL is built from record i's id and the batch's one cache-buster |
| Catalog.BatchSharesCacheBuster | src/App.jsx:16-20 | every URL of a batch parses back to its own card's id and the same cache-buster |
| Catalog.FetchCats | src/App.jsx:11-21 | a failed request throws its error and nothing else; a delivered one yields the shaped batch, truncated to the limit |
| Flash.FlashScreen | src/App.jsx:41-45 | the slot shows the new signal whatever it held; the clearing timer is new, replaces the previous one, and keeps a visible signal paired with its timer |
| Flash.TimerFires | src/App.jsx:44 | only the live timer clears the slot; a cancelled timer changes nothing |
| Flash.LastWriteWins | src/App.jsx:41-45 | after two signals the second shows, and the first signal's timer cannot clear it |
| Flash.ShowsLastSignal | src/App.jsx:41-45 | after any run of signals the slot shows the last one |
| Deck.HandleSwipe | src/App.jsx:85-95 | right appends exactly the card to liked and keeps the dislike count; left adds exactly one dislike and keeps liked; other directions change neither; the deck never changes; the cursor becomes index - 1 for every direction |
| Deck.Swipe | src/App.jsx:98-103 | a negative cursor, or no attached card there, changes nothing; otherwise the card at the cursor reports with the cursor as its index |
| Deck.Install | src/App.jsx:71-74 | the deck becomes the batch, liked and dislikes are cleared, the cursor points at the last card |
| Deck.Remaining | src/App.jsx:188 | the counter is never negative, is zero exactly when the cursor is negative, and is otherwise cursor + 1 |
| Deck.Finished | src/App.jsx:127 | finished holds exactly when not loading, the deck is non-empty and the Remaining counter is zero |
| Deck.View | src/App.jsx:146-215 | the loader shows exactly while loading; the cards exactly when loaded, non-empty and the cursor is not negative; the summary exactly when finished; an empty loaded deck shows nothing |
| Deck.InOrderSwipeBalanced | src/App.jsx:85-95 | a left or right swipe of the top card lowers the cursor by exactly one, decides exactly one card, and keeps the counters balanced |
| Deck.VerticalSwipeUnbalances | src/App.jsx:94 | a vertical direction reaching the handler consumes the card without counting it |
| Deck.StaleIndexNotRejected | src/App.jsx:94 | a report whose index is not the cursor is not rejected: the cursor goes to that index minus one, not one below the cursor, and a sideways report still counts a decision |
| Deck.LateReportDoubleCounts | src/App.jsx:94 | a late sideways report from the card swiped just before leaves the cursor where it is, counts a second decision and breaks the balance |
| Deck.InstallBalanced | src/App.jsx:71-74 | installing any batch balances the counters, with every card remaining |
| Deck.RemainingCountsUndecided | src/App.jsx:188 | in a balanced state the counter equals the cards not yet liked or disliked |
| Session.RandomSkip | src/App.jsx:109 | for a draw in [0, 1) the skip is the floor of draw times 1000, a natural number below 1000 |
| Session.InitialLoad | src/App.jsx:62-82 | the loader shows while the request is pending; one request, at skip 0; success installs the shaped batch; failure alerts and keeps the deck; loading ends on both paths |
| Session.Reset | src/App.jsx:105-124 | the loader shows while the requests are pending, with nothing else changed; one or two requests; the second is made exactly when the first delivered fewer than 15 records, and it uses skip 0; the last batch is installed whatever its length; an error escapes and keeps the deck |
| Session.ResetSkipBounded | src/App.jsx:109-110 | the restart's first request uses a skip below 1000 |
| Session.LoadAndResetInstallAlike | src/App.jsx:117-120 | given the same full batch, restart and initial load leave the same state |
| Session.FailedResetKeepsSummary | src/App.jsx:121-123 | a restart whose fetch throws returns to the same finished summary |
| Session.Step | src/App.jsx:162-213 | only a restart from the summary replaces the deck, and it clears the counters and points at the last card or leaves the state as it was; a timer touches only the flash; a gesture from an unattached card and a button press past the end change nothing; a gesture moves the cursor to its index minus one, an acting button press lowers it by one; every event ends with the loading flag it started with |
| Session.RestartPassesThroughLoader | src/App.jsx:105-124 | a restart from the summary shows the loader while its requests are pending, with nothing else changed, and settles on the step's result, which is not the loader |
| Session.SettlesWithLoaderOff | src/App.jsx:78-80 | after the initial load and any run of events the settled screen is never the loader; the loader shows only while a fetch is pending |
| Session.StepConsistent | src/App.jsx:85-103 | every in-order event keeps the counters balanced and the flash paired with its timer; a swipe either changes nothing or decides one card and lowers the cursor by one |
| Session.SessionConsistent | src/App.jsx:62-82 | after the initial load and any in-order run of events, the app is consistent |
| Session.FailedLoadIsBlank | src/App.jsx:75-79 | a failed first load leaves an empty deck that is not finished and renders nothing |
| Replay.PlayFromFresh | src/App.jsx:85-103 | after k presses from a fresh deck the cursor is \|cats\| - 1 - k, liked holds exactly the right-pressed cards in order, and dislikes count the left presses |
| Replay.FinishedExactlyAtEnd | src/App.jsx:127 | the session is finished exactly after as many presses as cards, and Remaining is the cards left |
| Replay.PressesAfterEndIgnored | src/App.jsx:98-100 | once the deck is used up, further presses change nothing |
| Replay.DislikeAll | src/App.jsx:85-95 | disliking every card gives a dislike count equal to the deck size, no likes, and a finished session |

## Left out

- The HTTP request, its status check and JSON decoding (`src/App.jsx:12-14`) are not modelled. They become a `Reply`: the decoded records or the error thrown (a network error, a bad status or an unreadable body). A body that is not an array, or records without an `id`, are not modelled.
- Image preloading (`src/App.jsx:24-31`, awaited at 69 and 115) is not modelled. Each image promise resolves on both load and error, so the wait cannot fail or change state.
- `Date.now()` and `Math.random()` are not modelled. They become parameters: the cache-buster is a natural number, and the random draw is a real in [0, 1) (`Session.Draw`).
- Session.RandomSkip: computes on exact reals, not on floating point. It does not model rounding of `draw * 1000`.
- Decimal.FromNat: renders every natural in plain decimal. It does not model JavaScript's exponent notation for numbers of 10^21 and above, which clock values never reach.
- Catalog.ShapeBatch: takes `limit` as a natural number. It does not model `slice` with a negative limit, because the app only passes 15.
- The 220 ms delay of the flash timer is not modelled. Only which timer is live is modelled.
- React machinery is not modelled: hooks, the `childRefs` memo, the cursor ref and how state updates are scheduled or batched. The cursor and its ref always hold the same value, so the model keeps one. A card's ref counts as attached exactly when the card list is on screen (`Deck.Mounted`).
- The interleaving of load and restart with other events is not modelled: each is one transition, whose outcome also records the state rendered while its requests are pending (`pending`, the loader). The code has no guard against overlapping runs. But while `loading` is true, nothing that starts another transition is on screen: the cards and both buttons show only when not loading (`src/App.jsx:158`), and the restart button only on the summary (`src/App.jsx:194`, `211`). The load effect runs once, since its dependency list is empty (`src/App.jsx:82`).
- A flash timer firing while a load or restart is pending is not modelled. It touches only the flash slot, so it commutes with the install.
- A mount effect run twice (as React's development StrictMode does) is not modelled. Two loads would then be in flight, and whichever settles later would install its batch.
- The body class effect (`src/App.jsx:129-135`), the JSX markup, `alert` and `console` are not modelled. Only the alert flag of the initial load is kept.
- The card library's gesture recognition, its 0.25 velocity threshold and the flick animation are not modelled. Only the direction it reports and the index of the reporting card are kept.
