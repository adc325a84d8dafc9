# Memory-game engine in Dafny

A model of the matching engine of a Unity memory game, with proofs about it.
Cards are laid out face down on a grid. The player flips them two at a time.
Two cards with the same id stay matched. Two different cards close again.
The model covers six parts:

- **Event bus** (`Events`). An ordered observer list, duplicates allowed. A
  notification is the sequence of `(observer, publisher, event)` deliveries it
  makes, in list order.
- **Card** (`Cards`). A three-state machine: `Hidden`, `Visible`, `Matched`.
  Every write of the state notifies the card's bus once. The flip and close
  animations are tweens in flight (`FlipOut`, `FlipIn`, `CloseOut`,
  `CloseIn`). Each completes later, one at a time, through `CompleteTween`.
- **Object pool** (`Pool`). An active and an inactive list of cards.
  Reuse is first-in first-out, a double release is ignored, and release-all
  moves everything to the idle list in order.
- **Sprite preparation** (`Shuffle`, and the first methods of
  `Grid.GridManager`):
  - The whole catalog is shuffled.
  - The first `PairCount` entries are taken, each listed twice.
  - The result is shuffled again.
  - `Random.Range(i, n)` becomes an oracle sequence of indices with
    `i <= r < n` (`ValidRolls`). The shuffles are proved against a reference
    Fisher–Yates function and proved to be permutations.
- **Grid engine** (`Grid`):
  - The build tears the previous grid down, lays out one pooled card per
    prepared sprite and subscribes to every card.
  - The pairing logic reacts to card notifications.
  - `GridManager.Valid` is the invariant tying the engine to the pool: it
    listens exactly once to every card on loan and to no idle card, and every
    card has its own bus.
- **Score and progress** (`Score`, `Progress`). The streak and multiplier
  arithmetic, and a level capped at 5 and a high score that only rises, both
  kept in a string-to-int store.

Dafny has no dynamic dispatch. So a card method returns the deliveries its
notification makes, and whoever called it passes those addressed to the engine
to `GridManager.OnNotify`. There are two such callers:

- `CheckPair` matches a card. The card's notification comes straight back to
  the engine, which ignores it because the card is matched. The model makes
  this a real recursive call, so the re-entrant path is verified.
- `Grid.CompleteCardTween` is the animation-completion callback.

Behaviour of the code as written, kept in the model:

- A catalog shorter than half the tiles gives no grid at all, not a smaller
  one (`Grid.PrepareAndBuild`). The sprite preparation clamps the pair count,
  and then the build refuses because too few sprites were prepared.
- The pairing never checks that the two open cards are different objects.
  A visible card can be flipped again, because `FlipCard` only refuses
  matched cards. When that second flip completes, the card pairs with itself:
  it is matched and recorded twice (`Grid.ReopenedCardPairsWithItself`).

## Model

| member | source | states |
|---|---|---|
| Seqs.RemoveFirstPresent | Assets/Scripts/Core/EventManager.cs:29-32 | `List.Remove` of a present element cuts out exactly its first occurrence |
| Seqs.RemoveFirstCounts | Assets/Scripts/Core/EventManager.cs:29-32 | removing a present element shortens the list by one and drops one occurrence from its multiset |
| Seqs.FindFirstSpec | Assets/Scripts/ObjectPool/ObjectPool.cs:73-86 | `List.Find` returns an element satisfying the predicate with no earlier one satisfying it, and returns none exactly when no element satisfies it |
| Events.BroadcastAt | Assets/Scripts/Core/EventManager.cs:41-47 | a notification makes one delivery per list entry, in list order, each carrying the same publisher and event |
| Events.EventManager.constructor | Assets/Scripts/Core/EventManager.cs:12-12 | a new bus starts with an empty observer list |
| Events.EventManager.AddObserver | Assets/Scripts/Core/EventManager.cs:20-23 | the observer is appended at the end; duplicates are kept |
| Events.EventManager.RemoveObserver | Assets/Scripts/Core/EventManager.cs:29-32 | only the first occurrence is removed; no-op when absent; the length drops by one when present |
| Events.EventManager.NotifyObservers | Assets/Scripts/Core/EventManager.cs:41-47 | the loop's deliveries equal the reference broadcast over the list; the list is not changed |
| Events.DuplicateSubscription | Assets/Scripts/Core/EventManager.cs:20-47 | an observer added twice is notified twice in insertion order, and one removal leaves its later subscription |
| Cards.Card.constructor | Assets/Scripts/Core/Card.cs:16-27 | a new card is hidden, shows its back sprite, has no face and a fresh bus with no observers |
| Cards.Card.SetState | Assets/Scripts/Core/Card.cs:39-47 | the state is written, and exactly one `CardFlipped` goes to every observer in order |
| Cards.Card.SetCardFace | Assets/Scripts/Core/Card.cs:56-62 | state `Hidden`, the new face stored, the back sprite shown, the new id; one notification |
| Cards.Card.FlipCard | Assets/Scripts/Core/Card.cs:69-96 | no effect on a matched card; otherwise every pending tween is killed and the first half of the flip starts |
| Cards.Card.CloseCard | Assets/Scripts/Core/Card.cs:101-119 | the first half of the close starts only on a visible card, on top of any tween in flight |
| Cards.Card.MatchCard | Assets/Scripts/Core/Card.cs:124-127 | the state becomes `Matched` whatever it was, with one notification |
| Cards.Card.CompleteTween | Assets/Scripts/Core/Card.cs:84-116 | a first half swaps in the original face or the back and starts the second half, without notifying; a second half sets `Visible` or `Hidden` and notifies once |
| Cards.FlipThenClose | Assets/Scripts/Core/Card.cs:56-119 | assign, flip, close, with every tween completed: the card ends hidden with the same id and face, showing its back |
| Cards.OneNotificationPerWrite | Assets/Scripts/Core/Card.cs:39-127 | the reset in `SetCardFace` and the match each deliver exactly one `CardFlipped` to the single observer |
| Cards.MatchedCardIgnoresFlip | Assets/Scripts/Core/Card.cs:69-127 | after `MatchCard`, `FlipCard` starts nothing and the card stays matched |
| Pool.ObjectPool.constructor | Assets/Scripts/ObjectPool/ObjectPool.cs:61-66 | a new pool has both lists empty |
| Pool.ObjectPool.ActiveObjectCount | Assets/Scripts/ObjectPool/ObjectPool.cs:41-44 | the count is the length of the active list |
| Pool.ObjectPool.InactiveObjectCount | Assets/Scripts/ObjectPool/ObjectPool.cs:50-53 | the count is the length of the inactive list |
| Pool.ObjectPool.FindActiveObject | Assets/Scripts/ObjectPool/ObjectPool.cs:73-76 | the first active object satisfying the condition, or none exactly when none does |
| Pool.ObjectPool.FindInactiveObject | Assets/Scripts/ObjectPool/ObjectPool.cs:83-86 | the first inactive object satisfying the condition, or none exactly when none does |
| Pool.ObjectPool.GetObject | Assets/Scripts/ObjectPool/ObjectPool.cs:94-115 | the oldest idle object is reused, or else a fresh card is created; it goes to the end of the active list; the lists stay repeat-free and disjoint; the total rises by one only on creation |
| Pool.ObjectPool.ReleaseObject | Assets/Scripts/ObjectPool/ObjectPool.cs:121-132 | no-op on an idle object; otherwise it is appended to the idle list and its first active occurrence removed; the invariant is kept |
| Pool.ObjectPool.ReleaseAllObjects | Assets/Scripts/ObjectPool/ObjectPool.cs:137-150 | the loop empties the active list and leaves the idle list as old idle followed by old active, in order |
| Shuffle.FisherYatesPermutes | Assets/Scripts/Core/GridManager.cs:129-136 | the shuffle returns a permutation of its input (same length, same multiset) for every valid roll sequence |
| Shuffle.DoubledShape | Assets/Scripts/Core/GridManager.cs:115-120 | listing every entry twice gives twice the length, twice the multiset, and entry `k` at positions `2k` and `2k+1` |
| Shuffle.PairCount | Assets/Scripts/Core/GridManager.cs:89-112 | no pairs for an odd tile count; half the tiles when the catalog has enough; the catalog size when it is short |
| Shuffle.Selected | Assets/Scripts/Core/GridManager.cs:114-120 | `PairCount` chosen entries, drawn from the catalog's multiset |
| Shuffle.PreparedSpritesShape | Assets/Scripts/Core/GridManager.cs:85-124 | the prepared list holds `2 * PairCount` cards, every chosen entry twice; it is empty for an odd tile count or an empty catalog |
| Shuffle.PreparedSpritesPairs | Assets/Scripts/Core/GridManager.cs:114-123 | with a repeat-free catalog, every prepared entry is a catalog entry occurring exactly twice |
| Shuffle.ShortCatalogFallsShort | Assets/Scripts/Core/GridManager.cs:108-112 | a catalog short of half the tiles yields fewer prepared sprites than tiles |
| Shuffle.FullCatalogFillsGrid | Assets/Scripts/Core/GridManager.cs:96-120 | a catalog of at least half the tiles fills an even, non-negative grid exactly |
| Grid.GridManager.constructor | Assets/Scripts/Core/GridManager.cs:39-42 | an engine with an empty pool and no grid satisfies the invariant |
| Grid.GridManager.TriggerCardShuffle | Assets/Scripts/Core/GridManager.cs:271-275 | the prepared sprites are the reference preparation of the catalog for the grid data and rolls |
| Grid.GridManager.GetCardSprites | Assets/Scripts/Core/GridManager.cs:85-124 | the clearing, odd and empty-catalog early returns, clamp, pairing loop and final shuffle compute the reference preparation |
| Grid.GridManager.ShuffleSelectedCardSprites | Assets/Scripts/Core/GridManager.cs:129-136 | the in-place swap loop computes the reference shuffle of the prepared list |
| Grid.GridManager.ShuffleAllCardSprites | Assets/Scripts/Core/GridManager.cs:142-159 | the copy-then-swap loops return the reference shuffle of the catalog, a permutation of it |
| Grid.GridManager.CreateCardGrid | Assets/Scripts/Core/GridManager.cs:51-77 | the old grid is torn down first; an odd tile count or too few prepared sprites leaves no card laid out; otherwise card `i` is hidden and carries sprite and id `i`, and the engine listens to every card; pooled cards not laid out are untouched, and no laid-out card's tweens change |
| Grid.GridManager.LayOutCards | Assets/Scripts/Core/GridManager.cs:70-76 | the build loop lays out `count` cards, card `i` with prepared sprite `i`; idle cards it does not take are untouched; reused cards keep their tweens and new cards have none |
| Grid.GridManager.LayOutCard | Assets/Scripts/Core/GridManager.cs:72-75 | one build step takes the oldest idle card, or a new one, appends it, gives it the face and id without touching its tweens, and subscribes the engine; the cards already laid out are untouched and the invariant is kept |
| Grid.GridManager.ReleaseCardPool | Assets/Scripts/Core/GridManager.cs:252-263 | every card returns to the pool in order; the engine stops listening to each previously laid-out card; the active, open and matched lists are empty |
| Grid.GridManager.OnNotify | Assets/Scripts/Core/GridManager.cs:168-182 | a notification from a matched or non-visible card changes nothing: no delivery, the same lists, and the same state and tweens for the publisher and the waiting card; otherwise the card is opened, or the pair is resolved |
| Grid.GridManager.OnCardFlipped | Assets/Scripts/Core/GridManager.cs:188-207 | a non-visible card changes nothing, the waiting card included; a visible card is opened; a second open card triggers the pair check, after which no card is open; at most one card stays open between calls |
| Grid.GridManager.CheckPair | Assets/Scripts/Core/GridManager.cs:216-245 | equal ids: both cards matched and appended, `CardMatched` emitted, then `AllCardsMatched` exactly when the matched count reaches the active count; unequal ids: both start closing and `CardFailed` is emitted |
| Grid.CompleteCardTween | Assets/Scripts/Core/GridManager.cs:168-207 | a first half swaps the sprite and queues the second half; a completed close hides the card; any completion other than a flip on a laid-out card leaves the engine's lists and the waiting card as they were; a completed flip opens a laid-out card, or resolves the pair with both cards' states and tweens, the matched list and the emitted events |
| Grid.ReopenedCardPairsWithItself | Assets/Scripts/Core/GridManager.cs:188-245 | flipping the open card again and completing both halves pairs it with itself: it ends matched and is recorded twice |
| Grid.PrepareAndBuild | Assets/Scripts/Core/GridManager.cs:56-120 | preparing and then building: a catalog short of half the tiles yields no grid, one of at least half the tiles a full grid |
| Score.MatchStep | Assets/Scripts/Core/ScoreTracker.cs:43-49 | a match raises the streak by one and adds `10 * multiplier`, that is 10 or 20, doubled from the second match of a streak on |
| Score.MismatchStep | Assets/Scripts/Core/ScoreTracker.cs:54-59 | a mismatch takes 2 off a positive score only, lowers a positive streak by one, never below zero, and keeps the multiplier |
| Score.ReplayStaysSane | Assets/Scripts/Core/ScoreTracker.cs:43-59 | after any history of matches and mismatches the streak is non-negative and the multiplier is 1 or 2 |
| Score.MultiplierNeverDrops | Assets/Scripts/Core/ScoreTracker.cs:45-47 | nothing resets the multiplier: it never decreases over any history |
| Score.TwoMatchesDouble | Assets/Scripts/Core/ScoreTracker.cs:45-46 | two matches in a row always leave the multiplier at 2 |
| Score.FreshMatchesScore | Assets/Scripts/Core/ScoreTracker.cs:14-49 | from a fresh tracker the first match gives 10 and the second 20, for 30 |
| Score.MismatchPenaltyEdges | Assets/Scripts/Core/ScoreTracker.cs:56-57 | a score of 1 becomes -1; a non-positive score is unchanged |
| Score.ScoreTracker.constructor | Assets/Scripts/Core/ScoreTracker.cs:14-18 | score 0, streak 0, multiplier 1 |
| Score.ScoreTracker.Score | Assets/Scripts/Core/ScoreTracker.cs:25-29 | the getter returns the current score |
| Score.ScoreTracker.SetScore | Assets/Scripts/Core/ScoreTracker.cs:25-29 | the setter changes the score only |
| Score.ScoreTracker.IncrementMatchScore | Assets/Scripts/Core/ScoreTracker.cs:43-49 | the fields step as one match, and the new score is emitted once |
| Score.ScoreTracker.DecreaseScore | Assets/Scripts/Core/ScoreTracker.cs:54-59 | the fields step as one mismatch, and the new score is emitted once |
| Score.MatchMatchMismatch | Assets/Scripts/Core/ScoreTracker.cs:43-59 | a fresh tracker emits 10, 30 and 28 for match, match, mismatch |
| Progress.LevelAfterCapped | Assets/Scripts/Core/UserProgressTracker.cs:84-89 | `n` level-ups from a level below 5 give `min(level + n, 5)`; from 5 or above the level stays |
| Progress.HighScoreIsMaximum | Assets/Scripts/Core/UserProgressTracker.cs:72-79 | after any run of saves the high score is at least the old one and every offered score, and is one of them |
| Progress.UserProgressTracker.constructor | Assets/Scripts/Core/UserProgressTracker.cs:41-48 | the level and high score are read from the store under "PlayerLevel" and "PlayerHighScore", defaulting to 1 and 0 |
| Progress.UserProgressTracker.InitializePlayerData | Assets/Scripts/Core/UserProgressTracker.cs:41-48 | reloads level and high score from the store with the same defaults |
| Progress.UserProgressTracker.GetPlayerLevel | Assets/Scripts/Core/UserProgressTracker.cs:53-53 | the getter returns the current level |
| Progress.UserProgressTracker.GetPlayerHighScore | Assets/Scripts/Core/UserProgressTracker.cs:58-58 | the getter returns the current high score |
| Progress.UserProgressTracker.SavePlayerLevel | Assets/Scripts/Core/UserProgressTracker.cs:63-66 | the current level is written under "PlayerLevel"; nothing else in the store changes |
| Progress.UserProgressTracker.SavePlayerScore | Assets/Scripts/Core/UserProgressTracker.cs:72-79 | the high score becomes `max(old, score)`; the store is written only when the score beats it |
| Progress.UserProgressTracker.IncrementPlayerLevel | Assets/Scripts/Core/UserProgressTracker.cs:84-89 | the level rises by one only below 5 and is always written to the store |
| Progress.ReturningPlayer | Assets/Scripts/Core/UserProgressTracker.cs:41-89 | a stored level 4 and high score 50, two level-ups and saves of 30 and 70 give level 5 and high score 70, both stored |

## Left out

- User interface, audio and the coordinator. The UI screens, the sound
  manager (the `PlaySFX` call in `FlipCard` is a no-op here) and
  `GameManager` are not part of this model. `GameManager` forwards grid
  events to the score tracker and the UI. Grid events are returned as
  deliveries and not dispatched further.
- Unity plumbing: singletons, `Awake`/`Start` wiring, the grid layout's
  constraint count, transform re-parenting in the pool, and `Debug.Log*`.
  The two logged build errors become `BuildOutcome` values. The logged
  preparation errors return an empty list, as the code does.
- Tween timing and easing. Only the order of the two halves of each
  animation is kept. Completions arrive one at a time and in any order, and
  stale tweens are never cancelled except by `FlipCard`'s kill.
- The null-publisher branch of `OnNotify` (GridManager.cs:170-175). The
  publisher is typed as a card, so the branch cannot be reached.
- Event payloads typed as `object`. Here they are the enumerations.
- Delivery timing. In the C# code an observer runs inside the state setter.
  Here deliveries are dispatched after the publishing method returns. This
  matters only where code runs after the setter and the observer reads that
  state. In the core that is `SetCardFace`, and the engine subscribes only
  after calling it, so no one observes the difference.
- Changing an observer list while it is being notified. In the C# code this
  throws. Here deliveries are computed before any observer runs, so the case
  does not arise.
- Pool genericity. Dafny cannot instantiate a type parameter, so the pool
  holds cards. `Instantiate` becomes `new Card` with the prefab's back sprite.
- `Pool.ObjectPool.FindActiveObject` and `Pool.ObjectPool.FindInactiveObject`:
  the condition is a heap-independent function of the card, so a condition
  cannot read a card's mutable state.
- Catalog entries are values, not references, so repeat-freedom of the
  catalog (assumed by `Shuffle.PreparedSpritesPairs`) means distinct id and
  sprite pairs.
- Integer overflow. Scores, levels and the tile product `rows * columns`
  are unbounded integers here. The source's 32-bit wrap-around is not
  modelled.
- `GameLevel` and `GridData.level` are carried as data and never read by the
  core.
