# Mind-Game engine in Dafny

This is a verified model of the game engine of the Mind-Game Android app, a "pairs" memory game. It covers three parts:

- **The board sizes** (`BoardSize`): three tiers with card count, grid width, grid height and pair count, plus the reverse lookup `getByValue`.
- **The card record** (`MemoryCard`): an identifier and an optional image URL that never change, and two flags that the engine changes in place (face-up, matched).
- **The engine** (`MemoryGame`): it deals a shuffled deck of pairs, from the twelve built-in icons or from uploaded image URLs. It then runs a two-state flip machine:
  - with no card pending, a flip first turns every unmatched card face-down, then makes the flipped card pending;
  - with a card pending, a flip compares the two cards, marks a pair as matched and counts it.

  It also counts flips (`getNumMoves` reports half of them) and tests whether the game is won.

Modules, one file each:

- `nullable.dfy` (`Nullable`): `Option`, standing for Kotlin's nullable types.
- `shuffling.dfy` (`Shuffling`): `shuffled()` as a reordering by an index permutation, and `take(n)`.
- `constants.dfy` (`Constants`): the icon catalog `DEFAULT_ICONS`.
- `board.dfy` (`Board`): the `BoardSize` enum.
- `card.dfy` (`Card`): the `MemoryCard` class and its value view `CardState`.
- `game.dfy` (`Game`), in two halves:
  - **A value model.** `GameState` and the function `Flip`, with the engine invariant `Inv` and lemmas about both.
  - **The class `MemoryGame`.** Its fields are the engine's counters and the shared card objects. Each method is proved to change the objects exactly as the value model says, e.g. `FlipCard` ensures `(State(), isMatched) == Flip(old(State()), position)`. `FlipCard` also keeps `Valid()`: no card object appears twice, and `Inv` holds.

`Inv` is the invariant kept between flips:

- `numPairsFound` is half the number of matched cards;
- every matched card is face-up;
- the pending card is face-up and unmatched, and no other card is both face-up and unmatched;
- a flip is pending exactly when an odd number of flips has been made.

With nothing pending, more than one unmatched card can be face-up. After a move that finds no pair, both of its cards stay face-up until the next flip's `restoreCards` turns them down (`MemoryGame.kt:34-36`, `48-54`; `Game.MismatchLeavesBothUp`). "At most one unmatched card face-up" therefore holds only while a flip is pending.

The caller's guard before a flip lives in `MainActivity.updateGameWithFlip`: do not flip when the game is won, and do not flip a face-up card. It is `FlipCard`'s precondition here, and the predicate `CanFlip` in the value model. Without the guard, a won board can be un-won. A flip on the matched cards of a won board turns one of them face-down and makes it pending. A second flip, on its partner, matches the pair again and raises the pair counter past `getPairs()` (`Game.UnguardedFlipsUnwin`).

`getByValue` takes a pair count: 4 → EASY, 9 → MEDIUM and anything else → HARD. Its only caller (`MainActivity.kt:260`) passes the number of uploaded images, or 4 when there are none. It is a left inverse of `getPairs()`: `getByValue(b.getPairs()) == b` for every tier (`Board.GetByPairsRoundTrip`). It is not a full inverse, because every other integer also maps to HARD. A pair count can select a tier at all only because no two tiers share one (`Board.PairsInjective`).

## Model

| member | source | states |
|---|---|---|
| Board.BoardSize.NumCards | app/src/main/java/com/sonu/memorygame/models/BoardSize.kt:3-6 | every tier deals an even number of cards, at least 8 |
| Board.BoardSize.Width | app/src/main/java/com/sonu/memorygame/models/BoardSize.kt:18-24 | the width is positive and smaller than the card count |
| Board.BoardSize.Height | app/src/main/java/com/sonu/memorygame/models/BoardSize.kt:26-28 | the height is positive and width × height is the card count, so the division is exact |
| Board.BoardSize.Pairs | app/src/main/java/com/sonu/memorygame/models/BoardSize.kt:30-32 | twice the pair count is the card count, and the pair count is positive and at most the size of the icon catalog |
| Board.GetByValue | app/src/main/java/com/sonu/memorygame/models/BoardSize.kt:9-15 | an integer that is some tier's pair count gives that tier; every other integer gives HARD (total, no error path) |
| Board.Table | app/src/main/java/com/sonu/memorygame/models/BoardSize.kt:3-32 | the fixed table: EASY 8 cards, 2 × 4, 4 pairs; MEDIUM 18, 3 × 6, 9; HARD 24, 4 × 6, 12 |
| Board.GetByPairsRoundTrip | app/src/main/java/com/sonu/memorygame/models/BoardSize.kt:9-15 | `getByValue(b.getPairs()) == b` for every tier |
| Board.PairsInjective | app/src/main/java/com/sonu/memorygame/models/BoardSize.kt:30-32 | two tiers have the same pair count exactly when they are the same tier |
| Constants.DefaultIconsDistinct | app/src/main/java/com/sonu/memorygame/utils/Constants.kt:5-18 | the catalog holds twelve distinct icons |
| Card.MemoryCard.constructor | app/src/main/java/com/sonu/memorygame/models/MemoryCard.kt:3-8 | a card holds the given identifier, URL and flags; by default it has no URL and is face-down and unmatched |
| Shuffling.Shuffled | app/src/main/java/com/sonu/memorygame/models/MemoryGame.kt:15-16 | a shuffle is a reordering: same length, same multiset of elements, element `i` taken from position `p[i]` |
| Shuffling.Take | app/src/main/java/com/sonu/memorygame/models/MemoryGame.kt:15 | `take(n)` is a prefix of length `n`, or the whole list when it is shorter |
| Shuffling.TakeSubMultiset | app/src/main/java/com/sonu/memorygame/models/MemoryGame.kt:15 | `take(n)` yields only elements of the list, no more often than they occur |
| Shuffling.ShuffledTakeDistinct | app/src/main/java/com/sonu/memorygame/models/MemoryGame.kt:15 | shuffling a list without repetitions and taking a prefix gives a list without repetitions |
| Shuffling.PickSameMultiset | app/src/main/java/com/sonu/memorygame/models/MemoryGame.kt:16 | reordering by index lists that hold the same indices yields the same multiset of elements |
| Game.IconCards | app/src/main/java/com/sonu/memorygame/models/MemoryGame.kt:17 | one card per icon, face-down and unmatched |
| Game.UrlCards | app/src/main/java/com/sonu/memorygame/models/MemoryGame.kt:19-21 | one card per URL, face-down and unmatched |
| Game.ChosenIcons | app/src/main/java/com/sonu/memorygame/models/MemoryGame.kt:15 | a default game draws exactly `getPairs()` icons |
| Game.InitialDeck | app/src/main/java/com/sonu/memorygame/models/MemoryGame.kt:13-24 | the deck has twice as many cards as icons or URLs, all face-down and unmatched |
| Game.ChosenIconsFromCatalog | app/src/main/java/com/sonu/memorygame/models/MemoryGame.kt:15 | the drawn icons are distinct and come from the catalog |
| Game.DoubledIconDeck | app/src/main/java/com/sonu/memorygame/models/MemoryGame.kt:16-17 | doubling distinct icons and shuffling puts every icon on exactly two cards and nothing else on any |
| Game.DefaultDeck | app/src/main/java/com/sonu/memorygame/models/MemoryGame.kt:14-17 | a default deck has `numCards` local-icon cards; its identifier multiset is the drawn icons doubled, so each drawn icon occurs exactly twice |
| Game.UrlDeck | app/src/main/java/com/sonu/memorygame/models/MemoryGame.kt:18-23 | a URL deck has two cards per URL (`numCards` of them when `getPairs()` URLs are given); each card is identified by its URL's hash; its URL multiset is the given URLs doubled |
| Game.Restore | app/src/main/java/com/sonu/memorygame/models/MemoryGame.kt:48-54 | every unmatched card is face-down afterwards; matched cards are untouched |
| Game.Won | app/src/main/java/com/sonu/memorygame/models/MemoryGame.kt:67-69 | the win test `numPairsFound == getPairs()`; `Game.WonIffAllMatched` shows it means every card is matched on a full deck |
| Game.CanFlip | app/src/main/java/com/sonu/memorygame/MainActivity.kt:187-195 | the caller's guard: a card of the board, the game not won, the card face-down; with it, `Game.FlipPreservesInv` keeps the invariant |
| Game.Compare | app/src/main/java/com/sonu/memorygame/models/MemoryGame.kt:56-65 | a pair is reported exactly when the identifiers are equal; then both cards are marked and the counter goes up by one, otherwise nothing changes; tier, pending position and flip counter are untouched |
| Game.MarkPair | app/src/main/java/com/sonu/memorygame/models/MemoryGame.kt:60-61 | the cards at the two positions become matched; every other card, and every other field, is unchanged |
| Game.Toggle | app/src/main/java/com/sonu/memorygame/models/MemoryGame.kt:42-43 | only the card at `position` changes side; identifiers, URLs and matched flags are unchanged |
| Game.Settle | app/src/main/java/com/sonu/memorygame/models/MemoryGame.kt:32-41 | with nothing pending: the deck is `Restore`d, `position` becomes pending and no pair is reported; with a card pending: the deck, counter and result are those of `Compare` and pending is cleared; the flip counter and tier are untouched |
| Game.MatchedCount | app/src/main/java/com/sonu/memorygame/models/MemoryGame.kt:60-62 | at most the deck size; equal to it exactly when all cards are matched; zero exactly when none is |
| Game.Flip | app/src/main/java/com/sonu/memorygame/models/MemoryGame.kt:26-46 | a flip keeps the deck length and the tier, adds one to the flip counter, and switches between "pending" and "not pending" |
| Game.InitialInv | app/src/main/java/com/sonu/memorygame/models/MemoryGame.kt:9-11 | a fresh game (no pairs, nothing pending, no moves, all cards face-down and unmatched) satisfies the engine invariant |
| Game.FlipStartsMove | app/src/main/java/com/sonu/memorygame/models/MemoryGame.kt:34-43 | with nothing pending: no pair is reported; every other unmatched card goes face-down; matched cards are untouched; the position becomes pending; a guarded card turns face-up |
| Game.FlipCompletesMove | app/src/main/java/com/sonu/memorygame/models/MemoryGame.kt:37-43 | with a card pending: a pair is reported exactly when the identifiers are equal; then both cards become matched and one pair is added; pending is cleared either way; only the flipped card changes side |
| Game.FlipMonotone | app/src/main/java/com/sonu/memorygame/models/MemoryGame.kt:26-65 | identifiers and URLs never change, a matched card stays matched, and the pair counter never decreases |
| Game.TurnUpUnmatched | app/src/main/java/com/sonu/memorygame/models/MemoryGame.kt:42-43 | turning up a face-down unmatched card keeps the matched count and keeps matched cards face-up |
| Game.RestoreThenTurnUp | app/src/main/java/com/sonu/memorygame/models/MemoryGame.kt:34-43 | restoring and then turning up a face-down card keeps the matched count and keeps matched cards face-up; the flipped card ends face-up and unmatched, the only such card |
| Game.TurnUpPair | app/src/main/java/com/sonu/memorygame/models/MemoryGame.kt:60-61 | matching the pending card with a face-down unmatched card adds exactly two matched cards and keeps matched cards face-up |
| Game.StartPreservesInv | app/src/main/java/com/sonu/memorygame/models/MemoryGame.kt:34-36 | a guarded first flip keeps the invariant |
| Game.MismatchPreservesInv | app/src/main/java/com/sonu/memorygame/models/MemoryGame.kt:57-58 | a guarded second flip with different identifiers keeps the invariant |
| Game.MatchPreservesInv | app/src/main/java/com/sonu/memorygame/models/MemoryGame.kt:59-64 | a guarded second flip with equal identifiers keeps the invariant |
| Game.FlipPreservesInv | app/src/main/java/com/sonu/memorygame/MainActivity.kt:187-195 | under the caller's guard (not won, card face-down) every flip keeps the invariant |
| Game.UnguardedFlipsUnwin | app/src/main/java/com/sonu/memorygame/MainActivity.kt:187-195 | without the guard, two flips on a won EASY board count a pair twice (5 of 4) and the game is no longer won |
| Game.MismatchLeavesBothUp | app/src/main/java/com/sonu/memorygame/models/MemoryGame.kt:34-54 | on a two-card deck with different identifiers, two guarded flips leave both cards face-up and unmatched with nothing pending, in a state that satisfies the invariant |
| Game.WonIffAllMatched | app/src/main/java/com/sonu/memorygame/models/MemoryGame.kt:67-69 | on a full deck `0 <= numPairsFound <= getPairs()`; the game is won exactly when every card is matched; a won board shows every card face-up |
| Game.TwoFlipsOneMove | app/src/main/java/com/sonu/memorygame/models/MemoryGame.kt:75 | any two flips raise `getNumMoves()` by exactly one |
| Game.PlayKeepsInv | app/src/main/java/com/sonu/memorygame/models/MemoryGame.kt:26-69 | over any sequence of guarded flips: the invariant holds; the flip counter grows by one per flip; identifiers never change; matched cards stay matched; the pair counter never decreases and stays within `getPairs()`. Once the game is won the guard refuses every flip, so a won sequence has no further flips and stays won |
| Game.MemoryGame.constructor | app/src/main/java/com/sonu/memorygame/models/MemoryGame.kt:13-24 | the new engine holds fresh, distinct card objects showing the initial deck, with zero pairs, nothing pending and zero moves, and satisfies the invariant |
| Game.MemoryGame.MakeCards | app/src/main/java/com/sonu/memorygame/models/MemoryGame.kt:17 | one fresh card object per deck entry, no object twice |
| Game.MemoryGame.RestoreCards | app/src/main/java/com/sonu/memorygame/models/MemoryGame.kt:48-54 | the loop leaves the cards exactly as `Restore` of the old cards |
| Game.MemoryGame.CheckMatch | app/src/main/java/com/sonu/memorygame/models/MemoryGame.kt:56-65 | the new state and the result are those of `Compare`: with equal identifiers, both cards become matched and the counter goes up by one |
| Game.MemoryGame.TurnOver | app/src/main/java/com/sonu/memorygame/models/MemoryGame.kt:42-43 | exactly the card at `position` changes side |
| Game.MemoryGame.SettleFlip | app/src/main/java/com/sonu/memorygame/models/MemoryGame.kt:32-41 | the bookkeeping before the toggle: restore and mark pending, or compare and clear pending |
| Game.MemoryGame.FlipCard | app/src/main/java/com/sonu/memorygame/models/MemoryGame.kt:26-46 | under the caller's guard, the new state and the result are those of `Flip` on the old state, and the object invariant is kept |
| Game.MemoryGame.HaveWonGame | app/src/main/java/com/sonu/memorygame/models/MemoryGame.kt:67-69 | won exactly when `numPairsFound == getPairs()`; on a valid full deck, exactly when every card is matched |
| Game.MemoryGame.IsCardFaceUp | app/src/main/java/com/sonu/memorygame/models/MemoryGame.kt:71-73 | the card's face-up flag; on a valid engine, matched cards and the pending card are face-up |
| Game.MemoryGame.GetNumMoves | app/src/main/java/com/sonu/memorygame/models/MemoryGame.kt:75 | on a valid engine the reported moves are non-negative and count completed moves: the flip counter is twice the reported moves, plus one while a flip is pending |

## Left out

- User interface: activities, adapters, dialogs, colours, layout arithmetic and `ViewUtils.kt`. It is rendering and platform code. Two of its facts become `FlipCard`'s precondition:
  - the flip guard in `MainActivity.updateGameWithFlip` (not won, card face-down);
  - the range `0 <= position < |cards|`. Positions come from the board adapter's `0 .. numCards - 1` (`MemoryBoardAdapter.kt:34`, `55`). Out of range, the source throws at `MemoryGame.kt:42`, or at `MemoryGame.kt:57` inside `checkMatch` when a card is pending. By then `numMoves` has already changed (`MemoryGame.kt:27`). With nothing pending, the restore and `lastFlippedPosition` have changed too (`MemoryGame.kt:35-36`). None of this is modelled.
- Remote storage and image loading: Firebase reads and writes, image download, bitmap scaling and compression. These are network and platform I/O.
- The save-button validation of the game creator (image count, name length): it reads widget state and is outside the engine.
- The randomness of `shuffled()`: a shuffle is a permutation supplied by the caller (`iconOrder`, `deckOrder`). Every property holds for every outcome; nothing is claimed about the distribution.
- `String.hashCode`: a function parameter `hash`, so no property depends on its values or its collisions.
- The drawable resource values of `DEFAULT_ICONS`: twelve distinct integers stand for them. The string constants next to them are not part of this model.
- `MemoryCard`'s generated `equals`, `hashCode`, `copy` and `toString`: the engine never uses them. Cards are distinct objects (`Distinct(cards)`).
- Game.MemoryGame.FlipCard: the guard is written over the fields (`!Won(State()) && !cards[position].isFaceUp`), not as calls to `haveWonGame()` and `isCardFaceUp(position)`. The `HaveWonGame` and `IsCardFaceUp` ensures state that the two forms are equal.
- Game.Flip: counters are unbounded integers. The 32-bit wrap-around of Kotlin's `Int` for `numMoves` and `numPairsFound` is not modelled; it would take more than two billion flips.
- Game.UrlDeck: the engine does not check that the number of URLs equals `getPairs()`. The deck has `numCards` cards only when the caller passes that many, and the lemma states it under that condition.
- Game.DefaultDeck: in URL mode an identifier occurs exactly twice only if the URLs are distinct and `hash` is injective on them, so every-identifier-twice is stated for the default deck only. The uploader makes the URLs distinct by putting each image's index in its path (`CreateGameActivity.kt:122`).
