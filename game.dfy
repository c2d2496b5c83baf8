/**
 * The game engine: deck construction and the two-state flip machine.
 *
 * The first half is a value model of the engine (GameState, Flip) and the
 * properties proved about it; the second half is the MemoryGame class, whose
 * methods change the shared MemoryCard objects in place and are proved to do
 * exactly what the value model does.
 */
module Game {
  import opened Nullable
  import opened Shuffling
  import opened Board
  import opened Card
  import Constants

  /** Everything the engine holds: the board tier, the deck and the three counters. */
  datatype GameState = GameState(
    boardSize: BoardSize,
    deck: seq<CardState>,
    numPairsFound: int,
    lastFlippedPosition: Option<int>,
    numMoves: int)

  // ---------------------------------------------------------------------------
  // Deck construction
  // ---------------------------------------------------------------------------

  /** One face-down local-icon card per identifier (`map { MemoryCard(it) }`). */
  function IconCards(ids: seq<int>): (d: seq<CardState>)
    ensures |d| == |ids|
    ensures forall i :: 0 <= i < |d| ==> !d[i].faceUp && !d[i].matched
  {
    seq(|ids|, i requires 0 <= i < |ids| => CardState(ids[i], None, false, false))
  }

  /** One face-down card per image URL, identified by the URL's hash code. */
  function UrlCards(urls: seq<string>, hash: string -> int): (d: seq<CardState>)
    ensures |d| == |urls|
    ensures forall i :: 0 <= i < |d| ==> !d[i].faceUp && !d[i].matched
  {
    seq(|urls|, i requires 0 <= i < |urls| => CardState(hash(urls[i]), Some(urls[i]), false, false))
  }

  /** The identifiers of a deck, in deck order. */
  function Ids(deck: seq<CardState>): (ids: seq<int>)
  {
    seq(|deck|, i requires 0 <= i < |deck| => deck[i].identifier)
  }

  /** The image URLs of a deck whose every card has one. */
  function ImageUrls(deck: seq<CardState>): (urls: seq<string>)
    requires forall i :: 0 <= i < |deck| ==> deck[i].imageUrl.Some?
  {
    seq(|deck|, i requires 0 <= i < |deck| => deck[i].imageUrl.value)
  }

  /** The icons of a default game: the catalog shuffled by `iconOrder`, then its first `getPairs()`. */
  function ChosenIcons(boardSize: BoardSize, iconOrder: seq<nat>): (icons: seq<int>)
    requires IsPermutation(iconOrder, |Constants.DefaultIcons|)
    ensures |icons| == boardSize.Pairs()
  {
    Take(Shuffled(Constants.DefaultIcons, iconOrder), boardSize.Pairs())
  }

  /** The number of cards dealt: twice the number of icons, or twice the number of URLs. */
  function DeckSize(boardSize: BoardSize, gameImagesUrl: Option<seq<string>>): (n: nat)
  {
    match gameImagesUrl
    case None => 2 * boardSize.Pairs()
    case Some(urls) => 2 * |urls|
  }

  /**
   * The deck built by the game's initialiser. `iconOrder` and `deckOrder` are
   * the outcomes of the two shuffles; `hash` is the URL's hash code.
   */
  function InitialDeck(boardSize: BoardSize, gameImagesUrl: Option<seq<string>>,
                       iconOrder: seq<nat>, deckOrder: seq<nat>, hash: string -> int): (d: seq<CardState>)
    requires gameImagesUrl.None? ==> IsPermutation(iconOrder, |Constants.DefaultIcons|)
    requires IsPermutation(deckOrder, DeckSize(boardSize, gameImagesUrl))
    ensures |d| == DeckSize(boardSize, gameImagesUrl)
    ensures forall i :: 0 <= i < |d| ==> !d[i].faceUp && !d[i].matched
  {
    match gameImagesUrl
    case None =>
      var defaultIcons := ChosenIcons(boardSize, iconOrder);
      IconCards(Shuffled(defaultIcons + defaultIcons, deckOrder))
    case Some(urls) =>
      UrlCards(Shuffled(urls + urls, deckOrder), hash)
  }

  /** The chosen icons: `getPairs()` distinct icons, all from the catalog. */
  lemma ChosenIconsFromCatalog(boardSize: BoardSize, iconOrder: seq<nat>)
    requires IsPermutation(iconOrder, |Constants.DefaultIcons|)
    ensures var icons := ChosenIcons(boardSize, iconOrder);
            && Distinct(icons)
            && multiset(icons) <= multiset(Constants.DefaultIcons)
  {
    TakeSubMultiset(Shuffled(Constants.DefaultIcons, iconOrder), boardSize.Pairs());
    Constants.DefaultIconsDistinct();
    ShuffledTakeDistinct(Constants.DefaultIcons, iconOrder, boardSize.Pairs());
  }

  /** Doubling distinct icons and shuffling puts every icon on exactly two cards. */
  lemma DoubledIconDeck(icons: seq<int>, deckOrder: seq<nat>)
    requires Distinct(icons)
    requires IsPermutation(deckOrder, 2 * |icons|)
    ensures var d := IconCards(Shuffled(icons + icons, deckOrder));
            && |d| == 2 * |icons|
            && (forall i :: 0 <= i < |d| ==> d[i].imageUrl == None)
            && multiset(Ids(d)) == multiset(icons) + multiset(icons)
            && (forall x :: multiset(Ids(d))[x] == if x in icons then 2 else 0)
  {
    var randomized := Shuffled(icons + icons, deckOrder);
    var d := IconCards(randomized);
    assert Ids(d) == randomized;
    assert multiset(icons + icons) == multiset(icons) + multiset(icons);
    DistinctOnce(icons);
  }

  /**
   * A default game deals `numCards` local-icon cards: `getPairs()` distinct
   * catalog icons, each on exactly two cards.
   */
  lemma DefaultDeck(boardSize: BoardSize, iconOrder: seq<nat>, deckOrder: seq<nat>, hash: string -> int)
    requires IsPermutation(iconOrder, |Constants.DefaultIcons|)
    requires IsPermutation(deckOrder, 2 * boardSize.Pairs())
    ensures var icons := ChosenIcons(boardSize, iconOrder);
            var d := InitialDeck(boardSize, None, iconOrder, deckOrder, hash);
            && |d| == boardSize.NumCards()
            && (forall i :: 0 <= i < |d| ==> d[i].imageUrl == None)
            && multiset(Ids(d)) == multiset(icons) + multiset(icons)
            && (forall x :: multiset(Ids(d))[x] == if x in icons then 2 else 0)
  {
    var icons := ChosenIcons(boardSize, iconOrder);
    ChosenIconsFromCatalog(boardSize, iconOrder);
    DoubledIconDeck(icons, deckOrder);
    assert InitialDeck(boardSize, None, iconOrder, deckOrder, hash) == IconCards(Shuffled(icons + icons, deckOrder));
  }

  /**
   * A custom game deals every URL on exactly two cards, each identified by
   * the URL's hash code; the deck has `numCards` cards when the caller
   * passes `getPairs()` URLs.
   */
  lemma UrlDeck(boardSize: BoardSize, urls: seq<string>, iconOrder: seq<nat>, deckOrder: seq<nat>, hash: string -> int)
    requires IsPermutation(deckOrder, 2 * |urls|)
    ensures var d := InitialDeck(boardSize, Some(urls), iconOrder, deckOrder, hash);
            && |d| == 2 * |urls|
            && (|urls| == boardSize.Pairs() ==> |d| == boardSize.NumCards())
            && (forall i :: 0 <= i < |d| ==> d[i].imageUrl.Some? && d[i].identifier == hash(d[i].imageUrl.value))
            && multiset(ImageUrls(d)) == multiset(urls) + multiset(urls)
  {
    var images := Shuffled(urls + urls, deckOrder);
    var d := InitialDeck(boardSize, Some(urls), iconOrder, deckOrder, hash);
    assert ImageUrls(d) == images;
    assert multiset(urls + urls) == multiset(urls) + multiset(urls);
  }

  // ---------------------------------------------------------------------------
  // The flip machine
  // ---------------------------------------------------------------------------

  /** `restoreCards`: every unmatched card is turned face-down; matched cards are left alone. */
  function Restore(deck: seq<CardState>): (r: seq<CardState>)
    ensures |r| == |deck|
    ensures forall i :: 0 <= i < |deck| ==>
              r[i] == if deck[i].matched then deck[i] else deck[i].(faceUp := false)
  {
    if deck == [] then []
    else [if deck[0].matched then deck[0] else deck[0].(faceUp := false)] + Restore(deck[1..])
  }

  /** The number of matched cards in a deck. */
  function MatchedCount(deck: seq<CardState>): (n: nat)
    ensures n <= |deck|
    ensures n == |deck| <==> forall i :: 0 <= i < |deck| ==> deck[i].matched
    ensures n == 0 <==> forall i :: 0 <= i < |deck| ==> !deck[i].matched
  {
    if deck == [] then 0
    else (if deck[0].matched then 1 else 0) + MatchedCount(deck[1..])
  }

  /** Decks whose cards agree on being matched have the same matched count. */
  lemma {:induction false} SameMatchedSameCount(a: seq<CardState>, b: seq<CardState>)
    requires |a| == |b|
    requires forall i :: 0 <= i < |a| ==> a[i].matched == b[i].matched
    ensures MatchedCount(a) == MatchedCount(b)
  {
    if a != [] {
      SameMatchedSameCount(a[1..], b[1..]);
    }
  }

  /** Replacing one card changes the matched count by that card's change alone. */
  lemma {:induction false} MatchedCountUpdate(deck: seq<CardState>, i: nat, c: CardState)
    requires i < |deck|
    ensures MatchedCount(deck[i := c]) ==
            MatchedCount(deck) - (if deck[i].matched then 1 else 0) + (if c.matched then 1 else 0)
  {
    if i > 0 {
      MatchedCountUpdate(deck[1..], i - 1, c);
      assert deck[i := c][1..] == deck[1..][i - 1 := c];
    } else {
      assert deck[i := c][1..] == deck[1..];
    }
  }

  /** The pending position, when there is one, refers to a card of the deck. */
  predicate WellFormed(s: GameState)
  {
    match s.lastFlippedPosition
    case None => true
    case Some(p) => 0 <= p < |s.deck|
  }

  /** `haveWonGame`: as many pairs found as the board has. */
  predicate Won(s: GameState)
  {
    s.numPairsFound == s.boardSize.Pairs()
  }

  /** The caller's guard before a flip: a card of the board, not yet won, that is face-down. */
  predicate CanFlip(s: GameState, position: int)
  {
    0 <= position < |s.deck| && !Won(s) && !s.deck[position].faceUp
  }

  /** `checkMatch`: equal identifiers mark both cards matched and count one more pair. */
  function Compare(s: GameState, prev: int, cur: int): (r: (GameState, bool))
    requires 0 <= prev < |s.deck| && 0 <= cur < |s.deck|
    ensures r.1 <==> s.deck[prev].identifier == s.deck[cur].identifier
    ensures r.0.deck == if r.1 then MarkPair(s.deck, prev, cur) else s.deck
    ensures r.0.numPairsFound == s.numPairsFound + (if r.1 then 1 else 0)
    ensures r.0.boardSize == s.boardSize && r.0.lastFlippedPosition == s.lastFlippedPosition
    ensures r.0.numMoves == s.numMoves
  {
    if s.deck[prev].identifier != s.deck[cur].identifier then (s, false)
    else (s.(deck := MarkPair(s.deck, prev, cur), numPairsFound := s.numPairsFound + 1), true)
  }

  /** Marks the cards at `prev` and `cur` as matched. */
  function MarkPair(deck: seq<CardState>, prev: int, cur: int): (r: seq<CardState>)
    requires 0 <= prev < |deck| && 0 <= cur < |deck|
    ensures |r| == |deck|
    ensures forall i :: 0 <= i < |deck| ==>
              r[i] == if i == prev || i == cur then deck[i].(matched := true) else deck[i]
  {
    var marked := deck[prev := deck[prev].(matched := true)];
    marked[cur := marked[cur].(matched := true)]
  }

  /** Turns the card at `position` over; every other card, and every other field, is left alone. */
  function Toggle(deck: seq<CardState>, position: int): (r: seq<CardState>)
    requires 0 <= position < |deck|
    ensures |r| == |deck|
    ensures forall i :: 0 <= i < |deck| ==>
              && r[i].identifier == deck[i].identifier && r[i].imageUrl == deck[i].imageUrl
              && r[i].matched == deck[i].matched
              && (r[i].faceUp <==> (if i == position then !deck[i].faceUp else deck[i].faceUp))
  {
    deck[position := deck[position].(faceUp := !deck[position].faceUp)]
  }

  /** The bookkeeping of `flipCard` before the card is turned: restore and mark pending, or compare. */
  function Settle(s: GameState, position: int): (r: (GameState, bool))
    requires WellFormed(s) && 0 <= position < |s.deck|
    ensures |r.0.deck| == |s.deck| && r.0.boardSize == s.boardSize && r.0.numMoves == s.numMoves
    ensures r.0.lastFlippedPosition == if s.lastFlippedPosition.None? then Some(position) else None
    ensures s.lastFlippedPosition.None? ==> !r.1 && r.0.deck == Restore(s.deck) && r.0.numPairsFound == s.numPairsFound
    ensures s.lastFlippedPosition.Some? ==>
              (var compared := Compare(s, s.lastFlippedPosition.value, position);
               r.0.deck == compared.0.deck && r.0.numPairsFound == compared.0.numPairsFound && r.1 == compared.1)
  {
    match s.lastFlippedPosition
    case None => (s.(deck := Restore(s.deck), lastFlippedPosition := Some(position)), false)
    case Some(prev) =>
      var compared := Compare(s, prev, position);
      (compared.0.(lastFlippedPosition := None), compared.1)
  }

  /** `flipCard`: the new state and whether this flip completed a matching pair. */
  function Flip(s: GameState, position: int): (r: (GameState, bool))
    requires WellFormed(s) && 0 <= position < |s.deck|
    ensures WellFormed(r.0) && |r.0.deck| == |s.deck| && r.0.boardSize == s.boardSize
    ensures r.0.numMoves == s.numMoves + 1
    ensures r.0.lastFlippedPosition.Some? <==> s.lastFlippedPosition.None?
  {
    var settled := Settle(s.(numMoves := s.numMoves + 1), position);
    (settled.0.(deck := Toggle(settled.0.deck, position)), settled.1)
  }

  /** Every matched card is face-up. */
  predicate MatchedFaceUp(deck: seq<CardState>)
  {
    forall i :: 0 <= i < |deck| && deck[i].matched ==> deck[i].faceUp
  }

  /** Turning up an unmatched face-down card changes neither the matched count nor MatchedFaceUp. */
  lemma TurnUpUnmatched(deck: seq<CardState>, position: int)
    requires 0 <= position < |deck| && !deck[position].matched && !deck[position].faceUp
    ensures var t := Toggle(deck, position);
            && MatchedCount(t) == MatchedCount(deck)
            && (MatchedFaceUp(deck) ==> MatchedFaceUp(t))
            && t[position].faceUp && !t[position].matched
  {
    MatchedCountUpdate(deck, position, Toggle(deck, position)[position]);
  }

  /**
   * The engine's invariant between flips: the pair counter is half the
   * number of matched cards, matched cards are face-up, the pending card is
   * face-up and unmatched and is the only such card, and a flip is pending
   * exactly after an odd number of flips.
   */
  ghost predicate Inv(s: GameState)
  {
    && s.numMoves >= 0
    && 2 * s.numPairsFound == MatchedCount(s.deck)
    && MatchedFaceUp(s.deck)
    && match s.lastFlippedPosition
       case None => s.numMoves % 2 == 0
       case Some(p) =>
         && 0 <= p < |s.deck| && s.deck[p].faceUp && !s.deck[p].matched && s.numMoves % 2 == 1
         && OnlyUnmatchedFaceUp(s.deck, p)
  }

  /** No card but the one at `p` is face-up and unmatched. */
  predicate OnlyUnmatchedFaceUp(deck: seq<CardState>, p: int)
  {
    forall i :: 0 <= i < |deck| && deck[i].faceUp && !deck[i].matched ==> i == p
  }

  /** A fresh game: all cards face-down and unmatched, no pairs, nothing pending, no moves. */
  lemma InitialInv(boardSize: BoardSize, deck: seq<CardState>)
    requires forall i :: 0 <= i < |deck| ==> !deck[i].faceUp && !deck[i].matched
    ensures Inv(GameState(boardSize, deck, 0, None, 0))
  {
  }

  /**
   * The first flip of a move: every unmatched card goes face-down, matched
   * cards are untouched, the flipped card becomes pending and is toggled, and
   * no pair is reported.
   */
  lemma FlipStartsMove(s: GameState, position: int)
    requires WellFormed(s) && 0 <= position < |s.deck| && s.lastFlippedPosition.None?
    ensures var (t, isMatched) := Flip(s, position);
            && !isMatched
            && t.lastFlippedPosition == Some(position)
            && t.numPairsFound == s.numPairsFound
            && (forall i :: 0 <= i < |s.deck| && i != position ==>
                  t.deck[i] == if s.deck[i].matched then s.deck[i] else s.deck[i].(faceUp := false))
            && t.deck[position] == s.deck[position].(faceUp := s.deck[position].matched ==> !s.deck[position].faceUp)
            && (CanFlip(s, position) ==> t.deck[position] == s.deck[position].(faceUp := true))
  {
  }

  /**
   * The second flip of a move: a pair is reported exactly when the two
   * identifiers are equal; then both cards are matched and one more pair is
   * counted; either way nothing is pending afterwards, and only the flipped
   * card changes side.
   */
  lemma FlipCompletesMove(s: GameState, position: int)
    requires WellFormed(s) && 0 <= position < |s.deck| && s.lastFlippedPosition.Some?
    ensures var prev := s.lastFlippedPosition.value;
            var (t, isMatched) := Flip(s, position);
            && t.lastFlippedPosition == None
            && (isMatched <==> s.deck[prev].identifier == s.deck[position].identifier)
            && t.numPairsFound == s.numPairsFound + (if isMatched then 1 else 0)
            && (isMatched ==> t.deck[prev].matched && t.deck[position].matched)
            && (forall i :: 0 <= i < |s.deck| && (!isMatched || (i != prev && i != position)) ==>
                  t.deck[i].matched == s.deck[i].matched)
            && (forall i :: 0 <= i < |s.deck| && i != position ==> t.deck[i].faceUp == s.deck[i].faceUp)
            && t.deck[position].faceUp == !s.deck[position].faceUp
  {
  }

  /**
   * Whatever the flip: identifiers and URLs never change, a matched card
   * stays matched, and the pair counter never decreases.
   */
  lemma FlipMonotone(s: GameState, position: int)
    requires WellFormed(s) && 0 <= position < |s.deck|
    ensures var t := Flip(s, position).0;
            && Ids(t.deck) == Ids(s.deck)
            && (forall i :: 0 <= i < |s.deck| ==> t.deck[i].imageUrl == s.deck[i].imageUrl)
            && (forall i :: 0 <= i < |s.deck| && s.deck[i].matched ==> t.deck[i].matched)
            && t.numPairsFound >= s.numPairsFound
  {
  }

  /** Matching the pending card with a face-down unmatched one adds two to the matched count. */
  lemma TurnUpPair(deck: seq<CardState>, prev: int, position: int)
    requires 0 <= prev < |deck| && 0 <= position < |deck|
    requires deck[prev].faceUp && !deck[prev].matched && !deck[position].faceUp && !deck[position].matched
    ensures var t := Toggle(MarkPair(deck, prev, position), position);
            && MatchedCount(t) == MatchedCount(deck) + 2
            && (MatchedFaceUp(deck) ==> MatchedFaceUp(t))
  {
    var d1 := deck[prev := deck[prev].(matched := true)];
    var d2 := d1[position := d1[position].(matched := true)];
    var t := Toggle(d2, position);
    assert d2 == MarkPair(deck, prev, position);
    MatchedCountUpdate(deck, prev, d1[prev]);
    MatchedCountUpdate(d1, position, d2[position]);
    MatchedCountUpdate(d2, position, t[position]);
    if MatchedFaceUp(deck) {
      forall i | 0 <= i < |t| && t[i].matched ensures t[i].faceUp {
        if i != prev && i != position {
          assert t[i] == deck[i];
        }
      }
    }
  }

  /**
   * The deck after a first flip: restoring and turning up a face-down card
   * keeps the matched count and keeps matched cards face-up, and leaves the
   * flipped card the only one face-up and unmatched.
   */
  lemma RestoreThenTurnUp(deck: seq<CardState>, position: int)
    requires 0 <= position < |deck| && !deck[position].faceUp && MatchedFaceUp(deck)
    ensures var t := Toggle(Restore(deck), position);
            && MatchedCount(t) == MatchedCount(deck)
            && MatchedFaceUp(t)
            && t[position].faceUp && !t[position].matched
            && OnlyUnmatchedFaceUp(t, position)
  {
    var restored := Restore(deck);
    var t := Toggle(restored, position);
    SameMatchedSameCount(deck, restored);
    TurnUpUnmatched(restored, position);
    forall i | 0 <= i < |t| && i != position ensures !t[i].faceUp || t[i].matched {
      assert t[i].faceUp == restored[i].faceUp;
    }
  }

  /** A guarded first flip of a move keeps the engine's invariant. */
  lemma StartPreservesInv(s: GameState, position: int)
    requires Inv(s) && CanFlip(s, position) && s.lastFlippedPosition.None?
    ensures Inv(Flip(s, position).0)
  {
    var t := s.(deck := Toggle(Restore(s.deck), position), lastFlippedPosition := Some(position), numMoves := s.numMoves + 1);
    assert Flip(s, position).0 == t;
    assert Inv(t) by {
      assert (s.numMoves + 1) % 2 == 1;
      RestoreThenTurnUp(s.deck, position);
    }
  }

  /** A guarded second flip of a move that finds no pair keeps the engine's invariant. */
  lemma MismatchPreservesInv(s: GameState, position: int)
    requires Inv(s) && CanFlip(s, position) && s.lastFlippedPosition.Some?
    requires s.deck[s.lastFlippedPosition.value].identifier != s.deck[position].identifier
    ensures Inv(Flip(s, position).0)
  {
    assert (s.numMoves + 1) % 2 == 0;
    assert Flip(s, position).0 ==
           s.(deck := Toggle(s.deck, position), lastFlippedPosition := None, numMoves := s.numMoves + 1);
    TurnUpUnmatched(s.deck, position);
  }

  /** A guarded second flip of a move that finds a pair keeps the engine's invariant. */
  lemma MatchPreservesInv(s: GameState, position: int)
    requires Inv(s) && CanFlip(s, position) && s.lastFlippedPosition.Some?
    requires s.deck[s.lastFlippedPosition.value].identifier == s.deck[position].identifier
    ensures Inv(Flip(s, position).0)
  {
    var prev := s.lastFlippedPosition.value;
    var t := s.(deck := Toggle(MarkPair(s.deck, prev, position), position), numPairsFound := s.numPairsFound + 1,
                lastFlippedPosition := None, numMoves := s.numMoves + 1);
    assert Flip(s, position).0 == t;
    assert Inv(t) by {
      assert (s.numMoves + 1) % 2 == 0;
      TurnUpPair(s.deck, prev, position);
    }
  }

  /** A guarded flip keeps the engine's invariant. */
  lemma FlipPreservesInv(s: GameState, position: int)
    requires Inv(s) && CanFlip(s, position)
    ensures Inv(Flip(s, position).0)
  {
    if s.lastFlippedPosition.None? {
      StartPreservesInv(s, position);
    } else if s.deck[s.lastFlippedPosition.value].identifier != s.deck[position].identifier {
      MismatchPreservesInv(s, position);
    } else {
      MatchPreservesInv(s, position);
    }
  }

  /**
   * On a full deck the pair counter stays within 0 .. getPairs(), and the
   * game is won exactly when every card is matched; a won board has no
   * face-down card left.
   */
  lemma WonIffAllMatched(s: GameState)
    requires Inv(s) && |s.deck| == s.boardSize.NumCards()
    ensures 0 <= s.numPairsFound <= s.boardSize.Pairs()
    ensures Won(s) <==> forall i :: 0 <= i < |s.deck| ==> s.deck[i].matched
    ensures Won(s) ==> forall i :: 0 <= i < |s.deck| ==> s.deck[i].faceUp
  {
  }

  /** Two flips advance the reported move count (`numMoves / 2`) by exactly one. */
  lemma TwoFlipsOneMove(s: GameState, first: int, second: int)
    requires WellFormed(s) && s.numMoves >= 0
    requires 0 <= first < |s.deck| && 0 <= second < |s.deck|
    ensures Flip(Flip(s, first).0, second).0.numMoves / 2 == s.numMoves / 2 + 1
  {
  }

  /**
   * Why the caller's guard is needed: on a won EASY board, flipping a matched
   * card and then its partner counts the pair a second time, so the counter
   * passes getPairs() and the game is no longer won.
   */
  lemma UnguardedFlipsUnwin()
    ensures var deck := seq(8, i => CardState(i / 2, None, true, true));
            var s := GameState(Easy, deck, 4, None, 8);
            var t := Flip(Flip(s, 0).0, 1);
            && Inv(s) && Won(s)
            && t.1 && t.0.numPairsFound == 5 && !Won(t.0)
  {
    var deck := seq(8, i => CardState(i / 2, None, true, true));
    var s := GameState(Easy, deck, 4, None, 8);
    assert MatchedCount(deck) == 8;
    var first := Flip(s, 0).0;
    assert first.deck[0].identifier == first.deck[1].identifier == 0;
  }

  /**
   * After a move that finds no pair both cards stay face-up and unmatched
   * with nothing pending: they are turned down only by the next flip's
   * restore. So "at most one unmatched card face-up" holds only while a flip
   * is pending (OnlyUnmatchedFaceUp in Inv).
   */
  lemma MismatchLeavesBothUp()
    ensures var s := GameState(Easy, [CardState(0, None, false, false), CardState(1, None, false, false)], 0, None, 0);
            var t := Flip(Flip(s, 0).0, 1).0;
            && Inv(s) && CanFlip(s, 0) && CanFlip(Flip(s, 0).0, 1) && Inv(t)
            && t.lastFlippedPosition == None
            && t.deck[0].faceUp && !t.deck[0].matched && t.deck[1].faceUp && !t.deck[1].matched
  {
    var s := GameState(Easy, [CardState(0, None, false, false), CardState(1, None, false, false)], 0, None, 0);
    FlipPreservesInv(s, 0);
    FlipPreservesInv(Flip(s, 0).0, 1);
  }

  /** Every flip of `positions` passes the caller's guard in the state it meets. */
  ghost predicate LegalPlay(s: GameState, positions: seq<int>)
    decreases |positions|
  {
    positions == [] ||
    (WellFormed(s) && CanFlip(s, positions[0]) && LegalPlay(Flip(s, positions[0]).0, positions[1..]))
  }

  /** The state after flipping `positions` in turn. */
  ghost function Play(s: GameState, positions: seq<int>): (t: GameState)
    requires LegalPlay(s, positions)
    decreases |positions|
  {
    if positions == [] then s else Play(Flip(s, positions[0]).0, positions[1..])
  }

  /**
   * Over any sequence of guarded flips the invariant holds, the move counter
   * grows by one per flip, identifiers never change, matched cards stay
   * matched, and the pair counter never decreases nor (on a full deck)
   * exceeds getPairs(), so a won game stays won.
   */
  lemma {:induction false} PlayKeepsInv(s: GameState, positions: seq<int>)
    requires Inv(s) && LegalPlay(s, positions)
    ensures var t := Play(s, positions);
            && Inv(t)
            && t.boardSize == s.boardSize
            && t.numMoves == s.numMoves + |positions|
            && Ids(t.deck) == Ids(s.deck)
            && (forall i :: 0 <= i < |s.deck| && s.deck[i].matched ==> t.deck[i].matched)
            && t.numPairsFound >= s.numPairsFound
            && (|s.deck| == s.boardSize.NumCards() ==> t.numPairsFound <= s.boardSize.Pairs())
            && (|s.deck| == s.boardSize.NumCards() && Won(s) ==> Won(t))
    decreases |positions|
  {
    if positions == [] {
      if |s.deck| == s.boardSize.NumCards() {
        WonIffAllMatched(s);
      }
    } else {
      var next := Flip(s, positions[0]).0;
      FlipPreservesInv(s, positions[0]);
      FlipMonotone(s, positions[0]);
      PlayKeepsInv(next, positions[1..]);
      assert |Ids(s.deck)| == |s.deck|;
    }
  }

  // ---------------------------------------------------------------------------
  // The engine as an object
  // ---------------------------------------------------------------------------

  class MemoryGame {
    const boardSize: BoardSize
    const cards: seq<MemoryCard>
    var numPairsFound: int
    var lastFlippedPosition: Option<int>
    var numMoves: int

    /** The current values of the cards. */
    ghost function Deck(): (d: seq<CardState>)
      reads cards
      ensures |d| == |cards|
      ensures forall i :: 0 <= i < |cards| ==> d[i] == cards[i].View()
    {
      seq(|cards|, i reads cards requires 0 <= i < |cards| => cards[i].View())
    }

    /** The engine's state as a value. */
    ghost function State(): GameState
      reads this, cards
    {
      GameState(boardSize, Deck(), numPairsFound, lastFlippedPosition, numMoves)
    }

    /** The object invariant: no card object appears twice, and the engine's invariant holds. */
    ghost predicate Valid()
      reads this, cards
    {
      Distinct(cards) && Inv(State())
    }

    /**
     * Builds and shuffles the deck. `gameImagesUrl == None` selects the
     * default icons; `iconOrder` and `deckOrder` are the outcomes of the
     * shuffles, `hash` the URL hash code.
     */
    constructor (boardSize: BoardSize, gameImagesUrl: Option<seq<string>>,
                 iconOrder: seq<nat>, deckOrder: seq<nat>, hash: string -> int)
      requires gameImagesUrl.None? ==> IsPermutation(iconOrder, |Constants.DefaultIcons|)
      requires IsPermutation(deckOrder, DeckSize(boardSize, gameImagesUrl))
      ensures Valid()
      ensures State() == GameState(boardSize, InitialDeck(boardSize, gameImagesUrl, iconOrder, deckOrder, hash), 0, None, 0)
      ensures forall i :: 0 <= i < |cards| ==> fresh(cards[i])
    {
      var content := InitialDeck(boardSize, gameImagesUrl, iconOrder, deckOrder, hash);
      var made := MakeCards(content);
      this.boardSize := boardSize;
      cards := made;
      numPairsFound := 0;
      lastFlippedPosition := None;
      numMoves := 0;
      new;
      assert Deck() == content;
      InitialInv(boardSize, content);
    }

    /** A fresh face-down card object for every entry of `content`. */
    static method MakeCards(content: seq<CardState>) returns (made: seq<MemoryCard>)
      requires forall i :: 0 <= i < |content| ==> !content[i].faceUp && !content[i].matched
      ensures |made| == |content| && Distinct(made)
      ensures forall i :: 0 <= i < |made| ==> fresh(made[i]) && made[i].View() == content[i]
    {
      made := [];
      for i := 0 to |content|
        invariant |made| == i && Distinct(made)
        invariant forall k :: 0 <= k < i ==> fresh(made[k]) && made[k].View() == content[k]
      {
        var card := new MemoryCard(content[i].identifier, content[i].imageUrl);
        made := made + [card];
      }
    }

    /** Turns every unmatched card face-down. */
    method RestoreCards()
      requires Distinct(cards)
      modifies cards
      ensures Deck() == Restore(old(Deck()))
    {
      for i := 0 to |cards|
        invariant forall k :: 0 <= k < i ==>
                    cards[k].View() == if old(cards[k].isMatchFound) then old(cards[k].View())
                                       else old(cards[k].View()).(faceUp := false)
        invariant forall k :: i <= k < |cards| ==> cards[k].View() == old(cards[k].View())
      {
        var card := cards[i];
        if !card.isMatchFound {
          card.isFaceUp := false;
        }
      }
    }

    /** Compares the two flipped cards and records a found pair. */
    method CheckMatch(prevFlippedPosition: int, currentPosition: int) returns (isMatched: bool)
      requires Distinct(cards)
      requires 0 <= prevFlippedPosition < |cards| && 0 <= currentPosition < |cards|
      modifies this`numPairsFound, cards[prevFlippedPosition], cards[currentPosition]
      ensures (State(), isMatched) == Compare(old(State()), prevFlippedPosition, currentPosition)
    {
      ghost var before := State();
      if cards[prevFlippedPosition].identifier != cards[currentPosition].identifier {
        isMatched := false;
        assert State() == before;
      } else {
        cards[prevFlippedPosition].isMatchFound := true;
        ghost var middle := before.deck[prevFlippedPosition := before.deck[prevFlippedPosition].(matched := true)];
        assert Deck() == middle;
        cards[currentPosition].isMatchFound := true;
        ghost var after := middle[currentPosition := middle[currentPosition].(matched := true)];
        assert Deck() == after;
        numPairsFound := numPairsFound + 1;
        isMatched := true;
        assert State() == before.(deck := after, numPairsFound := before.numPairsFound + 1);
      }
    }

    /** Turns the card at `position` over. */
    method TurnOver(position: int)
      requires Distinct(cards) && 0 <= position < |cards|
      modifies cards[position]
      ensures Deck() == Toggle(old(Deck()), position)
    {
      var card := cards[position];
      card.isFaceUp := !card.isFaceUp;
      assert Deck() == Toggle(old(Deck()), position) by {
        forall k | 0 <= k < |cards| ensures Deck()[k] == Toggle(old(Deck()), position)[k] {
          if k != position {
            assert cards[k] != card;
          }
        }
      }
    }

    /**
     * The bookkeeping of `flipCard` before the card is turned: with nothing
     * pending, face-down every unmatched card and remember `position`;
     * otherwise compare the pending card with this one and clear it.
     */
    method SettleFlip(position: int) returns (isMatched: bool)
      requires Distinct(cards) && WellFormed(State()) && 0 <= position < |cards|
      modifies this, cards
      ensures (State(), isMatched) == Settle(old(State()), position)
    {
      ghost var before := State();
      isMatched := false;
      if lastFlippedPosition.None? {
        RestoreCards();
        lastFlippedPosition := Some(position);
        assert State() == before.(deck := Restore(before.deck), lastFlippedPosition := Some(position));
      } else {
        var prev := lastFlippedPosition.value;
        ghost var compared := Compare(before, prev, position);
        isMatched := CheckMatch(prev, position);
        assert State() == compared.0 && isMatched == compared.1;
        lastFlippedPosition := None;
        assert State() == compared.0.(lastFlippedPosition := None);
      }
    }

    /**
     * Flips the card at `position`; returns whether this completed a matching
     * pair. The caller first checks that the game is not won and the card is
     * face-down.
     */
    method FlipCard(position: int) returns (isMatched: bool)
      requires Valid()
      requires 0 <= position < |cards|
      requires !Won(State()) && !cards[position].isFaceUp
      modifies this, cards
      ensures Valid()
      ensures (State(), isMatched) == Flip(old(State()), position)
    {
      ghost var before := State();
      assert CanFlip(before, position);
      numMoves := numMoves + 1;
      ghost var moved := before.(numMoves := before.numMoves + 1);
      assert State() == moved;
      ghost var settled := Settle(moved, position);
      ghost var flipped := settled.0.(deck := Toggle(settled.0.deck, position));
      assert Flip(before, position) == (flipped, settled.1);
      isMatched := SettleFlip(position);
      TurnOver(position);
      assert State() == flipped;
      assert Inv(State()) by { FlipPreservesInv(before, position); }
    }

    /** Whether every pair has been found; on a full deck, exactly when every card is matched. */
    function HaveWonGame(): (won: bool)
      reads this, cards
      ensures won == Won(State())
      ensures Valid() && |cards| == boardSize.NumCards() ==>
                (won <==> forall i :: 0 <= i < |cards| ==> cards[i].isMatchFound)
    {
      numPairsFound == boardSize.Pairs()
    }

    /** Whether the card at `position` is face-up; matched and pending cards always are. */
    function IsCardFaceUp(position: int): (faceUp: bool)
      requires 0 <= position < |cards|
      reads this, cards
      ensures faceUp == Deck()[position].faceUp
      ensures Valid() && (cards[position].isMatchFound || lastFlippedPosition == Some(position)) ==> faceUp
    {
      cards[position].isFaceUp
    }

    /** The number of completed moves: a move is two flips, and a pending flip is half a move. */
    function GetNumMoves(): (moves: int)
      reads this, cards
      ensures Valid() ==> moves >= 0 && (lastFlippedPosition.None? <==> numMoves == 2 * moves)
      ensures Valid() ==> numMoves == 2 * moves + (if lastFlippedPosition.Some? then 1 else 0)
    {
      numMoves / 2
    }
  }
}
