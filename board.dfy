/** The three board tiers and the grid geometry each one implies. */
module Board {
  import Constants

  datatype BoardSize = Easy | Medium | Hard
  {
    /** The number of cards dealt on this board. */
    function NumCards(): (n: int)
      ensures n >= 8 && n % 2 == 0
    {
      match this
      case Easy => 8
      case Medium => 18
      case Hard => 24
    }

    /** The number of grid columns. */
    function Width(): (w: int)
      ensures 0 < w < NumCards()
    {
      match this
      case Easy => 2
      case Medium => 3
      case Hard => 4
    }

    /** The number of grid rows: the cards fill the grid exactly. */
    function Height(): (h: int)
      ensures h > 0
      ensures Width() * h == NumCards()
    {
      NumCards() / Width()
    }

    /** The number of pairs: every card has exactly one partner, and the icon catalog suffices. */
    function Pairs(): (p: int)
      ensures 2 * p == NumCards()
      ensures 0 < p <= |Constants.DefaultIcons|
    {
      NumCards() / 2
    }
  }

  /**
   * The tier for a pair count (callers pass the number of uploaded images).
   * A pair count that is some tier's own gives that tier; any other integer
   * falls back to the largest tier.
   */
  function GetByValue(value: int): (b: BoardSize)
    ensures (exists t: BoardSize :: t.Pairs() == value) ==> b.Pairs() == value
    ensures (forall t: BoardSize :: t.Pairs() != value) ==> b == Hard
  {
    if value == 4 then Easy
    else if value == 9 then Medium
    else Hard
  }

  /** The fixed table: card counts, widths, heights and pair counts of the three tiers. */
  lemma Table()
    ensures Easy.NumCards() == 8 && Easy.Width() == 2 && Easy.Height() == 4 && Easy.Pairs() == 4
    ensures Medium.NumCards() == 18 && Medium.Width() == 3 && Medium.Height() == 6 && Medium.Pairs() == 9
    ensures Hard.NumCards() == 24 && Hard.Width() == 4 && Hard.Height() == 6 && Hard.Pairs() == 12
  {
  }

  /** Looking a tier up by its own pair count gives the tier back. */
  lemma GetByPairsRoundTrip(b: BoardSize)
    ensures GetByValue(b.Pairs()) == b
  {
  }

  /** Distinct tiers have distinct pair counts, so the pair count identifies the tier. */
  lemma PairsInjective(a: BoardSize, b: BoardSize)
    ensures a.Pairs() == b.Pairs() <==> a == b
  {
    GetByPairsRoundTrip(a);
    GetByPairsRoundTrip(b);
  }
}
