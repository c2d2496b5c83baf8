/** One tile of the board: a content identifier, an optional remote image and two flags. */
module Card {
  import opened Nullable

  /** The value of a card at one moment: what the game engine reasons about. */
  datatype CardState = CardState(identifier: int, imageUrl: Option<string>, faceUp: bool, matched: bool)

  /**
   * The tile record. The identifier and the image URL (`None`: show the local
   * icon denoted by the identifier) are fixed when the card is made; the two
   * flags are changed in place by the game engine.
   */
  class MemoryCard {
    const identifier: int
    const imageUrl: Option<string>
    var isFaceUp: bool
    var isMatchFound: bool

    /** A card is made face-down and unmatched, showing its local icon, unless told otherwise. */
    constructor (identifier: int, imageUrl: Option<string> := None, isFaceUp: bool := false, isMatchFound: bool := false)
      ensures this.identifier == identifier && this.imageUrl == imageUrl
      ensures this.isFaceUp == isFaceUp && this.isMatchFound == isMatchFound
    {
      this.identifier := identifier;
      this.imageUrl := imageUrl;
      this.isFaceUp := isFaceUp;
      this.isMatchFound := isMatchFound;
    }

    /** The card's current value. */
    function View(): CardState
      reads this
    {
      CardState(identifier, imageUrl, isFaceUp, isMatchFound)
    }
  }
}
