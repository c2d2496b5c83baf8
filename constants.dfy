/** The built-in icon catalog used when a game has no uploaded images. */
module Constants {
  import Shuffling

  /**
   * `DEFAULT_ICONS`: twelve drawable resource identifiers (face, flower, gift,
   * heart, home, lightning, moon, plane, school, send, star, work). The real
   * values come from the generated resource table; any twelve distinct
   * integers stand for them here.
   */
  const DefaultIcons: seq<int> := [1, 2, 3, 4, 5, 6, 7, 8, 9, 10, 11, 12]

  /** The catalog holds twelve distinct icons. */
  lemma DefaultIconsDistinct()
    ensures |DefaultIcons| == 12 && Shuffling.Distinct(DefaultIcons)
  {
  }
}
