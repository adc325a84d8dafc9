/** The game's enumerations and configuration records. */
module Enums {

  datatype CardState = Hidden | Visible | Matched

  datatype CardEventType = CardFlipped

  datatype GridEventType = CardFailed | CardMatched | AllCardsMatched

  datatype GameLevel = VeryEasy | Easy | Medium | Hard | VeryHard

  /** An opaque handle to a sprite asset. */
  datatype Sprite = Sprite(handle: nat)

  /** One entry of the card catalog: the pairing key and its face. */
  datatype CardData = CardData(id: int, sprite: Sprite)

  /** Grid configuration of one level. */
  datatype GridData = GridData(gameLevel: GameLevel, level: int, gridRows: int, gridColumns: int)
}
