/** The value types the game passes around (types.ts). */
module GameTypes {

  /** A wheel segment's prize (`label` is a Dafny keyword, hence `labelText`). */
  datatype Prize = Prize(labelText: string, color: string)

  /** The phases of one play-through. */
  datatype GameState = Idle | Spinning | Won | CollectingData | Success

  /** The configuration loaded at start-up: the prizes App draws from and the one
      reward code every winner is shown. */
  datatype Config = Config(prizes: seq<Prize>, rewardCode: string)

  datatype Option<T> = None | Some(value: T)
}
