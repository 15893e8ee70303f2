/**
  The part of the engine boundary that the simulation reads: the four
  movement intents polled from the keyboard each frame, and a frame of
  input as the host loop delivers it (a timestamp plus the keys held).
  Rendering, the clock itself and the random source are not modelled.
*/
module Engine {

  /** The four boolean move intents (the W/S/A/D keys). */
  datatype MoveKeys = MoveKeys(up: bool, down: bool, left: bool, right: bool)

  /** One call of an `update`/`run` entry point: the current time and the keys held. */
  datatype Frame = Frame(time: real, keys: MoveKeys)

  const NoPress: MoveKeys := MoveKeys(false, false, false, false)
  const UpPress: MoveKeys := MoveKeys(true, false, false, false)
  const LeftPress: MoveKeys := MoveKeys(false, false, true, false)
  const RightPress: MoveKeys := MoveKeys(false, false, false, true)
  const LeftRightPress: MoveKeys := MoveKeys(false, false, true, true)

  /** Left is held and right is not. */
  predicate LeftOnly(keys: MoveKeys) {
    keys.left && !keys.right
  }

  /** Right is held and left is not. */
  predicate RightOnly(keys: MoveKeys) {
    !keys.left && keys.right
  }
}
