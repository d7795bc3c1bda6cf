/**
 * pygame input as seen by the game: the event queue of one frame, the
 * pressed-keys snapshot (`pygame.key.get_pressed()`) and the mouse buttons
 * (`pygame.mouse.get_pressed()`).  Polling is replaced by these values.
 */
module Input {

  /** The keys the mode transitions look at; every other key is `OtherKey`. */
  datatype Key = KeyQ | KeyEscape | KeyP | KeyN | OtherKey(code: int)

  /** `pygame.QUIT`, `pygame.KEYDOWN` with its key, or anything else. */
  datatype Event = QuitEvent | KeyDown(key: Key) | OtherEvent

  /** The held keys the ships read each frame. */
  datatype Keys = Keys(
    leftArrow: bool, rightArrow: bool, upArrow: bool, downArrow: bool,
    space: bool, keyA: bool, keyD: bool, keyW: bool, keyS: bool)

  /** The mouse buttons, left to right. */
  datatype Buttons = Buttons(left: bool, middle: bool, right: bool)

  /** A window close, or Q or ESC pressed: every playing mode quits on it. */
  predicate IsQuit(e: Event) {
    e.QuitEvent? || (e.KeyDown? && (e.key == KeyQ || e.key == KeyEscape))
  }
}
