/** The events the game reads from SDL's queue, and the SDL2 key codes it
    compares them with. */
module Input {

  type KeyCode = int

  // SDL2 key codes: printable keys are their character code, the others
  // carry the scancode with bit 30 set.
  const KeyW: KeyCode := 119
  const KeyS: KeyCode := 115
  const KeySpace: KeyCode := 32
  const KeyReturn: KeyCode := 13
  const KeyEscape: KeyCode := 27
  const KeyUp: KeyCode := 0x4000_0052
  const KeyDown: KeyCode := 0x4000_0051
  const KeyKpEnter: KeyCode := 0x4000_0058

  /** One event taken from the queue: the window was closed, a key went down
      or up, or anything else (mouse, window, ...), which the game ignores. */
  datatype Event = Quit | KeyPressed(key: KeyCode) | KeyReleased(key: KeyCode) | Other

  /** The keys that confirm a menu option. */
  predicate IsConfirm(k: KeyCode) {
    k == KeySpace || k == KeyReturn || k == KeyKpEnter
  }
}
