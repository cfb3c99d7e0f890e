/** The reading-focus band: a 400px-high window centred on the pointer. */
module ReadingFocus {

  const WindowHeight: int := 400

  /** The band's top edge for a pointer at vertical position `pointerY`. */
  function WindowTop(pointerY: int): (top: int)
    ensures top + WindowHeight / 2 == pointerY
    ensures top <= pointerY < top + WindowHeight
  {
    pointerY - 200
  }
}
