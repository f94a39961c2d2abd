/**
 * The GLUT special-key codes the homework programs compare against, and the
 * one ordinary key they all treat alike (Escape, which ends the program).
 */
module Glut {
  const KeyF1: int := 1
  const KeyF2: int := 2
  const KeyF3: int := 3
  const KeyF8: int := 8
  const KeyF9: int := 9
  const KeyLeft: int := 100
  const KeyUp: int := 101
  const KeyRight: int := 102
  const KeyDown: int := 103
  const KeyPageUp: int := 104
  const KeyPageDown: int := 105

  const Escape: char := 27 as char

  /** The four arrow keys. */
  predicate IsArrow(key: int) {
    key == KeyLeft || key == KeyUp || key == KeyRight || key == KeyDown
  }
}
