/** The camera-facing selector passed to the webcam's video constraints. */
module Camera {
  const USER := "user"
  const ENVIRONMENT := "environment"

  predicate IsFacingMode(mode: string)
  {
    mode == USER || mode == ENVIRONMENT
  }

  /** `'user'` becomes `'environment'`; anything else becomes `'user'`. */
  function Toggled(mode: string): (next: string)
    ensures IsFacingMode(next)
    ensures IsFacingMode(mode) ==> next != mode
  {
    if mode == USER then ENVIRONMENT else USER
  }

  /** On the two facing modes the toggle is its own inverse. */
  lemma ToggleTwice(mode: string)
    requires IsFacingMode(mode)
    ensures Toggled(Toggled(mode)) == mode
  {
  }
}
