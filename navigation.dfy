/** The index arithmetic of the carousel: the fixed number of sections, the clamp used by
    `go`, and the predicates the render uses for the prev/next buttons and the dots. */
module Navigation {

  /** The number of sections in the static list; `sections.length` in the component. */
  const N: nat := 4

  predicate InRange(i: int) {
    0 <= i < N
  }

  function Min(a: int, b: int): int {
    if a < b then a else b
  }

  function Max(a: int, b: int): int {
    if a < b then b else a
  }

  /** The index `go(step)` moves to: `current + step` clamped into `[0, N-1]`. */
  function GoTarget(current: int, step: int): (r: int)
    ensures InRange(r)
    ensures InRange(current + step) ==> r == current + step
    ensures current + step < 0 ==> r == 0
    ensures current + step >= N ==> r == N - 1
  {
    Min(Max(current + step, 0), N - 1)
  }

  /** The prev button is disabled exactly when going back one step would not move. */
  function PrevDisabled(current: int): (r: bool)
    ensures InRange(current) ==> (r <==> GoTarget(current, -1) == current)
  {
    current == 0
  }

  /** The next button is disabled exactly when going forward one step would not move. */
  function NextDisabled(current: int): (r: bool)
    ensures InRange(current) ==> (r <==> GoTarget(current, 1) == current)
  {
    current == N - 1
  }

  /** Dot `i` carries the `active` class, and card `i` the `active` attribute. */
  predicate DotActive(i: int, current: int) {
    i == current
  }

  /** Exactly one dot (and one card) is marked active at any valid index. */
  lemma ExactlyOneActive(current: int)
    requires InRange(current)
    ensures (set i | 0 <= i < N && DotActive(i, current)) == {current}
    ensures |set i | 0 <= i < N && DotActive(i, current)| == 1
  {
  }
}
