/**
 * Wrap-around stepping through `n` slides, images or cards: the `(i + 1) % n`
 * and `(i - 1 + n) % n` updates the carousels and the gallery use.
 */
module Cyclic {

  /** `(i + 1) % n`: one step forward, from the last position back to the first. */
  function Next(i: int, n: int): (j: int)
    requires 0 <= i < n
    ensures 0 <= j < n
    ensures i < n - 1 ==> j == i + 1
    ensures i == n - 1 ==> j == 0
  {
    (i + 1) % n
  }

  /** `(i - 1 + n) % n`: one step back, from the first position round to the last. */
  function Prev(i: int, n: int): (j: int)
    requires 0 <= i < n
    ensures 0 <= j < n
    ensures 0 < i ==> j == i - 1
    ensures i == 0 ==> j == n - 1
  {
    (i - 1 + n) % n
  }

  /** A step back undoes a step forward. */
  lemma PrevUndoesNext(i: int, n: int)
    requires 0 <= i < n
    ensures Prev(Next(i, n), n) == i
  {
  }

  /** A step forward undoes a step back. */
  lemma NextUndoesPrev(i: int, n: int)
    requires 0 <= i < n
    ensures Next(Prev(i, n), n) == i
  {
  }

  /** `k` steps forward. */
  function Steps(i: int, n: int, k: nat): (j: int)
    requires 0 <= i < n
    ensures 0 <= j < n
  {
    if k == 0 then i else Next(Steps(i, n, k - 1), n)
  }

  /** Up to `n` steps forward add `k` to the position, passing the end at most once. */
  lemma {:induction false} StepsAdvance(i: int, n: int, k: nat)
    requires 0 <= i < n && k <= n
    ensures i + k < n ==> Steps(i, n, k) == i + k
    ensures i + k >= n ==> Steps(i, n, k) == i + k - n
  {
    if k > 0 {
      StepsAdvance(i, n, k - 1);
    }
  }

  /** `n` steps forward come back to the starting position. */
  lemma FullTurn(i: int, n: int)
    requires 0 <= i < n
    ensures Steps(i, n, n) == i
  {
    StepsAdvance(i, n, n);
  }
}
