/** Stepping around a cycle of n positions, `x = (x + 1) % n`: the update
    shared by the pattern indices (n = 10) and the ring head (n = 16). */
module Cyclic {
  import opened Ints

  /** One step around the cycle. */
  function Succ(x: nat, n: nat): (y: nat)
    requires 0 < n
    ensures y < n
    ensures x < n - 1 ==> y == x + 1
    ensures x == n - 1 ==> y == 0
  {
    ModOfSmall(x + 1, n);
    ModAddOne(n - 1, n);
    ModOfSmall(n - 1, n);
    (x + 1) % n
  }

  /** k consecutive steps from x. */
  function Steps(x: nat, n: nat, k: nat): (y: nat)
    requires 0 < n
    ensures y < n
  {
    if k == 0 then x % n else Succ(Steps(x, n, k - 1), n)
  }

  /** k steps land at (x + k) % n. */
  lemma {:induction false} StepsIsModular(x: nat, n: nat, k: nat)
    requires 0 < n
    ensures Steps(x, n, k) == (x + k) % n
  {
    if k > 0 {
      StepsIsModular(x, n, k - 1);
      ModAddOne(x + k - 1, n);
    }
  }

  /** Taking one step first and then k more is k + 1 steps. */
  lemma {:induction false} StepsAfterSucc(x: nat, n: nat, k: nat)
    requires x < n
    ensures Steps(Succ(x, n), n, k) == Steps(x, n, k + 1)
  {
    if k == 0 {
      ModOfSmall(x, n);
      ModOfSmall(Succ(x, n), n);
    } else {
      StepsAfterSucc(x, n, k - 1);
    }
  }

  /** n steps from a position of the cycle return to it. */
  lemma FullTurnReturns(x: nat, n: nat)
    requires x < n
    ensures Steps(x, n, n) == x
  {
    StepsIsModular(x, n, n);
    DivModUnique(x + n, n, 1, x);
  }

  /** Within one turn no position is visited twice, so a full turn visits
      all n positions. */
  lemma StepsDistinctWithinTurn(x: nat, n: nat, j: nat, k: nat)
    requires 0 < n && j < k < n
    ensures Steps(x, n, j) != Steps(x, n, k)
  {
    StepsIsModular(x, n, j);
    StepsIsModular(x, n, k);
    ModAddChanges(x + j, k - j, n);
  }
}
