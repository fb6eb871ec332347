/** How many steps a call of one of the sorting functions can take, as a number. */
module SortCost {
  /** A bound for the steps of a call on n elements and of all calls below it. */
  function CallCost(n: nat): nat {
    4 * n * n + 8 * n + 8
  }

  function Left(from: nat, to: nat): nat {
    if from < to then to - from else 0
  }

  lemma Product(a: nat, b: nat)
    ensures a * b >= 0
  {
  }

  lemma SquareOfSum(a: nat, b: nat)
    ensures (a + b) * (a + b) == a * a + 2 * (a * b) + b * b
  {
  }

  lemma FourSquares(n: nat)
    ensures 4 * n * n == 4 * (n * n)
  {
  }

  lemma ProductIsLarge(a: nat, b: nat)
    requires a > 0 && b > 0
    ensures a * b >= a + b - 1
  {
    Product(a - 1, b - 1);
    assert (a - 1) * (b - 1) == a * b - a - b + 1;
  }

  lemma InsertionCost(n: nat, rounds: nat)
    requires rounds <= n
    ensures rounds * (n + 2) + 1 < CallCost(n)
  {
    Product(n - rounds, n + 2);
    assert n * (n + 2) == rounds * (n + 2) + (n - rounds) * (n + 2);
    assert n * (n + 2) == n * n + 2 * n && 4 * n * n == 4 * (n * n);
    Product(n, n);
  }

  lemma OneRoundLess(k: nat, n: nat)
    requires k > 0
    ensures k * (n + 2) == (k - 1) * (n + 2) + n + 2
  {
  }

  /** There is always a new name for a call. */
  lemma NewName(ids: set<nat>) returns (child: nat)
    ensures child !in ids
  {
    child := 0;
    var rest := ids;
    while rest != {}
      invariant rest <= ids && forall i :: i in ids && i !in rest ==> i < child
      decreases |rest|
    {
      var i :| i in rest;
      if child <= i { child := i + 1; }
      rest := rest - {i};
    }
  }
}
