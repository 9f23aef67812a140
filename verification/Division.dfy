/** Facts about division that the codecs and the dispatcher rest on. */
module Division {

  /** Shifting by 16 or 24 bits is shifting by 8 bits two or three times. */
  lemma Shifts(n: nat)
    ensures n / 0x1_0000 == n / 0x100 / 0x100
    ensures n / 0x100_0000 == n / 0x100 / 0x100 / 0x100
  {
  }

  lemma DivMod256(n: nat)
    ensures n == 0x100 * (n / 0x100) + n % 0x100
  {
  }

  lemma Distribute(n: nat, a: int, b: int)
    ensures n * (a + b) == n * a + n * b
  {
  }

  lemma AtLeast(n: nat, x: int)
    requires x >= 1
    ensures n * x >= n
  {
  }

  lemma Fundamental(a: nat, n: nat)
    requires n > 0
    ensures a == n * (a / n) + a % n && a % n < n
  {
  }

  lemma Unique(n: nat, q: int, r: nat, q': int, r': nat)
    requires r < n && r' < n && n * q + r == n * q' + r'
    ensures q == q' && r == r'
  {
    if q < q' {
      Distribute(n, q, q' - q);
      AtLeast(n, q' - q);
    } else if q' < q {
      Distribute(n, q', q - q');
      AtLeast(n, q - q');
    }
  }

  lemma DivUnique(a: nat, n: nat, q: nat, r: nat)
    requires r < n && a == n * q + r
    ensures a / n == q && a % n == r
  {
    Fundamental(a, n);
    Unique(n, q, r, a / n, a % n);
  }

  /** The successor of an index in a ring of `n` places. */
  function Successor(i: nat, n: nat): (j: nat)
    requires i < n
    ensures j < n
  {
    (i + 1) % n
  }

  lemma SuccessorCases(i: nat, n: nat)
    requires i < n
    ensures Successor(i, n) == if i + 1 == n then 0 else i + 1
  {
    if i + 1 == n {
      assert n * 1 == n;
      DivUnique(i + 1, n, 1, 0);
    } else {
      assert n * 0 == 0;
      DivUnique(i + 1, n, 0, i + 1);
    }
  }

  /** Counting down by one from a full turn. */
  lemma Borrow(n: nat, q: nat)
    requires q > 0
    ensures n * q == n * (q - 1) + n
  {
    Distribute(n, q - 1, 1);
  }
}
