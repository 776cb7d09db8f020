/** The few facts about remainders that block arithmetic needs. */
module Division {

  lemma Distribute(a: int, b: int, n: int)
    ensures (a - b) * n == a * n - b * n
  {
  }

  lemma AtLeastOnce(d: int, n: int)
    requires d >= 1 && n >= 0
    ensures d * n >= n
  {
  }

  lemma RemainderIsUnique(x: int, n: int, q: int, r: int)
    requires 0 <= r < n && x == q * n + r
    ensures x % n == r
  {
    var q', r' := x / n, x % n;
    assert x == q' * n + r';
    Distribute(q', q, n);
    Distribute(q, q', n);
    if q' > q {
      AtLeastOnce(q' - q, n);
    } else if q > q' {
      AtLeastOnce(q - q', n);
    }
  }

  lemma MultipleHasNoRemainder(q: int, n: int)
    requires n > 0
    ensures (q * n) % n == 0
  {
    RemainderIsUnique(q * n, n, q, 0);
  }

  lemma SmallRemainder(x: nat, n: nat)
    requires x < n
    ensures x % n == x
  {
    RemainderIsUnique(x, n, 0, x);
  }

  /** Taking away a block does not change the remainder. */
  lemma DropBlock(x: int, n: int)
    requires 0 < n
    ensures (x - n) % n == x % n
  {
    var q, r := x / n, x % n;
    assert x == q * n + r;
    Distribute(q, 1, n);
    RemainderIsUnique(x - n, n, q - 1, r);
  }

  /** `x` is made up of whole blocks of `n`. */
  predicate Whole(x: nat, n: nat)
    requires n > 0
  {
    x == 0 || (x >= n && Whole(x - n, n))
  }

  lemma {:induction false} WholeIsNoRemainder(x: nat, n: nat)
    requires n > 0
    ensures Whole(x, n) <==> x % n == 0
  {
    if x >= n {
      WholeIsNoRemainder(x - n, n);
      DropBlock(x, n);
    } else {
      SmallRemainder(x, n);
    }
  }
}
