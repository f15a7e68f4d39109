/** Why the ring may use a mask instead of a remainder. */
module MaskArithmetic {

  const SLOT_SIZE: nat := 64

  /** Bitwise `and` of two naturals. */
  function BitAnd(x: nat, y: nat): nat {
    if x == 0 || y == 0 then 0 else 2 * BitAnd(x / 2, y / 2) + (x % 2) * (y % 2)
  }

  function Pow2(k: nat): (p: nat)
    ensures p > 0
  {
    if k == 0 then 1 else 2 * Pow2(k - 1)
  }

  predicate IsPow2(n: nat) {
    exists k: nat :: k <= n && n == Pow2(k)
  }

  lemma {:induction false} Pow2Exceeds(k: nat)
    ensures k < Pow2(k)
  {
    if k == 0 {
    } else {
      Pow2Exceeds(k - 1);
    }
  }

  lemma Pow2Witness(k: nat)
    ensures IsPow2(Pow2(k))
  {
    Pow2Exceeds(k);
  }

  lemma {:induction false} StepUp(q: int, q': int, d: nat)
    requires q < q'
    ensures q * d + d <= q' * d
    decreases q' - q
  {
    assert (q + 1) * d == q * d + d;
    if q + 1 == q' {
    } else {
      StepUp(q + 1, q', d);
    }
  }

  lemma RemainderIs(x: nat, d: nat, q: nat, r: nat)
    requires d > 0 && x == q * d + r && r < d
    ensures x % d == r
  {
    var q' := x / d;
    if q < q' { StepUp(q, q', d); }
    if q' < q { StepUp(q', q, d); }
  }

  lemma OneLapOn(n: nat, d: nat)
    requires d > 0
    ensures (n + d) % d == n % d
  {
    var q, r := n / d, n % d;
    assert n == q * d + r;
    assert (q + 1) * d == q * d + d;
    RemainderIs(n + d, d, q + 1, r);
  }

  lemma HalvedRemainder(x: nat, p: nat)
    requires p > 0
    ensures x % (2 * p) == 2 * ((x / 2) % p) + x % 2
  {
    var q, h := x / 2 / p, (x / 2) % p;
    assert x / 2 == q * p + h;
    assert q * (2 * p) == 2 * (q * p);
    RemainderIs(x, 2 * p, q, 2 * h + x % 2);
  }

  lemma {:induction false} MaskOfPower(x: nat, k: nat)
    ensures BitAnd(x, Pow2(k) - 1) == x % Pow2(k)
  {
    if x == 0 {
      RemainderIs(0, Pow2(k), 0, 0);
    } else if k == 0 {
      RemainderIs(x, 1, x, 0);
    } else {
      MaskOfPower(x / 2, k - 1);
      MaskStep(x, Pow2(k - 1));
    }
  }

  lemma MaskStep(x: nat, p: nat)
    requires x > 0 && p > 0 && BitAnd(x / 2, p - 1) == (x / 2) % p
    ensures BitAnd(x, 2 * p - 1) == x % (2 * p)
  {
    assert (2 * p - 1) / 2 == p - 1 && (2 * p - 1) % 2 == 1;
    HalvedRemainder(x, p);
  }

  /** `seq & (capacity - 1)` is `seq mod capacity` when the capacity is a power of two. */
  lemma MaskIsRemainder(x: nat, capacity: nat)
    requires IsPow2(capacity)
    ensures capacity > 0 && BitAnd(x, capacity - 1) == x % capacity
  {
    var k: nat :| k <= capacity && capacity == Pow2(k);
    MaskOfPower(x, k);
  }

  /** The check `size & (size - 1) == 0` accepts exactly the powers of two among positive sizes. */
  lemma {:induction false} PowerOfTwoTest(n: nat)
    requires n > 0
    ensures BitAnd(n, n - 1) == 0 <==> IsPow2(n)
  {
    if n == 1 {
      Pow2Witness(0);
    } else if n % 2 == 1 {
      OddFails(n);
      forall k: nat ensures n != Pow2(k) { Pow2Parity(k); }
    } else {
      EvenHalves(n);
      PowerOfTwoTest(n / 2);
      HalfOfPower(n);
    }
  }

  lemma OddFails(n: nat)
    requires n > 1 && n % 2 == 1
    ensures BitAnd(n, n - 1) != 0
  {
    assert n / 2 == (n - 1) / 2;
    AndSelf(n / 2);
  }

  lemma EvenHalves(n: nat)
    requires n > 1 && n % 2 == 0
    ensures BitAnd(n, n - 1) == 2 * BitAnd(n / 2, n / 2 - 1)
  {
    assert (n - 1) / 2 == n / 2 - 1;
  }

  lemma HalfOfPower(n: nat)
    requires n > 1 && n % 2 == 0
    ensures IsPow2(n) <==> IsPow2(n / 2)
  {
    if IsPow2(n / 2) {
      var k: nat :| k <= n / 2 && n / 2 == Pow2(k);
      assert n == Pow2(k + 1);
      Pow2Witness(k + 1);
    }
    if IsPow2(n) {
      var k: nat :| k <= n && n == Pow2(k);
      Pow2Parity(k);
      Pow2Witness(k - 1);
    }
  }

  lemma {:induction false} Pow2Parity(k: nat)
    ensures k == 0 ==> Pow2(k) == 1
    ensures k > 0 ==> Pow2(k) % 2 == 0 && Pow2(k) / 2 == Pow2(k - 1)
  {
    if k > 0 {
      var p := Pow2(k - 1);
      assert Pow2(k) == 2 * p;
    }
  }

  lemma BitSquare(b: nat)
    requires b < 2
    ensures b * b == b
  {
  }

  lemma {:induction false} AndSelf(n: nat)
    ensures BitAnd(n, n) == n
  {
    if n == 0 {
    } else {
      AndSelf(n / 2);
      BitSquare(n % 2);
    }
  }

  /** A file of an accepted size holds a power-of-two number of slots exactly when it holds any. */
  lemma CapacityIsPowerOfTwo(size: nat)
    requires IsPow2(size)
    ensures IsPow2(size / SLOT_SIZE) <==> size >= SLOT_SIZE
  {
    var k: nat :| k <= size && size == Pow2(k);
    if k >= 6 {
      Pow2Down(k);
      Pow2Witness(k - 6);
    } else {
      assert Pow2(1) == 2 && Pow2(2) == 4 && Pow2(3) == 8 && Pow2(4) == 16 && Pow2(5) == 32;
      assert !IsPow2(0);
    }
  }

  lemma Pow2Down(k: nat)
    requires k >= 6
    ensures Pow2(k) == 64 * Pow2(k - 6)
  {
    assert Pow2(k) == 2 * Pow2(k - 1) == 4 * Pow2(k - 2) == 8 * Pow2(k - 3);
    assert Pow2(k - 3) == 2 * Pow2(k - 4) == 4 * Pow2(k - 5) == 8 * Pow2(k - 6);
  }

  /** Fewer than `capacity` apart, two sequence numbers never share a slot. */
  lemma DistinctSlots(a: nat, b: nat, capacity: nat)
    requires capacity > 0 && a < b < a + capacity
    ensures a % capacity != b % capacity
  {
    if a / capacity < b / capacity {
      StepUp(a / capacity, b / capacity, capacity);
    } else if b / capacity < a / capacity {
      StepUp(b / capacity, a / capacity, capacity);
    }
  }
}
