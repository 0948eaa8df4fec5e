/** Powers of two on machine words, and the bit trick that rounds up to one. */
module PowersOfTwo {

  const WORD_BITS: nat := 64

  function Pow2(k: nat): (r: nat)
    ensures r >= 1
  {
    if k == 0 then 1 else 2 * Pow2(k - 1)
  }

  ghost predicate IsPow2(n: nat) { exists k: nat :: n == Pow2(k) }

  /** Bitwise or. */
  function Or(a: nat, b: nat): (r: nat)
    ensures r >= a && r >= b
  {
    if a == 0 && b == 0 then 0
    else 2 * Or(a / 2, b / 2) + (if a % 2 == 1 || b % 2 == 1 then 1 else 0)
  }

  /** Right shift. */
  function Shr(a: nat, k: nat): nat { Quotient(a, Pow2(k)) }

  function Quotient(a: nat, d: nat): nat
    requires d >= 1
  {
    a / d
  }

  lemma {:induction false} Pow2Add(a: nat, b: nat)
    ensures Pow2(a + b) == Pow2(a) * Pow2(b)
  {
    if a == 0 {
      assert Pow2(a) == 1;
    } else {
      Pow2Add(a - 1, b);
      hide Pow2;
    }
  }

  lemma {:induction false} Pow2Monotonic(a: nat, b: nat)
    requires a <= b
    ensures Pow2(a) <= Pow2(b)
    decreases b - a
  {
    if a < b { Pow2Monotonic(a + 1, b); }
  }

  lemma {:induction false} OrBelow(a: nat, b: nat, k: nat)
    requires a < Pow2(k) && b < Pow2(k)
    ensures Or(a, b) < Pow2(k)
  {
    if k != 0 { OrBelow(a / 2, b / 2, k - 1); }
  }

  /** Or-ing in something below bit `k` leaves the bits from `k` up alone. */
  lemma {:induction false} OrLow(hi: nat, lo: nat, z: nat, k: nat)
    requires lo < Pow2(k) && z < Pow2(k)
    ensures Or(hi * Pow2(k) + lo, z) >= hi * Pow2(k) + z
  {
    if k != 0 {
      var a := hi * Pow2(k) + lo;
      assert a == 2 * (hi * Pow2(k - 1)) + lo;
      assert a / 2 == hi * Pow2(k - 1) + lo / 2;
      OrLow(hi, lo / 2, z / 2, k - 1);
    }
  }

  /** The top `w` of the low `n` bits are set, and none above. */
  ghost predicate TopSet(x: nat, n: nat, w: nat) {
    x < Pow2(n) && x >= Pow2(n) - Pow2(if w <= n then n - w else 0)
  }

  lemma ShrBelow(x: nat, n: nat, w: nat)
    requires x < Pow2(n)
    ensures Shr(x, w) < Pow2(if w <= n then n - w else 0)
  {
    hide Pow2;
    if w <= n {
      Pow2Add(n - w, w);
      DivBelow(x, Pow2(n - w), Pow2(w));
    } else {
      Pow2Monotonic(n, w);
      DivBelow(x, 1, Pow2(w));
    }
  }

  lemma DivBelow(x: nat, q: nat, d: nat)
    requires d >= 1 && x < q * d
    ensures x / d < q
  {
  }

  lemma Scale(a: nat, b: nat, d: nat)
    requires a <= b
    ensures a * d <= b * d
  {
  }

  lemma DivAtLeast(x: nat, q: nat, d: nat)
    requires d >= 1 && x >= q * d
    ensures x / d >= q
  {
    if x / d < q { Scale(x / d + 1, q, d); }
  }

  /** Shifting a run of `w` set bits down by `w` fills the next `w` places, or all there are. */
  lemma ShrRun(x: nat, k: nat, w: nat)
    requires x >= Pow2(k + w) - Pow2(k)
    ensures Shr(x, w) >= Pow2(k) - Pow2(if w <= k then k - w else 0)
  {
    hide Pow2;
    Pow2Add(k, w);
    if w <= k {
      Pow2Add(k - w, w);
      Pow2Monotonic(k - w, k);
      DivAtLeast(x, Pow2(k) - Pow2(k - w), Pow2(w));
    } else {
      Pow2Monotonic(k, w);
      DivAtLeast(x, Pow2(k) - 1, Pow2(w));
    }
  }

  /** One step of the smearing doubles the run of set bits. */
  lemma Smear(x: nat, n: nat, w: nat)
    requires w >= 1 && TopSet(x, n, w)
    ensures TopSet(Or(x, Shr(x, w)), n, 2 * w)
  {
    var z := Shr(x, w);
    ShrBelow(x, n, w);
    Pow2Monotonic(if w <= n then n - w else 0, n);
    OrBelow(x, z, n);
    if w <= n {
      OrRun(x, z, n - w, w);
      ShrRun(x, n - w, w);
    }
  }

  /** Or keeps the run at the top and adds what lies below it. */
  lemma OrRun(x: nat, z: nat, k: nat, w: nat)
    requires Pow2(k + w) - Pow2(k) <= x < Pow2(k + w) && z < Pow2(k)
    ensures Or(x, z) >= Pow2(k + w) - Pow2(k) + z
  {
    Pow2Add(w, k);
    var hi := Pow2(w) - 1;
    assert hi * Pow2(k) == Pow2(k + w) - Pow2(k);
    OrLow(hi, x - hi * Pow2(k), z, k);
  }

  /** The number of significant bits. */
  function Bits(y: nat): nat { if y == 0 then 0 else 1 + Bits(y / 2) }

  lemma {:induction false} BitsTopSet(y: nat)
    ensures TopSet(y, Bits(y), 1)
  {
    if y != 0 { BitsTopSet(y / 2); }
  }

  lemma {:induction false} BitsBelow(y: nat, k: nat)
    ensures y < Pow2(k) <==> Bits(y) <= k
  {
    if y != 0 && k != 0 { BitsBelow(y / 2, k - 1); }
  }

  /** The least power of two at or above `x`. */
  ghost predicate IsCeilPow2(x: nat, r: nat) {
    IsPow2(r) && x <= r && forall p: nat | IsPow2(p) && x <= p :: r <= p
  }

  lemma LeastAbove(x: nat, n: nat)
    requires x <= Pow2(n) && (n > 0 ==> Pow2(n - 1) < x)
    ensures IsCeilPow2(x, Pow2(n))
  {
    forall p: nat | IsPow2(p) && x <= p ensures Pow2(n) <= p {
      var k: nat :| p == Pow2(k);
      if k < n { Pow2Monotonic(k, n - 1); } else { Pow2Monotonic(n, k); }
    }
  }

  /** `++x` on a word of `word` bits. */
  function Increment(x: nat, word: nat): nat {
    if x + 1 == Pow2(word) then 0 else x + 1
  }

  /** Smearing `x - 1` over its whole width and adding one rounds `x` up. */
  lemma SmearedRoundsUp(x: nat, y: nat, r: nat, word: nat)
    requires word >= 1 && y < Pow2(word) && TopSet(r, Bits(y), word)
    requires y == if x == 0 then Pow2(word) - 1 else x - 1
    ensures 1 <= x <= Pow2(word - 1) ==> IsCeilPow2(x, Increment(r, word))
    ensures x == 0 || x > Pow2(word - 1) ==> Increment(r, word) == 0
  {
    hide IsCeilPow2;
    var n := Bits(y);
    BitsBelow(y, word);
    BitsBelow(y, word - 1);
    BitsTopSet(y);
    assert r + 1 == Pow2(n);
    if 1 <= x <= Pow2(word - 1) {
      Pow2Monotonic(n, word - 1);
      LeastAbove(x, n);
    } else {
      assert n == word;
    }
  }

  /** `ceilToPow2` and `ceil_to_pow_2` on 64-bit words. Zero and anything above the largest power
      of two of the word come out as zero. */
  method CeilToPow2(x: nat) returns (r: nat)
    requires x < Pow2(WORD_BITS)
    ensures 1 <= x <= Pow2(WORD_BITS - 1) ==> IsCeilPow2(x, r)
    ensures x == 0 || x > Pow2(WORD_BITS - 1) ==> r == 0
  {
    hide TopSet, IsCeilPow2, Or, Shr, Bits;
    r := if x == 0 then Pow2(WORD_BITS) - 1 else x - 1;
    ghost var y := r;
    BitsTopSet(y);
    Smear(r, Bits(y), 1);
    r := Or(r, Shr(r, 1));
    Smear(r, Bits(y), 2);
    r := Or(r, Shr(r, 2));
    Smear(r, Bits(y), 4);
    r := Or(r, Shr(r, 4));
    var i := 1;
    while i < WORD_BITS / 8
      invariant i == 1 || i == 2 || i == 4 || i == 8
      invariant TopSet(r, Bits(y), 8 * i)
    {
      Smear(r, Bits(y), 8 * i);
      r := Or(r, Shr(r, 8 * i));
      i := 2 * i;
    }
    SmearedRoundsUp(x, y, r, WORD_BITS);
    r := Increment(r, WORD_BITS);
  }
}
