/** Fixed-width unsigned arithmetic, optional values and C++ exceptions. */
module Numbers {

  const U32: nat := 0x1_0000_0000
  const U64: nat := 0x1_0000_0000_0000_0000

  type u32 = x: nat | x < 0x1_0000_0000
  type u64 = x: nat | x < 0x1_0000_0000_0000_0000

  /**
   * a modulo m. Written by repeated subtraction, which proofs about wrap-around unfold more easily than %;
   * RemIsModulo states that the two agree.
   */
  function Rem(a: nat, m: nat): (r: nat)
    requires m > 0
    ensures r < m
  {
    if a < m then a else Rem(a - m, m)
  }

  /** Unsigned 32-bit truncation. */
  function Wrap32(x: nat): u32 {
    Rem(x, 0x1_0000_0000)
  }

  /** Unsigned 64-bit truncation. */
  function Wrap64(x: nat): u64 {
    Rem(x, 0x1_0000_0000_0000_0000)
  }

  lemma {:induction false} RemIsModulo(a: nat, m: nat)
    requires m > 0
    ensures Rem(a, m) == a % m
  {
    if a >= m {
      RemIsModulo(a - m, m);
      var q, r := (a - m) / m, (a - m) % m;
      assert a == (q + 1) * m + r by {
        assert a - m == q * m + r;
        assert (q + 1) * m == q * m + m;
      }
      ModUnique(a, m, q + 1, r);
    } else {
      ModUnique(a, m, 0, a);
    }
  }

  lemma {:induction false} ModUnique(a: nat, m: int, q: nat, r: nat)
    requires 0 <= r < m && a == q * m + r
    ensures a % m == r
  {
    var q', r' := a / m, a % m;
    assert a == q' * m + r';
    assert (q - q') * m == r' - r;
    assert q - q' >= 1 ==> (q - q') * m >= m;
    assert q - q' <= -1 ==> (q - q') * m <= -m;
  }

  datatype Option<+T> = None | Some(value: T)

  /** What a C++ call does: return a value or throw. */
  datatype Outcome<+T> = Returned(value: T) | Threw(what: string)

  function Min(a: nat, b: nat): nat {
    if a <= b then a else b
  }

  function Max(a: nat, b: nat): nat {
    if a >= b then a else b
  }

  lemma {:induction false} RemAdd(a: nat, b: nat, m: nat)
    requires m > 0
    ensures Rem(Rem(a, m) + b, m) == Rem(a + b, m)
  {
    if a >= m {
      RemAdd(a - m, b, m);
    }
  }

  /** Adding d leaves the remainder alone exactly when d is a multiple of m. */
  lemma {:induction false} SameRemIff(x: nat, d: nat, m: nat)
    requires m > 0
    ensures Rem(x, m) == Rem(x + d, m) <==> d % m == 0
  {
    RemIsModulo(d, m);
    RemAdd(x, d, m);
    var r, q := Rem(x, m), Rem(d, m);
    RemAdd(d, r, m);
    assert Rem(q + r, m) == if q + r < m then q + r else q + r - m;
  }

  lemma {:induction false} WrapSmall(x: u64)
    ensures Wrap64(x) == x
  {
  }

  /** Truncating a partial sum early does not change the truncated total. */
  lemma {:induction false} WrapAdd(a: nat, b: nat)
    ensures Wrap64(Wrap64(a) + b) == Wrap64(a + b)
  {
    RemAdd(a, b, 0x1_0000_0000_0000_0000);
  }

  lemma {:induction false} WrapAddBoth(a: nat, b: nat)
    ensures Wrap64(Wrap64(a) + Wrap64(b)) == Wrap64(a + b)
  {
    WrapAdd(a, b);
    WrapAdd(b, Wrap64(a));
  }

  lemma {:induction false} TimesMonotone(x: nat, y: nat, b: nat)
    requires x <= y
    ensures x * b <= y * b
  {
    if b > 0 {
      TimesMonotone(x, y, b - 1);
    }
  }

  /** a divided by b, by repeated subtraction for the same reason as Rem; QuotientIsDivision states that it is /. */
  function Quotient(a: nat, b: nat): (q: nat)
    requires b > 0
    ensures q <= a
  {
    if a < b then 0 else Quotient(a - b, b) + 1
  }

  lemma {:induction false} QuotientBounds(a: nat, b: nat)
    requires b > 0
    ensures Quotient(a, b) * b <= a < (Quotient(a, b) + 1) * b
  {
    if a >= b {
      QuotientBounds(a - b, b);
      var q := Quotient(a - b, b);
      assert (q + 1) * b == q * b + b && (q + 2) * b == (q + 1) * b + b;
    }
  }

  lemma {:induction false} Distribute(x: nat, b: nat)
    ensures (x + 1) * b == x * b + b
  {
  }

  lemma {:induction false} QuotientAndRem(a: nat, b: nat)
    requires b > 0
    ensures a == Quotient(a, b) * b + Rem(a, b)
  {
    if a >= b {
      QuotientAndRem(a - b, b);
      Distribute(Quotient(a - b, b), b);
    }
  }

  lemma {:induction false} Cancel(x: nat, y: nat, b: nat)
    requires b > 0 && x * b == y * b
    ensures x == y
  {
    Distribute(x, b);
    Distribute(y, b);
    if x < y {
      TimesMonotone(x + 1, y, b);
    } else if y < x {
      TimesMonotone(y + 1, x, b);
    }
  }

  lemma {:induction false} QuotientIsDivision(a: nat, b: nat)
    requires b > 0
    ensures Quotient(a, b) == a / b
  {
    QuotientAndRem(a, b);
    RemIsModulo(a, b);
    var q, d := Quotient(a, b), a / b;
    hide Quotient, Rem;
    assert q * b == d * b;
    Cancel(q, d, b);
  }
}
