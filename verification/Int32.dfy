/**
 * JavaScript's 32-bit operators on numbers (sections 6.1.6.1 and 7.1.6 of
 * ECMA-262), written out over unbounded integers, and the algebra of bit fields
 * they need. Shifts double and halve, so every proof is linear.
 */
module Int32 {
  function Pow2(k: nat): (p: nat)
    ensures p > 0
  {
    if k == 0 then 1 else 2 * Pow2(k - 1)
  }

  /** u * 2^k. */
  function Left(u: nat, k: nat): nat {
    if k == 0 then u else 2 * Left(u, k - 1)
  }

  /** u / 2^k, rounded down. */
  function Right(u: nat, k: nat): nat {
    if k == 0 then u else Right(u / 2, k - 1)
  }

  /** The low n bits of u. */
  function Low(u: nat, n: nat): (r: nat)
    ensures r < Pow2(n)
  {
    if n == 0 then 0 else u % 2 + 2 * Low(u / 2, n - 1)
  }

  function ToUint32(x: int): (u: nat)
    ensures u < 0x1_0000_0000
  {
    x % 0x1_0000_0000
  }

  function ToInt32(x: int): (i: int)
    ensures -0x8000_0000 <= i < 0x8000_0000
    ensures ToUint32(i) == ToUint32(x)
  {
    var u := ToUint32(x);
    if u >= 0x8000_0000 then u - 0x1_0000_0000 else u
  }

  function BitOr(a: nat, b: nat): nat {
    if a == 0 && b == 0 then 0
    else (if a % 2 == 1 || b % 2 == 1 then 1 else 0) + 2 * BitOr(a / 2, b / 2)
  }

  function BitAnd(a: nat, b: nat): nat {
    if a == 0 || b == 0 then 0
    else (if a % 2 == 1 && b % 2 == 1 then 1 else 0) + 2 * BitAnd(a / 2, b / 2)
  }

  /** x << k, x >>> k, x | y, x & y. */
  function Shl(x: int, k: nat): int { ToInt32(Left(ToUint32(x), k)) }

  function Ushr(x: int, k: nat): nat { Right(ToUint32(x), k) }

  function Or(x: int, y: int): int { ToInt32(BitOr(ToUint32(x), ToUint32(y))) }

  function And(x: int, y: int): int { ToInt32(BitAnd(ToUint32(x), ToUint32(y))) }

  // ---- Bit fields ---------------------------------------------------------

  lemma {:induction false} LowOfLow(u: nat, m: nat, n: nat)
    requires n <= m
    ensures Low(Low(u, m), n) == Low(u, n)
    decreases n
  {
    if n > 0 { LowOfLow(u / 2, m - 1, n - 1); }
  }

  lemma {:induction false} LowOfSmall(u: nat, n: nat)
    requires u < Pow2(n)
    ensures Low(u, n) == u
    decreases n
  {
    if n > 0 { LowOfSmall(u / 2, n - 1); }
  }

  lemma {:induction false} LowOfLeft(u: nat, k: nat, n: nat)
    ensures Low(Left(u, k), n + k) == Left(Low(u, n), k)
    decreases k
  {
    if k > 0 {
      LowOfLeft(u, k - 1, n);
      assert Left(u, k) / 2 == Left(u, k - 1);
    }
  }

  lemma {:induction false} LowOfRight(u: nat, j: nat, k: nat)
    ensures Low(Right(u, j), k) == Right(Low(u, j + k), j)
    decreases j
  {
    if j > 0 {
      LowOfRight(u / 2, j - 1, k);
      assert Low(u, j + k) / 2 == Low(u / 2, j + k - 1);
    }
  }

  lemma {:induction false} LeftAdds(a: nat, b: nat, k: nat)
    ensures Left(a + b, k) == Left(a, k) + Left(b, k)
    decreases k
  {
    if k > 0 { LeftAdds(a, b, k - 1); }
  }

  lemma {:induction false} LeftLeft(u: nat, j: nat, k: nat)
    ensures Left(Left(u, j), k) == Left(u, j + k)
    decreases k
  {
    if k > 0 { LeftLeft(u, j, k - 1); }
  }

  lemma {:induction false} RightRight(u: nat, j: nat, k: nat)
    ensures Right(Right(u, j), k) == Right(u, j + k)
    decreases j
  {
    if j > 0 { RightRight(u / 2, j - 1, k); }
  }

  lemma {:induction false} LeftBound(u: nat, n: nat, k: nat)
    requires u < Pow2(n)
    ensures Left(u, k) + Pow2(k) <= Pow2(n + k)
    decreases k
  {
    if k > 0 { LeftBound(u, n, k - 1); }
  }

  lemma {:induction false} RightBound(u: nat, j: nat, k: nat)
    requires u < Pow2(j + k)
    ensures Right(u, j) < Pow2(k)
    decreases j
  {
    if j > 0 { RightBound(u / 2, j - 1, k); }
  }

  /** A field over k lower bits. */
  function Join(high: nat, low: nat, k: nat): nat {
    Left(high, k) + low
  }

  lemma {:induction false} SplitJoins(u: nat, k: nat)
    ensures Join(Right(u, k), Low(u, k), k) == u
    decreases k
  {
    if k > 0 { SplitJoins(u / 2, k - 1); }
  }

  lemma {:induction false} JoinSplits(high: nat, low: nat, k: nat)
    requires low < Pow2(k)
    ensures Right(Join(high, low, k), k) == high
    decreases k
  {
    if k > 0 {
      assert Join(high, low, k) / 2 == Join(high, low / 2, k - 1);
      JoinSplits(high, low / 2, k - 1);
    }
  }

  lemma {:induction false} LowOfJoin(high: nat, low: nat, k: nat, n: nat)
    requires low < Pow2(k)
    ensures Low(Join(high, low, k), n + k) == Join(Low(high, n), low, k)
    decreases k
  {
    if k > 0 {
      assert Join(high, low, k) / 2 == Join(high, low / 2, k - 1) && Join(high, low, k) % 2 == low % 2;
      LowOfJoin(high, low / 2, k - 1, n);
    }
  }

  // ---- Words --------------------------------------------------------------

  lemma Powers()
    ensures Pow2(5) == 32 && Pow2(8) == 256 && Pow2(31) == 0x8000_0000 && Pow2(32) == 0x1_0000_0000
  {
    assert Pow2(2) == 4 && Pow2(4) == 16 && Pow2(6) == 64 && Pow2(8) == 256 && Pow2(10) == 1_024;
    assert Pow2(12) == 4_096 && Pow2(14) == 16_384 && Pow2(16) == 65_536 && Pow2(18) == 262_144;
    assert Pow2(20) == 1_048_576 && Pow2(22) == 4_194_304 && Pow2(24) == 16_777_216 && Pow2(26) == 67_108_864;
    assert Pow2(28) == 268_435_456 && Pow2(30) == 1_073_741_824;
  }

  lemma {:induction false} PowerGrows(k: nat, n: nat)
    requires k <= n
    ensures Pow2(k) <= Pow2(n)
    decreases n - k
  {
    if k < n { PowerGrows(k + 1, n); }
  }

  /** u - (the low n bits) is a multiple of 2^n. */
  lemma {:induction false} LowIsRemainder(u: nat, n: nat) returns (q: nat)
    ensures u == q * Pow2(n) + Low(u, n)
    decreases n
  {
    if n == 0 {
      q := u;
    } else {
      q := LowIsRemainder(u / 2, n - 1);
      assert 2 * (q * Pow2(n - 1)) == q * Pow2(n);
    }
  }

  lemma WordIsLow(u: nat)
    ensures u % 0x1_0000_0000 == Low(u, 32)
  {
    Powers();
    var q := LowIsRemainder(u, 32);
  }

  lemma {:induction false} OrBound(a: nat, b: nat, n: nat)
    requires a < Pow2(n) && b < Pow2(n)
    ensures BitOr(a, b) < Pow2(n)
    decreases n
  {
    if n > 0 { OrBound(a / 2, b / 2, n - 1); }
  }

  /** Or-ing k bits into a gap of zeros: the field above stays, the bits are added. */
  lemma {:induction false} OrFillsGap(high: nat, b: nat, k: nat)
    requires b < Pow2(k)
    ensures BitOr(Left(high, k), b) == Join(high, b, k)
    decreases k
  {
    if k == 0 {
      OrZero(high);
    } else {
      assert Left(high, k) / 2 == Left(high, k - 1) && Left(high, k) % 2 == 0;
      OrFillsGap(high, b / 2, k - 1);
    }
  }

  lemma {:induction false} OrZero(a: nat)
    ensures BitOr(a, 0) == a
  {
    if a > 0 { OrZero(a / 2); }
  }

  /** x & (2^k - 1) keeps the low k bits. */
  lemma {:induction false} AndLowBits(a: nat, k: nat)
    ensures BitAnd(a, Pow2(k) - 1) == Low(a, k)
    decreases k
  {
    if k > 0 {
      assert (Pow2(k) - 1) / 2 == Pow2(k - 1) - 1 && (Pow2(k) - 1) % 2 == 1;
      AndLowBits(a / 2, k - 1);
      if a == 0 { LowOfSmall(0, k); }
    }
  }

  /** A mask of n - k ones above k zeros clears the low k bits. */
  lemma {:induction false} AndHighBits(a: nat, n: nat, k: nat)
    requires a < Pow2(n) && k <= n
    ensures Pow2(k) <= Pow2(n) && BitAnd(a, Pow2(n) - Pow2(k)) == Left(Right(a, k), k)
    decreases k
  {
    if k == 0 {
      AndLowBits(a, n);
      LowOfSmall(a, n);
    } else {
      AndHighBits(a / 2, n - 1, k - 1);
      var m := Pow2(n - 1) - Pow2(k - 1);
      assert Pow2(n) - Pow2(k) == 2 * m;
      AndEven(a, m);
    }
  }

  lemma AndEven(a: nat, m: nat)
    ensures BitAnd(a, 2 * m) == 2 * BitAnd(a / 2, m)
  {
    if a > 0 && m > 0 { assert (2 * m) / 2 == m && (2 * m) % 2 == 0; }
  }

  /** The low n + k bits of (value << k) | b: the low n bits of value, then b. The wrap at 2^32 does not reach them. */
  lemma ShiftIn(value: int, b: nat, k: nat, n: nat)
    requires b < Pow2(k) && n + k <= 32
    ensures Low(ToUint32(Or(Shl(value, k), b)), n + k) == Join(Low(ToUint32(value), n), b, k)
  {
    var u := ToUint32(value);
    var kept := Low(u, 32 - k);
    ShiftedWord(value, k);
    OrFillsGap(kept, b, k);
    OrWord(Shl(value, k), b, k);
    LowOfJoin(kept, b, k, n);
    LowOfLow(u, 32 - k, n);
  }

  /** value << k as a word: the low 32 - k bits of value moved up. */
  lemma ShiftedWord(value: int, k: nat)
    requires k <= 32
    ensures ToUint32(Shl(value, k)) == Left(Low(ToUint32(value), 32 - k), k)
  {
    WordIsLow(Left(ToUint32(value), k));
    LowOfLeft(ToUint32(value), k, 32 - k);
  }

  /** Numbers of at most 31 bits are themselves as words and as signed integers. */
  lemma Small(x: nat, k: nat)
    requires k <= 32 && x < Pow2(k)
    ensures ToUint32(x) == x && (k <= 31 ==> ToInt32(x) == x)
  {
    PowerGrows(k, 32);
    if k <= 31 { PowerGrows(k, 31); }
    Powers();
  }

  lemma OrWord(x: int, b: nat, k: nat)
    requires k <= 32 && b < Pow2(k)
    ensures ToUint32(Or(x, b)) == BitOr(ToUint32(x), b)
  {
    Small(b, k);
    WordBits(ToUint32(x));
    PowerGrows(k, 32);
    OrBound(ToUint32(x), b, 32);
    Small(BitOr(ToUint32(x), b), 32);
  }

  lemma WordBits(u: nat)
    requires u < 0x1_0000_0000
    ensures u < Pow2(32)
  {
    Powers();
  }

  /** x & m for m = 2^k - 1, on 32-bit numbers. */
  lemma AndMask(x: int, m: nat, k: nat)
    requires k <= 31 && m == Pow2(k) - 1
    ensures And(x, m) == Low(ToUint32(x), k)
  {
    var u := ToUint32(x);
    var r := Low(u, k);
    assert ToUint32(m) == m by { Small(m, k); }
    assert ToInt32(r) == r by { Small(r, k); }
    assert BitAnd(u, m) == r by { AndLowBits(u, k); }
    AndOfWords(x, m, r);
  }

  lemma AndOfWords(x: int, m: nat, r: nat)
    requires ToUint32(m) == m && BitAnd(ToUint32(x), m) == r && ToInt32(r) == r
    ensures And(x, m) == r
  {
  }

  /** (value >>> j) & (2^k - 1) is the field of k bits above the low j. */
  lemma ShiftOut(value: int, j: nat, k: nat)
    requires j + k <= 32 && k <= 31
    ensures And(Ushr(value, j), Pow2(k) - 1) == Right(Low(ToUint32(value), j + k), j)
    ensures Low(ToUint32(value), j) == Low(Low(ToUint32(value), j + k), j)
  {
    var u := ToUint32(value);
    assert Right(u, j) < Pow2(32 - j) by { WordBits(u); RightBound(u, j, 32 - j); }
    Small(Right(u, j), 32 - j);
    AndMask(Right(u, j), Pow2(k) - 1, k);
    LowOfRight(u, j, k);
    LowOfLow(u, j + k, j);
  }

  /** (value << k) & (2^(n + k) - 1) pads the low n bits with k zeros. */
  lemma PadOut(value: int, n: nat, k: nat)
    requires n + k <= 31
    ensures And(Shl(value, k), Pow2(n + k) - 1) == Left(Low(ToUint32(value), n), k)
  {
    var u := ToUint32(value);
    AndMask(Shl(value, k), Pow2(n + k) - 1, n + k);
    ShiftedWord(value, k);
    LowOfLeft(Low(u, 32 - k), k, n);
    LowOfLow(u, 32 - k, n);
  }
}
