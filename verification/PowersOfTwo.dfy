/** Powers of two, the binary digits of a number as a list, and alignment. */
module PowersOfTwo {

  predicate IsPow2(n: nat) { n == 1 || (n > 0 && n % 2 == 0 && IsPow2(n / 2)) }

  function Sum(s: seq<nat>): nat { if s == [] then 0 else s[0] + Sum(s[1..]) }

  lemma {:induction false} SumAppend(a: seq<nat>, b: seq<nat>)
    ensures Sum(a + b) == Sum(a) + Sum(b)
    decreases |a|
  {
    if a == [] {
      assert a + b == b;
    } else {
      assert (a + b)[1..] == a[1..] + b;
      SumAppend(a[1..], b);
    }
  }

  /** n is a multiple of p. */
  ghost predicate Multiple(n: int, p: nat) { exists k: int :: n == k * p }

  lemma MultipleOf(k: int, p: nat)
    ensures Multiple(k * p, p)
  {
  }

  lemma MultipleSum(a: int, b: int, p: nat)
    requires Multiple(a, p) && Multiple(b, p)
    ensures Multiple(a + b, p) && Multiple(a - b, p)
  {
    var i: int :| a == i * p;
    var j: int :| b == j * p;
    assert a + b == (i + j) * p;
    assert a - b == (i - j) * p;
  }

  lemma MultipleTrans(a: int, b: nat, p: nat)
    requires Multiple(a, b) && Multiple(b, p)
    ensures Multiple(a, p)
  {
    var i: int :| a == i * b;
    var j: int :| b == j * p;
    assert a == (i * j) * p;
  }

  lemma SmallMultiple(d: int, p: nat, r: nat)
    requires d * p == r < p
    ensures r == 0
  {
    assert d >= 1 ==> (d - 1) * p >= 0;
    assert d <= 0 ==> d * p <= 0;
  }

  lemma MultipleMod(n: nat, p: nat)
    requires p > 0
    ensures Multiple(n, p) <==> n % p == 0
  {
    if Multiple(n, p) {
      var k: int :| n == k * p;
      assert (k - n / p) * p == n % p;
      SmallMultiple(k - n / p, p, n % p);
    }
    if n % p == 0 { assert n == (n / p) * p; }
  }

  lemma {:induction false} Pow2Divides(p: nat, q: nat)
    requires IsPow2(p) && IsPow2(q) && p <= q
    ensures Multiple(q, p)
  {
    if p == 1 {
      assert q == q * p;
    } else {
      Pow2Divides(p / 2, q / 2);
      var k: int :| q / 2 == k * (p / 2);
      assert q == k * p;
    }
  }

  lemma {:induction false} Pow2Product(a: nat, b: nat)
    requires IsPow2(a) && IsPow2(b)
    ensures IsPow2(a * b)
    decreases a
  {
    if a == 1 {
      assert a * b == b;
    } else {
      Pow2Product(a / 2, b);
      assert a * b == 2 * (a / 2 * b);
    }
  }

  const WORD: nat := 0x1_0000_0000_0000_0000

  lemma WordIsPow2()
    ensures IsPow2(WORD)
  {
    assert IsPow2(16);
    Pow2Product(16, 16);
    Pow2Product(0x100, 0x100);
    Pow2Product(0x1_0000, 0x1_0000);
    Pow2Product(0x1_0000_0000, 0x1_0000_0000);
  }

  /** The lowest power of two in the binary form of n. */
  function LowBit(n: nat): (p: nat)
    requires n > 0
    ensures 0 < p <= n && IsPow2(p)
  {
    if n % 2 == 1 then 1 else 2 * LowBit(n / 2)
  }

  lemma {:induction false} LowBitDivides(n: nat)
    requires n > 0
    ensures Multiple(n, LowBit(n))
  {
    if n % 2 == 1 {
      assert n == n * 1;
    } else {
      LowBitDivides(n / 2);
      var k: int :| n / 2 == k * LowBit(n / 2);
      assert n == k * LowBit(n);
    }
  }

  /** Every power of two that divides n divides its lowest bit. */
  lemma {:induction false} LowBitLargest(n: nat, p: nat)
    requires n > 0 && IsPow2(p) && Multiple(n, p)
    ensures p <= LowBit(n)
  {
    if p > 1 {
      var k: int :| n == k * p;
      assert n == 2 * (k * (p / 2));
      assert n / 2 == k * (p / 2);
      LowBitLargest(n / 2, p / 2);
    }
  }

  /** The binary digits of n, lowest first. */
  function Bits(n: nat): (s: seq<nat>)
    ensures Sum(s) == n
    ensures forall i :: 0 <= i < |s| ==> IsPow2(s[i])
    decreases n
  {
    if n == 0 then [] else [LowBit(n)] + Bits(n - LowBit(n))
  }

  /** The number of ones in the binary form of n. */
  function Ones(n: nat): nat { if n == 0 then 0 else n % 2 + Ones(n / 2) }

  lemma {:induction false} LowBitOnes(n: nat)
    requires n > 0
    ensures Ones(n) == 1 + Ones(n - LowBit(n))
  {
    if n % 2 == 1 {
      assert (n - 1) / 2 == n / 2;
    } else {
      LowBitOnes(n / 2);
      assert (n - LowBit(n)) / 2 == n / 2 - LowBit(n / 2);
    }
  }

  lemma {:induction false} BitsCount(n: nat)
    ensures |Bits(n)| == Ones(n)
    decreases n
  {
    if n > 0 {
      LowBitOnes(n);
      BitsCount(n - LowBit(n));
    }
  }

  lemma HalfOfSum(a: nat, b: nat)
    ensures (a + b) / 2 == a / 2 + b / 2 + (if a % 2 == 1 && b % 2 == 1 then 1 else 0)
    ensures (a + b) % 2 == (if a % 2 == b % 2 then 0 else 1)
  {
  }

  /** Adding two numbers never makes more ones than they have. */
  lemma {:induction false} OnesSubadditive(a: nat, b: nat)
    ensures Ones(a + b) <= Ones(a) + Ones(b)
    decreases a + b
  {
    if a == 0 || b == 0 { return; }
    HalfOfSum(a, b);
    OnesSubadditive(a / 2, b / 2);
    if a % 2 == 1 && b % 2 == 1 {
      OnesSubadditive(a / 2 + b / 2, 1);
      assert Ones(1) == 1;
    }
  }

  lemma {:induction false} Pow2Ones(p: nat)
    requires IsPow2(p)
    ensures Ones(p) == 1
  {
    if p > 1 { Pow2Ones(p / 2); }
  }

  /** No list of powers of two with the sum n is shorter than the binary digits of n. */
  lemma {:induction false} BitsShortest(s: seq<nat>)
    requires forall i :: 0 <= i < |s| ==> IsPow2(s[i])
    ensures |Bits(Sum(s))| <= |s|
    decreases |s|
  {
    if s != [] {
      BitsShortest(s[1..]);
      OnesSubadditive(s[0], Sum(s[1..]));
      Pow2Ones(s[0]);
      BitsCount(Sum(s));
      BitsCount(Sum(s[1..]));
    }
  }

  // ---------- alignment ----------

  /** Laid out from the given offset, every piece starts at a multiple of its own size. */
  ghost predicate Aligned(offset: nat, s: seq<nat>)
    decreases |s|
  {
    s == [] || (Multiple(offset, s[0]) && Aligned(offset + s[0], s[1..]))
  }

  lemma {:induction false} AlignedAppend(offset: nat, a: seq<nat>, b: seq<nat>)
    ensures Aligned(offset, a + b) <==> Aligned(offset, a) && Aligned(offset + Sum(a), b)
    decreases |a|
  {
    if a == [] {
      assert a + b == b;
    } else {
      assert (a + b)[1..] == a[1..] + b;
      AlignedAppend(offset + a[0], a[1..], b);
    }
  }

  lemma {:induction false} AlignedAt(offset: nat, s: seq<nat>, i: nat)
    requires Aligned(offset, s) && i < |s|
    ensures Multiple(offset + Sum(s[..i]), s[i])
    decreases i
  {
    if i > 0 {
      assert s[..i][1..] == s[1..][..i - 1];
      AlignedAt(offset + s[0], s[1..], i - 1);
    }
  }

  /** The digits of n are aligned at any offset from which they end at a multiple of a power of two not below n. */
  lemma {:induction false} BitsAligned(offset: nat, n: nat, whole: nat)
    requires IsPow2(whole) && n <= whole && Multiple(offset + n, whole)
    ensures Aligned(offset, Bits(n))
    decreases n
  {
    if n > 0 {
      var p := LowBit(n);
      Pow2Divides(p, whole);
      MultipleTrans(offset + n, whole, p);
      LowBitDivides(n);
      MultipleSum(offset + n, n, p);
      BitsAligned(offset + p, n - p, whole);
    }
  }

  /** The digits of a multiple of a power of two are multiples of it. */
  lemma {:induction false} BitsMultiple(n: nat, p: nat)
    requires IsPow2(p) && Multiple(n, p)
    ensures forall i :: 0 <= i < |Bits(n)| ==> Bits(n)[i] >= p
    decreases n
  {
    if n > 0 {
      LowBitLargest(n, p);
      Pow2Divides(p, LowBit(n));
      MultipleSum(n, LowBit(n), p);
      BitsMultiple(n - LowBit(n), p);
    }
  }
}
