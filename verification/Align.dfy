/** ALIGN_UP and ALIGN_DOWN: a 64-bit mask that rounds to a multiple, exactly for powers of two. */
module Align {
  import opened Words

  const PAGE: nat := 0x1000

  function Pow2(k: nat): (p: nat)
    ensures p > 0
  {
    if k == 0 then 1 else 2 * Pow2(k - 1)
  }

  /** Bitwise AND of two numbers of `n` bits. */
  function And(x: nat, y: nat, n: nat): nat {
    if n == 0 then 0 else 2 * And(x / 2, y / 2, n - 1) + if x % 2 == 1 && y % 2 == 1 then 1 else 0
  }

  /** The two's complement of `align` as the macros use it. */
  function Mask(align: nat): nat
    requires align <= WORD
  {
    WORD - align
  }

  function AlignDown(n: nat, align: nat): nat
    requires align <= WORD
  {
    And(n, Mask(align), 64)
  }

  function AlignUp(n: nat, align: nat): nat
    requires 0 < align <= WORD
  {
    And((n + align - 1) % WORD, Mask(align), 64)
  }

  // ---------------------------------------------------------------- the mask of a power of two

  lemma {:induction false} Pow2Add(a: nat, b: nat)
    ensures Pow2(a + b) == Pow2(a) * Pow2(b)
  {
    if b > 0 {
      Pow2Add(a, b - 1);
      assert Pow2(a + b) == 2 * Pow2(a + b - 1);
    }
  }

  lemma WordIsPow2()
    ensures Pow2(64) == WORD
  {
    assert Pow2(2) == 4 && Pow2(4) == 16;
    Pow2Add(4, 4);
    Pow2Add(8, 8);
    Pow2Add(16, 16);
    Pow2Add(32, 32);
  }

  lemma {:induction false} Pow2Monotone(k: nat, n: nat)
    requires k <= n
    ensures Pow2(k) <= Pow2(n)
  {
    if k < n { Pow2Monotone(k, n - 1); }
  }

  /** Halving a number halves its remainder. */
  lemma HalfRemainder(x: nat, m: nat)
    requires m > 0
    ensures x % (2 * m) == 2 * ((x / 2) % m) + x % 2
  {
    var q, r := (x / 2) / m, (x / 2) % m;
    assert x == (2 * m) * q + (2 * r + x % 2);
    QuotientUnique(x, 2 * m, q, 2 * r + x % 2);
  }

  lemma {:induction false} MultiplesApart(d: nat, p: nat, q: nat)
    requires p < q
    ensures d * p + d <= d * q
  {
    assert d * q == d * (q - 1) + d;
    if p < q - 1 { MultiplesApart(d, p, q - 1); }
  }

  lemma QuotientUnique(x: nat, d: nat, q: nat, r: nat)
    requires d > 0 && x == d * q + r && r < d
    ensures x % d == r && x / d == q
  {
    var q', r' := x / d, x % d;
    assert x == d * q' + r';
    if q' < q { MultiplesApart(d, q', q); }
    if q < q' { MultiplesApart(d, q, q'); }
  }

  lemma {:induction false} MaskRounds(x: nat, k: nat, n: nat)
    requires k <= n && x < Pow2(n)
    ensures Pow2(k) <= Pow2(n) && And(x, Pow2(n) - Pow2(k), n) == x - x % Pow2(k)
  {
    Pow2Monotone(k, n);
    if n > 0 {
      var mask := Pow2(n) - Pow2(k);
      if k == 0 {
        MaskRounds(x / 2, 0, n - 1);
        assert mask / 2 == Pow2(n - 1) - 1 && mask % 2 == 1;
      } else {
        MaskRounds(x / 2, k - 1, n - 1);
        HalfRemainder(x, Pow2(k - 1));
        assert mask / 2 == Pow2(n - 1) - Pow2(k - 1) && mask % 2 == 0;
      }
    }
  }

  lemma DownRounds(n: nat, k: nat)
    requires k < 64 && n < WORD
    ensures Pow2(k) <= WORD && And(n, Mask(Pow2(k)), 64) == n - n % Pow2(k)
  {
    WordIsPow2();
    Pow2Monotone(k, 64);
    MaskRounds(n, k, 64);
  }

  lemma UpIsDown(n: nat, a: nat)
    requires 0 < a <= WORD && n + a <= WORD
    ensures AlignUp(n, a) == AlignDown(n + a - 1, a)
  {
    assert (n + a - 1) % WORD == n + a - 1;
  }

  lemma UpBounds(n: nat, a: nat, u: int)
    requires a > 0 && u == (n + a - 1) - (n + a - 1) % a
    ensures u % a == 0 && n <= u < n + a
  {
    MultipleBelow(n + a - 1, a);
  }

  /** For a power of two the macros round to multiples of it. */
  lemma MaskIsRounding(n: nat, k: nat)
    requires k < 64 && n + Pow2(k) <= WORD
    ensures var a := Pow2(k);
      && a <= WORD
      && AlignDown(n, a) == n - n % a
      && AlignUp(n, a) % a == 0 && AlignDown(n, a) % a == 0
      && n <= AlignUp(n, a) < n + a && n - a < AlignDown(n, a) <= n
  {
    var a := Pow2(k);
    DownRounds(n, k);
    DownRounds(n + a - 1, k);
    UpIsDown(n, a);
    hide And, Pow2, AlignUp;
    UpBounds(n, a, AlignUp(n, a));
    MultipleBelow(n, a);
  }

  lemma MultipleBelow(n: nat, a: nat)
    requires a > 0
    ensures (n - n % a) % a == 0 && 0 <= n % a < a && n % a <= n
  {
    QuotientUnique(n - n % a, a, n / a, 0);
  }

  // ---------------------------------------------------------------- other alignments

  lemma {:induction false} DisjointBits(x: nat, n: nat)
    requires x < Pow2(n)
    ensures And(x, Pow2(n) - 1 - x, n) == 0
  {
    if n > 0 {
      assert (Pow2(n) - 1 - x) / 2 == Pow2(n - 1) - 1 - x / 2;
      DisjointBits(x / 2, n - 1);
    }
  }

  /** A number meets its own complement in its lowest bit only. */
  lemma {:induction false} OnlyPowers(a: nat, n: nat) returns (k: nat)
    requires 0 < a < Pow2(n) && And(a, Pow2(n) - a, n) == a
    ensures k < n && a == Pow2(k)
  {
    if a % 2 == 1 {
      assert (Pow2(n) - a) / 2 == Pow2(n - 1) - 1 - a / 2;
      DisjointBits(a / 2, n - 1);
      k := 0;
    } else {
      assert (Pow2(n) - a) / 2 == Pow2(n - 1) - a / 2;
      k := OnlyPowers(a / 2, n - 1);
      k := k + 1;
    }
  }

  ghost predicate RoundsDown(align: nat)
    requires 0 < align < WORD
  {
    forall n: nat :: n + align <= WORD ==> AlignDown(n, align) == n - n % align
  }

  /** The nearest multiple above, for every number. */
  ghost predicate RoundsUp(align: nat)
    requires 0 < align < WORD
  {
    forall n: nat :: n + align <= WORD ==> AlignUp(n, align) % align == 0 && n <= AlignUp(n, align) < n + align
  }

  ghost predicate PowerOfTwo(align: nat) {
    exists k: nat :: k < 64 && align == Pow2(k)
  }

  lemma PowersRound(align: nat)
    requires PowerOfTwo(align) && 0 < align && 2 * align <= WORD
    ensures RoundsDown(align) && RoundsUp(align)
  {
    var k: nat :| k < 64 && align == Pow2(k);
    hide AlignUp, AlignDown, Pow2;
    forall n: nat | n + align <= WORD
      ensures AlignDown(n, align) == n - n % align
      ensures AlignUp(n, align) % align == 0 && n <= AlignUp(n, align) < n + align
    {
      MaskIsRounding(n, k);
    }
  }

  /** A macro that rounds maps the alignment itself, or the number one, to the alignment. */
  lemma NoPowerRounds(align: nat)
    requires 0 < align && 2 * align <= WORD && (RoundsDown(align) || RoundsUp(align))
    ensures PowerOfTwo(align)
  {
    WordIsPow2();
    if RoundsDown(align) {
      assert AlignDown(align, align) == align - align % align == align;
    } else {
      UpIsDown(1, align);
      OnlyMultiple(AlignUp(1, align), align);
    }
    var k := OnlyPowers(align, 64);
  }

  lemma OnlyMultiple(u: nat, a: nat)
    requires a > 0 && u % a == 0 && 1 <= u < 1 + a
    ensures u == a
  {
    if u < a { QuotientUnique(u, a, 0, u); }
  }

  /** Either macro rounds every number exactly if the alignment is a power of two; that the block size is a
      multiple of the page size, which is all the program checks, is not enough. */
  lemma RoundingNeedsPowerOfTwo(align: nat)
    requires 0 < align && 2 * align <= WORD
    ensures RoundsDown(align) <==> PowerOfTwo(align)
    ensures RoundsUp(align) <==> PowerOfTwo(align)
  {
    hide RoundsDown, RoundsUp, PowerOfTwo;
    if PowerOfTwo(align) { PowersRound(align); }
    if RoundsDown(align) || RoundsUp(align) { NoPowerRounds(align); }
  }
}
