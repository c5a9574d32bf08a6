/** Machine-word arithmetic of the queues: 64-bit counters that wrap around, comparison of wrapped
    counters, masked array slots, and rounding up to a power of two. */
module Words {
  import opened Arith

  const WORD: int := 0x1_0000_0000_0000_0000
  const HALF: int := 0x8000_0000_0000_0000

  /** Conversion of a mathematical integer to a 64-bit unsigned word. */
  function Wrap(x: int): nat { x % WORD }

  // Increment and decrement of a word, and the circular index arithmetic `(i + k) & (n - 1)` and
  // `(i - k) & (n - 1)` for i, k at most one turn, written without products and remainders.
  function Inc(x: nat): nat { if x + 1 == WORD then 0 else x + 1 }
  function Dec(x: nat): nat { if x == 0 then WORD - 1 else x - 1 }
  function Ahead(i: nat, k: nat, n: nat): nat { if i + k < n then i + k else if i + k < 2 * n then i + k - n else 0 }
  function Behind(i: nat, k: nat, n: nat): nat
    requires k <= n
  {
    if i >= k then i - k else i - k + n
  }

  lemma IncDecAreWraps(x: nat)
    requires x < WORD
    ensures Inc(x) == Wrap(x + 1) && Dec(x) == Wrap(x - 1)
  {
    WrapOne(x + 1, if x + 1 == WORD then 1 else 0);
    WrapOne(x - 1, if x == 0 then -1 else 0);
  }

  lemma AheadIsMod(i: nat, k: nat, n: nat)
    requires i < n && k <= n
    ensures Ahead(i, k, n) == (i + k) % n
  {
    if i + k < n { ModSmall(i + k, n); } else { ModUnique(i + k, 1, i + k - n, n); }
  }

  lemma BehindIsMod(i: nat, k: nat, n: nat)
    requires i < n && k <= n
    ensures Behind(i, k, n) == (i - k) % n
  {
    if i >= k { ModSmall(i - k, n); } else { ModUnique(i - k, -1, i - k + n, n); }
  }

  lemma WrapOne(x: int, turns: int)
    requires 0 <= x - turns * WORD < WORD
    ensures Wrap(x) == x - turns * WORD
  {
    ModUnique(x, turns, x - turns * WORD, WORD);
  }

  // ---------------------------------------------------------------- comparing wrapped counters

  predicate CircularLessThan(a: nat, b: nat) { Wrap(a - b) > HALF }

  /** Comparing the words of two counters that are less than one full turn apart gives the order of
      the counters exactly when the second is at most 2^63 behind and less than 2^63 ahead. */
  lemma CircularOrderExact(a: int, b: int)
    requires -WORD < b - a < WORD
    ensures (CircularLessThan(Wrap(a), Wrap(b)) <==> a < b) <==> -HALF <= b - a < HALF
  {
    WrapDifference(a, b);
  }

  /** For a word that is ahead by at most a turn. */
  lemma AheadByWord(x: nat, y: nat)
    requires x < y <= x + WORD
    ensures CircularLessThan(Wrap(x), Wrap(y)) <==> y - x < HALF
  {
    if y == x + WORD { ModTurns(x, 1, WORD); } else { CircularOrderExact(x, y); }
  }

  lemma WrapDifference(a: int, b: int)
    ensures Wrap(Wrap(a) - Wrap(b)) == Wrap(a - b)
  {
    var k := a / WORD - b / WORD;
    assert a - b == Wrap(a) - Wrap(b) + k * WORD;
    ModTurns(Wrap(a) - Wrap(b), k, WORD);
  }

  // ---------------------------------------------------------------- the slot of a block

  /** Slot of the block with base index `base` in a circular block index of `size` entries, found from
      the slot `front` whose entry has base `frontBase`. The signed difference of the bases is divided
      by an unsigned block size, so the division is unsigned. */
  function SlotOf(front: nat, frontBase: nat, base: nat, blockSize: nat, size: nat): nat
    requires blockSize > 0 && size > 0
  {
    Wrap(front + Wrap(base - frontBase) / blockSize) % size
  }

  lemma SlotOfWithin(front: nat, frontBase: nat, base: nat, blockSize: nat, size: nat)
    requires blockSize > 0 && size > 0
    ensures SlotOf(front, frontBase, base, blockSize, size) < size
  {
    Euclid(Wrap(front + Wrap(base - frontBase) / blockSize), size);
  }

  /** Block size and index size are powers of two whose product is at most the 64-bit index space. */
  ghost predicate IndexFits(blockSize: nat, size: nat) {
    blockSize >= 2 && exists j: nat, k: nat :: j + k <= 64 && blockSize == Pow2(j) && size == Pow2(k)
  }

  lemma IndexTurns(blockSize: nat, size: nat) returns (m: nat)
    requires IndexFits(blockSize, size)
    ensures size >= 1 && m >= 1 && m * size * blockSize == WORD
  {
    var j: nat, k: nat :| j + k <= 64 && blockSize == Pow2(j) && size == Pow2(k);
    m := Pow2(64 - j - k);
    Pow2Sum(64 - j - k, k);
    Pow2Sum(64 - j, j);
    Pow2Constants();
  }

  /** A block index that still leaves room can be doubled. */
  lemma IndexDoubles(blockSize: nat, size: nat)
    requires IndexFits(blockSize, size) && 2 * size * blockSize <= WORD
    ensures IndexFits(blockSize, 2 * size)
  {
    var j: nat, k: nat :| j + k <= 64 && blockSize == Pow2(j) && size == Pow2(k);
    Pow2Sum(k + 1, j);
    Pow2Constants();
    assert 2 * size == Pow2(k + 1);
  }

  /** Although the division is unsigned, the slot is the front slot plus the true, possibly negative,
      distance in blocks, modulo the size of the index, also across wrap-around of the element index. */
  lemma SlotIsSignedDistance(front: nat, frontBlock: int, block: int, blockSize: nat, size: nat)
    requires IndexFits(blockSize, size) && front < size
    ensures SlotOf(front, Wrap(frontBlock * blockSize), Wrap(block * blockSize), blockSize, size)
            == (front + (block - frontBlock)) % size
  {
    var m := IndexTurns(blockSize, size);
    SlotOverTurns(front, frontBlock, block, blockSize, size, m);
  }

  lemma SlotOverTurns(front: nat, frontBlock: int, block: int, blockSize: nat, size: nat, m: nat)
    requires blockSize >= 2 && front < size && m >= 1 && m * size * blockSize == WORD
    ensures SlotOf(front, Wrap(frontBlock * blockSize), Wrap(block * blockSize), blockSize, size)
            == (front + (block - frontBlock)) % size
  {
    MulAtLeast(m, size);
    SlotRemainder(front, block - frontBlock, size, m);
    SlotWithTurns(front, frontBlock, block, blockSize, size, m * size);
  }

  lemma SlotWithTurns(front: nat, frontBlock: int, block: int, blockSize: nat, size: nat, n: int)
    requires blockSize >= 2 && front < size <= n && n * blockSize == WORD
    requires (front + (block - frontBlock) % n) % size == (front + (block - frontBlock)) % size
    ensures SlotOf(front, Wrap(frontBlock * blockSize), Wrap(block * blockSize), blockSize, size)
            == (front + (block - frontBlock)) % size
  {
    DistanceInBlocks(frontBlock, block, blockSize, n);
    Euclid(block - frontBlock, n);
    SlotRoom(front, (block - frontBlock) % n, blockSize, size, n);
  }

  lemma DistanceInBlocks(frontBlock: int, block: int, blockSize: nat, n: int)
    requires blockSize >= 2 && n >= 1 && n * blockSize == WORD
    ensures Wrap(Wrap(block * blockSize) - Wrap(frontBlock * blockSize)) / blockSize == (block - frontBlock) % n
  {
    WrapDifference(block * blockSize, frontBlock * blockSize);
    Distribute(block, frontBlock, blockSize);
    UnsignedQuotient(block - frontBlock, blockSize, n);
  }

  lemma UnsignedQuotient(d: int, blockSize: int, n: int)
    requires blockSize >= 2 && n >= 1 && n * blockSize == WORD
    ensures Wrap(d * blockSize) / blockSize == d % n
  {
    BaseOf(d, blockSize, n);
    ModUnique(d % n * blockSize, d % n, 0, blockSize);
  }

  /** The base index of a block is never 1, the mark of an unused index entry. */
  lemma BaseIsNotOne(q: int, blockSize: nat, size: nat)
    requires IndexFits(blockSize, size)
    ensures Wrap(q * blockSize) != 1
  {
    var m := IndexTurns(blockSize, size);
    MulAtLeast(m, size);
    var n := m * size;
    Euclid(q, n);
    BaseOf(q, blockSize, n);
    var r := q % n;
    if r >= 1 { MulAtLeast(r, blockSize); }
  }

  lemma BaseOf(q: int, blockSize: int, n: int)
    requires blockSize >= 2 && n >= 1 && n * blockSize == WORD
    ensures Wrap(q * blockSize) == q % n * blockSize
  {
    var k, r := q / n, q % n;
    Euclid(q, n);
    Distribute(k * n, r, blockSize);
    Associate(k, n, blockSize);
    BelowProduct(r, n, blockSize);
    ModUnique(q * blockSize, k, r * blockSize, WORD);
  }

  lemma SlotRemainder(front: int, d: int, size: int, m: int)
    requires size >= 1 && m >= 1 && m * size >= 1
    ensures (front + d % (m * size)) % size == (front + d) % size
  {
    var n := m * size;
    Euclid(d, n);
    Associate(d / n, m, size);
    ModTurns(front + d % n, d / n * m, size);
  }

  lemma SlotRoom(front: int, r: int, blockSize: int, size: int, n: int)
    requires blockSize >= 2 && 0 <= front < size <= n && 0 <= r < n && n * blockSize == WORD
    ensures Wrap(front + r) == front + r
  {
    MulMonotone(2, blockSize, n);
  }

  // ---------------------------------------------------------------- bitwise operations

  function Pow2(k: nat): (p: nat)
    ensures p >= 1
  {
    if k == 0 then 1 else 2 * Pow2(k - 1)
  }

  function Or(a: nat, b: nat): nat
    decreases a + b
  {
    if a == 0 && b == 0 then 0
    else 2 * Or(a / 2, b / 2) + (if a % 2 == 1 || b % 2 == 1 then 1 else 0)
  }

  function And(a: nat, b: nat): nat {
    if a == 0 || b == 0 then 0
    else 2 * And(a / 2, b / 2) + (if a % 2 == 1 && b % 2 == 1 then 1 else 0)
  }

  function ShiftRight(x: nat, k: nat): nat {
    QuotientAtLeast(x, Pow2(k), 0);
    x / Pow2(k)
  }

  /** Masking with a power of two minus one is reduction modulo that power of two: the array slots
      written `i & (size - 1)` in the code are `i % size`. */
  lemma {:induction false} MaskIsMod(x: nat, k: nat, p: nat)
    requires p == Pow2(k)
    ensures And(x, p - 1) == x % p
  {
    if k == 0 || x == 0 {
      ModUnique(x, if k == 0 then x else 0, 0, p);
    } else {
      var m := Pow2(k - 1);
      MaskIsMod(x / 2, k - 1, m);
      HalveMod(x, m);
      AndOdd(x, m);
      MaskStep(x, m, p);
    }
  }

  lemma MaskStep(x: nat, m: nat, p: nat)
    requires x > 0 && m >= 1 && p == 2 * m && And(x / 2, m - 1) == x / 2 % m
    requires x % (2 * m) == 2 * (x / 2 % m) + x % 2
    requires And(x, 2 * m - 1) == 2 * And(x / 2, m - 1) + x % 2
    ensures And(x, p - 1) == x % p
  {
  }

  lemma AndOdd(x: nat, m: nat)
    requires x > 0 && m >= 1
    ensures And(x, 2 * m - 1) == 2 * And(x / 2, m - 1) + x % 2
  {
    assert (2 * m - 1) / 2 == m - 1 && (2 * m - 1) % 2 == 1;
  }

  lemma HalveMod(x: int, m: int)
    requires m >= 1
    ensures x % (2 * m) == 2 * (x / 2 % m) + x % 2
  {
    var q, r := x / 2 / m, x / 2 % m;
    Euclid(x / 2, m);
    Associate(2, q, m);
    Associate(q, 2, m);
    ModUnique(x, q, 2 * r + x % 2, 2 * m);
  }

  lemma {:induction false} Pow2Sum(a: nat, b: nat)
    ensures Pow2(a + b) == Pow2(a) * Pow2(b)
  {
    if a > 0 {
      Pow2Sum(a - 1, b);
      Associate(2, Pow2(a - 1), Pow2(b));
    }
  }

  lemma {:induction false} Pow2Monotone(a: nat, b: nat)
    requires a <= b
    ensures Pow2(a) <= Pow2(b)
  {
    if a < b { Pow2Monotone(a, b - 1); }
  }

  lemma {:induction false} OrBounds(a: nat, b: nat, k: nat)
    requires a < Pow2(k) && b < Pow2(k)
    ensures a <= Or(a, b) < Pow2(k) && b <= Or(a, b)
  {
    if k > 0 { OrBounds(a / 2, b / 2, k - 1); }
  }

  lemma {:induction false} OrKeepsHighPart(a: nat, c: nat, d: nat, k: nat)
    requires c < Pow2(k) && d < Pow2(k)
    ensures a * Pow2(k) >= 0 && Or(a * Pow2(k) + c, d) == a * Pow2(k) + Or(c, d)
  {
    if k == 0 {
      OrZero(a);
    } else {
      var m := Pow2(k - 1);
      Associate(a, 2, m);
      Associate(2, a, m);
      OrKeepsHighPart(a, c / 2, d / 2, k - 1);
      var x := a * Pow2(k) + c;
      assert x / 2 == a * m + c / 2 && x % 2 == c % 2;
    }
  }

  lemma {:induction false} OrZero(a: nat)
    ensures Or(a, 0) == a
  {
    if a > 0 { OrZero(a / 2); }
  }

  // ---------------------------------------------------------------- rounding up to a power of two

  /** The value is below 2^n, and the s highest of its n bits are all ones. */
  predicate Smeared(x: nat, n: nat, s: nat) {
    Pow2(n) - Pow2(n - Min(s, n)) <= x < Pow2(n)
  }

  lemma SmearStep(x: nat, n: nat, s: nat)
    requires Smeared(x, n, s)
    ensures Smeared(Or(x, ShiftRight(x, s)), n, 2 * s)
  {
    var d := ShiftRight(x, s);
    ShiftShrinks(x, s);
    OrBounds(x, d, n);
    if s < n {
      SmearTop(x, n, s);
      SmearGain(x, n, s);
    }
  }

  lemma ShiftShrinks(x: nat, s: nat)
    ensures ShiftRight(x, s) <= x
  {
    var p := Pow2(s);
    Euclid(x, p);
    if x / p > 0 { MulAtLeast(p, x / p); }
  }

  lemma SmearTop(x: nat, n: nat, s: nat)
    requires s < n && Smeared(x, n, s)
    ensures Or(x, ShiftRight(x, s)) >= Pow2(n) - Pow2(n - s) + ShiftRight(x, s)
  {
    Pow2Sum(s, n - s);
    Pow2Sum(n - s, s);
    QuotientBelow(x, Pow2(s), Pow2(n - s));
    SmearTopAt(x, ShiftRight(x, s), Pow2(s), n - s);
  }

  lemma SmearTopAt(x: nat, d: nat, p: int, k: nat)
    requires p >= 1 && d < Pow2(k) && p * Pow2(k) - Pow2(k) <= x < p * Pow2(k)
    ensures Or(x, d) >= p * Pow2(k) - Pow2(k) + d
  {
    Distribute(p, 1, Pow2(k));
    OrAbove(p - 1, x - (p * Pow2(k) - Pow2(k)), d, k);
  }

  lemma OrAbove(a: nat, c: nat, d: nat, k: nat)
    requires c < Pow2(k) && d < Pow2(k)
    ensures a * Pow2(k) >= 0 && Or(a * Pow2(k) + c, d) >= a * Pow2(k) + d
  {
    OrKeepsHighPart(a, c, d, k);
    OrBounds(c, d, k);
  }

  lemma SmearGain(x: nat, n: nat, s: nat)
    requires s < n && Smeared(x, n, s)
    ensures ShiftRight(x, s) >= Pow2(n - s) - Pow2(n - Min(2 * s, n))
  {
    var p, m := Pow2(s), Pow2(n - s);
    Pow2Sum(n - s, s);
    if 2 * s <= n {
      var e := Pow2(n - 2 * s);
      Pow2Sum(n - 2 * s, s);
      Distribute(m, e, p);
      QuotientAtLeast(x, p, m - e);
    } else {
      Pow2Monotone(n - s, s);
      Distribute(m, 1, p);
      QuotientAtLeast(x, p, m - 1);
    }
  }

  lemma {:induction false} BitLength(x: nat) returns (n: nat)
    ensures Smeared(x, n, 1) && (n == 0 <==> x == 0)
  {
    if x == 0 {
      n := 0;
    } else {
      var k := BitLength(x / 2);
      n := k + 1;
    }
  }

  /** p is the least power of two that is at least x. */
  ghost predicate LeastPow2(p: nat, x: nat) {
    && p >= x
    && (exists k :: p == Pow2(k))
    && (forall k :: Pow2(k) >= x ==> p <= Pow2(k))
  }

  /** `ceilToPow2` and `ceil_to_pow_2` on 64-bit words, for every input word. */
  method CeilToPow2(x0: nat) returns (x: nat)
    requires x0 < WORD
    ensures 1 <= x0 <= HALF ==> LeastPow2(x, x0)
    ensures x0 == 0 || x0 > HALF ==> x == 0
  {
    x := Dec(x0);
    ghost var n := BitLength(x);
    CeilFromBits(x0, n);
    SmearStep(x, n, 1);
    x := Or(x, ShiftRight(x, 1));
    SmearStep(x, n, 2);
    x := Or(x, ShiftRight(x, 2));
    SmearStep(x, n, 4);
    x := Or(x, ShiftRight(x, 4));
    var i := 1;
    while i < 8
      invariant i == 1 || i == 2 || i == 4 || i == 8
      invariant Smeared(x, n, 8 * i)
      decreases 8 - i
    {
      SmearStep(x, n, 8 * i);
      x := Or(x, ShiftRight(x, 8 * i));
      i := 2 * i;
    }
    SmearedAll(x, n);
    x := Inc(x);
  }

  lemma SmearedAll(x: nat, n: nat)
    requires n <= 64 && Smeared(x, n, 64)
    ensures x == Pow2(n) - 1
  {
    assert Pow2(0) == 1;
  }

  lemma CeilFromBits(x0: nat, n: nat)
    requires x0 < WORD && Smeared(Dec(x0), n, 1) && (n == 0 <==> Dec(x0) == 0)
    ensures n <= 64 && Pow2(n) <= WORD
    ensures 1 <= x0 <= HALF ==> LeastPow2(Pow2(n), x0) && Pow2(n) < WORD
    ensures x0 == 0 || x0 > HALF ==> Pow2(n) == WORD
  {
    var y := Dec(x0);
    WordBits(y, n);
    if 1 <= x0 <= HALF {
      if n > 0 { TopBit(y, n); }
      LeastFromBits(x0, n);
    }
  }

  lemma Pow2Constants()
    ensures Pow2(63) == HALF && Pow2(64) == WORD
  {
    assert Pow2(8) == 0x100;
    Pow2Sum(8, 8);
    assert Pow2(16) == 0x1_0000;
    Pow2Sum(16, 16);
    assert Pow2(32) == 0x1_0000_0000;
    Pow2Sum(32, 32);
  }

  /** The bit length of a word is at most 64, and at most 63 exactly for words below 2^63. */
  lemma WordBits(x: nat, n: nat)
    requires x < WORD && Smeared(x, n, 1) && (n == 0 <==> x == 0)
    ensures n <= 64 && (n <= 63 <==> x < HALF)
    ensures Pow2(64) == WORD && (n <= 63 ==> Pow2(n) <= HALF)
  {
    Pow2Constants();
    if n > 64 { Pow2Monotone(64, n - 1); }
    if n > 63 { Pow2Monotone(63, n - 1); }
    if n <= 63 { Pow2Monotone(n, 63); }
  }

  lemma TopBit(x: nat, n: nat)
    requires n > 0 && Smeared(x, n, 1)
    ensures x >= Pow2(n - 1)
  {
  }

  lemma LeastFromBits(x0: nat, n: nat)
    requires 1 <= x0 <= Pow2(n) && (n > 0 ==> x0 > Pow2(n - 1))
    ensures LeastPow2(Pow2(n), x0)
  {
    forall k: nat | Pow2(k) >= x0 ensures Pow2(n) <= Pow2(k) {
      if k < n { Pow2Monotone(k, n - 1); } else { Pow2Monotone(n, k); }
    }
  }
}
