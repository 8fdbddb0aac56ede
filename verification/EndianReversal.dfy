/** Reversing the bytes of a machine word by shifts and masks, and the aligned buffers built on
    that. A word is an unsigned integer; its bytes are counted from the least significant. */
module EndianReversal {
  import opened Endian

  /** Bit by bit: whether both bits are set, or any. */
  function Bitwise(x: nat, y: nat, any: bool): nat
    decreases x + y
  {
    if x == 0 && y == 0 then 0
    else Bit(x % 2 == 1, y % 2 == 1, any) + 2 * Bitwise(x / 2, y / 2, any)
  }

  function Bit(b: bool, c: bool, any: bool): nat {
    if (any && (b || c)) || (b && c) then 1 else 0
  }

  function And(x: nat, y: nat): nat {
    Bitwise(x, y, false)
  }

  function Or(x: nat, y: nat): nat {
    Bitwise(x, y, true)
  }

  /** Shifts by `k` bytes, which is 8 `k` bits, within a word of `n` bytes. */
  function ShiftLeft(x: nat, k: nat, n: nat): nat {
    Divided(x * Pow256(k), Pow256(n));
    x * Pow256(k) % Pow256(n)
  }

  function ShiftRight(x: nat, k: nat): nat {
    Divided(x, Pow256(k));
    x / Pow256(k)
  }

  lemma Divided(x: int, d: int)
    requires d > 0
    ensures x % d >= 0 && (x >= 0 ==> x / d >= 0)
  {
  }

  function Reverse16(x: nat): nat {
    Or(ShiftLeft(x, 1, 2), ShiftRight(x, 1))
  }

  function Reverse32(x: nat): nat {
    var step16 := Or(ShiftLeft(x, 2, 4), ShiftRight(x, 2));
    Or(And(ShiftLeft(step16, 1, 4), 0xff00ff00), And(ShiftRight(step16, 1), 0x00ff00ff))
  }

  function Reverse64(x: nat): nat {
    var step32 := Or(ShiftLeft(x, 4, 8), ShiftRight(x, 4));
    var step16 := Or(ShiftLeft(And(step32, 0x0000FFFF0000FFFF), 2, 8),
                     ShiftRight(And(step32, 0xFFFF0000FFFF0000), 2));
    Or(ShiftLeft(And(step16, 0x00FF00FF00FF00FF), 1, 8),
       ShiftRight(And(step16, 0xFF00FF00FF00FF00), 1))
  }

  /** Goes through the unsigned type of the same width. */
  function EndianReverse(x: int, n: nat, signed: bool): int
    requires n in {1, 2, 4, 8}
  {
    var u := Low(x, n, false);
    if n == 1 then x
    else Low(if n == 2 then Reverse16(u) else if n == 4 then Reverse32(u) else Reverse64(u), n, signed)
  }

  // ----- Words as their bytes, least significant first -----

  function Word(bytes: seq<byte>): (x: nat)
    ensures x < Pow256(|bytes|)
  {
    if bytes == [] then 0 else bytes[0] + 256 * Word(bytes[1..])
  }

  lemma BitwiseStep(x: nat, y: nat, any: bool)
    ensures Bitwise(x, y, any) == Bit(x % 2 == 1, y % 2 == 1, any) + 2 * Bitwise(x / 2, y / 2, any)
  {
  }

  lemma BitwiseBy2(a: nat, c: nat, b: nat, d: nat, any: bool)
    requires b < 2 && d < 2
    ensures Bitwise(2 * a + b, 2 * c + d, any) == 2 * Bitwise(a, c, any) + Bitwise(b, d, any)
  {
    BitwiseStep(2 * a + b, 2 * c + d, any);
    assert (2 * a + b) / 2 == a && (2 * c + d) / 2 == c;
    BitwiseStep(b, d, any);
  }

  /** An operation that works on high and low digits of base `h` alike. */
  ghost predicate Splits(f: (nat, nat) -> nat, h: nat)
    requires h > 0
  {
    forall a: nat, c: nat, b: nat, d: nat {:trigger f(Digits(a, b, h), Digits(c, d, h))} | b < h && d < h ::
      f(Digits(a, b, h), Digits(c, d, h)) == Digits(f(a, c), f(b, d), h)
  }

  function Digits(a: nat, b: nat, h: nat): nat
    requires h > 0
  {
    h * a + b
  }

  lemma SplitsSquared(f: (nat, nat) -> nat, h: nat)
    requires h > 0 && Splits(f, h)
    ensures Splits(f, h * h)
  {
    forall a: nat, c: nat, b: nat, d: nat | b < h * h && d < h * h
      ensures f(Digits(a, b, h * h), Digits(c, d, h * h)) == Digits(f(a, c), f(b, d), h * h)
    {
      var b1, b0, d1, d0 := b / h, b % h, d / h, d % h;
      SmallQuotient(b, h);
      SmallQuotient(d, h);
      assert f(b, d) == Digits(f(b1, d1), f(b0, d0), h);
      assert f(Digits(a, b1, h), Digits(c, d1, h)) == Digits(f(a, c), f(b1, d1), h);
      ThreeDigits(a, b1, b0, h);
      ThreeDigits(c, d1, d0, h);
      ThreeDigits(f(a, c), f(b1, d1), f(b0, d0), h);
    }
  }

  lemma SmallQuotient(b: nat, h: nat)
    requires h > 0 && b < h * h
    ensures 0 <= b / h < h && 0 <= b % h < h && Digits(b / h, b % h, h) == b
  {
    if b / h >= h {
      Monotone(h, h, b / h);
    }
  }

  lemma Monotone(h: nat, x: int, y: int)
    requires x <= y
    ensures h * x <= h * y
  {
  }

  lemma ThreeDigits(a: nat, b: nat, c: nat, h: nat)
    requires h > 0
    ensures Digits(Digits(a, b, h), c, h) == Digits(a, Digits(b, c, h), h * h)
  {
    assert h * (h * a + b) == h * h * a + h * b;
  }

  lemma BitwiseSplits(any: bool)
    ensures Splits((x, y) => Bitwise(x, y, any), 16)
    ensures Splits((x, y) => Bitwise(x, y, any), 256)
  {
    var f: (nat, nat) -> nat := (x, y) => Bitwise(x, y, any);
    forall a: nat, c: nat, b: nat, d: nat | b < 2 && d < 2
      ensures f(Digits(a, b, 2), Digits(c, d, 2)) == Digits(f(a, c), f(b, d), 2)
    {
      BitwiseBy2(a, c, b, d, any);
    }
    SplitsSquared(f, 2);
    SplitsSquared(f, 4);
    SplitsSquared(f, 16);
  }

  lemma {:induction false} Bytewise(f: (nat, nat) -> nat, a: seq<byte>, b: seq<byte>, c: seq<byte>)
    requires Splits(f, 256) && f(0, 0) == 0
    requires |a| == |b| == |c| && forall i :: 0 <= i < |a| ==> f(a[i], b[i]) == c[i]
    ensures f(Word(a), Word(b)) == Word(c)
  {
    if a != [] {
      Bytewise(f, a[1..], b[1..], c[1..]);
      assert f(Digits(Word(a[1..]), a[0], 256), Digits(Word(b[1..]), b[0], 256))
          == Digits(f(Word(a[1..]), Word(b[1..])), f(a[0], b[0]), 256);
    }
  }

  lemma OrZero(x: nat)
    ensures Or(x, 0) == x && Or(0, x) == x
  {
    if x > 0 {
      BitwiseStep(x, 0, true);
      BitwiseStep(0, x, true);
      OrZero(x / 2);
    }
  }

  lemma AndZero(x: nat)
    ensures And(x, 0) == 0
  {
    if x > 0 {
      BitwiseStep(x, 0, false);
      AndZero(x / 2);
    }
  }

  predicate AllOnes(m: nat) {
    m == 0 || (m % 2 == 1 && AllOnes(m / 2))
  }

  lemma AndOnes(x: nat, m: nat)
    requires x <= m && AllOnes(m)
    ensures And(x, m) == x
  {
    if m > 0 {
      BitwiseStep(x, m, false);
      AndOnes(x / 2, m / 2);
    }
  }

  function Kept(bytes: seq<byte>, mask: seq<bool>): (r: seq<byte>)
    requires |bytes| == |mask|
    ensures |r| == |bytes|
    ensures forall i :: 0 <= i < |r| ==> r[i] == if mask[i] then bytes[i] else 0
  {
    seq(|bytes|, i requires 0 <= i < |bytes| => if mask[i] then bytes[i] else 0)
  }

  function Ones(mask: seq<bool>): (r: seq<byte>)
    ensures |r| == |mask|
    ensures forall i :: 0 <= i < |r| ==> r[i] == if mask[i] then 255 else 0
  {
    seq(|mask|, i requires 0 <= i < |mask| => if mask[i] then 255 else 0)
  }

  lemma {:induction false} Masked(bytes: seq<byte>, mask: seq<bool>)
    requires |bytes| == |mask|
    ensures And(Word(bytes), Word(Ones(mask))) == Word(Kept(bytes, mask))
  {
    forall i | 0 <= i < |bytes|
      ensures Bitwise(bytes[i], Ones(mask)[i], false) == Kept(bytes, mask)[i]
    {
      assert AllOnes(255);
      AndOnes(bytes[i], 255);
      AndZero(bytes[i]);
    }
    BitwiseSplits(false);
    Bytewise((x, y) => Bitwise(x, y, false), bytes, Ones(mask), Kept(bytes, mask));
  }

  /** Bytes of which one is always zero. */
  lemma {:induction false} Joined(a: seq<byte>, b: seq<byte>, c: seq<byte>)
    requires |a| == |b| == |c|
    requires forall i :: 0 <= i < |a| ==> (a[i] == 0 && c[i] == b[i]) || (b[i] == 0 && c[i] == a[i])
    ensures Or(Word(a), Word(b)) == Word(c)
  {
    forall i | 0 <= i < |a|
      ensures Bitwise(a[i], b[i], true) == c[i]
    {
      OrZero(a[i]);
      OrZero(b[i]);
    }
    BitwiseSplits(true);
    Bytewise((x, y) => Bitwise(x, y, true), a, b, c);
  }

  function Zeros(k: nat): (r: seq<byte>)
    ensures |r| == k
  {
    seq(k, _ => 0)
  }

  lemma {:induction false} Concatenated(a: seq<byte>, b: seq<byte>)
    ensures Word(a + b) == Word(b) * Pow256(|a|) + Word(a)
  {
    if a == [] {
      assert a + b == b;
    } else {
      var tail := a[1..];
      Concatenated(tail, b);
      assert (a + b)[1..] == tail + b && (a + b)[0] == a[0];
      assert Word(a + b) == a[0] + 256 * Word(tail + b);
      OneByteUp(Word(tail + b), Word(b), Pow256(|tail|), Word(tail));
    }
  }

  lemma OneByteUp(w: int, x: int, p: int, y: int)
    requires w == x * p + y
    ensures 256 * w == x * (256 * p) + 256 * y
  {
    assert 256 * (x * p) == x * (256 * p);
  }

  lemma NoBytes(k: nat)
    ensures Word(Zeros(k)) == 0
  {
    if k > 0 {
      assert Zeros(k)[1..] == Zeros(k - 1);
      NoBytes(k - 1);
    }
  }

  lemma {:induction false} ShiftedRight(bytes: seq<byte>, k: nat)
    requires k <= |bytes|
    ensures ShiftRight(Word(bytes), k) == Word(bytes[k..] + Zeros(k))
  {
    NoBytes(k);
    Concatenated(bytes[k..], Zeros(k));
    assert bytes == bytes[..k] + bytes[k..];
    Concatenated(bytes[..k], bytes[k..]);
    Remainder(Word(bytes), Pow256(k), Word(bytes[k..]), Word(bytes[..k]));
  }

  lemma {:induction false} ShiftedLeft(bytes: seq<byte>, k: nat)
    requires k <= |bytes|
    ensures ShiftLeft(Word(bytes), k, |bytes|) == Word(Zeros(k) + bytes[..|bytes| - k])
  {
    var n := |bytes|;
    var low, high := Zeros(k) + bytes[..n - k], bytes[n - k..];
    NoBytes(k);
    Concatenated(Zeros(k), bytes);
    assert Zeros(k) + bytes == low + high;
    Concatenated(low, high);
    var x := Word(bytes) * Pow256(k);
    assert x == Word(high) * Pow256(n) + Word(low);
    Remainder(x, Pow256(n), Word(high), Word(low));
    assert x % Pow256(n) == Word(low);
  }

  lemma {:induction false} Swapped(bytes: seq<byte>, k: nat)
    requires |bytes| == 2 * k
    ensures Or(ShiftLeft(Word(bytes), k, |bytes|), ShiftRight(Word(bytes), k))
         == Word(bytes[k..] + bytes[..k])
  {
    ShiftedLeft(bytes, k);
    ShiftedRight(bytes, k);
    Joined(Zeros(k) + bytes[..k], bytes[k..] + Zeros(k), bytes[k..] + bytes[..k]);
  }

  lemma {:induction false} Reverses16(b: seq<byte>)
    requires |b| == 2
    ensures Reverse16(Word(b)) == Word([b[1], b[0]])
  {
    Swapped(b, 1);
    assert b[1..] + b[..1] == [b[1], b[0]];
  }

  lemma {:induction false} Masks32()
    ensures Word(Ones([false, true, false, true])) == 0xff00ff00
    ensures Word(Ones([true, false, true, false])) == 0x00ff00ff
  {
    assert Ones([false, true, false, true]) == [0, 255, 0, 255];
    assert Ones([true, false, true, false]) == [255, 0, 255, 0];
  }

  lemma {:induction false} LeftOfMask(bytes: seq<byte>, pattern: seq<bool>, k: nat, mask: nat, moved: seq<byte>)
    requires |bytes| == |pattern| == |moved| && k <= |bytes| && mask == Word(Ones(pattern))
    requires forall i :: 0 <= i < |moved| ==>
               moved[i] == if i >= k && pattern[i - k] then bytes[i - k] else 0
    ensures ShiftLeft(And(Word(bytes), mask), k, |bytes|) == Word(moved)
  {
    Masked(bytes, pattern);
    var kept := Kept(bytes, pattern);
    ShiftedLeft(kept, k);
    assert Zeros(k) + kept[..|kept| - k] == moved;
  }

  lemma {:induction false} RightOfMask(bytes: seq<byte>, pattern: seq<bool>, k: nat, mask: nat, moved: seq<byte>)
    requires |bytes| == |pattern| == |moved| && k <= |bytes| && mask == Word(Ones(pattern))
    requires forall i :: 0 <= i < |moved| ==>
               moved[i] == if i + k < |bytes| && pattern[i + k] then bytes[i + k] else 0
    ensures ShiftRight(And(Word(bytes), mask), k) == Word(moved)
  {
    Masked(bytes, pattern);
    var kept := Kept(bytes, pattern);
    ShiftedRight(kept, k);
    assert kept[k..] + Zeros(k) == moved;
  }

  lemma {:induction false} MaskOfLeft(bytes: seq<byte>, pattern: seq<bool>, k: nat, kept: seq<byte>)
    requires |bytes| == |pattern| == |kept| && k <= |bytes|
    requires forall i :: 0 <= i < |kept| ==>
               kept[i] == if i >= k && pattern[i] then bytes[i - k] else 0
    ensures And(ShiftLeft(Word(bytes), k, |bytes|), Word(Ones(pattern))) == Word(kept)
  {
    ShiftedLeft(bytes, k);
    var moved := Zeros(k) + bytes[..|bytes| - k];
    Masked(moved, pattern);
    assert Kept(moved, pattern) == kept;
  }

  lemma {:induction false} MaskOfRight(bytes: seq<byte>, pattern: seq<bool>, k: nat, kept: seq<byte>)
    requires |bytes| == |pattern| == |kept| && k <= |bytes|
    requires forall i :: 0 <= i < |kept| ==>
               kept[i] == if i + k < |bytes| && pattern[i] then bytes[i + k] else 0
    ensures And(ShiftRight(Word(bytes), k), Word(Ones(pattern))) == Word(kept)
  {
    ShiftedRight(bytes, k);
    var moved := bytes[k..] + Zeros(k);
    Masked(moved, pattern);
    assert Kept(moved, pattern) == kept;
  }

  lemma {:induction false} PairsSwapped32(b: seq<byte>)
    requires |b| == 4
    ensures Or(And(ShiftLeft(Word(b), 1, 4), 0xff00ff00), And(ShiftRight(Word(b), 1), 0x00ff00ff))
         == Word([b[1], b[0], b[3], b[2]])
  {
    Masks32();
    var left, right := [0, b[0], 0, b[2]], [b[1], 0, b[3], 0];
    MaskOfLeft(b, [false, true, false, true], 1, left);
    MaskOfRight(b, [true, false, true, false], 1, right);
    Joined(left, right, [b[1], b[0], b[3], b[2]]);
  }

  lemma {:induction false} Reverses32(b: seq<byte>)
    requires |b| == 4
    ensures Reverse32(Word(b)) == Word([b[3], b[2], b[1], b[0]])
  {
    Swapped(b, 2);
    var step16 := [b[2], b[3], b[0], b[1]];
    assert b[2..] + b[..2] == step16;
    assert Or(ShiftLeft(Word(b), 2, 4), ShiftRight(Word(b), 2)) == Word(step16);
    PairsSwapped32(step16);
  }

  lemma {:induction false} HalfMasks32()
    ensures Word(Ones([true, true, false, false])) == 0x0000FFFF
    ensures Word(Ones([false, false, true, true])) == 0xFFFF0000
  {
    assert Ones([true, true, false, false]) == [255, 255, 0, 0];
    assert Ones([false, false, true, true]) == [0, 0, 255, 255];
  }

  lemma {:induction false} Masks64()
    ensures Word(Ones([true, true, false, false, true, true, false, false])) == 0x0000FFFF0000FFFF
    ensures Word(Ones([false, false, true, true, false, false, true, true])) == 0xFFFF0000FFFF0000
    ensures Word(Ones([true, false, true, false, true, false, true, false])) == 0x00FF00FF00FF00FF
    ensures Word(Ones([false, true, false, true, false, true, false, true])) == 0xFF00FF00FF00FF00
  {
    Masks32();
    HalfMasks32();
    MaskTwice([true, true, false, false], [true, true, false, false, true, true, false, false]);
    MaskTwice([false, false, true, true], [false, false, true, true, false, false, true, true]);
    MaskTwice([true, false, true, false], [true, false, true, false, true, false, true, false]);
    MaskTwice([false, true, false, true], [false, true, false, true, false, true, false, true]);
  }

  lemma {:induction false} MaskTwice(pattern: seq<bool>, twice: seq<bool>)
    requires |pattern| == 4 && twice == pattern + pattern
    ensures Word(Ones(twice)) == 0x100000001 * Word(Ones(pattern))
  {
    assert Ones(twice) == Ones(pattern) + Ones(pattern);
    Concatenated(Ones(pattern), Ones(pattern));
    assert Pow256(4) == 0x100000000;
  }

  lemma {:induction false} PairsLeft64(b: seq<byte>)
    requires |b| == 8
    ensures ShiftLeft(And(Word(b), 0x0000FFFF0000FFFF), 2, 8)
         == Word([0, 0, b[0], b[1], 0, 0, b[4], b[5]])
  {
    var pattern := [true, true, false, false, true, true, false, false];
    assert Word(Ones(pattern)) == 0x0000FFFF0000FFFF by {
      Masks64();
    }
    LeftOfMask(b, pattern, 2, 0x0000FFFF0000FFFF, [0, 0, b[0], b[1], 0, 0, b[4], b[5]]);
  }

  lemma {:induction false} PairsRight64(b: seq<byte>)
    requires |b| == 8
    ensures ShiftRight(And(Word(b), 0xFFFF0000FFFF0000), 2)
         == Word([b[2], b[3], 0, 0, b[6], b[7], 0, 0])
  {
    var pattern := [false, false, true, true, false, false, true, true];
    assert Word(Ones(pattern)) == 0xFFFF0000FFFF0000 by {
      Masks64();
    }
    RightOfMask(b, pattern, 2, 0xFFFF0000FFFF0000, [b[2], b[3], 0, 0, b[6], b[7], 0, 0]);
  }

  lemma {:induction false} PairsSwapped64(b: seq<byte>)
    requires |b| == 8
    ensures Or(ShiftLeft(And(Word(b), 0x0000FFFF0000FFFF), 2, 8), ShiftRight(And(Word(b), 0xFFFF0000FFFF0000), 2))
         == Word([b[2], b[3], b[0], b[1], b[6], b[7], b[4], b[5]])
  {
    PairsLeft64(b);
    PairsRight64(b);
    Joined([0, 0, b[0], b[1], 0, 0, b[4], b[5]], [b[2], b[3], 0, 0, b[6], b[7], 0, 0],
           [b[2], b[3], b[0], b[1], b[6], b[7], b[4], b[5]]);
  }

  lemma {:induction false} BytesLeft64(b: seq<byte>)
    requires |b| == 8
    ensures ShiftLeft(And(Word(b), 0x00FF00FF00FF00FF), 1, 8)
         == Word([0, b[0], 0, b[2], 0, b[4], 0, b[6]])
  {
    var pattern := [true, false, true, false, true, false, true, false];
    assert Word(Ones(pattern)) == 0x00FF00FF00FF00FF by {
      Masks64();
    }
    LeftOfMask(b, pattern, 1, 0x00FF00FF00FF00FF, [0, b[0], 0, b[2], 0, b[4], 0, b[6]]);
  }

  lemma {:induction false} BytesRight64(b: seq<byte>)
    requires |b| == 8
    ensures ShiftRight(And(Word(b), 0xFF00FF00FF00FF00), 1)
         == Word([b[1], 0, b[3], 0, b[5], 0, b[7], 0])
  {
    var pattern := [false, true, false, true, false, true, false, true];
    assert Word(Ones(pattern)) == 0xFF00FF00FF00FF00 by {
      Masks64();
    }
    RightOfMask(b, pattern, 1, 0xFF00FF00FF00FF00, [b[1], 0, b[3], 0, b[5], 0, b[7], 0]);
  }

  lemma {:induction false} BytesSwapped64(b: seq<byte>)
    requires |b| == 8
    ensures Or(ShiftLeft(And(Word(b), 0x00FF00FF00FF00FF), 1, 8), ShiftRight(And(Word(b), 0xFF00FF00FF00FF00), 1))
         == Word([b[1], b[0], b[3], b[2], b[5], b[4], b[7], b[6]])
  {
    BytesLeft64(b);
    BytesRight64(b);
    Joined([0, b[0], 0, b[2], 0, b[4], 0, b[6]], [b[1], 0, b[3], 0, b[5], 0, b[7], 0],
           [b[1], b[0], b[3], b[2], b[5], b[4], b[7], b[6]]);
  }

  lemma {:induction false} Reverses64(b: seq<byte>)
    requires |b| == 8
    ensures Reverse64(Word(b)) == Word([b[7], b[6], b[5], b[4], b[3], b[2], b[1], b[0]])
  {
    Swapped(b, 4);
    var step32 := [b[4], b[5], b[6], b[7], b[0], b[1], b[2], b[3]];
    assert b[4..] + b[..4] == step32;
    PairsSwapped64(step32);
    BytesSwapped64([b[6], b[7], b[4], b[5], b[2], b[3], b[0], b[1]]);
  }

  lemma WordIsLoad(bytes: seq<byte>)
    requires bytes != []
    ensures LoadLittle(bytes, false) == Word(bytes)
    decreases |bytes|
  {
    if |bytes| > 1 {
      WordIsLoad(bytes[1..]);
    } else {
      assert bytes[1..] == [];
    }
  }

  lemma {:induction false} WordReversed(b: seq<byte>)
    requires |b| in {2, 4, 8}
    ensures Word(Reversed(b))
         == if |b| == 2 then Reverse16(Word(b)) else if |b| == 4 then Reverse32(Word(b)) else Reverse64(Word(b))
  {
    var r := Reversed(b);
    forall i | 0 <= i < |b|
      ensures r[i] == b[|b| - 1 - i]
    {
      ReversedAt(b, i);
    }
    if |b| == 2 {
      Reverses16(b);
      assert r == [b[1], b[0]];
    } else if |b| == 4 {
      Reverses32(b);
      assert r == [b[3], b[2], b[1], b[0]];
    } else {
      Reverses64(b);
      assert r == [b[7], b[6], b[5], b[4], b[3], b[2], b[1], b[0]];
    }
  }

  lemma {:induction false} ReversedAt<X>(s: seq<X>, i: nat)
    requires i < |s|
    ensures Reversed(s)[i] == s[|s| - 1 - i]
  {
    if i < |s| - 1 {
      ReversedAt(s[1..], i);
    }
  }

  /** The shifts and masks do what reversing the bytes in memory does. */
  lemma ReversalReversesBytes(x: int, n: nat, signed: bool)
    requires n in {1, 2, 4, 8} && Fits(x, n, signed)
    ensures EndianReverse(x, n, signed) == LoadLittle(Reversed(StoreLittle(x, n)), signed)
  {
    var b := StoreLittle(x, n);
    var r := Reversed(b);
    SurvivesIffFits(x, n, signed);
    if n == 1 {
      assert r == b;
    } else {
      WordIsLoad(b);
      LoadAfterStore(x, n, false);
      WordReversed(b);
      WordIsLoad(r);
      StoreAfterLoad(r, false);
      LoadAfterStore(Word(r), n, signed);
    }
  }

  lemma ReversalIsItsOwnInverse(x: int, n: nat, signed: bool)
    requires n in {1, 2, 4, 8} && Fits(x, n, signed)
    ensures Fits(EndianReverse(x, n, signed), n, signed)
    ensures EndianReverse(EndianReverse(x, n, signed), n, signed) == x
  {
    var b := StoreLittle(x, n);
    var y := EndianReverse(x, n, signed);
    ReversalReversesBytes(x, n, signed);
    ReversalReversesBytes(y, n, signed);
    StoreAfterLoad(Reversed(b), signed);
    ReversedTwice(b);
    SurvivesIffFits(x, n, signed);
  }

  /** The native image of the reversed word is the big-endian image of the word. */
  lemma NativeImageOfReversal(x: int, n: nat, signed: bool)
    requires n in {1, 2, 4, 8} && Fits(x, n, signed)
    ensures StoreLittle(EndianReverse(x, n, signed), n) == StoreBig(x, n)
  {
    ReversalReversesBytes(x, n, signed);
    StoredFromBothEnds(x, n);
    ReversedTwice(StoreBig(x, n));
    StoreAfterLoad(StoreBig(x, n), signed);
  }

  /** An aligned big-endian buffer on a little-endian machine: a native word. */
  class AlignedBigBuffer {
    var word: int
    const width: nat
    const signed: bool

    ghost predicate Valid()
      reads this
    {
      width in {2, 4, 8} && Fits(word, width, signed)
    }

    /** The bytes of the word in memory. */
    function Data(): seq<byte>
      reads this
    {
      StoreLittle(word, width)
    }

    constructor (value: int, width: nat, signed: bool)
      requires width in {2, 4, 8} && Fits(value, width, signed)
      ensures Valid() && this.width == width && this.signed == signed
      ensures Data() == StoreBig(value, width) && Value() == value
    {
      this.width, this.signed := width, signed;
      word := EndianReverse(value, width, signed);
      new;
      ReversalIsItsOwnInverse(value, width, signed);
      NativeImageOfReversal(value, width, signed);
    }

    method Assign(value: int)
      requires Valid() && Fits(value, width, signed)
      modifies this
      ensures Valid() && Value() == value
      ensures Data() == StoreBig(value, width)
    {
      word := EndianReverse(value, width, signed);
      ReversalIsItsOwnInverse(value, width, signed);
      NativeImageOfReversal(value, width, signed);
    }

    function Value(): int
      requires Valid()
      reads this
    {
      EndianReverse(word, width, signed)
    }
  }
}
