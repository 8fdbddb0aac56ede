/** Integers as bytes in memory, in either order: the recursive loads and stores behind the
    endian buffers. A type is its width in bytes and whether it is signed. */
module Endian {

  type byte = b: int | 0 <= b < 256

  function Reversed<X>(s: seq<X>): (r: seq<X>)
    ensures |r| == |s|
  {
    if s == [] then [] else Reversed(s[1..]) + [s[0]]
  }

  /** A lone byte read as the given signedness. */
  function Single(b: byte, signed: bool): int {
    if signed && b >= 128 then b - 256 else b
  }

  /** The bytes end where the given sequence ends; the last is the least significant. */
  function LoadBig(bytes: seq<byte>, signed: bool): int
    requires bytes != []
  {
    var n := |bytes|;
    if n == 1 then Single(bytes[0], signed)
    else bytes[n - 1] + 256 * LoadBig(bytes[..n - 1], signed)
  }

  function LoadLittle(bytes: seq<byte>, signed: bool): int
    requires bytes != []
  {
    if |bytes| == 1 then Single(bytes[0], signed)
    else bytes[0] + 256 * LoadLittle(bytes[1..], signed)
  }

  function StoreBig(value: int, n: nat): (bytes: seq<byte>)
    ensures |bytes| == n
    decreases n
  {
    if n == 0 then [] else StoreBig(value / 256, n - 1) + [value % 256]
  }

  function StoreLittle(value: int, n: nat): (bytes: seq<byte>)
    ensures |bytes| == n
    decreases n
  {
    if n == 0 then [] else [value % 256] + StoreLittle(value / 256, n - 1)
  }

  function Pow256(n: nat): (p: int)
    ensures p > 0
  {
    if n == 0 then 1 else 256 * Pow256(n - 1)
  }

  /** What `n` bytes can hold. */
  predicate Fits(value: int, n: nat, signed: bool) {
    if signed then -Pow256(n) <= 2 * value < Pow256(n) else 0 <= value < Pow256(n)
  }

  /** The low `n` bytes of a value, sign-extended if signed. */
  function Low(value: int, n: nat, signed: bool): (x: int)
    ensures Fits(x, n, signed)
  {
    Extended(value % Pow256(n), Pow256(n), signed)
  }

  /** The upper half of the `p` values that the bytes can take is negative if they are signed. */
  function Extended(m: int, p: int, signed: bool): int {
    if signed && 2 * m >= p then m - p else m
  }

  /** It differs from the value by what the other bytes count. */
  lemma LowIsCongruent(value: int, n: nat, signed: bool)
    ensures Low(value, n, signed) % Pow256(n) == value % Pow256(n)
  {
    var p, m := Pow256(n), value % Pow256(n);
    Remainder(m - p, p, -1, m);
    Remainder(m, p, 0, m);
  }

  // ----- Which byte is where -----

  /** Big-endian: the first byte counts most. */
  lemma {:induction false} StoreBigAtPlace(value: int, n: nat, i: nat)
    requires i < n
    ensures StoreBig(value, n)[i] == value / Pow256(n - 1 - i) % 256
    decreases n
  {
    if i < n - 1 {
      StoreBigAtPlace(value / 256, n - 1, i);
      var p := Pow256(n - 2 - i);
      assert Pow256(n - 1 - i) == 256 * p;
      DividedTwice(value, p);
    } else {
      assert Pow256(0) == 1;
    }
  }

  /** Little-endian: the first byte counts least. */
  lemma {:induction false} StoreLittleAtPlace(value: int, n: nat, i: nat)
    requires i < n
    ensures StoreLittle(value, n)[i] == value / Pow256(i) % 256
    decreases n
  {
    if i > 0 {
      StoreLittleAtPlace(value / 256, n - 1, i - 1);
      DividedTwice(value, Pow256(i - 1));
    } else {
      assert Pow256(0) == 1;
    }
  }

  lemma DividedTwice(value: int, p: int)
    requires p > 0
    ensures value / 256 / p == value / (256 * p)
  {
    var q := value / 256 / p;
    RemainderByByte(value, p);
    assert value / 256 == q * p + value / 256 % p;
    assert 256 * (q * p) == q * (256 * p);
    Remainder(value, 256 * p, q, value % 256 + 256 * (value / 256 % p));
  }

  // ----- Loading what was stored -----

  lemma Remainder(value: int, d: int, q: int, r: int)
    requires 0 <= r < d && value == q * d + r
    ensures value % d == r && value / d == q
  {
    Multiple(value / d - q, d);
    assert (value / d - q) * d == r - value % d;
  }

  lemma Multiple(k: int, d: int)
    requires d > 0
    ensures k > 0 ==> k * d >= d
    ensures k < 0 ==> k * d <= -d
  {
  }

  lemma StoredFromBothEnds(value: int, n: nat)
    ensures StoreLittle(value, n) == Reversed(StoreBig(value, n))
    decreases n
  {
    if n > 0 {
      StoredFromBothEnds(value / 256, n - 1);
      ReversedAppend<byte>(StoreBig(value / 256, n - 1), value % 256);
      assert StoreBig(value, n) == StoreBig(value / 256, n - 1) + [value % 256];
    }
  }

  lemma ReversedAppend<X>(s: seq<X>, x: X)
    ensures Reversed(s + [x]) == [x] + Reversed(s)
  {
    if s == [] {
      assert s + [x] == [x];
    } else {
      assert (s + [x])[1..] == s[1..] + [x];
      ReversedAppend(s[1..], x);
    }
  }

  /** One byte more of remainder. */
  lemma RemainderByByte(value: int, p: int)
    requires p > 0
    ensures value % (256 * p) == value % 256 + 256 * (value / 256 % p)
  {
    var q := value / 256 / p;
    assert value / 256 == q * p + value / 256 % p;
    assert 256 * (q * p) == q * (256 * p);
    Remainder(value, 256 * p, q, value % 256 + 256 * (value / 256 % p));
  }

  lemma {:induction false} LowByByte(value: int, n: nat, signed: bool)
    requires n > 0
    ensures n == 1 ==> Low(value, n, signed) == Single(value % 256, signed)
    ensures n > 1 ==> Low(value, n, signed) == value % 256 + 256 * Low(value / 256, n - 1, signed)
  {
    var p := Pow256(n - 1);
    assert Pow256(n) == 256 * p;
    if n == 1 {
      assert p == 1;
    } else {
      assert p == 2 * (128 * Pow256(n - 2));
      RemainderByByte(value, p);
      ExtendedByByte(value / 256 % p, value % 256, p, signed);
    }
  }

  /** The byte below does not matter for the sign. */
  lemma ExtendedByByte(m: int, b: byte, p: int, signed: bool)
    requires p % 2 == 0
    ensures Extended(b + 256 * m, 256 * p, signed) == b + 256 * Extended(m, p, signed)
  {
  }

  lemma {:induction false} LoadLittleStored(value: int, n: nat, signed: bool)
    requires n > 0
    ensures LoadLittle(StoreLittle(value, n), signed) == Low(value, n, signed)
    decreases n
  {
    LowByByte(value, n, signed);
    var rest := StoreLittle(value / 256, n - 1);
    var bytes := StoreLittle(value, n);
    assert bytes == [value % 256] + rest && bytes[0] == value % 256 && bytes[1..] == rest;
    if n > 1 {
      LoadLittleStored(value / 256, n - 1, signed);
      assert LoadLittle(bytes, signed) == bytes[0] + 256 * LoadLittle(rest, signed);
    }
  }

  lemma {:induction false} LoadsAgree(bytes: seq<byte>, signed: bool)
    requires bytes != []
    ensures LoadBig(Reversed(bytes), signed) == LoadLittle(bytes, signed)
    decreases |bytes|
  {
    if |bytes| > 1 {
      var r := Reversed(bytes);
      assert r[..|r| - 1] == Reversed(bytes[1..]);
      LoadsAgree(bytes[1..], signed);
    }
  }

  lemma ReversedTwice<X>(s: seq<X>)
    ensures Reversed(Reversed(s)) == s
  {
    if s != [] {
      ReversedTwice(s[1..]);
      ReversedAppend(Reversed(s[1..]), s[0]);
    }
  }

  /** For every width, both orders give back the low bytes of the value, extended by its sign
      for signed types, and the two images in memory are reverses of each other. */
  lemma LoadAfterStore(value: int, n: nat, signed: bool)
    requires n > 0
    ensures LoadBig(StoreBig(value, n), signed) == Low(value, n, signed)
    ensures LoadLittle(StoreLittle(value, n), signed) == Low(value, n, signed)
    ensures StoreLittle(value, n) == Reversed(StoreBig(value, n))
  {
    LoadLittleStored(value, n, signed);
    StoredFromBothEnds(value, n);
    LoadsAgree(StoreLittle(value, n), signed);
    ReversedTwice(StoreBig(value, n));
  }

  /** A value survives a width exactly when that width can hold it. */
  lemma SurvivesIffFits(value: int, n: nat, signed: bool)
    requires n > 0
    ensures LoadBig(StoreBig(value, n), signed) == value <==> Fits(value, n, signed)
    ensures LoadLittle(StoreLittle(value, n), signed) == value <==> Fits(value, n, signed)
  {
    LoadAfterStore(value, n, signed);
    if Fits(value, n, signed) {
      var p := Pow256(n);
      if value >= 0 {
        Remainder(value, p, 0, value);
      } else {
        Remainder(value, p, -1, value + p);
      }
    }
  }

  /** Bytes survive being loaded and stored again. */
  lemma {:induction false} StoreAfterLoad(bytes: seq<byte>, signed: bool)
    requires bytes != []
    ensures StoreLittle(LoadLittle(bytes, signed), |bytes|) == bytes
    ensures StoreBig(LoadBig(bytes, signed), |bytes|) == bytes
  {
    StoreAfterLoadLittle(bytes, signed);
    var r := Reversed(bytes);
    StoreAfterLoadLittle(r, signed);
    LoadsAgree(r, signed);
    ReversedTwice(bytes);
    StoredFromBothEnds(LoadBig(bytes, signed), |bytes|);
    ReversedTwice(StoreBig(LoadBig(bytes, signed), |bytes|));
  }

  lemma LoadFits(bytes: seq<byte>, signed: bool)
    requires bytes != []
    ensures Fits(LoadBig(bytes, signed), |bytes|, signed)
  {
    StoreAfterLoad(bytes, signed);
    LoadAfterStore(LoadBig(bytes, signed), |bytes|, signed);
  }

  lemma {:induction false} StoreAfterLoadLittle(bytes: seq<byte>, signed: bool)
    requires bytes != []
    ensures StoreLittle(LoadLittle(bytes, signed), |bytes|) == bytes
    decreases |bytes|
  {
    var x, n := LoadLittle(bytes, signed), |bytes|;
    assert StoreLittle(x, n) == [x % 256] + StoreLittle(x / 256, n - 1);
    if n > 1 {
      var y := LoadLittle(bytes[1..], signed);
      StoreAfterLoadLittle(bytes[1..], signed);
      assert x == y * 256 + bytes[0];
      Remainder(x, 256, y, bytes[0]);
      assert StoreLittle(x, n) == [bytes[0]] + StoreLittle(y, n - 1);
      assert bytes == [bytes[0]] + bytes[1..];
    }
  }

  // ----- In place -----

  /** Writes the last of the `n` bytes that end at `end`, then the ones before it. */
  method StoreBigAt(a: array<byte>, end: nat, n: nat, value: int)
    requires 0 < n <= end <= a.Length
    modifies a
    ensures a[..] == old(a[..end - n]) + StoreBig(value, n) + old(a[end..])
    decreases n
  {
    a[end - 1] := value % 256;
    if n > 1 {
      StoreBigAt(a, end - 1, n - 1, value / 256);
      assert a[..] == old(a[..end - n]) + StoreBig(value / 256, n - 1) + [value % 256] + old(a[end..]);
    } else {
      assert StoreBig(value / 256, 0) == [];
    }
  }

  /** Writes the first of the `n` bytes from `start`, then the ones after it. */
  method StoreLittleAt(a: array<byte>, start: nat, n: nat, value: int)
    requires 0 < n && start + n <= a.Length
    modifies a
    ensures a[..] == old(a[..start]) + StoreLittle(value, n) + old(a[start + n..])
    decreases n
  {
    a[start] := value % 256;
    assert StoreLittle(value, n) == [value % 256] + StoreLittle(value / 256, n - 1);
    if n > 1 {
      StoreLittleAt(a, start + 1, n - 1, value / 256);
    } else {
      assert StoreLittle(value / 256, 0) == [];
    }
  }

  /** An unaligned big-endian buffer: as many bytes as its type is wide. */
  class BigBuffer {
    const bytes: array<byte>
    const signed: bool

    constructor (width: nat, signed: bool)
      requires width > 0
      ensures fresh(bytes) && bytes.Length == width && this.signed == signed
    {
      bytes := new byte[width];
      this.signed := signed;
    }

    /** Assignment of a value of any wider type keeps its low bytes. */
    method Assign(value: int)
      requires bytes.Length > 0
      modifies bytes
      ensures Value() == Low(value, bytes.Length, signed)
      ensures bytes[..] == StoreBig(value, bytes.Length)
    {
      StoreBigAt(bytes, bytes.Length, bytes.Length, value);
      assert bytes[..] == StoreBig(value, bytes.Length);
      LoadAfterStore(value, bytes.Length, signed);
    }

    function Value(): int
      requires bytes.Length > 0
      reads bytes
    {
      LoadBig(bytes[..], signed)
    }
  }
}
