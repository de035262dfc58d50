/** The string hash that seeds the price simulators: a base-31 polynomial with
    signed 32-bit wrap-around. */
module StringHash {
  import opened Products

  /** A UTF-16 code unit, as charCodeAt returns it. */
  type CodeUnit = c: int | 0 <= c < 0x1_0000

  /** ToInt32, section 7.1.6 of ECMA-262. */
  function ToInt32(x: int): (r: int)
    ensures -0x8000_0000 <= r < 0x8000_0000
  {
    var r := x % 0x1_0000_0000;
    if r >= 0x8000_0000 then r - 0x1_0000_0000 else r
  }

  /** The signed residue differs from its argument by whole turns of 2^32. */
  function Turns(x: int): (q: int)
    ensures x == ToInt32(x) + 0x1_0000_0000 * q
  {
    x / 0x1_0000_0000 + if x % 0x1_0000_0000 >= 0x8000_0000 then 1 else 0
  }

  lemma ResidueUnique(x: int, r: int, q: int)
    requires -0x8000_0000 <= r < 0x8000_0000
    requires x == r + 0x1_0000_0000 * q
    ensures ToInt32(x) == r
  {
    if r >= 0 {
      assert x % 0x1_0000_0000 == r;
    } else {
      assert x == (r + 0x1_0000_0000) + 0x1_0000_0000 * (q - 1);
      assert x % 0x1_0000_0000 == r + 0x1_0000_0000;
    }
  }

  lemma SameResidueBy(x: int, y: int, k: int)
    requires x == y + 0x1_0000_0000 * k
    ensures ToInt32(x) == ToInt32(y)
  {
    ResidueUnique(x, ToInt32(y), Turns(y) + k);
  }

  /** The signed residues of two numbers agree exactly when 2^32 divides their difference. */
  lemma SameResidue(x: int, y: int)
    ensures ToInt32(x) == ToInt32(y) <==> (x - y) % 0x1_0000_0000 == 0
  {
    if ToInt32(x) == ToInt32(y) {
      assert x - y == 0x1_0000_0000 * (Turns(x) - Turns(y));
    }
    if (x - y) % 0x1_0000_0000 == 0 {
      SameResidueBy(x, y, (x - y) / 0x1_0000_0000);
    }
  }

  function Abs(x: int): nat { if x < 0 then -x else x }

  function Pow(b: int, n: nat): int
  {
    if n == 0 then 1 else Mul(b, Pow(b, n - 1))
  }

  /** The base-31 polynomial of a string: the sum of s[i] * 31^(|s|-1-i). */
  function Poly31(s: seq<CodeUnit>): int
  {
    if s == [] then 0 else Mul(s[0], Pow(31, |s| - 1)) + Poly31(s[1..])
  }

  lemma {:induction false} PowAdd(b: int, i: nat, j: nat)
    ensures Pow(b, i + j) == Mul(Pow(b, i), Pow(b, j))
  {
    if i > 0 {
      PowAdd(b, i - 1, j);
      MulAssoc(b, Pow(b, i - 1), Pow(b, j));
    }
  }

  /** Concatenation shifts the first operand by 31^|t|. */
  lemma {:induction false} Poly31Concat(s: seq<CodeUnit>, t: seq<CodeUnit>)
    ensures Poly31(s + t) == Mul(Poly31(s), Pow(31, |t|)) + Poly31(t)
  {
    if s == [] {
      assert s + t == t;
    } else {
      Poly31Concat(s[1..], t);
      assert (s + t)[1..] == s[1..] + t;
      PowAdd(31, |s| - 1, |t|);
      MulAssoc(s[0], Pow(31, |s| - 1), Pow(31, |t|));
      MulAdd(Mul(s[0], Pow(31, |s| - 1)), Poly31(s[1..]), Pow(31, |t|));
    }
  }

  /** One round of the loop, wrapped three times, is one exact round wrapped once. */
  lemma WrapRound(hash: int, exact: int, c: CodeUnit)
    requires hash == ToInt32(exact)
    ensures ToInt32(ToInt32(hash * 32) - hash + c) == ToInt32(exact * 31 + c)
  {
    var p, q := Turns(exact), Turns(hash * 32);
    SameResidueBy(ToInt32(hash * 32) - hash + c, exact * 31 + c, -q - 31 * p);
  }

  /** The hash loop computes the absolute value of the signed 32-bit residue of
      the base-31 polynomial. */
  method HashString(str: seq<CodeUnit>) returns (r: int)
    ensures r == Abs(ToInt32(Poly31(str)))
    ensures 0 <= r <= 0x8000_0000
  {
    var hash := 0;
    var i := 0;
    while i < |str|
      invariant 0 <= i <= |str|
      invariant hash == ToInt32(Poly31(str[..i]))
    {
      var code := str[i];
      WrapRound(hash, Poly31(str[..i]), code);
      Poly31Concat(str[..i], [code]);
      assert str[..i + 1] == str[..i] + [code];
      assert Pow(31, 1) == 31 && Pow(31, 0) == 1;
      assert Poly31([code]) == code;
      hash := ToInt32(hash * 32) - hash + code;
      hash := ToInt32(hash);
      i := i + 1;
    }
    assert str[..i] == str;
    r := Abs(hash);
  }

  /** Two residues are opposite, or both the one value without an opposite,
      exactly when 2^32 divides the sum. */
  lemma OppositeResidues(x: int, y: int)
    ensures (x + y) % 0x1_0000_0000 == 0
       <==> ToInt32(x) == -ToInt32(y) || ToInt32(x) == ToInt32(y) == -0x8000_0000
  {
    var r := if ToInt32(y) == -0x8000_0000 then -0x8000_0000 else -ToInt32(y);
    var k := if ToInt32(y) == -0x8000_0000 then 1 - Turns(y) else -Turns(y);
    assert -y == r + 0x1_0000_0000 * k;
    ResidueUnique(-y, r, k);
    SameResidue(x, -y);
    assert x - (-y) == x + y;
  }

  /** Two strings seed the generator alike exactly when their polynomials agree
      modulo 2^32 up to sign. */
  lemma HashCollision(s: seq<CodeUnit>, t: seq<CodeUnit>)
    ensures Abs(ToInt32(Poly31(s))) == Abs(ToInt32(Poly31(t)))
       <==> (Poly31(s) - Poly31(t)) % 0x1_0000_0000 == 0 || (Poly31(s) + Poly31(t)) % 0x1_0000_0000 == 0
  {
    SameResidue(Poly31(s), Poly31(t));
    OppositeResidues(Poly31(s), Poly31(t));
  }

  /** "market", a seed whose polynomial wraps: 3213661244 becomes -1081306052. */
  lemma MarketHash()
    ensures Abs(ToInt32(Poly31([109, 97, 114, 107, 101, 116]))) == 1_081_306_052
  {
    var m: seq<CodeUnit> := [109, 97, 114, 107, 101, 116];
    assert Pow(31, 0) == 1 && Pow(31, 1) == 31 && Pow(31, 2) == 961 && Pow(31, 3) == 29_791;
    assert Pow(31, 4) == 923_521 && Pow(31, 5) == 28_629_151;
    assert m[1..] == [97, 114, 107, 101, 116] && m[1..][1..] == [114, 107, 101, 116];
    assert m[1..][1..][1..] == [107, 101, 116] && m[1..][1..][1..][1..] == [101, 116];
    assert Poly31([101, 116]) == 3_247;
    assert Poly31([107, 101, 116]) == 106_074;
    assert Poly31([114, 107, 101, 116]) == 3_502_248;
    assert Poly31([97, 114, 107, 101, 116]) == 93_083_785;
    assert Poly31(m) == 3_213_661_244;
  }
}
