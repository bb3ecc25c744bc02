/**
 The random order of Pins: a key computed from the Pin's id by an affine map
 modulo the prime 2^31 - 1. The modulus is proved prime by a certificate, and
 from that the map is proved injective on residues for every seed.
 */
module RandomOrder {
  const PRIME: int := 2147483647
  const MAX_RANDOM_SEED: int := 2147483646

  datatype Coefficients = Coefficients(multiplier: int, increment: int)

  function RandomCoefficients(seed: int): Coefficients
  {
    Coefficients(1 + (seed * 1103515245 + 12345) % (PRIME - 1), (seed * 1664525 + 1013904223) % PRIME)
  }

  function Key(seed: int, id: int): int {
    var c := RandomCoefficients(seed);
    ((id % PRIME) * c.multiplier + c.increment) % PRIME
  }

  /** Both coefficients come from linear congruences of the seed. */
  lemma NextSeed(seed: int)
    ensures var c, d := RandomCoefficients(seed), RandomCoefficients(seed + 1);
            && d.multiplier - 1 == (c.multiplier - 1 + 1103515245) % (PRIME - 1)
            && d.increment == (c.increment + 1664525) % PRIME
    ensures RandomCoefficients(0) == Coefficients(12346, 1013904223)
  {
    AddThenRemainder(seed * 1103515245 + 12345, 1103515245, PRIME - 1);
    AddThenRemainder(seed * 1664525 + 1013904223, 1664525, PRIME);
  }

  /** From each id to the next the key moves on by the multiplier. */
  lemma NextKey(seed: int, id: int)
    requires 0 <= seed <= MAX_RANDOM_SEED
    ensures Key(seed, id + 1) == (Key(seed, id) + RandomCoefficients(seed).multiplier) % PRIME
    ensures Key(seed, 0) == RandomCoefficients(seed).increment
  {
    var c := RandomCoefficients(seed);
    CoefficientsInRange(seed);
    hide RandomCoefficients;
    NextAffine(id, c.multiplier, c.increment, PRIME);
    UniqueRemainder(c.increment, 0, c.increment, PRIME);
  }

  lemma NextAffine(x: int, m: int, k: int, d: int)
    requires d > 0
    ensures (((x + 1) % d) * m + k) % d == (((x % d) * m + k) % d + m) % d
  {
    SameAffine(x + 1, m, k, d);
    AddThenRemainder((x % d) * m + k, m, d);
    SameAffine(x, m, k + m, d);
    assert (x + 1) * m + k == x * m + (k + m);
  }

  lemma SameAffine(x: int, m: int, k: int, d: int)
    requires d > 0
    ensures ((x % d) * m + k) % d == (x * m + k) % d
  {
    MulRemainderLeft(x, m, d);
    AddThenRemainder((x % d) * m, k, d);
    AddThenRemainder(x * m, k, d);
  }

  lemma AddThenRemainder(x: int, m: int, d: int)
    requires d > 0
    ensures (x % d + m) % d == (x + m) % d
  {
    AddMultiple(x % d + m, x / d, d);
  }

  // ---------------------------------------------------------------- divisibility

  ghost predicate Divides(d: int, x: int) {
    exists k :: x == d * k
  }

  lemma DividesSum(d: int, x: int, y: int, u: int, v: int)
    requires Divides(d, x) && Divides(d, y)
    ensures Divides(d, u * x + v * y)
  {
    var k :| x == d * k;
    var l :| y == d * l;
    assert u * x + v * y == d * (u * k + v * l) by {
      assert u * (d * k) == d * (u * k);
      assert v * (d * l) == d * (v * l);
    }
  }

  /** Equal remainders exactly when the difference is a multiple. */
  lemma SameRemainder(x: int, y: int, d: int)
    requires d > 0
    ensures x % d == y % d <==> Divides(d, x - y)
  {
    if x % d == y % d {
      assert x - y == d * (x / d - y / d);
    }
    if Divides(d, x - y) {
      var k :| x - y == d * k;
      AddMultiple(y, k, d);
      assert x == y + d * k;
    }
  }

  lemma AddMultiple(y: int, k: int, d: int)
    requires d > 0
    ensures (y + d * k) % d == y % d
  {
    var q, r := y / d, y % d;
    assert y + d * k == d * (q + k) + r;
    UniqueRemainder(y + d * k, q + k, r, d);
  }

  lemma UniqueRemainder(x: int, q: int, r: int, d: int)
    requires d > 0 && x == d * q + r && 0 <= r < d
    ensures x % d == r
  {
    var q', r' := x / d, x % d;
    assert d * (q - q') == r' - r;
    assert q - q' >= 1 ==> d * (q - q') >= d;
    assert q - q' <= -1 ==> d * (q - q') <= -d;
  }

  lemma MulRemainder(x: int, y: int, d: int)
    requires d > 0
    ensures ((x % d) * y) % d == (x * y) % d
    ensures ((x % d) * (y % d)) % d == (x * y) % d
  {
    MulRemainderLeft(x, y, d);
    MulRemainderLeft(y, x % d, d);
    assert (y % d) * (x % d) == (x % d) * (y % d) && y * (x % d) == (x % d) * y;
  }

  lemma MulRemainderLeft(x: int, y: int, d: int)
    requires d > 0
    ensures ((x % d) * y) % d == (x * y) % d
  {
    var q, r := x / d, x % d;
    assert x * y == r * y + d * (q * y) by { assert (d * q + r) * y == d * (q * y) + r * y; }
    AddMultiple(r * y, q * y, d);
  }

  /** A greatest common divisor with its coefficients. */
  lemma {:induction false} Bezout(a: int, b: int) returns (g: int, u: int, v: int)
    requires a > 0 && b >= 0
    ensures g > 0 && g == u * a + v * b && Divides(g, a) && Divides(g, b)
    decreases b
  {
    if b == 0 {
      g, u, v := a, 1, 0;
      assert a == a * 1 && b == a * 0;
    } else {
      var g', u', v' := Bezout(b, a % b);
      g, u, v := g', v', u' - (a / b) * v';
      assert a == b * (a / b) + a % b;
      assert u * a + v * b == v' * (a - b * (a / b)) + u' * b by {
        assert (u' - (a / b) * v') * b == u' * b - v' * (b * (a / b));
        assert v' * (a - b * (a / b)) == v' * a - v' * (b * (a / b));
      }
      DividesSum(g, b, a % b, a / b, 1);
      assert (a / b) * b + 1 * (a % b) == a;
    }
  }

  ghost predicate IsPrime(p: int) {
    p > 1 && forall d :: 1 < d < p ==> !Divides(d, p)
  }

  /** What is not a multiple of a prime has an inverse modulo it. */
  lemma Inverse(x: int, p: int) returns (u: int, v: int)
    requires IsPrime(p) && x > 0 && !Divides(p, x)
    ensures u * x + v * p == 1
  {
    var g, u', v' := Bezout(x, p);
    u, v := u', v';
    var _ := Cofactor(g, p);
    assert g != p;
  }

  /** A divisor of a positive number, and what it is multiplied by. */
  lemma Cofactor(d: int, x: int) returns (k: int)
    requires d > 0 && x > 0 && Divides(d, x)
    ensures x == d * k && 0 < k <= x && d <= x && x % d == 0 && x % k == 0 && Divides(k, x)
  {
    k :| x == d * k;
    Factors(d, k, x);
  }

  lemma Factors(d: int, k: int, x: int)
    requires d > 0 && x > 0 && x == d * k
    ensures 0 < k <= x && d <= x && x % d == 0 && x % k == 0 && Divides(k, x)
  {
    Positive(d, k);
    UniqueRemainder(x, k, 0, d);
    assert d * k == k * d;
    UniqueRemainder(x, d, 0, k);
  }

  lemma Positive(d: int, k: int)
    requires d > 0 && d * k > 0
    ensures k > 0 && d * k >= d && d * k >= k
  {
    assert k <= 0 ==> d * k <= 0;
    assert k >= 1 ==> (d - 1) * k >= 0 && d * (k - 1) >= 0;
  }

  /** Euclid's lemma. */
  lemma PrimeDivides(p: int, x: int, y: int)
    requires IsPrime(p) && x > 0 && Divides(p, x * y) && !Divides(p, x)
    ensures Divides(p, y)
  {
    var u, v := Inverse(x, p);
    assert y == u * (x * y) + (v * y) * p by {
      assert (u * x + v * p) * y == u * (x * y) + (v * y) * p;
    }
    assert p == p * 1;
    DividesSum(p, x * y, p, u, v * y);
  }

  // ---------------------------------------------------------------- powers

  /** c to the k, modulo d. */
  function Power(c: int, k: nat, d: int): int
    requires d > 0
    decreases d, k
  {
    if k == 0 then 1 % d else (c * Power(c, k - 1, d)) % d
  }

  lemma {:induction false} PowerSum(c: int, i: nat, j: nat, d: int)
    requires d > 0
    ensures Power(c, i + j, d) == (Power(c, i, d) * Power(c, j, d)) % d
    decreases i
  {
    if i == 0 {
      MulRemainder(1, Power(c, j, d), d);
      PowerRange(c, j, d);
    } else {
      PowerSum(c, i - 1, j, d);
      Shift(c, Power(c, i - 1, d), Power(c, j, d), d);
    }
  }

  lemma Shift(c: int, a: int, b: int, d: int)
    requires d > 0
    ensures (c * ((a * b) % d)) % d == (((c * a) % d) * b) % d
  {
    MulRemainder(a * b, c, d);
    MulRemainder(c * a, b, d);
    assert (a * b) * c == (c * a) * b;
    assert c * ((a * b) % d) == ((a * b) % d) * c;
  }

  lemma PowerRange(c: int, k: nat, d: int)
    requires d > 0
    ensures 0 <= Power(c, k, d) < d && Power(c, k, d) % d == Power(c, k, d)
  {
    UniqueRemainder(Power(c, k, d), 0, Power(c, k, d), d);
  }

  lemma {:induction false} PowerOfOne(c: int, i: nat, j: nat, d: int)
    requires d > 1 && Power(c, i, d) == 1
    ensures Power(c, i * j, d) == 1
    decreases j
  {
    if j > 0 {
      PowerOfOne(c, i, j - 1, d);
      assert i * j == i + i * (j - 1);
      PowerSum(c, i, i * (j - 1), d);
    } else {
      assert i * j == 0;
    }
  }

  /** Powers modulo a divisor. */
  lemma {:induction false} PowerModDivisor(c: int, k: nat, d: int, p: int)
    requires d > 0 && p > 0 && Divides(d, p)
    ensures Power(c, k, p) % d == Power(c, k, d)
  {
    if k == 0 {
      RemainderModDivisor(1, d, p);
    } else {
      PowerModDivisor(c, k - 1, d, p);
      var a := Power(c, k - 1, p);
      RemainderModDivisor(c * a, d, p);
      MulRemainder(a, c, d);
      assert a * c == c * a && (a % d) * c == c * (a % d);
    }
  }

  lemma RemainderModDivisor(x: int, d: int, p: int)
    requires d > 0 && p > 0 && Divides(d, p)
    ensures (x % p) % d == x % d
  {
    var k :| p == d * k;
    assert x == x % p + d * (k * (x / p)) by { assert (d * k) * (x / p) == d * (k * (x / p)); }
    AddMultiple(x % p, k * (x / p), d);
  }

  // ---------------------------------------------------------------- a large order leaves room for no small divisor

  /** c has order 331 * 151 modulo d. */
  ghost predicate LargeOrder(c: int, d: int) {
    d > 1 && Power(c, 49981, d) == 1 && Power(c, 331, d) != 1 && Power(c, 151, d) != 1
  }

  lemma SmallPrimes()
    ensures IsPrime(331) && IsPrime(151) && Divides(331, 49981) && Divides(151, 49981)
  {
    assert 49981 == 331 * 151 && 49981 == 151 * 331;
    forall d | 1 < d < 331 ensures !Divides(d, 331) { NoDivisor(d, 331, 18); }
    forall d | 1 < d < 151 ensures !Divides(d, 151) { NoDivisor(d, 151, 12); }
  }

  /** Below the square of `root` + 1, a number without divisors up to `root` has none. */
  lemma NoDivisor(d: int, p: int, root: int)
    requires 1 < d < p < (root + 1) * (root + 1) && root > 0
    requires forall x :: 2 <= x <= root ==> p % x != 0
    ensures !Divides(d, p)
  {
    if Divides(d, p) {
      var k := Cofactor(d, p);
      if d > root && k > root { Square(d, k, root); }
      assert false;
    }
  }

  lemma Square(d: int, k: int, root: int)
    requires d > root > 0 && k > root
    ensures d * k >= (root + 1) * (root + 1)
  {
    assert (d - root - 1) * k >= 0 && (root + 1) * (k - root - 1) >= 0;
  }

  /** What a nonnegative inverse looks like: m * k == 1 + q * w. */
  lemma NonnegativeInverse(k: int, q: int) returns (m: nat, w: nat)
    requires IsPrime(q) && k > 0 && !Divides(q, k)
    ensures m * k == 1 + q * w
  {
    var u, v := Inverse(k, q);
    m := u % q;
    var w' := -(u / q) * k - v;
    assert m * k == 1 + q * w' by {
      assert m == u - q * (u / q);
      assert (u - q * (u / q)) * k == u * k - q * ((u / q) * k);
      assert q * w' == -(q * ((u / q) * k)) - v * q;
    }
    assert w' >= 0 by { assert m * k >= 0; assert w' <= -1 ==> q * w' <= -q; }
    w := w';
  }

  /** An exponent that gives one is a multiple of each prime factor of the order. */
  lemma OrderMultiple(c: int, k: nat, d: int, q: int, r: int)
    requires LargeOrder(c, d) && k > 0 && Power(c, k, d) == 1
    requires IsPrime(q) && r > 0 && q * r == 49981 && Power(c, r, d) != 1
    ensures Divides(q, k)
  {
    if !Divides(q, k) {
      var m, w := NonnegativeInverse(k, q);
      PowerOfOne(c, k, m * r, d);
      Exponents(k, m, q, r, w);
      PowerOfOne(c, 49981, w, d);
      PowerSum(c, r, 49981 * w, d);
      PowerRange(c, r, d);
      assert false;
    }
  }

  lemma Exponents(k: int, m: int, q: int, r: int, w: int)
    requires m * k == 1 + q * w
    ensures k * (m * r) == r + (q * r) * w
  {
    assert k * (m * r) == (m * k) * r;
    assert (1 + q * w) * r == r + (q * r) * w;
  }

  lemma OrderIsLarge(c: int, k: nat, d: int)
    requires LargeOrder(c, d) && k > 0 && Power(c, k, d) == 1
    ensures k >= 49981
  {
    SmallPrimes();
    OrderMultiple(c, k, d, 331, 151);
    OrderMultiple(c, k, d, 151, 331);
    var a :| k == 331 * a;
    var b :| k == 151 * b;
    // -26 * 331 + 57 * 151 == 1
    assert k == 49981 * (57 * a - 26 * b);
  }

  lemma PowersDiffer(c: int, i: nat, j: nat, d: int)
    requires LargeOrder(c, d) && i < j < 49981
    ensures Power(c, i, d) != Power(c, j, d)
  {
    PowerSum(c, 49981 - i, i, d);
    PowerSum(c, 49981 - i, j, d);
    PowerSum(c, 49981, j - i, d);
    PowerRange(c, j - i, d);
    assert 49981 - i + j == 49981 + (j - i) && 49981 - i + i == 49981;
    if Power(c, i, d) == Power(c, j, d) {
      OrderIsLarge(c, j - i, d);
    }
  }

  lemma {:induction false} DistinctValues(xs: seq<int>, d: nat)
    requires forall i :: 0 <= i < |xs| ==> 0 <= xs[i] < d
    requires forall i, j :: 0 <= i < j < |xs| ==> xs[i] != xs[j]
    ensures |xs| <= d
  {
    var values := set x | x in xs;
    SameSize(xs, values);
    Interval(d);
    Subset(values, Below(d));
  }

  lemma {:induction false} SameSize(xs: seq<int>, values: set<int>)
    requires forall i, j :: 0 <= i < j < |xs| ==> xs[i] != xs[j]
    requires values == set x | x in xs
    ensures |values| == |xs|
  {
    if xs != [] {
      var init, x := xs[..|xs| - 1], xs[|xs| - 1];
      SameSize(init, set y | y in init);
      assert values == (set y | y in init) + {x};
    }
  }

  function Below(d: nat): set<int> {
    if d == 0 then {} else Below(d - 1) + {d - 1}
  }

  lemma {:induction false} Interval(d: nat)
    ensures |Below(d)| == d && forall x :: x in Below(d) <==> 0 <= x < d
  {
    if d > 0 { Interval(d - 1); }
  }

  lemma {:induction false} Subset(a: set<int>, b: set<int>)
    requires a <= b
    ensures |a| <= |b|
  {
    assert b == a + (b - a);
  }

  lemma LargeDivisor(c: int, d: int)
    requires LargeOrder(c, d)
    ensures d >= 49981
  {
    var n := 49981;
    var powers := seq(n, i requires 0 <= i < n => Power(c, i, d));
    forall i | 0 <= i < n ensures 0 <= powers[i] < d { PowerRange(c, i, d); }
    forall i, j | 0 <= i < j < n ensures powers[i] != powers[j] { PowersDiffer(c, i, j, d); }
    DistinctValues(powers, d);
  }

  // ---------------------------------------------------------------- the certificate

  /** Squaring, with quotient and remainder given. */
  lemma Double(c: int, k: nat, w: int, p: int, q: int, r: int)
    requires p > 0 && Power(c, k, p) == w && w * w == p * q + r && 0 <= r < p
    ensures Power(c, 2 * k, p) == r
  {
    PowerSum(c, k, k, p);
    UniqueRemainder(w * w, q, r, p);
  }

  lemma DoubleAndOne(c: int, k: nat, w: int, p: int, q: int, r: int, q': int, r': int)
    requires p > 0 && Power(c, k, p) == w && w * w == p * q + r && 0 <= r < p
    requires c * r == p * q' + r' && 0 <= r' < p
    ensures Power(c, 2 * k + 1, p) == r'
  {
    Double(c, k, w, p, q, r);
    UniqueRemainder(c * r, q', r', p);
  }

  lemma FirstPower(c: int, p: int)
    requires 0 <= c < p
    ensures Power(c, 1, p) == c
  {
    if p == 1 {} else { UniqueRemainder(1, 0, 1, p); UniqueRemainder(c, 0, c, p); assert Power(c, 0, p) == 1; }
  }

  lemma Power331(c: int, p: int)
    requires c == 30237 && p == 2147483647
    ensures Power(c, 331, p) == 1358869941
  {
    FirstPower(c, p);
    Double(c, 1, 30237, p, 0, 914276169);
    DoubleAndOne(c, 2, 914276169, p, 389246695, 1040019896, 14643, 1478552331);
    Double(c, 5, 1478552331, p, 1017990054, 1731886623);
    Double(c, 10, 1731886623, p, 1396719029, 695125366);
    DoubleAndOne(c, 20, 695125366, p, 225007196, 589310144, 8297, 1299004969);
    Double(c, 41, 1299004969, p, 785763333, 1456975510);
    DoubleAndOne(c, 82, 1456975510, p, 988495367, 971996651, 13685, 1949027092);
    DoubleAndOne(c, 165, 1949027092, p, 1768910608, 1665149088, 23445, 1358869941);
  }

  lemma Power151(c: int, p: int)
    requires c == 30237 && p == 2147483647
    ensures Power(c, 151, p) == 278973797
  {
    FirstPower(c, p);
    Double(c, 1, 30237, p, 0, 914276169);
    Double(c, 2, 914276169, p, 389246695, 1040019896);
    DoubleAndOne(c, 4, 1040019896, p, 503678519, 1178172023, 16588, 1928723015);
    Double(c, 9, 1928723015, p, 1732247169, 601144882);
    DoubleAndOne(c, 18, 601144882, p, 168278426, 1176894302, 16570, 1948978784);
    DoubleAndOne(c, 37, 1948978784, p, 1768822922, 1048362122, 14761, 319369547);
    DoubleAndOne(c, 75, 319369547, p, 47496011, 630753092, 8881, 278973797);
  }

  lemma Power49981(c: int, p: int)
    requires c == 30237 && p == 2147483647
    ensures Power(c, 49981, p) == 1
  {
    FirstPower(c, p);
    DoubleAndOne(c, 1, 30237, p, 0, 914276169, 12873, 411534222);
    Double(c, 3, 411534222, p, 78864589, 672269201);
    Double(c, 6, 672269201, p, 210453699, 1560018148);
    Double(c, 12, 1560018148, p, 1133259676, 74831532);
    Double(c, 24, 74831532, p, 2607590, 1298386294);
    DoubleAndOne(c, 48, 1298386294, p, 785015043, 955552615, 13454, 799433017);
    DoubleAndOne(c, 97, 799433017, p, 297600938, 982861403, 13838, 1901535325);
    Double(c, 195, 1901535325, p, 1683755123, 27882044);
    Double(c, 390, 27882044, p, 362008, 2117534760);
    DoubleAndOne(c, 780, 2117534760, p, 2088003541, 632663573, 8908, 64129325);
    DoubleAndOne(c, 1561, 64129325, p, 1915064, 1701997217, 23964, 991733721);
    DoubleAndOne(c, 3123, 991733721, p, 457994534, 1188120343, 16728, 2088364275);
    DoubleAndOne(c, 6247, 2088364275, p, 2030872435, 1790705180, 25213, 1047335849);
    Double(c, 12495, 1047335849, p, 510789631, 970886544);
    DoubleAndOne(c, 24990, 970886544, p, 438941960, 238135816, 3353, 1);
  }

  /** A residue that is not one modulo p, with a Bezout certificate, is not one modulo any divisor. */
  lemma StaysNontrivial(w: int, u: int, v: int, d: int, p: int)
    requires d > 1 && Divides(d, p) && u * (w - 1) + v * p == 1
    ensures w % d != 1 % d
  {
    SameRemainder(w, 1, d);
    if Divides(d, w - 1) {
      DividesSum(d, w - 1, p, u, v);
      var _ := Cofactor(d, 1);
    }
  }

  lemma NotOneModulo(c: int, k: nat, w: int, u: int, v: int, d: int, p: int)
    requires p > 0 && d > 1 && Divides(d, p) && Power(c, k, p) == w && u * (w - 1) + v * p == 1
    ensures Power(c, k, d) != 1
  {
    PowerModDivisor(c, k, d, p);
    StaysNontrivial(w, u, v, d, p);
    UniqueRemainder(1, 0, 1, d);
  }

  lemma DivisorsHaveLargeOrder(c: int, d: int, p: int)
    requires c == 30237 && p == 2147483647 && d > 1 && Divides(d, p)
    ensures LargeOrder(c, d)
  {
    Power331(c, p);
    NotOneModulo(c, 331, 1358869941, 718596063, -454708277, d, p);
    Power151(c, p);
    NotOneModulo(c, 151, 278973797, -340123950, 44184583, d, p);
    Power49981(c, p);
    PowerModDivisor(c, 49981, d, p);
    UniqueRemainder(1, 0, 1, d);
  }

  lemma DivisorsAreLarge(d: int)
    requires d > 1 && Divides(d, PRIME)
    ensures d >= 49981
  {
    DivisorsHaveLargeOrder(30237, d, PRIME);
    LargeDivisor(30237, d);
  }

  /** 2^31 - 1 is prime. */
  lemma PrimeIsPrime()
    ensures IsPrime(PRIME)
  {
    forall d | 1 < d < PRIME ensures !Divides(d, PRIME) {
      if Divides(d, PRIME) {
        var k := Cofactor(d, PRIME);
        DivisorsAreLarge(d);
        if k > 1 { DivisorsAreLarge(k); Square(d, k, 49980); }
        assert false;
      }
    }
  }

  // ---------------------------------------------------------------- the order

  lemma CoefficientsInRange(seed: int)
    requires 0 <= seed <= MAX_RANDOM_SEED
    ensures var c := RandomCoefficients(seed);
            1 <= c.multiplier < PRIME && 0 <= c.increment < PRIME
  {
  }

  /** For every seed, equal keys mean equal residues: on residues the key is a permutation. */
  lemma KeysAreInjective(seed: int, x: int, y: int)
    requires 0 <= seed <= MAX_RANDOM_SEED && Key(seed, x) == Key(seed, y)
    ensures x % PRIME == y % PRIME
  {
    var c := RandomCoefficients(seed);
    var a, b := x % PRIME, y % PRIME;
    CoefficientsInRange(seed);
    PrimeIsPrime();
    SameRemainder(a * c.multiplier + c.increment, b * c.multiplier + c.increment, PRIME);
    assert a * c.multiplier + c.increment - (b * c.multiplier + c.increment) == c.multiplier * (a - b);
    if Divides(PRIME, c.multiplier) { var _ := Cofactor(PRIME, c.multiplier); }
    PrimeDivides(PRIME, c.multiplier, a - b);
    SameRemainder(a, b, PRIME);
  }

  /** Distinct ids below the modulus have distinct keys, so the key alone orders them. */
  lemma SmallIdsHaveDistinctKeys(seed: int, x: int, y: int)
    requires 0 <= seed <= MAX_RANDOM_SEED && 0 <= x < PRIME && 0 <= y < PRIME && x != y
    ensures Key(seed, x) != Key(seed, y)
  {
    if Key(seed, x) == Key(seed, y) { KeysAreInjective(seed, x, y); }
  }

  /** No intermediate of the key, for any 64-bit id, leaves the signed 64-bit range. */
  lemma NoOverflow(seed: int, id: int)
    requires 0 <= seed <= MAX_RANDOM_SEED && 0 <= id < 0x8000_0000_0000_0000
    ensures var c := RandomCoefficients(seed);
            && 0 <= id % PRIME < PRIME
            && 0 <= (id % PRIME) * c.multiplier < 0x8000_0000_0000_0000
            && 0 <= (id % PRIME) * c.multiplier + c.increment < 0x8000_0000_0000_0000
            && 0 <= Key(seed, id) < PRIME
  {
    CoefficientsInRange(seed);
    ProductBound(id % PRIME, RandomCoefficients(seed).multiplier, PRIME - 1);
  }

  lemma ProductBound(a: int, b: int, n: int)
    requires 0 <= a <= n && 0 <= b <= n
    ensures 0 <= a * b <= n * n
  {
    assert (n - a) * b >= 0 && n * (n - b) >= 0;
  }
}
