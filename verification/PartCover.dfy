/**
 * For which value rates the part of a purchase reversal that is not fx is never negative
 * (server/ops/reversals.js:57-69): exactly the multiples of half a bit a cent, from one bit a cent up.
 */
module PartCover {
  import opened Basics
  import opened Rates
  import opened Reversals

  /** A purchase that was not overcredited, and a part of it that is still to be returned. */
  ghost predicate Returned(cfg: Config, bits: int, paid: int, done: int, cents: int)
  {
    bits >= 0 && paid > 0 && ValueCents(cfg, bits) <= paid && done >= 0 && cents >= 0 && done + cents <= paid
  }

  /** Whatever is clawed back of the part's bits is worth no more than the cents returned. */
  ghost predicate CoversPart(cfg: Config, bits: int, paid: int, done: int, cents: int)
    requires paid > 0
  {
    forall clawed: int :: clawed <= BitsPart(bits, paid, done, cents) ==> cents - ValueCents(cfg, clawed) >= 0
  }

  /** Every part is covered when the whole of its bits is. */
  lemma WholePart(cfg: Config, bits: int, paid: int, done: int, cents: int)
    requires paid > 0
    ensures CoversPart(cfg, bits, paid, done, cents) <==> ValueCents(cfg, BitsPart(bits, paid, done, cents)) <= cents
  {
    hide BitsPart;
    var part := BitsPart(bits, paid, done, cents);
    forall clawed: int | clawed <= part ensures ValueCents(cfg, clawed) <= ValueCents(cfg, part) {
      RoundMono(clawed * 100, part * 100, cfg.bitsPerUsd);
    }
  }

  // ------------------------------------------------------------------ the rates that cover

  /** `bits` are worth at most `cents` at 50·m bits a dollar. */
  lemma ValueAtHalves(cfg: Config, m: int, bits: int, cents: int)
    requires cfg.bitsPerUsd == 50 * m
    ensures ValueCents(cfg, bits) <= cents <==> 4 * bits < 2 * m * cents + m
  {
    var v := ValueCents(cfg, bits);
    assert 100 * (m * v) <= 200 * bits + 50 * m < 100 * (m * v) + 100 * m;
    if v <= cents {
      MulMono(v, cents, m);
      assert v * m == m * v && cents * m == m * cents;
    } else {
      MulMono(cents + 1, v, m);
      assert v * m == m * v && (cents + 1) * m == m * cents + m;
    }
  }

  /** A number of bits over m/2 a cent, as a whole and f half bits: the scaled share of x cents. */
  lemma ScaledHalves(bits: int, paid: int, x: int, m: int, f: int)
    requires 2 * bits == m * paid + f
    ensures 2 * (bits * x) == (m * x) * paid + f * x
  {
    calc {
      2 * (bits * x);
      (2 * bits) * x;
      (m * paid + f) * x;
      (m * x) * paid + f * x;
    }
  }

  lemma ShareAtLeast(bits: int, paid: int, x: int, m: int)
    requires paid > 0 && 0 <= x && 2 * bits > m * paid
    ensures m * x <= 2 * RoundDiv(bits * x, paid)
  {
    var r, f := RoundDiv(bits * x, paid), 2 * bits - m * paid;
    ScaledHalves(bits, paid, x, m, f);
    MulMono(0, f, x);
    assert 2 * paid * r == (2 * r) * paid && (m * x - 1) * paid == (m * x) * paid - paid;
    if 2 * r < m * x { MulMono(2 * r, m * x - 1, paid); }
  }

  lemma ShareAtMost(bits: int, paid: int, x: int, m: int)
    requires paid > 0 && 0 <= x < paid && 2 * bits > m * paid
    ensures 2 * RoundDiv(bits * x, paid) <= m * x + (2 * bits - m * paid)
  {
    var r, f := RoundDiv(bits * x, paid), 2 * bits - m * paid;
    ScaledHalves(bits, paid, x, m, f);
    MulMono(x, paid - 1, f);
    assert x * f == f * x && (paid - 1) * f == f * paid - f;
    assert 2 * paid * r == (2 * r) * paid && (m * x + f + 1) * paid == (m * x) * paid + f * paid + paid;
    if 2 * r > m * x + f { MulMono(m * x + f + 1, 2 * r, paid); }
  }

  /** What the rounded share of x cents is at least and at most. */
  lemma ShareBounds(bits: int, paid: int, x: int, m: int)
    requires paid > 0 && 0 <= x <= paid && 2 * bits > m * paid
    ensures m * x <= 2 * RoundDiv(bits * x, paid) <= m * x + (2 * bits - m * paid)
  {
    hide RoundDiv;
    ShareAtLeast(bits, paid, x, m);
    if x == paid { RoundExact(bits, paid); } else { ShareAtMost(bits, paid, x, m); }
  }

  lemma LowShares(bits: int, paid: int, done: int, cents: int, m: int)
    requires paid > 0 && cents >= 0 && 2 * bits <= m * paid
    ensures 2 * BitsPart(bits, paid, done, cents) <= m * cents + 1
  {
    var x, y := RoundDiv(bits * (done + cents), paid), RoundDiv(bits * done, paid);
    Distribute(bits, done, cents);
    assert 2 * paid * x - 2 * paid * y == (2 * (x - y)) * paid;
    MulMono(2 * bits, m * paid, cents);
    assert 2 * bits * cents == 2 * (bits * cents) && (m * paid) * cents == (m * cents) * paid;
    assert (m * cents + 2) * paid == (m * cents) * paid + 2 * paid;
    if 2 * (x - y) > m * cents + 1 { MulMono(m * cents + 2, 2 * (x - y), paid); }
  }

  lemma HighShares(bits: int, paid: int, done: int, cents: int, m: int)
    requires paid > 0 && done >= 0 && cents >= 0 && done + cents <= paid && 2 * bits > m * paid
    ensures 2 * BitsPart(bits, paid, done, cents) <= m * cents + (2 * bits - m * paid)
  {
    ShareBounds(bits, paid, done + cents, m);
    ShareBounds(bits, paid, done, m);
    Distribute(m, done, cents);
    hide RoundDiv;
  }

  /** At 50·m bits a dollar, m at least two, every part of every purchase is covered. */
  lemma HalvesCover(cfg: Config, bits: int, paid: int, done: int, cents: int, m: int)
    requires cfg.bitsPerUsd == 50 * m && m >= 2 && Returned(cfg, bits, paid, done, cents)
    ensures CoversPart(cfg, bits, paid, done, cents)
  {
    hide BitsPart, ValueCents, CoversPart;
    WholePart(cfg, bits, paid, done, cents);
    var part := BitsPart(bits, paid, done, cents);
    ValueAtHalves(cfg, m, bits, paid);
    ValueAtHalves(cfg, m, part, cents);
    if 2 * bits <= m * paid {
      LowShares(bits, paid, done, cents, m);
    } else {
      HighShares(bits, paid, done, cents, m);
    }
    PartFits(m, m * paid, m * cents, bits, part, cents);
  }

  lemma PartFits(m: int, mp: int, mc: int, bits: int, part: int, cents: int)
    requires m >= 2 && mc == m * cents && 4 * bits < 2 * mp + m
    requires 2 * part <= mc + 1 || (2 * bits > mp && 2 * part <= mc + (2 * bits - mp))
    ensures 4 * part < 2 * m * cents + m
  {
    assert 2 * m * cents == 2 * mc;
    if m == 2 { assert mc == 2 * cents; }
  }

  // ------------------------------------------------------------------ the rates that do not

  /** g divides a and b, as g·u and g·v, and is the combination a·x + b·y. */
  datatype Bezout = Bezout(g: int, x: int, y: int, u: int, v: int)

  /** The extended Euclidean algorithm. */
  function ExtendedGcd(a: nat, b: nat): (r: Bezout)
    requires a > 0 || b > 0
    ensures r.g > 0 && a * r.x + b * r.y == r.g && r.g * r.u == a && r.g * r.v == b
    decreases b
  {
    if b == 0 then Bezout(a, 1, 0, 1, 0)
    else
      var q := a / b;
      var s := ExtendedGcd(b, a % b);
      GcdStep(a, b, q, s);
      Bezout(s.g, s.y, s.x - q * s.y, q * s.u + s.v, s.u)
  }

  lemma GcdStep(a: int, b: int, q: int, s: Bezout)
    requires b > 0 && q == a / b
    requires b * s.x + (a % b) * s.y == s.g && s.g * s.u == b && s.g * s.v == a % b
    ensures a * s.y + b * (s.x - q * s.y) == s.g
    ensures s.g * (q * s.u + s.v) == a
  {
    assert a % b == a - b * q;
    assert (a - b * q) * s.y == a * s.y - b * (q * s.y);
    assert b * (s.x - q * s.y) == b * s.x - b * (q * s.y);
    assert s.g * (q * s.u + s.v) == q * (s.g * s.u) + s.g * s.v;
  }

  /** The share of `done` cents is a/200 bits above a whole number. */
  ghost predicate EarlyCents(r: int, done: int, low: int, a: int)
  {
    0 <= done < 100 && 2 * r * done == 200 * low + a
  }

  /** A large payment whose largest number of bits falls d/200 short of the next one. */
  ghost predicate LatePayment(r: int, paid: int, bits: int, d: int)
  {
    paid >= 100 * r + 100 && r * (2 * paid + 1) == 200 * bits + d
  }

  /** g is a combination of the rate and 100, and divides both. */
  ghost predicate Divides(r: int, b: Bezout)
  {
    b.g > 0 && r * b.x + 100 * b.y == b.g && b.g * b.u == r && b.g * b.v == 100
  }

  /** What the rate leaves over: less d, it is a multiple of 2g. */
  ghost predicate LeavesOver(r: int, b: Bezout, d: int, j: int)
  {
    (d == b.g || d == 2 * b.g) && r - d == 2 * (b.g * j)
  }

  /**
   * The first `done` cents of a payment take back less than their share, so the rest takes back too
   * much: a payment whose bits are just worth it, at a rate where `done` cents are worth `low` bits
   * and a little more.
   */
  lemma LateParts(cfg: Config, done: int, low: int, a: int, paid: int, bits: int, d: int)
    requires EarlyCents(cfg.bitsPerUsd, done, low, a) && LatePayment(cfg.bitsPerUsd, paid, bits, d) && 0 < d <= a <= 66
    ensures Returned(cfg, bits, paid, done, paid - done) && !CoversPart(cfg, bits, paid, done, paid - done)
  {
    hide ValueCents, CoversPart, EarlyCents, LatePayment, BitsPart;
    var r, cents := cfg.bitsPerUsd, paid - done;
    LateFacts(r, done, low, a, paid, bits, d);
    WorthAtMost(cfg, bits, paid);
    EarlyLeft(bits, paid, done, low, r, a, d);
    var part := BitsPart(bits, paid, done, cents);
    LateWorth(r, done, low, a, paid, bits, d, part);
    WorthMore(cfg, part, cents);
    WholePart(cfg, bits, paid, done, cents);
  }

  lemma LateFacts(r: int, done: int, low: int, a: int, paid: int, bits: int, d: int)
    requires r > 0 && EarlyCents(r, done, low, a) && LatePayment(r, paid, bits, d) && 0 < d <= 66
    ensures 0 <= done < paid && done * r < paid && bits > 0 && 200 * bits < r * (2 * paid + 1)
  {
    MulMono(done, 99, r);
    SomeBits(r, paid, bits, d);
  }

  lemma LateWorth(r: int, done: int, low: int, a: int, paid: int, bits: int, d: int, part: int)
    requires EarlyCents(r, done, low, a) && LatePayment(r, paid, bits, d) && d <= a && part >= bits - low
    ensures 200 * part >= r * (2 * (paid - done) + 1)
  {
    calc {
      r * (2 * (paid - done) + 1);
      r * (2 * paid + 1) - 2 * r * done;
      200 * bits + d - (200 * low + a);
    }
  }

  lemma EarlyLeft(bits: int, paid: int, done: int, low: int, r: int, a: int, d: int)
    requires paid > 0 && r > 0 && 0 < d <= a <= 66 && done * r < paid
    requires EarlyCents(r, done, low, a) && LatePayment(r, paid, bits, d)
    ensures BitsPart(bits, paid, done, paid - done) >= bits - low
  {
    RoundExact(bits, paid);
    EarlyShare(bits, paid, done, low, r, a, d);
    hide RoundDiv;
    assert done + (paid - done) == paid;
  }

  lemma SomeBits(r: int, paid: int, bits: int, d: int)
    requires r > 0 && paid >= 100 && r * (2 * paid + 1) == 200 * bits + d && d <= 66
    ensures bits > 0
  {
    MulMono(1, r, 2 * paid + 1);
    assert (2 * paid + 1) * r == r * (2 * paid + 1);
  }

  lemma EarlyShare(bits: int, paid: int, done: int, low: int, r: int, a: int, d: int)
    requires paid > 0 && r > 0 && 0 <= done && 0 < d <= a <= 66 && done * r < paid
    requires 2 * r * done == 200 * low + a && r * (2 * paid + 1) == 200 * bits + d
    ensures RoundDiv(bits * done, paid) <= low
  {
    var x := RoundDiv(bits * done, paid);
    ScaledShare(bits, paid, done, low, r, a, d);
    MulMono(a, 66, paid);
    assert (low + 1) * paid == low * paid + paid && 2 * paid * x == 2 * (x * paid);
    if x > low { MulMono(low + 1, x, paid); }
  }

  lemma ScaledShare(bits: int, paid: int, done: int, low: int, r: int, a: int, d: int)
    requires 0 <= done && d > 0 && 2 * r * done == 200 * low + a && r * (2 * paid + 1) == 200 * bits + d
    ensures 200 * (bits * done) <= 200 * (low * paid) + a * paid + done * r
  {
    calc {
      200 * (bits * done);
      (200 * bits) * done;
      (r * (2 * paid + 1) - d) * done;
      (2 * r * done) * paid + done * r - d * done;
      (200 * low + a) * paid + done * r - d * done;
      200 * (low * paid) + a * paid + done * r - d * done;
    }
    assert d * done >= 0;
  }

  lemma WorthAtMost(cfg: Config, bits: int, cents: int)
    requires 200 * bits < cfg.bitsPerUsd * (2 * cents + 1)
    ensures ValueCents(cfg, bits) <= cents
  {
    var r, v := cfg.bitsPerUsd, ValueCents(cfg, bits);
    assert 2 * r * v == 2 * (v * r) && (cents + 1) * r == cents * r + r && r * (2 * cents + 1) == 2 * (cents * r) + r;
    if v > cents { MulMono(cents + 1, v, r); }
  }

  lemma WorthMore(cfg: Config, bits: int, cents: int)
    requires 200 * bits >= cfg.bitsPerUsd * (2 * cents + 1)
    ensures ValueCents(cfg, bits) > cents
  {
    var r, v := cfg.bitsPerUsd, ValueCents(cfg, bits);
    assert 2 * r * v == 2 * (v * r) && r * (2 * cents + 1) == 2 * (cents * r) + r;
    if v <= cents { MulMono(v, cents, r); }
  }

  ghost function Divisor(r: int): (b: Bezout)
    requires r > 0
    ensures Divides(r, b)
  {
    ExtendedGcd(r, 100)
  }

  /** A rate that is no multiple of 50 has at most 33 in common with 100. */
  lemma SmallDivisor(r: int, b: Bezout)
    requires r % 50 != 0 && Divides(r, b)
    ensures 0 < b.g <= 33
  {
    if b.g > 33 {
      if b.v >= 3 {
        MulMono(3, b.v, b.g);
      } else if b.v <= 0 {
        MulMono(b.v, 0, b.g);
      } else {
        MultipleOf50(b.g, b.u, b.v);
      }
    }
  }

  lemma MultipleOf50(g: int, u: int, v: int)
    requires g * v == 100 && 1 <= v <= 2
    ensures (g * u) % 50 == 0
  {
    var k := if v == 1 then 2 * u else u;
    assert g * u == 50 * k;
  }

  lemma Remainder(r: int, b: Bezout) returns (d: int, j: int)
    requires Divides(r, b)
    ensures LeavesOver(r, b, d, j) && 0 < d <= 2 * b.g
  {
    if b.u % 2 == 1 {
      d, j := b.g, b.u / 2;
      assert b.u == 2 * j + 1;
      assert b.g * (2 * j + 1) == 2 * (b.g * j) + b.g;
    } else {
      d, j := 2 * b.g, b.u / 2 - 1;
      assert b.u == 2 * j + 2;
      assert b.g * (2 * j + 2) == 2 * (b.g * j) + 2 * b.g;
    }
  }

  lemma FirstCents(r: int, b: Bezout) returns (done: int, low: int)
    requires Divides(r, b)
    ensures EarlyCents(r, done, low, 2 * b.g)
  {
    done, low := b.x % 100, -(b.y + r * (b.x / 100));
    assert b.x == 100 * (b.x / 100) + done;
    assert r * b.x == 100 * (r * (b.x / 100)) + r * done;
    assert 2 * r * done == 2 * (r * done);
  }

  lemma LargePayment(r: int, b: Bezout, d: int, j: int) returns (paid: int, bits: int)
    requires r > 0 && Divides(r, b) && LeavesOver(r, b, d, j)
    ensures LatePayment(r, paid, bits, d)
  {
    var n := (if j * b.x > 0 then j * b.x else 0) + r + 1;
    paid, bits := 100 * n - j * b.x, j * b.y + r * n;
    PaymentAlgebra(r, b.x, b.y, b.g, j, d, n);
  }

  lemma PaymentAlgebra(r: int, x: int, y: int, g: int, j: int, d: int, n: int)
    requires r * x + 100 * y == g && r - d == 2 * (g * j)
    ensures r * (2 * (100 * n - j * x) + 1) == 200 * (j * y + r * n) + d
  {
    calc {
      r * (2 * (100 * n - j * x) + 1);
      200 * (r * n) - 2 * (j * (r * x)) + r;
      { assert r * x == g - 100 * y; }
      200 * (r * n) - 2 * (j * (g - 100 * y)) + r;
      200 * (r * n) + 200 * (j * y) - 2 * (g * j) + r;
      200 * (j * y + r * n) + d;
    }
  }

  /** At every rate that is no multiple of 50 some part of some purchase is not covered. */
  lemma OtherRatesFail(cfg: Config) returns (bits: int, paid: int, done: int, cents: int)
    requires cfg.bitsPerUsd % 50 != 0
    ensures Returned(cfg, bits, paid, done, cents) && !CoversPart(cfg, bits, paid, done, cents)
  {
    hide Returned, CoversPart, Divides, LeavesOver, EarlyCents, LatePayment;
    var r: int := cfg.bitsPerUsd;
    var b := Divisor(r);
    SmallDivisor(r, b);
    var d, j := Remainder(r, b);
    var low: int;
    done, low := FirstCents(r, b);
    paid, bits := LargePayment(r, b, d, j);
    cents := paid - done;
    LateParts(cfg, done, low, 2 * b.g, paid, bits, d);
  }

  /** At 50 bits a dollar, half of a two-cent payment of one bit returns one cent and takes back two cents' worth. */
  lemma HalfBitFails(cfg: Config)
    requires cfg.bitsPerUsd == 50
    ensures Returned(cfg, 1, 2, 0, 1) && !CoversPart(cfg, 1, 2, 0, 1)
  {
    hide ValueCents, CoversPart, BitsPart;
    ValueAtHalves(cfg, 1, 1, 1);
    ValueAtHalves(cfg, 1, 1, 2);
    OneBit();
    WholePart(cfg, 1, 2, 0, 1);
  }

  lemma OneBit()
    ensures BitsPart(1, 2, 0, 1) == 1
  {
  }

  /**
   * The part of a purchase reversal that is not fx is never negative, whatever was bought, paid,
   * returned before and clawed back now, if and only if the rate is at least 100 bits a dollar and a
   * multiple of 50.
   */
  lemma RatesThatCover(cfg: Config)
    ensures (forall bits: int, paid: int, done: int, cents: int ::
              Returned(cfg, bits, paid, done, cents) ==> CoversPart(cfg, bits, paid, done, cents))
      <==> cfg.bitsPerUsd >= 100 && cfg.bitsPerUsd % 50 == 0
  {
    hide CoversPart, ValueCents;
    if cfg.bitsPerUsd % 50 != 0 {
      var bits, paid, done, cents := OtherRatesFail(cfg);
    } else if cfg.bitsPerUsd < 100 {
      HalfBitFails(cfg);
    } else {
      forall bits: int, paid: int, done: int, cents: int | Returned(cfg, bits, paid, done, cents)
        ensures CoversPart(cfg, bits, paid, done, cents)
      {
        HalvesCover(cfg, bits, paid, done, cents, cfg.bitsPerUsd / 50);
      }
    }
  }
}
