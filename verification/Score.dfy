/** Join times as sorted-set scores.  Redis keeps a score as an IEEE 754 double, so a join time in
    nanoseconds is rounded to 53 significant bits, roundTiesToEven (section 4.3.1 of IEEE 754-2019). */
module Score {

  const TWO_TO_53: nat := 0x20_0000_0000_0000
  const TWO_TO_60: nat := 0x1000_0000_0000_0000
  const TWO_TO_61: nat := 0x2000_0000_0000_0000

  /** The distance between neighbouring doubles at x. */
  function Ulp(x: nat): (u: nat)
    ensures u > 0
  {
    if x < TWO_TO_53 then 1 else 2 * Ulp(x / 2)
  }

  function RoundTo(x: nat, u: nat): nat
    requires u > 0
  {
    var q, r := x / u, x % u;
    if 2 * r < u || (2 * r == u && q % 2 == 0) then u * q else u * (q + 1)
  }

  /** The score of a join time. */
  function ScoreOf(ns: nat): nat {
    RoundTo(ns, Ulp(ns))
  }

  /** Join times between 2006 and 2043. */
  predicate InRange(ns: nat) {
    TWO_TO_60 <= ns < TWO_TO_61
  }

  lemma {:induction false} UlpInRange(x: nat)
    requires InRange(x)
    ensures Ulp(x) == 256
  {
    var h1 := x / 2; var h2 := h1 / 2; var h3 := h2 / 2; var h4 := h3 / 2;
    var h5 := h4 / 2; var h6 := h5 / 2; var h7 := h6 / 2; var h8 := h7 / 2;
    assert Ulp(h8) == 1;
    assert Ulp(h7) == 2;
    assert Ulp(h6) == 4;
    assert Ulp(h5) == 8;
    assert Ulp(h4) == 16;
    assert Ulp(h3) == 32;
    assert Ulp(h2) == 64;
    assert Ulp(h1) == 128;
  }

  function Distance(x: int, y: int): nat {
    if x <= y then y - x else x - y
  }

  /** roundTiesToEven as the standard puts it, at a spacing of 256: the nearest representable number,
      and of two equally near ones the one whose significand is even. */
  ghost predicate IsNearestEven(x: nat, k: int) {
    && (forall m: int :: Distance(x, 256 * k) <= Distance(x, 256 * m))
    && ((exists m: int :: m != k && Distance(x, 256 * m) == Distance(x, 256 * k)) ==> k % 2 == 0)
  }

  /** The score is that number and no other. */
  lemma ScoreIsNearestEven(x: nat, k: int)
    requires InRange(x)
    ensures IsNearestEven(x, k) <==> ScoreOf(x) == 256 * k
  {
    hide ScoreOf;
    var q, r := x / 256, x % 256;
    Rounded(x, q, r);
    var best := if 2 * r < 256 || (2 * r == 256 && q % 2 == 0) then q else q + 1;
    assert Distance(x, 256 * q) == r && Distance(x, 256 * (q + 1)) == 256 - r;
    forall m: int
      ensures Distance(x, 256 * best) <= Distance(x, 256 * m)
      ensures m != best && Distance(x, 256 * m) == Distance(x, 256 * best) ==> m == 2 * q + 1 - best && r == 128
    {
      if m < q { assert 256 * m <= 256 * q - 256; }
      if m > q + 1 { assert 256 * m >= 256 * q + 512; }
    }
    if r == 128 { assert Distance(x, 256 * (2 * q + 1 - best)) == Distance(x, 256 * best); }
  }

  /** The score, given quotient and remainder. */
  lemma Rounded(x: nat, q: nat, r: nat)
    requires InRange(x) && x == 256 * q + r && r < 256
    ensures ScoreOf(x) == 256 * (if 2 * r < 256 || (2 * r == 256 && q % 2 == 0) then q else q + 1)
  {
    UlpInRange(x);
    assert x / 256 == q && x % 256 == r;
  }

  /** The number of the score: join times with the same one tie. */
  function Cell(x: nat): nat {
    (x + 127 + (x / 256) % 2) / 256
  }

  lemma CellParts(x: nat, q: nat, r: nat)
    requires x == 256 * q + r && r < 256
    ensures Cell(x) == if 2 * r < 256 || (2 * r == 256 && q % 2 == 0) then q else q + 1
  {
    assert x / 256 == q;
    var n := r + 127 + q % 2;
    assert x + 127 + q % 2 == 256 * q + n;
    if n < 256 { Quotient(x + 127 + q % 2, q, n); } else { Quotient(x + 127 + q % 2, q + 1, n - 256); }
  }

  lemma Quotient(x: nat, q: nat, r: nat)
    requires x == 256 * q + r && r < 256
    ensures x / 256 == q
  {
  }

  /** Scores in closed form. */
  lemma ScoreIsCell(x: nat)
    requires InRange(x)
    ensures ScoreOf(x) == 256 * Cell(x)
  {
    hide ScoreOf, Cell;
    var q, r := x / 256, x % 256;
    Rounded(x, q, r);
    CellParts(x, q, r);
  }

  /** Which of any two join times has the smaller score, and when they tie. */
  lemma ScoresCompare(x: nat, y: nat)
    requires InRange(x) && InRange(y)
    ensures ScoreOf(x) < ScoreOf(y) <==> Cell(x) < Cell(y)
    ensures ScoreOf(x) == ScoreOf(y) <==> Cell(x) == Cell(y)
    ensures x <= y ==> Cell(x) <= Cell(y)
  {
    ScoreIsCell(x);
    ScoreIsCell(y);
    if x <= y { ScoreMonotone(x, y); }
  }

  lemma CellOf(x: nat) returns (k: nat)
    requires InRange(x)
    ensures ScoreOf(x) == 256 * k && Distance(x, 256 * k) <= 128
    ensures Distance(x, 256 * k) == 128 ==> k % 2 == 0
  {
    hide ScoreOf;
    var q, r := x / 256, x % 256;
    Rounded(x, q, r);
    k := if 2 * r < 256 || (2 * r == 256 && q % 2 == 0) then q else q + 1;
  }

  /** Earlier customers never get a larger score. */
  lemma ScoreMonotone(x: nat, y: nat)
    requires InRange(x) && InRange(y) && x <= y
    ensures ScoreOf(x) <= ScoreOf(y)
  {
    hide ScoreOf;
    if x < y {
      var k := CellOf(x);
      var m := CellOf(y);
    }
  }

  /** Joins more than 256 ns apart keep their strict order. */
  lemma ScoreStrict(x: nat, y: nat)
    requires InRange(x) && InRange(y) && x + 256 < y
    ensures ScoreOf(x) < ScoreOf(y)
  {
    hide ScoreOf;
    var k := CellOf(x);
    var m := CellOf(y);
    assert 256 * k - 128 <= x && y <= 256 * m + 128;
  }

  /** Joins 256 ns apart tie exactly when both lie half-way between scores, around an even one. */
  lemma TieAt256(x: nat)
    requires InRange(x) && InRange(x + 256)
    ensures ScoreOf(x) == ScoreOf(x + 256) <==> x % 512 == 384
  {
    hide ScoreOf;
    var q, r := x / 256, x % 256;
    Rounded(x, q, r);
    Rounded(x + 256, q + 1, r);
    Mod512(x, q / 2, q % 2, r);
  }

  lemma Remainder(x: nat, h: nat, m: nat)
    requires x == 512 * h + m && m < 512
    ensures x % 512 == m
  {
  }

  lemma Mod512(x: nat, h: nat, odd: nat, r: nat)
    requires odd < 2 && r < 256 && x == 256 * (2 * h + odd) + r
    ensures x % 512 == 256 * odd + r
  {
    Remainder(x, h, 256 * odd + r);
  }

  /** Recovery uses the microsecond times that Postgres keeps: distinct microseconds stay in order. */
  lemma MicrosecondsStrict(a: nat, b: nat)
    requires a < b && InRange(1000 * a) && InRange(1000 * b)
    ensures ScoreOf(1000 * a) < ScoreOf(1000 * b)
  {
    ScoreStrict(1000 * a, 1000 * b);
  }

  /** A microsecond apart is not enough for two live joins, whose scores carry nanoseconds. */
  lemma MicrosecondsMayTie()
    ensures var x, y := TWO_TO_60 + 896, TWO_TO_60 + 1152;
      InRange(x) && InRange(y) && x / 1000 < y / 1000 && ScoreOf(x) == ScoreOf(y)
  {
    TieAt256(TWO_TO_60 + 896);
  }
}
