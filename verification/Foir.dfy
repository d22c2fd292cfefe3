/**
 Loan eligibility by fixed obligations to income ratio (foir-service/main.py), in exact
 arithmetic: amounts are reals, `round` is half-to-even on exact values.
 */
module Foir {
  const FOIR_CAP: real := 0.70

  /** EMI per lakh (100,000) at 11% for the supported tenures. */
  function PerLakhEmi(tenure: int): int
    requires tenure in {5, 6, 7}
  {
    if tenure == 5 then 2174 else if tenure == 6 then 1903 else 1712
  }

  datatype Request = Request(income: real, existingEmi: real, other: real, tenure: int) {
    /** The field constraints of the request schema. */
    ghost predicate Accepted() {
      income > 0.0 && existingEmi >= 0.0 && other >= 0.0
    }
  }

  datatype Response =
    | BadTenure
    | Quote(maxTotal: real, available: real, perLakh: int, loan: real, lakh: real, eligible: bool)

  /** Nearest integer, ties to the even one. */
  function RoundHalfEven(x: real): int {
    var f := x.Floor;
    var d := x - f as real;
    if d < 0.5 || (d == 0.5 && f % 2 == 0) then f else f + 1
  }

  /** Round to hundredths: rupees and paise. */
  function Round2(x: real): real {
    RoundHalfEven(x * 100.0) as real / 100.0
  }

  function CalculateFoir(req: Request): Response {
    if req.tenure !in {5, 6, 7} then
      BadTenure
    else
      var maxTotal := Round2(req.income * FOIR_CAP);
      var available := Round2(maxTotal - req.existingEmi - req.other);
      var perLakh := PerLakhEmi(req.tenure);
      if available <= 0.0 then
        Quote(maxTotal, available, perLakh, 0.0, 0.0, false)
      else
        var loan := (available / perLakh as real * 100000.0 / 10000.0).Floor as real * 10000.0;
        Quote(maxTotal, available, perLakh, loan, Round2(loan / 100000.0), true)
  }

  /** Monthly instalment of a loan. */
  ghost function Emi(loan: real, perLakh: int): real {
    loan / 100000.0 * perLakh as real
  }

  /** What is left of the cap before rounding. */
  ghost function ExactHeadroom(req: Request): real {
    Round2(req.income * FOIR_CAP) - req.existingEmi - req.other
  }

  ghost predicate IsWhole(x: real) {
    x.Floor as real == x
  }

  /** Existing obligations together with the instalment of the quoted loan. */
  ghost function TotalObligations(req: Request): real
    requires req.tenure in {5, 6, 7}
  {
    req.existingEmi + req.other + Emi(CalculateFoir(req).loan, CalculateFoir(req).perLakh)
  }

  /** Rounding to paise lifted the headroom, and onto an exact instalment of some loan step. */
  ghost predicate RoundedUpOntoInstalment(req: Request)
    requires req.tenure in {5, 6, 7}
  {
    && Round2(ExactHeadroom(req)) > ExactHeadroom(req)
    && IsWhole(Round2(ExactHeadroom(req)) * 10.0 / PerLakhEmi(req.tenure) as real)
  }

  // ---------- The per-lakh instalments ----------

  ghost function Pow(x: real, n: nat): real {
    if n == 0 then 1.0 else x * Pow(x, n - 1)
  }

  /** Monthly growth at 11% a year. */
  const GROWTH: real := 1.0 + 0.11 / 12.0

  lemma {:induction false} PowSum(x: real, m: nat, n: nat)
    ensures Pow(x, m + n) == Pow(x, m) * Pow(x, n)
  {
    if m > 0 {
      PowSum(x, m - 1, n);
      Associates(x, Pow(x, m - 1), Pow(x, n));
    }
  }

  lemma Associates(a: real, b: real, c: real)
    ensures a * (b * c) == a * b * c
  {
  }

  lemma PowWithin(m: nat, lm: real, hm: real, n: nat, ln: real, hn: real, lo: real, hi: real)
    requires 0.0 < lm <= Pow(GROWTH, m) <= hm && 0.0 < ln <= Pow(GROWTH, n) <= hn
    requires lo <= lm * ln && hm * hn <= hi
    ensures lo <= Pow(GROWTH, m + n) <= hi
  {
    PowSum(GROWTH, m, n);
    var p, q := Pow(GROWTH, m), Pow(GROWTH, n);
    assert lm * ln <= p * ln by { MulOrder(lm, p, ln); }
    assert p * ln <= p * q by { MulOrder(ln, q, p); }
    assert p * q <= hm * q by { MulOrder(p, hm, q); }
    assert hm * q <= hm * hn by { MulOrder(q, hn, hm); }
  }

  lemma GrowthOverTheTenures()
    ensures 1.72891 <= Pow(GROWTH, 60) <= 1.72892
    ensures 1.92898 <= Pow(GROWTH, 72) <= 1.92899
    ensures 2.15220 <= Pow(GROWTH, 84) <= 2.15221
  {
    assert Pow(GROWTH, 1) == GROWTH * Pow(GROWTH, 0) == GROWTH;
    assert 1.009166666 <= GROWTH <= 1.009166667;
    PowWithin(1, 1.009166666, 1.009166667, 1, 1.009166666, 1.009166667, 1.018417359, 1.018417362);
    PowWithin(2, 1.018417359, 1.018417362, 1, 1.009166666, 1.009166667, 1.027752850, 1.027752855);
    PowWithin(3, 1.027752850, 1.027752855, 3, 1.027752850, 1.027752855, 1.056275920, 1.056275931);
    PowWithin(6, 1.056275920, 1.056275931, 6, 1.056275920, 1.056275931, 1.115718819, 1.115718843);
    PowWithin(12, 1.115718819, 1.115718843, 12, 1.115718819, 1.115718843, 1.244828483, 1.244828537);
    PowWithin(24, 1.244828483, 1.244828537, 24, 1.244828483, 1.244828537, 1.549597952, 1.549598087);
    PowWithin(48, 1.549597952, 1.549598087, 12, 1.115718819, 1.115718843, 1.728915596, 1.728915785);
    PowWithin(48, 1.549597952, 1.549598087, 24, 1.244828483, 1.244828537, 1.928983667, 1.928983920);
    PowWithin(60, 1.728915596, 1.728915785, 24, 1.244828483, 1.244828537, 2.152203378, 2.152203708);
  }

  /** The instalment that repays a lakh while it grows by the factor `p`. */
  ghost function Annuity(p: real): real
    requires p > 1.0
  {
    100000.0 * (0.11 / 12.0) * p / (p - 1.0)
  }

  lemma QuotientBetween(n: real, d: real, lo: real, hi: real)
    requires d > 0.0 && lo * d < n < hi * d
    ensures lo < n / d < hi
  {
    var a := n / d;
    assert a * d == n;
    MulOrder(a, lo, d);
    MulOrder(hi, a, d);
  }

  lemma AnnuityWithin(p: real, lo: real, hi: real, e: real)
    requires 1.0 < lo <= p <= hi && e > 1.0
    requires (e - 0.5) * (hi - 1.0) < 100000.0 * (0.11 / 12.0) * lo
    requires 100000.0 * (0.11 / 12.0) * hi < (e + 0.5) * (lo - 1.0)
    ensures e - 0.5 < Annuity(p) < e + 0.5
  {
    MulOrder(p - 1.0, hi - 1.0, e - 0.5);
    MulOrder(lo - 1.0, p - 1.0, e + 0.5);
    QuotientBetween(100000.0 * (0.11 / 12.0) * p, p - 1.0, e - 0.5, e + 0.5);
  }

  /** The tabulated instalments are the nearest rupee to the annuity at 11% over 60, 72 and 84 months. */
  lemma InstalmentsAreTheAnnuity()
    ensures Pow(GROWTH, 60) > 1.0 && Pow(GROWTH, 72) > 1.0 && Pow(GROWTH, 84) > 1.0
    ensures -0.5 < PerLakhEmi(5) as real - Annuity(Pow(GROWTH, 60)) < 0.5
    ensures -0.5 < PerLakhEmi(6) as real - Annuity(Pow(GROWTH, 72)) < 0.5
    ensures -0.5 < PerLakhEmi(7) as real - Annuity(Pow(GROWTH, 84)) < 0.5
  {
    GrowthOverTheTenures();
    InstalmentsAreNear(Pow(GROWTH, 60), Pow(GROWTH, 72), Pow(GROWTH, 84));
  }

  lemma InstalmentsAreNear(p: real, q: real, r: real)
    requires 1.72891 <= p <= 1.72892 && 1.92898 <= q <= 1.92899 && 2.15220 <= r <= 2.15221
    ensures -0.5 < PerLakhEmi(5) as real - Annuity(p) < 0.5
    ensures -0.5 < PerLakhEmi(6) as real - Annuity(q) < 0.5
    ensures -0.5 < PerLakhEmi(7) as real - Annuity(r) < 0.5
  {
    AnnuityWithin(p, 1.72891, 1.72892, 2174.0);
    AnnuityWithin(q, 1.92898, 1.92899, 1903.0);
    AnnuityWithin(r, 2.15220, 2.15221, 1712.0);
  }

  /** Rounding to paise gives whole paise, at most half a paisa away. */
  lemma Round2IsNearest(x: real)
    ensures IsWhole(Round2(x) * 100.0)
    ensures -0.005 <= Round2(x) - x <= 0.005
  {
    RoundHalfEvenIsNearest(x * 100.0);
    assert Round2(x) * 100.0 == RoundHalfEven(x * 100.0) as real;
  }

  /** The figures of a quote: the cap is 70% of the income to the nearest paisa, the available amount what
      the obligations leave of it to the nearest paisa; other tenures than 5, 6 and 7 years are refused. */
  lemma QuoteFigures(req: Request)
    ensures CalculateFoir(req) == BadTenure <==> req.tenure < 5 || req.tenure > 7
    ensures CalculateFoir(req).Quote? ==>
              var q := CalculateFoir(req);
              && IsWhole(q.maxTotal * 100.0) && -0.005 <= q.maxTotal - req.income * 0.7 <= 0.005
              && IsWhole(q.available * 100.0)
              && -0.005 <= q.available - (q.maxTotal - req.existingEmi - req.other) <= 0.005
              && (q.eligible <==> q.available > 0.0) && (!q.eligible ==> q.loan == 0.0 && q.lakh == 0.0)
  {
    var m := Round2(req.income * FOIR_CAP);
    Round2IsNearest(req.income * FOIR_CAP);
    Round2IsNearest(m - req.existingEmi - req.other);
  }

  lemma RoundHalfEvenIsNearest(x: real)
    ensures -0.5 <= RoundHalfEven(x) as real - x <= 0.5
    ensures forall n: int {:trigger n as real} :: n as real == x ==> RoundHalfEven(x) == n
    ensures x - x.Floor as real == 0.5 ==> RoundHalfEven(x) % 2 == 0
  {
  }

  lemma RoundHalfEvenMonotone(x: real, y: real)
    requires x <= y
    ensures RoundHalfEven(x) <= RoundHalfEven(y)
  {
  }

  lemma Round2Monotone(x: real, y: real)
    requires x <= y
    ensures Round2(x) <= Round2(y)
  {
    RoundHalfEvenMonotone(x * 100.0, y * 100.0);
  }

  /** Loans come in steps of 10,000; step k costs k tenths of the per-lakh instalment. */
  lemma EmiOfStep(k: int, perLakh: int)
    ensures Emi(k as real * 10000.0, perLakh) == k as real * perLakh as real / 10.0
  {
  }

  /** k is the largest number of steps affordable from `available`. */
  lemma FloorIsLargestStep(available: real, perLakh: int, k: int)
    requires perLakh > 0
    ensures var f := (available / perLakh as real * 100000.0 / 10000.0).Floor;
            k <= f <==> Emi(k as real * 10000.0, perLakh) <= available
  {
    var p := perLakh as real;
    var q := available / p;
    assert q * p == available;
    var ten := q * 100000.0 / 10000.0;
    assert ten == q * 10.0;
    assert k <= ten.Floor <==> k as real <= ten;
    EmiOfStep(k, perLakh);
    assert k as real <= q * 10.0 <==> k as real * p <= q * 10.0 * p by {
      MulOrder(k as real, q * 10.0, p);
    }
    assert q * 10.0 * p == 10.0 * available;
  }

  lemma MulOrder(a: real, b: real, p: real)
    requires p > 0.0
    ensures a <= b <==> a * p <= b * p
  {
    if a <= b {
      assert (b - a) * p >= 0.0;
    } else {
      assert (a - b) * p > 0.0;
    }
  }

  /** The quoted loan is the largest multiple of 10,000 whose instalment fits the available amount,
      and dividing it into lakhs loses nothing to rounding. */
  lemma LoanIsLargestAffordable(req: Request, k: int)
    requires req.tenure in {5, 6, 7}
    ensures var q := CalculateFoir(req);
            && q.eligible == (q.available > 0.0)
            && (q.eligible ==>
                  && IsWhole(q.loan / 10000.0)
                  && Emi(q.loan, q.perLakh) <= q.available
                  && (Emi(k as real * 10000.0, q.perLakh) <= q.available ==> k as real * 10000.0 <= q.loan))
            && q.lakh * 100000.0 == q.loan
  {
    var q := CalculateFoir(req);
    if q.eligible {
      var f := (q.available / q.perLakh as real * 100000.0 / 10000.0).Floor;
      FloorIsLargestStep(q.available, q.perLakh, f);
      FloorIsLargestStep(q.available, q.perLakh, k);
      FloorIsLargestStep(q.available, q.perLakh, 0);
      assert f >= 0;
      assert q.loan == f as real * 10000.0;
      var tenth := q.loan / 100000.0 * 100.0;
      assert tenth == (10 * f) as real;
      RoundHalfEvenIsNearest(tenth);
    }
  }

  /** The number of 10,000 steps in the loan an amount affords. */
  ghost function Steps(available: real, perLakh: int): int
    requires perLakh > 0
  {
    (available / perLakh as real * 100000.0 / 10000.0).Floor
  }

  lemma StepsMonotone(a: real, b: real, p: int, q: int)
    requires 0.0 <= a <= b && 0 < q <= p
    ensures 0 <= Steps(a, p) <= Steps(b, q)
  {
    var f := Steps(a, p);
    FloorIsLargestStep(a, p, f);
    FloorIsLargestStep(a, p, 0);
    EmiOfStep(0, p);
    EmiOfStep(f, p);
    EmiOfStep(f, q);
    assert f as real * (p as real - q as real) >= 0.0;
    FloorIsLargestStep(b, q, f);
  }

  /** The loan an available amount affords, 0 when there is none. */
  ghost function LoanFor(available: real, perLakh: int): real
    requires perLakh > 0
  {
    if available <= 0.0 then 0.0 else Steps(available, perLakh) as real * 10000.0
  }

  lemma QuotedLoan(req: Request)
    requires req.tenure in {5, 6, 7}
    ensures CalculateFoir(req).loan == LoanFor(Round2(ExactHeadroom(req)), PerLakhEmi(req.tenure))
  {
  }

  lemma LoanForMonotone(a: real, b: real, p: int, q: int)
    requires a <= b && 0 < q <= p
    ensures LoanFor(a, p) <= LoanFor(b, q)
  {
    if a > 0.0 {
      StepsMonotone(a, b, p, q);
    } else if b > 0.0 {
      StepsMonotone(0.0, b, q, q);
    }
  }

  lemma HeadroomMonotone(a: Request, b: Request)
    requires a.income <= b.income
    requires b.existingEmi + b.other <= a.existingEmi + a.other
    ensures Round2(ExactHeadroom(a)) <= Round2(ExactHeadroom(b))
  {
    Round2Monotone(a.income * FOIR_CAP, b.income * FOIR_CAP);
    Round2Monotone(ExactHeadroom(a), ExactHeadroom(b));
  }

  /** More income or a longer tenure never lowers the loan; more obligations never raise it. */
  lemma LoanIsMonotone(a: Request, b: Request)
    requires a.tenure in {5, 6, 7} && b.tenure in {5, 6, 7}
    requires a.income <= b.income && a.tenure <= b.tenure
    requires b.existingEmi + b.other <= a.existingEmi + a.other
    ensures CalculateFoir(a).loan <= CalculateFoir(b).loan
  {
    HeadroomMonotone(a, b);
    QuotedLoan(a);
    QuotedLoan(b);
    var ra, rb := Round2(ExactHeadroom(a)), Round2(ExactHeadroom(b));
    LoanForMonotone(ra, rb, PerLakhEmi(a.tenure), PerLakhEmi(b.tenure));
  }

  /** No paise amount lies strictly between a value and its rounding. */
  lemma NothingBetweenValueAndRounding(x: real, n: int)
    ensures x < n as real <= RoundHalfEven(x) as real ==> n == RoundHalfEven(x)
  {
    RoundHalfEvenIsNearest(x);
  }

  lemma CancelFactor(a: real, b: real, p: real)
    requires p > 0.0 && a * p == b * p
    ensures a == b
  {
    MulOrder(a, b, p);
    MulOrder(b, a, p);
  }

  /** An instalment above the value but within its rounding equals the rounding. */
  lemma InstalmentAboveValue(a: real, p: int, k: int)
    requires p > 0 && a < Emi(k as real * 10000.0, p) <= Round2(a)
    ensures Emi(k as real * 10000.0, p) == Round2(a)
    ensures Round2(a) * 10.0 / p as real == k as real
  {
    EmiOfStep(k, p);
    var e := Emi(k as real * 10000.0, p);
    var n := 10 * (k * p);
    assert e * 100.0 == n as real;
    NothingBetweenValueAndRounding(a * 100.0, n);
    var ratio := Round2(a) * 10.0 / p as real;
    assert ratio * p as real == k as real * p as real;
    CancelFactor(ratio, k as real, p as real);
  }

  /** If the rounding is itself an instalment, it is the one quoted. */
  lemma RoundingIsQuotedInstalment(r: real, p: int)
    requires p > 0 && IsWhole(r * 10.0 / p as real)
    ensures Emi(Steps(r, p) as real * 10000.0, p) == r
  {
    var ratio := r * 10.0 / p as real;
    assert ratio * p as real == r * 10.0;
    var q := r / p as real;
    assert q * p as real == r;
    CancelFactor(q * 10.0, ratio, p as real);
    EmiOfStep(ratio.Floor, p);
  }

  /** The quoted instalment exceeds the unrounded amount exactly when rounding went up onto it. */
  lemma QuotedInstalmentAboveValue(a: real, p: int)
    requires p > 0
    ensures var e := Emi(Steps(Round2(a), p) as real * 10000.0, p);
            && (e > a <==> Round2(a) > a && IsWhole(Round2(a) * 10.0 / p as real))
            && e <= Round2(a)
  {
    var r, k := Round2(a), Steps(Round2(a), p);
    FloorIsLargestStep(r, p, k);
    if Emi(k as real * 10000.0, p) > a {
      InstalmentAboveValue(a, p, k);
      assert IsWhole(k as real);
    } else if IsWhole(r * 10.0 / p as real) {
      RoundingIsQuotedInstalment(r, p);
    }
  }

  /** An eligible quote breaks the rounded cap exactly when rounding lifted the headroom onto an
      exact instalment, and then by at most half a paisa. */
  lemma CapIsBrokenExactlyByRoundingUp(req: Request)
    requires req.tenure in {5, 6, 7} && CalculateFoir(req).eligible
    ensures TotalObligations(req) > CalculateFoir(req).maxTotal <==> RoundedUpOntoInstalment(req)
    ensures TotalObligations(req) <= CalculateFoir(req).maxTotal + 0.005
  {
    var q, a := CalculateFoir(req), ExactHeadroom(req);
    assert q.available == Round2(a) && q.loan == Steps(Round2(a), q.perLakh) as real * 10000.0;
    var e := Emi(q.loan, q.perLakh);
    assert TotalObligations(req) == q.maxTotal - a + e;
    QuotedInstalmentAboveValue(a, q.perLakh);
    RoundHalfEvenIsNearest(a * 100.0);
  }

  /** Obligations stated in whole paise always keep an eligible quote within the cap. */
  lemma PaiseAmountsStayWithinCap(req: Request)
    requires req.tenure in {5, 6, 7}
    ensures CalculateFoir(req).eligible && IsWhole(req.existingEmi * 100.0) && IsWhole(req.other * 100.0) ==>
              TotalObligations(req) <= CalculateFoir(req).maxTotal
  {
    if !(CalculateFoir(req).eligible && IsWhole(req.existingEmi * 100.0) && IsWhole(req.other * 100.0)) {
      return;
    }
    var a := ExactHeadroom(req);
    var n := RoundHalfEven(req.income * FOIR_CAP * 100.0) - (req.existingEmi * 100.0).Floor - (req.other * 100.0).Floor;
    assert a * 100.0 == n as real;
    RoundHalfEvenIsNearest(a * 100.0);
    CapIsBrokenExactlyByRoundingUp(req);
  }

  /** Less than a paisa of existing obligations can push a quote over its own cap. */
  lemma RoundingCanBreakTheCap()
    ensures var req := Request(3105.71, 0.004, 0.0, 5);
            && req.Accepted()
            && CalculateFoir(req).eligible
            && TotalObligations(req) > CalculateFoir(req).maxTotal
  {
    var req := Request(3105.71, 0.004, 0.0, 5);
    assert req.income * FOIR_CAP * 100.0 == 217399.7;
    assert (217399.7).Floor == 217399;
    assert Round2(req.income * FOIR_CAP) == 2174.0;
    assert ExactHeadroom(req) == 2173.996;
    assert (217399.6).Floor == 217399;
    assert Round2(2173.996) == 2174.0;
    CapIsBrokenExactlyByRoundingUp(req);
    assert (2174.0 * 10.0 / 2174.0).Floor == 10;
  }
}
