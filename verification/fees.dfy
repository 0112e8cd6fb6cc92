/** The fee rule (internal/utils/utils.go, CalcFee) as a minute-by-minute meter, and what it promises. */
module Fees {
  type Pos = n: int | 0 < n witness 1

  datatype Rule = Rule(
    freeMin: nat, firstMin: nat, firstPrice: nat, unitMin: Pos, unitPrice: nat,
    dailyCap: nat, maxDays: nat, maxFee: nat, lostFee: nat, damageFee: nat,
    isDefault: bool, active: bool)

  datatype Fee = Fee(total: nat, capHit: bool, days: nat)

  const DAY := 1440

  /** The rule the service seeds an empty database with. */
  const SEEDED := Rule(5, 30, 200, 30, 100, 3000, 30, 29900, 29900, 9900, true, true)

  // ---------- the meter ----------

  /** What is on the meter: whole days folded into the daily cap, minutes of the open day, and their price. */
  datatype Meter = Meter(days: nat, minutes: nat, fee: nat)

  predicate Folds(r: Rule) {
    r.maxDays > 0 && r.dailyCap > 0
  }

  /** One more billable minute: it opens the first period or a unit when entered, or completes a day. */
  function Tick(r: Rule, m: Meter): Meter {
    var k := m.minutes + 1;
    if Folds(r) && k == DAY && m.days < r.maxDays then
      Meter(m.days + 1, 0, 0)
    else
      Meter(m.days, k, m.fee
                       + (if k == 1 then r.firstPrice else 0)
                       + (if k > r.firstMin && (k - r.firstMin - 1) % r.unitMin == 0 then r.unitPrice else 0))
  }

  function Metered(r: Rule, n: nat): Meter {
    if n == 0 then Meter(0, 0, 0) else Tick(r, Metered(r, n - 1))
  }

  function Uncapped(r: Rule, m: Meter): nat {
    m.days * r.dailyCap + m.fee
  }

  /** The reading turned into money. The daily cap is applied last, and only while no day has been folded. */
  function Bill(r: Rule, m: Meter): Fee {
    if m.days == 0 && r.dailyCap > 0 && m.fee > r.dailyCap then Fee(r.dailyCap, true, 0)
    else if r.maxFee > 0 && Uncapped(r, m) > r.maxFee then Fee(r.maxFee, true, m.days)
    else Fee(Uncapped(r, m), false, m.days)
  }

  /** Started minutes; a negative duration has none. */
  function Minutes(sec: int): int {
    (sec + 59) / 60
  }

  function FeeOf(r: Rule, sec: int): Fee {
    var min := Minutes(sec);
    if min <= r.freeMin then Fee(0, false, 0) else Bill(r, Metered(r, min - r.freeMin))
  }

  // ---------- the closed form ----------

  function Days(r: Rule, n: nat): nat {
    if !Folds(r) then 0 else if n / DAY > r.maxDays then r.maxDays else n / DAY
  }

  function Units(k: nat, u: Pos): nat {
    (k + u - 1) / u
  }

  function PeriodFee(r: Rule, k: nat): nat {
    if k == 0 then 0
    else if k <= r.firstMin then r.firstPrice
    else r.firstPrice + Units(k - r.firstMin, r.unitMin) * r.unitPrice
  }

  /** Entering minute k + 1 starts a unit exactly when the k minutes before it filled whole units. */
  lemma UnitsStep(k: nat, u: Pos)
    ensures Units(k + 1, u) == Units(k, u) + (if k % u == 0 then 1 else 0)
  {
    var q, m := k / u, k % u;
    assert k == q * u + m;
    DivUnique(k + u, u, q + 1, m);
    if m == 0 {
      DivUnique(k + u - 1, u, q, u - 1);
    } else {
      DivUnique(k + u - 1, u, q + 1, m - 1);
    }
  }

  lemma DivUnique(a: int, u: Pos, q: int, m: int)
    requires a == q * u + m && 0 <= m < u
    ensures a / u == q
  {
    var e, m' := a / u - q, a % u;
    assert a == (a / u) * u + m';
    assert e * u == m - m';
    assert e >= 1 ==> e * u >= u;
    assert e <= -1 ==> e * u + u <= 0;
  }

  lemma DaysStep(r: Rule, n: nat)
    ensures var k := n - DAY * Days(r, n) + 1;
            var folded := Folds(r) && k == DAY && Days(r, n) < r.maxDays;
            && k >= 1
            && Days(r, n + 1) == Days(r, n) + (if folded then 1 else 0)
            && n + 1 - DAY * Days(r, n + 1) == if folded then 0 else k
  {
  }

  lemma PeriodFeeStep(r: Rule, k: nat)
    ensures PeriodFee(r, k + 1) == PeriodFee(r, k)
                                   + (if k == 0 then r.firstPrice else 0)
                                   + (if k >= r.firstMin && (k - r.firstMin) % r.unitMin == 0 then r.unitPrice else 0)
  {
    if k >= r.firstMin {
      var j := k - r.firstMin;
      UnitsStep(j, r.unitMin);
      var u0, u1 := Units(j, r.unitMin), Units(j + 1, r.unitMin);
      assert u1 == u0 + 1 ==> u1 * r.unitPrice == u0 * r.unitPrice + r.unitPrice;
      if j == 0 { DivUnique(r.unitMin - 1, r.unitMin, 0, r.unitMin - 1); }
    }
  }

  /** Reading the meter after n minutes is the closed form: days by division, units by rounding up. */
  lemma {:induction false} MeterIsClosedForm(r: Rule, n: nat)
    ensures var m := Metered(r, n);
            m.days == Days(r, n) && m.minutes == n - DAY * Days(r, n) && m.fee == PeriodFee(r, m.minutes)
  {
    if n > 0 {
      MeterIsClosedForm(r, n - 1);
      DaysStep(r, n - 1);
      PeriodFeeStep(r, Metered(r, n - 1).minutes);
    }
  }

  lemma TotalIsClosedForm(r: Rule, n: nat)
    ensures var d := Days(r, n);
            n - DAY * d >= 0
            && Bill(r, Metered(r, n)) == Bill(r, Meter(d, n - DAY * d, PeriodFee(r, n - DAY * d)))
  {
    MeterIsClosedForm(r, n);
  }

  /** The open day: the first period's price and a price per started unit after it. */
  method PeriodCharge(remainAfter: nat, r: Rule) returns (periodFee: nat)
    ensures periodFee == PeriodFee(r, remainAfter)
  {
    periodFee := 0;
    if remainAfter > 0 {
      if remainAfter <= r.firstMin {
        periodFee := r.firstPrice;
      } else {
        periodFee := r.firstPrice;
        var afterFirst := remainAfter - r.firstMin;
        var units := (afterFirst + r.unitMin - 1) / r.unitMin;
        periodFee := periodFee + units * r.unitPrice;
      }
    }
  }

  /** The service's computation: division, rounding up and caps in the order the source applies them. */
  method CalcFee(durationSec: int, r: Rule) returns (total: nat, capHit: bool, days: nat)
    ensures Fee(total, capHit, days) == FeeOf(r, durationSec)
  {
    var totalMin := (durationSec + 59) / 60;
    if totalMin <= r.freeMin {
      return 0, false, 0;
    }
    var remainMin := totalMin - r.freeMin;
    days := 0;
    var remainAfter: int := remainMin;
    if r.maxDays > 0 && r.dailyCap > 0 {
      days := remainMin / 1440;
      if days > r.maxDays {
        days := r.maxDays;
      }
      remainAfter := remainMin - days * 1440;
      if remainAfter < 0 {
        remainAfter := 0;
      }
    }
    assert days == Days(r, remainMin) && remainAfter == remainMin - DAY * days >= 0;
    var periodFee := PeriodCharge(remainAfter, r);
    TotalIsClosedForm(r, remainMin);
    var dailyFee := days * r.dailyCap;
    total := dailyFee + periodFee;
    capHit := false;
    if r.maxFee > 0 && total > r.maxFee {
      total := r.maxFee;
      capHit := true;
    }
    if r.dailyCap > 0 && periodFee > r.dailyCap && days == 0 {
      periodFee := r.dailyCap;
      total := dailyFee + periodFee;
      capHit := true;
    }
  }

  /** A started minute counts whole: more than k minutes and up to k + 1 are billed as k + 1. */
  lemma StartedMinutesCount(r: Rule, k: nat, sec: int)
    requires 60 * k < sec <= 60 * (k + 1)
    ensures FeeOf(r, sec) == if k + 1 <= r.freeMin then Fee(0, false, 0) else Bill(r, Metered(r, k + 1 - r.freeMin))
  {
  }

  /** Up to the free minutes nothing is due, whatever the sign of the duration. */
  lemma FreeMinutesCostNothing(r: Rule, sec: int)
    requires sec <= 60 * r.freeMin
    ensures FeeOf(r, sec) == Fee(0, false, 0)
  {
  }

  lemma UnitsUnique(k: nat, u: Pos, q: nat)
    requires (q - 1) * u < k <= q * u
    ensures Units(k, u) == q
  {
    DivUnique(k + u - 1, u, q, k + u - 1 - q * u);
  }

  /** Any bill in terms of the rule and the seconds: `minutes` started, `days` of them folded into the daily cap, `rest`
      minutes left, `units` started after the first period. The daily cap comes last and only when no day is folded. */
  lemma BillFromSeconds(r: Rule, sec: int, minutes: nat, days: nat, rest: int, units: nat)
    requires 60 * (minutes - 1) < sec <= 60 * minutes && minutes > r.freeMin
    requires rest == minutes - r.freeMin - 1440 * days >= 0
    requires if r.maxDays > 0 && r.dailyCap > 0 then days <= r.maxDays && (days < r.maxDays ==> rest < 1440)
             else days == 0
    requires if rest > r.firstMin then (units - 1) * r.unitMin < rest - r.firstMin <= units * r.unitMin else units == 0
    ensures var price := if rest == 0 then 0 else r.firstPrice + units * r.unitPrice;
            var whole := days * r.dailyCap + price;
            FeeOf(r, sec) == if days == 0 && r.dailyCap > 0 && price > r.dailyCap then Fee(r.dailyCap, true, 0)
                             else if r.maxFee > 0 && whole > r.maxFee then Fee(r.maxFee, true, days)
                             else Fee(whole, false, days)
  {
    var n := minutes - r.freeMin;
    StartedMinutesCount(r, minutes - 1, sec);
    assert Days(r, n) == days;
    if rest > r.firstMin { UnitsUnique(rest - r.firstMin, r.unitMin, units); }
    TotalIsClosedForm(r, n);
  }

  /** The cap flag tells exactly whether a cap took something off. */
  lemma CapHitMeansReduced(r: Rule, sec: int)
    requires Minutes(sec) > r.freeMin
    ensures FeeOf(r, sec).capHit <==> FeeOf(r, sec).total < Uncapped(r, Metered(r, Minutes(sec) - r.freeMin))
    ensures FeeOf(r, sec).total <= Uncapped(r, Metered(r, Minutes(sec) - r.freeMin))
  {
  }

  // ---------- monotonicity ----------

  function Total(r: Rule, n: nat): nat {
    Bill(r, Metered(r, n)).total
  }

  ghost predicate Monotone(r: Rule) {
    forall s, t :: s <= t ==> FeeOf(r, s).total <= FeeOf(r, t).total
  }

  /** The price of a day's last partial minute count, before it folds. */
  function PartialDay(r: Rule): nat {
    PeriodFee(r, DAY - 1)
  }

  /** What to check on a rule: folding a day must not make the bill drop, unless the total cap hides the drop. */
  predicate NoDrop(r: Rule) {
    || !Folds(r)
    || PartialDay(r) <= r.dailyCap
    || (&& (r.maxFee == 0 || r.dailyCap <= r.maxFee)
        && (r.maxDays == 1 || 0 < r.maxFee <= 2 * r.dailyCap))
  }

  lemma UnitsMonotone(a: nat, b: nat, u: Pos)
    requires a <= b
    ensures Units(a, u) <= Units(b, u)
    decreases b
  {
    if a < b {
      UnitsMonotone(a, b - 1, u);
      UnitsStep(b - 1, u);
    }
  }

  lemma PeriodFeeMonotone(r: Rule, a: nat, b: nat)
    requires a <= b
    ensures PeriodFee(r, a) <= PeriodFee(r, b)
  {
    if r.firstMin < a {
      UnitsMonotone(a - r.firstMin, b - r.firstMin, r.unitMin);
      MulMonotone(Units(a - r.firstMin, r.unitMin), Units(b - r.firstMin, r.unitMin), r.unitPrice);
    }
  }

  lemma MulMonotone(a: nat, b: nat, c: nat)
    requires a <= b
    ensures a * c <= b * c
  {
  }

  lemma TotalStep(r: Rule, n: nat)
    requires NoDrop(r)
    ensures Total(r, n) <= Total(r, n + 1)
  {
    MeterIsClosedForm(r, n);
    DaysStep(r, n);
    PeriodFeeMonotone(r, n - DAY * Days(r, n), n - DAY * Days(r, n) + 1);
    BillStep(r, Metered(r, n));
  }

  lemma BillStep(r: Rule, m: Meter)
    requires NoDrop(r) && m.fee == PeriodFee(r, m.minutes)
    ensures Bill(r, m).total <= Bill(r, Tick(r, m)).total
  {
    var m' := Tick(r, m);
    if m'.days == m.days {
      assert Uncapped(r, m') >= Uncapped(r, m);
    } else {
      assert Uncapped(r, m') == Uncapped(r, m) - m.fee + r.dailyCap;
      if m.days >= 1 { MulMonotone(1, m.days, r.dailyCap); }
    }
  }

  lemma {:induction false} TotalMonotone(r: Rule, a: nat, b: nat)
    requires NoDrop(r) && a <= b
    ensures Total(r, a) <= Total(r, b)
    decreases b
  {
    if a < b {
      TotalMonotone(r, a, b - 1);
      TotalStep(r, b - 1);
    }
  }

  /** A duration of freeMin + n whole minutes has n billable ones. */
  lemma AtMinute(r: Rule, n: nat)
    requires n > 0
    ensures FeeOf(r, 60 * (r.freeMin + n)).total == Total(r, n)
  {
    assert Minutes(60 * (r.freeMin + n)) == r.freeMin + n;
  }

  lemma FeeMonotone(r: Rule, s: int, t: int)
    requires NoDrop(r) && s <= t
    ensures FeeOf(r, s).total <= FeeOf(r, t).total
  {
    if Minutes(s) > r.freeMin {
      TotalMonotone(r, Minutes(s) - r.freeMin, Minutes(t) - r.freeMin);
    }
  }

  /** The bill never drops as time passes if and only if the rule passes NoDrop. */
  lemma MonotoneIffNoDrop(r: Rule)
    ensures Monotone(r) <==> NoDrop(r)
  {
    if NoDrop(r) {
      forall s: int, t: int | s <= t ensures FeeOf(r, s).total <= FeeOf(r, t).total {
        FeeMonotone(r, s, t);
      }
    } else {
      var n := if r.maxFee != 0 && r.maxFee < r.dailyCap then DAY - 1 else 2 * DAY - 1;
      DropAt(r, n);
      AtMinute(r, n);
      AtMinute(r, n + 1);
    }
  }

  lemma DropAt(r: Rule, n: nat)
    requires !NoDrop(r)
    requires n == if r.maxFee != 0 && r.maxFee < r.dailyCap then DAY - 1 else 2 * DAY - 1
    ensures Total(r, n) > Total(r, n + 1)
  {
    MeterIsClosedForm(r, n);
    MeterIsClosedForm(r, n + 1);
  }

  /** The seeded rule fails the condition: each of the days 2 to 9 costs 19 yuan less once its last minute is used. */
  lemma SeededRuleDrops(r: Rule, d: nat)
    requires r == SEEDED && 1 <= d <= 8
    ensures !Monotone(r)
    ensures var last := 60 * (5 + DAY * (d + 1) - 1);
            && FeeOf(r, last).total == 3000 * d + 4900
            && FeeOf(r, last + 60).total == 3000 * (d + 1)
  {
    var n := DAY * (d + 1) - 1;
    assert PeriodFee(r, DAY - 1) == 4900;
    assert Days(r, n) == d && Days(r, n + 1) == d + 1;
    SeededReading(r, d);
    MonotoneIffNoDrop(r);
    assert Minutes(60 * (5 + n)) == 5 + n;
  }

  lemma SeededReading(r: Rule, d: nat)
    requires r == SEEDED && 1 <= d <= 8
    ensures Total(r, DAY * (d + 1) - 1) == 3000 * d + 4900
    ensures Total(r, DAY * (d + 1)) == 3000 * (d + 1)
  {
    var n: nat := DAY * (d + 1) - 1;
    assert Days(r, n) == d && Days(r, n + 1) == d + 1;
    SeededBill(r, d);
    MeterIsClosedForm(r, n);
    MeterIsClosedForm(r, n + 1);
  }

  lemma SeededBill(r: Rule, d: nat)
    requires r == SEEDED && 1 <= d <= 8
    ensures PeriodFee(r, DAY - 1) == 4900
    ensures Bill(r, Meter(d, DAY - 1, 4900)).total == 3000 * d + 4900
    ensures Bill(r, Meter(d + 1, 0, 0)).total == 3000 * (d + 1)
  {
    assert d * r.dailyCap == d * 3000;
  }

  // ---------- the total cap ----------

  ghost predicate WithinMaxFee(r: Rule) {
    forall sec :: FeeOf(r, sec).total <= r.maxFee
  }

  /** The daily cap, applied last, cannot lift a bill above the total cap. */
  predicate CapsAgree(r: Rule) {
    || r.dailyCap <= r.maxFee
    || (if r.maxDays > 0 then PartialDay(r) <= r.dailyCap
        else r.firstPrice <= r.dailyCap && r.unitPrice == 0)
  }

  /** A total cap bounds every bill if and only if the rule passes CapsAgree. */
  lemma MaxFeeBoundsIffCapsAgree(r: Rule)
    requires r.maxFee > 0
    ensures WithinMaxFee(r) <==> CapsAgree(r)
  {
    if CapsAgree(r) {
      forall sec: int ensures FeeOf(r, sec).total <= r.maxFee {
        if Minutes(sec) > r.freeMin {
          BoundAt(r, Minutes(sec) - r.freeMin);
        }
      }
    } else {
      var n := if r.maxDays > 0 then DAY - 1 else r.firstMin + r.unitMin * (r.dailyCap + 1);
      MulMonotone(1, r.dailyCap + 1, r.unitMin);
      OverAt(r, n);
      AtMinute(r, n);
    }
  }

  lemma BoundAt(r: Rule, n: nat)
    requires r.maxFee > 0 && CapsAgree(r)
    ensures Total(r, n) <= r.maxFee
  {
    MeterIsClosedForm(r, n);
    var m := Metered(r, n);
    if r.maxFee < r.dailyCap && m.days == 0 {
      if r.maxDays > 0 {
        PeriodFeeMonotone(r, m.minutes, DAY - 1);
      }
    }
  }

  lemma OverAt(r: Rule, n: nat)
    requires r.maxFee > 0 && !CapsAgree(r)
    requires n == if r.maxDays > 0 then DAY - 1 else r.firstMin + r.unitMin * (r.dailyCap + 1)
    ensures Total(r, n) > r.maxFee
  {
    MeterIsClosedForm(r, n);
    if r.maxDays == 0 {
      WholeUnits(r.dailyCap + 1, r.unitMin);
      DearUnits(r, n, r.dailyCap + 1);
    }
  }

  lemma WholeUnits(k: nat, u: Pos)
    ensures u * k >= k && Units(u * k, u) == k
  {
    MulMonotone(1, u, k);
    DivUnique(u * k + u - 1, u, k, u - 1);
  }

  lemma DearUnits(r: Rule, n: nat, k: nat)
    requires k > 0 && n > r.firstMin && Units(n - r.firstMin, r.unitMin) == k
    ensures PeriodFee(r, n) >= r.firstPrice + (if r.unitPrice > 0 then k else 0)
  {
    if r.unitPrice > 0 { MulMonotone(1, r.unitPrice, k); }
  }
}
