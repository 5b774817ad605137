/** The goal tracker: progress towards each investment goal and the "time
    remaining" text shown while a goal is under 80% complete. Clock readings
    are inputs, in milliseconds. */
module GoalTracker {
  import opened Text

  /** A year of 365 days and a month of 30 days, in milliseconds. */
  const YearMs: nat := 1000 * 60 * 60 * 24 * 365
  const MonthMs: nat := 1000 * 60 * 60 * 24 * 30

  datatype Goal = Goal(id: nat, name: string, target: real, current: real, targetDate: string, color: string)

  const Goals: seq<Goal> := [
    Goal(1, "Retirement Fund", 500000.0, 125863.0, "2040-01-01", "bg-blue-500"),
    Goal(2, "House Down Payment", 100000.0, 78500.0, "2025-06-01", "bg-green-500"),
    Goal(3, "Education Fund", 50000.0, 12300.0, "2030-09-01", "bg-purple-500")
  ]

  /** `calculateProgress`: the percentage of the target reached. */
  function Progress(current: real, target: real): (p: real)
    requires target != 0.0
    ensures p * target == current * 100.0
  {
    (current / target) * 100.0
  }

  /** With a positive target, the "% there" message appears exactly when
      100 times the saved amount reaches 80 times the target. */
  lemma NearlyThere(current: real, target: real)
    requires target > 0.0
    ensures Progress(current, target) >= 80.0 <==> 100.0 * current >= 80.0 * target
  {
    var p := Progress(current, target);
    if p >= 80.0 {
      assert p * target >= 80.0 * target;
    }
    if 100.0 * current >= 80.0 * target {
      assert p * target >= 80.0 * target;
    }
  }

  /** `Math.abs(target - now)`. */
  function AbsDiff(targetMs: int, nowMs: int): (d: nat)
    ensures d == targetMs - nowMs || d == nowMs - targetMs
  {
    if targetMs >= nowMs then targetMs - nowMs else nowMs - targetMs
  }

  /** Whole 365-day years in `d`. */
  function DiffYears(d: nat): (years: nat)
    ensures years * YearMs <= d < (years + 1) * YearMs
  {
    d / YearMs
  }

  /** Whole 30-day months in what is left after the years; at most 12,
      since 365 days hold twelve 30-day months and 5 days. */
  function DiffMonths(d: nat): (months: nat)
    ensures months * MonthMs <= d % YearMs < (months + 1) * MonthMs
    ensures months <= 12
  {
    (d % YearMs) / MonthMs
  }

  /** `${n} word${n > 1 ? "s" : ""}`: the plural "s" only above one. */
  function Quantity(n: nat, word: string): (text: string)
    ensures |text| == |Decimal(n)| + 1 + |word| + (if n > 1 then 1 else 0)
    ensures text[..|Decimal(n)|] == Decimal(n) && text[|Decimal(n)|] == ' '
    ensures text[|Decimal(n)| + 1..|Decimal(n)| + 1 + |word|] == word
    ensures n > 1 <==> |text| > |Decimal(n)| + 1 + |word|
    ensures n > 1 ==> text[|text| - 1] == 's'
  {
    Decimal(n) + " " + word + (if n > 1 then "s" else "")
  }

  /** `getTimeRemaining`: "Y year[s] M month[s]" from a year away on,
      "M month[s]" below that. */
  function TimeRemaining(targetMs: int, nowMs: int): string
  {
    var d := AbsDiff(targetMs, nowMs);
    var years := DiffYears(d);
    var months := DiffMonths(d);
    if years > 0 then Quantity(years, "year") + " " + Quantity(months, "month")
    else Quantity(months, "month")
  }

  /** The line under a goal's bar: the "% there" message carrying the
      progress, or the time left to the target date. */
  datatype GoalLine = There(percent: real) | Remaining(text: string)

  /** From 80 percent on the goal shows how far along it is; below that,
      how long is left. */
  function GoalMessage(current: real, target: real, targetMs: int, nowMs: int): (m: GoalLine)
    requires target > 0.0
    ensures m.There? <==> 100.0 * current >= 80.0 * target
    ensures m.There? ==> m.percent * target == current * 100.0
    ensures m.Remaining? ==> m.text == TimeRemaining(targetMs, nowMs)
  {
    NearlyThere(current, target);
    var progress := Progress(current, target);
    if progress >= 80.0 then There(progress) else Remaining(TimeRemaining(targetMs, nowMs))
  }

  /** A date as far in the past as another is in the future reads the same. */
  lemma PastAndFutureAlike(nowMs: int, gap: nat)
    ensures TimeRemaining(nowMs + gap, nowMs) == TimeRemaining(nowMs - gap, nowMs)
  {
  }

  /** The years are mentioned exactly when the dates are a year or more
      apart; under a year the text counts the whole months of the gap. */
  lemma YearsMentionedFromAYear(targetMs: int, nowMs: int)
    ensures DiffYears(AbsDiff(targetMs, nowMs)) > 0 <==> AbsDiff(targetMs, nowMs) >= YearMs
    ensures AbsDiff(targetMs, nowMs) < YearMs ==>
      TimeRemaining(targetMs, nowMs) == Quantity(AbsDiff(targetMs, nowMs) / MonthMs, "month")
  {
    var d := AbsDiff(targetMs, nowMs);
    var years := DiffYears(d);
    if years > 0 {
      assert years * YearMs >= YearMs;
    }
    if d < YearMs {
      assert years == 0;
      assert d % YearMs == d;
    }
  }

  /** From a year apart on, the text is "Y year[s] M month[s]" where Y is the
      number of whole 365-day years in the gap and M the number of whole
      30-day months in what remains. */
  lemma YearsBranchText(targetMs: int, nowMs: int, years: nat, months: nat)
    requires years >= 1
    requires years * YearMs <= AbsDiff(targetMs, nowMs) < (years + 1) * YearMs
    requires months * MonthMs <= AbsDiff(targetMs, nowMs) - years * YearMs < (months + 1) * MonthMs
    ensures TimeRemaining(targetMs, nowMs) == Quantity(years, "year") + " " + Quantity(months, "month")
  {
    var d := AbsDiff(targetMs, nowMs);
    FloorUnique(DiffYears(d), years, d, YearMs);
    assert d == DiffYears(d) * YearMs + d % YearMs;
    FloorUnique(DiffMonths(d), months, d % YearMs, MonthMs);
  }

  /** Whole units in a quantity are unique: two counts that both bracket
      `d` between consecutive multiples of `unit` agree. */
  lemma FloorUnique(a: nat, b: nat, d: int, unit: nat)
    requires unit > 0
    requires a * unit <= d < (a + 1) * unit
    requires b * unit <= d < (b + 1) * unit
    ensures a == b
  {
    if a < b {
      MulMonotone(a + 1, b, unit);
    } else if b < a {
      MulMonotone(b + 1, a, unit);
    }
  }

  lemma {:induction false} MulMonotone(x: nat, y: nat, u: nat)
    requires x <= y
    ensures x * u <= y * u
  {
    if x < y {
      MulMonotone(x, y - 1, u);
      assert y * u == (y - 1) * u + u;
    }
  }

  /** Zero and one are both written without the plural "s". */
  lemma SingularBelowTwo()
    ensures Quantity(0, "month") == "0 month"
    ensures Quantity(1, "month") == "1 month"
    ensures Quantity(1, "year") == "1 year"
    ensures Quantity(2, "year") == "2 years"
  {
  }

  /** Twelve months can show: 360 days apart reads "12 months", while 365
      days apart reads "1 year 0 month". */
  lemma TwelveMonthsReachable(nowMs: int)
    ensures TimeRemaining(nowMs + 360 * 24 * 60 * 60 * 1000, nowMs) == "12 months"
    ensures TimeRemaining(nowMs + YearMs, nowMs) == "1 year 0 month"
  {
    var d := 360 * 24 * 60 * 60 * 1000;
    assert AbsDiff(nowMs + d, nowMs) == d == 31104000000;
    assert DiffYears(d) == 0 && DiffMonths(d) == 12;
    assert Decimal(12) == "12";
    assert AbsDiff(nowMs + YearMs, nowMs) == YearMs;
    assert DiffYears(YearMs) == 1 && DiffMonths(YearMs) == 0;
  }

  /** None of the sample goals is 80% complete, so each shows its time
      remaining. */
  lemma SampleGoalsShowTimeRemaining(targetMs: int, nowMs: int)
    ensures forall i :: 0 <= i < |Goals| ==> Progress(Goals[i].current, Goals[i].target) < 80.0
    ensures forall i :: 0 <= i < |Goals| ==>
      GoalMessage(Goals[i].current, Goals[i].target, targetMs, nowMs) == Remaining(TimeRemaining(targetMs, nowMs))
  {
    forall i | 0 <= i < |Goals|
      ensures Progress(Goals[i].current, Goals[i].target) < 80.0
    {
      NearlyThere(Goals[i].current, Goals[i].target);
    }
  }
}
