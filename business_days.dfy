/** Pickup-date arithmetic of the order webhook: adding N business days
    (Monday to Friday, no holidays) to the date an order was created.

    A JavaScript `Date` is abstracted as a whole day number: the number of
    days since 1970-01-01 in the server's local calendar. Only the day
    matters to the calculation (it reads `getDay` and moves by whole days),
    so the time of day is not represented. */
module BusinessDays {

  /** 1970-01-01, day 0, was a Thursday. */
  const EpochWeekday := 4

  /** `getDay` numbering: 0 is Sunday, 6 is Saturday. */
  const Sunday := 0
  const Friday := 5
  const Saturday := 6

  /** The number of business days added when the caller gives none. */
  const DefaultBusinessDays := 3

  /** Weekday of day number `d`, as `Date.prototype.getDay` numbers it. */
  function Weekday(d: int): (w: int)
    ensures 0 <= w < 7
  {
    (d + EpochWeekday) % 7
  }

  predicate IsBusinessDay(d: int) {
    Weekday(d) != Sunday && Weekday(d) != Saturday
  }

  /** The number of business days in the half-open interval (start, end]. */
  function BusinessDaysBetween(start: int, end: int): (n: nat)
    ensures end <= start ==> n == 0
    ensures start <= end ==> n <= end - start
    decreases end - start
  {
    if end <= start then 0
    else BusinessDaysBetween(start, end - 1) + (if IsBusinessDay(end) then 1 else 0)
  }

  /** The first business day strictly after `d`. */
  function NextBusinessDay(d: int): (r: int)
    ensures d < r <= d + 3
    ensures IsBusinessDay(r)
    ensures forall e :: d < e < r ==> !IsBusinessDay(e)
  {
    var w := Weekday(d);
    WeekdayShift(d, 1);
    WeekdayShift(d, 2);
    WeekdayShift(d, 3);
    if w == Friday then d + 3
    else if w == Saturday then d + 2
    else
      d + 1
  }

  /** Reference definition of the pickup date: step from business day to
      business day `n` times. A non-positive `n` asks for no business day,
      and the start date itself is the answer. */
  function PickupDate(start: int, n: int): (r: int)
    ensures start <= r
    ensures n <= 0 ==> r == start
    ensures n >= 1 ==> start < r && IsBusinessDay(r)
    decreases n
  {
    if n <= 0 then start else NextBusinessDay(PickupDate(start, n - 1))
  }

  /** What the pickup date is, stated without saying how to find it: the
      first date at or after `start` at which exactly `n` business days
      have been counted in (start, r]. */
  ghost predicate IsPickupDate(start: int, n: int, r: int) {
    && start <= r
    && BusinessDaysBetween(start, r) == (if n <= 0 then 0 else n)
    && forall e :: start <= e < r ==> BusinessDaysBetween(start, e) < n
  }

  /** Counting across days that are all weekend days adds nothing. */
  lemma {:induction false} CountAcrossWeekend(start: int, p: int, e: int)
    requires start <= p <= e
    requires forall x :: p < x <= e ==> !IsBusinessDay(x)
    ensures BusinessDaysBetween(start, e) == BusinessDaysBetween(start, p)
    decreases e - p
  {
    if e > p {
      CountAcrossWeekend(start, p, e - 1);
    }
  }

  /** Exactly `n` business days lie in (start, PickupDate(start, n)]. */
  lemma {:induction false} PickupDateCountsExactly(start: int, n: int)
    ensures BusinessDaysBetween(start, PickupDate(start, n)) == (if n <= 0 then 0 else n)
    decreases n
  {
    if n > 0 {
      var p := PickupDate(start, n - 1);
      var q := NextBusinessDay(p);
      PickupDateCountsExactly(start, n - 1);
      CountAcrossWeekend(start, p, q - 1);
    }
  }

  /** No date before PickupDate(start, n) has counted `n` business days yet. */
  lemma {:induction false} PickupDateIsFirst(start: int, n: int)
    ensures forall e :: start <= e < PickupDate(start, n) ==> BusinessDaysBetween(start, e) < n
    decreases n
  {
    if n > 0 {
      var p := PickupDate(start, n - 1);
      PickupDateIsFirst(start, n - 1);
      PickupDateCountsExactly(start, n - 1);
      forall e | start <= e < PickupDate(start, n)
        ensures BusinessDaysBetween(start, e) < n
      {
        if e >= p {
          CountAcrossWeekend(start, p, e);
        }
      }
    }
  }

  /** PickupDate meets the description IsPickupDate, and it is the only
      date that does. */
  lemma PickupDateIsUnique(start: int, n: int, r: int)
    ensures IsPickupDate(start, n, r) <==> r == PickupDate(start, n)
  {
    var p := PickupDate(start, n);
    PickupDateCountsExactly(start, n);
    PickupDateIsFirst(start, n);
  }

  /** The arithmetic form of PickupDate. `anchor` is the last business day
      at or before `start` when `start` is a weekend day, and `start`
      itself otherwise; `pos` is the anchor's place in its week
      (0 for Monday up to 4 for Friday). */
  function PickupDateClosedForm(start: int, n: int): (r: int)
  {
    if n <= 0 then start
    else
      var w := Weekday(start);
      var back := if w == Saturday then 1 else if w == Sunday then 2 else 0;
      var pos := if w == Saturday || w == Sunday then 4 else w - 1;
      start - back + n + 2 * ((pos + n) / 5)
  }

  /** Weekdays repeat every seven days and advance by one each day. */
  lemma {:induction false} WeekdayShift(d: int, k: int)
    ensures Weekday(d + k) == (Weekday(d) + k) % 7
  {
  }

  /** The closed form's first step and every later step are one hop to the
      next business day, as in PickupDate. */
  lemma ClosedFormStartsAtNextBusinessDay(start: int)
    ensures PickupDateClosedForm(start, 1) == NextBusinessDay(start)
  {
  }

  lemma ClosedFormStep(start: int, n: int)
    requires n >= 1
    ensures NextBusinessDay(PickupDateClosedForm(start, n)) == PickupDateClosedForm(start, n + 1)
  {
  }

  /** The recursive definition and the closed form agree. */
  lemma {:induction false} PickupDateMatchesClosedForm(start: int, n: int)
    ensures PickupDate(start, n) == PickupDateClosedForm(start, n)
    decreases n
  {
    if n == 1 {
      ClosedFormStartsAtNextBusinessDay(start);
    } else if n > 1 {
      PickupDateMatchesClosedForm(start, n - 1);
      ClosedFormStep(start, n - 1);
    }
  }

  /** Adding `n` business days moves the date forward by at least `n` and at
      most n + 2 * ceil(n / 5) calendar days: each started block of five
      business days can cost at most one weekend. */
  lemma PickupDateBounds(start: int, n: int)
    requires n >= 0
    ensures n <= PickupDate(start, n) - start <= n + 2 * ((n + 4) / 5)
  {
    PickupDateMatchesClosedForm(start, n);
  }

  /** Every seven consecutive days hold exactly five business days. */
  lemma BusinessDaysPerWeek(d: int)
    ensures BusinessDaysBetween(d, d + 7) == 5
  {
    WeekdayShift(d, 1);
    WeekdayShift(d, 2);
    WeekdayShift(d, 3);
    WeekdayShift(d, 4);
    WeekdayShift(d, 5);
    WeekdayShift(d, 6);
    WeekdayShift(d, 7);
    assert BusinessDaysBetween(d, d + 7) == BusinessDaysBetween(d, d + 6) + (if IsBusinessDay(d + 7) then 1 else 0);
    assert BusinessDaysBetween(d, d + 6) == BusinessDaysBetween(d, d + 5) + (if IsBusinessDay(d + 6) then 1 else 0);
    assert BusinessDaysBetween(d, d + 5) == BusinessDaysBetween(d, d + 4) + (if IsBusinessDay(d + 5) then 1 else 0);
    assert BusinessDaysBetween(d, d + 4) == BusinessDaysBetween(d, d + 3) + (if IsBusinessDay(d + 4) then 1 else 0);
    assert BusinessDaysBetween(d, d + 3) == BusinessDaysBetween(d, d + 2) + (if IsBusinessDay(d + 3) then 1 else 0);
    assert BusinessDaysBetween(d, d + 2) == BusinessDaysBetween(d, d + 1) + (if IsBusinessDay(d + 2) then 1 else 0);
  }

  /** One iteration of the day-walking loop keeps the walker between the
      date reached after `k` business days and the next business day, and
      lands exactly on the next one when it counts a day. */
  lemma WalkStep(start: int, k: nat, f: int)
    requires PickupDate(start, k) <= f < NextBusinessDay(PickupDate(start, k))
    ensures IsBusinessDay(f + 1) ==> f + 1 == PickupDate(start, k + 1)
    ensures !IsBusinessDay(f + 1) ==> f + 1 < NextBusinessDay(PickupDate(start, k))
  {
  }

  /** A JavaScript `Date`, reduced to its day number. `setDate(getDate() + 1)`
      moves it to the next calendar day, whatever the month. */
  class Date {
    var day: int

    /** `new Date(other)`: a distinct object holding the same moment. */
    constructor Copy(other: Date)
      ensures day == other.day
    {
      day := other.day;
    }

    /** `getDay()`: the loop counts a day exactly when this is neither 0
        (Sunday) nor 6 (Saturday). */
    function GetDay(): (w: int)
      reads this
      ensures 0 <= w < 7
      ensures (w != Sunday && w != Saturday) <==> IsBusinessDay(day)
    {
      Weekday(day)
    }
  }

  /** `calcularFechaRetiro`: walks forward from a copy of `fechaInicio` one
      calendar day at a time, counting the days that are not Saturday or
      Sunday, until `diasHabiles` of them have been counted. */
  method CalcularFechaRetiro(fechaInicio: Date, diasHabiles: int := DefaultBusinessDays)
    returns (fecha: Date)
    ensures fresh(fecha) && unchanged(fechaInicio)
    ensures fecha.day == PickupDate(fechaInicio.day, diasHabiles)
    ensures IsPickupDate(fechaInicio.day, diasHabiles, fecha.day)
    ensures diasHabiles <= 0 ==> fecha.day == fechaInicio.day
    ensures diasHabiles >= 1 ==> fechaInicio.day < fecha.day && IsBusinessDay(fecha.day)
  {
    var diasSumados := 0;
    fecha := new Date.Copy(fechaInicio);
    ghost var start := fechaInicio.day;
    while diasSumados < diasHabiles
      invariant fechaInicio.day == start
      invariant 0 <= diasSumados && (diasSumados <= diasHabiles || diasSumados == 0)
      invariant PickupDate(start, diasSumados) <= fecha.day < NextBusinessDay(PickupDate(start, diasSumados))
      invariant fecha.day == PickupDate(start, diasSumados) || diasSumados < diasHabiles
      decreases diasHabiles - diasSumados, NextBusinessDay(PickupDate(start, diasSumados)) - fecha.day
    {
      WalkStep(start, diasSumados, fecha.day);
      fecha.day := fecha.day + 1;
      var diaDeLaSemana := fecha.GetDay();
      if diaDeLaSemana != Sunday && diaDeLaSemana != Saturday {
        diasSumados := diasSumados + 1;
      }
    }
    PickupDateIsUnique(start, diasHabiles, fecha.day);
  }

  /** Friday 2024-06-07 (day 19881) plus three business days is Wednesday
      2024-06-12; Monday 2024-06-10 plus three is Thursday 2024-06-13. */
  lemma ThreeBusinessDaysExamples()
    ensures Weekday(19881) == Friday && PickupDate(19881, 3) == 19886
    ensures Weekday(19884) == 1 && PickupDate(19884, 3) == 19887
  {
  }
}
