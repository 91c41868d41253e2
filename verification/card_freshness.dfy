/**
 How recent an award must be: civil dates, the six-month cutoff for pushing a card, and the
 grade of a lead.
 */
module CardFreshness {
  import opened Options

  // ---------------------------------------------------------------- civil dates

  datatype Date = Date(year: int, month: int, day: int)

  predicate Leap(y: int) { y % 4 == 0 && (y % 100 != 0 || y % 400 == 0) }

  function DaysIn(y: int, m: int): int {
    if m == 2 then (if Leap(y) then 29 else 28)
    else if m == 4 || m == 6 || m == 9 || m == 11 then 30
    else 31
  }

  predicate ValidDate(d: Date) {
    1 <= d.year <= 9999 && 1 <= d.month <= 12 && 1 <= d.day <= DaysIn(d.year, d.month)
  }

  predicate Before(a: Date, b: Date) {
    a.year < b.year || (a.year == b.year && (a.month < b.month || (a.month == b.month && a.day < b.day)))
  }

  predicate NotAfter(a: Date, b: Date) { !Before(b, a) }

  /** Days since the day before 0001-01-01. */
  function Ordinal(d: Date): int { DaysBeforeYear(d.year) + DaysBeforeMonth(d.year, d.month) + d.day }

  function DaysBeforeYear(y: int): int { 365 * (y - 1) + (y - 1) / 4 - (y - 1) / 100 + (y - 1) / 400 }

  function DaysBeforeMonth(y: int, m: int): int
    decreases m
  {
    if m <= 1 then 0 else DaysBeforeMonth(y, m - 1) + DaysIn(y, m - 1)
  }

  lemma Fourths(y: int)
    ensures y / 4 == (y - 1) / 4 + if y % 4 == 0 then 1 else 0
  {
  }

  lemma Hundredths(y: int)
    ensures y / 100 == (y - 1) / 100 + if y % 100 == 0 then 1 else 0
    ensures y % 100 == 0 ==> y % 4 == 0
  {
    if y % 100 == 0 { assert y == 4 * (25 * (y / 100)); }
  }

  lemma FourHundredths(y: int)
    ensures y / 400 == (y - 1) / 400 + if y % 400 == 0 then 1 else 0
    ensures y % 400 == 0 ==> y % 100 == 0
  {
    if y % 400 == 0 { assert y == 100 * (4 * (y / 400)); }
  }

  lemma YearLength(y: int)
    requires y >= 1
    ensures DaysBeforeYear(y + 1) == DaysBeforeYear(y) + if Leap(y) then 366 else 365
  {
    Fourths(y);
    Hundredths(y);
    FourHundredths(y);
  }

  /** The month offsets, written out. */
  lemma MonthOffsets(y: int)
    ensures var l := if Leap(y) then 1 else 0;
      && DaysBeforeMonth(y, 1) == 0 && DaysBeforeMonth(y, 2) == 31 && DaysBeforeMonth(y, 3) == 59 + l
      && DaysBeforeMonth(y, 4) == 90 + l && DaysBeforeMonth(y, 5) == 120 + l && DaysBeforeMonth(y, 6) == 151 + l
      && DaysBeforeMonth(y, 7) == 181 + l && DaysBeforeMonth(y, 8) == 212 + l && DaysBeforeMonth(y, 9) == 243 + l
      && DaysBeforeMonth(y, 10) == 273 + l && DaysBeforeMonth(y, 11) == 304 + l && DaysBeforeMonth(y, 12) == 334 + l
  {
    assert DaysBeforeMonth(y, 3) == DaysBeforeMonth(y, 2) + DaysIn(y, 2);
    assert DaysBeforeMonth(y, 5) == DaysBeforeMonth(y, 4) + DaysIn(y, 4);
    assert DaysBeforeMonth(y, 7) == DaysBeforeMonth(y, 6) + DaysIn(y, 6);
    assert DaysBeforeMonth(y, 9) == DaysBeforeMonth(y, 8) + DaysIn(y, 8);
    assert DaysBeforeMonth(y, 11) == DaysBeforeMonth(y, 10) + DaysIn(y, 10);
  }

  lemma {:induction false} YearsGrow(a: int, b: int)
    requires 1 <= a < b
    ensures DaysBeforeYear(a) + (if Leap(a) then 366 else 365) <= DaysBeforeYear(b)
    decreases b
  {
    YearLength(b - 1);
    if a < b - 1 { YearsGrow(a, b - 1); }
  }

  /** Comparing dates field by field is comparing day counts. */
  lemma OrderIsOrdinal(a: Date, b: Date)
    requires ValidDate(a) && ValidDate(b)
    ensures Before(a, b) <==> Ordinal(a) < Ordinal(b)
  {
    MonthOffsets(a.year);
    MonthOffsets(b.year);
    if a.year < b.year { YearsGrow(a.year, b.year); }
    if b.year < a.year { YearsGrow(b.year, a.year); }
  }

  // ---------------------------------------------------------------- the cutoff

  const CARD_MAX_AWARD_MONTHS := 6

  function Clamped(day: int, last: int): int { if day < last then day else last }

  /** `card_award_cutoff`: six calendar months back, the day clamped to the month. Years before 1 do
      not exist: None where the source raises. */
  function Cutoff(today: Date): Option<Date> {
    var index := today.year * 12 + (today.month - 1) - CARD_MAX_AWARD_MONTHS;
    var year, month := index / 12, index % 12 + 1;
    if year < 1 then None
    else Some(Date(year, month, Clamped(today.day, DaysIn(year, month))))
  }

  lemma CutoffMonth(today: Date)
    requires ValidDate(today)
    ensures var index := today.year * 12 + (today.month - 1) - CARD_MAX_AWARD_MONTHS;
      index / 12 == (if today.month > 6 then today.year else today.year - 1)
      && index % 12 + 1 == (if today.month > 6 then today.month - 6 else today.month + 6)
  {
  }

  /** The cutoff exists for every date but those of the first half of year 1. */
  lemma CutoffExists(today: Date)
    requires ValidDate(today)
    ensures Cutoff(today).None? <==> today.year == 1 && today.month <= 6
    ensures Cutoff(today).Some? ==> ValidDate(Cutoff(today).value) && Before(Cutoff(today).value, today)
  {
    CutoffMonth(today);
  }

  /** Main result: it lies 181 to 184 days back. */
  lemma CutoffDistance(today: Date)
    requires ValidDate(today) && Cutoff(today).Some?
    ensures 181 <= Ordinal(today) - Ordinal(Cutoff(today).value) <= 184
  {
    if today.month > 6 { SameYearDistance(today); } else { YearBeforeDistance(today); }
  }

  lemma CutoffAt(today: Date, year: int, month: int)
    requires ValidDate(today) && year >= 1 && 1 <= month <= 12
    requires year * 12 + month - 1 == today.year * 12 + today.month - 1 - CARD_MAX_AWARD_MONTHS
    ensures Cutoff(today) == Some(Date(year, month, Clamped(today.day, DaysIn(year, month))))
  {
    assert (year * 12 + month - 1) / 12 == year && (year * 12 + month - 1) % 12 == month - 1;
  }

  lemma SameYearDistance(today: Date)
    requires ValidDate(today) && today.month > 6
    ensures Cutoff(today).Some? && 181 <= Ordinal(today) - Ordinal(Cutoff(today).value) <= 184
  {
    var year, month := today.year, today.month - 6;
    CutoffAt(today, year, month);
    MonthOffsets(year);
    var dayInYear := DaysBeforeMonth(year, month) + Clamped(today.day, DaysIn(year, month));
    assert 181 <= DaysBeforeMonth(year, today.month) + today.day - dayInYear <= 184;
    assert Ordinal(Cutoff(today).value) == DaysBeforeYear(year) + dayInYear;
  }

  lemma YearBeforeDistance(today: Date)
    requires ValidDate(today) && today.month <= 6 && today.year > 1
    ensures Cutoff(today).Some? && 181 <= Ordinal(today) - Ordinal(Cutoff(today).value) <= 184
  {
    var year, month := today.year - 1, today.month + 6;
    CutoffAt(today, year, month);
    MonthOffsets(today.year);
    MonthOffsets(year);
    YearLength(year);
    var dayInYear := DaysBeforeMonth(year, month) + Clamped(today.day, DaysIn(year, month));
    var length := if Leap(year) then 366 else 365;
    assert 181 <= length + DaysBeforeMonth(today.year, today.month) + today.day - dayInYear <= 184;
    assert Ordinal(Cutoff(today).value) == DaysBeforeYear(year) + dayInYear;
    assert Ordinal(today) == DaysBeforeYear(year) + length + DaysBeforeMonth(today.year, today.month) + today.day;
  }

  /** Main result: it never moves back as time goes on. */
  lemma CutoffMonotone(a: Date, b: Date)
    requires ValidDate(a) && ValidDate(b) && NotAfter(a, b) && Cutoff(a).Some?
    ensures Cutoff(b).Some? && NotAfter(Cutoff(a).value, Cutoff(b).value)
  {
    CutoffMonth(a);
    CutoffMonth(b);
  }

  /** `award_is_card_fresh`. An undated award is not; neither is one in the future. */
  predicate CardFresh(occurred: Option<Date>, today: Date) {
    occurred.Some? && Cutoff(today).Some?
    && NotAfter(Cutoff(today).value, occurred.value) && NotAfter(occurred.value, today)
  }

  /** Main result: the days on which an award may be pushed start with its own date and have no gap. */
  lemma FreshDaysAreAnInterval(occurred: Date, today: Date, later: Date)
    requires ValidDate(occurred) && ValidDate(today) && ValidDate(later)
    requires Cutoff(occurred).Some?
    ensures CardFresh(Some(occurred), occurred)
    ensures CardFresh(Some(occurred), later) && NotAfter(occurred, today) && NotAfter(today, later) ==>
      CardFresh(Some(occurred), today)
    ensures Before(today, occurred) ==> !CardFresh(Some(occurred), today)
    ensures Ordinal(today) > Ordinal(occurred) + 184 ==> !CardFresh(Some(occurred), today)
    ensures Ordinal(occurred) <= Ordinal(today) <= Ordinal(occurred) + 181 ==> CardFresh(Some(occurred), today)
  {
    CutoffExists(occurred);
    OrderIsOrdinal(today, occurred);
    OrderIsOrdinal(occurred, today);
    if NotAfter(occurred, today) {
      CutoffMonotone(occurred, today);
      CutoffDistance(today);
      CutoffExists(today);
      OrderIsOrdinal(Cutoff(today).value, occurred);
      OrderIsOrdinal(occurred, Cutoff(today).value);
      if NotAfter(today, later) {
        CutoffMonotone(today, later);
      }
    }
  }

  // ---------------------------------------------------------------- the grade

  const FRESH_MONTHS := 12

  datatype Grade = Gold | Silver | Watch
  datatype Origin = Award | Rfp | Other

  datatype Item = Item(origin: Origin, amount: Option<real>, end: Option<Date>, eventDate: Option<Date>)

  /** `grade`. */
  function GradeOf(it: Item, today: Date): Grade {
    match it.origin
    case Award =>
      if it.amount.None? || it.amount.value <= 0.0 then Watch
      else if it.end.None? || Before(it.end.value, today) then Watch
      else if it.eventDate.None? then Silver
      else if Ordinal(it.eventDate.value) < Ordinal(today) - FRESH_MONTHS * 30 then Silver
      else Gold
    case Rfp => if it.end.Some? && NotAfter(today, it.end.value) then Silver else Watch
    case Other => Watch
  }

  /** Money, and a window that is still open. */
  predicate Fundable(it: Item, today: Date) {
    it.amount.Some? && it.amount.value > 0.0 && it.end.Some? && NotAfter(today, it.end.value)
  }

  /** Main result: whatever may be pushed as a card, has money and is still open, is graded gold; and
      only awards with money, an open window and a date at most 360 days old are. */
  lemma CardFreshAwardsAreGold(it: Item, today: Date)
    requires ValidDate(today) && it.origin.Award?
    requires it.eventDate.Some? ==> ValidDate(it.eventDate.value)
    ensures CardFresh(it.eventDate, today) && Fundable(it, today) ==> GradeOf(it, today).Gold?
    ensures GradeOf(it, today).Gold? <==>
      Fundable(it, today) && it.eventDate.Some? && Ordinal(today) - Ordinal(it.eventDate.value) <= 360
  {
    if CardFresh(it.eventDate, today) {
      CutoffDistance(today);
      CutoffExists(today);
      OrderIsOrdinal(it.eventDate.value, Cutoff(today).value);
    }
  }

  /** Main result, for every kind of item: an award without money or without an open window is watched, an
      older or undated one is silver; a request for proposals is silver until its deadline has passed, and
      never gold; anything else is watched. */
  lemma GradesExactly(it: Item, today: Date)
    requires ValidDate(today) && (it.end.Some? ==> ValidDate(it.end.value))
    requires it.eventDate.Some? ==> ValidDate(it.eventDate.value)
    ensures it.origin.Award? ==>
      && (GradeOf(it, today).Watch? <==>
            it.amount.None? || it.amount.value <= 0.0 || it.end.None? || Ordinal(it.end.value) < Ordinal(today))
      && (GradeOf(it, today).Silver? <==>
            Fundable(it, today) && (it.eventDate.None? || Ordinal(today) - Ordinal(it.eventDate.value) > 360))
    ensures it.origin.Rfp? ==>
      && !GradeOf(it, today).Gold?
      && (GradeOf(it, today).Silver? <==> it.end.Some? && Ordinal(today) <= Ordinal(it.end.value))
    ensures it.origin.Other? ==> GradeOf(it, today).Watch?
  {
    if it.end.Some? {
      OrderIsOrdinal(it.end.value, today);
      OrderIsOrdinal(today, it.end.value);
    }
  }
}
