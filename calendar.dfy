/** Calendar dates and the half-year ("semester") window the report covers
    (gold_evo.py, semester_start and the start/today pair built in main). */
module Calendar {

  /** A calendar date, as a Python `date` holds it. */
  datatype Date = Date(year: int, month: int, day: int)

  /** A reporting window: from the start of the half-year up to today, inclusive. */
  datatype Window = Window(start: Date, end: Date)

  predicate IsLeapYear(year: int) {
    year % 4 == 0 && (year % 100 != 0 || year % 400 == 0)
  }

  function DaysInMonth(year: int, month: int): (n: int)
    requires 1 <= month <= 12
    ensures 28 <= n <= 31
    ensures month == 2 <==> n < 30
  {
    if month == 2 then (if IsLeapYear(year) then 29 else 28)
    else if month == 4 || month == 6 || month == 9 || month == 11 then 30
    else 31
  }

  /** The dates a Python `date` object can hold (years 1 to 9999). */
  predicate Valid(d: Date) {
    1 <= d.year <= 9999 && 1 <= d.month <= 12 && 1 <= d.day <= DaysInMonth(d.year, d.month)
  }

  /** Chronological order on dates. */
  predicate OnOrBefore(a: Date, b: Date) {
    a.year < b.year || (a.year == b.year && (a.month < b.month || (a.month == b.month && a.day <= b.day)))
  }

  predicate Precedes(a: Date, b: Date) {
    OnOrBefore(a, b) && a != b
  }

  /** January 1 or July 1. */
  predicate IsHalfYearStart(d: Date) {
    d.day == 1 && (d.month == 1 || d.month == 7)
  }

  /** Both dates fall in January-June, or both in July-December, of the same year. */
  predicate SameHalfYear(a: Date, b: Date) {
    a.year == b.year && (a.month <= 6 <==> b.month <= 6)
  }

  /** The first day of the half-year containing `today`. The three facts in the
      contract determine the result: only one half-year start lies in today's half. */
  function SemesterStart(today: Date): (start: Date)
    requires Valid(today)
    ensures Valid(start) && IsHalfYearStart(start)
    ensures SameHalfYear(start, today)
    ensures OnOrBefore(start, today)
  {
    if today.month <= 6 then Date(today.year, 1, 1) else Date(today.year, 7, 1)
  }

  /** The window `main` passes to the fetch: [semester start, today]. */
  function CurrentWindow(today: Date): (w: Window)
    requires Valid(today)
    ensures w.end == today
    ensures IsHalfYearStart(w.start) && SameHalfYear(w.start, w.end)
    ensures OnOrBefore(w.start, w.end)
  {
    Window(SemesterStart(today), today)
  }

  /** No half-year start lies strictly between the semester start and today:
      the semester start is the latest January 1 or July 1 on or before today. */
  lemma SemesterStartIsLatest(today: Date, h: Date)
    requires Valid(today)
    requires IsHalfYearStart(h) && OnOrBefore(h, today)
    ensures OnOrBefore(h, SemesterStart(today))
  {
  }

  /** Two dates of the same half-year get the same window start, and a later
      date never gets an earlier start. */
  lemma SemesterStartMonotone(a: Date, b: Date)
    requires Valid(a) && Valid(b) && OnOrBefore(a, b)
    ensures OnOrBefore(SemesterStart(a), SemesterStart(b))
    ensures SameHalfYear(a, b) ==> SemesterStart(a) == SemesterStart(b)
  {
  }

  /** A half-year start is its own semester start. */
  lemma SemesterStartIdempotent(today: Date)
    requires Valid(today)
    ensures SemesterStart(SemesterStart(today)) == SemesterStart(today)
  {
  }
}
