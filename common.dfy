/**
 * Identifiers, calendar dates and times of day as the services use them
 * (java.util.UUID, java.time.LocalDate, LocalTime and LocalDateTime).
 */
module Common {

  /** A UUID, compared only for equality. */
  type Uuid = nat

  /** A LocalDate as its epoch day (LocalDate.toEpochDay): 0 is 1970-01-01. */
  type Date = int

  const NanosPerSecond: int := 1_000_000_000
  const NanosPerDay: int := 86_400 * NanosPerSecond

  /** A LocalTime as nanoseconds since midnight. */
  type NanoOfDay = n: int | 0 <= n < NanosPerDay

  /** LocalTime.of(hour, minute, second): a whole second of the day, counted from midnight. */
  function TimeOf(hour: int, minute: int, second: int): (t: NanoOfDay)
    requires 0 <= hour < 24 && 0 <= minute < 60 && 0 <= second < 60
    ensures t % NanosPerSecond == 0
    ensures t / NanosPerSecond == hour * 3600 + minute * 60 + second
  {
    ((hour * 60 + minute) * 60 + second) * NanosPerSecond
  }

  /** (hour, minute, second) comes strictly before (hour2, minute2, second2) on the clock face. */
  predicate ClockBefore(hour: int, minute: int, second: int, hour2: int, minute2: int, second2: int) {
    hour < hour2 || (hour == hour2 && (minute < minute2 || (minute == minute2 && second < second2)))
  }

  /** LocalTime.isBefore on times built by LocalTime.of is the clock-face order; so isAfter is its mirror image. */
  lemma TimeOfOrder(hour: int, minute: int, second: int, hour2: int, minute2: int, second2: int)
    requires 0 <= hour < 24 && 0 <= minute < 60 && 0 <= second < 60
    requires 0 <= hour2 < 24 && 0 <= minute2 < 60 && 0 <= second2 < 60
    ensures TimeOf(hour, minute, second) < TimeOf(hour2, minute2, second2)
            <==> ClockBefore(hour, minute, second, hour2, minute2, second2)
    ensures TimeOf(hour, minute, second) == TimeOf(hour2, minute2, second2)
            <==> hour == hour2 && minute == minute2 && second == second2
  {
    var a := hour * 3600 + minute * 60 + second;
    var b := hour2 * 3600 + minute2 * 60 + second2;
    assert TimeOf(hour, minute, second) == a * NanosPerSecond;
    assert TimeOf(hour2, minute2, second2) == b * NanosPerSecond;
  }

  /** A LocalDateTime: a date and a time of day. */
  datatype DateTime = DateTime(date: Date, time: NanoOfDay)

  /** Nanoseconds since the start of 1970-01-01; orders DateTime values as LocalDateTime.compareTo does. */
  function Instant(t: DateTime): int {
    t.date * NanosPerDay + t.time
  }

  /** LocalDate.plusDays. */
  function PlusDays(d: Date, days: int): Date {
    d + days
  }

  datatype DayOfWeek = Monday | Tuesday | Wednesday | Thursday | Friday | Saturday | Sunday

  /** LocalDate.getDayOfWeek: 1970-01-01 was a Thursday, and the week repeats every seven days. */
  function DayOfWeekOf(d: Date): (w: DayOfWeek)
    ensures d == 0 ==> w == Thursday
  {
    var k := (d + 3) % 7;
    if k == 0 then Monday
    else if k == 1 then Tuesday
    else if k == 2 then Wednesday
    else if k == 3 then Thursday
    else if k == 4 then Friday
    else if k == 5 then Saturday
    else Sunday
  }

  /** The day of the week repeats every seven days. */
  lemma WeekRepeats(d: Date)
    ensures DayOfWeekOf(d + 7) == DayOfWeekOf(d)
  {
    assert (d + 7 + 3) % 7 == (d + 3) % 7;
  }
}
