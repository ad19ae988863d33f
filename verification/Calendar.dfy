/**
  The authored calendar: settled game seconds become days of the Gregorian calendar,
  with the rest of a day carried over in milliseconds.
 */
module Calendar {
  import opened Prelude

  const MIN_YEAR := 1400
  const MAX_YEAR := 9999
  const MAX_DAYS := 10_000_000
  const MAX_MILLIS := 86_400_000
  const MAX_EPOCH := 1_000_000_000
  const MAX_SECONDS := 86_400

  // ---------------------------------------------------------------- dates

  datatype Date = Date(year: nat, month: nat, day: nat)

  predicate Leap(year: nat) { year % 4 == 0 && (year % 100 != 0 || year % 400 == 0) }

  function DaysIn(year: nat, month: nat): (n: nat)
    requires 1 <= month <= 12
    ensures 28 <= n <= 31
  {
    if month == 2 then (if Leap(year) then 29 else 28)
    else if month == 4 || month == 6 || month == 9 || month == 11 then 30
    else 31
  }

  /** A date of the Gregorian calendar; `Supported` adds the range that the game knows. */
  predicate Valid(d: Date) { 1 <= d.year && 1 <= d.month <= 12 && 1 <= d.day <= DaysIn(d.year, d.month) }

  predicate Supported(d: Date) { Valid(d) && MIN_YEAR <= d.year <= MAX_YEAR }

  function NextDay(d: Date): (n: Date)
    requires Valid(d)
    ensures Valid(n)
  {
    if d.day < DaysIn(d.year, d.month) then d.(day := d.day + 1)
    else if d.month < 12 then Date(d.year, d.month + 1, 1)
    else Date(d.year + 1, 1, 1)
  }

  /** The date so many days later, walked day by day. */
  function Later(d: Date, days: nat): (n: Date)
    requires Valid(d)
    ensures Valid(n)
  {
    if days == 0 then d else NextDay(Later(d, days - 1))
  }

  /** The number of a day, counted from the first day of year 1. */
  function Ordinal(d: Date): int
    requires Valid(d)
  {
    DaysBeforeYear(d.year) + DaysBeforeMonth(d.year, d.month) + d.day
  }

  function DaysBeforeYear(year: nat): int { (year - 1) * 365 + (year - 1) / 4 - (year - 1) / 100 + (year - 1) / 400 }

  function DaysBeforeMonth(year: nat, month: nat): nat
    requires 1 <= month <= 13
  {
    if month == 1 then 0 else DaysBeforeMonth(year, month - 1) + DaysIn(year, month - 1)
  }

  lemma MonthsAddUp(year: nat)
    ensures DaysBeforeMonth(year, 13) == if Leap(year) then 366 else 365
  {
    var spare := if Leap(year) then 1 else 0;
    assert DaysBeforeMonth(year, 2) == 31;
    assert DaysBeforeMonth(year, 3) == 59 + spare;
    assert DaysBeforeMonth(year, 5) == 120 + spare;
    assert DaysBeforeMonth(year, 7) == 181 + spare;
    assert DaysBeforeMonth(year, 9) == 243 + spare;
    assert DaysBeforeMonth(year, 11) == 304 + spare;
  }

  lemma LeapYearsAreCounted(year: nat)
    requires 1 <= year
    ensures DaysBeforeYear(year + 1) == DaysBeforeYear(year) + if Leap(year) then 366 else 365
  {
    FourthsStep(year);
    CenturiesStep(year);
    CyclesStep(year);
    CommonMultiples(year);
    LeapDays(year / 4, year / 100, year / 400, (year - 1) / 4, (year - 1) / 100, (year - 1) / 400, year);
  }

  /** The leap rule as a difference of three counts. */
  lemma LeapDays(f: int, h: int, q: int, f0: int, h0: int, q0: int, year: nat)
    requires f == f0 + if year % 4 == 0 then 1 else 0
    requires h == h0 + if year % 100 == 0 then 1 else 0
    requires q == q0 + if year % 400 == 0 then 1 else 0
    requires (year % 400 == 0 ==> year % 100 == 0) && (year % 100 == 0 ==> year % 4 == 0)
    ensures f - h + q == f0 - h0 + q0 + if Leap(year) then 1 else 0
  {
  }

  lemma FourthsStep(n: int)
    ensures n / 4 == (n - 1) / 4 + if n % 4 == 0 then 1 else 0
  {
  }

  lemma CenturiesStep(n: int)
    ensures n / 100 == (n - 1) / 100 + if n % 100 == 0 then 1 else 0
  {
  }

  lemma CyclesStep(n: int)
    ensures n / 400 == (n - 1) / 400 + if n % 400 == 0 then 1 else 0
  {
  }

  lemma CommonMultiples(n: int)
    ensures (n % 400 == 0 ==> n % 100 == 0) && (n % 100 == 0 ==> n % 4 == 0)
  {
    if n % 400 == 0 { IsCentury(n, 4 * (n / 400)); }
    if n % 100 == 0 { IsFourth(n, 25 * (n / 100)); }
  }

  lemma IsCentury(n: int, k: int)
    requires n == 100 * k
    ensures n % 100 == 0
  {
  }

  lemma IsFourth(n: int, k: int)
    requires n == 4 * k
    ensures n % 4 == 0
  {
  }

  lemma YearHasItsMonths(year: nat)
    requires 1 <= year
    ensures DaysBeforeYear(year + 1) == DaysBeforeYear(year) + DaysBeforeMonth(year, 13)
  {
    MonthsAddUp(year);
    LeapYearsAreCounted(year);
  }

  /** The calendar's successor is the successor of the number. */
  lemma NextDayCountsOne(d: Date)
    requires Valid(d)
    ensures Ordinal(NextDay(d)) == Ordinal(d) + 1
  {
    YearHasItsMonths(d.year);
  }

  lemma {:induction false} LaterCountsDays(d: Date, days: nat)
    requires Valid(d)
    ensures Ordinal(Later(d, days)) == Ordinal(d) + days
  {
    if days != 0 {
      LaterCountsDays(d, days - 1);
      NextDayCountsOne(Later(d, days - 1));
    }
  }

  lemma {:induction false} LaterIsAdditive(d: Date, a: nat, b: nat)
    requires Valid(d)
    ensures Later(Later(d, a), b) == Later(d, a + b)
  {
    if b != 0 { LaterIsAdditive(d, a, b - 1); }
  }

  lemma {:induction false} MonthsGrow(year: nat, m: nat, n: nat)
    requires 1 <= m <= n <= 13
    ensures DaysBeforeMonth(year, m) <= DaysBeforeMonth(year, n)
  {
    if m < n { MonthsGrow(year, m, n - 1); }
  }

  lemma {:induction false} YearsGrow(y: nat, z: nat)
    requires 1 <= y <= z
    ensures DaysBeforeYear(y) <= DaysBeforeYear(z)
  {
    if y < z {
      YearsGrow(y, z - 1);
      YearHasItsMonths(z - 1);
    }
  }

  predicate Before(d: Date, e: Date) {
    d.year < e.year || (d.year == e.year && (d.month < e.month || (d.month == e.month && d.day < e.day)))
  }

  /** Later dates have larger numbers, so a number names at most one date. */
  lemma OrdinalsFollowTheCalendar(d: Date, e: Date)
    requires Valid(d) && Valid(e)
    ensures (Ordinal(d) < Ordinal(e) <==> Before(d, e)) && (Ordinal(d) == Ordinal(e) <==> d == e)
  {
    if Before(d, e) { EarlierIsSmaller(d, e); }
    if Before(e, d) { EarlierIsSmaller(e, d); }
  }

  lemma EarlierIsSmaller(d: Date, e: Date)
    requires Valid(d) && Valid(e) && Before(d, e)
    ensures Ordinal(d) < Ordinal(e)
  {
    if d.year < e.year {
      YearsGrow(d.year + 1, e.year);
      YearHasItsMonths(d.year);
      MonthsGrow(d.year, d.month + 1, 13);
      MonthsGrow(e.year, 1, e.month);
    } else if d.month < e.month {
      MonthsGrow(d.year, d.month + 1, e.month);
    }
  }

  // ---------------------------------------------------------------- days are added

  datatype CalendarError = InvalidDate | InvalidDelta | OutOfRange | InvalidState | NotInitialized | WrongEpoch
                         | InvalidDuration | InvalidPayload | Diverges

  function AddDays(d: Date, delta: int): Result<Date, CalendarError> {
    if !Supported(d) then Err(InvalidDate)
    else if delta < 0 || delta > MAX_DAYS then Err(InvalidDelta)
    else if Later(d, delta).year > MAX_YEAR then Err(OutOfRange)
    else Ok(Later(d, delta))
  }

  const LAST_DAY := Date(MAX_YEAR, 12, 31)

  lemma SupportedSpan(d: Date)
    requires Supported(d)
    ensures 0 <= Ordinal(d) <= Ordinal(LAST_DAY) < MAX_DAYS
  {
    if d != LAST_DAY { EarlierIsSmaller(d, LAST_DAY); }
    LastDayNumber();
    assert DaysBeforeYear(d.year) >= 0;
  }

  lemma LastDayNumber()
    ensures Valid(LAST_DAY) && Ordinal(LAST_DAY) < MAX_DAYS
  {
    YearHasItsMonths(MAX_YEAR);
  }

  /** Adding days fails exactly past the last supported day; otherwise it yields the one date with that number. */
  lemma AddDaysIsOrdinalArithmetic(d: Date, delta: nat)
    requires Supported(d)
    ensures AddDays(d, delta).Ok? <==> Ordinal(d) + delta <= Ordinal(LAST_DAY)
    ensures forall e: Date :: Supported(e) ==> (AddDays(d, delta) == Ok(e) <==> Ordinal(e) == Ordinal(d) + delta)
  {
    var n := Later(d, delta);
    SupportedSpan(d);
    LaterCountsDays(d, delta);
    LastDayNumber();
    OrdinalsFollowTheCalendar(n, LAST_DAY);
    assert n.year <= MAX_YEAR <==> !Before(LAST_DAY, n);
    OrdinalsFollowTheCalendar(LAST_DAY, n);
    LaterYears(d, delta);
    forall e: Date | Supported(e) ensures AddDays(d, delta) == Ok(e) <==> Ordinal(e) == Ordinal(d) + delta {
      SupportedSpan(e);
      OrdinalsFollowTheCalendar(n, e);
    }
  }

  lemma {:induction false} LaterYears(d: Date, days: nat)
    requires Valid(d)
    ensures d.year <= Later(d, days).year
  {
    if days != 0 { LaterYears(d, days - 1); }
  }

  lemma AddDaysIsAdditive(d: Date, a: nat, b: nat)
    requires AddDays(d, a).Ok? && a + b <= MAX_DAYS
    ensures AddDays(AddDays(d, a).value, b) == AddDays(d, a + b)
  {
    LaterYears(d, a);
    LaterIsAdditive(d, a, b);
  }

  // ---------------------------------------------------------------- settlements

  datatype State = State(
    managed: bool, initialized: bool, millisPerDay: int, startDate: Option<Date>, currentDate: Option<Date>,
    elapsedDays: int, residualMillis: int, lastEpoch: int)

  datatype Payload = Payload(
    economyEpoch: int, advanced: bool, advancedDays: int, elapsedDays: int, residualMillis: int, date: Date)

  /** What a stored calendar has to meet to be read back. */
  predicate Readable(c: State) {
    && 0 <= c.millisPerDay <= MAX_MILLIS && 0 <= c.elapsedDays <= MAX_DAYS
    && 0 <= c.residualMillis <= MAX_MILLIS && 0 <= c.lastEpoch <= MAX_EPOCH
    && (if c.millisPerDay > 0 then c.residualMillis < c.millisPerDay else c.residualMillis == 0)
    && (c.startDate.Some? ==> Supported(c.startDate.value)) && (c.currentDate.Some? ==> Supported(c.currentDate.value))
    && (c.initialized ==> c.startDate.Some? && c.currentDate.Some?)
  }

  predicate Runs(c: State, scheduled: bool) { c.managed && scheduled && c.millisPerDay > 0 }

  /** The days of one settlement and the milliseconds left over. */
  function Advance(c: State, scheduled: bool, seconds: nat): (int, int) {
    if !Runs(c, scheduled) then (0, c.residualMillis)
    else ((c.residualMillis + seconds * 1000) / c.millisPerDay, (c.residualMillis + seconds * 1000) % c.millisPerDay)
  }

  /** The date after one settlement. */
  function DateAfter(c: State, days: int): Result<Date, CalendarError>
    requires c.currentDate.Some?
  {
    if days == 0 then Ok(c.currentDate.value) else AddDays(c.currentDate.value, days)
  }

  function PrepareSettlement(c: State, epoch: int, scheduled: bool, seconds: int): Result<(State, Payload), CalendarError> {
    if !Readable(c) then Err(InvalidState)
    else if !c.initialized then Err(NotInitialized)
    else if epoch < 1 || epoch > MAX_EPOCH || epoch != c.lastEpoch + 1 then Err(WrongEpoch)
    else if seconds < 1 || seconds > MAX_SECONDS then Err(InvalidDuration)
    else
      var (days, rest) := Advance(c, scheduled, seconds);
      var date := DateAfter(c, days);
      if date.Err? then Err(date.error)
      else
        var next := c.(residualMillis := rest, elapsedDays := c.elapsedDays + days, currentDate := Some(date.value), lastEpoch := epoch);
        Ok((next, Payload(epoch, c.managed && scheduled, days, next.elapsedDays, rest, date.value)))
  }

  predicate ValidPayload(p: Payload) {
    && 1 <= p.economyEpoch <= MAX_EPOCH && 0 <= p.advancedDays <= MAX_DAYS && 0 <= p.elapsedDays <= MAX_DAYS
    && 0 <= p.residualMillis <= MAX_MILLIS && Supported(p.date)
  }

  /** Replay of one settlement accepts a payload: it is valid, and the one that this calendar prepares. */
  predicate Accepts(c: State, received: Payload, epoch: int, scheduled: bool, seconds: int) {
    var prepared := PrepareSettlement(c, epoch, scheduled, seconds);
    ValidPayload(received) && prepared.Ok? && prepared.value.1 == received
  }

  class Model {
    var calendar: State

    constructor (c: State)
      ensures calendar == c
    {
      calendar := c;
    }

    /** Replay one settlement: the received payload has to be the one that this calendar prepares. */
    method ApplySettlement(received: Payload, epoch: int, scheduled: bool, seconds: int) returns (error: Option<CalendarError>)
      modifies this
      ensures error.None? <==> Accepts(old(calendar), received, epoch, scheduled, seconds)
      ensures error.None? ==> calendar == PrepareSettlement(old(calendar), epoch, scheduled, seconds).value.0
      ensures error.Some? ==> calendar == old(calendar)
    {
      if !ValidPayload(received) { return Some(InvalidPayload); }
      match PrepareSettlement(calendar, epoch, scheduled, seconds) {
        case Err(e) => return Some(e);
        case Ok(prepared) =>
          if received != prepared.1 { return Some(Diverges); }
          calendar := prepared.0;
          return None;
      }
    }
  }

  /** The current date is so many days after the start as the calendar counts. */
  predicate Consistent(c: State) {
    && Readable(c) && c.initialized && c.startDate.Some? && c.currentDate.Some?
    && Ordinal(c.currentDate.value) == Ordinal(c.startDate.value) + c.elapsedDays
  }

  function Time(days: int, millisPerDay: int, rest: int): int { days * millisPerDay + rest }

  /** All the time on the calendar, in milliseconds. */
  function Millis(c: State): int { Time(c.elapsedDays, c.millisPerDay, c.residualMillis) }

  lemma CarryKeepsTime(elapsed: int, days: int, millisPerDay: int, rest: int, total: int)
    requires days * millisPerDay + rest == total
    ensures Time(elapsed + days, millisPerDay, rest) == Time(elapsed, millisPerDay, total)
  {
  }

  lemma Divided(total: int, millisPerDay: int)
    requires 0 <= total && 0 < millisPerDay
    ensures total / millisPerDay * millisPerDay + total % millisPerDay == total
    ensures 0 <= total / millisPerDay && 0 <= total % millisPerDay < millisPerDay
  {
  }

  lemma AdvanceKeepsMillis(c: State, scheduled: bool, seconds: nat)
    requires Readable(c)
    ensures var (days, rest) := Advance(c, scheduled, seconds);
      && 0 <= days && 0 <= rest <= MAX_MILLIS
      && (if c.millisPerDay > 0 then rest < c.millisPerDay else rest == 0)
      && Time(c.elapsedDays + days, c.millisPerDay, rest) == Millis(c) + if Runs(c, scheduled) then seconds * 1000 else 0
  {
    if Runs(c, scheduled) {
      var total := c.residualMillis + seconds * 1000;
      Divided(total, c.millisPerDay);
      CarryKeepsTime(c.elapsedDays, total / c.millisPerDay, c.millisPerDay, total % c.millisPerDay, total);
    }
  }

  lemma DateAfterIsOrdinal(c: State, days: nat)
    requires Consistent(c)
    ensures DateAfter(c, days).Ok? <==> Ordinal(c.currentDate.value) + days <= Ordinal(LAST_DAY)
    ensures DateAfter(c, days).Ok? ==>
      var d := DateAfter(c, days).value;
      && Supported(d) && Ordinal(d) == Ordinal(c.startDate.value) + (c.elapsedDays + days)
      && 0 <= days <= MAX_DAYS && 0 <= c.elapsedDays + days <= MAX_DAYS
  {
    var today := c.currentDate.value;
    SupportedSpan(today);
    SupportedSpan(c.startDate.value);
    AddDaysIsOrdinalArithmetic(today, days);
    if AddDays(today, days).Ok? {
      LaterYears(today, days);
      SupportedSpan(AddDays(today, days).value);
    }
  }

  /** From a consistent calendar a settlement in turn fails exactly if it runs past the last supported day. */
  lemma SettlementFailsOnlyPastTheLastDay(c: State, scheduled: bool, seconds: nat)
    requires Consistent(c) && c.lastEpoch < MAX_EPOCH && 1 <= seconds <= MAX_SECONDS
    ensures PrepareSettlement(c, c.lastEpoch + 1, scheduled, seconds).Ok?
       <==> Ordinal(c.currentDate.value) + Advance(c, scheduled, seconds).0 <= Ordinal(LAST_DAY)
  {
    AdvanceKeepsMillis(c, scheduled, seconds);
    DateAfterIsOrdinal(c, Advance(c, scheduled, seconds).0);
  }

  /** A settlement leaves a consistent calendar that has the scheduled time added, and a valid payload. */
  lemma SettlementKeepsTime(c: State, scheduled: bool, seconds: nat)
    requires Consistent(c) && PrepareSettlement(c, c.lastEpoch + 1, scheduled, seconds).Ok?
    ensures var (next, payload) := PrepareSettlement(c, c.lastEpoch + 1, scheduled, seconds).value;
      && Consistent(next) && ValidPayload(payload)
      && next.startDate == c.startDate && next.millisPerDay == c.millisPerDay && next.managed == c.managed
      && next.lastEpoch == c.lastEpoch + 1
      && Millis(next) == Millis(c) + if Runs(c, scheduled) then seconds * 1000 else 0
  {
    AdvanceKeepsMillis(c, scheduled, seconds);
    DateAfterIsOrdinal(c, Advance(c, scheduled, seconds).0);
  }

  /** A managed calendar with days of some length advances when it is scheduled, and the payload reports the calendar as it is afterwards. */
  lemma SettlementReportsTheCalendar(c: State, epoch: int, scheduled: bool, seconds: int)
    requires PrepareSettlement(c, epoch, scheduled, seconds).Ok?
    ensures var (next, payload) := PrepareSettlement(c, epoch, scheduled, seconds).value;
      && next.currentDate.Some? && next.lastEpoch == epoch == c.lastEpoch + 1 && next.startDate == c.startDate
      && next.elapsedDays * c.millisPerDay + next.residualMillis
         == c.elapsedDays * c.millisPerDay + c.residualMillis
            + (if c.managed && scheduled && c.millisPerDay > 0 then seconds * 1000 else 0)
      && (c.managed && scheduled && c.millisPerDay > 0 ==> 0 <= next.residualMillis < c.millisPerDay)
      && payload == Payload(next.lastEpoch, c.managed && scheduled, next.elapsedDays - c.elapsedDays,
                            next.elapsedDays, next.residualMillis, next.currentDate.value)
  {
    AdvanceKeepsMillis(c, scheduled, seconds);
  }

  /** A calendar whose days have no length stands still: it is settled whatever its date, and the date stays. */
  lemma PausedCalendarStandsStill(c: State, date: Date, scheduled: bool, seconds: int)
    requires c == State(c.managed, true, 0, Some(date), Some(date), c.elapsedDays, 0, c.lastEpoch) && Supported(date)
    requires 0 <= c.elapsedDays <= 10_000_000 && 0 <= c.lastEpoch < 1_000_000_000 && 1 <= seconds <= 86_400
    ensures PrepareSettlement(c, c.lastEpoch + 1, scheduled, seconds).Ok?
    ensures PrepareSettlement(c, c.lastEpoch + 1, scheduled, seconds).value.0 == c.(lastEpoch := c.lastEpoch + 1)
  {
  }

  /** Whatever the calendar, replay accepts the payload that was prepared exactly if the count stays in bounds. */
  lemma ReplayAcceptsPreparedExactlyWithinBounds(c: State, epoch: int, scheduled: bool, seconds: int)
    requires PrepareSettlement(c, epoch, scheduled, seconds).Ok?
    ensures Accepts(c, PrepareSettlement(c, epoch, scheduled, seconds).value.1, epoch, scheduled, seconds)
       <==> c.elapsedDays + Advance(c, scheduled, seconds).0 <= MAX_DAYS
  {
    AdvanceKeepsMillis(c, scheduled, seconds);
    var days := Advance(c, scheduled, seconds).0;
    if days != 0 {
      assert AddDays(c.currentDate.value, days).Ok?;
      LaterYears(c.currentDate.value, days);
    }
  }

  /** How far the current date is from where the count of days puts it. */
  function Drift(c: State): int
    requires Readable(c) && c.initialized
  {
    Ordinal(c.currentDate.value) - (Ordinal(c.startDate.value) + c.elapsedDays)
  }

  /** A settlement moves the date by as many days as it counts, whatever the calendar. */
  lemma SettlementKeepsDrift(c: State, epoch: int, scheduled: bool, seconds: int)
    requires PrepareSettlement(c, epoch, scheduled, seconds).Ok?
    requires Readable(PrepareSettlement(c, epoch, scheduled, seconds).value.0)
    ensures Drift(PrepareSettlement(c, epoch, scheduled, seconds).value.0) == Drift(c)
  {
    AdvanceKeepsMillis(c, scheduled, seconds);
    var days := Advance(c, scheduled, seconds).0;
    if days != 0 { LaterCountsDays(c.currentDate.value, days); }
  }

  /** A prepared payload that replay refuses comes from a count that is ahead of the dates. */
  lemma RefusalNeedsDrift(c: State, epoch: int, scheduled: bool, seconds: int)
    requires PrepareSettlement(c, epoch, scheduled, seconds).Ok?
    requires !Accepts(c, PrepareSettlement(c, epoch, scheduled, seconds).value.1, epoch, scheduled, seconds)
    ensures Readable(c) && c.initialized && Drift(c) < 0
  {
    ReplayAcceptsPreparedExactlyWithinBounds(c, epoch, scheduled, seconds);
    AdvanceKeepsMillis(c, scheduled, seconds);
    var days := Advance(c, scheduled, seconds).0;
    SupportedSpan(c.currentDate.value);
    SupportedSpan(c.startDate.value);
    if days != 0 {
      AddDaysIsOrdinalArithmetic(c.currentDate.value, days);
    }
  }

  // ---------------------------------------------------------------- runs

  datatype Tick = Tick(scheduled: bool, seconds: nat)

  /** The settlements of consecutive epochs; a run stops at the first that fails. */
  function Run(c: State, ticks: seq<Tick>): Result<State, CalendarError> {
    if ticks == [] then Ok(c)
    else
      var tick := ticks[|ticks| - 1];
      match Run(c, ticks[..|ticks| - 1])
      case Err(e) => Err(e)
      case Ok(before) =>
        match PrepareSettlement(before, before.lastEpoch + 1, tick.scheduled, tick.seconds)
        case Err(e) => Err(e)
        case Ok(prepared) => Ok(prepared.0)
  }

  function ScheduledMillis(c: State, ticks: seq<Tick>): int {
    if ticks == [] then 0
    else
      var tick := ticks[|ticks| - 1];
      ScheduledMillis(c, ticks[..|ticks| - 1]) + if Runs(c, tick.scheduled) then tick.seconds * 1000 else 0
  }

  predicate Legal(ticks: seq<Tick>) { forall t :: t in ticks ==> 1 <= t.seconds <= MAX_SECONDS }

  /** Over every run the elapsed days and the residual make up the scheduled time, and the date is so many days on. */
  lemma {:induction false} RunsKeepTime(c: State, ticks: seq<Tick>)
    requires Consistent(c) && Legal(ticks) && c.lastEpoch + |ticks| <= MAX_EPOCH && Run(c, ticks).Ok?
    ensures var end := Run(c, ticks).value;
      && Consistent(end) && end.lastEpoch == c.lastEpoch + |ticks|
      && end.startDate == c.startDate && end.millisPerDay == c.millisPerDay && end.managed == c.managed
      && Millis(end) == Millis(c) + ScheduledMillis(c, ticks)
      && Ordinal(end.currentDate.value) == Ordinal(c.startDate.value) + end.elapsedDays
  {
    if ticks != [] {
      var before, tick := ticks[..|ticks| - 1], ticks[|ticks| - 1];
      assert tick in ticks;
      forall t | t in before ensures t in ticks {}
      RunsKeepTime(c, before);
      SettlementKeepsTime(Run(c, before).value, tick.scheduled, tick.seconds);
    }
  }

  /** The guard on counted days never stops a run: the next settlement fails only past the last supported day. */
  lemma OnlyTheLastDayStopsARun(c: State, ticks: seq<Tick>, tick: Tick)
    requires Consistent(c) && Legal(ticks + [tick]) && c.lastEpoch + |ticks| < MAX_EPOCH && Run(c, ticks).Ok?
    ensures var end := Run(c, ticks).value;
      Run(c, ticks + [tick]).Ok? <==>
        Consistent(end) && Ordinal(end.currentDate.value) + Advance(end, tick.scheduled, tick.seconds).0 <= Ordinal(LAST_DAY)
  {
    assert tick in ticks + [tick] && forall t :: t in ticks ==> t in ticks + [tick];
    RunsKeepTime(c, ticks);
    SettlementFailsOnlyPastTheLastDay(Run(c, ticks).value, tick.scheduled, tick.seconds);
    assert (ticks + [tick])[..|ticks|] == ticks;
  }

  /** No run changes the drift of a calendar. */
  lemma {:induction false} RunsKeepDrift(c: State, ticks: seq<Tick>)
    requires Readable(c) && c.initialized && Run(c, ticks).Ok? && Readable(Run(c, ticks).value)
    ensures Run(c, ticks).value.initialized && Drift(Run(c, ticks).value) == Drift(c)
  {
    if ticks != [] {
      var before, tick := ticks[..|ticks| - 1], ticks[|ticks| - 1];
      var b := Run(c, before).value;
      RunsKeepDrift(c, before);
      SettlementKeepsDrift(b, b.lastEpoch + 1, tick.scheduled, tick.seconds);
    }
  }

  /** Replay refuses a prepared settlement after some run only if the calendar was read back with a drift. */
  lemma RefusalIsNeverReachedWithoutDrift(c: State, ticks: seq<Tick>, tick: Tick)
    requires Readable(c) && c.initialized && Run(c, ticks).Ok?
    requires var end := Run(c, ticks).value;
      var prepared := PrepareSettlement(end, end.lastEpoch + 1, tick.scheduled, tick.seconds);
      prepared.Ok? && !Accepts(end, prepared.value.1, end.lastEpoch + 1, tick.scheduled, tick.seconds)
    ensures Drift(c) < 0 && !Consistent(c)
  {
    var end := Run(c, ticks).value;
    RefusalNeedsDrift(end, end.lastEpoch + 1, tick.scheduled, tick.seconds);
    RunsKeepDrift(c, ticks);
  }

  /** A stored calendar that can be read back, with a settlement that is prepared and then refused by replay. */
  lemma CountingTooFarBreaksReplay()
    ensures var c := State(true, true, 2000, Some(Date(1400, 1, 1)), Some(Date(1400, 1, 1)), MAX_DAYS, 0, 0);
      var prepared := PrepareSettlement(c, 1, true, 2);
      Readable(c) && prepared.Ok? && !Accepts(c, prepared.value.1, 1, true, 2) && !Readable(prepared.value.0)
  {
    assert Later(Date(1400, 1, 1), 0) == Date(1400, 1, 1);
    assert Later(Date(1400, 1, 1), 1) == Date(1400, 1, 2);
  }
}
