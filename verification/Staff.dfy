/** Staff scheduling and attendance rules: shift templates and "H:M" times,
    shift length, whether a moment falls inside a shift, lateness, the
    payroll late penalty and today's late-penalty total, absence streaks in
    the attendance report, the payroll approval chain and form-field
    normalisation. Times of day are minutes since midnight, passed in by the
    caller. */
module Staff {
  import opened Common
  import CatalogImport

  // ---- Shift times ----

  /** The named shift templates (`Split` in the source). */
  datatype ShiftTemplate = Morning | Evening | Night | SplitShift

  datatype Window = Window(start: string, end: string)

  /** `SHIFT_TEMPLATES`. */
  function TemplateWindow(t: ShiftTemplate): Window
  {
    match t
    case Morning => Window("07" + ":" + "00", "15" + ":" + "00")
    case Evening => Window("15" + ":" + "00", "23" + ":" + "00")
    case Night => Window("23" + ":" + "00", "07" + ":" + "00")
    case SplitShift => Window("09" + ":" + "00", "21" + ":" + "00")
  }

  /** The minutes part of `time.split(':').map(Number)`: `undefined` when there is no second piece. */
  function MinutesPiece(parts: seq<string>): Option<JsNum>
  {
    if |parts| > 1 then Some(ToNumber(parts[1])) else None
  }

  /** Hours × 60 + minutes of a non-empty time string. A NaN piece gives null
      (`None`); a missing minutes piece is `undefined`, which passes the NaN
      test and makes the sum NaN. */
  function ClockMinutes(time: string): Option<JsNum>
  {
    var parts := Split(time, ':');
    Combine(ToNumber(parts[0]), MinutesPiece(parts))
  }

  /** `hours * 60 + minutes` after the NaN test. */
  function Combine(h: JsNum, m: Option<JsNum>): Option<JsNum>
  {
    if h.NaN? || m == Some(NaN) then None
    else if m.None? then Some(NaN)
    else Some(Num(h.v * 60.0 + m.value.v))
  }

  /** `toMinutes`: null for an absent or empty time. */
  function ToMinutes(time: Option<string>): Option<JsNum>
  {
    match time
    case None => None
    case Some(t) => if t == "" then None else ClockMinutes(t)
  }

  lemma SplitClock(hh: string, mm: string)
    requires ':' !in hh && ':' !in mm
    ensures Split(hh + ":" + mm, ':') == [hh, mm]
  {
    SplitPrefix(hh, mm, ':');
    SplitNoSep(mm, ':');
  }

  /** "HH:MM" with digit pieces is read as hours × 60 + minutes. */
  lemma ToMinutesDigits(hh: string, mm: string, h: nat, m: nat, total: nat)
    requires |hh| >= 1 && |mm| >= 1 && AllDigits(hh) && AllDigits(mm)
    requires h == DigitsValue(hh) && m == DigitsValue(mm) && total == h * 60 + m
    ensures ClockMinutes(hh + ":" + mm) == Some(Num(total as real))
    ensures ToMinutes(Some(hh + ":" + mm)) == Some(Num(total as real))
  {
    assert ':' !in hh by { assert forall i :: 0 <= i < |hh| ==> IsDigit(hh[i]); }
    assert ':' !in mm by { assert forall i :: 0 <= i < |mm| ==> IsDigit(mm[i]); }
    ToNumberDigits(hh);
    ToNumberDigits(mm);
    ToMinutesNumbers(hh, mm, h, m, total);
  }

  lemma ToMinutesNumbers(hh: string, mm: string, h: int, m: int, total: int)
    requires ':' !in hh && ':' !in mm && ToNumber(hh) == Num(h as real) && ToNumber(mm) == Num(m as real)
    requires total == h * 60 + m
    ensures ClockMinutes(hh + ":" + mm) == Some(Num(total as real))
    ensures ToMinutes(Some(hh + ":" + mm)) == Some(Num(total as real))
  {
    ClockOfPieces(hh, mm, Num(h as real), Num(m as real));
    CombineNumbers(ClockMinutes(hh + ":" + mm), h, m, total);
  }

  lemma ClockOfPieces(hh: string, mm: string, x: JsNum, y: JsNum)
    requires ':' !in hh && ':' !in mm && ToNumber(hh) == x && ToNumber(mm) == y
    ensures ClockMinutes(hh + ":" + mm) == Combine(x, Some(y))
  {
    SplitClock(hh, mm);
  }

  lemma CombineNumbers(r: Option<JsNum>, h: int, m: int, total: int)
    requires r == Combine(Num(h as real), Some(Num(m as real))) && total == h * 60 + m
    ensures r == Some(Num(total as real))
  {
  }

  /** Null for an absent or empty time; a time without `:` (such as "7") is NaN, not null. */
  lemma ToMinutesMissing(digits: string)
    requires |digits| >= 1 && AllDigits(digits)
    ensures ToMinutes(None) == None && ToMinutes(Some("")) == None
    ensures ToMinutes(Some(digits)) == Some(NaN)
  {
    assert ':' !in digits by { assert forall i :: 0 <= i < |digits| ==> IsDigit(digits[i]); }
    ToNumberDigits(digits);
    ClockWithoutColon(digits, Num(DigitsValue(digits) as real));
  }

  lemma ClockWithoutColon(t: string, x: JsNum)
    requires ':' !in t && ToNumber(t) == x && x.Num?
    ensures ClockMinutes(t) == Some(NaN)
  {
    SplitNoSep(t, ':');
  }

  /** The hours at which each template starts and ends. */
  function TemplateHours(t: ShiftTemplate): (nat, nat)
  {
    match t
    case Morning => (7, 15)
    case Evening => (15, 23)
    case Night => (23, 7)
    case SplitShift => (9, 21)
  }

  /** A two-digit rendering of `n` < 100, with a leading zero. */
  function TwoDigits(n: nat): string
    requires n < 100
  {
    [DigitChar(n / 10), DigitChar(n % 10)]
  }

  lemma TwoDigitsValue(n: nat)
    requires n < 100
    ensures |TwoDigits(n)| == 2 && AllDigits(TwoDigits(n)) && DigitsValue(TwoDigits(n)) == n
  {
    var s := TwoDigits(n);
    assert s[..1] == [s[0]] && s[..1][..0] == [];
    assert DigitValue(s[0]) == n / 10 && DigitValue(s[1]) == n % 10;
    assert DigitsValue(s[..1]) == n / 10;
  }

  /** "hh:mm" is read as hh × 60 + mm minutes. */
  lemma TwoDigitClock(h: nat, m: nat, total: nat)
    requires h < 24 && m < 60 && total == h * 60 + m
    ensures ToMinutes(Some(TwoDigits(h) + ":" + TwoDigits(m))) == Some(Num(total as real))
  {
    TwoDigitsValue(h);
    TwoDigitsValue(m);
    ToMinutesDigits(TwoDigits(h), TwoDigits(m), h, m, total);
  }

  /** Each template's times are read as its start and end hours on the hour:
      07:00–15:00, 15:00–23:00, 23:00–07:00 (across midnight) and 09:00–21:00. */
  lemma TemplateMinutes(t: ShiftTemplate)
    ensures ToMinutes(Some(TemplateWindow(t).start)) == Some(Num((TemplateHours(t).0 * 60) as real))
    ensures ToMinutes(Some(TemplateWindow(t).end)) == Some(Num((TemplateHours(t).1 * 60) as real))
  {
    var (a, b) := TemplateHours(t);
    assert TemplateWindow(t) == Window(TwoDigits(a) + ":" + TwoDigits(0), TwoDigits(b) + ":" + TwoDigits(0));
    TwoDigitClock(a, 0, a * 60);
    TwoDigitClock(b, 0, b * 60);
  }

  // ---- Shift length ----

  /** Minutes from start to end, across midnight when the end is earlier. */
  function RawMinutes(s: real, e: real): real
  {
    if e >= s then e - s else 24.0 * 60.0 - s + e
  }

  /** `calculateShiftHours`. `breakMinutes` is `Number(breakMinutes) || 0`
      already applied: `None` stands for null, undefined, NaN and 0. */
  function ShiftHours(startTime: Option<string>, endTime: Option<string>, breakMinutes: Option<real>): Option<JsNum>
  {
    if startTime == None || startTime == Some("") || endTime == None || endTime == Some("") then None
    else ShiftLength(ClockMinutes(startTime.value), ClockMinutes(endTime.value), breakMinutes)
  }

  /** The hours between two parsed times, less the break, never negative. */
  function ShiftLength(start: Option<JsNum>, end: Option<JsNum>, breakMinutes: Option<real>): Option<JsNum>
  {
    match (start, end)
    case (None, _) => None
    case (_, None) => None
    case (Some(Num(s)), Some(Num(e))) =>
      var b := match breakMinutes case None => 0.0 case Some(x) => x;
      Some(Num(MaxReal(0.0, (RawMinutes(s, e) - b) / 60.0)))
    case (Some(_), Some(_)) => Some(NaN)
  }

  /** For times of day, the raw length is the end minus the start modulo a day:
      it lies in [0, 1440) and is 0 for equal times. */
  lemma RawMinutesModulo(s: int, e: int)
    requires 0 <= s < 1440 && 0 <= e < 1440
    ensures RawMinutes(s as real, e as real) == ((e - s) % 1440) as real
    ensures 0.0 <= RawMinutes(s as real, e as real) < 1440.0
    ensures s == e ==> RawMinutes(s as real, e as real) == 0.0
  {
    if e < s {
      assert (e - s) % 1440 == e - s + 1440;
    }
  }

  /** Two times of day read as `s` and `e` minutes give
      max(0, (e − s) mod 1440 − break) / 60 hours; a missing time gives null. */
  lemma ShiftHoursOfTimes(startTime: string, endTime: string, s: int, e: int, brk: real)
    requires startTime != "" && endTime != "" && 0 <= s < 1440 && 0 <= e < 1440
    requires ClockMinutes(startTime) == Some(Num(s as real)) && ClockMinutes(endTime) == Some(Num(e as real))
    ensures ShiftHours(Some(startTime), Some(endTime), Some(brk))
              == Some(Num(MaxReal(0.0, (((e - s) % 1440) as real - brk) / 60.0)))
    ensures ShiftHours(Some(startTime), Some(endTime), None) == Some(Num(MaxReal(0.0, ((e - s) % 1440) as real / 60.0)))
    ensures ShiftHours(None, Some(endTime), Some(brk)) == None
    ensures ShiftHours(Some(startTime), None, Some(brk)) == None
    ensures ShiftHours(Some(""), Some(endTime), Some(brk)) == None
  {
    ShiftLengthWithBreak(ShiftHours(Some(startTime), Some(endTime), Some(brk)), s, e, brk);
    ShiftLengthWithoutBreak(ShiftHours(Some(startTime), Some(endTime), None), s, e);
  }

  lemma ShiftLengthWithBreak(r: Option<JsNum>, s: int, e: int, brk: real)
    requires 0 <= s < 1440 && 0 <= e < 1440
    requires r == ShiftLength(Some(Num(s as real)), Some(Num(e as real)), Some(brk))
    ensures r == Some(Num(MaxReal(0.0, (((e - s) % 1440) as real - brk) / 60.0)))
  {
    RawMinutesModulo(s, e);
  }

  lemma ShiftLengthWithoutBreak(r: Option<JsNum>, s: int, e: int)
    requires 0 <= s < 1440 && 0 <= e < 1440
    requires r == ShiftLength(Some(Num(s as real)), Some(Num(e as real)), None)
    ensures r == Some(Num(MaxReal(0.0, ((e - s) % 1440) as real / 60.0)))
  {
    RawMinutesModulo(s, e);
  }

  /** The night template, 23:00 to 07:00, is 8 hours long across midnight, 7.5 with a 30-minute break. */
  lemma NightShiftHours()
    ensures ShiftHours(Some(TemplateWindow(Night).start), Some(TemplateWindow(Night).end), None) == Some(Num(8.0))
    ensures ShiftHours(Some(TemplateWindow(Night).start), Some(TemplateWindow(Night).end), Some(30.0)) == Some(Num(7.5))
  {
    TemplateMinutes(Night);
    ShiftHoursOfTimes(TemplateWindow(Night).start, TemplateWindow(Night).end, 1380, 420, 30.0);
  }

  // ---- Is a moment inside the shift ----

  /** The shift fields of an employee record. */
  datatype ShiftSetup = ShiftSetup(template: Option<ShiftTemplate>, startTime: Option<string>,
                                   endTime: Option<string>, graceMinutes: Option<real>)

  /** `employee.shift_start_time || template?.start || null`. */
  function ShiftStart(e: ShiftSetup): Option<string>
  {
    if e.startTime.Some? && e.startTime.value != "" then e.startTime
    else match e.template case None => None case Some(t) => Some(TemplateWindow(t).start)
  }

  function ShiftEnd(e: ShiftSetup): Option<string>
  {
    if e.endTime.Some? && e.endTime.value != "" then e.endTime
    else match e.template case None => None case Some(t) => Some(TemplateWindow(t).end)
  }

  /** `a <= b` on JavaScript numbers: false when either is NaN. */
  predicate NumLe(a: JsNum, b: JsNum) { a.Num? && b.Num? && a.v <= b.v }

  /** `isNowWithinShift`, with the current minute of the day as a parameter. */
  predicate IsNowWithinShift(e: ShiftSetup, nowMinutes: nat)
  {
    var startM := ToMinutes(ShiftStart(e));
    var endM := ToMinutes(ShiftEnd(e));
    var now := Num(nowMinutes as real);
    if startM.None? || endM.None? then false
    else if NumLe(startM.value, endM.value) then NumLe(startM.value, now) && NumLe(now, endM.value)
    else NumLe(startM.value, now) || NumLe(now, endM.value)
  }

  /** A same-day window is inclusive at both ends; a window that crosses
      midnight holds from its start onwards and up to its end. */
  lemma WithinShiftWindow(e: ShiftSetup, nowMinutes: nat, s: real, t: real)
    requires ToMinutes(ShiftStart(e)) == Some(Num(s)) && ToMinutes(ShiftEnd(e)) == Some(Num(t))
    ensures s <= t ==> (IsNowWithinShift(e, nowMinutes) <==> s <= nowMinutes as real <= t)
    ensures s > t ==> (IsNowWithinShift(e, nowMinutes) <==> (nowMinutes as real >= s || nowMinutes as real <= t))
  {
  }

  /** Without a start or an end time the answer is false. */
  lemma WithinShiftMissing(e: ShiftSetup, nowMinutes: nat)
    requires ToMinutes(ShiftStart(e)) == None || ToMinutes(ShiftEnd(e)) == None
    ensures !IsNowWithinShift(e, nowMinutes)
  {
  }

  /** Explicit times override the template; the night template covers 23:30
      and 06:00 but not noon. */
  lemma WithinNightShift(start: string, end: string, now: nat)
    requires start != "" && end != ""
    ensures ShiftStart(ShiftSetup(Some(Night), Some(start), Some(end), None)) == Some(start)
    ensures ShiftEnd(ShiftSetup(Some(Night), Some(start), Some(end), None)) == Some(end)
    ensures IsNowWithinShift(ShiftSetup(Some(Night), None, None, None), 23 * 60 + 30)
    ensures IsNowWithinShift(ShiftSetup(Some(Night), None, None, None), 6 * 60)
    ensures !IsNowWithinShift(ShiftSetup(Some(Night), None, None, None), 12 * 60)
  {
    TemplateMinutes(Night);
  }

  // ---- Lateness ----

  /** `employee.shift_grace_minutes ?? 15`: only an absent value defaults. */
  function Grace(e: ShiftSetup): real
  {
    match e.graceMinutes case None => 15.0 case Some(g) => g
  }

  /** A first clock-in is late when it is after the shift start plus the grace. */
  predicate IsLate(startM: Option<JsNum>, clockMinutes: Option<real>, grace: real)
  {
    startM.Some? && startM.value.Num? && clockMinutes.Some? && clockMinutes.value > startM.value.v + grace
  }

  /** Minutes late beyond the grace period. */
  function LateMinutes(start: real, clock: real, grace: real): real { MaxReal(0.0, clock - (start + grace)) }

  /** The payroll penalty for one day: nothing unless the first clock-in is
      late by the times and the amount is positive; then the amount per
      occurrence, or per late minute. */
  function LatePenalty(perOccurrence: bool, amount: real, startM: Option<JsNum>, clockMinutes: Option<real>, grace: real): real
  {
    if !IsLate(startM, clockMinutes, grace) || amount <= 0.0 then 0.0
    else if perOccurrence then amount
    else LateMinutes(startM.value.v, clockMinutes.value, grace) * amount
  }

  /** Late exactly when some minutes beyond the grace period are counted; the
      per-minute penalty is those minutes times the amount. */
  lemma LatenessRule(start: real, clock: real, grace: real, amount: real)
    ensures IsLate(Some(Num(start)), Some(clock), grace) <==> LateMinutes(start, clock, grace) > 0.0
    ensures amount > 0.0 ==> LatePenalty(false, amount, Some(Num(start)), Some(clock), grace)
                                == LateMinutes(start, clock, grace) * amount
    ensures LatePenalty(true, amount, Some(Num(start)), Some(clock), grace)
              == if IsLate(Some(Num(start)), Some(clock), grace) && amount > 0.0 then amount else 0.0
    ensures !IsLate(None, Some(clock), grace) && !IsLate(Some(NaN), Some(clock), grace)
  {
  }

  /** With no grace set, arriving 15 minutes after the start is on time and 16 is late;
      a grace of 0 is kept, not replaced by 15. */
  lemma DefaultGrace(start: real, t: Option<ShiftTemplate>)
    ensures var e := ShiftSetup(t, None, None, None);
            !IsLate(Some(Num(start)), Some(start + 15.0), Grace(e)) && IsLate(Some(Num(start)), Some(start + 16.0), Grace(e))
    ensures IsLate(Some(Num(start)), Some(start + 1.0), Grace(ShiftSetup(t, None, None, Some(0.0))))
  {
  }

  // ---- Today's late penalties on the dashboard ----

  /** A row of today's attendance as the dashboard's penalty total reads it:
      the late flag stored with the row, the employee's start minute (`None`
      when the employee is not found, the row has no first clock-in or the
      start time converts to null), the clock-in minute and the grace. */
  datatype AttendanceRow = AttendanceRow(isLate: bool, startM: Option<JsNum>, clockMinutes: Option<real>, grace: real)

  /** One step of the `reduce`: rows not flagged late add nothing; a
      per-occurrence penalty adds the amount whatever the times; a per-minute
      penalty adds the late minutes times the amount, nothing when a time is
      missing, and NaN when the start minute is NaN. */
  function PenaltyStep(total: JsNum, perOccurrence: bool, amount: real, row: AttendanceRow): JsNum
  {
    if !row.isLate then total
    else if perOccurrence then JsAdd(total, Num(amount))
    else if row.startM.None? || row.clockMinutes.None? then total
    else match row.startM.value
         case NaN => NaN
         case Num(start) => JsAdd(total, Num(LateMinutes(start, row.clockMinutes.value, row.grace) * amount))
  }

  function PenaltyFold(total: JsNum, perOccurrence: bool, amount: real, rows: seq<AttendanceRow>): JsNum
    decreases |rows|
  {
    if rows == [] then total
    else PenaltyFold(PenaltyStep(total, perOccurrence, amount, rows[0]), perOccurrence, amount, rows[1..])
  }

  /** `latePenaltiesToday`: nothing when the amount is 0, otherwise the sum of
      the rows' penalties. */
  function LatePenaltiesToday(perOccurrence: bool, amount: real, rows: seq<AttendanceRow>): JsNum
  {
    if amount == 0.0 then Num(0.0) else PenaltyFold(Num(0.0), perOccurrence, amount, rows)
  }

  /** Number of rows flagged late. */
  function CountLateRows(rows: seq<AttendanceRow>): nat
  {
    if rows == [] then 0 else (if rows[0].isLate then 1 else 0) + CountLateRows(rows[1..])
  }

  lemma {:induction false} PerOccurrenceFold(t: real, amount: real, rows: seq<AttendanceRow>)
    ensures PenaltyFold(Num(t), true, amount, rows) == Num(t + amount * CountLateRows(rows) as real)
    decreases |rows|
  {
    if rows != [] {
      var t' := if rows[0].isLate then t + amount else t;
      assert PenaltyStep(Num(t), true, amount, rows[0]) == Num(t');
      PerOccurrenceFold(t', amount, rows[1..]);
    }
  }

  /** Per occurrence, today's total is the amount times the number of rows
      flagged late, whether or not the employee or the times are known. */
  lemma PerOccurrenceToday(amount: real, rows: seq<AttendanceRow>)
    ensures LatePenaltiesToday(true, amount, rows) == Num(amount * CountLateRows(rows) as real)
  {
    PerOccurrenceFold(0.0, amount, rows);
  }

  lemma {:induction false} NaNFold(perOccurrence: bool, amount: real, rows: seq<AttendanceRow>)
    ensures PenaltyFold(NaN, perOccurrence, amount, rows) == NaN
    decreases |rows|
  {
    if rows != [] {
      NaNFold(perOccurrence, amount, rows[1..]);
    }
  }

  lemma {:induction false} NaNStartFold(t: JsNum, amount: real, rows: seq<AttendanceRow>, i: nat)
    requires i < |rows| && rows[i].isLate && rows[i].startM == Some(NaN) && rows[i].clockMinutes.Some?
    ensures PenaltyFold(t, false, amount, rows) == NaN
    decreases i
  {
    if i == 0 {
      NaNFold(false, amount, rows[1..]);
    } else {
      NaNStartFold(PenaltyStep(t, false, amount, rows[0]), amount, rows[1..], i - 1);
    }
  }

  /** Per minute, one late row whose start minute is NaN (a start time without
      a colon) makes today's total NaN. */
  lemma NaNStartPoisonsToday(amount: real, rows: seq<AttendanceRow>, i: nat)
    requires amount != 0.0
    requires i < |rows| && rows[i].isLate && rows[i].startM == Some(NaN) && rows[i].clockMinutes.Some?
    ensures LatePenaltiesToday(false, amount, rows) == NaN
  {
    NaNStartFold(Num(0.0), amount, rows, i);
  }

  lemma {:induction false} NoFlaggedFold(t: JsNum, perOccurrence: bool, amount: real, rows: seq<AttendanceRow>)
    requires CountLateRows(rows) == 0
    ensures PenaltyFold(t, perOccurrence, amount, rows) == t
    decreases |rows|
  {
    if rows != [] {
      NoFlaggedFold(t, perOccurrence, amount, rows[1..]);
    }
  }

  /** Only the stored late flag selects rows: with no row flagged the total is
      0, whatever the clock-in times say. */
  lemma NoFlaggedRowsToday(perOccurrence: bool, amount: real, rows: seq<AttendanceRow>)
    requires CountLateRows(rows) == 0
    ensures LatePenaltiesToday(perOccurrence, amount, rows) == Num(0.0)
  {
    NoFlaggedFold(Num(0.0), perOccurrence, amount, rows);
  }

  /** When a row's stored flag agrees with the times and the amount is
      positive, the dashboard adds for it what payroll charges for that day. */
  lemma TodayMatchesPayroll(t: real, perOccurrence: bool, amount: real, row: AttendanceRow)
    requires amount > 0.0
    requires row.isLate == IsLate(row.startM, row.clockMinutes, row.grace)
    ensures PenaltyStep(Num(t), perOccurrence, amount, row)
              == Num(t + LatePenalty(perOccurrence, amount, row.startM, row.clockMinutes, row.grace))
  {
  }

  // ---- Absence streaks in the attendance report ----

  /** One calendar day of the report for one employee. */
  datatype Day = Day(isPast: bool, hasLogs: bool, late: bool)

  datatype Tally = Tally(present: nat, absent: nat, late: nat, current: nat, maxRun: nat)

  /** One iteration of the per-day loop. */
  function StepTally(t: Tally, d: Day, onLeave: bool): Tally
  {
    if !d.isPast then t
    else if onLeave then t.(current := 0)
    else if d.hasLogs then t.(present := t.present + 1, current := 0, late := if d.late then t.late + 1 else t.late)
    else
      var run := t.current + 1;
      t.(absent := t.absent + 1, current := run, maxRun := if run > t.maxRun then run else t.maxRun)
  }

  /** The counters after the loop has seen `days`. */
  function Tallied(days: seq<Day>, onLeave: bool): Tally
  {
    if days == [] then Tally(0, 0, 0, 0, 0)
    else StepTally(Tallied(days[..|days| - 1], onLeave), days[|days| - 1], onLeave)
  }

  /** The per-day loop of `reportEmployeeStats` for one employee. */
  method EmployeeStats(days: seq<Day>, onLeave: bool) returns (present: nat, absent: nat, late: nat, maxRun: nat)
    ensures Tallied(days, onLeave) == Tally(present, absent, late, Tallied(days, onLeave).current, maxRun)
  {
    present, absent, late, maxRun := 0, 0, 0, 0;
    var current: nat := 0;
    var i := 0;
    while i < |days|
      invariant 0 <= i <= |days|
      invariant Tallied(days[..i], onLeave) == Tally(present, absent, late, current, maxRun)
    {
      assert days[..i + 1][..i] == days[..i];
      var d := days[i];
      if d.isPast {
        if onLeave {
          current := 0;
        } else if d.hasLogs {
          present := present + 1;
          current := 0;
          if d.late {
            late := late + 1;
          }
        } else {
          absent := absent + 1;
          current := current + 1;
          if current > maxRun {
            maxRun := current;
          }
        }
      }
      i := i + 1;
    }
    assert days[..|days|] == days;
  }

  /** Days that count as scheduled: past days. */
  function PastDays(days: seq<Day>): nat
  {
    if days == [] then 0 else PastDays(days[..|days| - 1]) + (if days[|days| - 1].isPast then 1 else 0)
  }

  /** Throughout the loop the current streak never exceeds the longest one,
      which never exceeds the absences; late days are present days; and every
      past day is either present or absent (none, when on leave). */
  lemma {:induction false} TallyInvariant(days: seq<Day>, onLeave: bool)
    ensures var t := Tallied(days, onLeave);
            t.current <= t.maxRun <= t.absent && t.late <= t.present
            && t.present + t.absent == (if onLeave then 0 else PastDays(days))
  {
    if days != [] {
      TallyInvariant(days[..|days| - 1], onLeave);
    }
  }

  predicate AbsentDay(d: Day) { d.isPast && !d.hasLogs }

  /** The longest streak only grows as more days are seen. */
  lemma {:induction false} MaxRunGrows(days: seq<Day>, onLeave: bool, j: nat)
    requires j <= |days|
    ensures Tallied(days[..j], onLeave).maxRun <= Tallied(days, onLeave).maxRun
    decreases |days| - j
  {
    if j < |days| {
      assert days[..j + 1][..j] == days[..j];
      MaxRunGrows(days, onLeave, j + 1);
    } else {
      assert days[..j] == days;
    }
  }

  lemma {:induction false} CurrentRun(days: seq<Day>, i: nat, j: nat)
    requires i <= j <= |days|
    requires forall k :: i <= k < j ==> AbsentDay(days[k])
    ensures Tallied(days[..j], false).current >= j - i
    decreases j
  {
    if j > i {
      CurrentRun(days, i, j - 1);
      assert days[..j][..j - 1] == days[..j - 1];
    }
  }

  /** `k` consecutive absent past days give a longest streak of at least `k`. */
  lemma StreakDetected(days: seq<Day>, i: nat, k: nat)
    requires i + k <= |days|
    requires forall m :: i <= m < i + k ==> AbsentDay(days[m])
    ensures Tallied(days, false).maxRun >= k
  {
    CurrentRun(days, i, i + k);
    TallyInvariant(days[..i + k], false);
    MaxRunGrows(days, false, i + k);
  }

  /** The anomaly rule of the report. */
  predicate IsAnomaly(t: Tally) { t.maxRun >= 3 || t.late >= 3 }

  /** Three absent past days in a row make the employee an anomaly; an
      employee on leave never has a streak. */
  lemma AnomalyFromStreak(days: seq<Day>, i: nat)
    requires i + 3 <= |days| && AbsentDay(days[i]) && AbsentDay(days[i + 1]) && AbsentDay(days[i + 2])
    ensures IsAnomaly(Tallied(days, false))
    ensures Tallied(days, true).maxRun == 0
  {
    StreakDetected(days, i, 3);
    TallyInvariant(days, true);
  }

  // ---- Payroll approval ----

  datatype Role = Admin | Manager | Hr | Roaster | Cashier | WarehouseStaff

  datatype ApprovalStatus = Draft | HrApproved | ManagerApproved | AdminApproved

  datatype ApprovalAction = ApprovalAction(caption: string, nextStatus: ApprovalStatus)

  /** `getPayrollApprovalAction`; a month without an approval record is a draft. */
  function PayrollApprovalAction(role: Option<Role>, approval: Option<ApprovalStatus>): Option<ApprovalAction>
  {
    var status := match approval case None => Draft case Some(s) => s;
    if role == Some(Hr) && status == Draft then Some(ApprovalAction("Approve as HR", HrApproved))
    else if role == Some(Manager) && status == HrApproved then Some(ApprovalAction("Approve as Manager", ManagerApproved))
    else if role == Some(Admin) && status == ManagerApproved then Some(ApprovalAction("Approve as Admin", AdminApproved))
    else None
  }

  function Stage(s: ApprovalStatus): nat
  {
    match s case Draft => 0 case HrApproved => 1 case ManagerApproved => 2 case AdminApproved => 3
  }

  /** The role that may act on each status. */
  function Approver(s: ApprovalStatus): Option<Role>
  {
    match s case Draft => Some(Hr) case HrApproved => Some(Manager) case ManagerApproved => Some(Admin)
    case AdminApproved => None
  }

  /** Each status has exactly one approver, who moves it one stage on; every
      other role has no action, and the admin approval is final. */
  lemma ApprovalChain(role: Option<Role>, approval: Option<ApprovalStatus>)
    ensures var s := match approval case None => Draft case Some(x) => x;
            var a := PayrollApprovalAction(role, approval);
            (a.Some? <==> role.Some? && role == Approver(s))
            && (a.Some? ==> Stage(a.value.nextStatus) == Stage(s) + 1)
    ensures PayrollApprovalAction(role, Some(AdminApproved)) == None
    ensures PayrollApprovalAction(role, None) == PayrollApprovalAction(role, Some(Draft))
  {
  }

  // ---- Form fields and the CSV export ----

  /** `normalizeEmptyString`. */
  function NormalizeEmptyString(value: Option<string>): Option<string>
  {
    match value
    case None => None
    case Some(v) => if Trim(v) == "" then None else Some(Trim(v))
  }

  /** Null exactly for an absent or all-whitespace value; otherwise the trimmed
      value, and normalising again changes nothing. */
  lemma NormalizeEmptyStringRules(value: Option<string>)
    ensures NormalizeEmptyString(value) == None <==>
      value == None || forall i :: 0 <= i < |value.value| ==> IsJsWhitespace(value.value[i])
    ensures NormalizeEmptyString(value).Some? ==> NormalizeEmptyString(value).value == Trim(value.value)
    ensures NormalizeEmptyString(NormalizeEmptyString(value)) == NormalizeEmptyString(value)
  {
    if value.Some? {
      TrimEmpty(value.value);
      if Trim(value.value) != "" {
        TrimUnchanged(Trim(value.value));
      }
    }
  }

  /** The staff export's `escapeValue` is the same quoting as the catalogue's:
      two enclosing quotes and every embedded quote doubled. */
  lemma {:induction false} EscapeValueQuotes(value: string)
    ensures Count(CatalogImport.EscapeCsvValue(value), '"') == 2 * Count(value, '"') + 2
  {
    var r := Replace(value, '"', "\"\"");
    DoubledQuotes(value);
    CountAppend("\"" + r, "\"", '"');
    CountAppend("\"", r, '"');
  }

  lemma {:induction false} DoubledQuotes(value: string)
    ensures Count(Replace(value, '"', "\"\""), '"') == 2 * Count(value, '"')
  {
    if value != [] {
      DoubledQuotes(value[1..]);
      var head := if value[0] == '"' then "\"\"" else [value[0]];
      CountAppend(head, Replace(value[1..], '"', "\"\""), '"');
      CountAppend([value[0]], value[1..], '"');
      assert value == [value[0]] + value[1..];
    }
  }
}
