/**
 * The three-part date field (`components/date-range/date-input.tsx`): a
 * month, a day and a year text box over one `{ day, month, year }` state.
 * Typing replaces one part and reports the date when the result is a real
 * calendar date; leaving a box either commits the parts or restores the last
 * committed ones; ArrowUp and ArrowDown step the day, month or year.
 */
module DateInput {
  import opened Js
  import opened JsDate

  datatype Field = DayField | MonthField | YearField

  /** A part of the state: a number, or the empty string a cleared box leaves. */
  datatype Part = Number(n: int) | Blank

  datatype DateParts = DateParts(day: Part, month: Part, year: Part)

  // ---------------------------------------------------------------- parts

  /** `Number(part)`, as arithmetic and the `Date` constructor read a part: the empty string is 0. */
  function ToNumber(p: Part): int
  {
    if p.Number? then p.n else 0
  }

  /** The `%` of JavaScript, which truncates toward zero. */
  function JsRem(a: int, b: int): (r: int)
    requires b > 0
    ensures a >= 0 ==> r == a % b
    ensures -b < r < b
  {
    if a >= 0 then a % b else -((-a) % b)
  }

  function Get(date: DateParts, field: Field): Part
  {
    match field
    case DayField => date.day
    case MonthField => date.month
    case YearField => date.year
  }

  /** `{ ...date, [field]: value }` */
  function With(date: DateParts, field: Field, value: Part): (r: DateParts)
    ensures Get(r, field) == value
    ensures forall f :: f != field ==> Get(r, f) == Get(date, f)
  {
    match field
    case DayField => date.(day := value)
    case MonthField => date.(month := value)
    case YearField => date.(year := value)
  }

  function PartsOf(d: Day): DateParts
  {
    DateParts(Number(d.day), Number(d.month), Number(d.year))
  }

  predicate AllNumbers(date: DateParts)
  {
    date.day.Number? && date.month.Number? && date.year.Number?
  }

  function DayOf(date: DateParts): Day
    requires AllNumbers(date)
  {
    Day(date.year.n, date.month.n, date.day.n)
  }

  /** Numeric parts that name an existing day, with a year `Date` takes as written. */
  predicate IsCalendarDate(date: DateParts)
  {
    AllNumbers(date) && Calendar(DayOf(date)) && !(0 <= date.year.n <= 99)
  }

  /** `new Date(year, month - 1, day)`: the date handed to `onChange`. */
  function Reported(date: DateParts): Day
  {
    MakeDate(ToNumber(date.year), ToNumber(date.month) - 1, ToNumber(date.day))
  }

  /** A calendar date is reported as itself. */
  lemma ReportedCalendarDate(date: DateParts)
    requires IsCalendarDate(date)
    ensures Reported(date) == DayOf(date)
  {
    MakeDateMonth(date.year.n, date.month.n, date.day.n);
    RollWithin(date.year.n, date.month.n, date.day.n);
  }

  // ------------------------------------------------------------ validation

  /** The range check of one field. */
  predicate InRange(field: Field, value: int)
  {
    match field
    case DayField => 1 <= value <= 31
    case MonthField => 1 <= value <= 12
    case YearField => 1000 <= value <= 9999
  }

  /**
   * `validateDate(field, value)`: the range check, then the parts with the
   * field replaced must survive a trip through `new Date` and its getters
   * (a blank part never compares equal).
   */
  predicate ValidateDate(date: DateParts, field: Field, value: int)
  {
    var nd := With(date, field, Number(value));
    && InRange(field, value)
    && AllNumbers(nd)
    && MakeDate(nd.year.n, nd.month.n - 1, nd.day.n) == DayOf(nd)
  }

  /** `validateDate` holds iff the value is in range and the parts with it name an existing day. */
  lemma ValidateDateIff(date: DateParts, field: Field, value: int)
    ensures ValidateDate(date, field, value) <==> InRange(field, value) && IsCalendarDate(With(date, field, Number(value)))
  {
    var nd := With(date, field, Number(value));
    if AllNumbers(nd) {
      MakeDateRoundTrip(nd.year.n, nd.month.n, nd.day.n);
    }
  }

  // ------------------------------------------------------------ arrow keys

  /** `part + 1` with the part read as a number. */
  function Plus(p: Part, k: int): Part
  {
    Number(ToNumber(p) + k)
  }

  /** The parts after ArrowUp in a field. */
  function StepUp(date: DateParts, field: Field): DateParts
  {
    match field
    case DayField =>
      if date.day == Number(MakeDate(ToNumber(date.year), ToNumber(date.month), 0).day) then
        var month := JsRem(ToNumber(date.month), 12) + 1;
        DateParts(Number(1), Number(month), if month == 1 then Plus(date.year, 1) else date.year)
      else date.(day := Plus(date.day, 1))
    case MonthField =>
      if date.month == Number(12) then date.(month := Number(1), year := Plus(date.year, 1))
      else date.(month := Plus(date.month, 1))
    case YearField => date.(year := Plus(date.year, 1))
  }

  /** The parts after ArrowDown in a field. */
  function StepDown(date: DateParts, field: Field): DateParts
  {
    match field
    case DayField =>
      if date.day == Number(1) then
        var month := ToNumber(date.month) - 1;
        var year := if month == 0 then Plus(date.year, -1) else date.year;
        var month' := if month == 0 then 12 else month;
        DateParts(Number(MakeDate(ToNumber(year), month', 0).day), Number(month'), year)
      else date.(day := Plus(date.day, -1))
    case MonthField =>
      if date.month == Number(1) then date.(month := Number(12), year := Plus(date.year, -1))
      else date.(month := Plus(date.month, -1))
    case YearField => date.(year := Plus(date.year, -1))
  }

  /**
   * ArrowUp in the day box moves a calendar date to the next day, across
   * months and years (for years above 100, which `Date` takes as written).
   */
  lemma StepUpDay(date: DateParts)
    requires IsCalendarDate(date) && date.year.n > 100
    ensures StepUp(date, DayField) == PartsOf(NextDay(DayOf(date)))
    ensures Reported(StepUp(date, DayField)) == NextDay(DayOf(date))
  {
    LastDayOfMonth(date.year.n, date.month.n);
    ReportedCalendarDate(PartsOf(NextDay(DayOf(date))));
  }

  /**
   * ArrowDown in the day box moves a calendar date to the previous day,
   * across months and years (for years above 100).
   */
  lemma StepDownDay(date: DateParts)
    requires IsCalendarDate(date) && date.year.n > 100
    ensures StepDown(date, DayField) == PartsOf(PrevDay(DayOf(date)))
    ensures Reported(StepDown(date, DayField)) == PrevDay(DayOf(date))
  {
    var y, m := date.year.n, date.month.n;
    if date.day == Number(1) {
      if m == 1 {
        LastDayOfMonth(y - 1, 12);
      } else {
        LastDayOfMonth(y, m - 1);
      }
    }
    ReportedCalendarDate(PartsOf(PrevDay(DayOf(date))));
  }

  /** On a calendar date, ArrowDown in the day box undoes ArrowUp, and ArrowUp undoes ArrowDown. */
  lemma DayStepsInverse(date: DateParts)
    requires IsCalendarDate(date) && date.year.n > 101
    ensures StepDown(StepUp(date, DayField), DayField) == date
    ensures StepUp(StepDown(date, DayField), DayField) == date
  {
    var d := DayOf(date);
    var next, prev := NextDay(d), PrevDay(d);
    assert PartsOf(d) == date;
    NextPrevInverse(d);
    StepUpDay(date);
    StepDownDay(PartsOf(next));
    assert StepDown(PartsOf(next), DayField) == PartsOf(PrevDay(next));
    StepDownDay(date);
    StepUpDay(PartsOf(prev));
    assert StepUp(PartsOf(prev), DayField) == PartsOf(NextDay(prev));
  }

  /**
   * Below its month's last day, ArrowUp adds one to the day read as a number,
   * a cleared day included: two presses on a cleared day give day 2.
   */
  lemma StepUpIncrements(date: DateParts)
    requires date.day != Number(MakeDate(ToNumber(date.year), ToNumber(date.month), 0).day)
    ensures StepUp(date, DayField).day == Number(ToNumber(date.day) + 1)
    ensures StepUp(StepUp(date.(day := Blank), DayField), DayField).day == Number(2)
  {
    var cleared := date.(day := Blank);
    var once := StepUp(cleared, DayField);
    assert once.day == Number(1);
    assert MakeDate(ToNumber(once.year), ToNumber(once.month), 0).day >= 28;
  }

  // --------------------------------------------- `+= 1` as the code has it

  /** A part as the component stores it: a number, or a string (`""` once the box is cleared). */
  datatype StoredPart = StoredNumber(n: int) | StoredString(s: string)

  /** `part += 1` below the month's last day, as written: on a string, `+` concatenates. */
  function DayUpAsWritten(day: StoredPart): StoredPart
  {
    if day.StoredNumber? then StoredNumber(day.n + 1) else StoredString(day.s + "1")
  }

  /**
   * Two ArrowUp presses on a cleared day box leave the string "11", which the
   * `Date` constructor reads as day 11 rather than day 2.
   */
  lemma ClearedDayUpTwiceAsWritten()
    ensures DayUpAsWritten(DayUpAsWritten(StoredString(""))) == StoredString("11")
    ensures DigitsValue(DayUpAsWritten(DayUpAsWritten(StoredString(""))).s) == 11
  {
    assert "" + "1" + "1" == "11";
    assert DigitsValue("1") == 1;
  }

  /** `day === 1` as written: strict equality never holds between a string and a number. */
  predicate IsFirstDayAsWritten(day: StoredPart)
  {
    day == StoredNumber(1)
  }

  /** `part -= 1`, as written: `-` reads a string of digits as its number (`""` as 0). */
  function DayDownAsWritten(day: StoredPart): StoredPart
    requires day.StoredString? ==> AllDigits(day.s)
  {
    if day.StoredNumber? then StoredNumber(day.n - 1) else StoredNumber(DigitsValue(day.s) - 1)
  }

  /**
   * ArrowUp then ArrowDown on a cleared day box: the first press stores the
   * string "1", which fails the `=== 1` test, so the second press does not
   * wrap to the previous month but stores day 0 with the month unchanged,
   * which the `Date` constructor reads as the last day of the month before.
   */
  lemma ClearedDayUpDownAsWritten()
    ensures DayUpAsWritten(StoredString("")) == StoredString("1")
    ensures !IsFirstDayAsWritten(DayUpAsWritten(StoredString("")))
    ensures DayDownAsWritten(DayUpAsWritten(StoredString(""))) == StoredNumber(0)
  {
    assert "" + "1" == "1";
    assert DigitsValue("1") == 1;
  }

  /**
   * The month box wraps 12 to 1 with the year one up and 1 to 12 with the
   * year one down; the day part is never touched.
   */
  lemma MonthSteps(date: DateParts)
    requires date.month.Number? && 1 <= date.month.n <= 12
    ensures var up := StepUp(date, MonthField);
      && up.day == date.day
      && up.month == Number(if date.month.n == 12 then 1 else date.month.n + 1)
      && up.year == (if date.month.n == 12 then Number(ToNumber(date.year) + 1) else date.year)
    ensures var down := StepDown(date, MonthField);
      && down.day == date.day
      && down.month == Number(if date.month.n == 1 then 12 else date.month.n - 1)
      && down.year == (if date.month.n == 1 then Number(ToNumber(date.year) - 1) else date.year)
    ensures date.year.Number? ==> StepDown(StepUp(date, MonthField), MonthField) == date
    ensures date.year.Number? ==> StepUp(StepDown(date, MonthField), MonthField) == date
  {
  }

  /** The year box moves the year alone, by one. */
  lemma YearSteps(date: DateParts)
    ensures StepUp(date, YearField) == date.(year := Number(ToNumber(date.year) + 1))
    ensures StepDown(date, YearField) == date.(year := Number(ToNumber(date.year) - 1))
    ensures date.year.Number? ==> StepDown(StepUp(date, YearField), YearField) == date
  {
  }

  // ------------------------------------------------------------ the field

  /** What a box hands to `onChange` as it is edited: nothing (a cleared box), or a number. */
  datatype Entry = Cleared | Typed(n: int)

  /** `e.target.value ? Number(e.target.value) : ""` */
  function EntryPart(entry: Entry): Part
  {
    if entry.Typed? then Number(entry.n) else Blank
  }

  /** What the box shows on leaving it: the part it displays, read back with `Number`. */
  function Shown(p: Part): Entry
  {
    if p.Number? then Typed(p.n) else Cleared
  }

  /** The keys allowed besides single digits. */
  const NAVIGATION_KEYS: seq<string> := ["ArrowUp", "ArrowDown", "ArrowLeft", "ArrowRight", "Delete", "Tab", "Backspace", "Enter"]

  /** `/^[0-9]$/.test(key)` */
  predicate SingleDigit(key: string)
  {
    |key| == 1 && IsDigit(key[0])
  }

  class DateField {
    /** The parts the three boxes display. */
    var date: DateParts
    /** `initialDate.current`: the parts last committed on leaving a box. */
    var committed: DateParts

    /** The first render: the parts of `value` (or of today, which the caller passes). */
    constructor (value: Day)
      ensures date == PartsOf(value) && committed == PartsOf(value)
    {
      date := PartsOf(value);
      committed := PartsOf(value);
    }

    /** The effect run when the `value` prop changes: the display follows, the committed parts stay. */
    method ValueChanged(value: Day)
      modifies this`date
      ensures date == PartsOf(value)
    {
      date := PartsOf(value);
    }

    /**
     * `handleInputChange(field)`: the box always takes the entry; `onChange`
     * receives the new date only when the entry is a number `validateDate` accepts.
     */
    method InputChange(field: Field, entry: Entry) returns (reported: Option<Day>)
      modifies this`date
      ensures date == With(old(date), field, EntryPart(entry))
      ensures reported.Some? <==> entry.Typed? && ValidateDate(old(date), field, entry.n)
      ensures reported.Some? ==> IsCalendarDate(date) && reported.value == DayOf(date)
    {
      var isValid := entry.Typed? && ValidateDate(date, field, entry.n);
      date := With(date, field, EntryPart(entry));
      reported := None;
      if isValid {
        ValidateDateIff(old(date), field, entry.n);
        ReportedCalendarDate(date);
        reported := Some(Reported(date));
      }
    }

    /**
     * `handleBlur(field)`: a cleared box, or a value `validateDate` rejects,
     * brings back the committed parts; an accepted value commits the parts.
     */
    method Blur(field: Field)
      modifies this`date, this`committed
      ensures var shown := Shown(Get(old(date), field));
        if shown.Typed? && ValidateDate(old(date), field, shown.n) then
          date == old(date) && committed == With(old(date), field, Number(shown.n))
        else
          date == old(committed) && committed == old(committed)
      ensures committed != old(committed) ==> IsCalendarDate(committed)
    {
      var shown := Shown(Get(date, field));
      if shown.Cleared? {
        date := committed;
        return;
      }
      var isValid := ValidateDate(date, field, shown.n);
      if !isValid {
        date := committed;
      } else {
        ValidateDateIff(date, field, shown.n);
        committed := With(date, field, Number(shown.n));
      }
    }

    /**
     * `handleKeyDown(field)`. `selectionStart`, `selectionEnd` and `length`
     * describe the caret in the box; `focus` is the box that receives the
     * focus, if any.
     */
    method KeyDown(field: Field, key: string, meta: bool, ctrl: bool, selectionStart: nat, selectionEnd: nat, length: nat)
      returns (prevented: bool, reported: Option<Day>, focus: Option<Field>)
      modifies this`date
      ensures meta || ctrl ==> !prevented && reported == None && focus == None && date == old(date)
      ensures !meta && !ctrl && !SingleDigit(key) && key !in NAVIGATION_KEYS ==>
        prevented && reported == None && focus == None && date == old(date)
      ensures !meta && !ctrl && key == "ArrowUp" ==>
        prevented && date == StepUp(old(date), field) && reported == Some(Reported(date)) && focus == None
      ensures !meta && !ctrl && key == "ArrowDown" ==>
        prevented && date == StepDown(old(date), field) && reported == Some(Reported(date)) && focus == None
      ensures !meta && !ctrl && key == "ArrowRight" ==>
        && date == old(date) && reported == None
        && (prevented <==> selectionStart == length || (selectionStart == 0 && selectionEnd == length))
        && focus == (if prevented && field == MonthField then Some(DayField) else if prevented && field == DayField then Some(YearField) else None)
      ensures !meta && !ctrl && key == "ArrowLeft" ==>
        && date == old(date) && reported == None
        && (prevented <==> selectionStart == 0)
        && focus == (if prevented && field == DayField then Some(MonthField) else if prevented && field == YearField then Some(DayField) else None)
      ensures !meta && !ctrl && (SingleDigit(key) || key in ["Delete", "Tab", "Backspace", "Enter"]) ==>
        !prevented && reported == None && focus == None && date == old(date)
    {
      prevented, reported, focus := false, None, None;
      if meta || ctrl {
        return;
      }
      if !SingleDigit(key) && key !in NAVIGATION_KEYS {
        prevented := true;
        return;
      }
      if key == "ArrowUp" {
        prevented := true;
        date := StepUp(date, field);
        reported := Some(Reported(date));
      } else if key == "ArrowDown" {
        prevented := true;
        date := StepDown(date, field);
        reported := Some(Reported(date));
      }
      if key == "ArrowRight" {
        if selectionStart == length || (selectionStart == 0 && selectionEnd == length) {
          prevented := true;
          if field == MonthField {
            focus := Some(DayField);
          }
          if field == DayField {
            focus := Some(YearField);
          }
        }
      } else if key == "ArrowLeft" {
        if selectionStart == 0 || (selectionStart == 0 && selectionEnd == length) {
          prevented := true;
          if field == DayField {
            focus := Some(MonthField);
          }
          if field == YearField {
            focus := Some(DayField);
          }
        }
      }
    }
  }
}
