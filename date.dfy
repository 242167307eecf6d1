/** `date` of the Gregorian generator (src/gregorian/date.rs): rejection sampling over a validating builder. */
module GregorianDate {
  import opened Wrappers
  import opened Raw

  /** `DEFAULT_YEAR_RANGE`: used when the parameters give no year range. */
  const DEFAULT_YEAR_RANGE := Range(1800, 2140)
  const MONTH_RANGE := Range(1, 12)
  const DAY_RANGE := Range(1, 31)
  const WEEK_DAY_RANGE := Range(0, 6)

  /** `WeekFormat`: how *week* is written. */
  datatype WeekFormat = XingQi | Zhou

  /** `DatePattern`, seen through its four queries `has_year`, `has_month`, `has_day`, `has_week_day`. */
  datatype DatePattern = DatePattern(hasYear: bool, hasMonth: bool, hasDay: bool, hasWeekDay: bool)

  /** `DateParams`. */
  datatype DateParams = DateParams(pattern: DatePattern, yearRange: Option<Range>, formal: bool, weekFormat: Option<WeekFormat>)

  /**
    The fields a `DateBuilder` collects; when the builder accepts them they are
    the `Date` it returns. The week day is 0..=6 for the seven `WeekDay` values.
  */
  datatype Date = Date(formal: bool, weekFormat: WeekFormat, year: Option<int>, month: Option<int>, day: Option<int>, weekDay: Option<int>)

  /**
    `DateBuilder::build`: the external calendar rules, left abstract. True when
    the builder returns `Ok` for these fields.
  */
  type DateValidator = Date -> bool

  /** The year range actually drawn from. */
  function YearRange(params: DateParams): Range {
    params.yearRange.GetOr(DEFAULT_YEAR_RANGE)
  }

  /** What `date` demands: a `u16` year range, and a non-empty one when a year is drawn. */
  predicate DateParamsOk(params: DateParams) {
    && (params.yearRange.Some? ==> IsRangeOf(U16, params.yearRange.value))
    && (params.pattern.hasYear ==> CanDraw(U16, YearRange(params)))
  }

  /** The `u8` to `WeekDay` conversion of the external library: 0..=6 are the seven days. */
  function TryWeekDay(v: int): Option<int> {
    if WEEK_DAY_RANGE.Contains(v) then Some(v) else None
  }

  /**
    A candidate that fits the parameters: formatting as requested (the week
    format defaulted), a field present exactly when the pattern has it, and each
    present field inside its own range.
  */
  predicate FitsParams(params: DateParams, defaultWeekFormat: WeekFormat, c: Date) {
    && c.formal == params.formal
    && c.weekFormat == params.weekFormat.GetOr(defaultWeekFormat)
    && (c.year.Some? <==> params.pattern.hasYear)
    && (c.month.Some? <==> params.pattern.hasMonth)
    && (c.day.Some? <==> params.pattern.hasDay)
    && (c.weekDay.Some? <==> params.pattern.hasWeekDay)
    && (c.year.Some? ==> YearRange(params).Contains(c.year.value))
    && (c.month.Some? ==> MONTH_RANGE.Contains(c.month.value))
    && (c.day.Some? ==> DAY_RANGE.Contains(c.day.value))
    && (c.weekDay.Some? ==> WEEK_DAY_RANGE.Contains(c.weekDay.value))
  }

  /** The log entries after the year: month, day, week day, each only when present. */
  function LaterDraws(c: Date): seq<Draw> {
    OptionalDraws(U8, MONTH_RANGE, c.month)
      + OptionalDraws(U8, DAY_RANGE, c.day)
      + OptionalDraws(U8, WEEK_DAY_RANGE, c.weekDay)
  }

  /** The log entries of one attempt: year, month, day, week day, each only when present. */
  function AttemptDraws(params: DateParams, c: Date): seq<Draw> {
    OptionalDraws(U16, YearRange(params), c.year) + LaterDraws(c)
  }

  /**
    The draws of one attempt after the year: month, day and week day, each only
    when the pattern has it, in that order, set on a builder that has none of
    them yet; the builder's other fields are kept.
  */
  function LaterFieldsSpec(b: Backend, h: seq<Draw>, pattern: DatePattern, builder: Date): (d: Drawn<Date>)
    requires Sound(b) && builder.month.None? && builder.day.None? && builder.weekDay.None?
    ensures d.value.formal == builder.formal && d.value.weekFormat == builder.weekFormat && d.value.year == builder.year
    ensures d.value.month.Some? <==> pattern.hasMonth
    ensures d.value.day.Some? <==> pattern.hasDay
    ensures d.value.weekDay.Some? <==> pattern.hasWeekDay
    ensures d.value.month.Some? ==> MONTH_RANGE.Contains(d.value.month.value)
    ensures d.value.day.Some? ==> DAY_RANGE.Contains(d.value.day.value)
    ensures d.value.weekDay.Some? ==> WEEK_DAY_RANGE.Contains(d.value.weekDay.value)
    ensures d.history == h + LaterDraws(d.value)
    ensures Answered(b, h, d.history)
  {
    var month := SampleIf(b, h, pattern.hasMonth, U8, MONTH_RANGE);
    var day := SampleIf(b, month.history, pattern.hasDay, U8, DAY_RANGE);
    var weekDay := SampleIf(b, day.history, pattern.hasWeekDay, U8, WEEK_DAY_RANGE);
    AnsweredTrans(b, h, month.history, day.history);
    AnsweredTrans(b, h, day.history, weekDay.history);
    var converted := if weekDay.value.Some? then Some(TryWeekDay(weekDay.value.value).value) else None;
    Drawn(builder.(month := month.value, day := day.value, weekDay := converted), weekDay.history)
  }

  /**
    One attempt of the loop: a fresh builder with the formatting flags, then a
    draw for each field of the pattern, in the order year, month, day, week day.
  */
  function AttemptSpec(b: Backend, h: seq<Draw>, params: DateParams, defaultWeekFormat: WeekFormat): (d: Drawn<Date>)
    requires Sound(b) && DateParamsOk(params)
    ensures FitsParams(params, defaultWeekFormat, d.value)
    ensures d.history == h + AttemptDraws(params, d.value)
    ensures Answered(b, h, d.history)
  {
    var year := SampleIf(b, h, params.pattern.hasYear, U16, YearRange(params));
    var initial := Date(params.formal, params.weekFormat.GetOr(defaultWeekFormat), year.value, None, None, None);
    var rest := LaterFieldsSpec(b, year.history, params.pattern, initial);
    AnsweredTrans(b, h, year.history, rest.history);
    AppendRegroup(h, OptionalDraws(U16, YearRange(params), year.value), LaterDraws(rest.value));
    rest
  }

  /** s ends with the entries t. */
  predicate EndsWith(s: seq<Draw>, t: seq<Draw>) {
    |t| <= |s| && s[|s| - |t|..] == t
  }

  /**
    The retry loop, for at most `attempts` attempts: each attempt draws a fresh
    candidate; the first one the builder accepts is returned. A returned date is
    accepted, fits the parameters, and its fields are the last draws made (no
    field of a rejected attempt survives). `None` means every attempt was
    rejected.
  */
  function DateSpec(b: Backend, h: seq<Draw>, params: DateParams, defaultWeekFormat: WeekFormat,
                    accepts: DateValidator, attempts: nat): (d: Drawn<Option<Date>>)
    requires Sound(b) && DateParamsOk(params)
    ensures d.value.Some? ==> accepts(d.value.value)
    ensures d.value.Some? ==> FitsParams(params, defaultWeekFormat, d.value.value)
    ensures d.value.Some? ==> EndsWith(d.history, AttemptDraws(params, d.value.value))
    ensures Answered(b, h, d.history)
    decreases attempts
  {
    if attempts == 0 then
      Drawn(None, h)
    else
      var candidate := AttemptSpec(b, h, params, defaultWeekFormat);
      if accepts(candidate.value) then
        Drawn(Some(candidate.value), candidate.history)
      else
        var rest := DateSpec(b, candidate.history, params, defaultWeekFormat, accepts, attempts - 1);
        AnsweredTrans(b, h, candidate.history, rest.history);
        rest
  }

  /** The draws after the year, set on the builder: month, day, week day, each only when the pattern has it. */
  method DrawLaterFields(raw: RawGenerator, pattern: DatePattern, initial: Date) returns (builder: Date)
    requires raw.Valid() && initial.month.None? && initial.day.None? && initial.weekDay.None?
    modifies raw
    ensures Drawn(builder, raw.history) == LaterFieldsSpec(raw.backend, old(raw.history), pattern, initial)
  {
    ghost var start := raw.history;
    builder := initial;
    if pattern.hasMonth {
      var month := raw.U8(MONTH_RANGE);
      builder := builder.(month := Some(month));
    }
    ghost var afterMonth := raw.history;
    assert Drawn(builder.month, afterMonth) == SampleIf(raw.backend, start, pattern.hasMonth, U8, MONTH_RANGE);
    if pattern.hasDay {
      var day := raw.U8(DAY_RANGE);
      builder := builder.(day := Some(day));
    }
    ghost var afterDay := raw.history;
    assert Drawn(builder.day, afterDay) == SampleIf(raw.backend, afterMonth, pattern.hasDay, U8, DAY_RANGE);
    if pattern.hasWeekDay {
      var drawn := raw.U8(WEEK_DAY_RANGE);
      var weekDay := TryWeekDay(drawn);
      // `.expect("Weekday valid by construction")`: the conversion cannot fail.
      assert weekDay.Some?;
      builder := builder.(weekDay := weekDay);
    }
  }

  /** One pass of the retry loop: a fresh builder with the fields the pattern asks for, drawn in order. */
  method DrawCandidate(raw: RawGenerator, params: DateParams, defaultWeekFormat: WeekFormat) returns (builder: Date)
    requires raw.Valid() && DateParamsOk(params)
    modifies raw
    ensures Drawn(builder, raw.history) == AttemptSpec(raw.backend, old(raw.history), params, defaultWeekFormat)
  {
    ghost var start := raw.history;
    var year: Option<int> := None;
    if params.pattern.hasYear {
      var drawn := raw.U16(YearRange(params));
      year := Some(drawn);
    }
    assert Drawn(year, raw.history) == SampleIf(raw.backend, start, params.pattern.hasYear, U16, YearRange(params));
    var initial := Date(params.formal, params.weekFormat.GetOr(defaultWeekFormat), year, None, None, None);
    builder := DrawLaterFields(raw, params.pattern, initial);
  }

  /**
    `date(params)`. The source loops until the builder accepts; this model stops
    after `maxAttempts` attempts and then returns `None`.
  */
  method DateOf(raw: RawGenerator, params: DateParams, defaultWeekFormat: WeekFormat,
                accepts: DateValidator, maxAttempts: nat) returns (date: Option<Date>)
    requires raw.Valid() && DateParamsOk(params)
    modifies raw
    ensures Drawn(date, raw.history) == DateSpec(raw.backend, old(raw.history), params, defaultWeekFormat, accepts, maxAttempts)
  {
    var attemptsLeft := maxAttempts;
    while attemptsLeft > 0
      invariant DateSpec(raw.backend, old(raw.history), params, defaultWeekFormat, accepts, maxAttempts)
                == DateSpec(raw.backend, raw.history, params, defaultWeekFormat, accepts, attemptsLeft)
    {
      var builder := DrawCandidate(raw, params, defaultWeekFormat);
      if accepts(builder) {
        return Some(builder);
      }
      attemptsLeft := attemptsLeft - 1;
    }
    date := None;
  }

  /**
    A larger attempt cap never changes a date the loop returned: a capped result
    that is `Some` is exactly what the uncapped loop returns.
  */
  lemma {:induction false} MoreAttemptsSameDate(b: Backend, h: seq<Draw>, params: DateParams, defaultWeekFormat: WeekFormat,
                                                accepts: DateValidator, attempts: nat, more: nat)
    requires Sound(b) && DateParamsOk(params) && attempts <= more
    requires DateSpec(b, h, params, defaultWeekFormat, accepts, attempts).value.Some?
    ensures DateSpec(b, h, params, defaultWeekFormat, accepts, more) == DateSpec(b, h, params, defaultWeekFormat, accepts, attempts)
    decreases attempts
  {
    var candidate := AttemptSpec(b, h, params, defaultWeekFormat);
    if !accepts(candidate.value) {
      MoreAttemptsSameDate(b, candidate.history, params, defaultWeekFormat, accepts, attempts - 1, more - 1);
    }
  }

  /** A builder that accepts the first candidate ends the loop after one attempt. */
  lemma FirstCandidateAccepted(b: Backend, h: seq<Draw>, params: DateParams, defaultWeekFormat: WeekFormat,
                               accepts: DateValidator, attempts: nat)
    requires Sound(b) && DateParamsOk(params) && attempts >= 1
    requires accepts(AttemptSpec(b, h, params, defaultWeekFormat).value)
    ensures DateSpec(b, h, params, defaultWeekFormat, accepts, attempts)
            == Drawn(Some(AttemptSpec(b, h, params, defaultWeekFormat).value), AttemptSpec(b, h, params, defaultWeekFormat).history)
  {
  }

  /** A rejected candidate costs one attempt: the search resumes, with one attempt fewer, after its draws. */
  lemma FirstCandidateRejected(b: Backend, h: seq<Draw>, params: DateParams, defaultWeekFormat: WeekFormat,
                               accepts: DateValidator, attempts: nat)
    requires Sound(b) && DateParamsOk(params) && attempts >= 1
    requires !accepts(AttemptSpec(b, h, params, defaultWeekFormat).value)
    ensures DateSpec(b, h, params, defaultWeekFormat, accepts, attempts)
            == DateSpec(b, AttemptSpec(b, h, params, defaultWeekFormat).history, params, defaultWeekFormat, accepts, attempts - 1)
  {
  }

  /** With no year range given, a year pattern draws the year first, as a u16 from 1800..=2140. */
  lemma DefaultYearDrawn(b: Backend, h: seq<Draw>, params: DateParams, defaultWeekFormat: WeekFormat)
    requires Sound(b) && DateParamsOk(params) && params.pattern.hasYear && params.yearRange.None?
    ensures var d := AttemptSpec(b, h, params, defaultWeekFormat);
            && d.value.year.Some? && 1800 <= d.value.year.value <= 2140
            && |h| < |d.history| && d.history[|h|] == Draw(U16, Range(1800, 2140), d.value.year.value)
  {
    var d := AttemptSpec(b, h, params, defaultWeekFormat);
    assert d.history == h + ([Draw(U16, Range(1800, 2140), d.value.year.value)] + LaterDraws(d.value));
  }

  /** With a year range given, a year pattern draws the year first, as a u16 from exactly that range. */
  lemma GivenYearDrawn(b: Backend, h: seq<Draw>, params: DateParams, defaultWeekFormat: WeekFormat)
    requires Sound(b) && DateParamsOk(params) && params.pattern.hasYear && params.yearRange.Some?
    ensures var d := AttemptSpec(b, h, params, defaultWeekFormat);
            && d.value.year.Some? && params.yearRange.value.Contains(d.value.year.value)
            && |h| < |d.history| && d.history[|h|] == Draw(U16, params.yearRange.value, d.value.year.value)
  {
    var d := AttemptSpec(b, h, params, defaultWeekFormat);
    assert d.history == h + ([Draw(U16, params.yearRange.value, d.value.year.value)] + LaterDraws(d.value));
  }

  /** The `Year` pattern with the year range 2007..=2007 gives the year 2007. */
  lemma FixedYear(b: Backend, h: seq<Draw>, formal: bool, defaultWeekFormat: WeekFormat, accepts: DateValidator, attempts: nat)
    requires Sound(b)
    requires DateSpec(b, h, DateParams(DatePattern(true, false, false, false), Some(Range(2007, 2007)), formal, None),
                      defaultWeekFormat, accepts, attempts).value.Some?
    ensures DateSpec(b, h, DateParams(DatePattern(true, false, false, false), Some(Range(2007, 2007)), formal, None),
                     defaultWeekFormat, accepts, attempts).value.value.year == Some(2007)
  {
  }

  /** A builder whose implied month is April: day 31 does not exist. */
  predicate DayExistsInApril(c: Date) {
    c.day.Some? ==> 1 <= c.day.value <= 30
  }

  /**
    Only the day in the pattern, an April builder, and the draws 31 then 22: the
    first attempt is rejected and redrawn from scratch, and day 22 is returned
    after exactly two draws.
  */
  lemma AprilThirtyFirstIsRedrawn(formal: bool, defaultWeekFormat: WeekFormat)
    ensures var params := DateParams(DatePattern(false, false, true, false), None, formal, None);
            DateSpec(Scripted([31, 22]), [], params, defaultWeekFormat, DayExistsInApril, 2)
            == Drawn(Some(Date(formal, defaultWeekFormat, None, None, Some(22), None)),
                     [Draw(U8, DAY_RANGE, 31), Draw(U8, DAY_RANGE, 22)])
  {
    var script := [31, 22];
    var params := DateParams(DatePattern(false, false, true, false), None, formal, None);
    ScriptedSample(script, [], U8, DAY_RANGE);
    var first := AttemptSpec(Scripted(script), [], params, defaultWeekFormat);
    assert first.value.day == Some(31);
    ScriptedSample(script, first.history, U8, DAY_RANGE);
    var second := AttemptSpec(Scripted(script), first.history, params, defaultWeekFormat);
    assert second.value.day == Some(22);
  }
}
