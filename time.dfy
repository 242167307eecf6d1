/** `hour24`, `hour12`, `minute`, `second`, `linear_time` and `delta_time` of the Gregorian generator (src/gregorian/time.rs). */
module GregorianTime {
  import opened Wrappers
  import opened Raw

  const HOUR24_RANGE := Range(0, 23)
  const HOUR12_RANGE := Range(1, 12)
  const MINUTE_RANGE := Range(0, 59)
  const SECOND_RANGE := Range(0, 59)

  /**
    The `u8` conversions into `Hour24`, `Hour12`, `Minute` and `Second` of the
    external library, reduced to their ranges.
  */
  function TryInto(range: Range, v: int): Option<int> {
    if range.Contains(v) then Some(v) else None
  }

  /** A u8 draw in `range`, converted into the time unit of that range. */
  function UnitSpec(b: Backend, h: seq<Draw>, range: Range): (d: Drawn<int>)
    requires Sound(b) && CanDraw(U8, range)
    ensures range.Contains(d.value)
    ensures d.history == h + [Draw(U8, range, d.value)]
    ensures Answered(b, h, d.history)
  {
    var s := Sample(b, h, U8, range);
    // `.expect("... valid by construction")`: the conversion cannot fail.
    Drawn(TryInto(range, s.value).value, s.history)
  }

  /** `hour24`, `hour12`, `minute` and `second`: one u8 draw inside the unit's range. */
  method UnitOf(raw: RawGenerator, range: Range) returns (r: int)
    requires raw.Valid() && CanDraw(U8, range)
    modifies raw
    ensures Drawn(r, raw.history) == UnitSpec(raw.backend, old(raw.history), range)
  {
    var drawn := raw.U8(range);
    var unit := TryInto(range, drawn);
    assert unit.Some?;
    r := unit.value;
  }

  method Hour24(raw: RawGenerator) returns (hour: int)
    requires raw.Valid()
    modifies raw
    ensures 0 <= hour <= 23
    ensures Drawn(hour, raw.history) == UnitSpec(raw.backend, old(raw.history), HOUR24_RANGE)
  {
    hour := UnitOf(raw, HOUR24_RANGE);
  }

  method Hour12(raw: RawGenerator) returns (hour: int)
    requires raw.Valid()
    modifies raw
    ensures 1 <= hour <= 12
    ensures Drawn(hour, raw.history) == UnitSpec(raw.backend, old(raw.history), HOUR12_RANGE)
  {
    hour := UnitOf(raw, HOUR12_RANGE);
  }

  method Minute(raw: RawGenerator) returns (minute: int)
    requires raw.Valid()
    modifies raw
    ensures 0 <= minute <= 59
    ensures Drawn(minute, raw.history) == UnitSpec(raw.backend, old(raw.history), MINUTE_RANGE)
  {
    minute := UnitOf(raw, MINUTE_RANGE);
  }

  method Second(raw: RawGenerator) returns (second: int)
    requires raw.Valid()
    modifies raw
    ensures 0 <= second <= 59
    ensures Drawn(second, raw.history) == UnitSpec(raw.backend, old(raw.history), SECOND_RANGE)
  {
    second := UnitOf(raw, SECOND_RANGE);
  }

  /** `LinearTimeParams`. */
  datatype LinearTimeParams = LinearTimeParams(dayPart: bool, includeSecond: bool)

  /** `LinearTime`: the hour is an `Hour24`; `day_part` only changes how it is written. */
  datatype LinearTime = LinearTime(dayPart: bool, hour: int, minute: int, second: Option<int>)

  /** `DeltaTime`: an `Hour12` and a minute. */
  datatype DeltaTime = DeltaTime(hour: int, minute: int)

  /**
    `linear_time(params)`: the hour is always drawn in 0..=23, whatever
    `day_part` says, then the minute, then the second only when asked for;
    `day_part` is copied from the parameters.
  */
  function LinearTimeSpec(b: Backend, h: seq<Draw>, params: LinearTimeParams): (d: Drawn<LinearTime>)
    requires Sound(b)
    ensures d.value.dayPart == params.dayPart
    ensures HOUR24_RANGE.Contains(d.value.hour) && MINUTE_RANGE.Contains(d.value.minute)
    ensures d.value.second.Some? <==> params.includeSecond
    ensures d.value.second.Some? ==> SECOND_RANGE.Contains(d.value.second.value)
    ensures d.history == h + [Draw(U8, HOUR24_RANGE, d.value.hour), Draw(U8, MINUTE_RANGE, d.value.minute)]
                           + OptionalDraws(U8, SECOND_RANGE, d.value.second)
    ensures Answered(b, h, d.history)
  {
    var hour := UnitSpec(b, h, HOUR24_RANGE);
    var minute := UnitSpec(b, hour.history, MINUTE_RANGE);
    var second := if params.includeSecond
                  then var s := UnitSpec(b, minute.history, SECOND_RANGE); Drawn(Some(s.value), s.history)
                  else Drawn(None, minute.history);
    AnsweredTrans(b, h, hour.history, minute.history);
    AnsweredTrans(b, h, minute.history, second.history);
    Drawn(LinearTime(params.dayPart, hour.value, minute.value, second.value), second.history)
  }

  method LinearTimeOf(raw: RawGenerator, params: LinearTimeParams) returns (time: LinearTime)
    requires raw.Valid()
    modifies raw
    ensures Drawn(time, raw.history) == LinearTimeSpec(raw.backend, old(raw.history), params)
  {
    var hour := Hour24(raw);
    var minute := Minute(raw);
    var second: Option<int>;
    if params.includeSecond {
      var s := Second(raw);
      second := Some(s);
    } else {
      second := None;
    }
    time := LinearTime(params.dayPart, hour, minute, second);
  }

  /**
    `day_part` changes nothing that is drawn: with or without it, the same log
    gives the same hour, minute and second and the same new log.
  */
  lemma DayPartDrawsNothing(b: Backend, h: seq<Draw>, includeSecond: bool)
    requires Sound(b)
    ensures var with := LinearTimeSpec(b, h, LinearTimeParams(true, includeSecond));
            var without := LinearTimeSpec(b, h, LinearTimeParams(false, includeSecond));
            with.value == without.value.(dayPart := true) && with.history == without.history
  {
  }

  /** `delta_time`: the hour drawn first in 1..=12, then the minute in 0..=59. */
  function DeltaTimeSpec(b: Backend, h: seq<Draw>): (d: Drawn<DeltaTime>)
    requires Sound(b)
    ensures HOUR12_RANGE.Contains(d.value.hour) && MINUTE_RANGE.Contains(d.value.minute)
    ensures d.history == h + [Draw(U8, HOUR12_RANGE, d.value.hour), Draw(U8, MINUTE_RANGE, d.value.minute)]
    ensures Answered(b, h, d.history)
  {
    var hour := UnitSpec(b, h, HOUR12_RANGE);
    var minute := UnitSpec(b, hour.history, MINUTE_RANGE);
    AnsweredTrans(b, h, hour.history, minute.history);
    Drawn(DeltaTime(hour.value, minute.value), minute.history)
  }

  method DeltaTimeOf(raw: RawGenerator) returns (time: DeltaTime)
    requires raw.Valid()
    modifies raw
    ensures Drawn(time, raw.history) == DeltaTimeSpec(raw.backend, old(raw.history))
  {
    var hour := Hour12(raw);
    var minute := Minute(raw);
    time := DeltaTime(hour, minute);
  }
}
