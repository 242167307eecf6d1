# chinese-rand: constrained random value generation, in Dafny

This project models the generation engine of the `chinese-rand` crate. The engine
turns primitive, range-bounded integer draws into structured test values:
integers, fractions, counts, digit sequences, decimals, renminbi amounts,
calendar dates and times of day.

- **The sampler** (`Raw`). `RawGenerator` is a class. Its state is the log of
  the draws made so far (`history`). A `backend` function computes each answer
  from that log and the request. The only promise a backend makes (`Sound`) is
  that every answer lies inside the requested inclusive range. This is the
  contract of the `RawGenerator` trait. Each sampler is taken to own its
  source: an answer depends only on that sampler's log and the request, so
  the same backend, the same log and the same calls give the same results.
  Samplers sharing one entropy state are not modelled (see "## Left out"). `Answered(backend, log, newLog)` says that `newLog` extends
  `log` and that each appended entry holds the backend's own answer to its
  request. Every specification function ensures it, so results are the
  backend's answers and not just values of the right shape.
  `Scripted(script)` is the scripted sampler: the k-th draw answers
  `script[k]` when that value lies in the requested range, and the range's
  lower bound otherwise. It is used to state draw-order facts on concrete draws.
- **The generators.** Each generator of `ChineseFormatGenerator` and
  `GregorianGenerator` is a method that takes the sampler and modifies its log.
  Each generator method is proved equal to a state-passing specification
  function, which returns the value and the new log (`Drawn(value, history)`).
  For the one-draw operations that function is `Raw.Sample` (`integer`,
  `count`) or `GregorianTime.UnitSpec` (`hour24`, `hour12`, `minute`,
  `second`). For the others it is `XSpec(backend, log, …)` (`FractionSpec`,
  `DigitSequenceSpec`, `DecimalSpec`, `RenminbiSpec`, `LinearTimeSpec`,
  `DeltaTimeSpec`, `DateSpec`). The properties are stated once, on those
  functions: ranges, which fields are present, the early error, and the exact
  order of draws, written as the new log. Lemmas add the concrete scenarios
  from the source's examples. `Renminbi.SameStateSameCurrency` is not a
  generator: it states determinism over two samplers, through `RenminbiOf`.
- **External builders.** The builders are opaque accept/reject constructors
  from the external value library. For the date, the builder is a
  caller-supplied `DateValidator`. For the others, it is the one rule the
  engine relies on: a denominator is non-zero, a digit is 0..=9, an hour is in
  its range, and so on. Each `.expect(...)` in the source becomes a proof that
  the build cannot fail.

Modules follow the source files: `Raw` (src/raw/mod.rs), `Numeric`
(src/numeric.rs), `DigitSequences` (src/digit_sequences.rs), `Renminbi`
(src/currency/renminbi.rs), `GregorianDate` (src/gregorian/date.rs),
`GregorianTime` (src/gregorian/time.rs), plus `Wrappers` (Option, Result).

The doc comment of `LinearTimeParams::day_part` (src/gregorian/time.rs:7-9)
says that a day part comes with a 12-hour format. The code of `linear_time`
always draws the hour with `hour24` (0..=23, src/gregorian/time.rs:153) and
only copies `day_part` into the result (src/gregorian/time.rs:164). The model
follows the code: `GregorianTime.LinearTimeSpec` and
`GregorianTime.DayPartDrawsNothing` state what the code does.

## Model

| member | source | states |
|---|---|---|
| Raw.Sample | src/raw/mod.rs:10-27 | a draw of any width answers a value inside the inclusive range and appends exactly that one draw, the backend's answer, to the log |
| Raw.AnsweredTrans | src/raw/mod.rs:10-27 | answered extensions compose, so a sequence of draws answered one by one is answered as a whole |
| Raw.AnsweredNext | src/raw/mod.rs:10-27 | an answered one-draw extension holds exactly the backend's answer to that request |
| Raw.SampleIf | src/currency/renminbi.rs:137-143 | a draw made only when requested: the value is present iff requested, lies in the range, and only a present value is logged, as the backend answered it |
| Raw.RawGenerator.Next | src/raw/mod.rs:10-27 | every width-specific draw asks the backend with the current log and appends exactly that answer |
| Raw.RawGenerator.U8 | src/raw/mod.rs:11-12 | `u8(range)` returns a value inside the range and advances the state by one logged draw |
| Raw.RawGenerator.U16 | src/raw/mod.rs:14-15 | `u16(range)` returns a value inside the range and advances the state by one logged draw |
| Raw.RawGenerator.U32 | src/raw/mod.rs:17-18 | `u32(range)` returns a value inside the range and advances the state by one logged draw |
| Raw.RawGenerator.U64 | src/raw/mod.rs:20-21 | `u64(range)` returns a value inside the range and advances the state by one logged draw |
| Raw.RawGenerator.U128 | src/raw/mod.rs:23-24 | `u128(range)` returns a value inside the range and advances the state by one logged draw |
| Raw.RawGenerator.I128 | src/raw/mod.rs:26-27 | `i128(range)` returns a value inside the range and advances the state by one logged draw |
| Raw.RawGenerator.Bool | src/raw/mod.rs:29-30 | `bool()` is one logged draw of 0 or 1 |
| Raw.Scripted | src/raw/mod.rs:9-10 | the scripted sampler keeps the sampler contract: every answer is inside its range |
| Raw.ScriptedSample | src/raw/mod.rs:9-10 | the scripted sampler's k-th draw answers the k-th scripted value when it is in range |
| Raw.DegenerateRange | src/numeric.rs:18-19 | a range `x..=x` always yields x, whatever the backend (so `integer(90..=90)` is 90 and `count(90..=90)` is `Count(90)`) |
| Numeric.Integer | src/numeric.rs:21-23 | `integer(range)` is the sampler's single i128 draw, so it lies in the range |
| Numeric.FractionSpec | src/numeric.rs:66-83 | a zero denominator lower bound gives `Err(InvalidLowerBound(0))` with no draw at all; otherwise `Ok`, with a non-zero in-range denominator drawn first and an in-range numerator drawn second; every logged draw is the backend's answer to it |
| Numeric.FractionOf | src/numeric.rs:66-83 | the `fraction` method returns and logs exactly what `FractionSpec` states; the build cannot fail |
| Numeric.ZeroLowerBoundRefused | src/numeric.rs:71-73 | a denominator range `0..=u` is refused for every upper bound u and every numerator range, leaving the log unchanged |
| Numeric.FixedFraction | src/numeric.rs:51-55 | `fraction(5..=5, 4..=4)` is the fraction with denominator 5 and numerator 4 |
| Numeric.CountOf | src/numeric.rs:101-103 | `count(range)` wraps the sampler's single u128 draw, so its value lies in the range |
| DigitSequences.DrawDigits | src/digit_sequences.rs:31-33 | n successive digit draws give n digits, each in 0..=9, logged in draw order; every logged draw is the backend's answer to it |
| DigitSequences.DigitSequenceSpec | src/digit_sequences.rs:28-36 | the length lies in the length range; every digit is in 0..=9; the log gains exactly one length draw followed by one draw per digit, in order; every logged draw is the backend's answer to it |
| DigitSequences.DigitSequence | src/digit_sequences.rs:28-36 | the `digit_sequence` loop returns and logs exactly what `DigitSequenceSpec` states; the conversion cannot fail |
| DigitSequences.ScriptedDigits | src/digit_sequences.rs:31-33 | with scripted draws, n digit draws return the next n scripted digits in order |
| DigitSequences.EmptyLengthRange | src/digit_sequences.rs:23-24 | a length range of 0..=0 gives the empty sequence |
| DigitSequences.FixedLengthRange | src/digit_sequences.rs:20-21 | a length range of n..=n gives exactly n digits |
| DigitSequences.ScriptedFixedLength | src/digit_sequences.rs:20-21 | `digit_sequence(5..=5)` answered by the draws 5, 8, 5, 2, 4, 1 is the sequence 85241 |
| DigitSequences.DecimalSpec | src/digit_sequences.rs:72-85 | the integer part is drawn first and lies in the integer range; the fractional part is a digit sequence drawn right after it, with every `digit_sequence` property; every logged draw is the backend's answer to it |
| DigitSequences.DecimalOf | src/digit_sequences.rs:72-85 | the `decimal` method returns and logs exactly what `DecimalSpec` states |
| DigitSequences.ZeroDecimal | src/digit_sequences.rs:64-68 | `decimal(0..=0, 0..=0)` is integer 0 with an empty fractional part |
| Renminbi.RenminbiSpec | src/currency/renminbi.rs:132-148 | the style is passed through; the yuan is drawn first and lies in the yuan range; dimes are set iff `include_dimes` and cents iff `include_cents`, each in 0..=9; the log order is yuan, then dimes, then cents; every logged draw is the backend's answer to it |
| Renminbi.RenminbiOf | src/currency/renminbi.rs:132-148 | the `renminbi` method returns and logs exactly what `RenminbiSpec` states; the build cannot fail |
| Renminbi.ScriptedFullAmount | src/currency/renminbi.rs:34-44 | the draws 295, 3, 7 with both minor units requested give 295 yuan, 3 dimes and 7 cents |
| Renminbi.ScriptedCentsTakeFirstDigit | src/currency/renminbi.rs:70-80 | with the dimes off, the first digit draw (3) becomes the cents |
| Renminbi.YuanOnly | src/currency/renminbi.rs:46-56 | with neither minor unit requested, only the yuan is set and only one draw is made |
| Renminbi.FixedYuan | src/currency/renminbi.rs:106-116 | a yuan range of 73..=73 gives 73 yuan |
| Renminbi.SameStateSameCurrency | src/currency/renminbi.rs:34-80 | two distinct samplers that do not share a source, with the same backend and the same log, give the same currency for the same parameters and end with the same log |
| GregorianDate.AttemptSpec | src/gregorian/date.rs:166-193 | one attempt starts from a fresh builder with `formal` and the defaulted `week_format`; each field is present iff the pattern has it (year from the year range or 1800..=2140, month 1..=12, day 1..=31, week day 0..=6); draws are logged in the order year, month, day, week day; every logged draw is the backend's answer to it |
| GregorianDate.LaterFieldsSpec | src/gregorian/date.rs:178-193 | after the year, month (1..=12), day (1..=31) and week day (0..=6) are each set iff the pattern has them, logged in that order as the backend answered them; the builder's formatting flags and year are kept; the week-day conversion cannot fail |
| GregorianDate.DrawLaterFields | src/gregorian/date.rs:178-193 | the month, day and week-day draws of one attempt return and log exactly what `LaterFieldsSpec` states |
| GregorianDate.DrawCandidate | src/gregorian/date.rs:166-193 | one pass of the loop body returns and logs exactly what `AttemptSpec` states |
| GregorianDate.DateSpec | src/gregorian/date.rs:165-200 | a returned date was accepted by the builder and fits the parameters; its fields are the last draws made, so nothing from a rejected attempt survives; the log only grows, and every entry added is the backend's answer |
| GregorianDate.DateOf | src/gregorian/date.rs:164-201 | the retry loop returns and logs exactly what `DateSpec` states |
| GregorianDate.MoreAttemptsSameDate | src/gregorian/date.rs:165-200 | a higher attempt cap never changes a date already returned, so a capped result equals the uncapped loop's result |
| GregorianDate.FirstCandidateAccepted | src/gregorian/date.rs:195-199 | an accepted candidate ends the loop at once: the result is that candidate and the log after its draws |
| GregorianDate.FirstCandidateRejected | src/gregorian/date.rs:195-199 | a rejected candidate costs one attempt: the loop resumes with a fresh attempt right after its draws, so together with `FirstCandidateAccepted` the result is the first accepted candidate |
| GregorianDate.DefaultYearDrawn | src/gregorian/date.rs:172-176 | with a year pattern and no year range, the first draw of an attempt is a u16 year from `DEFAULT_YEAR_RANGE` (1800..=2140, date.rs:6), and that draw is the year of the candidate |
| GregorianDate.GivenYearDrawn | src/gregorian/date.rs:172-176 | with a year pattern and a given year range, the first draw of an attempt is a u16 year from exactly that range, and that draw is the year of the candidate |
| GregorianDate.FixedYear | src/gregorian/date.rs:104-114 | the Year pattern with the year range 2007..=2007 yields year 2007 |
| GregorianDate.AprilThirtyFirstIsRedrawn | src/gregorian/date.rs:182-199 | with a day-only pattern and an April builder, the draws 31 then 22 cause one rejection and a full redraw, and day 22 is returned |
| GregorianTime.UnitSpec | src/gregorian/time.rs:33-38 | a time unit is one u8 draw inside the unit's range; the conversion cannot fail; every logged draw is the backend's answer to it |
| GregorianTime.UnitOf | src/gregorian/time.rs:33-38 | the shared draw-and-convert step returns and logs exactly what `UnitSpec` states |
| GregorianTime.Hour24 | src/gregorian/time.rs:33-38 | `hour24` lies in 0..=23 |
| GregorianTime.Hour12 | src/gregorian/time.rs:57-62 | `hour12` lies in 1..=12 |
| GregorianTime.Minute | src/gregorian/time.rs:81-86 | `minute` lies in 0..=59 |
| GregorianTime.Second | src/gregorian/time.rs:105-110 | `second` lies in 0..=59 |
| GregorianTime.LinearTimeSpec | src/gregorian/time.rs:152-169 | the hour always comes from `hour24` (0..=23), whatever `day_part` is; `day_part` is copied; the second is present iff `include_second`; draws are logged as hour, minute, then second; every logged draw is the backend's answer to it |
| GregorianTime.LinearTimeOf | src/gregorian/time.rs:152-169 | the `linear_time` method returns and logs exactly what `LinearTimeSpec` states |
| GregorianTime.DayPartDrawsNothing | src/gregorian/time.rs:153-164 | `day_part` changes no draw: with or without it, the same hour, minute, second and log result |
| GregorianTime.DeltaTimeSpec | src/gregorian/time.rs:195-201 | the hour is drawn first in 1..=12, then the minute in 0..=59; every logged draw is the backend's answer to it |
| GregorianTime.DeltaTimeOf | src/gregorian/time.rs:195-201 | the `delta_time` method returns and logs exactly what `DeltaTimeSpec` states |

## Left out

- GregorianDate.DateOf: the source loops until the builder accepts, with no retry cap. Every method of this model is proved to terminate, so the model takes an attempt cap `maxAttempts` and returns `None` when every attempt was rejected. `MoreAttemptsSameDate` shows that the cap never changes a date that was returned.
- GregorianDate.DateSpec: with the attempt cap, it may return `None`, which the uncapped source never does.
- Probabilistic termination of the date loop and statistical uniformity of the draws: neither can be stated over a deterministic backend.
- The `fastrand` backend (src/raw/fastrand_raw.rs): its algorithm is external, so its seeded outputs are not modelled. The model covers a backend only as a `Backend` function that keeps `Sound` and answers each sampler from that sampler's own log.
- Shared entropy: `FastRandGenerator` is a stateless handle on fastrand's single thread-local generator (src/raw/fastrand_raw.rs:5, 56-57, 140-141). Every instance and every `fastrand::seed` call advance that one state, and the examples reseed it before each call. The model does not cover several samplers sharing one entropy state. It assumes that each sampler's answers depend only on its own log and that nothing else draws from its source between its calls. `Renminbi.SameStateSameCurrency` is therefore about two samplers that do not share a source; two `FastRandGenerator`s called one after the other do not, in general, return equal currencies.
- Text rendering (`to_chinese`) and the exact strings in the examples: these belong to the external value library. Only the field values those strings imply are used.
- The internals of the external builders and value types (`DateBuilder`, `RenminbiCurrencyBuilder`, `Fraction::try_new`, the `DigitSequence`, `WeekDay` and hour/minute/second conversions). Date validity is a caller-given `DateValidator`. The other builders and conversions are reduced to the single rule the engine relies on.
- `WeekFormat::default()`: the external library decides the default, so `DateOf` takes it as the parameter `defaultWeekFormat`. `WeekFormat` lists only the two variants that appear in the source.
- `DatePattern`: the external enum is seen only through its four `has_*` queries, so it is modelled as four flags.
- `ChineseFormatGenerator` and `GregorianGenerator` (src/lib.rs, src/gregorian/mod.rs): boxed ownership and borrowing of the sampler are plumbing. Each operation takes the sampler directly.
- src/errors.rs: only the `Display` text of `InvalidLowerBound` lives there. The error itself is `Numeric.InvalidLowerBound`.
- Feature flags, thread safety of the shared entropy source, and tests/readme.rs (which depends on the seeded backend and on rendering).
- Empty ranges: every draw requires `CanDraw`, i.e. a range with `lo <= hi`, so callers must pass non-empty ranges: the ranges of `integer` and `count`, the length range of `digit_sequence` and `decimal`, the yuan range of `renminbi`, the year range of a date pattern with a year, and both ranges of `fraction` once its denominator's lower bound is non-zero. The `RawGenerator` trait leaves an empty `RangeInclusive` undefined and the `fastrand` backend panics on it, so that case has no behaviour to model.
- Integer widths: a value of a Rust integer type is an `int` bounded by `Fits`. Every draw stays inside its caller's range, so no wrap-around occurs.
