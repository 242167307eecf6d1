/** `renminbi` of the generator (src/currency/renminbi.rs). */
module Renminbi {
  import opened Wrappers
  import opened Raw

  /** `CurrencyStyle`: everyday (formal or not) or financial writing. */
  datatype CurrencyStyle = Everyday(formal: bool) | Financial

  /** `RenminbiParams`. */
  datatype RenminbiParams = RenminbiParams(style: CurrencyStyle, yuanRange: Range, includeDimes: bool, includeCents: bool)

  /**
    The fields a `RenminbiCurrencyBuilder` collects, and the currency it builds
    from them: yuan (元), dimes (角) and cents (分), the last two optional.
  */
  datatype RenminbiCurrency = RenminbiCurrency(style: CurrencyStyle, yuan: int, dimes: Option<int>, cents: Option<int>)

  /** Each minor unit is drawn as a u8 in 0..=9. */
  const MINOR_RANGE := Range(0, 9)

  predicate MinorDigit(o: Option<int>) {
    o.Some? ==> 0 <= o.value <= 9
  }

  /**
    `RenminbiCurrencyBuilder::build`, reduced to the rule this engine relies on:
    the minor units, when set, are single decimal digits.
  */
  function Build(builder: RenminbiCurrency): Option<RenminbiCurrency> {
    if MinorDigit(builder.dimes) && MinorDigit(builder.cents) then Some(builder) else None
  }

  /**
    `renminbi(params)`: the yuan is always drawn, first; a dimes digit is drawn
    only when asked for, then a cents digit only when asked for; the style is
    passed through and the build always succeeds.
  */
  function RenminbiSpec(b: Backend, h: seq<Draw>, params: RenminbiParams): (d: Drawn<RenminbiCurrency>)
    requires Sound(b) && CanDraw(U64, params.yuanRange)
    ensures d.value.style == params.style
    ensures params.yuanRange.Contains(d.value.yuan)
    ensures d.value.dimes.Some? <==> params.includeDimes
    ensures d.value.cents.Some? <==> params.includeCents
    ensures MinorDigit(d.value.dimes) && MinorDigit(d.value.cents)
    ensures d.history == h + [Draw(U64, params.yuanRange, d.value.yuan)]
                           + OptionalDraws(U8, MINOR_RANGE, d.value.dimes)
                           + OptionalDraws(U8, MINOR_RANGE, d.value.cents)
    ensures Answered(b, h, d.history)
  {
    var yuan := Sample(b, h, U64, params.yuanRange);
    var dimes := SampleIf(b, yuan.history, params.includeDimes, U8, MINOR_RANGE);
    var cents := SampleIf(b, dimes.history, params.includeCents, U8, MINOR_RANGE);
    AnsweredTrans(b, h, yuan.history, dimes.history);
    AnsweredTrans(b, h, dimes.history, cents.history);
    var builder := RenminbiCurrency(params.style, yuan.value, dimes.value, cents.value);
    Drawn(Build(builder).value, cents.history)
  }

  method RenminbiOf(raw: RawGenerator, params: RenminbiParams) returns (currency: RenminbiCurrency)
    requires raw.Valid() && CanDraw(U64, params.yuanRange)
    modifies raw
    ensures Drawn(currency, raw.history) == RenminbiSpec(raw.backend, old(raw.history), params)
  {
    ghost var start := raw.history;
    var yuan := raw.U64(params.yuanRange);
    var builder := RenminbiCurrency(params.style, yuan, None, None);
    ghost var afterYuan := raw.history;
    if params.includeDimes {
      var dimes := raw.U8(MINOR_RANGE);
      builder := builder.(dimes := Some(dimes));
    }
    assert Drawn(builder.dimes, raw.history) == SampleIf(raw.backend, afterYuan, params.includeDimes, U8, MINOR_RANGE);
    ghost var afterDimes := raw.history;
    if params.includeCents {
      var cents := raw.U8(MINOR_RANGE);
      builder := builder.(cents := Some(cents));
    }
    assert Drawn(builder.cents, raw.history) == SampleIf(raw.backend, afterDimes, params.includeCents, U8, MINOR_RANGE);
    var built := Build(builder);
    // `.expect("Renminbi params correct by construction")`: the build cannot fail.
    assert built.Some?;
    currency := built.value;
  }

  /** The draws 295, 3, 7 with both minor units asked for give 295 yuan, 3 dimes, 7 cents. */
  lemma ScriptedFullAmount(style: CurrencyStyle)
    ensures RenminbiSpec(Scripted([295, 3, 7]), [], RenminbiParams(style, Range(0, 500), true, true)).value
            == RenminbiCurrency(style, 295, Some(3), Some(7))
  {
    var script := [295, 3, 7];
    ScriptedSample(script, [], U64, Range(0, 500));
    ScriptedSample(script, [Draw(U64, Range(0, 500), 295)], U8, MINOR_RANGE);
    ScriptedSample(script, [Draw(U64, Range(0, 500), 295), Draw(U8, MINOR_RANGE, 3)], U8, MINOR_RANGE);
  }

  /**
    With the dimes left out, the first digit draw becomes the cents: the same
    draws give 295 yuan and 3 cents.
  */
  lemma ScriptedCentsTakeFirstDigit(style: CurrencyStyle)
    ensures RenminbiSpec(Scripted([295, 3, 7]), [], RenminbiParams(style, Range(0, 500), false, true)).value
            == RenminbiCurrency(style, 295, None, Some(3))
  {
    var script := [295, 3, 7];
    ScriptedSample(script, [], U64, Range(0, 500));
    ScriptedSample(script, [Draw(U64, Range(0, 500), 295)], U8, MINOR_RANGE);
  }

  /** Neither minor unit asked for: only the yuan is drawn and set. */
  lemma YuanOnly(b: Backend, h: seq<Draw>, style: CurrencyStyle, yuanRange: Range)
    requires Sound(b) && CanDraw(U64, yuanRange)
    ensures var d := RenminbiSpec(b, h, RenminbiParams(style, yuanRange, false, false));
            d.value.dimes.None? && d.value.cents.None? && |d.history| == |h| + 1
  {
  }

  /** A fixed yuan range 73..=73 gives 73 yuan. */
  lemma FixedYuan(b: Backend, h: seq<Draw>, style: CurrencyStyle, includeDimes: bool, includeCents: bool)
    requires Sound(b)
    ensures RenminbiSpec(b, h, RenminbiParams(style, Range(73, 73), includeDimes, includeCents)).value.yuan == 73
  {
  }

  /**
    Two distinct samplers, each owning its source, with the same backend and the
    same draw log, asked for the same currency, give the same currency and end
    with the same log.
  */
  method SameStateSameCurrency(one: RawGenerator, other: RawGenerator, params: RenminbiParams)
    returns (first: RenminbiCurrency, second: RenminbiCurrency)
    requires one != other && one.Valid() && other.Valid()
    requires one.backend == other.backend && one.history == other.history
    requires CanDraw(U64, params.yuanRange)
    modifies one, other
    ensures first == second && one.history == other.history
  {
    first := RenminbiOf(one, params);
    second := RenminbiOf(other, params);
  }
}
