/** `integer`, `fraction` and `count` of the generator (src/numeric.rs). */
module Numeric {
  import opened Wrappers
  import opened Raw

  /** The one caller-misuse error: a lower bound that the domain forbids. */
  datatype InvalidLowerBound = InvalidLowerBound(bound: int)

  /** A fraction as handed to `Fraction::try_new(denominator, numerator)`. */
  datatype Fraction = Fraction(denominator: int, numerator: int)

  /** `Count`: a wrapper around an unsigned 128-bit value. */
  datatype Count = Count(value: int)

  /**
    `Fraction::try_new` of the external value library, reduced to the rule this
    engine relies on: a zero denominator is refused.
  */
  function TryNewFraction(denominator: int, numerator: int): Option<Fraction> {
    if denominator == 0 then None else Some(Fraction(denominator, numerator))
  }

  /** `integer(range)`: the sampler's i128 draw, passed through. */
  method Integer(raw: RawGenerator, range: Range) returns (r: int)
    requires raw.Valid() && CanDraw(I128, range)
    modifies raw
    ensures range.Contains(r)
    ensures Drawn(r, raw.history) == Sample(raw.backend, old(raw.history), I128, range)
  {
    r := raw.I128(range);
  }

  /**
    What `fraction` demands: ranges of the Rust types, and, once the zero check
    has passed, non-empty ranges for the two draws. With a zero lower bound
    nothing is drawn, so nothing more is demanded.
  */
  predicate FractionRanges(denominatorRange: Range, numeratorRange: Range) {
    && IsRangeOf(U128, denominatorRange)
    && IsRangeOf(I128, numeratorRange)
    && (denominatorRange.lo != 0 ==> CanDraw(U128, denominatorRange) && CanDraw(I128, numeratorRange))
  }

  /**
    `fraction`: a zero lower bound for the denominator is refused before any
    draw; otherwise the denominator is drawn, then the numerator, and the
    fraction is always built.
  */
  function FractionSpec(b: Backend, h: seq<Draw>, denominatorRange: Range, numeratorRange: Range)
    : (d: Drawn<Result<Fraction, InvalidLowerBound>>)
    requires Sound(b) && FractionRanges(denominatorRange, numeratorRange)
    ensures d.value.Err? <==> denominatorRange.lo == 0
    ensures d.value.Err? ==> d.value.error == InvalidLowerBound(0) && d.history == h
    ensures d.value.Ok? ==>
              var f := d.value.value;
              && f.denominator != 0
              && denominatorRange.Contains(f.denominator)
              && numeratorRange.Contains(f.numerator)
              && d.history == h + [Draw(U128, denominatorRange, f.denominator), Draw(I128, numeratorRange, f.numerator)]
    ensures Answered(b, h, d.history)
  {
    if denominatorRange.lo == 0 then
      Drawn(Err(InvalidLowerBound(0)), h)
    else
      var denominator := Sample(b, h, U128, denominatorRange);
      var numerator := Sample(b, denominator.history, I128, numeratorRange);
      AnsweredTrans(b, h, denominator.history, numerator.history);
      Drawn(Ok(TryNewFraction(denominator.value, numerator.value).value), numerator.history)
  }

  method FractionOf(raw: RawGenerator, denominatorRange: Range, numeratorRange: Range)
    returns (r: Result<Fraction, InvalidLowerBound>)
    requires raw.Valid() && FractionRanges(denominatorRange, numeratorRange)
    modifies raw
    ensures Drawn(r, raw.history) == FractionSpec(raw.backend, old(raw.history), denominatorRange, numeratorRange)
  {
    if denominatorRange.lo == 0 {
      return Err(InvalidLowerBound(0));
    }
    var denominator := raw.U128(denominatorRange);
    var numerator := raw.I128(numeratorRange);
    var built := TryNewFraction(denominator, numerator);
    // `.expect("Denominator non-zero by construction")`: the build cannot fail.
    assert built.Some?;
    r := Ok(built.value);
  }

  /** A zero lower bound is refused whatever the upper bound and the numerator range are. */
  lemma ZeroLowerBoundRefused(b: Backend, h: seq<Draw>, upper: int, numeratorRange: Range)
    requires Sound(b) && Fits(U128, upper) && IsRangeOf(I128, numeratorRange)
    ensures FractionSpec(b, h, Range(0, upper), numeratorRange) == Drawn(Err(InvalidLowerBound(0)), h)
  {
  }

  /** `fraction(5..=5, 4..=4)` is the fraction with denominator 5 and numerator 4. */
  lemma FixedFraction(b: Backend, h: seq<Draw>)
    requires Sound(b)
    ensures FractionSpec(b, h, Range(5, 5), Range(4, 4)).value == Ok(Fraction(5, 4))
  {
  }

  /** `count(range)`: the sampler's u128 draw, wrapped. */
  method CountOf(raw: RawGenerator, range: Range) returns (c: Count)
    requires raw.Valid() && CanDraw(U128, range)
    modifies raw
    ensures range.Contains(c.value)
    ensures Drawn(c.value, raw.history) == Sample(raw.backend, old(raw.history), U128, range)
  {
    var value := raw.U128(range);
    c := Count(value);
  }
}
