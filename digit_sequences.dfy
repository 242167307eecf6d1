/** `digit_sequence` and `decimal` of the generator (src/digit_sequences.rs). */
module DigitSequences {
  import opened Wrappers
  import opened Raw

  /** Each digit is drawn as a u8 in 0..=9. */
  const DIGIT_RANGE := Range(0, 9)

  predicate AllDigits(digits: seq<int>) {
    forall i :: 0 <= i < |digits| ==> 0 <= digits[i] <= 9
  }

  /** The log entries of a run of digit draws, in draw order. */
  function DigitDraws(digits: seq<int>): seq<Draw> {
    seq(|digits|, i requires 0 <= i < |digits| => Draw(U8, DIGIT_RANGE, digits[i]))
  }

  /**
    The `Vec<u8>` to `DigitSequence` conversion of the external library, reduced
    to the rule this engine relies on: every element must be a decimal digit.
  */
  function TryDigitSequence(digits: seq<int>): Option<seq<int>> {
    if AllDigits(digits) then Some(digits) else None
  }

  /** n successive digit draws starting from log h, most significant first. */
  function DrawDigits(b: Backend, h: seq<Draw>, n: nat): (d: Drawn<seq<int>>)
    requires Sound(b)
    ensures |d.value| == n && AllDigits(d.value)
    ensures d.history == h + DigitDraws(d.value)
    ensures Answered(b, h, d.history)
  {
    if n == 0 then
      assert DigitDraws([]) == [];
      Drawn([], h)
    else
      var prefix := DrawDigits(b, h, n - 1);
      var digit := Sample(b, prefix.history, U8, DIGIT_RANGE);
      AnsweredTrans(b, h, prefix.history, digit.history);
      var digits := prefix.value + [digit.value];
      assert DigitDraws(digits) == DigitDraws(prefix.value) + [Draw(U8, DIGIT_RANGE, digit.value)];
      Drawn(digits, digit.history)
  }

  /**
    `digit_sequence(length_range)`: exactly one length draw, then that many
    digit draws; the digits are the result, in draw order.
  */
  function DigitSequenceSpec(b: Backend, h: seq<Draw>, lengthRange: Range): (d: Drawn<seq<int>>)
    requires Sound(b) && CanDraw(U8, lengthRange)
    ensures lengthRange.Contains(|d.value|)
    ensures AllDigits(d.value)
    ensures d.history == h + [Draw(U8, lengthRange, |d.value|)] + DigitDraws(d.value)
    ensures Answered(b, h, d.history)
  {
    var length := Sample(b, h, U8, lengthRange);
    var digits := DrawDigits(b, length.history, length.value);
    AnsweredTrans(b, h, length.history, digits.history);
    Drawn(TryDigitSequence(digits.value).value, digits.history)
  }

  method DigitSequence(raw: RawGenerator, lengthRange: Range) returns (digits: seq<int>)
    requires raw.Valid() && CanDraw(U8, lengthRange)
    modifies raw
    ensures Drawn(digits, raw.history) == DigitSequenceSpec(raw.backend, old(raw.history), lengthRange)
  {
    var length := raw.U8(lengthRange);
    ghost var start := raw.history;
    var collected: seq<int> := [];
    var i := 0;
    while i < length
      invariant 0 <= i <= length
      invariant Drawn(collected, raw.history) == DrawDigits(raw.backend, start, i)
    {
      var digit := raw.U8(DIGIT_RANGE);
      collected := collected + [digit];
      i := i + 1;
    }
    var sequence := TryDigitSequence(collected);
    // `.expect("Digits valid by construction")`: the conversion cannot fail.
    assert sequence.Some?;
    digits := sequence.value;
  }

  /** With a scripted sampler, n digit draws return the next n scripted digits. */
  lemma {:induction false} ScriptedDigits(script: seq<int>, h: seq<Draw>, n: nat)
    requires |h| + n <= |script| && AllDigits(script[|h|..|h| + n])
    ensures DrawDigits(Scripted(script), h, n).value == script[|h|..|h| + n]
  {
    if n > 0 {
      var k := |h| + n - 1;
      assert script[|h|..k] == script[|h|..|h| + n][..n - 1];
      ScriptedDigits(script, h, n - 1);
      var prefix := DrawDigits(Scripted(script), h, n - 1);
      assert |prefix.history| == k;
      assert script[k] == script[|h|..|h| + n][n - 1];
      ScriptedSample(script, prefix.history, U8, DIGIT_RANGE);
      assert script[|h|..|h| + n] == script[|h|..k] + [script[k]];
    }
  }

  /** A length range of 0..=0 gives the empty sequence. */
  lemma EmptyLengthRange(b: Backend, h: seq<Draw>)
    requires Sound(b)
    ensures DigitSequenceSpec(b, h, Range(0, 0)).value == []
  {
  }

  /** A length range of n..=n gives exactly n digits. */
  lemma FixedLengthRange(b: Backend, h: seq<Draw>, n: nat)
    requires Sound(b) && n <= 0xFF
    ensures |DigitSequenceSpec(b, h, Range(n, n)).value| == n
  {
  }

  /** `digit_sequence(5..=5)` answered by the draws 5, 8, 5, 2, 4, 1 is the sequence 85241. */
  lemma ScriptedFixedLength()
    ensures DigitSequenceSpec(Scripted([5, 8, 5, 2, 4, 1]), [], Range(5, 5)).value == [8, 5, 2, 4, 1]
  {
    var script := [5, 8, 5, 2, 4, 1];
    var length := Sample(Scripted(script), [], U8, Range(5, 5));
    ScriptedDigits(script, length.history, 5);
    assert script[1..6] == [8, 5, 2, 4, 1];
  }

  /** `Decimal`: a signed integer part and a digit sequence as the fractional part. */
  datatype Decimal = Decimal(integer: int, fractional: seq<int>)

  /**
    `decimal`: the integer part is drawn first; the fractional part is then a
    digit sequence drawn from the log that follows that one draw.
  */
  function DecimalSpec(b: Backend, h: seq<Draw>, integerRange: Range, fractionalLengthRange: Range)
    : (d: Drawn<Decimal>)
    requires Sound(b) && CanDraw(I128, integerRange) && CanDraw(U8, fractionalLengthRange)
    ensures integerRange.Contains(d.value.integer)
    ensures fractionalLengthRange.Contains(|d.value.fractional|) && AllDigits(d.value.fractional)
    ensures Drawn(d.value.fractional, d.history)
            == DigitSequenceSpec(b, h + [Draw(I128, integerRange, d.value.integer)], fractionalLengthRange)
    ensures Answered(b, h, d.history)
  {
    var integer := Sample(b, h, I128, integerRange);
    var fractional := DigitSequenceSpec(b, integer.history, fractionalLengthRange);
    AnsweredTrans(b, h, integer.history, fractional.history);
    Drawn(Decimal(integer.value, fractional.value), fractional.history)
  }

  method DecimalOf(raw: RawGenerator, integerRange: Range, fractionalLengthRange: Range) returns (r: Decimal)
    requires raw.Valid() && CanDraw(I128, integerRange) && CanDraw(U8, fractionalLengthRange)
    modifies raw
    ensures Drawn(r, raw.history) == DecimalSpec(raw.backend, old(raw.history), integerRange, fractionalLengthRange)
  {
    var integer := raw.I128(integerRange);
    var fractional := DigitSequence(raw, fractionalLengthRange);
    r := Decimal(integer, fractional);
  }

  /** `decimal(0..=0, 0..=0)` is zero with an empty fractional part. */
  lemma ZeroDecimal(b: Backend, h: seq<Draw>)
    requires Sound(b)
    ensures DecimalSpec(b, h, Range(0, 0), Range(0, 0)).value == Decimal(0, [])
  {
  }
}
