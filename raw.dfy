/**
  The primitive sampler (`RawGenerator`): for each integer width, one uniformly
  distributed draw inside an inclusive range, plus a boolean draw.

  The sampler is the only source of entropy. Its observable state is the log of
  the draws made so far; a backend decides each answer as a function of that log
  and of the request, so "same backend, same log, same requests" gives the same
  answers. The one promise every backend keeps (`Sound`) is that the answer lies
  inside the requested range.
*/
module Raw {
  import opened Wrappers

  /** The Rust types the sampler draws; `Boolean` is the `bool` draw, taken as 0 or 1. */
  datatype Width = U8 | U16 | U32 | U64 | U128 | I128 | Boolean

  function MinOf(w: Width): int {
    if w == I128 then -0x8000_0000_0000_0000_0000_0000_0000_0000 else 0
  }

  function MaxOf(w: Width): int {
    match w
    case U8 => 0xFF
    case U16 => 0xFFFF
    case U32 => 0xFFFF_FFFF
    case U64 => 0xFFFF_FFFF_FFFF_FFFF
    case U128 => 0xFFFF_FFFF_FFFF_FFFF_FFFF_FFFF_FFFF_FFFF
    case I128 => 0x7FFF_FFFF_FFFF_FFFF_FFFF_FFFF_FFFF_FFFF
    case Boolean => 1
  }

  /** x is a value of the Rust type w. */
  predicate Fits(w: Width, x: int) {
    MinOf(w) <= x <= MaxOf(w)
  }

  /** `RangeInclusive`: both bounds belong to the range. */
  datatype Range = Range(lo: int, hi: int) {
    predicate Contains(x: int) {
      lo <= x <= hi
    }
  }

  /** A `RangeInclusive<w>`: both bounds are values of w (the range may be empty). */
  predicate IsRangeOf(w: Width, r: Range) {
    Fits(w, r.lo) && Fits(w, r.hi)
  }

  /** What a draw demands of its caller: a non-empty range of that width. */
  predicate CanDraw(w: Width, r: Range) {
    IsRangeOf(w, r) && r.lo <= r.hi
  }

  /** One entry of the draw log: what was asked for and what came back. */
  datatype Draw = Draw(width: Width, range: Range, value: int)

  /** How a backend answers a request, given the log of all earlier draws. */
  type Backend = (seq<Draw>, Width, Range) -> int

  /** The sampler contract: every answer to a satisfiable request lies in its range. */
  ghost predicate Sound(b: Backend) {
    forall h, w, r :: CanDraw(w, r) ==> r.Contains(b(h, w, r))
  }

  /** A value together with the draw log left after producing it. */
  datatype Drawn<T> = Drawn(value: T, history: seq<Draw>)

  /** Entry i of log h2 records the backend's answer to its request, given the log before it. */
  ghost predicate AnsweredAt(b: Backend, h2: seq<Draw>, i: nat)
    requires i < |h2|
  {
    h2[i].value == b(h2[..i], h2[i].width, h2[i].range)
  }

  /**
    Log h2 extends log h, and every entry appended after h records the answer the
    backend gave to that request, asked with the log as it stood just before it.
  */
  ghost predicate Answered(b: Backend, h: seq<Draw>, h2: seq<Draw>) {
    |h| <= |h2| && h2[..|h|] == h && forall i: nat | |h| <= i < |h2| :: AnsweredAt(b, h2, i)
  }

  /** Answered logs compose: extending an extension of h is an extension of h. */
  lemma AnsweredTrans(b: Backend, h1: seq<Draw>, h2: seq<Draw>, h3: seq<Draw>)
    requires Answered(b, h1, h2) && Answered(b, h2, h3)
    ensures Answered(b, h1, h3)
  {
    assert h3[..|h1|] == h2[..|h2|][..|h1|] == h1;
    forall i: nat | |h1| <= i < |h3|
      ensures AnsweredAt(b, h3, i)
    {
      if i < |h2| {
        assert AnsweredAt(b, h2, i);
        assert h3[i] == h2[i];
        assert h3[..i] == h2[..i];
      }
    }
  }

  /** Read back one step of an answered log: the appended value is what the backend answers. */
  lemma AnsweredNext(b: Backend, h: seq<Draw>, w: Width, r: Range, v: int)
    requires Answered(b, h, h + [Draw(w, r, v)])
    ensures v == b(h, w, r)
  {
    assert AnsweredAt(b, h + [Draw(w, r, v)], |h|);
    assert (h + [Draw(w, r, v)])[..|h|] == h;
  }

  /** Regrouping a log: appending twice is appending the joined entries. */
  lemma AppendRegroup(h: seq<Draw>, x: seq<Draw>, y: seq<Draw>)
    ensures (h + x) + y == h + (x + y)
  {
  }

  /** One draw from log h: the backend's answer, in range, appended to the log. */
  function Sample(b: Backend, h: seq<Draw>, w: Width, r: Range): (d: Drawn<int>)
    requires Sound(b) && CanDraw(w, r)
    ensures r.Contains(d.value)
    ensures d.history == h + [Draw(w, r, d.value)]
    ensures Answered(b, h, d.history)
  {
    assert AnsweredAt(b, h + [Draw(w, r, b(h, w, r))], |h|);
    var v := b(h, w, r);
    Drawn(v, h + [Draw(w, r, v)])
  }

  /** The log entries of an optional draw: one entry when the value is present, none otherwise. */
  function OptionalDraws(w: Width, r: Range, o: Option<int>): seq<Draw> {
    if o.Some? then [Draw(w, r, o.value)] else []
  }

  /** A draw made only when `present`: the value is there exactly when it was asked for. */
  function SampleIf(b: Backend, h: seq<Draw>, present: bool, w: Width, r: Range): (d: Drawn<Option<int>>)
    requires Sound(b) && (present ==> CanDraw(w, r))
    ensures d.value.Some? <==> present
    ensures d.value.Some? ==> r.Contains(d.value.value)
    ensures d.history == h + OptionalDraws(w, r, d.value)
    ensures Answered(b, h, d.history)
  {
    if present then
      var s := Sample(b, h, w, r);
      Drawn(Some(s.value), s.history)
    else
      Drawn(None, h)
  }

  /**
    The scripted sampler used to state draw-order facts concretely: the k-th draw
    answers script[k] when that value is inside the requested range. A request
    the script cannot answer (script exhausted, or value out of range) gets the
    lower bound, so the backend stays sound.
  */
  function Scripted(script: seq<int>): (b: Backend)
    ensures Sound(b)
  {
    (h: seq<Draw>, w: Width, r: Range) =>
      if |h| < |script| && r.Contains(script[|h|]) then script[|h|] else r.lo
  }

  /** A scripted draw answers the next scripted value when it is in range. */
  lemma ScriptedSample(script: seq<int>, h: seq<Draw>, w: Width, r: Range)
    requires CanDraw(w, r) && |h| < |script| && r.Contains(script[|h|])
    ensures Sample(Scripted(script), h, w, r).value == script[|h|]
  {
  }

  /** A degenerate range `x..=x` always answers x, whatever the backend. */
  lemma DegenerateRange(b: Backend, h: seq<Draw>, w: Width, x: int)
    requires Sound(b) && Fits(w, x)
    ensures Sample(b, h, w, Range(x, x)).value == x
  {
  }

  /**
    The sampler object owned by the generator. `history` is the state the
    entropy source advances; `backend` says how the source answers.
  */
  class RawGenerator {
    const backend: Backend
    var history: seq<Draw>

    ghost predicate Valid() {
      Sound(backend)
    }

    constructor (backend: Backend)
      requires Sound(backend)
      ensures Valid() && this.backend == backend && history == []
    {
      this.backend := backend;
      history := [];
    }

    /** `u8(range)`: a value inside the range; one entry is logged. */
    method U8(range: Range) returns (r: int)
      requires Valid() && CanDraw(Width.U8, range)
      modifies this
      ensures range.Contains(r)
      ensures Drawn(r, history) == Sample(backend, old(history), Width.U8, range)
    {
      r := Next(Width.U8, range);
    }

    /** `u16(range)` */
    method U16(range: Range) returns (r: int)
      requires Valid() && CanDraw(Width.U16, range)
      modifies this
      ensures range.Contains(r)
      ensures Drawn(r, history) == Sample(backend, old(history), Width.U16, range)
    {
      r := Next(Width.U16, range);
    }

    /** `u32(range)` */
    method U32(range: Range) returns (r: int)
      requires Valid() && CanDraw(Width.U32, range)
      modifies this
      ensures range.Contains(r)
      ensures Drawn(r, history) == Sample(backend, old(history), Width.U32, range)
    {
      r := Next(Width.U32, range);
    }

    /** `u64(range)` */
    method U64(range: Range) returns (r: int)
      requires Valid() && CanDraw(Width.U64, range)
      modifies this
      ensures range.Contains(r)
      ensures Drawn(r, history) == Sample(backend, old(history), Width.U64, range)
    {
      r := Next(Width.U64, range);
    }

    /** `u128(range)` */
    method U128(range: Range) returns (r: int)
      requires Valid() && CanDraw(Width.U128, range)
      modifies this
      ensures range.Contains(r)
      ensures Drawn(r, history) == Sample(backend, old(history), Width.U128, range)
    {
      r := Next(Width.U128, range);
    }

    /** `i128(range)` */
    method I128(range: Range) returns (r: int)
      requires Valid() && CanDraw(Width.I128, range)
      modifies this
      ensures range.Contains(r)
      ensures Drawn(r, history) == Sample(backend, old(history), Width.I128, range)
    {
      r := Next(Width.I128, range);
    }

    /** `bool()`: the draw of 0 or 1, read as false or true. */
    method Bool() returns (x: bool)
      requires Valid()
      modifies this
      ensures Drawn(if x then 1 else 0, history) == Sample(backend, old(history), Boolean, Range(0, 1))
    {
      var bit := Next(Boolean, Range(0, 1));
      x := bit == 1;
    }

    /** The shared step of every draw: ask the backend, then log the answer. */
    method Next(w: Width, range: Range) returns (r: int)
      requires Valid() && CanDraw(w, range)
      modifies this
      ensures Drawn(r, history) == Sample(backend, old(history), w, range)
    {
      r := backend(history, w, range);
      history := history + [Draw(w, range, r)];
    }
  }
}
