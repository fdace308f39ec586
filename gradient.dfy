/** `Stop` and `GradientLookup`: resolving a position in [0, 1] to a colour
    by bracketing it between two stops and blending each channel linearly. */
module Gradient {
  import opened JsCore
  import opened ColorSpace

  /** One keyframe of a gradient. */
  datatype Stop = Stop(offset: real, color: Color)

  /** `new Stop(offset, color)`: the offset is clamped into [0, 1], and a
      missing offset becomes 0 through `|| 0`. */
  function NewStop(offset: Option<real>, color: Color): (s: Stop)
    ensures 0.0 <= s.offset <= 1.0
    ensures offset.Some? && 0.0 <= offset.value <= 1.0 ==> s.offset == offset.value
    ensures offset.Some? && offset.value > 1.0 ==> s.offset == 1.0
    ensures (offset.None? || offset.value < 0.0) ==> s.offset == 0.0
    ensures s.color == color
  {
    Stop(Or(ClampArg(0.0, 1.0, offset), 0.0), color)
  }

  /** The stops in the order given; the lookup does not sort them. */
  datatype GradientLookup = GradientLookup(stops: seq<Stop>)

  function NewGradientLookup(stops: Option<seq<Stop>>): (g: GradientLookup)
    ensures stops.None? ==> g.stops == []
    ensures stops.Some? ==> g.stops == stops.value
  {
    GradientLookup(OrElse(stops, []))
  }

  // ---- bracketing, as specification functions ----

  /** The first index at or after i whose offset exceeds p, or |stops| if none. */
  function FirstAbove(stops: seq<Stop>, p: real, i: nat): (k: nat)
    requires i <= |stops|
    ensures i <= k <= |stops|
    ensures k < |stops| ==> stops[k].offset > p
    ensures forall j :: i <= j < k ==> stops[j].offset <= p
    decreases |stops| - i
  {
    if i == |stops| then i
    else if stops[i].offset > p then i
    else FirstAbove(stops, p, i + 1)
  }

  /** The last index below k whose offset is below p, or -1 if none. */
  function LastBelow(stops: seq<Stop>, p: real, k: nat): (j: int)
    requires k <= |stops|
    ensures -1 <= j < k
    ensures j >= 0 ==> stops[j].offset < p
    ensures forall m :: j < m < k ==> stops[m].offset >= p
  {
    if k == 0 then -1
    else if stops[k - 1].offset < p then k - 1
    else LastBelow(stops, p, k - 1)
  }

  /** Index of the upper bound: the first stop, in the given order, whose
      offset exceeds p, or the last stop when none does. */
  function UpperIndex(stops: seq<Stop>, p: real): (u: nat)
    requires |stops| >= 1
    ensures u < |stops|
    ensures (stops[u].offset > p && forall j :: 0 <= j < u ==> stops[j].offset <= p) ||
            (u == |stops| - 1 && forall j :: 0 <= j < |stops| ==> stops[j].offset <= p)
  {
    var k := FirstAbove(stops, p, 0);
    if k == |stops| then |stops| - 1 else k
  }

  /** Index of the lower bound: the last stop at or before the upper bound
      whose offset is below p, or the first stop when none is. */
  function LowerIndex(stops: seq<Stop>, p: real): (l: nat)
    requires |stops| >= 1
    ensures l <= UpperIndex(stops, p)
    ensures (stops[l].offset < p && forall j :: l < j <= UpperIndex(stops, p) ==> stops[j].offset >= p) ||
            (l == 0 && forall j :: 0 <= j <= UpperIndex(stops, p) ==> stops[j].offset >= p)
  {
    var j := LastBelow(stops, p, UpperIndex(stops, p) + 1);
    if j < 0 then 0 else j
  }

  // ---- interpolation ----

  /** One RGB channel: normalised by 0.00392, blended, rescaled by 255 and
      truncated by `parseInt`. */
  function Channel(lo: real, hi: real, pos: real): int {
    ParseInt((lo * 0.00392 + (hi - lo) * 0.00392 * pos) * 255.0)
  }

  /** How far the position lies from the lower bound towards the upper
      bound, as a fraction of the distance between them. */
  function BlendPosition(lower: Stop, upper: Stop, position: real): real
    requires lower.offset != upper.offset
  {
    (position - lower.offset) / (upper.offset - lower.offset)
  }

  /** The blend at the relative position pos: each RGB channel is blended
      and truncated by `Channel`, alpha is blended linearly. */
  function Blend(lo: Color, hi: Color, pos: real): Color {
    Mixed(Channel(lo.red, hi.red, pos), Channel(lo.green, hi.green, pos), Channel(lo.blue, hi.blue, pos),
          lo.alpha + (hi.alpha - lo.alpha) * pos)
  }

  /** `new Color` of blended channels after the ternary clamps: red, green
      and blue into [0, 255], alpha into [0, 1]. */
  function Mixed(red: int, green: int, blue: int, alpha: real): Color {
    NewColor(Some(ClampInt(0, 255, red) as real), Some(ClampInt(0, 255, green) as real),
             Some(ClampInt(0, 255, blue) as real), Some(Clamp(0.0, 1.0, alpha)))
  }

  /** `interpolateColor(lowerBound, upperBound, position)`. When both bounds
      have the same offset the division gives NaN or an infinity, every
      channel becomes NaN (`parseInt` of an infinity is NaN too), and
      `new Color` turns NaN into 0 for r, g, b and into 1 for alpha:
      opaque black. */
  function InterpolateColor(lower: Stop, upper: Stop, position: real): (c: Color)
    ensures Valid(c)
    ensures upper.offset == lower.offset ==> c == Black
  {
    if upper.offset == lower.offset then
      NewColor(None, None, None, None)
    else
      Blend(lower.color, upper.color, BlendPosition(lower, upper, position))
  }

  /** Each RGB channel comes out as its clamped value; so does alpha, except
      that a clamped alpha of 0 is read as falsy by `new Color` and becomes 1. */
  lemma MixedChannels(red: int, green: int, blue: int, alpha: real)
    ensures Mixed(red, green, blue, alpha).red == ClampInt(0, 255, red) as real
    ensures Mixed(red, green, blue, alpha).green == ClampInt(0, 255, green) as real
    ensures Mixed(red, green, blue, alpha).blue == ClampInt(0, 255, blue) as real
    ensures var a := Clamp(0.0, 1.0, alpha);
      Mixed(red, green, blue, alpha).alpha == (if a > 0.0 then a else 1.0)
  {
    assert 0.0 <= Clamp(0.0, 1.0, alpha) <= 1.0;
  }

  /** The colour `getColorAt(x)` returns. Calling it on a lookup without
      stops throws a TypeError in the source, hence the precondition. */
  function ColorAt(stops: seq<Stop>, x: real): Color
    requires |stops| >= 1
  {
    var p := Clamp(0.0, 1.0, x);
    if |stops| == 1 then stops[0].color
    else InterpolateColor(stops[LowerIndex(stops, p)], stops[UpperIndex(stops, p)], p)
  }

  /** The lower bound after the scan has looked at the first k stops. */
  function LowerSoFar(stops: seq<Stop>, p: real, k: nat): Stop
    requires 1 <= |stops| && k <= |stops|
  {
    var j := LastBelow(stops, p, k);
    if j < 0 then stops[0] else stops[j]
  }

  /** The scan stops at the first stop above p. */
  lemma FirstAboveAt(stops: seq<Stop>, p: real, i: nat)
    requires i < |stops| && stops[i].offset > p
    requires forall j :: 0 <= j < i ==> stops[j].offset <= p
    ensures FirstAbove(stops, p, 0) == i
  {
  }

  /** Looking at one more stop moves the lower bound there exactly when
      that stop lies below p. */
  lemma LowerSoFarStep(stops: seq<Stop>, p: real, k: nat)
    requires 1 <= |stops| && k < |stops|
    ensures LowerSoFar(stops, p, k + 1) == if stops[k].offset < p then stops[k] else LowerSoFar(stops, p, k)
  {
  }

  /** When the scan meets a stop above p at i, the bounds it holds are the
      ones `ColorAt` picks. */
  lemma ScanStopsAt(stops: seq<Stop>, p: real, i: nat)
    requires i < |stops| && stops[i].offset > p
    requires forall j :: 0 <= j < i ==> stops[j].offset <= p
    ensures UpperIndex(stops, p) == i
    ensures LowerSoFar(stops, p, i + 1) == stops[LowerIndex(stops, p)]
  {
    FirstAboveAt(stops, p, i);
  }

  /** When the scan meets no stop above p, the upper bound stays the last
      stop and the lower bound is again the one `ColorAt` picks. */
  lemma ScanRunsOut(stops: seq<Stop>, p: real)
    requires 1 <= |stops|
    requires forall j :: 0 <= j < |stops| ==> stops[j].offset <= p
    ensures UpperIndex(stops, p) == |stops| - 1
    ensures LowerSoFar(stops, p, |stops|) == stops[LowerIndex(stops, p)]
  {
  }

  /** On two or more stops, `ColorAt` blends the two bounds of the clamped query. */
  lemma ColorAtBounds(stops: seq<Stop>, x: real, p: real, lower: Stop, upper: Stop)
    requires |stops| >= 2 && p == Clamp(0.0, 1.0, x)
    requires lower == stops[LowerIndex(stops, p)] && upper == stops[UpperIndex(stops, p)]
    ensures ColorAt(stops, x) == InterpolateColor(lower, upper, p)
  {
  }

  /** `getColorAt`: one ordered scan that keeps the latest stop below the
      position and stops at the first stop above it. */
  method GetColorAt(lookup: GradientLookup, positionOfColor: real) returns (color: Color)
    requires |lookup.stops| >= 1
    ensures color == ColorAt(lookup.stops, positionOfColor)
  {
    var stops := lookup.stops;
    var position := if positionOfColor < 0.0 then 0.0 else if positionOfColor > 1.0 then 1.0 else positionOfColor;
    assert position == Clamp(0.0, 1.0, positionOfColor);
    if |stops| == 1 {
      SingleStopColor(stops, positionOfColor);
      color := stops[0].color;
      return;
    }
    var lowerBound := stops[0];
    var upperBound := stops[|stops| - 1];
    var i := 0;
    while i < |stops|
      invariant 0 <= i <= |stops|
      invariant forall j :: 0 <= j < i ==> stops[j].offset <= position
      invariant lowerBound == LowerSoFar(stops, position, i)
      invariant upperBound == stops[|stops| - 1]
    {
      var offset := stops[i].offset;
      LowerSoFarStep(stops, position, i);
      if offset < position {
        lowerBound := stops[i];
      }
      if offset > position {
        upperBound := stops[i];
        ScanStopsAt(stops, position, i);
        break;
      }
      i := i + 1;
    }
    if i == |stops| {
      ScanRunsOut(stops, position);
    }
    ColorAtBounds(stops, positionOfColor, position, lowerBound, upperBound);
    color := InterpolateColor(lowerBound, upperBound, position);
  }

  // ---- properties ----

  /** Queries are clamped: everything at or below 0 looks like 0, everything
      at or above 1 looks like 1. */
  lemma ColorAtClampsQuery(stops: seq<Stop>, x: real)
    requires |stops| >= 1
    ensures x <= 0.0 ==> ColorAt(stops, x) == ColorAt(stops, 0.0)
    ensures x >= 1.0 ==> ColorAt(stops, x) == ColorAt(stops, 1.0)
  {
  }

  /** With one stop, its colour comes back unchanged, whatever the query. */
  lemma SingleStopColor(stops: seq<Stop>, x: real)
    requires |stops| == 1
    ensures ColorAt(stops, x) == stops[0].color
  {
  }

  /** With two or more stops the result always has RGB in [0, 255] and
      alpha in [0, 1], whatever the stops hold. */
  lemma ColorAtIsValid(stops: seq<Stop>, x: real)
    requires |stops| >= 2 || (|stops| == 1 && Valid(stops[0].color))
    ensures Valid(ColorAt(stops, x))
  {
  }

  /** A query below the first stop's offset brackets between the first stop
      and itself, and so comes out opaque black. */
  lemma {:induction false} BelowFirstStopIsBlack(stops: seq<Stop>, x: real)
    requires |stops| >= 2 && Clamp(0.0, 1.0, x) < stops[0].offset
    ensures ColorAt(stops, x) == Black
  {
    var p := Clamp(0.0, 1.0, x);
    assert UpperIndex(stops, p) == 0;
  }

  /** A query above every stop's offset brackets between the last stop and
      itself, and so comes out opaque black. */
  lemma {:induction false} AboveAllStopsIsBlack(stops: seq<Stop>, x: real)
    requires |stops| >= 2
    requires forall j :: 0 <= j < |stops| ==> stops[j].offset < Clamp(0.0, 1.0, x)
    ensures ColorAt(stops, x) == Black
  {
    var p := Clamp(0.0, 1.0, x);
    assert UpperIndex(stops, p) == |stops| - 1;
    assert LastBelow(stops, p, |stops|) == |stops| - 1;
  }

  ghost predicate StrictlyIncreasing(stops: seq<Stop>) {
    forall i, j :: 0 <= i < j < |stops| ==> stops[i].offset < stops[j].offset
  }

  /** For stops in strictly increasing offset order and a position inside
      their span, the bounds are two distinct stops that enclose the
      position, so the blend is a genuine one. */
  lemma {:induction false} SortedBracketEnclosesPosition(stops: seq<Stop>, p: real)
    requires |stops| >= 2 && StrictlyIncreasing(stops)
    requires stops[0].offset <= p <= stops[|stops| - 1].offset
    ensures var l, u := LowerIndex(stops, p), UpperIndex(stops, p);
      l < u && stops[l].offset <= p <= stops[u].offset && stops[l].offset < stops[u].offset
  {
    var n := |stops|;
    var u := UpperIndex(stops, p);
    var l := LowerIndex(stops, p);
    if stops[u].offset > p {
      if u == 0 {
        assert false;
      }
      if stops[l].offset >= p {
        assert l == 0 && stops[0].offset == p;
      }
    } else {
      assert u == n - 1 && stops[n - 1].offset == p;
      assert stops[n - 2].offset < p;
      assert l == n - 2;
    }
  }

  function Min(a: real, b: real): real { if a <= b then a else b }
  function Max(a: real, b: real): real { if a <= b then b else a }

  lemma MulNonNegative(x: real, y: real)
    requires 0.0 <= x && 0.0 <= y
    ensures 0.0 <= x * y
  {
  }

  // Moving a fraction t in [0, 1] of the way from a to b stays between them.

  lemma BlendUp(a: real, b: real, t: real)
    requires a <= b && 0.0 <= t <= 1.0
    ensures 0.0 <= (b - a) * t <= b - a
  {
    var x := b - a;
    MulNonNegative(x, t);
    MulNonNegative(x, 1.0 - t);
    assert x * (1.0 - t) == x - x * t;
  }

  lemma BlendDown(a: real, b: real, t: real)
    requires b < a && 0.0 <= t <= 1.0
    ensures b - a <= (b - a) * t <= 0.0
  {
    var x := a - b;
    MulNonNegative(x, t);
    MulNonNegative(x, 1.0 - t);
    assert x * (1.0 - t) == x - x * t;
    assert (b - a) * t == -(x * t);
  }

  lemma {:induction false} BlendBetween(a: real, b: real, t: real)
    requires 0.0 <= t <= 1.0
    ensures Min(a, b) <= a + (b - a) * t <= Max(a, b)
  {
    if a <= b {
      BlendUp(a, b, t);
    } else {
      BlendDown(a, b, t);
    }
  }

  /** A blended channel lies between the two stops' channels scaled by
      0.00392 * 255 = 0.9996, truncated: no clamp fires for valid stops. */
  lemma {:induction false} ChannelBetween(a: real, b: real, t: real)
    requires 0.0 <= a <= 255.0 && 0.0 <= b <= 255.0 && 0.0 <= t <= 1.0
    ensures 0 <= Channel(a, b, t) <= 254
    ensures 0.9996 * Min(a, b) - 1.0 < Channel(a, b, t) as real <= 0.9996 * Max(a, b)
  {
    BlendBetween(a, b, t);
    var v := (a * 0.00392 + (b - a) * 0.00392 * t) * 255.0;
    assert v == 0.9996 * (a + (b - a) * t);
  }

  lemma Fraction(n: real, d: real)
    requires 0.0 <= n <= d && 0.0 < d
    ensures 0.0 <= n / d <= 1.0
  {
    assert (n / d) * d == n;
  }

  /** An RGB channel v lies between channels a and b, up to the 0.9996
      scaling and the truncation. */
  ghost predicate ChannelWithin(a: real, b: real, v: real) {
    0.9996 * Min(a, b) - 1.0 < v <= 0.9996 * Max(a, b)
  }

  /** An alpha v lies between alphas a and b, or is the 1 that `|| 1` gives
      for a blended alpha of 0. */
  ghost predicate AlphaWithin(a: real, b: real, v: real) {
    v == 1.0 || Min(a, b) <= v <= Max(a, b)
  }

  /** c lies within lo and hi: each RGB channel by `ChannelWithin`, alpha
      by `AlphaWithin`. */
  ghost predicate Between(lo: Color, hi: Color, c: Color) {
    ChannelWithin(lo.red, hi.red, c.red) && ChannelWithin(lo.green, hi.green, c.green) &&
    ChannelWithin(lo.blue, hi.blue, c.blue) && AlphaWithin(lo.alpha, hi.alpha, c.alpha)
  }

  /** A blended RGB channel passes the [0, 255] clamp unchanged and stays
      within the two channels, up to the scaling and the truncation. */
  lemma ChannelComesThrough(a: real, b: real, t: real)
    requires 0.0 <= a <= 255.0 && 0.0 <= b <= 255.0 && 0.0 <= t <= 1.0
    ensures ChannelWithin(a, b, ClampInt(0, 255, Channel(a, b, t)) as real)
  {
    ChannelBetween(a, b, t);
  }

  /** A blended alpha, clamped and passed through `|| 1`, stays between the
      two alphas or is 1. */
  lemma AlphaComesThrough(a: real, b: real, t: real)
    requires 0.0 <= a <= 1.0 && 0.0 <= b <= 1.0 && 0.0 <= t <= 1.0
    ensures var x := Clamp(0.0, 1.0, a + (b - a) * t);
      AlphaWithin(a, b, if x > 0.0 then x else 1.0)
  {
    BlendBetween(a, b, t);
  }

  // Each channel of a blend of two valid colours, clamped, lies between
  // theirs; one lemma per channel keeps each proof small.

  lemma RedWithin(lo: Color, hi: Color, pos: real)
    requires Valid(lo) && Valid(hi) && 0.0 <= pos <= 1.0
    ensures ChannelWithin(lo.red, hi.red, ClampInt(0, 255, Channel(lo.red, hi.red, pos)) as real)
  {
    ChannelComesThrough(lo.red, hi.red, pos);
  }

  lemma GreenWithin(lo: Color, hi: Color, pos: real)
    requires Valid(lo) && Valid(hi) && 0.0 <= pos <= 1.0
    ensures ChannelWithin(lo.green, hi.green, ClampInt(0, 255, Channel(lo.green, hi.green, pos)) as real)
  {
    ChannelComesThrough(lo.green, hi.green, pos);
  }

  lemma BlueWithin(lo: Color, hi: Color, pos: real)
    requires Valid(lo) && Valid(hi) && 0.0 <= pos <= 1.0
    ensures ChannelWithin(lo.blue, hi.blue, ClampInt(0, 255, Channel(lo.blue, hi.blue, pos)) as real)
  {
    ChannelComesThrough(lo.blue, hi.blue, pos);
  }

  lemma BlendedAlphaWithin(lo: Color, hi: Color, pos: real)
    requires Valid(lo) && Valid(hi) && 0.0 <= pos <= 1.0
    ensures var x := Clamp(0.0, 1.0, lo.alpha + (hi.alpha - lo.alpha) * pos);
      AlphaWithin(lo.alpha, hi.alpha, if x > 0.0 then x else 1.0)
  {
    AlphaComesThrough(lo.alpha, hi.alpha, pos);
  }

  /** Clamped channels that lie within two colours' channels give a colour
      within them, in the sense of `Between`. */
  lemma MixedStaysBetween(lo: Color, hi: Color, red: int, green: int, blue: int, alpha: real)
    requires ChannelWithin(lo.red, hi.red, ClampInt(0, 255, red) as real)
    requires ChannelWithin(lo.green, hi.green, ClampInt(0, 255, green) as real)
    requires ChannelWithin(lo.blue, hi.blue, ClampInt(0, 255, blue) as real)
    requires var x := Clamp(0.0, 1.0, alpha); AlphaWithin(lo.alpha, hi.alpha, if x > 0.0 then x else 1.0)
    ensures Between(lo, hi, Mixed(red, green, blue, alpha))
  {
    MixedChannels(red, green, blue, alpha);
  }

  /** A blend of two valid colours at a relative position in [0, 1] lies
      within them, in the sense of `Between`. */
  lemma {:induction false} BlendStaysBetween(lo: Color, hi: Color, pos: real)
    requires Valid(lo) && Valid(hi) && 0.0 <= pos <= 1.0
    ensures Between(lo, hi, Blend(lo, hi, pos))
  {
    hide Channel;
    RedWithin(lo, hi, pos);
    GreenWithin(lo, hi, pos);
    BlueWithin(lo, hi, pos);
    BlendedAlphaWithin(lo, hi, pos);
    MixedStaysBetween(lo, hi, Channel(lo.red, hi.red, pos), Channel(lo.green, hi.green, pos),
                      Channel(lo.blue, hi.blue, pos), lo.alpha + (hi.alpha - lo.alpha) * pos);
  }

  /** Between two valid stops with distinct offsets that enclose the
      position, every channel of the result lies between the stops'
      channels (up to the 0.9996 scaling and truncation), and alpha lies
      between the stops' alphas unless it would be exactly 0. */
  lemma {:induction false} InterpolationStaysBetween(lower: Stop, upper: Stop, position: real)
    requires Valid(lower.color) && Valid(upper.color)
    requires lower.offset <= position <= upper.offset && lower.offset < upper.offset
    ensures Between(lower.color, upper.color, InterpolateColor(lower, upper, position))
  {
    var pos := BlendPosition(lower, upper, position);
    Fraction(position - lower.offset, upper.offset - lower.offset);
    BlendStaysBetween(lower.color, upper.color, pos);
  }

  /** For sorted valid stops and a position inside their span, `getColorAt`
      blends between the two enclosing stops. */
  lemma {:induction false} SortedColorAtStaysBetween(stops: seq<Stop>, x: real)
    requires |stops| >= 2 && StrictlyIncreasing(stops)
    requires forall j :: 0 <= j < |stops| ==> Valid(stops[j].color)
    requires stops[0].offset <= Clamp(0.0, 1.0, x) <= stops[|stops| - 1].offset
    ensures var p := Clamp(0.0, 1.0, x);
      Between(stops[LowerIndex(stops, p)].color, stops[UpperIndex(stops, p)].color, ColorAt(stops, x))
  {
    var p := Clamp(0.0, 1.0, x);
    SortedBracketEnclosesPosition(stops, p);
    InterpolationStaysBetween(stops[LowerIndex(stops, p)], stops[UpperIndex(stops, p)], p);
  }

  /** Black at 0 to white at 1, queried halfway: 127 in each channel
      (0.9996 * 127.5 truncated), alpha 1. */
  lemma BlackToWhiteHalfway()
    ensures ColorAt([Stop(0.0, Black), Stop(1.0, White)], 0.5) == Color(127.0, 127.0, 127.0, 1.0)
  {
    var stops := [Stop(0.0, Black), Stop(1.0, White)];
    assert UpperIndex(stops, 0.5) == 1;
    assert LowerIndex(stops, 0.5) == 0;
  }

  /** A query exactly at an inner stop's offset skips that stop: both strict
      comparisons exclude it, so red / green / blue at 0, 0.5, 1 queried at
      0.5 blends red with blue and gives no green at all. */
  lemma ExactStopOffsetBlendsNeighbours()
    ensures ColorAt([Stop(0.0, Red), Stop(0.5, Rgb(0.0, 255.0, 0.0)), Stop(1.0, Rgb(0.0, 0.0, 255.0))], 0.5)
         == Color(127.0, 0.0, 127.0, 1.0)
  {
    var stops := [Stop(0.0, Red), Stop(0.5, Rgb(0.0, 255.0, 0.0)), Stop(1.0, Rgb(0.0, 0.0, 255.0))];
    ExactStopBracket();
    ColorAtBounds(stops, 0.5, 0.5, stops[0], stops[2]);
    RedBlueHalfway();
  }

  /** The bounds of that query are the first and the last stop. */
  lemma ExactStopBracket()
    ensures var stops := [Stop(0.0, Red), Stop(0.5, Rgb(0.0, 255.0, 0.0)), Stop(1.0, Rgb(0.0, 0.0, 255.0))];
      LowerIndex(stops, 0.5) == 0 && UpperIndex(stops, 0.5) == 2
  {
    var stops := [Stop(0.0, Red), Stop(0.5, Rgb(0.0, 255.0, 0.0)), Stop(1.0, Rgb(0.0, 0.0, 255.0))];
    assert FirstAbove(stops, 0.5, 1) == 2;
    assert UpperIndex(stops, 0.5) == 2;
    assert LastBelow(stops, 0.5, 2) == 0;
  }

  /** Red at 0 to blue at 1, queried halfway. */
  lemma RedBlueHalfway()
    ensures InterpolateColor(Stop(0.0, Red), Stop(1.0, Rgb(0.0, 0.0, 255.0)), 0.5) == Color(127.0, 0.0, 127.0, 1.0)
  {
    assert BlendPosition(Stop(0.0, Red), Stop(1.0, Rgb(0.0, 0.0, 255.0)), 0.5) == 0.5;
  }

  /** Even at a stop's own offset a channel of 255 comes back as 254:
      the 0.00392 normalisation is slightly below 1 / 255. */
  lemma WhiteStopsGive254()
    ensures ColorAt([Stop(0.0, White), Stop(1.0, White)], 0.0) == Color(254.0, 254.0, 254.0, 1.0)
  {
    var stops := [Stop(0.0, White), Stop(1.0, White)];
    assert UpperIndex(stops, 0.0) == 1;
    assert LowerIndex(stops, 0.0) == 0;
  }
}
