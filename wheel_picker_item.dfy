/**
 * One item of the wheel picker. Every item interpolates its distance from the
 * selected index through three knot tables: opacity, scale and rotation (in
 * degrees). The tables share one input knot array and are grown outward from a
 * centre element, one knot on each side per loop step.
 */
module WheelPickerItem {
  import opened Basics

  // ---------------------------------------------------------------------------
  // The three curves

  /** `opacityFunction`: fully opaque at the centre, fading with distance. */
  function OpacityOf(val: real): (r: real)
    ensures 0.0 < r <= 1.0
    ensures r == 1.0 <==> val == 0.0
  {
    1.0 / (1.0 + Abs(val))
  }

  /** `scaleFunction`: full size at the centre, a tenth smaller per unit of distance. */
  function ScaleOf(val: real): (r: real)
    ensures r <= 1.0
    ensures r == 1.0 <==> val == 0.0
  {
    1.0 - 0.1 * Abs(val)
  }

  /** `rotationFunction`: degrees of tilt, sign-preserving in its argument. */
  function RotationOf(val: real): (r: real)
    ensures r > 0.0 <==> val > 0.0
    ensures r < 0.0 <==> val < 0.0
  {
    20.0 * val
  }

  /** Which of the three output tables is meant. */
  datatype Curve = Opacity | Scale | Rotation

  function CurveAt(curve: Curve, val: real): real
  {
    match curve
    case Opacity => OpacityOf(val)
    case Scale => ScaleOf(val)
    case Rotation => RotationOf(val)
  }

  /** The literal each output array starts from: `[1]`, `[1.0]` and `['0deg']`. */
  function Centre(curve: Curve): (r: real)
    ensures r == CurveAt(curve, 0.0)
  {
    match curve
    case Opacity => 1.0
    case Scale => 1.0
    case Rotation => 0.0
  }

  // ---------------------------------------------------------------------------
  // The tables the loops build

  /** How often `for (let i = 1; i <= visibleRest + 1; i++)` runs. */
  function Iterations(visibleRest: int): (n: nat)
    ensures n >= 1 ==> n <= visibleRest + 1
    ensures n + 1 > visibleRest + 1
  {
    if visibleRest + 1 > 0 then visibleRest + 1 else 0
  }

  /** The input knots after `n` loop steps: each step unshifts `-i` and pushes `i`. */
  function Knots(n: nat): (ks: seq<int>)
    ensures |ks| == 2 * n + 1
  {
    if n == 0 then [0] else [-(n as int)] + Knots(n - 1) + [n]
  }

  /** An output table after `n` loop steps: each step unshifts and pushes the same `y = f(i)`. */
  function Table(curve: Curve, n: nat): (ys: seq<real>)
    ensures |ys| == 2 * n + 1
  {
    if n == 0 then [Centre(curve)]
    else [CurveAt(curve, n as real)] + Table(curve, n - 1) + [CurveAt(curve, n as real)]
  }

  /** Knot `k` (counting from the left end) is the integer `k - n`. */
  lemma {:induction false} KnotAt(n: nat, k: nat)
    requires k < 2 * n + 1
    ensures Knots(n)[k] == k - n
  {
    if n > 0 && 0 < k < 2 * n {
      KnotAt(n - 1, k - 1);
    }
  }

  /** Element `k` of an output table is the curve at the distance of knot `k` from the centre. */
  lemma {:induction false} TableAt(curve: Curve, n: nat, k: nat)
    requires k < 2 * n + 1
    ensures Table(curve, n)[k] == CurveAt(curve, Abs((k - n) as real))
  {
    if n > 0 && 0 < k < 2 * n {
      TableAt(curve, n - 1, k - 1);
    }
  }

  /** The knots are exactly `-n .. n`: strictly increasing and symmetric about 0. */
  lemma {:induction false} KnotsShape(n: nat)
    ensures Knots(n)[0] == -(n as int) && Knots(n)[2 * n] == n
    ensures forall k :: 0 <= k < 2 * n + 1 ==> Knots(n)[k] == k - n
    ensures forall j, k :: 0 <= j < k < 2 * n + 1 ==> Knots(n)[j] < Knots(n)[k]
    ensures forall k :: 0 <= k < 2 * n + 1 ==> Knots(n)[2 * n - k] == -Knots(n)[k]
  {
    forall k | 0 <= k < 2 * n + 1
      ensures Knots(n)[k] == k - n
    {
      KnotAt(n, k);
    }
  }

  /** Each knot has exactly one output, and that output is the curve at the knot's absolute value. */
  lemma {:induction false} TableMatchesKnots(curve: Curve, n: nat)
    ensures |Table(curve, n)| == |Knots(n)|
    ensures forall k :: 0 <= k < 2 * n + 1 ==>
      Table(curve, n)[k] == CurveAt(curve, Abs(Knots(n)[k] as real))
  {
    forall k | 0 <= k < 2 * n + 1
      ensures Table(curve, n)[k] == CurveAt(curve, Abs(Knots(n)[k] as real))
    {
      KnotAt(n, k);
      TableAt(curve, n, k);
    }
  }

  /** Every output table reads the same from both ends, and its middle element is the centre literal. */
  lemma {:induction false} TablePalindrome(curve: Curve, n: nat)
    ensures Table(curve, n)[n] == Centre(curve)
    ensures forall k :: 0 <= k < 2 * n + 1 ==> Table(curve, n)[2 * n - k] == Table(curve, n)[k]
  {
    TableAt(curve, n, n);
    forall k | 0 <= k < 2 * n + 1
      ensures Table(curve, n)[2 * n - k] == Table(curve, n)[k]
    {
      TableAt(curve, n, k);
      TableAt(curve, n, 2 * n - k);
    }
  }

  /** The centre elements are opacity 1, scale 1.0 and rotation 0 degrees. */
  lemma {:induction false} CentreValues(n: nat)
    ensures Table(Opacity, n)[n] == 1.0
    ensures Table(Scale, n)[n] == 1.0
    ensures Table(Rotation, n)[n] == 0.0
  {
    TablePalindrome(Opacity, n);
    TablePalindrome(Scale, n);
    TablePalindrome(Rotation, n);
  }

  lemma OpacityFalls(a: real, b: real)
    requires 0.0 <= a < b
    ensures OpacityOf(a) > OpacityOf(b)
  {
    var da, db := 1.0 + a, 1.0 + b;
    assert OpacityOf(a) == 1.0 / da && OpacityOf(b) == 1.0 / db;
    assert 1.0 / da - 1.0 / db == (db - da) / (da * db);
    assert da * db > 0.0;
  }

  /**
   * Opacity lies in (0, 1] and falls strictly from the centre outward on both
   * sides, so it rises strictly from the left end to the centre.
   */
  lemma OpacityTableFades(n: nat)
    ensures forall k :: 0 <= k < 2 * n + 1 ==> 0.0 < Table(Opacity, n)[k] <= 1.0
    ensures forall j, k :: n <= j < k < 2 * n + 1 ==> Table(Opacity, n)[j] > Table(Opacity, n)[k]
    ensures forall j, k :: 0 <= j < k <= n ==> Table(Opacity, n)[j] < Table(Opacity, n)[k]
  {
    forall k | 0 <= k < 2 * n + 1
      ensures 0.0 < Table(Opacity, n)[k] <= 1.0
    {
      TableAt(Opacity, n, k);
    }
    forall j, k | n <= j < k < 2 * n + 1
      ensures Table(Opacity, n)[j] > Table(Opacity, n)[k]
    {
      TableAt(Opacity, n, j);
      TableAt(Opacity, n, k);
      OpacityFalls((j - n) as real, (k - n) as real);
    }
    forall j, k | 0 <= j < k <= n
      ensures Table(Opacity, n)[j] < Table(Opacity, n)[k]
    {
      TableAt(Opacity, n, j);
      TableAt(Opacity, n, k);
      OpacityFalls((n - k) as real, (n - j) as real);
    }
  }

  /** Element `k` of the scale table is `1 - 0.1 * |knot|`; it falls strictly from the centre outward. */
  lemma ScaleTableShrinks(n: nat)
    ensures forall k :: 0 <= k < 2 * n + 1 ==>
      Table(Scale, n)[k] == 1.0 - 0.1 * Abs(Knots(n)[k] as real)
    ensures forall j, k :: n <= j < k < 2 * n + 1 ==> Table(Scale, n)[j] > Table(Scale, n)[k]
    ensures forall j, k :: 0 <= j < k <= n ==> Table(Scale, n)[j] < Table(Scale, n)[k]
  {
    TableMatchesKnots(Scale, n);
    forall j, k | n <= j < k < 2 * n + 1
      ensures Table(Scale, n)[j] > Table(Scale, n)[k]
    {
      TableAt(Scale, n, j);
      TableAt(Scale, n, k);
    }
    forall j, k | 0 <= j < k <= n
      ensures Table(Scale, n)[j] < Table(Scale, n)[k]
    {
      TableAt(Scale, n, j);
      TableAt(Scale, n, k);
    }
  }

  /**
   * The scale table stays positive exactly while fewer than ten knots lie on
   * each side of the centre; from ten on, the outermost knots scale to zero or below.
   */
  lemma ScaleTablePositiveIff(n: nat)
    ensures (forall k :: 0 <= k < 2 * n + 1 ==> Table(Scale, n)[k] > 0.0) <==> n < 10
  {
    ScaleTableShrinks(n);
    TableAt(Scale, n, 0);
    if n < 10 {
      forall k | 0 <= k < 2 * n + 1
        ensures Table(Scale, n)[k] > 0.0
      {
        TableAt(Scale, n, k);
      }
    }
  }

  /**
   * Element `k` of the rotation table is `20 * |knot|` degrees: the same
   * positive tilt on both sides. Left of the centre this is the negation of
   * what `rotationFunction` gives for the knot itself.
   */
  lemma {:induction false} RotationTableSymmetric(n: nat)
    ensures forall k :: 0 <= k < 2 * n + 1 ==>
      Table(Rotation, n)[k] == 20.0 * Abs(Knots(n)[k] as real) >= 0.0
    ensures forall k :: 0 <= k < n ==>
      Table(Rotation, n)[k] == -RotationOf(Knots(n)[k] as real) > 0.0
  {
    TableMatchesKnots(Rotation, n);
    forall k | 0 <= k < n
      ensures Table(Rotation, n)[k] == -RotationOf(Knots(n)[k] as real) > 0.0
    {
      KnotAt(n, k);
    }
  }

  /** With `visibleRest <= -1` no loop iterates: every range is its centre element alone. */
  lemma NoNeighbours(visibleRest: int)
    requires visibleRest <= -1
    ensures Knots(Iterations(visibleRest)) == [0]
    ensures Table(Opacity, Iterations(visibleRest)) == [1.0]
    ensures Table(Scale, Iterations(visibleRest)) == [1.0]
    ensures Table(Rotation, Iterations(visibleRest)) == [0.0]
  {
  }

  /** The tables for one partially visible neighbour on each side. */
  lemma OneNeighbourTables()
    ensures Knots(Iterations(1)) == [-2, -1, 0, 1, 2]
    ensures Table(Opacity, Iterations(1)) == [1.0 / 3.0, 0.5, 1.0, 0.5, 1.0 / 3.0]
    ensures Table(Scale, Iterations(1)) == [0.8, 0.9, 1.0, 0.9, 0.8]
    ensures Table(Rotation, Iterations(1)) == [40.0, 20.0, 0.0, 20.0, 40.0]
  {
  }

  // ---------------------------------------------------------------------------
  // The range-building loops

  /** Builds `inputRange`: starts from `[0]`, then unshifts `-i` and pushes `i` for `i = 1 .. visibleRest + 1`. */
  method BuildInputRange(visibleRest: int) returns (inputRange: seq<int>)
    ensures inputRange == Knots(Iterations(visibleRest))
    ensures |inputRange| == 2 * Iterations(visibleRest) + 1
    ensures forall k :: 0 <= k < |inputRange| ==> inputRange[k] == k - Iterations(visibleRest)
  {
    inputRange := [0];
    var i := 1;
    while i <= visibleRest + 1
      invariant 1 <= i <= Iterations(visibleRest) + 1
      invariant inputRange == Knots(i - 1)
      decreases visibleRest + 1 - i
    {
      inputRange := [-i] + inputRange;
      inputRange := inputRange + [i];
      i := i + 1;
    }
    KnotsShape(Iterations(visibleRest));
  }

  /**
   * Builds one output range: starts from the centre literal, then unshifts and
   * pushes `y = f(x)` for `x = 1 .. visibleRest + 1`.
   */
  method BuildOutputRange(curve: Curve, visibleRest: int) returns (outputRange: seq<real>)
    ensures outputRange == Table(curve, Iterations(visibleRest))
    ensures |outputRange| == 2 * Iterations(visibleRest) + 1
    ensures forall k :: 0 <= k < |outputRange| ==>
      outputRange[k] == CurveAt(curve, Abs((k - Iterations(visibleRest)) as real))
  {
    outputRange := [Centre(curve)];
    var x := 1;
    while x <= visibleRest + 1
      invariant 1 <= x <= Iterations(visibleRest) + 1
      invariant outputRange == Table(curve, x - 1)
      decreases visibleRest + 1 - x
    {
      var y := CurveAt(curve, x as real);
      outputRange := [y] + outputRange;
      outputRange := outputRange + [y];
      x := x + 1;
    }
    forall k | 0 <= k < |outputRange|
      ensures outputRange[k] == CurveAt(curve, Abs((k - Iterations(visibleRest)) as real))
    {
      TableAt(curve, Iterations(visibleRest), k);
    }
  }

  /** The four ranges one item builds before interpolating its distance from the selection. */
  method BuildRanges(visibleRest: int)
    returns (inputRange: seq<int>, opacityRange: seq<real>, scaleRange: seq<real>, rotationRange: seq<real>)
    ensures |inputRange| == 2 * Iterations(visibleRest) + 1
    ensures |opacityRange| == |scaleRange| == |rotationRange| == |inputRange|
    ensures forall j, k :: 0 <= j < k < |inputRange| ==> inputRange[j] < inputRange[k]
    ensures forall k :: 0 <= k < |inputRange| ==>
      && opacityRange[k] == OpacityOf(Abs(inputRange[k] as real))
      && scaleRange[k] == ScaleOf(Abs(inputRange[k] as real))
      && rotationRange[k] == RotationOf(Abs(inputRange[k] as real))
  {
    inputRange := BuildInputRange(visibleRest);
    opacityRange := BuildOutputRange(Opacity, visibleRest);
    scaleRange := BuildOutputRange(Scale, visibleRest);
    rotationRange := BuildOutputRange(Rotation, visibleRest);
    KnotsShape(Iterations(visibleRest));
  }

  // ---------------------------------------------------------------------------
  // Memoisation of the rendered item

  /**
   * The props of one item. `option`, `style` and `textStyle` are objects (or
   * `undefined`) and are represented by their identity.
   */
  datatype ItemProps = ItemProps(
    option: Option<nat>,
    index: int,
    currentIndex: real,
    visibleRest: int,
    height: real,
    style: Option<nat>,
    textStyle: Option<nat>)

  /** The `memo` comparator: true means "equal, skip the re-render". */
  function PropsAreEqual(prevProps: ItemProps, nextProps: ItemProps): (skip: bool)
    ensures skip <==> nextProps == prevProps.(index := nextProps.index, currentIndex := nextProps.currentIndex,
                                              visibleRest := nextProps.visibleRest, height := nextProps.height,
                                              style := nextProps.style, textStyle := nextProps.textStyle)
  {
    prevProps.option == nextProps.option
  }

  /**
   * Skipping depends on the option identity alone: index, current index,
   * visibleRest, height, style and textStyle never force a re-render.
   */
  lemma MemoKeyIsOption(prevProps: ItemProps, nextProps: ItemProps)
    ensures PropsAreEqual(prevProps, nextProps) <==> prevProps.option == nextProps.option
    ensures forall i: int, c: real, v: int, h: real, st: Option<nat>, ts: Option<nat> ::
      PropsAreEqual(prevProps, nextProps.(index := i, currentIndex := c, visibleRest := v, height := h,
                                          style := st, textStyle := ts))
        == PropsAreEqual(prevProps, nextProps)
  {
  }

  /** A memoised item: the props it last rendered with and how often it has rendered. */
  class MemoizedItem {
    var rendered: ItemProps
    var renders: nat

    constructor (initial: ItemProps)
      ensures rendered == initial && renders == 1
    {
      rendered := initial;
      renders := 1;
    }

    /** The parent re-renders with `nextProps`. */
    method Receive(nextProps: ItemProps)
      modifies this
      ensures PropsAreEqual(old(rendered), nextProps) ==> rendered == old(rendered) && renders == old(renders)
      ensures !PropsAreEqual(old(rendered), nextProps) ==> rendered == nextProps && renders == old(renders) + 1
      ensures rendered.option == nextProps.option
    {
      if !PropsAreEqual(rendered, nextProps) {
        rendered := nextProps;
        renders := renders + 1;
      }
    }
  }
}
