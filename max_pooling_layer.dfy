/**
 * The older CPU max-pooling layer (richard/src/max_pooling_layer.cpp): the
 * same forward loops as the CPU layer, started from `numeric_limits<double>::min()`,
 * and a backward pass that first computes its own delta from the next layer
 * (a dense layer's weighted delta, or the full convolution of a
 * convolutional layer's delta with its kernels) and then pads it to the
 * input through the mask.
 */
module MaxPooling {
  import opened Wrappers
  import opened Utils
  import opened Math
  import opened Pooling
  import Limits
  import Layers

  /*
   * backpropFromConvLayer: the full convolution of the next layer's delta.
   */

  /**
   * What the pooling layer reads of the next, convolutional, layer: the
   * kernel `K` of each filter (all with the extents of the first,
   * `kW` by `kH` by `kD`) and that layer's delta.
   */
  datatype ConvView = ConvView(kernels: seq<seq<real>>, kW: nat, kH: nat, kD: nat, delta: seq<real>)

  /**
   * The extents agree: every kernel is `kW * kH * kD` values, the feature
   * maps `outW - kW + 1` by `outH - kH + 1` do not wrap below zero, and
   * the delta holds one value per feature-map cell per filter.
   */
  predicate Shaped(g: Geometry, c: ConvView) {
    g.Valid() && c.kW <= g.OutW() + 1 && c.kH <= g.OutH() + 1 &&
    (forall k | 0 <= k < |c.kernels| :: |c.kernels[k]| == c.kW * c.kH * c.kD) &&
    |c.delta| == (g.OutW() + 1 - c.kW) * (g.OutH() + 1 - c.kH) * |c.kernels|
  }

  /** `fmW`, the feature-map width. */
  function FmW(g: Geometry, c: ConvView): nat
    requires g.Valid() && c.kW <= g.OutW() + 1
  {
    g.OutW() + 1 - c.kW
  }

  /** `fmH`, the feature-map height. */
  function FmH(g: Geometry, c: ConvView): nat
    requires g.Valid() && c.kH <= g.OutH() + 1
  {
    g.OutH() + 1 - c.kH
  }

  /** The delta is ready to accumulate into: filters exist and match the depth. */
  predicate Ready(g: Geometry, c: ConvView) {
    Shaped(g, c) && |c.kernels| > 0 && c.kD == g.depth
  }

  /**
   * What feature-map cell (`fx`, `fy`) of filter `fm` adds to delta cell
   * (`X`, `Y`, `Z`): `K(X - fx, Y - fy, Z) * convDelta(fx, fy, fm)` where
   * the kernel placed at (`fx`, `fy`) covers the cell, nothing elsewhere.
   */
  function Contribution(g: Geometry, c: ConvView, fm: nat, fx: nat, fy: nat, X: nat, Y: nat, Z: nat): real
    requires Ready(g, c) && fm < |c.kernels| && fx < FmW(g, c) && fy < FmH(g, c) && Z < g.depth
  {
    if fx <= X < fx + c.kW && fy <= Y < fy + c.kH then
      At3(c.kernels[fm], c.kW, c.kH, c.kD, X - fx, Y - fy, Z) * At3(c.delta, FmW(g, c), FmH(g, c), |c.kernels|, fx, fy, fm)
    else 0.0
  }

  /** The contributions of the first `n` cells of feature-map row `fy` of filter `fm`. */
  function SumFx(g: Geometry, c: ConvView, fm: nat, fy: nat, n: nat, X: nat, Y: nat, Z: nat): real
    requires Ready(g, c) && fm < |c.kernels| && fy < FmH(g, c) && n <= FmW(g, c) && Z < g.depth
  {
    if n == 0 then 0.0 else SumFx(g, c, fm, fy, n - 1, X, Y, Z) + Contribution(g, c, fm, n - 1, fy, X, Y, Z)
  }

  /** The contributions of the first `n` feature-map rows of filter `fm`. */
  function SumFy(g: Geometry, c: ConvView, fm: nat, n: nat, X: nat, Y: nat, Z: nat): real
    requires Ready(g, c) && fm < |c.kernels| && n <= FmH(g, c) && Z < g.depth
  {
    if n == 0 then 0.0 else SumFy(g, c, fm, n - 1, X, Y, Z) + SumFx(g, c, fm, n - 1, FmW(g, c), X, Y, Z)
  }

  /** The contributions of the first `n` filters. */
  function SumFm(g: Geometry, c: ConvView, n: nat, X: nat, Y: nat, Z: nat): real
    requires Ready(g, c) && n <= |c.kernels| && Z < g.depth
  {
    if n == 0 then 0.0 else SumFm(g, c, n - 1, X, Y, Z) + SumFy(g, c, n - 1, FmH(g, c), X, Y, Z)
  }

  /** The convolution with a zero delta adds nothing. */
  lemma {:induction false} SumFxZero(g: Geometry, c: ConvView, fm: nat, fy: nat, n: nat, X: nat, Y: nat, Z: nat)
    requires Ready(g, c) && fm < |c.kernels| && fy < FmH(g, c) && n <= FmW(g, c) && Z < g.depth
    requires forall k | 0 <= k < |c.delta| :: c.delta[k] == 0.0
    ensures SumFx(g, c, fm, fy, n, X, Y, Z) == 0.0
  {
    if n > 0 {
      SumFxZero(g, c, fm, fy, n - 1, X, Y, Z);
      KernelIndexInRange(n - 1, fy, fm, FmW(g, c), FmH(g, c), |c.kernels|);
    }
  }

  lemma {:induction false} SumFyZero(g: Geometry, c: ConvView, fm: nat, n: nat, X: nat, Y: nat, Z: nat)
    requires Ready(g, c) && fm < |c.kernels| && n <= FmH(g, c) && Z < g.depth
    requires forall k | 0 <= k < |c.delta| :: c.delta[k] == 0.0
    ensures SumFy(g, c, fm, n, X, Y, Z) == 0.0
  {
    if n > 0 {
      SumFyZero(g, c, fm, n - 1, X, Y, Z);
      SumFxZero(g, c, fm, n - 1, FmW(g, c), X, Y, Z);
    }
  }

  lemma {:induction false} SumFmZero(g: Geometry, c: ConvView, n: nat, X: nat, Y: nat, Z: nat)
    requires Ready(g, c) && n <= |c.kernels| && Z < g.depth
    requires forall k | 0 <= k < |c.delta| :: c.delta[k] == 0.0
    ensures SumFm(g, c, n, X, Y, Z) == 0.0
  {
    if n > 0 {
      SumFmZero(g, c, n - 1, X, Y, Z);
      SumFyZero(g, c, n - 1, FmH(g, c), X, Y, Z);
    }
  }

  /** Row-major order within a slice, slices in order: (`X`, `Y`, `Z`) comes before (`xn`, `yn`, `zn`). */
  predicate Added(X: nat, Y: nat, Z: nat, xn: nat, yn: nat, zn: nat) {
    Z < zn || (Z == zn && Before(X, Y, xn, yn))
  }

  /**
   * The window loop invariant: cells before (`xn`, `yn`, `zn`) have received
   * the contribution of feature-map cell (`fx`, `fy`) of filter `fm`.
   */
  ghost predicate Windowed(g: Geometry, c: ConvView, d0: seq<real>, d: seq<real>, fm: nat, fx: nat, fy: nat, xn: nat, yn: nat, zn: nat)
    requires Ready(g, c) && fm < |c.kernels| && fx < FmW(g, c) && fy < FmH(g, c)
    requires |d0| == g.OutputSize() && |d| == g.OutputSize()
  {
    forall X: nat, Y: nat, Z: nat | X < g.OutW() && Y < g.OutH() && Z < g.depth ::
      OutCell(g, d, X, Y, Z) ==
        OutCell(g, d0, X, Y, Z) + (if Added(X, Y, Z, xn, yn, zn) then Contribution(g, c, fm, fx, fy, X, Y, Z) else 0.0)
  }

  lemma WindowNext(g: Geometry, c: ConvView, d0: seq<real>, d: seq<real>, fm: nat, fx: nat, fy: nat, i: nat, j: nat, z: nat)
    requires Ready(g, c) && fm < |c.kernels| && fx < FmW(g, c) && fy < FmH(g, c)
    requires |d0| == g.OutputSize() && |d| == g.OutputSize() && i < c.kW && j < c.kH && z < c.kD
    requires Windowed(g, c, d0, d, fm, fx, fy, fx + i, fy + j, z)
    ensures fx + i < g.OutW() && fy + j < g.OutH()
    ensures Windowed(g, c, d0,
      Set3(d, g.OutW(), g.OutH(), g.depth, fx + i, fy + j, z,
        OutCell(g, d, fx + i, fy + j, z) +
        At3(c.kernels[fm], c.kW, c.kH, c.kD, i, j, z) * At3(c.delta, FmW(g, c), FmH(g, c), |c.kernels|, fx, fy, fm)),
      fm, fx, fy, fx + i + 1, fy + j, z)
  {
    var v := OutCell(g, d, fx + i, fy + j, z) +
      At3(c.kernels[fm], c.kW, c.kH, c.kD, i, j, z) * At3(c.delta, FmW(g, c), FmH(g, c), |c.kernels|, fx, fy, fm);
    var d' := Set3(d, g.OutW(), g.OutH(), g.depth, fx + i, fy + j, z, v);
    forall X: nat, Y: nat, Z: nat | X < g.OutW() && Y < g.OutH() && Z < g.depth
      ensures OutCell(g, d', X, Y, Z) ==
        OutCell(g, d0, X, Y, Z) + (if Added(X, Y, Z, fx + i + 1, fy + j, z) then Contribution(g, c, fm, fx, fy, X, Y, Z) else 0.0)
    {
      assert OutCell(g, d', X, Y, Z) == if X == fx + i && Y == fy + j && Z == z then v else OutCell(g, d, X, Y, Z);
    }
  }

  lemma WindowRowWrap(g: Geometry, c: ConvView, d0: seq<real>, d: seq<real>, fm: nat, fx: nat, fy: nat, j: nat, z: nat)
    requires Ready(g, c) && fm < |c.kernels| && fx < FmW(g, c) && fy < FmH(g, c)
    requires |d0| == g.OutputSize() && |d| == g.OutputSize()
    requires Windowed(g, c, d0, d, fm, fx, fy, fx + c.kW, fy + j, z)
    ensures Windowed(g, c, d0, d, fm, fx, fy, fx, fy + j + 1, z)
  {
  }

  lemma WindowSliceWrap(g: Geometry, c: ConvView, d0: seq<real>, d: seq<real>, fm: nat, fx: nat, fy: nat, z: nat)
    requires Ready(g, c) && fm < |c.kernels| && fx < FmW(g, c) && fy < FmH(g, c)
    requires |d0| == g.OutputSize() && |d| == g.OutputSize()
    requires Windowed(g, c, d0, d, fm, fx, fy, fx, fy + c.kH, z)
    ensures Windowed(g, c, d0, d, fm, fx, fy, fx, fy, z + 1)
  {
  }

  /** The `i` loop: row `j` of slice `z` of the kernel placed at (`fx`, `fy`). */
  method AddWindowRow(g: Geometry, c: ConvView, d0: seq<real>, d: seq<real>, fm: nat, fx: nat, fy: nat, j: nat, z: nat)
    returns (d': seq<real>)
    requires Ready(g, c) && fm < |c.kernels| && fx < FmW(g, c) && fy < FmH(g, c) && j < c.kH && z < c.kD
    requires |d0| == g.OutputSize() && |d| == g.OutputSize()
    requires Windowed(g, c, d0, d, fm, fx, fy, fx, fy + j, z)
    ensures |d'| == |d| && Windowed(g, c, d0, d', fm, fx, fy, fx, fy + j + 1, z)
  {
    d' := d;
    var i := 0;
    while i < c.kW
      invariant i <= c.kW && |d'| == |d|
      invariant Windowed(g, c, d0, d', fm, fx, fy, fx + i, fy + j, z)
    {
      WindowNext(g, c, d0, d', fm, fx, fy, i, j, z);
      var x, y := fx + i, fy + j;
      var v := At3(c.kernels[fm], c.kW, c.kH, c.kD, i, j, z) * At3(c.delta, FmW(g, c), FmH(g, c), |c.kernels|, fx, fy, fm);
      d' := Set3(d', g.OutW(), g.OutH(), g.depth, x, y, z, OutCell(g, d', x, y, z) + v);
      i := i + 1;
    }
    WindowRowWrap(g, c, d0, d', fm, fx, fy, j, z);
  }

  /**
   * The `z`, `j` and `i` loops: adds the contribution of feature-map cell
   * (`fx`, `fy`) of filter `fm` to every delta cell.
   */
  method AddWindow(g: Geometry, c: ConvView, d: seq<real>, fm: nat, fx: nat, fy: nat) returns (d': seq<real>)
    requires Ready(g, c) && fm < |c.kernels| && fx < FmW(g, c) && fy < FmH(g, c) && |d| == g.OutputSize()
    ensures |d'| == |d|
    ensures forall X: nat, Y: nat, Z: nat | X < g.OutW() && Y < g.OutH() && Z < g.depth ::
      OutCell(g, d', X, Y, Z) == OutCell(g, d, X, Y, Z) + Contribution(g, c, fm, fx, fy, X, Y, Z)
  {
    d' := d;
    var z := 0;
    while z < c.kD
      invariant z <= c.kD && |d'| == |d|
      invariant Windowed(g, c, d, d', fm, fx, fy, fx, fy, z)
    {
      var j := 0;
      while j < c.kH
        invariant j <= c.kH && |d'| == |d|
        invariant Windowed(g, c, d, d', fm, fx, fy, fx, fy + j, z)
      {
        d' := AddWindowRow(g, c, d, d', fm, fx, fy, j, z);
        j := j + 1;
      }
      WindowSliceWrap(g, c, d, d', fm, fx, fy, z);
      z := z + 1;
    }
  }

  /** The loop invariants over filters, feature-map rows and feature-map columns. */
  ghost predicate AccFm(g: Geometry, c: ConvView, d0: seq<real>, d: seq<real>, fm: nat)
    requires Ready(g, c) && fm <= |c.kernels| && |d0| == g.OutputSize() && |d| == g.OutputSize()
  {
    forall X: nat, Y: nat, Z: nat | X < g.OutW() && Y < g.OutH() && Z < g.depth ::
      OutCell(g, d, X, Y, Z) == OutCell(g, d0, X, Y, Z) + SumFm(g, c, fm, X, Y, Z)
  }

  ghost predicate AccFy(g: Geometry, c: ConvView, d0: seq<real>, d: seq<real>, fm: nat, fy: nat)
    requires Ready(g, c) && fm < |c.kernels| && fy <= FmH(g, c) && |d0| == g.OutputSize() && |d| == g.OutputSize()
  {
    forall X: nat, Y: nat, Z: nat | X < g.OutW() && Y < g.OutH() && Z < g.depth ::
      OutCell(g, d, X, Y, Z) == OutCell(g, d0, X, Y, Z) + SumFm(g, c, fm, X, Y, Z) + SumFy(g, c, fm, fy, X, Y, Z)
  }

  ghost predicate AccFx(g: Geometry, c: ConvView, d0: seq<real>, d: seq<real>, fm: nat, fy: nat, fx: nat)
    requires Ready(g, c) && fm < |c.kernels| && fy < FmH(g, c) && fx <= FmW(g, c)
    requires |d0| == g.OutputSize() && |d| == g.OutputSize()
  {
    forall X: nat, Y: nat, Z: nat | X < g.OutW() && Y < g.OutH() && Z < g.depth ::
      OutCell(g, d, X, Y, Z) ==
        OutCell(g, d0, X, Y, Z) + SumFm(g, c, fm, X, Y, Z) + SumFy(g, c, fm, fy, X, Y, Z) + SumFx(g, c, fm, fy, fx, X, Y, Z)
  }

  lemma AccFxNext(g: Geometry, c: ConvView, d0: seq<real>, d: seq<real>, d': seq<real>, fm: nat, fy: nat, fx: nat)
    requires Ready(g, c) && fm < |c.kernels| && fy < FmH(g, c) && fx < FmW(g, c)
    requires |d0| == g.OutputSize() && |d| == g.OutputSize() && |d'| == g.OutputSize()
    requires AccFx(g, c, d0, d, fm, fy, fx)
    requires forall X: nat, Y: nat, Z: nat | X < g.OutW() && Y < g.OutH() && Z < g.depth ::
      OutCell(g, d', X, Y, Z) == OutCell(g, d, X, Y, Z) + Contribution(g, c, fm, fx, fy, X, Y, Z)
    ensures AccFx(g, c, d0, d', fm, fy, fx + 1)
  {
  }

  lemma AccFyNext(g: Geometry, c: ConvView, d0: seq<real>, d: seq<real>, fm: nat, fy: nat)
    requires Ready(g, c) && fm < |c.kernels| && fy < FmH(g, c) && |d0| == g.OutputSize() && |d| == g.OutputSize()
    requires AccFx(g, c, d0, d, fm, fy, FmW(g, c))
    ensures AccFy(g, c, d0, d, fm, fy + 1)
  {
  }

  lemma AccFmNext(g: Geometry, c: ConvView, d0: seq<real>, d: seq<real>, fm: nat)
    requires Ready(g, c) && fm < |c.kernels| && |d0| == g.OutputSize() && |d| == g.OutputSize()
    requires AccFy(g, c, d0, d, fm, FmH(g, c))
    ensures AccFm(g, c, d0, d, fm + 1)
  {
  }

  /** The `fmX` loop over feature-map row `fy` of filter `fm`. */
  method AddFeatureMapRow(g: Geometry, c: ConvView, d0: seq<real>, d: seq<real>, fm: nat, fy: nat) returns (d': seq<real>)
    requires Ready(g, c) && fm < |c.kernels| && fy < FmH(g, c) && |d0| == g.OutputSize() && |d| == g.OutputSize()
    requires AccFy(g, c, d0, d, fm, fy)
    ensures |d'| == |d| && AccFy(g, c, d0, d', fm, fy + 1)
  {
    d' := d;
    var fx := 0;
    while fx < FmW(g, c)
      invariant fx <= FmW(g, c) && |d'| == |d|
      invariant AccFx(g, c, d0, d', fm, fy, fx)
    {
      var next := AddWindow(g, c, d', fm, fx, fy);
      AccFxNext(g, c, d0, d', next, fm, fy, fx);
      d' := next;
      fx := fx + 1;
    }
    AccFyNext(g, c, d0, d', fm, fy);
  }

  /** The `fmY` loop over the feature map of filter `fm`. */
  method AddFeatureMap(g: Geometry, c: ConvView, d0: seq<real>, d: seq<real>, fm: nat) returns (d': seq<real>)
    requires Ready(g, c) && fm < |c.kernels| && |d0| == g.OutputSize() && |d| == g.OutputSize()
    requires AccFm(g, c, d0, d, fm)
    ensures |d'| == |d| && AccFm(g, c, d0, d', fm + 1)
  {
    d' := d;
    var fy := 0;
    while fy < FmH(g, c)
      invariant fy <= FmH(g, c) && |d'| == |d|
      invariant AccFy(g, c, d0, d', fm, fy)
    {
      d' := AddFeatureMapRow(g, c, d0, d', fm, fy);
      fy := fy + 1;
    }
    AccFmNext(g, c, d0, d', fm);
  }

  /**
   * `backpropFromConvLayer`: fails unless there is at least one filter and
   * the kernels are as deep as the input; otherwise adds to every cell of
   * `delta`, on top of what it holds, the full convolution of the next
   * layer's delta with its kernels.
   */
  method BackpropFromConvLayer(g: Geometry, c: ConvView, delta: seq<real>) returns (r: Result<seq<real>>)
    requires Shaped(g, c) && |delta| == g.OutputSize()
    ensures r.Err? <==> |c.kernels| == 0 || c.kD != g.depth
    ensures |c.kernels| == 0 ==> r == Err("Assertion failed: convLayerDepth > 0")
    ensures |c.kernels| > 0 && c.kD != g.depth ==> r == Err("Assertion failed: kD == m_inputDepth")
    ensures r.Ok? ==> Ready(g, c) && |r.value| == |delta|
    ensures r.Ok? ==> forall X: nat, Y: nat, Z: nat | X < g.OutW() && Y < g.OutH() && Z < g.depth ::
      OutCell(g, r.value, X, Y, Z) == OutCell(g, delta, X, Y, Z) + SumFm(g, c, |c.kernels|, X, Y, Z)
  {
    if |c.kernels| == 0 {
      return Err("Assertion failed: convLayerDepth > 0");
    }
    if c.kD != g.depth {
      return Err("Assertion failed: kD == m_inputDepth");
    }
    var d := delta;
    var fm := 0;
    while fm < |c.kernels|
      invariant fm <= |c.kernels| && |d| == |delta|
      invariant AccFm(g, c, delta, d, fm)
    {
      d := AddFeatureMap(g, c, delta, d, fm);
      fm := fm + 1;
    }
    return Ok(d);
  }

  /** A zero delta in the next layer leaves the pooling layer's delta as it was. */
  lemma ZeroConvDeltaAddsNothing(g: Geometry, c: ConvView, X: nat, Y: nat, Z: nat)
    requires Ready(g, c) && Z < g.depth
    requires forall k | 0 <= k < |c.delta| :: c.delta[k] == 0.0
    ensures SumFm(g, c, |c.kernels|, X, Y, Z) == 0.0
  {
    SumFmZero(g, c, |c.kernels|, X, Y, Z);
  }

  /*
   * updateDelta: the dispatch on the next layer's type.
   */

  /**
   * What the pooling layer reads of the layer after it: its type, for a
   * dense or output layer the product `W^T * delta` of its transposed
   * weights with its delta, and for a convolutional layer its filters and delta.
   */
  datatype NextLayer = NextLayer(kind: Layers.LayerType, weightedDelta: seq<real>, conv: ConvView)

  /** The message `updateDelta` throws for a next layer it cannot read. */
  function UnexpectedType(t: Layers.LayerType): (r: string)
    ensures |r| > |"Expected layer of type DENSE or CONVOLUTIONAL, got "|
    ensures r[..|"Expected layer of type DENSE or CONVOLUTIONAL, got "|] == "Expected layer of type DENSE or CONVOLUTIONAL, got "
    ensures r[|"Expected layer of type DENSE or CONVOLUTIONAL, got "|..] == Layers.TypeName(t)
  {
    "Expected layer of type DENSE or CONVOLUTIONAL, got " + Layers.TypeName(t)
  }

  /**
   * The older max-pooling layer. `Z` holds the activations, `delta` the
   * delta at the layer's output, `paddedDelta` that delta routed back to
   * the input, `mask` the one-hot positions of the last `trainForward`.
   */
  class MaxPoolingLayer {
    const inputW: nat
    const inputH: nat
    const inputDepth: nat
    const regionW: nat
    const regionH: nat
    var Z: seq<real>
    var delta: seq<real>
    var paddedDelta: seq<real>
    var mask: seq<real>

    function Shape(): Geometry {
      Geometry(inputW, inputH, inputDepth, regionW, regionH)
    }

    /** The regions tile the input and every buffer has the size of the extent it covers. */
    ghost predicate Valid()
      reads this
    {
      Shape().Valid() &&
      |Z| == Shape().OutputSize() && |delta| == Shape().OutputSize() &&
      |paddedDelta| == Shape().InputSize() && |mask| == Shape().InputSize()
    }

    constructor (g: Geometry)
      requires g.Valid()
      ensures Shape() == g && Valid()
      ensures Z == seq(g.OutputSize(), _ => 0.0) && delta == seq(g.OutputSize(), _ => 0.0)
      ensures paddedDelta == seq(g.InputSize(), _ => 0.0) && mask == seq(g.InputSize(), _ => 0.0)
    {
      inputW, inputH, inputDepth, regionW, regionH := g.inputW, g.inputH, g.depth, g.regionW, g.regionH;
      Z, delta := seq(g.OutputSize(), _ => 0.0), seq(g.OutputSize(), _ => 0.0);
      paddedDelta, mask := seq(g.InputSize(), _ => 0.0), seq(g.InputSize(), _ => 0.0);
    }

    /**
     * Construction from the region size read from the configuration: fails,
     * width first, unless the region divides the input.
     */
    static method Create(inputW: nat, inputH: nat, inputDepth: nat, regionW: nat, regionH: nat)
      returns (r: Result<MaxPoolingLayer>)
      requires regionW > 0 && regionH > 0
      ensures r.Ok? <==> inputW % regionW == 0 && inputH % regionH == 0
      ensures inputW % regionW != 0 ==>
        r == Err(RegionWidthError(regionW, inputW))
      ensures inputW % regionW == 0 && inputH % regionH != 0 ==>
        r == Err(RegionHeightError(regionH, inputH))
      ensures r.Ok? ==> fresh(r.value) && r.value.Valid()
      ensures r.Ok? ==> r.value.Shape() == Geometry(inputW, inputH, inputDepth, regionW, regionH)
    {
      if inputW % regionW != 0 {
        return Err(RegionWidthError(regionW, inputW));
      }
      if inputH % regionH != 0 {
        return Err(RegionHeightError(regionH, inputH));
      }
      var layer := new MaxPoolingLayer(Geometry(inputW, inputH, inputDepth, regionW, regionH));
      return Ok(layer);
    }

    /** `outputSize`: one cell per region. */
    function OutputSize(): (r: Size3)
      reads this
      requires Valid()
      ensures r[0] * regionW == inputW && r[1] * regionH == inputH && r[2] == inputDepth
      ensures CalcProduct(r) == Shape().OutputSize()
    {
      DivExact(inputW, regionW);
      DivExact(inputH, regionH);
      [inputW / regionW, inputH / regionH, inputDepth]
    }

    /** `trainForward`: pools from `DblMin`, recording the activations and the mask. */
    method TrainForward(inputs: seq<real>)
      requires Valid() && |inputs| == Shape().InputSize()
      modifies this
      ensures Valid() && delta == old(delta) && paddedDelta == old(paddedDelta)
      ensures forall x: nat, y: nat, z: nat | x < Shape().OutW() && y < Shape().OutH() && z < inputDepth ::
        OutCell(Shape(), Z, x, y, z) == RegionBest(Shape(), inputs, x, y, z, Limits.DblMin).largest
      ensures forall X: nat, Y: nat, Z: nat | X < inputW && Y < inputH && Z < inputDepth ::
        Cell(Shape(), mask, X, Y, Z) == MaskCell(Shape(), inputs, Limits.DblMin, X, Y, Z)
    {
      mask, Z := PoolForward(Shape(), inputs, mask, Z, Limits.DblMin);
    }

    /** `evalForward`: the same pooled values as `trainForward`, into a new buffer. */
    method EvalForward(inputs: seq<real>) returns (r: seq<real>)
      requires Valid() && |inputs| == Shape().InputSize()
      ensures |r| == Shape().OutputSize()
      ensures forall x: nat, y: nat, z: nat | x < Shape().OutW() && y < Shape().OutH() && z < inputDepth ::
        OutCell(Shape(), r, x, y, z) == RegionBest(Shape(), inputs, x, y, z, Limits.DblMin).largest
    {
      r := EvalPool(Shape(), inputs, Limits.DblMin);
    }

    /**
     * `updateDelta`: computes `delta` from the next layer (replacing it for a
     * dense or output layer, adding to it for a convolutional one), then
     * pads it through the mask. Any other layer type, or a convolutional
     * layer without filters or of the wrong depth, is an error.
     */
    method UpdateDelta(next: NextLayer) returns (r: Result<()>)
      requires Valid()
      requires next.kind in {Layers.Dense, Layers.Output} ==> |next.weightedDelta| == Shape().OutputSize()
      requires next.kind == Layers.Convolutional ==> Shaped(Shape(), next.conv)
      modifies this
      ensures Valid() && Z == old(Z) && mask == old(mask)
      ensures next.kind == Layers.MaxPooling ==>
        r == Err(UnexpectedType(next.kind)) && delta == old(delta) && paddedDelta == old(paddedDelta)
      ensures next.kind == Layers.Convolutional && |next.conv.kernels| == 0 ==>
        r == Err("Assertion failed: convLayerDepth > 0") && delta == old(delta) && paddedDelta == old(paddedDelta)
      ensures next.kind == Layers.Convolutional && |next.conv.kernels| > 0 && next.conv.kD != inputDepth ==>
        r == Err("Assertion failed: kD == m_inputDepth") && delta == old(delta) && paddedDelta == old(paddedDelta)
      ensures next.kind in {Layers.Dense, Layers.Output} ==> r.Ok? && delta == next.weightedDelta
      ensures next.kind == Layers.Convolutional && Ready(Shape(), next.conv) ==> r.Ok?
      ensures next.kind == Layers.Convolutional && Ready(Shape(), next.conv) ==>
        forall x: nat, y: nat, z: nat | x < Shape().OutW() && y < Shape().OutH() && z < inputDepth ::
          OutCell(Shape(), delta, x, y, z) == OutCell(Shape(), old(delta), x, y, z) + SumFm(Shape(), next.conv, |next.conv.kernels|, x, y, z)
      ensures r.Ok? ==> forall X: nat, Y: nat, Z: nat | X < inputW && Y < inputH && Z < inputDepth ::
        Cell(Shape(), paddedDelta, X, Y, Z) == PadCell(Shape(), mask, delta, X, Y, Z)
    {
      match next.kind {
        case Dense =>
          delta := next.weightedDelta;
        case Output =>
          delta := next.weightedDelta;
        case Convolutional =>
          var d := BackpropFromConvLayer(Shape(), next.conv, delta);
          if d.Err? {
            return Err(d.message);
          }
          delta := d.value;
        case MaxPooling =>
          return Err(UnexpectedType(next.kind));
      }
      paddedDelta := PadDelta(Shape(), delta, mask, paddedDelta);
      return Ok(());
    }
  }
}
