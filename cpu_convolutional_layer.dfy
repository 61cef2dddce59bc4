/**
 * The CPU convolutional layer (richard/src/cpu/convolutional_layer.cpp):
 * `depth` filters, each a `kernelW` by `kernelH` by `inputDepth` kernel with
 * a bias, and one gradient filter of the same shape per filter.
 *
 * Three-dimensional arrays are flat, slice after slice, each slice row by
 * row. The two-dimensional convolution routines of the math library are not
 * part of this model: `updateDeltas` takes them, and the derivative of the
 * rectifier, as parameters.
 */
module CpuConvolution {
  import opened Wrappers
  import opened Utils
  import opened Math
  import Cfg = Config
  import Layers
  import Dense = DenseLayers

  /** A kernel and its bias. */
  datatype Filter = Filter(K: seq<real>, b: real)

  /** A two-dimensional convolution routine: a slice and a delta map to a result slice. */
  type Conv = (seq<real>, seq<real>) -> seq<real>

  /** The layer's extents. */
  datatype Geometry = Geometry(inputW: nat, inputH: nat, inputDepth: nat, kernelW: nat, kernelH: nat, depth: nat)
  {
    /** The kernel fits inside the input and there is at least one filter. */
    predicate Valid() {
      kernelW <= inputW && kernelH <= inputH && depth > 0
    }

    function InputArea(): nat { inputW * inputH }
    function InputSize(): nat { inputW * inputH * inputDepth }
    function KernelArea(): nat { kernelW * kernelH }
    function KernelSize(): nat { kernelW * kernelH * inputDepth }

    /** `outputSize`: one feature map per filter, as wide as the kernel can slide. */
    function OutputSize(): (r: Size3)
      requires Valid()
      ensures r[0] + kernelW == inputW + 1 && r[1] + kernelH == inputH + 1 && r[2] == depth
    {
      [inputW - kernelW + 1, inputH - kernelH + 1, depth]
    }

    function MapArea(): nat
      requires Valid()
    {
      OutputSize()[0] * OutputSize()[1]
    }

    /** `numOutputs`: the number of cells of the output. */
    function NumOutputs(): (n: nat)
      requires Valid()
      ensures n == CalcProduct(OutputSize()) && n == MapArea() * depth
    {
      MapArea() * depth
    }
  }

  /** Every filter has a kernel of the geometry's size. */
  predicate Fits(g: Geometry, fs: seq<Filter>) {
    |fs| == g.depth && forall i | 0 <= i < |fs| :: |fs[i].K| == g.KernelSize()
  }

  /** The zero filter: what `updateParams` leaves in every gradient. */
  function ZeroFilters(g: Geometry): (fs: seq<Filter>)
    ensures Fits(g, fs)
  {
    seq(g.depth, _ => Filter(Dense.Zeros(g.KernelSize()), 0.0))
  }

  /*
   * The parameter stream.
   */

  /** What `writeToStream` emits: for each filter, its bias and then its kernel. */
  function FilterStream(fs: seq<Filter>): seq<real> {
    if |fs| == 0 then [] else [fs[0].b] + fs[0].K + FilterStream(fs[1..])
  }

  /** Emitting one more filter appends its bias and kernel. */
  lemma {:induction false} FilterStreamSnoc(fs: seq<Filter>, f: Filter)
    ensures FilterStream(fs + [f]) == FilterStream(fs) + [f.b] + f.K
  {
    if |fs| > 0 {
      assert (fs + [f])[1..] == fs[1..] + [f];
      FilterStreamSnoc(fs[1..], f);
    }
  }

  /**
   * What the stream constructor reads into the initialised filters `fs`:
   * per filter a bias, then as many kernel values as the kernel holds.
   */
  function ReadFilters(fs: seq<Filter>, s: seq<real>): (r: (seq<Filter>, seq<real>))
    ensures |r.0| == |fs| && forall i | 0 <= i < |fs| :: |r.0[i].K| == |fs[i].K|
  {
    if |fs| == 0 then ([], s)
    else
      var (f, s2) := ReadFilter(fs[0], s);
      var (rest, s3) := ReadFilters(fs[1..], s2);
      ([f] + rest, s3)
  }

  /** One filter's read: its bias, then as many kernel values as its kernel holds. */
  function ReadFilter(f: Filter, s: seq<real>): (r: (Filter, seq<real>))
    ensures |r.0.K| == |f.K|
  {
    var (b, s1) := Layers.ReadValues([f.b], s);
    var (K, s2) := Layers.ReadValues(f.K, s1);
    (Filter(K, b[0]), s2)
  }

  /** Reading back what `writeToStream` wrote restores every filter and leaves the rest of the stream. */
  lemma {:induction false} FilterStreamRoundTrip(buf: seq<Filter>, fs: seq<Filter>, rest: seq<real>)
    requires |buf| == |fs| && forall i | 0 <= i < |fs| :: |buf[i].K| == |fs[i].K|
    ensures ReadFilters(buf, FilterStream(fs) + rest) == (fs, rest)
  {
    if |fs| > 0 {
      var tail := FilterStream(fs[1..]) + rest;
      assert FilterStream(fs) + rest == [fs[0].b] + (fs[0].K + tail);
      Layers.ReadWritten([buf[0].b], [fs[0].b], fs[0].K + tail);
      Layers.ReadWritten(buf[0].K, fs[0].K, tail);
      FilterStreamRoundTrip(buf[1..], fs[1..], rest);
      assert ReadFilters(buf, FilterStream(fs) + rest) ==
        ([Filter(fs[0].K, [fs[0].b][0])] + ReadFilters(buf[1..], tail).0, ReadFilters(buf[1..], tail).1);
      assert [fs[0]] + fs[1..] == fs;
    } else {
      assert FilterStream(fs) + rest == rest;
    }
  }

  /** `writeToStream`'s loop: each filter's bias, then its kernel. */
  method WriteFilters(stream: seq<real>, fs: seq<Filter>) returns (out: seq<real>)
    ensures out == stream + FilterStream(fs)
  {
    out := stream;
    for i := 0 to |fs|
      invariant out == stream + FilterStream(fs[..i])
    {
      assert fs[..i + 1] == fs[..i] + [fs[i]];
      FilterStreamSnoc(fs[..i], fs[i]);
      out := out + [fs[i].b] + fs[i].K;
    }
    assert fs[..|fs|] == fs;
  }

  /** The stream constructor's loop: each filter in turn reads its bias, then its kernel. */
  method ReadFiltersFrom(fs: seq<Filter>, stream: seq<real>) returns (out: seq<Filter>, rest: seq<real>)
    ensures (out, rest) == ReadFilters(fs, stream)
  {
    ghost var goal := ReadFilters(fs, stream);
    out, rest := fs, stream;
    for i := 0 to |fs|
      invariant ReadInvariant(fs, i, out, rest, goal)
    {
      var (b, s1) := Layers.ReadValues([out[i].b], rest);
      var (K, s2) := Layers.ReadValues(out[i].K, s1);
      ReadAdvance(fs, i, out, rest, goal);
      out, rest := out[i := Filter(K, b[0])], s2;
    }
    ReadDone(fs, out, rest, goal);
  }

  /** After `i` filters: those are read, the others untouched, and reading the rest yields the goal. */
  ghost predicate ReadInvariant(fs: seq<Filter>, i: nat, out: seq<Filter>, rest: seq<real>, goal: (seq<Filter>, seq<real>)) {
    i <= |fs| && |out| == |fs| && out[i..] == fs[i..] &&
    out[..i] + ReadFilters(fs[i..], rest).0 == goal.0 && ReadFilters(fs[i..], rest).1 == goal.1
  }

  /** Reading filter `i` keeps `ReadInvariant`. */
  lemma ReadAdvance(fs: seq<Filter>, i: nat, out: seq<Filter>, rest: seq<real>, goal: (seq<Filter>, seq<real>))
    requires ReadInvariant(fs, i, out, rest, goal) && i < |fs|
    ensures var r := ReadFilter(out[i], rest); ReadInvariant(fs, i + 1, out[i := r.0], r.1, goal)
  {
    assert out[i] == fs[i] by { assert out[i..][0] == fs[i..][0]; }
    var r := ReadFilter(fs[i], rest);
    UpdateKeepsSuffix(fs, out, i, r.0);
    ReadNextFilter(fs, i, rest);
    ReadPrefixGrows(out, i, r.0, ReadFilters(fs[i + 1..], r.1).0, goal.0);
  }

  /** Overwriting element `i` of a sequence that agrees with `fs` from `i` on keeps the agreement after `i`. */
  lemma UpdateKeepsSuffix<T>(fs: seq<T>, out: seq<T>, i: nat, x: T)
    requires i < |fs| == |out| && out[i..] == fs[i..]
    ensures out[i := x][i + 1..] == fs[i + 1..]
  {
    assert out[i + 1..] == out[i..][1..];
    assert fs[i + 1..] == fs[i..][1..];
  }

  /** Reading the filters from `i` on reads filter `i`, then the filters after it. */
  lemma ReadNextFilter(fs: seq<Filter>, i: nat, rest: seq<real>)
    requires i < |fs|
    ensures var r := ReadFilter(fs[i], rest); var tail := ReadFilters(fs[i + 1..], r.1);
      ReadFilters(fs[i..], rest) == ([r.0] + tail.0, tail.1)
  {
    assert fs[i..][0] == fs[i] && fs[i..][1..] == fs[i + 1..];
  }

  /** Moving the element read at `i` from the pending part to the prefix keeps the whole. */
  lemma ReadPrefixGrows<T>(out: seq<T>, i: nat, x: T, tail: seq<T>, whole: seq<T>)
    requires i < |out| && out[..i] + ([x] + tail) == whole
    ensures out[i := x][..i + 1] + tail == whole
  {
    assert out[i := x][..i + 1] == out[..i] + [x];
  }

  /** With every filter read, `ReadInvariant` is the result. */
  lemma ReadDone(fs: seq<Filter>, out: seq<Filter>, rest: seq<real>, goal: (seq<Filter>, seq<real>))
    requires ReadInvariant(fs, |fs|, out, rest, goal)
    ensures (out, rest) == goal
  {
    assert out[..|fs|] == out && fs[|fs|..] == [];
    assert ReadFilters(fs[|fs|..], rest) == ([], rest);
    assert out + [] == out;
  }

  /*
   * Backpropagation.
   */

  /** Slice `i` of a stack of slices of `len` values each. */
  function Slice(X: seq<real>, len: nat, n: nat, i: nat): (r: seq<real>)
    requires |X| == len * n && i < n
    ensures |r| == len
  {
    RowEndInRange(i, len, n);
    X[i * len .. i * len + len]
  }

  /**
   * A routine applied slice by slice: slice `z` of the result is `conv` of
   * slice `z` of `X` with `d`, as the loop over `z` in `updateDeltas` does.
   */
  function PerSlice(X: seq<real>, len: nat, n: nat, d: seq<real>, conv: Conv, outLen: nat): (r: seq<real>)
    requires |X| == len * n
    requires forall a, b :: |conv(a, b)| == outLen
    ensures |r| == outLen * n
    decreases n
  {
    if n == 0 then []
    else
      RowEndInRange(n - 1, len, n);
      PerSlice(X[..(n - 1) * len], len, n - 1, d, conv, outLen) + conv(X[(n - 1) * len..], d)
  }

  /** Cell `c` of result slice `z` is cell `c` of `conv` applied to slice `z`. */
  lemma {:induction false} PerSliceAt(X: seq<real>, len: nat, n: nat, d: seq<real>, conv: Conv, outLen: nat, z: nat, c: nat)
    requires |X| == len * n
    requires forall a, b :: |conv(a, b)| == outLen
    requires z < n && c < outLen
    ensures MatrixIndex(c, z, outLen) < outLen * n
    ensures PerSlice(X, len, n, d, conv, outLen)[MatrixIndex(c, z, outLen)] == conv(Slice(X, len, n, z), d)[c]
    decreases n
  {
    MatrixIndexInRange(c, z, outLen, n);
    RowEndInRange(n - 1, len, n);
    var X' := X[..(n - 1) * len];
    if z < n - 1 {
      MatrixIndexInRange(c, z, outLen, n - 1);
      PerSliceAt(X', len, n - 1, d, conv, outLen, z, c);
      SliceOfPrefix(X, len, n, z);
    } else {
      LastSlice(X, len, n, outLen, c);
    }
  }

  /** A slice before the last is the same slice of the stack without its last slice. */
  lemma SliceOfPrefix(X: seq<real>, len: nat, n: nat, z: nat)
    requires |X| == len * n && z < n - 1
    ensures (n - 1) * len <= |X| && |X[..(n - 1) * len]| == len * (n - 1)
    ensures Slice(X[..(n - 1) * len], len, n - 1, z) == Slice(X, len, n, z)
  {
    RowEndInRange(n - 1, len, n);
    RowEndInRange(z, len, n - 1);
  }

  /** The last slice is everything from its start on, and its cells follow the cells of the others. */
  lemma LastSlice(X: seq<real>, len: nat, n: nat, outLen: nat, c: nat)
    requires |X| == len * n && n > 0
    ensures (n - 1) * len <= |X| && Slice(X, len, n, n - 1) == X[(n - 1) * len..]
    ensures MatrixIndex(c, n - 1, outLen) == outLen * (n - 1) + c
  {
    assert (n - 1) * len + len == len * n;
  }

  /** The sum of a delta slice: what `db` gains. */
  function Sum(d: seq<real>): real {
    if |d| == 0 then 0.0 else Sum(d[..|d| - 1]) + d[|d| - 1]
  }

  /** The part of the input delta that filter `f` passes back through its feature map's delta `d`. */
  function FilterInputDelta(g: Geometry, f: Filter, d: seq<real>, fullConv: Conv): (r: seq<real>)
    requires |f.K| == g.KernelSize()
    requires forall a, b :: |fullConv(a, b)| == g.InputArea()
    ensures |r| == g.InputSize()
  {
    PerSlice(f.K, g.KernelArea(), g.inputDepth, d, fullConv, g.InputArea())
  }

  /** The input delta after the first `n` filters: the sum of their parts, starting from zero. */
  function InputDeltaSum(g: Geometry, fs: seq<Filter>, delta: seq<real>, fullConv: Conv, n: nat): (r: seq<real>)
    requires g.Valid() && Fits(g, fs) && |delta| == g.NumOutputs() && n <= g.depth
    requires forall a, b :: |fullConv(a, b)| == g.InputArea()
    ensures |r| == g.InputSize()
  {
    if n == 0 then Dense.Zeros(g.InputSize())
    else
      Dense.AddVector(InputDeltaSum(g, fs, delta, fullConv, n - 1),
                      FilterInputDelta(g, fs[n - 1], Slice(delta, g.MapArea(), g.depth, n - 1), fullConv))
  }

  /** Gradient filter `pd` after one sample: its kernel gains the inputs correlated with `d`, its bias the sum of `d`. */
  function GradientStep(g: Geometry, pd: Filter, inputs: seq<real>, d: seq<real>, crossCorr: Conv): (r: Filter)
    requires |pd.K| == g.KernelSize() && |inputs| == g.InputSize()
    requires forall a, b :: |crossCorr(a, b)| == g.KernelArea()
    ensures |r.K| == g.KernelSize()
  {
    Filter(Dense.AddVector(pd.K, PerSlice(inputs, g.InputArea(), g.inputDepth, d, crossCorr, g.KernelArea())), pd.b + Sum(d))
  }

  /**
   * `updateDeltas`' loop over the filters: the input delta starts from zero
   * and sums every filter's part, while each gradient filter accumulates on
   * top of what it held.
   */
  method Backprop(g: Geometry, fs: seq<Filter>, deltas: seq<Filter>, inputs: seq<real>, delta: seq<real>,
                  fullConv: Conv, crossCorr: Conv)
    returns (inputDelta: seq<real>, deltas': seq<Filter>)
    requires g.Valid() && Fits(g, fs) && Fits(g, deltas)
    requires |inputs| == g.InputSize() && |delta| == g.NumOutputs()
    requires forall a, b :: |fullConv(a, b)| == g.InputArea()
    requires forall a, b :: |crossCorr(a, b)| == g.KernelArea()
    ensures inputDelta == InputDeltaSum(g, fs, delta, fullConv, g.depth)
    ensures |deltas'| == g.depth && forall i | 0 <= i < g.depth ::
      deltas'[i] == GradientStep(g, deltas[i], inputs, Slice(delta, g.MapArea(), g.depth, i), crossCorr)
  {
    inputDelta := Dense.Zeros(g.InputSize());
    deltas' := deltas;
    for slice := 0 to g.depth
      invariant inputDelta == InputDeltaSum(g, fs, delta, fullConv, slice)
      invariant Fits(g, deltas') && deltas'[slice..] == deltas[slice..]
      invariant forall i | 0 <= i < slice ::
        deltas'[i] == GradientStep(g, deltas[i], inputs, Slice(delta, g.MapArea(), g.depth, i), crossCorr)
    {
      var d := Slice(delta, g.MapArea(), g.depth, slice);
      inputDelta := Dense.AddVector(inputDelta, FilterInputDelta(g, fs[slice], d, fullConv));
      assert deltas'[slice] == deltas[slice];
      deltas' := deltas'[slice := GradientStep(g, deltas'[slice], inputs, d, crossCorr)];
    }
  }

  class ConvolutionalLayer {
    const geometry: Geometry
    const learnRate: real
    const learnRateDecay: real
    const dropoutRate: real
    var filters: seq<Filter>
    var paramDeltas: seq<Filter>
    var Z: seq<real>
    var A: seq<real>
    var inputDelta: seq<real>

    /** `initialize`'s shapes. */
    ghost predicate Valid()
      reads this
    {
      geometry.Valid() && Fits(geometry, filters) && Fits(geometry, paramDeltas) &&
      |Z| == geometry.NumOutputs() && |A| == geometry.NumOutputs() && |inputDelta| == geometry.InputSize()
    }

    constructor (g: Geometry, learnRate: real, learnRateDecay: real, dropoutRate: real, fs: seq<Filter>)
      requires g.Valid() && Fits(g, fs)
      ensures Valid() && geometry == g && filters == fs && paramDeltas == ZeroFilters(g)
      ensures this.learnRate == learnRate && this.learnRateDecay == learnRateDecay && this.dropoutRate == dropoutRate
      ensures Z == Dense.Zeros(g.NumOutputs()) && A == Dense.Zeros(g.NumOutputs())
      ensures inputDelta == Dense.Zeros(g.InputSize())
    {
      geometry := g;
      this.learnRate, this.learnRateDecay, this.dropoutRate := learnRate, learnRateDecay, dropoutRate;
      filters, paramDeltas := fs, ZeroFilters(g);
      Z, A := Dense.Zeros(g.NumOutputs()), Dense.Zeros(g.NumOutputs());
      inputDelta := Dense.Zeros(g.InputSize());
    }

    /**
     * The configured construction (`initialize`, then the stream when there
     * is one). Reads "kernelSize", "learnRate", "learnRateDecay", "depth" and
     * "dropoutRate", failing on the first that is missing; then fails unless
     * the kernel fits the input, width first; and, in a build with debug
     * assertions, fails without filters. Kernels are drawn from `random`
     * (filter, flat index) and biases are 0; a stream then overwrites them.
     */
    static method Create(config: Cfg.Config, inputShape: Size3, random: (nat, nat) -> real, stream: Option<seq<real>>)
      returns (r: Result<(ConvolutionalLayer, seq<real>)>)
      ensures !HasSettings(config) ==> r == Err(Cfg.NotFound(FirstMissing(config)))
      ensures HasSettings(config) ==>
        var (kW, kH) := Layers.SizePairOf(config, "kernelSize");
        var depth := Layers.GetSize(config, "depth").value;
        (r.Ok? <==> kW <= inputShape[0] && kH <= inputShape[1] && depth > 0) &&
        (kW > inputShape[0] ==>
          r == Err("Kernel width " + NatToString(kW) + " is larger than input width " + NatToString(inputShape[0]))) &&
        (kW <= inputShape[0] && kH > inputShape[1] ==>
          r == Err("Kernel height " + NatToString(kH) + " is larger than input height " + NatToString(inputShape[1]))) &&
        (kW <= inputShape[0] && kH <= inputShape[1] && depth == 0 ==> r == Err(EmptyFilters)) &&
        (r.Ok? ==> var (layer, rest) := r.value;
          var g := Geometry(inputShape[0], inputShape[1], inputShape[2], kW, kH, depth);
          var initial := InitialFilters(g, random);
          fresh(layer) && layer.Valid() && layer.geometry == g && layer.paramDeltas == ZeroFilters(g) &&
          Layers.GetNetFloat(config, "learnRate") == Ok(layer.learnRate) &&
          Layers.GetNetFloat(config, "learnRateDecay") == Ok(layer.learnRateDecay) &&
          Layers.GetNetFloat(config, "dropoutRate") == Ok(layer.dropoutRate) &&
          (stream.None? ==> layer.filters == initial && rest == []) &&
          (stream.Some? ==> (layer.filters, rest) == ReadFilters(initial, stream.value)))
    {
      var kernelSize :- Layers.GetSizePair(config, "kernelSize");
      var learnRate :- Layers.GetNetFloat(config, "learnRate");
      var learnRateDecay :- Layers.GetNetFloat(config, "learnRateDecay");
      var depth :- Layers.GetSize(config, "depth");
      var dropoutRate :- Layers.GetNetFloat(config, "dropoutRate");
      var (kW, kH) := kernelSize;
      if kW > inputShape[0] {
        return Err("Kernel width " + NatToString(kW) + " is larger than input width " + NatToString(inputShape[0]));
      }
      if kH > inputShape[1] {
        return Err("Kernel height " + NatToString(kH) + " is larger than input height " + NatToString(inputShape[1]));
      }
      if depth == 0 {
        return Err(EmptyFilters);
      }
      var g := Geometry(inputShape[0], inputShape[1], inputShape[2], kW, kH, depth);
      var layer, rest := Build(g, learnRate, learnRateDecay, dropoutRate, random, stream);
      return Ok((layer, rest));
    }

    /**
     * The construction once the settings are known and checked: the
     * initial filters, overwritten from the stream when there is one.
     */
    static method Build(g: Geometry, learnRate: real, learnRateDecay: real, dropoutRate: real,
                        random: (nat, nat) -> real, stream: Option<seq<real>>)
      returns (layer: ConvolutionalLayer, rest: seq<real>)
      requires g.Valid()
      ensures fresh(layer) && layer.Valid() && layer.geometry == g && layer.paramDeltas == ZeroFilters(g)
      ensures layer.learnRate == learnRate && layer.learnRateDecay == learnRateDecay && layer.dropoutRate == dropoutRate
      ensures stream.None? ==> layer.filters == InitialFilters(g, random) && rest == []
      ensures stream.Some? ==> (layer.filters, rest) == ReadFilters(InitialFilters(g, random), stream.value)
    {
      var fs := InitialFilters(g, random);
      rest := [];
      if stream.Some? {
        fs, rest := ReadFiltersFrom(fs, stream.value);
      }
      layer := new ConvolutionalLayer(g, learnRate, learnRateDecay, dropoutRate, fs);
    }

    /** `outputSize`. */
    function OutputSize(): (r: Size3)
      reads this
      requires Valid()
      ensures r[0] == geometry.inputW - geometry.kernelW + 1 && r[1] == geometry.inputH - geometry.kernelH + 1
      ensures r[2] == |filters|
      ensures CalcProduct(r) == |Z|
    {
      geometry.OutputSize()
    }

    /** `numOutputs`: the product of the output extents. */
    function NumOutputs(): (n: nat)
      reads this
      requires Valid()
      ensures n == CalcProduct(OutputSize()) && n == |A|
    {
      geometry.NumOutputs()
    }

    /** `writeToStream`. */
    method WriteToStream(stream: seq<real>) returns (out: seq<real>)
      ensures out == stream + FilterStream(filters)
    {
      out := WriteFilters(stream, filters);
    }

    /**
     * `updateDeltas`: `delta = outputDelta ⊙ reluPrime(Z)`; the input delta
     * is cleared and then receives every filter's part; the gradients add
     * this sample's contribution to what they held.
     */
    method UpdateDeltas(inputs: seq<real>, outputDelta: seq<real>, reluPrime: real -> real, fullConv: Conv, crossCorr: Conv)
      requires Valid() && |inputs| == geometry.InputSize() && |outputDelta| == geometry.NumOutputs()
      requires forall a, b :: |fullConv(a, b)| == geometry.InputArea()
      requires forall a, b :: |crossCorr(a, b)| == geometry.KernelArea()
      modifies this
      ensures Valid() && filters == old(filters) && Z == old(Z) && A == old(A)
      ensures var delta := Dense.Delta(outputDelta, Z, reluPrime);
        inputDelta == InputDeltaSum(geometry, filters, delta, fullConv, geometry.depth) &&
        forall i | 0 <= i < geometry.depth ::
          paramDeltas[i] == GradientStep(geometry, old(paramDeltas[i]), inputs, Slice(delta, geometry.MapArea(), geometry.depth, i), crossCorr)
    {
      var delta := Dense.Delta(outputDelta, Z, reluPrime);
      inputDelta, paramDeltas := Backprop(geometry, filters, paramDeltas, inputs, delta, fullConv, crossCorr);
    }

    /**
     * `updateParams`: every kernel and bias moves against its gradient
     * scaled by the decayed learning rate, and every gradient is cleared.
     */
    method UpdateParams(epoch: nat)
      requires Valid()
      modifies this
      ensures Valid() && paramDeltas == ZeroFilters(geometry)
      ensures filters == Descend(geometry, old(filters), old(paramDeltas), Dense.DecayedRate(learnRate, learnRateDecay, epoch))
      ensures Z == old(Z) && A == old(A) && inputDelta == old(inputDelta)
    {
      var rate := Dense.DecayedRate(learnRate, learnRateDecay, epoch);
      var fs := Descend(geometry, filters, paramDeltas, rate);
      filters, paramDeltas := fs, ZeroFilters(geometry);
    }

    /** `test_setFilters`: replaces the filters with ones of the same shape. */
    method SetFilters(fs: seq<Filter>)
      requires Valid() && Fits(geometry, fs)
      modifies this
      ensures Valid() && filters == fs
      ensures paramDeltas == old(paramDeltas) && Z == old(Z) && A == old(A) && inputDelta == old(inputDelta)
    {
      filters := fs;
    }
  }

  /** One gradient step on every filter: kernel and bias each move against their gradient scaled by `rate`. */
  function Descend(g: Geometry, fs: seq<Filter>, pds: seq<Filter>, rate: real): (r: seq<Filter>)
    requires Fits(g, fs) && Fits(g, pds)
    ensures Fits(g, r)
    ensures forall i | 0 <= i < g.depth ::
      r[i].b == fs[i].b - pds[i].b * rate && r[i].K == Dense.Descend(fs[i].K, pds[i].K, rate)
  {
    seq(g.depth, i requires 0 <= i < g.depth => Filter(Dense.Descend(fs[i].K, pds[i].K, rate), fs[i].b - pds[i].b * rate))
  }

  /** The configuration holds every setting `initialize` reads. */
  predicate HasSettings(config: Cfg.Config)
    reads config
  {
    "kernelSize" in config.entries && "learnRate" in config.entries && "learnRateDecay" in config.entries &&
    "depth" in config.entries && "dropoutRate" in config.entries
  }

  /** The first setting, in `initialize`'s reading order, that the configuration lacks. */
  function FirstMissing(config: Cfg.Config): string
    reads config
  {
    if "kernelSize" !in config.entries then "kernelSize"
    else if "learnRate" !in config.entries then "learnRate"
    else if "learnRateDecay" !in config.entries then "learnRateDecay"
    else if "depth" !in config.entries then "depth"
    else "dropoutRate"
  }

  /** What a debug build's assertion on `outputSize` reports when there are no filters. */
  const EmptyFilters := "Assertion failed: !m_filters.empty()"

  /** `initialize`'s filters: random kernels and zero biases. */
  function InitialFilters(g: Geometry, random: (nat, nat) -> real): (fs: seq<Filter>)
    ensures Fits(g, fs) && forall i | 0 <= i < g.depth :: fs[i].b == 0.0
  {
    seq(g.depth, i requires 0 <= i => Filter(seq(g.KernelSize(), k requires 0 <= k => random(i, k)), 0.0))
  }
}
