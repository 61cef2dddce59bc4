/**
 * The GPU convolutional layer (librichard/src/gpu/convolutional_layer.cpp).
 * The host keeps the parameters in two flat arrays: `depth` kernels of
 * `kernelW * kernelH * inputDepth` values each, one after another, and one
 * bias per kernel. The layer allocates its device buffers and compiles its
 * six shaders on the `Vulkan` object it is given, and its passes only queue
 * those shaders.
 *
 * What the shaders compute, the device-side contents of the buffers and the
 * random seed pushed to the forward shader are not part of this model.
 */
module GpuConvolution {
  import opened Wrappers
  import opened Utils
  import opened Math
  import Cfg = Config
  import Layers
  import Dense = DenseLayers
  import Cpu = CpuConvolution
  import V = Vulkan

  /*
   * The flat parameter arrays and the stream.
   */

  /** The filters held in flat arrays: filter `i` is bias `i` with kernel slice `i`. */
  function FiltersOf(K: seq<real>, B: seq<real>, ks: nat): (fs: seq<Cpu.Filter>)
    requires |K| == ks * |B|
    ensures |fs| == |B|
  {
    seq(|B|, i requires 0 <= i < |B| => Cpu.Filter(Cpu.Slice(K, ks, |B|, i), B[i]))
  }

  /** The kernels of `fs` laid end to end. */
  function Kernels(fs: seq<Cpu.Filter>): seq<real> {
    if |fs| == 0 then [] else Kernels(fs[..|fs| - 1]) + fs[|fs| - 1].K
  }

  /** The biases of `fs`, in order. */
  function Biases(fs: seq<Cpu.Filter>): (B: seq<real>)
    ensures |B| == |fs|
  {
    seq(|fs|, i requires 0 <= i < |fs| => fs[i].b)
  }

  /** Cutting the flat arrays into filters loses nothing: laying them out again gives the arrays back. */
  lemma {:induction false} FiltersOfFlatten(K: seq<real>, B: seq<real>, ks: nat)
    requires |K| == ks * |B|
    ensures Kernels(FiltersOf(K, B, ks)) == K && Biases(FiltersOf(K, B, ks)) == B
  {
    var n := |B|;
    var fs := FiltersOf(K, B, ks);
    if n == 0 {
      assert K == [];
    } else {
      assert (n - 1) * ks + ks == ks * n;
      var K', B' := K[..(n - 1) * ks], B[..n - 1];
      assert |K'| == ks * |B'|;
      forall i | 0 <= i < n - 1
        ensures fs[i] == FiltersOf(K', B', ks)[i]
      {
        RowEndInRange(i, ks, n - 1);
      }
      assert fs[..n - 1] == FiltersOf(K', B', ks);
      FiltersOfFlatten(K', B', ks);
      assert fs[n - 1].K == K[(n - 1) * ks..];
      assert K == K' + K[(n - 1) * ks..];
    }
  }

  /** Overwriting filter `i` in the flat arrays: its kernel slice and its bias. */
  lemma SetFilterAt(K: seq<real>, B: seq<real>, ks: nat, i: nat, f: Cpu.Filter)
    requires |K| == ks * |B| && i < |B| && |f.K| == ks
    ensures i * ks + ks <= |K|
    ensures var K' := K[..i * ks] + f.K + K[i * ks + ks..];
      |K'| == ks * |B| && FiltersOf(K', B[i := f.b], ks) == FiltersOf(K, B, ks)[i := f]
  {
    var n := |B|;
    RowEndInRange(i, ks, n);
    var K' := K[..i * ks] + f.K + K[i * ks + ks..];
    var lhs, rhs := FiltersOf(K', B[i := f.b], ks), FiltersOf(K, B, ks)[i := f];
    forall j | 0 <= j < n
      ensures lhs[j] == rhs[j]
    {
      SpliceSlice(K, ks, n, i, f.K, j);
    }
  }

  /** Writing `e` over slice `i` of a stack of slices changes slice `i` to `e` and no other slice. */
  lemma SpliceSlice(K: seq<real>, ks: nat, n: nat, i: nat, e: seq<real>, j: nat)
    requires |K| == ks * n && i < n && j < n && |e| == ks
    ensures i * ks + ks <= |K|
    ensures var K' := K[..i * ks] + e + K[i * ks + ks..];
      |K'| == ks * n && Cpu.Slice(K', ks, n, j) == if j == i then e else Cpu.Slice(K, ks, n, j)
  {
    RowEndInRange(i, ks, n);
    RowEndInRange(j, ks, n);
    var K' := K[..i * ks] + e + K[i * ks + ks..];
    if j < i {
      RowEndInRange(j, ks, i);
      assert K'[j * ks .. j * ks + ks] == K[j * ks .. j * ks + ks];
    } else if j > i {
      RowEndInRange(i, ks, j);
      assert K'[j * ks .. j * ks + ks] == K[j * ks .. j * ks + ks] by {
        forall p | j * ks <= p < j * ks + ks
          ensures K'[p] == K[p]
        {
        }
      }
    } else {
      assert K'[i * ks .. i * ks + ks] == e;
    }
  }

  /**
   * The stream constructor's loop: for each filter, the bias and then the
   * kernel are read into place from the stream. The result is what reading
   * the same stream filter by filter gives.
   */
  method ReadParams(K: seq<real>, B: seq<real>, ks: nat, stream: seq<real>)
    returns (K': seq<real>, B': seq<real>, rest: seq<real>)
    requires |K| == ks * |B|
    ensures var r := Cpu.ReadFilters(FiltersOf(K, B, ks), stream);
      K' == Kernels(r.0) && B' == Biases(r.0) && rest == r.1
    ensures |K'| == |K| && |B'| == |B|
  {
    ghost var fs := FiltersOf(K, B, ks);
    ghost var goal := Cpu.ReadFilters(fs, stream);
    K', B', rest := K, B, stream;
    for i := 0 to |B|
      invariant ParamsInvariant(fs, goal, ks, i, K', B', rest)
    {
      RowEndInRange(i, ks, |B|);
      var (b, s1) := Layers.ReadValues([B'[i]], rest);
      var (k, s2) := Layers.ReadValues(K'[i * ks .. i * ks + ks], s1);
      ParamsAdvance(fs, goal, ks, i, K', B', rest);
      K', B', rest := K'[..i * ks] + k + K'[i * ks + ks..], B'[i := b[0]], s2;
    }
    Cpu.ReadDone(fs, FiltersOf(K', B', ks), rest, goal);
    FiltersOfFlatten(K', B', ks);
  }

  /** After `i` filters, the flat arrays hold the filters `ReadInvariant` describes. */
  ghost predicate ParamsInvariant(fs: seq<Cpu.Filter>, goal: (seq<Cpu.Filter>, seq<real>), ks: nat, i: nat,
                                  K: seq<real>, B: seq<real>, rest: seq<real>)
  {
    |K| == ks * |B| && |B| == |fs| && Cpu.ReadInvariant(fs, i, FiltersOf(K, B, ks), rest, goal)
  }

  /** Reading filter `i` into the flat arrays keeps `ParamsInvariant`. */
  lemma ParamsAdvance(fs: seq<Cpu.Filter>, goal: (seq<Cpu.Filter>, seq<real>), ks: nat, i: nat,
                      K: seq<real>, B: seq<real>, rest: seq<real>)
    requires ParamsInvariant(fs, goal, ks, i, K, B, rest) && i < |B|
    ensures i * ks + ks <= |K|
    ensures var (b, s1) := Layers.ReadValues([B[i]], rest);
      var (k, s2) := Layers.ReadValues(K[i * ks .. i * ks + ks], s1);
      ParamsInvariant(fs, goal, ks, i + 1, K[..i * ks] + k + K[i * ks + ks..], B[i := b[0]], s2)
  {
    RowEndInRange(i, ks, |B|);
    var (b, s1) := Layers.ReadValues([B[i]], rest);
    var (k, s2) := Layers.ReadValues(K[i * ks .. i * ks + ks], s1);
    Cpu.ReadAdvance(fs, i, FiltersOf(K, B, ks), rest, goal);
    SetFilterAt(K, B, ks, i, Cpu.Filter(k, b[0]));
  }

  /**
   * Reading back what `writeToStream` wrote, into arrays of the same shape,
   * restores every kernel value and bias and leaves the rest of the stream.
   */
  lemma ParamsRoundTrip(K0: seq<real>, B0: seq<real>, K: seq<real>, B: seq<real>, ks: nat, rest: seq<real>)
    requires |K0| == ks * |B0| && |K| == ks * |B| && |B0| == |B|
    ensures var r := Cpu.ReadFilters(FiltersOf(K0, B0, ks), Cpu.FilterStream(FiltersOf(K, B, ks)) + rest);
      Kernels(r.0) == K && Biases(r.0) == B && r.1 == rest
  {
    Cpu.FilterStreamRoundTrip(FiltersOf(K0, B0, ks), FiltersOf(K, B, ks), rest);
    FiltersOfFlatten(K, B, ks);
  }

  /** `initialize`'s kernels, each value drawn from `random` by its flat index. */
  function InitialKernels(n: nat, random: nat -> real): (K: seq<real>)
    ensures |K| == n
  {
    seq(n, p requires 0 <= p => random(p))
  }

  /*
   * Configuration.
   */

  /** The configuration holds every setting `initialize` reads. */
  predicate HasSettings(config: Cfg.Config)
    reads config
  {
    "kernelSize" in config.entries && "depth" in config.entries && "learnRate" in config.entries &&
    "learnRateDecay" in config.entries && "dropoutRate" in config.entries
  }

  /** The first setting, in `initialize`'s reading order, that the configuration lacks. */
  function FirstMissing(config: Cfg.Config): string
    reads config
  {
    if "kernelSize" !in config.entries then "kernelSize"
    else if "depth" !in config.entries then "depth"
    else if "learnRate" !in config.entries then "learnRate"
    else if "learnRateDecay" !in config.entries then "learnRateDecay"
    else "dropoutRate"
  }

  function WidthError(kW: nat, inputW: nat): string {
    "Kernel width " + NatToString(kW) + " is larger than input width " + NatToString(inputW)
  }

  function HeightError(kH: nat, inputH: nat): string {
    "Kernel height " + NatToString(kH) + " is larger than input height " + NatToString(inputH)
  }

  /** The flags of the kernel and bias buffers, which the host fills and reads back. */
  const ParamFlags: V.GpuBufferFlags := V.Large | V.HostReadAccess | V.HostWriteAccess

  /** The flags of the kernel and bias gradient buffers, which the host zeroes. */
  const DeltaFlags: V.GpuBufferFlags := V.Large | V.HostWriteAccess

  /**
   * `addShader` with constants of the right types: the new pipeline's
   * handle is the next index, and it reads and writes what its bindings say.
   */
  method AddShader(gpu: V.Vulkan, bindings: seq<V.BufferBinding>, constants: seq<V.SpecializationConstant>,
                   pushConstantsSize: nat, workSize: Size3) returns (h: nat)
    requires gpu.Valid() && gpu.LimitsPositive()
    requires forall k | 0 <= k < |bindings| :: bindings[k].buffer < |gpu.buffers|
    requires forall k | 0 <= k < |constants| :: V.WellTyped(constants[k])
    modifies gpu
    ensures gpu.Valid()
    ensures h == old(|gpu.pipelines|) && |gpu.pipelines| == h + 1 && old(gpu.pipelines) <= gpu.pipelines
    ensures gpu.pipelines[h].readBuffers == V.Reads(bindings) && gpu.pipelines[h].writeBuffers == V.Writes(bindings)
    ensures gpu.pipelines[h].pushConstantsSize == pushConstantsSize && V.Covers(gpu.pipelines[h], workSize)
    ensures V.Specializes(gpu.pipelines[h].specialization, constants, gpu.pipelines[h].workgroupSize)
    ensures gpu.buffers == old(gpu.buffers) && gpu.recorded == old(gpu.recorded)
    ensures gpu.activeBuffers == old(gpu.activeBuffers) && gpu.submitted == old(gpu.submitted)
    ensures gpu.startedRecording == old(gpu.startedRecording)
  {
    var r := gpu.AddShader(bindings, constants, pushConstantsSize, workSize);
    h := r.value;
  }

  function Uint(n: nat): V.SpecializationConstant {
    V.SpecializationConstant(V.UintType, V.UintValue(n % V.U32))
  }

  function Float(bits: nat): V.SpecializationConstant {
    V.SpecializationConstant(V.FloatType, V.FloatValue(bits % V.U32))
  }

  function Bool(b: bool): V.SpecializationConstant {
    V.SpecializationConstant(V.BoolType, V.BoolValue(b))
  }

  class ConvolutionalLayer {
    const gpu: V.Vulkan
    const inputW: nat
    const inputH: nat
    const inputDepth: nat
    const kernelW: nat
    const kernelH: nat
    const depth: nat
    const learnRate: real
    const learnRateDecay: real
    const dropoutRate: real
    const isFirstLayer: bool
    /** `depth` kernels, one after another. */
    var kernelData: seq<real>
    var biasData: seq<real>

    var bufferK: nat
    var bufferB: nat
    var bufferZ: nat
    var bufferA: nat
    var bufferD: nat
    var bufferInputDelta: nat
    var bufferDeltaK: nat
    var bufferDeltaB: nat

    var evalForwardShader: nat
    var trainForwardShader: nat
    var backpropDeltaShader: nat
    var backpropInputDeltaShader: nat
    var backpropParamDeltasShader: nat
    var updateParamsShader: nat

    /** The values of one kernel. */
    function KernelSize(): nat {
      kernelW * kernelH * inputDepth
    }

    function InputSize(): nat {
      inputW * inputH * inputDepth
    }

    /** `initialize`'s assertions: the kernel fits inside the input. */
    predicate KernelFits() {
      kernelW <= inputW && kernelH <= inputH
    }

    /** The kernel fits and the host arrays have `initialize`'s sizes. */
    ghost predicate Valid()
      reads this
    {
      KernelFits() && |kernelData| == KernelSize() * depth && |biasData| == depth
    }

    /** Every buffer handle of the layer names an allocated buffer. */
    ghost predicate Allocated()
      reads this, gpu
    {
      bufferK < |gpu.buffers| && bufferB < |gpu.buffers| && bufferZ < |gpu.buffers| &&
      bufferA < |gpu.buffers| && bufferD < |gpu.buffers| && bufferInputDelta < |gpu.buffers| &&
      bufferDeltaK < |gpu.buffers| && bufferDeltaB < |gpu.buffers|
    }

    /** `outputSize`: one feature map per kernel, as wide as the kernel can slide. */
    function OutputSize(): (r: Size3)
      requires KernelFits()
      ensures r[0] + kernelW == inputW + 1 && r[1] + kernelH == inputH + 1 && r[2] == depth
    {
      [inputW - kernelW + 1, inputH - kernelH + 1, depth]
    }

    /** `size`: the number of output values. */
    function Size(): (n: nat)
      requires KernelFits()
      ensures n == OutputSize()[0] * OutputSize()[1] * depth
    {
      CalcProduct(OutputSize())
    }

    constructor (gpu: V.Vulkan, inputShape: Size3, kernelW: nat, kernelH: nat, depth: nat,
                 learnRate: real, learnRateDecay: real, dropoutRate: real, isFirstLayer: bool,
                 K: seq<real>, B: seq<real>)
      requires kernelW <= inputShape[0] && kernelH <= inputShape[1]
      requires |K| == kernelW * kernelH * inputShape[2] * depth && |B| == depth
      ensures Valid() && this.gpu == gpu && kernelData == K && biasData == B
      ensures inputW == inputShape[0] && inputH == inputShape[1] && inputDepth == inputShape[2]
      ensures this.kernelW == kernelW && this.kernelH == kernelH && this.depth == depth
      ensures this.learnRate == learnRate && this.learnRateDecay == learnRateDecay
      ensures this.dropoutRate == dropoutRate && this.isFirstLayer == isFirstLayer
    {
      this.gpu := gpu;
      inputW, inputH, inputDepth := inputShape[0], inputShape[1], inputShape[2];
      this.kernelW, this.kernelH, this.depth := kernelW, kernelH, depth;
      this.learnRate, this.learnRateDecay, this.dropoutRate := learnRate, learnRateDecay, dropoutRate;
      this.isFirstLayer := isFirstLayer;
      kernelData, biasData := K, B;
    }

    /**
     * The configured construction (`initialize`, then the stream when there
     * is one). Reads "kernelSize", "depth", "learnRate", "learnRateDecay"
     * and "dropoutRate", failing on the first that is missing; draws every
     * kernel value from `random` and zeroes the biases; then fails unless the
     * kernel fits the input, width first. A stream then overwrites the
     * parameters filter by filter.
     */
    static method Create(gpu: V.Vulkan, config: Cfg.Config, inputShape: Size3, isFirstLayer: bool,
                         random: nat -> real, stream: Option<seq<real>>)
      returns (r: Result<(ConvolutionalLayer, seq<real>)>)
      ensures !HasSettings(config) ==> r == Err(Cfg.NotFound(FirstMissing(config)))
      ensures HasSettings(config) ==>
        var (kW, kH) := Layers.SizePairOf(config, "kernelSize");
        (r.Ok? <==> kW <= inputShape[0] && kH <= inputShape[1]) &&
        (kW > inputShape[0] ==> r == Err(WidthError(kW, inputShape[0]))) &&
        (kW <= inputShape[0] && kH > inputShape[1] ==> r == Err(HeightError(kH, inputShape[1]))) &&
        (r.Ok? ==> var (layer, rest) := r.value;
          fresh(layer) && layer.Valid() && layer.gpu == gpu && layer.isFirstLayer == isFirstLayer &&
          [layer.inputW, layer.inputH, layer.inputDepth] == inputShape &&
          layer.kernelW == kW && layer.kernelH == kH &&
          Layers.GetSize(config, "depth") == Ok(layer.depth) &&
          Layers.GetNetFloat(config, "learnRate") == Ok(layer.learnRate) &&
          Layers.GetNetFloat(config, "learnRateDecay") == Ok(layer.learnRateDecay) &&
          Layers.GetNetFloat(config, "dropoutRate") == Ok(layer.dropoutRate) &&
          var K0 := InitialKernels(layer.KernelSize() * layer.depth, random);
          var B0 := Dense.Zeros(layer.depth);
          (stream.None? ==> layer.kernelData == K0 && layer.biasData == B0 && rest == []) &&
          (stream.Some? ==>
            var read := Cpu.ReadFilters(FiltersOf(K0, B0, layer.KernelSize()), stream.value);
            layer.kernelData == Kernels(read.0) && layer.biasData == Biases(read.0) && rest == read.1))
    {
      var kernelSize :- Layers.GetSizePair(config, "kernelSize");
      var depth :- Layers.GetSize(config, "depth");
      var learnRate :- Layers.GetNetFloat(config, "learnRate");
      var learnRateDecay :- Layers.GetNetFloat(config, "learnRateDecay");
      var dropoutRate :- Layers.GetNetFloat(config, "dropoutRate");
      var (kW, kH) := kernelSize;
      if kW > inputShape[0] {
        return Err(WidthError(kW, inputShape[0]));
      }
      if kH > inputShape[1] {
        return Err(HeightError(kH, inputShape[1]));
      }
      var layer, rest := Build(gpu, inputShape, kW, kH, depth, learnRate, learnRateDecay, dropoutRate,
        isFirstLayer, random, stream);
      return Ok((layer, rest));
    }

    /**
     * The construction once the settings are known and the kernel fits:
     * random kernels and zero biases, overwritten from the stream when there
     * is one.
     */
    static method Build(gpu: V.Vulkan, inputShape: Size3, kW: nat, kH: nat, depth: nat,
                        learnRate: real, learnRateDecay: real, dropoutRate: real, isFirstLayer: bool,
                        random: nat -> real, stream: Option<seq<real>>)
      returns (layer: ConvolutionalLayer, rest: seq<real>)
      requires kW <= inputShape[0] && kH <= inputShape[1]
      ensures fresh(layer) && layer.Valid() && layer.gpu == gpu && layer.isFirstLayer == isFirstLayer
      ensures [layer.inputW, layer.inputH, layer.inputDepth] == inputShape
      ensures layer.kernelW == kW && layer.kernelH == kH && layer.depth == depth
      ensures layer.learnRate == learnRate && layer.learnRateDecay == learnRateDecay && layer.dropoutRate == dropoutRate
      ensures var K0 := InitialKernels(layer.KernelSize() * layer.depth, random);
        var B0 := Dense.Zeros(layer.depth);
        (stream.None? ==> layer.kernelData == K0 && layer.biasData == B0 && rest == []) &&
        (stream.Some? ==>
          var read := Cpu.ReadFilters(FiltersOf(K0, B0, layer.KernelSize()), stream.value);
          layer.kernelData == Kernels(read.0) && layer.biasData == Biases(read.0) && rest == read.1)
    {
      var ks: nat := kW * kH * inputShape[2];
      var K := InitialKernels(ks * depth, random);
      var B := Dense.Zeros(depth);
      rest := [];
      if stream.Some? {
        K, B, rest := ReadParams(K, B, ks, stream.value);
      }
      layer := new ConvolutionalLayer(gpu, inputShape, kW, kH, depth, learnRate, learnRateDecay,
        dropoutRate, isFirstLayer, K, B);
    }

    /**
     * `writeToStream`: for each filter, its bias and then its kernel; the
     * layout the CPU layer writes.
     */
    method WriteToStream(stream: seq<real>) returns (out: seq<real>)
      requires Valid()
      ensures out == stream + Cpu.FilterStream(FiltersOf(kernelData, biasData, KernelSize()))
    {
      var ks := KernelSize();
      ghost var fs := FiltersOf(kernelData, biasData, ks);
      out := stream;
      for i := 0 to depth
        invariant out == stream + Cpu.FilterStream(fs[..i])
      {
        RowEndInRange(i, ks, depth);
        assert fs[..i + 1] == fs[..i] + [fs[i]];
        Cpu.FilterStreamSnoc(fs[..i], fs[i]);
        out := out + [biasData[i]] + kernelData[i * ks .. i * ks + ks];
      }
      assert fs[..depth] == fs;
    }

    /**
     * `allocateGpuBuffers`: eight buffers, in the order K, B, Z, A, D,
     * input delta, kernel gradient, bias gradient, each sized in bytes
     * for the values it holds.
     */
    method AllocateGpuBuffers()
      requires Valid() && gpu.Valid()
      modifies this`bufferK, this`bufferB, this`bufferZ, this`bufferA, this`bufferD,
        this`bufferInputDelta, this`bufferDeltaK, this`bufferDeltaB, gpu
      ensures gpu.Valid() && Allocated()
      ensures bufferK == old(|gpu.buffers|) && bufferB == bufferK + 1 && bufferZ == bufferK + 2 &&
        bufferA == bufferK + 3 && bufferD == bufferK + 4 && bufferInputDelta == bufferK + 5 &&
        bufferDeltaK == bufferK + 6 && bufferDeltaB == bufferK + 7
      ensures gpu.buffers == old(gpu.buffers) + [
        V.NewBuffer(Layers.Bytes(|kernelData|), ParamFlags), V.NewBuffer(Layers.Bytes(|biasData|), ParamFlags),
        V.NewBuffer(Layers.Bytes(Size()), V.Large), V.NewBuffer(Layers.Bytes(Size()), V.Large),
        V.NewBuffer(Layers.Bytes(Size()), V.Large), V.NewBuffer(Layers.Bytes(InputSize()), V.Large),
        V.NewBuffer(Layers.Bytes(|kernelData|), DeltaFlags), V.NewBuffer(Layers.Bytes(|biasData|), DeltaFlags)]
      ensures gpu.pipelines == old(gpu.pipelines) && gpu.recorded == old(gpu.recorded)
      ensures gpu.activeBuffers == old(gpu.activeBuffers) && gpu.submitted == old(gpu.submitted)
      ensures gpu.startedRecording == old(gpu.startedRecording)
    {
      AllocateForwardBuffers();
      ghost var mid := gpu.buffers;
      AllocateBackwardBuffers();
      assert gpu.buffers == mid + (gpu.buffers[|mid|..]);
    }

    /** The first half of `allocateGpuBuffers`: parameters and feature maps. */
    method AllocateForwardBuffers()
      requires Valid() && gpu.Valid()
      modifies this`bufferK, this`bufferB, this`bufferZ, this`bufferA, gpu
      ensures gpu.Valid()
      ensures bufferK == old(|gpu.buffers|) && bufferB == bufferK + 1 && bufferZ == bufferK + 2 &&
        bufferA == bufferK + 3
      ensures gpu.buffers == old(gpu.buffers) + [
        V.NewBuffer(Layers.Bytes(|kernelData|), ParamFlags), V.NewBuffer(Layers.Bytes(|biasData|), ParamFlags),
        V.NewBuffer(Layers.Bytes(Size()), V.Large), V.NewBuffer(Layers.Bytes(Size()), V.Large)]
      ensures gpu.pipelines == old(gpu.pipelines) && gpu.recorded == old(gpu.recorded)
      ensures gpu.activeBuffers == old(gpu.activeBuffers) && gpu.submitted == old(gpu.submitted)
      ensures gpu.startedRecording == old(gpu.startedRecording)
    {
      var featureMapSizeBytes := Layers.Bytes(Size());
      bufferK := gpu.AllocateBuffer(Layers.Bytes(|kernelData|), ParamFlags);
      bufferB := gpu.AllocateBuffer(Layers.Bytes(depth), ParamFlags);
      bufferZ := gpu.AllocateBuffer(featureMapSizeBytes, V.Large);
      bufferA := gpu.AllocateBuffer(featureMapSizeBytes, V.Large);
    }

    /** The second half of `allocateGpuBuffers`: deltas and parameter deltas. */
    method AllocateBackwardBuffers()
      requires Valid() && gpu.Valid()
      modifies this`bufferD, this`bufferInputDelta, this`bufferDeltaK, this`bufferDeltaB, gpu
      ensures gpu.Valid()
      ensures bufferD == old(|gpu.buffers|) && bufferInputDelta == bufferD + 1 &&
        bufferDeltaK == bufferD + 2 && bufferDeltaB == bufferD + 3
      ensures gpu.buffers == old(gpu.buffers) + [
        V.NewBuffer(Layers.Bytes(Size()), V.Large), V.NewBuffer(Layers.Bytes(InputSize()), V.Large),
        V.NewBuffer(Layers.Bytes(|kernelData|), DeltaFlags), V.NewBuffer(Layers.Bytes(|biasData|), DeltaFlags)]
      ensures gpu.pipelines == old(gpu.pipelines) && gpu.recorded == old(gpu.recorded)
      ensures gpu.activeBuffers == old(gpu.activeBuffers) && gpu.submitted == old(gpu.submitted)
      ensures gpu.startedRecording == old(gpu.startedRecording)
    {
      bufferD := gpu.AllocateBuffer(Layers.Bytes(Size()), V.Large);
      bufferInputDelta := gpu.AllocateBuffer(Layers.Bytes(InputSize()), V.Large);
      bufferDeltaK := gpu.AllocateBuffer(Layers.Bytes(|kernelData|), DeltaFlags);
      bufferDeltaB := gpu.AllocateBuffer(Layers.Bytes(depth), DeltaFlags);
    }

    /** The six pipelines exist. */
    ghost predicate ShadersCreated()
      reads this, gpu
    {
      evalForwardShader < |gpu.pipelines| && trainForwardShader < |gpu.pipelines| &&
      backpropDeltaShader < |gpu.pipelines| && backpropInputDeltaShader < |gpu.pipelines| &&
      backpropParamDeltasShader < |gpu.pipelines| && updateParamsShader < |gpu.pipelines|
    }

    /**
     * `createGpuShaders`, in the source's order. The next layer must exist
     * (checked only by a debug assertion in the source); its input delta
     * buffer is what the delta shader reads. `floatBits` gives the bit
     * pattern of a float constant.
     */
    method CreateGpuShaders(inputBuffer: nat, statusBuffer: nat, nextInputDelta: nat, floatBits: real -> nat)
      requires Valid() && gpu.Valid() && gpu.LimitsPositive() && Allocated()
      requires inputBuffer < |gpu.buffers| && statusBuffer < |gpu.buffers| && nextInputDelta < |gpu.buffers|
      modifies this`evalForwardShader, this`trainForwardShader, this`backpropDeltaShader,
        this`backpropInputDeltaShader, this`backpropParamDeltasShader, this`updateParamsShader, gpu
      ensures gpu.Valid() && Allocated() && ShadersCreated()
      ensures |gpu.pipelines| == old(|gpu.pipelines|) + 6 && old(gpu.pipelines) <= gpu.pipelines
      ensures evalForwardShader == old(|gpu.pipelines|) && trainForwardShader == evalForwardShader + 1 &&
        backpropDeltaShader == evalForwardShader + 2 && backpropInputDeltaShader == evalForwardShader + 3 &&
        backpropParamDeltasShader == evalForwardShader + 4 && updateParamsShader == evalForwardShader + 5
      ensures V.PipelineIs(gpu.pipelines[evalForwardShader], {inputBuffer, bufferK, bufferB}, {bufferA}, 0, OutputSize(),
        EvalForwardConstants())
      ensures V.PipelineIs(gpu.pipelines[trainForwardShader], {statusBuffer, inputBuffer, bufferK, bufferB},
        {bufferZ, bufferA}, 4, OutputSize(),
        TrainForwardConstants(floatBits))
      ensures V.PipelineIs(gpu.pipelines[backpropDeltaShader], {bufferZ, nextInputDelta}, {bufferD}, 0, OutputSize(), [])
      ensures V.PipelineIs(gpu.pipelines[backpropInputDeltaShader], {bufferK, bufferD}, {bufferInputDelta}, 0,
        [inputW, inputH, inputDepth], BackpropInputDeltaConstants())
      ensures V.PipelineIs(gpu.pipelines[backpropParamDeltasShader], {statusBuffer, inputBuffer, bufferD},
        {bufferDeltaK, bufferDeltaB}, 0, [kernelW * kernelH, inputDepth, depth],
        BackpropParamDeltasConstants())
      ensures V.PipelineIs(gpu.pipelines[updateParamsShader], {statusBuffer}, {bufferK, bufferB, bufferDeltaK, bufferDeltaB}, 0,
        [kernelW * kernelH, inputDepth, depth], UpdateParamsConstants(floatBits))
      ensures gpu.buffers == old(gpu.buffers) && gpu.recorded == old(gpu.recorded)
      ensures gpu.activeBuffers == old(gpu.activeBuffers) && gpu.submitted == old(gpu.submitted)
      ensures gpu.startedRecording == old(gpu.startedRecording)
    {
      ghost var n := |gpu.pipelines|;
      CreateForwardShaders(inputBuffer, statusBuffer, nextInputDelta, floatBits);
      ghost var p0, p1, p2 := gpu.pipelines[n], gpu.pipelines[n + 1], gpu.pipelines[n + 2];
      CreateBackwardShaders(inputBuffer, statusBuffer, floatBits);
      assert gpu.pipelines[n] == p0 && gpu.pipelines[n + 1] == p1 && gpu.pipelines[n + 2] == p2;
    }

    /** The evaluation, training and delta shaders of `createGpuShaders`. */
    method CreateForwardShaders(inputBuffer: nat, statusBuffer: nat, nextInputDelta: nat, floatBits: real -> nat)
      requires Valid() && gpu.Valid() && gpu.LimitsPositive() && Allocated()
      requires inputBuffer < |gpu.buffers| && statusBuffer < |gpu.buffers| && nextInputDelta < |gpu.buffers|
      modifies this`evalForwardShader, this`trainForwardShader, this`backpropDeltaShader, gpu
      ensures gpu.Valid()
      ensures |gpu.pipelines| == old(|gpu.pipelines|) + 3 && old(gpu.pipelines) <= gpu.pipelines
      ensures evalForwardShader == old(|gpu.pipelines|) && trainForwardShader == evalForwardShader + 1 &&
        backpropDeltaShader == evalForwardShader + 2
      ensures V.PipelineIs(gpu.pipelines[evalForwardShader], {inputBuffer, bufferK, bufferB}, {bufferA}, 0, OutputSize(),
        EvalForwardConstants())
      ensures V.PipelineIs(gpu.pipelines[trainForwardShader], {statusBuffer, inputBuffer, bufferK, bufferB},
        {bufferZ, bufferA}, 4, OutputSize(),
        TrainForwardConstants(floatBits))
      ensures V.PipelineIs(gpu.pipelines[backpropDeltaShader], {bufferZ, nextInputDelta}, {bufferD}, 0, OutputSize(), [])
      ensures gpu.buffers == old(gpu.buffers) && gpu.recorded == old(gpu.recorded)
      ensures gpu.activeBuffers == old(gpu.activeBuffers) && gpu.submitted == old(gpu.submitted)
      ensures gpu.startedRecording == old(gpu.startedRecording)
    {
      ghost var n := |gpu.pipelines|;
      evalForwardShader := CreateEvalForwardShader(inputBuffer);
      ghost var p0 := gpu.pipelines[n];
      trainForwardShader := CreateTrainForwardShader(statusBuffer, inputBuffer, floatBits);
      ghost var p1 := gpu.pipelines[n + 1];
      assert gpu.pipelines[n] == p0;
      backpropDeltaShader := CreateBackpropDeltaShader(nextInputDelta);
      assert gpu.pipelines[n] == p0 && gpu.pipelines[n + 1] == p1;
    }

    /** The input delta, parameter delta and update shaders of `createGpuShaders`. */
    method CreateBackwardShaders(inputBuffer: nat, statusBuffer: nat, floatBits: real -> nat)
      requires Valid() && gpu.Valid() && gpu.LimitsPositive() && Allocated()
      requires inputBuffer < |gpu.buffers| && statusBuffer < |gpu.buffers|
      modifies this`backpropInputDeltaShader, this`backpropParamDeltasShader, this`updateParamsShader, gpu
      ensures gpu.Valid()
      ensures |gpu.pipelines| == old(|gpu.pipelines|) + 3 && old(gpu.pipelines) <= gpu.pipelines
      ensures backpropInputDeltaShader == old(|gpu.pipelines|) &&
        backpropParamDeltasShader == backpropInputDeltaShader + 1 && updateParamsShader == backpropInputDeltaShader + 2
      ensures V.PipelineIs(gpu.pipelines[backpropInputDeltaShader], {bufferK, bufferD}, {bufferInputDelta}, 0,
        [inputW, inputH, inputDepth], BackpropInputDeltaConstants())
      ensures V.PipelineIs(gpu.pipelines[backpropParamDeltasShader], {statusBuffer, inputBuffer, bufferD},
        {bufferDeltaK, bufferDeltaB}, 0, [kernelW * kernelH, inputDepth, depth],
        BackpropParamDeltasConstants())
      ensures V.PipelineIs(gpu.pipelines[updateParamsShader], {statusBuffer}, {bufferK, bufferB, bufferDeltaK, bufferDeltaB}, 0,
        [kernelW * kernelH, inputDepth, depth], UpdateParamsConstants(floatBits))
      ensures gpu.buffers == old(gpu.buffers) && gpu.recorded == old(gpu.recorded)
      ensures gpu.activeBuffers == old(gpu.activeBuffers) && gpu.submitted == old(gpu.submitted)
      ensures gpu.startedRecording == old(gpu.startedRecording)
    {
      ghost var n := |gpu.pipelines|;
      backpropInputDeltaShader := CreateBackpropInputDeltaShader();
      ghost var p0 := gpu.pipelines[n];
      backpropParamDeltasShader := CreateBackpropParamDeltasShader(statusBuffer, inputBuffer);
      ghost var p1 := gpu.pipelines[n + 1];
      assert gpu.pipelines[n] == p0;
      updateParamsShader := CreateUpdateParamsShader(statusBuffer, floatBits);
      assert gpu.pipelines[n] == p0 && gpu.pipelines[n + 1] == p1;
    }

    /** The evaluation shader's constants: the kernel's width and height and the input depth. */
    function EvalForwardConstants(): seq<V.SpecializationConstant> {
      [Uint(kernelW), Uint(kernelH), Uint(inputDepth)]
    }

    /**
     * The training shader's constants: the evaluation shader's, whether the
     * layer is the first, and the dropout rate as the bits of a `float`.
     */
    function TrainForwardConstants(floatBits: real -> nat): seq<V.SpecializationConstant> {
      EvalForwardConstants() + [Bool(isFirstLayer), Float(floatBits(dropoutRate))]
    }

    /** The input delta shader's constants: the kernel's extents and the layer depth. */
    function BackpropInputDeltaConstants(): seq<V.SpecializationConstant> {
      [Uint(kernelW), Uint(kernelH), Uint(inputDepth), Uint(depth)]
    }

    /** The parameter delta shader's constants: the output and input extents and whether the layer is the first. */
    function BackpropParamDeltasConstants(): seq<V.SpecializationConstant>
      requires KernelFits()
    {
      [Uint(OutputSize()[0]), Uint(OutputSize()[1]), Uint(inputW), Uint(inputH), Uint(inputDepth), Bool(isFirstLayer)]
    }

    /** The update shader's constants: the kernel's extents, then the learn rate and its decay as `float` bits. */
    function UpdateParamsConstants(floatBits: real -> nat): seq<V.SpecializationConstant> {
      [Uint(kernelW), Uint(kernelH), Uint(inputDepth), Float(floatBits(learnRate)), Float(floatBits(learnRateDecay))]
    }

    method CreateEvalForwardShader(inputBuffer: nat) returns (h: nat)
      requires Valid() && gpu.Valid() && gpu.LimitsPositive() && Allocated() && inputBuffer < |gpu.buffers|
      modifies gpu
      ensures gpu.Valid() && h == old(|gpu.pipelines|) && |gpu.pipelines| == h + 1 && old(gpu.pipelines) <= gpu.pipelines
      ensures V.PipelineIs(gpu.pipelines[h], {inputBuffer, bufferK, bufferB}, {bufferA}, 0, OutputSize(), EvalForwardConstants())
      ensures gpu.buffers == old(gpu.buffers) && gpu.recorded == old(gpu.recorded)
      ensures gpu.activeBuffers == old(gpu.activeBuffers) && gpu.submitted == old(gpu.submitted)
      ensures gpu.startedRecording == old(gpu.startedRecording)
    {
      var bindings := [V.BufferBinding(inputBuffer, V.Read), V.BufferBinding(bufferK, V.Read),
        V.BufferBinding(bufferB, V.Read), V.BufferBinding(bufferA, V.Write)];
      var constants := EvalForwardConstants();
      h := AddShader(gpu, bindings, constants, 0, [OutputSize()[0], OutputSize()[1], depth]);
    }

    method CreateTrainForwardShader(statusBuffer: nat, inputBuffer: nat, floatBits: real -> nat) returns (h: nat)
      requires Valid() && gpu.Valid() && gpu.LimitsPositive() && Allocated()
      requires inputBuffer < |gpu.buffers| && statusBuffer < |gpu.buffers|
      modifies gpu
      ensures gpu.Valid() && h == old(|gpu.pipelines|) && |gpu.pipelines| == h + 1 && old(gpu.pipelines) <= gpu.pipelines
      ensures V.PipelineIs(gpu.pipelines[h], {statusBuffer, inputBuffer, bufferK, bufferB}, {bufferZ, bufferA}, 4, OutputSize(),
        TrainForwardConstants(floatBits))
      ensures gpu.buffers == old(gpu.buffers) && gpu.recorded == old(gpu.recorded)
      ensures gpu.activeBuffers == old(gpu.activeBuffers) && gpu.submitted == old(gpu.submitted)
      ensures gpu.startedRecording == old(gpu.startedRecording)
    {
      var bindings := [V.BufferBinding(statusBuffer, V.Read), V.BufferBinding(inputBuffer, V.Read),
        V.BufferBinding(bufferK, V.Read), V.BufferBinding(bufferB, V.Read),
        V.BufferBinding(bufferZ, V.Write), V.BufferBinding(bufferA, V.Write)];
      var constants := TrainForwardConstants(floatBits);
      h := AddShader(gpu, bindings, constants, 4, [OutputSize()[0], OutputSize()[1], depth]);
    }

    method CreateBackpropDeltaShader(nextInputDelta: nat) returns (h: nat)
      requires Valid() && gpu.Valid() && gpu.LimitsPositive() && Allocated() && nextInputDelta < |gpu.buffers|
      modifies gpu
      ensures gpu.Valid() && h == old(|gpu.pipelines|) && |gpu.pipelines| == h + 1 && old(gpu.pipelines) <= gpu.pipelines
      ensures V.PipelineIs(gpu.pipelines[h], {bufferZ, nextInputDelta}, {bufferD}, 0, OutputSize(), [])
      ensures gpu.buffers == old(gpu.buffers) && gpu.recorded == old(gpu.recorded)
      ensures gpu.activeBuffers == old(gpu.activeBuffers) && gpu.submitted == old(gpu.submitted)
      ensures gpu.startedRecording == old(gpu.startedRecording)
    {
      var bindings := [V.BufferBinding(bufferZ, V.Read), V.BufferBinding(bufferD, V.Write),
        V.BufferBinding(nextInputDelta, V.Read)];
      h := AddShader(gpu, bindings, [], 0, [OutputSize()[0], OutputSize()[1], depth]);
    }

    method CreateBackpropInputDeltaShader() returns (h: nat)
      requires Valid() && gpu.Valid() && gpu.LimitsPositive() && Allocated()
      modifies gpu
      ensures gpu.Valid() && h == old(|gpu.pipelines|) && |gpu.pipelines| == h + 1 && old(gpu.pipelines) <= gpu.pipelines
      ensures V.PipelineIs(gpu.pipelines[h], {bufferK, bufferD}, {bufferInputDelta}, 0, [inputW, inputH, inputDepth],
        BackpropInputDeltaConstants())
      ensures gpu.buffers == old(gpu.buffers) && gpu.recorded == old(gpu.recorded)
      ensures gpu.activeBuffers == old(gpu.activeBuffers) && gpu.submitted == old(gpu.submitted)
      ensures gpu.startedRecording == old(gpu.startedRecording)
    {
      var bindings := [V.BufferBinding(bufferK, V.Read), V.BufferBinding(bufferD, V.Read),
        V.BufferBinding(bufferInputDelta, V.Write)];
      var constants := BackpropInputDeltaConstants();
      h := AddShader(gpu, bindings, constants, 0, [inputW, inputH, inputDepth]);
    }

    method CreateBackpropParamDeltasShader(statusBuffer: nat, inputBuffer: nat) returns (h: nat)
      requires Valid() && gpu.Valid() && gpu.LimitsPositive() && Allocated()
      requires inputBuffer < |gpu.buffers| && statusBuffer < |gpu.buffers|
      modifies gpu
      ensures gpu.Valid() && h == old(|gpu.pipelines|) && |gpu.pipelines| == h + 1 && old(gpu.pipelines) <= gpu.pipelines
      ensures V.PipelineIs(gpu.pipelines[h], {statusBuffer, inputBuffer, bufferD}, {bufferDeltaK, bufferDeltaB}, 0,
        [kernelW * kernelH, inputDepth, depth], BackpropParamDeltasConstants())
      ensures gpu.buffers == old(gpu.buffers) && gpu.recorded == old(gpu.recorded)
      ensures gpu.activeBuffers == old(gpu.activeBuffers) && gpu.submitted == old(gpu.submitted)
      ensures gpu.startedRecording == old(gpu.startedRecording)
    {
      var bindings := [V.BufferBinding(statusBuffer, V.Read), V.BufferBinding(inputBuffer, V.Read),
        V.BufferBinding(bufferD, V.Read), V.BufferBinding(bufferDeltaK, V.Write),
        V.BufferBinding(bufferDeltaB, V.Write)];
      var constants := BackpropParamDeltasConstants();
      h := AddShader(gpu, bindings, constants, 0, [kernelW * kernelH, inputDepth, depth]);
    }

    method CreateUpdateParamsShader(statusBuffer: nat, floatBits: real -> nat) returns (h: nat)
      requires Valid() && gpu.Valid() && gpu.LimitsPositive() && Allocated() && statusBuffer < |gpu.buffers|
      modifies gpu
      ensures gpu.Valid() && h == old(|gpu.pipelines|) && |gpu.pipelines| == h + 1 && old(gpu.pipelines) <= gpu.pipelines
      ensures V.PipelineIs(gpu.pipelines[h], {statusBuffer}, {bufferK, bufferB, bufferDeltaK, bufferDeltaB}, 0,
        [kernelW * kernelH, inputDepth, depth], UpdateParamsConstants(floatBits))
      ensures gpu.buffers == old(gpu.buffers) && gpu.recorded == old(gpu.recorded)
      ensures gpu.activeBuffers == old(gpu.activeBuffers) && gpu.submitted == old(gpu.submitted)
      ensures gpu.startedRecording == old(gpu.startedRecording)
    {
      var bindings := [V.BufferBinding(statusBuffer, V.Read), V.BufferBinding(bufferK, V.Write),
        V.BufferBinding(bufferB, V.Write), V.BufferBinding(bufferDeltaK, V.Write),
        V.BufferBinding(bufferDeltaB, V.Write)];
      var constants := UpdateParamsConstants(floatBits);
      h := AddShader(gpu, bindings, constants, 0, [kernelW * kernelH, inputDepth, depth]);
    }

    /** `evalForward`: one dispatch of the evaluation shader. */
    method EvalForward()
      requires gpu.Valid() && ShadersCreated()
      modifies gpu
      ensures gpu.Valid() && V.Appended(old(gpu.recorded), gpu.recorded, [evalForwardShader])
      ensures gpu.buffers == old(gpu.buffers) && gpu.pipelines == old(gpu.pipelines) && gpu.submitted == old(gpu.submitted)
    {
      gpu.QueueShader(evalForwardShader);
    }

    /** `trainForward`: one dispatch of the training shader (its random seed is not modelled). */
    method TrainForward()
      requires gpu.Valid() && ShadersCreated()
      modifies gpu
      ensures gpu.Valid() && V.Appended(old(gpu.recorded), gpu.recorded, [trainForwardShader])
      ensures gpu.buffers == old(gpu.buffers) && gpu.pipelines == old(gpu.pipelines) && gpu.submitted == old(gpu.submitted)
    {
      gpu.QueueShader(trainForwardShader);
    }

    /** `backprop`: the delta, input delta and gradient shaders, in that order. */
    method Backprop()
      requires gpu.Valid() && ShadersCreated()
      modifies gpu
      ensures gpu.Valid()
      ensures V.Appended(old(gpu.recorded), gpu.recorded, [backpropDeltaShader, backpropInputDeltaShader, backpropParamDeltasShader])
      ensures gpu.buffers == old(gpu.buffers) && gpu.pipelines == old(gpu.pipelines) && gpu.submitted == old(gpu.submitted)
    {
      gpu.QueueShader(backpropDeltaShader);
      gpu.QueueShader(backpropInputDeltaShader);
      gpu.QueueShader(backpropParamDeltasShader);
    }

    /** `updateParams`: one dispatch of the update shader. */
    method UpdateParams()
      requires gpu.Valid() && ShadersCreated()
      modifies gpu
      ensures gpu.Valid() && V.Appended(old(gpu.recorded), gpu.recorded, [updateParamsShader])
      ensures gpu.buffers == old(gpu.buffers) && gpu.pipelines == old(gpu.pipelines) && gpu.submitted == old(gpu.submitted)
    {
      gpu.QueueShader(updateParamsShader);
    }

    /** `outputBuffer`. */
    function OutputBuffer(): nat
      reads this
    {
      bufferA
    }

    /** `weightsBuffer`. */
    function WeightsBuffer(): nat
      reads this
    {
      bufferK
    }

    /** `deltaBuffer`. */
    function DeltaBuffer(): nat
      reads this
    {
      bufferD
    }

    /** `inputDeltaBuffer`. */
    function InputDeltaBuffer(): nat
      reads this
    {
      bufferInputDelta
    }

    /**
     * `retrieveBuffers`: the kernels and biases are copied back from the
     * device; `K` and `B` are what the device buffers hold.
     */
    method RetrieveBuffers(K: seq<real>, B: seq<real>)
      requires Valid() && |K| == |kernelData| && |B| == |biasData|
      modifies this`kernelData, this`biasData
      ensures Valid() && kernelData == K && biasData == B
    {
      kernelData := K;
      biasData := B;
    }

    /** `test_setKernels`, for arrays of the layer's size. */
    method SetKernels(K: seq<real>)
      requires Valid() && |K| == |kernelData|
      modifies this`kernelData
      ensures Valid() && kernelData == K
    {
      kernelData := K;
    }

    /** `test_setBiases`, for arrays of the layer's size. */
    method SetBiases(B: seq<real>)
      requires Valid() && |B| == |biasData|
      modifies this`biasData
      ensures Valid() && biasData == B
    {
      biasData := B;
    }
  }
}
