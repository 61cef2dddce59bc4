/**
 * The GPU max-pooling layer (librichard/src/gpu/max_pooling_layer.cpp): the
 * same region geometry as the CPU layer, with the activations, the mask and
 * the input delta held in device buffers and the pooling done by three
 * shaders. The layer has no parameters, so it has no weights or delta
 * buffer, and updating, retrieving and writing its parameters do nothing.
 */
module GpuMaxPooling {
  import opened Wrappers
  import opened Utils
  import Cfg = Config
  import Layers
  import opened Pooling
  import V = Vulkan

  /** Every shader of the layer gets the region size as its two specialisation constants. */
  function RegionConstants(regionW: nat, regionH: nat): (r: seq<V.SpecializationConstant>)
    ensures |r| == 2 && forall k | 0 <= k < |r| :: V.WellTyped(r[k])
    ensures r[0].value == V.UintValue(regionW % V.U32) && r[1].value == V.UintValue(regionH % V.U32)
  {
    [V.SpecializationConstant(V.UintType, V.UintValue(regionW % V.U32)),
     V.SpecializationConstant(V.UintType, V.UintValue(regionH % V.U32))]
  }

  /** Regions that tile the input leave one output value per `regionW * regionH` input values. */
  lemma Tiling(g: Geometry)
    requires g.Valid()
    ensures g.OutputSize() * (g.regionW * g.regionH) == g.InputSize()
  {
    DivExact(g.inputW, g.regionW);
    DivExact(g.inputH, g.regionH);
    var w, h := g.OutW(), g.OutH();
    calc {
      g.OutputSize() * (g.regionW * g.regionH);
      (w * h * g.depth) * (g.regionW * g.regionH);
      { MulRearrange(w, h, g.depth, g.regionW, g.regionH); }
      (w * g.regionW) * (h * g.regionH) * g.depth;
      g.inputW * g.inputH * g.depth;
    }
  }

  /** Regrouping the factors of the input size: `w*h*d` cells times the region area is `(w*rw) * (h*rh) * d`. */
  lemma MulRearrange(w: nat, h: nat, d: nat, rw: nat, rh: nat)
    ensures (w * h * d) * (rw * rh) == (w * rw) * (h * rh) * d
  {
  }

  class MaxPoolingLayer {
    const gpu: V.Vulkan
    const inputW: nat
    const inputH: nat
    const inputDepth: nat
    const regionW: nat
    const regionH: nat

    var bufferZ: nat
    var bufferInputDelta: nat
    var bufferMask: nat

    var evalForwardShader: nat
    var trainForwardShader: nat
    var backpropShader: nat

    function Shape(): Geometry {
      Geometry(inputW, inputH, inputDepth, regionW, regionH)
    }

    /** The constructor's assertions: the region divides the input. */
    predicate Valid() {
      Shape().Valid()
    }

    function InputSize(): nat {
      inputW * inputH * inputDepth
    }

    /** The three buffers exist. */
    ghost predicate Allocated()
      reads this, gpu
    {
      bufferZ < |gpu.buffers| && bufferInputDelta < |gpu.buffers| && bufferMask < |gpu.buffers|
    }

    /** The three pipelines exist. */
    ghost predicate ShadersCreated()
      reads this, gpu
    {
      evalForwardShader < |gpu.pipelines| && trainForwardShader < |gpu.pipelines| &&
      backpropShader < |gpu.pipelines|
    }

    constructor (gpu: V.Vulkan, g: Geometry)
      requires g.Valid()
      ensures this.gpu == gpu && Shape() == g && Valid()
    {
      this.gpu := gpu;
      inputW, inputH, inputDepth, regionW, regionH := g.inputW, g.inputH, g.depth, g.regionW, g.regionH;
    }

    /**
     * Construction: reads "regionSize" and fails, width first, unless the
     * region divides the input. A zero region size has no defined outcome
     * in the source (a remainder by zero), so the caller must not give one.
     */
    static method Create(gpu: V.Vulkan, config: Cfg.Config, inputShape: Size3) returns (r: Result<MaxPoolingLayer>)
      requires "regionSize" in config.entries ==>
        Layers.SizePairOf(config, "regionSize").0 > 0 && Layers.SizePairOf(config, "regionSize").1 > 0
      ensures "regionSize" !in config.entries ==> r == Err(Cfg.NotFound("regionSize"))
      ensures "regionSize" in config.entries ==>
        var (rW, rH) := Layers.SizePairOf(config, "regionSize");
        (r.Ok? <==> inputShape[0] % rW == 0 && inputShape[1] % rH == 0) &&
        (inputShape[0] % rW != 0 ==> r == Err(RegionWidthError(rW, inputShape[0]))) &&
        (inputShape[0] % rW == 0 && inputShape[1] % rH != 0 ==> r == Err(RegionHeightError(rH, inputShape[1]))) &&
        (r.Ok? ==>
          fresh(r.value) && r.value.gpu == gpu && r.value.Valid() &&
          r.value.Shape() == Geometry(inputShape[0], inputShape[1], inputShape[2], rW, rH))
    {
      var regionSize :- Layers.GetSizePair(config, "regionSize");
      var (rW, rH) := regionSize;
      if inputShape[0] % rW != 0 {
        return Err(RegionWidthError(rW, inputShape[0]));
      }
      if inputShape[1] % rH != 0 {
        return Err(RegionHeightError(rH, inputShape[1]));
      }
      var layer := new MaxPoolingLayer(gpu, Geometry(inputShape[0], inputShape[1], inputShape[2], rW, rH));
      return Ok(layer);
    }

    /** `outputSize`: one cell per region, as deep as the input. */
    function OutputSize(): (r: Size3)
      requires Valid()
      ensures r[0] * regionW == inputW && r[1] * regionH == inputH && r[2] == inputDepth
    {
      DivExact(inputW, regionW);
      DivExact(inputH, regionH);
      [inputW / regionW, inputH / regionH, inputDepth]
    }

    /**
     * `size`: the number of output values, the size of the CPU layer's
     * activations; each stands for `regionW * regionH` input values.
     */
    function Size(): (n: nat)
      requires Valid()
      ensures n == Shape().OutputSize()
      ensures n * (regionW * regionH) == InputSize()
    {
      Tiling(Shape());
      CalcProduct(OutputSize())
    }

    /**
     * `allocateGpuBuffers`: the activations, then the input delta and the
     * mask, which are as large as the input.
     */
    method AllocateGpuBuffers()
      requires Valid() && gpu.Valid()
      modifies this`bufferZ, this`bufferInputDelta, this`bufferMask, gpu
      ensures gpu.Valid() && Allocated()
      ensures bufferZ == old(|gpu.buffers|) && bufferInputDelta == bufferZ + 1 && bufferMask == bufferZ + 2
      ensures gpu.buffers == old(gpu.buffers) + [V.NewBuffer(Layers.Bytes(Size()), V.Large),
        V.NewBuffer(Layers.Bytes(InputSize()), V.Large), V.NewBuffer(Layers.Bytes(InputSize()), V.Large)]
      ensures gpu.pipelines == old(gpu.pipelines) && gpu.recorded == old(gpu.recorded)
      ensures gpu.activeBuffers == old(gpu.activeBuffers) && gpu.submitted == old(gpu.submitted)
      ensures gpu.startedRecording == old(gpu.startedRecording)
    {
      var inputSize := InputSize();
      bufferZ := gpu.AllocateBuffer(Layers.Bytes(Size()), V.Large);
      bufferInputDelta := gpu.AllocateBuffer(Layers.Bytes(inputSize), V.Large);
      bufferMask := gpu.AllocateBuffer(Layers.Bytes(inputSize), V.Large);
    }

    /**
     * `createGpuShaders`, in the source's order. The next layer must exist
     * (checked only by a debug assertion in the source); its input delta
     * buffer is what the backprop shader reads. The status buffer and the
     * sample-labels buffer the source passes are not used.
     */
    method CreateGpuShaders(inputBuffer: nat, nextInputDelta: nat)
      requires Valid() && gpu.Valid() && gpu.LimitsPositive() && Allocated()
      requires inputBuffer < |gpu.buffers| && nextInputDelta < |gpu.buffers|
      modifies this`evalForwardShader, this`trainForwardShader, this`backpropShader, gpu
      ensures gpu.Valid() && Allocated() && ShadersCreated()
      ensures |gpu.pipelines| == old(|gpu.pipelines|) + 3 && old(gpu.pipelines) <= gpu.pipelines
      ensures evalForwardShader == old(|gpu.pipelines|) && trainForwardShader == evalForwardShader + 1 &&
        backpropShader == evalForwardShader + 2
      ensures V.PipelineIs(gpu.pipelines[evalForwardShader], {inputBuffer}, {bufferZ}, 0, OutputSize(),
        RegionConstants(regionW, regionH))
      ensures V.PipelineIs(gpu.pipelines[trainForwardShader], {inputBuffer}, {bufferZ, bufferMask}, 0, OutputSize(),
        RegionConstants(regionW, regionH))
      ensures V.PipelineIs(gpu.pipelines[backpropShader], {nextInputDelta, bufferMask}, {bufferInputDelta}, 0, OutputSize(),
        RegionConstants(regionW, regionH))
      ensures gpu.buffers == old(gpu.buffers) && gpu.recorded == old(gpu.recorded)
      ensures gpu.activeBuffers == old(gpu.activeBuffers) && gpu.submitted == old(gpu.submitted)
      ensures gpu.startedRecording == old(gpu.startedRecording)
    {
      ghost var n := |gpu.pipelines|;
      evalForwardShader := AddPoolingShader([V.BufferBinding(inputBuffer, V.Read), V.BufferBinding(bufferZ, V.Write)]);
      ghost var p0 := gpu.pipelines[n];
      trainForwardShader := AddPoolingShader([V.BufferBinding(inputBuffer, V.Read),
        V.BufferBinding(bufferZ, V.Write), V.BufferBinding(bufferMask, V.Write)]);
      ghost var p1 := gpu.pipelines[n + 1];
      assert gpu.pipelines[n] == p0;
      backpropShader := AddPoolingShader([V.BufferBinding(nextInputDelta, V.Read),
        V.BufferBinding(bufferMask, V.Read), V.BufferBinding(bufferInputDelta, V.Write)]);
      assert gpu.pipelines[n] == p0 && gpu.pipelines[n + 1] == p1;
    }

    /**
     * What the three `create...Shader` methods share: the region size as the
     * constants, no push constants, and one invocation per output value.
     */
    method AddPoolingShader(bindings: seq<V.BufferBinding>) returns (h: nat)
      requires Valid() && gpu.Valid() && gpu.LimitsPositive()
      requires forall k | 0 <= k < |bindings| :: bindings[k].buffer < |gpu.buffers|
      modifies gpu
      ensures gpu.Valid() && h == old(|gpu.pipelines|) && |gpu.pipelines| == h + 1 && old(gpu.pipelines) <= gpu.pipelines
      ensures V.PipelineIs(gpu.pipelines[h], V.Reads(bindings), V.Writes(bindings), 0, OutputSize(),
        RegionConstants(regionW, regionH))
      ensures gpu.buffers == old(gpu.buffers) && gpu.recorded == old(gpu.recorded)
      ensures gpu.activeBuffers == old(gpu.activeBuffers) && gpu.submitted == old(gpu.submitted)
      ensures gpu.startedRecording == old(gpu.startedRecording)
    {
      var constants := RegionConstants(regionW, regionH);
      var r := gpu.AddShader(bindings, constants, 0, OutputSize());
      h := r.value;
    }

    /** `evalForward`: one dispatch of the evaluation shader. */
    method EvalForward()
      requires gpu.Valid() && ShadersCreated()
      modifies gpu
      ensures gpu.Valid() && V.Appended(old(gpu.recorded), gpu.recorded, [evalForwardShader])
      ensures gpu.buffers == old(gpu.buffers) && gpu.pipelines == old(gpu.pipelines) && gpu.submitted == old(gpu.submitted)
    {
      gpu.QueueShader(evalForwardShader);
    }

    /** `trainForward`: one dispatch of the training shader, which also writes the mask. */
    method TrainForward()
      requires gpu.Valid() && ShadersCreated()
      modifies gpu
      ensures gpu.Valid() && V.Appended(old(gpu.recorded), gpu.recorded, [trainForwardShader])
      ensures gpu.buffers == old(gpu.buffers) && gpu.pipelines == old(gpu.pipelines) && gpu.submitted == old(gpu.submitted)
    {
      gpu.QueueShader(trainForwardShader);
    }

    /** `backprop`: one dispatch of the backprop shader. */
    method Backprop()
      requires gpu.Valid() && ShadersCreated()
      modifies gpu
      ensures gpu.Valid() && V.Appended(old(gpu.recorded), gpu.recorded, [backpropShader])
      ensures gpu.buffers == old(gpu.buffers) && gpu.pipelines == old(gpu.pipelines) && gpu.submitted == old(gpu.submitted)
    {
      gpu.QueueShader(backpropShader);
    }

    /** `updateParams`: the layer has no parameters, so nothing is queued and nothing changes. */
    method UpdateParams()
      ensures unchanged(this) && unchanged(gpu)
    {
    }

    /** `retrieveBuffers`: there are no parameters to copy back. */
    method RetrieveBuffers()
      ensures unchanged(this) && unchanged(gpu)
    {
    }

    /** `writeToStream`: the layer writes nothing. */
    method WriteToStream(stream: seq<real>) returns (out: seq<real>)
      ensures out == stream
    {
      out := stream;
    }

    /** `outputBuffer`: the activations. */
    function OutputBuffer(): nat
      reads this
    {
      bufferZ
    }

    /** `weightsBuffer`: always an error. */
    function WeightsBuffer(): (r: Result<nat>)
      ensures r.Err? && r.message == "Max pooling layer does not have a weights buffer"
    {
      Err("Max pooling layer does not have a weights buffer")
    }

    /** `deltaBuffer`: always an error. */
    function DeltaBuffer(): (r: Result<nat>)
      ensures r.Err? && r.message == "Max pooling layer does not have a delta buffer"
    {
      Err("Max pooling layer does not have a delta buffer")
    }

    /** `inputDeltaBuffer`. */
    function InputDeltaBuffer(): nat
      reads this
    {
      bufferInputDelta
    }

    /** `test_maskBuffer`. */
    function MaskBuffer(): nat
      reads this
    {
      bufferMask
    }
  }
}
