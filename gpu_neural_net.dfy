/**
 * The GPU network (librichard/src/gpu/gpu_neural_net.cpp): the layers built
 * from the configuration, the buffers the network shares with its layers,
 * and the training loop that feeds the GPU one mini-batch at a time.
 *
 * As for the CPU network, training is modelled as the record of what the
 * network does, in order: the calls it makes on its layers, the buffers it
 * allocates and fills, the shader work it queues and flushes, the calls it
 * makes on the data set and the events it raises. Buffers are named by what
 * they hold rather than by their handles.
 */
module GpuNeuralNet {
  import opened Wrappers
  import opened Utils
  import Cfg = Config
  import Layers
  import opened NeuralNets
  import V = Vulkan
  import Dense = DenseLayers
  import Conv = GpuConvolution
  import Pool = GpuMaxPooling

  /**
   * A layer of the network. The GPU convolutional and max-pooling layers are
   * the classes of their own modules; the GPU dense and output layers are
   * not part of this model and appear as their input and output sizes.
   */
  datatype Layer =
    | DenseLayer(inputSize: nat, size: nat)
    | ConvLayer(conv: Conv.ConvolutionalLayer)
    | PoolLayer(pool: Pool.MaxPoolingLayer)
    | OutputLayer(inputSize: nat, size: nat)
  {
    function Type(): Layers.LayerType {
      match this
      case DenseLayer(_, _) => Layers.Dense
      case ConvLayer(_) => Layers.Convolutional
      case PoolLayer(_) => Layers.MaxPooling
      case OutputLayer(_, _) => Layers.Output
    }

    /** What the layer's constructor asserts about its shape. */
    predicate Shaped() {
      match this
      case ConvLayer(c) => c.KernelFits()
      case PoolLayer(p) => p.Valid()
      case _ => true
    }

    /** The layer was built for input of shape `s`. */
    predicate Accepts(s: Size3) {
      match this
      case DenseLayer(inputSize, _) => inputSize == CalcProduct(s)
      case ConvLayer(c) => [c.inputW, c.inputH, c.inputDepth] == s
      case PoolLayer(p) => [p.inputW, p.inputH, p.inputDepth] == s
      case OutputLayer(inputSize, _) => inputSize == CalcProduct(s)
    }

    /** `outputSize`. */
    function OutputSize(): Size3
      requires Shaped()
    {
      match this
      case DenseLayer(_, size) => [size, 1, 1]
      case ConvLayer(c) => c.OutputSize()
      case PoolLayer(p) => p.OutputSize()
      case OutputLayer(_, size) => [size, 1, 1]
    }
  }

  /**
   * Each layer was built for `shapes[i]`: the first for `input`, every other
   * for the shape the layer before it outputs.
   */
  predicate Chained(layers: seq<Layer>, shapes: seq<Size3>, input: Size3) {
    |shapes| == |layers| && (|layers| > 0 ==> shapes[0] == input) &&
    (forall i | 0 <= i < |layers| :: layers[i].Shaped() && layers[i].Accepts(shapes[i])) &&
    (forall i | 0 <= i < |layers| - 1 :: shapes[i + 1] == layers[i].OutputSize())
  }

  /** Layer `j` has the type that hidden-layer configuration `j` names. */
  predicate NamedAs(hidden: seq<Cfg.ConfigData>, layers: seq<Layer>) {
    |layers| <= |hidden| &&
    forall j | 0 <= j < |layers| :: TypeNameOf(hidden[j]) == Some(ConfigName(layers[j].Type()))
  }

  /** A layer of the type the next configuration names extends the match. */
  lemma NamedAppend(hidden: seq<Cfg.ConfigData>, layers: seq<Layer>, layer: Layer)
    requires NamedAs(hidden, layers) && |layers| < |hidden|
    requires TypeNameOf(hidden[|layers|]) == Some(ConfigName(layer.Type()))
    ensures NamedAs(hidden, layers + [layer])
  {
    assert forall j | 0 <= j < |layers| :: (layers + [layer])[j] == layers[j];
  }

  /** A layer built for the shape the chain ends with extends the chain. */
  lemma ChainedAppend(layers: seq<Layer>, shapes: seq<Size3>, input: Size3, layer: Layer, prev: Size3)
    requires Chained(layers, shapes, input) && layer.Shaped() && layer.Accepts(prev)
    requires prev == if |layers| == 0 then input else layers[|layers| - 1].OutputSize()
    ensures Chained(layers + [layer], shapes + [prev], input)
  {
    var ls := layers + [layer];
    forall i | 0 <= i < |ls|
      ensures ls[i].Shaped() && ls[i].Accepts((shapes + [prev])[i])
    {
      if i < |layers| {
        assert ls[i] == layers[i];
      }
    }
  }

  /*
   * Buffers and shaders.
   */

  /** The bytes of `StatusBuffer`: two `uint32_t` fields, the epoch and the sample index. */
  const StatusBytes: nat := 8

  /** The flags of the sample and label buffers, which the host fills. */
  const SampleFlags: V.GpuBufferFlags := V.FrequentHostAccess | V.Large | V.HostWriteAccess

  /** The flags of the status buffer, which the host writes and reads. */
  const StatusFlags: V.GpuBufferFlags := V.FrequentHostAccess | V.HostReadAccess | V.HostWriteAccess

  /** The flags of the costs buffer, which the host zeroes and reads. */
  const CostsFlags: V.GpuBufferFlags := V.FrequentHostAccess | V.Large | V.HostReadAccess

  /**
   * The asserts of `allocateGpuResources` hold: the sample, label, status
   * and costs buffers are all memory mapped and host-visible.
   */
  lemma ResourceBuffersMapped(mappedIn: bool)
    ensures forall f | f in {SampleFlags, StatusFlags, CostsFlags} ::
      V.ChooseBufferFlags(f, mappedIn).memoryMapped && V.HostVisible in V.ChooseBufferFlags(f, mappedIn).memProps
  {
    assert V.Has(SampleFlags, V.FrequentHostAccess);
    assert V.Has(StatusFlags, V.FrequentHostAccess);
    assert V.Has(CostsFlags, V.FrequentHostAccess);
  }

  /** The buffers the network binds: its own four and each layer's output buffer. */
  datatype Buffer = BufferX | BufferY | StatusBuffer | CostsBuffer | LayerOutput(layer: nat)

  datatype Binding = Binding(buffer: Buffer, mode: V.BufferAccessMode)

  /** One thing the network does. */
  datatype Step =
    | Allocate(buffer: Buffer, bytes: nat, flags: V.GpuBufferFlags)
    | AllocateLayerBuffers(layer: nat)
    | CreateShaders(layer: nat, input: Buffer, status: Buffer, next: Option<nat>, labels: Buffer)
    | AddCostsShader(bindings: seq<Binding>, constants: seq<V.SpecializationConstant>, workSize: Size3)
    | EpochStarted(epoch: nat, epochs: nat)
    | ZeroCosts
    | SetStatus(epoch: nat, sampleIndex: nat)
    | ResetSampleIndex
    | LoadSamples
    | CopySample(index: nat, xOffset: nat, yOffset: nat)
    | TrainForward(layer: nat)
    | Backprop(layer: nat)
    | QueueCosts
    | UpdateParams(layer: nat)
    | FlushQueue
    | SampleProcessed(sample: int, samples: nat)
    | EpochCompleted(epoch: nat, epochs: nat)
    | SeekToBeginning
    | RetrieveBuffers(layer: nat)
    | CopyInput(count: nat)
    | EvalForward(layer: nat)
    | WriteLayer(layer: nat)

  /** The buffer layer `i` reads: the samples for the first layer, the previous layer's output otherwise. */
  function InputOf(i: nat): Buffer {
    if i == 0 then BufferX else LayerOutput(i - 1)
  }

  /** The layer after layer `i` of `n`, none for the last. */
  function NextOf(n: nat, i: nat): Option<nat> {
    if i + 1 == n then None else Some(i + 1)
  }

  /** The `createGpuShaders` calls, in layer order. */
  function ShaderSteps(n: nat): seq<Step> {
    seq(n, i requires 0 <= i < n => CreateShaders(i, InputOf(i), StatusBuffer, NextOf(n, i), BufferY))
  }

  /** What the costs shader binds: it writes the status and costs, and reads the output and labels. */
  function CostsBindings(n: nat): seq<Binding>
    requires n > 0
  {
    [Binding(StatusBuffer, V.Write), Binding(LayerOutput(n - 1), V.Read),
     Binding(BufferY, V.Read), Binding(CostsBuffer, V.Write)]
  }

  /**
   * `allocateGpuResources`: the sample, label and status buffers, each
   * layer's buffers, each layer's shaders, then the costs buffer and the
   * costs shader, one invocation per output value.
   */
  function ResourceSteps(n: nat, miniBatchSize: nat, inputSize: nat, outputSize: nat): seq<Step>
    requires n > 0
  {
    [Allocate(BufferX, Layers.Bytes(miniBatchSize * inputSize), SampleFlags),
     Allocate(BufferY, Layers.Bytes(miniBatchSize * outputSize), SampleFlags),
     Allocate(StatusBuffer, StatusBytes, StatusFlags)] +
    seq(n, i requires 0 <= i < n => AllocateLayerBuffers(i)) +
    ShaderSteps(n) +
    [Allocate(CostsBuffer, Layers.Bytes(outputSize), CostsFlags),
     AddCostsShader(CostsBindings(n), [Conv.Uint(miniBatchSize)], [outputSize, 1, 1])]
  }

  /**
   * The layers form a pipeline: every layer but the first reads the output
   * buffer of the layer before it, whose next layer it is, and only the last
   * layer has no next layer.
   */
  lemma ShadersChained(n: nat, i: nat)
    requires i < n
    ensures 0 < i ==> (ShaderSteps(n)[i].input == LayerOutput(ShaderSteps(n)[i - 1].layer) &&
                       ShaderSteps(n)[i - 1].next == Some(ShaderSteps(n)[i].layer))
    ensures ShaderSteps(n)[i].next.None? <==> i == n - 1
    ensures i == 0 ==> ShaderSteps(n)[i].input == BufferX
  {
    if 0 < i {
      assert ShaderSteps(n)[i - 1].layer == i - 1;
    }
  }

  /*
   * Mini-batches.
   */

  /**
   * `loadSampleBuffers`: sample `cursor + i` of the fetch goes to byte
   * `i * xSize` of the sample buffer and its class vector to byte
   * `i * ySize` of the label buffer.
   */
  function CopySteps(cursor: nat, count: nat, xSize: nat, ySize: nat): seq<Step> {
    seq(count, i requires 0 <= i < count => CopySample(cursor + i, i * xSize, i * ySize))
  }

  /**
   * The copies of a mini-batch as the source makes them: always a whole
   * mini-batch from `cursor`, however many samples the fetch has left.
   */
  function CopiesAsWritten(cursor: nat, miniBatchSize: nat, xSize: nat, ySize: nat): (r: seq<Step>)
    ensures |r| == miniBatchSize
    ensures forall i | 0 <= i < miniBatchSize :: r[i].CopySample? && r[i].index == cursor + i
  {
    CopySteps(cursor, miniBatchSize, xSize, ySize)
  }

  /**
   * A fetch of 3 samples with mini-batches of 2: the loop runs a second
   * mini-batch from cursor 2, and it copies sample 3 of a fetch that has
   * only samples 0 to 2.
   */
  lemma ShortFetchOverread(xSize: nat, ySize: nat)
    ensures var size, miniBatchSize, cursor := 3, 2, 2;
      cursor < size && CopiesAsWritten(cursor, miniBatchSize, xSize, ySize)[1].index == size
  {
  }

  /** The samples left in a fetch of `size` from `cursor`. */
  function Left(size: nat, cursor: nat): nat {
    if cursor <= size then size - cursor else 0
  }

  /**
   * The copies of a mini-batch that reads only the samples the fetch has:
   * the whole mini-batch when the fetch holds it, the rest of the fetch
   * otherwise.
   */
  function Copies(size: nat, cursor: nat, miniBatchSize: nat, xSize: nat, ySize: nat): (r: seq<Step>)
    ensures |r| <= miniBatchSize && (cursor + miniBatchSize <= size ==> |r| == miniBatchSize)
    ensures cursor < size ==> |r| > 0 || miniBatchSize == 0
    ensures forall i | 0 <= i < |r| :: r[i].CopySample? && r[i].index == cursor + i && cursor + i < size
  {
    CopySteps(cursor, Min(miniBatchSize, Left(size, cursor)), xSize, ySize)
  }

  /** Every sample copy of `steps` reads one of the `size` samples of the fetch. */
  predicate ReadsWithin(steps: seq<Step>, size: nat) {
    forall i | 0 <= i < |steps| :: steps[i].CopySample? ==> steps[i].index < size
  }

  /**
   * The copies of a mini-batch read only samples the fetch has, and they are
   * the source's copies whenever the fetch holds a whole mini-batch.
   */
  lemma CopiesStayInFetch(size: nat, cursor: nat, miniBatchSize: nat, xSize: nat, ySize: nat)
    ensures ReadsWithin(Copies(size, cursor, miniBatchSize, xSize, ySize), size)
    ensures cursor + miniBatchSize <= size ==>
      Copies(size, cursor, miniBatchSize, xSize, ySize) == CopiesAsWritten(cursor, miniBatchSize, xSize, ySize)
  {
  }

  /**
   * The slots of a mini-batch fit the buffers `allocateGpuResources` sizes
   * for one mini-batch, and no two copies share bytes.
   */
  lemma CopiesFit(cursor: nat, count: nat, miniBatchSize: nat, inputSize: nat, outputSize: nat, i: nat, j: nat)
    requires count <= miniBatchSize && i < j < count
    ensures var steps := CopySteps(cursor, count, Layers.Bytes(inputSize), Layers.Bytes(outputSize));
      steps[j].xOffset + Layers.Bytes(inputSize) <= Layers.Bytes(miniBatchSize * inputSize) &&
      steps[j].yOffset + Layers.Bytes(outputSize) <= Layers.Bytes(miniBatchSize * outputSize) &&
      steps[i].xOffset + Layers.Bytes(inputSize) <= steps[j].xOffset &&
      steps[i].yOffset + Layers.Bytes(outputSize) <= steps[j].yOffset
  {
    var xSize, ySize := Layers.Bytes(inputSize), Layers.Bytes(outputSize);
    var steps := CopySteps(cursor, count, xSize, ySize);
    assert steps[i].xOffset == i * xSize && steps[j].xOffset == j * xSize;
    assert steps[i].yOffset == i * ySize && steps[j].yOffset == j * ySize;
    SlotFits(j, miniBatchSize, inputSize);
    SlotFits(j, miniBatchSize, outputSize);
    SlotsApart(i, j, xSize);
    SlotsApart(i, j, ySize);
  }

  /** Slot `i` of `b` bytes ends where a later slot `j` can start at the earliest. */
  lemma SlotsApart(i: nat, j: nat, b: nat)
    requires i < j
    ensures i * b + b <= j * b
  {
    MulLe(i + 1, j, b);
  }

  /** Slot `k` of a buffer of `m` slots of `size` values ends inside it. */
  lemma SlotFits(k: nat, m: nat, size: nat)
    requires k < m
    ensures k * Layers.Bytes(size) + Layers.Bytes(size) <= Layers.Bytes(m * size)
  {
    calc {
      k * Layers.Bytes(size) + Layers.Bytes(size);
      (k + 1) * (size * Layers.NetFloatSize);
    <= { MulLe(k + 1, m, size * Layers.NetFloatSize); }
      m * (size * Layers.NetFloatSize);
      (m * size) * Layers.NetFloatSize;
    }
  }

  /** Multiplying both sides of `a <= b` by the same count keeps the order. */
  lemma MulLe(a: nat, b: nat, c: nat)
    requires a <= b
    ensures a * c <= b * c
  {
  }

  /** `trainForward` on every layer, in order. */
  function ForwardSteps(n: nat): seq<Step> {
    seq(n, i requires 0 <= i < n => TrainForward(i))
  }

  /** `backprop` on every layer, last first. */
  function BackpropSteps(n: nat): seq<Step> {
    seq(n, j requires 0 <= j < n => Backprop(n - 1 - j))
  }

  /** One sample of a mini-batch: forward, backward, then the costs shader. */
  function RoundSteps(n: nat): seq<Step> {
    ForwardSteps(n) + BackpropSteps(n) + [QueueCosts]
  }

  /** `r` rounds. */
  function Rounds(n: nat, r: nat): seq<Step> {
    if r == 0 then [] else Rounds(n, r - 1) + RoundSteps(n)
  }

  /**
   * The `r` rounds of a mini-batch are `r` copies of one round: step `i` of
   * round `k` is step `i` of `RoundSteps`, so every sample slot runs every
   * layer forward, then every layer backward, then the costs shader.
   */
  lemma {:induction false} RoundsShape(n: nat, r: nat, k: nat, i: nat)
    requires k < r && i < 2 * n + 1
    ensures |Rounds(n, r)| == r * (2 * n + 1)
    ensures k * (2 * n + 1) + i < |Rounds(n, r)| && Rounds(n, r)[k * (2 * n + 1) + i] == RoundSteps(n)[i]
  {
    var w := 2 * n + 1;
    RoundsLength(n, r - 1);
    MulSucc(r - 1, w);
    if k < r - 1 {
      RoundsShape(n, r - 1, k, i);
    } else {
      assert Rounds(n, r)[(r - 1) * w + i] == RoundSteps(n)[i];
    }
  }

  lemma {:induction false} RoundsLength(n: nat, r: nat)
    ensures |Rounds(n, r)| == r * (2 * n + 1)
  {
    if r > 0 {
      RoundsLength(n, r - 1);
      MulSucc(r - 1, 2 * n + 1);
    }
  }

  /** A round runs the layers forward in order, then backward from the last, then the costs shader. */
  lemma RoundOrder(n: nat, i: nat)
    requires i < n
    ensures |RoundSteps(n)| == 2 * n + 1
    ensures RoundSteps(n)[i] == TrainForward(i) && RoundSteps(n)[n + i] == Backprop(n - 1 - i)
    ensures RoundSteps(n)[2 * n] == QueueCosts
  {
  }

  /** `updateParams` on every layer, in order. */
  function UpdateSteps(n: nat): seq<Step> {
    seq(n, i requires 0 <= i < n => UpdateParams(i))
  }

  /**
   * One mini-batch from `cursor` in a fetch of `size`: its samples are
   * copied, the sample index is reset, every sample slot runs a round, the
   * parameters are updated once, and the queue is flushed once.
   */
  function MiniBatchSteps(n: nat, miniBatchSize: nat, xSize: nat, ySize: nat, size: nat, cursor: nat): seq<Step> {
    Copies(size, cursor, miniBatchSize, xSize, ySize) + [ResetSampleIndex] + Rounds(n, miniBatchSize) +
    UpdateSteps(n) + [FlushQueue]
  }

  /**
   * The steps of mini-batch `j` of an epoch, from `cursor` in a fetch of
   * `size`: the mini-batch, then the event, which reports the last sample
   * processed so far.
   */
  function MiniBatchBody(n: nat, params: Hyperparams, xSize: nat, ySize: nat): (nat, nat, nat) -> seq<Step> {
    (size: nat, cursor: nat, j: nat) =>
      MiniBatchSteps(n, params.miniBatchSize, xSize, ySize, size, cursor) +
      [SampleProcessed((j + 1) * params.miniBatchSize - 1, params.batchSize)]
  }

  /*
   * The epoch.
   */

  /** The mini-batches `a` samples make, the last one possibly short. */
  function Ceil(a: nat, m: nat): nat
    requires m > 0
  {
    (a + m - 1) / m
  }

  /** `k` mini-batches of `m` hold `a` samples exactly when `k` is at least `Ceil(a, m)`. */
  lemma CeilBound(a: nat, m: nat, k: nat)
    requires m > 0
    ensures k * m >= a <==> k >= Ceil(a, m)
  {
    var q, r := (a + m - 1) / m, (a + m - 1) % m;
    assert a + m - 1 == q * m + r;
    if k >= q {
      MulLe(q, k, m);
    } else {
      MulLe(k + 1, q, m);
    }
  }

  /**
   * The mini-batches after which an epoch stops: the first count whose
   * samples reach `batchSize`, and at least one, since the check follows
   * the first mini-batch.
   */
  function BatchLimit(batchSize: nat, miniBatchSize: nat): (l: nat)
    requires miniBatchSize > 0
    ensures l > 0
  {
    if batchSize == 0 then 1
    else
      CeilBound(batchSize, miniBatchSize, 0);
      Ceil(batchSize, miniBatchSize)
  }

  /**
   * The source's stop test after `k` mini-batches, `k * miniBatchSize >=
   * batchSize`, holds exactly from the limit on.
   */
  lemma StopRule(batchSize: nat, miniBatchSize: nat, k: nat)
    requires miniBatchSize > 0 && k > 0
    ensures k * miniBatchSize >= batchSize <==> k >= BatchLimit(batchSize, miniBatchSize)
  {
    CeilBound(batchSize, miniBatchSize, k);
  }

  /** One more mini-batch of `m` samples: `(k + 1) * m` is `k * m + m`. */
  lemma MulSucc(k: nat, m: nat)
    ensures (k + 1) * m == k * m + m
  {
  }

  /**
   * A fetch loop that ran `k` mini-batches, stopping either at the limit or
   * at the end of the fetch, ran `Min(Ceil(size, m), limit - done)`.
   */
  lemma LoopCount(size: nat, m: nat, limit: nat, done: nat, k: nat)
    requires m > 0 && done + k <= limit && k <= Ceil(size, m)
    requires done + k == limit || k * m >= size
    ensures k == Min(Ceil(size, m), limit - done)
  {
    CeilBound(size, m, k);
  }

  /** The mini-batches of each fetch. */
  function BatchCounts(fetches: seq<nat>, miniBatchSize: nat): (r: seq<nat>)
    requires miniBatchSize > 0
    ensures |r| == |fetches|
  {
    seq(|fetches|, f requires 0 <= f < |fetches| => Ceil(fetches[f], miniBatchSize))
  }

  /** A fetch has mini-batches exactly when it has samples. */
  lemma CountPositive(size: nat, miniBatchSize: nat)
    requires miniBatchSize > 0
    ensures Ceil(size, miniBatchSize) > 0 <==> size > 0
  {
    CeilBound(size, miniBatchSize, 0);
  }

  /** The size of fetch `f`; every fetch after `fetches` is empty. */
  function SizeOf(fetches: seq<nat>, f: nat): nat {
    if f < |fetches| then fetches[f] else 0
  }

  /** The first sample of mini-batch `k` of a fetch, in mini-batches of `m`. */
  function SampleOffset(k: nat, m: nat): nat {
    k * m
  }

  /** Mini-batches `first` to `last - 1`, all from a fetch of `size` whose first mini-batch is `first`. */
  function Batches(body: (nat, nat, nat) -> seq<Step>, size: nat, miniBatchSize: nat, first: nat, last: nat): seq<Step>
    decreases last - first
  {
    if last <= first then []
    else Batches(body, size, miniBatchSize, first, last - 1) + body(size, SampleOffset(last - 1 - first, miniBatchSize), last - 1)
  }

  /** Appending two more pieces to a trace extends what it holds after its start. */
  lemma Extend<T>(start: seq<T>, held: seq<T>, x: seq<T>, y: seq<T>, now: seq<T>)
    requires now == start + held + x + y
    ensures now == start + (held + x + y)
  {
  }

  /**
   * The counters of a fetch loop after mini-batch `d`, from the cursor
   * before it: the next cursor, the mini-batches still within the fetch,
   * the samples processed, and the stop test.
   */
  lemma FetchStepCounts(size: nat, m: nat, batchSize: nat, done: nat, d: nat, cursor: nat)
    requires m > 0 && done <= d && cursor == (d - done) * m && cursor < size
    ensures cursor + m == (d + 1 - done) * m && d + 1 - done <= Ceil(size, m)
    ensures (d + 1) * m == d * m + m
    ensures (d + 1) * m >= batchSize <==> d + 1 >= BatchLimit(batchSize, m)
  {
    CeilBound(size, m, d - done);
    MulSucc(d - done, m);
    MulSucc(d, m);
    StopRule(batchSize, m, d + 1);
  }

  /** The mini-batches of a fetch, one more. */
  lemma BatchStep(n: nat, params: Hyperparams, xSize: nat, ySize: nat, size: nat, first: nat, j: nat)
    requires first <= j
    ensures Batches(MiniBatchBody(n, params, xSize, ySize), size, params.miniBatchSize, first, j + 1) ==
      Batches(MiniBatchBody(n, params, xSize, ySize), size, params.miniBatchSize, first, j) +
      MiniBatchSteps(n, params.miniBatchSize, xSize, ySize, size, (j - first) * params.miniBatchSize) +
      [SampleProcessed(j * params.miniBatchSize + params.miniBatchSize - 1, params.batchSize)]
  {
    MulSucc(j, params.miniBatchSize);
  }

  /** The steps of a fetch loop: each fetch starts the next load, then processes its mini-batches. */
  function Expand(body: (nat, nat, nat) -> seq<Step>, miniBatchSize: nat, fetches: seq<nat>, plan: seq<Chunk>): seq<Step> {
    if plan == [] then []
    else
      var c := plan[0];
      [LoadSamples] + Batches(body, SizeOf(fetches, c.fetch), miniBatchSize, c.first, c.last) +
      Expand(body, miniBatchSize, fetches, plan[1..])
  }

  lemma ExpandCons(body: (nat, nat, nat) -> seq<Step>, miniBatchSize: nat, fetches: seq<nat>, c: Chunk, plan: seq<Chunk>)
    ensures Expand(body, miniBatchSize, fetches, [c] + plan) ==
      [LoadSamples] + Batches(body, SizeOf(fetches, c.fetch), miniBatchSize, c.first, c.last) +
      Expand(body, miniBatchSize, fetches, plan)
  {
    assert ([c] + plan)[1..] == plan;
  }

  /** The fetch loop's trace after fetch `f`, from its trace before. */
  lemma FetchAdvance(body: (nat, nat, nat) -> seq<Step>, miniBatchSize: nat, limit: nat, fetches: seq<nat>,
                     counts: seq<nat>, f: nat, done: nat, p: nat,
                     before: seq<Step>, after: seq<Step>, goal: seq<Step>)
    requires done < limit && |counts| == |fetches|
    requires f < |counts| && counts[f] > 0 && p == done + Min(counts[f], limit - done)
    requires before + Expand(body, miniBatchSize, fetches, FetchPlan(limit, counts, f, done)) == goal
    requires after == before + [LoadSamples] + Batches(body, fetches[f], miniBatchSize, done, p)
    ensures p == limit ==> after == goal
    ensures p < limit ==> after + Expand(body, miniBatchSize, fetches, FetchPlan(limit, counts, f + 1, p)) == goal
  {
    var x := [LoadSamples] + Batches(body, fetches[f], miniBatchSize, done, p);
    FetchPlanStep(limit, counts, f, done, p);
    if p == limit {
      ExpandCons(body, miniBatchSize, fetches, Chunk(f, done, p), []);
      Regroup(before, x, [], goal);
    } else {
      var rest := FetchPlan(limit, counts, f + 1, p);
      ExpandCons(body, miniBatchSize, fetches, Chunk(f, done, p), rest);
      Regroup(before, x, Expand(body, miniBatchSize, fetches, rest), goal);
    }
  }

  /** The plan of an epoch's fetch loop, in mini-batches. */
  function EpochPlan(params: Hyperparams, fetches: seq<nat>): seq<Chunk>
    requires params.miniBatchSize > 0
  {
    FetchPlan(BatchLimit(params.batchSize, params.miniBatchSize), BatchCounts(fetches, params.miniBatchSize), 0, 0)
  }

  /**
   * One epoch: the start event, the costs zeroed, the status reset to the
   * epoch and its first sample, the first load, the fetch loop, the
   * completion event and the rewind.
   */
  function EpochSteps(n: nat, params: Hyperparams, xSize: nat, ySize: nat, fetches: seq<nat>, epoch: nat): seq<Step>
    requires params.miniBatchSize > 0
  {
    [EpochStarted(epoch, params.epochs), ZeroCosts, SetStatus(epoch, 0), LoadSamples] +
    Expand(MiniBatchBody(n, params, xSize, ySize), params.miniBatchSize, fetches, EpochPlan(params, fetches)) +
    [EpochCompleted(epoch, params.epochs), SeekToBeginning]
  }

  /**
   * The epochs from `epoch` on: each runs unless the abort flag is seen
   * set at its start, which ends training.
   */
  function Epochs(n: nat, params: Hyperparams, xSize: nat, ySize: nat, fetches: seq<nat>, abortSeen: nat -> bool,
                  epoch: nat): seq<Step>
    requires params.miniBatchSize > 0
    decreases params.epochs - epoch
  {
    if epoch >= params.epochs || abortSeen(epoch) then []
    else EpochSteps(n, params, xSize, ySize, fetches, epoch) + Epochs(n, params, xSize, ySize, fetches, abortSeen, epoch + 1)
  }

  /** `retrieveBuffers` on every layer, in order. */
  function RetrieveSteps(n: nat): seq<Step> {
    seq(n, i requires 0 <= i < n => RetrieveBuffers(i))
  }

  /**
   * An epoch runs `K` mini-batches, in order and no more from a fetch than
   * it holds, where `K` is the number of mini-batches the data holds but no
   * more than the limit; the source's stop test fails after each of the
   * first `K - 1` and, when the data lasts, holds after the `K`-th.
   */
  lemma EpochMiniBatches(params: Hyperparams, fetches: seq<nat>)
    requires params.miniBatchSize > 0
    ensures var counts := BatchCounts(fetches, params.miniBatchSize);
      var limit := BatchLimit(params.batchSize, params.miniBatchSize);
      var k := Min(Available(counts, 0), limit);
      Covers(EpochPlan(params, fetches), counts, 0, k) &&
      (forall j | 1 <= j < k :: j * params.miniBatchSize < params.batchSize) &&
      (Available(counts, 0) >= limit ==> k * params.miniBatchSize >= params.batchSize)
  {
    var counts := BatchCounts(fetches, params.miniBatchSize);
    var limit := BatchLimit(params.batchSize, params.miniBatchSize);
    FetchPlanCovers(limit, counts, 0, 0);
    forall j | 1 <= j < Min(Available(counts, 0), limit)
      ensures j * params.miniBatchSize < params.batchSize
    {
      StopRule(params.batchSize, params.miniBatchSize, j);
    }
    StopRule(params.batchSize, params.miniBatchSize, limit);
  }

  /** Appending keeps every copy within the fetch. */
  lemma ReadsWithinAppend(a: seq<Step>, b: seq<Step>, size: nat)
    requires ReadsWithin(a, size) && ReadsWithin(b, size)
    ensures ReadsWithin(a + b, size)
  {
    forall i | 0 <= i < |a + b| && (a + b)[i].CopySample?
      ensures (a + b)[i].index < size
    {
      if i >= |a| {
        assert (a + b)[i] == b[i - |a|];
      }
    }
  }

  /** Steps without copies read nothing. */
  lemma NoCopies(steps: seq<Step>, size: nat)
    requires forall i | 0 <= i < |steps| :: !steps[i].CopySample?
    ensures ReadsWithin(steps, size)
  {
  }

  lemma {:induction false} RoundsCopyNothing(n: nat, r: nat, size: nat)
    ensures ReadsWithin(Rounds(n, r), size)
  {
    if r > 0 {
      RoundsCopyNothing(n, r - 1, size);
      var round := RoundSteps(n);
      forall i | 0 <= i < |round|
        ensures !round[i].CopySample?
      {
        if i < n {
          assert round[i] == ForwardSteps(n)[i];
        } else if i < 2 * n {
          assert round[i] == BackpropSteps(n)[i - n];
        }
      }
      NoCopies(round, size);
      ReadsWithinAppend(Rounds(n, r - 1), round, size);
    }
  }

  /** A mini-batch reads only the samples of its fetch. */
  lemma MiniBatchReadsWithin(n: nat, params: Hyperparams, xSize: nat, ySize: nat, size: nat, cursor: nat, j: nat)
    ensures ReadsWithin(MiniBatchBody(n, params, xSize, ySize)(size, cursor, j), size)
  {
    var mb := params.miniBatchSize;
    var copies := Copies(size, cursor, mb, xSize, ySize);
    var rounds := Rounds(n, mb);
    var updates := UpdateSteps(n);
    var event := [SampleProcessed((j + 1) * mb - 1, params.batchSize)];
    CopiesStayInFetch(size, cursor, mb, xSize, ySize);
    RoundsCopyNothing(n, mb, size);
    assert forall i | 0 <= i < n :: updates[i] == UpdateParams(i);
    NoCopies(updates, size);
    NoCopies([ResetSampleIndex], size);
    NoCopies([FlushQueue], size);
    NoCopies(event, size);
    ReadsWithinAppend(copies, [ResetSampleIndex], size);
    ReadsWithinAppend(copies + [ResetSampleIndex], rounds, size);
    ReadsWithinAppend(copies + [ResetSampleIndex] + rounds, updates, size);
    ReadsWithinAppend(copies + [ResetSampleIndex] + rounds + updates, [FlushQueue], size);
    ReadsWithinAppend(copies + [ResetSampleIndex] + rounds + updates + [FlushQueue], event, size);
  }

  /** The mini-batches of a fetch read only the samples it has. */
  lemma {:induction false} FetchReadsWithin(n: nat, params: Hyperparams, xSize: nat, ySize: nat, size: nat,
                                            first: nat, last: nat)
    ensures ReadsWithin(Batches(MiniBatchBody(n, params, xSize, ySize), size, params.miniBatchSize, first, last), size)
    decreases last - first
  {
    if first < last {
      var body := MiniBatchBody(n, params, xSize, ySize);
      var mb := params.miniBatchSize;
      FetchReadsWithin(n, params, xSize, ySize, size, first, last - 1);
      MiniBatchReadsWithin(n, params, xSize, ySize, size, (last - 1 - first) * mb, last - 1);
      ReadsWithinAppend(Batches(body, size, mb, first, last - 1), body(size, (last - 1 - first) * mb, last - 1), size);
    }
  }

  class GpuNeuralNet {
    /** The device the layers were built on (`createGpu` is not part of this model). */
    const gpu: V.Vulkan
    const inputShape: Size3
    const params: Hyperparams
    const layers: seq<Layer>
    /** The shape each layer was built for. */
    const inputShapes: seq<Size3>
    /** `m_outputSize`: the output layer's size. */
    const outputSize: nat
    var trained: bool
    /** What the network has done so far. */
    var trace: seq<Step>

    /** The layers, chained from the network's input shape, with the output layer last. */
    predicate Valid() {
      |layers| > 0 && layers[|layers| - 1].OutputLayer? && Chained(layers, inputShapes, inputShape) &&
      outputSize == layers[|layers| - 1].size
    }

    /** The bytes of one sample in the sample buffer. */
    function XSize(): nat {
      Layers.Bytes(CalcProduct(inputShape))
    }

    /** The bytes of one class vector in the label buffer. */
    function YSize(): nat {
      Layers.Bytes(outputSize)
    }

    constructor (gpu: V.Vulkan, inputShape: Size3, params: Hyperparams, layers: seq<Layer>, inputShapes: seq<Size3>,
                 outputSize: nat, trained: bool)
      ensures this.gpu == gpu && this.inputShape == inputShape && this.params == params && this.layers == layers
      ensures this.inputShapes == inputShapes && this.outputSize == outputSize
      ensures this.trained == trained && trace == []
    {
      this.gpu, this.inputShape, this.params, this.layers := gpu, inputShape, params, layers;
      this.inputShapes, this.outputSize := inputShapes, outputSize;
      this.trained := trained;
      trace := [];
    }

    /**
     * A dense or output layer of `CalcProduct(prev)` inputs and the
     * configured "size". With a stream, the layer takes its biases and
     * weights from it and the rest is returned.
     */
    static method ConstructDense(config: Cfg.Config, prev: Size3, isOutput: bool, stream: Option<seq<real>>)
      returns (r: Result<(Layer, Option<seq<real>>)>)
      ensures Layers.GetSize(config, "size").Err? ==> r == Err(Layers.GetSize(config, "size").message)
      ensures r.Ok? ==>
        var (layer, rest) := r.value;
        (if isOutput then layer.OutputLayer? else layer.DenseLayer?) &&
        Layers.GetSize(config, "size") == Ok(layer.size) && layer.Accepts(prev) && rest.Some? == stream.Some?
    {
      var size :- Layers.GetSize(config, "size");
      var inputSize := CalcProduct(prev);
      var layer := if isOutput then OutputLayer(inputSize, size) else DenseLayer(inputSize, size);
      var rest: Option<seq<real>> := None;
      if stream.Some? {
        rest := Some(Layers.ReadValues(Dense.Zeros(size + inputSize * size), stream.value).1);
      }
      return Ok((layer, rest));
    }

    /** A convolutional layer for input of shape `prev`. */
    static method ConstructConv(gpu: V.Vulkan, config: Cfg.Config, prev: Size3, isFirstLayer: bool,
                                stream: Option<seq<real>>, random: nat -> real)
      returns (r: Result<(Layer, Option<seq<real>>)>)
      ensures r.Ok? ==>
        var (layer, rest) := r.value;
        layer.ConvLayer? && fresh(layer.conv) && layer.conv.isFirstLayer == isFirstLayer &&
        layer.Shaped() && layer.Accepts(prev) && rest.Some? == stream.Some?
    {
      var built :- Conv.ConvolutionalLayer.Create(gpu, config, prev, isFirstLayer, random, stream);
      return Ok((ConvLayer(built.0), if stream.Some? then Some(built.1) else None));
    }

    /** A max-pooling layer for input of shape `prev`, with the configured region. */
    static method ConstructPool(gpu: V.Vulkan, config: Cfg.Config, prev: Size3) returns (r: Result<Layer>)
      requires RegionPositive(config.Data()) && config.GetString("type") == Ok("maxPooling")
      ensures r.Ok? ==> r.value.PoolLayer? && fresh(r.value.pool) && r.value.Shaped() && r.value.Accepts(prev)
    {
      if "regionSize" in config.entries {
        RegionOf(config);
      }
      var layer :- Pool.MaxPoolingLayer.Create(gpu, config, prev);
      return Ok(PoolLayer(layer));
    }

    /**
     * `constructLayer`: the "type" string picks the class; dense and output
     * layers get the product of the previous shape, the others the shape.
     * Only dense and convolutional layers are told whether they come first.
     */
    static method ConstructLayer(gpu: V.Vulkan, config: Cfg.Config, prev: Size3, isFirstLayer: bool,
                                 stream: Option<seq<real>>, random: nat -> real)
      returns (r: Result<(Layer, Option<seq<real>>)>)
      requires RegionPositive(config.Data())
      ensures config.GetString("type").Err? ==> r == Err(config.GetString("type").message)
      ensures config.GetString("type").Ok? && TypeOf(config.GetString("type").value).None? ==>
        r == Err(UnknownType(config.GetString("type").value))
      ensures r.Ok? ==>
        var (layer, rest) := r.value;
        config.GetString("type") == Ok(ConfigName(layer.Type())) &&
        layer.Shaped() && layer.Accepts(prev) && rest.Some? == stream.Some?
      ensures r.Ok? && r.value.0.PoolLayer? ==> r.value.1 == stream
    {
      var name :- config.GetString("type");
      if name == "dense" {
        r := ConstructDense(config, prev, false, stream);
      } else if name == "convolutional" {
        r := ConstructConv(gpu, config, prev, isFirstLayer, stream, random);
      } else if name == "maxPooling" {
        var layer :- ConstructPool(gpu, config, prev);
        r := Ok((layer, stream));
      } else if name == "output" {
        r := ConstructDense(config, prev, true, stream);
      } else {
        r := Err(UnknownType(name));
      }
    }

    /** `constructLayer` on a copy of one hidden layer's configuration. */
    static method ConstructFrom(gpu: V.Vulkan, data: Cfg.ConfigData, prev: Size3, isFirstLayer: bool,
                                stream: Option<seq<real>>, random: nat -> real)
      returns (r: Result<(Layer, Option<seq<real>>)>)
      requires RegionPositive(data)
      ensures r.Ok? ==>
        var (layer, rest) := r.value;
        TypeNameOf(data) == Some(ConfigName(layer.Type())) &&
        layer.Shaped() && layer.Accepts(prev) && rest.Some? == stream.Some?
    {
      var obj := new Cfg.Config.Copy(data);
      r := ConstructLayer(gpu, obj, prev, isFirstLayer, stream, random);
    }

    /**
     * The hidden layers of `initialize`, in order, each built for the shape
     * the one before it outputs, the first told that it is first; returns
     * the shape the last one outputs and what is left of the stream.
     */
    static method BuildHidden(gpu: V.Vulkan, hidden: seq<Cfg.ConfigData>, inputShape: Size3, stream: Option<seq<real>>,
                              random: nat -> nat -> real)
      returns (r: Result<(seq<Layer>, seq<Size3>, Size3, Option<seq<real>>)>)
      requires forall k | 0 <= k < |hidden| :: RegionPositive(hidden[k])
      ensures r.Ok? ==>
        var (layers, shapes, last, rest) := r.value;
        |layers| == |hidden| && Chained(layers, shapes, inputShape) &&
        last == (if |layers| == 0 then inputShape else layers[|layers| - 1].OutputSize()) &&
        rest.Some? == stream.Some? && NamedAs(hidden, layers)
    {
      var layers: seq<Layer> := [];
      var shapes: seq<Size3> := [];
      var prev := inputShape;
      var s := stream;
      for i := 0 to |hidden|
        invariant |layers| == i && BuiltPrefix(hidden, inputShape, stream, layers, shapes, prev, s)
      {
        var next :- BuildNext(gpu, hidden, inputShape, stream, layers, shapes, prev, s, random(i));
        layers, shapes, prev, s := next.0, next.1, next.2, next.3;
      }
      return Ok((layers, shapes, prev, s));
    }

    /** What `BuildHidden` has after building `layers`: a chain whose types match the configurations. */
    static predicate BuiltPrefix(hidden: seq<Cfg.ConfigData>, inputShape: Size3, stream: Option<seq<real>>,
                                 layers: seq<Layer>, shapes: seq<Size3>, prev: Size3, s: Option<seq<real>>)
    {
      Chained(layers, shapes, inputShape) &&
      prev == (if |layers| == 0 then inputShape else layers[|layers| - 1].OutputSize()) &&
      s.Some? == stream.Some? && NamedAs(hidden, layers)
    }

    /** One step of `BuildHidden`: the next hidden layer, built for the shape the chain ends with. */
    static method BuildNext(gpu: V.Vulkan, hidden: seq<Cfg.ConfigData>, inputShape: Size3, stream: Option<seq<real>>,
                            layers: seq<Layer>, shapes: seq<Size3>, prev: Size3, s: Option<seq<real>>,
                            random: nat -> real)
      returns (r: Result<(seq<Layer>, seq<Size3>, Size3, Option<seq<real>>)>)
      requires forall k | 0 <= k < |hidden| :: RegionPositive(hidden[k])
      requires |layers| < |hidden| && BuiltPrefix(hidden, inputShape, stream, layers, shapes, prev, s)
      ensures r.Ok? ==>
        |r.value.0| == |layers| + 1 && r.value.0[..|layers|] == layers &&
        BuiltPrefix(hidden, inputShape, stream, r.value.0, r.value.1, r.value.2, r.value.3)
    {
      var i := |layers|;
      var built :- ConstructFrom(gpu, hidden[i], prev, i == 0, s, random);
      var (layer, rest) := built;
      ChainedAppend(layers, shapes, inputShape, layer, prev);
      NamedAppend(hidden, layers, layer);
      return Ok((layers + [layer], shapes + [prev], layer.OutputSize(), rest));
    }

    /** The output layer: `constructLayer` on a copy of "outputLayer" with its type forced to "output". */
    static method ConstructOutput(gpu: V.Vulkan, data: Cfg.ConfigData, prev: Size3, stream: Option<seq<real>>,
                                  random: nat -> real)
      returns (r: Result<Layer>)
      ensures r.Ok? ==> r.value.OutputLayer? && r.value.Accepts(prev)
    {
      var out := new Cfg.Config.Copy(data);
      out.SetString("type", "output");
      var last :- ConstructLayer(gpu, out, prev, false, stream, random);
      return Ok(last.0);
    }

    /**
     * The hidden layers in order, each built for the previous layer's
     * output shape, then the output layer from "outputLayer".
     */
    static method ChainLayers(gpu: V.Vulkan, inputShape: Size3, hidden: seq<Cfg.ConfigData>, config: Cfg.Config,
                              stream: Option<seq<real>>, random: nat -> nat -> real)
      returns (r: Result<(seq<Layer>, seq<Size3>)>)
      requires forall k | 0 <= k < |hidden| :: RegionPositive(hidden[k])
      ensures r.Ok? ==>
        var (layers, shapes) := r.value;
        |layers| == |hidden| + 1 && layers[|layers| - 1].OutputLayer? &&
        Chained(layers, shapes, inputShape) && NamedAs(hidden, layers[..|hidden|])
    {
      var built :- BuildHidden(gpu, hidden, inputShape, stream, random);
      var (layers, shapes, prev, s) := built;
      var outData :- config.GetObject("outputLayer");
      var outputLayer :- ConstructOutput(gpu, outData, prev, s, random(|hidden|));
      ChainedAppend(layers, shapes, inputShape, outputLayer, prev);
      assert (layers + [outputLayer])[..|hidden|] == layers;
      return Ok((layers + [outputLayer], shapes + [prev]));
    }

    /**
     * The layers of `initialize`: the hyperparameters, the hidden layers in
     * order, each built for the previous layer's output shape, then the
     * output layer from "outputLayer".
     */
    static method BuildLayers(gpu: V.Vulkan, inputShape: Size3, config: Cfg.Config, stream: Option<seq<real>>,
                              random: nat -> nat -> real)
      returns (r: Result<(Hyperparams, seq<Layer>, seq<Size3>)>)
      requires HiddenRegionsPositive(config)
      ensures "hyperparams" !in config.entries ==> r == Err(Cfg.NotFound("hyperparams"))
      ensures r.Ok? ==>
        var (params, layers, shapes) := r.value;
        config.GetObject("hyperparams").Ok? && HyperparamsOf(config.GetObject("hyperparams").value) == Ok(params) &&
        |layers| == |HiddenConfigs(config)| + 1 && layers[|layers| - 1].OutputLayer? &&
        Chained(layers, shapes, inputShape) && NamedAs(HiddenConfigs(config), layers[..|layers| - 1])
    {
      var hpData :- config.GetObject("hyperparams");
      var params :- HyperparamsOf(hpData);
      var hidden: seq<Cfg.ConfigData> := [];
      if config.Contains("hiddenLayers") {
        hidden :- config.GetObjectArray("hiddenLayers");
      }
      assert hidden == HiddenConfigs(config);
      var chain :- ChainLayers(gpu, inputShape, hidden, config, stream, random);
      return Ok((params, chain.0, chain.1));
    }

    /**
     * The constructors (`initialize`): the hyperparameters, the hidden layers
     * in order, each built for the previous layer's output shape, the output
     * layer from "outputLayer" with its type forced to "output", the output
     * size, then `allocateGpuResources`. A network read from a stream counts
     * as trained.
     */
    static method Create(gpu: V.Vulkan, inputShape: Size3, config: Cfg.Config, stream: Option<seq<real>>,
                         random: nat -> nat -> real)
      returns (r: Result<GpuNeuralNet>)
      requires HiddenRegionsPositive(config)
      ensures "hyperparams" !in config.entries ==> r == Err(Cfg.NotFound("hyperparams"))
      ensures r.Ok? ==>
        var net := r.value;
        fresh(net) && net.Valid() && net.gpu == gpu && net.inputShape == inputShape &&
        config.GetObject("hyperparams").Ok? && HyperparamsOf(config.GetObject("hyperparams").value) == Ok(net.params) &&
        |net.layers| == |HiddenConfigs(config)| + 1 &&
        (forall i | 0 <= i < |HiddenConfigs(config)| ::
          TypeNameOf(HiddenConfigs(config)[i]) == Some(ConfigName(net.layers[i].Type()))) &&
        net.trained == stream.Some? &&
        net.trace == ResourceSteps(|net.layers|, net.params.miniBatchSize, CalcProduct(inputShape), net.outputSize)
    {
      var built :- BuildLayers(gpu, inputShape, config, stream, random);
      var params: Hyperparams, layers: seq<Layer>, shapes: seq<Size3> := built.0, built.1, built.2;
      var net := new GpuNeuralNet(gpu, inputShape, params, layers, shapes, layers[|layers| - 1].size, stream.Some?);
      net.AllocateGpuResources();
      return Ok(net);
    }

    /** `allocateGpuResources`. */
    method AllocateGpuResources()
      requires |layers| > 0
      modifies this`trace
      ensures trace == old(trace) + ResourceSteps(|layers|, params.miniBatchSize, CalcProduct(inputShape), outputSize)
    {
      var n := |layers|;
      var mb := params.miniBatchSize;
      trace := trace + [Allocate(BufferX, Layers.Bytes(mb * CalcProduct(inputShape)), SampleFlags),
        Allocate(BufferY, Layers.Bytes(mb * outputSize), SampleFlags), Allocate(StatusBuffer, StatusBytes, StatusFlags)];
      AllocateLayerResources();
      CreateLayerShaders();
      var bindings := [Binding(StatusBuffer, V.Write), Binding(LayerOutput(n - 1), V.Read),
        Binding(BufferY, V.Read), Binding(CostsBuffer, V.Write)];
      trace := trace + [Allocate(CostsBuffer, Layers.Bytes(outputSize), CostsFlags),
        AddCostsShader(bindings, [Conv.Uint(mb)], [outputSize, 1, 1])];
    }

    /** `allocateGpuBuffers` on every layer, in order. */
    method AllocateLayerResources()
      modifies this`trace
      ensures trace == old(trace) + seq(|layers|, i requires 0 <= i < |layers| => AllocateLayerBuffers(i))
    {
      ghost var allocs := seq(|layers|, i requires 0 <= i < |layers| => AllocateLayerBuffers(i));
      for i := 0 to |layers|
        invariant trace == old(trace) + allocs[..i]
      {
        trace := trace + [AllocateLayerBuffers(i)];
        assert allocs[..i + 1] == allocs[..i] + [allocs[i]];
      }
      assert allocs[..|layers|] == allocs;
    }

    /**
     * `createGpuShaders` on every layer, in order, each handed the buffer
     * the layer before it leaves its output in.
     */
    method CreateLayerShaders()
      modifies this`trace
      ensures trace == old(trace) + ShaderSteps(|layers|)
    {
      var n := |layers|;
      ghost var shaders := ShaderSteps(n);
      var x := BufferX;
      for i := 0 to n
        invariant trace == old(trace) + shaders[..i] && x == InputOf(i)
      {
        var next := if i + 1 == n then None else Some(i + 1);
        trace := trace + [CreateShaders(i, x, StatusBuffer, next, BufferY)];
        assert shaders[..i + 1] == shaders[..i] + [shaders[i]];
        x := LayerOutput(i);
      }
      assert shaders[..n] == shaders;
    }

    /** `loadSampleBuffers` for `count` samples of the fetch from `cursor`. */
    method LoadSampleBuffers(cursor: nat, count: nat)
      modifies this`trace
      ensures trace == old(trace) + CopySteps(cursor, count, XSize(), YSize())
    {
      var xSize, ySize := XSize(), YSize();
      ghost var copies := CopySteps(cursor, count, xSize, ySize);
      for i := 0 to count
        invariant trace == old(trace) + copies[..i]
      {
        trace := trace + [CopySample(cursor + i, i * xSize, i * ySize)];
        assert copies[..i + 1] == copies[..i] + [copies[i]];
      }
      assert copies[..count] == copies;
    }

    /** `trainForward` on every layer, in order. */
    method FeedForward()
      modifies this`trace
      ensures trace == old(trace) + ForwardSteps(|layers|)
    {
      ghost var steps := ForwardSteps(|layers|);
      for i := 0 to |layers|
        invariant trace == old(trace) + steps[..i]
      {
        trace := trace + [TrainForward(i)];
        assert steps[..i + 1] == steps[..i] + [steps[i]];
      }
      assert steps[..|layers|] == steps;
    }

    /** `backprop` from the last layer down to the first. */
    method BackPropagate()
      modifies this`trace
      ensures trace == old(trace) + BackpropSteps(|layers|)
    {
      var n := |layers|;
      ghost var steps := BackpropSteps(n);
      var i: int := n - 1;
      while i >= 0
        invariant -1 <= i < n && trace == old(trace) + steps[..n - 1 - i]
      {
        assert steps[n - 1 - i] == Backprop(i);
        trace := trace + [Backprop(i)];
        assert steps[..n - i] == steps[..n - 1 - i] + [steps[n - 1 - i]];
        i := i - 1;
      }
      assert steps[..n] == steps;
    }

    /** `updateParams` on every layer, in order. */
    method UpdateLayers()
      modifies this`trace
      ensures trace == old(trace) + UpdateSteps(|layers|)
    {
      ghost var steps := UpdateSteps(|layers|);
      for i := 0 to |layers|
        invariant trace == old(trace) + steps[..i]
      {
        trace := trace + [UpdateParams(i)];
        assert steps[..i + 1] == steps[..i] + [steps[i]];
      }
      assert steps[..|layers|] == steps;
    }

    /**
     * One mini-batch from `cursor` in a fetch of `size`. The copies take
     * only the samples the fetch has left (see `CopiesAsWritten` for the
     * source's copies).
     */
    method MiniBatch(size: nat, cursor: nat)
      modifies this`trace
      ensures trace == old(trace) + MiniBatchSteps(|layers|, params.miniBatchSize, XSize(), YSize(), size, cursor)
    {
      var mb := params.miniBatchSize;
      ghost var copies := Copies(size, cursor, mb, XSize(), YSize());
      LoadSampleBuffers(cursor, Min(mb, Left(size, cursor)));
      trace := trace + [ResetSampleIndex];
      RunRounds(mb);
      UpdateLayers();
      trace := trace + [FlushQueue];
      assert trace == old(trace) + copies + [ResetSampleIndex] + Rounds(|layers|, mb) + UpdateSteps(|layers|) + [FlushQueue];
    }

    /**
     * The `count` sample slots of a mini-batch: each runs every layer
     * forward, then every layer backward, then queues the costs shader.
     */
    method RunRounds(count: nat)
      modifies this`trace
      ensures trace == old(trace) + Rounds(|layers|, count)
    {
      for s := 0 to count
        invariant trace == old(trace) + Rounds(|layers|, s)
      {
        FeedForward();
        BackPropagate();
        trace := trace + [QueueCosts];
      }
    }

    /**
     * The mini-batches of one fetch of `size`, from mini-batch number
     * `done`: stops early once the samples processed reach `batchSize`.
     */
    method ProcessFetch(size: nat, done: nat) returns (done': nat)
      requires params.miniBatchSize > 0 && done < BatchLimit(params.batchSize, params.miniBatchSize)
      modifies this`trace
      ensures done' == done + Min(Ceil(size, params.miniBatchSize), BatchLimit(params.batchSize, params.miniBatchSize) - done)
      ensures trace == old(trace) + Batches(MiniBatchBody(|layers|, params, XSize(), YSize()), size, params.miniBatchSize, done, done')
    {
      var mb := params.miniBatchSize;
      ghost var limit := BatchLimit(params.batchSize, mb);
      ghost var body := MiniBatchBody(|layers|, params, XSize(), YSize());
      var samplesProcessed := done * mb;
      done' := done;
      var cursor := 0;
      while cursor < size
        invariant done <= done' < limit && cursor == (done' - done) * mb && samplesProcessed == done' * mb
        invariant done' - done <= Ceil(size, mb)
        invariant trace == old(trace) + Batches(body, size, mb, done, done')
        decreases size - cursor
      {
        ghost var batches := Batches(body, size, mb, done, done');
        BatchStep(|layers|, params, XSize(), YSize(), size, done, done');
        FetchStepCounts(size, mb, params.batchSize, done, done', cursor);
        MiniBatch(size, cursor);
        samplesProcessed := samplesProcessed + mb;
        trace := trace + [SampleProcessed(samplesProcessed - 1, params.batchSize)];
        Extend(old(trace), batches, MiniBatchSteps(|layers|, mb, XSize(), YSize(), size, cursor),
          [SampleProcessed(samplesProcessed - 1, params.batchSize)], trace);
        done' := done' + 1;
        if samplesProcessed >= params.batchSize {
          LoopCount(size, mb, limit, done, done' - done);
          return;
        }
        cursor := cursor + mb;
      }
      CeilBound(size, mb, done' - done);
      LoopCount(size, mb, limit, done, done' - done);
    }

    /**
     * The fetch loop of an epoch, after its first load: each fetch of
     * samples starts the next load and runs its mini-batches, until a fetch
     * comes back empty or the samples processed reach `batchSize`.
     */
    method FetchLoop(fetches: seq<nat>)
      requires params.miniBatchSize > 0
      modifies this`trace
      ensures trace == old(trace) + Expand(MiniBatchBody(|layers|, params, XSize(), YSize()), params.miniBatchSize,
        fetches, EpochPlan(params, fetches))
    {
      var mb := params.miniBatchSize;
      ghost var body := MiniBatchBody(|layers|, params, XSize(), YSize());
      ghost var limit := BatchLimit(params.batchSize, mb);
      ghost var counts := BatchCounts(fetches, mb);
      ghost var goal := trace + Expand(body, mb, fetches, EpochPlan(params, fetches));
      var done: nat := 0;
      var f: nat := 0;
      var size := if f < |fetches| then fetches[f] else 0;
      while size > 0
        invariant done < limit && size == SizeOf(fetches, f)
        invariant trace + Expand(body, mb, fetches, FetchPlan(limit, counts, f, done)) == goal
        decreases |fetches| - f
      {
        ghost var before := trace;
        trace := trace + [LoadSamples];
        CountPositive(size, mb);
        var d := ProcessFetch(size, done);
        FetchAdvance(body, mb, limit, fetches, counts, f, done, d, before, trace, goal);
        StopRule(params.batchSize, mb, d);
        if d * mb >= params.batchSize {
          break;
        }
        done, f := d, f + 1;
        size := if f < |fetches| then fetches[f] else 0;
      }
      if size == 0 && f < |fetches| {
        CountPositive(size, mb);
        assert counts[f] == 0;
      }
    }

    /** One epoch of `train`. */
    method RunEpoch(fetches: seq<nat>, epoch: nat)
      requires params.miniBatchSize > 0
      modifies this`trace
      ensures trace == old(trace) + EpochSteps(|layers|, params, XSize(), YSize(), fetches, epoch)
    {
      ghost var head := [EpochStarted(epoch, params.epochs), ZeroCosts, SetStatus(epoch, 0), LoadSamples];
      ghost var tail := [EpochCompleted(epoch, params.epochs), SeekToBeginning];
      trace := trace + [EpochStarted(epoch, params.epochs), ZeroCosts, SetStatus(epoch, 0), LoadSamples];
      ghost var started := trace;
      FetchLoop(fetches);
      ghost var loop := trace[|started|..];
      assert trace == old(trace) + head + loop;
      trace := trace + [EpochCompleted(epoch, params.epochs), SeekToBeginning];
      assert EpochSteps(|layers|, params, XSize(), YSize(), fetches, epoch) == head + loop + tail;
    }

    /**
     * The epoch loop of `train`: epoch after epoch until all have run or
     * the abort flag is seen set at the start of one.
     */
    method RunEpochs(fetches: seq<nat>, abortSeen: nat -> bool)
      requires params.miniBatchSize > 0
      modifies this`trace
      ensures trace == old(trace) + Epochs(|layers|, params, XSize(), YSize(), fetches, abortSeen, 0)
    {
      var n := |layers|;
      ghost var goal := old(trace) + Epochs(n, params, XSize(), YSize(), fetches, abortSeen, 0);
      var epoch := 0;
      while epoch < params.epochs
        invariant epoch <= params.epochs
        invariant trace + Epochs(n, params, XSize(), YSize(), fetches, abortSeen, epoch) == goal
      {
        if abortSeen(epoch) {
          break;
        }
        ghost var before := trace;
        RunEpoch(fetches, epoch);
        Regroup(before, EpochSteps(n, params, XSize(), YSize(), fetches, epoch),
          Epochs(n, params, XSize(), YSize(), fetches, abortSeen, epoch + 1), goal);
        epoch := epoch + 1;
      }
    }

    /** `retrieveBuffers` on every layer, in order. */
    method RetrieveLayerBuffers()
      modifies this`trace
      ensures trace == old(trace) + RetrieveSteps(|layers|)
    {
      ghost var retrieves := RetrieveSteps(|layers|);
      for i := 0 to |layers|
        invariant trace == old(trace) + retrieves[..i]
      {
        trace := trace + [RetrieveBuffers(i)];
        assert retrieves[..i + 1] == retrieves[..i] + [retrieves[i]];
      }
      assert retrieves[..|layers|] == retrieves;
    }

    /**
     * `train` on a data set of fetch size `fetchSize` whose fetches have the
     * sizes `fetches` (the same after every rewind). `abortSeen(e)` is
     * whether the abort flag reads as set at the start of epoch `e`. The
     * fetch size and the batch size must be multiples of the mini-batch
     * size; then the layers' buffers are read back and the network is
     * trained.
     */
    method Train(fetchSize: nat, fetches: seq<nat>, abortSeen: nat -> bool) returns (error: Option<string>)
      requires params.miniBatchSize > 0
      modifies this`trace, this`trained
      ensures fetchSize % params.miniBatchSize != 0 ==>
        error == Some(FetchSizeError) && trace == old(trace) && trained == old(trained)
      ensures fetchSize % params.miniBatchSize == 0 && params.batchSize % params.miniBatchSize != 0 ==>
        error == Some(BatchSizeError) && trace == old(trace) && trained == old(trained)
      ensures fetchSize % params.miniBatchSize == 0 && params.batchSize % params.miniBatchSize == 0 ==>
        error == None && trained &&
        trace == old(trace) + Epochs(|layers|, params, XSize(), YSize(), fetches, abortSeen, 0) + RetrieveSteps(|layers|)
    {
      if fetchSize % params.miniBatchSize != 0 {
        return Some(FetchSizeError);
      }
      if params.batchSize % params.miniBatchSize != 0 {
        return Some(BatchSizeError);
      }
      RunEpochs(fetches, abortSeen);
      RetrieveLayerBuffers();
      trained := true;
      return None;
    }

    /**
     * `evaluate`: the sample is copied into the sample buffer, every layer's
     * `evalForward` is queued in order, and the queue is flushed once; the
     * result is each layer's function (given as `eval`) applied to what the
     * layer before it returned.
     */
    method Evaluate(x: seq<real>, eval: (nat, seq<real>) -> seq<real>) returns (A: seq<real>)
      requires |layers| > 0
      modifies this`trace
      ensures A == Composed(eval, |layers|, x)
      ensures trace == old(trace) + [CopyInput(|x|)] + EvalSteps(|layers|) + [FlushQueue]
    {
      trace := trace + [CopyInput(|x|)];
      ghost var before := trace;
      ghost var steps := EvalSteps(|layers|);
      A := x;
      for i := 0 to |layers|
        invariant A == Composed(eval, i, x) && trace == before + steps[..i]
      {
        trace := trace + [EvalForward(i)];
        assert steps[..i + 1] == steps[..i] + [steps[i]];
        A := eval(i, A);
      }
      assert steps[..|layers|] == steps;
      trace := trace + [FlushQueue];
    }

    /** `writeToStream`: refused for an untrained network; otherwise every layer's, in order. */
    method WriteToStream() returns (error: Option<string>)
      modifies this`trace
      ensures !trained ==> error == Some(NotTrained) && trace == old(trace)
      ensures trained ==> error == None && trace == old(trace) + WriteSteps(|layers|)
    {
      if !trained {
        return Some(NotTrained);
      }
      ghost var steps := WriteSteps(|layers|);
      for i := 0 to |layers|
        invariant trace == old(trace) + steps[..i]
      {
        trace := trace + [WriteLayer(i)];
        assert steps[..i + 1] == steps[..i] + [steps[i]];
      }
      assert steps[..|layers|] == steps;
      return None;
    }
  }

  /** `evalForward` on every layer, in order. */
  function EvalSteps(n: nat): seq<Step> {
    seq(n, i requires 0 <= i < n => EvalForward(i))
  }

  /** `writeToStream` on every layer, in order. */
  function WriteSteps(n: nat): seq<Step> {
    seq(n, i requires 0 <= i < n => WriteLayer(i))
  }

  const FetchSizeError := "Dataset fetch size must be multiple of mini-batch size"
  const BatchSizeError := "Batch size must be multiple of mini-batch size"
}
