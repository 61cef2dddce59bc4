/**
 * The CPU network (librichard/src/cpu/cpu_neural_net.cpp): the layers built
 * from the configuration, each for the shape the one before it outputs, and
 * the training loop that drives them sample by sample.
 *
 * The network sees its layers through the `Layer` interface. Training is
 * modelled as the record of what the network does, in order: the calls it
 * makes on its layers (with the data each call reads), the calls it makes on
 * the data set, and the events it raises. What each layer call computes is
 * modelled in the layer's own module.
 */
module CpuNeuralNet {
  import opened Wrappers
  import opened Utils
  import Cfg = Config
  import Layers
  import opened NeuralNets
  import Dense = DenseLayers
  import Conv = CpuConvolution
  import Pool = CpuMaxPooling

  /** A layer of the network, as the class that implements its type. */
  datatype Layer =
    | DenseLayer(dense: Dense.DenseLayer)
    | ConvLayer(conv: Conv.ConvolutionalLayer)
    | PoolLayer(pool: Pool.MaxPoolingLayer)
    | OutputLayer(output: Dense.DenseLayer)
  {
    function Type(): Layers.LayerType {
      match this
      case DenseLayer(_) => Layers.Dense
      case ConvLayer(_) => Layers.Convolutional
      case PoolLayer(_) => Layers.MaxPooling
      case OutputLayer(_) => Layers.Output
    }

    function Object(): object {
      match this
      case DenseLayer(d) => d
      case ConvLayer(c) => c
      case PoolLayer(p) => p
      case OutputLayer(o) => o
    }

    ghost predicate Valid()
      reads Object()
    {
      match this
      case DenseLayer(d) => d.Valid()
      case ConvLayer(c) => c.Valid()
      case PoolLayer(p) => p.Valid()
      case OutputLayer(o) => o.Valid()
    }

    /** The layer was built for input of shape `s`: dense and output layers take its product. */
    predicate Accepts(s: Size3) {
      match this
      case DenseLayer(d) => d.inputSize == CalcProduct(s)
      case ConvLayer(c) => [c.geometry.inputW, c.geometry.inputH, c.geometry.inputDepth] == s
      case PoolLayer(p) => [p.inputW, p.inputH, p.inputDepth] == s
      case OutputLayer(o) => o.inputSize == CalcProduct(s)
    }

    /** The shape the layer's geometry fixes at construction is well formed. */
    predicate Shaped() {
      match this
      case ConvLayer(c) => c.geometry.Valid()
      case PoolLayer(p) => p.regionW > 0 && p.regionH > 0
      case _ => true
    }

    /**
     * `outputSize`: a dense or output layer's size, the convolution's feature
     * maps, or the input shrunk by the pooling region.
     */
    function OutputSize(): Size3
      requires Shaped()
    {
      match this
      case DenseLayer(d) => [d.size, 1, 1]
      case ConvLayer(c) => c.geometry.OutputSize()
      case PoolLayer(p) => [p.Shape().OutW(), p.Shape().OutH(), p.inputDepth]
      case OutputLayer(o) => [o.size, 1, 1]
    }

    /** What `writeToStream` appends: biases then weights, filter by filter, or nothing. */
    function Stream(): seq<real>
      reads Object()
    {
      match this
      case DenseLayer(d) => Dense.Serialized(d.B, d.W)
      case ConvLayer(c) => Conv.FilterStream(c.filters)
      case PoolLayer(_) => []
      case OutputLayer(o) => Dense.Serialized(o.B, o.W)
    }
  }

  /**
   * What layer construction draws on that the model takes as given: the
   * sigmoid the dense and output layers use, and the random values each
   * layer (by its index) draws for its initial weights.
   */
  datatype Env = Env(sigmoid: real -> real, sigmoidPrime: real -> real,
                     denseRandom: nat -> nat -> real, convRandom: nat -> (nat, nat) -> real)

  /** Where a layer call takes an argument from. */
  datatype Source = Sample | Label | Activations(layer: nat) | InputDelta(layer: nat)

  /** One thing `train` does: a layer call, a data-set call or an event. */
  datatype Step =
    | TrainForward(layer: nat, input: Source)
    | UpdateDeltas(layer: nat, input: Source, outputs: Source)
    | UpdateParams(layer: nat, epoch: nat)
    | LoadSamples
    | SeekToBeginning
    | EpochStarted(epoch: nat, epochs: nat)
    | SampleProcessed(sample: nat, samples: nat)
    | EpochCompleted(epoch: nat, epochs: nat)

  /** `feedForward`: every layer in order, each fed what the layer before it produced. */
  function ForwardSteps(n: nat): (r: seq<Step>) {
    seq(n, i requires 0 <= i < n => TrainForward(i, if i == 0 then Sample else Activations(i - 1)))
  }

  /**
   * The call `backPropagate` makes on layer `i` of `n`: the last layer gets
   * the label, every other layer the input delta of the layer after it.
   */
  function DeltaStep(n: nat, i: nat): Step
    requires 2 <= n && i < n
  {
    if i == n - 1 then UpdateDeltas(i, Activations(i - 1), Label)
    else if i == 0 then UpdateDeltas(i, Sample, InputDelta(i + 1))
    else UpdateDeltas(i, Activations(i - 1), InputDelta(i + 1))
  }

  /** `backPropagate`: the layers from last to first. */
  function BackpropSteps(n: nat): seq<Step>
    requires 2 <= n
  {
    seq(n, j requires 0 <= j < n => DeltaStep(n, n - 1 - j))
  }

  /** `updateParams(epoch)`: every layer in order. */
  function UpdateSteps(n: nat, epoch: nat): seq<Step> {
    seq(n, i requires 0 <= i < n => UpdateParams(i, epoch))
  }

  /** Sample `k` of an epoch: forward, backward, the update when `update` says so, then the event. */
  function SampleSteps(n: nat, epoch: nat, k: nat, batchSize: nat, update: bool): seq<Step>
    requires 2 <= n
  {
    ForwardSteps(n) + BackpropSteps(n) + (if update then UpdateSteps(n, epoch) else []) +
    [SampleProcessed(k, batchSize)]
  }

  /** Whether the parameters are updated after sample `k` (`UpdateAfter`). */
  function Schedule(params: Hyperparams): nat -> bool {
    (k: nat) => params.miniBatchSize > 0 && UpdateAfter(params, k)
  }

  /**
   * The steps of each sample of an epoch. The epoch functions take it as a
   * function value, so that the lemmas about them hold for any sample body.
   */
  function SampleBody(n: nat, params: Hyperparams, epoch: nat): nat -> seq<Step>
    requires 2 <= n
  {
    (k: nat) => SampleSteps(n, epoch, k, params.batchSize, Schedule(params)(k))
  }

  /** Samples `a` to `b - 1` of an epoch. */
  function Samples(body: nat -> seq<Step>, a: nat, b: nat): seq<Step>
    decreases b - a
  {
    if b <= a then [] else Samples(body, a, b - 1) + body(b - 1)
  }

  /**
   * The number of samples after which an epoch stops: `batchSize`, except
   * that the check follows the first sample, so at least one is processed.
   */
  function Limit(batchSize: nat): (l: nat)
    ensures l > 0 && (batchSize > 0 ==> l == batchSize)
  {
    if batchSize == 0 then 1 else batchSize
  }

  /** The steps of a fetch loop: each fetch starts the next load, then processes its samples. */
  function Expand(body: nat -> seq<Step>, plan: seq<Chunk>): seq<Step> {
    if plan == [] then []
    else [LoadSamples] + Samples(body, plan[0].first, plan[0].last) + Expand(body, plan[1..])
  }

  /** The fetch loop's trace after fetch `f`, from its trace before. */
  lemma FetchAdvance(body: nat -> seq<Step>, limit: nat, fetches: seq<nat>, f: nat, processed: nat, p: nat,
                     before: seq<Step>, after: seq<Step>, goal: seq<Step>)
    requires processed < limit
    requires f < |fetches| && fetches[f] > 0 && p == processed + Min(fetches[f], limit - processed)
    requires before + Expand(body, FetchPlan(limit, fetches, f, processed)) == goal
    requires after == before + [LoadSamples] + Samples(body, processed, p)
    ensures p == limit ==> after == goal
    ensures p < limit ==> after + Expand(body, FetchPlan(limit, fetches, f + 1, p)) == goal
  {
    var x := [LoadSamples] + Samples(body, processed, p);
    FetchPlanStep(limit, fetches, f, processed, p);
    if p == limit {
      ExpandCons(body, Chunk(f, processed, p), []);
      Regroup(before, x, [], goal);
    } else {
      var rest := FetchPlan(limit, fetches, f + 1, p);
      ExpandCons(body, Chunk(f, processed, p), rest);
      Regroup(before, x, Expand(body, rest), goal);
    }
  }

  lemma ExpandCons(body: nat -> seq<Step>, c: Chunk, plan: seq<Chunk>)
    ensures Expand(body, [c] + plan) == [LoadSamples] + Samples(body, c.first, c.last) + Expand(body, plan)
  {
    assert ([c] + plan)[1..] == plan;
  }

  /** One epoch: the start event and first load, the fetch loop, the completion event and the rewind. */
  function EpochSteps(n: nat, params: Hyperparams, fetches: seq<nat>, epoch: nat): seq<Step>
    requires 2 <= n
  {
    [EpochStarted(epoch, params.epochs), LoadSamples] +
    Expand(SampleBody(n, params, epoch), FetchPlan(Limit(params.batchSize), fetches, 0, 0)) +
    [EpochCompleted(epoch, params.epochs), SeekToBeginning]
  }

  /**
   * The epochs from `epoch` on: each runs unless the abort flag is seen
   * set at its start, which ends training.
   */
  function Epochs(n: nat, params: Hyperparams, fetches: seq<nat>, abortSeen: nat -> bool, epoch: nat): seq<Step>
    requires 2 <= n
    decreases params.epochs - epoch
  {
    if epoch >= params.epochs || abortSeen(epoch) then []
    else EpochSteps(n, params, fetches, epoch) + Epochs(n, params, fetches, abortSeen, epoch + 1)
  }

  /*
   * What the schedule promises.
   */

  /** The sample numbers the `SampleProcessed` events of `steps` carry, in order. */
  function SampleNumbers(steps: seq<Step>): seq<nat> {
    if steps == [] then []
    else
      var last := steps[|steps| - 1];
      SampleNumbers(steps[..|steps| - 1]) + (if last.SampleProcessed? then [last.sample] else [])
  }

  lemma {:induction false} SampleNumbersAppend(a: seq<Step>, b: seq<Step>)
    ensures SampleNumbers(a + b) == SampleNumbers(a) + SampleNumbers(b)
    decreases |b|
  {
    if b == [] {
      assert a + b == a;
    } else {
      var b' := b[..|b| - 1];
      assert (a + b)[..|a + b| - 1] == a + b';
      SampleNumbersAppend(a, b');
    }
  }

  /** No layer call raises an event. */
  lemma {:induction false} NoSampleNumbers(steps: seq<Step>)
    requires forall i | 0 <= i < |steps| :: !steps[i].SampleProcessed?
    ensures SampleNumbers(steps) == []
    decreases |steps|
  {
    if steps != [] {
      NoSampleNumbers(steps[..|steps| - 1]);
    }
  }

  /** The calls a sample makes on the layers, before its event. */
  lemma SampleCallsRaiseNothing(n: nat, epoch: nat, update: bool)
    requires 2 <= n
    ensures SampleNumbers(ForwardSteps(n) + BackpropSteps(n) + (if update then UpdateSteps(n, epoch) else [])) == []
  {
    var forward, backward := ForwardSteps(n), BackpropSteps(n);
    var updates: seq<Step> := if update then UpdateSteps(n, epoch) else [];
    forall i | 0 <= i < n
      ensures !forward[i].SampleProcessed? && !backward[i].SampleProcessed?
    {
      assert forward[i] == TrainForward(i, if i == 0 then Sample else Activations(i - 1));
      assert backward[i] == DeltaStep(n, n - 1 - i);
    }
    forall i | 0 <= i < |updates|
      ensures !updates[i].SampleProcessed?
    {
      assert updates[i] == UpdateParams(i, epoch);
    }
    NoSampleNumbers(forward);
    NoSampleNumbers(backward);
    NoSampleNumbers(updates);
    SampleNumbersAppend(forward + backward, updates);
    SampleNumbersAppend(forward, backward);
  }

  /** Sample `k` raises exactly one event, numbered `k`. */
  lemma SampleStepsNumbers(n: nat, epoch: nat, k: nat, batchSize: nat, update: bool)
    requires 2 <= n
    ensures SampleNumbers(SampleSteps(n, epoch, k, batchSize, update)) == [k]
  {
    var calls := ForwardSteps(n) + BackpropSteps(n) + (if update then UpdateSteps(n, epoch) else []);
    SampleCallsRaiseNothing(n, epoch, update);
    SampleNumbersAppend(calls, [SampleProcessed(k, batchSize)]);
    assert SampleNumbers([SampleProcessed(k, batchSize)]) == [k] by {
      assert [SampleProcessed(k, batchSize)][..0] == [];
    }
  }

  /** The numbers `a` to `b - 1`. */
  function Range(a: nat, b: nat): seq<nat>
    requires a <= b
  {
    seq(b - a, i requires 0 <= i < b - a => a + i)
  }

  lemma RangeAppend(a: nat, b: nat, c: nat)
    requires a <= b <= c
    ensures Range(a, b) + Range(b, c) == Range(a, c)
  {
  }

  /** Appending one more number to the numbers of `x`. */
  lemma NumbersThenOne(x: seq<Step>, y: seq<Step>, a: nat, k: nat)
    requires a <= k && SampleNumbers(x) == Range(a, k) && SampleNumbers(y) == [k]
    ensures SampleNumbers(x + y) == Range(a, k + 1)
  {
    SampleNumbersAppend(x, y);
  }

  /** A sample body whose `k`-th sample raises exactly the event numbered `k`. */
  ghost predicate NumbersItself(body: nat -> seq<Step>) {
    forall k: nat :: SampleNumbers(body(k)) == [k]
  }

  /** Samples `a` to `b - 1` raise one event each, in order. */
  lemma {:induction false} SamplesNumbers(body: nat -> seq<Step>, a: nat, b: nat)
    requires NumbersItself(body) && a <= b
    ensures SampleNumbers(Samples(body, a, b)) == Range(a, b)
    decreases b - a
  {
    if a < b {
      SamplesNumbers(body, a, b - 1);
      NumbersThenOne(Samples(body, a, b - 1), body(b - 1), a, b - 1);
    }
  }

  /** Expanding consecutive chunks numbers their samples in order. */
  lemma {:induction false} ExpandNumbers(body: nat -> seq<Step>, plan: seq<Chunk>, counts: seq<nat>, a: nat, b: nat)
    requires NumbersItself(body) && Covers(plan, counts, a, b)
    ensures a <= b && SampleNumbers(Expand(body, plan)) == Range(a, b)
    decreases |plan|
  {
    if plan != [] {
      var c := plan[0];
      var samples := Samples(body, c.first, c.last);
      var rest := Expand(body, plan[1..]);
      ExpandNumbers(body, plan[1..], counts, c.last, b);
      SamplesNumbers(body, c.first, c.last);
      SampleNumbersAppend([LoadSamples] + samples, rest);
      SampleNumbersAppend([LoadSamples], samples);
      NoSampleNumbers([LoadSamples]);
      RangeAppend(a, c.last, b);
    }
  }

  /**
   * An epoch processes the samples numbered 0, 1, ... in order, as many as
   * the data set holds but no more than `batchSize` (and at least one when
   * there is data), raising one `SampleProcessed` event for each.
   */
  lemma EpochSampleNumbers(n: nat, params: Hyperparams, fetches: seq<nat>, epoch: nat)
    requires 2 <= n
    ensures SampleNumbers(EpochSteps(n, params, fetches, epoch)) ==
      Range(0, Min(Available(fetches, 0), Limit(params.batchSize)))
  {
    var body := SampleBody(n, params, epoch);
    forall k: nat
      ensures SampleNumbers(body(k)) == [k]
    {
      SampleStepsNumbers(n, epoch, k, params.batchSize, Schedule(params)(k));
    }
    var head := [EpochStarted(epoch, params.epochs), LoadSamples];
    var plan := FetchPlan(Limit(params.batchSize), fetches, 0, 0);
    var loop := Expand(body, plan);
    var tail := [EpochCompleted(epoch, params.epochs), SeekToBeginning];
    SampleNumbersAppend(head + loop, tail);
    SampleNumbersAppend(head, loop);
    NoSampleNumbers(head);
    NoSampleNumbers(tail);
    FetchPlanCovers(Limit(params.batchSize), fetches, 0, 0);
    ExpandNumbers(body, plan, fetches, 0, Min(Available(fetches, 0), Limit(params.batchSize)));
  }

  /**
   * The parameters are updated after sample `k` exactly when `k + 1` is a
   * multiple of the mini-batch size or `k` is the batch's last sample.
   */
  lemma UpdateSchedule(n: nat, params: Hyperparams, epoch: nat, k: nat)
    requires 2 <= n && params.miniBatchSize > 0
    ensures UpdateParams(0, epoch) in SampleSteps(n, epoch, k, params.batchSize, Schedule(params)(k)) <==>
      (k + 1) % params.miniBatchSize == 0 || k + 1 == params.batchSize
  {
    var update := Schedule(params)(k);
    var forward, backward := ForwardSteps(n), BackpropSteps(n);
    var updates: seq<Step> := if update then UpdateSteps(n, epoch) else [];
    var event := [SampleProcessed(k, params.batchSize)];
    assert SampleSteps(n, epoch, k, params.batchSize, update) == forward + backward + updates + event;
    forall i | 0 <= i < n
      ensures forward[i] != UpdateParams(0, epoch) && backward[i] != UpdateParams(0, epoch)
    {
      assert forward[i] == TrainForward(i, if i == 0 then Sample else Activations(i - 1));
      assert backward[i] == DeltaStep(n, n - 1 - i);
    }
    if update {
      assert updates[0] == UpdateParams(0, epoch);
    }
  }

  /** Backpropagation gives each layer the same input its forward pass read. */
  lemma BackpropInputsMatchForward(n: nat, i: nat)
    requires 2 <= n && i < n
    ensures ForwardSteps(n)[i] == TrainForward(i, DeltaStep(n, i).input)
    ensures DeltaStep(n, i).outputs == if i == n - 1 then Label else InputDelta(i + 1)
  {
  }

  /** The objects behind `layers`. */
  ghost function Objects(layers: seq<Layer>): set<object> {
    set i | 0 <= i < |layers| :: layers[i].Object()
  }

  /**
   * Each layer was built for `shapes[i]`: the first for `input`, every other
   * for the shape the layer before it outputs.
   */
  predicate Chained(layers: seq<Layer>, shapes: seq<Size3>, input: Size3) {
    |shapes| == |layers| && (|layers| > 0 ==> shapes[0] == input) &&
    (forall i | 0 <= i < |layers| :: layers[i].Shaped() && layers[i].Accepts(shapes[i])) &&
    (forall i | 0 <= i < |layers| - 1 :: shapes[i + 1] == layers[i].OutputSize())
  }

  /** A layer built for the shape the chain ends with extends the chain. */
  lemma ChainedAppend(layers: seq<Layer>, shapes: seq<Size3>, input: Size3, layer: Layer, prev: Size3)
    requires Chained(layers, shapes, input) && layer.Shaped() && layer.Accepts(prev)
    requires prev == if |layers| == 0 then input else layers[|layers| - 1].OutputSize()
    ensures Chained(layers + [layer], shapes + [prev], input)
  {
    var ls := layers + [layer];
    forall i | 0 <= i < |ls|
      ensures ls[i].Shaped() && ls[i].Accepts((shapes + [prev])[i])
    {
      if i < |layers| {
        assert ls[i] == layers[i];
      }
    }
  }

  /** Each of `layers` has the type its configuration in `hidden` names. */
  predicate NamedAs(hidden: seq<Cfg.ConfigData>, layers: seq<Layer>) {
    |layers| <= |hidden| &&
    forall j | 0 <= j < |layers| :: TypeNameOf(hidden[j]) == Some(ConfigName(layers[j].Type()))
  }

  /** A layer of the type the next configuration names extends the match. */
  lemma NamedAppend(hidden: seq<Cfg.ConfigData>, layers: seq<Layer>, layer: Layer)
    requires NamedAs(hidden, layers) && |layers| < |hidden|
    requires TypeNameOf(hidden[|layers|]) == Some(ConfigName(layer.Type()))
    ensures NamedAs(hidden, layers + [layer])
  {
    assert forall j | 0 <= j < |layers| :: (layers + [layer])[j] == layers[j];
  }

  /** Extending the layers by one adds that layer's object and no other. */
  lemma ObjectsExtend(layers: seq<Layer>, next: seq<Layer>)
    requires |next| == |layers| + 1 && forall j | 0 <= j < |layers| :: next[j] == layers[j]
    ensures Objects(next) == Objects(layers) + {next[|layers|].Object()}
  {
    forall o | o in Objects(next) ensures o in Objects(layers) + {next[|layers|].Object()} {
      var j :| 0 <= j < |next| && next[j].Object() == o;
      if j < |layers| {
        assert layers[j].Object() == o;
      }
    }
    forall o | o in Objects(layers) ensures o in Objects(next) {
      var j :| 0 <= j < |layers| && layers[j].Object() == o;
      assert next[j].Object() == o;
    }
  }

  /** What `layers` write, in order. */
  ghost function Written(layers: seq<Layer>): seq<real>
    reads Objects(layers)
  {
    if layers == [] then []
    else
      var init := layers[..|layers| - 1];
      assert Objects(init) <= Objects(layers) by {
        assert forall i | 0 <= i < |init| :: init[i] == layers[i];
      }
      assert layers[|layers| - 1].Object() in Objects(layers);
      Written(init) + layers[|layers| - 1].Stream()
  }

  /** `Written` over the first `i + 1` layers, from `Written` over the first `i`. */
  lemma WrittenStep(layers: seq<Layer>, i: nat)
    requires i < |layers|
    ensures Written(layers[..i + 1]) == Written(layers[..i]) + layers[i].Stream()
  {
    assert layers[..i + 1][..i] == layers[..i];
  }

  class CpuNeuralNet {
    const inputShape: Size3
    const params: Hyperparams
    const layers: seq<Layer>
    /** The shape each layer was built for. */
    const inputShapes: seq<Size3>
    var trained: bool
    /** What `train` has done so far. */
    var trace: seq<Step>

    /** The layers, chained from the network's input shape, with the output layer last. */
    predicate Valid() {
      |layers| > 0 && layers[|layers| - 1].OutputLayer? && Chained(layers, inputShapes, inputShape)
    }

    constructor (inputShape: Size3, params: Hyperparams, layers: seq<Layer>, inputShapes: seq<Size3>, trained: bool)
      ensures this.inputShape == inputShape && this.params == params && this.layers == layers
      ensures this.inputShapes == inputShapes && this.trained == trained && trace == []
    {
      this.inputShape, this.params, this.layers, this.inputShapes := inputShape, params, layers, inputShapes;
      this.trained := trained;
      trace := [];
    }

    /** A dense or output layer of `CalcProduct(prev)` inputs. */
    static method ConstructDense(config: Cfg.Config, prev: Size3, isOutput: bool, stream: Option<seq<real>>, env: Env, index: nat)
      returns (r: Result<(Layer, Option<seq<real>>)>)
      ensures r.Ok? ==>
        var (layer, rest) := r.value;
        (if isOutput then layer.OutputLayer? else layer.DenseLayer?) &&
        fresh(layer.Object()) && layer.Shaped() && layer.Accepts(prev) && rest.Some? == stream.Some?
    {
      var built :- Dense.DenseLayer.Create(config, CalcProduct(prev), isOutput, env.sigmoid, env.sigmoidPrime,
        env.denseRandom(index), stream);
      var layer := if isOutput then OutputLayer(built.0) else DenseLayer(built.0);
      return Ok((layer, if stream.Some? then Some(built.1) else None));
    }

    /** A convolutional layer for input of shape `prev`. */
    static method ConstructConv(config: Cfg.Config, prev: Size3, stream: Option<seq<real>>, env: Env, index: nat)
      returns (r: Result<(Layer, Option<seq<real>>)>)
      ensures r.Ok? ==>
        var (layer, rest) := r.value;
        layer.ConvLayer? && fresh(layer.Object()) && layer.Shaped() && layer.Accepts(prev) && rest.Some? == stream.Some?
    {
      var built :- Conv.ConvolutionalLayer.Create(config, prev, env.convRandom(index), stream);
      return Ok((ConvLayer(built.0), if stream.Some? then Some(built.1) else None));
    }

    /** A max-pooling layer for input of shape `prev`, with the configured region. */
    static method ConstructPool(config: Cfg.Config, prev: Size3)
      returns (r: Result<Layer>)
      requires RegionPositive(config.Data()) && config.GetString("type") == Ok("maxPooling")
      ensures r.Ok? ==> r.value.PoolLayer? && fresh(r.value.Object()) && r.value.Shaped() && r.value.Accepts(prev)
    {
      var region :- Layers.GetSizePair(config, "regionSize");
      RegionOf(config);
      var layer :- Pool.MaxPoolingLayer.Create(prev, region.0, region.1);
      return Ok(PoolLayer(layer));
    }

    /**
     * `constructLayer`: the "type" string picks the class; dense and output
     * layers get the product of the previous shape, the others the shape.
     * With a stream, the layer reads its parameters from it and the rest is
     * returned.
     */
    static method ConstructLayer(config: Cfg.Config, prev: Size3, stream: Option<seq<real>>, env: Env, index: nat)
      returns (r: Result<(Layer, Option<seq<real>>)>)
      requires RegionPositive(config.Data())
      ensures config.GetString("type").Err? ==> r == Err(config.GetString("type").message)
      ensures config.GetString("type").Ok? && TypeOf(config.GetString("type").value).None? ==>
        r == Err(UnknownType(config.GetString("type").value))
      ensures r.Ok? ==>
        var (layer, rest) := r.value;
        config.GetString("type") == Ok(ConfigName(layer.Type())) &&
        fresh(layer.Object()) && layer.Shaped() && layer.Accepts(prev) && rest.Some? == stream.Some?
      ensures r.Ok? && r.value.0.PoolLayer? ==> r.value.1 == stream
    {
      var name :- config.GetString("type");
      if name == "dense" {
        r := ConstructDense(config, prev, false, stream, env, index);
      } else if name == "convolutional" {
        r := ConstructConv(config, prev, stream, env, index);
      } else if name == "maxPooling" {
        var layer :- ConstructPool(config, prev);
        r := Ok((layer, stream));
      } else if name == "output" {
        r := ConstructDense(config, prev, true, stream, env, index);
      } else {
        r := Err(UnknownType(name));
      }
    }

    /**
     * The hidden layers of `initialize`, in order, each built for the shape
     * the one before it outputs; returns the shape the last one outputs and
     * what is left of the stream.
     */
    static method BuildHidden(hidden: seq<Cfg.ConfigData>, inputShape: Size3, stream: Option<seq<real>>, env: Env)
      returns (r: Result<(seq<Layer>, seq<Size3>, Size3, Option<seq<real>>)>)
      requires forall k | 0 <= k < |hidden| :: RegionPositive(hidden[k])
      ensures r.Ok? ==>
        |r.value.0| == |hidden| && fresh(Objects(r.value.0)) &&
        BuiltPrefix(hidden, inputShape, stream, r.value.0, r.value.1, r.value.2, r.value.3)
    {
      var layers: seq<Layer> := [];
      var shapes: seq<Size3> := [];
      var prev := inputShape;
      var s := stream;
      for i := 0 to |hidden|
        invariant |layers| == i && fresh(Objects(layers))
        invariant BuiltPrefix(hidden, inputShape, stream, layers, shapes, prev, s)
      {
        var next :- BuildNext(hidden, inputShape, stream, layers, shapes, prev, s, env);
        ObjectsExtend(layers, next.0);
        layers, shapes, prev, s := next.0, next.1, next.2, next.3;
      }
      return Ok((layers, shapes, prev, s));
    }

    /** What `BuildHidden` has after building `layers`: a chain whose types match the configurations. */
    static predicate BuiltPrefix(hidden: seq<Cfg.ConfigData>, inputShape: Size3, stream: Option<seq<real>>,
                                 layers: seq<Layer>, shapes: seq<Size3>, prev: Size3, s: Option<seq<real>>)
    {
      Chained(layers, shapes, inputShape) &&
      prev == (if |layers| == 0 then inputShape else layers[|layers| - 1].OutputSize()) &&
      s.Some? == stream.Some? && NamedAs(hidden, layers)
    }

    /** One step of `BuildHidden`: the next hidden layer, built for the shape the chain ends with. */
    static method BuildNext(hidden: seq<Cfg.ConfigData>, inputShape: Size3, stream: Option<seq<real>>,
                            layers: seq<Layer>, shapes: seq<Size3>, prev: Size3, s: Option<seq<real>>, env: Env)
      returns (r: Result<(seq<Layer>, seq<Size3>, Size3, Option<seq<real>>)>)
      requires forall k | 0 <= k < |hidden| :: RegionPositive(hidden[k])
      requires |layers| < |hidden| && BuiltPrefix(hidden, inputShape, stream, layers, shapes, prev, s)
      ensures r.Ok? ==>
        |r.value.0| == |layers| + 1 && (forall j | 0 <= j < |layers| :: r.value.0[j] == layers[j]) &&
        fresh(r.value.0[|layers|].Object()) &&
        BuiltPrefix(hidden, inputShape, stream, r.value.0, r.value.1, r.value.2, r.value.3)
    {
      var i := |layers|;
      var obj := new Cfg.Config.Copy(hidden[i]);
      var built :- ConstructLayer(obj, prev, s, env, i);
      var (layer, rest) := built;
      ChainedAppend(layers, shapes, inputShape, layer, prev);
      NamedAppend(hidden, layers, layer);
      return Ok((layers + [layer], shapes + [prev], layer.OutputSize(), rest));
    }

    /** The output layer: the configuration copied, with its type forced to "output". */
    static method ConstructOutput(data: Cfg.ConfigData, prev: Size3, stream: Option<seq<real>>, env: Env, index: nat)
      returns (r: Result<Layer>)
      ensures r.Ok? ==> r.value.OutputLayer? && fresh(r.value.Object()) && r.value.Shaped() && r.value.Accepts(prev)
    {
      var out := new Cfg.Config.Copy(data);
      out.SetString("type", "output");
      var last :- ConstructLayer(out, prev, stream, env, index);
      return Ok(last.0);
    }

    /**
     * The hidden layers in order, each built for the previous layer's
     * output shape, then the output layer from "outputLayer".
     */
    static method ChainLayers(inputShape: Size3, hidden: seq<Cfg.ConfigData>, config: Cfg.Config,
                              stream: Option<seq<real>>, env: Env)
      returns (r: Result<(seq<Layer>, seq<Size3>)>)
      requires forall k | 0 <= k < |hidden| :: RegionPositive(hidden[k])
      ensures r.Ok? ==>
        var (layers, shapes) := r.value;
        |layers| == |hidden| + 1 && layers[|layers| - 1].OutputLayer? &&
        (forall i | 0 <= i < |layers| :: fresh(layers[i].Object())) &&
        Chained(layers, shapes, inputShape) && NamedAs(hidden, layers[..|hidden|])
    {
      var built :- BuildHidden(hidden, inputShape, stream, env);
      var (layers, shapes, prev, s) := built;
      var outData :- config.GetObject("outputLayer");
      var outputLayer :- ConstructOutput(outData, prev, s, env, |hidden|);
      ChainedAppend(layers, shapes, inputShape, outputLayer, prev);
      var all := layers + [outputLayer];
      assert all[..|hidden|] == layers;
      ObjectsExtend(layers, all);
      forall i | 0 <= i < |all| ensures fresh(all[i].Object()) {
        assert all[i].Object() in Objects(all);
      }
      return Ok((all, shapes + [prev]));
    }

    /**
     * The constructors (`initialize`): the hyperparameters, the hidden layers
     * in order, each built for the previous layer's output shape, then the
     * output layer from "outputLayer" with its type forced to "output". A
     * network read from a stream counts as trained.
     */
    static method Create(inputShape: Size3, config: Cfg.Config, stream: Option<seq<real>>, env: Env)
      returns (r: Result<CpuNeuralNet>)
      requires HiddenRegionsPositive(config)
      ensures "hyperparams" !in config.entries ==> r == Err(Cfg.NotFound("hyperparams"))
      ensures r.Ok? ==>
        var net := r.value;
        fresh(net) && (forall i | 0 <= i < |net.layers| :: fresh(net.layers[i].Object())) && net.Valid() &&
        net.inputShape == inputShape &&
        config.GetObject("hyperparams").Ok? && HyperparamsOf(config.GetObject("hyperparams").value) == Ok(net.params) &&
        |net.layers| == |HiddenConfigs(config)| + 1 &&
        (forall i | 0 <= i < |HiddenConfigs(config)| ::
          TypeNameOf(HiddenConfigs(config)[i]) == Some(ConfigName(net.layers[i].Type()))) &&
        net.trained == stream.Some? && net.trace == []
    {
      var hpData :- config.GetObject("hyperparams");
      var params :- HyperparamsOf(hpData);
      var hidden: seq<Cfg.ConfigData> := [];
      if config.Contains("hiddenLayers") {
        hidden :- config.GetObjectArray("hiddenLayers");
      }
      assert hidden == HiddenConfigs(config);
      var chain :- ChainLayers(inputShape, hidden, config, stream, env);
      var net := new CpuNeuralNet(inputShape, params, chain.0, chain.1, stream.Some?);
      return Ok(net);
    }

    /** `feedForward`, as far as the network is concerned (the cost it returns is not modelled). */
    method FeedForward()
      modifies this`trace
      ensures trace == old(trace) + ForwardSteps(|layers|)
    {
      ghost var steps := ForwardSteps(|layers|);
      for i := 0 to |layers|
        invariant trace == old(trace) + steps[..i]
      {
        trace := trace + [TrainForward(i, if i == 0 then Sample else Activations(i - 1))];
        assert steps[..i + 1] == steps[..i] + [steps[i]];
      }
      assert steps[..|layers|] == steps;
    }

    /** `backPropagate`: from the last layer down to the first. */
    method BackPropagate()
      requires |layers| >= 2
      modifies this`trace
      ensures trace == old(trace) + BackpropSteps(|layers|)
    {
      var n := |layers|;
      ghost var steps := BackpropSteps(n);
      var i: int := n - 1;
      while i >= 0
        invariant -1 <= i < n && trace == old(trace) + steps[..n - 1 - i]
      {
        var step := if i == n - 1 then UpdateDeltas(i, Activations(i - 1), Label)
          else if i == 0 then UpdateDeltas(i, Sample, InputDelta(i + 1))
          else UpdateDeltas(i, Activations(i - 1), InputDelta(i + 1));
        assert steps[n - 1 - i] == DeltaStep(n, i) == step;
        trace := trace + [step];
        assert steps[..n - i] == steps[..n - 1 - i] + [steps[n - 1 - i]];
        i := i - 1;
      }
      assert steps[..n] == steps;
    }

    /** `updateParams(epoch)`. */
    method UpdateLayers(epoch: nat)
      modifies this`trace
      ensures trace == old(trace) + UpdateSteps(|layers|, epoch)
    {
      ghost var steps := UpdateSteps(|layers|, epoch);
      for i := 0 to |layers|
        invariant trace == old(trace) + steps[..i]
      {
        trace := trace + [UpdateParams(i, epoch)];
        assert steps[..i + 1] == steps[..i] + [steps[i]];
      }
      assert steps[..|layers|] == steps;
    }

    /** The body of `train`'s sample loop for sample `k`. */
    method ProcessSample(epoch: nat, k: nat)
      requires |layers| >= 2 && params.miniBatchSize > 0
      modifies this`trace
      ensures trace == old(trace) + SampleSteps(|layers|, epoch, k, params.batchSize, Schedule(params)(k))
    {
      FeedForward();
      BackPropagate();
      if (k + 1) % params.miniBatchSize == 0 || k + 1 == params.batchSize {
        UpdateLayers(epoch);
      } else {
        assert trace == old(trace) + ForwardSteps(|layers|) + BackpropSteps(|layers|) + [];
      }
      trace := trace + [SampleProcessed(k, params.batchSize)];
    }

    /**
     * The samples of one fetch of `size`, from sample number `processed`:
     * stops early once `batchSize` samples have been processed.
     */
    method ProcessFetch(epoch: nat, size: nat, processed: nat) returns (processed': nat)
      requires |layers| >= 2 && params.miniBatchSize > 0 && processed < Limit(params.batchSize)
      modifies this`trace
      ensures processed' == processed + Min(size, Limit(params.batchSize) - processed)
      ensures trace == old(trace) + Samples(SampleBody(|layers|, params, epoch), processed, processed')
    {
      processed' := processed;
      var i := 0;
      while i < size
        invariant i <= size && processed' == processed + i && processed' < Limit(params.batchSize)
        invariant trace == old(trace) + Samples(SampleBody(|layers|, params, epoch), processed, processed')
      {
        ProcessSample(epoch, processed');
        processed' := processed' + 1;
        if processed' >= params.batchSize {
          return;
        }
        i := i + 1;
      }
    }

    /** One epoch of `train`: the fetch loop between the start and completion events. */
    method RunEpoch(fetches: seq<nat>, epoch: nat)
      requires |layers| >= 2 && params.miniBatchSize > 0
      modifies this`trace
      ensures trace == old(trace) + EpochSteps(|layers|, params, fetches, epoch)
    {
      ghost var head := [EpochStarted(epoch, params.epochs), LoadSamples];
      ghost var tail := [EpochCompleted(epoch, params.epochs), SeekToBeginning];
      trace := trace + [EpochStarted(epoch, params.epochs), LoadSamples];
      ghost var started := trace;
      FetchLoop(fetches, epoch);
      ghost var loop := trace[|started|..];
      assert trace == old(trace) + head + loop;
      trace := trace + [EpochCompleted(epoch, params.epochs), SeekToBeginning];
      assert EpochSteps(|layers|, params, fetches, epoch) == head + loop + tail;
    }

    /** The fetch loop of an epoch: fetch after fetch until the data runs out or a batch is done. */
    method FetchLoop(fetches: seq<nat>, epoch: nat)
      requires |layers| >= 2 && params.miniBatchSize > 0
      modifies this`trace
      ensures trace == old(trace) + Expand(SampleBody(|layers|, params, epoch), FetchPlan(Limit(params.batchSize), fetches, 0, 0))
    {
      var n := |layers|;
      ghost var goal := trace + Expand(SampleBody(n, params, epoch), FetchPlan(Limit(params.batchSize), fetches, 0, 0));
      var processed: nat := 0;
      var f: nat := 0;
      var size := if f < |fetches| then fetches[f] else 0;
      while size > 0
        invariant processed < Limit(params.batchSize) && size == (if f < |fetches| then fetches[f] else 0)
        invariant trace + Expand(SampleBody(n, params, epoch), FetchPlan(Limit(params.batchSize), fetches, f, processed)) == goal
        decreases |fetches| - f
      {
        ghost var before := trace;
        trace := trace + [LoadSamples];
        var p := ProcessFetch(epoch, size, processed);
        FetchAdvance(SampleBody(n, params, epoch), Limit(params.batchSize), fetches, f, processed, p, before, trace, goal);
        if p >= params.batchSize {
          assert p == Limit(params.batchSize);
          break;
        }
        processed, f := p, f + 1;
        size := if f < |fetches| then fetches[f] else 0;
      }
      assert trace == goal;
    }

    /**
     * `train` on a data set whose fetches have the sizes `fetches` (the same
     * after every rewind). `abortSeen(e)` is whether the abort flag, set by
     * `abort` from another thread, reads as set at the start of epoch `e`.
     * The source indexes the layer before the last, so a hidden layer is
     * required.
     */
    method Train(fetches: seq<nat>, abortSeen: nat -> bool)
      requires |layers| >= 2 && params.miniBatchSize > 0
      modifies this`trace, this`trained
      ensures trained
      ensures trace == old(trace) + Epochs(|layers|, params, fetches, abortSeen, 0)
    {
      var n := |layers|;
      ghost var goal := old(trace) + Epochs(n, params, fetches, abortSeen, 0);
      var epoch := 0;
      while epoch < params.epochs
        invariant epoch <= params.epochs
        invariant trace + Epochs(n, params, fetches, abortSeen, epoch) == goal
      {
        if abortSeen(epoch) {
          break;
        }
        ghost var before := trace;
        RunEpoch(fetches, epoch);
        assert Epochs(n, params, fetches, abortSeen, epoch) ==
          EpochSteps(n, params, fetches, epoch) + Epochs(n, params, fetches, abortSeen, epoch + 1);
        epoch := epoch + 1;
      }
      trained := true;
    }

    /**
     * `evaluate`: each layer's `evalForward` (given as `eval`) applied to
     * what the layer before it returned, starting from the sample.
     */
    method Evaluate(x: seq<real>, eval: (nat, seq<real>) -> seq<real>) returns (A: seq<real>)
      requires |layers| > 0
      ensures A == Composed(eval, |layers|, x)
    {
      A := [];
      var i := 0;
      while i < |layers|
        invariant i <= |layers| && (i > 0 ==> A == Composed(eval, i, x))
      {
        A := eval(i, if i == 0 then x else A);
        i := i + 1;
      }
    }

    /**
     * `writeToStream`: refused for an untrained network; otherwise every
     * layer's parameters in order.
     */
    method WriteToStream(stream: seq<real>) returns (r: Result<seq<real>>)
      ensures !trained ==> r == Err(NotTrained)
      ensures trained ==> r == Ok(stream + Written(layers))
    {
      if !trained {
        return Err(NotTrained);
      }
      var out := stream;
      for i := 0 to |layers|
        invariant out == stream + Written(layers[..i])
      {
        WrittenStep(layers, i);
        out := out + layers[i].Stream();
      }
      assert layers[..|layers|] == layers;
      return Ok(out);
    }
  }
}
