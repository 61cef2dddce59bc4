/**
 * What the CPU and GPU networks share (librichard/src/neural_net.cpp and the
 * two implementations in librichard/src/cpu/cpu_neural_net.cpp and
 * librichard/src/gpu/gpu_neural_net.cpp): the hyperparameters read from the
 * "hyperparams" object, the layer type a layer configuration names, and the
 * error `constructLayer` reports for a type it does not know.
 */
module NeuralNets {
  import opened Wrappers
  import Cfg = Config
  import Layers

  /** `Hyperparams`: three `uint32_t` counts. */
  datatype Hyperparams = Hyperparams(epochs: nat, batchSize: nat, miniBatchSize: nat)

  /** `getNumber<uint32_t>(key)` on the entries of a copied configuration. */
  function Uint32Of(d: Cfg.ConfigData, key: string): (r: Result<nat>)
    ensures r.Ok? <==> key in d.entries
    ensures r.Ok? ==> Cfg.NumberOf(d.entries[key], Cfg.UInt32) == Cfg.IntNumber(r.value) && r.value < Cfg.Two32
    ensures r.Err? ==> r.message == Cfg.NotFound(key)
  {
    if key !in d.entries then Err(Cfg.NotFound(key))
    else Ok(Cfg.NumberOf(d.entries[key], Cfg.UInt32).i)
  }

  /**
   * `Hyperparams(config)`: "epochs", "batchSize" and "miniBatchSize", in
   * that order; the first one missing is the error.
   */
  function HyperparamsOf(d: Cfg.ConfigData): (r: Result<Hyperparams>)
    ensures r.Ok? <==> "epochs" in d.entries && "batchSize" in d.entries && "miniBatchSize" in d.entries
    ensures r.Err? ==> r.message == Cfg.NotFound(
      if "epochs" !in d.entries then "epochs"
      else if "batchSize" !in d.entries then "batchSize"
      else "miniBatchSize")
    ensures r.Ok? ==>
      Uint32Of(d, "epochs") == Ok(r.value.epochs) && Uint32Of(d, "batchSize") == Ok(r.value.batchSize) &&
      Uint32Of(d, "miniBatchSize") == Ok(r.value.miniBatchSize)
  {
    var epochs :- Uint32Of(d, "epochs");
    var batchSize :- Uint32Of(d, "batchSize");
    var miniBatchSize :- Uint32Of(d, "miniBatchSize");
    Ok(Hyperparams(epochs, batchSize, miniBatchSize))
  }

  /** The "type" string a layer configuration selects a layer type with. */
  function ConfigName(t: Layers.LayerType): string {
    match t
    case Dense => "dense"
    case Convolutional => "convolutional"
    case MaxPooling => "maxPooling"
    case Output => "output"
  }

  /** `constructLayer`'s dispatch: the type a "type" string names, if any. */
  function TypeOf(name: string): (r: Option<Layers.LayerType>)
    ensures r.Some? ==> ConfigName(r.value) == name
    ensures r.None? ==> forall t: Layers.LayerType :: ConfigName(t) != name
  {
    if name == "dense" then Some(Layers.Dense)
    else if name == "convolutional" then Some(Layers.Convolutional)
    else if name == "maxPooling" then Some(Layers.MaxPooling)
    else if name == "output" then Some(Layers.Output)
    else None
  }

  /** Every layer type is reachable by its own name, so no type is left without a constructor. */
  lemma TypeOfConfigName(t: Layers.LayerType)
    ensures TypeOf(ConfigName(t)) == Some(t)
  {
  }

  /** The error `constructLayer` throws for a name `TypeOf` does not know. */
  function UnknownType(name: string): string {
    "Don't know how to construct layer of type '" + name + "'"
  }

  /** `writeToStream`'s error for a network that has not been trained or loaded. */
  const NotTrained := "Neural net is not trained"

  /**
   * The region size of a max-pooling configuration, where it has one, is
   * not zero (the layer takes a remainder by it).
   */
  predicate RegionPositive(d: Cfg.ConfigData) {
    TypeNameOf(d) == Some("maxPooling") && "regionSize" in d.entries ==>
      var xs := Cfg.FixedNumbersOf(d.entries["regionSize"], Cfg.SizeT, 2);
      xs[0] != Cfg.IntNumber(0) && xs[1] != Cfg.IntNumber(0)
  }

  /** Every hidden-layer configuration satisfies `RegionPositive`. */
  predicate HiddenRegionsPositive(c: Cfg.Config)
    reads c
  {
    "hiddenLayers" in c.entries && c.entries["hiddenLayers"].ObjectArray? ==>
      forall k | 0 <= k < |c.entries["hiddenLayers"].children| :: RegionPositive(c.entries["hiddenLayers"].children[k])
  }

  /** A positive region read back through `getNumberArray<size_t, 2>`. */
  lemma RegionOf(c: Cfg.Config)
    requires RegionPositive(c.Data()) && c.GetString("type") == Ok("maxPooling") && "regionSize" in c.entries
    ensures Layers.SizePairOf(c, "regionSize").0 > 0 && Layers.SizePairOf(c, "regionSize").1 > 0
  {
  }

  /** The hidden-layer configurations: the "hiddenLayers" array when there is one. */
  function HiddenConfigs(c: Cfg.Config): (r: seq<Cfg.ConfigData>)
    reads c
    ensures "hiddenLayers" in c.entries && c.entries["hiddenLayers"].ObjectArray? ==>
      r == c.entries["hiddenLayers"].children
    ensures "hiddenLayers" !in c.entries ==> r == []
  {
    if "hiddenLayers" in c.entries && c.entries["hiddenLayers"].ObjectArray? then c.entries["hiddenLayers"].children
    else []
  }

  /** The "type" string of a configuration, if it holds one. */
  function TypeNameOf(d: Cfg.ConfigData): Option<string> {
    if "type" in d.entries && d.entries["type"].StringValue? then Some(d.entries["type"].s) else None
  }

  /**
   * `updateParams` runs after the 0-based sample `k` of an epoch when `k + 1`
   * completes a mini-batch or is the last sample of the batch.
   */
  predicate UpdateAfter(params: Hyperparams, k: nat)
    requires params.miniBatchSize > 0
  {
    (k + 1) % params.miniBatchSize == 0 || k + 1 == params.batchSize
  }

  function Min(a: nat, b: nat): nat {
    if a < b then a else b
  }

  /** The units (samples or mini-batches) `first` to `last - 1` of an epoch, processed from fetch `fetch`. */
  datatype Chunk = Chunk(fetch: nat, first: nat, last: nat)

  /**
   * The fetch loop both networks run in an epoch, from fetch `f` with
   * `done` units processed, as the units each fetch contributes: fetch `f`
   * holds `counts[f]` units, and every fetch after them is empty. An empty
   * fetch ends the loop; a non-empty one is processed until the epoch
   * reaches `limit` units.
   */
  function FetchPlan(limit: nat, counts: seq<nat>, f: nat, done: nat): seq<Chunk>
    requires done < limit
    decreases |counts| - f
  {
    if f >= |counts| || counts[f] == 0 then []
    else
      var p := done + Min(counts[f], limit - done);
      [Chunk(f, done, p)] + (if p == limit then [] else FetchPlan(limit, counts, f + 1, p))
  }

  /** How the fetch loop advances over one fetch. */
  lemma FetchPlanStep(limit: nat, counts: seq<nat>, f: nat, done: nat, p: nat)
    requires done < limit
    requires f < |counts| && counts[f] > 0 && p == done + Min(counts[f], limit - done)
    ensures FetchPlan(limit, counts, f, done) ==
      [Chunk(f, done, p)] + (if p == limit then [] else FetchPlan(limit, counts, f + 1, p))
  {
  }

  /** The units the data set holds before its first empty fetch. */
  function Available(counts: seq<nat>, f: nat): nat
    decreases |counts| - f
  {
    if f >= |counts| || counts[f] == 0 then 0 else counts[f] + Available(counts, f + 1)
  }

  /** Consecutive chunks covering the units `a` to `b - 1`, each no larger than its fetch. */
  predicate Covers(plan: seq<Chunk>, counts: seq<nat>, a: nat, b: nat) {
    if plan == [] then a == b
    else
      var c := plan[0];
      c.first == a && a <= c.last && c.fetch < |counts| && c.last - c.first <= counts[c.fetch] &&
      Covers(plan[1..], counts, c.last, b)
  }

  /**
   * The fetch loop processes the available units in order, stopping at the
   * limit, and takes no more from a fetch than it holds.
   */
  lemma {:induction false} FetchPlanCovers(limit: nat, counts: seq<nat>, f: nat, done: nat)
    requires done < limit
    ensures Covers(FetchPlan(limit, counts, f, done), counts, done, done + Min(Available(counts, f), limit - done))
    decreases |counts| - f
  {
    if f < |counts| && counts[f] != 0 {
      var p := done + Min(counts[f], limit - done);
      var plan := FetchPlan(limit, counts, f, done);
      assert plan[0] == Chunk(f, done, p);
      if p < limit {
        FetchPlanCovers(limit, counts, f + 1, p);
        assert plan[1..] == FetchPlan(limit, counts, f + 1, p);
      } else {
        assert plan[1..] == [];
      }
    }
  }

  /** Regrouping a trace: what was appended in two parts, then the rest. */
  lemma Regroup<T>(before: seq<T>, x: seq<T>, e: seq<T>, goal: seq<T>)
    requires before + (x + e) == goal
    ensures before + x + e == goal
  {
  }

  /** The composition of the first `k` layer functions, applied to `x`. */
  function Composed(eval: (nat, seq<real>) -> seq<real>, k: nat, x: seq<real>): seq<real> {
    if k == 0 then x else eval(k - 1, Composed(eval, k - 1, x))
  }
}
