/**
 * The classifier (librichard/src/classifier.cpp): a network together with
 * whether it has been trained, and the test that tallies how many samples
 * it classifies correctly.
 *
 * The network is represented by its `evaluate` function, and the batches
 * `test` loads are a parameter: `batches[b]` is what the `b`-th call to
 * `loadSamples` returns.
 */
module Classifying {
  import opened Wrappers
  import opened Samples
  import Limits
  import LabelledData

  const NotTrained: string := "Classifier not trained"

  /*
   * `largestComponent` and `outputsMatch`.
   */

  /** The running maximum `largestComponent` starts from, `numeric_limits<float>::min()`. */
  const Floor: real := Limits.FltMin

  /** No component exceeds the floor. */
  predicate AllAtFloor(v: seq<real>) {
    forall j | 0 <= j < |v| :: v[j] <= Floor
  }

  /**
   * `i` is the index `largestComponent` picks: 0 when no component exceeds
   * the floor, otherwise a component above the floor that is strictly
   * greater than every earlier one and at least every later one.
   */
  predicate IsLargest(v: seq<real>, i: nat) {
    if AllAtFloor(v) then i == 0
    else i < |v| && v[i] > Floor && (forall j | 0 <= j < i :: v[j] < v[i]) && (forall j | i < j < |v| :: v[j] <= v[i])
  }

  /** At most one index is the largest component. */
  lemma LargestUnique(v: seq<real>, i: nat, j: nat)
    requires IsLargest(v, i) && IsLargest(v, j)
    ensures i == j
  {
  }

  /** Every vector has a largest component. */
  lemma {:induction false} LargestExists(v: seq<real>)
    ensures exists i: nat :: IsLargest(v, i)
    decreases |v|
  {
    if |v| == 0 {
      assert IsLargest(v, 0);
    } else {
      var u := v[..|v| - 1];
      var x := v[|v| - 1];
      LargestExists(u);
      var i: nat :| IsLargest(u, i);
      var best := if AllAtFloor(u) then Floor else u[i];
      if x > best {
        assert IsLargest(v, |v| - 1) by {
          forall j | 0 <= j < |v| - 1
            ensures v[j] < x
          {
            assert v[j] == u[j];
          }
        }
      } else {
        if AllAtFloor(u) {
          assert AllAtFloor(v) by {
            forall j | 0 <= j < |v|
              ensures v[j] <= Floor
            {
              if j < |u| {
                assert v[j] == u[j];
              }
            }
          }
          assert IsLargest(v, 0);
        } else {
          assert IsLargest(v, i) by {
            forall j | 0 <= j < |v| && j != i
              ensures j < i ==> v[j] < v[i]
              ensures j > i ==> v[j] <= v[i]
            {
              if j < |u| {
                assert v[j] == u[j];
              }
            }
          }
        }
      }
    }
  }

  /** The index of the largest component. */
  ghost function Largest(v: seq<real>): (i: nat)
    ensures IsLargest(v, i)
  {
    LargestExists(v);
    var i: nat :| IsLargest(v, i);
    i
  }

  /** The one-hot vector with its 1 at `i` has its largest component at `i`. */
  lemma LargestOneHot(n: nat, i: nat)
    requires i < n
    ensures Largest(LabelledData.OneHot(n, i)) == i
  {
    var v := LabelledData.OneHot(n, i);
    assert !AllAtFloor(v) by {
      assert v[i] > Floor;
    }
    assert IsLargest(v, i);
    LargestUnique(v, i, Largest(v));
  }

  /** `largestComponent`: a running maximum from the floor, replaced only by a strictly larger component. */
  method LargestComponent(v: seq<real>) returns (idx: nat)
    ensures IsLargest(v, idx)
  {
    var largest := Floor;
    idx := 0;
    for i := 0 to |v|
      invariant AllAtFloor(v[..i]) ==> largest == Floor && idx == 0
      invariant !AllAtFloor(v[..i]) ==> idx < i && largest == v[idx] > Floor && forall j | 0 <= j < idx :: v[j] < v[idx]
      invariant forall j | 0 <= j < i :: v[j] <= largest
      invariant !AllAtFloor(v[..i]) ==> forall j | idx < j < i :: v[j] <= v[idx]
    {
      if v[i] > largest {
        largest := v[i];
        idx := i;
      }
      assert AllAtFloor(v[..i + 1]) ==> AllAtFloor(v[..i]) && v[i] <= Floor by {
        if AllAtFloor(v[..i + 1]) {
          assert v[i] == v[..i + 1][i];
        }
      }
    }
    assert v[..|v|] == v;
  }

  /** `outputsMatch`: both vectors have their largest component at the same index. */
  method OutputsMatch(x: seq<real>, y: seq<real>) returns (r: bool)
    ensures r <==> Largest(x) == Largest(y)
  {
    var a := LargestComponent(x);
    var b := LargestComponent(y);
    LargestUnique(x, a, Largest(x));
    LargestUnique(y, b, Largest(y));
    r := a == b;
  }

  /** `outputsMatch` is symmetric. */
  lemma OutputsMatchSymmetric(x: seq<real>, y: seq<real>)
    ensures (Largest(x) == Largest(y)) <==> (Largest(y) == Largest(x))
  {
  }

  /*
   * `test`.
   */

  datatype Results = Results(good: nat, bad: nat, guesses: seq<bool>)

  /** The number of `true` guesses. */
  function CountTrue(g: seq<bool>): (n: nat)
    ensures n <= |g|
  {
    if |g| == 0 then 0 else CountTrue(g[..|g| - 1]) + (if g[|g| - 1] then 1 else 0)
  }

  /** The samples `test` evaluates: the batches before the first empty one, in order. */
  function UntilEmpty(batches: seq<seq<Sample>>): seq<Sample> {
    if |batches| == 0 || |batches[0]| == 0 then [] else batches[0] + UntilEmpty(batches[1..])
  }

  /** A sample is classified correctly when the network's output picks its label's position. */
  ghost predicate Matched(labels: seq<string>, evaluate: seq<real> -> seq<real>, s: Sample)
    requires s.classLabel in labels
  {
    Largest(evaluate(s.data)) == LabelledData.FirstIndex(labels, s.classLabel)
  }

  /**
   * The tally of `test` over `samples`: each sample adds one guess, and
   * one to `good` or to `bad`; a sample whose label has no class vector
   * throws.
   */
  ghost function Tally(labels: seq<string>, evaluate: seq<real> -> seq<real>, samples: seq<Sample>): Result<Results>
    decreases |samples|
  {
    if |samples| == 0 then Ok(Results(0, 0, []))
    else
      var s := samples[|samples| - 1];
      match Tally(labels, evaluate, samples[..|samples| - 1])
      case Err(m) => Err(m)
      case Ok(t) =>
        if s.classLabel !in labels then Err(LabelledData.MissingKey)
        else if Matched(labels, evaluate, s) then Ok(Results(t.good + 1, t.bad, t.guesses + [true]))
        else Ok(Results(t.good, t.bad + 1, t.guesses + [false]))
  }

  /** One more sample: a throw if its label has no class vector, otherwise one more guess and one more count. */
  lemma TallyStep(labels: seq<string>, evaluate: seq<real> -> seq<real>, s: seq<Sample>, x: Sample, t: Results)
    requires Tally(labels, evaluate, s) == Ok(t)
    ensures x.classLabel !in labels ==> Tally(labels, evaluate, s + [x]) == Err(LabelledData.MissingKey)
    ensures x.classLabel in labels && Matched(labels, evaluate, x) ==> Tally(labels, evaluate, s + [x]) == Ok(Results(t.good + 1, t.bad, t.guesses + [true]))
    ensures x.classLabel in labels && !Matched(labels, evaluate, x) ==> Tally(labels, evaluate, s + [x]) == Ok(Results(t.good, t.bad + 1, t.guesses + [false]))
  {
    assert (s + [x])[..|s|] == s;
  }

  /** Once the tally has thrown, later samples change nothing. */
  lemma {:induction false} TallyErrSticks(labels: seq<string>, evaluate: seq<real> -> seq<real>, s: seq<Sample>, t: seq<Sample>)
    requires Tally(labels, evaluate, s).Err?
    ensures Tally(labels, evaluate, s + t) == Tally(labels, evaluate, s)
    decreases |t|
  {
    if |t| == 0 {
      assert s + t == s;
    } else {
      var u := t[..|t| - 1];
      TallyErrSticks(labels, evaluate, s, u);
      assert (s + t)[..|s + t| - 1] == s + u;
    }
  }

  /** The tally throws exactly when some sample's label has no class vector, with `std::map::at`'s message. */
  lemma {:induction false} TallyErr(labels: seq<string>, evaluate: seq<real> -> seq<real>, samples: seq<Sample>)
    ensures var r := Tally(labels, evaluate, samples);
      (r.Err? <==> exists k | 0 <= k < |samples| :: samples[k].classLabel !in labels) && (r.Err? ==> r.message == LabelledData.MissingKey)
    decreases |samples|
  {
    if |samples| > 0 {
      var prior := samples[..|samples| - 1];
      TallyErr(labels, evaluate, prior);
      assert forall k | 0 <= k < |prior| :: prior[k] == samples[k];
    }
  }

  /** Without a throw there is one guess per sample, and each sample counts once, as `good` exactly when its guess is true. */
  lemma {:induction false} TallyCounts(labels: seq<string>, evaluate: seq<real> -> seq<real>, samples: seq<Sample>)
    ensures var r := Tally(labels, evaluate, samples);
      r.Ok? ==> |r.value.guesses| == |samples| && r.value.good + r.value.bad == |samples| && r.value.good == CountTrue(r.value.guesses)
    decreases |samples|
  {
    if |samples| > 0 {
      var prior := samples[..|samples| - 1];
      TallyCounts(labels, evaluate, prior);
      var r := Tally(labels, evaluate, samples);
      if r.Ok? {
        var g := r.value.guesses;
        assert g[..|g| - 1] == Tally(labels, evaluate, prior).value.guesses;
      }
    }
  }

  /** Without a throw, `guesses[k]` says whether sample `k` matched its label. */
  lemma {:induction false} TallyGuesses(labels: seq<string>, evaluate: seq<real> -> seq<real>, samples: seq<Sample>)
    ensures var r := Tally(labels, evaluate, samples);
      r.Ok? ==> |r.value.guesses| == |samples| && forall k | 0 <= k < |samples| :: samples[k].classLabel in labels && (r.value.guesses[k] <==> Matched(labels, evaluate, samples[k]))
    decreases |samples|
  {
    if |samples| > 0 {
      var prior := samples[..|samples| - 1];
      TallyGuesses(labels, evaluate, prior);
      assert forall k | 0 <= k < |prior| :: prior[k] == samples[k];
    }
  }

  /** The classifier: a network and whether it has been trained. */
  class Classifier {
    /** The network's `evaluate`. */
    const evaluate: seq<real> -> seq<real>
    var isTrained: bool

    /** A new network: not trained. */
    constructor (evaluate: seq<real> -> seq<real>)
      ensures this.evaluate == evaluate && !isTrained
    {
      this.evaluate := evaluate;
      isTrained := false;
    }

    /** A network read from a stream: trained. */
    constructor FromStream(evaluate: seq<real> -> seq<real>)
      ensures this.evaluate == evaluate && isTrained
    {
      this.evaluate := evaluate;
      isTrained := true;
    }

    /** `writeToStream` needs a trained classifier. */
    method WriteToStream() returns (r: Result<()>)
      ensures r.Ok? <==> isTrained
      ensures r.Err? ==> r.message == NotTrained
    {
      if !isTrained {
        return Err(NotTrained);
      }
      return Ok(());
    }

    /** `train`: after training the classifier is trained. */
    method Train()
      modifies this
      ensures isTrained
    {
      isTrained := true;
    }

    /**
     * `test`: needs a trained classifier, then evaluates every sample of
     * every batch up to the first empty one and tallies the matches.
     */
    method Test(data: LabelledData.LabelledDataSet, batches: seq<seq<Sample>>) returns (r: Result<Results>)
      requires LabelledData.ClassVectors(data.labels, data.classOutputVectors)
      ensures !isTrained ==> r == Err(NotTrained)
      ensures isTrained ==> r == Tally(data.labels, evaluate, UntilEmpty(batches))
    {
      if !isTrained {
        return Err(NotTrained);
      }
      r := TallyBatches(data, evaluate, batches);
    }
  }

  /** The outer loop of `test`: batch after batch until one is empty. */
  method TallyBatches(data: LabelledData.LabelledDataSet, evaluate: seq<real> -> seq<real>, batches: seq<seq<Sample>>)
    returns (r: Result<Results>)
    requires LabelledData.ClassVectors(data.labels, data.classOutputVectors)
    ensures r == Tally(data.labels, evaluate, UntilEmpty(batches))
  {
    var results := Results(0, 0, []);
    var b := 0;
    ghost var done: seq<Sample> := [];
    while b < |batches| && |batches[b]| > 0
      invariant b <= |batches| && done + UntilEmpty(batches[b..]) == UntilEmpty(batches)
      invariant Tally(data.labels, evaluate, done) == Ok(results)
    {
      var batch := batches[b];
      var t := TallyBatch(data, evaluate, done, results, batch);
      UntilEmptyNext(done, batches, b, UntilEmpty(batches));
      if t.Err? {
        TallyErrSticks(data.labels, evaluate, done + batch, UntilEmpty(batches[b + 1..]));
        return t;
      }
      results := t.value;
      done := done + batch;
      b := b + 1;
    }
    UntilEmptyEnd(batches, b);
    assert done == UntilEmpty(batches);
    return Ok(results);
  }

  /** A non-empty batch moves from the batches still to test to the samples tested. */
  lemma UntilEmptyNext(done: seq<Sample>, batches: seq<seq<Sample>>, b: nat, whole: seq<Sample>)
    requires b < |batches| && |batches[b]| > 0 && done + UntilEmpty(batches[b..]) == whole
    ensures (done + batches[b]) + UntilEmpty(batches[b + 1..]) == whole
  {
    assert batches[b..][1..] == batches[b + 1..];
  }

  /** At the end of the batches, or at an empty batch, nothing is left to test. */
  lemma UntilEmptyEnd(batches: seq<seq<Sample>>, b: nat)
    requires b <= |batches| && (b == |batches| || |batches[b]| == 0)
    ensures UntilEmpty(batches[b..]) == []
  {
  }

  lemma Split(done: seq<Sample>, batch: seq<Sample>, i: nat)
    requires i < |batch|
    ensures done + batch[..i + 1] == (done + batch[..i]) + [batch[i]]
    ensures done + batch == (done + batch[..i + 1]) + batch[i + 1..]
  {
    assert batch == batch[..i + 1] + batch[i + 1..];
  }

  /** The inner loop of `test`: one verdict per sample of a batch. */
  method TallyBatch(data: LabelledData.LabelledDataSet, evaluate: seq<real> -> seq<real>, ghost done: seq<Sample>, results: Results, batch: seq<Sample>)
    returns (r: Result<Results>)
    requires LabelledData.ClassVectors(data.labels, data.classOutputVectors)
    requires Tally(data.labels, evaluate, done) == Ok(results)
    ensures r == Tally(data.labels, evaluate, done + batch)
  {
    var acc := results;
    assert done + batch[..0] == done;
    for i := 0 to |batch|
      invariant Tally(data.labels, evaluate, done + batch[..i]) == Ok(acc)
    {
      var s := batch[i];
      var actual := evaluate(s.data);
      var expected := data.ClassOutputVector(s.classLabel);
      ghost var prefix := done + batch[..i];
      Split(done, batch, i);
      TallyStep(data.labels, evaluate, prefix, s, acc);
      if expected.Err? {
        TallyErrSticks(data.labels, evaluate, prefix + [s], batch[i + 1..]);
        return Err(expected.message);
      }
      LargestOneHot(|data.labels|, LabelledData.FirstIndex(data.labels, s.classLabel));
      var ok := OutputsMatch(actual, expected.value);
      if ok {
        acc := Results(acc.good + 1, acc.bad, acc.guesses + [true]);
      } else {
        acc := Results(acc.good, acc.bad + 1, acc.guesses + [false]);
      }
    }
    assert batch[..|batch|] == batch;
    return Ok(acc);
  }
}
