/**
 * A labelled data set (librichard/src/labelled_data_set.cpp): the class
 * labels, the one-hot output vector of each label, and the data loader the
 * samples come from.
 */
module LabelledData {
  import opened Wrappers
  import opened Samples
  import CsvLoading
  import ImageLoading

  /** What `std::map::at` throws for a missing key. */
  const MissingKey: string := "map::at"

  /** The vector of length `n` that is 1 at index `i` and 0 elsewhere. */
  function OneHot(n: nat, i: nat): (r: seq<real>)
    requires i < n
    ensures |r| == n && r[i] == 1.0
    ensures forall j | 0 <= j < n && j != i :: r[j] == 0.0
  {
    seq(n, j => if j == i then 1.0 else 0.0)
  }

  /** One-hot vectors with their 1s at different indices differ. */
  lemma OneHotDistinct(n: nat, i: nat, j: nat)
    requires i < n && j < n
    ensures OneHot(n, i) == OneHot(n, j) <==> i == j
  {
    if i != j {
      assert OneHot(n, i)[i] != OneHot(n, j)[i];
    }
  }

  /** The position of the first occurrence of `l` in `labels`. */
  function FirstIndex(labels: seq<string>, l: string): (i: nat)
    requires l in labels
    ensures i < |labels| && labels[i] == l
    ensures forall j | 0 <= j < i :: labels[j] != l
  {
    if labels[0] == l then 0 else 1 + FirstIndex(labels[1..], l)
  }

  /** Without duplicates, the first occurrence of `labels[i]` is at `i`. */
  lemma FirstIndexDistinct(labels: seq<string>, i: nat)
    requires i < |labels|
    requires forall j, k | 0 <= j < k < |labels| :: labels[j] != labels[k]
    ensures FirstIndex(labels, labels[i]) == i
  {
  }

  /**
   * The class output vectors: each label maps to the one-hot vector of
   * its first position, because `insert` keeps the entry already there.
   */
  ghost predicate ClassVectors(labels: seq<string>, m: map<string, seq<real>>) {
    (forall l :: l in m <==> l in labels) &&
    forall l | l in m :: l in labels && m[l] == OneHot(|labels|, FirstIndex(labels, l))
  }

  /** The constructor's loop: a one-hot vector per label, inserted without overwriting. */
  method BuildClassVectors(labels: seq<string>) returns (m: map<string, seq<real>>)
    ensures ClassVectors(labels, m)
  {
    m := map[];
    for i := 0 to |labels|
      invariant forall l :: l in m <==> l in labels[..i]
      invariant forall l | l in m :: l in labels && m[l] == OneHot(|labels|, FirstIndex(labels, l))
    {
      var v := seq(|labels|, _ => 0.0);
      v := v[i := 1.0];
      if labels[i] !in m {
        assert labels[i] !in labels[..i];
        assert FirstIndex(labels, labels[i]) == i;
        assert v == OneHot(|labels|, i);
        m := m[labels[i] := v];
      }
      assert labels[..i + 1] == labels[..i] + [labels[i]];
    }
    assert labels[..|labels|] == labels;
  }

  /** Without duplicate labels, `labels[i]` maps to the vector with its 1 at `i`. */
  lemma ClassVectorOfDistinct(labels: seq<string>, m: map<string, seq<real>>, i: nat)
    requires ClassVectors(labels, m) && i < |labels|
    requires forall j, k | 0 <= j < k < |labels| :: labels[j] != labels[k]
    ensures labels[i] in m && m[labels[i]] == OneHot(|labels|, i)
  {
    FirstIndexDistinct(labels, i);
  }

  /** Different labels map to different vectors. */
  lemma ClassVectorsDistinct(labels: seq<string>, m: map<string, seq<real>>, a: string, b: string)
    requires ClassVectors(labels, m) && a in m && b in m && a != b
    ensures m[a] != m[b]
  {
    var i, j := FirstIndex(labels, a), FirstIndex(labels, b);
    assert i != j;
    OneHotDistinct(|labels|, i, j);
  }

  /** The loader a data set owns: CSV or image directories. */
  datatype Loader = Csv(csv: CsvLoading.CsvDataLoader) | Image(image: ImageLoading.ImageDataLoader)

  /** The loader's object. */
  function Target(l: Loader): set<object> {
    match l
    case Csv(c) => {c}
    case Image(i) => {i}
  }

  class LabelledDataSet {
    const loader: Loader
    const labels: seq<string>
    const classOutputVectors: map<string, seq<real>>

    ghost predicate Valid()
      reads this, Target(loader)
    {
      ClassVectors(labels, classOutputVectors) &&
      match loader
      case Csv(c) => c.Valid()
      case Image(i) => i.Valid()
    }

    constructor (loader: Loader, labels: seq<string>)
      requires match loader
        case Csv(c) => c.Valid()
        case Image(i) => i.Valid()
      ensures Valid() && this.loader == loader && this.labels == labels
    {
      this.loader, this.labels := loader, labels;
      var m := BuildClassVectors(labels);
      classOutputVectors := m;
    }

    /** `classOutputVector`: the label's vector, or a throw for a label not in the set. */
    function ClassOutputVector(l: string): (r: Result<seq<real>>)
      requires ClassVectors(labels, classOutputVectors)
      ensures r.Ok? <==> l in labels
      ensures r.Err? ==> r.message == MissingKey
      ensures r.Ok? ==> r.value == OneHot(|labels|, FirstIndex(labels, l))
    {
      if l in classOutputVectors then Ok(classOutputVectors[l]) else Err(MissingKey)
    }

    /** `fetchSize`: the loader's. */
    function FetchSize(): nat {
      match loader
      case Csv(c) => c.fetchSize
      case Image(i) => i.corpus.fetchSize
    }

    /** `seekToBeginning`: delegates to the loader. */
    method SeekToBeginning()
      requires Valid()
      modifies Target(loader)
      ensures Valid()
      ensures loader.Csv? ==>
        loader.csv.failed == old(loader.csv.failed) &&
        loader.csv.position == CsvLoading.Rewound(old(loader.csv.failed), old(loader.csv.position))
      ensures loader.Image? ==> loader.image.cursors == seq(|loader.image.corpus.labels|, _ => 0)
    {
      match loader {
        case Csv(c) =>
          c.SeekToBeginning();
        case Image(i) =>
          i.SeekToBeginning();
      }
    }

    /**
     * `loadSamples`: clears the caller's samples, then lets the loader fill
     * them, and returns how many it loaded.
     */
    method LoadSamples(samples: seq<Sample>) returns (out: seq<Sample>, r: Result<nat>)
      requires Valid()
      modifies Target(loader)
      ensures Valid()
      ensures r.Ok? ==> r.value == |out|
      ensures loader.Csv? ==>
        var c := loader.csv;
        var f := CsvLoading.Fetch(CsvLoading.ParsedLines(c.lines, c.inputSize, c.convert), old(c.position), c.fetchSize);
        c.position == f.1 && (if f.0.Ok? then out == f.0.value && r == Ok(|out|) else out == [] && r == Err(f.0.message)) &&
        c.failed == (old(c.failed) || CsvLoading.ReadsToEnd(f.0, c.fetchSize))
      ensures loader.Image? ==>
        var i := loader.image;
        var o := ImageLoading.Load(ImageLoading.PlanOf(i.corpus), ImageLoading.Progress(old(i.cursors), [], 0));
        i.cursors == o.p.cursors && out == o.p.out && r == if o.failure.Some? then Err(o.failure.value) else Ok(o.p.loaded)
    {
      out := [];
      match loader {
        case Csv(c) =>
          var v := c.LoadSamples();
          if v.Ok? {
            out := v.value;
            r := Ok(|out|);
          } else {
            r := Err(v.message);
          }
        case Image(i) =>
          out, r := i.LoadSamples(out);
      }
    }
  }
}
