/**
 * The CPU dense layer (librichard/src/cpu/dense_layer.cpp): a weight matrix
 * `W` with one row per neuron and one column per input, a bias vector `B`,
 * and the gradients `deltaW`/`deltaB` that `updateDeltas` accumulates and
 * `updateParams` applies and clears.
 *
 * Matrices are flat row-major sequences (`Math.MatrixIndex`). The
 * activation function and its derivative are parameters: the library's
 * default, the sigmoid, is floating-point arithmetic the model does not
 * carry. The output layer is built the same way, without a dropout rate.
 */
module DenseLayers {
  import opened Wrappers
  import opened Utils
  import opened Math
  import Cfg = Config
  import Layers

  /** The sum of the pairwise products of two equally long vectors. */
  function Dot(a: seq<real>, b: seq<real>): real
    requires |a| == |b|
    decreases |a|
  {
    if |a| == 0 then 0.0 else Dot(a[..|a| - 1], b[..|b| - 1]) + a[|a| - 1] * b[|b| - 1]
  }

  /** Row `r` of a `cols`-column matrix: the weights of neuron `r`. */
  function Row(W: seq<real>, cols: nat, rows: nat, r: nat): (row: seq<real>)
    requires |W| == cols * rows && r < rows
    ensures |row| == cols
    ensures forall c | 0 <= c < cols :: MatrixIndex(c, r, cols) < |W| && row[c] == W[MatrixIndex(c, r, cols)]
  {
    RowEndInRange(r, cols, rows);
    W[r * cols .. r * cols + cols]
  }

  /** Column `c` of a `cols`-column matrix: the weights every neuron gives input `c`. */
  function Column(W: seq<real>, cols: nat, rows: nat, c: nat): (col: seq<real>)
    requires |W| == cols * rows && c < cols
    ensures |col| == rows
    ensures forall r | 0 <= r < rows :: MatrixIndex(c, r, cols) < |W| && col[r] == W[MatrixIndex(c, r, cols)]
  {
    MatrixIndicesInRange(cols, rows);
    seq(rows, r requires 0 <= r < rows => W[MatrixIndex(c, r, cols)])
  }

  /** `(W * x + B).computeTransform(f)`: neuron `r` outputs `f` of its weighted input plus bias. */
  function Forward(W: seq<real>, B: seq<real>, x: seq<real>, f: real -> real): (y: seq<real>)
    requires |W| == |x| * |B|
    ensures |y| == |B|
    ensures forall r | 0 <= r < |B| :: y[r] == f(Dot(Row(W, |x|, |B|, r), x) + B[r])
  {
    seq(|B|, r requires 0 <= r < |B| => f(Dot(Row(W, |x|, |B|, r), x) + B[r]))
  }

  /**
   * The worked example of the dense-layer test: with `f(x) = 2x`, weights
   * [[2, 1, 3], [1, 4, 2]], biases (5, 7) and input (3, 4, 2), the layer
   * outputs (42, 60).
   */
  lemma ForwardExample()
    ensures Forward([2.0, 1.0, 3.0, 1.0, 4.0, 2.0], [5.0, 7.0], [3.0, 4.0, 2.0], x => 2.0 * x) == [42.0, 60.0]
  {
    var W, x := [2.0, 1.0, 3.0, 1.0, 4.0, 2.0], [3.0, 4.0, 2.0];
    var row0, row1 := Row(W, 3, 2, 0), Row(W, 3, 2, 1);
    assert row0 == [2.0, 1.0, 3.0] by {
      assert row0[0] == W[MatrixIndex(0, 0, 3)];
      assert row0[1] == W[MatrixIndex(1, 0, 3)];
      assert row0[2] == W[MatrixIndex(2, 0, 3)];
    }
    assert row1 == [1.0, 4.0, 2.0] by {
      assert row1[0] == W[MatrixIndex(0, 1, 3)];
      assert row1[1] == W[MatrixIndex(1, 1, 3)];
      assert row1[2] == W[MatrixIndex(2, 1, 3)];
    }
    assert Dot(row0, x) == 16.0 by {
      assert row0[..2][..1] == [2.0] && x[..2][..1] == [3.0];
      assert Dot([2.0], [3.0]) == 6.0;
    }
    assert Dot(row1, x) == 23.0 by {
      assert row1[..2][..1] == [1.0] && x[..2][..1] == [3.0];
      assert Dot([1.0], [3.0]) == 3.0;
    }
  }

  /** `pow(x, n)` for a natural exponent `n`. */
  function Pow(x: real, n: nat): (r: real)
    ensures 0.0 <= x ==> 0.0 <= r
    ensures 0.0 <= x <= 1.0 ==> r <= 1.0
  {
    if n == 0 then 1.0 else ScaleDown(x, Pow(x, n - 1)); x * Pow(x, n - 1)
  }

  /** Multiplying by a factor in [0, 1] does not increase a non-negative value. */
  lemma ScaleDown(x: real, p: real)
    ensures 0.0 <= x <= 1.0 && 0.0 <= p ==> 0.0 <= x * p <= p
  {
    if 0.0 <= x <= 1.0 && 0.0 <= p {
      assert p - x * p == p * (1.0 - x);
    }
  }

  /**
   * The learning rate in epoch `epoch`: the initial rate decayed once per
   * epoch. A decay in [0, 1] keeps a non-negative rate between 0 and the
   * initial rate.
   */
  function DecayedRate(learnRate: real, decay: real, epoch: nat): (r: real)
    ensures epoch == 0 ==> r == learnRate
    ensures 0.0 <= learnRate && 0.0 <= decay <= 1.0 ==> 0.0 <= r <= learnRate
  {
    learnRate * Pow(decay, epoch)
  }

  /** Each epoch multiplies the rate by the decay once more. */
  lemma DecayedRateStep(learnRate: real, decay: real, epoch: nat)
    ensures DecayedRate(learnRate, decay, epoch + 1) == DecayedRate(learnRate, decay, epoch) * decay
  {
    assert Pow(decay, epoch + 1) == decay * Pow(decay, epoch);
  }

  /** `n` zeros: a freshly constructed `Vector(n)`. */
  function Zeros(n: nat): (z: seq<real>)
    ensures |z| == n && forall i | 0 <= i < n :: z[i] == 0.0
  {
    seq(n, _ => 0.0)
  }

  /** The parameters `writeToStream` emits: the biases, then the weights row by row. */
  function Serialized(B: seq<real>, W: seq<real>): seq<real> {
    B + W
  }

  /** What the stream constructor reads: `size` biases, then `inputSize * size` weights, into zeroed buffers. */
  function Deserialized(inputSize: nat, size: nat, s: seq<real>): (r: (seq<real>, seq<real>, seq<real>))
    ensures |r.0| == size && |r.1| == inputSize * size
  {
    var (B, s1) := Layers.ReadValues(Zeros(size), s);
    var (W, s2) := Layers.ReadValues(Zeros(inputSize * size), s1);
    (B, W, s2)
  }

  /** Writing a layer's parameters and reading them back restores them and leaves the stream after them. */
  lemma StreamRoundTrip(B: seq<real>, W: seq<real>, inputSize: nat, rest: seq<real>)
    requires |W| == inputSize * |B|
    ensures Deserialized(inputSize, |B|, Serialized(B, W) + rest) == (B, W, rest)
  {
    assert Serialized(B, W) + rest == B + (W + rest);
    Layers.ReadWritten(Zeros(|B|), B, W + rest);
    Layers.ReadWritten(Zeros(inputSize * |B|), W, rest);
  }

  class DenseLayer {
    const inputSize: nat
    const size: nat
    const learnRate: real
    const learnRateDecay: real
    const dropoutRate: real
    var activationFn: real -> real
    var activationFnPrime: real -> real
    var W: seq<real>
    var B: seq<real>
    var Z: seq<real>
    var A: seq<real>
    var inputDelta: seq<real>
    var deltaW: seq<real>
    var deltaB: seq<real>

    /** `initialize`'s shapes: `size` rows of `inputSize` columns, one bias and one bias delta per row. */
    ghost predicate Valid()
      reads this
    {
      |W| == inputSize * size && |deltaW| == inputSize * size &&
      |B| == size && |deltaB| == size && |inputDelta| == inputSize
    }

    /** `initialize`: every parameter and gradient is zero; `Z` and `A` are empty until the first forward pass. */
    constructor (inputSize: nat, size: nat, learnRate: real, learnRateDecay: real, dropoutRate: real,
                 f: real -> real, fPrime: real -> real)
      ensures Valid()
      ensures this.inputSize == inputSize && this.size == size
      ensures this.learnRate == learnRate && this.learnRateDecay == learnRateDecay && this.dropoutRate == dropoutRate
      ensures activationFn == f && activationFnPrime == fPrime
      ensures W == Zeros(inputSize * size) && B == Zeros(size)
      ensures deltaW == Zeros(inputSize * size) && deltaB == Zeros(size) && inputDelta == Zeros(inputSize)
      ensures Z == [] && A == []
    {
      this.inputSize, this.size := inputSize, size;
      this.learnRate, this.learnRateDecay, this.dropoutRate := learnRate, learnRateDecay, dropoutRate;
      activationFn, activationFnPrime := f, fPrime;
      W, B := Zeros(inputSize * size), Zeros(size);
      deltaW, deltaB, inputDelta := Zeros(inputSize * size), Zeros(size), Zeros(inputSize);
      Z, A := [], [];
    }

    /**
     * The configured construction: reads "size", "learnRate",
     * "learnRateDecay" and, except for the output layer, "dropoutRate",
     * failing on the first that is missing. Without a stream the weights
     * are randomised (`random` gives the value drawn for each flat index);
     * with one, the biases and then the weights are read from it and the
     * rest of the stream is returned.
     */
    static method Create(config: Cfg.Config, inputSize: nat, isOutput: bool, f: real -> real, fPrime: real -> real,
                         random: nat -> real, stream: Option<seq<real>>)
      returns (r: Result<(DenseLayer, seq<real>)>)
      ensures r.Ok? <==>
        "size" in config.entries && "learnRate" in config.entries && "learnRateDecay" in config.entries &&
        (isOutput || "dropoutRate" in config.entries)
      ensures r.Err? ==> r.message == Cfg.NotFound(
        if "size" !in config.entries then "size"
        else if "learnRate" !in config.entries then "learnRate"
        else if "learnRateDecay" !in config.entries then "learnRateDecay"
        else "dropoutRate")
      ensures r.Ok? ==> var (layer, rest) := r.value;
        fresh(layer) && layer.Valid() && layer.inputSize == inputSize &&
        Layers.GetSize(config, "size") == Ok(layer.size) &&
        Layers.GetNetFloat(config, "learnRate") == Ok(layer.learnRate) &&
        Layers.GetNetFloat(config, "learnRateDecay") == Ok(layer.learnRateDecay) &&
        (!isOutput ==> Layers.GetNetFloat(config, "dropoutRate") == Ok(layer.dropoutRate)) &&
        layer.deltaW == Zeros(inputSize * layer.size) && layer.deltaB == Zeros(layer.size) &&
        (stream.None? ==> rest == [] && layer.B == Zeros(layer.size) &&
                          layer.W == seq(inputSize * layer.size, k requires 0 <= k => random(k))) &&
        (stream.Some? ==> (layer.B, layer.W, rest) == Deserialized(inputSize, layer.size, stream.value))
    {
      var size :- Layers.GetSize(config, "size");
      var learnRate :- Layers.GetNetFloat(config, "learnRate");
      var learnRateDecay :- Layers.GetNetFloat(config, "learnRateDecay");
      var dropoutRate := 0.0;
      if !isOutput {
        dropoutRate :- Layers.GetNetFloat(config, "dropoutRate");
      }
      var layer := new DenseLayer(inputSize, size, learnRate, learnRateDecay, dropoutRate, f, fPrime);
      var rest: seq<real> := [];
      if stream.Some? {
        var params := Deserialized(inputSize, size, stream.value);
        layer.B, layer.W, rest := params.0, params.1, params.2;
      } else {
        layer.W := seq(inputSize * size, k requires 0 <= k => random(k));
      }
      return Ok((layer, rest));
    }

    /** `writeToStream`: the biases, then the weights. */
    method WriteToStream(stream: seq<real>) returns (out: seq<real>)
      ensures out == stream + Serialized(B, W)
    {
      out := stream + B + W;
    }

    /** `outputSize`: one value per neuron. */
    function OutputSize(): (r: Size3)
      ensures r[0] == size && CalcProduct(r) == size
    {
      [size, 1, 1]
    }

    /** `evalForward`: the layer's output for `inputs`, computed without touching its state. */
    function EvalForward(inputs: seq<real>): (r: seq<real>)
      reads this
      requires Valid() && |inputs| == inputSize
      ensures |r| == size
      ensures forall k | 0 <= k < size :: r[k] == activationFn(Dot(Row(W, inputSize, size, k), inputs) + B[k])
    {
      Forward(W, B, inputs, activationFn)
    }

    /**
     * `trainForward`: records the weighted inputs `Z` and the activations
     * `A`; an activation the dropout draw picks (`dropped[k]`) becomes 0.
     */
    method TrainForward(inputs: seq<real>, dropped: seq<bool>)
      requires Valid() && |inputs| == inputSize && |dropped| == size
      modifies this
      ensures Valid() && |Z| == size && |A| == size
      ensures forall k | 0 <= k < size :: Z[k] == Dot(Row(W, inputSize, size, k), inputs) + B[k]
      ensures forall k | 0 <= k < size :: A[k] == if dropped[k] then 0.0 else activationFn(Z[k])
      ensures forall k | 0 <= k < size :: !dropped[k] ==> A[k] == EvalForward(inputs)[k]
      ensures W == old(W) && B == old(B) && deltaW == old(deltaW) && deltaB == old(deltaB)
      ensures inputDelta == old(inputDelta) && activationFn == old(activationFn)
    {
      var z := Forward(W, B, inputs, x => x);
      var f := activationFn;
      Z := z;
      A := seq(size, k requires 0 <= k < size => if dropped[k] then 0.0 else f(z[k]));
    }

    /**
     * `updateDeltas`: the delta `outputDelta ⊙ f'(Z)` is added to the bias
     * gradient and its outer product with the inputs to the weight
     * gradient; the input delta is overwritten with `Wᵀ · delta`.
     */
    method UpdateDeltas(inputs: seq<real>, outputDelta: seq<real>)
      requires Valid() && |inputs| == inputSize && |outputDelta| == size && |Z| == size
      modifies this
      ensures W == old(W) && B == old(B) && Z == old(Z) && A == old(A)
      ensures activationFn == old(activationFn) && activationFnPrime == old(activationFnPrime)
      ensures Valid()
      ensures var delta := Delta(outputDelta, Z, activationFnPrime);
        deltaB == AddVector(old(deltaB), delta) &&
        deltaW == AddOuter(old(deltaW), delta, inputs) &&
        inputDelta == Backward(W, inputSize, delta)
    {
      var delta := Delta(outputDelta, Z, activationFnPrime);
      inputDelta := Backward(W, inputSize, delta);
      deltaW := AddOuter(deltaW, delta, inputs);
      deltaB := AddVector(deltaB, delta);
    }

    /**
     * `updateParams`: each parameter moves against its gradient scaled by
     * the decayed learning rate, and both gradients are cleared.
     */
    method UpdateParams(epoch: nat)
      requires Valid()
      modifies this
      ensures Valid()
      ensures var rate := DecayedRate(learnRate, learnRateDecay, epoch);
        (forall k | 0 <= k < |W| :: W[k] == old(W[k]) - old(deltaW[k]) * rate) &&
        (forall k | 0 <= k < size :: B[k] == old(B[k]) - old(deltaB[k]) * rate)
      ensures deltaW == Zeros(inputSize * size) && deltaB == Zeros(size)
      ensures inputDelta == old(inputDelta) && Z == old(Z) && A == old(A)
      ensures activationFn == old(activationFn) && activationFnPrime == old(activationFnPrime)
    {
      var rate := DecayedRate(learnRate, learnRateDecay, epoch);
      W := Descend(W, deltaW, rate);
      B := Descend(B, deltaB, rate);
      deltaW, deltaB := Zeros(inputSize * size), Zeros(size);
    }

    /** `test_setWeights`: new weights of the same shape; the dimensions stay as they are. */
    method SetWeights(weights: seq<real>)
      requires Valid() && |weights| == inputSize * size
      modifies this
      ensures Valid() && W == weights
      ensures B == old(B) && deltaW == old(deltaW) && deltaB == old(deltaB) && inputDelta == old(inputDelta)
    {
      W := weights;
    }
  }

  /** The layer's delta: the output delta scaled by the activation's slope at each weighted input. */
  function Delta(outputDelta: seq<real>, Z: seq<real>, fPrime: real -> real): (d: seq<real>)
    requires |outputDelta| == |Z|
    ensures |d| == |Z| && forall k | 0 <= k < |Z| :: d[k] == outputDelta[k] * fPrime(Z[k])
  {
    seq(|Z|, k requires 0 <= k < |Z| => outputDelta[k] * fPrime(Z[k]))
  }

  /** `deltaB += delta`. */
  function AddVector(a: seq<real>, b: seq<real>): (r: seq<real>)
    requires |a| == |b|
    ensures |r| == |a| && forall k | 0 <= k < |a| :: r[k] == a[k] + b[k]
  {
    seq(|a|, k requires 0 <= k < |a| => a[k] + b[k])
  }

  /** `Wᵀ · delta`: the error each input receives, weighted by how strongly it feeds every neuron. */
  function Backward(W: seq<real>, cols: nat, delta: seq<real>): (r: seq<real>)
    requires |W| == cols * |delta|
    ensures |r| == cols && forall c | 0 <= c < cols :: r[c] == Dot(Column(W, cols, |delta|, c), delta)
  {
    seq(cols, c requires 0 <= c < cols => Dot(Column(W, cols, |delta|, c), delta))
  }

  /** `W * x`: each neuron's weighted input, before the bias. */
  function Mul(W: seq<real>, cols: nat, rows: nat, x: seq<real>): (y: seq<real>)
    requires |W| == cols * rows && |x| == cols
    ensures |y| == rows && forall r | 0 <= r < rows :: y[r] == Dot(Row(W, cols, rows, r), x)
  {
    seq(rows, r requires 0 <= r < rows => Dot(Row(W, cols, rows, r), x))
  }

  /** `a + s * b`, element by element. */
  function AddScaled(a: seq<real>, s: real, b: seq<real>): (r: seq<real>)
    requires |a| == |b|
    ensures |r| == |a| && forall k | 0 <= k < |a| :: r[k] == a[k] + s * b[k]
  {
    seq(|a|, k requires 0 <= k < |a| => a[k] + s * b[k])
  }

  /** The dot product is linear in its first argument: if `r == a + s * b`, then `r · x == a · x + s * (b · x)`. */
  lemma {:induction false} DotLinear(r: seq<real>, a: seq<real>, s: real, b: seq<real>, x: seq<real>)
    requires |r| == |a| == |b| == |x|
    requires forall k | 0 <= k < |r| :: r[k] == a[k] + s * b[k]
    ensures Dot(r, x) == Dot(a, x) + s * Dot(b, x)
    decreases |a|
  {
    if |a| > 0 {
      var n := |a| - 1;
      DotLinear(r[..n], a[..n], s, b[..n], x[..n]);
      assert s * Dot(b, x) == s * Dot(b[..n], x[..n]) + s * (b[n] * x[n]);
    }
  }

  /** Anything dotted with zeros is zero. */
  lemma {:induction false} DotZeros(z: seq<real>, x: seq<real>)
    requires |z| == |x| && forall k | 0 <= k < |z| :: z[k] == 0.0
    ensures Dot(z, x) == 0.0
    decreases |z|
  {
    if |z| > 0 {
      DotZeros(z[..|z| - 1], x[..|x| - 1]);
    }
  }

  /** Dropping the last row of a matrix keeps the products of the other rows. */
  lemma MulPrefix(W: seq<real>, cols: nat, n: nat, x: seq<real>)
    requires |W| == cols * (n + 1) && |x| == cols && n * cols <= |W|
    ensures Mul(W, cols, n + 1, x)[..n] == Mul(W[..n * cols], cols, n, x)
  {
    forall r | 0 <= r < n
      ensures Row(W, cols, n + 1, r) == Row(W[..n * cols], cols, n, r)
    {
      RowEndInRange(r, cols, n);
    }
  }

  /** A column of a matrix is the column of the matrix without its last row, then the last row's cell. */
  lemma ColumnSplit(W: seq<real>, cols: nat, n: nat, c: nat)
    requires |W| == cols * (n + 1) && c < cols && n * cols <= |W|
    ensures Column(W, cols, n + 1, c)[..n] == Column(W[..n * cols], cols, n, c)
    ensures Column(W, cols, n + 1, c)[n] == Row(W, cols, n + 1, n)[c]
  {
    var col, col' := Column(W, cols, n + 1, c), Column(W[..n * cols], cols, n, c);
    forall r | 0 <= r < n
      ensures col[r] == col'[r]
    {
      MatrixIndexInRange(c, r, cols, n);
    }
  }

  /** One input's entry of `BackwardSplit`. */
  lemma BackwardSplitAt(W: seq<real>, cols: nat, delta: seq<real>, c: nat)
    requires |delta| > 0 && |W| == cols * |delta| && c < cols
    requires (|delta| - 1) * cols <= |W|
    ensures var n := |delta| - 1;
      Backward(W, cols, delta)[c] ==
        Backward(W[..n * cols], cols, delta[..n])[c] + delta[n] * Row(W, cols, n + 1, n)[c]
  {
    var n := |delta| - 1;
    var col := Column(W, cols, n + 1, c);
    ColumnSplit(W, cols, n, c);
    DotLast(col, delta);
    assert |delta[..n]| == n;
  }

  /** The dot product is that of all but the last entries, plus the product of the last. */
  lemma DotLast(a: seq<real>, b: seq<real>)
    requires |a| == |b| > 0
    ensures Dot(a, b) == Dot(a[..|a| - 1], b[..|b| - 1]) + a[|a| - 1] * b[|b| - 1]
  {
  }

  /** Backward through a matrix is backward through all rows but the last, plus the last row scaled by its delta. */
  lemma BackwardSplit(W: seq<real>, cols: nat, delta: seq<real>)
    requires |delta| > 0 && |W| == cols * |delta|
    requires (|delta| - 1) * cols <= |W|
    ensures var n := |delta| - 1;
      Backward(W, cols, delta) ==
        AddScaled(Backward(W[..n * cols], cols, delta[..n]), delta[n], Row(W, cols, n + 1, n))
  {
    var n := |delta| - 1;
    var back := Backward(W, cols, delta);
    var sum := AddScaled(Backward(W[..n * cols], cols, delta[..n]), delta[n], Row(W, cols, n + 1, n));
    forall c | 0 <= c < cols
      ensures back[c] == sum[c]
    {
      BackwardSplitAt(W, cols, delta, c);
    }
    assert |back| == |sum|;
  }

  /**
   * The input delta is the gradient with respect to the inputs: for every
   * input vector `x`, `delta · (W x) == (Wᵀ delta) · x`.
   */
  lemma {:induction false} BackwardIsAdjoint(W: seq<real>, cols: nat, delta: seq<real>, x: seq<real>)
    requires |W| == cols * |delta| && |x| == cols
    ensures Dot(delta, Mul(W, cols, |delta|, x)) == Dot(Backward(W, cols, delta), x)
    decreases |delta|
  {
    var back := Backward(W, cols, delta);
    if |delta| == 0 {
      DotZeros(back, x);
    } else {
      var n := |delta| - 1;
      RowEndInRange(n, cols, n + 1);
      var W' := W[..n * cols];
      var back', last := Backward(W', cols, delta[..n]), Row(W, cols, n + 1, n);
      var M := Mul(W, cols, n + 1, x);
      MulPrefix(W, cols, n, x);
      BackwardIsAdjoint(W', cols, delta[..n], x);
      BackwardSplit(W, cols, delta);
      AdjointStep(delta, M, Mul(W', cols, n, x), Backward(W, cols, delta), back', last, x);
    }
  }

  /** The inductive step of `BackwardIsAdjoint`, over plain vectors. */
  lemma AdjointStep(delta: seq<real>, M: seq<real>, M': seq<real>, back: seq<real>, back': seq<real>,
                    last: seq<real>, x: seq<real>)
    requires |delta| == |M| > 0 && |back| == |back'| == |last| == |x|
    requires M[..|M| - 1] == M' && M[|M| - 1] == Dot(last, x)
    requires Dot(delta[..|delta| - 1], M') == Dot(back', x)
    requires back == AddScaled(back', delta[|delta| - 1], last)
    ensures Dot(delta, M) == Dot(back, x)
  {
    DotLinear(back, back', delta[|delta| - 1], last, x);
  }

  /** One gradient step: `P - D * rate`, element by element. */
  function Descend(P: seq<real>, D: seq<real>, rate: real): (r: seq<real>)
    requires |P| == |D|
    ensures |r| == |P| && forall k | 0 <= k < |P| :: r[k] == P[k] - D[k] * rate
  {
    seq(|P|, k requires 0 <= k < |P| => P[k] - D[k] * rate)
  }

  /** `deltaW += outerProduct(delta, inputs)`, built row by row. */
  function AddOuter(M: seq<real>, delta: seq<real>, inputs: seq<real>): (r: seq<real>)
    requires |M| == |inputs| * |delta|
    ensures |r| == |M|
    decreases |delta|
  {
    if |delta| == 0 then []
    else
      var n, cols := |delta| - 1, |inputs|;
      RowEndInRange(n, cols, n + 1);
      AddOuter(M[..n * cols], delta[..n], inputs) + seq(cols, c requires 0 <= c < cols => M[n * cols + c] + delta[n] * inputs[c])
  }

  /** Cell (`c`, `row`) of the accumulated gradient gains `delta[row] * inputs[c]`. */
  lemma {:induction false} AddOuterCell(M: seq<real>, delta: seq<real>, inputs: seq<real>, c: nat, row: nat)
    requires |M| == |inputs| * |delta| && c < |inputs| && row < |delta|
    ensures MatrixIndex(c, row, |inputs|) < |M|
    ensures AddOuter(M, delta, inputs)[MatrixIndex(c, row, |inputs|)] == M[MatrixIndex(c, row, |inputs|)] + delta[row] * inputs[c]
    decreases |delta|
  {
    var n, cols := |delta| - 1, |inputs|;
    var prefix := AddOuterRows(M, delta, inputs);
    MatrixIndexInRange(c, row, cols, |delta|);
    if row < n {
      MatrixIndexInRange(c, row, cols, n);
      AddOuterCell(M[..n * cols], delta[..n], inputs, c, row);
      assert M[..n * cols][MatrixIndex(c, row, cols)] == M[MatrixIndex(c, row, cols)];
    } else {
      assert MatrixIndex(c, row, cols) == prefix + c;
    }
  }

  /** The accumulated gradient is the rows before the last, then the last row's cells. */
  lemma AddOuterRows(M: seq<real>, delta: seq<real>, inputs: seq<real>) returns (prefix: nat)
    requires |M| == |inputs| * |delta| && |delta| > 0
    ensures prefix == (|delta| - 1) * |inputs| && prefix + |inputs| == |M|
    ensures var n := |delta| - 1;
      AddOuter(M, delta, inputs) == AddOuter(M[..prefix], delta[..n], inputs) +
        seq(|inputs|, c requires 0 <= c < |inputs| => M[prefix + c] + delta[n] * inputs[c])
  {
    var n, cols := |delta| - 1, |inputs|;
    RowEndInRange(n, cols, n + 1);
    prefix := n * cols;
  }
}
