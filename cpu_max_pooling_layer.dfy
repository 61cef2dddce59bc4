/**
 * The CPU max-pooling layer (richard/src/cpu/max_pooling_layer.cpp): the
 * forward pass keeps each region's maximum, starting from `Lowest`, and a
 * one-hot mask of where it was; the backward pass routes each output delta
 * to the masked cell of its region.
 */
module CpuMaxPooling {
  import opened Wrappers
  import opened Utils
  import opened Pooling
  import Limits

  /**
   * `Z` holds the activations, `mask` the one-hot positions of the last
   * `trainForward`, `inputDelta` the delta routed back to the input.
   */
  class MaxPoolingLayer {
    const inputW: nat
    const inputH: nat
    const inputDepth: nat
    const regionW: nat
    const regionH: nat
    var Z: seq<real>
    var mask: seq<real>
    var inputDelta: seq<real>

    function Shape(): Geometry {
      Geometry(inputW, inputH, inputDepth, regionW, regionH)
    }

    /** The regions tile the input and every buffer has the size of the extent it covers. */
    ghost predicate Valid()
      reads this
    {
      Shape().Valid() && |Z| == Shape().OutputSize() &&
      |mask| == Shape().InputSize() && |inputDelta| == Shape().InputSize()
    }

    constructor (g: Geometry)
      requires g.Valid()
      ensures Shape() == g && Valid()
      ensures Z == seq(g.OutputSize(), _ => 0.0)
      ensures mask == seq(g.InputSize(), _ => 0.0) && inputDelta == seq(g.InputSize(), _ => 0.0)
    {
      inputW, inputH, inputDepth, regionW, regionH := g.inputW, g.inputH, g.depth, g.regionW, g.regionH;
      Z := seq(g.OutputSize(), _ => 0.0);
      mask, inputDelta := seq(g.InputSize(), _ => 0.0), seq(g.InputSize(), _ => 0.0);
    }

    /**
     * Construction from the input shape and the region size read from the
     * configuration: fails, width first, unless the region divides the input.
     */
    static method Create(inputShape: Size3, regionW: nat, regionH: nat) returns (r: Result<MaxPoolingLayer>)
      requires regionW > 0 && regionH > 0
      ensures r.Ok? <==> inputShape[0] % regionW == 0 && inputShape[1] % regionH == 0
      ensures inputShape[0] % regionW != 0 ==>
        r == Err(RegionWidthError(regionW, inputShape[0]))
      ensures inputShape[0] % regionW == 0 && inputShape[1] % regionH != 0 ==>
        r == Err(RegionHeightError(regionH, inputShape[1]))
      ensures r.Ok? ==> fresh(r.value) && r.value.Valid()
      ensures r.Ok? ==> r.value.Shape() == Geometry(inputShape[0], inputShape[1], inputShape[2], regionW, regionH)
    {
      if inputShape[0] % regionW != 0 {
        return Err(RegionWidthError(regionW, inputShape[0]));
      }
      if inputShape[1] % regionH != 0 {
        return Err(RegionHeightError(regionH, inputShape[1]));
      }
      var layer := new MaxPoolingLayer(Geometry(inputShape[0], inputShape[1], inputShape[2], regionW, regionH));
      return Ok(layer);
    }

    /** `outputSize`: one cell per region, as deep as the input. */
    function OutputSize(): (r: Size3)
      reads this
      requires Valid()
      ensures r[0] * regionW == inputW && r[1] * regionH == inputH && r[2] == inputDepth
      ensures CalcProduct(r) == |Z|
    {
      DivExact(inputW, regionW);
      DivExact(inputH, regionH);
      [inputW / regionW, inputH / regionH, inputDepth]
    }

    /**
     * `trainForward`: every activation becomes the maximum of its region
     * (run from `Lowest`) and the mask becomes the one-hot `MaskCell`.
     */
    method TrainForward(inputs: seq<real>)
      requires Valid() && |inputs| == Shape().InputSize()
      modifies this
      ensures Valid() && inputDelta == old(inputDelta)
      ensures forall x: nat, y: nat, z: nat | x < Shape().OutW() && y < Shape().OutH() && z < inputDepth ::
        OutCell(Shape(), Z, x, y, z) == RegionBest(Shape(), inputs, x, y, z, Limits.Lowest).largest
      ensures forall X: nat, Y: nat, Z: nat | X < inputW && Y < inputH && Z < inputDepth ::
        Cell(Shape(), mask, X, Y, Z) == MaskCell(Shape(), inputs, Limits.Lowest, X, Y, Z)
    {
      mask, Z := PoolForward(Shape(), inputs, mask, Z, Limits.Lowest);
    }

    /** `evalForward`: the activations `trainForward` would record, into a new buffer. */
    method EvalForward(inputs: seq<real>) returns (r: seq<real>)
      requires Valid() && |inputs| == Shape().InputSize()
      ensures |r| == |Z|
      ensures forall x: nat, y: nat, z: nat | x < Shape().OutW() && y < Shape().OutH() && z < inputDepth ::
        OutCell(Shape(), r, x, y, z) == RegionBest(Shape(), inputs, x, y, z, Limits.Lowest).largest
    {
      r := EvalPool(Shape(), inputs, Limits.Lowest);
    }

    /**
     * `updateDeltas`: every input cell is overwritten with its region's
     * output delta where the mask is set and with 0 elsewhere.
     */
    method UpdateDeltas(outputDelta: seq<real>)
      requires Valid() && |outputDelta| == |Z|
      modifies this
      ensures Valid() && Z == old(Z) && mask == old(mask)
      ensures forall X: nat, Y: nat, Z: nat | X < inputW && Y < inputH && Z < inputDepth ::
        Cell(Shape(), inputDelta, X, Y, Z) == PadCell(Shape(), mask, outputDelta, X, Y, Z)
    {
      inputDelta := PadDelta(Shape(), outputDelta, mask, inputDelta);
    }
  }
}
