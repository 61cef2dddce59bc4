/**
 * The region arithmetic shared by the two max-pooling layers
 * (richard/src/cpu/max_pooling_layer.cpp and richard/src/max_pooling_layer.cpp).
 *
 * An input image is `inputW` by `inputH` by `depth` values, stored flat in
 * the `Array3` layout (slice, then row, then column). It is cut into
 * `regionW` by `regionH` regions; region (`x`, `y`) of slice `z` covers
 * columns `x * regionW ..` and rows `y * regionH ..`, and pools into cell
 * (`x`, `y`, `z`) of the output. Both layers run the same nested loops, so
 * the loops are modelled once here, parameterised by the value the running
 * maximum starts from.
 */
module Pooling {
  import opened Math
  import opened Utils
  import Limits

  /** The extents of a max-pooling layer. */
  datatype Geometry = Geometry(inputW: nat, inputH: nat, depth: nat, regionW: nat, regionH: nat) {
    /** The region is not empty and divides the input in both dimensions. */
    predicate Valid() {
      regionW > 0 && regionH > 0 && inputW % regionW == 0 && inputH % regionH == 0
    }

    function OutW(): nat
      requires regionW > 0
    {
      inputW / regionW
    }

    function OutH(): nat
      requires regionH > 0
    {
      inputH / regionH
    }

    function InputSize(): nat {
      inputW * inputH * depth
    }

    function OutputSize(): nat
      requires regionW > 0 && regionH > 0
    {
      OutW() * OutH() * depth
    }
  }

  /** The message of a construction whose region width does not divide the input width. */
  function RegionWidthError(regionW: nat, inputW: nat): string {
    "Region width " + NatToString(regionW) + " does not divide input width " + NatToString(inputW)
  }

  /** The message of a construction whose region height does not divide the input height. */
  function RegionHeightError(regionH: nat, inputH: nat): string {
    "Region height " + NatToString(regionH) + " does not divide input height " + NatToString(inputH)
  }

  /** `Array3::at(x, y, z)` on a flat buffer of `w * h * d` values. */
  function At3(s: seq<real>, w: nat, h: nat, d: nat, x: nat, y: nat, z: nat): real
    requires |s| == w * h * d && x < w && y < h && z < d
  {
    KernelIndexInRange(x, y, z, w, h, d);
    s[KernelIndex(x, y, z, w, h)]
  }

  /** Writing one cell of a flat `w * h * d` buffer leaves every other cell as it was. */
  lemma SetCells(s: seq<real>, w: nat, h: nat, d: nat, x: nat, y: nat, z: nat, v: real)
    requires |s| == w * h * d && x < w && y < h && z < d
    ensures KernelIndex(x, y, z, w, h) < |s|
    ensures forall X: nat, Y: nat, Z: nat | X < w && Y < h && Z < d ::
      At3(s[KernelIndex(x, y, z, w, h) := v], w, h, d, X, Y, Z) == if X == x && Y == y && Z == z then v else At3(s, w, h, d, X, Y, Z)
  {
    KernelIndexInRange(x, y, z, w, h, d);
    var k := KernelIndex(x, y, z, w, h);
    var t := s[k := v];
    forall X: nat, Y: nat, Z: nat | X < w && Y < h && Z < d
      ensures At3(t, w, h, d, X, Y, Z) == if X == x && Y == y && Z == z then v else At3(s, w, h, d, X, Y, Z)
    {
      KernelIndexInRange(X, Y, Z, w, h, d);
      KernelIndexInjective(x, y, z, X, Y, Z, w, h);
      var j := KernelIndex(X, Y, Z, w, h);
      assert At3(t, w, h, d, X, Y, Z) == t[j];
      assert At3(s, w, h, d, X, Y, Z) == s[j];
      assert j == k <==> X == x && Y == y && Z == z;
    }
  }

  /** `Array3::set(x, y, z, v)`. */
  function Set3(s: seq<real>, w: nat, h: nat, d: nat, x: nat, y: nat, z: nat, v: real): (r: seq<real>)
    requires |s| == w * h * d && x < w && y < h && z < d
    ensures |r| == |s|
    ensures forall X: nat, Y: nat, Z: nat | X < w && Y < h && Z < d ::
      At3(r, w, h, d, X, Y, Z) == if X == x && Y == y && Z == z then v else At3(s, w, h, d, X, Y, Z)
  {
    SetCells(s, w, h, d, x, y, z, v);
    s[KernelIndex(x, y, z, w, h) := v]
  }

  /** A cell of an input-sized buffer (the image, the mask, the padded delta). */
  function Cell(g: Geometry, s: seq<real>, X: nat, Y: nat, Z: nat): real
    requires |s| == g.InputSize() && X < g.inputW && Y < g.inputH && Z < g.depth
  {
    At3(s, g.inputW, g.inputH, g.depth, X, Y, Z)
  }

  /** A cell of an output-sized buffer (the activations, the delta). */
  function OutCell(g: Geometry, s: seq<real>, x: nat, y: nat, z: nat): real
    requires g.regionW > 0 && g.regionH > 0
    requires |s| == g.OutputSize() && x < g.OutW() && y < g.OutH() && z < g.depth
  {
    At3(s, g.OutW(), g.OutH(), g.depth, x, y, z)
  }

  /*
   * The scan of one region.
   */

  /** The running maximum and where it was found: `largest`, `largestInputX`, `largestInputY`. */
  datatype Best = Best(largest: real, x: nat, y: nat)

  /** One step of the inner loop: a value strictly above the running maximum replaces it. */
  function Step(b: Best, v: real, X: nat, Y: nat): Best {
    if v > b.largest then Best(v, X, Y) else b
  }

  /** Row-major order on cells: (`X1`, `Y1`) comes before (`X2`, `Y2`). */
  predicate Before(X1: nat, Y1: nat, X2: nat, Y2: nat) {
    Y1 < Y2 || (Y1 == Y2 && X1 < X2)
  }

  /** The region with top-left cell (`x0`, `y0`) lies inside the image. */
  predicate Fits(g: Geometry, x0: nat, y0: nat, z: nat) {
    x0 + g.regionW <= g.inputW && y0 + g.regionH <= g.inputH && z < g.depth
  }

  predicate InRegion(g: Geometry, x0: nat, y0: nat, X: nat, Y: nat) {
    x0 <= X < x0 + g.regionW && y0 <= Y < y0 + g.regionH
  }

  /** The scan after the first `i` cells of image row `Y` of the region, starting from `b`. */
  function ScanRow(g: Geometry, img: seq<real>, x0: nat, y0: nat, z: nat, Y: nat, i: nat, b: Best): Best
    requires |img| == g.InputSize() && Fits(g, x0, y0, z) && y0 <= Y < y0 + g.regionH && i <= g.regionW
  {
    if i == 0 then b
    else
      var X := x0 + i - 1;
      Step(ScanRow(g, img, x0, y0, z, Y, i - 1, b), Cell(g, img, X, Y, z), X, Y)
  }

  /** The scan after the first `j` rows of the region, starting from (`start`, 0, 0). */
  function ScanRows(g: Geometry, img: seq<real>, x0: nat, y0: nat, z: nat, j: nat, start: real): Best
    requires |img| == g.InputSize() && Fits(g, x0, y0, z) && j <= g.regionH
  {
    if j == 0 then Best(start, 0, 0)
    else ScanRow(g, img, x0, y0, z, y0 + j - 1, g.regionW, ScanRows(g, img, x0, y0, z, j - 1, start))
  }

  /** A region that starts before the last one ends inside the image. */
  lemma MulStep(x: nat, q: nat, r: nat)
    requires x < q
    ensures x * r + r <= q * r
  {
    assert x * r + r == (x + 1) * r;
  }

  lemma DivExact(a: nat, r: nat)
    requires r > 0 && a % r == 0
    ensures (a / r) * r == a
  {
  }

  lemma RegionFits(g: Geometry, x: nat, y: nat, z: nat)
    requires g.Valid() && x < g.OutW() && y < g.OutH() && z < g.depth
    ensures Fits(g, x * g.regionW, y * g.regionH, z)
  {
    MulStep(x, g.OutW(), g.regionW);
    MulStep(y, g.OutH(), g.regionH);
    DivExact(g.inputW, g.regionW);
    DivExact(g.inputH, g.regionH);
  }

  /** The result of scanning region (`x`, `y`) of slice `z` from `start`. */
  function RegionBest(g: Geometry, img: seq<real>, x: nat, y: nat, z: nat, start: real): Best
    requires g.Valid() && |img| == g.InputSize() && x < g.OutW() && y < g.OutH() && z < g.depth
  {
    RegionFits(g, x, y, z);
    ScanRows(g, img, x * g.regionW, y * g.regionH, z, g.regionH, start)
  }

  /**
   * What the scan knows once every cell of the region before (`Xn`, `Yn`)
   * has been visited: the running maximum is at least `start` and every
   * visited value; it is still (`start`, 0, 0) unless some value exceeded
   * `start`; otherwise it sits on a visited cell holding it, and every
   * region cell before that one is strictly smaller.
   */
  ghost predicate ScanInv(g: Geometry, img: seq<real>, x0: nat, y0: nat, z: nat, start: real, b: Best, Xn: nat, Yn: nat)
    requires |img| == g.InputSize() && Fits(g, x0, y0, z)
  {
    start <= b.largest &&
    (b.largest == start ==> b == Best(start, 0, 0)) &&
    (forall X: nat, Y: nat | InRegion(g, x0, y0, X, Y) && Before(X, Y, Xn, Yn) :: Cell(g, img, X, Y, z) <= b.largest) &&
    (start < b.largest ==>
      InRegion(g, x0, y0, b.x, b.y) && Before(b.x, b.y, Xn, Yn) && Cell(g, img, b.x, b.y, z) == b.largest &&
      forall X: nat, Y: nat | InRegion(g, x0, y0, X, Y) && Before(X, Y, b.x, b.y) :: Cell(g, img, X, Y, z) < b.largest)
  }

  lemma {:induction false} ScanRowInv(g: Geometry, img: seq<real>, x0: nat, y0: nat, z: nat, Y: nat, i: nat, b: Best, start: real)
    requires |img| == g.InputSize() && Fits(g, x0, y0, z) && y0 <= Y < y0 + g.regionH && i <= g.regionW
    requires ScanInv(g, img, x0, y0, z, start, b, x0, Y)
    ensures ScanInv(g, img, x0, y0, z, start, ScanRow(g, img, x0, y0, z, Y, i, b), x0 + i, Y)
  {
    if i > 0 {
      ScanRowInv(g, img, x0, y0, z, Y, i - 1, b, start);
    }
  }

  lemma {:induction false} ScanRowsInv(g: Geometry, img: seq<real>, x0: nat, y0: nat, z: nat, j: nat, start: real)
    requires |img| == g.InputSize() && Fits(g, x0, y0, z) && j <= g.regionH
    ensures ScanInv(g, img, x0, y0, z, start, ScanRows(g, img, x0, y0, z, j, start), x0, y0 + j)
  {
    if j > 0 {
      var b := ScanRows(g, img, x0, y0, z, j - 1, start);
      ScanRowsInv(g, img, x0, y0, z, j - 1, start);
      ScanRowInv(g, img, x0, y0, z, y0 + j - 1, g.regionW, b, start);
    }
  }

  /** The position the scan ends on lies in the image. */
  lemma ScanInImage(g: Geometry, img: seq<real>, x0: nat, y0: nat, z: nat, start: real)
    requires g.Valid() && |img| == g.InputSize() && Fits(g, x0, y0, z)
    ensures var b := ScanRows(g, img, x0, y0, z, g.regionH, start); b.x < g.inputW && b.y < g.inputH
  {
    ScanRowsInv(g, img, x0, y0, z, g.regionH, start);
  }

  /**
   * The scan of a region finds its first strict maximum: the result is at
   * least `start` and every value of the region; if some value exceeds
   * `start`, it is the value at the result's position, which lies in the
   * region, and every cell before it in row-major order is strictly smaller;
   * otherwise the result is (`start`, 0, 0).
   */
  lemma RegionBestIsFirstMax(g: Geometry, img: seq<real>, x: nat, y: nat, z: nat, start: real)
    requires g.Valid() && |img| == g.InputSize() && x < g.OutW() && y < g.OutH() && z < g.depth
    ensures var b, x0, y0 := RegionBest(g, img, x, y, z, start), x * g.regionW, y * g.regionH;
      Fits(g, x0, y0, z) && start <= b.largest &&
      (forall X: nat, Y: nat | InRegion(g, x0, y0, X, Y) :: Cell(g, img, X, Y, z) <= b.largest) &&
      (b.largest == start ==> b.x == 0 && b.y == 0) &&
      (start < b.largest ==>
        InRegion(g, x0, y0, b.x, b.y) && Cell(g, img, b.x, b.y, z) == b.largest &&
        forall X: nat, Y: nat | InRegion(g, x0, y0, X, Y) && Before(X, Y, b.x, b.y) :: Cell(g, img, X, Y, z) < b.largest)
  {
    RegionFits(g, x, y, z);
    ScanRowsInv(g, img, x * g.regionW, y * g.regionH, z, g.regionH, start);
  }

  /*
   * The two inner loops, over the cells of one region.
   */

  /**
   * `m` is `mask` with the cells of the region at (`x0`, `y0`) of slice `z`
   * that come before (`Xn`, `Yn`) set to 0.
   */
  ghost predicate ZeroedBefore(g: Geometry, mask: seq<real>, m: seq<real>, x0: nat, y0: nat, z: nat, Xn: nat, Yn: nat)
    requires |mask| == g.InputSize() && |m| == g.InputSize()
  {
    forall X: nat, Y: nat, Z: nat | X < g.inputW && Y < g.inputH && Z < g.depth ::
      Cell(g, m, X, Y, Z) == if Z == z && InRegion(g, x0, y0, X, Y) && Before(X, Y, Xn, Yn) then 0.0 else Cell(g, mask, X, Y, Z)
  }

  lemma ZeroNext(g: Geometry, mask: seq<real>, m: seq<real>, x0: nat, y0: nat, z: nat, X: nat, Y: nat)
    requires |mask| == g.InputSize() && |m| == g.InputSize() && Fits(g, x0, y0, z) && InRegion(g, x0, y0, X, Y)
    requires ZeroedBefore(g, mask, m, x0, y0, z, X, Y)
    ensures ZeroedBefore(g, mask, Set3(m, g.inputW, g.inputH, g.depth, X, Y, z, 0.0), x0, y0, z, X + 1, Y)
  {
    var m' := Set3(m, g.inputW, g.inputH, g.depth, X, Y, z, 0.0);
    forall X': nat, Y': nat, Z: nat | X' < g.inputW && Y' < g.inputH && Z < g.depth
      ensures Cell(g, m', X', Y', Z) == if Z == z && InRegion(g, x0, y0, X', Y') && Before(X', Y', X + 1, Y) then 0.0 else Cell(g, mask, X', Y', Z)
    {
      assert Cell(g, m', X', Y', Z) == if X' == X && Y' == Y && Z == z then 0.0 else Cell(g, m, X', Y', Z);
      assert Cell(g, m, X', Y', Z) == if Z == z && InRegion(g, x0, y0, X', Y') && Before(X', Y', X, Y) then 0.0 else Cell(g, mask, X', Y', Z);
    }
  }

  lemma ZeroRowDone(g: Geometry, mask: seq<real>, m: seq<real>, x0: nat, y0: nat, z: nat, Y: nat)
    requires |mask| == g.InputSize() && |m| == g.InputSize()
    requires ZeroedBefore(g, mask, m, x0, y0, z, x0 + g.regionW, Y)
    ensures ZeroedBefore(g, mask, m, x0, y0, z, x0, Y + 1)
  {
  }

  /**
   * `m` is `mask` with the region at (`x0`, `y0`) of slice `z` set to 0
   * except for cell (`X`, `Y`, `z`), which is 1.
   */
  ghost predicate Marked(g: Geometry, mask: seq<real>, m: seq<real>, x0: nat, y0: nat, z: nat, X: nat, Y: nat)
    requires |mask| == g.InputSize() && |m| == g.InputSize()
  {
    forall X': nat, Y': nat, Z: nat | X' < g.inputW && Y' < g.inputH && Z < g.depth ::
      Cell(g, m, X', Y', Z) ==
        if X' == X && Y' == Y && Z == z then 1.0
        else if Z == z && InRegion(g, x0, y0, X', Y') then 0.0
        else Cell(g, mask, X', Y', Z)
  }

  lemma MarkBest(g: Geometry, mask: seq<real>, m: seq<real>, x0: nat, y0: nat, z: nat, X: nat, Y: nat)
    requires |mask| == g.InputSize() && |m| == g.InputSize() && X < g.inputW && Y < g.inputH && z < g.depth
    requires ZeroedBefore(g, mask, m, x0, y0, z, x0, y0 + g.regionH)
    ensures Marked(g, mask, Set3(m, g.inputW, g.inputH, g.depth, X, Y, z, 1.0), x0, y0, z, X, Y)
  {
    var m' := Set3(m, g.inputW, g.inputH, g.depth, X, Y, z, 1.0);
    forall X': nat, Y': nat, Z: nat | X' < g.inputW && Y' < g.inputH && Z < g.depth
      ensures Cell(g, m', X', Y', Z) ==
        if X' == X && Y' == Y && Z == z then 1.0
        else if Z == z && InRegion(g, x0, y0, X', Y') then 0.0
        else Cell(g, mask, X', Y', Z)
    {
      assert Cell(g, m', X', Y', Z) == if X' == X && Y' == Y && Z == z then 1.0 else Cell(g, m, X', Y', Z);
      assert Cell(g, m, X', Y', Z) == if Z == z && InRegion(g, x0, y0, X', Y') && Before(X', Y', x0, y0 + g.regionH) then 0.0 else Cell(g, mask, X', Y', Z);
    }
  }

  /**
   * One image row `Y` of the region loop of `trainForward`: continues the
   * scan from (`largest`, `largestX`, `largestY`) and zeroes the row's mask cells.
   */
  method PoolRow(g: Geometry, img: seq<real>, mask: seq<real>, m: seq<real>, x0: nat, y0: nat, z: nat, Y: nat,
                 largest: real, largestX: nat, largestY: nat)
    returns (m': seq<real>, largest': real, largestX': nat, largestY': nat)
    requires |img| == g.InputSize() && |mask| == g.InputSize() && |m| == g.InputSize()
    requires Fits(g, x0, y0, z) && y0 <= Y < y0 + g.regionH
    requires ZeroedBefore(g, mask, m, x0, y0, z, x0, Y)
    ensures Best(largest', largestX', largestY') == ScanRow(g, img, x0, y0, z, Y, g.regionW, Best(largest, largestX, largestY))
    ensures |m'| == |m| && ZeroedBefore(g, mask, m', x0, y0, z, x0, Y + 1)
  {
    largest', largestX', largestY' := largest, largestX, largestY;
    m' := m;
    var i := 0;
    while i < g.regionW
      invariant i <= g.regionW && |m'| == |m|
      invariant Best(largest', largestX', largestY') == ScanRow(g, img, x0, y0, z, Y, i, Best(largest, largestX, largestY))
      invariant ZeroedBefore(g, mask, m', x0, y0, z, x0 + i, Y)
    {
      var imgX := x0 + i;
      var input := Cell(g, img, imgX, Y, z);
      if input > largest' {
        largest', largestX', largestY' := input, imgX, Y;
      }
      ZeroNext(g, mask, m', x0, y0, z, imgX, Y);
      m' := Set3(m', g.inputW, g.inputH, g.depth, imgX, Y, z, 0.0);
      i := i + 1;
    }
    ZeroRowDone(g, mask, m', x0, y0, z, Y);
  }

  /**
   * The region loop of `trainForward`: scans the region at (`x0`, `y0`) of
   * slice `z`, zeroes its mask cells as it goes, then marks the position of
   * the running maximum with 1.
   */
  method PoolRegion(g: Geometry, img: seq<real>, mask: seq<real>, x0: nat, y0: nat, z: nat, start: real)
    returns (mask': seq<real>, largest: real, largestX: nat, largestY: nat)
    requires g.Valid() && |img| == g.InputSize() && |mask| == g.InputSize() && Fits(g, x0, y0, z)
    ensures Best(largest, largestX, largestY) == ScanRows(g, img, x0, y0, z, g.regionH, start)
    ensures |mask'| == |mask| && Marked(g, mask, mask', x0, y0, z, largestX, largestY)
  {
    largest, largestX, largestY := start, 0, 0;
    mask' := mask;
    var j := 0;
    while j < g.regionH
      invariant j <= g.regionH && |mask'| == |mask|
      invariant Best(largest, largestX, largestY) == ScanRows(g, img, x0, y0, z, j, start)
      invariant ZeroedBefore(g, mask, mask', x0, y0, z, x0, y0 + j)
    {
      mask', largest, largestX, largestY := PoolRow(g, img, mask, mask', x0, y0, z, y0 + j, largest, largestX, largestY);
      j := j + 1;
    }
    ScanInImage(g, img, x0, y0, z, start);
    MarkBest(g, mask, mask', x0, y0, z, largestX, largestY);
    mask' := Set3(mask', g.inputW, g.inputH, g.depth, largestX, largestY, z, 1.0);
  }

  /** The region loop of `evalForward`: the same scan, keeping only the running maximum. */
  method RegionMax(g: Geometry, img: seq<real>, x0: nat, y0: nat, z: nat, start: real) returns (largest: real)
    requires |img| == g.InputSize() && Fits(g, x0, y0, z)
    ensures largest == ScanRows(g, img, x0, y0, z, g.regionH, start).largest
  {
    largest := start;
    var j := 0;
    while j < g.regionH
      invariant j <= g.regionH
      invariant largest == ScanRows(g, img, x0, y0, z, j, start).largest
    {
      var i := 0;
      while i < g.regionW
        invariant i <= g.regionW
        invariant largest == ScanRow(g, img, x0, y0, z, y0 + j, i, ScanRows(g, img, x0, y0, z, j, start)).largest
      {
        var input := Cell(g, img, x0 + i, y0 + j, z);
        if input > largest {
          largest := input;
        }
        i := i + 1;
      }
      j := j + 1;
    }
  }

  /**
   * The region loop of `padDelta` / `updateDeltas`: every cell of the region
   * at (`x0`, `y0`) of slice `z` gets `d` where the mask is non-zero and 0
   * elsewhere.
   */
  ghost predicate Padded(g: Geometry, mask: seq<real>, padded: seq<real>, p: seq<real>, x0: nat, y0: nat, z: nat, d: real)
    requires |mask| == g.InputSize() && |padded| == g.InputSize() && |p| == g.InputSize()
  {
    forall X: nat, Y: nat, Z: nat | X < g.inputW && Y < g.inputH && Z < g.depth ::
      Cell(g, p, X, Y, Z) ==
        if Z == z && InRegion(g, x0, y0, X, Y) then (if Cell(g, mask, X, Y, Z) != 0.0 then d else 0.0)
        else Cell(g, padded, X, Y, Z)
  }

  method PadRegion(g: Geometry, mask: seq<real>, padded: seq<real>, x0: nat, y0: nat, z: nat, d: real) returns (padded': seq<real>)
    requires |mask| == g.InputSize() && |padded| == g.InputSize() && Fits(g, x0, y0, z)
    ensures |padded'| == |padded| && Padded(g, mask, padded, padded', x0, y0, z, d)
  {
    padded' := padded;
    var j := 0;
    while j < g.regionH
      invariant j <= g.regionH && |padded'| == |padded|
      invariant forall X: nat, Y: nat, Z: nat | X < g.inputW && Y < g.inputH && Z < g.depth ::
        Cell(g, padded', X, Y, Z) ==
          if Z == z && InRegion(g, x0, y0, X, Y) && Y < y0 + j then (if Cell(g, mask, X, Y, Z) != 0.0 then d else 0.0)
          else Cell(g, padded, X, Y, Z)
    {
      var i := 0;
      while i < g.regionW
        invariant i <= g.regionW && |padded'| == |padded|
        invariant forall X: nat, Y: nat, Z: nat | X < g.inputW && Y < g.inputH && Z < g.depth ::
          Cell(g, padded', X, Y, Z) ==
            if Z == z && InRegion(g, x0, y0, X, Y) && Before(X, Y, x0 + i, y0 + j) then (if Cell(g, mask, X, Y, Z) != 0.0 then d else 0.0)
            else Cell(g, padded, X, Y, Z)
      {
        var imgX, imgY := x0 + i, y0 + j;
        if Cell(g, mask, imgX, imgY, z) != 0.0 {
          padded' := Set3(padded', g.inputW, g.inputH, g.depth, imgX, imgY, z, d);
        } else {
          padded' := Set3(padded', g.inputW, g.inputH, g.depth, imgX, imgY, z, 0.0);
        }
        i := i + 1;
      }
      j := j + 1;
    }
  }

  /*
   * Where a region writes its 1, and the mask a slice ends with.
   */

  /** Image column `X` lies in region column `x` exactly when `X / r == x`. */
  lemma RegionOf(X: nat, x: nat, r: nat)
    requires r > 0
    ensures x * r <= X < x * r + r <==> X / r == x
  {
    if X / r == x {
      assert X == x * r + X % r;
    } else if x * r <= X < x * r + r {
      var q := X / r;
      assert X == q * r + X % r;
      if q < x {
        MulStep(q, x, r);
      } else {
        MulStep(x, q, r);
      }
    }
  }

  /** Every image column lies in some region column. */
  lemma RegionIndexBound(X: nat, a: nat, r: nat)
    requires r > 0 && a % r == 0 && X < a
    ensures X / r < a / r
  {
    DivExact(a, r);
  }

  /**
   * The position a region's scan ends on lies in the image; it is either
   * a cell of the region itself or the image cell (0, 0).
   */
  lemma PosRegion(g: Geometry, img: seq<real>, x: nat, y: nat, z: nat, start: real)
    requires g.Valid() && |img| == g.InputSize() && x < g.OutW() && y < g.OutH() && z < g.depth
    ensures var b := RegionBest(g, img, x, y, z, start);
      b.x < g.inputW && b.y < g.inputH &&
      ((b.x == 0 && b.y == 0) || (b.x / g.regionW == x && b.y / g.regionH == y))
  {
    var b := RegionBest(g, img, x, y, z, start);
    RegionBestIsFirstMax(g, img, x, y, z, start);
    if start < b.largest {
      RegionOf(b.x, x, g.regionW);
      RegionOf(b.y, y, g.regionH);
    }
  }

  /** Region (`x`, `y`) of slice `z` writes its 1 at image cell (`X`, `Y`). */
  ghost predicate PointsTo(g: Geometry, img: seq<real>, start: real, x: nat, y: nat, z: nat, X: nat, Y: nat)
    requires g.Valid() && |img| == g.InputSize() && x < g.OutW() && y < g.OutH() && z < g.depth
  {
    var b := RegionBest(g, img, x, y, z, start);
    b.x == X && b.y == Y
  }

  /** Some region of slice `z` before region (`xn`, `yn`) writes its 1 at (`X`, `Y`). */
  ghost predicate PointedBefore(g: Geometry, img: seq<real>, start: real, z: nat, X: nat, Y: nat, xn: nat, yn: nat)
    requires g.Valid() && |img| == g.InputSize() && z < g.depth
  {
    exists x: nat, y: nat | x < g.OutW() && y < g.OutH() && Before(x, y, xn, yn) :: PointsTo(g, img, start, x, y, z, X, Y)
  }

  ghost function MaskSoFar(g: Geometry, img: seq<real>, start: real, z: nat, X: nat, Y: nat, xn: nat, yn: nat): real
    requires g.Valid() && |img| == g.InputSize() && z < g.depth
  {
    if PointedBefore(g, img, start, z, X, Y, xn, yn) then 1.0 else 0.0
  }

  /**
   * The mask `trainForward` leaves at image cell (`X`, `Y`, `Z`): 1 when some
   * region of slice `Z` writes its 1 there, 0 otherwise.
   */
  ghost function MaskCell(g: Geometry, img: seq<real>, start: real, X: nat, Y: nat, Z: nat): real
    requires g.Valid() && |img| == g.InputSize() && Z < g.depth
  {
    MaskSoFar(g, img, start, Z, X, Y, 0, g.OutH())
  }

  lemma PointedNext(g: Geometry, img: seq<real>, start: real, z: nat, X: nat, Y: nat, x: nat, y: nat)
    requires g.Valid() && |img| == g.InputSize() && z < g.depth && x < g.OutW() && y < g.OutH()
    ensures PointedBefore(g, img, start, z, X, Y, x + 1, y) <==>
      PointedBefore(g, img, start, z, X, Y, x, y) || PointsTo(g, img, start, x, y, z, X, Y)
  {
    if PointedBefore(g, img, start, z, X, Y, x + 1, y) {
      var x': nat, y': nat :| x' < g.OutW() && y' < g.OutH() && Before(x', y', x + 1, y) && PointsTo(g, img, start, x', y', z, X, Y);
      if !(x' == x && y' == y) {
        assert Before(x', y', x, y);
      }
    }
  }

  /** No region before region (`x`, `y`) writes its 1 into region (`x`, `y`). */
  lemma NotPointedEarlier(g: Geometry, img: seq<real>, start: real, z: nat, X: nat, Y: nat, x: nat, y: nat)
    requires g.Valid() && |img| == g.InputSize() && z < g.depth
    requires X / g.regionW == x && Y / g.regionH == y
    ensures !PointedBefore(g, img, start, z, X, Y, x, y)
  {
    if PointedBefore(g, img, start, z, X, Y, x, y) {
      var x': nat, y': nat :| x' < g.OutW() && y' < g.OutH() && Before(x', y', x, y) && PointsTo(g, img, start, x', y', z, X, Y);
      PosRegion(g, img, x', y', z, start);
      assert false;
    }
  }

  /** Cell (`X`, `Y`, `Z`) of `m` is as the slice loop leaves it before region (`xn`, `yn`). */
  ghost predicate MaskedCell(g: Geometry, img: seq<real>, start: real, m0: seq<real>, m: seq<real>,
                             xn: nat, yn: nat, z: nat, X: nat, Y: nat, Z: nat)
    requires g.Valid() && |img| == g.InputSize() && |m0| == g.InputSize() && |m| == g.InputSize()
    requires X < g.inputW && Y < g.inputH && Z < g.depth
  {
    Cell(g, m, X, Y, Z) ==
      if Z == z && Before(X / g.regionW, Y / g.regionH, xn, yn) then MaskSoFar(g, img, start, Z, X, Y, xn, yn)
      else Cell(g, m0, X, Y, Z)
  }

  /**
   * The slice loop invariant of `trainForward`: the cells of slice `z` in
   * regions before (`xn`, `yn`) hold the mask so far; every other cell is
   * as in `m0`.
   */
  ghost predicate MaskedBefore(g: Geometry, img: seq<real>, start: real, m0: seq<real>, m: seq<real>, z: nat, xn: nat, yn: nat)
    requires g.Valid() && |img| == g.InputSize() && |m0| == g.InputSize() && |m| == g.InputSize()
  {
    forall X: nat, Y: nat, Z: nat | X < g.inputW && Y < g.inputH && Z < g.depth ::
      MaskedCell(g, img, start, m0, m, xn, yn, z, X, Y, Z)
  }

  /** The cell a region's scan ends on gets its 1 once the region is done. */
  lemma MaskAtBest(g: Geometry, img: seq<real>, start: real, x: nat, y: nat, z: nat)
    requires g.Valid() && |img| == g.InputSize() && x < g.OutW() && y < g.OutH() && z < g.depth
    ensures var b := RegionBest(g, img, x, y, z, start);
      b.x < g.inputW && b.y < g.inputH &&
      Before(b.x / g.regionW, b.y / g.regionH, x + 1, y) && MaskSoFar(g, img, start, z, b.x, b.y, x + 1, y) == 1.0
  {
    var b := RegionBest(g, img, x, y, z, start);
    PosRegion(g, img, x, y, z, start);
    PointedNext(g, img, start, z, b.x, b.y, x, y);
    assert PointsTo(g, img, start, x, y, z, b.x, b.y);
  }

  /** Every other cell of the region is 0 once the region is done. */
  lemma MaskInRegion(g: Geometry, img: seq<real>, start: real, x: nat, y: nat, z: nat, X: nat, Y: nat)
    requires g.Valid() && |img| == g.InputSize() && x < g.OutW() && y < g.OutH() && z < g.depth
    requires X < g.inputW && Y < g.inputH && InRegion(g, x * g.regionW, y * g.regionH, X, Y)
    requires var b := RegionBest(g, img, x, y, z, start); !(X == b.x && Y == b.y)
    ensures X / g.regionW == x && Y / g.regionH == y && MaskSoFar(g, img, start, z, X, Y, x + 1, y) == 0.0
  {
    RegionOf(X, x, g.regionW);
    RegionOf(Y, y, g.regionH);
    PointedNext(g, img, start, z, X, Y, x, y);
    NotPointedEarlier(g, img, start, z, X, Y, x, y);
  }

  /** Outside region (`x`, `y`), being before the next region is being before this one. */
  lemma OutsideBefore(X: nat, Y: nat, x: nat, y: nat, rW: nat, rH: nat)
    requires rW > 0 && rH > 0 && !(x * rW <= X < x * rW + rW && y * rH <= Y < y * rH + rH)
    ensures Before(X / rW, Y / rH, x + 1, y) <==> Before(X / rW, Y / rH, x, y)
  {
    RegionOf(X, x, rW);
    RegionOf(Y, y, rH);
  }

  /** A cell other than where the scan of region (`x`, `y`) ends keeps its mask value. */
  lemma MaskNotBest(g: Geometry, img: seq<real>, start: real, x: nat, y: nat, z: nat, X: nat, Y: nat)
    requires g.Valid() && |img| == g.InputSize() && x < g.OutW() && y < g.OutH() && z < g.depth
    requires var b := RegionBest(g, img, x, y, z, start); !(X == b.x && Y == b.y)
    ensures MaskSoFar(g, img, start, z, X, Y, x + 1, y) == MaskSoFar(g, img, start, z, X, Y, x, y)
  {
    PointedNext(g, img, start, z, X, Y, x, y);
    assert !PointsTo(g, img, start, x, y, z, X, Y);
  }

  /** One cell of `MaskNext`, given what the invariant and the marking say about that cell. */
  lemma MaskNextCell(g: Geometry, img: seq<real>, start: real, m0: seq<real>, m: seq<real>, m': seq<real>,
                     x: nat, y: nat, z: nat, X: nat, Y: nat, Z: nat)
    requires g.Valid() && |img| == g.InputSize() && |m0| == g.InputSize() && |m| == g.InputSize() && |m'| == g.InputSize()
    requires x < g.OutW() && y < g.OutH() && z < g.depth && X < g.inputW && Y < g.inputH && Z < g.depth
    requires MaskedCell(g, img, start, m0, m, x, y, z, X, Y, Z)
    requires var b := RegionBest(g, img, x, y, z, start);
      Cell(g, m', X, Y, Z) ==
        if X == b.x && Y == b.y && Z == z then 1.0
        else if Z == z && InRegion(g, x * g.regionW, y * g.regionH, X, Y) then 0.0
        else Cell(g, m, X, Y, Z)
    ensures MaskedCell(g, img, start, m0, m', x + 1, y, z, X, Y, Z)
  {
    var b := RegionBest(g, img, x, y, z, start);
    if Z == z {
      if X == b.x && Y == b.y {
        MaskAtBest(g, img, start, x, y, z);
      } else if InRegion(g, x * g.regionW, y * g.regionH, X, Y) {
        MaskInRegion(g, img, start, x, y, z, X, Y);
      } else {
        OutsideBefore(X, Y, x, y, g.regionW, g.regionH);
        MaskNotBest(g, img, start, x, y, z, X, Y);
      }
    }
  }

  lemma MaskNext(g: Geometry, img: seq<real>, start: real, m0: seq<real>, m: seq<real>, m': seq<real>, x: nat, y: nat, z: nat)
    requires g.Valid() && |img| == g.InputSize() && |m0| == g.InputSize() && |m| == g.InputSize() && |m'| == g.InputSize()
    requires x < g.OutW() && y < g.OutH() && z < g.depth
    requires MaskedBefore(g, img, start, m0, m, z, x, y)
    requires var b := RegionBest(g, img, x, y, z, start); Marked(g, m, m', x * g.regionW, y * g.regionH, z, b.x, b.y)
    ensures MaskedBefore(g, img, start, m0, m', z, x + 1, y)
  {
    var xn := x + 1;
    forall X: nat, Y: nat, Z: nat | X < g.inputW && Y < g.inputH && Z < g.depth
      ensures MaskedCell(g, img, start, m0, m', xn, y, z, X, Y, Z)
    {
      assert MaskedCell(g, img, start, m0, m, x, y, z, X, Y, Z);
      MaskNextCell(g, img, start, m0, m, m', x, y, z, X, Y, Z);
    }
  }

  lemma PointedRowWrap(g: Geometry, img: seq<real>, start: real, z: nat, X: nat, Y: nat, y: nat)
    requires g.Valid() && |img| == g.InputSize() && z < g.depth
    ensures PointedBefore(g, img, start, z, X, Y, g.OutW(), y) <==> PointedBefore(g, img, start, z, X, Y, 0, y + 1)
  {
    if PointedBefore(g, img, start, z, X, Y, g.OutW(), y) {
      var x': nat, y': nat :| x' < g.OutW() && y' < g.OutH() && Before(x', y', g.OutW(), y) && PointsTo(g, img, start, x', y', z, X, Y);
      assert Before(x', y', 0, y + 1);
    }
    if PointedBefore(g, img, start, z, X, Y, 0, y + 1) {
      var x': nat, y': nat :| x' < g.OutW() && y' < g.OutH() && Before(x', y', 0, y + 1) && PointsTo(g, img, start, x', y', z, X, Y);
      assert Before(x', y', g.OutW(), y);
    }
  }

  /** One cell of `MaskRowWrap`. */
  lemma MaskRowWrapCell(g: Geometry, img: seq<real>, start: real, m0: seq<real>, m: seq<real>, z: nat, y: nat, X: nat, Y: nat, Z: nat)
    requires g.Valid() && |img| == g.InputSize() && |m0| == g.InputSize() && |m| == g.InputSize() && z < g.depth
    requires X < g.inputW && Y < g.inputH && Z < g.depth
    requires MaskedCell(g, img, start, m0, m, g.OutW(), y, z, X, Y, Z)
    ensures MaskedCell(g, img, start, m0, m, 0, y + 1, z, X, Y, Z)
  {
    RegionIndexBound(X, g.inputW, g.regionW);
    BeforeRowWrap(X / g.regionW, Y / g.regionH, g.OutW(), y);
    PointedRowWrap(g, img, start, z, X, Y, y);
  }

  /** A region of the row before `y` precedes the end of that row exactly when it precedes the start of the next. */
  lemma BeforeRowWrap(x: nat, y': nat, w: nat, y: nat)
    requires x < w
    ensures Before(x, y', w, y) <==> Before(x, y', 0, y + 1)
  {
  }

  lemma MaskRowWrap(g: Geometry, img: seq<real>, start: real, m0: seq<real>, m: seq<real>, z: nat, y: nat)
    requires g.Valid() && |img| == g.InputSize() && |m0| == g.InputSize() && |m| == g.InputSize() && z < g.depth
    requires MaskedBefore(g, img, start, m0, m, z, g.OutW(), y)
    ensures MaskedBefore(g, img, start, m0, m, z, 0, y + 1)
  {
    var yn := y + 1;
    forall X: nat, Y: nat, Z: nat | X < g.inputW && Y < g.inputH && Z < g.depth
      ensures MaskedCell(g, img, start, m0, m, 0, yn, z, X, Y, Z)
    {
      assert MaskedCell(g, img, start, m0, m, g.OutW(), y, z, X, Y, Z);
      MaskRowWrapCell(g, img, start, m0, m, z, y, X, Y, Z);
    }
  }

  /**
   * The layer loop invariant of `trainForward`: the slices before `zn` hold
   * their final mask; the others are as in `m0`.
   */
  ghost predicate MaskedSlices(g: Geometry, img: seq<real>, start: real, m0: seq<real>, m: seq<real>, zn: nat)
    requires g.Valid() && |img| == g.InputSize() && |m0| == g.InputSize() && |m| == g.InputSize()
  {
    forall X: nat, Y: nat, Z: nat | X < g.inputW && Y < g.inputH && Z < g.depth ::
      Cell(g, m, X, Y, Z) == if Z < zn then MaskCell(g, img, start, X, Y, Z) else Cell(g, m0, X, Y, Z)
  }

  lemma MaskSliceDone(g: Geometry, img: seq<real>, start: real, m0: seq<real>, m1: seq<real>, m: seq<real>, z: nat)
    requires g.Valid() && |img| == g.InputSize() && |m0| == g.InputSize() && |m1| == g.InputSize() && |m| == g.InputSize()
    requires z < g.depth && MaskedSlices(g, img, start, m0, m1, z) && MaskedBefore(g, img, start, m1, m, z, 0, g.OutH())
    ensures MaskedSlices(g, img, start, m0, m, z + 1)
  {
    forall X: nat, Y: nat, Z: nat | X < g.inputW && Y < g.inputH && Z < g.depth
      ensures Cell(g, m, X, Y, Z) == if Z < z + 1 then MaskCell(g, img, start, X, Y, Z) else Cell(g, m0, X, Y, Z)
    {
      assert MaskedCell(g, img, start, m1, m, 0, g.OutH(), z, X, Y, Z);
      RegionIndexBound(Y, g.inputH, g.regionH);
    }
  }

  /**
   * The slice loop invariant for the activations: the outputs of slice `z`
   * before (`xn`, `yn`) hold their region's maximum; the others are as in `a0`.
   */
  ghost predicate PooledBefore(g: Geometry, img: seq<real>, start: real, a0: seq<real>, a: seq<real>, z: nat, xn: nat, yn: nat)
    requires g.Valid() && |img| == g.InputSize() && |a0| == g.OutputSize() && |a| == g.OutputSize()
  {
    forall x: nat, y: nat, z': nat | x < g.OutW() && y < g.OutH() && z' < g.depth ::
      OutCell(g, a, x, y, z') ==
        if z' == z && Before(x, y, xn, yn) then RegionBest(g, img, x, y, z', start).largest else OutCell(g, a0, x, y, z')
  }

  lemma PooledNext(g: Geometry, img: seq<real>, start: real, a0: seq<real>, a: seq<real>, x: nat, y: nat, z: nat)
    requires g.Valid() && |img| == g.InputSize() && |a0| == g.OutputSize() && |a| == g.OutputSize()
    requires x < g.OutW() && y < g.OutH() && z < g.depth
    requires PooledBefore(g, img, start, a0, a, z, x, y)
    ensures PooledBefore(g, img, start, a0, Set3(a, g.OutW(), g.OutH(), g.depth, x, y, z, RegionBest(g, img, x, y, z, start).largest), z, x + 1, y)
  {
    var a' := Set3(a, g.OutW(), g.OutH(), g.depth, x, y, z, RegionBest(g, img, x, y, z, start).largest);
    forall x': nat, y': nat, z': nat | x' < g.OutW() && y' < g.OutH() && z' < g.depth
      ensures OutCell(g, a', x', y', z') ==
        if z' == z && Before(x', y', x + 1, y) then RegionBest(g, img, x', y', z', start).largest else OutCell(g, a0, x', y', z')
    {
      assert OutCell(g, a', x', y', z') == if x' == x && y' == y && z' == z then RegionBest(g, img, x, y, z, start).largest else OutCell(g, a, x', y', z');
    }
  }

  /** The layer loop invariant for the activations. */
  ghost predicate PooledSlices(g: Geometry, img: seq<real>, start: real, a0: seq<real>, a: seq<real>, zn: nat)
    requires g.Valid() && |img| == g.InputSize() && |a0| == g.OutputSize() && |a| == g.OutputSize()
  {
    forall x: nat, y: nat, z: nat | x < g.OutW() && y < g.OutH() && z < g.depth ::
      OutCell(g, a, x, y, z) == if z < zn then RegionBest(g, img, x, y, z, start).largest else OutCell(g, a0, x, y, z)
  }

  /** The slice loop of `trainForward` over the regions of slice `z`. */
  method PoolSlice(g: Geometry, img: seq<real>, mask: seq<real>, a: seq<real>, z: nat, start: real)
    returns (mask': seq<real>, a': seq<real>)
    requires g.Valid() && |img| == g.InputSize() && |mask| == g.InputSize() && |a| == g.OutputSize() && z < g.depth
    ensures |mask'| == |mask| && MaskedBefore(g, img, start, mask, mask', z, 0, g.OutH())
    ensures |a'| == |a| && PooledBefore(g, img, start, a, a', z, 0, g.OutH())
  {
    mask', a' := mask, a;
    var y := 0;
    while y < g.OutH()
      invariant y <= g.OutH() && |mask'| == |mask| && |a'| == |a|
      invariant MaskedBefore(g, img, start, mask, mask', z, 0, y)
      invariant PooledBefore(g, img, start, a, a', z, 0, y)
    {
      var x := 0;
      while x < g.OutW()
        invariant x <= g.OutW() && |mask'| == |mask| && |a'| == |a|
        invariant MaskedBefore(g, img, start, mask, mask', z, x, y)
        invariant PooledBefore(g, img, start, a, a', z, x, y)
      {
        RegionFits(g, x, y, z);
        var m, largest, largestX, largestY := PoolRegion(g, img, mask', x * g.regionW, y * g.regionH, z, start);
        MaskNext(g, img, start, mask, mask', m, x, y, z);
        PooledNext(g, img, start, a, a', x, y, z);
        mask' := m;
        a' := Set3(a', g.OutW(), g.OutH(), g.depth, x, y, z, largest);
        x := x + 1;
      }
      MaskRowWrap(g, img, start, mask, mask', z, y);
      y := y + 1;
    }
  }

  /**
   * The loops of `trainForward`: every activation becomes its region's
   * running maximum from `start`, and the mask becomes `MaskCell`.
   */
  method PoolForward(g: Geometry, img: seq<real>, mask: seq<real>, a: seq<real>, start: real)
    returns (mask': seq<real>, a': seq<real>)
    requires g.Valid() && |img| == g.InputSize() && |mask| == g.InputSize() && |a| == g.OutputSize()
    ensures |mask'| == |mask| && |a'| == |a|
    ensures forall X: nat, Y: nat, Z: nat | X < g.inputW && Y < g.inputH && Z < g.depth ::
      Cell(g, mask', X, Y, Z) == MaskCell(g, img, start, X, Y, Z)
    ensures forall x: nat, y: nat, z: nat | x < g.OutW() && y < g.OutH() && z < g.depth ::
      OutCell(g, a', x, y, z) == RegionBest(g, img, x, y, z, start).largest
  {
    mask', a' := mask, a;
    var z := 0;
    while z < g.depth
      invariant z <= g.depth && |mask'| == |mask| && |a'| == |a|
      invariant MaskedSlices(g, img, start, mask, mask', z)
      invariant PooledSlices(g, img, start, a, a', z)
    {
      var m, b := PoolSlice(g, img, mask', a', z, start);
      MaskSliceDone(g, img, start, mask, mask', m, z);
      mask', a' := m, b;
      z := z + 1;
    }
  }

  lemma PooledNextMax(g: Geometry, img: seq<real>, start: real, a0: seq<real>, a: seq<real>, x: nat, y: nat, z: nat, largest: real)
    requires g.Valid() && |img| == g.InputSize() && |a0| == g.OutputSize() && |a| == g.OutputSize()
    requires x < g.OutW() && y < g.OutH() && z < g.depth
    requires PooledBefore(g, img, start, a0, a, z, x, y) && largest == RegionBest(g, img, x, y, z, start).largest
    ensures PooledBefore(g, img, start, a0, Set3(a, g.OutW(), g.OutH(), g.depth, x, y, z, largest), z, x + 1, y)
  {
    PooledNext(g, img, start, a0, a, x, y, z);
  }

  /** The slice loop of `evalForward`. */
  method EvalSlice(g: Geometry, img: seq<real>, a: seq<real>, z: nat, start: real) returns (a': seq<real>)
    requires g.Valid() && |img| == g.InputSize() && |a| == g.OutputSize() && z < g.depth
    ensures |a'| == |a| && PooledBefore(g, img, start, a, a', z, 0, g.OutH())
  {
    a' := a;
    var y := 0;
    while y < g.OutH()
      invariant y <= g.OutH() && |a'| == |a|
      invariant PooledBefore(g, img, start, a, a', z, 0, y)
    {
      var x := 0;
      while x < g.OutW()
        invariant x <= g.OutW() && |a'| == |a|
        invariant PooledBefore(g, img, start, a, a', z, x, y)
      {
        RegionFits(g, x, y, z);
        var largest := RegionMax(g, img, x * g.regionW, y * g.regionH, z, start);
        PooledNextMax(g, img, start, a, a', x, y, z, largest);
        a' := Set3(a', g.OutW(), g.OutH(), g.depth, x, y, z, largest);
        x := x + 1;
      }
      y := y + 1;
    }
  }

  /**
   * The loops of `evalForward`, into a fresh zero-filled output: every
   * output is its region's running maximum from `start`, as in `PoolForward`.
   */
  method EvalPool(g: Geometry, img: seq<real>, start: real) returns (a: seq<real>)
    requires g.Valid() && |img| == g.InputSize()
    ensures |a| == g.OutputSize()
    ensures forall x: nat, y: nat, z: nat | x < g.OutW() && y < g.OutH() && z < g.depth ::
      OutCell(g, a, x, y, z) == RegionBest(g, img, x, y, z, start).largest
  {
    var a0 := seq(g.OutputSize(), _ => 0.0);
    a := a0;
    var z := 0;
    while z < g.depth
      invariant z <= g.depth && |a| == |a0|
      invariant PooledSlices(g, img, start, a0, a, z)
    {
      a := EvalSlice(g, img, a, z, start);
      z := z + 1;
    }
  }

  /*
   * Routing the output delta back through the mask.
   */

  /**
   * What `padDelta` / `updateDeltas` write at image cell (`X`, `Y`, `Z`):
   * the delta of the cell's region where the mask is non-zero, 0 elsewhere.
   */
  function PadCell(g: Geometry, mask: seq<real>, delta: seq<real>, X: nat, Y: nat, Z: nat): real
    requires g.Valid() && |mask| == g.InputSize() && |delta| == g.OutputSize()
    requires X < g.inputW && Y < g.inputH && Z < g.depth
  {
    RegionIndexBound(X, g.inputW, g.regionW);
    RegionIndexBound(Y, g.inputH, g.regionH);
    if Cell(g, mask, X, Y, Z) != 0.0 then OutCell(g, delta, X / g.regionW, Y / g.regionH, Z) else 0.0
  }

  ghost predicate PaddedCell(g: Geometry, mask: seq<real>, delta: seq<real>, p0: seq<real>, p: seq<real>,
                             xn: nat, yn: nat, z: nat, X: nat, Y: nat, Z: nat)
    requires g.Valid() && |mask| == g.InputSize() && |delta| == g.OutputSize() && |p0| == g.InputSize() && |p| == g.InputSize()
    requires X < g.inputW && Y < g.inputH && Z < g.depth
  {
    Cell(g, p, X, Y, Z) ==
      if Z == z && Before(X / g.regionW, Y / g.regionH, xn, yn) then PadCell(g, mask, delta, X, Y, Z)
      else Cell(g, p0, X, Y, Z)
  }

  ghost predicate PaddedBefore(g: Geometry, mask: seq<real>, delta: seq<real>, p0: seq<real>, p: seq<real>, z: nat, xn: nat, yn: nat)
    requires g.Valid() && |mask| == g.InputSize() && |delta| == g.OutputSize() && |p0| == g.InputSize() && |p| == g.InputSize()
  {
    forall X: nat, Y: nat, Z: nat | X < g.inputW && Y < g.inputH && Z < g.depth ::
      PaddedCell(g, mask, delta, p0, p, xn, yn, z, X, Y, Z)
  }

  lemma PadNextCell(g: Geometry, mask: seq<real>, delta: seq<real>, p0: seq<real>, p: seq<real>, p': seq<real>,
                    x: nat, y: nat, z: nat, X: nat, Y: nat, Z: nat)
    requires g.Valid() && |mask| == g.InputSize() && |delta| == g.OutputSize()
    requires |p0| == g.InputSize() && |p| == g.InputSize() && |p'| == g.InputSize()
    requires x < g.OutW() && y < g.OutH() && z < g.depth && X < g.inputW && Y < g.inputH && Z < g.depth
    requires PaddedCell(g, mask, delta, p0, p, x, y, z, X, Y, Z)
    requires Cell(g, p', X, Y, Z) ==
      if Z == z && InRegion(g, x * g.regionW, y * g.regionH, X, Y) then
        (if Cell(g, mask, X, Y, Z) != 0.0 then OutCell(g, delta, x, y, z) else 0.0)
      else Cell(g, p, X, Y, Z)
    ensures PaddedCell(g, mask, delta, p0, p', x + 1, y, z, X, Y, Z)
  {
    RegionOf(X, x, g.regionW);
    RegionOf(Y, y, g.regionH);
  }

  lemma PadNext(g: Geometry, mask: seq<real>, delta: seq<real>, p0: seq<real>, p: seq<real>, p': seq<real>, x: nat, y: nat, z: nat)
    requires g.Valid() && |mask| == g.InputSize() && |delta| == g.OutputSize()
    requires |p0| == g.InputSize() && |p| == g.InputSize() && |p'| == g.InputSize()
    requires x < g.OutW() && y < g.OutH() && z < g.depth
    requires PaddedBefore(g, mask, delta, p0, p, z, x, y)
    requires Padded(g, mask, p, p', x * g.regionW, y * g.regionH, z, OutCell(g, delta, x, y, z))
    ensures PaddedBefore(g, mask, delta, p0, p', z, x + 1, y)
  {
    var xn := x + 1;
    forall X: nat, Y: nat, Z: nat | X < g.inputW && Y < g.inputH && Z < g.depth
      ensures PaddedCell(g, mask, delta, p0, p', xn, y, z, X, Y, Z)
    {
      assert PaddedCell(g, mask, delta, p0, p, x, y, z, X, Y, Z);
      PadNextCell(g, mask, delta, p0, p, p', x, y, z, X, Y, Z);
    }
  }

  lemma PadRowWrapCell(g: Geometry, mask: seq<real>, delta: seq<real>, p0: seq<real>, p: seq<real>, z: nat, y: nat, X: nat, Y: nat, Z: nat)
    requires g.Valid() && |mask| == g.InputSize() && |delta| == g.OutputSize() && |p0| == g.InputSize() && |p| == g.InputSize()
    requires X < g.inputW && Y < g.inputH && Z < g.depth
    requires PaddedCell(g, mask, delta, p0, p, g.OutW(), y, z, X, Y, Z)
    ensures PaddedCell(g, mask, delta, p0, p, 0, y + 1, z, X, Y, Z)
  {
    RegionIndexBound(X, g.inputW, g.regionW);
    assert Before(X / g.regionW, Y / g.regionH, g.OutW(), y) <==> Before(X / g.regionW, Y / g.regionH, 0, y + 1);
  }

  lemma PadRowWrap(g: Geometry, mask: seq<real>, delta: seq<real>, p0: seq<real>, p: seq<real>, z: nat, y: nat)
    requires g.Valid() && |mask| == g.InputSize() && |delta| == g.OutputSize() && |p0| == g.InputSize() && |p| == g.InputSize()
    requires PaddedBefore(g, mask, delta, p0, p, z, g.OutW(), y)
    ensures PaddedBefore(g, mask, delta, p0, p, z, 0, y + 1)
  {
    var yn := y + 1;
    forall X: nat, Y: nat, Z: nat | X < g.inputW && Y < g.inputH && Z < g.depth
      ensures PaddedCell(g, mask, delta, p0, p, 0, yn, z, X, Y, Z)
    {
      assert PaddedCell(g, mask, delta, p0, p, g.OutW(), y, z, X, Y, Z);
      PadRowWrapCell(g, mask, delta, p0, p, z, y, X, Y, Z);
    }
  }

  ghost predicate PaddedSlices(g: Geometry, mask: seq<real>, delta: seq<real>, p0: seq<real>, p: seq<real>, zn: nat)
    requires g.Valid() && |mask| == g.InputSize() && |delta| == g.OutputSize() && |p0| == g.InputSize() && |p| == g.InputSize()
  {
    forall X: nat, Y: nat, Z: nat | X < g.inputW && Y < g.inputH && Z < g.depth ::
      Cell(g, p, X, Y, Z) == if Z < zn then PadCell(g, mask, delta, X, Y, Z) else Cell(g, p0, X, Y, Z)
  }

  lemma PadSliceDone(g: Geometry, mask: seq<real>, delta: seq<real>, p0: seq<real>, p1: seq<real>, p: seq<real>, z: nat)
    requires g.Valid() && |mask| == g.InputSize() && |delta| == g.OutputSize()
    requires |p0| == g.InputSize() && |p1| == g.InputSize() && |p| == g.InputSize()
    requires z < g.depth && PaddedSlices(g, mask, delta, p0, p1, z) && PaddedBefore(g, mask, delta, p1, p, z, 0, g.OutH())
    ensures PaddedSlices(g, mask, delta, p0, p, z + 1)
  {
    forall X: nat, Y: nat, Z: nat | X < g.inputW && Y < g.inputH && Z < g.depth
      ensures Cell(g, p, X, Y, Z) == if Z < z + 1 then PadCell(g, mask, delta, X, Y, Z) else Cell(g, p0, X, Y, Z)
    {
      assert PaddedCell(g, mask, delta, p1, p, 0, g.OutH(), z, X, Y, Z);
      RegionIndexBound(Y, g.inputH, g.regionH);
    }
  }

  /** One row `y` of regions of the slice loop of `padDelta`. */
  method PadRow(g: Geometry, delta: seq<real>, mask: seq<real>, p0: seq<real>, p: seq<real>, y: nat, z: nat) returns (p': seq<real>)
    requires g.Valid() && |mask| == g.InputSize() && |delta| == g.OutputSize() && |p0| == g.InputSize() && |p| == g.InputSize()
    requires y < g.OutH() && z < g.depth && PaddedBefore(g, mask, delta, p0, p, z, 0, y)
    ensures |p'| == |p| && PaddedBefore(g, mask, delta, p0, p', z, 0, y + 1)
  {
    p' := p;
    var x := 0;
    while x < g.OutW()
      invariant x <= g.OutW() && |p'| == |p|
      invariant PaddedBefore(g, mask, delta, p0, p', z, x, y)
    {
      RegionFits(g, x, y, z);
      var d := OutCell(g, delta, x, y, z);
      var q := PadRegion(g, mask, p', x * g.regionW, y * g.regionH, z, d);
      PadNext(g, mask, delta, p0, p', q, x, y, z);
      p' := q;
      x := x + 1;
    }
    PadRowWrap(g, mask, delta, p0, p', z, y);
  }

  method PadSlice(g: Geometry, delta: seq<real>, mask: seq<real>, padded: seq<real>, z: nat) returns (padded': seq<real>)
    requires g.Valid() && |mask| == g.InputSize() && |delta| == g.OutputSize() && |padded| == g.InputSize() && z < g.depth
    ensures |padded'| == |padded| && PaddedBefore(g, mask, delta, padded, padded', z, 0, g.OutH())
  {
    padded' := padded;
    var y := 0;
    while y < g.OutH()
      invariant y <= g.OutH() && |padded'| == |padded|
      invariant PaddedBefore(g, mask, delta, padded, padded', z, 0, y)
    {
      padded' := PadRow(g, delta, mask, padded, padded', y, z);
      y := y + 1;
    }
  }

  /**
   * The loops of `padDelta` and of the CPU layer's `updateDeltas`: every
   * input cell is overwritten with `PadCell`.
   */
  method PadDelta(g: Geometry, delta: seq<real>, mask: seq<real>, padded: seq<real>) returns (padded': seq<real>)
    requires g.Valid() && |mask| == g.InputSize() && |delta| == g.OutputSize() && |padded| == g.InputSize()
    ensures |padded'| == |padded|
    ensures forall X: nat, Y: nat, Z: nat | X < g.inputW && Y < g.inputH && Z < g.depth ::
      Cell(g, padded', X, Y, Z) == PadCell(g, mask, delta, X, Y, Z)
  {
    padded' := padded;
    var z := 0;
    while z < g.depth
      invariant z <= g.depth && |padded'| == |padded|
      invariant PaddedSlices(g, mask, delta, padded, padded', z)
    {
      var p := PadSlice(g, delta, mask, padded', z);
      PadSliceDone(g, mask, delta, padded, padded', p, z);
      padded' := p;
      z := z + 1;
    }
  }

  /*
   * What the forward pass computes, stated without the scan.
   */

  /** Region (`x`, `y`) covers image cell (`X`, `Y`). */
  predicate Covers(g: Geometry, x: nat, y: nat, X: nat, Y: nat) {
    X < g.inputW && Y < g.inputH && InRegion(g, x * g.regionW, y * g.regionH, X, Y)
  }

  /**
   * Image cell (`X`, `Y`, `Z`) holds the first strict maximum of its region
   * in row-major order: no cell of the region is larger, and every cell of
   * the region before it is smaller.
   */
  ghost predicate IsFirstMax(g: Geometry, img: seq<real>, X: nat, Y: nat, Z: nat)
    requires g.Valid() && |img| == g.InputSize() && X < g.inputW && Y < g.inputH && Z < g.depth
  {
    var x, y := X / g.regionW, Y / g.regionH;
    (forall X': nat, Y': nat | Covers(g, x, y, X', Y') :: Cell(g, img, X', Y', Z) <= Cell(g, img, X, Y, Z)) &&
    (forall X': nat, Y': nat | Covers(g, x, y, X', Y') && Before(X', Y', X, Y) :: Cell(g, img, X', Y', Z) < Cell(g, img, X, Y, Z))
  }

  /** Some value of region (`x`, `y`) of slice `z` exceeds `start`. */
  ghost predicate Exceeds(g: Geometry, img: seq<real>, start: real, x: nat, y: nat, z: nat)
    requires |img| == g.InputSize() && z < g.depth
  {
    exists X: nat, Y: nat | Covers(g, x, y, X, Y) :: start < Cell(g, img, X, Y, z)
  }

  /**
   * Given that every value of the region is at least `start`, the pooled
   * output is the region's maximum: no value is larger and some value equals it.
   */
  lemma RegionBestIsMax(g: Geometry, img: seq<real>, x: nat, y: nat, z: nat, start: real)
    requires g.Valid() && |img| == g.InputSize() && x < g.OutW() && y < g.OutH() && z < g.depth
    requires forall X: nat, Y: nat | Covers(g, x, y, X, Y) :: start <= Cell(g, img, X, Y, z)
    ensures var m := RegionBest(g, img, x, y, z, start).largest;
      (forall X: nat, Y: nat | Covers(g, x, y, X, Y) :: Cell(g, img, X, Y, z) <= m) &&
      exists X: nat, Y: nat | Covers(g, x, y, X, Y) :: Cell(g, img, X, Y, z) == m
  {
    var b := RegionBest(g, img, x, y, z, start);
    RegionBestIsFirstMax(g, img, x, y, z, start);
    if b.largest == start {
      assert Covers(g, x, y, x * g.regionW, y * g.regionH);
    } else {
      assert Covers(g, x, y, b.x, b.y);
    }
  }

  /** When some value exceeds `start`, the scan ends on the first strict maximum. */
  lemma BestIsFirstMax(g: Geometry, img: seq<real>, x: nat, y: nat, z: nat, start: real)
    requires g.Valid() && |img| == g.InputSize() && x < g.OutW() && y < g.OutH() && z < g.depth
    requires Exceeds(g, img, start, x, y, z)
    ensures var b := RegionBest(g, img, x, y, z, start);
      start < b.largest && Covers(g, x, y, b.x, b.y) && b.x / g.regionW == x && b.y / g.regionH == y &&
      IsFirstMax(g, img, b.x, b.y, z)
  {
    var b := RegionBest(g, img, x, y, z, start);
    RegionBestIsFirstMax(g, img, x, y, z, start);
    RegionOf(b.x, x, g.regionW);
    RegionOf(b.y, y, g.regionH);
  }

  /** Every image cell is covered by the region its coordinates divide down to. */
  lemma OwnRegion(g: Geometry, X: nat, Y: nat)
    requires g.Valid() && X < g.inputW && Y < g.inputH
    ensures Covers(g, X / g.regionW, Y / g.regionH, X, Y)
  {
    RegionOf(X, X / g.regionW, g.regionW);
    RegionOf(Y, Y / g.regionH, g.regionH);
  }

  lemma FirstMaxAbove(g: Geometry, img: seq<real>, X1: nat, Y1: nat, X2: nat, Y2: nat, Z: nat)
    requires g.Valid() && |img| == g.InputSize() && Z < g.depth && X2 < g.inputW && Y2 < g.inputH
    requires IsFirstMax(g, img, X2, Y2, Z) && Covers(g, X2 / g.regionW, Y2 / g.regionH, X1, Y1)
    ensures Cell(g, img, X1, Y1, Z) <= Cell(g, img, X2, Y2, Z)
    ensures Before(X1, Y1, X2, Y2) ==> Cell(g, img, X1, Y1, Z) < Cell(g, img, X2, Y2, Z)
  {
  }

  /** A region holds at most one first strict maximum. */
  lemma FirstMaxUnique(g: Geometry, img: seq<real>, X1: nat, Y1: nat, X2: nat, Y2: nat, Z: nat)
    requires g.Valid() && |img| == g.InputSize() && Z < g.depth
    requires X1 < g.inputW && Y1 < g.inputH && X2 < g.inputW && Y2 < g.inputH
    requires X1 / g.regionW == X2 / g.regionW && Y1 / g.regionH == Y2 / g.regionH
    requires IsFirstMax(g, img, X1, Y1, Z) && IsFirstMax(g, img, X2, Y2, Z)
    ensures X1 == X2 && Y1 == Y2
  {
    OwnRegion(g, X1, Y1);
    OwnRegion(g, X2, Y2);
    FirstMaxAbove(g, img, X1, Y1, X2, Y2, Z);
    FirstMaxAbove(g, img, X2, Y2, X1, Y1, Z);
  }

  /**
   * Provided every region of slice `Z` holds a value above `start`, the mask
   * `trainForward` leaves is 1 exactly at the first strict maximum of each
   * region and 0 elsewhere.
   */
  lemma MaskIsFirstMax(g: Geometry, img: seq<real>, start: real, X: nat, Y: nat, Z: nat)
    requires g.Valid() && |img| == g.InputSize() && X < g.inputW && Y < g.inputH && Z < g.depth
    requires forall x: nat, y: nat | x < g.OutW() && y < g.OutH() :: Exceeds(g, img, start, x, y, Z)
    ensures MaskCell(g, img, start, X, Y, Z) == if IsFirstMax(g, img, X, Y, Z) then 1.0 else 0.0
  {
    var a, c := X / g.regionW, Y / g.regionH;
    RegionIndexBound(X, g.inputW, g.regionW);
    RegionIndexBound(Y, g.inputH, g.regionH);
    if IsFirstMax(g, img, X, Y, Z) {
      BestIsFirstMax(g, img, a, c, Z, start);
      var b := RegionBest(g, img, a, c, Z, start);
      FirstMaxUnique(g, img, X, Y, b.x, b.y, Z);
      assert PointsTo(g, img, start, a, c, Z, X, Y);
    } else if PointedBefore(g, img, start, Z, X, Y, 0, g.OutH()) {
      var x': nat, y': nat :| x' < g.OutW() && y' < g.OutH() && Before(x', y', 0, g.OutH()) && PointsTo(g, img, start, x', y', Z, X, Y);
      BestIsFirstMax(g, img, x', y', Z, start);
      assert false;
    }
  }

  /**
   * Each region of a slice whose regions all exceed `start` has exactly one
   * 1 in the mask: at the position the scan ends on.
   */
  lemma MaskOneHot(g: Geometry, img: seq<real>, start: real, x: nat, y: nat, Z: nat)
    requires g.Valid() && |img| == g.InputSize() && x < g.OutW() && y < g.OutH() && Z < g.depth
    requires forall x: nat, y: nat | x < g.OutW() && y < g.OutH() :: Exceeds(g, img, start, x, y, Z)
    ensures var b := RegionBest(g, img, x, y, Z, start);
      Covers(g, x, y, b.x, b.y) &&
      forall X: nat, Y: nat | Covers(g, x, y, X, Y) :: MaskCell(g, img, start, X, Y, Z) == if X == b.x && Y == b.y then 1.0 else 0.0
  {
    var b := RegionBest(g, img, x, y, Z, start);
    BestIsFirstMax(g, img, x, y, Z, start);
    forall X: nat, Y: nat | Covers(g, x, y, X, Y)
      ensures MaskCell(g, img, start, X, Y, Z) == if X == b.x && Y == b.y then 1.0 else 0.0
    {
      RegionOf(X, x, g.regionW);
      RegionOf(Y, y, g.regionH);
      MaskIsFirstMax(g, img, start, X, Y, Z);
      if IsFirstMax(g, img, X, Y, Z) {
        FirstMaxUnique(g, img, X, Y, b.x, b.y, Z);
      }
    }
  }

  /**
   * A region none of whose values exceeds `start` leaves its 1 at image
   * cell (0, 0) of the slice, whichever region that cell belongs to.
   */
  lemma MaskFallback(g: Geometry, img: seq<real>, start: real, x: nat, y: nat, Z: nat)
    requires g.Valid() && |img| == g.InputSize() && x < g.OutW() && y < g.OutH() && Z < g.depth
    requires forall X: nat, Y: nat | Covers(g, x, y, X, Y) :: Cell(g, img, X, Y, Z) <= start
    ensures RegionBest(g, img, x, y, Z, start) == Best(start, 0, 0)
    ensures 0 < g.inputW && 0 < g.inputH && MaskCell(g, img, start, 0, 0, Z) == 1.0
  {
    var b := RegionBest(g, img, x, y, Z, start);
    RegionBestIsFirstMax(g, img, x, y, Z, start);
    if start < b.largest {
      assert Covers(g, x, y, b.x, b.y);
      assert false;
    }
    assert PointsTo(g, img, start, x, y, Z, 0, 0);
  }

  /**
   * With 1 by 1 regions and every value above `start`, the activations equal
   * the input and the mask is all ones.
   */
  lemma UnitRegions(g: Geometry, img: seq<real>, start: real, X: nat, Y: nat, Z: nat)
    requires g.regionW == 1 && g.regionH == 1 && |img| == g.InputSize()
    requires forall X: nat, Y: nat, Z: nat | X < g.inputW && Y < g.inputH && Z < g.depth :: start < Cell(g, img, X, Y, Z)
    requires X < g.inputW && Y < g.inputH && Z < g.depth
    ensures g.Valid() && g.OutW() == g.inputW && g.OutH() == g.inputH
    ensures RegionBest(g, img, X, Y, Z, start).largest == Cell(g, img, X, Y, Z)
    ensures MaskCell(g, img, start, X, Y, Z) == 1.0
  {
    forall x: nat, y: nat | x < g.OutW() && y < g.OutH()
      ensures Exceeds(g, img, start, x, y, Z)
    {
      assert Covers(g, x, y, x, y);
    }
    var b := RegionBest(g, img, X, Y, Z, start);
    BestIsFirstMax(g, img, X, Y, Z, start);
    RegionBestIsFirstMax(g, img, X, Y, Z, start);
    assert b.x == X && b.y == Y;
    MaskIsFirstMax(g, img, start, X, Y, Z);
  }

  /**
   * The older layer starts its running maximum at `DblMin`, the smallest
   * positive double: a region whose values all lie below it (a region of
   * negative values, or a 1 by 1 region holding -1) pools to `DblMin`, a
   * value above every value of the region, and its 1 lands at (0, 0).
   */
  lemma DblMinStartMisses(g: Geometry, img: seq<real>, x: nat, y: nat, z: nat)
    requires g.Valid() && |img| == g.InputSize() && x < g.OutW() && y < g.OutH() && z < g.depth
    requires forall X: nat, Y: nat | Covers(g, x, y, X, Y) :: Cell(g, img, X, Y, z) < Limits.DblMin
    ensures RegionBest(g, img, x, y, z, Limits.DblMin) == Best(Limits.DblMin, 0, 0)
    ensures forall X: nat, Y: nat | Covers(g, x, y, X, Y) :: Cell(g, img, X, Y, z) < RegionBest(g, img, x, y, z, Limits.DblMin).largest
  {
    MaskFallback(g, img, Limits.DblMin, x, y, z);
  }
}
