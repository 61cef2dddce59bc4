/**
 * The fixed workgroup split of the older GPU backend
 * (richard/src/gpu/gpu_utils.cpp): x and y workgroups are capped at 64
 * invocations, z is never split.
 */
module GpuUtils {
  import opened Wrappers
  import opened Utils

  const MaxWorkgroupSize: nat := 64

  function Min(a: nat, b: nat): nat {
    if a <= b then a else b
  }

  function NotDivisible(workSize: nat, workgroupSize: nat): string {
    "Work size " + NatToString(workSize) + " is not divisible by workgroup size " + NatToString(workgroupSize)
  }

  /**
   * Returns (workgroupSize, numWorkgroups), or the error of the divisibility
   * assertion (x is checked before y). A zero x or y extent would divide by
   * zero in the source, hence the precondition.
   */
  function OptimumWorkgroups(workSize: Size3): (r: Result<(Size3, Size3)>)
    requires workSize[0] > 0 && workSize[1] > 0
    ensures r.Ok? <==> forall i :: 0 <= i < 2 ==> workSize[i] <= MaxWorkgroupSize || workSize[i] % MaxWorkgroupSize == 0
    ensures r.Ok? ==>
      var (wg, num) := r.value;
      (forall i :: 0 <= i < 3 ==> wg[i] * num[i] == workSize[i]) &&
      (forall i :: 0 <= i < 2 ==> wg[i] == Min(workSize[i], MaxWorkgroupSize) && 1 <= wg[i] <= MaxWorkgroupSize) &&
      (forall i :: 0 <= i < 2 ==> (workSize[i] <= MaxWorkgroupSize <==> num[i] == 1)) &&
      wg[2] == workSize[2] && num[2] == 1
    ensures r.Err? ==>
      r.message == (if workSize[0] > MaxWorkgroupSize && workSize[0] % MaxWorkgroupSize != 0
                    then NotDivisible(workSize[0], MaxWorkgroupSize)
                    else NotDivisible(workSize[1], MaxWorkgroupSize))
  {
    AxisSplit(workSize[0]);
    AxisSplit(workSize[1]);
    var wg: Size3 := [Min(workSize[0], MaxWorkgroupSize), Min(workSize[1], MaxWorkgroupSize), workSize[2]];
    var num: Size3 := [workSize[0] / wg[0], workSize[1] / wg[1], 1];
    if wg[0] * num[0] != workSize[0] then Err(NotDivisible(workSize[0], wg[0]))
    else if wg[1] * num[1] != workSize[1] then Err(NotDivisible(workSize[1], wg[1]))
    else Ok((wg, num))
  }

  /** One capped axis: the split is exact iff the extent is small or a multiple of 64. */
  lemma AxisSplit(n: nat)
    requires n > 0
    ensures var w := Min(n, MaxWorkgroupSize);
      1 <= w <= MaxWorkgroupSize &&
      (w * (n / w) == n <==> n <= MaxWorkgroupSize || n % MaxWorkgroupSize == 0) &&
      (n <= MaxWorkgroupSize ==> n / w == 1) &&
      (n > MaxWorkgroupSize && n % MaxWorkgroupSize == 0 ==> n / w >= 2)
  {
    if n <= MaxWorkgroupSize {
      assert n / n == 1;
    } else {
      assert n / 64 >= 1;
    }
  }
}
