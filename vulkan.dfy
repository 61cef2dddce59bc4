/**
 * The integer and set logic of the Vulkan compute backend
 * (librichard/src/gpu/vulkan.cpp): workgroup partitioning, the buffer
 * flag decision table, the specialization-constant byte layout, and the
 * bookkeeping of buffers, pipelines, recorded dispatches and the set of
 * buffers still being written by queued shaders.
 */
module Vulkan {
  import opened Wrappers
  import opened Utils

  const U32: nat := 0x1_0000_0000

  type Byte = b: nat | b < 256

  // ---------------------------------------------------------------------
  // maxValue / lowestDivisor
  // ---------------------------------------------------------------------

  /**
   * Index of the first strictly largest extent, and that extent. The running
   * maximum starts at the lowest size_t, zero.
   */
  method MaxValue(size: Size3) returns (index: nat, value: nat)
    ensures index < 3 && value == size[index]
    ensures forall j :: 0 <= j < 3 ==> size[j] <= value
    ensures forall j :: 0 <= j < index ==> size[j] < value
  {
    index, value := 0, 0;
    var i := 0;
    while i < 3
      invariant 0 <= i <= 3 && index < 3
      invariant i == 0 ==> index == 0 && value == 0
      invariant i > 0 ==> index < i && value == size[index]
      invariant forall j :: 0 <= j < i ==> size[j] <= value
      invariant forall j :: 0 <= j < index ==> size[j] < value
    {
      if size[i] > value {
        index, value := i, size[i];
      }
      i := i + 1;
    }
  }

  /** A number with no divisor strictly between 1 and itself (2 included). */
  predicate IsPrime(v: nat) {
    v >= 2 && forall i :: 2 <= i < v ==> v % i != 0
  }

  /** The smallest divisor of `value` in [2, value), or `value` when there is none. */
  method LowestDivisor(value: nat) returns (d: nat)
    ensures d == value || (2 <= d < value && value % d == 0)
    ensures d >= 1 ==> value % d == 0
    ensures forall i :: 2 <= i < d ==> value % i != 0
    ensures d == value <==> value < 2 || IsPrime(value)
  {
    var i := 2;
    while i < value
      invariant 2 <= i
      invariant forall k :: 2 <= k < i ==> value % k != 0
    {
      if value % i == 0 {
        return i;
      }
      i := i + 1;
    }
    assert value >= 1 ==> value % value == 0;
    return value;
  }

  // ---------------------------------------------------------------------
  // Buffer flags (GpuBufferFlags in gpu.hpp) and chooseVulkanBufferFlags
  // ---------------------------------------------------------------------

  type GpuBufferFlags = bv8

  const FrequentHostAccess: GpuBufferFlags := 1
  const HostReadAccess: GpuBufferFlags := 2
  const HostWriteAccess: GpuBufferFlags := 4
  const Large: GpuBufferFlags := 8
  const ShaderReadonly: GpuBufferFlags := 16

  predicate Has(flags: GpuBufferFlags, flag: GpuBufferFlags) {
    flags & flag != 0
  }

  datatype DescriptorType = UniformBuffer | StorageBuffer
  datatype MemoryProperty = DeviceLocal | HostVisible | HostCoherent
  datatype BufferUsage = UniformBufferUsage | StorageBufferUsage | TransferSrc | TransferDst

  datatype BufferConfig = BufferConfig(
    memProps: set<MemoryProperty>,
    usage: set<BufferUsage>,
    descriptorType: DescriptorType,
    memoryMapped: bool)

  /**
   * The memory kind, usage and descriptor type chosen for a buffer.
   * `mappedIn` is the caller's value of the in/out flag `memoryMapped`, which
   * the storage branch without host access leaves as it was.
   */
  function ChooseBufferFlags(flags: GpuBufferFlags, mappedIn: bool): (r: BufferConfig)
    // uniform exactly for small read-only buffers, storage otherwise
    ensures r.descriptorType == UniformBuffer <==> Has(flags, ShaderReadonly) && !Has(flags, Large)
    ensures r.descriptorType == UniformBuffer ==> r.usage == {UniformBufferUsage}
    ensures r.descriptorType == StorageBuffer ==> StorageBufferUsage in r.usage && UniformBufferUsage !in r.usage
    // uniform buffers live in host memory; every storage buffer is device-local
    ensures DeviceLocal in r.memProps <==> r.descriptorType == StorageBuffer
    // uniform buffers are host-visible, coherent and mapped
    ensures r.descriptorType == UniformBuffer ==> r.memoryMapped && HostVisible in r.memProps && HostCoherent in r.memProps
    // a storage buffer with frequent host access is mapped and host-visible
    ensures Has(flags, FrequentHostAccess) ==> r.memoryMapped && HostVisible in r.memProps
    // what the host may touch directly is exactly what is mapped
    ensures r.memoryMapped && !mappedIn ==> HostVisible in r.memProps
    ensures HostVisible in r.memProps ==> r.memoryMapped
    // an unmapped storage buffer is reachable from the host only through transfers
    ensures r.descriptorType == StorageBuffer && !Has(flags, FrequentHostAccess) ==>
      (TransferSrc in r.usage <==> Has(flags, HostReadAccess)) &&
      (TransferDst in r.usage <==> Has(flags, HostWriteAccess)) &&
      (r.memoryMapped <==> mappedIn && !Has(flags, HostReadAccess) && !Has(flags, HostWriteAccess))
    ensures Has(flags, FrequentHostAccess) || r.descriptorType == UniformBuffer ==>
      TransferSrc !in r.usage && TransferDst !in r.usage
  {
    if Has(flags, ShaderReadonly) && !Has(flags, Large) then
      BufferConfig({HostVisible, HostCoherent}, {UniformBufferUsage}, UniformBuffer, true)
    else if Has(flags, FrequentHostAccess) then
      BufferConfig({DeviceLocal, HostVisible}, {StorageBufferUsage}, StorageBuffer, true)
    else
      var usage := {StorageBufferUsage}
        + (if Has(flags, HostReadAccess) then {TransferSrc} else {})
        + (if Has(flags, HostWriteAccess) then {TransferDst} else {});
      var mapped := if Has(flags, HostReadAccess) || Has(flags, HostWriteAccess) then false else mappedIn;
      BufferConfig({DeviceLocal}, usage, StorageBuffer, mapped)
  }

  // ---------------------------------------------------------------------
  // Specialization constants
  // ---------------------------------------------------------------------

  datatype ConstantType = UintType | FloatType | BoolType

  /**
   * The value alternative of a constant. A float is represented by its
   * 32-bit IEEE 754 pattern, which is what gets copied.
   */
  datatype ConstantValue = UintValue(u: nat) | FloatValue(bits: nat) | BoolValue(b: bool)

  datatype SpecializationConstant = SpecializationConstant(ctype: ConstantType, value: ConstantValue)

  datatype MapEntry = MapEntry(constantId: nat, offset: nat, size: nat)

  datatype SpecializationInfo = SpecializationInfo(data: seq<Byte>, entries: seq<MapEntry>)

  /** The four bytes memcpy copies from a 32-bit word on a little-endian host. */
  function LittleEndian32(w: nat): (r: seq<Byte>)
    requires w < U32
    ensures |r| == 4
  {
    [w % 256, (w / 256) % 256, (w / 256 / 256) % 256, w / 256 / 256 / 256]
  }

  /** The 32-bit word stored little-endian at `offset`. */
  function ReadU32(data: seq<Byte>, offset: nat): (r: nat)
    requires offset + 4 <= |data|
    ensures r < U32
  {
    var b0: nat, b1: nat, b2: nat, b3: nat := data[offset], data[offset + 1], data[offset + 2], data[offset + 3];
    b0 + 256 * (b1 + 256 * (b2 + 256 * b3))
  }

  lemma ReadLittleEndian32(prefix: seq<Byte>, w: nat, suffix: seq<Byte>)
    requires w < U32
    ensures ReadU32(prefix + LittleEndian32(w) + suffix, |prefix|) == w
  {
    var s := prefix + LittleEndian32(w) + suffix;
    var n := |prefix|;
    var q1, q2 := w / 256, w / 256 / 256;
    assert s[n] == w % 256 && s[n + 1] == q1 % 256;
    assert s[n + 2] == q2 % 256 && s[n + 3] == q2 / 256;
    ByteSplit(w);
    ByteSplit(q1);
    ByteSplit(q2);
  }

  /** A number is its low byte plus 256 times the rest. */
  lemma ByteSplit(v: nat)
    ensures v == v % 256 + 256 * (v / 256)
  {
  }

  /** Well-typed constants: the value alternative agrees with the declared type. */
  predicate WellTyped(c: SpecializationConstant) {
    match c.ctype
    case UintType => c.value.UintValue? && c.value.u < U32
    case FloatType => c.value.FloatValue? && c.value.bits < U32
    case BoolType => c.value.BoolValue?
  }

  /** The 32-bit word a well-typed constant contributes; a bool becomes 0 or 1. */
  function Word(c: SpecializationConstant): (w: nat)
    requires WellTyped(c)
    ensures w < U32
    ensures c.ctype == BoolType ==> (w == 1 <==> c.value.b) && (w == 0 <==> !c.value.b)
  {
    match c.value
    case UintValue(u) => u
    case FloatValue(bits) => bits
    case BoolValue(b) => if b then 1 else 0
  }

  /**
   * The specialization map of a shader: one 4-byte entry per constant id,
   * at consecutive offsets; ids 0 to 2 hold the workgroup size (the low 32
   * bits of each extent) and the ids after them the shader's constants, in
   * order.
   */
  predicate Specializes(info: SpecializationInfo, constants: seq<SpecializationConstant>, workgroupSize: Size3) {
    var data, entries := info.data, info.entries;
    |entries| == 3 + |constants| && |data| == 4 * (3 + |constants|) &&
    (forall i :: 0 <= i < |entries| ==> entries[i] == MapEntry(i, 4 * i, 4)) &&
    (forall i :: 0 <= i < 3 ==> ReadU32(data, 4 * i) == workgroupSize[i] % U32) &&
    (forall k :: 0 <= k < |constants| ==> WellTyped(constants[k]) && ReadU32(data, 4 * (3 + k)) == Word(constants[k]))
  }

  /**
   * Builds the specialization map: three entries for the workgroup size
   * (the low 32 bits of each extent) followed by one 4-byte entry per
   * constant. `std::get` on a constant whose value does not match its
   * declared type throws.
   */
  method CreateSpecializationInfo(constants: seq<SpecializationConstant>, workgroupSize: Size3)
    returns (r: Result<SpecializationInfo>)
    ensures r.Ok? <==> forall k :: 0 <= k < |constants| ==> WellTyped(constants[k])
    ensures r.Ok? ==> Specializes(r.value, constants, workgroupSize)
  {
    var data: seq<Byte> := [];
    var entries: seq<MapEntry> := [];
    var i := 0;
    while i < 3
      invariant 0 <= i <= 3
      invariant |entries| == i && |data| == 4 * i
      invariant forall j :: 0 <= j < i ==> entries[j] == MapEntry(j, 4 * j, 4)
      invariant forall j :: 0 <= j < i ==> ReadU32(data, 4 * j) == workgroupSize[j] % U32
    {
      var offset := |data|;
      entries := entries + [MapEntry(i, offset, 4)];
      ReadLittleEndian32(data, workgroupSize[i] % U32, []);
      data := data + LittleEndian32(workgroupSize[i] % U32);
      i := i + 1;
    }
    var k := 0;
    while k < |constants|
      invariant 0 <= k <= |constants|
      invariant |entries| == 3 + k && |data| == 4 * (3 + k)
      invariant forall j :: 0 <= j < 3 + k ==> entries[j] == MapEntry(j, 4 * j, 4)
      invariant forall j :: 0 <= j < 3 ==> ReadU32(data, 4 * j) == workgroupSize[j] % U32
      invariant forall j :: 0 <= j < k ==> WellTyped(constants[j])
      invariant forall j :: 0 <= j < k ==> ReadU32(data, 4 * (3 + j)) == Word(constants[j])
    {
      var c := constants[k];
      if !WellTyped(c) {
        return Err("bad_variant_access");
      }
      var constantId := |entries|;
      var offset := |data|;
      ReadLittleEndian32(data, Word(c), []);
      data := data + LittleEndian32(Word(c));
      entries := entries + [MapEntry(constantId, offset, 4)];
      k := k + 1;
    }
    return Ok(SpecializationInfo(data, entries));
  }

  // ---------------------------------------------------------------------
  // Buffers, pipelines and the command queue
  // ---------------------------------------------------------------------

  datatype DeviceLimits = DeviceLimits(maxComputeWorkGroupInvocations: nat, maxComputeWorkGroupSize: Size3)

  datatype BufferAccessMode = Read | Write

  datatype BufferBinding = BufferBinding(buffer: nat, mode: BufferAccessMode)

  datatype Buffer = Buffer(size: nat, descriptorType: DescriptorType, mapped: bool)

  datatype Pipeline = Pipeline(
    workgroupSize: Size3,
    numWorkgroups: Size3,
    specialization: SpecializationInfo,
    pushConstantsSize: nat,
    readBuffers: set<nat>,
    writeBuffers: set<nat>)

  datatype AccessFlag = ShaderRead | ShaderWrite | UniformRead

  /** A buffer memory barrier: writes by earlier shaders become visible to `dstAccess`. */
  datatype BufferBarrier = BufferBarrier(buffer: nat, srcAccess: AccessFlag, dstAccess: AccessFlag)

  /** One queued shader: its barriers and the dispatch that follows them. */
  datatype Dispatch = Dispatch(shader: nat, barriers: set<BufferBarrier>, numWorkgroups: Size3)

  /** The buffer `allocateBuffer(size, flags)` creates. */
  function NewBuffer(size: nat, flags: GpuBufferFlags): Buffer {
    var c := ChooseBufferFlags(flags, false);
    Buffer(size, c.descriptorType, c.memoryMapped)
  }

  /** The pipeline's workgroups exactly cover `workSize` on every axis. */
  predicate Covers(p: Pipeline, workSize: Size3) {
    forall i :: 0 <= i < 3 ==> p.workgroupSize[i] * p.numWorkgroups[i] == workSize[i]
  }

  /**
   * The pipeline reads and writes exactly the given buffers, takes the
   * given push constants, covers `workSize` and is specialized with
   * `constants`.
   */
  predicate PipelineIs(p: Pipeline, readSet: set<nat>, writeSet: set<nat>, pushConstantsSize: nat, workSize: Size3,
                       constants: seq<SpecializationConstant>) {
    p.readBuffers == readSet && p.writeBuffers == writeSet && p.pushConstantsSize == pushConstantsSize && Covers(p, workSize) &&
    Specializes(p.specialization, constants, p.workgroupSize)
  }

  /** `after` is `before` followed by dispatches of `shaders`, in that order. */
  predicate Appended(before: seq<Dispatch>, after: seq<Dispatch>, shaders: seq<nat>) {
    |after| == |before| + |shaders| && after[..|before|] == before &&
    forall k | 0 <= k < |shaders| :: after[|before| + k].shader == shaders[k]
  }

  /** Bindings in read mode and in write mode, as `addShader` separates them. */
  function Reads(bindings: seq<BufferBinding>): (r: set<nat>)
    ensures forall b :: b in r <==> BufferBinding(b, Read) in bindings
  {
    set x | x in bindings && x.mode == Read :: x.buffer
  }

  function Writes(bindings: seq<BufferBinding>): (r: set<nat>)
    ensures forall b :: b in r <==> BufferBinding(b, Write) in bindings
  {
    set x | x in bindings && x.mode == Write :: x.buffer
  }

  /** The destination access of a barrier on a buffer of the given descriptor type. */
  function DstAccess(t: DescriptorType): AccessFlag {
    if t == UniformBuffer then UniformRead else ShaderRead
  }

  class Vulkan {
    const maxWorkgroupSize: nat
    const deviceLimits: DeviceLimits
    var buffers: seq<Buffer>
    var pipelines: seq<Pipeline>
    var activeBuffers: set<nat>
    var startedRecording: bool
    /** Dispatches recorded into the command buffer since the last flush. */
    var recorded: seq<Dispatch>
    /** Command buffers submitted by `flushQueue`, oldest first. */
    var submitted: seq<seq<Dispatch>>

    /** Every handle a pipeline or the active set mentions names an allocated buffer. */
    ghost predicate Valid()
      reads this
    {
      (forall b :: b in activeBuffers ==> b < |buffers|) &&
      (forall p :: p in pipelines ==> forall b :: b in p.readBuffers + p.writeBuffers ==> b < |buffers|) &&
      (!startedRecording ==> recorded == [])
    }

    /** The invocation limit: the smaller of the configured and the device maximum. */
    function MaxInvocations(): nat {
      if maxWorkgroupSize <= deviceLimits.maxComputeWorkGroupInvocations then maxWorkgroupSize
      else deviceLimits.maxComputeWorkGroupInvocations
    }

    /** The limits `optimumWorkgroups` needs to terminate. */
    predicate LimitsPositive() {
      MaxInvocations() >= 1 &&
      forall i :: 0 <= i < 3 ==> deviceLimits.maxComputeWorkGroupSize[i] >= 1
    }

    /** The `workSizeOk` test of `optimumWorkgroups`. */
    predicate WorkSizeOk(workgroupSize: Size3) {
      CalcProduct(workgroupSize) <= MaxInvocations() &&
      forall i :: 0 <= i < 3 ==> workgroupSize[i] <= deviceLimits.maxComputeWorkGroupSize[i]
    }

    /**
     * `configuredMax` is the "maxWorkgroupSize" config entry already cast to
     * uint32, when present; the default is the largest uint32.
     */
    constructor (configuredMax: Option<nat>, limits: DeviceLimits)
      ensures maxWorkgroupSize == (if configuredMax.Some? then configuredMax.value else U32 - 1)
      ensures deviceLimits == limits
      ensures buffers == [] && pipelines == [] && activeBuffers == {}
      ensures !startedRecording && recorded == [] && submitted == []
      ensures Valid()
    {
      maxWorkgroupSize := if configuredMax.Some? then configuredMax.value else U32 - 1;
      deviceLimits := limits;
      buffers, pipelines, activeBuffers := [], [], {};
      startedRecording, recorded, submitted := false, [], [];
    }

    /**
     * Splits `workSize` into workgroups by repeatedly dividing the largest
     * workgroup extent by its smallest divisor until the workgroup fits the
     * limits.
     */
    method OptimumWorkgroups(workSize: Size3) returns (workgroupSize: Size3, numWorkgroups: Size3)
      requires LimitsPositive()
      ensures forall i :: 0 <= i < 3 ==> workgroupSize[i] * numWorkgroups[i] == workSize[i]
      ensures forall i :: 0 <= i < 3 ==> numWorkgroups[i] >= 1
      ensures WorkSizeOk(workgroupSize)
      ensures CalcProduct(workgroupSize) <= maxWorkgroupSize
      ensures CalcProduct(workgroupSize) <= deviceLimits.maxComputeWorkGroupInvocations
    {
      workgroupSize := workSize;
      numWorkgroups := [1, 1, 1];
      while !WorkSizeOk(workgroupSize)
        invariant forall i :: 0 <= i < 3 ==> workgroupSize[i] * numWorkgroups[i] == workSize[i]
        invariant forall i :: 0 <= i < 3 ==> numWorkgroups[i] >= 1
        decreases CalcSum(workgroupSize)
      {
        var i, largest := MaxValue(workgroupSize);
        if largest <= 1 {
          SmallWorkgroupFits(workgroupSize);
          assert false;
        }
        var scale := LowestDivisor(largest);
        SplitStep(workSize, workgroupSize, numWorkgroups, i, scale);
        workgroupSize := workgroupSize[i := workgroupSize[i] / scale];
        numWorkgroups := numWorkgroups[i := numWorkgroups[i] * scale];
      }
    }

    /** One step of the loop of `optimumWorkgroups` keeps the split exact and shrinks the workgroup. */
    lemma SplitStep(workSize: Size3, workgroupSize: Size3, numWorkgroups: Size3, i: nat, scale: nat)
      requires i < 3 && 2 <= scale <= workgroupSize[i] && workgroupSize[i] % scale == 0
      requires forall j :: 0 <= j < 3 ==> workgroupSize[j] * numWorkgroups[j] == workSize[j]
      requires forall j :: 0 <= j < 3 ==> numWorkgroups[j] >= 1
      ensures var w, n := workgroupSize[i := workgroupSize[i] / scale], numWorkgroups[i := numWorkgroups[i] * scale];
        (forall j :: 0 <= j < 3 ==> w[j] * n[j] == workSize[j]) &&
        (forall j :: 0 <= j < 3 ==> n[j] >= 1) &&
        CalcSum(w) < CalcSum(workgroupSize)
    {
      ScaleStep(workgroupSize[i], numWorkgroups[i], scale);
    }

    lemma SmallWorkgroupFits(workgroupSize: Size3)
      requires LimitsPositive()
      requires forall j :: 0 <= j < 3 ==> workgroupSize[j] <= 1
      ensures WorkSizeOk(workgroupSize)
    {
      assert CalcProduct(workgroupSize) <= 1;
    }

    /**
     * Allocates a buffer; its handle is its index, so handles are
     * consecutive from 0.
     */
    method AllocateBuffer(size: nat, flags: GpuBufferFlags) returns (handle: nat)
      requires Valid()
      modifies this
      ensures Valid()
      ensures handle == old(|buffers|)
      ensures buffers == old(buffers) + [NewBuffer(size, flags)]
      ensures pipelines == old(pipelines) && activeBuffers == old(activeBuffers)
      ensures startedRecording == old(startedRecording) && recorded == old(recorded)
      ensures submitted == old(submitted)
    {
      var config := ChooseBufferFlags(flags, false);
      buffers := buffers + [Buffer(size, config.descriptorType, config.memoryMapped)];
      handle := |buffers| - 1;
    }

    /**
     * Creates a compute pipeline. Bindings are split into the buffers the
     * shader reads and those it writes; the handle is the pipeline's index.
     */
    method AddShader(bindings: seq<BufferBinding>, constants: seq<SpecializationConstant>,
                     pushConstantsSize: nat, workSize: Size3)
      returns (r: Result<nat>)
      requires Valid() && LimitsPositive()
      requires forall k :: 0 <= k < |bindings| ==> bindings[k].buffer < |buffers|
      modifies this
      ensures Valid()
      ensures r.Ok? <==> forall k :: 0 <= k < |constants| ==> WellTyped(constants[k])
      ensures r.Ok? ==> r.value == old(|pipelines|) && |pipelines| == old(|pipelines|) + 1
      ensures r.Ok? ==> pipelines[..old(|pipelines|)] == old(pipelines)
      ensures r.Ok? ==> var p := pipelines[r.value];
        p.readBuffers == Reads(bindings) && p.writeBuffers == Writes(bindings) &&
        p.pushConstantsSize == pushConstantsSize &&
        Covers(p, workSize) && WorkSizeOk(p.workgroupSize) &&
        Specializes(p.specialization, constants, p.workgroupSize)
      ensures r.Err? ==> pipelines == old(pipelines)
      ensures buffers == old(buffers) && activeBuffers == old(activeBuffers)
      ensures startedRecording == old(startedRecording) && recorded == old(recorded)
      ensures submitted == old(submitted)
    {
      var workgroupSize, numWorkgroups := OptimumWorkgroups(workSize);
      var spec := CreateSpecializationInfo(constants, workgroupSize);
      if spec.Err? {
        return Err(spec.message);
      }
      var readSet, writeSet := PartitionBindings(bindings);
      pipelines := pipelines + [Pipeline(workgroupSize, numWorkgroups, spec.value, pushConstantsSize, readSet, writeSet)];
      return Ok(|pipelines| - 1);
    }

    /**
     * Records a dispatch of `shader`. Every buffer the shader touches that an
     * earlier, unflushed shader may still be writing gets a barrier; those
     * buffers leave the active set and the shader's own writes join it.
     */
    method QueueShader(shader: nat)
      requires Valid() && shader < |pipelines|
      modifies this
      ensures Valid()
      ensures var p := old(pipelines[shader]);
        activeBuffers == ActiveAfter(old(activeBuffers), p) &&
        recorded == old(recorded) + [Dispatch(shader, Barriers(old(buffers), MustWait(old(activeBuffers), p)), p.numWorkgroups)]
      ensures startedRecording
      ensures buffers == old(buffers) && pipelines == old(pipelines) && submitted == old(submitted)
    {
      var p := pipelines[shader];
      var touched := SetUnion(p.readBuffers, p.writeBuffers, {});
      assert touched == p.readBuffers + p.writeBuffers;
      var mustWait := SetIntersection(activeBuffers, touched, {});
      assert mustWait == activeBuffers * touched;
      var barriers := MakeBarriers(buffers, mustWait);
      activeBuffers := SetDifferenceInPlace(activeBuffers, mustWait);
      activeBuffers := SetUnionInPlace(activeBuffers, p.writeBuffers);
      if !startedRecording {
        startedRecording := true;
      }
      recorded := recorded + [Dispatch(shader, barriers, p.numWorkgroups)];
    }

    /**
     * Submits the recorded command buffer and waits for it. Nothing happens
     * when recording has not started.
     */
    method FlushQueue()
      requires Valid()
      modifies this
      ensures Valid()
      ensures old(startedRecording) ==>
        submitted == old(submitted) + [old(recorded)] && recorded == [] &&
        activeBuffers == {} && !startedRecording
      ensures !old(startedRecording) ==>
        submitted == old(submitted) && activeBuffers == old(activeBuffers) && !startedRecording
      ensures buffers == old(buffers) && pipelines == old(pipelines)
    {
      if !startedRecording {
        return;
      }
      submitted := submitted + [recorded];
      recorded := [];
      activeBuffers := {};
      startedRecording := false;
    }
  }

  /** One barrier per waited-on buffer, with the destination access its type needs. */
  function Barriers(buffers: seq<Buffer>, mustWait: set<nat>): (r: set<BufferBarrier>)
    requires forall b :: b in mustWait ==> b < |buffers|
    ensures forall b :: b in mustWait ==> BufferBarrier(b, ShaderWrite, DstAccess(buffers[b].descriptorType)) in r
    ensures forall x :: x in r ==>
      (x.buffer in mustWait && x == BufferBarrier(x.buffer, ShaderWrite, DstAccess(buffers[x.buffer].descriptorType)))
  {
    set b | b in mustWait :: BufferBarrier(b, ShaderWrite, DstAccess(buffers[b].descriptorType))
  }

  /** The buffers a pipeline reads or writes. */
  function Touched(p: Pipeline): set<nat> {
    p.readBuffers + p.writeBuffers
  }

  /** Buffers that need a barrier before `p` runs: those it touches that are still active. */
  function MustWait(active: set<nat>, p: Pipeline): (r: set<nat>)
    ensures r <= active && r <= Touched(p)
    ensures forall b :: b in active && b in Touched(p) ==> b in r
  {
    active * Touched(p)
  }

  /** The active set after queueing `p`: waited-on buffers leave, `p`'s writes join. */
  function ActiveAfter(active: set<nat>, p: Pipeline): (r: set<nat>)
    ensures p.writeBuffers <= r
    ensures forall b :: b in r && b !in p.writeBuffers ==> b in active && b !in Touched(p)
  {
    (active - MustWait(active, p)) + p.writeBuffers
  }

  /** The active set after queueing each pipeline of `ps` in turn, with no flush between. */
  function ActiveAfterAll(active: set<nat>, ps: seq<Pipeline>): set<nat>
    decreases |ps|
  {
    if ps == [] then active else ActiveAfterAll(ActiveAfter(active, ps[0]), ps[1..])
  }

  lemma ActiveAfterAllSnoc(active: set<nat>, ps: seq<Pipeline>, p: Pipeline)
    ensures ActiveAfterAll(active, ps + [p]) == ActiveAfter(ActiveAfterAll(active, ps), p)
    decreases |ps|
  {
    if ps != [] {
      assert (ps + [p])[1..] == ps[1..] + [p];
      ActiveAfterAllSnoc(ActiveAfter(active, ps[0]), ps[1..], p);
    }
  }

  /**
   * Read-after-write and write-after-write hazards are always fenced: when
   * shader `i` writes a buffer and shader `k` later touches it, with no shader
   * in between touching it and no flush, shader `k` waits for that buffer.
   */
  lemma {:induction false} HazardGetsBarrier(active: set<nat>, ps: seq<Pipeline>, i: nat, k: nat, b: nat)
    requires i < k < |ps|
    requires b in ps[i].writeBuffers && b in Touched(ps[k])
    requires forall j :: i < j < k ==> b !in Touched(ps[j])
    ensures b in MustWait(ActiveAfterAll(active, ps[..k]), ps[k])
  {
    StaysActive(active, ps, i, k, b);
  }

  lemma {:induction false} StaysActive(active: set<nat>, ps: seq<Pipeline>, i: nat, k: nat, b: nat)
    requires i < k <= |ps|
    requires b in ps[i].writeBuffers
    requires forall j :: i < j < k ==> b !in Touched(ps[j])
    ensures b in ActiveAfterAll(active, ps[..k])
    decreases k
  {
    ActiveAfterAllSnoc(active, ps[..k - 1], ps[k - 1]);
    assert ps[..k] == ps[..k - 1] + [ps[k - 1]];
    if k - 1 > i {
      StaysActive(active, ps, i, k - 1, b);
    }
  }

  /**
   * No spurious barriers: starting from an empty active set (just after a
   * flush), a buffer is active only if some queued shader wrote it.
   */
  lemma {:induction false} ActiveOnlyIfWritten(ps: seq<Pipeline>, b: nat)
    requires b in ActiveAfterAll({}, ps)
    ensures exists j :: 0 <= j < |ps| && b in ps[j].writeBuffers
    decreases |ps|
  {
    if ps != [] {
      var n := |ps| - 1;
      assert ps == ps[..n] + [ps[n]];
      ActiveAfterAllSnoc({}, ps[..n], ps[n]);
      if b !in ps[n].writeBuffers {
        ActiveOnlyIfWritten(ps[..n], b);
        var j :| 0 <= j < n && b in ps[..n][j].writeBuffers;
        assert ps[j] == ps[..n][j];
      }
    }
  }

  /** The loop of `addShader` that sorts the bindings by access mode. */
  method PartitionBindings(bindings: seq<BufferBinding>) returns (readSet: set<nat>, writeSet: set<nat>)
    ensures readSet == Reads(bindings) && writeSet == Writes(bindings)
  {
    readSet, writeSet := {}, {};
    var k := 0;
    while k < |bindings|
      invariant 0 <= k <= |bindings|
      invariant readSet == set j | 0 <= j < k && bindings[j].mode == Read :: bindings[j].buffer
      invariant writeSet == set j | 0 <= j < k && bindings[j].mode == Write :: bindings[j].buffer
    {
      match bindings[k].mode {
        case Read => readSet := readSet + {bindings[k].buffer};
        case Write => writeSet := writeSet + {bindings[k].buffer};
      }
      k := k + 1;
    }
  }

  /** The loop of `queueShader` that builds one barrier per buffer to wait for. */
  method MakeBarriers(buffers: seq<Buffer>, mustWait: set<nat>) returns (barriers: set<BufferBarrier>)
    requires forall b :: b in mustWait ==> b < |buffers|
    ensures barriers == Barriers(buffers, mustWait)
  {
    barriers := {};
    var rest := mustWait;
    while rest != {}
      invariant rest <= mustWait
      invariant barriers == Barriers(buffers, mustWait - rest)
      decreases |rest|
    {
      var b :| b in rest;
      barriers := barriers + {BufferBarrier(b, ShaderWrite, DstAccess(buffers[b].descriptorType))};
      rest := rest - {b};
    }
  }

  /** Dividing one extent by an exact divisor and multiplying the count keeps their product. */
  lemma ScaleStep(w: nat, n: nat, scale: nat)
    requires 2 <= scale <= w && w % scale == 0
    ensures (w / scale) * (n * scale) == w * n
    ensures n * scale >= n
    ensures w / scale < w
  {
    var q := w / scale;
    assert w == q * scale;
    calc {
      q * (n * scale);
      == (q * scale) * n;
      == w * n;
    }
  }

}
