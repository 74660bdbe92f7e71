/**
 * The project's own view of an EC2 instance type: a null-tolerant projection of the
 * record the EC2 API returns, with the GPU devices summed up.
 *
 * The API record is modelled with every field optional, as the SDK may return null
 * for any of them; the projection replaces each missing value by a fixed default.
 */
module InstanceTypes {
  import opened Values
  import opened JavaText

  // ---------------------------------------------------------------------------
  // The API record, as the SDK hands it over
  // ---------------------------------------------------------------------------

  datatype ApiGpuMemory = ApiGpuMemory(sizeInMiB: Option<int32>)

  datatype ApiGpuDevice = ApiGpuDevice(
    name: Option<string>,
    manufacturer: Option<string>,
    count: Option<int32>,
    memoryInfo: Option<ApiGpuMemory>)

  datatype ApiVCpuInfo = ApiVCpuInfo(defaultVCpus: Option<int32>)
  datatype ApiMemoryInfo = ApiMemoryInfo(sizeInMiB: Option<int64>)
  datatype ApiGpuInfo = ApiGpuInfo(gpus: Option<seq<ApiGpuDevice>>)

  datatype ApiNetworkInfo = ApiNetworkInfo(
    networkPerformance: Option<string>,
    maximumNetworkInterfaces: Option<int32>,
    ipv4AddressesPerInterface: Option<int32>)

  /** `ebsOptimizedSupport` in its string form ("unsupported", "supported", "default"). */
  datatype ApiEbsInfo = ApiEbsInfo(ebsOptimizedSupport: Option<string>)

  /** The supported architectures in their string form. */
  datatype ApiProcessorInfo = ApiProcessorInfo(supportedArchitectures: Option<seq<string>>)

  datatype ApiInstanceType = ApiInstanceType(
    instanceType: Option<string>,
    vCpuInfo: Option<ApiVCpuInfo>,
    memoryInfo: Option<ApiMemoryInfo>,
    gpuInfo: Option<ApiGpuInfo>,
    networkInfo: Option<ApiNetworkInfo>,
    ebsInfo: Option<ApiEbsInfo>,
    hypervisor: Option<string>,
    processorInfo: Option<ApiProcessorInfo>,
    supportedUsageClasses: seq<string>,
    bareMetal: Option<bool>,
    burstablePerformanceSupported: Option<bool>,
    dedicatedHostsSupported: Option<bool>,
    freeTierEligible: Option<bool>)

  // ---------------------------------------------------------------------------
  // The projection
  // ---------------------------------------------------------------------------

  /** One kind of GPU device of an instance type, with missing numbers read as 0. */
  datatype GpuInfo = GpuInfo(name: Option<string>, manufacturer: Option<string>, count: int32, memorySizeMiB: int32)

  /** Text used where the API gives no network performance or architecture. */
  const UNKNOWN: string := "未知"

  /** The projected record; `memorySizeGiB` is left out (floating point). */
  datatype InstanceTypeInfo = InstanceTypeInfo(
    instanceType: Option<string>,
    vCpuCount: int32,
    defaultVCpus: int32,
    memorySizeMiB: int64,
    gpuSupported: bool,
    gpuInfoList: seq<GpuInfo>,
    networkPerformance: Option<string>,
    maxNetworkInterfaces: int32,
    ipv4AddressesPerInterface: int32,
    ebsOptimizedSupported: bool,
    hypervisor: Option<string>,
    processorArchitecture: Option<string>,
    supportedUsageClasses: seq<string>,
    bareMetal: bool,
    burstablePerformanceSupported: bool,
    dedicatedHostsSupported: bool,
    freeTierEligible: bool)

  /** The `GpuInfo(GpuDeviceInfo)` constructor: a missing count or memory size becomes 0. */
  function ToGpuInfo(device: ApiGpuDevice): (g: GpuInfo)
    ensures g.name == device.name && g.manufacturer == device.manufacturer
    ensures device.count.None? ==> g.count == 0
    ensures device.count.Some? ==> g.count == device.count.value
    ensures device.memoryInfo.None? || device.memoryInfo.value.sizeInMiB.None? ==> g.memorySizeMiB == 0
    ensures device.memoryInfo.Some? && device.memoryInfo.value.sizeInMiB.Some? ==>
              g.memorySizeMiB == device.memoryInfo.value.sizeInMiB.value
  {
    GpuInfo(device.name, device.manufacturer,
            if device.count.Some? then device.count.value else 0,
            if device.memoryInfo.Some? && device.memoryInfo.value.sizeInMiB.Some?
            then device.memoryInfo.value.sizeInMiB.value else 0)
  }

  /** The GPU device list when it is present and non-empty. */
  predicate HasGpus(api: ApiInstanceType) {
    api.gpuInfo.Some? && api.gpuInfo.value.gpus.Some? && |api.gpuInfo.value.gpus.value| > 0
  }

  /** Java's `Boolean` flag read with `x != null && x`. */
  predicate IsTrue(b: Option<bool>) {
    b == Some(true)
  }

  /** The default vCPU count, or 0 when the vCPU info or its default is missing. */
  function VCpus(api: ApiInstanceType): (r: int32)
    ensures api.vCpuInfo.None? || api.vCpuInfo.value.defaultVCpus.None? ==> r == 0
    ensures api.vCpuInfo.Some? && api.vCpuInfo.value.defaultVCpus.Some? ==> r == api.vCpuInfo.value.defaultVCpus.value
  {
    if api.vCpuInfo.Some? && api.vCpuInfo.value.defaultVCpus.Some? then api.vCpuInfo.value.defaultVCpus.value else 0
  }

  /** The memory size, or 0 when the memory info or its size is missing. */
  function MemoryMiB(api: ApiInstanceType): (r: int64)
    ensures api.memoryInfo.None? || api.memoryInfo.value.sizeInMiB.None? ==> r == 0
    ensures api.memoryInfo.Some? && api.memoryInfo.value.sizeInMiB.Some? ==> r == api.memoryInfo.value.sizeInMiB.value
  {
    if api.memoryInfo.Some? && api.memoryInfo.value.sizeInMiB.Some? then api.memoryInfo.value.sizeInMiB.value else 0
  }

  /** The projected devices, one per API device in order, or none when there are no devices. */
  function GpuList(api: ApiInstanceType): (r: seq<GpuInfo>)
    ensures !HasGpus(api) ==> r == []
    ensures HasGpus(api) ==>
              |r| == |api.gpuInfo.value.gpus.value|
              && forall k :: 0 <= k < |r| ==> r[k] == ToGpuInfo(api.gpuInfo.value.gpus.value[k])
  {
    if HasGpus(api)
    then seq(|api.gpuInfo.value.gpus.value|, k requires 0 <= k < |api.gpuInfo.value.gpus.value| =>
               ToGpuInfo(api.gpuInfo.value.gpus.value[k]))
    else []
  }

  const UNSUPPORTED: string := "unsupported"

  /** EBS optimisation is supported unless the support value is missing or "unsupported" in any case. */
  predicate EbsOptimized(api: ApiInstanceType) {
    api.ebsInfo.Some? && api.ebsInfo.value.ebsOptimizedSupport.Some?
    && !EqualsIgnoreCase(UNSUPPORTED, api.ebsInfo.value.ebsOptimizedSupport.value)
  }

  /** The first supported architecture, or "未知" when the list is missing or empty. */
  function Architecture(api: ApiInstanceType): (r: Option<string>)
    ensures (api.processorInfo.None? || api.processorInfo.value.supportedArchitectures.None?
             || |api.processorInfo.value.supportedArchitectures.value| == 0) ==> r == Some(UNKNOWN)
    ensures api.processorInfo.Some? && api.processorInfo.value.supportedArchitectures.Some?
            && |api.processorInfo.value.supportedArchitectures.value| > 0 ==>
              r == Some(api.processorInfo.value.supportedArchitectures.value[0])
  {
    var architectures := if api.processorInfo.Some? then api.processorInfo.value.supportedArchitectures else None;
    if architectures.Some? && |architectures.value| > 0 then Some(architectures.value[0]) else Some(UNKNOWN)
  }

  /**
   * The `InstanceTypeInfo(awsInfo)` constructor: each field from the API record, with
   * 0, false, an empty list or "未知" where the record has nothing.
   */
  function Project(api: ApiInstanceType): (r: InstanceTypeInfo)
    ensures r.instanceType == api.instanceType
    ensures r.hypervisor == api.hypervisor
    ensures r.supportedUsageClasses == api.supportedUsageClasses
    ensures r.vCpuCount == r.defaultVCpus == VCpus(api)
    ensures r.memorySizeMiB == MemoryMiB(api)
    ensures r.gpuSupported <==> HasGpus(api)
    ensures r.gpuInfoList == GpuList(api)
    ensures !r.gpuSupported ==> r.gpuInfoList == []
    ensures api.networkInfo.None? ==>
              r.networkPerformance == Some(UNKNOWN) && r.maxNetworkInterfaces == 0 && r.ipv4AddressesPerInterface == 0
    ensures api.networkInfo.Some? ==> r.networkPerformance == api.networkInfo.value.networkPerformance
    ensures api.networkInfo.Some? ==>
              r.maxNetworkInterfaces == api.networkInfo.value.maximumNetworkInterfaces.GetOr(0)
              && r.ipv4AddressesPerInterface == api.networkInfo.value.ipv4AddressesPerInterface.GetOr(0)
    ensures r.ebsOptimizedSupported <==> EbsOptimized(api)
    ensures r.processorArchitecture == Architecture(api)
    ensures r.bareMetal <==> IsTrue(api.bareMetal)
    ensures r.burstablePerformanceSupported <==> IsTrue(api.burstablePerformanceSupported)
    ensures r.dedicatedHostsSupported <==> IsTrue(api.dedicatedHostsSupported)
    ensures r.freeTierEligible <==> IsTrue(api.freeTierEligible)
  {
    var vcpus := VCpus(api);
    var network := api.networkInfo;
    InstanceTypeInfo(
      api.instanceType,
      vcpus,
      vcpus,
      MemoryMiB(api),
      HasGpus(api),
      GpuList(api),
      if network.Some? then network.value.networkPerformance else Some(UNKNOWN),
      if network.Some? && network.value.maximumNetworkInterfaces.Some?
      then network.value.maximumNetworkInterfaces.value else 0,
      if network.Some? && network.value.ipv4AddressesPerInterface.Some?
      then network.value.ipv4AddressesPerInterface.value else 0,
      EbsOptimized(api),
      api.hypervisor,
      Architecture(api),
      api.supportedUsageClasses,
      IsTrue(api.bareMetal),
      IsTrue(api.burstablePerformanceSupported),
      IsTrue(api.dedicatedHostsSupported),
      IsTrue(api.freeTierEligible))
  }

  // ---------------------------------------------------------------------------
  // GPU totals
  // ---------------------------------------------------------------------------

  /** The exact sum of the device counts. */
  function SumCounts(gpus: seq<GpuInfo>): int {
    if gpus == [] then 0 else SumCounts(gpus[..|gpus| - 1]) + gpus[|gpus| - 1].count as int
  }

  /** The exact sum of count × memory over the devices. */
  function SumMemory(gpus: seq<GpuInfo>): int {
    if gpus == [] then 0
    else SumMemory(gpus[..|gpus| - 1]) + gpus[|gpus| - 1].count as int * gpus[|gpus| - 1].memorySizeMiB as int
  }

  /**
   * `getTotalGpuCount()`: the `int` sum of the device counts, which wraps around like
   * Java's `IntStream.sum`.
   */
  function TotalGpuCount(info: InstanceTypeInfo): (r: int32)
    ensures info.gpuInfoList == [] ==> r == 0
    ensures IsInt32(SumCounts(info.gpuInfoList)) ==> r as int == SumCounts(info.gpuInfoList)
    ensures (r as int - SumCounts(info.gpuInfoList)) % 0x1_0000_0000 == 0
  {
    WrapInt32(SumCounts(info.gpuInfoList)) as int32
  }

  /**
   * `getTotalGpuMemoryMiB()`: the `long` sum of count × memory, each product taken in
   * 64 bits (where it always fits) and the sum wrapping like `LongStream.sum`.
   */
  function TotalGpuMemoryMiB(info: InstanceTypeInfo): (r: int64)
    ensures info.gpuInfoList == [] ==> r == 0
    ensures IsInt64(SumMemory(info.gpuInfoList)) ==> r as int == SumMemory(info.gpuInfoList)
    ensures (r as int - SumMemory(info.gpuInfoList)) % 0x1_0000_0000_0000_0000 == 0
  {
    WrapInt64(SumMemory(info.gpuInfoList)) as int64
  }

  /** The product of two Java ints always fits in a Java long, so the cast to long loses nothing. */
  lemma ProductFitsInLong(a: int32, b: int32)
    ensures IsInt64(a as int * b as int)
  {
    var x, y := a as int, b as int;
    var ax: nat := if x < 0 then -x else x;
    var ay: nat := if y < 0 then -y else y;
    MulAtMost(ax, ay, 0x8000_0000);
    if x < 0 && y >= 0 {
      assert x * y == -(ax * ay);
    } else if x >= 0 && y < 0 {
      assert x * y == -(ax * ay);
    } else {
      assert x * y == ax * ay;
    }
  }

  lemma MulAtMost(x: nat, y: nat, m: nat)
    requires x <= m && y <= m
    ensures x * y <= m * m
  {
    assert x * y <= m * y;
    assert m * y <= m * m;
  }

  /** The counts of two device lists add up. */
  lemma {:induction false} SumCountsAppend(a: seq<GpuInfo>, b: seq<GpuInfo>)
    ensures SumCounts(a + b) == SumCounts(a) + SumCounts(b)
    decreases |b|
  {
    if b != [] {
      var b' := b[..|b| - 1];
      assert (a + b)[..|a + b| - 1] == a + b';
      SumCountsAppend(a, b');
    } else {
      assert a + b == a;
    }
  }

  /** The memory totals of two device lists add up. */
  lemma {:induction false} SumMemoryAppend(a: seq<GpuInfo>, b: seq<GpuInfo>)
    ensures SumMemory(a + b) == SumMemory(a) + SumMemory(b)
    decreases |b|
  {
    if b != [] {
      var b' := b[..|b| - 1];
      assert (a + b)[..|a + b| - 1] == a + b';
      SumMemoryAppend(a, b');
    } else {
      assert a + b == a;
    }
  }

  /** With non-negative counts, the exact count total is at least each device's count. */
  lemma {:induction false} SumCountsBoundsEach(gpus: seq<GpuInfo>, k: nat)
    requires k < |gpus|
    requires forall j :: 0 <= j < |gpus| ==> gpus[j].count >= 0
    ensures SumCounts(gpus) >= gpus[k].count as int
    decreases |gpus|
  {
    var init := gpus[..|gpus| - 1];
    assert forall j :: 0 <= j < |init| ==> init[j] == gpus[j];
    if k < |gpus| - 1 {
      SumCountsBoundsEach(init, k);
      NonNegativeCounts(init);
    } else {
      NonNegativeCounts(init);
    }
  }

  /** Non-negative counts give a non-negative total. */
  lemma {:induction false} NonNegativeCounts(gpus: seq<GpuInfo>)
    requires forall j :: 0 <= j < |gpus| ==> gpus[j].count >= 0
    ensures SumCounts(gpus) >= 0
    decreases |gpus|
  {
    if gpus != [] {
      var init := gpus[..|gpus| - 1];
      assert forall j :: 0 <= j < |init| ==> init[j] == gpus[j];
      NonNegativeCounts(init);
    }
  }

  /** An instance type without GPU devices reports zero GPUs and zero GPU memory. */
  lemma NoGpusNoTotals(api: ApiInstanceType)
    requires !HasGpus(api)
    ensures TotalGpuCount(Project(api)) == 0 && TotalGpuMemoryMiB(Project(api)) == 0
  {
  }

  /** A single kind of device: the total count is its count, the memory its count × size. */
  lemma SingleDeviceTotals(api: ApiInstanceType, device: ApiGpuDevice)
    requires api.gpuInfo == Some(ApiGpuInfo(Some([device])))
    ensures TotalGpuCount(Project(api)) == ToGpuInfo(device).count
    ensures TotalGpuMemoryMiB(Project(api)) as int
         == ToGpuInfo(device).count as int * ToGpuInfo(device).memorySizeMiB as int
  {
    var g := ToGpuInfo(device);
    assert Project(api).gpuInfoList == [g];
    assert [g][..0] == [];
    assert SumCounts([g]) == g.count as int;
    ProductFitsInLong(g.count, g.memorySizeMiB);
    assert SumMemory([g]) == g.count as int * g.memorySizeMiB as int;
  }
}
