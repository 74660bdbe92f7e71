/**
 * Listing EC2 instance types page by page.
 *
 * Each listing sends `DescribeInstanceTypes` requests with a fixed set of filters,
 * keeps the returned records that pass a client-side test, projects them, and follows
 * `nextToken` until a page comes back without one. The EC2 API is outside the model:
 * the responses are given, in order, as `pages`, and the requests the loop sends are
 * returned so that their filters and tokens can be stated.
 */
module InstanceTypeService {
  import opened Values
  import opened JavaText
  import opened InstanceTypes

  /** A server-side filter: a field name and the values it may take. */
  datatype Filter = Filter(name: string, values: seq<string>)

  /** One `DescribeInstanceTypes` request; an empty filter list means no filters. */
  datatype ListRequest = ListRequest(filters: seq<Filter>, maxResults: int32, nextToken: Option<string>)

  /** One response: the records of this page and the token of the next one, if any. */
  datatype Page = Page(instanceTypes: seq<ApiInstanceType>, nextToken: Option<string>)

  const MAX_RESULTS: int32 := 100

  const INSTANCE_TYPE_FILTER: string := "instance-type"
  const ARCHITECTURE_FILTER: string := "processor-info.supported-architecture"
  const VCPU_FILTER: string := "vcpu-info.default-vcpus"
  const FREE_TIER_FILTER: string := "free-tier-eligible"

  // ---------------------------------------------------------------------------
  // Client-side tests
  // ---------------------------------------------------------------------------

  /** The client-side test a listing applies to each returned record. */
  datatype Keep =
    | KeepAll
    | KeepGpu
    | KeepVCpuRange(lo: int32, hi: int32)
    | KeepFound(atLeast: Option<int32>, atMost: Option<int32>, requireGpu: Option<bool>)

  /**
   * The filter lambdas: GPU instances have a non-empty device list; the vCPU range is
   * inclusive with a missing count read as 0; in `findInstanceTypes` a null bound is no
   * constraint and only `requireGpu == true` drops instances without GPUs.
   */
  predicate Keeps(keep: Keep, api: ApiInstanceType) {
    match keep
    case KeepAll => true
    case KeepGpu => HasGpus(api)
    case KeepVCpuRange(lo, hi) => lo <= VCpus(api) <= hi
    case KeepFound(lo, hi, requireGpu) =>
      (lo.None? || VCpus(api) >= lo.value)
      && (hi.None? || VCpus(api) <= hi.value)
      && !(requireGpu == Some(true) && !HasGpus(api))
  }

  /** `findInstanceTypes` with no vCPU bound and no GPU demand keeps every record. */
  lemma FoundWithoutConstraintsKeepsAll(api: ApiInstanceType, requireGpu: Option<bool>)
    requires requireGpu != Some(true)
    ensures Keeps(KeepFound(None, None, requireGpu), api)
  {
  }

  /** A null vCPU bound imposes no constraint: the test is that of the other bound alone. */
  lemma FoundNullBounds(api: ApiInstanceType, lo: Option<int32>, hi: Option<int32>, requireGpu: Option<bool>)
    ensures lo.None? ==> (Keeps(KeepFound(lo, hi, requireGpu), api)
                          <==> (hi.None? || VCpus(api) <= hi.value) && !(requireGpu == Some(true) && !HasGpus(api)))
    ensures hi.None? ==> (Keeps(KeepFound(lo, hi, requireGpu), api)
                          <==> (lo.None? || VCpus(api) >= lo.value) && !(requireGpu == Some(true) && !HasGpus(api)))
  {
  }

  /** Requiring a GPU drops exactly the records without GPU devices. */
  lemma FoundRequireGpu(api: ApiInstanceType)
    ensures Keeps(KeepFound(None, None, Some(true)), api) <==> HasGpus(api)
  {
  }

  // ---------------------------------------------------------------------------
  // Specification of the accumulation
  // ---------------------------------------------------------------------------

  /** The projections of the records of one page that pass the test, in page order. */
  function Kept(items: seq<ApiInstanceType>, keep: Keep): (r: seq<InstanceTypeInfo>)
    ensures |r| <= |items|
    ensures keep == KeepAll ==> |r| == |items|
  {
    if items == [] then []
    else (if Keeps(keep, items[0]) then [Project(items[0])] else []) + Kept(items[1..], keep)
  }

  /** Some record of the page passes the test and projects to x. */
  predicate Passes(items: seq<ApiInstanceType>, keep: Keep, x: InstanceTypeInfo) {
    exists i :: 0 <= i < |items| && Keeps(keep, items[i]) && x == Project(items[i])
  }

  /** A projection is kept exactly when some record of the page passes the test and projects to it. */
  lemma {:induction false} KeptMembers(items: seq<ApiInstanceType>, keep: Keep, x: InstanceTypeInfo)
    ensures x in Kept(items, keep) <==> Passes(items, keep, x)
  {
    if items != [] {
      KeptMembers(items[1..], keep, x);
      if Passes(items[1..], keep, x) {
        var i :| 0 <= i < |items[1..]| && Keeps(keep, items[1..][i]) && x == Project(items[1..][i]);
        assert items[i + 1] == items[1..][i];
      }
      if Passes(items, keep, x) {
        var i :| 0 <= i < |items| && Keeps(keep, items[i]) && x == Project(items[i]);
        if i > 0 {
          assert items[1..][i - 1] == items[i];
        }
      }
    }
  }

  /** With every record kept, a page gives the projection of every record, in order. */
  lemma {:induction false} KeptAllProjects(items: seq<ApiInstanceType>)
    ensures forall k :: 0 <= k < |items| ==> Kept(items, KeepAll)[k] == Project(items[k])
  {
    if items != [] {
      KeptAllProjects(items[1..]);
      assert Kept(items, KeepAll) == [Project(items[0])] + Kept(items[1..], KeepAll);
    }
  }

  /** The kept projections of a run of pages, page after page. */
  function Collected(pages: seq<Page>, keep: Keep): seq<InstanceTypeInfo> {
    if pages == [] then []
    else Collected(pages[..|pages| - 1], keep) + Kept(pages[|pages| - 1].instanceTypes, keep)
  }

  /** The listing ends: some page comes back without a next token. */
  predicate Ends(pages: seq<Page>) {
    exists i :: 0 <= i < |pages| && pages[i].nextToken.None?
  }

  /** The index of the first page without a next token, where every listing stops. */
  function LastPage(pages: seq<Page>): (i: nat)
    requires Ends(pages)
    ensures i < |pages| && pages[i].nextToken.None?
    ensures forall j :: 0 <= j < i ==> pages[j].nextToken.Some?
  {
    if pages[0].nextToken.None? then 0
    else
      assert Ends(pages[1..]) by {
        var i :| 0 <= i < |pages| && pages[i].nextToken.None?;
        assert pages[1..][i - 1] == pages[i];
      }
      1 + LastPage(pages[1..])
  }

  /** Up to the last page, a page comes without a next token exactly when it is the last one. */
  lemma LastPageStops(pages: seq<Page>, i: nat)
    requires Ends(pages) && i <= LastPage(pages)
    ensures pages[i].nextToken.None? <==> i == LastPage(pages)
  {
  }

  /** The i-th request of a listing: the same filters every time, and the previous page's token. */
  function RequestAt(filters: seq<Filter>, pages: seq<Page>, i: nat): ListRequest
    requires i <= |pages|
  {
    ListRequest(filters, MAX_RESULTS, if i == 0 then None else pages[i - 1].nextToken)
  }

  // ---------------------------------------------------------------------------
  // The pagination loop
  // ---------------------------------------------------------------------------

  /** The requests sent so far are the first requests of the listing. */
  predicate RequestsMade(filters: seq<Filter>, pages: seq<Page>, requests: seq<ListRequest>) {
    |requests| <= |pages| && forall j :: 0 <= j < |requests| ==> requests[j] == RequestAt(filters, pages, j)
  }

  /** Sending the next request of the listing keeps the requests those of the listing. */
  lemma RequestsMadeNext(filters: seq<Filter>, pages: seq<Page>, requests: seq<ListRequest>, request: ListRequest)
    requires RequestsMade(filters, pages, requests) && |requests| < |pages|
    requires request == RequestAt(filters, pages, |requests|)
    ensures RequestsMade(filters, pages, requests + [request])
  {
  }

  /**
   * The `do { … } while (nextToken != null)` loop shared by every listing: request a
   * page, add the kept projections of its records, and stop after the first page
   * without a next token.
   */
  method Paginate(filters: seq<Filter>, keep: Keep, pages: seq<Page>)
    returns (result: seq<InstanceTypeInfo>, requests: seq<ListRequest>)
    requires Ends(pages)
    ensures result == Collected(pages[..LastPage(pages) + 1], keep)
    ensures |requests| == LastPage(pages) + 1
    ensures forall i :: 0 <= i < |requests| ==> requests[i] == RequestAt(filters, pages, i)
  {
    ghost var last := LastPage(pages);
    result, requests := [], [];
    var nextToken: Option<string> := None;
    var i := 0;
    var more := true;
    while more
      invariant i <= last + 1
      invariant more ==> i <= last && nextToken == (if i == 0 then None else pages[i - 1].nextToken)
      invariant !more ==> i == last + 1
      invariant result == Collected(pages[..i], keep)
      invariant |requests| == i && RequestsMade(filters, pages, requests)
      decreases last + 1 - i
    {
      var request := ListRequest(filters, MAX_RESULTS, nextToken);
      var response := pages[i];
      assert request == RequestAt(filters, pages, i);
      RequestsMadeNext(filters, pages, requests, request);
      requests := requests + [request];
      assert pages[..i + 1][..i] == pages[..i];
      assert Collected(pages[..i + 1], keep) == result + Kept(response.instanceTypes, keep);
      result := result + Kept(response.instanceTypes, keep);
      nextToken := response.nextToken;
      LastPageStops(pages, i);
      i := i + 1;
      more := nextToken.Some?;
    }
  }

  /** Every result comes from a record of one of the pages that passes the test, and every such record's projection is in the result. */
  lemma {:induction false} CollectedMembers(pages: seq<Page>, keep: Keep, x: InstanceTypeInfo)
    ensures x in Collected(pages, keep) <==> exists p :: 0 <= p < |pages| && Passes(pages[p].instanceTypes, keep, x)
    decreases |pages|
  {
    if pages != [] {
      var init := pages[..|pages| - 1];
      CollectedMembers(init, keep, x);
      KeptMembers(pages[|pages| - 1].instanceTypes, keep, x);
      assert forall p :: 0 <= p < |init| ==> init[p] == pages[p];
    }
  }

  // ---------------------------------------------------------------------------
  // The listings
  // ---------------------------------------------------------------------------

  /** The filter `listInstanceTypesByFamily` sends: instance types matching "family.*". */
  function FamilyFilters(family: string): (r: seq<Filter>)
    ensures |r| == 1 && r[0].name == INSTANCE_TYPE_FILTER && r[0].values == [family + ".*"]
  {
    [Filter(INSTANCE_TYPE_FILTER, [family + ".*"])]
  }

  /**
   * `listInstanceTypes(family)`: the unfiltered listing for a null or empty family,
   * otherwise the listing filtered to "family.*"; every record returned is kept.
   */
  method ListInstanceTypes(family: Option<string>, pages: seq<Page>)
    returns (result: seq<InstanceTypeInfo>, requests: seq<ListRequest>)
    requires Ends(pages)
    ensures result == Collected(pages[..LastPage(pages) + 1], KeepAll)
    ensures |requests| == LastPage(pages) + 1
    ensures !IsPresent(family) ==> forall i :: 0 <= i < |requests| ==> requests[i] == RequestAt([], pages, i)
    ensures IsPresent(family) ==>
              forall i :: 0 <= i < |requests| ==> requests[i] == RequestAt(FamilyFilters(family.value), pages, i)
  {
    if family.None? || family.value == "" {
      result, requests := Paginate([], KeepAll, pages);
    } else {
      result, requests := Paginate(FamilyFilters(family.value), KeepAll, pages);
    }
  }

  /** The architectures `listGpuInstanceTypes` asks the server for. */
  function GpuListingFilters(): (r: seq<Filter>)
    ensures |r| == 1 && r[0].name == ARCHITECTURE_FILTER && r[0].values == ["x86_64", "arm64"]
  {
    [Filter(ARCHITECTURE_FILTER, ["x86_64", "arm64"])]
  }

  /** `listGpuInstanceTypes()`: x86_64 and arm64 types, keeping those with GPU devices. */
  method ListGpuInstanceTypes(pages: seq<Page>) returns (result: seq<InstanceTypeInfo>, requests: seq<ListRequest>)
    requires Ends(pages)
    ensures result == Collected(pages[..LastPage(pages) + 1], KeepGpu)
    ensures |requests| == LastPage(pages) + 1
    ensures forall i :: 0 <= i < |requests| ==> requests[i] == RequestAt(GpuListingFilters(), pages, i)
  {
    result, requests := Paginate(GpuListingFilters(), KeepGpu, pages);
  }

  /** Every instance type the GPU listing returns has GPU devices. */
  lemma GpuListingHasGpus(pages: seq<Page>, x: InstanceTypeInfo)
    requires x in Collected(pages, KeepGpu)
    ensures x.gpuSupported && x.gpuInfoList != []
  {
    CollectedMembers(pages, KeepGpu, x);
    var p :| 0 <= p < |pages| && Passes(pages[p].instanceTypes, KeepGpu, x);
    var i :| 0 <= i < |pages[p].instanceTypes| && Keeps(KeepGpu, pages[p].instanceTypes[i])
             && x == Project(pages[p].instanceTypes[i]);
  }

  /** `listFreeTierInstanceTypes()`: the server-side filter free-tier-eligible = "true". */
  method ListFreeTierInstanceTypes(pages: seq<Page>) returns (result: seq<InstanceTypeInfo>, requests: seq<ListRequest>)
    requires Ends(pages)
    ensures result == Collected(pages[..LastPage(pages) + 1], KeepAll)
    ensures |requests| == LastPage(pages) + 1
    ensures forall i :: 0 <= i < |requests| ==>
              requests[i] == RequestAt([Filter(FREE_TIER_FILTER, ["true"])], pages, i)
  {
    result, requests := Paginate([Filter(FREE_TIER_FILTER, ["true"])], KeepAll, pages);
  }

  /** `listInstanceTypesByArchitecture(architecture)`: the server-side architecture filter. */
  method ListInstanceTypesByArchitecture(architecture: string, pages: seq<Page>)
    returns (result: seq<InstanceTypeInfo>, requests: seq<ListRequest>)
    requires Ends(pages)
    ensures result == Collected(pages[..LastPage(pages) + 1], KeepAll)
    ensures |requests| == LastPage(pages) + 1
    ensures forall i :: 0 <= i < |requests| ==>
              requests[i] == RequestAt([Filter(ARCHITECTURE_FILTER, [architecture])], pages, i)
  {
    result, requests := Paginate([Filter(ARCHITECTURE_FILTER, [architecture])], KeepAll, pages);
  }

  /** The filters `findInstanceTypes` sends: the architecture one only for a non-null, non-empty architecture. */
  function FindFilters(architecture: Option<string>): (r: seq<Filter>)
    ensures !IsPresent(architecture) ==> r == []
    ensures IsPresent(architecture) ==> r == [Filter(ARCHITECTURE_FILTER, [architecture.value])]
  {
    if architecture.Some? && architecture.value != "" then [Filter(ARCHITECTURE_FILTER, [architecture.value])] else []
  }

  /**
   * `findInstanceTypes(minVCpus, maxVCpus, _, _, requireGpu, architecture)`: the
   * architecture filter on the server, the vCPU bounds and the GPU demand on the client.
   */
  method FindInstanceTypes(minVCpus: Option<int32>, maxVCpus: Option<int32>, requireGpu: Option<bool>,
                           architecture: Option<string>, pages: seq<Page>)
    returns (result: seq<InstanceTypeInfo>, requests: seq<ListRequest>)
    requires Ends(pages)
    ensures result == Collected(pages[..LastPage(pages) + 1], KeepFound(minVCpus, maxVCpus, requireGpu))
    ensures |requests| == LastPage(pages) + 1
    ensures forall i :: 0 <= i < |requests| ==> requests[i] == RequestAt(FindFilters(architecture), pages, i)
  {
    var filters: seq<Filter> := [];
    if architecture.Some? && architecture.value != "" {
      filters := filters + [Filter(ARCHITECTURE_FILTER, [architecture.value])];
    }
    result, requests := Paginate(filters, KeepFound(minVCpus, maxVCpus, requireGpu), pages);
  }

  /** Every instance type `findInstanceTypes` returns meets the vCPU bounds and the GPU demand. */
  lemma FoundMeetsBounds(pages: seq<Page>, minVCpus: Option<int32>, maxVCpus: Option<int32>,
                         requireGpu: Option<bool>, x: InstanceTypeInfo)
    requires x in Collected(pages, KeepFound(minVCpus, maxVCpus, requireGpu))
    ensures minVCpus.Some? ==> x.vCpuCount >= minVCpus.value
    ensures maxVCpus.Some? ==> x.vCpuCount <= maxVCpus.value
    ensures requireGpu == Some(true) ==> x.gpuSupported
  {
    CollectedMembers(pages, KeepFound(minVCpus, maxVCpus, requireGpu), x);
    var p :| 0 <= p < |pages| && Passes(pages[p].instanceTypes, KeepFound(minVCpus, maxVCpus, requireGpu), x);
    var i :| 0 <= i < |pages[p].instanceTypes| && Keeps(KeepFound(minVCpus, maxVCpus, requireGpu), pages[p].instanceTypes[i])
             && x == Project(pages[p].instanceTypes[i]);
  }

  // ---------------------------------------------------------------------------
  // The vCPU range listing
  // ---------------------------------------------------------------------------

  /** The server-side filter `listInstanceTypesByVCpuRange` sends: default vCPUs equal to the minimum. */
  function VCpuFilterAsWritten(minVCpus: int32): seq<Filter> {
    [Filter(VCPU_FILTER, [IntToString(minVCpus as int)])]
  }

  /**
   * `listInstanceTypesByVCpuRange(min, max)` as written: the server is asked only for
   * types whose default vCPU count is exactly `min`, and the range is tested on the client.
   */
  method ListInstanceTypesByVCpuRangeAsWritten(minVCpus: int32, maxVCpus: int32, pages: seq<Page>)
    returns (result: seq<InstanceTypeInfo>, requests: seq<ListRequest>)
    requires Ends(pages)
    ensures result == Collected(pages[..LastPage(pages) + 1], KeepVCpuRange(minVCpus, maxVCpus))
    ensures |requests| == LastPage(pages) + 1
    ensures forall i :: 0 <= i < |requests| ==> requests[i] == RequestAt(VCpuFilterAsWritten(minVCpus), pages, i)
  {
    result, requests := Paginate(VCpuFilterAsWritten(minVCpus), KeepVCpuRange(minVCpus, maxVCpus), pages);
  }

  /**
   * The vCPU range listing without the exact-match server filter: every type is
   * requested and the inclusive range is tested on the client.
   */
  method ListInstanceTypesByVCpuRange(minVCpus: int32, maxVCpus: int32, pages: seq<Page>)
    returns (result: seq<InstanceTypeInfo>, requests: seq<ListRequest>)
    requires Ends(pages)
    ensures result == Collected(pages[..LastPage(pages) + 1], KeepVCpuRange(minVCpus, maxVCpus))
    ensures |requests| == LastPage(pages) + 1
    ensures forall i :: 0 <= i < |requests| ==> requests[i] == RequestAt([], pages, i)
  {
    result, requests := Paginate([], KeepVCpuRange(minVCpus, maxVCpus), pages);
  }

  /** The server honours a default-vCPU filter: every record it returns has one of the listed counts. */
  predicate HonoursVCpuFilter(pages: seq<Page>, values: seq<string>) {
    forall p, i :: 0 <= p < |pages| && 0 <= i < |pages[p].instanceTypes| ==>
      IntToString(VCpus(pages[p].instanceTypes[i]) as int) in values
  }

  /** Different Java ints print differently. */
  lemma IntToStringInjective(a: int32, b: int32)
    requires IntToString(a as int) == IntToString(b as int)
    ensures a == b
  {
    ParseIntToString(a as int);
    ParseIntToString(b as int);
  }

  /**
   * The range is kept exactly: a type is in the result iff some listed record with a
   * vCPU count in [min, max] projects to it.
   */
  lemma VCpuRangeMembers(pages: seq<Page>, minVCpus: int32, maxVCpus: int32, x: InstanceTypeInfo)
    ensures x in Collected(pages, KeepVCpuRange(minVCpus, maxVCpus)) <==>
            exists p, i :: 0 <= p < |pages| && 0 <= i < |pages[p].instanceTypes|
                           && minVCpus <= VCpus(pages[p].instanceTypes[i]) <= maxVCpus
                           && x == Project(pages[p].instanceTypes[i])
  {
    CollectedMembers(pages, KeepVCpuRange(minVCpus, maxVCpus), x);
    if x in Collected(pages, KeepVCpuRange(minVCpus, maxVCpus)) {
      var p :| 0 <= p < |pages| && Passes(pages[p].instanceTypes, KeepVCpuRange(minVCpus, maxVCpus), x);
      var i :| 0 <= i < |pages[p].instanceTypes| && Keeps(KeepVCpuRange(minVCpus, maxVCpus), pages[p].instanceTypes[i])
               && x == Project(pages[p].instanceTypes[i]);
    }
    if exists p, i :: 0 <= p < |pages| && 0 <= i < |pages[p].instanceTypes|
                      && minVCpus <= VCpus(pages[p].instanceTypes[i]) <= maxVCpus
                      && x == Project(pages[p].instanceTypes[i]) {
      var p, i :| 0 <= p < |pages| && 0 <= i < |pages[p].instanceTypes|
                  && minVCpus <= VCpus(pages[p].instanceTypes[i]) <= maxVCpus
                  && x == Project(pages[p].instanceTypes[i]);
      assert Passes(pages[p].instanceTypes, KeepVCpuRange(minVCpus, maxVCpus), x);
    }
  }

  /**
   * As written, a server that honours the filter it is sent returns only types with
   * exactly `min` vCPUs, so nothing with more than `min` vCPUs is ever listed.
   */
  lemma VCpuRangeAsWrittenOnlyMinimum(pages: seq<Page>, minVCpus: int32, maxVCpus: int32, x: InstanceTypeInfo)
    requires HonoursVCpuFilter(pages, VCpuFilterAsWritten(minVCpus)[0].values)
    requires x in Collected(pages, KeepVCpuRange(minVCpus, maxVCpus))
    ensures x.vCpuCount == minVCpus
  {
    CollectedMembers(pages, KeepVCpuRange(minVCpus, maxVCpus), x);
    var p :| 0 <= p < |pages| && Passes(pages[p].instanceTypes, KeepVCpuRange(minVCpus, maxVCpus), x);
    var i :| 0 <= i < |pages[p].instanceTypes| && Keeps(KeepVCpuRange(minVCpus, maxVCpus), pages[p].instanceTypes[i])
             && x == Project(pages[p].instanceTypes[i]);
    var api := pages[p].instanceTypes[i];
    assert IntToString(VCpus(api) as int) in [IntToString(minVCpus as int)];
    IntToStringInjective(VCpus(api), minVCpus);
  }

  /**
   * For the range 2..8 and a 4-vCPU type: the listing as written, against a server
   * that honours its filter, never returns it; the corrected listing returns it
   * whenever the server lists it.
   */
  lemma VCpuRangeDiscrepancy(pages: seq<Page>, honouringPages: seq<Page>, api: ApiInstanceType, p: nat, i: nat)
    requires VCpus(api) == 4
    requires p < |pages| && i < |pages[p].instanceTypes| && pages[p].instanceTypes[i] == api
    requires HonoursVCpuFilter(honouringPages, VCpuFilterAsWritten(2)[0].values)
    ensures Project(api) in Collected(pages, KeepVCpuRange(2, 8))
    ensures Project(api) !in Collected(honouringPages, KeepVCpuRange(2, 8))
  {
    VCpuRangeMembers(pages, 2, 8, Project(api));
    if Project(api) in Collected(honouringPages, KeepVCpuRange(2, 8)) {
      VCpuRangeAsWrittenOnlyMinimum(honouringPages, 2, 8, Project(api));
    }
  }
}
