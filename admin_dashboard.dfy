/** The admin dashboard: the split of vendor profiles into approved and awaiting
    approval, the statistics cards, which requests can be assigned, the vendor picked
    per request, the assignment row, and how a vendor is shown. */
module AdminDashboard {
  import opened Common
  import opened Records
  import opened Strings
  import opened Requests

  /** A vendor's `profiles` row: `isApproved` is `None` when the column is null. */
  datatype Vendor = Vendor(userId: string, name: string, companyName: Option<string>, isApproved: Option<bool>)

  /** `v.is_approved` is truthy. */
  predicate IsApproved(v: Vendor) { v.isApproved == Some(true) }

  /** `!v.is_approved`: false and null both count as not approved. */
  predicate AwaitsApproval(v: Vendor) { v.isApproved != Some(true) }

  /** `fetchVendors`: the approved vendors (offered for assignment) and the vendors
      awaiting approval, each in fetch order. */
  function SplitVendors(data: seq<Vendor>): (seq<Vendor>, seq<Vendor>) {
    (Filter(IsApproved, data), Filter(AwaitsApproval, data))
  }

  /** Every fetched vendor lands in exactly one list, the approved list holding only
      approved vendors and the other only the rest, each list keeps the fetch order, and
      together they are as long as the fetch. */
  lemma SplitVendorsSpec(data: seq<Vendor>)
    ensures var (approved, pending) := SplitVendors(data);
            (forall i :: 0 <= i < |approved| ==> approved[i] in data && IsApproved(approved[i])) &&
            (forall i :: 0 <= i < |pending| ==> pending[i] in data && !IsApproved(pending[i])) &&
            (forall i :: 0 <= i < |data| ==> (data[i] in approved <==> data[i] !in pending)) &&
            |approved| + |pending| == |data|
    ensures IsSubseq(SplitVendors(data).0, data) && IsSubseq(SplitVendors(data).1, data)
  {
    FilterComplement(IsApproved, AwaitsApproval, data);
    FilterIsSubseq(IsApproved, data);
    FilterIsSubseq(AwaitsApproval, data);
  }

  datatype AdminStats = AdminStats(totalRequests: nat, pendingRequests: nat, completedRequests: nat, totalRevenue: real)

  /** `getStats` over every request. */
  function GetStats(requests: seq<PaintingRequest>): AdminStats {
    AdminStats(|requests|, PendingCount(requests), CompletedCount(requests), CompletedRevenue(requests))
  }

  /** Pending and completed requests together never outnumber the requests, and the
      revenue is the costs of the completed requests only, a missing cost counting 0. */
  lemma GetStatsSpec(requests: seq<PaintingRequest>)
    ensures GetStats(requests).pendingRequests + GetStats(requests).completedRequests <= GetStats(requests).totalRequests
    ensures GetStats(requests).totalRevenue == Sum(RevenueShare, requests)
    ensures forall r :: GetStats(requests + [r]).totalRevenue == GetStats(requests).totalRevenue + RevenueShare(r)
  {
    CountsBounded(requests);
    RevenueIsCompletedShare(requests);
    forall r
      ensures CompletedRevenue(requests + [r]) == CompletedRevenue(requests) + RevenueShare(r)
    {
      RevenueAppend(requests, r);
    }
  }

  /** `request.status === 'pending' && !request.vendor_id`: the assign control is shown. */
  predicate CanAssign(r: PaintingRequest) {
    r.status == "pending" && !Truthy(r.vendorId)
  }

  /** The assign control appears exactly for pending requests without a vendor. */
  lemma CanAssignSpec(r: PaintingRequest)
    ensures CanAssign(r) <==> IsPending(r) && (r.vendorId.None? || r.vendorId == Some(""))
  {
  }

  /** The select's `onValueChange`: `{...prev, [requestId]: vendorId}`. */
  function SelectVendor(selected: Record<string>, requestId: string, vendorId: string): (r: Record<string>)
    ensures Get(r, requestId) == Some(vendorId)
    ensures forall other :: other != requestId ==> Get(r, other) == Get(selected, other)
  {
    Put(selected, requestId, vendorId)
  }

  /** `!selectedVendors[request.id]` negated: the Assign button is enabled. */
  predicate AssignEnabled(selected: Record<string>, requestId: string) {
    Truthy(Get(selected, requestId))
  }

  /** Nothing is selected at first, so Assign starts disabled; choosing a vendor for a
      request enables that request's button and leaves every other button as it was. */
  lemma AssignEnabledSpec(selected: Record<string>, requestId: string, vendorId: string, other: string)
    requires vendorId != ""
    requires other != requestId
    ensures !AssignEnabled([], requestId)
    ensures AssignEnabled(SelectVendor(selected, requestId, vendorId), requestId)
    ensures AssignEnabled(SelectVendor(selected, requestId, vendorId), other) == AssignEnabled(selected, other)
  {
  }

  /** A `vendor_requests` row. */
  datatype VendorRequestRow = VendorRequestRow(requestId: string, vendorId: string, status: string)

  /** The Assign button's click: `sendRequestToVendor(request.id, selectedVendors[request.id])`,
      possible only while the button is enabled. */
  function Assign(selected: Record<string>, requestId: string): Option<VendorRequestRow> {
    if AssignEnabled(selected, requestId) then Some(VendorRequestRow(requestId, Get(selected, requestId).value, "pending"))
    else None
  }

  /** An assignment is sent exactly when a vendor is selected for the request; it names
      that request and that vendor and is recorded as pending. */
  lemma AssignSpec(selected: Record<string>, requestId: string)
    ensures Assign(selected, requestId).Some? <==> AssignEnabled(selected, requestId)
    ensures Assign(selected, requestId).Some? ==>
              Assign(selected, requestId).value.requestId == requestId &&
              Some(Assign(selected, requestId).value.vendorId) == Get(selected, requestId) &&
              Assign(selected, requestId).value.status == "pending"
  {
  }

  /** Choosing a vendor and clicking Assign sends exactly that vendor. */
  lemma SelectThenAssign(selected: Record<string>, requestId: string, vendorId: string)
    requires vendorId != ""
    ensures Assign(SelectVendor(selected, requestId, vendorId), requestId) == Some(VendorRequestRow(requestId, vendorId, "pending"))
  {
  }

  /** The "Assigned Vendor" text: the vendor's label, or 'Not assigned' without one. */
  function VendorText(vendor: Option<VendorProfile>): string {
    if vendor.Some? then VendorLabel(vendor.value) else "Not assigned"
  }
}
