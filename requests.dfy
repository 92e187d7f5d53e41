/** A painting request as the three dashboards see it, and the rules the dashboards
    share: the statistics cards (counts by status, revenue of completed requests) and
    the one-line summary of a request's rooms. */
module Requests {
  import opened Common
  import opened Records
  import opened Strings

  /** A `painting_requests` row. `status` is a string in the pages; `estimatedCost` is
      `None` when the column is null, undefined or not a number; `roomTypes` is the
      room-type-to-count object, `None` when null. */
  datatype PaintingRequest = PaintingRequest(
    id: string,
    status: string,
    estimatedCost: Option<real>,
    roomTypes: Option<Record<int>>,
    vendorId: Option<string>)

  predicate IsPending(r: PaintingRequest) { r.status == "pending" }

  predicate IsCompleted(r: PaintingRequest) { r.status == "completed" }

  /** `r.estimated_cost || 0`: a missing cost counts as 0. */
  function CostOrZero(r: PaintingRequest): (c: real)
    ensures r.estimatedCost.None? ==> c == 0.0
    ensures r.estimatedCost.Some? ==> c == r.estimatedCost.value
  {
    if r.estimatedCost.Some? then r.estimatedCost.value else 0.0
  }

  /** `requests.filter(r => r.status === 'pending').length`. */
  function PendingCount(rs: seq<PaintingRequest>): nat {
    |Filter(IsPending, rs)|
  }

  /** `requests.filter(r => r.status === 'completed').length`. */
  function CompletedCount(rs: seq<PaintingRequest>): nat {
    |Filter(IsCompleted, rs)|
  }

  /** `requests.filter(completed).reduce((sum, r) => sum + (r.estimated_cost || 0), 0)`. */
  function CompletedRevenue(rs: seq<PaintingRequest>): real {
    Sum(CostOrZero, Filter(IsCompleted, rs))
  }

  /** The cost a request adds to the revenue card: its cost if completed, else 0. */
  function RevenueShare(r: PaintingRequest): (c: real)
    ensures !IsCompleted(r) ==> c == 0.0
    ensures IsCompleted(r) ==> c == CostOrZero(r)
  {
    if IsCompleted(r) then CostOrZero(r) else 0.0
  }

  /** No request is counted both as pending and as completed, so the two cards never add
      up to more than the total, and neither exceeds it. */
  lemma CountsBounded(rs: seq<PaintingRequest>)
    ensures PendingCount(rs) + CompletedCount(rs) <= |rs|
    ensures CompletedCount(rs) <= |rs| && PendingCount(rs) <= |rs|
  {
    FilterDisjoint(IsPending, IsCompleted, rs);
  }

  /** The revenue is the sum over ALL requests of their cost if completed and 0
      otherwise: requests in any other status contribute nothing. */
  lemma RevenueIsCompletedShare(rs: seq<PaintingRequest>)
    ensures CompletedRevenue(rs) == Sum(RevenueShare, rs)
  {
    SumFilter(CostOrZero, IsCompleted, RevenueShare, rs);
  }

  /** Adding a request changes the revenue by exactly its share: its cost when it is
      completed, nothing otherwise. */
  lemma RevenueAppend(rs: seq<PaintingRequest>, r: PaintingRequest)
    ensures CompletedRevenue(rs + [r]) == CompletedRevenue(rs) + RevenueShare(r)
  {
    RevenueIsCompletedShare(rs + [r]);
    RevenueIsCompletedShare(rs);
    assert (rs + [r])[..|rs|] == rs;
  }

  /** With no negative costs recorded, the revenue is never negative. */
  lemma RevenueNonNegative(rs: seq<PaintingRequest>)
    requires forall i :: 0 <= i < |rs| ==> CostOrZero(rs[i]) >= 0.0
    ensures CompletedRevenue(rs) >= 0.0
  {
    var f := Filter(IsCompleted, rs);
    assert forall i :: 0 <= i < |f| ==> f[i] in rs;
    SumNonNegative(CostOrZero, f);
  }

  /** `${count} ${room}${Number(count) > 1 ? 's' : ''}`. */
  function RoomEntryText(room: string, count: int): string {
    IntToString(count) + " " + room + (if count > 1 then "s" else "")
  }

  function EntryText(e: (string, int)): string {
    RoomEntryText(e.0, e.1)
  }

  /** `getRoomSummary`: 'No rooms specified' for a null room object, otherwise the
      entries rendered as "count room" (plural when count > 1) joined by ", ". */
  function RoomSummary(roomTypes: Option<Record<int>>): string {
    if roomTypes.None? then "No rooms specified"
    else Join(Map(EntryText, roomTypes.value), ", ")
  }

  /** A summary is built entry by entry: one more room type appends ", " and its text. */
  lemma RoomSummaryAppend(rooms: Record<int>, room: string, count: int)
    requires rooms != []
    ensures RoomSummary(Some(rooms + [(room, count)])) ==
            RoomSummary(Some(rooms)) + ", " + RoomEntryText(room, count)
  {
    var ts := Map(EntryText, rooms);
    assert Map(EntryText, rooms + [(room, count)]) == ts + [EntryText((room, count))];
    JoinAppend(ts, ", ", EntryText((room, count)));
  }

  /** The summaries of an empty room object and of a single room type. */
  lemma RoomSummarySmall(room: string, count: int)
    ensures RoomSummary(Some([])) == ""
    ensures RoomSummary(Some([(room, count)])) == RoomEntryText(room, count)
  {
    assert Map(EntryText, [(room, count)]) == [EntryText((room, count))];
  }

  /** For every count, an entry reads as the count's decimal text, a space and the room
      type, followed by a plural 's' exactly when the count is above 1; the number
      reads back as the count. One room has no plural 's', two rooms have one. */
  lemma RoomEntryPlural(room: string, count: int)
    ensures var p, t := IntToString(count) + " " + room, RoomEntryText(room, count);
            IsPrefix(p, t) && |t| == |p| + (if count > 1 then 1 else 0) &&
            (count > 1 ==> t[|t| - 1] == 's')
    ensures count >= 0 ==> IntToString(count) == NatToString(count) && DigitsValue(NatToString(count)) == count
    ensures count < 0 ==> IntToString(count) == "-" + NatToString(-count) && DigitsValue(NatToString(-count)) == -count
    ensures RoomEntryText(room, 1) == "1 " + room
    ensures RoomEntryText(room, 2) == "2 " + room + "s"
  {
    if count >= 0 {
      NatToStringRoundTrip(count);
    } else {
      NatToStringRoundTrip(-count);
    }
    assert IntToString(1) == "1";
    assert IntToString(2) == "2";
  }

  /** The vendor profile joined to a request. */
  datatype VendorProfile = VendorProfile(name: string, companyName: Option<string>)

  /** How the dashboards show a vendor: the name, then ` (company)` when a company
      name is present. */
  function VendorLabel(v: VendorProfile): string {
    v.name + if Truthy(v.companyName) then " (" + v.companyName.value + ")" else ""
  }

  /** The vendor's name always comes first; the company follows in parentheses exactly
      when it is there, and can be read back from between them. */
  lemma VendorLabelSpec(v: VendorProfile)
    ensures IsPrefix(v.name, VendorLabel(v))
    ensures !Truthy(v.companyName) ==> VendorLabel(v) == v.name
    ensures Truthy(v.companyName) ==>
              var t := VendorLabel(v);
              |t| == |v.name| + |v.companyName.value| + 3 && t[|v.name|..|v.name| + 2] == " (" && t[|t| - 1] == ')' &&
              t[|v.name| + 2..|t| - 1] == v.companyName.value
  {
    var t := VendorLabel(v);
    assert t[..|v.name|] == v.name;
    if Truthy(v.companyName) {
      assert t == v.name + " (" + v.companyName.value + ")";
      assert t[|v.name| + 2..|t| - 1] == v.companyName.value;
    }
  }
}
