/** The user dashboard: the statistics cards over the user's own requests, the status
    icons, the clean-up of the joined vendor profile, and the vendor text. */
module UserDashboard {
  import opened Common
  import opened Strings
  import opened Enums
  import opened Requests

  /** The `profiles` value joined to a request: null or missing, an error object (the
      shape a failed embed takes), some other non-object value, or a profile. */
  datatype Joined = Absent | ErrorObject(message: string) | NotAnObject | Row(profile: VendorProfile)

  /** A request row of the user's list with its joined vendor profile. */
  datatype UserRequest = UserRequest(request: PaintingRequest, profiles: Joined)

  /** One step of `transformedData`: the joined value is kept only when it is an object
      without an `error` key, and becomes null otherwise. */
  function NormalizeProfile(r: UserRequest): UserRequest {
    r.(profiles := if r.profiles.Row? then r.profiles else Absent)
  }

  /** `transformedData`. */
  function NormalizeAll(data: seq<UserRequest>): seq<UserRequest> {
    Map(NormalizeProfile, data)
  }

  /** After the clean-up every joined value is a profile or null, a profile is kept
      exactly when there was one, nothing else about a request changes, the list keeps
      its length and order, and cleaning up again changes nothing. */
  lemma NormalizeAllSpec(data: seq<UserRequest>)
    ensures |NormalizeAll(data)| == |data|
    ensures forall i :: 0 <= i < |data| ==>
              NormalizeAll(data)[i].request == data[i].request &&
              (NormalizeAll(data)[i].profiles.Row? <==> data[i].profiles.Row?) &&
              (data[i].profiles.Row? ==> NormalizeAll(data)[i].profiles == data[i].profiles) &&
              (!data[i].profiles.Row? ==> NormalizeAll(data)[i].profiles == Absent)
    ensures NormalizeAll(NormalizeAll(data)) == NormalizeAll(data)
  {
  }

  /** The "Assigned Vendor" text: the vendor's label, or 'Not assigned yet' without a
      profile. */
  function VendorText(profiles: Joined): string {
    if profiles.Row? then VendorLabel(profiles.profile) else "Not assigned yet"
  }

  /** 'Not assigned yet' is shown when there is no profile, and otherwise only for a
      vendor literally named so and without a company: a label with a company has a
      parenthesis, which that text has not. */
  lemma VendorTextSpec(profiles: Joined)
    ensures VendorText(profiles) == "Not assigned yet" <==>
              !profiles.Row? ||
              (profiles.profile.name == "Not assigned yet" && !Truthy(profiles.profile.companyName))
  {
    if profiles.Row? {
      var v := profiles.profile;
      VendorLabelSpec(v);
      if Truthy(v.companyName) {
        var t := VendorLabel(v);
        assert t[|t| - 1] == ')';
        assert "Not assigned yet"[15] == 't';
      }
    }
  }

  /** `getStatusIcon`. */
  function StatusIcon(status: string): string {
    if status == "pending" then "\U{23F3}"
    else if status == "accepted" then "\U{2705}"
    else if status == "in_progress" then "\U{1F3A8}"
    else if status == "completed" then "\U{1F3C6}"
    else "\U{1F4CB}"
  }

  /** Each status of the life cycle has an icon of its own, different from the others
      and from the default that every other string gets. */
  lemma StatusIconSpec(s: string)
    ensures ParseStatus(s).None? ==> StatusIcon(s) == "\U{1F4CB}"
    ensures forall st :: StatusIcon(StatusName(st)) != "\U{1F4CB}"
    ensures forall st, st' :: StatusIcon(StatusName(st)) == StatusIcon(StatusName(st')) ==> st == st'
  {
  }

  datatype UserStats = UserStats(totalRequests: nat, pendingRequests: nat, completedRequests: nat, totalSpent: real)

  /** `getStats` over the user's requests. */
  function GetStats(requests: seq<UserRequest>): UserStats {
    var rs := Map((r: UserRequest) => r.request, requests);
    UserStats(|rs|, PendingCount(rs), CompletedCount(rs), CompletedRevenue(rs))
  }

  /** Pending and completed requests together never outnumber the requests, and the
      amount spent is the cost of the completed requests only, a missing cost counting
      as 0. */
  lemma GetStatsSpec(requests: seq<UserRequest>)
    ensures GetStats(requests).pendingRequests + GetStats(requests).completedRequests <= GetStats(requests).totalRequests
    ensures GetStats(requests).totalRequests == |requests|
    ensures GetStats(requests).totalSpent == Sum(RevenueShare, Map((r: UserRequest) => r.request, requests))
  {
    var rs := Map((r: UserRequest) => r.request, requests);
    CountsBounded(rs);
    RevenueIsCompletedShare(rs);
  }

  /** The clean-up of the joined profiles does not change any statistic. */
  lemma StatsIgnoreProfiles(requests: seq<UserRequest>)
    ensures GetStats(NormalizeAll(requests)) == GetStats(requests)
  {
    var f := (r: UserRequest) => r.request;
    assert Map(f, NormalizeAll(requests)) == Map(f, requests);
  }
}
