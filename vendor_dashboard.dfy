/** The vendor dashboard: the status a vendor can move an assigned request to next,
    the statistics cards, the tag parsing and required fields of a design upload, and
    the status-update calls. */
module VendorDashboard {
  import opened Common
  import opened Strings
  import opened Enums
  import opened Requests

  // ---------------------------------------------------------------- next status

  /** `getNextStatus`: pending -> accepted -> in_progress -> completed; no next status
      after completed or for any other string. */
  function GetNextStatus(current: string): Option<string> {
    if current == "pending" then Some("accepted")
    else if current == "accepted" then Some("in_progress")
    else if current == "in_progress" then Some("completed")
    else None
  }

  /** A next status exists exactly for the three statuses before completed, it is
      always a status, and it is exactly one step later in the life cycle. */
  lemma GetNextStatusSpec(current: string)
    ensures GetNextStatus(current).Some? <==> ParseStatus(current).Some? && ParseStatus(current).value != Completed
    ensures GetNextStatus(current).Some? ==>
              ParseStatus(GetNextStatus(current).value).Some? &&
              Rank(ParseStatus(GetNextStatus(current).value).value) == Rank(ParseStatus(current).value) + 1
  {
  }

  /** The status after `n` clicks of the advance button, starting from `current`, or
      `None` once there is no next status. */
  function AdvanceTimes(current: Option<string>, n: nat): Option<string>
    decreases n
  {
    if n == 0 || current.None? then current else AdvanceTimes(GetNextStatus(current.value), n - 1)
  }

  /** From any status, 3 - rank clicks reach completed and one more gives no status. */
  lemma {:induction false} AdvanceReachesCompleted(st: Status)
    ensures AdvanceTimes(Some(StatusName(st)), 3 - Rank(st)) == Some("completed")
    ensures AdvanceTimes(Some(StatusName(st)), 4 - Rank(st)) == None
    decreases 3 - Rank(st)
  {
    if st != Completed {
      var next := if st == Pending then Accepted else if st == Accepted then InProgress else Completed;
      assert GetNextStatus(StatusName(st)) == Some(StatusName(next));
      AdvanceReachesCompleted(next);
    }
  }

  /** In particular a pending request is completed after three clicks, and a fourth
      gives no next status. */
  lemma PendingToCompleted()
    ensures AdvanceTimes(Some("pending"), 3) == Some("completed")
    ensures AdvanceTimes(Some("pending"), 4) == None
  {
    AdvanceReachesCompleted(Pending);
  }

  /** The label of the advance button, `Mark as <next status with '_' as ' '>`, when
      the button is shown. */
  function AdvanceButton(status: string): (shown: Option<string>)
    ensures shown.Some? <==> GetNextStatus(status).Some?
  {
    match GetNextStatus(status)
    case None => None
    case Some(next) => Some("Mark as " + ReplaceFirst(next, '_', " "))
  }

  /** Each status name reads without an underscore once its first '_' is replaced by a
      space (`in_progress` is the only name with one). */
  lemma StatusNameReadable(st: Status)
    ensures '_' !in ReplaceFirst(StatusName(st), '_', " ")
  {
    var name := StatusName(st);
    if st == InProgress {
      ReplaceFirstAt("in", "progress", '_', " ");
      assert "in" + ['_'] + "progress" == name;
      assert '_' !in "in" + " " + "progress";
    } else {
      assert '_' !in name;
    }
  }

  /** The advance button is offered exactly for the statuses of the life cycle before
      completed, and its label shows the next status without an underscore. */
  lemma AdvanceButtonSpec(status: string)
    ensures AdvanceButton(status).Some? <==> ParseStatus(status).Some? && ParseStatus(status).value != Completed
    ensures AdvanceButton(status).Some? ==> '_' !in AdvanceButton(status).value
  {
    GetNextStatusSpec(status);
    if GetNextStatus(status).Some? {
      var next := ParseStatus(GetNextStatus(status).value).value;
      assert '_' !in "Mark as ";
      ReadableAfter("Mark as ", next);
    }
  }

  /** A status name made readable, after a prefix without an underscore, holds none. */
  lemma ReadableAfter(prefix: string, st: Status)
    requires '_' !in prefix
    ensures '_' !in prefix + ReplaceFirst(StatusName(st), '_', " ")
  {
    StatusNameReadable(st);
    NotInAppend(prefix, ReplaceFirst(StatusName(st), '_', " "), '_');
  }
  // ---------------------------------------------------------------- status update

  /** The backend calls of the vendor page. */
  datatype VendorCall =
    | UpdateStatus(requestId: string, status: string)
    | InsertJobUpdate(requestId: string, status: string, notes: string)
    | StoreDesignImage(userId: string, file: File)
    | InsertDesign(row: DesignRow)

  /** `updateRequestStatus`: the status update, then, unless it failed, a job update
      noting the change; the job update's own result is not checked. */
  function StatusUpdateCalls(requestId: string, newStatus: string, updateFails: bool): seq<VendorCall> {
    [UpdateStatus(requestId, newStatus)] +
    if updateFails then [] else [InsertJobUpdate(requestId, newStatus, StatusNote(newStatus))]
  }

  /** The note a job update carries for a new status. */
  function StatusNote(newStatus: string): string {
    "Status updated to " + ReplaceFirst(newStatus, '_', " ")
  }

  /** The status update comes first, for the given request and status; the job update
      with its note follows exactly when the status update succeeded. */
  lemma StatusUpdateCallsShape(requestId: string, newStatus: string, updateFails: bool)
    ensures var calls := StatusUpdateCalls(requestId, newStatus, updateFails);
            calls[0] == UpdateStatus(requestId, newStatus) &&
            (|calls| == 2 <==> !updateFails) && |calls| <= 2 &&
            (!updateFails ==> calls[1] == InsertJobUpdate(requestId, newStatus, StatusNote(newStatus)))
  {
  }

  /** For every status of the life cycle the note reads without an underscore. */
  lemma StatusNoteReadable(st: Status)
    ensures '_' !in StatusNote(StatusName(st))
  {
    assert '_' !in "Status updated to ";
    ReadableAfter("Status updated to ", st);
  }

  /** The request's status is updated first; the job update follows exactly when that
      succeeded, for the same request and status, and for every status of the life
      cycle its note reads without an underscore. */
  lemma StatusUpdateCallsSpec(requestId: string, st: Status, updateFails: bool)
    ensures var calls := StatusUpdateCalls(requestId, StatusName(st), updateFails);
            calls[0] == UpdateStatus(requestId, StatusName(st)) &&
            (|calls| == 2 <==> !updateFails) && |calls| <= 2 &&
            (!updateFails ==> calls[1].InsertJobUpdate? && calls[1].requestId == requestId &&
                              calls[1].status == StatusName(st) && '_' !in calls[1].notes)
  {
    StatusUpdateCallsShape(requestId, StatusName(st), updateFails);
    StatusNoteReadable(st);
  }

  // ---------------------------------------------------------------- statistics

  /** A `painting_designs` row as the vendor page inserts it. */
  datatype DesignRow = DesignRow(title: string, category: string, tags: seq<string>, imageUrl: string, vendorId: string)

  datatype VendorStats = VendorStats(totalRequests: nat, completedRequests: nat, totalDesigns: nat, totalEarnings: real)

  /** `getStats` over the requests assigned to the vendor and the vendor's designs. */
  function GetStats(requests: seq<PaintingRequest>, designs: seq<DesignRow>): VendorStats {
    VendorStats(|requests|, CompletedCount(requests), |designs|, CompletedRevenue(requests))
  }

  /** Completed requests never outnumber the requests, and the earnings are the costs
      of the completed requests only, a missing cost counting as 0. */
  lemma GetStatsSpec(requests: seq<PaintingRequest>, designs: seq<DesignRow>)
    ensures GetStats(requests, designs).completedRequests <= GetStats(requests, designs).totalRequests
    ensures GetStats(requests, designs).totalEarnings == Sum(RevenueShare, requests)
    ensures (forall i :: 0 <= i < |requests| ==> CostOrZero(requests[i]) >= 0.0) ==>
              GetStats(requests, designs).totalEarnings >= 0.0
  {
    CountsBounded(requests);
    RevenueIsCompletedShare(requests);
    if forall i :: 0 <= i < |requests| ==> CostOrZero(requests[i]) >= 0.0 {
      RevenueNonNegative(requests);
    }
  }

  // ---------------------------------------------------------------- design upload

  predicate NonEmpty(s: string) { s != [] }

  /** The pieces trimmed, with the empty ones dropped, in order. */
  function CleanTags(pieces: seq<string>): seq<string>
    decreases |pieces|
  {
    if pieces == [] then []
    else
      var t := Trim(pieces[|pieces| - 1]);
      CleanTags(pieces[..|pieces| - 1]) + if t != [] then [t] else []
  }

  /** `tags.split(',').map(t => t.trim()).filter(Boolean)`. */
  function ParseTags(tags: string): seq<string> {
    CleanTags(Split(tags, ','))
  }

  /** `CleanTags` is the `map(trim)` followed by `filter(Boolean)` of the source. */
  lemma {:induction false} CleanTagsIsFilterMap(pieces: seq<string>)
    ensures CleanTags(pieces) == Filter(NonEmpty, Map(Trim, pieces))
    decreases |pieces|
  {
    if pieces != [] {
      var init := pieces[..|pieces| - 1];
      CleanTagsIsFilterMap(init);
      var m := Map(Trim, pieces);
      assert m[..|m| - 1] == Map(Trim, init);
    }
  }

  /** A tag as the upload stores it: tidy and free of the separator `c`. */
  predicate IsTag(t: string, c: char) {
    Tidy(t) && c !in t
  }

  /** Every clean tag is tidy and, when no piece holds `c`, does not hold `c` either;
      there are no more tags than pieces. */
  lemma {:induction false} CleanTagsSpec(pieces: seq<string>, c: char)
    requires forall i :: 0 <= i < |pieces| ==> c !in pieces[i]
    ensures forall i :: 0 <= i < |CleanTags(pieces)| ==> IsTag(CleanTags(pieces)[i], c)
    ensures |CleanTags(pieces)| <= |pieces|
    decreases |pieces|
  {
    if pieces != [] {
      var init, last := pieces[..|pieces| - 1], pieces[|pieces| - 1];
      assert forall i :: 0 <= i < |init| ==> init[i] == pieces[i];
      CleanTagsSpec(init, c);
      var t := Trim(last);
      TrimSpec(last);
      TrimKeepsOut(last, c);
      var r := CleanTags(init);
      assert CleanTags(pieces) == r + if t != [] then [t] else [];
      if t != [] {
        assert IsTag(t, c);
      }
    }
  }

  /** The parsed tags are tidy and hold no comma; they keep the order of the trimmed
      pieces; and there are at most commas + 1 of them. */
  lemma ParseTagsSpec(tags: string)
    ensures forall i :: 0 <= i < |ParseTags(tags)| ==> IsTag(ParseTags(tags)[i], ',')
    ensures IsSubseq(ParseTags(tags), Map(Trim, Split(tags, ',')))
    ensures |ParseTags(tags)| <= CountChar(tags, ',') + 1
  {
    var pieces := Split(tags, ',');
    CleanTagsSpec(pieces, ',');
    CleanTagsSubseq(pieces);
  }

  /** The clean tags are an order-preserving selection of the trimmed pieces. */
  lemma CleanTagsSubseq(pieces: seq<string>)
    ensures IsSubseq(CleanTags(pieces), Map(Trim, pieces))
  {
    CleanTagsIsFilterMap(pieces);
    FilterIsSubseq(NonEmpty, Map(Trim, pieces));
  }

  /** Cleaning one more piece appends its trimmed form unless that is empty. */
  lemma CleanTagsSnoc(init: seq<string>, last: string)
    ensures CleanTags(init + [last]) == CleanTags(init) + if Trim(last) != [] then [Trim(last)] else []
  {
    assert (init + [last])[..|init|] == init;
  }

  /** Tidy pieces are their own clean tags. */
  lemma {:induction false} CleanTagsOfClean(tags: seq<string>)
    requires forall i :: 0 <= i < |tags| ==> Tidy(tags[i])
    ensures CleanTags(tags) == tags
    decreases |tags|
  {
    if tags != [] {
      var init, last := tags[..|tags| - 1], tags[|tags| - 1];
      assert tags == init + [last];
      assert forall i :: 0 <= i < |init| ==> init[i] == tags[i];
      CleanTagsOfClean(init);
      TrimOfTrimmed(last);
      CleanTagsSnoc(init, last);
    }
  }

  /** A string whose comma-separated pieces are tidy parses to those pieces. */
  lemma ParseTagsOfPieces(s: string, tags: seq<string>)
    requires Split(s, ',') == tags
    requires forall i :: 0 <= i < |tags| ==> Tidy(tags[i])
    ensures ParseTags(s) == tags
  {
    CleanTagsOfClean(tags);
  }

  /** An empty tags field gives no tags. */
  lemma ParseTagsOfEmpty()
    ensures ParseTags("") == []
  {
    var empty: string := [];
    assert Split(empty, ',') == [empty];
    assert TrimStart(empty) == empty;
    assert Trim(empty) == empty;
    CleanTagsSnoc([], empty);
    assert [] + [empty] == [empty];
  }

  /** Tags the upload would store come back unchanged from being written comma-
      separated and parsed again. */
  lemma ParseTagsOfJoin(tags: seq<string>)
    requires forall i :: 0 <= i < |tags| ==> IsTag(tags[i], ',')
    ensures ParseTags(Join(tags, ",")) == tags
  {
    if tags == [] {
      ParseTagsOfEmpty();
    } else {
      ParseTagsOfJoinNonEmpty(tags);
    }
  }

  lemma ParseTagsOfJoinNonEmpty(tags: seq<string>)
    requires tags != []
    requires forall i :: 0 <= i < |tags| ==> IsTag(tags[i], ',')
    ensures ParseTags(Join(tags, ",")) == tags
  {
    SplitJoin(tags, ',');
    ParseTagsOfPieces(Join(tags, ","), tags);
  }

  /** The upload form: `newDesign`. */
  datatype NewDesign = NewDesign(title: string, category: string, tags: string, imageFile: Option<File>)

  function EmptyDesign(): NewDesign {
    NewDesign("", "", "", None)
  }

  /** Why an upload returned before calling the backend. */
  datatype UploadStop = NoUser | MissingFields

  /** How an upload ended: stopped by a guard, the call at position `at` failed, no
      public URL was obtained for the stored image, or the design was added. */
  datatype UploadOutcome = UploadStopped(reason: UploadStop) | UploadFailed(at: nat) | NoPublicUrl | Uploaded

  /** The guards of `handleUploadDesign`: a signed-in user, then a title, a category
      and an image file. */
  function UploadGuard(user: Option<string>, nd: NewDesign): Option<UploadStop> {
    if user.None? then Some(NoUser)
    else if nd.title == "" || nd.category == "" || nd.imageFile.None? then Some(MissingFields)
    else None
  }

  /** What one upload does: the image is stored in the user's folder of the `designs`
      bucket, its public URL is read (`publicUrl`, `None` when storage gives none), and
      the design row is inserted; the calls at the positions in `failing` fail. */
  function UploadRun(user: Option<string>, nd: NewDesign, publicUrl: Option<string>, failing: set<nat>)
    : (seq<VendorCall>, UploadOutcome)
  {
    if UploadGuard(user, nd).Some? then ([], UploadStopped(UploadGuard(user, nd).value))
    else
      var plan := UploadPlan(user.value, nd, publicUrl.GetOr(""));
      if 0 in failing then (plan[..1], UploadFailed(0))
      else if publicUrl.None? || publicUrl.value == "" then (plan[..1], NoPublicUrl)
      else if 1 in failing then (plan, UploadFailed(1))
      else (plan, Uploaded)
  }

  /** The two calls of an upload that gets past the guards: store the image, insert
      the design row with the parsed tags, the image's public URL and the user as its
      vendor. */
  function UploadPlan(userId: string, nd: NewDesign, url: string): seq<VendorCall>
    requires nd.imageFile.Some?
  {
    [StoreDesignImage(userId, nd.imageFile.value),
     InsertDesign(DesignRow(nd.title, nd.category, ParseTags(nd.tags), url, userId))]
  }

  /** An upload with no user, or with a missing title, category or image, calls
      nothing; every other upload stores the image first. */
  lemma UploadRunGuards(user: Option<string>, nd: NewDesign, publicUrl: Option<string>, failing: set<nat>)
    ensures var r := UploadRun(user, nd, publicUrl, failing);
            r.1.UploadStopped? <==> user.None? || nd.title == "" || nd.category == "" || nd.imageFile.None?
    ensures var r := UploadRun(user, nd, publicUrl, failing);
            r.1.UploadStopped? <==> r.0 == []
    ensures var r := UploadRun(user, nd, publicUrl, failing);
            r.0 != [] ==> user.Some? && nd.imageFile.Some? && r.0[0] == StoreDesignImage(user.value, nd.imageFile.value)
  {
  }

  /** The design is inserted exactly when the store succeeded and gave a public URL,
      with the form's title and category, the parsed tags, that URL and the user as its
      vendor; it is added exactly when the insert succeeds as well. */
  lemma UploadRunInserts(user: Option<string>, nd: NewDesign, publicUrl: Option<string>, failing: set<nat>)
    ensures var r := UploadRun(user, nd, publicUrl, failing);
            |r.0| == 2 <==> !r.1.UploadStopped? && 0 !in failing && publicUrl.Some? && publicUrl.value != ""
    ensures var r := UploadRun(user, nd, publicUrl, failing);
            |r.0| == 2 ==> user.Some? && publicUrl.Some? &&
                           r.0[1] == InsertDesign(DesignRow(nd.title, nd.category, ParseTags(nd.tags), publicUrl.value, user.value))
    ensures var r := UploadRun(user, nd, publicUrl, failing);
            r.1 == Uploaded <==> |r.0| == 2 && 1 !in failing
  {
  }

  /** The upload card's state. */
  class UploadForm {
    var newDesign: NewDesign
    var uploading: bool
    var showUploadCard: bool

    constructor ()
      ensures newDesign == EmptyDesign() && !uploading && !showUploadCard
    {
      newDesign := EmptyDesign();
      uploading := false;
      showUploadCard := false;
    }

    /** `handleUploadDesign`. The guards return before anything happens; past them
        every step can end the upload, after which `uploading` is false. Only an added
        design closes the card and empties the form. */
    method UploadDesign(user: Option<string>, publicUrl: Option<string>, failing: set<nat>)
      returns (log: seq<VendorCall>, outcome: UploadOutcome)
      modifies this
      ensures (log, outcome) == UploadRun(user, old(newDesign), publicUrl, failing)
      ensures outcome.UploadStopped? ==> unchanged(this)
      ensures outcome == Uploaded ==> newDesign == EmptyDesign() && !showUploadCard
      ensures !outcome.UploadStopped? && outcome != Uploaded ==>
                newDesign == old(newDesign) && showUploadCard == old(showUploadCard)
      ensures !outcome.UploadStopped? ==> !uploading
    {
      log := [];
      if user.None? {
        outcome := UploadStopped(NoUser);
        return;
      }
      if newDesign.title == "" || newDesign.category == "" || newDesign.imageFile.None? {
        outcome := UploadStopped(MissingFields);
        return;
      }
      var tagsArray := ParseTags(newDesign.tags);
      ghost var plan := UploadPlan(user.value, newDesign, publicUrl.GetOr(""));
      uploading := true;
      log := [StoreDesignImage(user.value, newDesign.imageFile.value)];
      assert log == plan[..1];
      if 0 in failing {
        outcome := UploadFailed(0);
        uploading := false;
        return;
      }
      if publicUrl.None? || publicUrl.value == "" {
        outcome := NoPublicUrl;
        uploading := false;
        return;
      }
      log := log + [InsertDesign(DesignRow(newDesign.title, newDesign.category, tagsArray, publicUrl.value, user.value))];
      assert log == plan;
      if 1 in failing {
        outcome := UploadFailed(1);
        uploading := false;
        return;
      }
      outcome := Uploaded;
      showUploadCard := false;
      newDesign := EmptyDesign();
      uploading := false;
    }
  }
}
