/** The dialog in which a signed-in user turns a chosen design into a painting request:
    +/- counters per room type, an optional length and breadth for every room, a
    required dimension image, a live estimate, and the submit handler with its guards,
    its upload and insert, and the form reset. */
module RequestDialog {
  import opened Common
  import opened Records
  import opened RoomCounts
  import opened Pricing
  import Cart

  /** A `painting_designs` row as the dialog receives it. */
  datatype Design = Design(id: string, title: string, imageUrl: string, vendorId: string)

  /** The two dimension inputs, already read as numbers; `None` is an empty input. A
      typed "0" is a non-empty string, so it is `Some(0.0)`. */
  datatype DialogDims = DialogDims(length: Option<real>, breadth: Option<real>)

  /** The `dimensions` column of a request: both numbers, or null. */
  datatype Dimensions = Dimensions(length: real, breadth: real)

  /** The request row the dialog inserts. */
  datatype DialogRow = DialogRow(
    userId: string,
    vendorId: string,
    roomTypes: Counts,
    dimensions: Option<Dimensions>,
    estimatedCost: real,
    dimensionImage: string)

  /** The backend calls of a submit, in order: the image upload into the user's folder
      of the `dimensions` bucket, then the request insert. */
  datatype DialogCall =
    | UploadDimensionImage(userId: string, file: File)
    | InsertRequest(row: DialogRow)

  /** Why a submit returned before calling the backend, in the order it checks. */
  datatype Stop = NotSignedIn | NoDesign | NoRooms | NoImage

  /** How a submit ended: stopped by a guard, the call at position `at` failed, or the
      request was created. */
  datatype SubmitOutcome = Stopped(reason: Stop) | Failed(at: nat) | Created

  /** Both inputs are non-empty (`dimensions.length && dimensions.breadth`). */
  predicate BothGiven(d: DialogDims) {
    d.length.Some? && d.breadth.Some?
  }

  /** The room area of the estimate: length x breadth when both inputs are filled in,
      otherwise 100. */
  function DialogArea(d: DialogDims): real {
    if BothGiven(d) then d.length.value * d.breadth.value else 100.0
  }

  /** `calculateEstimatedCost`: every room type with a positive count, a category and a
      pricing row adds price x area x count. */
  function EstimatedCost(cats: seq<Category>, pricing: seq<PricingRow>, rooms: Counts, d: DialogDims): real {
    RoomsCost(cats, pricing, rooms, DialogArea(d))
  }

  /** `selectedRooms`: the entries of the room counts with a positive count. */
  function SelectedRooms(rooms: Counts): Counts {
    FilterValues(IsPositive, rooms)
  }

  /** `selectedRooms` keeps exactly the entries with a positive count, in order, and
      pricing it gives the same estimate as pricing every entry. */
  lemma SelectedRoomsSpec(cats: seq<Category>, pricing: seq<PricingRow>, rooms: Counts, d: DialogDims)
    ensures forall i :: 0 <= i < |SelectedRooms(rooms)| ==> SelectedRooms(rooms)[i] in rooms && SelectedRooms(rooms)[i].1 > 0
    ensures forall i :: 0 <= i < |rooms| && rooms[i].1 > 0 ==> rooms[i] in SelectedRooms(rooms)
    ensures IsSubseq(SelectedRooms(rooms), rooms)
    ensures RoomsCost(cats, pricing, SelectedRooms(rooms), DialogArea(d)) == EstimatedCost(cats, pricing, rooms, d)
  {
    FilterValuesIsSubseq(IsPositive, rooms);
    RoomsCostOfPositive(cats, pricing, rooms, DialogArea(d));
  }

  /** No room is selected exactly when no count is positive. */
  lemma NoSelectedRooms(rooms: Counts)
    ensures SelectedRooms(rooms) == [] <==> forall i :: 0 <= i < |rooms| ==> rooms[i].1 <= 0
  {
    var s := SelectedRooms(rooms);
    if s != [] {
      assert s[0] in rooms && s[0].1 > 0;
    }
  }

  /** `requestDimensions`: the typed numbers when both inputs are filled in, else null. */
  function RequestDims(d: DialogDims): (r: Option<Dimensions>)
    ensures r.Some? <==> BothGiven(d)
    ensures r.Some? ==> Some(r.value.length) == d.length && Some(r.value.breadth) == d.breadth
  {
    if BothGiven(d) then Some(Dimensions(d.length.value, d.breadth.value)) else None
  }

  /** The guards of `handleSubmit`, in the order they run: a signed-in user, then a
      design, then at least one room with a positive count, then a dimension image. */
  function SubmitGuard(user: Option<string>, design: Option<Design>, rooms: Counts, image: Option<File>): Option<Stop> {
    if user.None? then Some(NotSignedIn)
    else if design.None? then Some(NoDesign)
    else if |Keys(SelectedRooms(rooms))| == 0 then Some(NoRooms)
    else if image.None? then Some(NoImage)
    else None
  }

  /** A submit gets past the guards exactly when there is a user, a design, a positive
      room count and an image; each guard fires only when every earlier one passed. */
  lemma SubmitGuardSpec(user: Option<string>, design: Option<Design>, rooms: Counts, image: Option<File>)
    ensures SubmitGuard(user, design, rooms, image).None? <==>
              user.Some? && design.Some? && image.Some? && exists i :: 0 <= i < |rooms| && rooms[i].1 > 0
    ensures SubmitGuard(user, design, rooms, image) == Some(NoDesign) <==> user.Some? && design.None?
    ensures SubmitGuard(user, design, rooms, image) == Some(NoRooms) <==>
              user.Some? && design.Some? && forall i :: 0 <= i < |rooms| ==> rooms[i].1 <= 0
    ensures SubmitGuard(user, design, rooms, image) == Some(NoImage) <==>
              user.Some? && design.Some? && image.None? && exists i :: 0 <= i < |rooms| && rooms[i].1 > 0
  {
    NoSelectedRooms(rooms);
  }

  /** The row a submit that got past the guards inserts: the user, the design's vendor,
      the selected rooms, the dimensions or null, the estimate over all the room counts
      and the uploaded image's URL. */
  function RowFor(userId: string, design: Design, cats: seq<Category>, pricing: seq<PricingRow>,
                  rooms: Counts, d: DialogDims, imageUrl: string): DialogRow {
    DialogRow(userId, design.vendorId, SelectedRooms(rooms), RequestDims(d), EstimatedCost(cats, pricing, rooms, d), imageUrl)
  }

  /** Of the two calls of a submit, the first failing one. */
  lemma FailIndexOfTwo(failing: set<nat>)
    ensures FailIndex(failing, 2) == if 0 in failing then 0 else if 1 in failing then 1 else 2
  {
    assert FailIndex(failing, 1) == if 0 in failing then 0 else 1;
  }

  /** What one submit does on the dialog's state, with the calls at the positions in
      `failing` failing and `imageUrl` the public URL storage gives the upload. */
  function SubmitRun(user: Option<string>, design: Option<Design>, cats: seq<Category>, pricing: seq<PricingRow>,
                     rooms: Counts, d: DialogDims, image: Option<File>, imageUrl: string, failing: set<nat>)
    : (seq<DialogCall>, SubmitOutcome)
  {
    var stop := SubmitGuard(user, design, rooms, image);
    if stop.Some? then ([], Stopped(stop.value))
    else
      var plan := [UploadDimensionImage(user.value, image.value),
                   InsertRequest(RowFor(user.value, design.value, cats, pricing, rooms, d, imageUrl))];
      var k := FailIndex(failing, |plan|);
      if k == |plan| then (plan, Created) else (plan[..k + 1], Failed(k))
  }

  /** A stopped submit calls nothing; otherwise the image is uploaded first, and a
      request is created exactly when neither call fails. The request carries the
      design's vendor, only the rooms with a positive count, null dimensions unless both
      were typed, and the estimate shown in the dialog. */
  lemma SubmitRunSpec(user: Option<string>, design: Option<Design>, cats: seq<Category>, pricing: seq<PricingRow>,
                      rooms: Counts, d: DialogDims, image: Option<File>, imageUrl: string, failing: set<nat>)
    ensures var (log, outcome) := SubmitRun(user, design, cats, pricing, rooms, d, image, imageUrl, failing);
            (outcome.Stopped? <==> SubmitGuard(user, design, rooms, image).Some?) &&
            (outcome.Stopped? ==> log == []) &&
            (!outcome.Stopped? ==> log != [] && log[0] == UploadDimensionImage(user.value, image.value)) &&
            (outcome == Created <==> !outcome.Stopped? && 0 !in failing && 1 !in failing) &&
            (outcome == Failed(0) <==> !outcome.Stopped? && 0 in failing) &&
            (outcome == Created ==>
               |log| == 2 && log[1].InsertRequest? &&
               log[1].row.vendorId == design.value.vendorId &&
               log[1].row.roomTypes == SelectedRooms(rooms) &&
               (log[1].row.dimensions.Some? <==> BothGiven(d)) &&
               log[1].row.estimatedCost == EstimatedCost(cats, pricing, rooms, d) &&
               log[1].row.userId == user.value &&
               log[1].row.dimensionImage == imageUrl)
  {
    FailIndexOfTwo(failing);
  }

  /** The `selectedDesign` the user dashboard hands the dialog: its only call site
      leaves the prop out, so it is undefined, and the dialog never loads designs of
      its own. */
  function DashboardDesign(): Option<Design> {
    None
  }

  /** As written, every submit a signed-in user makes from the dashboard stops at the
      design guard, whatever the form holds: nothing is uploaded or inserted. */
  lemma DashboardSubmitStops(userId: string, cats: seq<Category>, pricing: seq<PricingRow>,
                             rooms: Counts, d: DialogDims, image: Option<File>, imageUrl: string, failing: set<nat>)
    ensures SubmitRun(Some(userId), DashboardDesign(), cats, pricing, rooms, d, image, imageUrl, failing) ==
              ([], Stopped(NoDesign))
  {
  }

  /** The dashboard passing the design the user chose, as the dialog's props demand. */
  function CorrectedDashboardDesign(chosen: Design): Option<Design> {
    Some(chosen)
  }

  /** With the chosen design passed, a signed-in user with a positive room count and an
      image gets past every guard; when no call fails the request is created for that
      design's vendor. */
  lemma CorrectedDashboardSubmits(userId: string, chosen: Design, cats: seq<Category>, pricing: seq<PricingRow>,
                                  rooms: Counts, d: DialogDims, file: File, imageUrl: string, i: nat)
    requires i < |rooms| && rooms[i].1 > 0
    ensures var (log, outcome) := SubmitRun(Some(userId), CorrectedDashboardDesign(chosen), cats, pricing,
                                            rooms, d, Some(file), imageUrl, {});
            outcome == Created && |log| == 2 && log[1].InsertRequest? && log[1].row.vendorId == chosen.vendorId
  {
    SubmitGuardSpec(Some(userId), CorrectedDashboardDesign(chosen), rooms, Some(file));
    SubmitRunSpec(Some(userId), CorrectedDashboardDesign(chosen), cats, pricing, rooms, d, Some(file), imageUrl, {});
  }

  /** The dialog's room area against the cart's: they agree when nothing was typed
      (both price 10 x 10) and when both sides were typed and non-zero; they part when
      only one side is typed (the dialog falls back to 100, the cart to that side x 10)
      and when a side is typed as 0 (the dialog multiplies by it, the cart replaces it
      by 10). */
  lemma DialogAgainstCartArea(l: real, b: real)
    requires l != 0.0 && b != 0.0
    ensures DialogArea(DialogDims(None, None)) == Cart.CartArea(Cart.CartDims(None, None)) == 100.0
    ensures DialogArea(DialogDims(Some(l), Some(b))) == Cart.CartArea(Cart.CartDims(Some(l), Some(b))) == l * b
    ensures DialogArea(DialogDims(Some(l), None)) == 100.0
    ensures Cart.CartArea(Cart.CartDims(Some(l), None)) == l * 10.0
    ensures DialogArea(DialogDims(Some(0.0), Some(b))) == 0.0
    ensures Cart.CartArea(Cart.CartDims(Some(0.0), Some(b))) == 10.0 * b != 0.0
  {
  }

  /** The dialog's state. */
  class DialogState {
    var categories: seq<Category>
    var pricing: seq<PricingRow>
    var roomCounts: Counts
    var dimensions: DialogDims
    var loading: bool
    var imageFile: Option<File>
    var imagePreview: string

    /** The dialog as first rendered: nothing selected, nothing loading. */
    constructor ()
      ensures categories == [] && pricing == [] && roomCounts == []
      ensures dimensions == DialogDims(None, None) && !loading && imageFile.None? && imagePreview == ""
    {
      categories := [];
      pricing := [];
      roomCounts := [];
      dimensions := DialogDims(None, None);
      loading := false;
      imageFile := None;
      imagePreview := "";
    }

    /** `updateRoomCount`: the counter of `roomType` moves by `change`, clamped at 0. */
    method UpdateRoomCount(roomType: string, change: int)
      modifies this`roomCounts
      ensures roomCounts == Bump(old(roomCounts), roomType, change)
    {
      roomCounts := Bump(roomCounts, roomType, change);
    }

    /** The length input's `onChange`. */
    method SetLength(value: Option<real>)
      modifies this`dimensions
      ensures dimensions == old(dimensions).(length := value)
    {
      dimensions := dimensions.(length := value);
    }

    /** The breadth input's `onChange`. */
    method SetBreadth(value: Option<real>)
      modifies this`dimensions
      ensures dimensions == old(dimensions).(breadth := value)
    {
      dimensions := dimensions.(breadth := value);
    }

    /** `handleDimensionImageChange`: a picked file is kept with its object URL as the
        preview; an empty pick changes nothing. */
    method HandleDimensionImageChange(file: Option<File>, objectUrl: string)
      modifies this`imageFile, this`imagePreview
      ensures file.Some? ==> imageFile == file && imagePreview == objectUrl
      ensures file.None? ==> imageFile == old(imageFile) && imagePreview == old(imagePreview)
    {
      if file.Some? {
        imageFile := file;
        imagePreview := objectUrl;
      }
    }

    /** `calculateEstimatedCost`: walks the room counts in entry order, adding
        price x area x count for each priced room type with a positive count. */
    method CalculateEstimatedCost() returns (total: real)
      ensures total == EstimatedCost(categories, pricing, roomCounts, dimensions)
    {
      var entries := roomCounts;
      total := 0.0;
      var k := 0;
      while k < |entries|
        invariant 0 <= k <= |entries|
        invariant total == RoomsCost(categories, pricing, entries[..k], DialogArea(dimensions))
      {
        var (roomType, count) := entries[k];
        RoomsCostStep(categories, pricing, entries, k, DialogArea(dimensions));
        if count > 0 {
          var category := FindCategory(categories, roomType);
          if category.Some? {
            var priceInfo := FindPricing(pricing, category.value.id);
            if priceInfo.Some? {
              var roomArea := if dimensions.length.Some? && dimensions.breadth.Some?
                              then dimensions.length.value * dimensions.breadth.value else 100.0;
              total := total + priceInfo.value.priceValue * roomArea * count as real;
            }
          }
        }
        k := k + 1;
      }
      assert entries[..k] == entries;
    }

    /** `resetForm`: no rooms, empty dimensions, no image, no preview. */
    method ResetForm()
      modifies this`roomCounts, this`dimensions, this`imageFile, this`imagePreview
      ensures roomCounts == [] && dimensions == DialogDims(None, None) && imageFile.None? && imagePreview == ""
    {
      roomCounts := [];
      dimensions := DialogDims(None, None);
      imageFile := None;
      imagePreview := "";
    }

    /** `handleSubmit`. The guards return before anything else happens; past them the
        image is uploaded, then the request inserted, and the first failing call ends the
        submit (`failing` holds the positions of the calls that fail, `imageUrl` is the
        upload's public URL). Only a created request resets the form; `loading` is false
        at the end of every submit that got past the guards. */
    method Submit(user: Option<string>, design: Option<Design>, imageUrl: string, failing: set<nat>)
      returns (log: seq<DialogCall>, outcome: SubmitOutcome)
      modifies this
      ensures (log, outcome) == SubmitRun(user, design, old(categories), old(pricing), old(roomCounts),
                                          old(dimensions), old(imageFile), imageUrl, failing)
      ensures outcome.Stopped? ==> unchanged(this)
      ensures outcome == Created ==>
                roomCounts == [] && dimensions == DialogDims(None, None) && imageFile.None? && imagePreview == ""
      ensures outcome.Failed? ==>
                roomCounts == old(roomCounts) && dimensions == old(dimensions) &&
                imageFile == old(imageFile) && imagePreview == old(imagePreview)
      ensures !outcome.Stopped? ==> !loading
      ensures categories == old(categories) && pricing == old(pricing)
    {
      log := [];
      if user.None? {
        outcome := Stopped(NotSignedIn);
        return;
      }
      var selectedRooms := SelectedRooms(roomCounts);
      if design.None? {
        outcome := Stopped(NoDesign);
        return;
      }
      if |Keys(selectedRooms)| == 0 {
        outcome := Stopped(NoRooms);
        return;
      }
      if imageFile.None? {
        outcome := Stopped(NoImage);
        return;
      }
      FailIndexOfTwo(failing);
      ghost var plan := [UploadDimensionImage(user.value, imageFile.value),
                         InsertRequest(RowFor(user.value, design.value, categories, pricing, roomCounts, dimensions, imageUrl))];
      assert SubmitGuard(user, design, roomCounts, imageFile).None?;
      loading := true;
      log := [UploadDimensionImage(user.value, imageFile.value)];
      if 0 in failing {
        outcome := Failed(0);
        assert log == plan[..1];
        loading := false;
        return;
      }
      var estimatedCost := CalculateEstimatedCost();
      var row := DialogRow(user.value, design.value.vendorId, selectedRooms, RequestDims(dimensions), estimatedCost, imageUrl);
      log := log + [InsertRequest(row)];
      assert log == plan[..2] == plan;
      if 1 in failing {
        outcome := Failed(1);
        loading := false;
        return;
      }
      outcome := Created;
      ResetForm();
      loading := false;
    }
  }
}
