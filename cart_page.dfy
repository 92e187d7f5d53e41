/** The cart page: one cart item per chosen design, with a room-count object, typed
    dimensions and an optional dimension image per item; the price of each item and of
    the cart; removing an item; and the checkout, which turns every item that has room
    entries into a painting request and deletes that cart item, stopping at the first
    backend error. */
module Cart {
  import opened Common
  import opened Records
  import opened RoomCounts
  import opened Pricing

  /** A `cart_items` row joined with its design. `vendorId` is `None` when the design
      carries no vendor (undefined). */
  datatype CartItem = CartItem(id: string, designId: string, designTitle: string, vendorId: Option<string>)

  /** The length and breadth typed for one item, already read as numbers; `None` is a
      field that was never typed or is empty. */
  datatype CartDims = CartDims(length: Option<real>, breadth: Option<real>)

  datatype DimField = Length | Breadth

  /** The per-item selections the price and the checkout read: `roomCounts`,
      `dimensions` and `dimensionImages`. */
  datatype Selections = Selections(
    roomCounts: Record<Counts>,
    dimensions: Record<CartDims>,
    images: Record<Option<File>>)

  /** A request row written by the checkout. `dimensionImage` is `None` when the
      property is undefined, so that the insert leaves the column out. */
  datatype RequestRow = RequestRow(
    userId: string,
    vendorId: Option<string>,
    roomTypes: Counts,
    dimensions: CartDims,
    estimatedCost: real,
    dimensionImage: Option<string>)

  /** The backend calls the page makes, in the order it makes them. */
  datatype Call =
    | UploadDimension(itemId: string, file: File)
    | InsertRequest(row: RequestRow)
    | DeleteCartItem(itemId: string)

  /** How a checkout ended: no signed-in user (nothing done), every call succeeded, or
      the call at position `at` of the plan failed. */
  datatype Outcome = NoUser | Complete | Failed(at: nat)

  /** `roomCounts[itemId] || {}`. */
  function RoomsOf(rc: Record<Counts>, itemId: string): Counts {
    Get(rc, itemId).GetOr([])
  }

  /** `dimensionImages[itemId] || null`. */
  function ImageOf(images: Record<Option<File>>, itemId: string): Option<File> {
    match Get(images, itemId)
    case None => None
    case Some(f) => f
  }

  // ---------------------------------------------------------------- room counts

  /** `handleRoomChange`: the (item, room type) counter moves by `change`, clamped at 0. */
  function ApplyRoomChange(rc: Record<Counts>, itemId: string, roomType: string, change: int): (r: Record<Counts>)
    ensures CountOf(RoomsOf(r, itemId), roomType) == Max(0, CountOf(RoomsOf(rc, itemId), roomType) + change)
    ensures forall other :: other != itemId ==> Get(r, other) == Get(rc, other)
    ensures forall room :: room != roomType ==> Get(RoomsOf(r, itemId), room) == Get(RoomsOf(rc, itemId), room)
  {
    Put(rc, itemId, Bump(RoomsOf(rc, itemId), roomType, change))
  }

  predicate AllNonNegative(rc: Record<Counts>) {
    forall i :: 0 <= i < |rc| ==> NonNegative(rc[i].1)
  }

  /** No counter of any item ever goes below zero. */
  lemma RoomChangeNonNegative(rc: Record<Counts>, itemId: string, roomType: string, change: int)
    requires AllNonNegative(rc)
    ensures AllNonNegative(ApplyRoomChange(rc, itemId, roomType, change))
  {
    var rooms := RoomsOf(rc, itemId);
    GetSpec(rc, itemId);
    if Get(rc, itemId).Some? {
      assert (itemId, rooms) in rc;
    }
    BumpNonNegative(rooms, roomType, change);
    PutEntries(rc, itemId, Bump(rooms, roomType, change));
  }

  // ---------------------------------------------------------------- dimensions and image

  function SetField(d: CartDims, field: DimField, value: Option<real>): CartDims {
    match field
    case Length => d.(length := value)
    case Breadth => d.(breadth := value)
  }

  /** `handleDimensionChange`: only the named field of that item changes; an item seen
      for the first time has the other field unset. */
  function ApplyDimensionChange(dims: Record<CartDims>, itemId: string, field: DimField, value: Option<real>): (r: Record<CartDims>)
    ensures Get(r, itemId).Some?
    ensures field == Length ==> Get(r, itemId).value.length == value
    ensures field == Breadth ==> Get(r, itemId).value.breadth == value
    ensures Get(dims, itemId).Some? && field == Length ==> Get(r, itemId).value.breadth == Get(dims, itemId).value.breadth
    ensures Get(dims, itemId).Some? && field == Breadth ==> Get(r, itemId).value.length == Get(dims, itemId).value.length
    ensures Get(dims, itemId).None? && field == Length ==> Get(r, itemId).value.breadth.None?
    ensures Get(dims, itemId).None? && field == Breadth ==> Get(r, itemId).value.length.None?
    ensures forall other :: other != itemId ==> Get(r, other) == Get(dims, other)
  {
    Put(dims, itemId, SetField(Get(dims, itemId).GetOr(CartDims(None, None)), field, value))
  }

  // ---------------------------------------------------------------- price

  /** `parseFloat(side) || 10`: a side that is unset or zero counts as 10, so an item's
      area is never zero. */
  function CartSide(d: Option<real>): (x: real)
    ensures x != 0.0
  {
    if d.None? || d.value == 0.0 then 10.0 else d.value
  }

  /** `dimensions[itemId] || { length: "0", breadth: "0" }`, as the price reads it. */
  function PriceDims(dims: Record<CartDims>, itemId: string): CartDims {
    Get(dims, itemId).GetOr(CartDims(Some(0.0), Some(0.0)))
  }

  function CartArea(d: CartDims): real {
    CartSide(d.length) * CartSide(d.breadth)
  }

  /** The price `calculateItemPrice` shows for one item. */
  function ItemPrice(cats: seq<Category>, pricing: seq<PricingRow>, sel: Selections, itemId: string): real {
    RoomsCost(cats, pricing, RoomsOf(sel.roomCounts, itemId), CartArea(PriceDims(sel.dimensions, itemId)))
  }

  /** `totalPrice`: the item prices added up in cart order. */
  function TotalPrice(cats: seq<Category>, pricing: seq<PricingRow>, sel: Selections, items: seq<CartItem>): real
    decreases |items|
  {
    if items == [] then 0.0
    else TotalPrice(cats, pricing, sel, items[..|items| - 1]) + ItemPrice(cats, pricing, sel, items[|items| - 1].id)
  }

  /** Area defaults: nothing typed prices 10 x 10; one side typed prices that side x 10;
      both typed and non-zero prices length x breadth. */
  lemma CartAreaDefaults(l: real, b: real)
    requires l != 0.0 && b != 0.0
    ensures CartArea(PriceDims([], "")) == 100.0
    ensures CartArea(CartDims(Some(l), None)) == l * 10.0
    ensures CartArea(CartDims(Some(l), Some(0.0))) == l * 10.0
    ensures CartArea(CartDims(Some(l), Some(b))) == l * b
  {
  }

  /** An item without room entries is priced at 0. */
  lemma ItemPriceUnselected(cats: seq<Category>, pricing: seq<PricingRow>, sel: Selections, itemId: string)
    requires RoomsOf(sel.roomCounts, itemId) == []
    ensures ItemPrice(cats, pricing, sel, itemId) == 0.0
  {
  }

  /** A +/- click on one room of one item moves that item's price by the room's cost at
      the new count minus its cost at the old count, and leaves every other item's price
      as it was. */
  lemma RoomChangePrice(cats: seq<Category>, pricing: seq<PricingRow>, sel: Selections, itemId: string, roomType: string, change: int, otherId: string)
    requires otherId != itemId
    ensures var sel' := sel.(roomCounts := ApplyRoomChange(sel.roomCounts, itemId, roomType, change));
            var area := CartArea(PriceDims(sel.dimensions, itemId));
            var before := CountOf(RoomsOf(sel.roomCounts, itemId), roomType);
            ItemPrice(cats, pricing, sel', itemId) ==
              ItemPrice(cats, pricing, sel, itemId)
              - RoomCost(cats, pricing, roomType, before, area)
              + RoomCost(cats, pricing, roomType, Max(0, before + change), area) &&
            ItemPrice(cats, pricing, sel', otherId) == ItemPrice(cats, pricing, sel, otherId)
  {
    var rooms := RoomsOf(sel.roomCounts, itemId);
    var before := CountOf(rooms, roomType);
    RoomsCostPut(cats, pricing, rooms, roomType, Max(0, before + change), CartArea(PriceDims(sel.dimensions, itemId)));
  }

  /** With non-negative prices, no item and no cart is ever priced below 0, whatever
      dimensions are typed (even negative ones make a non-negative area only when both
      are negative, so the bound needs non-negative sides). */
  lemma TotalPriceNonNegative(cats: seq<Category>, pricing: seq<PricingRow>, sel: Selections, items: seq<CartItem>)
    requires forall i :: 0 <= i < |pricing| ==> pricing[i].priceValue >= 0.0
    requires forall i :: 0 <= i < |sel.dimensions| ==>
               CartArea(sel.dimensions[i].1) >= 0.0
    ensures TotalPrice(cats, pricing, sel, items) >= 0.0
    decreases |items|
  {
    if items != [] {
      TotalPriceNonNegative(cats, pricing, sel, items[..|items| - 1]);
      var id := items[|items| - 1].id;
      GetSpec(sel.dimensions, id);
      if Get(sel.dimensions, id).Some? {
        assert (id, Get(sel.dimensions, id).value) in sel.dimensions;
      }
      RoomsCostNonNegative(cats, pricing, RoomsOf(sel.roomCounts, id), CartArea(PriceDims(sel.dimensions, id)));
    }
  }

  // ---------------------------------------------------------------- removing an item

  /** `items.filter(i => i.id !== id)`. */
  function WithoutItem(items: seq<CartItem>, id: string): seq<CartItem> {
    Filter((it: CartItem) => it.id != id, items)
  }

  /** Removing an item keeps every other item, in order, and drops exactly the items
      with that id. */
  lemma WithoutItemSpec(items: seq<CartItem>, id: string)
    ensures IsSubseq(WithoutItem(items, id), items)
    ensures forall i :: 0 <= i < |WithoutItem(items, id)| ==> WithoutItem(items, id)[i].id != id
    ensures forall i :: 0 <= i < |items| && items[i].id != id ==> items[i] in WithoutItem(items, id)
    ensures |WithoutItem(items, id)| + |Filter((it: CartItem) => it.id == id, items)| == |items|
  {
    FilterIsSubseq((it: CartItem) => it.id != id, items);
    FilterComplement((it: CartItem) => it.id != id, (it: CartItem) => it.id == id, items);
  }

  // ---------------------------------------------------------------- checkout

  /** `item.vendor_id || null`: an empty vendor id is stored as null too. */
  function VendorOrNull(v: Option<string>): (r: Option<string>)
    ensures r.Some? <==> v.Some? && v.value != ""
    ensures r.Some? ==> r == v
  {
    if v.Some? && v.value != "" then v else None
  }

  /** `dimensions[item.id] || { length: "", breadth: "" }`, as the checkout stores it. */
  function CheckoutDims(dims: Record<CartDims>, itemId: string): CartDims {
    Get(dims, itemId).GetOr(CartDims(None, None))
  }

  /** What storage's `getPublicUrl` returns: the URL sits under `data`. */
  datatype PublicUrlResponse = PublicUrlResponse(data: PublicUrlData)

  datatype PublicUrlData = PublicUrlData(publicUrl: string)

  /** `const { publicUrl } = response`, as the checkout reads it: the response has no
      property `publicUrl` of its own, only `data`, so the value read is undefined. */
  function TopLevelPublicUrl(response: PublicUrlResponse): Option<string> {
    None
  }

  /** `const { data: { publicUrl } } = response`, as the request dialog and the vendor's
      upload read it. */
  function DataPublicUrl(response: PublicUrlResponse): Option<string> {
    Some(response.data.publicUrl)
  }

  /** What a checkout reads besides the items: the signed-in user, the room categories
      and pricing rows, the selections, and `publicUrl`, the URL storage holds for an
      item's uploaded image (its file name carries the clock). */
  datatype CheckoutEnv = CheckoutEnv(
    userId: string,
    cats: seq<Category>,
    pricing: seq<PricingRow>,
    sel: Selections,
    publicUrl: string -> string)

  /** The `dimension_image` the checkout sends: "" without an image; with one, the
      `publicUrl` read from the top level of `getPublicUrl`'s response. */
  function CheckoutImage(env: CheckoutEnv, item: CartItem): Option<string> {
    if ImageOf(env.sel.images, item.id).Some?
    then TopLevelPublicUrl(PublicUrlResponse(PublicUrlData(env.publicUrl(item.id))))
    else Some("")
  }

  /** The request row the checkout inserts for `item`: the signed-in user, the design's
      vendor or null, the item's room object as it stands, the stored dimensions, the
      item's price and `CheckoutImage`. */
  function RequestFor(env: CheckoutEnv, item: CartItem): RequestRow {
    RequestRow(env.userId, VendorOrNull(item.vendorId), RoomsOf(env.sel.roomCounts, item.id),
               CheckoutDims(env.sel.dimensions, item.id), ItemPrice(env.cats, env.pricing, env.sel, item.id),
               CheckoutImage(env, item))
  }

  /** As written, the checkout uploads an item's image but files the request without
      it: whatever URL storage holds, the inserted row's image is undefined. */
  lemma UploadedImageIsLost(env: CheckoutEnv, item: CartItem)
    requires RoomsOf(env.sel.roomCounts, item.id) != []
    requires ImageOf(env.sel.images, item.id).Some?
    ensures var calls := ItemCalls(env, item);
            |calls| == 3 && calls[0] == UploadDimension(item.id, ImageOf(env.sel.images, item.id).value) &&
            calls[1].InsertRequest? && calls[1].row.dimensionImage == None &&
            calls[1].row.dimensionImage != Some(env.publicUrl(item.id))
  {
  }

  /** The row the checkout should insert: the URL read from under `data`, as the
      request dialog reads it. */
  function CorrectedRequestFor(env: CheckoutEnv, item: CartItem): RequestRow {
    RequestFor(env, item).(dimensionImage :=
      if ImageOf(env.sel.images, item.id).Some?
      then DataPublicUrl(PublicUrlResponse(PublicUrlData(env.publicUrl(item.id))))
      else Some(""))
  }

  /** The corrected row always carries an image: the uploaded image's URL when one was
      picked, "" otherwise; it agrees with the row as written on every other field, and
      entirely for an item without an image. */
  lemma CorrectedRequestKeepsUrl(env: CheckoutEnv, item: CartItem)
    ensures CorrectedRequestFor(env, item).dimensionImage.Some?
    ensures ImageOf(env.sel.images, item.id).Some? ==>
              CorrectedRequestFor(env, item).dimensionImage == Some(env.publicUrl(item.id))
    ensures ImageOf(env.sel.images, item.id).None? ==>
              CorrectedRequestFor(env, item) == RequestFor(env, item) &&
              CorrectedRequestFor(env, item).dimensionImage == Some("")
    ensures var (fixed, asWritten) := (CorrectedRequestFor(env, item), RequestFor(env, item));
            fixed.userId == asWritten.userId && fixed.vendorId == asWritten.vendorId &&
            fixed.roomTypes == asWritten.roomTypes && fixed.dimensions == asWritten.dimensions &&
            fixed.estimatedCost == asWritten.estimatedCost
  {
  }

  /** The calls one checkout iteration makes when none of them fails: nothing for an
      item whose room object has no keys; otherwise the image upload (when an image was
      picked), the request insert and the cart-item delete. */
  function ItemCalls(env: CheckoutEnv, item: CartItem): seq<Call> {
    var file := ImageOf(env.sel.images, item.id);
    if RoomsOf(env.sel.roomCounts, item.id) == [] then []
    else (if file.Some? then [UploadDimension(item.id, file.value)] else []) +
         [InsertRequest(RequestFor(env, item)), DeleteCartItem(item.id)]
  }

  /** What one iteration submits: nothing for an item without room keys; otherwise
      three calls exactly when an image was picked, the last deleting the cart item and
      the one before inserting a request carrying the item's price, its room object and
      the design's vendor or null. */
  lemma ItemCallsShape(env: CheckoutEnv, item: CartItem)
    ensures var calls := ItemCalls(env, item);
            (RoomsOf(env.sel.roomCounts, item.id) == [] <==> calls == []) &&
            (calls != [] ==>
              |calls| >= 2 &&
              (|calls| == 3 <==> ImageOf(env.sel.images, item.id).Some?) &&
              calls[|calls| - 1] == DeleteCartItem(item.id) &&
              calls[|calls| - 2].InsertRequest? &&
              calls[|calls| - 2].row.estimatedCost == ItemPrice(env.cats, env.pricing, env.sel, item.id) &&
              calls[|calls| - 2].row.vendorId == VendorOrNull(item.vendorId) &&
              calls[|calls| - 2].row.roomTypes == RoomsOf(env.sel.roomCounts, item.id) &&
              calls[|calls| - 2].row.userId == env.userId &&
              calls[|calls| - 2].row.dimensions == CheckoutDims(env.sel.dimensions, item.id))
  {
  }

  function CallsFor(env: CheckoutEnv): CartItem -> seq<Call> {
    item => ItemCalls(env, item)
  }

  /** Every call a checkout of `items` makes when none fails, in order. */
  function Plan(env: CheckoutEnv, items: seq<CartItem>): seq<Call> {
    FlatMap(CallsFor(env), items)
  }

  /** The calls a checkout makes and how it ends, when the calls at the positions in
      `failing` fail: the plan up to and including its first failing call. */
  function CheckoutRun(env: CheckoutEnv, items: seq<CartItem>, failing: set<nat>): (seq<Call>, Outcome) {
    var plan := Plan(env, items);
    var k := FailIndex(failing, |plan|);
    if k == |plan| then (plan, Complete) else (plan[..k + 1], Failed(k))
  }

  /** A checkout completes exactly when none of the planned calls fails, and then makes
      every planned call. Otherwise it ends at the first failing call of the plan: what
      it made is the plan up to that call, and every call before it succeeded. */
  lemma CheckoutRunSpec(env: CheckoutEnv, items: seq<CartItem>, failing: set<nat>)
    ensures var (log, outcome) := CheckoutRun(env, items, failing);
            var plan := Plan(env, items);
            (outcome == Complete <==> forall j :: 0 <= j < |plan| ==> j !in failing) &&
            (outcome == Complete ==> log == plan) &&
            (outcome.Failed? ==>
               outcome.at < |plan| && outcome.at in failing && log == plan[..outcome.at + 1] &&
               forall j :: 0 <= j < outcome.at ==> j !in failing)
  {
  }

  /** A run that has made the calls of the items before `i` and then some of the calls
      of item `i`, none failing but the last, has made what `CheckoutRun` says. */
  lemma RunFails(env: CheckoutEnv, items: seq<CartItem>, i: nat, log: seq<Call>, failing: set<nat>)
    requires i < |items|
    requires |Plan(env, items[..i])| < |log| <= |Plan(env, items[..i])| + |ItemCalls(env, items[i])|
    requires log == Plan(env, items[..i]) + ItemCalls(env, items[i])[..|log| - |Plan(env, items[..i])|]
    requires forall j :: 0 <= j < |Plan(env, items[..i])| ==> j !in failing
    requires forall j :: |Plan(env, items[..i])| <= j < |log| - 1 ==> j !in failing
    requires |log| - 1 in failing
    ensures CheckoutRun(env, items, failing) == (log, Failed(|log| - 1))
  {
    FlatMapStops(CallsFor(env), items, i, log, failing);
  }

  /** A run in which no planned call fails makes them all and completes. */
  lemma RunCompletes(env: CheckoutEnv, items: seq<CartItem>, failing: set<nat>)
    requires forall j :: 0 <= j < |Plan(env, items)| ==> j !in failing
    ensures CheckoutRun(env, items, failing) == (Plan(env, items), Complete)
  {
    var k := FailIndex(failing, |Plan(env, items)|);
    assert k < |Plan(env, items)| ==> k in failing;
  }

  lemma Regroup(p: real, l: real, b: real, c: real)
    ensures p * l * b * c == p * (l * b) * c
  {
  }

  /** What `calculateItemPrice` adds for one room entry: nothing for a count that is
      not positive or an unpriced room type, else price x length x breadth x count. */
  lemma CartRoomCost(cats: seq<Category>, pricing: seq<PricingRow>, roomType: string, count: int, l: real, b: real)
    ensures var cat := FindCategory(cats, roomType);
            var price := if cat.Some? then FindPricing(pricing, cat.value.id) else None;
            RoomCost(cats, pricing, roomType, count, l * b) ==
              if count > 0 && price.Some? then price.value.priceValue * l * b * count as real else 0.0
  {
    var u := UnitPrice(cats, pricing, roomType);
    if count > 0 && u.Some? {
      Regroup(u.value, l, b, count as real);
    }
  }

  /** One more room entry adds what `calculateItemPrice` adds for it. */
  lemma CartRoomStep(cats: seq<Category>, pricing: seq<PricingRow>, rooms: Counts, k: nat, l: real, b: real)
    requires k < |rooms|
    ensures var (roomType, count) := rooms[k];
            var cat := FindCategory(cats, roomType);
            var price := if cat.Some? then FindPricing(pricing, cat.value.id) else None;
            RoomsCost(cats, pricing, rooms[..k + 1], l * b) ==
              RoomsCost(cats, pricing, rooms[..k], l * b) +
              (if count > 0 && price.Some? then price.value.priceValue * l * b * count as real else 0.0)
  {
    RoomsCostStep(cats, pricing, rooms, k, l * b);
    CartRoomCost(cats, pricing, rooms[k].0, rooms[k].1, l, b);
  }

  /** The ids of the cart items a complete checkout converts: those with room entries. */
  function ProcessedIds(sel: Selections, items: seq<CartItem>): seq<string>
    decreases |items|
  {
    if items == [] then []
    else
      var last := items[|items| - 1];
      ProcessedIds(sel, items[..|items| - 1]) + (if RoomsOf(sel.roomCounts, last.id) != [] then [last.id] else [])
  }

  /** The ids of the cart items deleted in a call log, in order. */
  function DeletedIds(calls: seq<Call>): seq<string>
    decreases |calls|
  {
    if calls == [] then []
    else DeletedIds(calls[..|calls| - 1]) +
         (if calls[|calls| - 1].DeleteCartItem? then [calls[|calls| - 1].itemId] else [])
  }

  /** The estimated costs of the requests inserted in a call log, added up. */
  function InsertedCost(calls: seq<Call>): real
    decreases |calls|
  {
    if calls == [] then 0.0
    else InsertedCost(calls[..|calls| - 1]) +
         (if calls[|calls| - 1].InsertRequest? then calls[|calls| - 1].row.estimatedCost else 0.0)
  }

  lemma {:induction false} LogAppend(a: seq<Call>, b: seq<Call>)
    ensures DeletedIds(a + b) == DeletedIds(a) + DeletedIds(b)
    ensures InsertedCost(a + b) == InsertedCost(a) + InsertedCost(b)
    decreases |b|
  {
    if b == [] {
      assert a + b == a;
    } else {
      assert (a + b)[..|a + b| - 1] == a + b[..|b| - 1];
      LogAppend(a, b[..|b| - 1]);
    }
  }

  lemma ItemCallsLog(env: CheckoutEnv, item: CartItem)
    ensures DeletedIds(ItemCalls(env, item)) == (if RoomsOf(env.sel.roomCounts, item.id) != [] then [item.id] else [])
    ensures InsertedCost(ItemCalls(env, item)) == ItemPrice(env.cats, env.pricing, env.sel, item.id)
  {
    var calls := ItemCalls(env, item);
    ItemCallsShape(env, item);
    if calls != [] {
      var n := |calls|;
      assert calls == calls[..n - 2] + [calls[n - 2]] + [calls[n - 1]];
      LogAppend(calls[..n - 2], [calls[n - 2]]);
      LogAppend(calls[..n - 2] + [calls[n - 2]], [calls[n - 1]]);
      assert [calls[n - 2]][..0] == [] && [calls[n - 1]][..0] == [];
      if n == 3 {
        assert calls[..1] == [calls[0]] && [calls[0]][..0] == [];
        assert calls[0].UploadDimension?;
      } else {
        assert calls[..n - 2] == [];
      }
    }
  }

  /** A complete checkout deletes exactly the cart items that have room entries, each
      once and in cart order, and the requests it inserts add up to the cart total shown
      on the page (items without room entries are priced at 0). */
  lemma {:induction false} CheckoutTotals(env: CheckoutEnv, items: seq<CartItem>)
    ensures DeletedIds(Plan(env, items)) == ProcessedIds(env.sel, items)
    ensures InsertedCost(Plan(env, items)) == TotalPrice(env.cats, env.pricing, env.sel, items)
    decreases |items|
  {
    if items != [] {
      var n := |items| - 1;
      CheckoutTotals(env, items[..n]);
      FlatMapStep(CallsFor(env), items, n);
      assert items[..n + 1] == items;
      LogAppend(Plan(env, items[..n]), ItemCalls(env, items[n]));
      ItemCallsLog(env, items[n]);
    }
  }

  /** The skip test looks at keys only: an item whose counters were all brought back to
      0 still has keys, so the checkout files a request for it, at a cost of 0. */
  lemma ZeroCountItemIsSubmitted(env: CheckoutEnv, item: CartItem, room: string)
    requires env.sel == Selections([(item.id, [(room, 0)])], [], [])
    ensures ItemCalls(env, item) ==
            [InsertRequest(RequestRow(env.userId, VendorOrNull(item.vendorId), [(room, 0)], CartDims(None, None), 0.0, Some(""))),
             DeleteCartItem(item.id)]
  {
    var sel := env.sel;
    assert RoomsOf(sel.roomCounts, item.id) == [(room, 0)];
    assert [(room, 0)][..0] == [];
    RoomsCostCons(env.cats, env.pricing, [(room, 0)], CartArea(PriceDims(sel.dimensions, item.id)));
    assert [(room, 0)][1..] == [];
    assert ImageOf(sel.images, item.id).None?;
    assert CheckoutDims(sel.dimensions, item.id) == CartDims(None, None);
  }

  /** The cart page's state. */
  class CartPage {
    var items: seq<CartItem>
    var loading: bool
    var removingId: Option<string>
    var categories: seq<Category>
    var pricing: seq<PricingRow>
    var roomCounts: Record<Counts>
    var dimensions: Record<CartDims>
    var dimensionImages: Record<Option<File>>
    var dimensionPreviews: Record<string>

    /** The page as first rendered: empty, loading, nothing being removed. */
    constructor ()
      ensures items == [] && loading && removingId.None?
      ensures categories == [] && pricing == []
      ensures roomCounts == [] && dimensions == [] && dimensionImages == [] && dimensionPreviews == []
    {
      items := [];
      loading := true;
      removingId := None;
      categories := [];
      pricing := [];
      roomCounts := [];
      dimensions := [];
      dimensionImages := [];
      dimensionPreviews := [];
    }

    function Selected(): Selections
      reads this`roomCounts, this`dimensions, this`dimensionImages
    {
      Selections(roomCounts, dimensions, dimensionImages)
    }

    /** `removeItem`: the delete call is made; only when it succeeds is the item dropped
        from the list. The room counts and dimensions of the item are kept. */
    method RemoveItem(id: string, deleteFails: bool) returns (call: Call)
      modifies this
      ensures call == DeleteCartItem(id)
      ensures items == if deleteFails then old(items) else WithoutItem(old(items), id)
      ensures removingId.None?
      ensures loading == old(loading) && categories == old(categories) && pricing == old(pricing)
      ensures Selected() == old(Selected()) && dimensionPreviews == old(dimensionPreviews)
    {
      removingId := Some(id);
      call := DeleteCartItem(id);
      if !deleteFails {
        items := WithoutItem(items, id);
      }
      removingId := None;
    }

    /** `handleRoomChange`. */
    method HandleRoomChange(itemId: string, roomType: string, change: int)
      modifies this
      ensures roomCounts == ApplyRoomChange(old(roomCounts), itemId, roomType, change)
      ensures items == old(items) && loading == old(loading) && removingId == old(removingId)
      ensures categories == old(categories) && pricing == old(pricing)
      ensures dimensions == old(dimensions) && dimensionImages == old(dimensionImages)
      ensures dimensionPreviews == old(dimensionPreviews)
    {
      roomCounts := ApplyRoomChange(roomCounts, itemId, roomType, change);
    }

    /** `handleDimensionChange`. */
    method HandleDimensionChange(itemId: string, field: DimField, value: Option<real>)
      modifies this
      ensures dimensions == ApplyDimensionChange(old(dimensions), itemId, field, value)
      ensures items == old(items) && loading == old(loading) && removingId == old(removingId)
      ensures categories == old(categories) && pricing == old(pricing)
      ensures roomCounts == old(roomCounts) && dimensionImages == old(dimensionImages)
      ensures dimensionPreviews == old(dimensionPreviews)
    {
      dimensions := ApplyDimensionChange(dimensions, itemId, field, value);
    }

    /** `handleImageChange`: the file is recorded, and the preview is the object URL the
        browser made for it (`objectUrl`), or "" when the file was cleared. */
    method HandleImageChange(itemId: string, file: Option<File>, objectUrl: string)
      modifies this
      ensures dimensionImages == Put(old(dimensionImages), itemId, file)
      ensures dimensionPreviews == Put(old(dimensionPreviews), itemId, if file.Some? then objectUrl else "")
      ensures items == old(items) && loading == old(loading) && removingId == old(removingId)
      ensures categories == old(categories) && pricing == old(pricing)
      ensures roomCounts == old(roomCounts) && dimensions == old(dimensions)
    {
      dimensionImages := Put(dimensionImages, itemId, file);
      dimensionPreviews := Put(dimensionPreviews, itemId, if file.Some? then objectUrl else "");
    }

    /** `calculateItemPrice`: walks the item's room entries in order and adds
        price x length x breadth x count for each priced room with a positive count. */
    method CalculateItemPrice(itemId: string) returns (total: real)
      ensures total == ItemPrice(categories, pricing, Selected(), itemId)
    {
      var cats, prices := categories, pricing;
      var rooms := RoomsOf(roomCounts, itemId);
      var dim := PriceDims(dimensions, itemId);
      var length := CartSide(dim.length);
      var breadth := CartSide(dim.breadth);
      total := 0.0;
      var k := 0;
      while k < |rooms|
        invariant 0 <= k <= |rooms|
        invariant total == RoomsCost(cats, prices, rooms[..k], length * breadth)
      {
        var (roomType, count) := rooms[k];
        CartRoomStep(cats, prices, rooms, k, length, breadth);
        if count > 0 {
          var cat := FindCategory(cats, roomType);
          if cat.Some? {
            var priceInfo := FindPricing(prices, cat.value.id);
            if priceInfo.Some? {
              total := total + priceInfo.value.priceValue * length * breadth * count as real;
            }
          }
        }
        k := k + 1;
      }
      assert rooms[..k] == rooms;
      assert Selected().roomCounts == roomCounts && Selected().dimensions == dimensions;
      assert CartArea(PriceDims(dimensions, itemId)) == length * breadth;
    }

    /** The checkout's view of the page for the signed-in user `userId`. */
    function Env(userId: string, publicUrl: string -> string): CheckoutEnv
      reads this`categories, this`pricing, this`roomCounts, this`dimensions, this`dimensionImages
    {
      CheckoutEnv(userId, categories, pricing, Selected(), publicUrl)
    }

    /** One pass of the checkout loop for `item`, continuing the call log `log0`: an
        item whose room object has no keys is skipped (`continue`); otherwise the image
        is uploaded when one was picked, then the request is inserted and the cart item
        deleted, and the first failing call ends the pass (`throw`). */
    method CheckoutItem(userId: string, item: CartItem, publicUrl: string -> string, failing: set<nat>, log0: seq<Call>)
      returns (log: seq<Call>, failed: bool)
      ensures var calls := ItemCalls(Env(userId, publicUrl), item);
              (!failed ==> log == log0 + calls && forall j :: |log0| <= j < |log| ==> j !in failing) &&
              (failed ==> |log0| < |log| <= |log0| + |calls| && log == log0 + calls[..|log| - |log0|] &&
                          |log| - 1 in failing && forall j :: |log0| <= j < |log| - 1 ==> j !in failing)
    {
      ghost var calls := ItemCalls(Env(userId, publicUrl), item);
      log := log0;
      failed := false;
      var rooms := RoomsOf(roomCounts, item.id);
      if |Keys(rooms)| == 0 {
        return;
      }
      var file := ImageOf(dimensionImages, item.id);
      var imageUrl := Some("");
      if file.Some? {
        log := log + [UploadDimension(item.id, file.value)];
        assert log == log0 + calls[..1];
        if |log| - 1 in failing {
          failed := true;
          return;
        }
        imageUrl := TopLevelPublicUrl(PublicUrlResponse(PublicUrlData(publicUrl(item.id))));
      }
      var cost := CalculateItemPrice(item.id);
      var row := RequestRow(userId, VendorOrNull(item.vendorId), rooms, CheckoutDims(dimensions, item.id), cost, imageUrl);
      assert row == RequestFor(Env(userId, publicUrl), item);
      log := log + [InsertRequest(row)];
      assert log == log0 + calls[..|calls| - 1];
      if |log| - 1 in failing {
        failed := true;
        return;
      }
      log := log + [DeleteCartItem(item.id)];
      assert log == log0 + calls;
      failed := |log| - 1 in failing;
    }

    /** The loop of `handleCheckout` for the signed-in user `userId`: the calls of the
        plan are made in order until one fails (`failing` holds the positions of the
        calls that fail); `failed` tells whether the loop was left by an error. */
    method SubmitItems(userId: string, its: seq<CartItem>, publicUrl: string -> string, failing: set<nat>)
      returns (log: seq<Call>, outcome: Outcome)
      ensures (log, outcome) == CheckoutRun(Env(userId, publicUrl), its, failing)
    {
      ghost var env := Env(userId, publicUrl);
      log := [];
      outcome := Complete;
      var i := 0;
      while i < |its|
        invariant 0 <= i <= |its|
        invariant log == Plan(env, its[..i])
        invariant forall j :: 0 <= j < |log| ==> j !in failing
      {
        FlatMapStep(CallsFor(env), its, i);
        var failed;
        log, failed := CheckoutItem(userId, its[i], publicUrl, failing, log);
        if failed {
          RunFails(env, its, i, log, failing);
          outcome := Failed(|log| - 1);
          return;
        }
        i := i + 1;
      }
      assert its[..i] == its;
      RunCompletes(env, its, failing);
    }

    /** `handleCheckout`. Without a user nothing happens. Otherwise the items are
        submitted (`SubmitItems`): items converted before a failure stay converted, and
        the local cart state is cleared only when every call succeeded. `loading` is
        false at the end either way. */
    method HandleCheckout(user: Option<string>, publicUrl: string -> string, failing: set<nat>)
      returns (log: seq<Call>, outcome: Outcome)
      modifies this
      ensures user.None? ==> log == [] && outcome == NoUser && unchanged(this)
      ensures user.Some? ==> (log, outcome) == CheckoutRun(old(Env(user.value, publicUrl)), old(items), failing)
      ensures user.Some? && outcome == Complete ==>
                items == [] && roomCounts == [] && dimensions == [] &&
                dimensionImages == [] && dimensionPreviews == []
      ensures user.Some? && outcome != Complete ==>
                items == old(items) && Selected() == old(Selected()) && dimensionPreviews == old(dimensionPreviews)
      ensures user.Some? ==>
                !loading && removingId == old(removingId) && categories == old(categories) && pricing == old(pricing)
    {
      if user.None? {
        log := [];
        outcome := NoUser;
        return;
      }
      ghost var env := Env(user.value, publicUrl);
      loading := true;
      assert Env(user.value, publicUrl) == env;
      log, outcome := SubmitItems(user.value, items, publicUrl, failing);
      if outcome == Complete {
        items := [];
        roomCounts := [];
        dimensions := [];
        dimensionImages := [];
        dimensionPreviews := [];
      }
      loading := false;
    }
  }
}
