/** How a room selection is priced, shared by the cart and the request dialog: the room
    type is looked up among the room categories (first match on `value`), the category
    among the pricing rows (first match on `category_id`), and a priced room with a
    positive count costs price x area x count. */
module Pricing {
  import opened Common
  import opened Records
  import opened RoomCounts

  /** A `categories` row of type 'room'. */
  datatype Category = Category(id: string, value: string)

  /** A `pricing` row. */
  datatype PricingRow = PricingRow(id: string, categoryId: string, priceValue: real)

  /** `categories.find(c => c.value === roomType)`: the first category with that value. */
  function FindCategory(cats: seq<Category>, roomType: string): Option<Category>
    decreases |cats|
  {
    if cats == [] then None
    else if cats[0].value == roomType then Some(cats[0])
    else FindCategory(cats[1..], roomType)
  }

  /** The position of the first category whose value is `roomType`, or `|cats|`. */
  function FirstCategoryIndex(cats: seq<Category>, roomType: string): (i: nat)
    ensures i <= |cats|
    ensures i < |cats| ==> cats[i].value == roomType
    ensures forall j :: 0 <= j < i ==> cats[j].value != roomType
    decreases |cats|
  {
    if cats == [] || cats[0].value == roomType then 0
    else 1 + FirstCategoryIndex(cats[1..], roomType)
  }

  /** `pricing.find(p => p.category_id === categoryId)`: the first matching row. */
  function FindPricing(pricing: seq<PricingRow>, categoryId: string): Option<PricingRow>
    decreases |pricing|
  {
    if pricing == [] then None
    else if pricing[0].categoryId == categoryId then Some(pricing[0])
    else FindPricing(pricing[1..], categoryId)
  }

  /** The position of the first pricing row for `categoryId`, or `|pricing|`. */
  function FirstPricingIndex(pricing: seq<PricingRow>, categoryId: string): (i: nat)
    ensures i <= |pricing|
    ensures i < |pricing| ==> pricing[i].categoryId == categoryId
    ensures forall j :: 0 <= j < i ==> pricing[j].categoryId != categoryId
    decreases |pricing|
  {
    if pricing == [] || pricing[0].categoryId == categoryId then 0
    else 1 + FirstPricingIndex(pricing[1..], categoryId)
  }

  /** `FindCategory` finds nothing exactly when no category has that value, and
      otherwise the category at the first position with that value. */
  lemma {:induction false} FindCategorySpec(cats: seq<Category>, roomType: string)
    ensures FindCategory(cats, roomType).None? <==> forall i :: 0 <= i < |cats| ==> cats[i].value != roomType
    ensures FindCategory(cats, roomType).Some? ==>
              FirstCategoryIndex(cats, roomType) < |cats| &&
              FindCategory(cats, roomType).value == cats[FirstCategoryIndex(cats, roomType)]
    decreases |cats|
  {
    if cats != [] && cats[0].value != roomType {
      FindCategorySpec(cats[1..], roomType);
      assert forall i :: 1 <= i < |cats| ==> cats[i] == cats[1..][i - 1];
    }
  }

  /** `FindPricing` finds nothing exactly when no row is for that category, and
      otherwise the row at the first position for it. */
  lemma {:induction false} FindPricingSpec(pricing: seq<PricingRow>, categoryId: string)
    ensures FindPricing(pricing, categoryId).None? <==> forall i :: 0 <= i < |pricing| ==> pricing[i].categoryId != categoryId
    ensures FindPricing(pricing, categoryId).Some? ==>
              FirstPricingIndex(pricing, categoryId) < |pricing| &&
              FindPricing(pricing, categoryId).value == pricing[FirstPricingIndex(pricing, categoryId)]
    decreases |pricing|
  {
    if pricing != [] && pricing[0].categoryId != categoryId {
      FindPricingSpec(pricing[1..], categoryId);
      assert forall i :: 1 <= i < |pricing| ==> pricing[i] == pricing[1..][i - 1];
    }
  }

  /** The price per unit of area of a room type, when it has a category and that
      category has a pricing row. */
  function UnitPrice(cats: seq<Category>, pricing: seq<PricingRow>, roomType: string): Option<real> {
    match FindCategory(cats, roomType)
    case None => None
    case Some(c) =>
      match FindPricing(pricing, c.id)
      case None => None
      case Some(p) => Some(p.priceValue)
  }

  /** What one room-type entry adds to an estimate over rooms of the given area. */
  function RoomCost(cats: seq<Category>, pricing: seq<PricingRow>, roomType: string, count: int, area: real): real {
    if count > 0 then
      match UnitPrice(cats, pricing, roomType)
      case None => 0.0
      case Some(price) => price * area * count as real
    else 0.0
  }

  /** The estimate over every entry of a room-count object, in entry order. */
  function RoomsCost(cats: seq<Category>, pricing: seq<PricingRow>, rooms: Counts, area: real): real
    decreases |rooms|
  {
    if rooms == [] then 0.0
    else
      var last := rooms[|rooms| - 1];
      RoomsCost(cats, pricing, rooms[..|rooms| - 1], area) + RoomCost(cats, pricing, last.0, last.1, area)
  }

  lemma {:induction false} RoomsCostAppend(cats: seq<Category>, pricing: seq<PricingRow>, a: Counts, b: Counts, area: real)
    ensures RoomsCost(cats, pricing, a + b, area) == RoomsCost(cats, pricing, a, area) + RoomsCost(cats, pricing, b, area)
    decreases |b|
  {
    if b == [] {
      assert a + b == a;
    } else {
      assert (a + b)[..|a + b| - 1] == a + b[..|b| - 1];
      RoomsCostAppend(cats, pricing, a, b[..|b| - 1], area);
    }
  }

  /** One more entry of the room object adds that entry's cost. */
  lemma RoomsCostStep(cats: seq<Category>, pricing: seq<PricingRow>, rooms: Counts, k: nat, area: real)
    requires k < |rooms|
    ensures RoomsCost(cats, pricing, rooms[..k + 1], area) ==
            RoomsCost(cats, pricing, rooms[..k], area) + RoomCost(cats, pricing, rooms[k].0, rooms[k].1, area)
  {
    assert rooms[..k + 1][..k] == rooms[..k];
  }

  lemma RoomsCostCons(cats: seq<Category>, pricing: seq<PricingRow>, rooms: Counts, area: real)
    requires rooms != []
    ensures RoomsCost(cats, pricing, rooms, area) ==
            RoomCost(cats, pricing, rooms[0].0, rooms[0].1, area) + RoomsCost(cats, pricing, rooms[1..], area)
  {
    assert rooms == [rooms[0]] + rooms[1..];
    RoomsCostAppend(cats, pricing, [rooms[0]], rooms[1..], area);
    assert [rooms[0]][..0] == [];
  }

  predicate IsPositive(count: int) { count > 0 }

  /** Only the entries with a positive count matter: dropping the others (what the
      dialog stores as `selectedRooms`) leaves the estimate unchanged. */
  lemma {:induction false} RoomsCostOfPositive(cats: seq<Category>, pricing: seq<PricingRow>, rooms: Counts, area: real)
    ensures RoomsCost(cats, pricing, FilterValues(IsPositive, rooms), area) == RoomsCost(cats, pricing, rooms, area)
    decreases |rooms|
  {
    if rooms != [] {
      var init, last := rooms[..|rooms| - 1], rooms[|rooms| - 1];
      RoomsCostOfPositive(cats, pricing, init, area);
      RoomsCostAppend(cats, pricing, FilterValues(IsPositive, init), if IsPositive(last.1) then [last] else [], area);
      if IsPositive(last.1) {
        assert [last][..0] == [];
      }
    }
  }

  /** Setting one room type's count (a +/- click) changes the estimate by that room
      type's cost at the new count minus its cost at the old count. */
  lemma {:induction false} RoomsCostPut(cats: seq<Category>, pricing: seq<PricingRow>, rooms: Counts, roomType: string, count: int, area: real)
    ensures RoomsCost(cats, pricing, Put(rooms, roomType, count), area) ==
            RoomsCost(cats, pricing, rooms, area)
            - RoomCost(cats, pricing, roomType, CountOf(rooms, roomType), area)
            + RoomCost(cats, pricing, roomType, count, area)
    decreases |rooms|
  {
    var put := Put(rooms, roomType, count);
    if rooms == [] {
      assert put == [(roomType, count)];
      assert put[..0] == [];
    } else {
      RoomsCostCons(cats, pricing, rooms, area);
      RoomsCostCons(cats, pricing, put, area);
      if rooms[0].0 != roomType {
        RoomsCostPut(cats, pricing, rooms[1..], roomType, count, area);
        assert put[1..] == Put(rooms[1..], roomType, count);
      } else {
        assert put[1..] == rooms[1..];
      }
    }
  }

  /** With non-negative prices and area, the estimate is never negative. */
  lemma {:induction false} RoomsCostNonNegative(cats: seq<Category>, pricing: seq<PricingRow>, rooms: Counts, area: real)
    requires forall i :: 0 <= i < |pricing| ==> pricing[i].priceValue >= 0.0
    requires area >= 0.0
    ensures RoomsCost(cats, pricing, rooms, area) >= 0.0
    decreases |rooms|
  {
    if rooms != [] {
      RoomsCostNonNegative(cats, pricing, rooms[..|rooms| - 1], area);
      var last := rooms[|rooms| - 1];
      RoomCostNonNegative(cats, pricing, last.0, last.1, area);
    }
  }

  lemma RoomCostNonNegative(cats: seq<Category>, pricing: seq<PricingRow>, roomType: string, count: int, area: real)
    requires forall i :: 0 <= i < |pricing| ==> pricing[i].priceValue >= 0.0
    requires area >= 0.0
    ensures RoomCost(cats, pricing, roomType, count, area) >= 0.0
  {
    var u := UnitPrice(cats, pricing, roomType);
    if count > 0 && u.Some? {
      var c := FindCategory(cats, roomType).value;
      FindPricingSpec(pricing, c.id);
      var i := FirstPricingIndex(pricing, c.id);
      assert u.value == pricing[i].priceValue;
      ProductNonNegative(u.value, area, count as real);
    }
  }

  lemma ProductNonNegative(a: real, b: real, c: real)
    requires a >= 0.0 && b >= 0.0 && c >= 0.0
    ensures a * b * c >= 0.0
  {
    assert a * b >= 0.0;
  }
}
