/** The room-based estimate of the `/api/estimate` endpoint (app.py): a rate per
    square foot for each finish tier, a priced item per room and a rounded subtotal. */
module Estimator {
  import opened Common
  import opened Text
  import opened Money

  /** One entry of the request's "rooms" list; every key may be absent. The area is the
      value after `float()`. */
  datatype Room = Room(name: Option<string>, areaSqft: Option<real>, finish: Option<string>)

  /** One priced line of the reply. */
  datatype Item = Item(name: string, areaSqft: real, finish: string, rate: real, cost: real)

  /** The reply body `{subtotal, currency, items}`. */
  datatype Reply = Reply(subtotal: real, currency: string, items: seq<Item>)

  /** `COST_PER_SQFT`: dollars per square foot for each finish tier. */
  const COST_PER_SQFT: map<string, real> := map["basic" := 120.0, "standard" := 180.0, "premium" := 240.0]

  const DEFAULT_FINISH := "standard"
  const DEFAULT_NAME := "Room"
  const CURRENCY := "USD"

  /** The rate for an already lower-cased finish; unknown tiers get the standard rate. */
  function RateFor(finish: string): (rate: real)
    ensures finish == "basic" ==> rate == 120.0
    ensures finish == "standard" ==> rate == 180.0
    ensures finish == "premium" ==> rate == 240.0
    ensures finish !in {"basic", "standard", "premium"} ==> rate == 180.0
    ensures rate > 0.0
  {
    if finish in COST_PER_SQFT then COST_PER_SQFT[finish] else COST_PER_SQFT[DEFAULT_FINISH]
  }

  /** `str(r.get("finish", "standard")).lower()`. */
  function FinishOf(room: Room): string {
    Lower(room.finish.GetOr(DEFAULT_FINISH))
  }

  /** The item the loop appends for one room. */
  function PriceRoom(room: Room): Item {
    var area := room.areaSqft.GetOr(0.0);
    var finish := FinishOf(room);
    var rate := RateFor(finish);
    Item(room.name.GetOr(DEFAULT_NAME), area, finish, rate, Round2(area * rate))
  }

  /** The items of a whole request, one per room, in order. */
  function PriceRooms(rooms: seq<Room>): seq<Item> {
    seq(|rooms|, i requires 0 <= i < |rooms| => PriceRoom(rooms[i]))
  }

  /** The running total after adding the items' costs from left to right. */
  function Total(items: seq<Item>): real {
    if items == [] then 0.0 else Total(items[..|items| - 1]) + items[|items| - 1].cost
  }

  /** Pricing one more room appends its item. */
  lemma PriceRoomsStep(rooms: seq<Room>, k: nat)
    requires k < |rooms|
    ensures PriceRooms(rooms[..k + 1]) == PriceRooms(rooms[..k]) + [PriceRoom(rooms[k])]
  {
  }

  /** Adding one more item adds its cost to the running total. */
  lemma TotalStep(items: seq<Item>, item: Item)
    ensures Total(items + [item]) == Total(items) + item.cost
  {
    assert (items + [item])[..|items|] == items;
  }

  /** The reply for a request, stated without the loop. */
  function EstimateOf(rooms: seq<Room>): Reply {
    var items := PriceRooms(rooms);
    Reply(Round2(Total(items)), CURRENCY, items)
  }

  /** `estimate()`: price each room, append its item and add its cost to the total. */
  method Estimate(rooms: seq<Room>) returns (reply: Reply)
    ensures reply == EstimateOf(rooms)
    ensures |reply.items| == |rooms|
    ensures reply.subtotal == Round2(Total(reply.items))
    ensures reply.currency == "USD"
  {
    var total := 0.0;
    var items: seq<Item> := [];
    for k := 0 to |rooms|
      invariant items == PriceRooms(rooms[..k])
      invariant total == Total(items)
    {
      var r := rooms[k];
      var name := r.name.GetOr(DEFAULT_NAME);
      var area := r.areaSqft.GetOr(0.0);
      var finish := Lower(r.finish.GetOr(DEFAULT_FINISH));
      var rate := RateFor(finish);
      var cost := Round2(area * rate);
      var item := Item(name, area, finish, rate, cost);
      assert item == PriceRoom(r);
      PriceRoomsStep(rooms, k);
      TotalStep(items, item);
      items := items + [item];
      total := total + cost;
    }
    assert rooms[..|rooms|] == rooms;
    reply := Reply(Round2(total), CURRENCY, items);
  }

  /** Each item records the room's name, area, lower-cased finish and the rate used,
      with the defaults "Room", 0 and "standard" for absent keys, and costs
      round(area * rate, 2). */
  lemma EstimateItem(rooms: seq<Room>, i: nat)
    requires i < |rooms|
    ensures |EstimateOf(rooms).items| == |rooms|
    ensures var it := EstimateOf(rooms).items[i];
      && it.name == rooms[i].name.GetOr("Room")
      && it.areaSqft == rooms[i].areaSqft.GetOr(0.0)
      && it.finish == Lower(rooms[i].finish.GetOr("standard"))
      && it.rate == RateFor(it.finish)
      && it.cost == Round2(it.areaSqft * it.rate)
  {
    assert EstimateOf(rooms).items[i] == PriceRoom(rooms[i]);
  }

  /** A finish that spells a tier in any mix of upper and lower case gets that tier's rate. */
  lemma FinishIgnoresCase(room: Room, tier: string)
    requires tier in COST_PER_SQFT
    requires room.finish.Some? && |room.finish.value| == |tier|
    requires forall i :: 0 <= i < |tier| ==> LowerChar(room.finish.value[i]) == tier[i]
    ensures FinishOf(room) == tier
    ensures PriceRoom(room).rate == COST_PER_SQFT[tier]
  {
    assert Lower(room.finish.value) == tier;
  }

  /** An item's recorded name, area and finish, sent back as a room, price to the same
      item: the recorded finish is already lower case and keeps its rate. */
  lemma RecordedItemReprices(room: Room)
    ensures var it := PriceRoom(room);
      PriceRoom(Room(Some(it.name), Some(it.areaSqft), Some(it.finish))) == it
  {
    LowerIdempotent(room.finish.GetOr(DEFAULT_FINISH));
  }

  /** A room without a finish is priced at the standard rate, 180. */
  lemma MissingFinishIsStandard(room: Room)
    requires room.finish.None?
    ensures FinishOf(room) == "standard"
    ensures PriceRoom(room).rate == 180.0
  {
    LowerOfLowerCase(DEFAULT_FINISH);
  }

  /** A room without an area costs nothing, and one without a name is called "Room". */
  lemma MissingFieldsDefault(room: Room)
    ensures room.areaSqft.None? ==> PriceRoom(room).areaSqft == 0.0 && PriceRoom(room).cost == 0.0
    ensures room.name.None? ==> PriceRoom(room).name == "Room"
  {
    if room.areaSqft.None? {
      Round2OfCents(0.0);
    }
  }

  /** No rooms give no items and a subtotal of 0. */
  lemma EstimateEmpty()
    ensures EstimateOf([]) == Reply(0.0, "USD", [])
  {
    Round2OfCents(0.0);
  }

  /** The total of a concatenation is the sum of the totals. */
  lemma {:induction false} TotalAppend(a: seq<Item>, b: seq<Item>)
    ensures Total(a + b) == Total(a) + Total(b)
    decreases |b|
  {
    if b == [] {
      assert a + b == a;
    } else {
      var init := b[..|b| - 1];
      assert (a + b)[..|a + b| - 1] == a + init;
      TotalAppend(a, init);
    }
  }

  /** Every cost is a whole number of cents, so their total is too. */
  lemma {:induction false} TotalIsCents(items: seq<Item>)
    requires forall i :: 0 <= i < |items| ==> IsCents(items[i].cost)
    ensures IsCents(Total(items))
  {
    if items == [] {
      assert Total(items) * 100.0 == 0.0;
    } else {
      TotalIsCents(items[..|items| - 1]);
      CentsAdd(Total(items[..|items| - 1]), items[|items| - 1].cost);
    }
  }

  /** The final rounding never moves the subtotal: it is exactly the sum of the costs. */
  lemma SubtotalIsExactTotal(rooms: seq<Room>)
    ensures EstimateOf(rooms).subtotal == Total(EstimateOf(rooms).items)
  {
    var items := PriceRooms(rooms);
    TotalIsCents(items);
    Round2OfCents(Total(items));
  }

  /** With no negative area, every cost and the subtotal are non-negative. */
  lemma {:induction false} TotalNonNegative(items: seq<Item>)
    requires forall i :: 0 <= i < |items| ==> items[i].cost >= 0.0
    ensures Total(items) >= 0.0
  {
    if items != [] {
      TotalNonNegative(items[..|items| - 1]);
    }
  }

  lemma EstimateNonNegative(rooms: seq<Room>)
    requires forall i :: 0 <= i < |rooms| ==> rooms[i].areaSqft.GetOr(0.0) >= 0.0
    ensures forall i :: 0 <= i < |rooms| ==> EstimateOf(rooms).items[i].cost >= 0.0
    ensures EstimateOf(rooms).subtotal >= 0.0
  {
    var items := PriceRooms(rooms);
    forall i | 0 <= i < |rooms|
      ensures items[i].cost >= 0.0
    {
      var area := rooms[i].areaSqft.GetOr(0.0);
      var rate := RateFor(FinishOf(rooms[i]));
      assert area * rate >= 0.0;
    }
    TotalNonNegative(items);
  }

  /** Estimating two lists of rooms separately and adding the subtotals gives the
      subtotal of estimating them together. */
  lemma EstimateSplits(a: seq<Room>, b: seq<Room>)
    ensures EstimateOf(a + b).items == EstimateOf(a).items + EstimateOf(b).items
    ensures EstimateOf(a + b).subtotal == EstimateOf(a).subtotal + EstimateOf(b).subtotal
  {
    assert PriceRooms(a + b) == PriceRooms(a) + PriceRooms(b);
    TotalAppend(PriceRooms(a), PriceRooms(b));
    SubtotalIsExactTotal(a + b);
    SubtotalIsExactTotal(a);
    SubtotalIsExactTotal(b);
  }

  /** A kitchen of 150 sqft at premium and a bath of 80 sqft at standard cost
      36000.00 and 14400.00, 50400.00 in all. */
  lemma KitchenAndBath()
    ensures var r := EstimateOf([Room(Some("Kitchen"), Some(150.0), Some("premium")),
                                 Room(Some("Bath"), Some(80.0), Some("standard"))]);
      && r.items == [Item("Kitchen", 150.0, "premium", 240.0, 36000.0),
                     Item("Bath", 80.0, "standard", 180.0, 14400.0)]
      && r.subtotal == 50400.0 && r.currency == "USD"
  {
    LowerOfLowerCase("premium");
    LowerOfLowerCase("standard");
    Round2OfCents(36000.0);
    Round2OfCents(14400.0);
    Round2OfCents(50400.0);
    var rooms := [Room(Some("Kitchen"), Some(150.0), Some("premium")),
                  Room(Some("Bath"), Some(80.0), Some("standard"))];
    var items := PriceRooms(rooms);
    assert items[0].cost == 36000.0 && items[1].cost == 14400.0;
    assert items[..1][..0] == [];
    assert Total(items[..1]) == 36000.0;
    assert items[..2][..1] == items[..1];
    assert items == items[..2];
  }
}
