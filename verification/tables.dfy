/**
 * The two tables the shopping function reads and writes, and the row
 * selections and updates it asks of the store.
 */
module Tables {
  import opened Wrappers
  import opened Dates

  /** A row of `shops`. */
  datatype Shop = Shop(id: int, date: string, name: string)

  /** A row of `items`; a price or flag column may be NULL. */
  datatype Item = Item(
    id: int,
    shopId: int,
    name: string,
    plannedPrice: Option<int>,
    actualPrice: Option<int>,
    isBought: Option<bool>)

  // ----- what each selection holds -----

  lemma {:induction false} ShopIdsAt(shops: seq<Shop>)
    ensures forall i :: 0 <= i < |shops| ==> ShopIds(shops)[i] == shops[i].id
  {
    if shops != [] {
      ShopIdsAt(shops[..|shops| - 1]);
    }
  }

  /** The shops of day `d` are exactly the rows dated `d`. */
  lemma {:induction false} ShopsOnMembers(shops: seq<Shop>, d: string)
    ensures forall s :: s in ShopsOn(shops, d) <==> s in shops && s.date == d
  {
    if shops != [] {
      ShopsOnMembers(shops[..|shops| - 1], d);
      assert shops == shops[..|shops| - 1] + [shops[|shops| - 1]];
    }
  }

  /** The month query's shops are exactly the rows whose date lies in `[ym-01, ym-32)`. */
  lemma {:induction false} ShopsInRangeMembers(shops: seq<Shop>, ym: string)
    ensures forall s :: s in ShopsInRange(shops, ym) <==> s in shops && InMonthRange(s.date, ym)
  {
    if shops != [] {
      ShopsInRangeMembers(shops[..|shops| - 1], ym);
      assert shops == shops[..|shops| - 1] + [shops[|shops| - 1]];
    }
  }

  /** A shop's items are exactly the rows that name it. */
  lemma {:induction false} ItemsOfMembers(items: seq<Item>, shopId: int)
    ensures forall it :: it in ItemsOf(items, shopId) <==> it in items && it.shopId == shopId
  {
    if items != [] {
      ItemsOfMembers(items[..|items| - 1], shopId);
      assert items == items[..|items| - 1] + [items[|items| - 1]];
    }
  }

  /** The items of a set of shops are exactly the rows that name one of them. */
  lemma {:induction false} ItemsInMembers(items: seq<Item>, ids: seq<int>)
    ensures forall it :: it in ItemsIn(items, ids) <==> it in items && it.shopId in ids
  {
    if items != [] {
      ItemsInMembers(items[..|items| - 1], ids);
      assert items == items[..|items| - 1] + [items[|items| - 1]];
    }
  }

  /** The row `POST /item` writes: the actual price starts as the planned one, and not bought. */
  function NewItem(id: int, shopId: int, name: string, planned: int): Item {
    Item(id, shopId, name, Some(planned), Some(planned), Some(false))
  }

  /** Store-assigned ids grow with insertion, so table order is `order("id")`. */
  predicate ShopIdsAscending(shops: seq<Shop>) {
    forall i, j :: 0 <= i < j < |shops| ==> shops[i].id < shops[j].id
  }

  predicate ItemIdsAscending(items: seq<Item>) {
    forall i, j :: 0 <= i < j < |items| ==> items[i].id < items[j].id
  }

  /** `shops.map((s) => s.id)`. */
  function ShopIds(shops: seq<Shop>): (ids: seq<int>)
    ensures |ids| == |shops|
  {
    if shops == [] then [] else ShopIds(shops[..|shops| - 1]) + [shops[|shops| - 1].id]
  }

  lemma ShopIdsSnoc(shops: seq<Shop>, s: Shop)
    ensures ShopIds(shops + [s]) == ShopIds(shops) + [s.id]
  {
    assert (shops + [s])[..|shops|] == shops;
  }

  /** `.from("shops").eq("date", d)`, in table order. */
  function ShopsOn(shops: seq<Shop>, d: string): (r: seq<Shop>)
    ensures |r| <= |shops|
  {
    if shops == [] then []
    else
      var last := shops[|shops| - 1];
      ShopsOn(shops[..|shops| - 1], d) + (if last.date == d then [last] else [])
  }

  /** `.from("shops").gte("date", ym-01).lt("date", ym-32)`, in table order. */
  function ShopsInRange(shops: seq<Shop>, ym: string): (r: seq<Shop>)
    ensures |r| <= |shops|
  {
    if shops == [] then []
    else
      var last := shops[|shops| - 1];
      ShopsInRange(shops[..|shops| - 1], ym) + (if InMonthRange(last.date, ym) then [last] else [])
  }

  /** The shops whose date starts with the year-month `ym`. */
  function ShopsInMonth(shops: seq<Shop>, ym: string): (r: seq<Shop>)
    ensures |r| <= |shops|
  {
    if shops == [] then []
    else
      var last := shops[|shops| - 1];
      ShopsInMonth(shops[..|shops| - 1], ym) + (if ym <= last.date then [last] else [])
  }

  /** `.from("items").eq("shop_id", shopId)`, in table order. */
  function ItemsOf(items: seq<Item>, shopId: int): (r: seq<Item>)
    ensures |r| <= |items|
  {
    if items == [] then []
    else
      var last := items[|items| - 1];
      ItemsOf(items[..|items| - 1], shopId) + (if last.shopId == shopId then [last] else [])
  }

  /** `.from("items").in("shop_id", ids)`, in table order. */
  function ItemsIn(items: seq<Item>, ids: seq<int>): (r: seq<Item>)
    ensures |r| <= |items|
  {
    if items == [] then []
    else
      var last := items[|items| - 1];
      ItemsIn(items[..|items| - 1], ids) + (if last.shopId in ids then [last] else [])
  }

  /** `.update({ is_bought }).eq("id", id)`. */
  function WithBought(items: seq<Item>, id: int, b: bool): (r: seq<Item>)
    ensures |r| == |items|
  {
    seq(|items|, i requires 0 <= i < |items| =>
      if items[i].id == id then items[i].(isBought := Some(b)) else items[i])
  }

  /** `.update({ actual_price }).eq("id", id)`. */
  function WithActual(items: seq<Item>, id: int, price: int): (r: seq<Item>)
    ensures |r| == |items|
  {
    seq(|items|, i requires 0 <= i < |items| =>
      if items[i].id == id then items[i].(actualPrice := Some(price)) else items[i])
  }

  /**
   * The bought update touches one column: every row keeps its place, id, shop,
   * name and both prices, and `is_bought` becomes the flag exactly on the rows
   * with that id.
   */
  lemma WithBoughtFields(items: seq<Item>, id: int, b: bool)
    ensures |WithBought(items, id, b)| == |items|
    ensures forall i :: 0 <= i < |items| ==>
              var r := WithBought(items, id, b)[i];
              && r.id == items[i].id && r.shopId == items[i].shopId && r.name == items[i].name
              && r.plannedPrice == items[i].plannedPrice && r.actualPrice == items[i].actualPrice
              && r.isBought == (if items[i].id == id then Some(b) else items[i].isBought)
  {
  }

  /**
   * The price update touches one column: every row keeps its place, id, shop,
   * name, planned price and flag, and `actual_price` becomes the price exactly
   * on the rows with that id.
   */
  lemma WithActualFields(items: seq<Item>, id: int, price: int)
    ensures |WithActual(items, id, price)| == |items|
    ensures forall i :: 0 <= i < |items| ==>
              var r := WithActual(items, id, price)[i];
              && r.id == items[i].id && r.shopId == items[i].shopId && r.name == items[i].name
              && r.plannedPrice == items[i].plannedPrice && r.isBought == items[i].isBought
              && r.actualPrice == (if items[i].id == id then Some(price) else items[i].actualPrice)
  {
  }

  /** A shop's items come back in id order, as `order("id")` asks. */
  lemma {:induction false} ItemsOfAscending(items: seq<Item>, shopId: int)
    requires ItemIdsAscending(items)
    ensures ItemIdsAscending(ItemsOf(items, shopId))
  {
    if items != [] {
      var init := items[..|items| - 1];
      var last := items[|items| - 1];
      ItemsOfAscending(init, shopId);
      ItemsOfMembers(init, shopId);
      forall it | it in ItemsOf(init, shopId) ensures it.id < last.id {
        var k :| 0 <= k < |init| && init[k] == it;
      }
    }
  }

  /** A shop's item query holds each row of that shop as often as the table does, and no other row. */
  lemma {:induction false} ItemsOfCount(items: seq<Item>, shopId: int)
    ensures forall it :: multiset(ItemsOf(items, shopId))[it] == if it.shopId == shopId then multiset(items)[it] else 0
  {
    if items != [] {
      ItemsOfCount(items[..|items| - 1], shopId);
      assert items == items[..|items| - 1] + [items[|items| - 1]];
    }
  }

  /** The `in` query holds each row naming one of the ids as often as the table does, and no other row. */
  lemma {:induction false} ItemsInCount(items: seq<Item>, ids: seq<int>)
    ensures forall it :: multiset(ItemsIn(items, ids))[it] == if it.shopId in ids then multiset(items)[it] else 0
  {
    if items != [] {
      ItemsInCount(items[..|items| - 1], ids);
      assert items == items[..|items| - 1] + [items[|items| - 1]];
    }
  }

  /** In an id-ordered table every row occurs once. */
  lemma {:induction false} ItemsOnce(items: seq<Item>)
    requires ItemIdsAscending(items)
    ensures forall it :: multiset(items)[it] == if it in items then 1 else 0
  {
    if items != [] {
      var init := items[..|items| - 1];
      var last := items[|items| - 1];
      ItemsOnce(init);
      assert items == init + [last];
      assert forall k :: 0 <= k < |init| ==> init[k].id < last.id;
    }
  }

  /** Filtering an id-ordered table keeps it id-ordered, so the day's shops come back by id. */
  lemma {:induction false} ShopsOnAscending(shops: seq<Shop>, d: string)
    requires ShopIdsAscending(shops)
    ensures ShopIdsAscending(ShopsOn(shops, d))
    ensures forall s :: s in ShopsOn(shops, d) ==> s in shops
  {
    if shops != [] {
      var init := shops[..|shops| - 1];
      var last := shops[|shops| - 1];
      ShopsOnAscending(init, d);
      forall s | s in ShopsOn(init, d) ensures s.id < last.id {
        var k :| 0 <= k < |init| && init[k] == s;
      }
    }
  }

  /** A date no shop carries selects no shop. */
  lemma {:induction false} NoShopsOn(shops: seq<Shop>, d: string)
    requires forall i :: 0 <= i < |shops| ==> shops[i].date != d
    ensures ShopsOn(shops, d) == []
  {
    if shops != [] {
      NoShopsOn(shops[..|shops| - 1], d);
    }
  }

  /** A month range no shop falls in selects no shop. */
  lemma {:induction false} NoShopsInRange(shops: seq<Shop>, ym: string)
    requires forall i :: 0 <= i < |shops| ==> !InMonthRange(shops[i].date, ym)
    ensures ShopsInRange(shops, ym) == []
  {
    if shops != [] {
      NoShopsInRange(shops[..|shops| - 1], ym);
    }
  }

  /** An empty id list selects no item. */
  lemma {:induction false} ItemsInNone(items: seq<Item>)
    ensures ItemsIn(items, []) == []
  {
    if items != [] {
      ItemsInNone(items[..|items| - 1]);
    }
  }

  /**
   * For well-formed dates the month range `[ym-01, ym-32)` selects exactly the
   * shops whose date lies in the queried date's year-month.
   */
  lemma {:induction false} MonthRangeSelectsMonth(shops: seq<Shop>, d: string)
    requires WellFormedDate(d)
    requires forall i :: 0 <= i < |shops| ==> WellFormedDate(shops[i].date)
    ensures ShopsInRange(shops, MonthKey(d)) == ShopsInMonth(shops, d[..7])
  {
    if shops != [] {
      var last := shops[|shops| - 1];
      MonthRangeSelectsMonth(shops[..|shops| - 1], d);
      MonthRangeIsMonthPrefix(d, last.date);
      assert d[..7] <= last.date <==> last.date[..7] == d[..7];
    }
  }
}
