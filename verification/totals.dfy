/**
 * The day view's read model: item normalisation and the planned/actual
 * totals of a day and of a month, with the loops that accumulate them.
 */
module Totals {
  import opened Wrappers
  import opened Dates
  import opened Tables

  /** `Number(it.planned_price || 0)`: a NULL price counts as 0. */
  function Planned(it: Item): int { it.plannedPrice.GetOr(0) }

  /** `Number(it.actual_price || 0)`. */
  function Actual(it: Item): int { it.actualPrice.GetOr(0) }

  /** `!!it.is_bought`: only a stored `true` is bought. */
  predicate Bought(it: Item) { it.isBought == Some(true) }

  /** An item as the day view returns it: prices filled in, flag a plain boolean. */
  datatype ItemView = ItemView(id: int, name: string, plannedPrice: int, actualPrice: int, isBought: bool)

  /** A shop of the day view with its items. */
  datatype ShopView = ShopView(id: int, name: string, items: seq<ItemView>)

  /** A planned sum over all items and an actual sum over the bought ones. */
  datatype Sums = Sums(planned: int, actual: int) {
    function Plus(other: Sums): Sums {
      Sums(planned + other.planned, actual + other.actual)
    }
  }

  function Normalize(it: Item): ItemView {
    ItemView(it.id, it.name, Planned(it), Actual(it), Bought(it))
  }

  function NormalizeAll(items: seq<Item>): seq<ItemView> {
    if items == [] then [] else NormalizeAll(items[..|items| - 1]) + [Normalize(items[|items| - 1])]
  }

  /** Every returned item is its row with prices filled in (NULL as 0) and the flag a boolean. */
  lemma {:induction false} NormalizeAllAt(items: seq<Item>)
    ensures |NormalizeAll(items)| == |items|
    ensures forall i :: 0 <= i < |items| ==>
              var v := NormalizeAll(items)[i];
              && v.id == items[i].id && v.name == items[i].name
              && v.plannedPrice == items[i].plannedPrice.GetOr(0)
              && v.actualPrice == items[i].actualPrice.GetOr(0)
              && v.isBought == (items[i].isBought == Some(true))
  {
    if items != [] {
      NormalizeAllAt(items[..|items| - 1]);
    }
  }

  /** The contribution of one item: its planned price, and its actual price if bought. */
  function Contribution(it: Item): Sums {
    Sums(Planned(it), if Bought(it) then Actual(it) else 0)
  }

  /** The sums over a list of items, in list order. */
  function Tally(items: seq<Item>): Sums {
    if items == [] then Sums(0, 0)
    else Tally(items[..|items| - 1]).Plus(Contribution(items[|items| - 1]))
  }

  /** The shops of day `d`, each with its normalised items, by id. */
  function DayShops(dayShops: seq<Shop>, items: seq<Item>): seq<ShopView> {
    if dayShops == [] then []
    else
      var s := dayShops[|dayShops| - 1];
      DayShops(dayShops[..|dayShops| - 1], items) + [ShopView(s.id, s.name, NormalizeAll(ItemsOf(items, s.id)))]
  }

  /** The view holds every shop of the day, in order, each with exactly its own items. */
  lemma {:induction false} DayShopsAt(dayShops: seq<Shop>, items: seq<Item>)
    ensures |DayShops(dayShops, items)| == |dayShops|
    ensures forall i :: 0 <= i < |dayShops| ==>
              DayShops(dayShops, items)[i]
              == ShopView(dayShops[i].id, dayShops[i].name, NormalizeAll(ItemsOf(items, dayShops[i].id)))
  {
    if dayShops != [] {
      DayShopsAt(dayShops[..|dayShops| - 1], items);
    }
  }

  /** The items of the given shops, shop by shop, each shop's items in table order. */
  function DayItems(dayShops: seq<Shop>, items: seq<Item>): seq<Item> {
    if dayShops == [] then []
    else DayItems(dayShops[..|dayShops| - 1], items) + ItemsOf(items, dayShops[|dayShops| - 1].id)
  }

  /** The day's items are exactly the rows that belong to one of the day's shops. */
  lemma {:induction false} DayItemsMembers(dayShops: seq<Shop>, items: seq<Item>)
    ensures forall it :: it in DayItems(dayShops, items) <==> it in items && it.shopId in ShopIds(dayShops)
  {
    if dayShops != [] {
      var init, last := dayShops[..|dayShops| - 1], dayShops[|dayShops| - 1];
      DayItemsMembers(init, items);
      ItemsOfMembers(items, last.id);
      ShopIdsSnoc(init, last);
      assert init + [last] == dayShops;
    }
  }

  /** `day_planned`/`day_actual`: over the items of every shop dated `d`. */
  function DaySums(shops: seq<Shop>, items: seq<Item>, d: string): Sums {
    Tally(DayItems(ShopsOn(shops, d), items))
  }

  /** `month_planned`/`month_actual`: over the items of every shop in `[ym-01, ym-32)`. */
  function MonthSums(shops: seq<Shop>, items: seq<Item>, d: string): Sums {
    Tally(ItemsIn(items, ShopIds(ShopsInRange(shops, MonthKey(d)))))
  }

  // ----- properties of the sums -----

  /** Summing is additive over concatenation. */
  lemma {:induction false} TallyConcat(a: seq<Item>, b: seq<Item>)
    ensures Tally(a + b) == Tally(a).Plus(Tally(b))
  {
    if b == [] {
      assert a + b == a;
    } else {
      assert (a + b)[..|a + b| - 1] == a + b[..|b| - 1];
      TallyConcat(a, b[..|b| - 1]);
    }
  }

  lemma WithBoughtConcat(a: seq<Item>, b: seq<Item>, id: int, flag: bool)
    ensures WithBought(a + b, id, flag) == WithBought(a, id, flag) + WithBought(b, id, flag)
  {
  }

  lemma WithActualConcat(a: seq<Item>, b: seq<Item>, id: int, price: int)
    ensures WithActual(a + b, id, price) == WithActual(a, id, price) + WithActual(b, id, price)
  {
  }

  /** Selecting a shop's items and updating the flag can be done in either order. */
  lemma {:induction false} ItemsOfWithBought(items: seq<Item>, shopId: int, id: int, flag: bool)
    ensures ItemsOf(WithBought(items, id, flag), shopId) == WithBought(ItemsOf(items, shopId), id, flag)
  {
    if items != [] {
      var init, last := items[..|items| - 1], items[|items| - 1];
      var w := WithBought(items, id, flag);
      assert w[..|items| - 1] == WithBought(init, id, flag);
      assert w[|items| - 1].shopId == last.shopId;
      ItemsOfWithBought(init, shopId, id, flag);
      WithBoughtConcat(ItemsOf(init, shopId), if last.shopId == shopId then [last] else [], id, flag);
    }
  }

  lemma {:induction false} ItemsInWithBought(items: seq<Item>, ids: seq<int>, id: int, flag: bool)
    ensures ItemsIn(WithBought(items, id, flag), ids) == WithBought(ItemsIn(items, ids), id, flag)
  {
    if items != [] {
      var init, last := items[..|items| - 1], items[|items| - 1];
      assert WithBought(items, id, flag)[..|items| - 1] == WithBought(init, id, flag);
      ItemsInWithBought(init, ids, id, flag);
      WithBoughtConcat(ItemsIn(init, ids), if last.shopId in ids then [last] else [], id, flag);
    }
  }

  lemma {:induction false} DayItemsWithBought(dayShops: seq<Shop>, items: seq<Item>, id: int, flag: bool)
    ensures DayItems(dayShops, WithBought(items, id, flag)) == WithBought(DayItems(dayShops, items), id, flag)
  {
    if dayShops != [] {
      var init, last := dayShops[..|dayShops| - 1], dayShops[|dayShops| - 1];
      DayItemsWithBought(init, items, id, flag);
      ItemsOfWithBought(items, last.id, id, flag);
      WithBoughtConcat(DayItems(init, items), ItemsOf(items, last.id), id, flag);
    }
  }

  lemma {:induction false} ItemsOfWithActual(items: seq<Item>, shopId: int, id: int, price: int)
    ensures ItemsOf(WithActual(items, id, price), shopId) == WithActual(ItemsOf(items, shopId), id, price)
  {
    if items != [] {
      var init, last := items[..|items| - 1], items[|items| - 1];
      assert WithActual(items, id, price)[..|items| - 1] == WithActual(init, id, price);
      ItemsOfWithActual(init, shopId, id, price);
      WithActualConcat(ItemsOf(init, shopId), if last.shopId == shopId then [last] else [], id, price);
    }
  }

  lemma {:induction false} ItemsInWithActual(items: seq<Item>, ids: seq<int>, id: int, price: int)
    ensures ItemsIn(WithActual(items, id, price), ids) == WithActual(ItemsIn(items, ids), id, price)
  {
    if items != [] {
      var init, last := items[..|items| - 1], items[|items| - 1];
      assert WithActual(items, id, price)[..|items| - 1] == WithActual(init, id, price);
      ItemsInWithActual(init, ids, id, price);
      WithActualConcat(ItemsIn(init, ids), if last.shopId in ids then [last] else [], id, price);
    }
  }

  lemma {:induction false} DayItemsWithActual(dayShops: seq<Shop>, items: seq<Item>, id: int, price: int)
    ensures DayItems(dayShops, WithActual(items, id, price)) == WithActual(DayItems(dayShops, items), id, price)
  {
    if dayShops != [] {
      var init, last := dayShops[..|dayShops| - 1], dayShops[|dayShops| - 1];
      DayItemsWithActual(init, items, id, price);
      ItemsOfWithActual(items, last.id, id, price);
      WithActualConcat(DayItems(init, items), ItemsOf(items, last.id), id, price);
    }
  }

  /** Changing bought flags leaves the planned sum of any list of items as it was. */
  lemma {:induction false} TallyPlannedIgnoresBought(s: seq<Item>, id: int, flag: bool)
    ensures Tally(WithBought(s, id, flag)).planned == Tally(s).planned
  {
    if s != [] {
      assert WithBought(s, id, flag)[..|s| - 1] == WithBought(s[..|s| - 1], id, flag);
      TallyPlannedIgnoresBought(s[..|s| - 1], id, flag);
    }
  }

  /** Changing actual prices leaves the planned sum of any list of items as it was. */
  lemma {:induction false} TallyPlannedIgnoresActual(s: seq<Item>, id: int, price: int)
    ensures Tally(WithActual(s, id, price)).planned == Tally(s).planned
  {
    if s != [] {
      assert WithActual(s, id, price)[..|s| - 1] == WithActual(s[..|s| - 1], id, price);
      TallyPlannedIgnoresActual(s[..|s| - 1], id, price);
    }
  }

  /** Toggling an item leaves `day_planned` and `month_planned` as they were. */
  lemma ToggleKeepsPlanned(shops: seq<Shop>, items: seq<Item>, d: string, id: int, flag: bool)
    ensures DaySums(shops, WithBought(items, id, flag), d).planned == DaySums(shops, items, d).planned
    ensures MonthSums(shops, WithBought(items, id, flag), d).planned == MonthSums(shops, items, d).planned
  {
    DayItemsWithBought(ShopsOn(shops, d), items, id, flag);
    TallyPlannedIgnoresBought(DayItems(ShopsOn(shops, d), items), id, flag);
    ItemsInWithBought(items, ShopIds(ShopsInRange(shops, MonthKey(d))), id, flag);
    TallyPlannedIgnoresBought(ItemsIn(items, ShopIds(ShopsInRange(shops, MonthKey(d)))), id, flag);
  }

  /** Setting an actual price leaves `day_planned` and `month_planned` as they were. */
  lemma SetActualKeepsPlanned(shops: seq<Shop>, items: seq<Item>, d: string, id: int, price: int)
    ensures DaySums(shops, WithActual(items, id, price), d).planned == DaySums(shops, items, d).planned
    ensures MonthSums(shops, WithActual(items, id, price), d).planned == MonthSums(shops, items, d).planned
  {
    DayItemsWithActual(ShopsOn(shops, d), items, id, price);
    TallyPlannedIgnoresActual(DayItems(ShopsOn(shops, d), items), id, price);
    ItemsInWithActual(items, ShopIds(ShopsInRange(shops, MonthKey(d))), id, price);
    TallyPlannedIgnoresActual(ItemsIn(items, ShopIds(ShopsInRange(shops, MonthKey(d)))), id, price);
  }

  /**
   * Marking bought the one unbought item with a given id adds its actual
   * price to the actual sum, and changes nothing else.
   */
  lemma {:induction false} MarkBoughtAddsActual(s: seq<Item>, k: nat)
    requires k < |s| && !Bought(s[k])
    requires forall j :: 0 <= j < |s| && j != k ==> s[j].id != s[k].id
    ensures Tally(WithBought(s, s[k].id, true)) == Tally(s).Plus(Sums(0, Actual(s[k])))
  {
    var id := s[k].id;
    var init, last := s[..|s| - 1], s[|s| - 1];
    assert WithBought(s, id, true)[..|s| - 1] == WithBought(init, id, true);
    if k == |s| - 1 {
      assert WithBought(init, id, true) == init;
    } else {
      MarkBoughtAddsActual(init, k);
    }
  }

  /** A day without shops shows no shops and zero sums. */
  lemma EmptyDay(shops: seq<Shop>, items: seq<Item>, d: string)
    requires forall i :: 0 <= i < |shops| ==> shops[i].date != d
    ensures DayShops(ShopsOn(shops, d), items) == []
    ensures DaySums(shops, items, d) == Sums(0, 0)
  {
    NoShopsOn(shops, d);
  }

  /** For well-formed dates the month sums are the sums over every shop of the queried year-month. */
  lemma MonthSumsByYearMonth(shops: seq<Shop>, items: seq<Item>, d: string)
    requires WellFormedDate(d)
    requires forall i :: 0 <= i < |shops| ==> WellFormedDate(shops[i].date)
    ensures MonthSums(shops, items, d) == Tally(ItemsIn(items, ShopIds(ShopsInMonth(shops, d[..7]))))
  {
    MonthRangeSelectsMonth(shops, d);
  }

  /** A new row joins the selection of its own shop, at the end. */
  /**
   * With distinct shop ids, the day's item list holds each row of one of those
   * shops as often as the table does, and no other row: no item is summed twice.
   */
  lemma {:induction false} DayItemsCount(dayShops: seq<Shop>, items: seq<Item>)
    requires ShopIdsAscending(dayShops)
    ensures forall it :: multiset(DayItems(dayShops, items))[it]
                         == if it.shopId in ShopIds(dayShops) then multiset(items)[it] else 0
  {
    if dayShops != [] {
      var init, last := dayShops[..|dayShops| - 1], dayShops[|dayShops| - 1];
      DayItemsCount(init, items);
      ItemsOfCount(items, last.id);
      ShopIdsSnoc(init, last);
      assert init + [last] == dayShops;
      ShopIdsAt(init);
      assert last.id !in ShopIds(init) by {
        assert forall k :: 0 <= k < |init| ==> ShopIds(init)[k] < last.id;
      }
    }
  }

  /** Taking one row out of a list takes its contribution out of the sums. */
  lemma TallyRemove(pre: seq<Item>, x: Item, post: seq<Item>)
    ensures Tally(pre + [x] + post) == Tally(pre + post).Plus(Contribution(x))
  {
    TallyConcat(pre + [x], post);
    TallyConcat(pre, post);
    assert (pre + [x])[..|pre|] == pre;
  }

  lemma MultisetCancel(a: seq<Item>, b: seq<Item>, x: Item)
    requires multiset(a + [x]) == multiset(b + [x])
    ensures multiset(a) == multiset(b)
  {
    assert forall y :: multiset(a)[y] == multiset(b)[y] by {
      forall y ensures multiset(a)[y] == multiset(b)[y] {
        assert multiset(a + [x])[y] == multiset(b + [x])[y];
      }
    }
  }

  /** The sums do not depend on the order of the rows. */
  lemma {:induction false} TallyPermutation(a: seq<Item>, b: seq<Item>)
    requires multiset(a) == multiset(b)
    ensures Tally(a) == Tally(b)
    decreases |b|
  {
    if b == [] {
      assert |a| == |multiset(a)| == 0;
    } else {
      var x, b' := b[|b| - 1], b[..|b| - 1];
      assert b == b' + [x];
      assert x in multiset(a);
      var k :| 0 <= k < |a| && a[k] == x;
      var pre, post := a[..k], a[k + 1..];
      assert a == pre + [x] + post;
      assert multiset(a) == multiset(pre + post + [x]);
      MultisetCancel(pre + post, b', x);
      TallyPermutation(pre + post, b');
      TallyRemove(pre, x, post);
    }
  }

  /**
   * For an id-ordered shop table, the day totals are the sums over the rows
   * whose shop is dated `d`, each row once: the same filter as the month query.
   */
  lemma DaySumsByShopIds(shops: seq<Shop>, items: seq<Item>, d: string)
    requires ShopIdsAscending(shops)
    ensures DaySums(shops, items, d) == Tally(ItemsIn(items, ShopIds(ShopsOn(shops, d))))
  {
    var dayShops := ShopsOn(shops, d);
    ShopsOnAscending(shops, d);
    DayItemsCount(dayShops, items);
    ItemsInCount(items, ShopIds(dayShops));
    assert multiset(DayItems(dayShops, items)) == multiset(ItemsIn(items, ShopIds(dayShops)));
    TallyPermutation(DayItems(dayShops, items), ItemsIn(items, ShopIds(dayShops)));
  }

  /** With store-ordered tables every item of a shop dated `d` is summed exactly once, and no other item. */
  lemma DayItemsOnce(shops: seq<Shop>, items: seq<Item>, d: string)
    requires ShopIdsAscending(shops) && ItemIdsAscending(items)
    ensures forall it :: multiset(DayItems(ShopsOn(shops, d), items))[it]
                         == if it in items && it.shopId in ShopIds(ShopsOn(shops, d)) then 1 else 0
  {
    ShopsOnAscending(shops, d);
    DayItemsCount(ShopsOn(shops, d), items);
    ItemsOnce(items);
  }

  lemma ItemsOfSnoc(items: seq<Item>, row: Item, shopId: int)
    ensures ItemsOf(items + [row], shopId) == ItemsOf(items, shopId) + (if row.shopId == shopId then [row] else [])
  {
    assert (items + [row])[..|items|] == items;
  }

  lemma ItemsInSnoc(items: seq<Item>, row: Item, ids: seq<int>)
    ensures ItemsIn(items + [row], ids) == ItemsIn(items, ids) + (if row.shopId in ids then [row] else [])
  {
    assert (items + [row])[..|items|] == items;
  }

  /**
   * A created item adds its planned price to `month_planned` when its shop is
   * in the queried month, and nothing to `month_actual`: it starts unbought.
   */
  lemma CreateItemMonthSums(shops: seq<Shop>, items: seq<Item>, d: string, id: int, shopId: int, name: string, planned: int)
    ensures MonthSums(shops, items + [NewItem(id, shopId, name, planned)], d)
            == MonthSums(shops, items, d).Plus(
                 if shopId in ShopIds(ShopsInRange(shops, MonthKey(d))) then Sums(planned, 0) else Sums(0, 0))
  {
    var row := NewItem(id, shopId, name, planned);
    var ids := ShopIds(ShopsInRange(shops, MonthKey(d)));
    ItemsInSnoc(items, row, ids);
    TallyConcat(ItemsIn(items, ids), if row.shopId in ids then [row] else []);
  }

  /** The shop "Supermarket" on 2024-06-01, with Milk (300, bought) and Eggs (500, not bought). */
  function Supermarket(): seq<Shop> { [Shop(1, "2024-06-01", "Supermarket")] }

  function MilkAndEggs(): seq<Item> {
    [Item(1, 1, "Milk", Some(300), Some(300), Some(true)), Item(2, 1, "Eggs", Some(500), Some(500), Some(false))]
  }

  /** A day with a single shop sums that shop's items. */
  lemma OneShopItems(shop: Shop, items: seq<Item>)
    ensures DaySums([shop], items, shop.date) == Tally(ItemsOf(items, shop.id))
  {
    assert [shop][..0] == [];
    assert ShopsOn([shop], shop.date) == [shop];
    assert DayItems([shop], items) == ItemsOf(items, shop.id);
  }

  lemma {:induction false} ItemsOfAll(items: seq<Item>, shopId: int)
    requires forall i :: 0 <= i < |items| ==> items[i].shopId == shopId
    ensures ItemsOf(items, shopId) == items
  {
    if items != [] {
      ItemsOfAll(items[..|items| - 1], shopId);
    }
  }

  /** A one-shop day whose items all belong to that shop sums exactly those items. */
  lemma OneShopDay(shop: Shop, items: seq<Item>)
    requires forall i :: 0 <= i < |items| ==> items[i].shopId == shop.id
    ensures DaySums([shop], items, shop.date) == Tally(items)
  {
    OneShopItems(shop, items);
    ItemsOfAll(items, shop.id);
  }

  /** The Supermarket day plans 800 and has spent 300. */
  lemma SupermarketDay()
    ensures DaySums(Supermarket(), MilkAndEggs(), "2024-06-01") == Sums(800, 300)
  {
    var items := MilkAndEggs();

    assert items[..1][..0] == [];
    assert Tally(items[..1]) == Sums(300, 300);
  }

  /** Once Eggs is bought for 520 the Supermarket day has spent 820 and still plans 800. */
  lemma SupermarketEggsBought()
    ensures DaySums(Supermarket(), WithBought(WithActual(MilkAndEggs(), 2, 520), 2, true), "2024-06-01")
            == Sums(800, 820)
  {
    var items := WithBought(WithActual(MilkAndEggs(), 2, 520), 2, true);
    assert items == [MilkAndEggs()[0], MilkAndEggs()[1].(actualPrice := Some(520), isBought := Some(true))];

    assert items[..1][..0] == [];
    assert Tally(items[..1]) == Sums(300, 300);
  }

  // ----- the handler's accumulating loops -----

  /**
   * The `items.map(...)` callback of the day handler: normalise each item in
   * order and add its prices to the running day sums `acc`.
   */
  method ViewItems(items: seq<Item>, acc: Sums) returns (out: seq<ItemView>, sums: Sums)
    ensures out == NormalizeAll(items)
    ensures sums == acc.Plus(Tally(items))
  {
    out := [];
    sums := acc;
    var i := 0;
    while i < |items|
      invariant 0 <= i <= |items|
      invariant out == NormalizeAll(items[..i])
      invariant sums == acc.Plus(Tally(items[..i]))
    {
      var it := items[i];
      var pp := Planned(it);
      var ap := Actual(it);
      assert items[..i + 1][..i] == items[..i];
      sums := Sums(sums.planned + pp, if Bought(it) then sums.actual + ap else sums.actual);
      out := out + [ItemView(it.id, it.name, pp, ap, Bought(it))];
      i := i + 1;
    }
    assert items[..i] == items;
  }

  /** The month loop: add up every item of the month's shops. */
  method SumMonthItems(items: seq<Item>) returns (sums: Sums)
    ensures sums == Tally(items)
  {
    sums := Sums(0, 0);
    for i := 0 to |items|
      invariant sums == Tally(items[..i])
    {
      assert items[..i + 1][..i] == items[..i];
      sums := sums.Plus(Sums(Planned(items[i]), 0));
      if Bought(items[i]) {
        sums := sums.Plus(Sums(0, Actual(items[i])));
      }
    }
    assert items[..|items|] == items;
  }
}
