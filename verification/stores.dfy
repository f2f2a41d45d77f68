/**
 * The relational store behind the shopping function: the `shops` and
 * `items` tables, the reads the handler sends and the rows it writes.
 */
module Stores {
  import opened Wrappers
  import opened Tables

  /** What the store answers when a new item names a shop that does not exist. */
  const MissingShopError := "insert on items violates the shop_id reference"

  /**
   * In-memory `shops` and `items` tables. Every request sent to the store is
   * numbered by `calls`; `faults` holds, per request number, the error the
   * backend answers with instead of a result. A failed request changes no row.
   */
  class Store {
    var shops: seq<Shop>
    var items: seq<Item>
    var nextShopId: int
    var nextItemId: int
    var calls: nat
    const faults: map<nat, string>

    /** Ids are store-assigned and increasing, and every item belongs to an existing shop. */
    predicate Valid()
      reads this
    {
      && ShopIdsAscending(shops) && ItemIdsAscending(items)
      && 1 <= nextShopId && 1 <= nextItemId
      && (forall i :: 0 <= i < |shops| ==> 1 <= shops[i].id < nextShopId)
      && (forall i :: 0 <= i < |items| ==> 1 <= items[i].id < nextItemId)
      && (forall i :: 0 <= i < |items| ==> items[i].shopId in ShopIds(shops))
    }

    constructor (faults: map<nat, string>)
      ensures Valid()
      ensures shops == [] && items == [] && calls == 0 && this.faults == faults
    {
      shops, items := [], [];
      nextShopId, nextItemId := 1, 1;
      calls := 0;
      this.faults := faults;
    }

    /** What request number `n` returns: `rows`, or the backend's error. */
    function Answer<T>(n: nat, rows: T): Result<T> {
      if n in faults then Err(faults[n]) else Ok(rows)
    }

    /** No request numbered in `[lo, hi)` fails. */
    predicate NoFaults(lo: nat, hi: nat)
      decreases hi
    {
      hi <= lo || (hi - 1 !in faults && NoFaults(lo, hi - 1))
    }

    lemma {:induction false} NoFaultsJoin(a: nat, b: nat, c: nat)
      requires a <= b <= c && NoFaults(a, b) && NoFaults(b, c)
      ensures NoFaults(a, c)
      decreases c
    {
      if b < c {
        NoFaultsJoin(a, b, c - 1);
      }
    }

    /** The last request sent since number `lo` failed with `message`, and none before it. */
    predicate FailedAfter(lo: nat, message: string)
      reads this
    {
      lo < calls && calls - 1 in faults && faults[calls - 1] == message && NoFaults(lo, calls - 1)
    }

    /** A failed request breaks every run of requests that covers it. */
    lemma {:induction false} FailureBreaks(lo: nat, hi: nat, message: string)
      requires FailedAfter(lo, message) && calls <= hi
      ensures !NoFaults(lo, hi)
      decreases hi
    {
      if hi > calls {
        FailureBreaks(lo, hi - 1, message);
      }
    }

    /** A failure after `mid`, with none in `[lo, mid)`, is a failure after `lo`. */
    lemma FailedAfterEarlier(lo: nat, mid: nat, message: string)
      requires lo <= mid && NoFaults(lo, mid) && FailedAfter(mid, message)
      ensures FailedAfter(lo, message)
    {
      NoFaultsJoin(lo, mid, calls - 1);
    }

    /** `.from("shops").select("id,name").eq("date", d).order("id")`. */
    method ShopsOnDate(d: string) returns (r: Result<seq<Shop>>)
      modifies this`calls
      ensures calls == old(calls) + 1
      ensures r == Answer(old(calls), ShopsOn(shops, d))
    {
      r := Answer(calls, ShopsOn(shops, d));
      calls := calls + 1;
    }

    /** `.from("items").select(...).eq("shop_id", shopId).order("id")`. */
    method ItemsOfShop(shopId: int) returns (r: Result<seq<Item>>)
      modifies this`calls
      ensures calls == old(calls) + 1
      ensures r == Answer(old(calls), ItemsOf(items, shopId))
    {
      r := Answer(calls, ItemsOf(items, shopId));
      calls := calls + 1;
    }

    /** `.from("shops").select("id").gte("date", ym-01).lt("date", ym-32)`, as a list of ids. */
    method ShopIdsInMonth(ym: string) returns (r: Result<seq<int>>)
      modifies this`calls
      ensures calls == old(calls) + 1
      ensures r == Answer(old(calls), ShopIds(ShopsInRange(shops, ym)))
    {
      r := Answer(calls, ShopIds(ShopsInRange(shops, ym)));
      calls := calls + 1;
    }

    /** `.from("items").select(...).in("shop_id", ids)`. */
    method ItemsOfShops(ids: seq<int>) returns (r: Result<seq<Item>>)
      modifies this`calls
      ensures calls == old(calls) + 1
      ensures r == Answer(old(calls), ItemsIn(items, ids))
    {
      r := Answer(calls, ItemsIn(items, ids));
      calls := calls + 1;
    }

    /** `.from("shops").insert({ date, name }).select("id").single()`: the new row takes the next id. */
    method InsertShop(date: string, name: string) returns (r: Result<int>)
      requires Valid()
      modifies this`calls, this`shops, this`nextShopId
      ensures Valid()
      ensures calls == old(calls) + 1
      ensures r == Answer(old(calls), old(nextShopId))
      ensures r.Ok? ==> shops == old(shops) + [Shop(r.value, date, name)] && nextShopId == old(nextShopId) + 1
      ensures r.Err? ==> shops == old(shops) && nextShopId == old(nextShopId)
    {
      r := Answer(calls, nextShopId);
      calls := calls + 1;
      if r.Ok? {
        ShopIdsSnoc(shops, Shop(nextShopId, date, name));
        shops := shops + [Shop(nextShopId, date, name)];
        nextShopId := nextShopId + 1;
      }
    }

    /**
     * `.from("items").insert({ shop_id, name, planned_price, actual_price: planned_price,
     * is_bought: false }).select("id").single()`; the store refuses an unknown shop.
     */
    method InsertItem(shopId: int, name: string, planned: int) returns (r: Result<int>)
      requires Valid()
      modifies this`calls, this`items, this`nextItemId
      ensures Valid()
      ensures calls == old(calls) + 1
      ensures r == if old(calls) in faults then Err(faults[old(calls)])
                   else if shopId !in ShopIds(shops) then Err(MissingShopError)
                   else Ok(old(nextItemId))
      ensures r.Ok? ==> items == old(items) + [NewItem(r.value, shopId, name, planned)]
                        && nextItemId == old(nextItemId) + 1
      ensures r.Err? ==> items == old(items) && nextItemId == old(nextItemId)
    {
      if calls in faults {
        r := Err(faults[calls]);
      } else if shopId !in ShopIds(shops) {
        r := Err(MissingShopError);
      } else {
        r := Ok(nextItemId);
        items := items + [NewItem(nextItemId, shopId, name, planned)];
        nextItemId := nextItemId + 1;
      }
      calls := calls + 1;
    }

    /** `.from("items").update({ is_bought }).eq("id", id)`: no row with that id is no error. */
    method UpdateBought(id: int, flag: bool) returns (fault: Option<string>)
      requires Valid()
      modifies this`calls, this`items
      ensures Valid()
      ensures calls == old(calls) + 1
      ensures fault == if old(calls) in faults then Some(faults[old(calls)]) else None
      ensures items == if fault.None? then WithBought(old(items), id, flag) else old(items)
    {
      fault := if calls in faults then Some(faults[calls]) else None;
      if fault.None? {
        items := WithBought(items, id, flag);
      }
      calls := calls + 1;
    }

    /** `.from("items").update({ actual_price }).eq("id", id)`. */
    method UpdateActual(id: int, price: int) returns (fault: Option<string>)
      requires Valid()
      modifies this`calls, this`items
      ensures Valid()
      ensures calls == old(calls) + 1
      ensures fault == if old(calls) in faults then Some(faults[old(calls)]) else None
      ensures items == if fault.None? then WithActual(old(items), id, price) else old(items)
    {
      fault := if calls in faults then Some(faults[calls]) else None;
      if fault.None? {
        items := WithActual(items, id, price);
      }
      calls := calls + 1;
    }
  }
}
