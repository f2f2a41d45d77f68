/**
 * The request handler of the shopping function: the JSON envelope, route
 * dispatch, the day view and the four mutations, over a `Store`.
 */
module Shopping {
  import opened Wrappers
  import opened Auth
  import opened Digits
  import opened Paths
  import opened Dates
  import opened Tables
  import opened Totals
  import opened Stores

  /** The body fields the POST routes read, each absent or of the type the client sends. */
  datatype Fields = Fields(
    date: Option<string>,
    name: Option<string>,
    shopId: Option<int>,
    plannedPrice: Option<int>,
    isBought: Option<bool>,
    actualPrice: Option<int>)

  /**
   * A request as the handler sees it: method, URL path, the `date` query
   * parameter, the `Authorization` header, and what `req.json()` yields
   * (the fields, or the text of the error it throws).
   */
  datatype Request = Request(
    verb: string,
    path: string,
    date: Option<string>,
    authorization: Option<string>,
    body: Result<Fields>)

  /** The CORS headers alone (preflight), or with `content-type: application/json`. */
  datatype Headers = Cors | CorsJson

  datatype DayTotals = DayTotals(dayPlanned: int, dayActual: int, monthPlanned: int, monthActual: int)

  /** The JSON bodies the handler writes. */
  datatype Payload =
    | NoBody                                                         // preflight
    | Failure(error: string)                                         // { ok: false, error }
    | Created(id: int)                                               // { ok: true, id }
    | Done                                                           // { ok: true }
    | DayView(date: string, shops: seq<ShopView>, totals: DayTotals)

  datatype Response = Response(status: int, headers: Headers, payload: Payload)

  /** `json(data, status)`. */
  function Json(data: Payload, status: int): Response {
    Response(status, CorsJson, data)
  }

  /** `bad(message, status)`: the `{ ok: false, error }` envelope. */
  function Bad(message: string, status: int): Response {
    Json(Failure(message), status)
  }

  // ----- dispatch -----

  datatype Route = DayRoute | ShopRoute | ItemRoute | ToggleRoute(id: nat) | ActualRoute(id: nat) | NoRoute

  /**
   * The handler's `if` chain over the method and the function-relative path.
   * The item routes accept only POST; the patterns never overlap, so the
   * order of the tests does not matter.
   */
  function RouteOf(verb: string, p: string): Route {
    if verb == "GET" && p == "/day" then DayRoute
    else if verb == "POST" && p == "/shop" then ShopRoute
    else if verb == "POST" && p == "/item" then ItemRoute
    else if verb == "POST" && ItemRouteId(p, "toggle").Some? then ToggleRoute(ItemRouteId(p, "toggle").value)
    else if verb == "POST" && ItemRouteId(p, "actual").Some? then ActualRoute(ItemRouteId(p, "actual").value)
    else NoRoute
  }

  /** Each route is taken exactly when its own test holds, whatever the order of the tests. */
  lemma RouteOfCases(verb: string, p: string)
    ensures RouteOf(verb, p) == DayRoute <==> verb == "GET" && p == "/day"
    ensures RouteOf(verb, p) == ShopRoute <==> verb == "POST" && p == "/shop"
    ensures RouteOf(verb, p) == ItemRoute <==> verb == "POST" && p == "/item"
    ensures RouteOf(verb, p).ToggleRoute? <==> verb == "POST" && ItemRouteId(p, "toggle").Some?
    ensures RouteOf(verb, p).ToggleRoute? ==> Some(RouteOf(verb, p).id) == ItemRouteId(p, "toggle")
    ensures RouteOf(verb, p).ActualRoute? <==> verb == "POST" && ItemRouteId(p, "actual").Some?
    ensures RouteOf(verb, p).ActualRoute? ==> Some(RouteOf(verb, p).id) == ItemRouteId(p, "actual")
  {
    ItemRoutesDisjoint(p);
  }

  /**
   * The URL the browser client posts to for an item action, behind any
   * function prefix such as `/functions/v1`, reaches that action on that item.
   */
  lemma ClientItemRoute(prefix: seq<string>, id: nat, action: string)
    requires Segments(prefix) && "shopping" !in prefix
    requires action in {"toggle", "actual"}
    ensures var r := RouteOf("POST", PathAfterFunction("/" + Join(prefix + ["shopping", "item", Decimal(id), action])));
            if action == "toggle" then r == ToggleRoute(id) else r == ActualRoute(id)
  {
    var ds := Decimal(id);
    assert '/' !in ds by {
      forall k | 0 <= k < |ds| ensures ds[k] != '/' { assert IsDigit(ds[k]); }
    }
    var route := ["item", ds, action];
    assert route == ["item"] + [ds, action] && [ds, action] == [ds] + [action];
    JoinCons("item", [ds, action]);
    JoinCons(ds, [action]);
    assert "/" + Join(route) == ItemPath(id, action);
    assert prefix + ["shopping", "item", ds, action] == prefix + ["shopping"] + route;
    RootedRouteBehindFunction(prefix, route);
    ItemRouteRoundTrip(id, action);
    RouteOfCases("POST", ItemPath(id, action));
  }

  // ----- GET /day -----

  /** `u.searchParams.get("date") || today`. */
  function DayOf(date: Option<string>, today: string): string {
    if date.Some? && date.value != "" then date.value else today
  }

  /** The day view the handler returns when every read succeeds. */
  function DayReply(shops: seq<Shop>, items: seq<Item>, d: string): Payload {
    var day := DaySums(shops, items, d);
    var month := MonthSums(shops, items, d);
    DayView(d, DayShops(ShopsOn(shops, d), items), DayTotals(day.planned, day.actual, month.planned, month.actual))
  }

  /** The reads of the month totals: the month's shop ids, then their items if there are any. */
  function MonthQueries(shops: seq<Shop>, ym: string): nat {
    1 + if |ShopIds(ShopsInRange(shops, ym))| == 0 then 0 else 1
  }

  /** The reads of a complete day view: the day's shops, one per shop, then the month's. */
  function DayQueries(shops: seq<Shop>, d: string): nat {
    1 + |ShopsOn(shops, d)| + MonthQueries(shops, MonthKey(d))
  }

  /** A month with no shop has zero month totals, read with the shop query alone. */
  lemma EmptyMonth(shops: seq<Shop>, items: seq<Item>, d: string)
    requires forall i :: 0 <= i < |shops| ==> !InMonthRange(shops[i].date, MonthKey(d))
    ensures MonthSums(shops, items, d) == Sums(0, 0)
    ensures MonthQueries(shops, MonthKey(d)) == 1
  {
    NoShopsInRange(shops, MonthKey(d));
    ItemsInNone(items);
  }

  /** One more shop of the day: its view and its items follow those of the shops before it. */
  lemma DayStep(dayShops: seq<Shop>, i: nat, items: seq<Item>)
    requires i < |dayShops|
    ensures DayShops(dayShops[..i + 1], items)
            == DayShops(dayShops[..i], items) + [ShopView(dayShops[i].id, dayShops[i].name, NormalizeAll(ItemsOf(items, dayShops[i].id)))]
    ensures DayItems(dayShops[..i + 1], items) == DayItems(dayShops[..i], items) + ItemsOf(items, dayShops[i].id)
  {
    assert dayShops[..i + 1][..i] == dayShops[..i];
  }

  /**
   * The loop over the day's shops: one read per shop, whose items are
   * normalised and added to the day sums. It stops at the first failed read.
   */
  method ReadDayShops(store: Store, dayShops: seq<Shop>) returns (r: Result<(seq<ShopView>, Sums)>)
    modifies store`calls
    ensures old(store.calls) <= store.calls <= old(store.calls) + |dayShops|
    ensures r.Ok? ==> store.calls == old(store.calls) + |dayShops| && store.NoFaults(old(store.calls), store.calls)
    ensures r.Ok? ==> r.value == (DayShops(dayShops, store.items), Tally(DayItems(dayShops, store.items)))
    ensures r.Err? ==> store.FailedAfter(old(store.calls), r.message)
  {
    var start := store.calls;
    var views: seq<ShopView> := [];
    var day := Sums(0, 0);
    for i := 0 to |dayShops|
      invariant store.calls == start + i
      invariant store.NoFaults(start, store.calls)
      invariant views == DayShops(dayShops[..i], store.items)
      invariant day == Tally(DayItems(dayShops[..i], store.items))
    {
      var itemsR := store.ItemsOfShop(dayShops[i].id);
      if itemsR.Err? {
        return Err(itemsR.message);
      }
      var shopViews, sums := ViewItems(itemsR.value, day);
      DayStep(dayShops, i, store.items);
      TallyConcat(DayItems(dayShops[..i], store.items), itemsR.value);
      views := views + [ShopView(dayShops[i].id, dayShops[i].name, shopViews)];
      day := sums;
    }
    assert dayShops[..|dayShops|] == dayShops;
    r := Ok((views, day));
  }

  /** The month totals: no item read when the month has no shop. */
  method ReadMonth(store: Store, ym: string) returns (r: Result<Sums>)
    modifies store`calls
    ensures old(store.calls) < store.calls <= old(store.calls) + MonthQueries(store.shops, ym)
    ensures r.Ok? ==> store.calls == old(store.calls) + MonthQueries(store.shops, ym)
                      && store.NoFaults(old(store.calls), store.calls)
    ensures r.Ok? ==> r.value == Tally(ItemsIn(store.items, ShopIds(ShopsInRange(store.shops, ym))))
    ensures r.Err? ==> store.FailedAfter(old(store.calls), r.message)
  {
    var idsR := store.ShopIdsInMonth(ym);
    if idsR.Err? {
      return Err(idsR.message);
    }
    if |idsR.value| == 0 {
      ItemsInNone(store.items);
      return Ok(Sums(0, 0));
    }
    var itemsR := store.ItemsOfShops(idsR.value);
    if itemsR.Err? {
      return Err(itemsR.message);
    }
    var sums := SumMonthItems(itemsR.value);
    r := Ok(sums);
  }

  /**
   * The reads of the `GET /day` branch, from request number `n` on: the day's
   * shops, one read per shop, then the month. Either the whole reply, or the
   * message of the first read that failed, never a partial view; and the
   * reply whenever no read fails.
   */
  method ReadDay(store: Store, d: string) returns (r: Result<Payload>)
    modifies store`calls
    ensures old(store.calls) < store.calls <= old(store.calls) + DayQueries(store.shops, d)
    ensures r.Ok? ==> r.value == DayReply(store.shops, store.items, d)
    ensures r.Err? ==> store.FailedAfter(old(store.calls), r.message)
    ensures store.NoFaults(old(store.calls), old(store.calls) + DayQueries(store.shops, d)) ==>
              r.Ok? && store.calls == old(store.calls) + DayQueries(store.shops, d)
  {
    var start := store.calls;
    var shopsR := store.ShopsOnDate(d);
    if shopsR.Err? {
      store.FailureBreaks(start, start + DayQueries(store.shops, d), shopsR.message);
      return Err(shopsR.message);
    }
    var dayR := ReadDayShops(store, shopsR.value);
    if dayR.Err? {
      store.FailedAfterEarlier(start, start + 1, dayR.message);
      store.FailureBreaks(start, start + DayQueries(store.shops, d), dayR.message);
      return Err(dayR.message);
    }
    var mid := store.calls;
    store.NoFaultsJoin(start, start + 1, mid);
    var monthR := ReadMonth(store, MonthKey(d));
    if monthR.Err? {
      store.FailedAfterEarlier(start, mid, monthR.message);
      store.FailureBreaks(start, start + DayQueries(store.shops, d), monthR.message);
      return Err(monthR.message);
    }
    store.NoFaultsJoin(start, mid, store.calls);
    var views, day, month := dayR.value.0, dayR.value.1, monthR.value;
    r := Ok(DayView(d, views, DayTotals(day.planned, day.actual, month.planned, month.actual)));
  }

  /**
   * What the `GET /day` branch promises for a run whose first read is request
   * number `n`: 200 with the full day view, or 500 with the message of the
   * first read that failed, never a partial view; and 200 whenever no read fails.
   */
  predicate DayServed(store: Store, n: nat, d: string, resp: Response)
    reads store
  {
    && resp.status in {200, 500}
    && n < store.calls <= n + DayQueries(store.shops, d)
    && (resp.status == 200 ==> resp == Json(DayReply(store.shops, store.items, d), 200))
    && (resp.status == 500 ==>
          resp.payload.Failure? && resp == Bad(resp.payload.error, 500)
          && store.FailedAfter(n, resp.payload.error))
    && (store.NoFaults(n, n + DayQueries(store.shops, d)) ==>
          resp.status == 200 && store.calls == n + DayQueries(store.shops, d))
  }

  /** The `GET /day` branch. It only reads the store. */
  method HandleDay(store: Store, d: string) returns (resp: Response)
    modifies store`calls
    ensures DayServed(store, old(store.calls), d, resp)
  {
    var r := ReadDay(store, d);
    if r.Err? {
      return Bad(r.message, 500);
    }
    resp := Json(r.value, 200);
  }

  // ----- the mutations -----

  datatype NewShop = NewShop(date: string, name: string)

  /** `POST /shop` input: `String(body.date || "")` and the trimmed `String(body.name || "")`, both required. */
  function ShopInput(f: Fields): (r: Option<NewShop>)
    ensures r.None? <==> f.date.GetOr("") == "" || Trim(f.name.GetOr("")) == ""
    ensures r.Some? ==> r.value.date == f.date.value && r.value.date != ""
    ensures r.Some? ==> r.value.name != "" && Trimmed(r.value.name) && r.value.name == Trim(f.name.value)
  {
    var d := f.date.GetOr("");
    var name := Trim(f.name.GetOr(""));
    if d == "" || name == "" then None else Some(NewShop(d, name))
  }

  datatype NewItemInput = NewItemInput(shopId: int, name: string, planned: int)

  /**
   * `POST /item` input: `Number(body.shop_id || 0)` must not be 0, the trimmed
   * name must not be empty, and `planned_price` defaults to 0.
   */
  function ItemInput(f: Fields): (r: Option<NewItemInput>)
    ensures r.None? <==> f.shopId.GetOr(0) == 0 || Trim(f.name.GetOr("")) == ""
    ensures r.Some? ==> r.value.shopId == f.shopId.value && r.value.shopId != 0
    ensures r.Some? ==> r.value.name != "" && Trimmed(r.value.name) && r.value.name == Trim(f.name.value)
    ensures r.Some? ==> r.value.planned == f.plannedPrice.GetOr(0)
  {
    var shopId := f.shopId.GetOr(0);
    var name := Trim(f.name.GetOr(""));
    if shopId == 0 || name == "" then None else Some(NewItemInput(shopId, name, f.plannedPrice.GetOr(0)))
  }

  /** Every answer other than 200 is the `{ ok: false, error }` envelope with status 400 or 500. */
  predicate FailureEnvelope(resp: Response) {
    resp.status != 200 ==> resp.status in {400, 500} && resp.headers == CorsJson && resp.payload.Failure?
  }

  /**
   * What `POST /shop` promises, from request number `n` and the `shops` table
   * `shops0` with next id `next0`: an unreadable body is 500 and invalid input
   * 400, neither sending a request; otherwise one insert, answered with the new
   * id and the row appended, or with the store's error and no row written.
   */
  predicate ShopPosted(store: Store, n: nat, shops0: seq<Shop>, next0: int, body: Result<Fields>, resp: Response)
    reads store
  {
    && FailureEnvelope(resp)
    && (body.Err? ==> resp == Bad(body.message, 500) && store.calls == n && store.shops == shops0)
    && (body.Ok? && ShopInput(body.value).None? ==>
          resp == Bad("date and name required", 400) && store.calls == n && store.shops == shops0)
    && (body.Ok? && ShopInput(body.value).Some? ==>
          var input := ShopInput(body.value).value;
          && store.calls == n + 1
          && (n in store.faults ==> resp == Bad(store.faults[n], 500) && store.shops == shops0)
          && (n !in store.faults ==>
                resp == Json(Created(next0), 200) && store.shops == shops0 + [Shop(next0, input.date, input.name)]))
  }

  /**
   * What `POST /item` promises: as for a shop, with the new row carrying the
   * planned price as its actual price and not bought; an insert naming no
   * existing shop is refused with 500 and writes nothing.
   */
  predicate ItemPosted(store: Store, n: nat, items0: seq<Item>, next0: int, body: Result<Fields>, resp: Response)
    reads store
  {
    && FailureEnvelope(resp)
    && (body.Err? ==> resp == Bad(body.message, 500) && store.calls == n && store.items == items0)
    && (body.Ok? && ItemInput(body.value).None? ==>
          resp == Bad("shop_id and name required", 400) && store.calls == n && store.items == items0)
    && (body.Ok? && ItemInput(body.value).Some? ==>
          var input := ItemInput(body.value).value;
          var known := input.shopId in ShopIds(store.shops);
          && store.calls == n + 1
          && (n in store.faults ==> resp == Bad(store.faults[n], 500) && store.items == items0)
          && (n !in store.faults && !known ==> resp == Bad(MissingShopError, 500) && store.items == items0)
          && (n !in store.faults && known ==>
                resp == Json(Created(next0), 200)
                && store.items == items0 + [NewItem(next0, input.shopId, input.name, input.planned)]))
  }

  /**
   * What `POST /item/<id>/toggle` promises: one update setting `is_bought` of
   * the rows with that id to `!!body.is_bought`, answered `{ ok: true }`, or the
   * store's error with no row changed.
   */
  predicate Toggled(store: Store, n: nat, items0: seq<Item>, id: int, body: Result<Fields>, resp: Response)
    reads store
  {
    && FailureEnvelope(resp)
    && (body.Err? ==> resp == Bad(body.message, 500) && store.calls == n && store.items == items0)
    && (body.Ok? ==>
          && store.calls == n + 1
          && (n in store.faults ==> resp == Bad(store.faults[n], 500) && store.items == items0)
          && (n !in store.faults ==>
                resp == Json(Done, 200) && store.items == WithBought(items0, id, body.value.isBought.GetOr(false))))
  }

  /**
   * What `POST /item/<id>/actual` promises: one update setting `actual_price`
   * of the rows with that id to `body.actual_price || 0`, answered `{ ok: true }`,
   * or the store's error with no row changed.
   */
  predicate ActualSet(store: Store, n: nat, items0: seq<Item>, id: int, body: Result<Fields>, resp: Response)
    reads store
  {
    && FailureEnvelope(resp)
    && (body.Err? ==> resp == Bad(body.message, 500) && store.calls == n && store.items == items0)
    && (body.Ok? ==>
          && store.calls == n + 1
          && (n in store.faults ==> resp == Bad(store.faults[n], 500) && store.items == items0)
          && (n !in store.faults ==>
                resp == Json(Done, 200) && store.items == WithActual(items0, id, body.value.actualPrice.GetOr(0))))
  }

  /** The `POST /shop` branch. */
  method CreateShop(store: Store, body: Result<Fields>) returns (resp: Response)
    requires store.Valid()
    modifies store`calls, store`shops, store`nextShopId
    ensures store.Valid()
    ensures ShopPosted(store, old(store.calls), old(store.shops), old(store.nextShopId), body, resp)
    ensures store.calls == old(store.calls) ==> unchanged(store)
  {
    if body.Err? {
      return Bad(body.message, 500);
    }
    var input := ShopInput(body.value);
    if input.None? {
      return Bad("date and name required", 400);
    }
    var r := store.InsertShop(input.value.date, input.value.name);
    if r.Err? {
      return Bad(r.message, 500);
    }
    resp := Json(Created(r.value), 200);
  }

  /** The `POST /item` branch. */
  method CreateItem(store: Store, body: Result<Fields>) returns (resp: Response)
    requires store.Valid()
    modifies store`calls, store`items, store`nextItemId
    ensures store.Valid()
    ensures ItemPosted(store, old(store.calls), old(store.items), old(store.nextItemId), body, resp)
    ensures store.calls == old(store.calls) ==> unchanged(store)
  {
    if body.Err? {
      return Bad(body.message, 500);
    }
    var input := ItemInput(body.value);
    if input.None? {
      return Bad("shop_id and name required", 400);
    }
    var r := store.InsertItem(input.value.shopId, input.value.name, input.value.planned);
    if r.Err? {
      return Bad(r.message, 500);
    }
    resp := Json(Created(r.value), 200);
  }

  /** The `POST /item/<id>/toggle` branch: no existence check is made. */
  method Toggle(store: Store, id: nat, body: Result<Fields>) returns (resp: Response)
    requires store.Valid()
    modifies store`calls, store`items
    ensures store.Valid()
    ensures Toggled(store, old(store.calls), old(store.items), id, body, resp)
    ensures store.calls == old(store.calls) ==> unchanged(store)
  {
    if body.Err? {
      return Bad(body.message, 500);
    }
    var fault := store.UpdateBought(id, body.value.isBought.GetOr(false));
    if fault.Some? {
      return Bad(fault.value, 500);
    }
    resp := Json(Done, 200);
  }

  /** The `POST /item/<id>/actual` branch. */
  method SetActual(store: Store, id: nat, body: Result<Fields>) returns (resp: Response)
    requires store.Valid()
    modifies store`calls, store`items
    ensures store.Valid()
    ensures ActualSet(store, old(store.calls), old(store.items), id, body, resp)
    ensures store.calls == old(store.calls) ==> unchanged(store)
  {
    if body.Err? {
      return Bad(body.message, 500);
    }
    var fault := store.UpdateActual(id, body.value.actualPrice.GetOr(0));
    if fault.Some? {
      return Bad(fault.value, 500);
    }
    resp := Json(Done, 200);
  }

  // ----- the handler -----

  /** Past the preflight and the token check. */
  predicate Admitted(token: Option<string>, req: Request) {
    req.verb != "OPTIONS" && RequireToken(token, req.authorization).Allow?
  }

  /** The route an admitted request takes. */
  function RouteFor(req: Request): Route {
    RouteOf(req.verb, PathAfterFunction(req.path))
  }

  /**
   * Everything after the token check: the branch of the request's route, with
   * that branch's promise, or 404. Only `/shop` writes shops and only the item
   * routes write items.
   */
  method Dispatch(store: Store, today: string, req: Request) returns (resp: Response)
    requires store.Valid()
    modifies store
    ensures store.Valid()
    ensures resp.status in {200, 400, 404, 500}
    ensures resp.status != 200 ==> resp.headers == CorsJson && resp.payload.Failure?
    ensures RouteFor(req) == NoRoute ==>
              resp == Bad("not found: " + req.verb + " " + PathAfterFunction(req.path), 404) && unchanged(store)
    ensures RouteFor(req) == DayRoute ==>
              DayServed(store, old(store.calls), DayOf(req.date, today), resp)
              && store.shops == old(store.shops) && store.items == old(store.items)
    ensures RouteFor(req) == ShopRoute ==>
              ShopPosted(store, old(store.calls), old(store.shops), old(store.nextShopId), req.body, resp)
    ensures RouteFor(req) == ItemRoute ==>
              ItemPosted(store, old(store.calls), old(store.items), old(store.nextItemId), req.body, resp)
    ensures RouteFor(req).ToggleRoute? ==>
              Toggled(store, old(store.calls), old(store.items), RouteFor(req).id, req.body, resp)
    ensures RouteFor(req).ActualRoute? ==>
              ActualSet(store, old(store.calls), old(store.items), RouteFor(req).id, req.body, resp)
    ensures store.shops != old(store.shops) ==> RouteFor(req) == ShopRoute
    ensures store.items != old(store.items) ==>
              RouteFor(req) == ItemRoute || RouteFor(req).ToggleRoute? || RouteFor(req).ActualRoute?
  {
    var p := PathAfterFunction(req.path);
    match RouteOf(req.verb, p)
    case DayRoute =>
      resp := HandleDay(store, DayOf(req.date, today));
    case ShopRoute =>
      resp := CreateShop(store, req.body);
    case ItemRoute =>
      resp := CreateItem(store, req.body);
    case ToggleRoute(id) =>
      resp := Toggle(store, id, req.body);
    case ActualRoute(id) =>
      resp := SetActual(store, id, req.body);
    case NoRoute =>
      resp := Bad("not found: " + req.verb + " " + p, 404);
  }

  /**
   * The `Deno.serve` callback, with the configured token and today's date
   * passed in. Preflight is answered before the token check, and the token
   * check comes before any use of the store.
   */
  method Handle(store: Store, token: Option<string>, today: string, req: Request) returns (resp: Response)
    requires store.Valid()
    modifies store
    ensures store.Valid()
    ensures resp.status in {200, 204, 400, 401, 403, 404, 500}
    ensures resp.status != 200 && resp.status != 204 ==> resp.headers == CorsJson && resp.payload.Failure?
    ensures req.verb == "OPTIONS" ==> resp == Response(204, Cors, NoBody) && unchanged(store)
    ensures req.verb != "OPTIONS" && RequireToken(token, req.authorization).Reject? ==>
              var auth := RequireToken(token, req.authorization);
              resp == Bad(auth.message, auth.status) && unchanged(store)
    ensures Admitted(token, req) && RouteFor(req) == NoRoute ==>
              resp == Bad("not found: " + req.verb + " " + PathAfterFunction(req.path), 404) && unchanged(store)
    ensures Admitted(token, req) && RouteFor(req) == DayRoute ==>
              DayServed(store, old(store.calls), DayOf(req.date, today), resp)
              && store.shops == old(store.shops) && store.items == old(store.items)
    ensures Admitted(token, req) && RouteFor(req) == ShopRoute ==>
              ShopPosted(store, old(store.calls), old(store.shops), old(store.nextShopId), req.body, resp)
    ensures Admitted(token, req) && RouteFor(req) == ItemRoute ==>
              ItemPosted(store, old(store.calls), old(store.items), old(store.nextItemId), req.body, resp)
    ensures Admitted(token, req) && RouteFor(req).ToggleRoute? ==>
              Toggled(store, old(store.calls), old(store.items), RouteFor(req).id, req.body, resp)
    ensures Admitted(token, req) && RouteFor(req).ActualRoute? ==>
              ActualSet(store, old(store.calls), old(store.items), RouteFor(req).id, req.body, resp)
    ensures store.shops != old(store.shops) ==> Admitted(token, req) && RouteFor(req) == ShopRoute
    ensures store.items != old(store.items) ==>
              Admitted(token, req) && (RouteFor(req) == ItemRoute || RouteFor(req).ToggleRoute? || RouteFor(req).ActualRoute?)
  {
    if req.verb == "OPTIONS" {
      return Response(204, Cors, NoBody);
    }
    var auth := RequireToken(token, req.authorization);
    if auth.Reject? {
      return Bad(auth.message, auth.status);
    }
    resp := Dispatch(store, today, req);
  }
}
