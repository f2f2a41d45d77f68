# Shopping edge function, modelled in Dafny

This project models the `shopping` Supabase edge function
(`supabase/functions/shopping/index.ts`). The function is the backend of a
small planned-versus-actual grocery budget app. It serves:

- `GET /day` returns the day's shops, their items, the day totals and the month totals;
- `POST /shop` creates a shop;
- `POST /item` creates an item;
- `POST /item/<id>/toggle` sets an item's bought flag;
- `POST /item/<id>/actual` sets an item's actual price.

Before the routes, it answers CORS preflight and checks a static bearer
token. Every other method and path is answered with 404.

The database is replaced by an in-memory `Stores.Store` class. It holds
the `shops` and `items` tables as sequences and assigns ids in insertion
order. Each request sent to the store is numbered. A fixed map
`faults` says which numbered requests the backend answers with an error
message. A failure can therefore strike any read or write, and the
handler's reaction to it is part of every contract.

Modules, following the structure of the source:

| module | file | what it holds |
|---|---|---|
| `Wrappers` | wrappers.dfy | `Option` and `Result` |
| `Auth` | auth.dfy | `getBearer`, `requireToken`, JavaScript whitespace and `trim()` |
| `Digits` | digits.dfy | decimal digit strings (`\d+`) and their value (`Number`) |
| `Paths` | paths.dfy | `pathAfterFunction` (`split`, `filter(Boolean)`, `indexOf`, `join`), the `/item/<digits>/<action>` patterns |
| `Dates` | dates.dfy | the month key `d.slice(0, 7)` and the `[ym-01, ym-32)` string range |
| `Tables` | tables.dfy | table rows, the store's filters (`eq`, `gte`/`lt`, `in`) and updates |
| `Totals` | totals.dfy | item normalisation, day and month sums (recursive specifications) and the loops that compute them |
| `Stores` | stores.dfy | the `Store` class: reads, inserts and updates, with failures |
| `Shopping` | shopping.dfy | the JSON envelope, route dispatch, the `/day` handler, the four mutations and the top-level handler |

Where the design description and the code disagree, the model follows the code:

- **Month range.** The month filter is the literal string range `[ym-01, ym-32)`, not an exact month end. `Dates.MonthRangeIsMonthPrefix` proves this range is the exact month for well-formed `YYYY-MM-DD` dates.
- **Budget routes.** The backend has no budget route. `POST /budget` falls through to the 404.
- **Empty credential.** A credential that is present but empty is answered with 401, as a missing one is.
- **Shop reference of a new item.** The handler only checks that `shop_id` is not 0. The model assumes the `items` table has a foreign key on `shop_id`, so that the store refuses an unknown shop with a 500, not a 400.

## Model

| member | source | states |
|---|---|---|
| Auth.Trim | supabase/functions/shopping/index.ts:39 | `trim()` cuts only whitespace: the result is a slice of the input whose cut-off ends are all JavaScript whitespace, it has no whitespace at either end, and a trimmed string is left unchanged |
| Auth.GetBearer | supabase/functions/shopping/index.ts:36-40 | a token is returned only when the header starts with `Bearer` in any case, followed by a whitespace character and more text; the token is trimmed and holds no line terminator |
| Auth.GetBearerRoundTrip | supabase/functions/shopping/index.ts:36-40 | any case spelling of `Bearer`, one or more whitespace characters, then a single-line credential that does not start with whitespace, gives back that credential with its trailing whitespace trimmed |
| Auth.RequireToken | supabase/functions/shopping/index.ts:42-52 | allow exactly when no token is configured or the bearer equals it; 401 "missing bearer token" exactly when a token is configured and the credential is absent or empty; 403 "invalid token" exactly when it differs |
| Auth.TokenHeaderAllowed | supabase/functions/shopping/index.ts:42-52 | a request carrying `Bearer <token>` for the configured token is admitted |
| Auth.AllowedOnlyWithToken | supabase/functions/shopping/index.ts:42-52 | with a token configured, an admitted request carries a `Bearer` header whose credential is that token |
| Paths.SplitJoin | supabase/functions/shopping/index.ts:64 | splitting on `/` the join of slash-free segments gives them back |
| Paths.JoinSplit | supabase/functions/shopping/index.ts:64 | joining the pieces of `split("/")` with `/` gives back the path |
| Paths.NonEmpty | supabase/functions/shopping/index.ts:64 | `filter(Boolean)` keeps exactly the non-empty segments |
| Paths.IndexOf | supabase/functions/shopping/index.ts:65 | `indexOf` is -1 exactly when the segment is absent, else the first position holding it |
| Paths.PathAfterFunction | supabase/functions/shopping/index.ts:61-68 | the result starts with `/` and has no empty segment; it is `/` when no segment is `shopping` |
| Paths.RouteBehindFunction | supabase/functions/shopping/index.ts:61-68 | for any raw path, empty segments included: when its non-empty segments are a prefix without `shopping`, then `shopping`, then `route`, the result is `/` followed by `route` joined with `/` |
| Paths.RootedRouteBehindFunction | supabase/functions/shopping/index.ts:61-68 | the URL path `/<prefix>/shopping/<route>` of non-empty segments yields `/<route>` |
| Digits.DecimalRoundTrip | supabase/functions/shopping/index.ts:185 | `Number` of the decimal digits of an id is that id |
| Paths.ItemRouteDigits | supabase/functions/shopping/index.ts:183-185 | `/item/`, any non-empty run of decimal digits and `/<action>` matches, with the digits' decimal value as the id |
| Paths.ItemRouteMatches | supabase/functions/shopping/index.ts:183-185 | a path matches exactly when it is `/item/`, a non-empty run of digits and `/<action>`, and the id is the value of those digits |
| Paths.ItemRouteRoundTrip | supabase/functions/shopping/index.ts:183-185 | `/item/<digits of id>/<action>` matches and yields that id |
| Paths.ItemRoutesDisjoint | supabase/functions/shopping/index.ts:183-201 | no path matches both item patterns, and `/day`, `/shop`, `/item` match neither |
| Dates.MonthKey | supabase/functions/shopping/index.ts:83 | the key is the first seven characters (all of a shorter string) and is a prefix of the date |
| Dates.MonthRangeIsMonthPrefix | supabase/functions/shopping/index.ts:121-127 | for well-formed dates, `ym-01 <= s < ym-32` as strings holds exactly when `s` has the same year-month |
| Tables.ShopIdsAt | supabase/functions/shopping/index.ts:129 | the id list has one entry per shop, in order |
| Tables.ShopsOnMembers | supabase/functions/shopping/index.ts:85-89 | the day query returns exactly the shops dated `d` |
| Tables.ShopsOnAscending | supabase/functions/shopping/index.ts:85-89 | the day's shops come back in id order, as `order("id")` asks |
| Tables.NoShopsOn | supabase/functions/shopping/index.ts:85-89 | a date no shop carries selects no shop |
| Tables.ShopsInRangeMembers | supabase/functions/shopping/index.ts:122-126 | the month query returns exactly the shops whose date is in `[ym-01, ym-32)` |
| Tables.NoShopsInRange | supabase/functions/shopping/index.ts:122-126 | a range no shop falls in selects no shop |
| Tables.MonthRangeSelectsMonth | supabase/functions/shopping/index.ts:121-127 | for well-formed dates, the month query selects the same shops as a year-month prefix test |
| Tables.ItemsOfMembers | supabase/functions/shopping/index.ts:97-101 | a shop's item query returns exactly the rows naming that shop |
| Tables.ItemsOfAscending | supabase/functions/shopping/index.ts:97-101 | a shop's items come back in id order, as `order("id")` asks |
| Tables.ItemsOfCount | supabase/functions/shopping/index.ts:97-101 | a shop's item query holds each row naming the shop as often as the table does, and no other row |
| Tables.ItemsInMembers | supabase/functions/shopping/index.ts:133-136 | the month item query returns exactly the rows naming one of the ids |
| Tables.ItemsInCount | supabase/functions/shopping/index.ts:133-136 | the month item query holds each row naming one of the ids as often as the table does, and no other row |
| Tables.ItemsOnce | supabase/functions/shopping/index.ts:97-101 | in a table with increasing ids every row occurs exactly once |
| Tables.ItemsInNone | supabase/functions/shopping/index.ts:132 | an empty id list selects no item |
| Tables.WithBoughtFields | supabase/functions/shopping/index.ts:188 | the update keeps the length, and keeps every row's id, shop, name and prices; the flag becomes the new one exactly on rows with that id |
| Tables.WithActualFields | supabase/functions/shopping/index.ts:198 | the update keeps the length, and keeps every row's id, shop, name, planned price and flag; the actual price becomes the new one exactly on rows with that id |
| Totals.NormalizeAllAt | supabase/functions/shopping/index.ts:104-116 | each returned item keeps id and name, has NULL prices as 0 and `is_bought` true only for a stored `true` |
| Totals.ViewItems | supabase/functions/shopping/index.ts:104-116 | the `map` loop returns the normalised items and adds their planned sum and bought-actual sum to the running totals |
| Totals.DayShopsAt | supabase/functions/shopping/index.ts:96-119 | the view holds every shop of the day in order, each with exactly its own normalised items |
| Totals.DayItemsMembers | supabase/functions/shopping/index.ts:96-108 | the day totals run over exactly the items that belong to one of the day's shops |
| Totals.DayItemsCount | supabase/functions/shopping/index.ts:96-108 | the items the day loop reads hold each row of one of the day's shops as often as the table does, and no other row |
| Totals.DayItemsOnce | supabase/functions/shopping/index.ts:96-108 | with increasing ids, the day loop reads each item of a day's shop exactly once and no other item |
| Totals.TallyPermutation | supabase/functions/shopping/index.ts:107-108 | the planned and actual sums do not depend on the order of the items |
| Totals.DaySumsByShopIds | supabase/functions/shopping/index.ts:96-108 | the day totals equal the sums over the items whose shop is one of the day's shops, as a single `in` query would select them |
| Totals.TallyConcat | supabase/functions/shopping/index.ts:107-108 | the planned and actual sums are additive over concatenation |
| Totals.SumMonthItems | supabase/functions/shopping/index.ts:138-141 | the month loop computes the planned sum and the bought-actual sum of the rows |
| Totals.DayItemsWithBought | supabase/functions/shopping/index.ts:188 | toggling then selecting a day's items equals selecting then toggling |
| Totals.DayItemsWithActual | supabase/functions/shopping/index.ts:198 | setting a price then selecting a day's items equals selecting then setting |
| Totals.ToggleKeepsPlanned | supabase/functions/shopping/index.ts:188 | a toggle leaves the day and month planned totals unchanged |
| Totals.SetActualKeepsPlanned | supabase/functions/shopping/index.ts:198 | setting an actual price leaves the day and month planned totals unchanged |
| Totals.MarkBoughtAddsActual | supabase/functions/shopping/index.ts:108 | marking an unbought item bought adds exactly its actual price to the actual sum and nothing to the planned sum |
| Totals.EmptyDay | supabase/functions/shopping/index.ts:96-119 | a date with no shop gives no shops and zero day totals |
| Totals.MonthSumsByYearMonth | supabase/functions/shopping/index.ts:121-141 | for well-formed dates the month totals are those of the shops in the date's year-month |
| Totals.CreateItemMonthSums | supabase/functions/shopping/index.ts:176 | a new item adds its planned price to the month's planned total when its shop is in the month, and nothing to the actual total |
| Totals.OneShopDay | supabase/functions/shopping/index.ts:96-108 | a day with one shop sums exactly that shop's items |
| Totals.SupermarketDay | supabase/functions/shopping/index.ts:96-108 | a shop with milk (300, bought) and eggs (500, not bought) gives day totals 800 planned, 300 actual |
| Totals.SupermarketEggsBought | supabase/functions/shopping/index.ts:183-201 | after setting the eggs' actual price to 520 and marking them bought, the day totals are 800 planned, 820 actual |
| Stores.Store.ShopsOnDate | supabase/functions/shopping/index.ts:85-90 | one read: the shops dated `d`, or the backend's error |
| Stores.Store.ItemsOfShop | supabase/functions/shopping/index.ts:97-102 | one read: the shop's items, or the backend's error |
| Stores.Store.ShopIdsInMonth | supabase/functions/shopping/index.ts:122-129 | one read: the ids of the shops in the month range, or the backend's error |
| Stores.Store.ItemsOfShops | supabase/functions/shopping/index.ts:133-137 | one read: the items of the listed shops, or the backend's error |
| Stores.Store.InsertShop | supabase/functions/shopping/index.ts:162 | on success appends the shop under the next id and returns it; on failure changes no row; keeps ids increasing |
| Stores.Store.InsertItem | supabase/functions/shopping/index.ts:174-178 | on success appends the row with actual price equal to planned and not bought; an unknown shop is refused; the table invariant is kept |
| Stores.Store.UpdateBought | supabase/functions/shopping/index.ts:188 | on success the items become the old items with the flag set on that id, and otherwise nothing changes; a missing id is no error |
| Stores.Store.UpdateActual | supabase/functions/shopping/index.ts:198 | on success the items become the old items with the price set on that id, and otherwise nothing changes |
| Shopping.RouteOfCases | supabase/functions/shopping/index.ts:81-201 | each route is taken exactly when its method and path test holds, and item routes carry the id from the path |
| Shopping.ClientItemRoute | supabase/functions/shopping/index.ts:183-194 | the URL a client builds for an item action, behind any function prefix, reaches that action on that id |
| Shopping.EmptyMonth | supabase/functions/shopping/index.ts:129-142 | with no shop in the month range, the month totals are 0 and only the shop query is sent |
| Shopping.ReadDayShops | supabase/functions/shopping/index.ts:96-119 | the loop sends one read per shop; on success it returns the day's shop views and day totals; on the first failed read it stops with that read's message |
| Shopping.ReadMonth | supabase/functions/shopping/index.ts:121-142 | the month totals of the shops in range, with no item read when there is none, or the first failed read's message |
| Shopping.ReadDay | supabase/functions/shopping/index.ts:83-153 | the day's reads return the full day reply or the first failing read's message, never a partial view; the reply whenever no read fails; at most the planned number of reads |
| Shopping.HandleDay | supabase/functions/shopping/index.ts:81-153 | only reads; answers 200 with the full day view, or 500 with the first failing read's message and never a partial view; when no read fails it answers 200 |
| Shopping.ShopInput | supabase/functions/shopping/index.ts:157-160 | rejected exactly when the date is empty or the trimmed name is empty; otherwise the date and the trimmed name |
| Shopping.ItemInput | supabase/functions/shopping/index.ts:168-172 | rejected exactly when `shop_id` is 0 or absent or the trimmed name is empty; the planned price defaults to 0 |
| Shopping.CreateShop | supabase/functions/shopping/index.ts:156-165 | a malformed body gives 500 and invalid input 400 "date and name required", neither touching the store; otherwise one insert: 200 with the new id and the shop appended, or the error with 500 and no row written |
| Shopping.CreateItem | supabase/functions/shopping/index.ts:167-181 | a malformed body gives 500 and invalid input 400 "shop_id and name required", neither touching the store; otherwise one insert: 200 with the new id and the defaulted row appended, or 500 with no row written, in particular for an unknown shop |
| Shopping.Toggle | supabase/functions/shopping/index.ts:183-191 | a malformed body gives 500 without touching the store; otherwise one update setting `is_bought` of the path's id to the boolean of the body field, with no existence check, answered `{ ok: true }`, or 500 with no row changed |
| Shopping.SetActual | supabase/functions/shopping/index.ts:193-201 | a malformed body gives 500 without touching the store; otherwise one update setting `actual_price` of the path's id to the body field or 0, answered `{ ok: true }`, or 500 with no row changed |
| Shopping.Dispatch | supabase/functions/shopping/index.ts:80-206 | each route's answer and new tables are those its branch promises: `/day` serves the day view or the first failure and writes nothing; `/shop`, `/item`, toggle and actual give their 200, 400 and 500 answers with the rows they write; an unmatched method and path gives 404 `not found: <METHOD> <path>` and leaves the store untouched; only `/shop` writes shops and only the item routes write items |
| Shopping.Handle | supabase/functions/shopping/index.ts:70-206 | OPTIONS gets 204 with the CORS headers before any auth check; a rejected token gets 401/403 before the store is touched; an admitted request gets its route's promised answer and new tables; every error uses the `{ ok: false, error }` envelope |

## Left out

- `script.js` (the browser client) is not part of this model. It is page construction, event handling and `fetch` calls.
- Budget and delete operations are left out. The backend has no such routes, so those requests fall through to the 404, which is modelled.
- `Deno.serve`, `Deno.env`, the Supabase client, `Request`/`Response` objects and JSON encoding are the boundary.
  - A request is a record of method, URL path, `date` query parameter, `Authorization` header and parsed body.
  - The path is the raw `URL.pathname`, which is not percent-decoded, as the handler uses it. So `/item/5%2Ftoggle` is one segment and is answered with 404.
  - The configured token is an optional input.
  - `Headers` only distinguishes "CORS headers" from "CORS headers plus JSON content type"; the header values are not modelled.
- The parsing of the full URL into its pathname and query is not modelled.
- `supabaseAdmin` throwing when its environment variables are missing is not modelled. That throw happens outside the `try`, so it is not a JSON response.
- JavaScript number semantics are not modelled: floating point, `NaN`, and `Number`/`String` applied to values of unexpected type.
  - Prices and ids are integers, and body fields are typed optionals.
  - `x || default` is "absent, or zero/empty, becomes the default".
  - Ids beyond the exact integer range of a double are not distinguished.
- The "today" default for `date` is an input, `today`, instead of the clock.
- Concurrency and read consistency across the several independent store reads are not modelled. Each read sees the current tables.
- Whether the database accepts `ym-32` as a date literal is the store's concern. The filter is modelled as code-point string comparison.
- The month item query has no `order`. Its rows are taken in table order, which does not affect the sums.
- The store's own error texts are not modelled.
  - `faults` and `Stores.MissingShopError` stand in for them.
  - A thrown error (`String(e)`) is the message of the body's `Err`.
- Totals.CreateItemMonthSums: the effect of a new item on the day totals is not stated, only its effect on the month totals.
- The foreign key on `items.shop_id` is an assumption about the schema, which is not part of this model. `Stores.Store.InsertItem`, `Stores.Store.Valid` and the 500 for an item of an unknown shop rest on it.
