/**
 * The function-relative path (`pathAfterFunction`) and the two
 * parameterised item routes `/item/<digits>/toggle` and `/item/<digits>/actual`.
 */
module Paths {
  import opened Wrappers
  import opened Digits

  /** `s.split("/")`: always at least one piece, and no piece holds a slash. */
  function Split(s: string): (r: seq<string>)
    ensures |r| >= 1
    ensures forall i :: 0 <= i < |r| ==> '/' !in r[i]
  {
    if s == [] then [""]
    else
      var t := Split(s[1..]);
      if s[0] == '/' then [""] + t else [[s[0]] + t[0]] + t[1..]
  }

  /** `parts.join("/")`. */
  function Join(parts: seq<string>): string {
    if |parts| == 0 then ""
    else if |parts| == 1 then parts[0]
    else parts[0] + "/" + Join(parts[1..])
  }

  /** `parts.filter(Boolean)`: the non-empty pieces, in order. */
  function NonEmpty(parts: seq<string>): (r: seq<string>)
    ensures forall i :: 0 <= i < |r| ==> r[i] != "" && r[i] in parts
    ensures forall p :: p in parts && p != "" ==> p in r
  {
    if parts == [] then []
    else if parts[0] == "" then NonEmpty(parts[1..])
    else [parts[0]] + NonEmpty(parts[1..])
  }

  /** `parts.indexOf(x)`: the first position of `x`, or -1. */
  function IndexOf(parts: seq<string>, x: string): (r: int)
    ensures r >= -1
    ensures r == -1 <==> x !in parts
    ensures r >= 0 ==> r < |parts| && parts[r] == x && x !in parts[..r]
  {
    if parts == [] then -1
    else if parts[0] == x then 0
    else
      var k := IndexOf(parts[1..], x);
      if k == -1 then -1
      else
        assert parts[..k + 1] == [parts[0]] + parts[1..][..k];
        k + 1
  }

  predicate Segments(parts: seq<string>) {
    forall i :: 0 <= i < |parts| ==> parts[i] != "" && '/' !in parts[i]
  }

  /** A slash splits a string into the pieces of either side. */
  lemma {:induction false} SplitAround(a: string, b: string)
    ensures Split(a + "/" + b) == Split(a) + Split(b)
  {
    if a == [] {
      assert a + "/" + b == ['/'] + b;
      assert (['/'] + b)[1..] == b;
    } else {
      assert (a + "/" + b)[1..] == a[1..] + "/" + b;
      SplitAround(a[1..], b);
    }
  }

  lemma {:induction false} SplitNoSlash(s: string)
    requires '/' !in s
    ensures Split(s) == [s]
  {
    if s != [] {
      SplitNoSlash(s[1..]);
      assert [s[0]] + s[1..] == s;
    }
  }

  /** Splitting what was joined gives the pieces back. */
  lemma {:induction false} SplitJoin(parts: seq<string>)
    requires |parts| >= 1
    requires forall i :: 0 <= i < |parts| ==> '/' !in parts[i]
    ensures Split(Join(parts)) == parts
  {
    if |parts| == 1 {
      SplitNoSlash(parts[0]);
    } else {
      SplitJoin(parts[1..]);
      SplitAround(parts[0], Join(parts[1..]));
      SplitNoSlash(parts[0]);
    }
  }

  /** Joining what was split gives the string back. */
  lemma {:induction false} JoinSplit(s: string)
    ensures Join(Split(s)) == s
  {
    if s != [] {
      JoinSplit(s[1..]);
      var t := Split(s[1..]);
      if s[0] == '/' {
        assert s == "/" + s[1..];
      } else if |t| == 1 {
        assert s == [s[0]] + t[0];
      } else {
        assert Join([[s[0]] + t[0]] + t[1..]) == [s[0]] + t[0] + "/" + Join(t[1..]);
        assert Join(t) == t[0] + "/" + Join(t[1..]);
        assert s == [s[0]] + s[1..];
      }
    }
  }

  lemma JoinCons(a: string, rest: seq<string>)
    requires rest != []
    ensures Join([a] + rest) == a + "/" + Join(rest)
  {
    assert ([a] + rest)[1..] == rest;
  }

  lemma {:induction false} NonEmptySegments(parts: seq<string>)
    requires Segments(parts)
    ensures NonEmpty(parts) == parts
  {
    if parts != [] {
      NonEmptySegments(parts[1..]);
    }
  }

  lemma {:induction false} NonEmptyConcat(a: seq<string>, b: seq<string>)
    ensures NonEmpty(a + b) == NonEmpty(a) + NonEmpty(b)
  {
    if a == [] {
      assert a + b == b;
    } else {
      assert (a + b)[0] == a[0] && (a + b)[1..] == a[1..] + b;
      NonEmptyConcat(a[1..], b);
    }
  }

  /** A path with no empty segment: "/" itself, or "/" followed by slash-free, non-empty pieces. */
  predicate Canonical(p: string) {
    |p| >= 1 && p[0] == '/' && (p == "/" || forall i :: 0 <= i < |Split(p[1..])| ==> Split(p[1..])[i] != "")
  }

  /**
   * `pathAfterFunction`: the non-empty segments of the URL path that follow
   * the first `shopping` segment, joined behind a single slash.
   */
  function PathAfterFunction(path: string): (r: string)
    ensures Canonical(r)
    ensures "shopping" !in NonEmpty(Split(path)) ==> r == "/"
  {
    var parts := NonEmpty(Split(path));
    var i := IndexOf(parts, "shopping");
    var rest := if i >= 0 then parts[i + 1..] else [];
    assert Segments(rest) by {
      forall k | 0 <= k < |rest| ensures rest[k] != "" && '/' !in rest[k] {
        assert rest[k] in parts;
      }
    }
    assert rest != [] ==> Split(Join(rest)) == rest by {
      if rest != [] { SplitJoin(rest); }
    }
    "/" + Join(rest)
  }

  /** A path of non-empty segments behind a leading slash splits back into exactly those segments. */
  lemma SegmentsOfRootedJoin(all: seq<string>)
    requires |all| >= 1 && Segments(all)
    ensures NonEmpty(Split("/" + Join(all))) == all
  {
    SplitAround("", Join(all));
    assert "" + "/" + Join(all) == "/" + Join(all);
    SplitJoin(all);
    NonEmptyConcat([""], all);
    NonEmptySegments(all);
  }

  lemma {:induction false} IndexOfFirst(prefix: seq<string>, x: string, suffix: seq<string>)
    requires x !in prefix
    ensures IndexOf(prefix + [x] + suffix, x) == |prefix|
  {
    var all := prefix + [x] + suffix;
    if prefix != [] {
      assert all[1..] == prefix[1..] + [x] + suffix;
      IndexOfFirst(prefix[1..], x, suffix);
    }
  }

  /**
   * Whatever the raw path, empty segments included: when its non-empty segments
   * are `prefix`, then `shopping`, then `route`, and `prefix` holds no
   * `shopping`, the function-relative path is `/` followed by `route`.
   */
  lemma RouteBehindFunction(path: string, prefix: seq<string>, route: seq<string>)
    requires NonEmpty(Split(path)) == prefix + ["shopping"] + route
    requires "shopping" !in prefix
    ensures PathAfterFunction(path) == "/" + Join(route)
  {
    IndexOfFirst(prefix, "shopping", route);
    assert (prefix + ["shopping"] + route)[|prefix| + 1..] == route;
  }

  /** The function's URL `/<prefix segments>/shopping/<route segments>` yields `/<route segments>`. */
  lemma RootedRouteBehindFunction(prefix: seq<string>, route: seq<string>)
    requires Segments(prefix) && "shopping" !in prefix
    requires Segments(route)
    ensures PathAfterFunction("/" + Join(prefix + ["shopping"] + route)) == "/" + Join(route)
  {
    var all := prefix + ["shopping"] + route;
    assert Segments(all) by {
      forall k | 0 <= k < |all| ensures all[k] != "" && '/' !in all[k] {
        if k < |prefix| { assert all[k] == prefix[k]; }
        else if k > |prefix| { assert all[k] == route[k - |prefix| - 1]; }
      }
    }
    SegmentsOfRootedJoin(all);
    RouteBehindFunction("/" + Join(all), prefix, route);
  }

  // ----- the item routes -----

  /**
   * The item id of a path matching `^/item/(\d+)/<action>$`, or None:
   * `p.match(...)` followed by `Number(m[1])`.
   */
  function ItemRouteId(p: string, action: string): (r: Option<nat>)
    requires '/' !in action
    ensures r.Some? ==> |p| > 7 + |action| && p[..6] == "/item/" && p[|p| - |action| - 1..] == "/" + action
  {
    var tail := 1 + |action|;
    if |p| > 6 + tail && p[..6] == "/item/" && p[|p| - tail..] == "/" + action && AllDigits(p[6..|p| - tail])
    then Some(DecimalValue(p[6..|p| - tail]))
    else None
  }

  /** `/item/${id}/<action>`, the path the browser client requests. */
  function ItemPath(id: nat, action: string): string {
    "/item/" + Decimal(id) + "/" + action
  }

  /** Every run of digits between `/item/` and `/<action>` is recognised, with its decimal value. */
  lemma ItemRouteDigits(ds: string, action: string)
    requires ds != [] && AllDigits(ds) && '/' !in action
    ensures ItemRouteId("/item/" + ds + "/" + action, action) == Some(DecimalValue(ds))
  {
    var p := "/item/" + ds + "/" + action;
    assert p[..6] == "/item/";
    assert p[|p| - 1 - |action|..] == "/" + action;
    assert p[6..|p| - 1 - |action|] == ds;
  }

  /**
   * A path is an item route exactly when it is `/item/`, a non-empty run of
   * digits and `/<action>`; the id is the value of those digits. Any other
   * segment, such as `abc` or an empty one, is not an item route.
   */
  lemma ItemRouteMatches(p: string, action: string)
    requires '/' !in action
    ensures ItemRouteId(p, action).Some? <==>
              exists ds :: ds != [] && AllDigits(ds) && p == "/item/" + ds + "/" + action
    ensures ItemRouteId(p, action).Some? ==>
              exists ds :: ds != [] && AllDigits(ds) && p == "/item/" + ds + "/" + action
                           && ItemRouteId(p, action).value == DecimalValue(ds)
  {
    if ItemRouteId(p, action).Some? {
      var ds := p[6..|p| - 1 - |action|];
      assert p == p[..6] + ds + p[|p| - 1 - |action|..];
    }
    if exists ds :: ds != [] && AllDigits(ds) && p == "/item/" + ds + "/" + action {
      var ds :| ds != [] && AllDigits(ds) && p == "/item/" + ds + "/" + action;
      ItemRouteDigits(ds, action);
    }
  }

  /** The item routes recognise exactly the id the client wrote into the path. */
  lemma ItemRouteRoundTrip(id: nat, action: string)
    requires '/' !in action
    ensures ItemRouteId(ItemPath(id, action), action) == Some(id)
  {
    ItemRouteDigits(Decimal(id), action);
    DecimalRoundTrip(id);
  }

  /** A toggle path is never a set-actual path, and neither is one of the fixed routes. */
  lemma ItemRoutesDisjoint(p: string)
    ensures ItemRouteId(p, "toggle").Some? ==> ItemRouteId(p, "actual").None?
    ensures p in {"/day", "/shop", "/item"} ==> ItemRouteId(p, "toggle").None? && ItemRouteId(p, "actual").None?
  {
    assert ItemRouteId(p, "toggle").Some? ==> p[|p| - 1] == ("/" + "toggle")[6] == 'e';
    assert ItemRouteId(p, "actual").Some? ==> p[|p| - 1] == ("/" + "actual")[6] == 'l';
  }
}
