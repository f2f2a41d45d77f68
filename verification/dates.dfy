/**
 * Date strings as the day handler uses them: the month key `d.slice(0, 7)`
 * and the month filter `ym-01 <= date < ym-32`, compared as strings.
 */
module Dates {
  import opened Digits

  /** Lexicographic order of strings by code point. */
  predicate StrLess(a: string, b: string) {
    if a == [] then b != []
    else if b == [] then false
    else if a[0] != b[0] then a[0] < b[0]
    else StrLess(a[1..], b[1..])
  }

  /** `d.slice(0, 7)`: the year-month key, or all of `d` when it is shorter. */
  function MonthKey(d: string): (ym: string)
    ensures |ym| == if |d| < 7 then |d| else 7
    ensures ym <= d
  {
    if |d| < 7 then d else d[..7]
  }

  /** The lower bound of the month query, `${ym}-01`. */
  function MonthStart(ym: string): string { ym + "-01" }

  /** The upper bound of the month query, `${ym}-32`, one past any day the month can have. */
  function MonthEnd(ym: string): string { ym + "-32" }

  /** The month query's filter: `.gte("date", ym-01).lt("date", ym-32)`. */
  predicate InMonthRange(s: string, ym: string) {
    !StrLess(s, MonthStart(ym)) && StrLess(s, MonthEnd(ym))
  }

  /** A `YYYY-MM-DD` string whose month is 01-12 and whose day is 01-31. */
  predicate WellFormedDate(s: string) {
    && |s| == 10
    && IsDigit(s[0]) && IsDigit(s[1]) && IsDigit(s[2]) && IsDigit(s[3])
    && s[4] == '-' && s[7] == '-'
    && IsDigit(s[5]) && IsDigit(s[6]) && IsDigit(s[8]) && IsDigit(s[9])
    && (s[5] == '0' || (s[5] == '1' && s[6] <= '2')) && s[5..7] != "00"
    && s[8] <= '3' && s[8..10] != "00" && (s[8] == '3' ==> s[9] <= '1')
  }

  /** A shared prefix does not affect the order. */
  lemma {:induction false} StrLessCommonPrefix(p: string, a: string, b: string)
    ensures StrLess(p + a, p + b) == StrLess(a, b)
  {
    if p == [] {
      assert p + a == a && p + b == b;
    } else {
      assert (p + a)[0] == (p + b)[0];
      assert (p + a)[1..] == p[1..] + a;
      assert (p + b)[1..] == p[1..] + b;
      StrLessCommonPrefix(p[1..], a, b);
    }
  }

  /** When the first `n` characters differ, they alone decide the order. */
  lemma {:induction false} StrLessDecidedByPrefix(a: string, b: string, n: nat)
    requires n <= |a| && n <= |b| && a[..n] != b[..n]
    ensures StrLess(a, b) == StrLess(a[..n], b[..n])
  {
    assert a != [] && b != [];
    if a[0] == b[0] {
      assert a[..n][1..] == a[1..][..n - 1];
      assert b[..n][1..] == b[1..][..n - 1];
      StrLessDecidedByPrefix(a[1..], b[1..], n - 1);
    }
  }

  /** The day part of a well-formed date lies in `[-01, -32)`. */
  lemma DayWithinBounds(s: string)
    requires WellFormedDate(s)
    ensures !StrLess(s[7..], "-01") && StrLess(s[7..], "-32")
  {
    var t := s[7..];
    var u := s[8..10];
    assert t == "-" + u && u == [s[8], s[9]];
    assert StrLess(t, "-01") == StrLess(u, "01");
    assert StrLess(t, "-32") == StrLess(u, "32");
    assert StrLess([s[9]], "1") == (s[9] < '1') && StrLess([s[9]], "2") == (s[9] < '2');
    assert StrLess(u, "01") == if s[8] != '0' then s[8] < '0' else StrLess([s[9]], "1");
    assert StrLess(u, "32") == if s[8] != '3' then s[8] < '3' else StrLess([s[9]], "2");
  }

  /**
   * For a well-formed queried date `d` and a well-formed stored date `s`,
   * the string range `[ym-01, ym-32)` holds exactly the dates of `d`'s month.
   */
  lemma MonthRangeIsMonthPrefix(d: string, s: string)
    requires WellFormedDate(d) && WellFormedDate(s)
    ensures InMonthRange(s, MonthKey(d)) <==> s[..7] == d[..7]
  {
    var ym := MonthKey(d);
    if s[..7] == ym {
      assert s == ym + s[7..];
      StrLessCommonPrefix(ym, s[7..], "-01");
      StrLessCommonPrefix(ym, s[7..], "-32");
      DayWithinBounds(s);
    } else {
      StrLessDecidedByPrefix(s, MonthStart(ym), 7);
      StrLessDecidedByPrefix(s, MonthEnd(ym), 7);
      assert MonthStart(ym)[..7] == ym && MonthEnd(ym)[..7] == ym;
    }
  }
}
