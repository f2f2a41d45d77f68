/**
 * Bearer-credential parsing and the static-token auth decision of the
 * shopping function (`getBearer` and `requireToken`).
 */
module Auth {
  import opened Wrappers

  /** The code points JavaScript counts as WhiteSpace or LineTerminator:
      what the regular-expression class `\s` matches and `String.prototype.trim` strips. */
  predicate IsSpace(c: char) {
    || c == '\t' || c == '\n' || c == '\U{B}' || c == '\U{C}' || c == '\r' || c == ' '
    || c == '\U{A0}' || c == '\U{1680}' || ('\U{2000}' <= c <= '\U{200A}')
    || c == '\U{2028}' || c == '\U{2029}' || c == '\U{202F}' || c == '\U{205F}'
    || c == '\U{3000}' || c == '\U{FEFF}'
  }

  /** The code points the regular-expression `.` refuses to match (no `s` flag). */
  predicate IsLineTerminator(c: char) {
    c == '\n' || c == '\r' || c == '\U{2028}' || c == '\U{2029}'
  }

  predicate NoLineTerminator(s: string) {
    forall i :: 0 <= i < |s| ==> !IsLineTerminator(s[i])
  }

  /** Neither end of `s` is whitespace. */
  predicate Trimmed(s: string) {
    |s| > 0 ==> !IsSpace(s[0]) && !IsSpace(s[|s| - 1])
  }

  /** Length of the run of whitespace that starts `s`. */
  function LeadingSpaces(s: string): (n: nat)
    ensures n <= |s|
    ensures forall i :: 0 <= i < n ==> IsSpace(s[i])
    ensures n < |s| ==> !IsSpace(s[n])
  {
    if s == [] || !IsSpace(s[0]) then 0 else 1 + LeadingSpaces(s[1..])
  }

  /** Length of the run of whitespace that ends `s`. */
  function TrailingSpaces(s: string): (n: nat)
    ensures n <= |s|
    ensures forall i :: |s| - n <= i < |s| ==> IsSpace(s[i])
    ensures n < |s| ==> !IsSpace(s[|s| - 1 - n])
  {
    if s == [] || !IsSpace(s[|s| - 1]) then 0 else 1 + TrailingSpaces(s[..|s| - 1])
  }

  /**
   * `String.prototype.trim`: the slice of `s` left once both whitespace runs
   * are cut. Only whitespace is cut, and what is left has none at either end.
   */
  function Trim(s: string): (r: string)
    ensures Trimmed(r)
    ensures exists i, j :: 0 <= i <= j <= |s| && r == s[i..j]
                           && (forall k :: 0 <= k < i ==> IsSpace(s[k]))
                           && (forall k :: j <= k < |s| ==> IsSpace(s[k]))
    ensures Trimmed(s) ==> r == s
  {
    var i := LeadingSpaces(s);
    var t := TrailingSpaces(s[i..]);
    var j := |s| - t;
    assert s[i..j] == s[i..][..|s[i..]| - t];
    assert forall k :: j <= k < |s| ==> IsSpace(s[k]) by {
      forall k | j <= k < |s| ensures IsSpace(s[k]) {
        assert s[k] == s[i..][k - i];
      }
    }
    s[i..j]
  }

  function AsciiLower(c: char): char {
    if 'A' <= c <= 'Z' then (c as int + 32) as char else c
  }

  /** `w` spells "Bearer" in any mix of ASCII case (the `i` flag). */
  predicate IsBearerScheme(w: string) {
    |w| == 6 && forall i :: 0 <= i < 6 ==> AsciiLower(w[i]) == "bearer"[i]
  }

  /**
   * `getBearer`: the credential of an `Authorization` header matched against
   * `/^Bearer\s+(.+)$/i`, trimmed. The greedy `\s+` takes the whole whitespace
   * run after the scheme unless that would leave `.+` nothing to match, in
   * which case it gives back its last character; `.` matches no line
   * terminator and `$` only the end of the header.
   */
  function GetBearer(header: Option<string>): (r: Option<string>)
    ensures r.Some? ==> |header.GetOr("")| >= 8
    ensures r.Some? ==> IsBearerScheme(header.value[..6]) && IsSpace(header.value[6])
    ensures r.Some? ==> Trimmed(r.value) && NoLineTerminator(r.value)
  {
    var h := header.GetOr("");
    if |h| < 6 || !IsBearerScheme(h[..6]) then None
    else
      var rest := h[6..];
      var k := LeadingSpaces(rest);
      if k == 0 then None
      else if k < |rest| then
        (if NoLineTerminator(rest[k..]) then Some(Trim(rest[k..])) else None)
      else if k >= 2 && !IsLineTerminator(rest[k - 1]) then Some(Trim(rest[k - 1..]))
      else None
  }

  /** The header the browser client builds: `Bearer ${token}`. */
  function BearerHeader(token: string): string {
    "Bearer " + token
  }

  /**
   * Parsing a header written as scheme, whitespace, then a single-line credential
   * gives back the credential with its trailing whitespace trimmed.
   */
  lemma {:induction false} GetBearerRoundTrip(scheme: string, gap: string, token: string)
    requires IsBearerScheme(scheme)
    requires |gap| > 0 && forall i :: 0 <= i < |gap| ==> IsSpace(gap[i])
    requires token != [] && !IsSpace(token[0]) && NoLineTerminator(token)
    ensures GetBearer(Some(scheme + gap + token)) == Some(Trim(token))
  {
    var h := scheme + gap + token;
    assert h[..6] == scheme;
    var rest := h[6..];
    assert rest == gap + token;
    LeadingSpacesOfGap(gap, token);
    assert rest[|gap|..] == token;
  }

  lemma {:induction false} LeadingSpacesOfGap(gap: string, token: string)
    requires forall i :: 0 <= i < |gap| ==> IsSpace(gap[i])
    requires token != [] && !IsSpace(token[0])
    ensures LeadingSpaces(gap + token) == |gap|
  {
    if gap != [] {
      assert (gap + token)[1..] == gap[1..] + token;
      LeadingSpacesOfGap(gap[1..], token);
    }
  }

  /** Whether a token is configured at all: `!expected` holds for an absent or empty one. */
  predicate AuthDisabled(expected: Option<string>) {
    expected.None? || expected.value == ""
  }

  datatype AuthDecision = Allow | Reject(status: int, message: string)

  /**
   * `requireToken`: no configured token allows everything; otherwise a missing
   * or empty credential is 401, a different one 403, an identical one allowed.
   */
  function RequireToken(expected: Option<string>, header: Option<string>): (r: AuthDecision)
    ensures r.Allow? <==> AuthDisabled(expected) || GetBearer(header) == expected
    ensures r == Reject(401, "missing bearer token") <==>
              !AuthDisabled(expected) && GetBearer(header) in {None, Some("")}
    ensures r == Reject(403, "invalid token") <==>
              !AuthDisabled(expected) && !(GetBearer(header) in {None, Some("")}) && GetBearer(header) != expected
    ensures r.Reject? ==> r.status in {401, 403}
  {
    if AuthDisabled(expected) then Allow
    else
      var got := GetBearer(header);
      if got.None? || got.value == "" then Reject(401, "missing bearer token")
      else if got != expected then Reject(403, "invalid token")
      else Allow
  }

  /** A client that sends `Bearer <token>` for the configured token is let through. */
  lemma TokenHeaderAllowed(token: string)
    requires token != [] && Trimmed(token) && NoLineTerminator(token)
    ensures RequireToken(Some(token), Some(BearerHeader(token))) == Allow
  {
    assert IsBearerScheme("Bearer");
    assert BearerHeader(token) == "Bearer" + " " + token;
    GetBearerRoundTrip("Bearer", " ", token);
    assert Trim(token) == token;
  }

  /** With a token configured, being let through means the header carried exactly that token. */
  lemma AllowedOnlyWithToken(token: string, header: Option<string>)
    requires token != ""
    requires RequireToken(Some(token), header) == Allow
    ensures header.Some? && |header.value| >= 8 && IsBearerScheme(header.value[..6])
    ensures GetBearer(header) == Some(token)
  {
  }
}
