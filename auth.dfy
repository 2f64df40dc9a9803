/**
 * Reading the bearer token of a request: the header is looked up, an empty
 * one is refused, and one leading "Bearer " is removed.
 */
module Auth {
  import opened Types

  const BearerPrefix := "Bearer "

  /** Whether `s` is a suffix of `t`. */
  predicate IsSuffix(s: string, t: string)
  {
    |s| <= |t| && t[|t| - |s|..] == s
  }

  /** The library's prefix trim: drop `prefix` once if `s` starts with it. */
  function TrimPrefix(s: string, prefix: string): (r: string)
    ensures IsSuffix(r, s)
    ensures prefix <= s ==> prefix + r == s
    ensures !(prefix <= s) ==> r == s
  {
    if prefix <= s then s[|prefix|..] else s
  }

  /**
   * The token of an Authorization header value. A missing header reads as
   * the empty string, which is an error beside an empty token; any other
   * header succeeds, with one leading "Bearer " removed if it has one.
   */
  function GetAuthToken(header: string): (r: Returned<string>)
    ensures header == "" ==> r == Returned("", Some(MissingAuthorization))
    ensures header != "" ==> r.err == None && IsSuffix(r.value, header)
    ensures header != "" && BearerPrefix <= header ==> BearerPrefix + r.value == header
    ensures header != "" && !(BearerPrefix <= header) ==> r.value == header
  {
    if header == "" then Returned("", Some(MissingAuthorization))
    else Returned(TrimPrefix(header, BearerPrefix), None)
  }

  /** The header value an outgoing request carries for `token`. */
  function BearerHeader(token: string): (h: string)
    ensures h != "" && BearerPrefix <= h
  {
    BearerPrefix + token
  }

  /** Reading back the header written for a token gives the token. */
  lemma BearerHeaderRoundTrip(token: string)
    ensures GetAuthToken(BearerHeader(token)) == Returned(token, None)
  {
    assert BearerHeader(token)[|BearerPrefix|..] == token;
  }

  /** Only one prefix is removed: "Bearer Bearer x" gives "Bearer x". */
  lemma OnlyOnePrefixRemoved(token: string)
    ensures GetAuthToken(BearerPrefix + BearerPrefix + token) == Returned(BearerPrefix + token, None)
  {
    var h := BearerPrefix + BearerPrefix + token;
    assert h == BearerPrefix + (BearerPrefix + token);
    assert h[|BearerPrefix|..] == BearerPrefix + token;
  }
}
