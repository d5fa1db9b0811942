/**
 * The base API: the `prepareHeaders` hook that attaches the stored credential
 * to every request, and the form of that credential under section 2.1 of
 * RFC 6750 (`credentials = "Bearer" 1*SP b64token`).
 */
module BaseApi {
  import opened Js

  /** The headers of one outgoing request, keyed by lower-case header name. */
  class Headers {
    var entries: map<string, string>

    constructor (initial: map<string, string>)
      ensures entries == initial
    {
      entries := initial;
    }

    /** `headers.set(name, value)`: replaces any previous value of that header. */
    method Set(name: string, value: string)
      modifies this
      ensures entries == old(entries)[name := value]
    {
      entries := entries[name := value];
    }
  }

  const AuthorizationHeader := "authorization"

  /** The header value for a stored token: `Bearer ${token}`. */
  function BearerValue(token: string): (v: string)
    ensures |v| == 7 + |token| && v[..7] == "Bearer " && v[7..] == token
  {
    "Bearer " + token
  }

  /**
   * `prepareHeaders`: when the stored token is truthy, sets the authorization
   * header to `Bearer <token>`; otherwise leaves the headers as they are (a
   * missing credential is not an error here). Returns the same headers object.
   */
  method PrepareHeaders(headers: Headers, token: Option<string>) returns (result: Headers)
    modifies headers
    ensures result == headers
    ensures Truthy(token) ==> headers.entries == old(headers.entries)[AuthorizationHeader := BearerValue(token.value)]
    ensures !Truthy(token) ==> headers.entries == old(headers.entries)
    ensures forall k :: k != AuthorizationHeader ==>
              (k in headers.entries <==> k in old(headers.entries)) &&
              (k in headers.entries ==> headers.entries[k] == old(headers.entries)[k])
  {
    if Truthy(token) {
      headers.Set(AuthorizationHeader, BearerValue(token.value));
    }
    result := headers;
  }

  // ---- section 2.1 of RFC 6750 ------------------------------------------------

  predicate IsAlpha(c: char)
  {
    'a' <= c <= 'z' || 'A' <= c <= 'Z'
  }

  /** `ALPHA / DIGIT / "-" / "." / "_" / "~" / "+" / "/"`. */
  predicate IsTokenChar(c: char)
  {
    IsAlpha(c) || IsDigit(c) || c in {'-', '.', '_', '~', '+', '/'}
  }

  /** `b64token = 1*( ALPHA / DIGIT / "-" / "." / "_" / "~" / "+" / "/" ) *"="`. */
  predicate IsB64Token(s: string)
  {
    && |s| > 0
    && IsTokenChar(s[0])
    && (forall i :: 0 <= i < |s| ==> IsTokenChar(s[i]) || s[i] == '=')
    && (forall i, j :: 0 <= i < j < |s| && s[i] == '=' ==> s[j] == '=')
  }

  /** Drops the leading spaces of a string. */
  function TrimSpaces(s: string): (r: string)
    ensures |r| <= |s| && r == s[|s| - |r|..]
    ensures |r| > 0 ==> r[0] != ' '
    ensures (|s| > 0 && s[0] != ' ') ==> r == s
    ensures forall i :: 0 <= i < |s| - |r| ==> s[i] == ' '
  {
    if |s| > 0 && s[0] == ' ' then
      var r := TrimSpaces(s[1..]);
      assert forall i :: 1 <= i < |s| ==> s[i] == s[1..][i - 1];
      r
    else s
  }

  /** `credentials = "Bearer" 1*SP b64token`. */
  predicate IsCredentials(h: string)
  {
    |h| > 6 && h[..6] == "Bearer" && h[6] == ' ' && IsB64Token(TrimSpaces(h[6..]))
  }

  /** What a resource server reads as the token of a credentials value. */
  function TokenOf(h: string): string
    requires |h| > 6
  {
    TrimSpaces(h[6..])
  }

  /**
   * The header the client builds is well-formed credentials exactly when the
   * token, after any leading spaces, is a b64token.
   */
  lemma BearerValueWellFormed(token: string)
    ensures IsCredentials(BearerValue(token)) <==> IsB64Token(TrimSpaces(token))
  {
    var h := BearerValue(token);
    assert h[..6] == "Bearer" && h[6] == ' ';
    assert h[6..] == " " + token;
    assert (" " + token)[1..] == token;
  }

  /** A b64token survives the round trip through the header unchanged. */
  lemma BearerTokenRoundTrip(token: string)
    requires IsB64Token(token)
    ensures IsCredentials(BearerValue(token))
    ensures TokenOf(BearerValue(token)) == token
  {
    BearerValueWellFormed(token);
    var h := BearerValue(token);
    assert h[6..] == " " + token;
    assert IsTokenChar(token[0]);
    TrimOneSpace(token);
  }

  /** One space before a string that does not start with a space is all that is trimmed. */
  lemma TrimOneSpace(t: string)
    requires |t| > 0 && t[0] != ' '
    ensures TrimSpaces(" " + t) == t
  {
    assert (" " + t)[1..] == t;
  }
}
