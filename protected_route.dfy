/** The route guard of src/components/ProtectedRoute/ProtectedRoute.tsx. A route may
    be entered when the stored access token is a JSON Web Token whose `exp` claim
    (section 4.1.4 of RFC 7519, seconds since the epoch) lies strictly after the
    current time in milliseconds. Only the second '.'-separated segment is looked at,
    and it is decoded with `atob`, the plain base64 alphabet of section 4 of RFC 4648
    with the forgiving rules of the HTML standard, not the URL-safe alphabet of
    section 5. Turning accepted base64 text into a claims object (byte decoding and
    `JSON.parse`) is a parameter `decode`; the clock is the parameter `now`. */
module ProtectedRoute {
  import opened Common
  import opened AuthService

  /** The claims object: only `exp` is read. */
  datatype Payload = Payload(exp: Option<int>)

  /** `s.split(sep)` with a one-character separator. */
  function Split(s: string, sep: char): (r: seq<string>)
    ensures |r| >= 1
    ensures forall i :: 0 <= i < |r| ==> sep !in r[i]
    ensures sep !in s ==> r == [s]
    decreases |s|
  {
    if s == [] then [""]
    else
      var rest := Split(s[1..], sep);
      if s[0] == sep then [""] + rest
      else
        assert sep !in s ==> [s[0]] + s[1..] == s && sep !in s[1..];
        [[s[0]] + rest[0]] + rest[1..]
  }

  /** `parts.join(sep)` */
  function Join(parts: seq<string>, sep: char): string
    requires |parts| >= 1
    decreases |parts|
  {
    if |parts| == 1 then parts[0] else parts[0] + [sep] + Join(parts[1..], sep)
  }

  /** Splitting loses nothing: joining the parts gives the string back. */
  lemma {:induction false} SplitJoin(s: string, sep: char)
    ensures Join(Split(s, sep), sep) == s
    decreases |s|
  {
    if s != [] {
      var rest := Split(s[1..], sep);
      SplitJoin(s[1..], sep);
      if s[0] == sep {
        assert Split(s, sep)[1..] == rest;
      } else if |rest| == 1 {
        assert Split(s, sep) == [[s[0]] + rest[0]];
      } else {
        var r := Split(s, sep);
        assert r[1..] == rest[1..];
        assert Join(rest, sep) == rest[0] + [sep] + Join(rest[1..], sep);
      }
    }
  }

  /** A separator-free prefix followed by the separator becomes the first part. */
  lemma {:induction false} SplitAfterPrefix(a: string, sep: char, rest: string)
    requires sep !in a
    ensures Split(a + [sep] + rest, sep) == [a] + Split(rest, sep)
    decreases |a|
  {
    if a != [] {
      assert (a + [sep] + rest)[1..] == a[1..] + [sep] + rest;
      SplitAfterPrefix(a[1..], sep, rest);
      assert [a[0]] + a[1..] == a;
    } else {
      assert (a + [sep] + rest)[1..] == rest;
    }
  }

  /** `const [, payload] = token.split('.')`, passed to `atob`: the second segment,
      or `undefined` (which `atob` receives as the text "undefined") when the token
      has no '.'. */
  function PayloadText(token: string): string
  {
    var parts := Split(token, '.');
    if |parts| >= 2 then parts[1] else "undefined"
  }

  /** For a token of the form header.payload.signature the payload text is the
      middle part. */
  lemma PayloadOfThreeParts(header: string, payload: string, signature: string)
    requires '.' !in header && '.' !in payload
    ensures PayloadText(header + "." + payload + "." + signature) == payload
  {
    assert header + "." + payload + "." + signature == header + ['.'] + (payload + ['.'] + signature);
    SplitAfterPrefix(header, '.', payload + ['.'] + signature);
    SplitAfterPrefix(payload, '.', signature);
  }

  /** The white space `atob` ignores: ASCII tab, line feed, form feed, carriage return, space. */
  predicate IsAsciiWhitespace(c: char)
  {
    c == '\t' || c == '\n' || c == '\U{0C}' || c == '\r' || c == ' '
  }

  function RemoveAsciiWhitespace(s: string): (r: string)
    ensures |r| <= |s|
    ensures forall i :: 0 <= i < |r| ==> !IsAsciiWhitespace(r[i]) && r[i] in s
    ensures forall i :: 0 <= i < |s| && !IsAsciiWhitespace(s[i]) ==> s[i] in r
    decreases |s|
  {
    if s == [] then []
    else if IsAsciiWhitespace(s[0]) then RemoveAsciiWhitespace(s[1..])
    else [s[0]] + RemoveAsciiWhitespace(s[1..])
  }

  /** When the length is a multiple of four, one or two final '=' are dropped. */
  function StripPadding(s: string): (r: string)
    ensures |r| <= |s| && r == s[..|r|]
    ensures forall i :: |r| <= i < |s| ==> s[i] == '='
  {
    if |s| % 4 == 0 && |s| >= 2 && s[|s| - 2..] == "==" then s[..|s| - 2]
    else if |s| % 4 == 0 && |s| >= 1 && s[|s| - 1] == '=' then s[..|s| - 1]
    else s
  }

  /** The characters of the base64 alphabet of section 4 of RFC 4648, without '='. */
  predicate IsBase64Char(c: char)
  {
    'A' <= c <= 'Z' || 'a' <= c <= 'z' || '0' <= c <= '9' || c == '+' || c == '/'
  }

  /** `atob` accepts the text: after removing white space and the padding, the
      length does not leave remainder 1 modulo 4 and every character is in the
      alphabet. */
  predicate Base64Accepts(s: string)
  {
    var d := StripPadding(RemoveAsciiWhitespace(s));
    |d| % 4 != 1 && forall i :: 0 <= i < |d| ==> IsBase64Char(d[i])
  }

  /** `isTokenValid(token)` at time `now` (milliseconds). A missing or empty token,
      text `atob` refuses, a decode failure, and a payload without `exp` all give
      false. */
  function IsTokenValid(token: Option<string>, now: int, decode: string -> Option<Payload>): (r: bool)
    ensures r ==> Truthy(token) && '.' in token.value
    ensures r ==> Base64Accepts(PayloadText(token.value))
    ensures r ==> var claims := decode(PayloadText(token.value));
      claims.Some? && claims.value.exp.Some? && claims.value.exp.value * 1000 > now
  {
    if !Truthy(token) then false
    else
      UndefinedRefused();
      var text := PayloadText(token.value);
      if !Base64Accepts(text) then false
      else match decode(text)
        case None => false
        case Some(p) => p.exp.Some? && p.exp.value * 1000 > now
  }

  lemma NullOrEmptyInvalid(now: int, decode: string -> Option<Payload>)
    ensures !IsTokenValid(None, now, decode)
    ensures !IsTokenValid(Some(""), now, decode)
  {
  }

  /** A token without any '.' is never valid: `atob("undefined")` fails, nine
      characters leaving remainder 1 modulo 4. */
  lemma NoDotInvalid(token: string, now: int, decode: string -> Option<Payload>)
    requires '.' !in token
    ensures !IsTokenValid(Some(token), now, decode)
  {
    UndefinedRefused();
  }

  lemma UndefinedRefused()
    ensures !Base64Accepts("undefined")
  {
    var u := "undefined";
    assert |u| == 9;
    assert forall i :: 0 <= i < |u| ==> !IsAsciiWhitespace(u[i]);
    RemoveNothing(u);
  }

  /** Removing white space from a text without any changes nothing. */
  lemma {:induction false} RemoveNothing(s: string)
    requires forall i :: 0 <= i < |s| ==> !IsAsciiWhitespace(s[i])
    ensures RemoveAsciiWhitespace(s) == s
    decreases |s|
  {
    if s != [] {
      RemoveNothing(s[1..]);
      assert [s[0]] + s[1..] == s;
    }
  }

  /** A payload segment carrying a URL-safe base64 character, '-' or '_', is
      refused by `atob`, so the token is invalid whatever it would decode to. */
  lemma UrlSafeCharsInvalid(token: string, now: int, decode: string -> Option<Payload>)
    requires '-' in PayloadText(token) || '_' in PayloadText(token)
    ensures !IsTokenValid(Some(token), now, decode)
  {
    var text := PayloadText(token);
    var w := RemoveAsciiWhitespace(text);
    var d := StripPadding(w);
    var c := if '-' in text then '-' else '_';
    var i :| 0 <= i < |text| && text[i] == c;
    assert c in w;
    var j :| 0 <= j < |w| && w[j] == c;
    assert j < |d|;
    assert d[j] == c && !IsBase64Char(d[j]);
  }

  /** Once the payload is accepted and decoded, the token is valid exactly when its
      `exp`, in milliseconds, is strictly after `now`; a payload without `exp` is
      never valid. */
  lemma ValidIffNotExpired(header: string, payload: string, signature: string, now: int,
                           decode: string -> Option<Payload>, claims: Payload)
    requires '.' !in header && '.' !in payload
    requires Base64Accepts(payload) && decode(payload) == Some(claims)
    ensures IsTokenValid(Some(header + "." + payload + "." + signature), now, decode) <==>
      claims.exp.Some? && claims.exp.value * 1000 > now
  {
    PayloadOfThreeParts(header, payload, signature);
  }

  /** A token valid now was valid at every earlier moment. */
  lemma ValidityMonotone(token: Option<string>, now: int, earlier: int, decode: string -> Option<Payload>)
    requires earlier <= now && IsTokenValid(token, now, decode)
    ensures IsTokenValid(token, earlier, decode)
  {
  }

  /** What the guard renders. */
  datatype Route = RenderChildren | Navigate(to: string)

  const LoginPath := "/login"

  /** `ProtectedRoute`: the children when the stored access token is valid, else a
      redirect to the login page. */
  function Gate(store: map<string, string>, now: int, decode: string -> Option<Payload>): (r: Route)
    ensures r == RenderChildren <==> IsTokenValid(Lookup(store, AccessKey), now, decode)
    ensures r != RenderChildren ==> r == Navigate(LoginPath)
  {
    if IsTokenValid(Lookup(store, AccessKey), now, decode) then RenderChildren else Navigate(LoginPath)
  }

  /** The refresh token is never consulted: storing, replacing or removing it does
      not change the decision. */
  lemma GateIgnoresRefreshToken(store: map<string, string>, refresh: string, now: int, decode: string -> Option<Payload>)
    ensures Gate(store[RefreshKey := refresh], now, decode) == Gate(store, now, decode)
    ensures Gate(store - {RefreshKey}, now, decode) == Gate(store, now, decode)
  {
    assert Lookup(store[RefreshKey := refresh], AccessKey) == Lookup(store, AccessKey);
    assert Lookup(store - {RefreshKey}, AccessKey) == Lookup(store, AccessKey);
  }

  /** With no access token stored (after a logout) the guard always redirects. */
  lemma GateAfterLogout(store: map<string, string>, now: int, decode: string -> Option<Payload>)
    ensures Gate(WithoutTokens(store), now, decode) == Navigate(LoginPath)
  {
  }
}
