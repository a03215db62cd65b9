/**
 * The redirect-URL classifier of the authorization window (`_handleCallback`): every
 * URL the window navigates or is redirected to is scanned for `code=`,
 * `access_token=`, `id_token=` and `?error=`, and the flow either goes on waiting,
 * exchanges a code, resolves with the tokens, or rejects.
 */
module Callback {
  import opened Wrappers
  import opened Text

  const CodeKey := "code="
  const AccessTokenKey := "access_token="
  const IdTokenKey := "id_token="
  const ErrorMarker := "?error="

  /** The text after an occurrence of `key` at `i`, up to the next `&` or the end. */
  function CaptureAt(url: string, key: string, i: nat): (v: string)
    requires OccursAt(url, key, i)
    ensures OccursAt(url, key + v, i)
    ensures '&' !in v
    ensures i + |key| + |v| == |url| || url[i + |key| + |v|] == '&'
  {
    var rest := url[i + |key|..];
    var v := TakeUntil(rest, '&');
    SliceThroughPrefix(url, i, |key|, v);
    assert |v| < |rest| ==> url[i + |key| + |v|] == rest[|v|];
    v
  }

  /** A prefix `v` of what follows `s[i..i + k]` extends that slice. */
  lemma SliceThroughPrefix(s: string, i: nat, k: nat, v: string)
    requires i + k <= |s| && v <= s[i + k..]
    ensures i + k + |v| <= |s|
    ensures s[i..i + k + |v|] == s[i..i + k] + v
  {
    assert v == s[i + k..][..|v|] == s[i + k..i + k + |v|];
    assert s[i..i + k + |v|] == s[i..i + k] + s[i + k..i + k + |v|];
  }

  /**
   * What `/key([^&]*)/.exec(url)` captures: the text after the FIRST occurrence of
   * `key`, up to the next `&` or the end. `None` when `key` does not occur.
   */
  function Capture(url: string, key: string): (r: Option<string>)
    ensures r.None? <==> FirstIndexOf(url, key).None?
    ensures r.Some? ==>
      var i := FirstIndexOf(url, key).value;
      && OccursAt(url, key + r.value, i)
      && '&' !in r.value
      && (i + |key| + |r.value| == |url| || url[i + |key| + |r.value|] == '&')
  {
    match FirstIndexOf(url, key)
    case None => None
    case Some(i) => Some(CaptureAt(url, key, i))
  }

  /** The characters `.` does not match in a JavaScript regular expression. */
  predicate IsLineTerminator(c: char) {
    c == '\n' || c == '\r' || c == '\U{2028}' || c == '\U{2029}'
  }

  /** `/\?error=(.+)$/` matches at index `i`: the marker, then at least one character, no line break. */
  predicate ErrorMatchesAt(url: string, i: int) {
    && OccursAt(url, ErrorMarker, i)
    && i + |ErrorMarker| < |url|
    && forall j :: i + |ErrorMarker| <= j < |url| ==> !IsLineTerminator(url[j])
  }

  /** The leftmost index at or after `k` where the error pattern matches. */
  function ErrorIndexFrom(url: string, k: nat): (r: Option<nat>)
    ensures r.Some? ==> k <= r.value && ErrorMatchesAt(url, r.value)
    ensures r.Some? ==> forall j :: k <= j < r.value ==> !ErrorMatchesAt(url, j)
    ensures r.None? ==> forall j :: k <= j ==> !ErrorMatchesAt(url, j)
    decreases |url| - k
  {
    if k + |ErrorMarker| >= |url| then None
    else if ErrorMatchesAt(url, k) then Some(k)
    else ErrorIndexFrom(url, k + 1)
  }

  /** What `/\?error=(.+)$/.exec(url)` captures, if it matches. */
  function ErrorCapture(url: string): (r: Option<string>)
    ensures r.Some? <==> exists i :: ErrorMatchesAt(url, i)
    ensures r.Some? ==>
      var i := |url| - |r.value| - |ErrorMarker|;
      && ErrorMatchesAt(url, i)
      && url[i..] == ErrorMarker + r.value
      && forall j :: 0 <= j < i ==> !ErrorMatchesAt(url, j)
  {
    match ErrorIndexFrom(url, 0)
    case None => None
    case Some(i) => Some(url[i + |ErrorMarker|..])
  }

  /** The decision taken for one observed URL. */
  datatype Decision =
    | Wait                                                // nothing found: the window stays open
    | ExchangeCode(code: string)                          // code flow: ask the token endpoint
    | ResolveTokens(idToken: Option<string>, accessToken: string)  // implicit flow
    | RejectWith(error: string)                           // the provider reported an error

  /** The window is destroyed exactly when a decision other than waiting is taken. */
  predicate DestroysWindow(d: Decision) {
    !d.Wait?
  }

  /** `_handleCallback(url)`: priority is code, then access token, then error. */
  function HandleCallback(url: string): (d: Decision)
    ensures DestroysWindow(d) <==>
      Truthy(Capture(url, CodeKey)) || Truthy(Capture(url, AccessTokenKey)) || ErrorCapture(url).Some?
    ensures Truthy(Capture(url, CodeKey)) ==> d == ExchangeCode(Capture(url, CodeKey).value)
    ensures !Truthy(Capture(url, CodeKey)) && Truthy(Capture(url, AccessTokenKey)) ==>
      d == ResolveTokens(Capture(url, IdTokenKey), Capture(url, AccessTokenKey).value)
    ensures d.RejectWith? ==>
      && !Truthy(Capture(url, CodeKey)) && !Truthy(Capture(url, AccessTokenKey))
      && Some(d.error) == ErrorCapture(url)
    ensures !Truthy(Capture(url, CodeKey)) && !Truthy(Capture(url, AccessTokenKey)) && ErrorCapture(url).Some? ==>
      d == RejectWith(ErrorCapture(url).value)
    // an empty capture counts as absent
    ensures d.ExchangeCode? ==> d.code != ""
    ensures d.ResolveTokens? ==> d.accessToken != ""
  {
    var code := Capture(url, CodeKey);
    var token := Capture(url, AccessTokenKey);
    var id := Capture(url, IdTokenKey);
    var err := ErrorCapture(url);
    if Truthy(code) then ExchangeCode(code.value)
    else if Truthy(token) then ResolveTokens(id, token.value)
    else if err.Some? then RejectWith(err.value)
    else Wait
  }

  /** The token bundle of an account (`oauth`). */
  datatype TokenBundle = TokenBundle(accessToken: Option<string>, idToken: Option<string>, code: Option<string>)

  /** What the token endpoint answered to a code exchange (`_requestToken`). */
  datatype Exchange = Exchanged(body: TokenBundle) | ExchangeFailed

  /** How the authentication promise ends. */
  datatype Settlement = Resolved(bundle: TokenBundle) | Rejected(error: string) | Unsettled

  /**
   * The settlement a decision leads to. A failed code exchange has no handler, so the
   * promise is then never settled.
   */
  function Settle(d: Decision, exchange: Exchange): (s: Settlement)
    ensures s.Unsettled? <==> d.Wait? || (d.ExchangeCode? && exchange.ExchangeFailed?)
    ensures s.Resolved? && d.ExchangeCode? ==>
      s.bundle == exchange.body.(code := Some(d.code))
    ensures s.Resolved? && d.ResolveTokens? ==>
      s.bundle == TokenBundle(Some(d.accessToken), d.idToken, None)
    ensures s.Rejected? <==> d.RejectWith?
    ensures s.Rejected? ==> s.error == d.error
  {
    match d
    case Wait => Unsettled
    case ExchangeCode(code) =>
      if exchange.Exchanged? then Resolved(exchange.body.(code := Some(code))) else Unsettled
    case ResolveTokens(id, token) => Resolved(TokenBundle(Some(token), id, None))
    case RejectWith(e) => Rejected(e)
  }

  /** A settled flow always tore the window down first. */
  lemma SettlingDestroysWindow(url: string, exchange: Exchange)
    requires !Settle(HandleCallback(url), exchange).Unsettled?
    ensures DestroysWindow(HandleCallback(url))
    ensures Truthy(Capture(url, CodeKey)) || Truthy(Capture(url, AccessTokenKey)) || ErrorCapture(url).Some?
  {
  }
}
