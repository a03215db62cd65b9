/**
 * Delta tokens: how the first request of a sync pass carries the stored token, and
 * how a token is taken from a `@odata.deltaLink` (`_findDeltaToken`).
 */
module DeltaToken {
  import opened Wrappers
  import opened Text

  const Marker := "deltatoken="
  const TokenLength := 32

  /**
   * `_findDeltaToken`: the text after the LAST `deltatoken=` of the delta link,
   * accepted only when it is exactly 32 characters long. When the marker is absent
   * `lastIndexOf` answers -1, so the slice starts at index 10.
   */
  function FindDeltaToken(deltaLink: Option<string>): (r: Option<string>)
    ensures r.Some? ==>
      && Truthy(deltaLink) && |r.value| == TokenLength && |deltaLink.value| >= TokenLength
      && r.value == deltaLink.value[|deltaLink.value| - TokenLength..]
  {
    if !Truthy(deltaLink) then None
    else
      var link := deltaLink.value;
      var token := Slice(link, LastIndexOf(link, Marker) + |Marker|);
      if |token| == TokenLength then Some(token) else None
  }

  /** With the marker present, the token is exactly what follows its last occurrence. */
  lemma {:induction false} TokenFollowsLastMarker(link: string, p: nat)
    requires OccursAt(link, Marker, p)
    requires forall j :: p < j ==> !OccursAt(link, Marker, j)
    ensures FindDeltaToken(Some(link)).Some? <==> |link| == p + |Marker| + TokenLength
    ensures FindDeltaToken(Some(link)).Some? ==>
      link == link[..p] + Marker + FindDeltaToken(Some(link)).value
  {
    var q := LastIndexOf(link, Marker);
    assert q != -1;
    assert q == p;
    assert link == link[..p] + link[p..p + |Marker|] + link[p + |Marker|..];
  }

  /**
   * Without the marker the slice starts at index 10: a link of exactly 42 characters
   * still yields its last 32 characters as a token.
   */
  lemma MarkerlessLinkYieldsTail(link: string)
    requires forall j :: !OccursAt(link, Marker, j)
    ensures FindDeltaToken(Some(link)).Some? <==> |link| == 42
    ensures |link| == 42 ==> FindDeltaToken(Some(link)) == Some(link[10..])
  {
    assert LastIndexOf(link, Marker) == -1;
  }

  /** `uri(url).setQuery('deltatoken', token)` on a URL without a `deltatoken` parameter. */
  function WithDeltaToken(url: string, token: string): (r: string)
    ensures |r| == |url| + 1 + |Marker| + |token|
    ensures url <= r
    ensures r[|r| - |Marker| - |token|..] == Marker + token
    // a query parameter: it opens the query, or follows the parameters already there
    ensures r[|url|] == (if '?' in url then '&' else '?')
  {
    var sep := if '?' in url then "&" else "?";
    assert url + sep + Marker + token == url + sep + (Marker + token);
    url + sep + Marker + token
  }

  /** No `deltatoken=` starts inside the marker itself except at its first character. */
  lemma MarkerDoesNotOverlapItself(s: string, p: nat, j: int)
    requires OccursAt(s, Marker, p)
    requires p < j < p + |Marker|
    ensures !OccursAt(s, Marker, j)
  {
    assert s[j] == Marker[j - p] != Marker[0];
    if j + |Marker| <= |s| {
      assert s[j..j + |Marker|][0] != Marker[0];
    }
  }

  /**
   * Reading a 32-character token (free of `=`) back from a link that carries it as
   * its last query parameter gives the token again.
   */
  lemma {:induction false} DeltaTokenRoundTrip(url: string, token: string)
    requires |token| == TokenLength
    requires '=' !in token
    ensures FindDeltaToken(Some(WithDeltaToken(url, token))) == Some(token)
  {
    var link := WithDeltaToken(url, token);
    var p := |link| - |Marker| - |token|;
    assert link[p..] == Marker + token;
    assert OccursAt(link, Marker, p) by {
      assert link[p..p + |Marker|] == (Marker + token)[..|Marker|];
    }
    forall j | p < j
      ensures !OccursAt(link, Marker, j)
    {
      if j < p + |Marker| {
        MarkerDoesNotOverlapItself(link, p, j);
      } else if j + |Marker| <= |link| {
        var k := j + |Marker| - 1;
        assert link[k] == token[k - p - |Marker|] != '=';
        assert link[j..j + |Marker|][|Marker| - 1] != Marker[|Marker| - 1];
      }
    }
    TokenFollowsLastMarker(link, p);
    assert link[p + |Marker|..] == token;
  }
}
