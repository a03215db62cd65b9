/**
 * The paginated, change-tracking fetch of a calendar view (`_fetchEvents`).
 *
 * One fetch pass owns three accumulators that its pages append to (`events`,
 * `occurences`, `masters`) and a delta token it may replace. Each response is either
 * a page (items, optional `@odata.nextLink`, optional `@odata.deltaLink`), a reply
 * without body, or a failure with a status code. The provider is abstracted as a
 * finite script of responses, consumed one per request; the script's length bounds
 * the otherwise unbounded 401/410 retries.
 *
 * `Drive` is the specification of a pass as a function of the script; the class
 * `FetchPass` runs the same pass imperatively and is proved to agree with it.
 */
module DeltaSync {
  import opened Wrappers
  import opened Text
  import opened Normalize
  import DeltaToken

  datatype SyncOptions = SyncOptions(useDelta: bool, trackChanges: bool)

  /** One API call: its URL, the bearer token, and whether the track-changes header is sent. */
  datatype Request = Request(url: string, token: string, trackChanges: bool)

  /**
   * What the silent re-authentication after a 401 yields: nothing (the window flow
   * failed), or a token bundle whose access token may be missing or empty.
   */
  datatype Reauth = ReauthFailed | Reauthenticated(accessToken: Option<string>)

  /** The re-authentication produced a usable (truthy) access token. */
  predicate Renewed(r: Reauth) {
    r.Reauthenticated? && Truthy(r.accessToken)
  }

  /**
   * What a request gets back. `Failed(401, reauth)` also carries what the
   * re-authentication it triggers yields; `reauth` is ignored for every other status.
   */
  datatype Response =
    | Page(value: seq<RawItem>, nextLink: Option<string>, deltaLink: Option<string>)
    | MissingBody
    | Failed(statusCode: int, reauth: Reauth)

  /**
   * How a pass ends: resolved with `{events, deltaToken}`, rejected (a reply without
   * body), stalled (logged and never settled), or still awaiting a reply when the
   * script runs out.
   */
  datatype Outcome =
    | Resolved(events: seq<CanonicalEvent>, deltaToken: Option<string>)
    | Rejected
    | Stalled
    | Awaiting

  /** The per-pass accumulators. */
  datatype Acc = Acc(
    events: seq<CanonicalEvent>,
    occurrences: seq<RawItem>,
    masters: seq<RawItem>,
    deltaToken: Option<string>)

  /** After one response: fetch again with new accumulators, or finish. */
  datatype Next = Fetch(acc: Acc, request: Request) | Finish(outcome: Outcome)

  /** A whole pass: its outcome, the requests it sent, and the account's token at the end. */
  datatype Trace = Trace(outcome: Outcome, sent: seq<Request>, accessToken: Option<string>)

  // ---------------------------------------------------------------- classification

  /** `item.reason && item.reason === 'deleted'`. */
  predicate IsDeleted(x: RawItem) {
    x.reason == Some("deleted")
  }

  predicate IsOccurrence(x: RawItem) {
    x.kind == Occurrence
  }

  predicate IsMaster(x: RawItem) {
    x.kind == SeriesMaster
  }

  /** Normalised on arrival: everything but occurrences and deleted items, masters included. */
  predicate IsEmitted(x: RawItem) {
    !IsOccurrence(x) && !IsDeleted(x)
  }

  /** The items satisfying `p`, in arrival order. */
  function Filter(p: RawItem -> bool, xs: seq<RawItem>): (r: seq<RawItem>)
    ensures |r| <= |xs|
    ensures forall i :: 0 <= i < |r| ==> p(r[i])
  {
    if xs == [] then []
    else
      var last := xs[|xs| - 1];
      Filter(p, xs[..|xs| - 1]) + (if p(last) then [last] else [])
  }

  /** `Filter` keeps exactly the items satisfying `p`. */
  lemma {:induction false} FilterMembers(p: RawItem -> bool, xs: seq<RawItem>)
    ensures forall x :: x in Filter(p, xs) <==> x in xs && p(x)
    decreases |xs|
  {
    if xs != [] {
      var n := |xs| - 1;
      FilterMembers(p, xs[..n]);
      assert xs == xs[..n] + [xs[n]];
    }
  }

  lemma {:induction false} FilterAppend(p: RawItem -> bool, xs: seq<RawItem>, ys: seq<RawItem>)
    ensures Filter(p, xs + ys) == Filter(p, xs) + Filter(p, ys)
    decreases |ys|
  {
    if ys != [] {
      var n := |ys| - 1;
      assert (xs + ys)[..|xs + ys| - 1] == xs + ys[..n];
      FilterAppend(p, xs, ys[..n]);
    } else {
      assert xs + ys == xs;
    }
  }

  /** The events a page's items produce on arrival. */
  function Emitted(xs: seq<RawItem>): (r: seq<CanonicalEvent>)
    ensures |r| == |Filter(IsEmitted, xs)|
  {
    if xs == [] then []
    else
      var last := xs[|xs| - 1];
      Emitted(xs[..|xs| - 1]) + (if IsEmitted(last) then [MakeEvent(last)] else [])
  }

  /**
   * The events emitted on arrival are exactly the normalised non-deleted,
   * non-occurrence items, one each, in arrival order.
   */
  lemma {:induction false} EmittedNormalisesKeptItems(xs: seq<RawItem>)
    ensures |Emitted(xs)| == |Filter(IsEmitted, xs)|
    ensures forall i :: 0 <= i < |Emitted(xs)| ==> Emitted(xs)[i] == MakeEvent(Filter(IsEmitted, xs)[i])
    decreases |xs|
  {
    if xs != [] {
      EmittedNormalisesKeptItems(xs[..|xs| - 1]);
    }
  }

  lemma {:induction false} EmittedAppend(xs: seq<RawItem>, ys: seq<RawItem>)
    ensures Emitted(xs + ys) == Emitted(xs) + Emitted(ys)
    decreases |ys|
  {
    if ys != [] {
      var n := |ys| - 1;
      assert (xs + ys)[..|xs + ys| - 1] == xs + ys[..n];
      EmittedAppend(xs, ys[..n]);
    } else {
      assert xs + ys == xs;
    }
  }

  /** A page's items added to the accumulators (the `forEach` over `value`). */
  function Absorb(a: Acc, items: seq<RawItem>): (r: Acc)
    ensures a.events <= r.events && a.occurrences <= r.occurrences && a.masters <= r.masters
    ensures |r.events| - |a.events| == |Filter(IsEmitted, items)|
    ensures r.deltaToken == a.deltaToken
  {
    Acc(a.events + Emitted(items),
        a.occurrences + Filter(IsOccurrence, items),
        a.masters + Filter(IsMaster, items),
        a.deltaToken)
  }

  lemma AppendAssociates<T>(x: seq<T>, y: seq<T>, z: seq<T>)
    ensures x + y + z == x + (y + z)
  {
  }

  /** Absorbing two pages one after the other is absorbing their items together. */
  lemma AbsorbTwice(a: Acc, xs: seq<RawItem>, ys: seq<RawItem>)
    ensures Absorb(Absorb(a, xs), ys) == Absorb(a, xs + ys)
  {
    EmittedAppend(xs, ys);
    FilterAppend(IsOccurrence, xs, ys);
    FilterAppend(IsMaster, xs, ys);
    AppendAssociates(a.events, Emitted(xs), Emitted(ys));
    AppendAssociates(a.occurrences, Filter(IsOccurrence, xs), Filter(IsOccurrence, ys));
    AppendAssociates(a.masters, Filter(IsMaster, xs), Filter(IsMaster, ys));
  }

  /** Absorbing one more item, spelled out. */
  lemma AbsorbLast(a: Acc, xs: seq<RawItem>, x: RawItem)
    ensures var b := Absorb(a, xs);
      Absorb(a, xs + [x]) == Acc(
        b.events + (if IsEmitted(x) then [MakeEvent(x)] else []),
        b.occurrences + (if IsOccurrence(x) then [x] else []),
        b.masters + (if IsMaster(x) then [x] else []),
        a.deltaToken)
  {
    assert (xs + [x])[..|xs + [x]| - 1] == xs;
  }

  /** The deferred occurrences, each resolved against the masters (the terminal `forEach`). */
  function Reconciled(occurrences: seq<RawItem>, masters: seq<RawItem>): (r: seq<CanonicalEvent>)
    ensures |r| == |occurrences|
  {
    if occurrences == [] then []
    else
      var n := |occurrences| - 1;
      Reconciled(occurrences[..n], masters) + [MakeEventFromOccurrence(occurrences[n], masters)]
  }

  /** One reconciled event per occurrence, in arrival order. */
  lemma {:induction false} ReconciledPointwise(occurrences: seq<RawItem>, masters: seq<RawItem>)
    ensures |Reconciled(occurrences, masters)| == |occurrences|
    ensures forall i :: 0 <= i < |occurrences| ==>
      Reconciled(occurrences, masters)[i] == MakeEventFromOccurrence(occurrences[i], masters)
    decreases |occurrences|
  {
    if occurrences != [] {
      ReconciledPointwise(occurrences[..|occurrences| - 1], masters);
    }
  }

  // ---------------------------------------------------------------- the state machine

  /** The resolution of a pass with accumulators `b`: the deferred occurrences go last. */
  function Finished(b: Acc): Outcome {
    Resolved(b.events + Reconciled(b.occurrences, b.masters), b.deltaToken)
  }

  /** The first request: the stored delta token is appended iff `useDelta` and it is truthy. */
  function FirstRequest(url: string, token: string, options: SyncOptions, stored: Option<string>): (r: Request)
    ensures r.token == token && r.trackChanges == options.trackChanges
    ensures r.url != url <==> options.useDelta && Truthy(stored)
    ensures r.url != url ==>
      |r.url| == |url| + 1 + |DeltaToken.Marker| + |stored.value| && url <= r.url && r.url[|r.url| - |DeltaToken.Marker| - |stored.value|..] == DeltaToken.Marker + stored.value
    ensures r.url != url ==> r.url[|url|] == (if '?' in url then '&' else '?')
  {
    if options.useDelta && Truthy(stored) then
      Request(DeltaToken.WithDeltaToken(url, stored.value), token, options.trackChanges)
    else
      Request(url, token, options.trackChanges)
  }

  /** The delta token after following a delta link: the extracted one, else the previous one. */
  function NextDeltaToken(deltaLink: Option<string>, previous: Option<string>): Option<string> {
    var found := DeltaToken.FindDeltaToken(deltaLink);
    if found.Some? then found else previous
  }

  /** What one response does to a pass whose current request is `req`; `url` is the original URL. */
  function Step(url: string, options: SyncOptions, a: Acc, req: Request, r: Response): (n: Next)
    // nothing accumulated is ever dropped
    ensures n.Fetch? ==> a.events <= n.acc.events && a.occurrences <= n.acc.occurrences && a.masters <= n.acc.masters
    ensures n.Finish? && n.outcome.Resolved? ==> a.events <= n.outcome.events
    // only a 401 and a 410 send the next request without a page
    ensures n.Fetch? && !r.Page? ==> r.Failed? && (r.statusCode == 401 || r.statusCode == 410)
  {
    match r
    case Page(items, next, delta) =>
      var a' := Absorb(a, items);
      if Truthy(next) then
        Fetch(a', Request(next.value, req.token, false))
      else if options.trackChanges && Truthy(delta) then
        Fetch(a'.(deltaToken := NextDeltaToken(delta, a'.deltaToken)), Request(delta.value, req.token, false))
      else
        Finish(Finished(a'))
    case MissingBody =>
      Finish(Rejected)
    case Failed(status, reauth) =>
      if status == 401 then
        if Renewed(reauth) then Fetch(a, Request(req.url, reauth.accessToken.value, false)) else Finish(Stalled)
      else if status == 410 then
        Fetch(a, Request(url, req.token, true))
      else
        Finish(Stalled)
  }

  /**
   * What one response does, case by case: a page is absorbed and its next link
   * followed first, its delta link only when tracking changes, otherwise the pass
   * resolves; a missing body rejects; only a 401 with a renewed token and a 410 go
   * on, and neither clears anything; every other failure stalls.
   */
  lemma StepCases(url: string, options: SyncOptions, a: Acc, req: Request, r: Response)
    // a page: its items are absorbed, the next link goes first, same token, plain header
    ensures r.Page? && Step(url, options, a, req, r).Fetch? ==>
      var n := Step(url, options, a, req, r);
      && n.acc.events == a.events + Emitted(r.value)
      && n.acc.occurrences == a.occurrences + Filter(IsOccurrence, r.value)
      && n.acc.masters == a.masters + Filter(IsMaster, r.value)
      && n.request.token == req.token && !n.request.trackChanges
    ensures r.Page? && Truthy(r.nextLink) ==>
      Step(url, options, a, req, r) == Fetch(Absorb(a, r.value), Request(r.nextLink.value, req.token, false))
    // the delta link only without a next link and when tracking changes
    ensures r.Page? && !Truthy(r.nextLink) && Step(url, options, a, req, r).Fetch? ==>
      var n := Step(url, options, a, req, r);
      && options.trackChanges && Truthy(r.deltaLink)
      && n.request.url == r.deltaLink.value
      && n.acc.deltaToken ==
           (if DeltaToken.FindDeltaToken(r.deltaLink).Some? then DeltaToken.FindDeltaToken(r.deltaLink) else a.deltaToken)
    // the terminal page: the deferred occurrences go after every other event
    ensures r.Page? && Step(url, options, a, req, r).Finish? ==>
      && !Truthy(r.nextLink) && !(options.trackChanges && Truthy(r.deltaLink))
      && Step(url, options, a, req, r).outcome == Resolved(
           a.events + Emitted(r.value)
             + Reconciled(a.occurrences + Filter(IsOccurrence, r.value), a.masters + Filter(IsMaster, r.value)),
           a.deltaToken)
    // a reply without body rejects
    ensures r.MissingBody? ==> Step(url, options, a, req, r) == Finish(Rejected)
    // failures: only a 401 with a renewed token and a 410 go on, neither clears anything
    ensures r.Failed? ==>
      (Step(url, options, a, req, r).Fetch? <==> (r.statusCode == 401 && Renewed(r.reauth)) || r.statusCode == 410)
    ensures r.Failed? && r.statusCode == 401 && Renewed(r.reauth) ==>
      Step(url, options, a, req, r) == Fetch(a, Request(req.url, r.reauth.accessToken.value, false))
    ensures r.Failed? && r.statusCode == 410 ==>
      Step(url, options, a, req, r) == Fetch(a, Request(url, req.token, true))
    ensures r.Failed? && Step(url, options, a, req, r).Finish? ==> Step(url, options, a, req, r).outcome == Stalled
  {
  }

  /**
   * The account's token after a response: a 401 whose re-authentication answered
   * replaces it with the answer's access token, usable or not.
   */
  function TokenAfter(r: Response, accessToken: Option<string>): Option<string> {
    if r.Failed? && r.statusCode == 401 && r.reauth.Reauthenticated? then r.reauth.accessToken else accessToken
  }

  /**
   * The pass, from the request `req` now being sent, against the remaining script.
   * One request is sent per response consumed.
   */
  function Drive(url: string, options: SyncOptions, a: Acc, req: Request,
                 script: seq<Response>, accessToken: Option<string>): (t: Trace)
    ensures 1 <= |t.sent| <= |script| + 1 && t.sent[0] == req
    ensures t.outcome.Awaiting? ==> |t.sent| == |script| + 1
    decreases |script|
  {
    if script == [] then Trace(Awaiting, [req], accessToken)
    else match Step(url, options, a, req, script[0])
      case Finish(o) => Trace(o, [req], TokenAfter(script[0], accessToken))
      case Fetch(a', req') =>
        var t := Drive(url, options, a', req', script[1..], TokenAfter(script[0], accessToken));
        Trace(t.outcome, [req] + t.sent, t.accessToken)
  }

  // ---------------------------------------------------------------- properties of a pass

  /** One response of the script, unfolded. */
  lemma DriveStep(url: string, options: SyncOptions, a: Acc, req: Request,
                  script: seq<Response>, accessToken: Option<string>)
    requires script != []
    ensures var n := Step(url, options, a, req, script[0]);
      var t := Drive(url, options, a, req, script, accessToken);
      && (n.Finish? ==> t == Trace(n.outcome, [req], TokenAfter(script[0], accessToken)))
      && (n.Fetch? ==>
            var u := Drive(url, options, n.acc, n.request, script[1..], TokenAfter(script[0], accessToken));
            t == Trace(u.outcome, [req] + u.sent, u.accessToken))
  {
  }

  /** No recovery path clears what was accumulated: earlier events stay at the front. */
  lemma {:induction false} DriveKeepsEarlierEvents(url: string, options: SyncOptions, a: Acc, req: Request,
                                                    script: seq<Response>, accessToken: Option<string>)
    requires Drive(url, options, a, req, script, accessToken).outcome.Resolved?
    ensures a.events <= Drive(url, options, a, req, script, accessToken).outcome.events
    decreases |script|
  {
    var n := Step(url, options, a, req, script[0]);
    if n.Fetch? {
      DriveKeepsEarlierEvents(url, options, n.acc, n.request, script[1..], TokenAfter(script[0], accessToken));
    }
  }

  /** The resolved delta token is the one the pass started with, or a 32-character one. */
  lemma {:induction false} DriveDeltaToken(url: string, options: SyncOptions, a: Acc, req: Request,
                                           script: seq<Response>, accessToken: Option<string>)
    requires Drive(url, options, a, req, script, accessToken).outcome.Resolved?
    ensures var d := Drive(url, options, a, req, script, accessToken).outcome.deltaToken;
      d == a.deltaToken || (d.Some? && |d.value| == DeltaToken.TokenLength)
    decreases |script|
  {
    var n := Step(url, options, a, req, script[0]);
    if n.Fetch? {
      DriveDeltaToken(url, options, n.acc, n.request, script[1..], TokenAfter(script[0], accessToken));
    }
  }

  /**
   * Without change tracking a pass never follows a delta link, so it resolves with
   * the delta token it started with.
   */
  lemma {:induction false} UntrackedPassKeepsDeltaToken(url: string, options: SyncOptions, a: Acc, req: Request,
                                                         script: seq<Response>, accessToken: Option<string>)
    requires !options.trackChanges
    requires Drive(url, options, a, req, script, accessToken).outcome.Resolved?
    ensures Drive(url, options, a, req, script, accessToken).outcome.deltaToken == a.deltaToken
    decreases |script|
  {
    var n := Step(url, options, a, req, script[0]);
    if n.Fetch? {
      UntrackedPassKeepsDeltaToken(url, options, n.acc, n.request, script[1..], TokenAfter(script[0], accessToken));
    }
  }

  /** A page with a next link: its items are kept and the next link is fetched with the same token. */
  lemma NextLinkIsFollowed(url: string, options: SyncOptions, a: Acc, req: Request,
                           items: seq<RawItem>, next: string, delta: Option<string>,
                           rest: seq<Response>, accessToken: Option<string>)
    requires next != ""
    ensures var u := Drive(url, options, Absorb(a, items), Request(next, req.token, false), rest, accessToken);
      Drive(url, options, a, req, [Page(items, Some(next), delta)] + rest, accessToken)
        == Trace(u.outcome, [req] + u.sent, u.accessToken)
  {
    var script := [Page(items, Some(next), delta)] + rest;
    assert script[0] == Page(items, Some(next), delta) && script[1..] == rest;
  }

  /**
   * A last page with a delta link while tracking changes: the delta link is fetched
   * and the delta token becomes the one it carries, if any.
   */
  lemma DeltaLinkIsFollowed(url: string, options: SyncOptions, a: Acc, req: Request,
                            items: seq<RawItem>, delta: string,
                            rest: seq<Response>, accessToken: Option<string>)
    requires options.trackChanges && delta != ""
    ensures var b := Absorb(a, items).(deltaToken := NextDeltaToken(Some(delta), a.deltaToken));
      var u := Drive(url, options, b, Request(delta, req.token, false), rest, accessToken);
      Drive(url, options, a, req, [Page(items, None, Some(delta))] + rest, accessToken)
        == Trace(u.outcome, [req] + u.sent, u.accessToken)
  {
    var script := [Page(items, None, Some(delta))] + rest;
    assert script[0] == Page(items, None, Some(delta)) && script[1..] == rest;
  }

  /** A page with neither link resolves the pass with everything accumulated. */
  lemma LastPageResolves(url: string, options: SyncOptions, a: Acc, req: Request,
                         items: seq<RawItem>, rest: seq<Response>, accessToken: Option<string>)
    ensures Drive(url, options, a, req, [Page(items, None, None)] + rest, accessToken)
      == Trace(Finished(Absorb(a, items)), [req], accessToken)
  {
    var script := [Page(items, None, None)] + rest;
    assert script[0] == Page(items, None, None);
  }

  /**
   * A 401 whose silent re-authentication yields a token: the same URL is fetched
   * again with the new token and the plain header, and the account holds the new token.
   */
  lemma UnauthorizedIsRetried(url: string, options: SyncOptions, a: Acc, req: Request, newToken: string,
                              rest: seq<Response>, accessToken: Option<string>)
    requires newToken != ""
    ensures var u := Drive(url, options, a, Request(req.url, newToken, false), rest, Some(newToken));
      Drive(url, options, a, req, [Failed(401, Reauthenticated(Some(newToken)))] + rest, accessToken)
        == Trace(u.outcome, [req] + u.sent, u.accessToken)
  {
    var script := [Failed(401, Reauthenticated(Some(newToken)))] + rest;
    assert script[0] == Failed(401, Reauthenticated(Some(newToken))) && script[1..] == rest;
  }

  /**
   * A 410 restarts from the original URL with change tracking on and the same token,
   * keeping the events, occurrences, masters and delta token accumulated so far.
   */
  lemma GoneRestartsFromOriginalUrl(url: string, options: SyncOptions, a: Acc, req: Request, reauth: Reauth,
                                    rest: seq<Response>, accessToken: Option<string>)
    ensures var u := Drive(url, options, a, Request(url, req.token, true), rest, accessToken);
      Drive(url, options, a, req, [Failed(410, reauth)] + rest, accessToken)
        == Trace(u.outcome, [req] + u.sent, u.accessToken)
  {
    var script := [Failed(410, reauth)] + rest;
    assert script[0] == Failed(410, reauth) && script[1..] == rest;
  }

  /**
   * A 401 on the second page of three: one silent re-authentication, the second page
   * is fetched again with the new token, and the result holds the items of all three
   * pages in order (see `AbsorbTwice`).
   */
  lemma UnauthorizedPageIsRetried(url: string, options: SyncOptions, a: Acc, req: Request, accessToken: Option<string>,
                                  p1: seq<RawItem>, next1: string, delta1: Option<string>,
                                  newToken: string,
                                  p2: seq<RawItem>, next2: string, delta2: Option<string>,
                                  p3: seq<RawItem>)
    requires next1 != "" && next2 != "" && newToken != ""
    ensures var t := Drive(url, options, a, req,
                           [Page(p1, Some(next1), delta1)] + ([Failed(401, Reauthenticated(Some(newToken)))]
                             + ([Page(p2, Some(next2), delta2)] + [Page(p3, None, None)])), accessToken);
      && t.sent == [req] + ([Request(next1, req.token, false)]
                      + ([Request(next1, newToken, false)] + [Request(next2, newToken, false)]))
      && t.accessToken == Some(newToken)
      && t.outcome == Finished(Absorb(Absorb(Absorb(a, p1), p2), p3))
  {
    var s3: seq<Response> := [Page(p3, None, None)];
    var s2 := [Page(p2, Some(next2), delta2)] + s3;
    var s1 := [Failed(401, Reauthenticated(Some(newToken)))] + s2;
    var a1 := Absorb(a, p1);
    var r1 := Request(next1, req.token, false);
    var r2 := Request(next1, newToken, false);
    var r3 := Request(next2, newToken, false);
    LastPageResolves(url, options, Absorb(a1, p2), r3, p3, [], Some(newToken));
    assert s3 == [Page(p3, None, None)] + [];
    NextLinkIsFollowed(url, options, a1, r2, p2, next2, delta2, s3, Some(newToken));
    UnauthorizedIsRetried(url, options, a1, r1, newToken, s2, accessToken);
    NextLinkIsFollowed(url, options, a, req, p1, next1, delta1, s1, accessToken);
  }

  // ---------------------------------------------------------------- the imperative pass

  /** The account record: only its access token and stored delta token matter here. */
  class Account {
    var accessToken: Option<string>
    var deltaToken: Option<string>

    constructor (accessToken: Option<string>, deltaToken: Option<string>)
      ensures this.accessToken == accessToken && this.deltaToken == deltaToken
    {
      this.accessToken := accessToken;
      this.deltaToken := deltaToken;
    }

    /**
     * `_reauthenticate`: whatever token bundle the silent authentication answers with
     * is stored on the account; the pass goes on only with a truthy access token.
     */
    method Reauthenticate(result: Reauth) returns (ok: bool)
      modifies this
      ensures ok <==> Renewed(result)
      ensures accessToken == if result.Reauthenticated? then result.accessToken else old(accessToken)
      ensures deltaToken == old(deltaToken)
    {
      if result.Reauthenticated? {
        accessToken := result.accessToken;
      }
      ok := Renewed(result);
    }
  }

  /** One invocation of `_fetchEvents`: its accumulators and the requests it sent. */
  class FetchPass {
    const url: string
    const options: SyncOptions
    const account: Account
    var events: seq<CanonicalEvent>
    var occurrences: seq<RawItem>
    var masters: seq<RawItem>
    var deltaToken: Option<string>
    ghost var sent: seq<Request>

    /** The accumulators, as the value `Drive` works on. */
    function Snapshot(): Acc
      reads this
    {
      Acc(events, occurrences, masters, deltaToken)
    }

    /** Empty accumulators; the delta token starts as the account's stored one. */
    constructor (url: string, options: SyncOptions, account: Account)
      ensures this.url == url && this.options == options && this.account == account
      ensures Snapshot() == Acc([], [], [], account.deltaToken) && sent == []
    {
      this.url := url;
      this.options := options;
      this.account := account;
      events, occurrences, masters := [], [], [];
      deltaToken := account.deltaToken;
      sent := [];
    }

    /** The `forEach` over a page's items. */
    method ProcessPage(items: seq<RawItem>)
      modifies this
      ensures Snapshot() == Absorb(old(Snapshot()), items)
      ensures sent == old(sent)
    {
      for k := 0 to |items|
        invariant Snapshot() == Absorb(old(Snapshot()), items[..k])
        invariant sent == old(sent)
      {
        var item := items[k];
        assert items[..k + 1] == items[..k] + [item];
        AbsorbLast(old(Snapshot()), items[..k], item);
        if item.kind == SeriesMaster {
          masters := masters + [item];
        }
        if item.kind == Occurrence {
          occurrences := occurrences + [item];
          continue;
        }
        if item.reason == Some("deleted") {
          continue;
        }
        events := events + [MakeEvent(item)];
      }
      assert items[..|items|] == items;
    }

    /** The terminal `forEach`: every deferred occurrence, resolved, after all other events. */
    method ReconcileOccurrences()
      modifies this
      ensures events == old(events) + Reconciled(occurrences, masters)
      ensures occurrences == old(occurrences) && masters == old(masters)
      ensures deltaToken == old(deltaToken) && sent == old(sent)
    {
      for k := 0 to |occurrences|
        invariant occurrences == old(occurrences) && masters == old(masters)
        invariant events == old(events) + Reconciled(occurrences[..k], masters)
        invariant deltaToken == old(deltaToken) && sent == old(sent)
      {
        assert occurrences[..k + 1][..k] == occurrences[..k];
        events := events + [MakeEventFromOccurrence(occurrences[k], masters)];
      }
      assert occurrences[..|occurrences|] == occurrences;
    }

    /**
     * What the pass does with the response `script[0]` to the request `req`: the
     * pass from here on is this response's effect followed by the pass from `next`.
     */
    method Handle(req: Request, r: Response, ghost script: seq<Response>)
      returns (done: bool, next: Request, outcome: Outcome)
      requires script != [] && script[0] == r
      modifies this, account
      ensures var t := Drive(url, options, old(Snapshot()), req, script, old(account.accessToken));
        if done then t == Trace(outcome, [req], account.accessToken)
        else
          var u := Drive(url, options, Snapshot(), next, script[1..], account.accessToken);
          t == Trace(u.outcome, [req] + u.sent, u.accessToken)
      ensures done && outcome.Resolved? ==> outcome.events == events && outcome.deltaToken == deltaToken
      ensures account.deltaToken == old(account.deltaToken) && sent == old(sent)
    {
      DriveStep(url, options, Snapshot(), req, script, account.accessToken);
      next, outcome := req, Awaiting;
      match r {
        case Page(items, nextLink, deltaLink) =>
          ProcessPage(items);
          if Truthy(nextLink) {
            done, next := false, Request(nextLink.value, req.token, false);
          } else if options.trackChanges && Truthy(deltaLink) {
            deltaToken := NextDeltaToken(deltaLink, deltaToken);
            done, next := false, Request(deltaLink.value, req.token, false);
          } else {
            ReconcileOccurrences();
            done, outcome := true, Resolved(events, deltaToken);
          }
        case MissingBody =>
          done, outcome := true, Rejected;
        case Failed(status, reauth) =>
          if status == 401 {
            var ok := account.Reauthenticate(reauth);
            if ok {
              done, next := false, Request(req.url, reauth.accessToken.value, false);
            } else {
              done, outcome := true, Stalled;
            }
          } else if status == 410 {
            done, next := false, Request(url, req.token, true);
          } else {
            done, outcome := true, Stalled;
          }
      }
    }

    /** The pass: the first request, then the recursive `fetch` of the source as a loop. */
    method Run(token: string, script: seq<Response>) returns (outcome: Outcome)
      modifies this, account
      ensures var t := Drive(url, options, old(Snapshot()),
                             FirstRequest(url, token, options, old(deltaToken)), script,
                             old(account.accessToken));
        && outcome == t.outcome
        && sent == old(sent) + t.sent
        && account.accessToken == t.accessToken
      ensures outcome.Resolved? ==> outcome.events == events && outcome.deltaToken == deltaToken
      ensures account.deltaToken == old(account.deltaToken)
    {
      var req := FirstRequest(url, token, options, deltaToken);
      outcome := RunFrom(req, script);
    }

    /**
     * The pass from `current` on, measured against a whole pass `t0` that began with
     * the requests `sent0`: it ends the same way, and what was sent plus what is still
     * to be sent is what `t0` sends.
     */
    ghost predicate OnCourse(current: Request, rest: seq<Response>, t0: Trace, sent0: seq<Request>)
      reads this, account
    {
      var t := Drive(url, options, Snapshot(), current, rest, account.accessToken);
      && t.outcome == t0.outcome
      && sent + t.sent == sent0 + t0.sent
      && t.accessToken == t0.accessToken
    }

    /** One turn of the `fetch` recursion: send `current` and handle its reply `r`. */
    method Turn(current: Request, r: Response, ghost rest: seq<Response>, ghost t0: Trace, ghost sent0: seq<Request>)
      returns (done: bool, next: Request, outcome: Outcome)
      requires rest != [] && rest[0] == r && OnCourse(current, rest, t0, sent0)
      modifies this, account
      ensures done ==> outcome == t0.outcome && sent == sent0 + t0.sent && account.accessToken == t0.accessToken
      ensures done && outcome.Resolved? ==> outcome.events == events && outcome.deltaToken == deltaToken
      ensures !done ==> OnCourse(next, rest[1..], t0, sent0)
      ensures account.deltaToken == old(account.deltaToken)
    {
      ghost var t := Drive(url, options, Snapshot(), current, rest, account.accessToken);
      sent := sent + [current];
      assert t == Drive(url, options, Snapshot(), current, rest, account.accessToken);
      done, next, outcome := Handle(current, r, rest);
      if done {
        assert sent == old(sent) + t.sent;
      } else {
        ghost var u := Drive(url, options, Snapshot(), next, rest[1..], account.accessToken);
        assert sent + u.sent == old(sent) + t.sent;
      }
    }

    /** The `fetch` recursion from the request `req`, one response of the script per turn. */
    method RunFrom(req: Request, script: seq<Response>) returns (outcome: Outcome)
      modifies this, account
      ensures var t := Drive(url, options, old(Snapshot()), req, script, old(account.accessToken));
        && outcome == t.outcome
        && sent == old(sent) + t.sent
        && account.accessToken == t.accessToken
      ensures outcome.Resolved? ==> outcome.events == events && outcome.deltaToken == deltaToken
      ensures account.deltaToken == old(account.deltaToken)
    {
      var current := req;
      ghost var t0 := Drive(url, options, Snapshot(), req, script, account.accessToken);
      ghost var rest := script;  // the responses still to come
      var i := 0;
      while i < |script|
        invariant 0 <= i <= |script| && rest == script[i..]
        invariant account.deltaToken == old(account.deltaToken)
        invariant OnCourse(current, rest, t0, old(sent))
      {
        var done, next, o := Turn(current, script[i], rest, t0, old(sent));
        if done {
          return o;
        }
        current := next;
        rest := rest[1..];
        i := i + 1;
      }
      sent := sent + [current];
      outcome := Awaiting;
    }
  }
}
