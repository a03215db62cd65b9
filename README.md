# Office 365 calendar sync, modelled in Dafny

This project models the Office 365 strategy of the Butter calendar application
(`app/services/strategy-office.js`). The strategy:

- builds the OAuth 2.0 authorization request, in either the implicit or the code grant;
- classifies the URLs the sign-in window visits, and either exchanges a code,
  resolves with tokens, rejects with the provider's error, or keeps waiting;
- fetches a calendar view page by page, following `@odata.nextLink` and, when change
  tracking is on, `@odata.deltaLink`;
- extracts the 32-character delta token from a delta link;
- recovers from an expired token (401, silent re-authentication) and from an
  expired sync state (410, restart with tracking);
- normalises provider items into the application's canonical event record;
- resolves occurrences of recurring series against their series masters once
  the last page has arrived.

Modules, one per concern:

| file | module | what it holds |
|---|---|---|
| `wrappers.dfy` | `Wrappers` | `Option` |
| `text.dfy` | `Text` | JavaScript truthiness, `indexOf`/`lastIndexOf` (with -1), `slice`, the `[^&]*` capture, `join(' ')` and its inverse |
| `auth_uri.dfy` | `AuthUri` | `_makeAuthURI` and the request headers of `_makeApiCall` |
| `callback.dfy` | `Callback` | `_handleCallback`, and how the authentication promise settles |
| `delta_token.dfy` | `DeltaToken` | `_findDeltaToken`, and how the first request carries a stored token |
| `normalize.dfy` | `Normalize` | `_makeEvent`, `_makeParticipants`, `_makeEventFromOccurence` |
| `delta_sync.dfy` | `DeltaSync` | `_fetchEvents`: the per-response state machine `Step`, the pass as a function `Drive`, and the imperative `FetchPass` class whose `Run` (the first request, then the `RunFrom` loop) is proved equal to `Drive` |

The provider is a finite script of responses, one consumed per request. Each
response is a page, a reply without body, or a failure with its status code. A
401 failure also carries what the silent re-authentication it triggers answers.
`FetchPass` keeps the source's accumulators `events`, `occurences` and `masters`
and its `deltaToken` as fields. `RunFrom` reassigns them as pages arrive, one `Turn` per
response, and the `ensures` of `Run` ties the outcome, the requests sent and the account's token to `Drive`.
The lemmas about `Drive` then say what a pass promises.

## Model

| member | source | states |
|---|---|---|
| Text.FirstIndexOf | app/services/strategy-office.js:364-366 | the first index where the pattern occurs, with no occurrence before it; `None` exactly when it occurs nowhere |
| Text.LastIndexOf | app/services/strategy-office.js:300 | `lastIndexOf`: the greatest index where the pattern occurs, none after it; -1 exactly when it occurs nowhere |
| Text.Slice | app/services/strategy-office.js:301 | `slice(k)`: the suffix from `k`, of length `|s| - k`, empty past the end |
| Text.TakeUntil | app/services/strategy-office.js:364-366 | `[^&]*`: the longest prefix free of the separator, stopping at it or at the end |
| Text.TakeUntilStopsAtSeparator | app/services/strategy-office.js:364-366 | the capture of `a + [c] + b` is exactly `a` when `a` holds no `c` |
| Text.JoinWithSpaces | app/services/strategy-office.js:116 | `join(' ')`: the text starts with the first element, and with two or more elements a space follows it |
| Text.SplitJoinRoundTrip | app/services/strategy-office.js:116 | splitting `scopes.join(' ')` on spaces gives the scopes back when none contains a space |
| AuthUri.MakeAuthRequest | app/services/strategy-office.js:110-143 | endpoint is base + authorize path; the query merged from the three `setQuery` calls carries exactly the parameters `Carries` names, with the values `Value` gives |
| AuthUri.MergedQueryMatchesReference | app/services/strategy-office.js:114-140 | the map union of the fixed, grant and silent parameter sets agrees key by key with the per-parameter reference |
| AuthUri.ParameterNamesAreDistinct | app/services/strategy-office.js:114-140 | the ten query parameters have pairwise different wire names |
| AuthUri.AuthRequestParameters | app/services/strategy-office.js:114-140 | redirect_uri, scope, client_id and response_type always; response_type is `code` iff a client secret is set, otherwise `id_token token` with response_mode, state and nonce, which appear iff there is no secret; prompt, login_hint and domain_hint appear iff the existing user is truthy, with login_hint the user |
| AuthUri.ScopeParameterListsScopes | app/services/strategy-office.js:116 | the provider reads the configured scopes back from the scope parameter |
| AuthUri.ShippedConfigUsesImplicitGrant | app/services/strategy-office.js:9-15 | the shipped configuration, which has no secret, asks for `id_token token` and the three configured scopes |
| AuthUri.RequestHeaders | app/services/strategy-office.js:310-318 | every call carries Authorization `Bearer <token>`, Accept JSON, User-Agent `butter/dev` and a Prefer header that starts with `odata.track-changes` iff change tracking is requested and always ends with `odata.maxpagesize=200` |
| AuthUri.HeaderNamesAreDistinct | app/services/strategy-office.js:310-318 | the four header fields have pairwise different wire names |
| Callback.CaptureAt | app/services/strategy-office.js:364-366 | the text after a key occurrence: it follows the key in the URL, holds no `&`, and ends at `&` or at the end |
| Callback.Capture | app/services/strategy-office.js:364-369 | `key([^&]*)` captures after the FIRST occurrence of the key, is absent exactly when the key is absent, and stops at `&` |
| Callback.ErrorCapture | app/services/strategy-office.js:370 | `\?error=(.+)$` matches iff some `?error=` is followed by at least one character and no line terminator; the capture is the rest of the URL after the leftmost such match |
| Callback.HandleCallback | app/services/strategy-office.js:372-390 | the window is destroyed iff a non-empty code, a non-empty access token or an error is found; the code wins over the token, the token over the error, and with neither an error match rejects with its capture; the implicit flow resolves with the raw id_token capture |
| Callback.Settle | app/services/strategy-office.js:375-389 | a code settles only when the exchange answers, with the answer plus the code; tokens resolve as `{id_token, access_token}`; an error rejects with the error the decision carries; waiting and a failed exchange never settle |
| Callback.SettlingDestroysWindow | app/services/strategy-office.js:372-373 | every settled flow destroyed the window first |
| DeltaToken.FindDeltaToken | app/services/strategy-office.js:297-305 | a token is returned only for a truthy delta link, is 32 characters long, and is the link's last 32 characters |
| DeltaToken.TokenFollowsLastMarker | app/services/strategy-office.js:300-304 | with `deltatoken=` last at `p`, a token exists iff exactly 32 characters follow the marker, and it is what follows |
| DeltaToken.MarkerlessLinkYieldsTail | app/services/strategy-office.js:300-301 | without the marker `lastIndexOf` gives -1 and the slice starts at 10: a token exists iff the link has 42 characters |
| DeltaToken.WithDeltaToken | app/services/strategy-office.js:166-167 | appending the stored token keeps the URL as a prefix, adds it as a query parameter (after `?` when the URL has no query yet, after `&` otherwise) and ends the URL with `deltatoken=<token>` |
| DeltaToken.DeltaTokenRoundTrip | app/services/strategy-office.js:297-305 | a 32-character token free of `=`, appended to any URL, is found again by `_findDeltaToken` |
| Normalize.MakeParticipants | app/services/strategy-office.js:262-276 | `{[]}` iff attendees are absent or empty, otherwise one `{name, email}` pair per attendee, in order |
| Normalize.MakeEvent | app/services/strategy-office.js:234-260 | never editable; all-day iff flagged or start and end fall on different days; location is the display name or ''; organizer is the email-address record or ''; participants are one `{name, email}` pair per attendee in order, or `{[]}`; title, id, body, body type, preview, showAs, the organizer/reminder/cancelled flags and the times are copied |
| Normalize.FindMaster | app/services/strategy-office.js:279 | the index of the first master whose id equals the occurrence's series master id; none when no master matches |
| Normalize.MakeEventFromOccurrence | app/services/strategy-office.js:278-290 | the id, times, showAs and participants are always the occurrence's own; title, body and preview come from the first master with the series master id, or, with preview, from the occurrence when none matches |
| Normalize.OccurrenceTakesMasterDisplayFields | app/services/strategy-office.js:278-290 | a matched occurrence shows the master's subject, body, preview and all-day flag and keeps every other field of its own |
| Normalize.UnmatchedOccurrenceKeepsOwnFields | app/services/strategy-office.js:278-290 | an occurrence without a master is normalised unchanged |
| DeltaSync.Filter | app/services/strategy-office.js:176-193 | every selected item satisfies the test, and never more are selected than were received |
| DeltaSync.FilterMembers | app/services/strategy-office.js:176-193 | an item is selected iff it was received and satisfies the test |
| DeltaSync.FilterAppend | app/services/strategy-office.js:176-193 | selecting over two pages is selecting over each, in arrival order |
| DeltaSync.Emitted | app/services/strategy-office.js:176-193 | one event per item that is neither an occurrence nor deleted |
| DeltaSync.EmittedNormalisesKeptItems | app/services/strategy-office.js:176-193 | the events emitted on arrival are exactly the normalised items that are neither occurrences nor deleted, one each, in order |
| DeltaSync.EmittedAppend | app/services/strategy-office.js:176-193 | the events of two pages are the first page's events followed by the second's |
| DeltaSync.Absorb | app/services/strategy-office.js:176-193 | a page only appends to the three accumulators, adding one event per kept item, and leaves the delta token alone |
| DeltaSync.AbsorbTwice | app/services/strategy-office.js:176-193 | absorbing two pages in turn equals absorbing their items together |
| DeltaSync.Reconciled | app/services/strategy-office.js:203 | exactly one event per deferred occurrence |
| DeltaSync.ReconciledPointwise | app/services/strategy-office.js:203 | one event per deferred occurrence, in arrival order, each resolved against the masters |
| DeltaSync.FirstRequest | app/services/strategy-office.js:163-168 | the stored delta token is appended iff `useDelta` is set and the token is truthy; the appended token is a query parameter after `?` or `&`; the first request uses the caller's token and the configured tracking header |
| DeltaSync.Step | app/services/strategy-office.js:174-227 | no response drops anything accumulated, whether the pass goes on or resolves; without a page, only a 401 or a 410 leads to another request |
| DeltaSync.StepCases | app/services/strategy-office.js:174-227 | per response: the next link wins, with the same token and the plain header; the delta link is followed only when tracking, replacing the delta token only by a found one; a terminal page resolves with the occurrences last; a missing body rejects; only a 401 with a renewed token and a 410 continue, neither clearing anything; every other failure stalls |
| DeltaSync.Drive | app/services/strategy-office.js:170-230 | a pass sends at least one and at most one more request than responses, starting with the first; a pass still awaiting has consumed the whole script |
| DeltaSync.DriveKeepsEarlierEvents | app/services/strategy-office.js:160-209 | the events accumulated before any response stay at the front of the resolved events: no recovery path clears them |
| DeltaSync.DriveDeltaToken | app/services/strategy-office.js:164-209 | the resolved delta token is the starting one or a 32-character token |
| DeltaSync.UntrackedPassKeepsDeltaToken | app/services/strategy-office.js:197-198 | without change tracking the resolved delta token is the starting one |
| DeltaSync.NextLinkIsFollowed | app/services/strategy-office.js:195-196 | a page with a next link keeps its items and fetches the link with the same token |
| DeltaSync.DeltaLinkIsFollowed | app/services/strategy-office.js:197-199 | a last page with a delta link while tracking fetches the link and takes the found token, else keeps the old one |
| DeltaSync.LastPageResolves | app/services/strategy-office.js:202-209 | a page with neither link resolves with everything accumulated, deferred occurrences last |
| DeltaSync.UnauthorizedIsRetried | app/services/strategy-office.js:213-219 | a 401 whose re-authentication yields a token refetches the same URL with it and the plain header, and the account holds it |
| DeltaSync.GoneRestartsFromOriginalUrl | app/services/strategy-office.js:220-222 | a 410 restarts from the original URL with tracking and the same token, keeping everything accumulated |
| DeltaSync.UnauthorizedPageIsRetried | app/services/strategy-office.js:195-219 | a 401 on page 2 of 3 sends four requests (page 2 twice, then with the new token), ends with the new token and resolves with all three pages |
| DeltaSync.Account.Reauthenticate | app/services/strategy-office.js:400-418 | whatever bundle the silent authentication answers with replaces the account's token; the pass continues only with a truthy access token |
| DeltaSync.FetchPass.constructor | app/services/strategy-office.js:160-164 | empty accumulators; the delta token starts as the account's stored one |
| DeltaSync.FetchPass.ProcessPage | app/services/strategy-office.js:176-193 | the accumulators become `Absorb` of the old ones and the page's items |
| DeltaSync.FetchPass.ReconcileOccurrences | app/services/strategy-office.js:203 | appends the reconciled occurrences to the events and changes nothing else |
| DeltaSync.FetchPass.Handle | app/services/strategy-office.js:174-227 | the pass from this response on is the response's effect followed by the pass from the next request |
| DeltaSync.FetchPass.Turn | app/services/strategy-office.js:170-227 | one call of `fetch`: sending the request and handling its reply keeps the pass on course, so a finished turn ends exactly as the whole pass does, and otherwise the pass from the next request still does |
| DeltaSync.FetchPass.RunFrom | app/services/strategy-office.js:170-227 | the `fetch` recursion as a loop from any request: outcome, requests sent and the account's final token are those of `Drive` from that request |
| DeltaSync.FetchPass.Run | app/services/strategy-office.js:156-232 | outcome, requests sent and the account's final token are those of `Drive` from the first request; a resolved outcome is the pass's own events and delta token |

## Left out

- `authenticate`: the Electron window, its navigation events and its `close` handler are not modelled. The callback classifier receives each URL as a parameter.
- `addAccount`, `getCalendarView` and `_getEmailFromToken`: store records, date formatting and JWT decoding are not modelled.
- `_makeApiCall` and `_requestToken`: the HTTP calls are abstracted. A call's answer is a script entry (`DeltaSync.Response`) or an `Exchange` value. Only the header set of `_makeApiCall` is modelled.
- `_reauthenticate`: only the replacement of the account's access token is modelled. The account's name, username and strategy fields, and `save()`, are not.
- DeltaSync.Drive: the retries after 401 and 410 are unbounded in the source. Here a finite script bounds them, and a pass that runs out of script is `Awaiting`.
- Normalize.MakeEvent: dates are a `DateTime` text plus a calendar-day number. moment's parse and `format()` are not modelled, and neither is `stringify` of the participants (`Serialized` keeps the pairs).
- Normalize.MakeEvent: a `Location` object without `DisplayName` yields `undefined` in the source. Here every location has a display name.
- Normalize.MakeEventFromOccurrence: the source writes the master's fields into the occurrence object in place. Here the occurrence is a value updated functionally, so aliasing of that object is not captured.
- AuthUri.MakeAuthRequest: the query is a map, so urijs percent-encoding and the order of the parameters in the URL text are not modelled.
- DeltaToken.WithDeltaToken: assumes the URL does not already carry a `deltatoken` parameter (urijs would replace it). The calendar-view URL never does.
- DeltaToken.WithDeltaToken: the token is appended as is. urijs `setQuery` percent-encodes the value, so a stored token holding `%`, `+`, `/`, `=` or other reserved characters is sent in its encoded form, which the model does not produce.
- DeltaToken.FindDeltaToken: `|s|` counts characters, while JavaScript's `length` counts UTF-16 code units. A link holding characters outside the Basic Multilingual Plane can be judged differently by the 32-character test. Provider tokens are ASCII.
- Callback.Settle: the source rejects with the whole regular-expression match array; the model rejects with the captured error text only.
- Logging through the debugger mixin is left out.
- Exceptions thrown inside the page handler other than the missing body (for instance a page without `value`) are not modelled. A page always has items.
- Normalize.MakeEventFromOccurrence: every item has a `Body`. In the source an occurrence without `Body`, and without a matching master that supplies one, throws when `_makeEvent` reads `Body.Content` inside the terminal `forEach`; the catch logs it as an unknown error and the pass never settles. The model resolves such a pass instead of leaving it stalled.
- Behaviour kept as the code has it:
  - a 410 keeps the accumulated events and delta token;
  - unknown errors and a failed re-authentication leave the promise unsettled;
  - a deleted item typed `Occurrence` is still deferred and emitted;
  - series masters are emitted as events too;
  - a failed code exchange leaves the promise unsettled;
  - the canonical event's participants are stored under the key `_participants`;
  - the stored delta token is appended to the first request without any length check;
  - the delta link is fetched with the plain `Prefer` header, without `odata.track-changes`.
