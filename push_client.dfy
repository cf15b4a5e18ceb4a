/** The client side of push notifications (`services/notifications.ts`):
    the VAPID key cache, the base64url key decoding, the support and
    permission checks, and the subscribe flow's guards. The browser's
    answers (support, the permission prompt, the push subscription,
    `atob`) are parameters; the backend's key is the value a fetch returns. */
module PushClient {
  import opened Common

  newtype byte = x: int | 0 <= x < 256

  // -----------------------------------------------------------------------
  // Base64url to bytes

  /** `c.repeat(n)`. */
  function Repeat(c: char, n: nat): (r: string)
    ensures |r| == n
    ensures forall i :: 0 <= i < n ==> r[i] == c
  {
    if n == 0 then "" else Repeat(c, n - 1) + [c]
  }

  /** `(4 - (len % 4)) % 4`: the one count below four that makes the length
      a multiple of four. */
  function Padding(len: nat): (n: nat)
    ensures n < 4
    ensures (len + n) % 4 == 0
  {
    (4 - len % 4) % 4
  }

  /** `s.replace(/a/g, b)` for single characters. */
  function ReplaceAll(s: string, a: char, b: char): (r: string)
    ensures |r| == |s|
    ensures forall i :: 0 <= i < |s| ==> r[i] == if s[i] == a then b else s[i]
  {
    if s == [] then "" else ReplaceAll(s[..|s| - 1], a, b) + [if s[|s| - 1] == a then b else s[|s| - 1]]
  }

  /** The base64url alphabet's two characters mapped to standard base64. */
  function StandardChar(ch: char): char {
    if ch == '-' then '+' else if ch == '_' then '/' else ch
  }

  /** The padded, standard-alphabet form handed to `atob`. */
  function Base64Of(s: string): (r: string)
    ensures |r| == |s| + Padding(|s|) && |r| % 4 == 0
    ensures forall i :: 0 <= i < |s| ==> r[i] == StandardChar(s[i])
    ensures forall i :: |s| <= i < |r| ==> r[i] == '='
    ensures forall i :: 0 <= i < |r| ==> r[i] != '-' && r[i] != '_'
  {
    ReplaceAll(ReplaceAll(s + Repeat('=', Padding(|s|)), '-', '+'), '_', '/')
  }

  /** A string already in padded standard base64 is handed over as it is. */
  lemma Base64OfStandard(s: string)
    requires |s| % 4 == 0
    requires forall i :: 0 <= i < |s| ==> s[i] != '-' && s[i] != '_'
    ensures Base64Of(s) == s
  {
    assert Padding(|s|) == 0;
  }

  /** `outputArray[i] = rawData.charCodeAt(i)`: a `Uint8Array` keeps the low
      eight bits of the code. */
  function ByteOf(ch: char): byte {
    ((ch as int) % 256) as byte
  }

  /** `atob` yields only characters below 256, whose code is kept whole. */
  lemma ByteOfLatin1(ch: char)
    requires (ch as int) < 256
    ensures ByteOf(ch) as int == ch as int
  {
  }

  /** `urlBase64ToUint8Array`. `atob` yields nothing where it throws
      `InvalidCharacterError`, and then so does this. */
  method UrlBase64ToUint8Array(base64String: string, atob: string -> Option<string>) returns (out: Option<array<byte>>)
    ensures atob(Base64Of(base64String)).None? ==> out.None?
    ensures atob(Base64Of(base64String)).Some? ==>
      var rawData := atob(Base64Of(base64String)).value;
      && out.Some? && fresh(out.value)
      && out.value.Length == |rawData|
      && forall i :: 0 <= i < out.value.Length ==> out.value[i] == ByteOf(rawData[i])
  {
    var decoded := atob(Base64Of(base64String));
    if decoded.None? {
      return None;
    }
    var rawData := decoded.value;
    var outputArray := new byte[|rawData|];
    for i := 0 to |rawData|
      invariant forall j :: 0 <= j < i ==> outputArray[j] == ByteOf(rawData[j])
    {
      outputArray[i] := ByteOf(rawData[i]);
    }
    out := Some(outputArray);
  }

  // -----------------------------------------------------------------------
  // Support and permission

  datatype Permission = Granted | Denied | Default

  /** What the browser offers: the `Notification` API, service workers, and
      the current permission. */
  datatype Browser = Browser(hasNotification: bool, hasServiceWorker: bool, permission: Permission)

  predicate IsNotificationSupported(b: Browser) {
    b.hasNotification && b.hasServiceWorker
  }

  /** `getPermissionStatus`: "denied" without support. */
  function PermissionStatus(b: Browser): (p: Permission)
    ensures !IsNotificationSupported(b) ==> p == Denied
    ensures IsNotificationSupported(b) ==> p == b.permission
  {
    if !IsNotificationSupported(b) then Denied else b.permission
  }

  /** What `pushManager.getSubscription()` gave: a failure, or whether there
      is a subscription. */
  datatype Lookup = LookupFailed | Looked(hasSubscription: bool)

  /** `isSubscribed`: false without support or when the lookup fails. */
  function IsSubscribed(b: Browser, lookup: Lookup): (r: bool)
    ensures r <==> IsNotificationSupported(b) && lookup == Looked(true)
  {
    if !IsNotificationSupported(b) then false
    else match lookup
      case LookupFailed => false
      case Looked(has) => has
  }

  // -----------------------------------------------------------------------
  // The key cache

  /** One `getVapidPublicKey` call on a cache, answered by `served` when it
      fetches: the key returned, the new cache, and whether it fetched. */
  function KeyCall(cache: Option<string>, served: string): (Option<string>, string, bool) {
    if Truthy(cache) then (cache, cache.value, false) else (Some(served), served, true)
  }

  /** A run of calls: the keys they return and the number of fetches. */
  function KeyRun(cache: Option<string>, served: seq<string>): (r: (seq<string>, nat))
    ensures |r.0| == |served|
    ensures r.1 <= |served|
    decreases |served|
  {
    if served == [] then ([], 0)
    else
      var (next, key, fetched) := KeyCall(cache, served[0]);
      var (keys, fetches) := KeyRun(next, served[1..]);
      ([key] + keys, fetches + if fetched then 1 else 0)
  }

  /** A cached key is returned by every later call, with no fetch. */
  lemma {:induction false} CachedKeyKept(key: string, served: seq<string>)
    requires key != ""
    ensures KeyRun(Some(key), served).1 == 0
    ensures forall i :: 0 <= i < |served| ==> KeyRun(Some(key), served).0[i] == key
  {
    if served != [] {
      CachedKeyKept(key, served[1..]);
    }
  }

  /** While the backend serves a non-empty key, the key is fetched at most
      once and every call returns the first key fetched. */
  lemma {:induction false} AtMostOneFetch(cache: Option<string>, served: seq<string>)
    requires forall i :: 0 <= i < |served| ==> served[i] != ""
    ensures KeyRun(cache, served).1 <= 1
    ensures Truthy(cache) ==> KeyRun(cache, served).1 == 0
    ensures !Truthy(cache) && served != [] ==>
      forall i :: 0 <= i < |served| ==> KeyRun(cache, served).0[i] == served[0]
  {
    if served != [] {
      var (next, key, fetched) := KeyCall(cache, served[0]);
      CachedKeyKept(next.value, served[1..]);
    }
  }

  /** An empty key is not a cached key: it is fetched again on every call. */
  lemma EmptyKeyRefetched()
    ensures KeyRun(None, ["", ""]).1 == 2
  {
  }

  // -----------------------------------------------------------------------
  // Subscribing

  datatype Keys = Keys(p256dh: Option<string>, auth: Option<string>)

  /** `subscription.toJSON()`. */
  datatype SubscriptionJson = SubscriptionJson(endpoint: Option<string>, keys: Option<Keys>)

  /** The body posted to `/notifications/subscribe`. */
  datatype SubscribeRequest = SubscribeRequest(
    userId: string, endpoint: string, p256dh: Option<string>, auth: Option<string>, userAgent: string)

  /** Why `subscribe` threw: no support, no permission, the key GET failed,
      `atob` refused the key, `pushManager.subscribe` rejected, the
      subscription lacked endpoint or keys, or the POST failed. */
  datatype Failure =
    | NoNotifications | NoServiceWorker | PermissionNotGranted
    | KeyFetchFailed | InvalidKey | PushSubscribeRejected | InvalidSubscription | PostFailed

  datatype Outcome = Subscribed | Threw(failure: Failure)

  /** `subscriptionJson.endpoint && subscriptionJson.keys`. */
  predicate ValidJson(sub: SubscriptionJson) {
    Truthy(sub.endpoint) && sub.keys.Some?
  }

  /** The posted body: the user, the subscription's endpoint and keys, and
      `navigator.userAgent`. */
  function RequestOf(userId: string, sub: SubscriptionJson, userAgent: string): SubscribeRequest
    requires ValidJson(sub)
  {
    SubscribeRequest(userId, sub.endpoint.value, sub.keys.value.p256dh, sub.keys.value.auth, userAgent)
  }

  /** The key `getVapidPublicKey` resolves to: the cached one, or the one
      served, or nothing when the GET fails. */
  function KeyAfter(cache: Option<string>, served: Option<string>): (k: Option<string>)
    ensures Truthy(cache) ==> k == cache
    ensures !Truthy(cache) ==> k == served
  {
    if Truthy(cache) then cache else served
  }

  class NotificationsClient {
    var vapidPublicKey: Option<string>
    /** The GETs of `/notifications/vapid-public-key` so far. */
    var fetches: nat
    /** The subscriptions posted to the backend so far. */
    var posted: seq<SubscribeRequest>

    constructor ()
      ensures vapidPublicKey == None && fetches == 0 && posted == []
    {
      vapidPublicKey := None;
      fetches := 0;
      posted := [];
    }

    /** `getVapidPublicKey`, answered by `served` when it fetches; `None`
        stands for a failed GET, which throws and caches nothing. */
    method GetVapidPublicKey(served: Option<string>) returns (key: Option<string>)
      modifies this
      ensures served.Some? || Truthy(old(vapidPublicKey)) ==>
        var (cache, k, fetched) := KeyCall(old(vapidPublicKey), served.GetOr(""));
        vapidPublicKey == cache && key == Some(k) && fetches == old(fetches) + (if fetched then 1 else 0)
      ensures served.None? && !Truthy(old(vapidPublicKey)) ==>
        key.None? && vapidPublicKey == old(vapidPublicKey) && fetches == old(fetches) + 1
      ensures posted == old(posted)
    {
      if Truthy(vapidPublicKey) {
        return Some(vapidPublicKey.value);
      }
      fetches := fetches + 1;
      if served.None? {
        return None;
      }
      vapidPublicKey := Some(served.value);
      key := served;
    }

    /** `subscribe`: `requestPermission` throws without support; then the
        prompt's answer must be "granted"; then the key is read (`served`,
        `None` for a failed GET) and decoded (`atob`), and the browser
        subscription made (`sub`, `None` for a rejection); a subscription
        without endpoint or keys throws. The request is then posted once,
        and `postOk` says whether the POST succeeded. */
    method Subscribe(userId: string, b: Browser, answer: Permission, served: Option<string>,
                     atob: string -> Option<string>, sub: Option<SubscriptionJson>, postOk: bool,
                     userAgent: string)
      returns (r: Outcome)
      modifies this
      ensures !b.hasNotification ==> r == Threw(NoNotifications)
      ensures b.hasNotification && !b.hasServiceWorker ==> r == Threw(NoServiceWorker)
      ensures IsNotificationSupported(b) && answer != Granted ==> r == Threw(PermissionNotGranted)
      ensures !(IsNotificationSupported(b) && answer == Granted) ==>
        vapidPublicKey == old(vapidPublicKey) && fetches == old(fetches)
      ensures IsNotificationSupported(b) && answer == Granted ==>
        var key := KeyAfter(old(vapidPublicKey), served);
        && (key.None? ==> r == Threw(KeyFetchFailed))
        && (key.Some? && atob(Base64Of(key.value)).None? ==> r == Threw(InvalidKey))
        && (key.Some? && atob(Base64Of(key.value)).Some? && sub.None? ==> r == Threw(PushSubscribeRejected))
        && (key.Some? && atob(Base64Of(key.value)).Some? && sub.Some? && !ValidJson(sub.value) ==>
              r == Threw(InvalidSubscription))
        && (key.Some? && atob(Base64Of(key.value)).Some? && sub.Some? && ValidJson(sub.value) ==>
              && posted == old(posted) + [RequestOf(userId, sub.value, userAgent)]
              && r == if postOk then Subscribed else Threw(PostFailed))
      ensures IsNotificationSupported(b) && answer == Granted && (served.Some? || Truthy(old(vapidPublicKey))) ==>
        var (cache, _, fetched) := KeyCall(old(vapidPublicKey), served.GetOr(""));
        vapidPublicKey == cache && fetches == old(fetches) + (if fetched then 1 else 0)
      ensures IsNotificationSupported(b) && answer == Granted && served.None? && !Truthy(old(vapidPublicKey)) ==>
        vapidPublicKey == old(vapidPublicKey) && fetches == old(fetches) + 1
      ensures r.Threw? && r.failure != PostFailed ==> posted == old(posted)
      ensures r == Subscribed <==>
        && IsNotificationSupported(b) && answer == Granted
        && KeyAfter(old(vapidPublicKey), served).Some?
        && atob(Base64Of(KeyAfter(old(vapidPublicKey), served).value)).Some?
        && sub.Some? && ValidJson(sub.value) && postOk
    {
      if !b.hasNotification {
        return Threw(NoNotifications);
      }
      if !b.hasServiceWorker {
        return Threw(NoServiceWorker);
      }
      if answer != Granted {
        return Threw(PermissionNotGranted);
      }
      var key := GetVapidPublicKey(served);
      if key.None? {
        return Threw(KeyFetchFailed);
      }
      var applicationServerKey := UrlBase64ToUint8Array(key.value, atob);
      if applicationServerKey.None? {
        return Threw(InvalidKey);
      }
      if sub.None? {
        return Threw(PushSubscribeRejected);
      }
      var json := sub.value;
      if !ValidJson(json) {
        return Threw(InvalidSubscription);
      }
      posted := posted + [RequestOf(userId, json, userAgent)];
      r := if postOk then Subscribed else Threw(PostFailed);
    }
  }
}
