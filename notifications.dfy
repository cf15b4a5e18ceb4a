/** The notification dispatcher: a registry of push subscriptions that is
    upserted and soft-deactivated, fan-out delivery that counts successes
    and failures and retires subscriptions the push service reports gone,
    and the "starting soon" sweep whose log of SENT rows keeps it from
    notifying a player twice. */
module Notifications {
  import opened Common
  import opened Tables
  import opened Sorting
  import opened Matches

  /** A row of `push_subscriptions`. */
  datatype PushSubscription = PushSubscription(
    id: string,
    userId: string,
    endpoint: string,
    p256dh: string,
    auth: string,
    isActive: bool,
    userAgent: Option<string>)

  /** The body of a subscribe request; the three strings are non-empty. */
  datatype SubscribeDto = SubscribeDto(endpoint: string, p256dh: string, auth: string, userAgent: Option<string>)

  predicate ValidSubscribeDto(dto: SubscribeDto) {
    dto.endpoint != "" && dto.p256dh != "" && dto.auth != ""
  }

  datatype NotificationType = MatchStartingSoon | MatchCancelled | MatchUpdated | PlayerJoined | PlayerLeft

  datatype NotificationStatus = StatusPending | Sent | Failed

  /** A row of `notification_logs`; times are epoch milliseconds. */
  datatype NotificationLog = NotificationLog(
    userId: string,
    matchId: string,
    kind: NotificationType,
    status: NotificationStatus,
    title: string,
    body: string,
    errorMessage: Option<string>,
    createdAt: int,
    sentAt: Option<int>)

  /** What a caller asks to send. */
  datatype Notification = Notification(
    title: string,
    body: string,
    icon: Option<string>,
    badge: Option<string>,
    tag: Option<string>)

  /** What is posted to each subscription. */
  datatype Payload = Payload(title: string, body: string, icon: string, badge: string, tag: Option<string>)

  /** The outcome of one `webpush.sendNotification`: delivered, or an error
      with the HTTP status the push service answered, if any. */
  datatype Delivery = Delivered | Rejected(statusCode: Option<int>)

  datatype SendResult = SendResult(sent: nat, failed: nat)

  const DefaultIcon: string := "/icons/icon-192x192.svg"
  const DefaultBadge: string := "/icons/icon-72x72.svg"

  /** The payload: missing or empty icon and badge fall back to the app icons. */
  function BuildPayload(n: Notification): (p: Payload)
    ensures p.title == n.title && p.body == n.body && p.tag == n.tag
    ensures Truthy(n.icon) ==> p.icon == n.icon.value
    ensures !Truthy(n.icon) ==> p.icon == DefaultIcon
    ensures Truthy(n.badge) ==> p.badge == n.badge.value
    ensures !Truthy(n.badge) ==> p.badge == DefaultBadge
  {
    Payload(n.title, n.body, OrElse(n.icon, DefaultIcon), OrElse(n.badge, DefaultBadge), n.tag)
  }

  function SubIdOf(s: PushSubscription): string { s.id }
  function EndpointKeyOf(s: PushSubscription): (string, string) { (s.userId, s.endpoint) }
  function LogCreatedAt(l: NotificationLog): int { l.createdAt }

  /** The registry invariant: unique ids and one row per (user, endpoint),
      the unique index of the table. */
  ghost predicate RegistryValid(subs: seq<PushSubscription>) {
    DistinctBy(subs, SubIdOf) && DistinctBy(subs, EndpointKeyOf)
  }

  // -----------------------------------------------------------------------
  // subscribe / unsubscribe / getUserSubscriptions

  function IndexOfEndpoint(subs: seq<PushSubscription>, userId: string, endpoint: string): Option<nat> {
    FindFirst(subs, (s: PushSubscription) => s.userId == userId && s.endpoint == endpoint)
  }

  /** The entity `subscribe` saves: the user's row for the endpoint with
      fresh keys, the request's agent and reactivated, or a new active row. */
  function Subscribed(subs: seq<PushSubscription>, userId: string, dto: SubscribeDto, newId: string): PushSubscription {
    match IndexOfEndpoint(subs, userId, dto.endpoint)
    case Some(i) => subs[i].(p256dh := dto.p256dh, auth := dto.auth, userAgent := dto.userAgent, isActive := true)
    case None => PushSubscription(newId, userId, dto.endpoint, dto.p256dh, dto.auth, true, dto.userAgent)
  }

  /** `subscribe`: the saved entity replaces the user's row for the endpoint
      or is appended. `save` leaves a column alone when the entity's
      property is undefined, so an update without an agent keeps the stored
      one. */
  function Upsert(subs: seq<PushSubscription>, userId: string, dto: SubscribeDto, newId: string): seq<PushSubscription> {
    var e := Subscribed(subs, userId, dto, newId);
    match IndexOfEndpoint(subs, userId, dto.endpoint)
    case Some(i) => subs[i := if dto.userAgent.None? then e.(userAgent := subs[i].userAgent) else e]
    case None => subs + [e]
  }

  /** After an upsert the pair has exactly one row, active and carrying the
      new keys; no other row changes and the registry invariant holds. */
  lemma UpsertCorrect(subs: seq<PushSubscription>, userId: string, dto: SubscribeDto, newId: string)
    requires RegistryValid(subs)
    requires !HasKey(subs, SubIdOf, newId)
    ensures var r := Upsert(subs, userId, dto, newId);
      && RegistryValid(r)
      && |r| == |subs| + (if IndexOfEndpoint(subs, userId, dto.endpoint).Some? then 0 else 1)
      && (forall i :: 0 <= i < |subs| && EndpointKeyOf(subs[i]) != (userId, dto.endpoint) ==> r[i] == subs[i])
      && (exists i :: 0 <= i < |r| && EndpointKeyOf(r[i]) == (userId, dto.endpoint)
            && r[i].isActive && r[i].p256dh == dto.p256dh && r[i].auth == dto.auth
            && (dto.userAgent.Some? ==> r[i].userAgent == dto.userAgent)
            && (dto.userAgent.None? && IndexOfEndpoint(subs, userId, dto.endpoint).Some? ==>
                  r[i] == subs[IndexOfEndpoint(subs, userId, dto.endpoint).value].(p256dh := dto.p256dh, auth := dto.auth, isActive := true))
            && (IndexOfEndpoint(subs, userId, dto.endpoint).None? ==> r[i].id == newId && r[i].userAgent == dto.userAgent))
  {
    var r := Upsert(subs, userId, dto, newId);
    match IndexOfEndpoint(subs, userId, dto.endpoint)
    case Some(k) =>
      forall a, b | 0 <= a < b < |r| ensures SubIdOf(r[a]) != SubIdOf(r[b]) && EndpointKeyOf(r[a]) != EndpointKeyOf(r[b]) {
        assert SubIdOf(r[a]) == SubIdOf(subs[a]) && SubIdOf(r[b]) == SubIdOf(subs[b]);
        assert EndpointKeyOf(r[a]) == EndpointKeyOf(subs[a]) && EndpointKeyOf(r[b]) == EndpointKeyOf(subs[b]);
      }
      assert EndpointKeyOf(r[k]) == (userId, dto.endpoint);
    case None =>
      var n := |subs|;
      forall a, b | 0 <= a < b < |r| ensures SubIdOf(r[a]) != SubIdOf(r[b]) && EndpointKeyOf(r[a]) != EndpointKeyOf(r[b]) {
        if b == n {
          assert r[a] == subs[a];
          assert !(subs[a].userId == userId && subs[a].endpoint == dto.endpoint);
        }
      }
      assert EndpointKeyOf(r[n]) == (userId, dto.endpoint);
  }

  /** `unsubscribe`: the user's rows for the endpoint become inactive. */
  function DeactivateEndpoint(subs: seq<PushSubscription>, userId: string, endpoint: string): seq<PushSubscription> {
    seq(|subs|, i requires 0 <= i < |subs| =>
      if subs[i].userId == userId && subs[i].endpoint == endpoint then subs[i].(isActive := false) else subs[i])
  }

  /** Unsubscribing deletes nothing, turns off exactly the (user, endpoint)
      rows, keeps the registry invariant, and is idempotent. */
  lemma UnsubscribeCorrect(subs: seq<PushSubscription>, userId: string, endpoint: string)
    requires RegistryValid(subs)
    ensures var r := DeactivateEndpoint(subs, userId, endpoint);
      && |r| == |subs|
      && RegistryValid(r)
      && (forall i :: 0 <= i < |r| ==> r[i].(isActive := subs[i].isActive) == subs[i])
      && (forall i :: 0 <= i < |r| ==>
            r[i].isActive == (subs[i].isActive && EndpointKeyOf(subs[i]) != (userId, endpoint)))
      && DeactivateEndpoint(r, userId, endpoint) == r
  {
    var r := DeactivateEndpoint(subs, userId, endpoint);
    forall a, b | 0 <= a < b < |r| ensures SubIdOf(r[a]) != SubIdOf(r[b]) && EndpointKeyOf(r[a]) != EndpointKeyOf(r[b]) {
      assert SubIdOf(r[a]) == SubIdOf(subs[a]) && SubIdOf(r[b]) == SubIdOf(subs[b]);
      assert EndpointKeyOf(r[a]) == EndpointKeyOf(subs[a]) && EndpointKeyOf(r[b]) == EndpointKeyOf(subs[b]);
    }
  }

  /** The user's active subscriptions, in table order. */
  function ActiveOf(subs: seq<PushSubscription>, userId: string): seq<PushSubscription> {
    Filter(subs, (s: PushSubscription) => s.userId == userId && s.isActive)
  }

  /** A member of `ActiveOf` is an active row of the user. */
  lemma ActiveOfMember(subs: seq<PushSubscription>, userId: string, x: PushSubscription)
    requires x in ActiveOf(subs, userId)
    ensures x in subs && x.userId == userId && x.isActive
  {
    var a := ActiveOf(subs, userId);
    var k :| 0 <= k < |a| && a[k] == x;
  }

  // -----------------------------------------------------------------------
  // sendPushNotification

  predicate Gone(d: Delivery) {
    d.Rejected? && d.statusCode == Some(410)
  }

  /** The number of the subscriptions the push service accepted. */
  function SentCount(active: seq<PushSubscription>, p: Payload, deliver: (PushSubscription, Payload) -> Delivery): (n: nat)
    ensures n <= |active|
  {
    if active == [] then 0
    else SentCount(active[..|active| - 1], p, deliver) + (if deliver(active[|active| - 1], p).Delivered? then 1 else 0)
  }

  /** The ids of the subscriptions the push service answered 410 Gone. */
  function GoneIds(active: seq<PushSubscription>, p: Payload, deliver: (PushSubscription, Payload) -> Delivery): set<string> {
    if active == [] then {}
    else
      var last := active[|active| - 1];
      GoneIds(active[..|active| - 1], p, deliver) + (if Gone(deliver(last, p)) then {last.id} else {})
  }

  lemma {:induction false} GoneIdsIff(active: seq<PushSubscription>, p: Payload, deliver: (PushSubscription, Payload) -> Delivery, x: string)
    ensures x in GoneIds(active, p, deliver) <==>
      exists j :: 0 <= j < |active| && active[j].id == x && Gone(deliver(active[j], p))
  {
    if active != [] {
      var init := active[..|active| - 1];
      GoneIdsIff(init, p, deliver, x);
      if x in GoneIds(init, p, deliver) {
        var j :| 0 <= j < |init| && init[j].id == x && Gone(deliver(init[j], p));
        assert active[j] == init[j];
      }
      forall j | 0 <= j < |active| && active[j].id == x && Gone(deliver(active[j], p))
        ensures x in GoneIds(active, p, deliver)
      {
        if j < |init| {
          assert init[j] == active[j];
        }
      }
    }
  }

  /** The rows whose id is in `ids` become inactive; nothing else changes. */
  function DeactivateIds(subs: seq<PushSubscription>, ids: set<string>): (r: seq<PushSubscription>)
    ensures |r| == |subs|
    ensures forall i {:trigger r[i]} :: 0 <= i < |subs| ==> r[i] == if subs[i].id in ids then subs[i].(isActive := false) else subs[i]
  {
    if subs == [] then []
    else [if subs[0].id in ids then subs[0].(isActive := false) else subs[0]] + DeactivateIds(subs[1..], ids)
  }

  lemma DeactivateIdsNone(subs: seq<PushSubscription>)
    ensures DeactivateIds(subs, {}) == subs
  {
    var x := DeactivateIds(subs, {});
    assert forall i :: 0 <= i < |x| ==> x[i] == subs[i];
  }

  lemma DeactivateIdsTwice(subs: seq<PushSubscription>, a: set<string>, b: set<string>)
    ensures DeactivateIds(DeactivateIds(subs, a), b) == DeactivateIds(subs, a + b)
  {
    var x := DeactivateIds(DeactivateIds(subs, a), b);
    var y := DeactivateIds(subs, a + b);
    assert forall i :: 0 <= i < |x| ==> x[i] == y[i];
  }

  lemma DeactivateIdsKeepsValid(subs: seq<PushSubscription>, ids: set<string>)
    requires RegistryValid(subs)
    ensures RegistryValid(DeactivateIds(subs, ids))
  {
    var r := DeactivateIds(subs, ids);
    forall a, b | 0 <= a < b < |r| ensures SubIdOf(r[a]) != SubIdOf(r[b]) && EndpointKeyOf(r[a]) != EndpointKeyOf(r[b]) {
      assert SubIdOf(r[a]) == SubIdOf(subs[a]) && SubIdOf(r[b]) == SubIdOf(subs[b]);
      assert EndpointKeyOf(r[a]) == EndpointKeyOf(subs[a]) && EndpointKeyOf(r[b]) == EndpointKeyOf(subs[b]);
    }
  }

  /** The loop of `sendPushNotification`: each active subscription is sent
      the payload once; delivered ones are counted as sent, the others as
      failed, and a 410 answer retires the subscription. */
  method TryEach(subs: seq<PushSubscription>, active: seq<PushSubscription>, payload: Payload,
                 deliver: (PushSubscription, Payload) -> Delivery)
    returns (cur: seq<PushSubscription>, sent: nat, failed: nat)
    ensures cur == DeactivateIds(subs, GoneIds(active, payload, deliver))
    ensures sent == SentCount(active, payload, deliver)
    ensures sent + failed == |active|
  {
    cur := subs;
    sent := 0;
    failed := 0;
    var k := 0;
    assert active[..0] == [];
    DeactivateIdsNone(subs);
    while k < |active|
      invariant 0 <= k <= |active|
      invariant sent == SentCount(active[..k], payload, deliver)
      invariant sent + failed == k
      invariant cur == DeactivateIds(subs, GoneIds(active[..k], payload, deliver))
    {
      var outcome := deliver(active[k], payload);
      TryStep(subs, active, k, payload, deliver, cur, sent);
      if outcome.Delivered? {
        sent := sent + 1;
      } else {
        failed := failed + 1;
        if outcome.statusCode == Some(410) {
          cur := DeactivateIds(cur, {active[k].id});
        }
      }
      k := k + 1;
    }
    assert active[..k] == active;
  }

  /** One iteration of the delivery loop carries its invariant over to the
      next prefix. */
  lemma TryStep(subs: seq<PushSubscription>, active: seq<PushSubscription>, k: nat, payload: Payload,
                deliver: (PushSubscription, Payload) -> Delivery, cur: seq<PushSubscription>, sent: nat)
    requires k < |active|
    requires sent == SentCount(active[..k], payload, deliver)
    requires cur == DeactivateIds(subs, GoneIds(active[..k], payload, deliver))
    ensures var d := deliver(active[k], payload);
      && (if d.Delivered? then sent + 1 else sent) == SentCount(active[..k + 1], payload, deliver)
      && (if Gone(d) then DeactivateIds(cur, {active[k].id}) else cur)
           == DeactivateIds(subs, GoneIds(active[..k + 1], payload, deliver))
  {
    PrefixStep(active, k, payload, deliver);
    if Gone(deliver(active[k], payload)) {
      DeactivateIdsTwice(subs, GoneIds(active[..k], payload, deliver), {active[k].id});
    } else {
      assert GoneIds(active[..k + 1], payload, deliver) == GoneIds(active[..k], payload, deliver);
    }
  }

  /** `sendPushNotification`: the new registry and the counters. */
  function Send(subs: seq<PushSubscription>, userId: string, n: Notification,
                deliver: (PushSubscription, Payload) -> Delivery): (seq<PushSubscription>, SendResult)
  {
    var active := ActiveOf(subs, userId);
    if |active| == 0 then (subs, SendResult(0, 0))
    else
      var p := BuildPayload(n);
      var sent := SentCount(active, p, deliver);
      (DeactivateIds(subs, GoneIds(active, p, deliver)), SendResult(sent, |active| - sent))
  }

  lemma SendUnfold(subs: seq<PushSubscription>, userId: string, n: Notification, deliver: (PushSubscription, Payload) -> Delivery)
    requires |ActiveOf(subs, userId)| > 0
    ensures var active := ActiveOf(subs, userId);
      var p := BuildPayload(n);
      Send(subs, userId, n, deliver)
        == (DeactivateIds(subs, GoneIds(active, p, deliver)),
            SendResult(SentCount(active, p, deliver), |active| - SentCount(active, p, deliver)))
  {
  }

  /** The outcome of the delivery loop over the active subscriptions is
      the send, and the registry it leaves is valid. */
  lemma TriedIsSend(subs: seq<PushSubscription>, userId: string, n: Notification,
                    deliver: (PushSubscription, Payload) -> Delivery,
                    cur: seq<PushSubscription>, sent: nat, failed: nat)
    requires RegistryValid(subs)
    requires |ActiveOf(subs, userId)| > 0
    requires cur == DeactivateIds(subs, GoneIds(ActiveOf(subs, userId), BuildPayload(n), deliver))
    requires sent == SentCount(ActiveOf(subs, userId), BuildPayload(n), deliver)
    requires sent + failed == |ActiveOf(subs, userId)|
    ensures Send(subs, userId, n, deliver) == (cur, SendResult(sent, failed))
    ensures RegistryValid(cur)
  {
    var active := ActiveOf(subs, userId);
    var gone := GoneIds(active, BuildPayload(n), deliver);
    SendUnfold(subs, userId, n, deliver);
    assert Send(subs, userId, n, deliver).0 == cur;
    assert Send(subs, userId, n, deliver).1 == SendResult(sent, failed);
    DeactivateIdsKeepsValid(subs, gone);
  }

  /** One more subscription tried: the counters and the gone set grow by its outcome. */
  lemma PrefixStep(active: seq<PushSubscription>, k: nat, p: Payload, deliver: (PushSubscription, Payload) -> Delivery)
    requires k < |active|
    ensures SentCount(active[..k + 1], p, deliver)
      == SentCount(active[..k], p, deliver) + (if deliver(active[k], p).Delivered? then 1 else 0)
    ensures GoneIds(active[..k + 1], p, deliver)
      == GoneIds(active[..k], p, deliver) + (if Gone(deliver(active[k], p)) then {active[k].id} else {})
  {
    assert active[..k + 1][..k] == active[..k];
    assert active[..k + 1][k] == active[k];
  }

  /** Every active subscription of the user is tried once: the counters add
      up to their number, with none the result is {0, 0} and nothing
      changes, and the registry invariant holds. */
  lemma SendCounts(subs: seq<PushSubscription>, userId: string, n: Notification, deliver: (PushSubscription, Payload) -> Delivery)
    requires RegistryValid(subs)
    ensures var (r, res) := Send(subs, userId, n, deliver);
      && res.sent + res.failed == |ActiveOf(subs, userId)|
      && (|ActiveOf(subs, userId)| == 0 ==> res == SendResult(0, 0) && r == subs)
      && |r| == |subs|
      && RegistryValid(r)
  {
    var active := ActiveOf(subs, userId);
    if |active| > 0 {
      DeactivateIdsKeepsValid(subs, GoneIds(active, BuildPayload(n), deliver));
    }
  }

  /** Only a subscription of the user that answered 410 becomes inactive;
      a delivered one and one that failed otherwise stay as they were, and
      no field but `isActive` changes. */
  lemma SendDeactivatesOnlyGone(subs: seq<PushSubscription>, userId: string, n: Notification,
                                deliver: (PushSubscription, Payload) -> Delivery, i: nat)
    requires RegistryValid(subs)
    requires i < |subs|
    ensures var r := Send(subs, userId, n, deliver).0;
      && r[i].(isActive := subs[i].isActive) == subs[i]
      && (r[i].isActive <==>
            subs[i].isActive && !(subs[i].userId == userId && Gone(deliver(subs[i], BuildPayload(n)))))
  {
    var active := ActiveOf(subs, userId);
    var x := subs[i];
    if x.isActive && x.userId == userId {
      assert x in active;
    }
    if |active| > 0 {
      SendUnfold(subs, userId, n, deliver);
      GoneIdOfRow(subs, userId, BuildPayload(n), deliver, i);
    }
  }

  /** A row's id is among the gone ids exactly when it is an active row of
      the user that answered 410; ids are unique, so no other row's answer
      can name it. */
  lemma GoneIdOfRow(subs: seq<PushSubscription>, userId: string, p: Payload,
                    deliver: (PushSubscription, Payload) -> Delivery, i: nat)
    requires RegistryValid(subs)
    requires i < |subs|
    ensures subs[i].id in GoneIds(ActiveOf(subs, userId), p, deliver) <==>
      subs[i].isActive && subs[i].userId == userId && Gone(deliver(subs[i], p))
  {
    var active := ActiveOf(subs, userId);
    var x := subs[i];
    if x.id in GoneIds(active, p, deliver) {
      GoneIdIsRow(subs, userId, p, deliver, i);
    } else if x.isActive && x.userId == userId {
      GoneIdsIff(active, p, deliver, x.id);
      assert x in active;
      var j :| 0 <= j < |active| && active[j] == x;
      assert active[j].id == x.id;
    }
  }

  lemma GoneIdIsRow(subs: seq<PushSubscription>, userId: string, p: Payload,
                    deliver: (PushSubscription, Payload) -> Delivery, i: nat)
    requires RegistryValid(subs)
    requires i < |subs|
    requires subs[i].id in GoneIds(ActiveOf(subs, userId), p, deliver)
    ensures subs[i].isActive && subs[i].userId == userId && Gone(deliver(subs[i], p))
  {
    var active := ActiveOf(subs, userId);
    GoneIdsIff(active, p, deliver, subs[i].id);
    var j :| 0 <= j < |active| && active[j].id == subs[i].id && Gone(deliver(active[j], p));
    ActiveOfMember(subs, userId, active[j]);
    var k :| 0 <= k < |subs| && subs[k] == active[j];
    assert SubIdOf(subs[k]) == SubIdOf(subs[i]);
    assert k == i;
  }

  // -----------------------------------------------------------------------
  // The "starting soon" sweep

  const OneHourMs: int := 60 * 60 * 1000
  const SeventyMinutesMs: int := 70 * 60 * 1000

  /** The matches the sweep selects. The code combines its two bounds with
      `&&`, which yields the second operand, so only the upper bound applies:
      every PENDING match starting before `now` + 70 minutes. */
  function SweepTargets(matches: seq<Match>, now: int): seq<Match> {
    Filter(matches, (m: Match) => m.status == Pending && m.startDate < now + SeventyMinutesMs)
  }

  /** A match is swept exactly when it is PENDING and starts before the upper
      bound. */
  lemma SweepTargetsIff(matches: seq<Match>, now: int, m: Match)
    ensures m in SweepTargets(matches, now) <==> (m in matches && m.status == Pending && m.startDate < now + SeventyMinutesMs)
  {
    var t := SweepTargets(matches, now);
    if m in t {
      var k :| 0 <= k < |t| && t[k] == m;
    }
    if m in matches && m.status == Pending && m.startDate < now + SeventyMinutesMs {
      var k :| 0 <= k < |matches| && matches[k] == m;
    }
  }

  /** The missing lower bound: a PENDING match that started a day ago is
      still selected, although it is not within an hour of starting. */
  lemma SweepSelectsStartedMatch(now: int)
    ensures var m := Match("m", "c", None, now - 24 * OneHourMs, now, 4, Pending, None, false);
      m in SweepTargets([m], now) && !(now + OneHourMs < m.startDate)
  {
    var m := Match("m", "c", None, now - 24 * OneHourMs, now, 4, Pending, None, false);
    SweepTargetsIff([m], now, m);
  }

  predicate IsSentFor(l: NotificationLog, userId: string, matchId: string) {
    l.userId == userId && l.matchId == matchId && l.kind == MatchStartingSoon && l.status == Sent
  }

  /** The idempotency lookup: is there a SENT "starting soon" row for the pair? */
  function SentLogIndex(logs: seq<NotificationLog>, userId: string, matchId: string): Option<nat> {
    FindFirst(logs, (l: NotificationLog) => IsSentFor(l, userId, matchId))
  }

  predicate HasSentLog(logs: seq<NotificationLog>, userId: string, matchId: string) {
    exists i :: 0 <= i < |logs| && IsSentFor(logs[i], userId, matchId)
  }

  lemma SentLogIndexIff(logs: seq<NotificationLog>, userId: string, matchId: string)
    ensures SentLogIndex(logs, userId, matchId).Some? <==> HasSentLog(logs, userId, matchId)
  {
  }

  /** The notification of a match: the title, the start time and club name
      in the body, and a tag per match. */
  function StartingSoon(m: Match, clubName: Option<string>, startTime: string): Notification {
    Notification("Match Starting Soon!",
                 "Your match starts at " + startTime + " at " + OrElse(clubName, "your club"),
                 None, None, Some("match-" + m.matchId))
  }

  /** The log row of one attempt: SENT with its time when at least one
      subscription accepted, FAILED otherwise. */
  function AttemptLog(userId: string, m: Match, n: Notification, res: SendResult, now: int): NotificationLog {
    if res.sent > 0 then
      NotificationLog(userId, m.matchId, MatchStartingSoon, Sent, n.title, n.body, None, now, Some(now))
    else
      NotificationLog(userId, m.matchId, MatchStartingSoon, Failed, n.title, n.body, Some("No active subscriptions"), now, None)
  }

  datatype State = State(subs: seq<PushSubscription>, logs: seq<NotificationLog>)

  /** One iteration of `notifyMatchPlayers`: skip a player already notified,
      otherwise send and log the attempt. */
  function NotifyStep(st: State, p: MatchPlayer, m: Match, n: Notification, now: int,
                      deliver: (PushSubscription, Payload) -> Delivery): State {
    if HasSentLog(st.logs, p.userId, m.matchId) then st
    else
      var (subs', res) := Send(st.subs, p.userId, n, deliver);
      State(subs', st.logs + [AttemptLog(p.userId, m, n, res, now)])
  }

  /** `notifyMatchPlayers` over the players in order. */
  function NotifyAll(st: State, ps: seq<MatchPlayer>, m: Match, n: Notification, now: int,
                     deliver: (PushSubscription, Payload) -> Delivery): State
    decreases |ps|
  {
    if ps == [] then st
    else NotifyStep(NotifyAll(st, ps[..|ps| - 1], m, n, now, deliver), ps[|ps| - 1], m, n, now, deliver)
  }

  /** A step leaves the log alone or appends the attempt's row. */
  lemma NotifyStepLogs(st: State, p: MatchPlayer, m: Match, n: Notification, now: int,
                       deliver: (PushSubscription, Payload) -> Delivery)
    ensures var r := NotifyStep(st, p, m, n, now, deliver);
      && (HasSentLog(st.logs, p.userId, m.matchId) ==> r.logs == st.logs)
      && (!HasSentLog(st.logs, p.userId, m.matchId) ==>
            r.logs == st.logs + [AttemptLog(p.userId, m, n, Send(st.subs, p.userId, n, deliver).1, now)])
  {
  }

  lemma NotifyAllStep(st: State, ps: seq<MatchPlayer>, k: nat, m: Match, n: Notification, now: int,
                      deliver: (PushSubscription, Payload) -> Delivery)
    requires k < |ps|
    ensures NotifyAll(st, ps[..k + 1], m, n, now, deliver)
      == NotifyStep(NotifyAll(st, ps[..k], m, n, now, deliver), ps[k], m, n, now, deliver)
  {
    assert ps[..k + 1][..k] == ps[..k];
  }

  /** The notification the sweep sends for a match. */
  function SweepNotification(m: Match, clubNameOf: string -> Option<string>, timeText: int -> string): Notification {
    StartingSoon(m, clubNameOf(m.clubId), timeText(m.startDate))
  }

  /** `checkUpcomingMatches` over the selected matches in order. */
  function SweepAll(st: State, targets: seq<Match>, roster: seq<MatchPlayer>,
                    clubNameOf: string -> Option<string>, timeText: int -> string, now: int,
                    deliver: (PushSubscription, Payload) -> Delivery): State
    decreases |targets|
  {
    if targets == [] then st
    else
      var m := targets[|targets| - 1];
      NotifyAll(SweepAll(st, targets[..|targets| - 1], roster, clubNameOf, timeText, now, deliver),
                RosterOf(roster, m.matchId), m, SweepNotification(m, clubNameOf, timeText), now, deliver)
  }

  lemma SweepAllStep(st: State, targets: seq<Match>, k: nat, roster: seq<MatchPlayer>,
                     clubNameOf: string -> Option<string>, timeText: int -> string, now: int,
                     deliver: (PushSubscription, Payload) -> Delivery)
    requires k < |targets|
    ensures SweepAll(st, targets[..k + 1], roster, clubNameOf, timeText, now, deliver)
      == NotifyAll(SweepAll(st, targets[..k], roster, clubNameOf, timeText, now, deliver),
                   RosterOf(roster, targets[k].matchId), targets[k],
                   SweepNotification(targets[k], clubNameOf, timeText), now, deliver)
  {
    assert targets[..k + 1][..k] == targets[..k];
  }

  /** At most one SENT "starting soon" row per (user, match). */
  predicate AtMostOneSent(logs: seq<NotificationLog>) {
    forall i, j :: 0 <= i < j < |logs| && IsSentFor(logs[i], logs[i].userId, logs[i].matchId) ==>
      !IsSentFor(logs[j], logs[i].userId, logs[i].matchId)
  }

  /** What every row the sweep writes looks like: a "starting soon" row of
      the match for one of its players, never PENDING, SENT with a time or
      FAILED with the reason. */
  predicate NewLogOk(l: NotificationLog, m: Match, ps: seq<MatchPlayer>, now: int) {
    && l.matchId == m.matchId
    && l.kind == MatchStartingSoon
    && l.status != StatusPending
    && l.createdAt == now
    && (l.status == Sent ==> l.sentAt == Some(now) && l.errorMessage.None?)
    && (l.status == Failed ==> l.errorMessage == Some("No active subscriptions") && l.sentAt.None?)
    && exists j :: 0 <= j < |ps| && ps[j].userId == l.userId
  }

  /** A step appends at most one row, as described, and keeps the registry
      invariant and the at-most-one-SENT invariant. */
  lemma NotifyStepCorrect(st: State, p: MatchPlayer, m: Match, n: Notification, now: int,
                          deliver: (PushSubscription, Payload) -> Delivery)
    requires RegistryValid(st.subs) && AtMostOneSent(st.logs)
    ensures var r := NotifyStep(st, p, m, n, now, deliver);
      && RegistryValid(r.subs) && AtMostOneSent(r.logs)
      && (HasSentLog(st.logs, p.userId, m.matchId) ==> r == st)
      && (!HasSentLog(st.logs, p.userId, m.matchId) ==>
            |r.logs| == |st.logs| + 1 && r.logs[..|st.logs|] == st.logs
            && r.logs[|st.logs|].userId == p.userId && NewLogOk(r.logs[|st.logs|], m, [p], now))
  {
    NotifyStepKeepsValid(st, p, m, n, now, deliver);
    NotifyStepRow(st, p, m, n, now, deliver);
  }

  /** The row a step appends. */
  lemma NotifyStepRow(st: State, p: MatchPlayer, m: Match, n: Notification, now: int,
                      deliver: (PushSubscription, Payload) -> Delivery)
    ensures var r := NotifyStep(st, p, m, n, now, deliver);
      && (HasSentLog(st.logs, p.userId, m.matchId) ==> r == st)
      && (!HasSentLog(st.logs, p.userId, m.matchId) ==>
            |r.logs| == |st.logs| + 1 && r.logs[..|st.logs|] == st.logs
            && r.logs[|st.logs|].userId == p.userId && NewLogOk(r.logs[|st.logs|], m, [p], now))
  {
    if !HasSentLog(st.logs, p.userId, m.matchId) {
      var r := NotifyStep(st, p, m, n, now, deliver);
      var l := r.logs[|st.logs|];
      assert NewLogOk(l, m, [p], now) by {
        assert [p][0].userId == l.userId;
      }
    }
  }

  /** The invariants alone, as the service's loop needs them. */
  lemma NotifyStepKeepsValid(st: State, p: MatchPlayer, m: Match, n: Notification, now: int,
                             deliver: (PushSubscription, Payload) -> Delivery)
    requires RegistryValid(st.subs) && AtMostOneSent(st.logs)
    ensures HasSentLog(st.logs, p.userId, m.matchId) ==> NotifyStep(st, p, m, n, now, deliver) == st
    ensures RegistryValid(NotifyStep(st, p, m, n, now, deliver).subs)
    ensures AtMostOneSent(NotifyStep(st, p, m, n, now, deliver).logs)
  {
    if !HasSentLog(st.logs, p.userId, m.matchId) {
      SendCounts(st.subs, p.userId, n, deliver);
      var r := NotifyStep(st, p, m, n, now, deliver);
      forall i, j | 0 <= i < j < |r.logs| && IsSentFor(r.logs[i], r.logs[i].userId, r.logs[i].matchId)
        ensures !IsSentFor(r.logs[j], r.logs[i].userId, r.logs[i].matchId)
      {
        if j == |st.logs| {
          assert r.logs[i] == st.logs[i];
        }
      }
    }
  }

  /** A step that sends: the registry and counters of the send, and its row. */
  lemma NotifyStepSends(st: State, p: MatchPlayer, m: Match, n: Notification, now: int,
                        deliver: (PushSubscription, Payload) -> Delivery,
                        subs: seq<PushSubscription>, res: SendResult)
    requires !HasSentLog(st.logs, p.userId, m.matchId)
    requires (subs, res) == Send(st.subs, p.userId, n, deliver)
    ensures NotifyStep(st, p, m, n, now, deliver) == State(subs, st.logs + [AttemptLog(p.userId, m, n, res, now)])
  {
  }

  /** A row for one of some players is a row for any list holding them. */
  lemma NewLogOkWider(l: NotificationLog, m: Match, a: seq<MatchPlayer>, b: seq<MatchPlayer>, now: int)
    requires NewLogOk(l, m, a, now)
    requires forall j :: 0 <= j < |a| ==> a[j] in b
    ensures NewLogOk(l, m, b, now)
  {
    var j :| 0 <= j < |a| && a[j].userId == l.userId;
    var k :| 0 <= k < |b| && b[k] == a[j];
  }

  /** Logs written by a sequence of steps: appended only, each as described. */
  lemma NotifyAllCorrect(st: State, ps: seq<MatchPlayer>, m: Match, n: Notification, now: int,
                         deliver: (PushSubscription, Payload) -> Delivery)
    requires RegistryValid(st.subs) && AtMostOneSent(st.logs)
    ensures var r := NotifyAll(st, ps, m, n, now, deliver);
      && RegistryValid(r.subs) && AtMostOneSent(r.logs)
      && |st.logs| <= |r.logs| && r.logs[..|st.logs|] == st.logs
      && (forall i :: |st.logs| <= i < |r.logs| ==> NewLogOk(r.logs[i], m, ps, now))
  {
    NotifyAllKeepsValid(st, ps, m, n, now, deliver);
    NotifyAllRows(st, ps, m, n, now, deliver);
  }

  lemma {:induction false} NotifyAllKeepsValid(st: State, ps: seq<MatchPlayer>, m: Match, n: Notification, now: int,
                                               deliver: (PushSubscription, Payload) -> Delivery)
    requires RegistryValid(st.subs) && AtMostOneSent(st.logs)
    ensures var r := NotifyAll(st, ps, m, n, now, deliver);
      RegistryValid(r.subs) && AtMostOneSent(r.logs)
    decreases |ps|
  {
    if ps != [] {
      NotifyAllKeepsValid(st, ps[..|ps| - 1], m, n, now, deliver);
      NotifyStepKeepsValid(NotifyAll(st, ps[..|ps| - 1], m, n, now, deliver), ps[|ps| - 1], m, n, now, deliver);
    }
  }

  lemma {:induction false} NotifyAllRows(st: State, ps: seq<MatchPlayer>, m: Match, n: Notification, now: int,
                                         deliver: (PushSubscription, Payload) -> Delivery)
    ensures var r := NotifyAll(st, ps, m, n, now, deliver);
      && |st.logs| <= |r.logs| && r.logs[..|st.logs|] == st.logs
      && (forall i :: |st.logs| <= i < |r.logs| ==> NewLogOk(r.logs[i], m, ps, now))
    decreases |ps|
  {
    if ps != [] {
      var init := ps[..|ps| - 1];
      var p := ps[|ps| - 1];
      var mid := NotifyAll(st, init, m, n, now, deliver);
      NotifyAllRows(st, init, m, n, now, deliver);
      NotifyStepRow(mid, p, m, n, now, deliver);
      var r := NotifyStep(mid, p, m, n, now, deliver);
      assert r.logs[..|mid.logs|] == mid.logs;
      assert forall j :: 0 <= j < |init| ==> init[j] == ps[j];
      assert [p][0] == ps[|ps| - 1];
      forall i | |st.logs| <= i < |r.logs| ensures NewLogOk(r.logs[i], m, ps, now) {
        if i < |mid.logs| {
          assert r.logs[i] == mid.logs[i];
          NewLogOkWider(r.logs[i], m, init, ps, now);
        } else {
          NewLogOkWider(r.logs[i], m, [p], ps, now);
        }
      }
    }
  }

  /** A user who already has a SENT row for the match gets no row at all,
      however many roster rows name them. */
  lemma {:induction false} NotifiedUserSkipped(st: State, ps: seq<MatchPlayer>, m: Match, n: Notification, now: int,
                                               deliver: (PushSubscription, Payload) -> Delivery, userId: string)
    requires HasSentLog(st.logs, userId, m.matchId)
    ensures var r := NotifyAll(st, ps, m, n, now, deliver);
      && |st.logs| <= |r.logs| && r.logs[..|st.logs|] == st.logs
      && HasSentLog(r.logs, userId, m.matchId)
      && forall i :: |st.logs| <= i < |r.logs| ==> r.logs[i].userId != userId
    decreases |ps|
  {
    if ps != [] {
      var init := ps[..|ps| - 1];
      var u := ps[|ps| - 1].userId;
      var mid := NotifyAll(st, init, m, n, now, deliver);
      NotifiedUserSkipped(st, init, m, n, now, deliver, userId);
      NotifyAllLast(st, ps, m, n, now, deliver);
      if !HasSentLog(mid.logs, u, m.matchId) {
        OtherRowAppended(st.logs, mid.logs, AttemptLog(u, m, n, Send(mid.subs, u, n, deliver).1, now), userId, m.matchId);
      }
    }
  }

  /** Appending a row of another user keeps the user's SENT row and adds
      no row of theirs. */
  lemma OtherRowAppended(a: seq<NotificationLog>, b: seq<NotificationLog>, row: NotificationLog, userId: string, matchId: string)
    requires |a| <= |b| && b[..|a|] == a
    requires HasSentLog(b, userId, matchId)
    requires forall i :: |a| <= i < |b| ==> b[i].userId != userId
    requires row.userId != userId
    ensures var c := b + [row];
      && |a| <= |c| && c[..|a|] == a
      && HasSentLog(c, userId, matchId)
      && forall i :: |a| <= i < |c| ==> c[i].userId != userId
  {
    var c := b + [row];
    var k :| 0 <= k < |b| && IsSentFor(b[k], userId, matchId);
    assert c[k] == b[k];
    assert c[..|a|] == b[..|a|];
    forall i | |a| <= i < |c| ensures c[i].userId != userId {
      if i < |b| {
        assert c[i] == b[i];
      }
    }
  }

  /** Some row from index `from` on is about the pair. */
  predicate LoggedFrom(logs: seq<NotificationLog>, from: nat, userId: string, matchId: string) {
    exists i :: from <= i < |logs| && logs[i].userId == userId && logs[i].matchId == matchId
  }

  /** A FAILED row does not block a retry: a rostered user without a SENT
      row for the match gets a new row for it. */
  lemma {:induction false} UnnotifiedUserLogged(st: State, ps: seq<MatchPlayer>, m: Match, n: Notification, now: int,
                                                deliver: (PushSubscription, Payload) -> Delivery, k: nat)
    requires k < |ps|
    requires !HasSentLog(st.logs, ps[k].userId, m.matchId)
    ensures LoggedFrom(NotifyAll(st, ps, m, n, now, deliver).logs, |st.logs|, ps[k].userId, m.matchId)
    decreases |ps|
  {
    var u := ps[k].userId;
    var init := ps[..|ps| - 1];
    var mid := NotifyAll(st, init, m, n, now, deliver);
    var r := NotifyAll(st, ps, m, n, now, deliver);
    LogsOnlyGrow(st, init, m, n, now, deliver);
    if k < |init| {
      assert init[k] == ps[k];
      UnnotifiedUserLogged(st, init, m, n, now, deliver, k);
      LastStepExtends(st, ps, m, n, now, deliver);
      LoggedFromPrefix(mid.logs, r.logs, |st.logs|, u, m.matchId);
    } else if HasSentLog(mid.logs, u, m.matchId) {
      SentLaterLogged(st.logs, mid.logs, u, m.matchId);
      LastStepExtends(st, ps, m, n, now, deliver);
      LoggedFromPrefix(mid.logs, r.logs, |st.logs|, u, m.matchId);
    } else {
      assert k == |ps| - 1;
      NotifyAllLast(st, ps, m, n, now, deliver);
      AppendedRowLogged(mid.logs, AttemptLog(u, m, n, Send(mid.subs, u, n, deliver).1, now), |st.logs|);
    }
  }

  /** The last step of a sequence of steps only appends to the log. */
  lemma LastStepExtends(st: State, ps: seq<MatchPlayer>, m: Match, n: Notification, now: int,
                        deliver: (PushSubscription, Payload) -> Delivery)
    requires ps != []
    ensures var mid := NotifyAll(st, ps[..|ps| - 1], m, n, now, deliver);
      var r := NotifyAll(st, ps, m, n, now, deliver);
      |mid.logs| <= |r.logs| && r.logs[..|mid.logs|] == mid.logs
  {
    NotifyAllLast(st, ps, m, n, now, deliver);
  }

  /** An appended row is logged from any index up to the old length. */
  lemma AppendedRowLogged(logs: seq<NotificationLog>, row: NotificationLog, from: nat)
    requires from <= |logs|
    ensures LoggedFrom(logs + [row], from, row.userId, row.matchId)
  {
    assert (logs + [row])[|logs|] == row;
  }

  /** The last step of a sequence of steps, on the log. */
  lemma NotifyAllLast(st: State, ps: seq<MatchPlayer>, m: Match, n: Notification, now: int,
                      deliver: (PushSubscription, Payload) -> Delivery)
    requires ps != []
    ensures var mid := NotifyAll(st, ps[..|ps| - 1], m, n, now, deliver);
      var u := ps[|ps| - 1].userId;
      var r := NotifyAll(st, ps, m, n, now, deliver);
      && (HasSentLog(mid.logs, u, m.matchId) ==> r.logs == mid.logs)
      && (!HasSentLog(mid.logs, u, m.matchId) ==>
            r.logs == mid.logs + [AttemptLog(u, m, n, Send(mid.subs, u, n, deliver).1, now)])
  {
    NotifyStepLogs(NotifyAll(st, ps[..|ps| - 1], m, n, now, deliver), ps[|ps| - 1], m, n, now, deliver);
  }

  lemma LoggedFromPrefix(a: seq<NotificationLog>, b: seq<NotificationLog>, from: nat, userId: string, matchId: string)
    requires |a| <= |b| && b[..|a|] == a
    requires LoggedFrom(a, from, userId, matchId)
    ensures LoggedFrom(b, from, userId, matchId)
  {
    var i :| from <= i < |a| && a[i].userId == userId && a[i].matchId == matchId;
    assert b[i] == a[i];
  }

  /** A SENT row that the older log lacks was appended after it. */
  lemma SentLaterLogged(old_: seq<NotificationLog>, logs: seq<NotificationLog>, userId: string, matchId: string)
    requires |old_| <= |logs| && logs[..|old_|] == old_
    requires HasSentLog(logs, userId, matchId) && !HasSentLog(old_, userId, matchId)
    ensures LoggedFrom(logs, |old_|, userId, matchId)
  {
    var i :| 0 <= i < |logs| && IsSentFor(logs[i], userId, matchId);
    assert i >= |old_|;
  }

  lemma {:induction false} LogsOnlyGrow(st: State, ps: seq<MatchPlayer>, m: Match, n: Notification, now: int,
                                        deliver: (PushSubscription, Payload) -> Delivery)
    ensures var r := NotifyAll(st, ps, m, n, now, deliver);
      |st.logs| <= |r.logs| && r.logs[..|st.logs|] == st.logs
    decreases |ps|
  {
    if ps != [] {
      LogsOnlyGrow(st, ps[..|ps| - 1], m, n, now, deliver);
      var mid := NotifyAll(st, ps[..|ps| - 1], m, n, now, deliver);
      var r := NotifyAll(st, ps, m, n, now, deliver);
      assert r.logs[..|st.logs|] == mid.logs[..|st.logs|];
    }
  }

  /** Repeated sweeps never produce a second SENT row for a (user, match). */
  lemma {:induction false} SweepKeepsAtMostOneSent(st: State, targets: seq<Match>, roster: seq<MatchPlayer>,
                                                   clubNameOf: string -> Option<string>, timeText: int -> string, now: int,
                                                   deliver: (PushSubscription, Payload) -> Delivery)
    requires RegistryValid(st.subs) && AtMostOneSent(st.logs)
    ensures var r := SweepAll(st, targets, roster, clubNameOf, timeText, now, deliver);
      RegistryValid(r.subs) && AtMostOneSent(r.logs)
    decreases |targets|
  {
    if targets != [] {
      var m := targets[|targets| - 1];
      SweepKeepsAtMostOneSent(st, targets[..|targets| - 1], roster, clubNameOf, timeText, now, deliver);
      var mid := SweepAll(st, targets[..|targets| - 1], roster, clubNameOf, timeText, now, deliver);
      NotifyAllKeepsValid(mid, RosterOf(roster, m.matchId), m, SweepNotification(m, clubNameOf, timeText), now, deliver);
    }
  }

  // -----------------------------------------------------------------------
  // getUserNotificationHistory

  /** The user's rows, in table order. */
  function RowsOf(logs: seq<NotificationLog>, userId: string): (r: seq<NotificationLog>)
    ensures forall x :: x in r <==> x in logs && x.userId == userId
  {
    Filter(logs, (l: NotificationLog) => l.userId == userId)
  }

  /** The user's rows, newest first, at most `limit` (0: no limit). */
  function History(logs: seq<NotificationLog>, userId: string, limit: nat): seq<NotificationLog> {
    Take(Sort(RowsOf(logs, userId), Descending(LogCreatedAt)), limit)
  }

  /** The history holds only the user's rows, newest first; it holds as many
      of them as `limit` allows (all of them when there is no limit), and no
      row of the user left out is newer than a row kept. */
  lemma HistoryCorrect(logs: seq<NotificationLog>, userId: string, limit: nat)
    ensures var r := History(logs, userId, limit);
      var mine := RowsOf(logs, userId);
      && (limit > 0 ==> |r| == if |mine| < limit then |mine| else limit)
      && (limit == 0 ==> multiset(r) == multiset(mine))
      && (forall i :: 0 <= i < |r| ==> r[i] in logs && r[i].userId == userId)
      && Sorted(r, Descending(LogCreatedAt))
      && (forall i, x :: 0 <= i < |r| && x in mine && x !in r ==> x.createdAt <= r[i].createdAt)
  {
    var mine := RowsOf(logs, userId);
    var s := Sort(mine, Descending(LogCreatedAt));
    var r := Take(s, limit);
    assert r == History(logs, userId, limit);
    DescendingIsTotalPreorder(LogCreatedAt);
    SortSorted(mine, Descending(LogCreatedAt));
    HistoryFromMine(logs, userId, s, r);
    HistoryNewest(mine, s, r);
  }

  lemma HistoryFromMine(logs: seq<NotificationLog>, userId: string, s: seq<NotificationLog>, r: seq<NotificationLog>)
    requires multiset(s) == multiset(RowsOf(logs, userId))
    requires |r| <= |s| && r == s[..|r|]
    ensures forall i :: 0 <= i < |r| ==> r[i] in logs && r[i].userId == userId
  {
    var mine := RowsOf(logs, userId);
    forall i | 0 <= i < |r| ensures r[i] in logs && r[i].userId == userId {
      assert r[i] == s[i];
      assert r[i] in multiset(mine);
    }
  }

  lemma HistoryNewest(mine: seq<NotificationLog>, s: seq<NotificationLog>, r: seq<NotificationLog>)
    requires multiset(s) == multiset(mine)
    requires Sorted(s, Descending(LogCreatedAt))
    requires |r| <= |s| && r == s[..|r|]
    ensures Sorted(r, Descending(LogCreatedAt))
    ensures forall i, x :: 0 <= i < |r| && x in mine && x !in r ==> x.createdAt <= r[i].createdAt
  {
    forall i, j | 0 <= i < j < |r| ensures Descending(LogCreatedAt)(r[i], r[j]) {
      assert r[i] == s[i] && r[j] == s[j];
    }
    forall i, x | 0 <= i < |r| && x in mine && x !in r ensures x.createdAt <= r[i].createdAt {
      assert x in multiset(s);
      var k :| 0 <= k < |s| && s[k] == x;
      assert r[i] == s[i];
      assert k >= |r|;
      assert Descending(LogCreatedAt)(s[i], s[k]);
      assert LogCreatedAt(s[k]) <= LogCreatedAt(s[i]);
    }
  }

  // -----------------------------------------------------------------------
  // The service

  class NotificationsService {
    var subscriptions: seq<PushSubscription>
    var logs: seq<NotificationLog>

    ghost predicate Valid()
      reads this
    {
      RegistryValid(subscriptions) && AtMostOneSent(logs)
    }

    constructor ()
      ensures Valid() && subscriptions == [] && logs == []
    {
      subscriptions := [];
      logs := [];
    }

    /** `subscribe`: returns the saved entity, whose agent is the request's;
        the stored row differs from it at most in the agent it kept. */
    method Subscribe(userId: string, dto: SubscribeDto, newId: string) returns (s: PushSubscription)
      requires Valid() && ValidSubscribeDto(dto)
      requires !HasKey(subscriptions, SubIdOf, newId)
      modifies this
      ensures Valid() && logs == old(logs)
      ensures subscriptions == Upsert(old(subscriptions), userId, dto, newId)
      ensures s == Subscribed(old(subscriptions), userId, dto, newId)
      ensures s.userId == userId && s.endpoint == dto.endpoint && s.isActive
      ensures s.p256dh == dto.p256dh && s.auth == dto.auth && s.userAgent == dto.userAgent
      ensures exists i :: 0 <= i < |subscriptions| && subscriptions[i] == s.(userAgent := subscriptions[i].userAgent)
      ensures dto.userAgent.Some? ==> s in subscriptions
    {
      UpsertCorrect(subscriptions, userId, dto, newId);
      var found := IndexOfEndpoint(subscriptions, userId, dto.endpoint);
      if found.Some? {
        var i := found.value;
        s := subscriptions[i].(p256dh := dto.p256dh, auth := dto.auth, userAgent := dto.userAgent, isActive := true);
        var stored := if dto.userAgent.None? then s.(userAgent := subscriptions[i].userAgent) else s;
        subscriptions := subscriptions[i := stored];
        assert subscriptions[i] == s.(userAgent := subscriptions[i].userAgent);
      } else {
        s := PushSubscription(newId, userId, dto.endpoint, dto.p256dh, dto.auth, true, dto.userAgent);
        subscriptions := subscriptions + [s];
        assert subscriptions[|subscriptions| - 1] == s;
      }
    }

    method Unsubscribe(userId: string, endpoint: string)
      requires Valid()
      modifies this
      ensures Valid() && logs == old(logs)
      ensures subscriptions == DeactivateEndpoint(old(subscriptions), userId, endpoint)
    {
      UnsubscribeCorrect(subscriptions, userId, endpoint);
      subscriptions := DeactivateEndpoint(subscriptions, userId, endpoint);
    }

    /** `getUserSubscriptions`: exactly the user's active rows. */
    method GetUserSubscriptions(userId: string) returns (r: seq<PushSubscription>)
      ensures forall i :: 0 <= i < |r| ==> r[i] in subscriptions && r[i].userId == userId && r[i].isActive
      ensures forall i :: 0 <= i < |subscriptions| && subscriptions[i].userId == userId && subscriptions[i].isActive
                ==> subscriptions[i] in r
    {
      r := ActiveOf(subscriptions, userId);
    }

    /** `sendPushNotification`: tries each active subscription of the user
        once, counting the outcomes and retiring the ones reported gone. */
    method SendPushNotification(userId: string, n: Notification, deliver: (PushSubscription, Payload) -> Delivery)
      returns (res: SendResult)
      requires Valid()
      modifies this
      ensures Valid() && logs == old(logs)
      ensures (subscriptions, res) == Send(old(subscriptions), userId, n, deliver)
    {
      var active := ActiveOf(subscriptions, userId);
      if |active| == 0 {
        assert Send(subscriptions, userId, n, deliver) == (subscriptions, SendResult(0, 0));
        return SendResult(0, 0);
      }
      var cur, sent, failed := TryEach(subscriptions, active, BuildPayload(n), deliver);
      TriedIsSend(subscriptions, userId, n, deliver, cur, sent, failed);
      subscriptions := cur;
      res := SendResult(sent, failed);
    }

    /** `notifyMatchPlayers`: each rostered player without a SENT row for the
        match is sent the notification, and the attempt is logged. */
    method NotifyMatchPlayers(m: Match, roster: seq<MatchPlayer>, n: Notification, now: int,
                              deliver: (PushSubscription, Payload) -> Delivery)
      requires Valid()
      modifies this
      ensures Valid()
      ensures State(subscriptions, logs) == NotifyAll(State(old(subscriptions), old(logs)), RosterOf(roster, m.matchId), m, n, now, deliver)
    {
      var players := RosterOf(roster, m.matchId);
      ghost var st0 := State(subscriptions, logs);
      var k := 0;
      while k < |players|
        invariant 0 <= k <= |players|
        invariant Valid()
        invariant State(subscriptions, logs) == NotifyAll(st0, players[..k], m, n, now, deliver)
      {
        var p := players[k];
        NotifyAllStep(st0, players, k, m, n, now, deliver);
        ghost var before := State(subscriptions, logs);
        NotifyStepKeepsValid(before, p, m, n, now, deliver);
        SentLogIndexIff(logs, p.userId, m.matchId);
        if SentLogIndex(logs, p.userId, m.matchId).None? {
          var res := SendPushNotification(p.userId, n, deliver);
          NotifyStepSends(before, p, m, n, now, deliver, subscriptions, res);
          logs := logs + [AttemptLog(p.userId, m, n, res, now)];
        }
        k := k + 1;
      }
      assert players[..k] == players;
    }

    /** `checkUpcomingMatches`: notifies the players of every selected match. */
    method CheckUpcomingMatches(now: int, matches: seq<Match>, roster: seq<MatchPlayer>,
                                clubNameOf: string -> Option<string>, timeText: int -> string,
                                deliver: (PushSubscription, Payload) -> Delivery)
      requires Valid()
      modifies this
      ensures Valid()
      ensures State(subscriptions, logs)
        == SweepAll(State(old(subscriptions), old(logs)), SweepTargets(matches, now), roster, clubNameOf, timeText, now, deliver)
    {
      var targets := SweepTargets(matches, now);
      ghost var st0 := State(subscriptions, logs);
      var k := 0;
      while k < |targets|
        invariant 0 <= k <= |targets|
        invariant Valid()
        invariant State(subscriptions, logs) == SweepAll(st0, targets[..k], roster, clubNameOf, timeText, now, deliver)
      {
        var m := targets[k];
        SweepAllStep(st0, targets, k, roster, clubNameOf, timeText, now, deliver);
        NotifyMatchPlayers(m, roster, SweepNotification(m, clubNameOf, timeText), now, deliver);
        k := k + 1;
      }
      assert targets[..k] == targets;
    }

    /** `getUserNotificationHistory`: the user's rows, newest first. */
    method GetUserNotificationHistory(userId: string, limit: nat) returns (r: seq<NotificationLog>)
      ensures r == History(logs, userId, limit)
      ensures limit > 0 ==> |r| <= limit
      ensures forall i :: 0 <= i < |r| ==> r[i] in logs && r[i].userId == userId
      ensures Sorted(r, Descending(LogCreatedAt))
    {
      HistoryCorrect(logs, userId, limit);
      r := History(logs, userId, limit);
    }
  }
}
