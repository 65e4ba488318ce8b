/** Alert derivation from the AI stream
    (src/features/monitoring/hooks/use-ai-alerts.ts).

    Connection-status changes and new AI messages are turned into alerts;
    alerts are merged into a list keyed by id (an alert replaces the stored
    one only when its timestamp differs), sorted newest first and cut to
    MAX_ALERTS. Two guards keep unchanged input from being derived again:
    the last status seen and the signature of the last message seen.

    Alert ids are template strings in the source (`event-high-<time>-<i>`,
    `connection-<status>-<ms>`, ...); here they are the datatype `AlertId`,
    one constructor per template, so equal ids are equal strings and back.
    Timestamps are whole milliseconds. Alert titles are fixed per kind of
    id, and the message text is kept as the values it shows (`AlertText`). */
module AIAlerts {
  import opened Common
  import opened Types

  const MAX_ALERTS: nat := 100

  datatype AlertType = Warning | Error | Info | Success

  datatype AlertId =
    | ConnectionId(status: SocketStatus, at: int)
    | StatusAlertId(time: int)
    | StatusWarningId(time: int)
    | EventHighId(time: int, index: nat)
    | EventMediumId(time: int, index: nat)
    | HypoxiaHighId(time: int)
    | HypoxiaMediumId(time: int)
    | EmergencyHighId(time: int)
    | EmergencyMediumId(time: int)

  /** The values an alert's message shows. */
  datatype AlertText =
    | ConnectionText(connection: SocketStatus)
    | CriticalStatusText
    | SuspicionText(status: AIStatus)
    | EventText(eventType: AIEventType, level: real)
    | HypoxiaText(probability: real)
    | EmergencyText(probability: real)

  datatype Alert = Alert(
    id: AlertId,
    kind: AlertType,
    text: AlertText,
    timestamp: int,
    acknowledged: bool,
    severity: Option<real>)

  // ---------------------------------------------------------------------
  // Connection alerts

  /** `createConnectionAlert`, with the clock reading `nowMs` passed in. */
  function ConnectionAlert(status: SocketStatus, nowMs: int): (a: Alert)
    ensures a.id == ConnectionId(status, nowMs) && a.timestamp == nowMs
    ensures a.text == ConnectionText(status) && a.severity == None
    ensures status == SocketStatus.Error ==> a.kind == AlertType.Error && !a.acknowledged
    ensures status != SocketStatus.Error ==> a.kind == Info && a.acknowledged
  {
    match status
    case Connected => Alert(ConnectionId(status, nowMs), Info, ConnectionText(status), nowMs, true, None)
    case Connecting => Alert(ConnectionId(status, nowMs), Info, ConnectionText(status), nowMs, true, None)
    case Error => Alert(ConnectionId(status, nowMs), AlertType.Error, ConnectionText(status), nowMs, false, None)
    case Disconnected => Alert(ConnectionId(status, nowMs), Info, ConnectionText(status), nowMs, true, None)
  }

  // ---------------------------------------------------------------------
  // Message alerts: the rules, one function per rule

  function StatusAlerts(m: AIMessage): seq<Alert>
  {
    var t := m.time;
    match m.shortTerm.status
    case Alarm => [Alert(StatusAlertId(t), AlertType.Error, CriticalStatusText, t * 1000, false, None)]
    case Suspicion => [Alert(StatusWarningId(t), Warning, SuspicionText(Suspicion), t * 1000, false, None)]
    case Normal => []
  }

  function EventAlert(t: int, index: nat, e: AIEvent): seq<Alert>
  {
    if e.severity > 0.7 then
      [Alert(EventHighId(t, index), AlertType.Error, EventText(e.eventType, e.severity), t * 1000, false, Some(e.severity))]
    else if e.severity > 0.4 then
      [Alert(EventMediumId(t, index), Warning, EventText(e.eventType, e.severity), t * 1000, false, Some(e.severity))]
    else []
  }

  /** Alerts of the first `n` events, by index; `PushEventAlerts` builds
      them with a loop. */
  function EventAlerts(t: int, events: seq<AIEvent>, n: nat): (r: seq<Alert>)
    requires n <= |events|
    ensures |r| <= n
  {
    if n == 0 then [] else EventAlerts(t, events, n - 1) + EventAlert(t, n - 1, events[n - 1])
  }

  function HypoxiaAlerts(m: AIMessage): seq<Alert>
  {
    var t, p := m.time, m.longTerm.hypoxia60;
    if p > 0.8 then [Alert(HypoxiaHighId(t), AlertType.Error, HypoxiaText(p), t * 1000, false, None)]
    else if p > 0.6 then [Alert(HypoxiaMediumId(t), Warning, HypoxiaText(p), t * 1000, false, None)]
    else []
  }

  function EmergencyAlerts(m: AIMessage): seq<Alert>
  {
    var t, p := m.time, m.longTerm.emergency30;
    if p > 0.7 then [Alert(EmergencyHighId(t), AlertType.Error, EmergencyText(p), t * 1000, false, None)]
    else if p > 0.5 then [Alert(EmergencyMediumId(t), Warning, EmergencyText(p), t * 1000, false, None)]
    else []
  }

  /** What `buildAlertsFromMessage` returns: status, events by index,
      hypoxia, emergency; at most one alert per rule and per event. The
      method `BuildAlertsFromMessage` computes it by pushes. */
  function MessageAlerts(m: AIMessage): (r: seq<Alert>)
    ensures |r| <= |m.shortTerm.events| + 3
  {
    StatusAlerts(m) + EventAlerts(m.time, m.shortTerm.events, |m.shortTerm.events|)
      + HypoxiaAlerts(m) + EmergencyAlerts(m)
  }

  /** The `events.forEach` of `buildAlertsFromMessage`: one alert per
      event above the medium threshold, pushed in index order. */
  method PushEventAlerts(t: int, events: seq<AIEvent>, prefix: seq<Alert>) returns (alerts: seq<Alert>)
    ensures alerts == prefix + EventAlerts(t, events, |events|)
  {
    alerts := prefix;
    var timestamp := t * 1000;
    var index := 0;
    while index < |events|
      invariant 0 <= index <= |events|
      invariant alerts == prefix + EventAlerts(t, events, index)
    {
      var event := events[index];
      if event.severity > 0.7 {
        alerts := alerts + [Alert(EventHighId(t, index), AlertType.Error, EventText(event.eventType, event.severity),
                                  timestamp, false, Some(event.severity))];
      } else if event.severity > 0.4 {
        alerts := alerts + [Alert(EventMediumId(t, index), Warning, EventText(event.eventType, event.severity),
                                  timestamp, false, Some(event.severity))];
      }
      index := index + 1;
    }
  }

  /** `buildAlertsFromMessage`: pushes the alerts of each rule in turn. */
  method BuildAlertsFromMessage(message: AIMessage) returns (alerts: seq<Alert>)
    ensures alerts == MessageAlerts(message)
  {
    alerts := [];
    var t := message.time;
    var timestamp := t * 1000;

    var status := message.shortTerm.status;
    if status == Alarm {
      alerts := alerts + [Alert(StatusAlertId(t), AlertType.Error, CriticalStatusText, timestamp, false, None)];
    } else if status == Suspicion {
      alerts := alerts + [Alert(StatusWarningId(t), Warning, SuspicionText(status), timestamp, false, None)];
    }
    assert alerts == StatusAlerts(message);

    alerts := PushEventAlerts(t, message.shortTerm.events, alerts);
    ghost var eventsDone := alerts;

    var hypoxia := message.longTerm.hypoxia60;
    if hypoxia > 0.8 {
      alerts := alerts + [Alert(HypoxiaHighId(t), AlertType.Error, HypoxiaText(hypoxia), timestamp, false, None)];
    } else if hypoxia > 0.6 {
      alerts := alerts + [Alert(HypoxiaMediumId(t), Warning, HypoxiaText(hypoxia), timestamp, false, None)];
    }
    assert alerts == eventsDone + HypoxiaAlerts(message);
    ghost var hypoxiaDone := alerts;

    var emergency := message.longTerm.emergency30;
    if emergency > 0.7 {
      alerts := alerts + [Alert(EmergencyHighId(t), AlertType.Error, EmergencyText(emergency), timestamp, false, None)];
    } else if emergency > 0.5 {
      alerts := alerts + [Alert(EmergencyMediumId(t), Warning, EmergencyText(emergency), timestamp, false, None)];
    }
    assert alerts == hypoxiaDone + EmergencyAlerts(message);
  }

  // ---------------------------------------------------------------------
  // Message alerts: the rules stated per id, and what follows from them

  /** The rules read the other way round: for each possible id, the alert a
      message must produce under that id, if any. */
  function ExpectedAlert(m: AIMessage, id: AlertId): Option<Alert>
  {
    var t, events := m.time, m.shortTerm.events;
    var hypoxia, emergency := m.longTerm.hypoxia60, m.longTerm.emergency30;
    match id
    case ConnectionId(_, _) => None
    case StatusAlertId(time) =>
      if time == t && m.shortTerm.status == Alarm
      then Some(Alert(id, AlertType.Error, CriticalStatusText, t * 1000, false, None)) else None
    case StatusWarningId(time) =>
      if time == t && m.shortTerm.status == Suspicion
      then Some(Alert(id, Warning, SuspicionText(Suspicion), t * 1000, false, None)) else None
    case EventHighId(time, i) =>
      if time == t && i < |events| && events[i].severity > 0.7
      then Some(Alert(id, AlertType.Error, EventText(events[i].eventType, events[i].severity), t * 1000, false, Some(events[i].severity)))
      else None
    case EventMediumId(time, i) =>
      if time == t && i < |events| && 0.4 < events[i].severity <= 0.7
      then Some(Alert(id, Warning, EventText(events[i].eventType, events[i].severity), t * 1000, false, Some(events[i].severity)))
      else None
    case HypoxiaHighId(time) =>
      if time == t && hypoxia > 0.8
      then Some(Alert(id, AlertType.Error, HypoxiaText(hypoxia), t * 1000, false, None)) else None
    case HypoxiaMediumId(time) =>
      if time == t && 0.6 < hypoxia <= 0.8
      then Some(Alert(id, Warning, HypoxiaText(hypoxia), t * 1000, false, None)) else None
    case EmergencyHighId(time) =>
      if time == t && emergency > 0.7
      then Some(Alert(id, AlertType.Error, EmergencyText(emergency), t * 1000, false, None)) else None
    case EmergencyMediumId(time) =>
      if time == t && 0.5 < emergency <= 0.7
      then Some(Alert(id, Warning, EmergencyText(emergency), t * 1000, false, None)) else None
  }

  lemma {:induction false} EventAlertsMembers(m: AIMessage, n: nat, a: Alert)
    requires n <= |m.shortTerm.events|
    ensures a in EventAlerts(m.time, m.shortTerm.events, n) <==>
      (a.id.EventHighId? || a.id.EventMediumId?) && a.id.index < n && ExpectedAlert(m, a.id) == Some(a)
  {
    if n > 0 {
      EventAlertsMembers(m, n - 1, a);
    }
  }

  lemma StatusAlertsMembers(m: AIMessage, a: Alert)
    ensures a in StatusAlerts(m) <==>
      (a.id.StatusAlertId? || a.id.StatusWarningId?) && ExpectedAlert(m, a.id) == Some(a)
  {
  }

  lemma HypoxiaAlertsMembers(m: AIMessage, a: Alert)
    ensures a in HypoxiaAlerts(m) <==>
      (a.id.HypoxiaHighId? || a.id.HypoxiaMediumId?) && ExpectedAlert(m, a.id) == Some(a)
  {
  }

  lemma EmergencyAlertsMembers(m: AIMessage, a: Alert)
    ensures a in EmergencyAlerts(m) <==>
      (a.id.EmergencyHighId? || a.id.EmergencyMediumId?) && ExpectedAlert(m, a.id) == Some(a)
  {
  }

  /** The derived alerts are exactly those the per-id rules call for. */
  lemma MessageAlertsByRule(m: AIMessage, a: Alert)
    ensures a in MessageAlerts(m) <==> ExpectedAlert(m, a.id) == Some(a)
  {
    var n := |m.shortTerm.events|;
    var status, events := StatusAlerts(m), EventAlerts(m.time, m.shortTerm.events, n);
    var hypoxia, emergency := HypoxiaAlerts(m), EmergencyAlerts(m);
    assert a in MessageAlerts(m) <==> a in status || a in events || a in hypoxia || a in emergency;
    StatusAlertsMembers(m, a);
    EventAlertsMembers(m, n, a);
    HypoxiaAlertsMembers(m, a);
    EmergencyAlertsMembers(m, a);
    assert (a.id.EventHighId? || a.id.EventMediumId?) && ExpectedAlert(m, a.id).Some? ==> a.id.index < n;
  }

  /** Position of an id in the order status, events by index, hypoxia,
      emergency, for a message with `n` events. */
  function Rank(id: AlertId, n: nat): nat
  {
    match id
    case StatusAlertId(_) => 0
    case StatusWarningId(_) => 0
    case EventHighId(_, i) => i + 1
    case EventMediumId(_, i) => i + 1
    case HypoxiaHighId(_) => n + 1
    case HypoxiaMediumId(_) => n + 1
    case EmergencyHighId(_) => n + 2
    case EmergencyMediumId(_) => n + 2
    case ConnectionId(_, _) => n + 3
  }

  ghost predicate RanksIncreasing(s: seq<Alert>, n: nat)
  {
    forall i, j :: 0 <= i < j < |s| ==> Rank(s[i].id, n) < Rank(s[j].id, n)
  }

  ghost predicate RanksBetween(s: seq<Alert>, n: nat, lo: nat, hi: nat)
  {
    forall a :: a in s ==> lo <= Rank(a.id, n) < hi
  }

  lemma RanksConcat(s1: seq<Alert>, s2: seq<Alert>, n: nat, lo: nat, mid: nat, hi: nat)
    requires lo <= mid <= hi
    requires RanksIncreasing(s1, n) && RanksBetween(s1, n, lo, mid)
    requires RanksIncreasing(s2, n) && RanksBetween(s2, n, mid, hi)
    ensures RanksIncreasing(s1 + s2, n) && RanksBetween(s1 + s2, n, lo, hi)
  {
    var s := s1 + s2;
    forall i, j | 0 <= i < j < |s| ensures Rank(s[i].id, n) < Rank(s[j].id, n) {
      if j < |s1| {
      } else if i >= |s1| {
        assert s[i] == s2[i - |s1|] && s[j] == s2[j - |s1|];
      } else {
        assert s[i] in s1 && s[j] in s2;
      }
    }
    forall a | a in s ensures lo <= Rank(a.id, n) < hi {
      if a !in s1 {
        assert a in s2;
      }
    }
  }

  lemma {:induction false} EventAlertsRanked(t: int, events: seq<AIEvent>, n: nat)
    requires n <= |events|
    ensures RanksIncreasing(EventAlerts(t, events, n), |events|)
    ensures RanksBetween(EventAlerts(t, events, n), |events|, 1, n + 1)
  {
    if n > 0 {
      EventAlertsRanked(t, events, n - 1);
      RanksConcat(EventAlerts(t, events, n - 1), EventAlert(t, n - 1, events[n - 1]), |events|, 1, n, n + 1);
    }
  }

  /** The status, hypoxia and emergency parts hold at most one alert each,
      in their own rank band. */
  lemma SinglePartsRanked(m: AIMessage)
    ensures var n := |m.shortTerm.events|;
      && RanksIncreasing(StatusAlerts(m), n) && RanksBetween(StatusAlerts(m), n, 0, 1)
      && RanksIncreasing(HypoxiaAlerts(m), n) && RanksBetween(HypoxiaAlerts(m), n, n + 1, n + 2)
      && RanksIncreasing(EmergencyAlerts(m), n) && RanksBetween(EmergencyAlerts(m), n, n + 2, n + 3)
  {
  }

  /** Message alerts come in rule order: the status alert, then the event
      alerts by increasing index, then hypoxia, then emergency. */
  lemma MessageAlertsOrdered(m: AIMessage)
    ensures RanksIncreasing(MessageAlerts(m), |m.shortTerm.events|)
  {
    var t, ev, n := m.time, m.shortTerm.events, |m.shortTerm.events|;
    var status, events := StatusAlerts(m), EventAlerts(t, ev, n);
    var hypoxia, emergency := HypoxiaAlerts(m), EmergencyAlerts(m);
    SinglePartsRanked(m);
    EventAlertsRanked(t, ev, n);
    RanksConcat(status, events, n, 0, 1, n + 1);
    RanksConcat(status + events, hypoxia, n, 0, n + 1, n + 2);
    RanksConcat(status + events + hypoxia, emergency, n, 0, n + 2, n + 3);
  }

  ghost predicate DistinctIds(s: seq<Alert>)
  {
    forall i, j :: 0 <= i < j < |s| ==> s[i].id != s[j].id
  }

  /** No two alerts of one message share an id, and they all carry the
      message's time in milliseconds and are unacknowledged. */
  lemma MessageAlertsShared(m: AIMessage)
    ensures DistinctIds(MessageAlerts(m))
    ensures forall a :: a in MessageAlerts(m) ==> a.timestamp == m.time * 1000 && !a.acknowledged
  {
    MessageAlertsOrdered(m);
    forall a | a in MessageAlerts(m) ensures a.timestamp == m.time * 1000 && !a.acknowledged {
      MessageAlertsByRule(m, a);
    }
  }

  /** A message whose only notable value is a 60-minute hypoxia probability
      of 0.85 yields exactly one alert, an error. */
  lemma HypoxiaOnlyMessage(t: int)
    ensures var m := AIMessage(t, ShortTermAnalysis(Normal, []), LongTermAnalysis(0.85, 0.0));
      MessageAlerts(m) == [Alert(HypoxiaHighId(t), AlertType.Error, HypoxiaText(0.85), t * 1000, false, None)]
  {
  }

  // ---------------------------------------------------------------------
  // Message signature

  /** `x.toFixed(2)` as a whole number of hundredths (rounding half up,
      which is what `toFixed` does for the non-negative values used here). */
  function Hundredths(x: real): (r: int)
    ensures r as real - 0.5 <= x * 100.0 < r as real + 0.5
  {
    (x * 100.0 + 0.5).Floor
  }

  datatype EventSignature = EventSignature(eventType: AIEventType, level: int)

  /** The fields joined into the signature string, in its order. */
  datatype Signature = Signature(time: int, status: AIStatus, events: seq<EventSignature>, hypoxia: int, emergency: int)

  function SignatureOf(m: AIMessage): (r: Signature)
    ensures r.time == m.time && r.status == m.shortTerm.status
    ensures |r.events| == |m.shortTerm.events|
    ensures forall i :: 0 <= i < |r.events| ==>
      && r.events[i].eventType == m.shortTerm.events[i].eventType
      && r.events[i].level as real - 0.5 <= m.shortTerm.events[i].severity * 100.0 < r.events[i].level as real + 0.5
    ensures r.hypoxia as real - 0.5 <= m.longTerm.hypoxia60 * 100.0 < r.hypoxia as real + 0.5
    ensures r.emergency as real - 0.5 <= m.longTerm.emergency30 * 100.0 < r.emergency as real + 0.5
  {
    var events := m.shortTerm.events;
    Signature(m.time, m.shortTerm.status,
              seq(|events|, i requires 0 <= i < |events| => EventSignature(events[i].eventType, Hundredths(events[i].severity))),
              Hundredths(m.longTerm.hypoxia60), Hundredths(m.longTerm.emergency30))
  }

  /** The signature rounds to hundredths but the rules compare exact values,
      so two messages can share a signature and still call for different
      alerts: the second of them is then never derived. */
  lemma SignatureHidesThresholdCrossing(t: int)
    ensures var m1 := AIMessage(t, ShortTermAnalysis(Normal, [AIEvent(LateDecel, 0.6996)]), LongTermAnalysis(0.0, 0.0));
      var m2 := AIMessage(t, ShortTermAnalysis(Normal, [AIEvent(LateDecel, 0.7004)]), LongTermAnalysis(0.0, 0.0));
      SignatureOf(m1) == SignatureOf(m2) && MessageAlerts(m1) != MessageAlerts(m2)
  {
    var m1 := AIMessage(t, ShortTermAnalysis(Normal, [AIEvent(LateDecel, 0.6996)]), LongTermAnalysis(0.0, 0.0));
    var m2 := AIMessage(t, ShortTermAnalysis(Normal, [AIEvent(LateDecel, 0.7004)]), LongTermAnalysis(0.0, 0.0));
    assert Hundredths(0.6996) == 70 && Hundredths(0.7004) == 70;
    assert SignatureOf(m1).events == SignatureOf(m2).events;
    assert EventAlerts(t, m1.shortTerm.events, 1) == EventAlert(t, 0, AIEvent(LateDecel, 0.6996));
    assert EventAlerts(t, m2.shortTerm.events, 1) == EventAlert(t, 0, AIEvent(LateDecel, 0.7004));
    assert MessageAlerts(m1)[0].kind == Warning;
    assert MessageAlerts(m2)[0].kind == AlertType.Error;
  }

  // ---------------------------------------------------------------------
  // Upsert: merge by id, sort newest first, keep MAX_ALERTS

  /** Index of the first alert with this id, or -1 (the `Map.get`). */
  function IndexOf(s: seq<Alert>, id: AlertId): (k: int)
    ensures -1 <= k < |s|
    ensures 0 <= k ==> s[k].id == id && forall j :: 0 <= j < k ==> s[j].id != id
    ensures k < 0 ==> forall j :: 0 <= j < |s| ==> s[j].id != id
  {
    if s == [] then -1
    else if s[0].id == id then 0
    else
      var k := IndexOf(s[1..], id);
      if k < 0 then -1 else k + 1
  }

  /** Whether merging `a` into `m` changes it: the id is new, or stored
      with another timestamp. */
  function Changes(m: seq<Alert>, a: Alert): bool
  {
    var k := IndexOf(m, a.id);
    k < 0 || m[k].timestamp != a.timestamp
  }

  /** One `map.set` of the merge loop; `m` is the map in insertion order,
      so a replaced alert keeps its place and a new one goes last. */
  function UpsertOne(m: seq<Alert>, a: Alert): (r: seq<Alert>)
    ensures |m| <= |r| <= |m| + 1
    ensures forall i :: 0 <= i < |m| && m[i].id != a.id ==> r[i] == m[i]
  {
    var k := IndexOf(m, a.id);
    if k < 0 then m + [a]
    else if m[k].timestamp != a.timestamp then m[k := a]
    else m
  }

  function MergeAll(m: seq<Alert>, incoming: seq<Alert>): (r: seq<Alert>)
    ensures |m| <= |r| <= |m| + |incoming|
    decreases |incoming|
  {
    if incoming == [] then m else MergeAll(UpsertOne(m, incoming[0]), incoming[1..])
  }

  /** The `changed` flag at the end of the merge loop. */
  function AnyChange(m: seq<Alert>, incoming: seq<Alert>): bool
    decreases |incoming|
  {
    incoming != [] && (Changes(m, incoming[0]) || AnyChange(UpsertOne(m, incoming[0]), incoming[1..]))
  }

  ghost predicate NewestFirst(s: seq<Alert>)
  {
    forall i, j :: 0 <= i < j < |s| ==> s[i].timestamp >= s[j].timestamp
  }

  /** Insert `a` after every alert at least as new (keeps the sort stable). */
  function InsertNewestFirst(s: seq<Alert>, a: Alert): (r: seq<Alert>)
    ensures multiset(r) == multiset(s) + multiset{a}
    ensures |r| == |s| + 1
  {
    if s == [] then [a]
    else if s[0].timestamp >= a.timestamp then
      assert s == [s[0]] + s[1..];
      [s[0]] + InsertNewestFirst(s[1..], a)
    else [a] + s
  }

  lemma InsertedFrom(s: seq<Alert>, a: Alert, x: Alert)
    requires x in InsertNewestFirst(s, a)
    ensures x in s || x == a
  {
    assert x in multiset(InsertNewestFirst(s, a));
  }

  /** Putting in front an alert at least as new as every other keeps the
      list newest first. */
  lemma ConsKeepsNewestFirst(x: Alert, s: seq<Alert>)
    requires NewestFirst(s)
    requires forall y :: y in s ==> x.timestamp >= y.timestamp
    ensures NewestFirst([x] + s)
  {
    var r := [x] + s;
    forall i, j | 0 <= i < j < |r| ensures r[i].timestamp >= r[j].timestamp {
      assert r[j] == s[j - 1];
      if i > 0 {
        assert r[i] == s[i - 1];
      }
    }
  }

  lemma {:induction false} InsertKeepsNewestFirst(s: seq<Alert>, a: Alert)
    requires NewestFirst(s)
    ensures NewestFirst(InsertNewestFirst(s, a))
    decreases |s|
  {
    if s == [] {
    } else if s[0].timestamp >= a.timestamp {
      var rest := InsertNewestFirst(s[1..], a);
      InsertKeepsNewestFirst(s[1..], a);
      forall y | y in rest ensures s[0].timestamp >= y.timestamp {
        InsertedFrom(s[1..], a, y);
        if y != a {
          var k :| 0 <= k < |s[1..]| && s[1..][k] == y;
          assert s[k + 1] == y;
        }
      }
      ConsKeepsNewestFirst(s[0], rest);
    } else {
      forall y | y in s ensures a.timestamp >= y.timestamp {
        var k :| 0 <= k < |s| && s[k] == y;
        assert s[0].timestamp >= s[k].timestamp;
      }
      ConsKeepsNewestFirst(a, s);
    }
  }

  /** The stable sort by decreasing timestamp (`Array.prototype.sort` is
      stable): an insertion sort. */
  function SortNewestFirst(s: seq<Alert>): (r: seq<Alert>)
    ensures multiset(r) == multiset(s) && |r| == |s|
  {
    if s == [] then []
    else
      assert s == s[..|s| - 1] + [s[|s| - 1]];
      InsertNewestFirst(SortNewestFirst(s[..|s| - 1]), s[|s| - 1])
  }

  /** The sort orders by non-increasing timestamp. */
  lemma {:induction false} SortIsNewestFirst(s: seq<Alert>)
    ensures NewestFirst(SortNewestFirst(s))
  {
    if s != [] {
      SortIsNewestFirst(s[..|s| - 1]);
      InsertKeepsNewestFirst(SortNewestFirst(s[..|s| - 1]), s[|s| - 1]);
    }
  }

  /** The test "has timestamp `t`", for picking out alerts that tie. */
  function HasTimestamp(t: int): Alert -> bool
  {
    (a: Alert) => a.timestamp == t
  }

  /** No alert of a list older than `t` has timestamp `t`. */
  lemma NoneAtTime(s: seq<Alert>, t: int)
    requires forall i :: 0 <= i < |s| ==> s[i].timestamp < t
    ensures Filter(s, HasTimestamp(t)) == []
  {
  }

  /** Inserting into a newest-first list puts `a` after every alert with its
      timestamp, and moves no alert past another with the same timestamp. */
  lemma {:induction false} InsertKeepsTies(s: seq<Alert>, a: Alert, t: int)
    requires NewestFirst(s)
    ensures Filter(InsertNewestFirst(s, a), HasTimestamp(t))
         == Filter(s, HasTimestamp(t)) + Filter([a], HasTimestamp(t))
    decreases |s|, 1
  {
    if s == [] {
      assert InsertNewestFirst(s, a) == [a];
    } else if s[0].timestamp >= a.timestamp {
      InsertTiesBehind(s, a, t);
    } else {
      InsertTiesInFront(s, a, t);
    }
  }

  lemma {:induction false} InsertTiesBehind(s: seq<Alert>, a: Alert, t: int)
    requires NewestFirst(s) && s != [] && s[0].timestamp >= a.timestamp
    ensures Filter(InsertNewestFirst(s, a), HasTimestamp(t))
         == Filter(s, HasTimestamp(t)) + Filter([a], HasTimestamp(t))
    decreases |s|, 0
  {
    var keep := HasTimestamp(t);
    var tail := s[1..];
    var rest := InsertNewestFirst(tail, a);
    assert Filter([s[0]] + rest, keep) == Filter([s[0]] + tail, keep) + Filter([a], keep) by {
      assert NewestFirst(tail) by {
        forall i, j | 0 <= i < j < |tail| ensures tail[i].timestamp >= tail[j].timestamp {
          assert tail[i] == s[i + 1] && tail[j] == s[j + 1];
        }
      }
      InsertKeepsTies(tail, a, t);
      FilterOfCons(s[0], rest, tail, Filter([a], keep), keep);
    }
    assert Filter(InsertNewestFirst(s, a), keep) == Filter([s[0]] + rest, keep) by {
      assert InsertNewestFirst(s, a) == [s[0]] + rest;
    }
    assert Filter(s, keep) == Filter([s[0]] + tail, keep) by {
      SplitFirst(s);
    }
  }

  lemma InsertTiesInFront(s: seq<Alert>, a: Alert, t: int)
    requires NewestFirst(s) && s != [] && s[0].timestamp < a.timestamp
    ensures Filter(InsertNewestFirst(s, a), HasTimestamp(t))
         == Filter(s, HasTimestamp(t)) + Filter([a], HasTimestamp(t))
  {
    var keep := HasTimestamp(t);
    assert InsertNewestFirst(s, a) == [a] + s;
    FilterConcat([a], s, keep);
    if a.timestamp == t {
      assert forall i :: 0 <= i < |s| ==> s[i].timestamp < t by {
        forall i | 0 <= i < |s| ensures s[i].timestamp < t {
          assert s[0].timestamp >= s[i].timestamp;
        }
      }
      NoneAtTime(s, t);
    } else {
      assert Filter([a], keep) == [];
    }
  }

  /** The sort is stable: the alerts that share a timestamp come out in the
      order they went in. */
  lemma {:induction false} SortIsStable(s: seq<Alert>, t: int)
    ensures Filter(SortNewestFirst(s), HasTimestamp(t)) == Filter(s, HasTimestamp(t))
  {
    if s != [] {
      var init, last := s[..|s| - 1], s[|s| - 1];
      SortIsStable(init, t);
      SortIsNewestFirst(init);
      InsertKeepsTies(SortNewestFirst(init), last, t);
      SplitLast(s);
      FilterConcat(init, [last], HasTimestamp(t));
    }
  }

  /** One step of the merge loop, at position `i` of the batch. */
  lemma MergeStep(m: seq<Alert>, incoming: seq<Alert>, i: nat)
    requires i < |incoming|
    ensures MergeAll(m, incoming[i..]) == MergeAll(UpsertOne(m, incoming[i]), incoming[i + 1..])
    ensures AnyChange(m, incoming[i..])
      == (Changes(m, incoming[i]) || AnyChange(UpsertOne(m, incoming[i]), incoming[i + 1..]))
  {
    assert incoming[i..][1..] == incoming[i + 1..];
  }

  /** The alert list after `upsertAlerts(incoming)`; `AlertDeriver.Upsert`
      computes it with the source's loop and `changed` flag. */
  function UpsertResult(current: seq<Alert>, incoming: seq<Alert>): (r: seq<Alert>)
    ensures !AnyChange(current, incoming) ==> r == current
    ensures |r| <= MAX_ALERTS || r == current
  {
    if !AnyChange(current, incoming) then current
    else
      var sorted := SortNewestFirst(MergeAll(current, incoming));
      sorted[..Min(|sorted|, MAX_ALERTS)]
  }

  /** The invariant of the alert list. */
  ghost predicate WellFormed(s: seq<Alert>)
  {
    DistinctIds(s) && NewestFirst(s) && |s| <= MAX_ALERTS
  }

  /** `a` is in `m` under its id with its timestamp. */
  ghost predicate Stored(m: seq<Alert>, a: Alert)
  {
    exists k :: 0 <= k < |m| && m[k].id == a.id && m[k].timestamp == a.timestamp
  }

  lemma UpsertOneWhenStored(m: seq<Alert>, a: Alert)
    requires DistinctIds(m)
    ensures !Changes(m, a) <==> Stored(m, a)
    ensures !Changes(m, a) ==> UpsertOne(m, a) == m
  {
    var k := IndexOf(m, a.id);
    if Stored(m, a) {
      var j :| 0 <= j < |m| && m[j].id == a.id && m[j].timestamp == a.timestamp;
      assert k == j;
    }
  }

  lemma UpsertOneDistinct(m: seq<Alert>, a: Alert)
    requires DistinctIds(m)
    ensures DistinctIds(UpsertOne(m, a))
  {
  }

  lemma {:induction false} MergeAllDistinct(m: seq<Alert>, incoming: seq<Alert>)
    requires DistinctIds(m)
    ensures DistinctIds(MergeAll(m, incoming))
    decreases |incoming|
  {
    if incoming != [] {
      UpsertOneDistinct(m, incoming[0]);
      MergeAllDistinct(UpsertOne(m, incoming[0]), incoming[1..]);
    }
  }

  /** The merge changes nothing exactly when every incoming alert is already
      stored with the same timestamp; then the list is left as it was. */
  lemma {:induction false} NoChangeIffAllStored(m: seq<Alert>, incoming: seq<Alert>)
    requires DistinctIds(m)
    ensures !AnyChange(m, incoming) <==> forall a :: a in incoming ==> Stored(m, a)
    ensures !AnyChange(m, incoming) ==> MergeAll(m, incoming) == m
    decreases |incoming|
  {
    if incoming != [] {
      var a := incoming[0];
      assert incoming == [a] + incoming[1..];
      UpsertOneWhenStored(m, a);
      if !Changes(m, a) {
        NoChangeIffAllStored(m, incoming[1..]);
      }
    }
  }

  lemma InsertKeepsDistinct(s: seq<Alert>, a: Alert)
    requires DistinctIds(s) && forall x :: x in s ==> x.id != a.id
    ensures DistinctIds(InsertNewestFirst(s, a))
    decreases |s|
  {
    if s != [] && s[0].timestamp >= a.timestamp {
      InsertKeepsDistinct(s[1..], a);
      var rest := InsertNewestFirst(s[1..], a);
      var r := [s[0]] + rest;
      forall i, j | 0 <= i < j < |r| ensures r[i].id != r[j].id {
        if i == 0 {
          InsertedFrom(s[1..], a, r[j]);
        } else {
          assert r[i] == rest[i - 1] && r[j] == rest[j - 1];
        }
      }
    }
  }

  lemma {:induction false} SortKeepsDistinct(s: seq<Alert>)
    requires DistinctIds(s)
    ensures DistinctIds(SortNewestFirst(s))
    decreases |s|
  {
    if s != [] {
      var init, last := s[..|s| - 1], s[|s| - 1];
      SortKeepsDistinct(init);
      var sorted := SortNewestFirst(init);
      forall x | x in sorted ensures x.id != last.id {
        assert x in multiset(init);
      }
      InsertKeepsDistinct(sorted, last);
    }
  }

  /** Every upsert keeps the list free of duplicate ids, newest first and
      no longer than MAX_ALERTS; when it changes the list, it keeps only
      merged alerts, and the cut drops only alerts no newer than every alert
      it keeps. */
  lemma UpsertKeepsWellFormed(current: seq<Alert>, incoming: seq<Alert>)
    requires WellFormed(current)
    ensures WellFormed(UpsertResult(current, incoming))
    ensures var merged, r := MergeAll(current, incoming), UpsertResult(current, incoming);
      AnyChange(current, incoming) ==>
        && |r| == Min(|merged|, MAX_ALERTS)
        && multiset(r) <= multiset(merged)
        && forall x, y :: x in merged && x !in r && y in r ==> y.timestamp >= x.timestamp
  {
    if AnyChange(current, incoming) {
      var merged := MergeAll(current, incoming);
      MergeAllDistinct(current, incoming);
      SortKeepsDistinct(merged);
      SortIsNewestFirst(merged);
      var sorted := SortNewestFirst(merged);
      var n := Min(|sorted|, MAX_ALERTS);
      PrefixKeepsOrder(sorted, n);
      assert multiset(sorted[..n]) <= multiset(merged) by {
        assert sorted == sorted[..n] + sorted[n..];
      }
      assert forall x :: x in merged ==> x in sorted by {
        forall x | x in merged ensures x in sorted {
          assert x in multiset(sorted);
        }
      }
    }
  }

  /** A prefix of a list that is newest first with unique ids is so too, and
      nothing it leaves out is newer than anything it keeps. */
  lemma PrefixKeepsOrder(s: seq<Alert>, n: nat)
    requires DistinctIds(s) && NewestFirst(s) && n <= |s|
    ensures DistinctIds(s[..n]) && NewestFirst(s[..n])
    ensures forall x, y :: x in s && x !in s[..n] && y in s[..n] ==> y.timestamp >= x.timestamp
  {
    var r := s[..n];
    forall x, y | x in s && x !in r && y in r ensures y.timestamp >= x.timestamp {
      var ix :| 0 <= ix < |s| && s[ix] == x;
      var iy :| 0 <= iy < |r| && r[iy] == y;
    }
  }

  lemma {:induction false} StoredSurvivesOthers(m: seq<Alert>, incoming: seq<Alert>, a: Alert)
    requires Stored(m, a)
    requires forall b :: b in incoming ==> b.id != a.id
    ensures Stored(MergeAll(m, incoming), a)
    decreases |incoming|
  {
    if incoming != [] {
      var b := incoming[0];
      var k :| 0 <= k < |m| && m[k].id == a.id && m[k].timestamp == a.timestamp;
      var u := UpsertOne(m, b);
      assert u[k] == m[k];
      assert incoming == [b] + incoming[1..];
      StoredSurvivesOthers(u, incoming[1..], a);
    }
  }

  lemma {:induction false} MergeAllStoresIncoming(m: seq<Alert>, incoming: seq<Alert>)
    requires DistinctIds(incoming)
    ensures forall a :: a in incoming ==> Stored(MergeAll(m, incoming), a)
    decreases |incoming|
  {
    if incoming != [] {
      var a := incoming[0];
      var u := UpsertOne(m, a);
      var k := IndexOf(m, a.id);
      assert Stored(u, a) by {
        if k < 0 {
          assert u[|m|] == a;
        } else {
          assert u[k].id == a.id && u[k].timestamp == a.timestamp;
        }
      }
      assert DistinctIds(incoming[1..]);
      MergeAllStoresIncoming(u, incoming[1..]);
      assert forall b :: b in incoming[1..] ==> b.id != a.id;
      StoredSurvivesOthers(u, incoming[1..], a);
    }
  }

  /** After an upsert that cuts nothing off, every alert of the batch is
      stored under its id with its timestamp. */
  lemma UpsertStoresIncoming(current: seq<Alert>, incoming: seq<Alert>)
    requires WellFormed(current) && DistinctIds(incoming)
    requires |MergeAll(current, incoming)| <= MAX_ALERTS
    ensures forall a :: a in incoming ==> Stored(UpsertResult(current, incoming), a)
  {
    NoChangeIffAllStored(current, incoming);
    if AnyChange(current, incoming) {
      var merged := MergeAll(current, incoming);
      MergeAllStoresIncoming(current, incoming);
      var r := SortNewestFirst(merged);
      assert UpsertResult(current, incoming) == r;
      assert forall a :: a in incoming ==> Stored(r, a) by {
        forall a | a in incoming ensures Stored(r, a) {
          var k :| 0 <= k < |merged| && merged[k].id == a.id && merged[k].timestamp == a.timestamp;
          assert merged[k] in multiset(r);
          var j :| 0 <= j < |r| && r[j] == merged[k];
        }
      }
    }
  }

  /** `b` has an id no alert of `r` has, and is no newer than any of them:
      the kind of alert an upsert cuts off. */
  ghost predicate OlderNewcomer(r: seq<Alert>, b: Alert)
  {
    forall y :: y in r ==> y.id != b.id && y.timestamp >= b.timestamp
  }

  /** Inserting an alert no newer than any alert of `p` passes all of `p`. */
  lemma {:induction false} InsertPassesNewerPrefix(p: seq<Alert>, x: seq<Alert>, a: Alert)
    requires forall i :: 0 <= i < |p| ==> p[i].timestamp >= a.timestamp
    ensures InsertNewestFirst(p + x, a) == p + InsertNewestFirst(x, a)
    decreases |p|
  {
    if p == [] {
      assert p + x == x;
    } else {
      var tail := p[1..];
      assert (p + x)[1..] == tail + x;
      assert InsertNewestFirst(p + x, a) == [p[0]] + InsertNewestFirst(tail + x, a);
      InsertPassesNewerPrefix(tail, x, a);
      assert p == [p[0]] + tail;
    }
  }

  /** An alert no newer than any alert of `p` is inserted last. */
  lemma InsertGoesLast(p: seq<Alert>, a: Alert)
    requires forall i :: 0 <= i < |p| ==> p[i].timestamp >= a.timestamp
    ensures InsertNewestFirst(p, a) == p + [a]
  {
    InsertPassesNewerPrefix(p, [], a);
    assert p + [] == p;
    assert InsertNewestFirst([], a) == [a];
  }

  /** Without its last alert a newest-first list is newest first, and the
      last alert is no newer than the rest. */
  lemma NewestFirstInit(p: seq<Alert>)
    requires NewestFirst(p) && p != []
    ensures NewestFirst(p[..|p| - 1])
    ensures forall i :: 0 <= i < |p| - 1 ==> p[i].timestamp >= p[|p| - 1].timestamp
  {
  }

  /** Sorting a list that is already newest first changes nothing. */
  lemma {:induction false} SortOfNewestFirst(p: seq<Alert>)
    requires NewestFirst(p)
    ensures SortNewestFirst(p) == p
  {
    if p != [] {
      var init, last := p[..|p| - 1], p[|p| - 1];
      assert SortNewestFirst(init) == init by {
        NewestFirstInit(p);
        SortOfNewestFirst(init);
      }
      assert InsertNewestFirst(init, last) == p by {
        NewestFirstInit(p);
        InsertGoesLast(init, last);
        SplitLast(p);
      }
    }
  }

  /** Sorting a newest-first list followed by alerts no newer than any of
      it keeps that list in front and sorts only the rest. */
  lemma {:induction false} SortKeepsNewerPrefix(p: seq<Alert>, q: seq<Alert>)
    requires NewestFirst(p)
    requires forall x, y :: x in q && y in p ==> y.timestamp >= x.timestamp
    ensures SortNewestFirst(p + q) == p + SortNewestFirst(q)
    decreases |q|
  {
    if q == [] {
      assert p + q == p;
      SortOfNewestFirst(p);
    } else {
      var init, last := q[..|q| - 1], q[|q| - 1];
      DropLastOfConcat(p, q);
      SortKeepsNewerPrefix(p, init);
      InsertPassesNewerPrefix(p, SortNewestFirst(init), last);
    }
  }

  /** Merging a batch into `r + q`, when each alert of the batch is either
      stored in `r` or an older newcomer whose id `q` does not hold either,
      leaves `r` in front and appends only alerts no newer than `r`'s. */
  lemma {:induction false} MergeAppendsOlder(r: seq<Alert>, q: seq<Alert>, incoming: seq<Alert>)
    requires DistinctIds(r) && DistinctIds(incoming)
    requires forall x, b :: x in q && b in incoming ==> x.id != b.id
    requires forall x, y :: x in q && y in r ==> y.timestamp >= x.timestamp
    requires forall b :: b in incoming ==> Stored(r, b) || OlderNewcomer(r, b)
    ensures var m := MergeAll(r + q, incoming);
      |r| <= |m| && m[..|r|] == r &&
      forall x, y :: x in m[|r|..] && y in r ==> y.timestamp >= x.timestamp
    decreases |incoming|
  {
    if incoming == [] {
      assert (r + q)[..|r|] == r && (r + q)[|r|..] == q;
    } else {
      var a, rest := incoming[0], incoming[1..];
      assert DistinctIds(rest) by {
        forall i, j | 0 <= i < j < |rest| ensures rest[i].id != rest[j].id {
          assert rest[i] == incoming[i + 1] && rest[j] == incoming[j + 1];
        }
      }
      assert forall b :: b in rest ==> b.id != a.id by {
        forall b | b in rest ensures b.id != a.id {
          var j :| 0 <= j < |rest| && rest[j] == b;
          assert incoming[j + 1] == b;
        }
      }
      var k := IndexOf(r + q, a.id);
      if Stored(r, a) {
        var k0 :| 0 <= k0 < |r| && r[k0].id == a.id && r[k0].timestamp == a.timestamp;
        assert (r + q)[k0] == r[k0];
        assert k == k0;
        assert UpsertOne(r + q, a) == r + q;
        MergeAppendsOlder(r, q, rest);
      } else {
        assert k < 0;
        assert UpsertOne(r + q, a) == r + (q + [a]);
        MergeAppendsOlder(r, q + [a], rest);
      }
    }
  }

  /** After an upsert that changed the list, each alert of the batch is
      stored in the result or was cut off as an older newcomer; and if one
      was cut off, the list is full. */
  lemma CutBatch(current: seq<Alert>, incoming: seq<Alert>)
    requires WellFormed(current) && DistinctIds(incoming) && AnyChange(current, incoming)
    ensures var r := UpsertResult(current, incoming);
      && (forall b :: b in incoming ==> Stored(r, b) || OlderNewcomer(r, b))
      && ((exists b :: b in incoming && !Stored(r, b)) ==> |r| == MAX_ALERTS)
  {
    var merged := MergeAll(current, incoming);
    var sorted := SortNewestFirst(merged);
    var n := Min(|sorted|, MAX_ALERTS);
    var r := sorted[..n];
    assert UpsertResult(current, incoming) == r;
    MergeAllStoresIncoming(current, incoming);
    MergeAllDistinct(current, incoming);
    SortKeepsDistinct(merged);
    SortIsNewestFirst(merged);
    PrefixKeepsOrder(sorted, n);
    forall b | b in incoming
      ensures Stored(r, b) || OlderNewcomer(r, b)
      ensures n == |sorted| ==> Stored(r, b)
    {
      StoredAfterSort(merged, b);
      CutOrKept(sorted, n, b);
    }
  }

  /** Sorting keeps every alert, so what was stored stays stored. */
  lemma StoredAfterSort(merged: seq<Alert>, b: Alert)
    requires Stored(merged, b)
    ensures Stored(SortNewestFirst(merged), b)
  {
    var sorted := SortNewestFirst(merged);
    var k :| 0 <= k < |merged| && merged[k].id == b.id && merged[k].timestamp == b.timestamp;
    assert merged[k] in multiset(sorted);
    var i :| 0 <= i < |sorted| && sorted[i] == merged[k];
  }

  /** Upserting again into a full list whose missing batch alerts are older
      newcomers leaves the list as it is. */
  lemma UpsertIntoFullKeeps(r: seq<Alert>, incoming: seq<Alert>)
    requires WellFormed(r) && DistinctIds(incoming) && |r| == MAX_ALERTS
    requires forall b :: b in incoming ==> Stored(r, b) || OlderNewcomer(r, b)
    ensures UpsertResult(r, incoming) == r
  {
    assert r + [] == r;
    MergeAppendsOlder(r, [], incoming);
    var m2 := MergeAll(r, incoming);
    assert m2 == r + m2[|r|..];
    SortKeepsNewerPrefix(r, m2[|r|..]);
    var sorted2 := SortNewestFirst(m2);
    assert sorted2[..MAX_ALERTS] == r;
  }

  /** Upserting the same batch (distinct ids) twice is the same as once:
      what the first upsert stored the second finds unchanged, and what the
      first cut off the second cuts off again. */
  lemma UpsertIdempotent(current: seq<Alert>, incoming: seq<Alert>)
    requires WellFormed(current) && DistinctIds(incoming)
    ensures UpsertResult(UpsertResult(current, incoming), incoming) == UpsertResult(current, incoming)
  {
    var r := UpsertResult(current, incoming);
    UpsertKeepsWellFormed(current, incoming);
    NoChangeIffAllStored(current, incoming);
    NoChangeIffAllStored(r, incoming);
    if AnyChange(r, incoming) {
      CutBatch(current, incoming);
      UpsertIntoFullKeeps(r, incoming);
    }
  }

  /** An alert stored in a sorted list is stored in its cut at `n`, or has
      an id no kept alert has and is no newer than any of them; when the cut
      keeps everything, it is stored. */
  lemma CutOrKept(sorted: seq<Alert>, n: nat, b: Alert)
    requires DistinctIds(sorted) && n <= |sorted| && Stored(sorted, b)
    requires forall x, y :: x in sorted && x !in sorted[..n] && y in sorted[..n] ==> y.timestamp >= x.timestamp
    ensures Stored(sorted[..n], b) || OlderNewcomer(sorted[..n], b)
    ensures n == |sorted| ==> Stored(sorted[..n], b)
  {
    var r := sorted[..n];
    var i :| 0 <= i < |sorted| && sorted[i].id == b.id && sorted[i].timestamp == b.timestamp;
    if i < n {
      assert r[i] == sorted[i];
    } else {
      forall y | y in r ensures y.id != b.id && y.timestamp >= b.timestamp {
        var j :| 0 <= j < n && r[j] == y;
        assert sorted[j] == y;
      }
    }
  }

  /** An upsert of one alert with a new id into a list with room for it
      adds exactly that alert. */
  lemma UpsertNewAlert(current: seq<Alert>, a: Alert)
    requires WellFormed(current) && |current| < MAX_ALERTS
    requires forall x :: x in current ==> x.id != a.id
    ensures multiset(UpsertResult(current, [a])) == multiset(current) + multiset{a}
  {
    assert IndexOf(current, a.id) < 0;
    assert AnyChange(current, [a]);
    assert [a][1..] == [];
    assert MergeAll(current, [a]) == current + [a];
    var sorted := SortNewestFirst(current + [a]);
    assert sorted[..Min(|sorted|, MAX_ALERTS)] == sorted;
  }

  /** The timestamp an id implies: derived alerts are stamped with it. */
  function IdTimestamp(id: AlertId): int
  {
    match id
    case ConnectionId(_, at) => at
    case StatusAlertId(t) => t * 1000
    case StatusWarningId(t) => t * 1000
    case EventHighId(t, _) => t * 1000
    case EventMediumId(t, _) => t * 1000
    case HypoxiaHighId(t) => t * 1000
    case HypoxiaMediumId(t) => t * 1000
    case EmergencyHighId(t) => t * 1000
    case EmergencyMediumId(t) => t * 1000
  }

  ghost predicate AllStamped(s: seq<Alert>)
  {
    forall a :: a in s ==> a.timestamp == IdTimestamp(a.id)
  }

  /** Every alert the deriver produces carries the timestamp its id implies. */
  lemma DerivedAlertsStamped(m: AIMessage, status: SocketStatus, nowMs: int)
    ensures AllStamped(MessageAlerts(m))
    ensures AllStamped([ConnectionAlert(status, nowMs)])
  {
    forall a | a in MessageAlerts(m) ensures a.timestamp == IdTimestamp(a.id) {
      MessageAlertsByRule(m, a);
      ExpectedAlertStamped(m, a.id);
    }
  }

  lemma ExpectedAlertStamped(m: AIMessage, id: AlertId)
    ensures ExpectedAlert(m, id).Some? ==> ExpectedAlert(m, id).value.timestamp == IdTimestamp(id)
  {
  }

  /** Because ids embed the time, a stored alert is never replaced: merging
      stamped alerts keeps every current alert as it is, so a re-derived
      alert with new content under a known id (a severity revised at the
      same time) is dropped, and only alerts with new ids are added. */
  lemma {:induction false} StampedMergeKeepsCurrent(m: seq<Alert>, incoming: seq<Alert>)
    requires AllStamped(m) && AllStamped(incoming)
    ensures AllStamped(MergeAll(m, incoming))
    ensures forall x :: x in m ==> x in MergeAll(m, incoming)
    decreases |incoming|
  {
    if incoming != [] {
      var a := incoming[0];
      assert a in incoming;
      var u := UpsertOne(m, a);
      var k := IndexOf(m, a.id);
      assert u == (if k < 0 then m + [a] else m);
      StampedMergeKeepsCurrent(u, incoming[1..]);
    }
  }

  lemma UpsertKeepsStamped(current: seq<Alert>, incoming: seq<Alert>)
    requires AllStamped(current) && AllStamped(incoming)
    ensures AllStamped(UpsertResult(current, incoming))
  {
    StampedMergeKeepsCurrent(current, incoming);
    var sorted := SortNewestFirst(MergeAll(current, incoming));
    forall x | x in sorted[..Min(|sorted|, MAX_ALERTS)] ensures x.timestamp == IdTimestamp(x.id) {
      assert x in multiset(sorted);
    }
  }

  /** Every alert of `before` that has an alert under its id in `after`
      is that alert. */
  ghost predicate KeepsStored(before: seq<Alert>, after: seq<Alert>)
  {
    forall x, y :: x in before && y in after && x.id == y.id ==> x == y
  }

  /** So an upsert of stamped alerts never replaces a stored alert: any
      alert of the result under the id of a stored alert is that alert. */
  lemma UpsertNeverReplaces(current: seq<Alert>, incoming: seq<Alert>)
    requires WellFormed(current) && AllStamped(current) && AllStamped(incoming)
    ensures KeepsStored(current, UpsertResult(current, incoming))
  {
    var r := UpsertResult(current, incoming);
    var merged := MergeAll(current, incoming);
    UpsertKeepsWellFormed(current, incoming);
    StampedMergeKeepsCurrent(current, incoming);
    MergeAllDistinct(current, incoming);
    forall x, y | x in current && y in r && x.id == y.id ensures x == y {
      if AnyChange(current, incoming) {
        assert y in multiset(r);
        SameIdSameAlert(merged, x, y);
      } else {
        SameIdSameAlert(current, x, y);
      }
    }
  }

  lemma SameIdSameAlert(s: seq<Alert>, x: Alert, y: Alert)
    requires DistinctIds(s) && x in s && y in s && x.id == y.id
    ensures x == y
  {
    var i :| 0 <= i < |s| && s[i] == x;
    var j :| 0 <= j < |s| && s[j] == y;
    assert !(i < j) && !(j < i);
  }

  // ---------------------------------------------------------------------
  // The hook's state

  /** One `useAIAlerts` instance: the alert list (`alertsRef` and the
      `alerts` state hold the same list) and the two dedup cells. */
  class AlertDeriver {
    var alerts: seq<Alert>
    var lastStatus: Option<SocketStatus>
    var lastSignature: Option<Signature>

    /** The list is well formed, and every alert in it carries the
        timestamp its id implies. */
    ghost predicate Valid()
      reads this
    {
      WellFormed(alerts) && AllStamped(alerts)
    }

    constructor ()
      ensures Valid()
      ensures alerts == [] && lastStatus == None && lastSignature == None
    {
      alerts := [];
      lastStatus := None;
      lastSignature := None;
    }

    /** `upsertAlerts`, which the hook calls only with derived alerts. */
    method Upsert(incoming: seq<Alert>)
      requires Valid() && AllStamped(incoming)
      modifies this
      ensures Valid()
      ensures alerts == UpsertResult(old(alerts), incoming)
      ensures KeepsStored(old(alerts), alerts)
      ensures lastStatus == old(lastStatus) && lastSignature == old(lastSignature)
    {
      ghost var result := UpsertResult(alerts, incoming);
      assert AllStamped(result) && KeepsStored(alerts, result) by {
        UpsertKeepsStamped(alerts, incoming);
        UpsertNeverReplaces(alerts, incoming);
      }
      if |incoming| == 0 {
        assert !AnyChange(alerts, incoming);
        return;
      }
      var merged := alerts;
      var changed := false;
      var i := 0;
      while i < |incoming|
        invariant 0 <= i <= |incoming|
        invariant MergeAll(merged, incoming[i..]) == MergeAll(alerts, incoming)
        invariant (changed || AnyChange(merged, incoming[i..])) == AnyChange(alerts, incoming)
        modifies {}
      {
        var alert := incoming[i];
        MergeStep(merged, incoming, i);
        ghost var next := UpsertOne(merged, alert);
        ghost var changedBefore, changes := changed, Changes(merged, alert);
        var k := IndexOf(merged, alert.id);
        if k < 0 {
          merged := merged + [alert];
          changed := true;
        } else if merged[k].timestamp != alert.timestamp {
          merged := merged[k := alert];
          changed := true;
        }
        assert merged == next;
        assert changed == (changedBefore || changes);
        i := i + 1;
      }
      assert incoming[i..] == [];
      assert merged == MergeAll(alerts, incoming);
      assert changed == AnyChange(alerts, incoming);
      UpsertKeepsWellFormed(alerts, incoming);
      if !changed {
        return;
      }
      var sorted := SortNewestFirst(merged);
      alerts := sorted[..Min(|sorted|, MAX_ALERTS)];
    }

    /** The status effect: a status equal to the last one seen derives
        nothing; any other adds its connection alert. */
    method OnStatus(status: SocketStatus, nowMs: int)
      requires Valid()
      modifies this
      ensures Valid()
      ensures lastStatus == Some(status) && lastSignature == old(lastSignature)
      ensures old(lastStatus) == Some(status) ==> alerts == old(alerts)
      ensures old(lastStatus) != Some(status) ==>
        alerts == UpsertResult(old(alerts), [ConnectionAlert(status, nowMs)])
      ensures KeepsStored(old(alerts), alerts)
    {
      if lastStatus == Some(status) {
        return;
      }
      var alert := ConnectionAlert(status, nowMs);
      assert AllStamped([alert]);
      lastStatus := Some(status);
      Upsert([alert]);
    }

    /** The message effect: no message, or one whose signature equals the
        last one seen, derives nothing; otherwise its alerts are upserted. */
    method OnLastMessage(last: Option<AIMessage>)
      requires Valid()
      modifies this
      ensures Valid()
      ensures lastStatus == old(lastStatus)
      ensures last.None? || old(lastSignature) == Some(SignatureOf(last.value)) ==>
        alerts == old(alerts) && lastSignature == old(lastSignature)
      ensures last.Some? && old(lastSignature) != Some(SignatureOf(last.value)) ==>
        lastSignature == Some(SignatureOf(last.value)) && alerts == UpsertResult(old(alerts), MessageAlerts(last.value))
      ensures KeepsStored(old(alerts), alerts)
    {
      if last.None? {
        return;
      }
      var signature := SignatureOf(last.value);
      if lastSignature == Some(signature) {
        return;
      }
      lastSignature := Some(signature);
      var derived := BuildAlertsFromMessage(last.value);
      DerivedAlertsStamped(last.value, Disconnected, 0);
      Upsert(derived);
    }
  }

  /** A status reported again a second later derives nothing, although
      its connection alert would carry a new id: after "disconnected" twice
      the list holds one alert. */
  method RepeatedStatusScenario() returns (count: nat)
    ensures count == 1
  {
    var d := new AlertDeriver();
    d.OnStatus(Disconnected, 1000);
    UpsertNewAlert([], ConnectionAlert(Disconnected, 1000));
    assert |d.alerts| == |multiset(d.alerts)| == 1;
    d.OnStatus(Disconnected, 2000);
    count := |d.alerts|;
  }
}
