/** The real-time alert monitor: a newest-first list of at most 20 alerts, fed by a
    3-second interval, with acknowledge, clear-all and unacknowledged counts. */
module Alerts {
  import opened Common

  datatype AlertType = Critical | Warning | Info

  datatype Alert = Alert(id: string, kind: AlertType, title: string, message: string,
                         timestamp: int, source: string, acknowledged: bool,
                         value: int, threshold: int)

  /** The random numbers one `generateAlert` call draws (each from `Math.random()`, in [0, 1)),
      plus its random id and the clock reading. */
  datatype Draws = Draws(forType: real, forSource: real, forMessage: real, forValue: real,
                         id: string, timestamp: int)
  {
    predicate Valid() {
      && 0.0 <= forType < 1.0 && 0.0 <= forSource < 1.0
      && 0.0 <= forMessage < 1.0 && 0.0 <= forValue < 1.0
    }
  }

  const Sources: seq<string> := ["数据库", "API网关", "缓存服务", "消息队列", "AI模型", "用户系统"]

  function Messages(kind: AlertType): (r: seq<string>)
    ensures |r| == 4
  {
    match kind
    case Critical => ["服务器响应超时", "数据库连接失败", "内存使用率超过90%", "API错误率过高"]
    case Warning => ["CPU使用率偏高", "磁盘空间不足", "网络延迟增加", "缓存命中率下降"]
    case Info => ["系统更新完成", "备份任务成功", "新用户注册", "数据同步完成"]
  }

  /** `Math.floor(r * n)` for r in [0, 1): an index into a list of n items. */
  function Pick(r: real, n: nat): (k: nat)
    requires 0.0 <= r < 1.0 && n > 0
    ensures k < n
  {
    var f := (r * (n as real)).Floor;
    assert (f as real) <= r * (n as real) < (n as real);
    f
  }

  /** The threshold shown with an alert: the more severe the type, the higher it is. */
  function Threshold(kind: AlertType): (r: int)
    ensures 50 <= r <= 90
    ensures r == 90 <==> kind == Critical
    ensures r == 75 <==> kind == Warning
    ensures r == 50 <==> kind == Info
  {
    match kind
    case Critical => 90
    case Warning => 75
    case Info => 50
  }

  function TitleSuffix(kind: AlertType): string {
    match kind
    case Critical => "严重告警"
    case Warning => "警告"
    case Info => "信息"
  }

  /** `generateAlert()`: a new, unacknowledged alert whose threshold follows its type. */
  function GenerateAlert(d: Draws): (a: Alert)
    requires d.Valid()
    ensures !a.acknowledged
    ensures a.threshold == 90 || a.threshold == 75 || a.threshold == 50
    ensures a.kind == Critical <==> a.threshold == 90
    ensures a.kind == Warning <==> a.threshold == 75
    ensures 0 <= a.value < 100
    ensures a.source in Sources && a.message in Messages(a.kind)
    ensures a.title == a.source + TitleSuffix(a.kind)
  {
    var kind := [Critical, Warning, Info][Pick(d.forType, 3)];
    var source := Sources[Pick(d.forSource, |Sources|)];
    var message := Messages(kind)[Pick(d.forMessage, 4)];
    Alert(d.id, kind, source + TitleSuffix(kind), message, d.timestamp, source, false,
          Pick(d.forValue, 100), Threshold(kind))
  }

  const Capacity: nat := 20

  /** `[newAlert, ...prev.slice(0, 19)]`. */
  function Prepended(a: Alert, prev: seq<Alert>): (r: seq<Alert>)
    ensures |r| == MinInt(Capacity, |prev| + 1)
    ensures r[0] == a
    ensures r[1..] == prev[..|r| - 1]
  {
    [a] + prev[..MinInt(Capacity - 1, |prev|)]
  }

  /** A list that fits keeps every alert behind the new one; a full list loses its oldest. */
  lemma PrependKeepsOrDropsOldest(a: Alert, prev: seq<Alert>)
    ensures |prev| < Capacity ==> Prepended(a, prev) == [a] + prev
    ensures |prev| >= Capacity ==> Prepended(a, prev) == [a] + prev[..Capacity - 1]
  {
    var r := Prepended(a, prev);
    assert r == [r[0]] + r[1..];
    if |prev| < Capacity {
      assert prev[..|prev|] == prev;
    }
  }

  /** `prev.map(alert => alert.id === alertId ? { ...alert, acknowledged: true } : alert)`. */
  function Acknowledged(alerts: seq<Alert>, alertId: string): (r: seq<Alert>)
    ensures |r| == |alerts|
    ensures forall k :: 0 <= k < |r| ==>
              && r[k].(acknowledged := false) == alerts[k].(acknowledged := false)
              && r[k].acknowledged == (alerts[k].acknowledged || alerts[k].id == alertId)
  {
    seq(|alerts|, k requires 0 <= k < |alerts| =>
      if alerts[k].id == alertId then alerts[k].(acknowledged := true) else alerts[k])
  }

  /** Acknowledging twice is acknowledging once. */
  lemma AcknowledgeIdempotent(alerts: seq<Alert>, alertId: string)
    ensures Acknowledged(Acknowledged(alerts, alertId), alertId) == Acknowledged(alerts, alertId)
  {
    var once := Acknowledged(alerts, alertId);
    var twice := Acknowledged(once, alertId);
    forall k | 0 <= k < |once| ensures twice[k] == once[k] {
      assert twice[k].(acknowledged := false) == once[k].(acknowledged := false);
    }
  }

  /** Alerts with another id are untouched. */
  lemma AcknowledgeOthersUnchanged(alerts: seq<Alert>, alertId: string, k: nat)
    requires k < |alerts| && alerts[k].id != alertId
    ensures Acknowledged(alerts, alertId)[k] == alerts[k]
  {
    var r := Acknowledged(alerts, alertId);
    assert r[k].(acknowledged := false) == alerts[k].(acknowledged := false);
  }

  /** An alert counts towards the badge of `kind` while it is of that type and unacknowledged. */
  predicate IsOpen(kind: AlertType, a: Alert)
  {
    a.kind == kind && !a.acknowledged
  }

  /** The `filter` test of one badge. */
  function OpenTest(kind: AlertType): Alert -> bool
  {
    a => IsOpen(kind, a)
  }

  /** The number of unacknowledged alerts of one type (`criticalCount`, `warningCount`). */
  function OpenCount(alerts: seq<Alert>, kind: AlertType): (n: nat)
    ensures n <= |alerts|
  {
    CountWhere(alerts, OpenTest(kind))
  }

  /** A badge counts the positions of the list whose alert is open for it. */
  lemma OpenCountIndices(alerts: seq<Alert>, kind: AlertType)
    ensures OpenCount(alerts, kind) == |set k | 0 <= k < |alerts| && IsOpen(kind, alerts[k])|
  {
    CountWhereIndices(alerts, OpenTest(kind));
    assert Positions(alerts, OpenTest(kind)) == set k | 0 <= k < |alerts| && IsOpen(kind, alerts[k]);
  }

  /** Appending one alert adds one to a count exactly when that alert is open. */
  lemma OpenCountSnoc(init: seq<Alert>, a: Alert, kind: AlertType)
    ensures OpenCount(init + [a], kind) == OpenCount(init, kind) + (if IsOpen(kind, a) then 1 else 0)
  {
    CountWhereConcat(init, [a], OpenTest(kind));
    CountWhereSingle(a, OpenTest(kind));
  }

  /** The two badges never count more alerts than the list holds. */
  lemma {:induction false} BadgeCountsBounded(alerts: seq<Alert>)
    ensures OpenCount(alerts, Critical) + OpenCount(alerts, Warning) <= |alerts|
  {
    if alerts != [] {
      var init := alerts[..|alerts| - 1];
      BadgeCountsBounded(init);
      assert alerts == init + [alerts[|alerts| - 1]];
      OpenCountSnoc(init, alerts[|alerts| - 1], Critical);
      OpenCountSnoc(init, alerts[|alerts| - 1], Warning);
    }
  }

  /** Acknowledging never raises a count, and leaves nothing with that id to confirm. */
  lemma {:induction false} AcknowledgeLowersCounts(alerts: seq<Alert>, alertId: string, kind: AlertType)
    ensures OpenCount(Acknowledged(alerts, alertId), kind) <= OpenCount(alerts, kind)
    ensures forall k :: 0 <= k < |alerts| && alerts[k].id == alertId ==>
              !ShowsConfirm(Acknowledged(alerts, alertId)[k])
  {
    if alerts != [] {
      var n := |alerts| - 1;
      var init := alerts[..n];
      var acked := Acknowledged(alerts, alertId);
      AcknowledgeLowersCounts(init, alertId, kind);
      assert acked[..n] == Acknowledged(init, alertId);
      assert alerts == init + [alerts[n]];
      assert acked == acked[..n] + [acked[n]];
      OpenCountSnoc(init, alerts[n], kind);
      OpenCountSnoc(acked[..n], acked[n], kind);
    }
  }

  /** The confirm button is shown for an alert exactly while it is unacknowledged, that is,
      exactly while the alert counts towards the badge of its type. */
  predicate ShowsConfirm(a: Alert)
    ensures ShowsConfirm(a) <==> OpenCount([a], a.kind) == 1
  {
    OpenCountSnoc([], a, a.kind);
    assert [] + [a] == [a];
    !a.acknowledged
  }

  const InitialCount: nat := 5

  class AlertMonitor {
    var alerts: seq<Alert>
    var soundEnabled: bool
    /** Starts true; the component has no control that changes it. */
    var autoRefresh: bool

    ghost predicate Valid()
      reads this
    {
      |alerts| <= Capacity
    }

    /** Mounting runs the effect: five generated alerts. */
    constructor (initial: seq<Draws>)
      requires |initial| == InitialCount
      requires forall k :: 0 <= k < |initial| ==> initial[k].Valid()
      ensures Valid()
      ensures soundEnabled && autoRefresh
      ensures |alerts| == InitialCount
      ensures forall k :: 0 <= k < |alerts| ==> alerts[k] == GenerateAlert(initial[k])
    {
      soundEnabled := true;
      autoRefresh := true;
      alerts := seq(|initial|, k requires 0 <= k < |initial| => GenerateAlert(initial[k]));
    }

    /** One firing of the 3-second interval. `chance` is its `Math.random()`; an alert is added
        only while auto-refresh is on and `chance > 0.7`. `alarm` reports whether the critical
        alert sound would be played. */
    method IntervalTick(chance: real, d: Draws) returns (alarm: bool)
      requires Valid() && d.Valid()
      modifies this`alerts
      ensures Valid()
      ensures autoRefresh && chance > 0.7 ==> alerts == Prepended(GenerateAlert(d), old(alerts))
      ensures !(autoRefresh && chance > 0.7) ==> alerts == old(alerts)
      ensures alarm <==> autoRefresh && chance > 0.7 && soundEnabled && GenerateAlert(d).kind == Critical
    {
      alarm := false;
      if autoRefresh && chance > 0.7 {
        var newAlert := GenerateAlert(d);
        alerts := [newAlert] + alerts[..MinInt(19, |alerts|)];
        alarm := soundEnabled && newAlert.kind == Critical;
      }
    }

    method Acknowledge(alertId: string)
      requires Valid()
      modifies this`alerts
      ensures Valid()
      ensures alerts == Acknowledged(old(alerts), alertId)
    {
      alerts := Acknowledged(alerts, alertId);
    }

    method ClearAll()
      modifies this`alerts
      ensures Valid()
      ensures alerts == []
    {
      alerts := [];
    }

    /** The sound toggle. The effect depends on `soundEnabled`, so it runs again and replaces
        the list with five new alerts. */
    method ToggleSound(draws: seq<Draws>)
      requires |draws| == InitialCount
      requires forall k :: 0 <= k < |draws| ==> draws[k].Valid()
      modifies this`soundEnabled, this`alerts
      ensures Valid()
      ensures soundEnabled == !old(soundEnabled)
      ensures |alerts| == InitialCount
      ensures forall k :: 0 <= k < |alerts| ==> alerts[k] == GenerateAlert(draws[k])
    {
      soundEnabled := !soundEnabled;
      alerts := seq(|draws|, k requires 0 <= k < |draws| => GenerateAlert(draws[k]));
    }

    function CriticalCount(): (n: nat)
      reads this
      ensures n <= |alerts|
    {
      OpenCount(alerts, Critical)
    }

    function WarningCount(): (n: nat)
      reads this
      ensures n <= |alerts|
    {
      OpenCount(alerts, Warning)
    }
  }
}
