/**
 * The bot's counters (`MonitoringService`): scanned, valid, executed,
 * successful and failed opportunities, the time of the last opportunity, and
 * a periodic metrics log driven by a timer.
 */
module MonitoringService {
  import opened Common

  /** The `metrics` record. `lastOpportunityTime` is `null` until set. */
  datatype Metrics = Metrics(
    scannedOpportunities: nat, validOpportunities: nat, executedTrades: nat,
    successfulTrades: nat, failedTrades: nat, lastOpportunityTime: Option<int>,
    averageExecutionTime: real, profitablePositions: nat)

  /** The constructor's record: every counter 0, no last opportunity. */
  const InitialMetrics: Metrics := Metrics(0, 0, 0, 0, 0, None, 0.0, 0)

  /** What `getMetrics` means to return: the metrics, a win rate and the recent alerts. */
  datatype MetricsView = MetricsView(metrics: Metrics, winRate: real, recentAlerts: seq<string>)

  /** `successfulTrades / executedTrades * 100`, or 0 before any execution. */
  function WinRate(m: Metrics): real
  {
    if m.executedTrades > 0 then (m.successfulTrades as real / m.executedTrades as real) * 100.0 else 0.0
  }

  /**
   * The win rate is 0 before any execution or without a success, and lies in
   * [0, 100] whenever no more trades succeeded than were executed.
   */
  lemma WinRateRange(m: Metrics)
    ensures WinRate(m) >= 0.0
    ensures WinRate(m) == 0.0 <==> m.executedTrades == 0 || m.successfulTrades == 0
    ensures m.successfulTrades <= m.executedTrades ==> WinRate(m) <= 100.0
    ensures m.executedTrades > 0 && m.successfulTrades == m.executedTrades ==> WinRate(m) == 100.0
  {
    if m.executedTrades > 0 {
      var s := m.successfulTrades as real;
      var e := m.executedTrades as real;
      assert s / e >= 0.0;
      if m.successfulTrades <= m.executedTrades {
        assert s / e <= 1.0;
      }
      if s > 0.0 {
        assert s / e > 0.0;
      }
    }
  }

  /** The error `getMetrics` throws: `getRecentAlerts` is not a method of the class. */
  const MissingAlertsError: string := "this.getRecentAlerts is not a function"

  /** `getMetrics` as written: building the record calls a method that does not exist. */
  function GetMetricsAsWritten(m: Metrics, alerts: seq<string>): (r: Result<MetricsView, string>)
    ensures r.Err?
  {
    Err(MissingAlertsError)
  }

  /**
   * Whatever the metrics and alerts, the call as written throws. This holds
   * by definition: the as-written call is the constant error, since the
   * missing method fails before any field is read.
   */
  lemma GetMetricsAsWrittenFails(m: Metrics, alerts: seq<string>)
    ensures GetMetricsAsWritten(m, alerts) == Err(MissingAlertsError)
    ensures GetMetricsAsWritten(InitialMetrics, []).Err?
  {
  }

  /** `getMetrics` with the alerts the service keeps as its recent alerts. */
  function GetMetricsWith(m: Metrics, alerts: seq<string>): MetricsView
  {
    MetricsView(m, WinRate(m), alerts)
  }

  /**
   * The snapshot copies every counter unchanged, carries the win rate and the
   * alerts; on the initial metrics the win rate is 0.
   */
  lemma GetMetricsWithCopies(m: Metrics, alerts: seq<string>)
    ensures GetMetricsWith(m, alerts).metrics == m
    ensures GetMetricsWith(m, alerts).recentAlerts == alerts
    ensures GetMetricsWith(m, alerts).winRate == WinRate(m)
    ensures GetMetricsWith(InitialMetrics, alerts).winRate == 0.0
  {
  }

  /**
   * The elapsed time `logMetrics` computes: `now - lastOpportunityTime` when
   * that time is truthy, otherwise `null` (a timestamp of 0 is falsy too).
   * `None` is that computed value, not the logged text: the log line tests
   * the gap for truthiness again, so a gap of 0 ms is also logged as
   * "No opportunities yet".
   */
  function TimeSinceLastOpportunity(m: Metrics, now: int): (r: Option<int>)
    ensures r.Some? ==> m.lastOpportunityTime.Some? && m.lastOpportunityTime.value != 0
    ensures r.Some? ==> r.value + m.lastOpportunityTime.value == now
  {
    if m.lastOpportunityTime.Some? && m.lastOpportunityTime.value != 0
    then Some(now - m.lastOpportunityTime.value) else None
  }

  /** The elapsed time is absent iff no opportunity time is recorded (or it is 0), and is the gap otherwise. */
  lemma TimeSinceIff(m: Metrics, now: int)
    ensures TimeSinceLastOpportunity(m, now).None? <==>
      m.lastOpportunityTime.None? || m.lastOpportunityTime == Some(0)
    ensures TimeSinceLastOpportunity(m, now).Some? ==>
      TimeSinceLastOpportunity(m, now).value + m.lastOpportunityTime.value == now
    ensures TimeSinceLastOpportunity(InitialMetrics, now).None?
  {
  }

  class MonitoringService {
    var metrics: Metrics
    var alerts: seq<string>
    var isRunning: bool
    /** The handle of the last `setInterval`, `null` before the first start. */
    var monitoringInterval: Option<nat>
    /** The intervals still firing. */
    var activeTimers: set<nat>
    /** The handle the next `setInterval` returns. */
    var nextTimer: nat

    /** Every timer handle handed out so far is below `nextTimer`. */
    predicate Valid()
      reads this
    {
      (forall t :: t in activeTimers ==> t < nextTimer)
      && (monitoringInterval.Some? ==> monitoringInterval.value < nextTimer)
    }

    constructor ()
      ensures Valid()
      ensures metrics == InitialMetrics && alerts == [] && !isRunning
      ensures monitoringInterval == None && activeTimers == {}
    {
      metrics := InitialMetrics;
      alerts := [];
      isRunning := false;
      monitoringInterval := None;
      activeTimers := {};
      nextTimer := 0;
    }

    /** `start`: runs and schedules a fresh metrics timer; a timer from an earlier start keeps firing. */
    method Start()
      requires Valid()
      modifies this
      ensures Valid()
      ensures isRunning && metrics == old(metrics) && alerts == old(alerts)
      ensures monitoringInterval == Some(old(nextTimer))
      ensures old(nextTimer) !in old(activeTimers)
      ensures activeTimers == old(activeTimers) + {old(nextTimer)}
    {
      isRunning := true;
      monitoringInterval := Some(nextTimer);
      activeTimers := activeTimers + {nextTimer};
      nextTimer := nextTimer + 1;
    }

    /** `stop`: clears the last scheduled timer only. */
    method Stop()
      requires Valid()
      modifies this
      ensures Valid()
      ensures !isRunning && metrics == old(metrics) && alerts == old(alerts)
      ensures monitoringInterval == old(monitoringInterval)
      ensures old(monitoringInterval).None? ==> activeTimers == old(activeTimers)
      ensures old(monitoringInterval).Some? ==> activeTimers == old(activeTimers) - {old(monitoringInterval).value}
    {
      isRunning := false;
      if monitoringInterval.Some? {
        activeTimers := activeTimers - {monitoringInterval.value};
      }
    }

    /** `getMetrics`, corrected to report the alerts the service keeps; nothing changes. */
    method GetMetrics() returns (view: MetricsView)
      ensures view == GetMetricsWith(metrics, alerts)
    {
      view := MetricsView(metrics, WinRate(metrics), alerts);
    }
  }

  /** Two starts and a stop leave the first start's timer still firing. */
  method StartTwiceLeaksTimer() returns (s: MonitoringService)
    ensures !s.isRunning && |s.activeTimers| == 1
  {
    s := new MonitoringService();
    s.Start();
    s.Start();
    s.Stop();
  }
}
