/** One call of `monitor_glucose`: read the first patient's current glucose
    value and decide whether to notify, with a separate ten-minute
    suppression window for low and for high alerts. */
module Monitor {
  import opened Common
  import opened Notification

  /** Thresholds in mmol/L; both bounds are exclusive. */
  const LowThreshold: real := 4.0
  const HighThreshold: real := 12.0

  /** Ten minutes, in seconds. */
  const SuppressionWindow := 600

  /** The two last-alert times (seconds on the injected clock). */
  datatype AlertState = AlertState(lastLow: Option<int>, lastHigh: Option<int>)

  const NoAlerts := AlertState(None, None)

  /** What the glucose cloud client answers: an empty patient list, the first
      patient's current value, or an exception from either call. */
  datatype Fetch = NoPatients | Reading(value: real) | FetchFailed(fault: Fault)

  /** What the push-notification client does when asked to send. */
  datatype Delivery = Delivered | SendFailed(fault: Fault)

  /** The call returns the new alert times (and the message it sent, if any),
      or it raises. */
  datatype MonitorResult = Returned(alerts: AlertState, sent: Option<Message>) | Raised(fault: Fault)

  /** An alert in one direction may be sent when there was none before, or
      when strictly more than ten minutes have passed since the last one. */
  predicate WindowOpen(last: Option<int>, now: int) {
    last.None? || now - last.value > SuppressionWindow
  }

  /** Send `m`; the timestamp is recorded only once the send has returned. */
  function Send(m: Message, after: AlertState, delivery: Delivery): MonitorResult {
    match delivery
    case Delivered => Returned(after, Some(m))
    case SendFailed(f) => Raised(f)
  }

  function MonitorGlucose(fetch: Fetch, now: int, alerts: AlertState, delivery: Delivery): (r: MonitorResult)
    // a timestamp only ever moves to `now`, and only when its window was open
    ensures r.Returned? ==>
      r.alerts.lastLow == alerts.lastLow || (r.alerts.lastLow == Some(now) && WindowOpen(alerts.lastLow, now))
    ensures r.Returned? ==>
      r.alerts.lastHigh == alerts.lastHigh || (r.alerts.lastHigh == Some(now) && WindowOpen(alerts.lastHigh, now))
    // one call moves at most one of the two timestamps
    ensures r.Returned? ==> r.alerts.lastLow == alerts.lastLow || r.alerts.lastHigh == alerts.lastHigh
    // the state changes exactly when a message was sent
    ensures r.Returned? ==> (r.sent.None? <==> r.alerts == alerts)
    // what can be sent: a low alert at emergency priority or a high alert
    ensures r.Returned? && r.sent.Some? ==>
      fetch.Reading? && r.sent.value == MessageFor(r.sent.value.text) && !r.sent.value.text.ProcessStarted?
    // the only faults are those of the two clients
    ensures r.Raised? ==>
      (fetch.FetchFailed? && r.fault == fetch.fault) || (fetch.Reading? && delivery == SendFailed(r.fault))
  {
    match fetch
    case FetchFailed(f) => Raised(f)
    case NoPatients => Returned(alerts, None)
    case Reading(v) =>
      if v < LowThreshold then
        if WindowOpen(alerts.lastLow, now) then Send(LowAlert(v), alerts.(lastLow := Some(now)), delivery)
        else Returned(alerts, None)
      else if v > HighThreshold then
        if WindowOpen(alerts.lastHigh, now) then Send(HighAlert(v), alerts.(lastHigh := Some(now)), delivery)
        else Returned(alerts, None)
      else
        Returned(alerts, None)
  }

  /** A reading strictly below 4.0 takes the low path: a low alert goes out
      exactly when the low window is open and the send succeeds; the high
      timestamp is never touched. */
  lemma LowReadingRule(v: real, now: int, alerts: AlertState, delivery: Delivery)
    requires v < LowThreshold
    ensures var r := MonitorGlucose(Reading(v), now, alerts, delivery);
      && ((r.Returned? && r.sent.Some?) <==> (WindowOpen(alerts.lastLow, now) && delivery.Delivered?))
      && (r.Returned? && r.sent.Some? ==> r.sent == Some(LowAlert(v)) && r.alerts == AlertState(Some(now), alerts.lastHigh))
      && (!WindowOpen(alerts.lastLow, now) ==> r == Returned(alerts, None))
      && (WindowOpen(alerts.lastLow, now) && delivery.SendFailed? ==> r == Raised(delivery.fault))
      && (r.Returned? ==> r.alerts.lastHigh == alerts.lastHigh)
  {
  }

  /** A reading strictly above 12.0 takes the high path, symmetrically, and
      never touches the low timestamp. */
  lemma HighReadingRule(v: real, now: int, alerts: AlertState, delivery: Delivery)
    requires v > HighThreshold
    ensures var r := MonitorGlucose(Reading(v), now, alerts, delivery);
      && ((r.Returned? && r.sent.Some?) <==> (WindowOpen(alerts.lastHigh, now) && delivery.Delivered?))
      && (r.Returned? && r.sent.Some? ==> r.sent == Some(HighAlert(v)) && r.alerts == AlertState(alerts.lastLow, Some(now)))
      && (!WindowOpen(alerts.lastHigh, now) ==> r == Returned(alerts, None))
      && (WindowOpen(alerts.lastHigh, now) && delivery.SendFailed? ==> r == Raised(delivery.fault))
      && (r.Returned? ==> r.alerts.lastLow == alerts.lastLow)
  {
  }

  /** Everything from 4.0 to 12.0, both included, is normal: nothing is sent
      and nothing changes, whatever the alert history. */
  lemma NormalReadingRule(v: real, now: int, alerts: AlertState, delivery: Delivery)
    requires LowThreshold <= v <= HighThreshold
    ensures MonitorGlucose(Reading(v), now, alerts, delivery) == Returned(alerts, None)
  {
  }

  /** The thresholds themselves are normal readings. */
  lemma ThresholdsAreNormal(now: int, alerts: AlertState, delivery: Delivery)
    ensures MonitorGlucose(Reading(4.0), now, alerts, delivery) == Returned(alerts, None)
    ensures MonitorGlucose(Reading(12.0), now, alerts, delivery) == Returned(alerts, None)
  {
  }

  /** An empty patient list sends nothing and returns both times unchanged;
      a failing fetch raises and updates nothing. */
  lemma FetchRule(now: int, alerts: AlertState, delivery: Delivery, f: Fault)
    ensures MonitorGlucose(NoPatients, now, alerts, delivery) == Returned(alerts, None)
    ensures MonitorGlucose(FetchFailed(f), now, alerts, delivery) == Raised(f)
  {
  }

  /** The window comparison is strict: exactly ten minutes later is still
      suppressed, one second more is not; nine minutes is suppressed and
      eleven minutes is not. */
  lemma WindowBoundary(t: int)
    ensures !WindowOpen(Some(t), t + 600) && WindowOpen(Some(t), t + 601)
    ensures !WindowOpen(Some(t), t + 9 * 60) && WindowOpen(Some(t), t + 11 * 60)
  {
  }

  /** A low alert sent at `t` suppresses a low reading at `t + 540` but not at
      `t + 660`. */
  lemma LowSuppressionScenario(t: int, v: real, w: real, high: Option<int>)
    requires v < LowThreshold && w < LowThreshold
    ensures MonitorGlucose(Reading(v), t, AlertState(None, high), Delivered)
         == Returned(AlertState(Some(t), high), Some(LowAlert(v)))
    ensures MonitorGlucose(Reading(w), t + 540, AlertState(Some(t), high), Delivered)
         == Returned(AlertState(Some(t), high), None)
    ensures MonitorGlucose(Reading(w), t + 660, AlertState(Some(t), high), Delivered)
         == Returned(AlertState(Some(t + 660), high), Some(LowAlert(w)))
  {
  }

  /** The two directions are independent: what the low path does does not
      depend on the last high-alert time, and vice versa. In particular a
      recent high alert never suppresses a low alert. */
  lemma DirectionsIndependent(v: real, now: int, low: Option<int>, high: Option<int>, low': Option<int>, high': Option<int>, delivery: Delivery)
    ensures v < LowThreshold ==>
      var r, r' := MonitorGlucose(Reading(v), now, AlertState(low, high), delivery),
                   MonitorGlucose(Reading(v), now, AlertState(low, high'), delivery);
      && r.Raised? == r'.Raised?
      && (r.Returned? ==> r.sent == r'.sent && r.alerts.lastLow == r'.alerts.lastLow)
    ensures v > HighThreshold ==>
      var r, r' := MonitorGlucose(Reading(v), now, AlertState(low, high), delivery),
                   MonitorGlucose(Reading(v), now, AlertState(low', high), delivery);
      && r.Raised? == r'.Raised?
      && (r.Returned? ==> r.sent == r'.sent && r.alerts.lastHigh == r'.alerts.lastHigh)
  {
  }
}
