/** The `__main__` block: send the startup notice, then forever authenticate
    and monitor, recovering from every error by re-authenticating. The loop
    is a state machine driven one call at a time; every `time.sleep` and
    every notification sent is appended to a log instead of being performed. */
module MainLoop {
  import opened Common
  import opened Notification
  import opened Monitor
  import opened Authentication

  /** Seconds slept between two polls, after a rate-limited poll, and after a
      failed authentication. */
  const PollInterval := 60
  const RateLimitPause := 60
  const ReconnectPause := 60

  /** Where the loop is: about to call `authenticate_with_retries`, inside
      the monitoring loop with a client, or stopped because the startup
      notice could not be sent. */
  datatype Phase = Authenticating | Monitoring | Halted

  /** What the process does that the outside world can observe. */
  datatype Effect = Notify(message: Message) | Sleep(seconds: int)

  function SleepsOf(durations: seq<int>): seq<Effect> {
    seq(|durations|, i requires 0 <= i < |durations| => Sleep(durations[i]))
  }

  function NotifiesOf(sent: Option<Message>): seq<Effect> {
    if sent.Some? then [Notify(sent.value)] else []
  }

  /** The alert times of one direction, in the order the alerts were sent. */
  ghost predicate Spaced(times: seq<int>) {
    forall i, j :: 0 <= i < j < |times| ==> times[j] - times[i] > SuppressionWindow
  }

  function Latest(times: seq<int>): Option<int> {
    if times == [] then None else Some(times[|times| - 1])
  }

  predicate IsLowAlert(sent: Option<Message>) {
    sent.Some? && sent.value.text.LowGlucose?
  }

  predicate IsHighAlert(sent: Option<Message>) {
    sent.Some? && sent.value.text.HighGlucose?
  }

  class Controller {
    var phase: Phase
    var lastLow: Option<int>
    var lastHigh: Option<int>
    /** The number of successful authentications; it names the current client. */
    var sessions: nat
    var log: seq<Effect>
    /** The times of the low and high alerts sent with the current client. */
    ghost var lowTimes: seq<int>
    ghost var highTimes: seq<int>

    /** Within one client's lifetime the alert times of each direction are
        more than ten minutes apart, and the last-alert variables hold the
        latest of them. */
    ghost predicate Valid()
      reads this
    {
      && Spaced(lowTimes) && Spaced(highTimes)
      && lastLow == Latest(lowTimes) && lastHigh == Latest(highTimes)
    }

    function Alerts(): AlertState
      reads this
    {
      AlertState(lastLow, lastHigh)
    }

    /** Startup: send the priority-1 notice; if that raises, the process ends. */
    constructor (startup: Delivery)
      ensures Valid()
      ensures sessions == 0 && Alerts() == NoAlerts && lowTimes == [] && highTimes == []
      ensures startup.Delivered? ==> phase == Authenticating && log == [Notify(StartupNotice())]
      ensures startup.SendFailed? ==> phase == Halted && log == []
    {
      lastLow, lastHigh := None, None;
      sessions := 0;
      lowTimes, highTimes := [], [];
      if startup.Delivered? {
        phase := Authenticating;
        log := [Notify(StartupNotice())];
      } else {
        phase := Halted;
        log := [];
      }
    }

    /** One pass of the outer loop: call `authenticate_with_retries`; on
        success start monitoring with fresh alert times, on any failure pause
        and stay in the outer loop. */
    method Authenticate(outcome: nat -> Attempt)
      requires Valid() && phase.Authenticating?
      modifies this
      ensures Valid()
      ensures var report := AuthRun(outcome, MaxRetries);
        if report.result.Authenticated? then
          && phase == Monitoring && sessions == old(sessions) + 1
          && Alerts() == NoAlerts && lowTimes == [] && highTimes == []
          && log == old(log) + SleepsOf(report.sleeps)
        else
          && phase == Authenticating && sessions == old(sessions)
          && Alerts() == old(Alerts()) && lowTimes == old(lowTimes) && highTimes == old(highTimes)
          && log == old(log) + SleepsOf(report.sleeps) + [Sleep(ReconnectPause)]
    {
      var report := AuthenticateWithRetries(outcome);
      log := log + SleepsOf(report.sleeps);
      if report.result.Authenticated? {
        sessions := sessions + 1;
        lastLow, lastHigh := None, None;
        lowTimes, highTimes := [], [];
        phase := Monitoring;
      } else {
        log := log + [Sleep(ReconnectPause)];
      }
    }

    /** One pass of the inner loop: call `monitor_glucose` with the current
        client. A 429 keeps the client and pauses (then the loop's own pause
        follows). An HTTP error without a response makes the status lookup
        itself fail; that error escapes to the outer loop, which pauses
        before re-authenticating. Any other error leaves the inner loop and
        re-authenticates at once. */
    method Poll(fetch: Fetch, now: int, delivery: Delivery)
      requires Valid() && phase.Monitoring?
      modifies this
      ensures Valid()
      ensures sessions == old(sessions)
      ensures match MonitorGlucose(fetch, now, old(Alerts()), delivery)
        case Returned(alerts, sent) =>
          && phase == Monitoring && Alerts() == alerts
          && lowTimes == old(lowTimes) + (if IsLowAlert(sent) then [now] else [])
          && highTimes == old(highTimes) + (if IsHighAlert(sent) then [now] else [])
          && log == old(log) + NotifiesOf(sent) + [Sleep(PollInterval)]
        case Raised(f) =>
          && Alerts() == old(Alerts()) && lowTimes == old(lowTimes) && highTimes == old(highTimes)
          && (if IsRateLimited(f) then
                phase == Monitoring && log == old(log) + [Sleep(RateLimitPause), Sleep(PollInterval)]
              else if HasNoResponse(f) then
                phase == Authenticating && log == old(log) + [Sleep(ReconnectPause)]
              else
                phase == Authenticating && log == old(log))
    {
      var r := MonitorGlucose(fetch, now, Alerts(), delivery);
      match r
      case Returned(alerts, sent) =>
        if IsLowAlert(sent) {
          SpacedExtend(lowTimes, now);
          lowTimes := lowTimes + [now];
        }
        if IsHighAlert(sent) {
          SpacedExtend(highTimes, now);
          highTimes := highTimes + [now];
        }
        lastLow, lastHigh := alerts.lastLow, alerts.lastHigh;
        log := log + NotifiesOf(sent) + [Sleep(PollInterval)];
      case Raised(f) =>
        if IsRateLimited(f) {
          log := log + [Sleep(RateLimitPause), Sleep(PollInterval)];
        } else if HasNoResponse(f) {
          // the status lookup fails inside the handler; the outer handler
          // catches that error and pauses before logging in again
          log := log + [Sleep(ReconnectPause)];
          phase := Authenticating;
        } else {
          phase := Authenticating;
        }
    }
  }

  /** Appending a time whose window was open keeps the times spaced. */
  lemma SpacedExtend(times: seq<int>, now: int)
    requires Spaced(times) && WindowOpen(Latest(times), now)
    ensures Spaced(times + [now])
  {
  }
}
