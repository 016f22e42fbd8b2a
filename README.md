# LibrePush in Dafny

LibrePush polls a continuous-glucose-monitoring cloud service (LibreLinkUp)
for the first patient's current glucose value and sends a Pushover
notification when the value is below 4.0 mmol/L or above 12.0 mmol/L. Each
direction has its own ten-minute suppression window. Logging in backs off
exponentially while the service answers HTTP 429, and a supervising loop
re-authenticates after errors and polls once a minute.

The model has five modules:

- `Common` (common.dfy): `Option`, and `Fault`, an exception from either
  remote client (an HTTP error with its status, or any other error).
- `Notification` (notification.dfy): `send_pushover_notification` as a
  function that builds the message record, plus the three messages the
  program sends.
- `Monitor` (monitor.dfy): `monitor_glucose` as a function. The input is
  what the cloud client answers (`Fetch`), the injected clock (integer
  seconds), the two last-alert times and what the push client does with a
  send (`Delivery`). The result is new alert times plus the message sent,
  or the fault that was raised.
- `Authentication` (authentication.dfy): `authenticate_with_retries`. It
  has a recursive specification `AuthRun` and a `while` loop method
  `AuthenticateWithRetries` proved equal to it. Attempt outcomes come from
  an oracle `outcome: nat -> Attempt`, so attempt `i` (0-based) does
  `outcome(i)`. The report holds how the call ended, the sleeps in order
  and the number of login attempts.
- `MainLoop` (main_loop.dfy): the `__main__` block as a class `Controller`.
  Its fields are the loop's variables: the phase (outer loop, inner loop,
  or halted after a failed startup notice), the two last-alert times, a
  counter of successful logins standing for the client, and a log of every
  notification sent and every sleep. `Authenticate` is one pass of the
  outer loop and `Poll` one pass of the inner loop. The object invariant
  `Valid` keeps ghost lists of the alert times sent with the current
  client. It states that within one client's lifetime the alerts of each
  direction are more than ten minutes apart.

Four behaviours of the code are easy to misread; the model follows the
code:

- The alert times are reset to none after every successful login
  (libre_pushover.py:107-111), not only at process start. A reconnect
  therefore forgets the suppression history: a low alert can go out again
  60 seconds after the previous one if a non-429 error forced a reconnect.
  See `MainLoop.Controller.Authenticate`.
- A non-429 error while monitoring leaves the inner loop with `break`. The
  outer `try` then completes normally, so the next login starts at once,
  without the 60 second pause of line 138. The exception is an HTTP error
  that has no response attached. Reading its status at line 124 raises a
  new error inside the handler. That error escapes the inner loop, is
  caught at line 136, and takes the 60 second pause before the next login.
  The same lookup at line 85 makes such an error escape the login loop at
  once without a sleep, like any other non-429 fault.
- A 429 while monitoring sleeps twice, 60 s at line 126 and 60 s at line
  134.
- The login loop also sleeps after the last rate-limited attempt, and only
  then raises the retry error.

## Model

| member | source | states |
|---|---|---|
| `Notification.BuildMessage` | libre_pushover.py:14-35 | The message keeps the caller's text, priority and sound and has title "LibrePush". Retry and expire are present iff the priority is 2, and are then 30 and 3600. Priority 0 and sound "default" are the defaults. |
| `Notification.AlertMessageFields` | libre_pushover.py:56-67 | A low alert is priority 2, sound "falling", retry 30, expire 3600. A high alert is priority 0, sound "default", no retry or expire. Each carries its reading. |
| `Notification.StartupNoticeFields` | libre_pushover.py:102 | The startup notice is priority 1, sound "falling", title "LibrePush", no retry or expire. |
| `Notification.EmergencyIffLowAlert` | libre_pushover.py:18-35 | Of the messages the program sends, a message has priority 2, and so carries retry and expire, iff it is a low-glucose alert. |
| `Monitor.MonitorGlucose` | libre_pushover.py:37-71 | Each timestamp either stays the same or becomes `now`, and only when its window was open. At most one timestamp moves per call. The state changes iff a message was sent. Only a reading can cause a send, and it sends a low or high alert. The only faults raised are the fetch's own or the send's own. |
| `Monitor.LowReadingRule` | libre_pushover.py:56-61 | For a reading below 4.0, a low alert is sent iff there is no previous low alert or more than 600 s have passed, and the send succeeds. The low time then becomes `now`. Under suppression nothing changes. A failing send raises without updating. The high time is never changed. |
| `Monitor.HighReadingRule` | libre_pushover.py:62-67 | The same rule for readings above 12.0, against the last high time. The low time is never changed. |
| `Monitor.NormalReadingRule` | libre_pushover.py:68-69 | Every reading from 4.0 to 12.0 inclusive sends nothing and returns the alert times unchanged. |
| `Monitor.ThresholdsAreNormal` | libre_pushover.py:48-50 | Exactly 4.0 and exactly 12.0 are normal readings. |
| `Monitor.FetchRule` | libre_pushover.py:39-45 | An empty patient list sends nothing and returns both times unchanged. A failing fetch raises its fault. |
| `Monitor.WindowBoundary` | libre_pushover.py:54-57 | The window comparison is strict: 600 s elapsed is suppressed and 601 s is not. 9 minutes is suppressed and 11 minutes is not. |
| `Monitor.LowSuppressionScenario` | libre_pushover.py:56-61 | A low alert at t sets the low time to t. A second low reading at t+540 is suppressed. One at t+660 is sent and moves the low time to t+660. |
| `Monitor.DirectionsIndependent` | libre_pushover.py:56-67 | On the low path, whether the call raises, what it sends and the new low time do not depend on the last high time. The same holds for the high path with the last low time. A recent alert in one direction never suppresses the other. |
| `Authentication.AuthenticateWithRetries` | libre_pushover.py:73-96 | The loop's report equals the specification `AuthRun`. Its i-th sleep is 5 * 2^i seconds; the loop keeps `backoff_time == 5 * 2^retry_attempts` as an invariant. |
| `Authentication.AuthFromShape` | libre_pushover.py:78-96 | From attempt k on, every sleep follows a rate-limited attempt, and attempts equal k + sleeps + 1 unless exhausted. Exhaustion happens exactly when the budget is used up. A client is returned only after a successful attempt. Only a non-429 fault is re-raised, and it is the fault of the last attempt. |
| `Authentication.AuthFromSchedule` | libre_pushover.py:86-89 | From attempt k on with next backoff b, the i-th sleep is b * 2^i. |
| `Authentication.BackoffSchedule` | libre_pushover.py:76-89 | The k-th sleep lasts 5 * 2^k s (5, 10, 20, 40, 80, ...), follows the k-th attempt, which was a 429, and at most `max_retries` sleeps happen. |
| `Authentication.ExhaustedIffAllRateLimited` | libre_pushover.py:78-96 | The call fails with the retry error iff the first `max_retries` attempts are all 429s. It then made exactly `max_retries` attempts and `max_retries` sleeps, the last sleep included. |
| `Authentication.NoBudgetNoAttempt` | libre_pushover.py:75-96 | With `max_retries <= 0` no attempt is made, nothing sleeps and the retry error is raised. |
| `Authentication.FirstNonRateLimitedAttemptDecides` | libre_pushover.py:80-94 | If attempts 0..k-1 were 429s and attempt k is within budget, attempt k ends the call after k+1 attempts and k sleeps. A success returns the client. Any other HTTP error or exception is re-raised at once. |
| `Authentication.TotalBackoff` | libre_pushover.py:76-89 | n backoff sleeps take 5 * (2^n - 1) s in total. With the default budget of 5, a run rate-limited throughout sleeps 155 s before failing. |
| `Authentication.GeometricTotal` | libre_pushover.py:89 | A schedule b, 2b, 4b, ... of n sleeps adds up to b * (2^n - 1). |
| `MainLoop.Controller.constructor` | libre_pushover.py:102 | Startup sends the priority-1 notice and enters the outer loop with no client and no alert times. If the send raises, the process stops (`Halted`) with nothing sent. |
| `MainLoop.Controller.Authenticate` | libre_pushover.py:104-138 | One `authenticate_with_retries` call logs its backoff sleeps. On success the loop monitors with a new client and both alert times reset to none, so a reconnect forgets suppression. On any failure it logs a 60 s sleep, stays in the outer loop and keeps everything else. |
| `MainLoop.Controller.Poll` | libre_pushover.py:113-138 | One `monitor_glucose` call with the current client. On return, the alert times become the call's result and the log gets the sent message, if any, then a 60 s sleep. The current client's alert history grows by `now` exactly when an alert of that direction was sent, and `Valid` keeps each direction's alerts more than 600 s apart. On a 429 the client and alert times are kept and the log gets 60 s then 60 s. An HTTP error without a response logs the outer loop's 60 s pause and goes back to authentication. Any other fault goes straight back to authentication with nothing logged. |
| `MainLoop.SpacedExtend` | libre_pushover.py:56-67 | Adding an alert time whose window was open to a list of alert times that are pairwise more than 600 s apart keeps them pairwise more than 600 s apart. |

## Left out

- Loading `config.json` and looking up its keys (libre_pushover.py:10-12,100) is file I/O and is not modelled. The user key and API token are not fields of the message record.
- The `PushoverAPI` and `PyLibreLinkUp` clients are third-party HTTP code. Their answers are inputs: `Fetch` and `Delivery` for a poll, the attempt oracle for a login. A send that raises counts as not sent.
- `get_patients` and `read` are one input. Either failing raises the same way, and only the first patient is read, as in the code.
- `time.sleep` is recorded as a logged duration. `datetime.now()` is an integer-second clock passed to each poll, independent of the logged sleeps. The code's `timedelta` has microsecond resolution, so this model cannot express elapsed times between whole seconds, such as 600.5 s.
- `print` logging and the formatting of the reading into the message text are left out. A message carries a tag (low, high, startup) and the reading.
- The reading is an exact `real`, not an IEEE double. Only the comparisons against 4.0 and 12.0 matter, and both are exact in binary floating point.
- The outer `while True` never ends. The model gives one pass per method; it makes no statements about infinite runs.
- Exceptions outside Python's `Exception` hierarchy (such as `KeyboardInterrupt`) would end the loops, and are not modelled.
