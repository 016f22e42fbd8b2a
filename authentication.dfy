/** `authenticate_with_retries`: log in to the glucose cloud, backing off
    exponentially while the service answers 429 (rate limited). */
module Authentication {
  import opened Common

  /** The default retry budget. */
  const MaxRetries := 5

  /** The first backoff in seconds; it doubles after every 429. */
  const InitialBackoff := 5

  /** The outcome of one login attempt. */
  datatype Attempt = Succeeded | Failed(fault: Fault)

  predicate RateLimitedAttempt(a: Attempt) {
    a.Failed? && IsRateLimited(a.fault)
  }

  /** How the call ends: with a client, by re-raising an attempt's fault, or
      with the "maximum retry attempts exceeded" error. */
  datatype AuthResult = Authenticated | Raised(fault: Fault) | Exhausted

  /** The end of the call, the sleeps it performed (in order) and how many
      login attempts it made. */
  datatype AuthReport = AuthReport(result: AuthResult, sleeps: seq<int>, attempts: nat)

  function Pow2(n: nat): (r: nat)
    ensures r >= 1
  {
    if n == 0 then 1 else 2 * Pow2(n - 1)
  }

  /** The i-th term of the schedule b, 2b, 4b, ... */
  function Scaled(b: int, i: nat): int {
    b * Pow2(i)
  }

  lemma ScaledStep(b: int, i: nat)
    ensures Scaled(b, i + 1) == Scaled(2 * b, i)
  {
    assert Pow2(i + 1) == 2 * Pow2(i);
    assert b * (2 * Pow2(i)) == (2 * b) * Pow2(i);
  }

  /** The backoff before the retry that follows the i-th rate-limited attempt. */
  function BackoffAt(i: nat): int {
    Scaled(InitialBackoff, i)
  }

  function Total(s: seq<int>): int {
    if s == [] then 0 else s[0] + Total(s[1..])
  }

  /** The rest of the call once `k` attempts were rate limited and the next
      backoff is `backoff`; `outcome(i)` is what attempt `i` (0-based) does. */
  function AuthFrom(outcome: nat -> Attempt, maxRetries: int, k: nat, backoff: int): AuthReport
    decreases maxRetries - k
  {
    if k >= maxRetries then AuthReport(Exhausted, [], k)
    else match outcome(k)
      case Succeeded => AuthReport(Authenticated, [], k + 1)
      case Failed(f) =>
        if IsRateLimited(f) then
          var rest := AuthFrom(outcome, maxRetries, k + 1, 2 * backoff);
          rest.(sleeps := [backoff] + rest.sleeps)
        else AuthReport(Raised(f), [], k + 1)
  }

  /** The whole call. */
  function AuthRun(outcome: nat -> Attempt, maxRetries: int): AuthReport {
    AuthFrom(outcome, maxRetries, 0, InitialBackoff)
  }

  /** The loop of the Python code, recording each `time.sleep` instead of
      performing it. */
  method AuthenticateWithRetries(outcome: nat -> Attempt, maxRetries: int := MaxRetries) returns (report: AuthReport)
    ensures report == AuthRun(outcome, maxRetries)
    ensures forall i :: 0 <= i < |report.sleeps| ==> report.sleeps[i] == BackoffAt(i)
  {
    var retryAttempts: nat := 0;
    var backoffTime := InitialBackoff;
    var slept: seq<int> := [];
    while retryAttempts < maxRetries
      invariant |slept| == retryAttempts
      invariant backoffTime == BackoffAt(retryAttempts)
      invariant forall i :: 0 <= i < |slept| ==> slept[i] == BackoffAt(i)
      invariant var rest := AuthFrom(outcome, maxRetries, retryAttempts, backoffTime);
        AuthRun(outcome, maxRetries) == rest.(sleeps := slept + rest.sleeps)
      decreases maxRetries - retryAttempts
    {
      match outcome(retryAttempts)
      case Succeeded =>
        report := AuthReport(Authenticated, slept, retryAttempts + 1);
        return;
      case Failed(f) =>
        if IsRateLimited(f) {
          ghost var rest := AuthFrom(outcome, maxRetries, retryAttempts + 1, 2 * backoffTime);
          assert AuthFrom(outcome, maxRetries, retryAttempts, backoffTime) == rest.(sleeps := [backoffTime] + rest.sleeps);
          assert slept + ([backoffTime] + rest.sleeps) == (slept + [backoffTime]) + rest.sleeps;
          assert backoffTime * 2 == BackoffAt(retryAttempts + 1);
          slept := slept + [backoffTime];
          retryAttempts := retryAttempts + 1;
          backoffTime := backoffTime * 2;
        } else {
          report := AuthReport(Raised(f), slept, retryAttempts + 1);
          return;
        }
    }
    report := AuthReport(Exhausted, slept, retryAttempts);
  }

  /** What the rest of the call does from attempt `k` on: every sleep
      follows a rate-limited attempt; the call makes one attempt per sleep
      plus the one that ended it; exhaustion happens when the budget is used
      up; a success or a non-429 fault ends it at once. */
  lemma {:induction false} AuthFromShape(outcome: nat -> Attempt, maxRetries: int, k: nat, backoff: int)
    ensures var r := AuthFrom(outcome, maxRetries, k, backoff);
      && (forall i :: k <= i < k + |r.sleeps| ==> RateLimitedAttempt(outcome(i)))
      && r.attempts == k + |r.sleeps| + (if r.result.Exhausted? then 0 else 1)
      && (r.result.Exhausted? ==> r.attempts == (if maxRetries > k then maxRetries else k))
      && (!r.result.Exhausted? ==> r.attempts <= maxRetries)
      && (r.result.Authenticated? ==> outcome(r.attempts - 1) == Succeeded)
      && (r.result.Raised? ==>
            outcome(r.attempts - 1) == Failed(r.result.fault) && !IsRateLimited(r.result.fault))
    decreases maxRetries - k
  {
    if k < maxRetries && RateLimitedAttempt(outcome(k)) {
      AuthFromShape(outcome, maxRetries, k + 1, 2 * backoff);
    }
  }

  /** From attempt `k` on with next backoff `b`, the i-th sleep is b * 2^i. */
  lemma {:induction false} AuthFromSchedule(outcome: nat -> Attempt, maxRetries: int, k: nat, backoff: int)
    ensures var r := AuthFrom(outcome, maxRetries, k, backoff);
      forall i :: 0 <= i < |r.sleeps| ==> r.sleeps[i] == Scaled(backoff, i)
    decreases maxRetries - k
  {
    if k < maxRetries && RateLimitedAttempt(outcome(k)) {
      AuthFromSchedule(outcome, maxRetries, k + 1, 2 * backoff);
      var rest := AuthFrom(outcome, maxRetries, k + 1, 2 * backoff);
      var r := AuthFrom(outcome, maxRetries, k, backoff);
      assert r.sleeps == [backoff] + rest.sleeps;
      forall i | 0 <= i < |r.sleeps| ensures r.sleeps[i] == Scaled(backoff, i) {
        if i > 0 {
          ScaledStep(backoff, i - 1);
          assert r.sleeps[i] == rest.sleeps[i - 1];
        }
      }
    }
  }

  /** The k-th sleep (0-based) lasts 5 * 2^k seconds and follows the k-th
      attempt, which was rate limited: 5, 10, 20, 40, 80, ... */
  lemma BackoffSchedule(outcome: nat -> Attempt, maxRetries: int)
    ensures var r := AuthRun(outcome, maxRetries);
      && (forall i :: 0 <= i < |r.sleeps| ==> r.sleeps[i] == BackoffAt(i))
      && (forall i :: 0 <= i < |r.sleeps| ==> RateLimitedAttempt(outcome(i)))
      && |r.sleeps| <= (if maxRetries > 0 then maxRetries else 0)
  {
    AuthFromShape(outcome, maxRetries, 0, InitialBackoff);
    AuthFromSchedule(outcome, maxRetries, 0, InitialBackoff);
  }

  /** The call fails with the retry error exactly when the first `maxRetries`
      attempts are all rate limited; it then made exactly `maxRetries`
      attempts and slept after each of them, the last one included. */
  lemma ExhaustedIffAllRateLimited(outcome: nat -> Attempt, maxRetries: nat)
    ensures var r := AuthRun(outcome, maxRetries);
      && (r.result.Exhausted? <==> forall i :: 0 <= i < maxRetries ==> RateLimitedAttempt(outcome(i)))
      && (r.result.Exhausted? ==> r.attempts == maxRetries && |r.sleeps| == maxRetries)
  {
    AuthFromShape(outcome, maxRetries, 0, InitialBackoff);
    var r := AuthRun(outcome, maxRetries);
    if !r.result.Exhausted? {
      assert !RateLimitedAttempt(outcome(r.attempts - 1));
    }
  }

  /** With a budget of zero (or less) no attempt is made and nothing sleeps. */
  lemma NoBudgetNoAttempt(outcome: nat -> Attempt, maxRetries: int)
    requires maxRetries <= 0
    ensures AuthRun(outcome, maxRetries) == AuthReport(Exhausted, [], 0)
  {
  }

  /** If attempts 0 .. k-1 were rate limited and attempt k is within the
      budget, attempt k decides the call: success returns the client, any
      other fault is re-raised at once; either way after k + 1 attempts and k
      sleeps. */
  lemma FirstNonRateLimitedAttemptDecides(outcome: nat -> Attempt, maxRetries: int, k: nat)
    requires k < maxRetries
    requires forall i :: 0 <= i < k ==> RateLimitedAttempt(outcome(i))
    requires !RateLimitedAttempt(outcome(k))
    ensures var r := AuthRun(outcome, maxRetries);
      && r.attempts == k + 1 && |r.sleeps| == k
      && (outcome(k).Succeeded? ==> r.result == Authenticated)
      && (outcome(k).Failed? ==> r.result == Raised(outcome(k).fault))
  {
    AuthFromShape(outcome, maxRetries, 0, InitialBackoff);
  }

  /** A geometric schedule b, 2b, 4b, ... of n sleeps adds up to b * (2^n - 1). */
  lemma {:induction false} GeometricTotal(s: seq<int>, b: int)
    requires forall i :: 0 <= i < |s| ==> s[i] == Scaled(b, i)
    ensures Total(s) == b * (Pow2(|s|) - 1)
  {
    if s != [] {
      forall i | 0 <= i < |s[1..]| ensures s[1..][i] == Scaled(2 * b, i) {
        ScaledStep(b, i);
      }
      GeometricTotal(s[1..], 2 * b);
      assert Total(s) == b + (2 * b) * (Pow2(|s| - 1) - 1);
    }
  }

  /** The time spent backing off is 5 * (2^n - 1) seconds for n sleeps; with
      the default budget, a run that is rate limited throughout sleeps
      5 + 10 + 20 + 40 + 80 = 155 seconds before failing. */
  lemma TotalBackoff(outcome: nat -> Attempt, maxRetries: int)
    ensures var r := AuthRun(outcome, maxRetries);
      Total(r.sleeps) == InitialBackoff * (Pow2(|r.sleeps|) - 1)
    ensures AuthRun(outcome, MaxRetries).result.Exhausted? ==> Total(AuthRun(outcome, MaxRetries).sleeps) == 155
  {
    BackoffSchedule(outcome, maxRetries);
    GeometricTotal(AuthRun(outcome, maxRetries).sleeps, InitialBackoff);
    BackoffSchedule(outcome, MaxRetries);
    GeometricTotal(AuthRun(outcome, MaxRetries).sleeps, InitialBackoff);
    ExhaustedIffAllRateLimited(outcome, MaxRetries);
    assert Pow2(5) == 32;
  }
}
