/** What the background tasks have in common: the mail they send, how one attempt ends,
    and, on the queue's side, how retry requests turn into further attempts. */
module TaskPolicy {
  import opened Common

  /** A mail's sender: the configured `DEFAULT_FROM_EMAIL` or a literal address. */
  datatype Sender = DefaultFromEmail | Address(address: string)

  /** The arguments given to `send_mail`. */
  datatype Mail = Mail(subject: string, body: string, sender: Sender, recipients: seq<string>)

  /** How one attempt of a task ends. */
  datatype Outcome =
    | Completed(result: Option<string>) // returns (with the value it returns, if any)
    | RetryRequested(countdown: nat)    // `raise self.retry(exc=exc, countdown=...)`
    | Reraised                          // a bare `raise`: the run fails, no retry asked
    | FailureLogged                     // the exception is logged and swallowed

  /** The fixed back-off every retrying task asks for: five minutes. */
  const RetryCountdown: nat := 300

  /** The salutation the account and post mails open with. */
  function Greeting(username: string): string {
    "Hi " + username + ","
  }

  /** One mail-sending task run: the mail it tried to send and how the attempt ended. */
  datatype TaskRun = TaskRun(mail: Mail, outcome: Outcome)

  /** The `try: send_mail(...) except: raise self.retry(..., countdown=300)` pattern. */
  function RetryOnFailure(sent: bool): (r: Outcome)
    ensures r.RetryRequested? <==> !sent
    ensures r.RetryRequested? ==> r.countdown == RetryCountdown
    ensures sent ==> r == Completed(None)
  {
    if sent then Completed(None) else RetryRequested(RetryCountdown)
  }

  /** The `try: send_mail(...) except: logger.error(...)` pattern. */
  function LogOnFailure(sent: bool): (r: Outcome)
    ensures !r.RetryRequested? && !r.Reraised?
    ensures r.FailureLogged? <==> !sent
  {
    if sent then Completed(None) else FailureLogged
  }

  /** How a task instance ends on the queue. A task that returns normally has succeeded,
      including one that caught and logged its own failure. */
  datatype Final = Succeeded(attempts: nat) | FailedTerminal(attempts: nat)

  function AttemptsOf(f: Final): nat {
    match f
    case Succeeded(n) => n
    case FailedTerminal(n) => n
  }

  /** The queue's side, which the repository does not show and which is therefore a
      parameterised assumption: `attempt(i)` is how attempt number `i` (from 0) ends, and a
      retry request is granted while fewer than `maxRetries` retries have been made. */
  function Execute(attempt: nat -> Outcome, maxRetries: nat, retries: nat): (f: Final)
    requires retries <= maxRetries
    ensures retries + 1 <= AttemptsOf(f) <= maxRetries + 1
    decreases maxRetries - retries
  {
    match attempt(retries)
    case Completed(_) => Succeeded(retries + 1)
    case RetryRequested(_) =>
      if retries < maxRetries then Execute(attempt, maxRetries, retries + 1)
      else FailedTerminal(retries + 1)
    case Reraised => FailedTerminal(retries + 1)
    case FailureLogged => Succeeded(retries + 1)
  }

  /** When the first `k` attempts ask for a retry and attempt `k` completes, the run
      succeeds after `k + 1` attempts, provided `k` retries are allowed. */
  lemma {:induction false} SucceedsAfterRetries(attempt: nat -> Outcome, maxRetries: nat, retries: nat, k: nat)
    requires retries <= k <= maxRetries
    requires forall i :: retries <= i < k ==> attempt(i).RetryRequested?
    requires attempt(k).Completed?
    ensures Execute(attempt, maxRetries, retries) == Succeeded(k + 1)
    decreases k - retries
  {
    if retries < k {
      SucceedsAfterRetries(attempt, maxRetries, retries + 1, k);
    }
  }

  /** When every attempt asks for a retry, the run fails after exactly `maxRetries + 1`
      attempts: the first one and `maxRetries` retries, no more. */
  lemma {:induction false} AlwaysFailingExhaustsRetries(attempt: nat -> Outcome, maxRetries: nat, retries: nat)
    requires retries <= maxRetries
    requires forall i :: retries <= i <= maxRetries ==> attempt(i).RetryRequested?
    ensures Execute(attempt, maxRetries, retries) == FailedTerminal(maxRetries + 1)
    decreases maxRetries - retries
  {
    if retries < maxRetries {
      AlwaysFailingExhaustsRetries(attempt, maxRetries, retries + 1);
    }
  }

  /** A failure that is re-raised or swallowed ends the run at that attempt: a re-raised one
      as a failure, a swallowed one as a success. */
  lemma NoRetryWithoutRequest(attempt: nat -> Outcome, maxRetries: nat, retries: nat)
    requires retries <= maxRetries
    requires attempt(retries).Reraised? || attempt(retries).FailureLogged?
    ensures AttemptsOf(Execute(attempt, maxRetries, retries)) == retries + 1
    ensures Execute(attempt, maxRetries, retries).FailedTerminal? <==> attempt(retries).Reraised?
  {
  }

  /** A mail task whose send fails twice and then succeeds ends after three attempts
      whenever at least two retries are allowed. */
  lemma TwoFailuresThenSuccess(sent: nat -> bool, maxRetries: nat)
    requires 2 <= maxRetries
    requires !sent(0) && !sent(1) && sent(2)
    ensures Execute((i: nat) => RetryOnFailure(sent(i)), maxRetries, 0) == Succeeded(3)
  {
    SucceedsAfterRetries((i: nat) => RetryOnFailure(sent(i)), maxRetries, 0, 2);
  }
}
