/**
  The attempt schedule and error classification shared by the two outbound calls
  of voice.py (`get_voices` and `synthesize_speech`). Both loops walk the same
  schedule and react to each outcome the same way; the network is a parameter
  giving the outcome of attempt k.
*/
module Retry {
  import opened Wrappers

  /** At most four attempts. */
  const MaxAttempts: nat := 4

  /** Delay in milliseconds before attempt k: 0 s, then 0.5 s, 1 s and 2 s. */
  const Backoffs: seq<nat> := [0, 500, 1000, 2000]

  /**
    What one attempt comes back with: a usable response, an HTTP status error
    (a 429 answer or one that `raise_for_status` rejects), or a transport error
    (timeout, connection failure).
  */
  datatype Outcome<T> = Success(body: T) | Status(code: int) | TransportError

  /** A 429, a 5xx or a transport error moves on to the next attempt. */
  predicate Retryable<T>(o: Outcome<T>)
    ensures Retryable(o) ==> !o.Success?
    ensures o.TransportError? ==> Retryable(o)
    ensures o.Status? ==> (Retryable(o) <==> o.code == 429 || 500 <= o.code < 600)
  {
    match o
    case Success(_) => false
    case Status(code) => code == 429 || 500 <= code < 600
    case TransportError => true
  }

  /** How a run of attempts ended: how many attempts it made and what the last one returned. */
  datatype Report<T> = Report(attempts: nat, last: Outcome<T>)

  /**
    The run of attempts from attempt k on: it stops at the first outcome that is
    not retryable (a success, or a status error other than 429 and 5xx), and
    otherwise after the last attempt of the schedule.
  */
  function Drive<T>(network: nat -> Outcome<T>, k: nat): (r: Report<T>)
    requires k < MaxAttempts
    ensures k < r.attempts <= MaxAttempts
    ensures r.last == network(r.attempts - 1)
    ensures forall j :: k <= j < r.attempts - 1 ==> Retryable(network(j))
    ensures r.attempts < MaxAttempts ==> !Retryable(r.last)
    decreases MaxAttempts - k
  {
    if k == MaxAttempts - 1 || !Retryable(network(k)) then Report(k + 1, network(k))
    else Drive(network, k + 1)
  }

  /**
    The run ends at attempt i exactly when every earlier attempt was retryable and
    attempt i is not (or is the last one): the number of attempts consumed is that
    outcome's index plus one.
  */
  lemma DriveStopsAt<T>(network: nat -> Outcome<T>, i: nat)
    requires i < MaxAttempts
    requires forall j :: 0 <= j < i ==> Retryable(network(j))
    requires i == MaxAttempts - 1 || !Retryable(network(i))
    ensures Drive(network, 0) == Report(i + 1, network(i))
  {
  }

  /** Three rate-limit answers followed by a success still deliver the success, on the fourth attempt. */
  lemma RateLimitedThenSuccess<T>(network: nat -> Outcome<T>, body: T)
    requires network(0) == Status(429) && network(1) == Status(429) && network(2) == Status(429)
    requires network(3) == Success(body)
    ensures Drive(network, 0) == Report(4, Success(body))
  {
  }

  /** A client error on the first attempt ends the run at once. */
  lemma ClientErrorStopsAtOnce<T>(network: nat -> Outcome<T>, code: int)
    requires network(0) == Status(code) && code != 429 && !(500 <= code < 600)
    ensures Drive(network, 0) == Report(1, Status(code))
  {
  }

  /** The delays slept before attempts 1 to 3 are positive and strictly increase. */
  lemma BackoffsIncrease()
    ensures Backoffs[0] == 0
    ensures forall i, j :: 1 <= i < j < |Backoffs| ==> 0 < Backoffs[i] < Backoffs[j]
  {
  }

  /** The delays slept before attempts 2 to k are positive and strictly increase. */
  lemma SleptIncrease(k: nat)
    requires 1 <= k <= MaxAttempts
    ensures forall i, j :: 0 <= i < j < |Backoffs[1..k]| ==> 0 < Backoffs[1..k][i] < Backoffs[1..k][j]
  {
    BackoffsIncrease();
  }

  /**
    The retry loop: before attempt k it sleeps Backoffs[k] when that is not zero,
    then returns on a success, moves on after a 429, a 5xx or a transport error,
    and leaves the loop on any other status error. `slept` lists the delays slept,
    in order.
  */
  method RunAttempts<T>(network: nat -> Outcome<T>) returns (r: Report<T>, slept: seq<nat>)
    ensures r == Drive(network, 0)
    ensures slept == Backoffs[1..r.attempts]
    ensures forall i, j :: 0 <= i < j < |slept| ==> 0 < slept[i] < slept[j]
  {
    var attempt := 0;
    var lastErr: Option<Outcome<T>> := None;
    slept := [];
    while attempt < MaxAttempts
      invariant 0 <= attempt <= MaxAttempts
      invariant forall j :: 0 <= j < attempt ==> Retryable(network(j))
      invariant attempt > 0 ==> lastErr == Some(network(attempt - 1))
      invariant slept == if attempt == 0 then [] else Backoffs[1..attempt]
    {
      var backoff := Backoffs[attempt];
      if backoff != 0 {
        slept := slept + [backoff];
      }
      var outcome := network(attempt);
      match outcome
      case Success(_) =>
        DriveStopsAt(network, attempt);
        SleptIncrease(attempt + 1);
        return Report(attempt + 1, outcome), slept;
      case Status(code) =>
        lastErr := Some(outcome);
        if code == 429 || 500 <= code < 600 {
          attempt := attempt + 1;
        } else {
          break;
        }
      case TransportError =>
        lastErr := Some(outcome);
        attempt := attempt + 1;
    }
    // the loop left on a status error at `attempt`, or every attempt was retryable
    var lastIndex := if attempt < MaxAttempts then attempt else MaxAttempts - 1;
    DriveStopsAt(network, lastIndex);
    SleptIncrease(lastIndex + 1);
    r := Report(lastIndex + 1, lastErr.value);
  }
}
