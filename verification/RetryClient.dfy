/** A client that spaces its requests out and repeats the ones that are worth repeating. */
module RetryClient {
  import opened Options

  /** How a request ends: with a value, with an error of the HTTP client (with the status of the
      response if there was one), or with any other error. */
  datatype Reply = Success(value: int) | HttpError(status: Option<nat>) | OtherError

  const MIN_REQUEST_INTERVAL: int := 100
  const MAX_RETRIES: nat := 3

  function Pow2(n: nat): int { if n == 0 then 1 else 2 * Pow2(n - 1) }

  /** The initial delay, doubled for every attempt before. */
  function RetryDelay(attempt: nat): int { 1000 * Pow2(attempt) }

  predicate WorthRepeating(r: Reply) {
    r.HttpError? && !(r.status.Some? && r.status.value >= 500)
  }

  /** The number of requests that a call makes from some attempt on. */
  function Attempts(replies: nat -> Reply, attempt: nat): (n: nat)
    requires attempt <= MAX_RETRIES
    ensures 1 <= n <= MAX_RETRIES + 1 - attempt
    decreases MAX_RETRIES - attempt
  {
    if WorthRepeating(replies(attempt)) && attempt < MAX_RETRIES then 1 + Attempts(replies, attempt + 1) else 1
  }

  /** Each request starts the minimum interval or more after the one before it. */
  predicate Spaced(starts: seq<int>) {
    var n := |starts|;
    n <= 1 || (starts[n - 2] + MIN_REQUEST_INTERVAL <= starts[n - 1] && Spaced(starts[..n - 1]))
  }

  /** Any two requests start 100 milliseconds or more apart. */
  lemma {:induction false} SpacedPairwise(starts: seq<int>, i: nat, j: nat)
    requires Spaced(starts) && i < j < |starts|
    ensures starts[i] + 100 <= starts[j]
  {
    var n := |starts|;
    if j < n - 1 {
      SpacedPairwise(starts[..n - 1], i, j);
    } else if i < n - 2 {
      SpacedPairwise(starts[..n - 1], i, n - 2);
    }
  }

  /** Each repetition waits for its delay after the request before it. */
  predicate BackedOff(starts: seq<int>) {
    var n := |starts|;
    n <= 1 || (starts[n - 2] + RetryDelay(n - 2) <= starts[n - 1] && BackedOff(starts[..n - 1]))
  }

  lemma BackedOffMore(sent: seq<int>, t: int)
    requires BackedOff(sent)
    requires sent != [] ==> sent[|sent| - 1] + RetryDelay(|sent| - 1) <= t
    ensures BackedOff(sent + [t])
  {
    var more := sent + [t];
    assert more[..|more| - 1] == sent;
    if sent != [] {
      assert more[|more| - 2] == sent[|sent| - 1] && more[|more| - 1] == t;
    }
  }

  lemma SentOneMore(before: seq<int>, sent: seq<int>, t: int)
    requires BackedOff(sent)
    requires sent != [] ==> sent[|sent| - 1] + RetryDelay(|sent| - 1) <= t
    ensures BackedOff(sent + [t])
    ensures (before + sent) + [t] == before + (sent + [t])
  {
    BackedOffMore(sent, t);
  }

  /** Time passes as it likes, but never backwards, and a sleep lasts at least as long as asked for. */
  class Clock {
    var now: int

    constructor (now: int)
      ensures this.now == now
    {
      this.now := now;
    }

    method Pass(ms: nat)
      modifies this
      ensures now == old(now) + ms
    {
      now := now + ms;
    }
  }

  class OxygenIT {
    var lastRequestTime: int
    /** When the requests so far were started. */
    ghost var starts: seq<int>
    const clock: Clock

    /** Whatever the calls so far: the requests are spaced out and the last one is remembered. */
    ghost predicate Valid()
      reads this, clock
    {
      lastRequestTime <= clock.now && RemembersLast()
    }

    ghost predicate RemembersLast()
      reads this
    {
      Spaced(starts) && (starts != [] ==> lastRequestTime == starts[|starts| - 1])
    }

    constructor (clock: Clock)
      requires clock.now >= 0
      ensures this.clock == clock && starts == [] && lastRequestTime == 0 && Valid()
    {
      this.clock := clock;
      lastRequestTime := 0;
      starts := [];
    }

    /** Waits until the interval since the last request is over, and possibly longer. */
    method EnforceRateLimit(late: nat)
      requires Valid()
      modifies this`lastRequestTime, clock
      ensures clock.now == lastRequestTime && clock.now >= old(clock.now)
      ensures lastRequestTime >= old(lastRequestTime) + MIN_REQUEST_INTERVAL
      ensures Spaced(starts) && (starts != [] ==> starts[|starts| - 1] + MIN_REQUEST_INTERVAL <= lastRequestTime)
    {
      var timeSinceLastRequest := clock.now - lastRequestTime;
      if timeSinceLastRequest < MIN_REQUEST_INTERVAL {
        clock.Pass(MIN_REQUEST_INTERVAL - timeSinceLastRequest + late);
      }
      lastRequestTime := clock.now;
    }

    method SendRequest(late: nat, duration: nat)
      requires Valid()
      modifies this`lastRequestTime, this`starts, clock
      ensures Valid()
      ensures starts == old(starts) + [lastRequestTime]
      ensures old(clock.now) <= lastRequestTime
    {
      EnforceRateLimit(late);
      assert (starts + [lastRequestTime])[..|starts|] == starts;
      starts := starts + [lastRequestTime];
      clock.Pass(duration);
    }

    /** The next request of a call, after its earlier ones. */
    method SendNext(late: nat, duration: nat, ghost before: seq<int>, ghost sent: seq<int>)
      returns (ghost sent': seq<int>)
      requires Valid() && starts == before + sent && BackedOff(sent)
      requires sent != [] ==> sent[|sent| - 1] + RetryDelay(|sent| - 1) <= clock.now
      modifies this`lastRequestTime, this`starts, clock
      ensures Valid() && starts == before + sent' && BackedOff(sent')
      ensures |sent'| == |sent| + 1 && sent'[|sent|] <= clock.now
    {
      SendRequest(late, duration);
      SentOneMore(before, sent, lastRequestTime);
      sent' := sent + [lastRequestTime];
    }

    method BackOff(attempt: nat, late: nat)
      requires Valid()
      modifies clock
      ensures Valid() && clock.now >= old(clock.now) + RetryDelay(attempt)
    {
      RetryDelayIsPositive(attempt);
      clock.Pass(RetryDelay(attempt) + late);
    }

    /** Sends a request up to four times.  The replies, how late the sleeps before and after every request
        end and how long every request takes are up to the environment. */
    method ExecuteWithRetry(replies: nat -> Reply, lateToSend: nat -> nat, duration: nat -> nat,
                            lateToRetry: nat -> nat)
      returns (reply: Reply, ghost sent: seq<int>)
      requires Valid()
      modifies this`lastRequestTime, this`starts, clock
      ensures Valid()
      ensures starts == old(starts) + sent && |sent| == Attempts(replies, 0) && BackedOff(sent)
      ensures reply == replies(Attempts(replies, 0) - 1)
    {
      var attempt := 0;
      sent := [];
      ghost var before := starts;
      while true
        invariant Valid() && attempt <= MAX_RETRIES
        invariant starts == before + sent && |sent| == attempt && BackedOff(sent)
        invariant attempt + Attempts(replies, attempt) == Attempts(replies, 0)
        invariant sent != [] ==> sent[|sent| - 1] + RetryDelay(|sent| - 1) <= clock.now
        decreases MAX_RETRIES - attempt
      {
        sent := SendNext(lateToSend(attempt), duration(attempt), before, sent);
        reply := replies(attempt);
        if WorthRepeating(reply) && attempt < MAX_RETRIES {
          BackOff(attempt, lateToRetry(attempt));
          attempt := attempt + 1;
          continue;
        }
        return;
      }
    }
  }

  lemma RetryDelayIsPositive(attempt: nat)
    ensures RetryDelay(attempt) > 0
  {
    Pow2IsPositive(attempt);
  }

  lemma {:induction false} Pow2IsPositive(n: nat)
    ensures Pow2(n) > 0
  {
    if n > 0 { Pow2IsPositive(n - 1); }
  }

  lemma {:induction false} AttemptsFrom(replies: nat -> Reply, attempt: nat)
    requires attempt <= MAX_RETRIES
    ensures var last := attempt + Attempts(replies, attempt) - 1;
            && (forall i :: attempt <= i < last ==> WorthRepeating(replies(i)))
            && (last < MAX_RETRIES ==> !WorthRepeating(replies(last)))
    decreases MAX_RETRIES - attempt
  {
    if WorthRepeating(replies(attempt)) && attempt < MAX_RETRIES {
      AttemptsFrom(replies, attempt + 1);
    }
  }

  /** A call succeeds exactly when one of its first four requests would and all before it fail in a
      way worth repeating; after any other failure no request follows. */
  lemma {:induction false} SucceedsIfSomeAttemptDoes(replies: nat -> Reply)
    ensures var last := Attempts(replies, 0) - 1;
            replies(last).Success? <==>
              exists k :: 0 <= k <= MAX_RETRIES && replies(k).Success?
                          && forall i :: 0 <= i < k ==> WorthRepeating(replies(i))
    ensures forall i :: 0 <= i <= MAX_RETRIES && !WorthRepeating(replies(i)) ==> Attempts(replies, 0) <= i + 1
  {
    AttemptsFrom(replies, 0);
    var last := Attempts(replies, 0) - 1;
    assert replies(last).Success? ==> !WorthRepeating(replies(last));
  }

  /** At most four requests are made.  A request is followed by another, up to the fourth, exactly when it
      fails with an HTTP error without a status or with one below 500, such as 429. */
  lemma RequestsOfACall(replies: nat -> Reply, i: nat)
    ensures 1 <= Attempts(replies, 0) <= 4
    ensures i < Attempts(replies, 0) ==>
              (i + 1 < Attempts(replies, 0) <==>
                 && i < 3 && replies(i).HttpError?
                 && (replies(i).status.None? || replies(i).status.value < 500))
  {
    AttemptsFrom(replies, 0);
    if i < Attempts(replies, 0) - 1 {
      assert WorthRepeating(replies(i));
    }
  }

  /** The requests of a call start at least 1, 2 and 4 seconds after the one before. */
  lemma {:induction false} RetryDelays(sent: seq<int>)
    requires BackedOff(sent)
    ensures |sent| > 1 ==> sent[0] + 1000 <= sent[1]
    ensures |sent| > 2 ==> sent[1] + 2000 <= sent[2]
    ensures |sent| > 3 ==> sent[2] + 4000 <= sent[3]
  {
    assert Pow2(0) == 1 && Pow2(1) == 2 && Pow2(2) == 4;
    if |sent| > 1 {
      RetryDelays(sent[..|sent| - 1]);
    }
  }
}
