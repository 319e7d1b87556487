/**
 * The process-wide database connection cache: a `{ conn, promise }` record
 * shared by every request, with single-flight establishment and a bounded
 * retry with exponential backoff.
 *
 * The model is sequential. `Connect` is the synchronous part of `connect()`:
 * it answers with the cached connection, joins the pending establishment
 * attempt, or starts a new one. `Settle` is the asynchronous part that runs
 * the pending attempt to its end; each call to the driver's connect is an
 * oracle outcome, and the backoff delays are recorded instead of waited.
 */
module MongoConnection {
  import opened Wrappers

  /** Connection attempts per establishment cycle. */
  const MaxAttempts := 3
  /** Delay in milliseconds after the first failed attempt. */
  const BaseDelay := 250

  function Pow2(n: nat): (p: nat)
    ensures p >= 1
  {
    if n == 0 then 1 else 2 * Pow2(n - 1)
  }

  /** The wait after failed attempt number `attempt`: 250 * 2^(attempt - 1) ms. */
  function Backoff(attempt: nat): nat
    requires attempt >= 1
  {
    BaseDelay * Pow2(attempt - 1)
  }

  /** The connected driver instance. */
  datatype Instance = Instance(handle: nat)

  /** What one call of the driver's connect does. */
  datatype Outcome = Connected(instance: Instance) | Refused(reason: string)

  /** A pending establishment cycle, the shared promise; `cycle` tells cycles apart. */
  datatype Pending = Pending(cycle: nat)

  /** The answer of `connect()`: the cached connection, or the pending attempt to await. */
  datatype Reply = Cached(instance: Instance) | Awaiting(pending: Pending)

  /** How a pending attempt ends. */
  datatype Settlement = Resolved(instance: Instance) | Rejected(reason: string)

  /**
   * One run of the retry loop: how it ended, the number of the last attempt
   * made, and the delays waited between attempts.
   */
  datatype Run = Run(settlement: Settlement, lastAttempt: nat, delays: seq<nat>)

  /**
   * `attemptConnect(attempt)`: try, and on failure wait and try again while
   * attempts remain; after the last failure the error is rethrown.
   */
  function Cycle(outcome: nat -> Outcome, attempt: nat): (run: Run)
    requires 1 <= attempt <= MaxAttempts
    decreases MaxAttempts - attempt
    ensures attempt <= run.lastAttempt <= MaxAttempts
    ensures |run.delays| == run.lastAttempt - attempt
  {
    match outcome(attempt)
    case Connected(instance) => Run(Resolved(instance), attempt, [])
    case Refused(reason) =>
      if attempt < MaxAttempts then
        var rest := Cycle(outcome, attempt + 1);
        rest.(delays := [Backoff(attempt)] + rest.delays)
      else
        Run(Rejected(reason), attempt, [])
  }

  /**
   * What a cycle from `attempt` on does: the delay after failed attempt k is
   * 250 * 2^(k-1); every attempt before the last one made failed; a resolved
   * cycle carries the instance of its last attempt, a rejected one made all
   * three attempts and carries the error of the third.
   */
  lemma {:induction false} CycleBehaviour(outcome: nat -> Outcome, attempt: nat)
    requires 1 <= attempt <= MaxAttempts
    decreases MaxAttempts - attempt
    ensures var run := Cycle(outcome, attempt);
      && (forall k :: 0 <= k < |run.delays| ==> run.delays[k] == Backoff(attempt + k))
      && (forall k :: attempt <= k < run.lastAttempt ==> outcome(k).Refused?)
      && (run.settlement.Resolved? ==> outcome(run.lastAttempt) == Connected(run.settlement.instance))
      && (run.settlement.Rejected? ==>
            run.lastAttempt == MaxAttempts && outcome(MaxAttempts) == Refused(run.settlement.reason))
  {
    if outcome(attempt).Refused? && attempt < MaxAttempts {
      CycleBehaviour(outcome, attempt + 1);
    }
  }

  /**
   * A cycle connects exactly when one of its three attempts succeeds, and then
   * with the instance of the first attempt that does.
   */
  lemma CycleConnectsIffSomeAttemptDoes(outcome: nat -> Outcome)
    ensures Cycle(outcome, 1).settlement.Resolved? <==>
            exists k :: 1 <= k <= MaxAttempts && outcome(k).Connected?
    ensures Cycle(outcome, 1).settlement.Resolved? ==>
            exists k :: 1 <= k <= MaxAttempts &&
              outcome(k) == Connected(Cycle(outcome, 1).settlement.instance) &&
              forall j :: 1 <= j < k ==> outcome(j).Refused?
  {
    CycleBehaviour(outcome, 1);
    var run := Cycle(outcome, 1);
    if run.settlement.Resolved? {
      assert outcome(run.lastAttempt) == Connected(run.settlement.instance);
    }
  }

  /** When every attempt fails the cycle waits 250 ms, then 500 ms: 750 ms in all. */
  lemma FullFailureWaits750(outcome: nat -> Outcome)
    requires forall k :: 1 <= k <= MaxAttempts ==> outcome(k).Refused?
    ensures Cycle(outcome, 1).settlement == Rejected(outcome(3).reason)
    ensures Cycle(outcome, 1).lastAttempt == 3
    ensures Cycle(outcome, 1).delays == [250, 500]
    ensures Cycle(outcome, 1).delays[0] + Cycle(outcome, 1).delays[1] == 750
  {

  }

  /** A refused attempt that is not the last leaves the rest of the cycle to the next one. */
  lemma CycleAfterRefusal(outcome: nat -> Outcome, attempt: nat)
    requires 1 <= attempt < MaxAttempts && outcome(attempt).Refused?
    ensures Cycle(outcome, attempt).settlement == Cycle(outcome, attempt + 1).settlement
    ensures Cycle(outcome, attempt).lastAttempt == Cycle(outcome, attempt + 1).lastAttempt
    ensures Cycle(outcome, attempt).delays == [Backoff(attempt)] + Cycle(outcome, attempt + 1).delays
  {
  }

  /** The shared `cached` record. */
  class ConnectionCache {
    var conn: Option<Instance>
    var promise: Option<Pending>
    /** How many establishment cycles have been started. */
    var started: nat

    /**
     * A connection is cached only after a cycle succeeded, and that cycle's
     * promise stays; every promise belongs to a cycle already started.
     */
    ghost predicate Valid()
      reads this
    {
      && (conn.Some? ==> promise.Some?)
      && (promise.Some? ==> promise.value.cycle < started)
    }

    constructor ()
      ensures Valid()
      ensures conn.None? && promise.None? && started == 0
    {
      conn := None;
      promise := None;
      started := 0;
    }

    /** The synchronous part of `connect()`. */
    method Connect() returns (reply: Reply)
      requires Valid()
      modifies this
      ensures Valid()
      ensures old(conn).Some? ==>
        reply == Cached(old(conn).value) && unchanged(this)
      ensures old(conn).None? && old(promise).Some? ==>
        reply == Awaiting(old(promise).value) && unchanged(this)
      ensures old(conn).None? && old(promise).None? ==>
        && reply == Awaiting(Pending(old(started)))
        && conn.None? && promise == Some(Pending(old(started)))
        && started == old(started) + 1
    {
      if conn.Some? {
        return Cached(conn.value);
      }
      if promise.None? {
        promise := Some(Pending(started));
        started := started + 1;
      }
      reply := Awaiting(promise.value);
    }

    /**
     * The pending attempt runs to its end: up to three driver connects,
     * recording the backoff delay after each failure but the last. Success
     * caches the instance and keeps the promise; total failure clears the
     * promise so that a later `Connect` starts a new cycle.
     */
    method Settle(outcome: nat -> Outcome) returns (settlement: Settlement, attempts: nat, delays: seq<nat>)
      requires Valid() && conn.None? && promise.Some?
      modifies this
      ensures Valid()
      ensures settlement == Cycle(outcome, 1).settlement
      ensures attempts == Cycle(outcome, 1).lastAttempt
      ensures delays == Cycle(outcome, 1).delays
      ensures started == old(started)
      ensures settlement.Resolved? ==>
        conn == Some(settlement.instance) && promise == old(promise)
      ensures settlement.Rejected? ==> conn.None? && promise.None?
    {
      ghost var run := Cycle(outcome, 1);
      var attempt := 1;
      delays := [];
      while true
        invariant 1 <= attempt <= MaxAttempts
        invariant run.settlement == Cycle(outcome, attempt).settlement
        invariant run.lastAttempt == Cycle(outcome, attempt).lastAttempt
        invariant run.delays == delays + Cycle(outcome, attempt).delays
        invariant conn.None? && promise == old(promise) && started == old(started)
        decreases MaxAttempts - attempt
      {
        match outcome(attempt)
        case Connected(instance) =>
          conn := Some(instance);
          return Resolved(instance), attempt, delays;
        case Refused(reason) =>
          if attempt < MaxAttempts {
            CycleAfterRefusal(outcome, attempt);
            delays := delays + [Backoff(attempt)];
            attempt := attempt + 1;
          } else {
            promise := None;
            return Rejected(reason), attempt, delays;
          }
      }
    }
  }
}
