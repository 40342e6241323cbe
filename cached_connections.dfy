/**
  The retrying connection cache (`CachedConnectionProvider`). It hands out one cached
  connection, re-validating it on every access, and when there is none (or it has died)
  runs an acquisition loop: at most `maxRetries` raw attempts with a fixed backoff between
  two failed ones. A `close` issued while the loop waits in its backoff ends the loop.

  The concurrent control thread of the source is modelled as an interleaving: the
  parameter `closeAfter` of `GetConnection` says after which failed attempt (if any)
  the other thread calls `close(true)` while this one is backing off. A value that names
  no backoff the loop waits in (`Some(0)`, or an attempt at or after the one where the
  loop stops) means no close during this call; a close that arrives after the loop has
  stopped is a separate call of `Close`.
*/
module CachedConnections {
  import opened Results
  import opened RawConnections

  /** `Integer.MAX_VALUE`, the "effectively unbounded" retry budget; budgets are Java `int`s. */
  const INT_MAX: nat := 0x7fff_ffff

  /** Why an acquisition surfaced a `ConnectException`. */
  datatype ConnectError = Closed | RetriesExhausted

  /**
    What the cache's `getConnection` gives its caller: a connection, or a `ConnectException`.
    There is no variant for a raw `SQLException`: raw failures never reach the caller.
  */
  datatype Acquired = Connected(conn: Connection) | ConnectException(reason: ConnectError)

  /**
    An acquisition loop that has made `k` raw attempts (`k >= 1`), the first one being raw
    call number `from`, stops there: attempt `k` succeeded, or the budget is spent, or the
    provider was closed during the backoff that follows failed attempt `k`.
  */
  predicate StopsAfter(script: seq<RawOutcome>, from: nat, budget: nat, closeAfter: Option<nat>, k: nat)
    requires k >= 1
  {
    OutcomeAt(script, from + k - 1).Opened? || k >= budget || closeAfter == Some(k)
  }

  /** The least `k >= j` at which the loop stops, given that it does not stop before `j`. */
  function FirstStop(script: seq<RawOutcome>, from: nat, budget: nat, closeAfter: Option<nat>, j: nat): (k: nat)
    requires 1 <= j <= budget
    requires forall i :: 1 <= i < j ==> !StopsAfter(script, from, budget, closeAfter, i)
    ensures j <= k <= budget
    ensures StopsAfter(script, from, budget, closeAfter, k)
    ensures forall i :: 1 <= i < k ==> !StopsAfter(script, from, budget, closeAfter, i)
    decreases budget - j
  {
    if StopsAfter(script, from, budget, closeAfter, j) then j
    else FirstStop(script, from, budget, closeAfter, j + 1)
  }

  /** The number of raw attempts one acquisition loop makes: the least attempt at which it stops. */
  function AttemptsNeeded(script: seq<RawOutcome>, from: nat, budget: nat, closeAfter: Option<nat>): (k: nat)
    requires budget >= 1
    ensures 1 <= k <= budget
    ensures StopsAfter(script, from, budget, closeAfter, k)
    ensures forall i :: 1 <= i < k ==> !StopsAfter(script, from, budget, closeAfter, i)
  {
    FirstStop(script, from, budget, closeAfter, 1)
  }

  /**
    What one acquisition loop surfaces: the connection of its last attempt if that one
    succeeded; otherwise exhaustion if the whole budget was spent; otherwise it was closed.
  */
  function Verdict(script: seq<RawOutcome>, from: nat, budget: nat, closeAfter: Option<nat>): Acquired
    requires budget >= 1
  {
    var k := AttemptsNeeded(script, from, budget, closeAfter);
    var last := OutcomeAt(script, from + k - 1);
    if last.Opened? then Connected(last.conn)
    else if k == budget then ConnectException(RetriesExhausted)
    else ConnectException(Closed)
  }

  /** Raw calls `lo` .. `hi - 1` all fail. */
  predicate FailsBetween(script: seq<RawOutcome>, lo: nat, hi: nat)
  {
    forall i :: lo <= i < hi ==> OutcomeAt(script, i) == Fail
  }

  /** Any count that meets the stopping characterisation is the one `AttemptsNeeded` computes. */
  lemma StopIsUnique(script: seq<RawOutcome>, from: nat, budget: nat, closeAfter: Option<nat>, k: nat)
    requires 1 <= k <= budget
    requires StopsAfter(script, from, budget, closeAfter, k)
    requires forall i :: 1 <= i < k ==> !StopsAfter(script, from, budget, closeAfter, i)
    ensures AttemptsNeeded(script, from, budget, closeAfter) == k
  {
  }

  /** No stop before attempt `k` is the same as: attempts before `k` failed and no close came in their backoffs. */
  lemma NoStopBefore(script: seq<RawOutcome>, from: nat, budget: nat, closeAfter: Option<nat>, k: nat)
    requires 1 <= k <= budget
    ensures (forall i :: 1 <= i < k ==> !StopsAfter(script, from, budget, closeAfter, i))
        <==> FailsBetween(script, from, from + k - 1) && !(closeAfter.Some? && 1 <= closeAfter.value < k)
  {
    if forall i :: 1 <= i < k ==> !StopsAfter(script, from, budget, closeAfter, i) {
      forall j | from <= j < from + k - 1
        ensures OutcomeAt(script, j) == Fail
      {
        assert !StopsAfter(script, from, budget, closeAfter, j - from + 1);
      }
      assert closeAfter.Some? && 1 <= closeAfter.value < k
        ==> !StopsAfter(script, from, budget, closeAfter, closeAfter.value);
    }
    if FailsBetween(script, from, from + k - 1) && !(closeAfter.Some? && 1 <= closeAfter.value < k) {
      forall i | 1 <= i < k
        ensures !StopsAfter(script, from, budget, closeAfter, i)
      {
        assert OutcomeAt(script, from + i - 1) == Fail;
      }
    }
  }

  /**
    Exhaustion happens exactly when each of the `budget` attempts fails and no close
    arrives in a backoff that the loop actually waits in (after attempts 1 .. budget-1).
  */
  lemma ExhaustedIff(script: seq<RawOutcome>, from: nat, budget: nat, closeAfter: Option<nat>)
    requires budget >= 1
    ensures Verdict(script, from, budget, closeAfter) == ConnectException(RetriesExhausted)
        <==> FailsBetween(script, from, from + budget)
             && !(closeAfter.Some? && 1 <= closeAfter.value < budget)
  {
    var k := AttemptsNeeded(script, from, budget, closeAfter);
    NoStopBefore(script, from, budget, closeAfter, k);
    NoStopBefore(script, from, budget, closeAfter, budget);
    if FailsBetween(script, from, from + budget) && !(closeAfter.Some? && 1 <= closeAfter.value < budget) {
      StopIsUnique(script, from, budget, closeAfter, budget);
      assert OutcomeAt(script, from + budget - 1) == Fail;
    }
    if Verdict(script, from, budget, closeAfter) == ConnectException(RetriesExhausted) {
      assert k == budget;
      assert OutcomeAt(script, from + budget - 1) == Fail;
    }
  }

  /**
    The loop surfaces `c` exactly when some raw call `j` within the budget returns `c`,
    every earlier call of this loop failed, and no close arrived in the backoffs before call `j`.
  */
  lemma ConnectedIff(script: seq<RawOutcome>, from: nat, budget: nat, closeAfter: Option<nat>, c: Connection)
    requires budget >= 1
    ensures Verdict(script, from, budget, closeAfter) == Connected(c)
        <==> exists j :: from <= j < from + budget && OutcomeAt(script, j) == Opened(c)
               && FailsBetween(script, from, j)
               && !(closeAfter.Some? && 1 <= closeAfter.value <= j - from)
  {
    var k := AttemptsNeeded(script, from, budget, closeAfter);
    NoStopBefore(script, from, budget, closeAfter, k);
    if Verdict(script, from, budget, closeAfter) == Connected(c) {
      assert OutcomeAt(script, from + k - 1) == Opened(c);
    }
    if exists j :: from <= j < from + budget && OutcomeAt(script, j) == Opened(c)
         && FailsBetween(script, from, j)
         && !(closeAfter.Some? && 1 <= closeAfter.value <= j - from) {
      var j :| from <= j < from + budget && OutcomeAt(script, j) == Opened(c)
         && FailsBetween(script, from, j)
         && !(closeAfter.Some? && 1 <= closeAfter.value <= j - from);
      NoStopBefore(script, from, budget, closeAfter, j - from + 1);
      StopIsUnique(script, from, budget, closeAfter, j - from + 1);
    }
  }

  /**
    The loop reports `Closed` exactly when a close arrives in the backoff after some failed
    attempt `m` that is not the last one the budget allows, and attempts 1 .. m all failed.
    Close then wins over the remaining retries, whatever the budget.
  */
  lemma ClosedIff(script: seq<RawOutcome>, from: nat, budget: nat, closeAfter: Option<nat>)
    requires budget >= 1
    ensures Verdict(script, from, budget, closeAfter) == ConnectException(Closed)
        <==> closeAfter.Some? && 1 <= closeAfter.value < budget
             && FailsBetween(script, from, from + closeAfter.value)
  {
    var k := AttemptsNeeded(script, from, budget, closeAfter);
    NoStopBefore(script, from, budget, closeAfter, k);
    if Verdict(script, from, budget, closeAfter) == ConnectException(Closed) {
      assert closeAfter == Some(k) && k < budget;
      assert OutcomeAt(script, from + k - 1) == Fail;
    }
    if closeAfter.Some? && 1 <= closeAfter.value < budget
       && FailsBetween(script, from, from + closeAfter.value) {
      var m := closeAfter.value;
      NoStopBefore(script, from, budget, closeAfter, m);
      StopIsUnique(script, from, budget, closeAfter, m);
      assert OutcomeAt(script, from + m - 1) == Fail;
    }
  }

  /**
    A raw provider that fails on every one of the `budget` calls, with no close, makes the
    loop spend exactly `budget` attempts and then report exhaustion.
  */
  lemma AllFailuresExhaust(script: seq<RawOutcome>, from: nat, budget: nat)
    requires budget >= 1
    requires FailsBetween(script, from, from + budget)
    ensures AttemptsNeeded(script, from, budget, None) == budget
    ensures Verdict(script, from, budget, None) == ConnectException(RetriesExhausted)
  {
    ExhaustedIff(script, from, budget, None);
  }

  /**
    A raw provider that fails `budget - 1` times and then returns `c`, with no close,
    makes the loop spend exactly `budget` attempts and surface `c`.
  */
  lemma SuccessOnLastAttempt(script: seq<RawOutcome>, from: nat, budget: nat, c: Connection)
    requires budget >= 1
    requires FailsBetween(script, from, from + budget - 1)
    requires OutcomeAt(script, from + budget - 1) == Opened(c)
    ensures AttemptsNeeded(script, from, budget, None) == budget
    ensures Verdict(script, from, budget, None) == Connected(c)
  {
    NoStopBefore(script, from, budget, None, budget);
    StopIsUnique(script, from, budget, None, budget);
  }

  /**
    With attempts 1 .. m failing and a close arriving in the backoff after attempt `m`,
    the loop stops after exactly `m` attempts with `Closed`, however large the budget.
  */
  lemma CloseWinsOverRetries(script: seq<RawOutcome>, from: nat, budget: nat, m: nat)
    requires 1 <= m < budget
    requires FailsBetween(script, from, from + m)
    ensures AttemptsNeeded(script, from, budget, Some(m)) == m
    ensures Verdict(script, from, budget, Some(m)) == ConnectException(Closed)
  {
    ClosedIff(script, from, budget, Some(m));
  }

  /** A surfaced connection is always the one a raw attempt returned: nothing else produces a result. */
  lemma ConnectedComesFromRawCall(script: seq<RawOutcome>, from: nat, budget: nat, closeAfter: Option<nat>)
    requires budget >= 1
    requires Verdict(script, from, budget, closeAfter).Connected?
    ensures OutcomeAt(script, from + AttemptsNeeded(script, from, budget, closeAfter) - 1)
            == Opened(Verdict(script, from, budget, closeAfter).conn)
  {
  }

  class CachedConnectionProvider {
    const raw: ScriptedProvider
    const maxRetries: nat
    const backoff: nat
    var closed: bool
    var current: Option<Connection>
    /** The number of raw attempts made by the latest acquisition loop. */
    var attempts: nat

    ghost predicate Valid()
      reads this
    {
      1 <= maxRetries <= INT_MAX && attempts <= maxRetries && (closed ==> current == None)
    }

    /** A cache over `raw` with a fixed retry budget and a fixed backoff (in milliseconds). */
    constructor (raw: ScriptedProvider, maxRetries: nat, backoff: nat)
      requires 1 <= maxRetries <= INT_MAX
      ensures Valid()
      ensures this.raw == raw && this.maxRetries == maxRetries && this.backoff == backoff
      ensures !closed && current == None && attempts == 0
    {
      this.raw := raw;
      this.maxRetries := maxRetries;
      this.backoff := backoff;
      closed := false;
      current := None;
      attempts := 0;
    }

    /**
      Closes the cache for good and releases the cached connection, if any. A second
      call releases nothing. `releaseImmediately` asks to wake a loop blocked in its
      backoff; in this sequential model that loop observes the close at once either way.
    */
    method Close(releaseImmediately: bool)
      requires Valid()
      modifies this`closed, this`current, raw`released
      ensures Valid() && closed && current == None
      ensures raw.released == old(raw.released) + (if old(current).Some? then [old(current).value] else [])
      ensures old(closed) ==> raw.released == old(raw.released)
    {
      closed := true;
      if current.Some? {
        raw.Release(current.value);
        current := None;
      }
    }

    /**
      Returns a usable connection or a `ConnectException`. A closed cache fails at once
      without touching the raw provider. A cached connection that passes the validity
      probe is returned with no raw attempt. Otherwise the cached connection (if any) is
      released and the acquisition loop runs from attempt 1: it makes exactly
      `AttemptsNeeded` raw attempts and surfaces their `Verdict`.
    */
    method GetConnection(closeAfter: Option<nat>) returns (r: Acquired)
      requires Valid()
      modifies this`closed, this`current, this`attempts, raw`calls, raw`probes, raw`released
      ensures Valid()
      ensures old(closed) ==>
        r == ConnectException(Closed) && unchanged(this) && unchanged(raw)
      ensures !old(closed) && old(current).Some? ==> raw.probes == old(raw.probes) + 1
      ensures !old(closed) && old(current).None? ==> raw.probes == old(raw.probes)
      ensures !old(closed) && old(current).Some? && ProbeAt(raw.answers, old(raw.probes)) ==>
        r == Connected(old(current).value) && raw.calls == old(raw.calls)
        && unchanged(this) && raw.released == old(raw.released)
      ensures !old(closed) && !(old(current).Some? && ProbeAt(raw.answers, old(raw.probes))) ==>
        var k := AttemptsNeeded(raw.script, old(raw.calls), maxRetries, closeAfter);
        && attempts == k
        && raw.calls == old(raw.calls) + k
        && r == Verdict(raw.script, old(raw.calls), maxRetries, closeAfter)
        && current == (if r.Connected? then Some(r.conn) else None)
        && closed == (r == ConnectException(Closed))
        && raw.released == old(raw.released) + (if old(current).Some? then [old(current).value] else [])
    {
      if closed {
        return ConnectException(Closed);
      }
      if current.Some? {
        var valid := raw.IsConnectionValid(current.value);
        if valid {
          return Connected(current.value);
        }
        raw.Release(current.value);
        current := None;
      }
      r := NewConnection(closeAfter);
    }

    /**
      The acquisition loop: raw attempts until one opens a connection, the budget is
      spent, or the cache is closed during a backoff. It makes exactly `AttemptsNeeded`
      attempts, surfaces their `Verdict` and caches the connection it surfaces.
    */
    method NewConnection(closeAfter: Option<nat>) returns (r: Acquired)
      requires Valid() && !closed && current == None
      modifies this`closed, this`attempts, this`current, raw`calls, raw`released
      ensures Valid()
      ensures var k := AttemptsNeeded(raw.script, old(raw.calls), maxRetries, closeAfter);
        && attempts == k
        && raw.calls == old(raw.calls) + k
        && r == Verdict(raw.script, old(raw.calls), maxRetries, closeAfter)
      ensures current == (if r.Connected? then Some(r.conn) else None)
      ensures closed == (r == ConnectException(Closed))
      ensures raw.released == old(raw.released)
    {
      ghost var start := raw.calls;
      attempts := 0;
      while attempts < maxRetries
        invariant attempts <= maxRetries
        invariant raw.calls == start + attempts
        invariant raw.released == old(raw.released)
        invariant !closed && current == None
        invariant forall i :: 1 <= i < attempts ==> !StopsAfter(raw.script, start, maxRetries, closeAfter, i)
        invariant attempts >= 1 ==> OutcomeAt(raw.script, start + attempts - 1) == Fail
        invariant 1 <= attempts < maxRetries ==> closeAfter != Some(attempts)
        decreases maxRetries - attempts
      {
        var o := raw.GetConnection();
        attempts := attempts + 1;
        if o.Opened? {
          current := Some(o.conn);
          StopIsUnique(raw.script, start, maxRetries, closeAfter, attempts);
          return Connected(o.conn);
        }
        if attempts < maxRetries && closeAfter == Some(attempts) {
          // Backoff: the control thread closes the cache while this one waits.
          Close(true);
          StopIsUnique(raw.script, start, maxRetries, closeAfter, attempts);
          return ConnectException(Closed);
        }
      }
      StopIsUnique(raw.script, start, maxRetries, closeAfter, attempts);
      r := ConnectException(RetriesExhausted);
    }
  }
}
