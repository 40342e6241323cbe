/**
  The three scenarios of the cache's unit tests, each over a scripted raw provider:
  a provider failing on every call, one failing `retries - 1` times and then connecting,
  and one that always fails (and always answers the validity probe false) while the other
  thread closes the cache during a backoff.
*/
module CachedConnectionsTest {
  import opened Results
  import opened RawConnections
  import opened CachedConnections

  /**
    Every raw call throws: the cache makes exactly `retries` raw attempts, no more
    than the strict mock expects, then surfaces a `ConnectException`.
  */
  method RetryTillFailure(retries: nat) returns (r: Acquired, rawCalls: nat)
    requires 1 <= retries <= INT_MAX
    ensures r == ConnectException(RetriesExhausted)
    ensures rawCalls == retries
  {
    var script := seq(retries, _ => Fail);
    var raw := new ScriptedProvider(script, []);
    var cache := new CachedConnectionProvider(raw, retries, 100);
    r := cache.GetConnection(None);
    rawCalls := raw.calls;
    AllFailuresExhaust(script, 0, retries);
  }

  /**
    The first `retries - 1` raw calls throw and the last one returns `connection`:
    the cache hands out that (non-null) connection after exactly `retries` raw calls,
    the number the strict mock expects, and caches it.
  */
  method RetryTillConnect(retries: nat, connection: Connection) returns (r: Acquired, rawCalls: nat, cached: Option<Connection>)
    requires 1 <= retries <= INT_MAX
    ensures r == Connected(connection)
    ensures rawCalls == retries
    ensures cached == Some(connection)
  {
    var script := seq(retries - 1, _ => Fail) + [Opened(connection)];
    var raw := new ScriptedProvider(script, []);
    var cache := new CachedConnectionProvider(raw, retries, 100);
    assert OutcomeAt(script, retries - 1) == Opened(connection);
    r := cache.GetConnection(None);
    rawCalls := raw.calls;
    cached := cache.current;
    SuccessOnLastAttempt(script, 0, retries, connection);
  }

  /**
    A raw provider that always throws, under the `Integer.MAX_VALUE` budget; the other
    thread calls `close(true)` during the backoff after failed attempt `closedAfter`
    (at least one attempt has been made, as the latch in the test ensures). The call
    ends with a `ConnectException` after exactly `closedAfter` attempts instead of
    retrying on, and a later call fails at once without any raw attempt.
  */
  method RetryTillClose(closedAfter: nat) returns (r: Acquired, rawCalls: nat, again: Acquired, rawCallsAfter: nat)
    requires 1 <= closedAfter < INT_MAX
    ensures r == ConnectException(Closed)
    ensures rawCalls == closedAfter
    ensures again == ConnectException(Closed)
    ensures rawCallsAfter == closedAfter
  {
    var raw := new ScriptedProvider([], []);
    var cache := new CachedConnectionProvider(raw, INT_MAX, 100);
    r := cache.GetConnection(Some(closedAfter));
    rawCalls := raw.calls;
    CloseWinsOverRetries([], 0, INT_MAX, closedAfter);
    again := cache.GetConnection(None);
    rawCallsAfter := raw.calls;
  }

  /**
    A cached connection that passes the validity probe is handed out again with no
    raw attempt; once the probe fails it is released and a new one is acquired.
  */
  method ReuseThenReacquire(first: Connection, second: Connection)
    returns (r1: Acquired, r2: Acquired, r3: Acquired, rawCalls: nat, released: seq<Connection>)
    ensures r1 == Connected(first) && r2 == Connected(first) && r3 == Connected(second)
    ensures rawCalls == 2
    ensures released == [first]
  {
    var raw := new ScriptedProvider([Opened(first), Opened(second)], [true, false]);
    var cache := new CachedConnectionProvider(raw, 3, 100);
    assert OutcomeAt(raw.script, 0) == Opened(first);
    SuccessOnLastAttempt(raw.script, 0, 1, first);
    r1 := cache.GetConnection(None);
    r2 := cache.GetConnection(None);
    SuccessOnLastAttempt(raw.script, 1, 1, second);
    assert OutcomeAt(raw.script, 1) == Opened(second);
    StopIsUnique(raw.script, 1, 3, None, 1);
    r3 := cache.GetConnection(None);
    rawCalls := raw.calls;
    released := raw.released;
  }

  /** Closing twice is harmless: the cached connection is released once, and the cache stays closed. */
  method CloseTwice(connection: Connection) returns (released: seq<Connection>, after: Acquired)
    ensures released == [connection]
    ensures after == ConnectException(Closed)
  {
    var raw := new ScriptedProvider([Opened(connection)], []);
    var cache := new CachedConnectionProvider(raw, 1, 100);
    SuccessOnLastAttempt(raw.script, 0, 1, connection);
    var r := cache.GetConnection(None);
    cache.Close(true);
    cache.Close(true);
    released := raw.released;
    after := cache.GetConnection(None);
  }
}
