/**
  The raw `ConnectionProvider` that the cache wraps: it opens connections, probes them
  and releases them. The model replaces the driver and the network by a scripted fake,
  in the way the tests replace them by a mock: every call of `GetConnection` consumes the
  next scripted outcome, and every validity probe consumes the next scripted answer.
*/
module RawConnections {

  /** An opaque handle to a live database connection (a `java.sql.Connection`). */
  datatype Connection = Connection(id: nat)

  /** What one call of the raw `getConnection` does: throw an `SQLException`, or open a connection. */
  datatype RawOutcome = Fail | Opened(conn: Connection)

  /** The outcome of the raw call numbered `i` (from 0). A call past the end of the script fails. */
  function OutcomeAt(script: seq<RawOutcome>, i: nat): RawOutcome
  {
    if i < |script| then script[i] else Fail
  }

  /** The answer of the validity probe numbered `i` (from 0). A probe past the end of the script answers false. */
  function ProbeAt(answers: seq<bool>, i: nat): bool
  {
    i < |answers| && answers[i]
  }

  /**
    A scripted raw provider. `calls`, `probes` and `released` record what the cache asked
    of it, so that contracts can state how many attempts were made and which connections
    were given back.
  */
  class ScriptedProvider {
    const script: seq<RawOutcome>
    const answers: seq<bool>
    var calls: nat
    var probes: nat
    var released: seq<Connection>

    constructor (script: seq<RawOutcome>, answers: seq<bool>)
      ensures this.script == script && this.answers == answers
      ensures calls == 0 && probes == 0 && released == []
    {
      this.script := script;
      this.answers := answers;
      calls := 0;
      probes := 0;
      released := [];
    }

    /** Opens a new raw connection, or fails as the next scripted outcome says. */
    method GetConnection() returns (o: RawOutcome)
      modifies this`calls
      ensures calls == old(calls) + 1
      ensures o == OutcomeAt(script, old(calls))
    {
      o := OutcomeAt(script, calls);
      calls := calls + 1;
    }

    /** Non-destructive liveness probe of `c`; a probe that throws is answered false. */
    method IsConnectionValid(c: Connection) returns (valid: bool)
      modifies this`probes
      ensures probes == old(probes) + 1
      ensures valid == ProbeAt(answers, old(probes))
    {
      valid := ProbeAt(answers, probes);
      probes := probes + 1;
    }

    /** Releases `c` (`Connection.close()`); failures to release are ignored. */
    method Release(c: Connection)
      modifies this`released
      ensures released == old(released) + [c]
    {
      released := released + [c];
    }
  }
}
