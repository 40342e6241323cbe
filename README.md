# kafka-connect-jdbc: connection cache and sink configuration

This project models, in Dafny, two small parts of the Kafka Connect JDBC connector.
Both are modelled from the behaviour that the connector's unit tests pin down.

**The retrying connection cache (`CachedConnectionProvider`).** The cache wraps a raw
`ConnectionProvider` and is built with a retry budget and a backoff interval. Both are
fixed at construction.
- `getConnection` returns the cached connection while the raw provider's validity probe
  accepts it.
- Otherwise it releases the cached connection and runs an acquisition loop. The loop
  makes at most `maxRetries` raw attempts, waiting one backoff between two failed ones.
  It stops at the first success and caches that connection.
- When the budget is spent, or the cache is closed while the loop waits in a backoff,
  the call fails with a `ConnectException`. A raw `SQLException` never reaches the caller.
- `close` marks the cache closed for good and releases the cached connection.
- A closed cache fails every call at once, without contacting the raw provider.

The raw provider is a scripted fake (`RawConnections.ScriptedProvider`). Each raw call
takes the next scripted outcome, either a failure or an opened connection. Each validity
probe takes the next scripted answer. It counts calls and probes and records the
connections it released.

The test's second thread closes the cache. Here that becomes an interleaving: the
parameter `closeAfter` of `GetConnection` names the failed attempt after which
`close(true)` happens during the backoff. A value naming no backoff the loop waits in
(`Some(0)`, or an attempt at or past the one where the loop stops, such as
`Some(maxRetries)`) means no close during this call. A close that arrives after the loop
has stopped is modelled by a separate call of `Close`.

The loop is a `while` loop in `CachedConnectionProvider.NewConnection`. Its
specification is a pair of functions:
- `AttemptsNeeded` is the least attempt at which the loop stops.
- `Verdict` is what the loop then surfaces.

The lemmas characterise both functions exactly:
- `ExhaustedIff`, `ConnectedIff` and `ClosedIff` say when each verdict happens.
- `AllFailuresExhaust`, `SuccessOnLastAttempt` and `CloseWinsOverRetries` state the
  tested scenarios for any budget.

**The sink configuration (`JdbcSinkConfig`).** `SinkConfig.Create` turns a
string-to-string property map into a configuration or a rejection (`ConfigError`). The
connector raises most rejections as a `ConfigException`; an empty `table.types` list
makes `EnumSet.copyOf` raise an `IllegalArgumentException` instead. It reads four
keys:
- `connection.url` is required.
- `table.name.format` defaults to `${topic}`. It is trimmed, and rejected when empty.
- `table.types` defaults to `TABLE`. It is a LIST value: a value that trims to nothing is
  the empty list; otherwise it is cut at every comma and each item is trimmed with
  `String.trim`, so tabs and newlines go and inner blanks stay. Each item must name a
  `TableType` (TABLE, PARTITIONED TABLE or VIEW), ignoring case, and the list must not be
  empty.
- `mssql.use.merge.holdlock` defaults to true. It is a boolean, `true` or `false` in any
  case.

Every other key is ignored. The lemmas in `SinkConfig` and `TableTypes` state the
following:
- when a map is accepted (`CreateIff`, an if-and-only-if);
- that the accepted table types are exactly the kinds the items name;
- that unrelated keys change nothing;
- that the order of the items and the blanks around the commas do not matter.

`Strings` proves the string facts these rest on:
- what `Trim` keeps;
- that padding does not change it;
- that `Split` and `Join` are inverse to each other.

The implementation classes `CachedConnectionProvider.java`, `JdbcSinkConfig.java`,
`TableType.java` and Kafka's `ConfigDef` are not part of this model. Their behaviour is
taken from what the two test classes assert and from their documented contracts:
- `ConfigDef` trims STRING values, splits LIST values at commas and accepts BOOLEAN
  values case-insensitively.
- `TableType.get` trims the name and compares it with `equalsIgnoreCase`.
- `EnumSet.copyOf` rejects an empty list with an `IllegalArgumentException`.

The test classes themselves are modelled too:
- `CachedConnectionsTest` has one method per JUnit case.
- `SinkConfigTest` has one lemma per JUnit case.

Modules and files:
- `results.dfy`: `Option` and `Result`
- `raw_connections.dfy`: the scripted raw provider
- `cached_connections.dfy`: the loop's specification, its lemmas and the `CachedConnectionProvider` class
- `cached_connections_test.dfy`: the cache's test cases
- `strings.dfy`: trimming, case-insensitive comparison, `Split` and `Join`
- `config_values.dfy`: LIST and BOOLEAN values
- `table_types.dfy`: `TableType`, `get` and `parse`
- `sink_config.dfy`: `JdbcSinkConfig`
- `sink_config_test.dfy`: the configuration's test cases

## Model

| member | source | states |
|---|---|---|
| CachedConnections.CachedConnectionProvider.constructor | src/test/java/io/confluent/connect/jdbc/util/CachedConnectionProviderTest.java:47 | A new cache holds the given raw provider, retry budget and backoff, is open, and has no cached connection and no attempts made; budget and backoff are constants of the object, so no later call changes them |
| CachedConnections.CachedConnectionProvider.GetConnection | src/test/java/io/confluent/connect/jdbc/util/CachedConnectionProviderTest.java:45-57 | A closed cache fails with a ConnectException and touches nothing; a cached connection that passes the probe is returned with no raw call; otherwise the cached connection is released and the call makes exactly AttemptsNeeded raw attempts, returns Verdict, caches the connection it returns and is closed exactly when the verdict is Closed |
| CachedConnections.CachedConnectionProvider.NewConnection | src/test/java/io/confluent/connect/jdbc/util/CachedConnectionProviderTest.java:44-76 | The retry loop makes exactly AttemptsNeeded raw calls, returns Verdict, caches the connection it returns, is closed exactly when the verdict is Closed, and releases nothing |
| CachedConnections.CachedConnectionProvider.Close | src/test/java/io/confluent/connect/jdbc/util/CachedConnectionProviderTest.java:103 | After close the cache is closed with no cached connection; the connection it held is released once, and a second close releases nothing |
| CachedConnections.AttemptsNeeded | src/test/java/io/confluent/connect/jdbc/util/CachedConnectionProviderTest.java:67-70 | The number of attempts is between 1 and the budget, the loop stops at it (success, budget spent, or close in the following backoff) and does not stop before it |
| CachedConnections.FirstStop | src/test/java/io/confluent/connect/jdbc/util/CachedConnectionProviderTest.java:67-70 | The least stopping attempt at or after j, within the budget |
| CachedConnections.Verdict | src/test/java/io/confluent/connect/jdbc/util/CachedConnectionProviderTest.java:44-114 | What one acquisition loop surfaces: the connection of its last attempt if that one opened, exhaustion if the budget is spent, Closed otherwise; ExhaustedIff, ConnectedIff and ClosedIff characterise it |
| CachedConnections.StopIsUnique | src/test/java/io/confluent/connect/jdbc/util/CachedConnectionProviderTest.java:67-70 | Any attempt count meeting the stopping rule is exactly AttemptsNeeded |
| CachedConnections.NoStopBefore | src/test/java/io/confluent/connect/jdbc/util/CachedConnectionProviderTest.java:79-113 | The loop does not stop before attempt k if and only if the raw calls before it failed and no close came in their backoffs |
| CachedConnections.ExhaustedIff | src/test/java/io/confluent/connect/jdbc/util/CachedConnectionProviderTest.java:46-57 | The loop reports exhaustion if and only if all budget raw calls fail and no close arrives in a backoff before the last one |
| CachedConnections.ConnectedIff | src/test/java/io/confluent/connect/jdbc/util/CachedConnectionProviderTest.java:62-75 | The loop returns connection c if and only if some raw call within the budget opens c, all earlier calls of the loop failed, and no close came before that call |
| CachedConnections.ClosedIff | src/test/java/io/confluent/connect/jdbc/util/CachedConnectionProviderTest.java:79-113 | The loop reports Closed if and only if a close arrives after some failed attempt m below the budget and attempts 1..m all failed |
| CachedConnections.AllFailuresExhaust | src/test/java/io/confluent/connect/jdbc/util/CachedConnectionProviderTest.java:46-57 | A raw provider failing on every call takes exactly budget attempts and ends in exhaustion |
| CachedConnections.SuccessOnLastAttempt | src/test/java/io/confluent/connect/jdbc/util/CachedConnectionProviderTest.java:62-75 | Failing budget-1 times and then opening c takes exactly budget attempts and returns c, with no further raw call |
| CachedConnections.CloseWinsOverRetries | src/test/java/io/confluent/connect/jdbc/util/CachedConnectionProviderTest.java:79-113 | With attempts 1..m failing and a close after attempt m, the loop stops after exactly m attempts with Closed, however large the budget |
| CachedConnections.ConnectedComesFromRawCall | src/test/java/io/confluent/connect/jdbc/util/CachedConnectionProviderTest.java:89-92 | A connection the loop returns is the result of its last raw attempt |
| CachedConnectionsTest.RetryTillFailure | src/test/java/io/confluent/connect/jdbc/util/CachedConnectionProviderTest.java:44-58 | Every raw call failing, for any budget: exactly retries raw calls, then a ConnectException (exhausted) |
| CachedConnectionsTest.RetryTillConnect | src/test/java/io/confluent/connect/jdbc/util/CachedConnectionProviderTest.java:61-76 | retries-1 failures then a connection: that connection is returned and cached after exactly retries raw calls |
| CachedConnectionsTest.RetryTillClose | src/test/java/io/confluent/connect/jdbc/util/CachedConnectionProviderTest.java:78-114 | Under the Integer.MAX_VALUE budget, a close after failed attempt m ends the call with a ConnectException (Closed) after exactly m raw calls; a later call fails with no raw call |
| CachedConnectionsTest.ReuseThenReacquire | src/test/java/io/confluent/connect/jdbc/util/CachedConnectionProviderTest.java:89-92 | A connection passing the probe is handed out again with no raw call; once the probe says false it is released and a fresh one is acquired |
| CachedConnectionsTest.CloseTwice | src/test/java/io/confluent/connect/jdbc/util/CachedConnectionProviderTest.java:103 | Closing twice releases the cached connection once, and the cache stays closed |
| RawConnections.ScriptedProvider.constructor | src/test/java/io/confluent/connect/jdbc/util/CachedConnectionProviderTest.java:82-96 | A fake raw provider holds its scripted outcomes and probe answers, with no call, no probe and nothing released yet |
| RawConnections.ScriptedProvider.GetConnection | src/test/java/io/confluent/connect/jdbc/util/CachedConnectionProviderTest.java:84-87 | A raw call yields the next scripted outcome and counts one call |
| RawConnections.ScriptedProvider.IsConnectionValid | src/test/java/io/confluent/connect/jdbc/util/CachedConnectionProviderTest.java:90-92 | A probe yields the next scripted answer and counts one probe |
| RawConnections.ScriptedProvider.Release | src/test/java/io/confluent/connect/jdbc/util/CachedConnectionProviderTest.java:95-96 | Releasing records the connection as released |
| Strings.LeadingBlanks | src/test/java/io/confluent/connect/jdbc/sink/JdbcSinkConfigTest.java:127-132 | The count of characters at most U+0020 that a string starts with: all before it are blank, the one at it is not |
| Strings.TrailingBlanks | src/test/java/io/confluent/connect/jdbc/sink/JdbcSinkConfigTest.java:134-139 | The count of blanks a string ends with, in the same sense |
| Strings.Trim | src/test/java/io/confluent/connect/jdbc/sink/JdbcSinkConfigTest.java:127-139 | String.trim: its result neither starts nor ends with a blank and is no longer than the input |
| Strings.TrimSlice | src/test/java/io/confluent/connect/jdbc/sink/JdbcSinkConfigTest.java:127-139 | Trim keeps exactly the piece between blank ends when that piece is itself trimmed |
| Strings.TrimIgnoresPadding | src/test/java/io/confluent/connect/jdbc/sink/JdbcSinkConfigTest.java:127-139 | Blanks (space, tab, newline) added at either end do not change what Trim keeps |
| Strings.TrimTrimmed | src/test/java/io/confluent/connect/jdbc/sink/JdbcSinkConfigTest.java:107-112 | Trim leaves a trimmed string alone, inner blanks included |
| Strings.TrimKeeps | src/test/java/io/confluent/connect/jdbc/sink/JdbcSinkConfigTest.java:114-125 | Trim adds no character, so a comma-free item stays comma-free |
| Strings.TrimEmptyIffBlank | src/test/java/io/confluent/connect/jdbc/sink/JdbcSinkConfigTest.java:59-63 | A string trims to nothing if and only if it is all blank |
| Strings.EqualsIgnoreCase | src/test/java/io/confluent/connect/jdbc/sink/JdbcSinkConfigTest.java:93-112 | equalsIgnoreCase: same length and the same characters once ASCII letters are upper-cased |
| Strings.EqualsIgnoreCaseConcat | src/test/java/io/confluent/connect/jdbc/sink/JdbcSinkConfigTest.java:107-112 | Case-insensitive equality is kept by putting texts one after the other |
| Strings.IndexOf | src/test/java/io/confluent/connect/jdbc/sink/JdbcSinkConfigTest.java:114-125 | The position of the first separator, or the length when there is none |
| Strings.Split | src/test/java/io/confluent/connect/jdbc/sink/JdbcSinkConfigTest.java:114-125 | Cutting at commas gives at least one item and no item holds the separator |
| Strings.JoinSplit | src/test/java/io/confluent/connect/jdbc/sink/JdbcSinkConfigTest.java:114-125 | Joining the items of a split gives the text back |
| Strings.SplitJoin | src/test/java/io/confluent/connect/jdbc/sink/JdbcSinkConfigTest.java:114-125 | Splitting a join of separator-free items gives the items back |
| ConfigValues.ParseList | src/test/java/io/confluent/connect/jdbc/sink/JdbcSinkConfigTest.java:114-139 | A LIST value is empty exactly when the text trims to nothing; its items hold no comma and are trimmed |
| ConfigValues.TrimAllConcat | src/test/java/io/confluent/connect/jdbc/sink/JdbcSinkConfigTest.java:114-125 | Trimming two item lists one after the other trims each list |
| ConfigValues.ParseListOfJoin | src/test/java/io/confluent/connect/jdbc/sink/JdbcSinkConfigTest.java:114-125 | Comma-free items written with commas between them read back as those items, each trimmed |
| ConfigValues.ParseListJoin | src/test/java/io/confluent/connect/jdbc/sink/JdbcSinkConfigTest.java:114-125 | Trimmed comma-free items written with commas read back unchanged |
| ConfigValues.ParseListOne | src/test/java/io/confluent/connect/jdbc/sink/JdbcSinkConfigTest.java:93-112 | A single non-blank item reads as itself, trimmed |
| ConfigValues.ParseListTwo | src/test/java/io/confluent/connect/jdbc/sink/JdbcSinkConfigTest.java:114-125 | Two items around a comma read as the two items, each trimmed |
| ConfigValues.ParseBool | src/test/java/io/confluent/connect/jdbc/sink/JdbcSinkConfigTest.java:77-82 | A BOOLEAN is true exactly for "true" and false exactly for "false", in any case after trimming, and rejected otherwise |
| TableTypes.Find | src/test/java/io/confluent/connect/jdbc/sink/JdbcSinkConfigTest.java:93-112 | A found kind is among those searched and its name matches ignoring case; none found means no name matches |
| TableTypes.Get | src/test/java/io/confluent/connect/jdbc/sink/JdbcSinkConfigTest.java:93-139 | TableType.get: a kind it finds has the trimmed name as its name ignoring case; when it finds none, no kind's name matches |
| TableTypes.GetIff | src/test/java/io/confluent/connect/jdbc/sink/JdbcSinkConfigTest.java:93-112 | TableType.get finds t if and only if the trimmed name equals t's name ignoring case |
| TableTypes.NamesDistinct | src/test/java/io/confluent/connect/jdbc/sink/JdbcSinkConfigTest.java:93-112 | No text matches the names of two different kinds |
| TableTypes.GetName | src/test/java/io/confluent/connect/jdbc/sink/JdbcSinkConfigTest.java:65-69 | Each kind's own name finds that kind |
| TableTypes.Collect | src/test/java/io/confluent/connect/jdbc/sink/JdbcSinkConfigTest.java:114-125 | Accepted if and only if every lookup succeeded, and then the set holds exactly the kinds found; a rejection names an item that failed |
| TableTypes.Parse | src/test/java/io/confluent/connect/jdbc/sink/JdbcSinkConfigTest.java:93-125 | TableType.parse: accepted if and only if the list is non-empty and every name is known, with exactly the kinds named and never the empty set; the empty list is rejected |
| TableTypes.ParseIff | src/test/java/io/confluent/connect/jdbc/sink/JdbcSinkConfigTest.java:93-125 | The same, stated through AllKnown and NamesKind: membership in the result if and only if some item names the kind |
| TableTypes.ParseOne | src/test/java/io/confluent/connect/jdbc/sink/JdbcSinkConfigTest.java:93-112 | One name gives the singleton set of its kind |
| TableTypes.ParseCons | src/test/java/io/confluent/connect/jdbc/sink/JdbcSinkConfigTest.java:114-125 | A known name in front of a non-empty list adds its kind to the list's set, or keeps the list's rejection |
| TableTypes.CollectIgnoresOrder | src/test/java/io/confluent/connect/jdbc/sink/JdbcSinkConfigTest.java:114-125 | Lookup lists that cover each other give the same verdict and the same set |
| TableTypes.LookupsCover | src/test/java/io/confluent/connect/jdbc/sink/JdbcSinkConfigTest.java:114-125 | Lists whose names occur in each other look up kinds that occur in each other |
| TableTypes.ParseIgnoresOrder | src/test/java/io/confluent/connect/jdbc/sink/JdbcSinkConfigTest.java:114-125 | Two name lists in either order give the same verdict and, when accepted, the same set |
| SinkConfig.DefaultsParse | src/test/java/io/confluent/connect/jdbc/sink/JdbcSinkConfigTest.java:65-75 | The default texts ${topic}, TABLE and true parse to the settings used for absent keys: the format itself, {TABLE} and true |
| SinkConfig.TableNameFormat | src/test/java/io/confluent/connect/jdbc/sink/JdbcSinkConfigTest.java:59-69 | The table.name.format setting is trimmed, and empty exactly when a given value is all blank (the default ${topic} is not) |
| SinkConfig.TableTypesSetting | src/test/java/io/confluent/connect/jdbc/sink/JdbcSinkConfigTest.java:65-139 | The table.types setting is {TABLE} when absent; a given list is accepted exactly when it is non-empty and every item names a kind, and then holds exactly the kinds named |
| SinkConfig.HoldlockSetting | src/test/java/io/confluent/connect/jdbc/sink/JdbcSinkConfigTest.java:71-82 | The HOLDLOCK setting is true exactly when absent or "true" in any case, false exactly for "false" in any case |
| SinkConfig.Create | src/test/java/io/confluent/connect/jdbc/sink/JdbcSinkConfigTest.java:53-63 | A map without connection.url is rejected as missing it; an accepted configuration has the trimmed URL, a non-empty format and a non-empty set of table types |
| SinkConfig.CreateIff | src/test/java/io/confluent/connect/jdbc/sink/JdbcSinkConfigTest.java:53-139 | A map is accepted if and only if it has a URL, no blank format, a non-empty table-type list of known names if any, and a boolean HOLDLOCK flag if any; the table types are then exactly the kinds named, or {TABLE} when absent |
| SinkConfig.BlankTableNameFormatRejected | src/test/java/io/confluent/connect/jdbc/sink/JdbcSinkConfigTest.java:59-63 | A table.name.format that trims to nothing is rejected as invalid for that key |
| SinkConfig.HoldlockIff | src/test/java/io/confluent/connect/jdbc/sink/JdbcSinkConfigTest.java:71-82 | An accepted configuration uses HOLDLOCK if and only if the key is absent or its value is "true" in any case |
| SinkConfig.UnrelatedKeysIgnored | src/test/java/io/confluent/connect/jdbc/sink/JdbcSinkConfigTest.java:84-91 | In this model, setting a key outside the four it reads changes nothing (the connector also checks the values of other keys, such as pk.mode; the test gives valid ones) |
| SinkConfig.TableTypesIgnoreOrder | src/test/java/io/confluent/connect/jdbc/sink/JdbcSinkConfigTest.java:114-125 | Two comma-free item lists written in either order give the same verdict and the same configuration |
| SinkConfig.ListOfLists | src/test/java/io/confluent/connect/jdbc/sink/JdbcSinkConfigTest.java:114-125 | Two lists written one after the other read as the trimmed items of the first, then of the second |
| SinkConfig.CreateWithTableTypes | src/test/java/io/confluent/connect/jdbc/sink/JdbcSinkConfigTest.java:93-139 | Setting table.types changes only the table-type setting: acceptance and the result are given by the other settings and the parsed list |
| SinkConfigTest.RejectsMissingConnectionUrl | src/test/java/io/confluent/connect/jdbc/sink/JdbcSinkConfigTest.java:53-57 | Without connection.url the map is rejected as missing it |
| SinkConfigTest.RejectsEmptyTableNameFormat | src/test/java/io/confluent/connect/jdbc/sink/JdbcSinkConfigTest.java:59-63 | An empty table.name.format is rejected as invalid |
| SinkConfigTest.MinimalConfig | src/test/java/io/confluent/connect/jdbc/sink/JdbcSinkConfigTest.java:65-75 | The URL alone gives the default format, table types {TABLE} and HOLDLOCK on |
| SinkConfigTest.NoHoldlock | src/test/java/io/confluent/connect/jdbc/sink/JdbcSinkConfigTest.java:77-82 | "false" is accepted and turns HOLDLOCK off |
| SinkConfigTest.AdditionalConfigs | src/test/java/io/confluent/connect/jdbc/sink/JdbcSinkConfigTest.java:84-91 | auto.create, pk.mode and pk.fields leave the configuration as the minimal one, table types {TABLE} |
| SinkConfigTest.ViewOnly | src/test/java/io/confluent/connect/jdbc/sink/JdbcSinkConfigTest.java:93-98 | "view" gives {VIEW} |
| SinkConfigTest.TableOnly | src/test/java/io/confluent/connect/jdbc/sink/JdbcSinkConfigTest.java:100-105 | "table" gives {TABLE} |
| SinkConfigTest.PartitionedTableOnly | src/test/java/io/confluent/connect/jdbc/sink/JdbcSinkConfigTest.java:107-112 | "partitioned table", inner space kept, gives {PARTITIONED_TABLE} |
| SinkConfigTest.ViewAndTable | src/test/java/io/confluent/connect/jdbc/sink/JdbcSinkConfigTest.java:114-125 | "view,table", "table,view" and "table , view" each give {TABLE, VIEW} |
| SinkConfigTest.LeadingWhitespace | src/test/java/io/confluent/connect/jdbc/sink/JdbcSinkConfigTest.java:127-132 | Spaces, a tab and a newline before "view" are stripped: {VIEW} |
| SinkConfigTest.TrailingWhitespace | src/test/java/io/confluent/connect/jdbc/sink/JdbcSinkConfigTest.java:134-139 | Spaces, a tab and a newline after "table" are stripped: {TABLE} |

## Left out

- Threads, the executor and the `CountDownLatch` of the close test: the other thread's `close(true)` is the `closeAfter` parameter, so the close always falls in a backoff after a failed attempt; no locking is modelled.
- Backoff timing: the backoff is kept as a constant of the cache but no clock or sleep is modelled.
- CachedConnections.CachedConnectionProvider.Close: `releaseImmediately` has no effect in this sequential model, where the loop sees the close at once; whether `close` also closes the raw provider is not modelled.
- The validity probe's timeout argument, real JDBC drivers and `java.sql.Connection`: a connection is an opaque token, and a probe or release that throws is not modelled beyond the probe's false answer.
- The EasyMock and PowerMock scaffolding: the strict mock's call count becomes the scripted provider's `calls` counter.
- Credentials-provider selection by class name (the tests at JdbcSinkConfigTest.java lines 141-201): it needs reflection and class loading.
- Every other sink setting (`auto.create`, `pk.mode`, `pk.fields`, ...): they are accepted and ignored here.
- Error messages and logging: an error is a kind plus the offending key and value.
- Strings.EqualsIgnoreCase: folds ASCII letters only, not the full Unicode case mapping of `equalsIgnoreCase`.
- ConfigValues.ParseList: trims each item with `String.trim` instead of cutting at the pattern `\s*,\s*`; the two differ only for control characters other than `\t\n\x0B\f\r` next to a comma, and `TableType.get` trims those anyway, so the table types are the same.
- SinkConfig.Create: every rejection is a `ConfigError`, whatever exception the connector raises; an empty `table.types` list, which `EnumSet.copyOf` rejects with an `IllegalArgumentException`, is reported as `Invalid` for that key like the `ConfigException` cases.
- SinkConfig.Create: when several keys are wrong at once, it reports the first of `connection.url`, `table.name.format`, `table.types`, `mssql.use.merge.holdlock`; which error the connector reports first is not fixed by the tests.
