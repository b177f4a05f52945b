# Promscale PostgreSQL client façade, modelled in Dafny

This project models the client façade of Promscale's PostgreSQL backend (`pkg/pgclient/client.go`).
Promscale is a remote-storage adapter that writes Prometheus samples and traces into TimescaleDB and
serves remote-read queries back out of it. The façade owns a connection pool and a set of subsystems
(health-check routine, telemetry engine, ingestor, a close signal shared with the series cache, an
optional HA service). It builds them, serves remote reads through the querier, and tears them down.

Modules, one per concern of the file:

- `Wrappers` (`wrappers.dfy`): `Option` and `Result`, which stand in for Go's nil pointers and `(value, error)` pairs, and an opaque `Error`.
- `ConnStr` (`connstr.dfy`): `getRedactedConnStr`. URL parsing and printing (net/url) are parameters: a partial parser `string -> Option<ConnUrl>` and a printer.
- `PoolConfig` (`pool_config.dfy`): `getPgConfig`, Go's `int32(...)` narrowing, the statement-cache gauges (a class, since they are process-wide state the function mutates), and the `observeStatementCacheState` release hook.
- `Lifecycle` (`lifecycle.dfy`): the subsystems' start and stop steps as events, the teardown `Close` performs as a function of which subsystems are present, and its properties.
- `PgClient` (`client.dfy`): the `Client` class (`Close`, `Read`), `NewClientWithPool` and `NewClient`. The pool is a class, so that "closed only when owned" is a fact about shared heap state.

Facts about the code that shape the model:
- **Construction order.** Telemetry is started first (client.go:176). Then the ingestor is built, unless the client is read-only (179-186). Then the health-check routine starts (188-189).
- **`Read(nil)`.** It returns (nil, nil) (client.go:247-249).
- **`Close` twice.** `Close` closes `sigClose` unconditionally (client.go:222). Closing a closed or nil channel panics in Go, so `Close` requires the channel to be open, and a second `Close` is outside its contract.
- **What `Close` closes.** The caches are not closed directly. `Close` closes the `sigClose` channel, which the series cache was built with (client.go:152).

Only the password in the URL's user info is masked. A password in key=value form (`host=h user=u password=secret`, which `pgxpool.ParseConfig` accepts and `url.Parse` reads as a path), or in a `password=` query parameter, is part of the rest of the URL and is logged as printed (client.go:95, 131-143). `ConnStr.ConnUrl` keeps it in `rest`.

Two error paths leave resources running, and the contracts state both:
- When building the ingestor fails (client.go:181-185), the telemetry engine started at line 176 is not stopped. `NewClientWithPool` reports `started == [StartTelemetry]` and returns no client.
- When `NewClientWithPool` fails inside `NewClient` (client.go:80-82), the pool connected at line 74 is not closed. `NewClient` returns it as the ghost result `leaked`, fresh and still open.

## Model

| member | source | states |
|---|---|---|
| `ConnStr.Redact` | pkg/pgclient/client.go:139-141 | a set password becomes `"****"`; the user name and the rest of the URL are kept; a URL without a password is unchanged |
| `ConnStr.RedactedConnStr` | pkg/pgclient/client.go:130-144 | a string that does not parse is replaced by the fixed `"****"`; otherwise the result is the parsed URL printed back, with a present password masked and everything else as parsed |
| `ConnStr.RedactedConnStrHidesPassword` | pkg/pgclient/client.go:130-144 | when printing and parsing round-trip, the logged string parses back to the same user name and rest, and its password is `"****"` exactly when the original had one (the user-info password is never the original one) |
| `ConnStr.RedactedConnStrKeepsPasswordless` | pkg/pgclient/client.go:139-143 | a string in printed form without a password is logged unchanged |
| `ConnStr.RedactedConnStrIdempotent` | pkg/pgclient/client.go:130-144 | redacting an already redacted parsable string gives the same string |
| `PoolConfig.Int32Of` | pkg/pgclient/client.go:102-103 | Go's `int32(x)` narrowing: the result is the unique 32-bit value congruent to `x` modulo 2^32, and equals `x` when it fits |
| `PoolConfig.TunedConfig` | pkg/pgclient/client.go:101-120 | min and max connections are copied (narrowed); with the statement cache on, the release hook is the cache observer; with it off, the simple protocol is preferred; other settings are as parsed |
| `PoolConfig.GetPgConfig` | pkg/pgclient/client.go:88-128 | an error from counting connections or from parsing is returned with no config and the gauges untouched; otherwise the config is `TunedConfig` of the parsed one and the gauges read 1/512 (cache on) or 0/0 (cache off); the copier count is returned on every path; the logged line is the redacted connection string |
| `PoolConfig.ObserveStatementCacheState` | pkg/pgclient/client.go:297-311 | the release hook always keeps the connection in the pool |
| `PoolConfig.ReleaseHookKeeps` | pkg/pgclient/client.go:109 | the release hook `getPgConfig` installs is `observeStatementCacheState`, so running it on any released connection keeps that connection |
| `Lifecycle.Startup` | pkg/pgclient/client.go:166-189 | construction starts telemetry first and the health-check routine last, and starts an ingestor exactly when the client is not read-only |
| `Lifecycle.TeardownFromAppends` | pkg/pgclient/client.go:211-229 | teardown only appends to the lifecycle log: the earlier events are kept and the teardown steps follow |
| `Lifecycle.TeardownAscending` | pkg/pgclient/client.go:211-229 | the teardown steps happen in the fixed order: health checker, telemetry, ingestor, close signal, pool, HA service |
| `Lifecycle.TeardownSteps` | pkg/pgclient/client.go:213-228 | each of health-check cancel, telemetry stop, ingestor close and HA close happens exactly when that subsystem is present; the close signal is always closed; the pool is closed exactly when owned |
| `Lifecycle.TeardownUndoesStartup` | pkg/pgclient/client.go:166-228 | for a client as construction leaves it, a subsystem is started exactly when Close stops it |
| `PgClient.FirstFailure` | pkg/pgclient/client.go:257-261 | the index of the first query the querier fails on, or the query count: every query before it succeeds and the one at it fails |
| `PgClient.FirstFailureInside` | pkg/pgclient/client.go:257-261 | the first failure lies inside the request exactly when some query fails |
| `PgClient.Client.constructor` | pkg/pgclient/client.go:191-204 | the struct literal: the given pool, ingestor, querier and telemetry engine, a health-check cancel function, no HA service, pool not owned, close signal open |
| `PgClient.Client.Close` | pkg/pgclient/client.go:211-229 | the lifecycle log grows by exactly `Teardown` of the subsystems held; the close signal ends up closed (it must be open before); the pool is closed only if the client owns it |
| `PgClient.Client.Read` | pkg/pgclient/client.go:246-268 | no request gives (no response, no error) and issues no query; otherwise, when no query fails, there is one result per query and result i holds query i's series; at the first failing query, (no response, that error) is returned and no later query is issued |
| `PgClient.NewClientWithPool` | pkg/pgclient/client.go:147-208 | the ingestor's error (asked only when not read-only) aborts construction and returns no client; otherwise the new client uses the given pool without owning it, has an ingestor exactly when not read-only (with the copier count and the compressed-chunk and async-ack flags of the config), always has a telemetry engine (the no-op one when none could be created), and has started exactly `Startup` |
| `PgClient.NewClient` | pkg/pgclient/client.go:67-86 | every error (counting, parsing, connecting, ingestor) aborts with no client and is returned as is; when the ingestor fails, the freshly connected pool is returned as `leaked`, still open; on success the client owns a freshly connected, open pool whose settings are the derived ones with the schema locker as connect hook |

## Left out

- `PgClient.Client.Read`: the querier is a deterministic function of the query. Database state, and changes to it between the queries of one request, are not modelled.
- `PoolConfig.ObserveStatementCacheState`: only its result is modelled. The histogram observation of the statement-cache size (and the two early returns that skip it) is left out.
- `PoolConfig.GetPgConfig`: the gauges hold integers rather than Prometheus' float values. The log lines other than the redacted connection string are left out. pgx's nested `ConnConfig.PreferSimpleProtocol` is flattened into the pool config.
- Foreign calls become parameters, because their code is in other packages or libraries:
  - `cfg.GetNumConnections`, `cfg.GetConnectionStr`, `pgxpool.ParseConfig` and `pgxpool.ConnectConfig`;
  - `url.Parse` and `URL.String`;
  - `telemetry.NewEngine` and `ingestor.NewPgxIngestor`;
  - the querier's remote-read querier.
- The construction of the caches, label reader, query-logging connection, queryable and health checker is left out. They are opaque objects in other packages. Close calls none of them; it only closes `sigClose`, which the series cache watches. the `Client` fields holding them are left out too.
- Logging is not modelled apart from the redacted connection string. In particular, the "Shutting down Client" line (client.go:212) is not modelled. Neither are the copier count, pool sizes and statement-cache fields logged with the connection string (client.go:121-126).
- The tenancy authorizer parameter is left out; it only flows into the querier.
- `InitClientMetrics` is not part of this model.
- `Ingest`, `IngestTraces`, `HealthCheck`, `Queryable`, `Ingestor`, `NumCachedMetricNames`, `MetricNamesCacheCapacity`, `NumCachedLabels` and `LabelsCacheCapacity` are left out. They only delegate to the ingestor, health checker, queryable and caches, whose code is in other packages.
- `healthCheckRoutine` is left out: it is a background goroutine on a one-minute ticker that reads an environment variable and registers Prometheus counters. That is concurrency and I/O.
- `init` and `PromscaleID` are left out: they are process-wide random UUID generation.
- The `ConnectionStr` field is never assigned in this file and is left out.
- Idempotence of `Close` is not claimed: a second call closes `sigClose` again, which panics.
- Concurrency (Close racing with in-flight ingestion) is out of scope.
