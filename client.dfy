/**
 * The client façade (pgclient.Client): construction over a connection pool, remote read,
 * and the ordered teardown of its subsystems.
 */
module PgClient {
  import opened Wrappers
  import opened PoolConfig
  import opened Lifecycle
  import ConnStr

  // Remote-read messages (prompb), as far as the client handles them.
  datatype Label = Label(name: string, value: string)
  datatype Sample = Sample(timestampMs: int, value: real)
  datatype TimeSeries = TimeSeries(labels: seq<Label>, samples: seq<Sample>)
  datatype MatchType = Equal | NotEqual | RegexMatch | RegexNoMatch
  datatype LabelMatcher = LabelMatcher(matchType: MatchType, name: string, value: string)
  datatype Query = Query(startTimestampMs: int, endTimestampMs: int, matchers: seq<LabelMatcher>)
  datatype QueryResult = QueryResult(timeseries: seq<TimeSeries>)
  datatype ReadRequest = ReadRequest(queries: seq<Query>)
  datatype ReadResponse = ReadResponse(results: seq<QueryResult>)

  /** The querier's remote-read query: the series matching one query, or an error. */
  type RemoteReadQuerier = Query -> Result<seq<TimeSeries>, Error>

  /** The ingestor's settings, as NewClientWithPool assembles them. */
  datatype IngestorCfg = IngestorCfg(numCopiers: int64, ignoreCompressedChunks: bool, asyncAcks: bool)
  datatype Ingestor = Ingestor(cfg: IngestorCfg)

  /** The telemetry engine: the database-backed one, or the no-op stand-in. */
  datatype TelemetryEngine = DatabaseEngine | NoopEngine

  /** The cancel function of the background health-check routine. */
  datatype CancelFunc = StopHealthCheckRoutine

  /** The high-availability service; no constructor in this file sets one. */
  datatype HaService = HaService

  /**
   * The sigClose channel. Construction always leaves it open; NilChannel and Closed name the
   * states in which Go's `close` panics, which is why Close requires Open.
   */
  datatype Channel = NilChannel | Open | Closed

  /** A connection pool; several clients may share one, only its owner closes it. */
  class Pool {
    const config: PgxPoolConfig
    var closed: bool

    constructor (config: PgxPoolConfig)
      ensures this.config == config && !closed
    {
      this.config := config;
      closed := false;
    }
  }

  /**
   * Index of the first query the querier fails on, or the number of queries when none fails.
   */
  function FirstFailure(queries: seq<Query>, querier: RemoteReadQuerier): (k: nat)
    ensures k <= |queries|
    ensures forall j :: 0 <= j < k ==> querier(queries[j]).Success?
    ensures k < |queries| ==> querier(queries[k]).Failure?
  {
    if queries == [] then 0
    else if querier(queries[0]).Failure? then 0
    else 1 + FirstFailure(queries[1..], querier)
  }

  /** Some query fails exactly when the first failure lies inside the request. */
  lemma FirstFailureInside(queries: seq<Query>, querier: RemoteReadQuerier)
    ensures FirstFailure(queries, querier) < |queries| <==>
              exists i :: 0 <= i < |queries| && querier(queries[i]).Failure?
  {
  }

  class Client {
    const connection: Pool
    const ingestor: Option<Ingestor>
    const querier: RemoteReadQuerier
    const telemetryEngine: Option<TelemetryEngine>
    const stopHealthChecker: Option<CancelFunc>
    const haService: Option<HaService>
    var closePool: bool
    var sigClose: Channel
    /** What has been started and stopped on this client's subsystems, in order. */
    ghost var events: seq<Event>

    /** The struct literal at the end of NewClientWithPool. */
    constructor (connection: Pool, ingestor: Option<Ingestor>, querier: RemoteReadQuerier,
                 telemetryEngine: TelemetryEngine, ghost events: seq<Event>)
      ensures this.connection == connection && this.ingestor == ingestor && this.querier == querier
      ensures this.telemetryEngine == Some(telemetryEngine)
      ensures stopHealthChecker.Some? && haService.None?
      ensures !closePool && sigClose == Open && this.events == events
    {
      this.connection := connection;
      this.ingestor := ingestor;
      this.querier := querier;
      this.telemetryEngine := Some(telemetryEngine);
      stopHealthChecker := Some(StopHealthCheckRoutine);
      haService := None;
      closePool := false;
      sigClose := Open;
      this.events := events;
    }

    /** Which subsystems Close will find present. */
    function Held(): Subsystems
      reads this
    {
      Subsystems(stopHealthChecker.Some?, telemetryEngine.Some?, ingestor.Some?, closePool, haService.Some?)
    }

    /**
     * Close: tears the subsystems down in Teardown's order, skipping absent ones; the pool is
     * closed only when the client owns it. A second Close would close sigClose again, which
     * panics in Go, so sigClose must still be open.
     */
    method Close()
      requires sigClose == Open
      modifies this, connection
      ensures events == old(events) + Teardown(old(Held()))
      ensures sigClose == Closed && closePool == old(closePool)
      ensures connection.closed == (old(connection.closed) || closePool)
    {
      if stopHealthChecker.Some? {
        events := events + [CancelHealthChecker];
      }
      if telemetryEngine.Some? {
        events := events + [StopTelemetry];
      }
      if ingestor.Some? {
        events := events + [CloseIngestor];
      }
      sigClose := Closed;
      events := events + [CloseSigClose];
      if closePool {
        connection.closed := true;
        events := events + [ClosePool];
      }
      if haService.Some? {
        events := events + [CloseHaService];
      }
      TeardownFromAppends(old(events), old(Held()));
    }

    /**
     * Read: no request gives no response and no error, and the querier is not asked. Otherwise
     * the queries are run in order; the first error is returned alone and the queries after it
     * are never issued; without an error there is one result per query, in query order.
     */
    method Read(req: Option<ReadRequest>) returns (resp: Option<ReadResponse>, err: Option<Error>, ghost issued: seq<Query>)
      ensures req.None? ==> resp.None? && err.None?
      ensures req.Some? && FirstFailure(req.value.queries, querier) == |req.value.queries| ==>
                var queries := req.value.queries;
                && err.None? && resp.Some?
                && |resp.value.results| == |queries|
                && forall i :: 0 <= i < |queries| ==> querier(queries[i]) == Success(resp.value.results[i].timeseries)
      ensures req.Some? && FirstFailure(req.value.queries, querier) < |req.value.queries| ==>
                var queries, k := req.value.queries, FirstFailure(req.value.queries, querier);
                resp.None? && err == Some(querier(queries[k]).error)
      // the queries sent to the querier: none without a request, then all of them up to the first failure
      ensures req.None? ==> issued == []
      ensures req.Some? ==>
                var queries, k := req.value.queries, FirstFailure(req.value.queries, querier);
                issued == if k < |queries| then queries[..k + 1] else queries
    {
      if req.None? {
        return None, None, [];
      }
      var queries := req.value.queries;
      var results := new QueryResult[|queries|];
      var qr := querier;
      issued := [];
      for i := 0 to |queries|
        invariant issued == queries[..i]
        invariant i <= FirstFailure(queries, qr)
        invariant forall j :: 0 <= j < i ==> qr(queries[j]) == Success(results[j].timeseries)
      {
        var tts := qr(queries[i]);
        issued := issued + [queries[i]];
        if tts.Failure? {
          return None, Some(tts.error), issued;
        }
        results[i] := QueryResult(tts.value);
      }
      return Some(ReadResponse(results[..])), None, issued;
    }
  }

  /**
   * NewClientWithPool over an existing pool, which the new client does not own.
   * `engineCreated` is whether telemetry.NewEngine returned an engine; `ingestorErr` is what
   * building the ingestor returned (asked only when not read-only); `querier` is the remote-read
   * querier built over the pool. `started` is what was started on the way.
   */
  method NewClientWithPool(cfg: Config, numCopiers: int64, pool: Pool, readOnly: bool,
                           engineCreated: bool, ingestorErr: Option<Error>, querier: RemoteReadQuerier)
    returns (client: Client?, err: Option<Error>, ghost started: seq<Event>)
    ensures err == (if readOnly then None else ingestorErr)
    ensures client == null <==> err.Some?
    ensures err.Some? ==> started == [StartTelemetry]
    ensures client != null ==>
              && fresh(client)
              && client.connection == pool && client.querier == querier
              && (client.ingestor.None? <==> readOnly)
              && (!readOnly ==> client.ingestor == Some(Ingestor(IngestorCfg(numCopiers, cfg.ignoreCompressedChunks, cfg.asyncAcks))))
              && client.telemetryEngine == Some(if engineCreated then DatabaseEngine else NoopEngine)
              && client.Held() == Constructed(readOnly, false)
              && client.sigClose == Open
              && client.events == started == Startup(readOnly)
  {
    var telemetryEngine := if engineCreated then DatabaseEngine else NoopEngine;
    started := [StartTelemetry];
    var dbIngestor: Option<Ingestor> := None;
    if !readOnly {
      if ingestorErr.Some? {
        return null, ingestorErr, started;
      }
      dbIngestor := Some(Ingestor(IngestorCfg(numCopiers, cfg.ignoreCompressedChunks, cfg.asyncAcks)));
      started := started + [StartIngestor];
    }
    started := started + [StartHealthChecker];
    client := new Client(pool, dbIngestor, querier, telemetryEngine, started);
    err := None;
  }

  /**
   * NewClient: derives the pool settings, installs the schema locker, connects a new pool and
   * builds the client over it; only then does the client own its pool. `connectErr` is what
   * pgxpool.ConnectConfig returned. Every error aborts construction and is returned as is.
   * When building the client over a freshly connected pool fails, that pool is not closed:
   * `leaked` is it, still open.
   */
  method NewClient(cfg: Config, conns: NumConnections, parse: string -> Result<PgxPoolConfig, Error>,
                   urlParse: string -> Option<ConnStr.ConnUrl>, urlRender: ConnStr.ConnUrl -> string,
                   schemaLocker: Option<LockFunc>, readOnly: bool, connectErr: Option<Error>,
                   engineCreated: bool, ingestorErr: Option<Error>, querier: RemoteReadQuerier,
                   gauges: StatementCacheGauges)
    returns (client: Client?, err: Option<Error>, ghost leaked: Pool?)
    modifies gauges
    ensures client == null <==> err.Some?
    ensures conns.err.None? && parse(cfg.connectionStr).Success? && connectErr.None? && err.Some? ==>
              leaked != null && fresh(leaked) && !leaked.closed
    ensures err.None? ==> leaked == null
    ensures err.Some? && !(conns.err.None? && parse(cfg.connectionStr).Success? && connectErr.None?) ==> leaked == null
    ensures leaked != null ==>
              leaked.config ==
                TunedConfig(parse(cfg.connectionStr).value, conns, cfg.enableStatementsCache).(afterConnect := schemaLocker)
    ensures conns.err.Some? || parse(cfg.connectionStr).Failure? ==>
              gauges.enabled == old(gauges.enabled) && gauges.capacity == old(gauges.capacity)
    ensures conns.err.None? && parse(cfg.connectionStr).Success? ==>
              && gauges.enabled == (if cfg.enableStatementsCache then 1 else 0)
              && gauges.capacity == (if cfg.enableStatementsCache then STATEMENT_CACHE_CAPACITY else 0)
    ensures conns.err.Some? ==> err == conns.err
    ensures conns.err.None? && parse(cfg.connectionStr).Failure? ==> err == Some(parse(cfg.connectionStr).error)
    ensures conns.err.None? && parse(cfg.connectionStr).Success? && connectErr.Some? ==> err == connectErr
    ensures conns.err.None? && parse(cfg.connectionStr).Success? && connectErr.None? ==>
              err == (if readOnly then None else ingestorErr)
    ensures client != null ==>
              && fresh(client) && fresh(client.connection) && !client.connection.closed
              && client.connection.config ==
                   TunedConfig(parse(cfg.connectionStr).value, conns, cfg.enableStatementsCache).(afterConnect := schemaLocker)
              && client.closePool
              && client.Held() == Constructed(readOnly, true)
              && (!readOnly ==> client.ingestor == Some(Ingestor(IngestorCfg(conns.numCopiers, cfg.ignoreCompressedChunks, cfg.asyncAcks))))
              && client.telemetryEngine == Some(if engineCreated then DatabaseEngine else NoopEngine)
              && client.sigClose == Open
              && client.events == Startup(readOnly)
  {
    ghost var logged;
    var pgConfig, numCopiers, cfgErr;
    pgConfig, numCopiers, cfgErr, logged := GetPgConfig(cfg, conns, parse, urlParse, urlRender, gauges);
    leaked := null;
    if cfgErr.Some? {
      return null, cfgErr, null;
    }
    var poolConfig := pgConfig.value.(afterConnect := schemaLocker);
    if connectErr.Some? {
      return null, connectErr, null;
    }
    var connectionPool := new Pool(poolConfig);
    ghost var started;
    client, err, started := NewClientWithPool(cfg, numCopiers, connectionPool, readOnly, engineCreated, ingestorErr, querier);
    if err.Some? {
      return client, err, connectionPool;
    }
    client.closePool := true;
  }
}
