/**
 * Derivation of the connection-pool settings from the client configuration (getPgConfig)
 * and the statement-cache hook it installs (observeStatementCacheState).
 */
module PoolConfig {
  import opened Wrappers
  import ConnStr

  newtype int32 = x: int | -0x8000_0000 <= x < 0x8000_0000
  newtype int64 = x: int | -0x8000_0000_0000_0000 <= x < 0x8000_0000_0000_0000

  /** pgx's default statement-cache capacity, which the client uses when the cache is enabled. */
  const STATEMENT_CACHE_CAPACITY: int := 512

  /** Go's conversion int32(x) of a 64-bit integer: keep the low 32 bits, read as two's complement. */
  function Int32Of(x: int64): (r: int32)
    ensures (x as int - r as int) % 0x1_0000_0000 == 0
    ensures -0x8000_0000 <= x < 0x8000_0000 ==> r as int == x as int
  {
    var low := (x as int) % 0x1_0000_0000;
    if low < 0x8000_0000 then low as int32 else (low - 0x1_0000_0000) as int32
  }

  /** The hook run by the pool after a connection is released (only one kind exists). */
  datatype ReleaseHook = StatementCacheObserver

  /** The schema-lock hook run by the pool on every new connection (LockFunc), left abstract. */
  datatype LockFunc = LockFunc(name: string)

  /** The parts of pgxpool.Config the client reads or writes; `other` stands for the rest of what parsing produced. */
  datatype PgxPoolConfig = PgxPoolConfig(
    minConns: int32,
    maxConns: int32,
    afterConnect: Option<LockFunc>,
    afterRelease: Option<ReleaseHook>,
    preferSimpleProtocol: bool,
    other: string)

  /** The client configuration, as far as getPgConfig reads it. */
  datatype Config = Config(
    connectionStr: string,          // what cfg.GetConnectionStr() returns
    enableStatementsCache: bool,
    ignoreCompressedChunks: bool,
    asyncAcks: bool)

  /** What cfg.GetNumConnections() returned: min and max pool size, number of copiers, error. */
  datatype NumConnections = NumConnections(min: int64, max: int64, numCopiers: int64, err: Option<Error>)

  /** A pgx connection handed to the release hook; what the hook would observe of it is not modelled. */
  datatype Conn = Conn

  /** The process-wide gauges reporting whether the statement cache is on and its capacity. */
  class StatementCacheGauges {
    var enabled: int
    var capacity: int

    constructor ()
      ensures enabled == 0 && capacity == 0
    {
      enabled, capacity := 0, 0;
    }
  }

  /**
   * observeStatementCacheState: whatever it observes (or skips observing, before the metrics
   * exist or when the connection has no statement cache), it tells the pool to keep the connection.
   */
  function ObserveStatementCacheState(conn: Conn): (keep: bool)
    ensures keep
  {
    true
  }

  /**
   * What the pool learns when it runs a release hook on a connection: whether to keep it.
   * The only hook, installed by TunedConfig, is observeStatementCacheState, so a released
   * connection always goes back to the pool.
   */
  function ReleaseHookKeeps(hook: ReleaseHook, conn: Conn): (keep: bool)
    ensures keep
  {
    match hook
    case StatementCacheObserver => ObserveStatementCacheState(conn)
  }

  /**
   * The pool settings getPgConfig derives from the parsed ones: the connection counts narrowed
   * to 32 bits; with the statement cache on, the release hook that observes it; with the
   * cache off, the simple protocol (no server-side prepared statements). Nothing else changes.
   */
  function TunedConfig(parsed: PgxPoolConfig, conns: NumConnections, enableStatementsCache: bool): (c: PgxPoolConfig)
    ensures c.minConns == Int32Of(conns.min) && c.maxConns == Int32Of(conns.max)
    ensures c.afterConnect == parsed.afterConnect && c.other == parsed.other
    ensures enableStatementsCache ==>
              c.afterRelease == Some(StatementCacheObserver) && c.preferSimpleProtocol == parsed.preferSimpleProtocol
    ensures !enableStatementsCache ==> c.afterRelease == parsed.afterRelease && c.preferSimpleProtocol
  {
    var sized := parsed.(minConns := Int32Of(conns.min), maxConns := Int32Of(conns.max));
    if enableStatementsCache then sized.(afterRelease := Some(StatementCacheObserver))
    else sized.(preferSimpleProtocol := true)
  }

  /**
   * getPgConfig. `parse` stands for pgxpool.ParseConfig. The connection counts are copied
   * (narrowed to 32 bits), the statement-cache toggle decides the release hook, the wire
   * protocol and the two gauges; either error is returned with no config and the gauges untouched.
   * The number of copiers is returned on every path. On success the connection string is
   * logged only in redacted form (`urlParse` and `urlRender` stand for net/url); `logged` is that line.
   */
  method GetPgConfig(cfg: Config, conns: NumConnections, parse: string -> Result<PgxPoolConfig, Error>,
                     urlParse: string -> Option<ConnStr.ConnUrl>, urlRender: ConnStr.ConnUrl -> string,
                     gauges: StatementCacheGauges)
    returns (pgConfig: Option<PgxPoolConfig>, numCopiers: int64, err: Option<Error>, ghost logged: Option<string>)
    modifies gauges
    ensures logged == if err.None? then Some(ConnStr.RedactedConnStr(cfg.connectionStr, urlParse, urlRender)) else None
    ensures numCopiers == conns.numCopiers
    ensures err.None? <==> conns.err.None? && parse(cfg.connectionStr).Success?
    ensures err.None? <==> pgConfig.Some?
    ensures conns.err.Some? ==> err == conns.err
    ensures conns.err.None? && parse(cfg.connectionStr).Failure? ==> err == Some(parse(cfg.connectionStr).error)
    ensures err.Some? ==> gauges.enabled == old(gauges.enabled) && gauges.capacity == old(gauges.capacity)
    ensures pgConfig.Some? ==>
              && pgConfig.value == TunedConfig(parse(cfg.connectionStr).value, conns, cfg.enableStatementsCache)
              && gauges.enabled == (if cfg.enableStatementsCache then 1 else 0)
              && gauges.capacity == (if cfg.enableStatementsCache then STATEMENT_CACHE_CAPACITY else 0)
  {
    numCopiers := conns.numCopiers;
    if conns.err.Some? {
      return None, numCopiers, conns.err, None;
    }
    var parsed := parse(cfg.connectionStr);
    if parsed.Failure? {
      return None, numCopiers, Some(parsed.error), None;
    }
    var c := parsed.value;
    c := c.(minConns := Int32Of(conns.min), maxConns := Int32Of(conns.max));
    if cfg.enableStatementsCache {
      c := c.(afterRelease := Some(StatementCacheObserver));
      gauges.enabled := 1;
      gauges.capacity := STATEMENT_CACHE_CAPACITY;
    } else {
      c := c.(preferSimpleProtocol := true);
      gauges.enabled := 0;
      gauges.capacity := 0;
    }
    logged := Some(ConnStr.RedactedConnStr(cfg.connectionStr, urlParse, urlRender));
    pgConfig, err := Some(c), None;
  }
}
