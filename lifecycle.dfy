/**
 * The client's lifecycle as a sequence of events on its subsystems: what construction
 * starts (NewClientWithPool) and what Close tears down, in which order and under which presence.
 */
module Lifecycle {

  datatype Event =
    // construction, in the order NewClientWithPool performs it
    | StartTelemetry
    | StartIngestor
    | StartHealthChecker
    // teardown, in the order Close performs it
    | CancelHealthChecker
    | StopTelemetry
    | CloseIngestor
    | CloseSigClose
    | ClosePool
    | CloseHaService

  /** Which optional subsystems a client holds when Close runs; `ownsPool` is the closePool flag. */
  datatype Subsystems = Subsystems(
    healthChecker: bool,
    telemetry: bool,
    ingestor: bool,
    ownsPool: bool,
    haService: bool)

  predicate IsTeardown(e: Event)
  {
    !(e.StartTelemetry? || e.StartIngestor? || e.StartHealthChecker?)
  }

  /** Position of a teardown step in Close's fixed order. */
  function TeardownRank(e: Event): nat
  {
    match e
    case CancelHealthChecker => 0
    case StopTelemetry => 1
    case CloseIngestor => 2
    case CloseSigClose => 3
    case ClosePool => 4
    case CloseHaService => 5
    case _ => 6
  }

  /** The teardown step that undoes a construction step. */
  function Undo(e: Event): Event
  {
    match e
    case StartTelemetry => StopTelemetry
    case StartIngestor => CloseIngestor
    case StartHealthChecker => CancelHealthChecker
    case other => other
  }

  /** `e` alone when `present` holds, nothing otherwise. */
  function When(present: bool, e: Event): seq<Event>
  {
    if present then [e] else []
  }

  /** Teardown steps in strictly increasing rank. */
  predicate Ascending(events: seq<Event>)
  {
    && (forall i :: 0 <= i < |events| ==> IsTeardown(events[i]))
    && (forall i, j :: 0 <= i < j < |events| ==> TeardownRank(events[i]) < TeardownRank(events[j]))
  }

  /** `log` followed by step `e` when `present` holds. */
  function After(log: seq<Event>, present: bool, e: Event): seq<Event>
  {
    if present then log + [e] else log
  }

  /** The log after Close has run on a client holding `p`: one step per subsystem present, plus the close signal. */
  function TeardownFrom(log: seq<Event>, p: Subsystems): seq<Event>
  {
    var s0 := After(log, p.healthChecker, CancelHealthChecker);
    var s1 := After(s0, p.telemetry, StopTelemetry);
    var s2 := After(s1, p.ingestor, CloseIngestor);
    var s3 := After(s2, true, CloseSigClose);
    var s4 := After(s3, p.ownsPool, ClosePool);
    After(s4, p.haService, CloseHaService)
  }

  /** The steps Close takes on a client holding `p`. */
  function Teardown(p: Subsystems): seq<Event>
  {
    TeardownFrom([], p)
  }

  /** Close only appends: the earlier log is kept and Teardown's steps follow it. */
  lemma {:induction false} TeardownFromAppends(log: seq<Event>, p: Subsystems)
    ensures TeardownFrom(log, p) == log + Teardown(p)
  {
  }

  /** Appending a step ranked after every step so far keeps the log ascending, and nothing ranks above it. */
  lemma AfterAscending(log: seq<Event>, present: bool, e: Event)
    requires Ascending(log) && IsTeardown(e)
    requires forall x :: x in log ==> TeardownRank(x) < TeardownRank(e)
    ensures Ascending(After(log, present, e))
    ensures forall x :: x in After(log, present, e) ==> TeardownRank(x) <= TeardownRank(e)
  {
  }

  /** Close performs its steps in the fixed order health checker, telemetry, ingestor, close signal, pool, HA service. */
  lemma {:induction false} TeardownAscending(p: Subsystems)
    ensures Ascending(Teardown(p))
  {
    var s0 := After([], p.healthChecker, CancelHealthChecker);
    AfterAscending([], p.healthChecker, CancelHealthChecker);
    var s1 := After(s0, p.telemetry, StopTelemetry);
    AfterAscending(s0, p.telemetry, StopTelemetry);
    var s2 := After(s1, p.ingestor, CloseIngestor);
    AfterAscending(s1, p.ingestor, CloseIngestor);
    var s3 := After(s2, true, CloseSigClose);
    AfterAscending(s2, true, CloseSigClose);
    var s4 := After(s3, p.ownsPool, ClosePool);
    AfterAscending(s3, p.ownsPool, ClosePool);
    AfterAscending(s4, p.haService, CloseHaService);
  }

  /**
   * Close skips each absent subsystem, always closes the shared close signal and closes the
   * pool only when the client owns it.
   */
  lemma {:induction false} TeardownSteps(p: Subsystems)
    ensures CancelHealthChecker in Teardown(p) <==> p.healthChecker
    ensures StopTelemetry in Teardown(p) <==> p.telemetry
    ensures CloseIngestor in Teardown(p) <==> p.ingestor
    ensures CloseSigClose in Teardown(p)
    ensures ClosePool in Teardown(p) <==> p.ownsPool
    ensures CloseHaService in Teardown(p) <==> p.haService
  {
  }

  /** The subsystems NewClientWithPool starts, in order; the ingestor is skipped when read-only. */
  function Startup(readOnly: bool): (events: seq<Event>)
    ensures forall e :: e in events <==> e == StartTelemetry || e == StartHealthChecker || (!readOnly && e == StartIngestor)
    ensures forall i :: 0 <= i < |events| ==> !IsTeardown(events[i])
    ensures |events| > 0 && events[0] == StartTelemetry && events[|events| - 1] == StartHealthChecker
  {
    [StartTelemetry] + When(!readOnly, StartIngestor) + [StartHealthChecker]
  }

  /** What a freshly constructed client holds: everything but an HA service, the ingestor unless read-only. */
  function Constructed(readOnly: bool, ownsPool: bool): Subsystems
  {
    Subsystems(true, true, !readOnly, ownsPool, false)
  }

  /**
   * Nothing construction starts outlives Close, and Close stops nothing construction did not start:
   * a construction step belongs to the startup of a client exactly when the step undoing it
   * belongs to that client's teardown.
   */
  lemma {:induction false} TeardownUndoesStartup(readOnly: bool, ownsPool: bool)
    ensures forall e :: !IsTeardown(e) ==>
              (e in Startup(readOnly) <==> Undo(e) in Teardown(Constructed(readOnly, ownsPool)))
  {
  }
}
