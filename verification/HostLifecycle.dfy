/**
 The host lifecycle as a state machine: the one lifecycle thread steps through start, shutdown and cleanup, and any
 statement of it may fail; between two of its steps workers enter and leave units of work, tasks are submitted and
 finish, the server may die, and a worker's own `quiesce` runs in small steps of its own.
 */
module HostLifecycle {
  import opened Prelude

  datatype HostState = Starting | Migrating | Verifying | Listening | Ready | Quiescing | Stopped | Failed

  datatype Executor = Executor(accepting: bool, outstanding: nat)

  datatype Gate = Gate(accepting: bool, active: nat)

  datatype CloseStep =
    | CloseGate | QuiesceRequest | QuiesceBackground | StopServer | CloseLoopback | CloseRequest | CloseBackground
    | DrainGate | CloseSecurity | RemoveRegistry | ReleaseLock | Report

  datatype Origin = FromStart | FromShutdown | FromRetry

  /** Where the lifecycle thread stands. */
  datatype Stage =
    | Idle
    | Preparing(run: Id) | Locking | BuildingRunner | RunningMigration | VerifyingIdentity | Reopening | Reconciling
    | MakingRequest | MakingBackground | Binding | Securing | Serving | Publishing | Probing | Finishing
    | DrainingWriters | DrainingExecutors | Checkpointing
    | Closing(step: CloseStep, origin: Origin, retain: bool, failed: bool)

  /** The run and data identities of the current start, and whether its schema has been verified. */
  datatype Identity = Identity(run: Option<Id>, data: bool, verified: bool)

  /** The runtime's reference to the instance lock, and whether the operating system still grants it. */
  datatype LockState = LockState(ref: bool, held: bool)

  /** A started flag of the runtime, and what is really alive outside it. */
  datatype Server = Server(started: bool, live: bool)
  datatype Service = Service(started: bool, live: Option<Id>)

  /** Everything the runtime owns; `registry` is the published file. */
  datatype Holdings = Holdings(
    lock: LockState, request: Option<Executor>, background: Option<Executor>, loopback: bool, server: Server,
    security: Service, registry: Service)

  /** Worker-side `quiesce` calls past their check, and past closing the gate. */
  datatype Quiescers = Quiescers(checked: nat, gated: nat)

  datatype Host = Host(state: HostState, stage: Stage, who: Identity, own: Holdings, gate: Gate, quiescers: Quiescers)

  const NOTHING :=
    Holdings(LockState(false, false), None, None, false, Server(false, false), Service(false, None), Service(false, None))
  const NEW := Host(Stopped, Idle, Identity(None, false, false), NOTHING, Gate(false, 0), Quiescers(0, 0))

  /** A step succeeds, or raises, having taken its outside effect first or not. */
  datatype Outcome = Succeeds | Raises(effective: bool)

  datatype Event =
    | CallStart(run: Id) | CallShutdown | CallRetry
    | Advance(outcome: Outcome)
    | QuiesceChecks | QuiesceGates | QuiesceSets
    | WriterEnters | WriterLeaves
    | SubmitRequest | SubmitBackground | FinishRequest | FinishBackground
    | ServerDies

  predicate HasAny(o: Holdings) {
    o.request.Some? || o.background.Some? || o.server.started || o.loopback || o.registry.started || o.security.started
    || o.lock.ref
  }

  predicate HasResources(h: Host) { HasAny(h.own) }

  function Shut(e: Option<Executor>): Option<Executor> {
    if e.None? then None else Some(e.value.(accepting := false))
  }

  function ShutGate(g: Gate): Gate { g.(accepting := false) }

  function ShutExecutors(o: Holdings): Holdings {
    o.(request := Shut(o.request), background := Shut(o.background))
  }

  function At(h: Host, stage: Stage): Host { h.(stage := stage) }

  function Holding(h: Host, own: Holdings, stage: Stage): Host { h.(own := own, stage := stage) }

  /** A failed start closes the gate, marks the host failed and unwinds. */
  function Fail(h: Host): Host {
    h.(gate := ShutGate(h.gate), state := Failed, stage := Closing(CloseGate, FromStart, false, false))
  }

  /* ---- start ---- */

  function Prepare(h: Host, run: Id, o: Outcome): Host {
    if o.Succeeds? then h.(who := h.who.(run := Some(run)), stage := Locking) else Fail(h)
  }

  function AcquireLock(h: Host, o: Outcome): Host {
    if o.Succeeds? then Holding(h, h.own.(lock := LockState(true, true)), BuildingRunner) else Fail(h)
  }

  function Proceed(h: Host, o: Outcome, state: HostState, stage: Stage): Host {
    if o.Succeeds? then h.(state := state, stage := stage) else Fail(h)
  }

  function VerifyIdentity(h: Host, o: Outcome): Host {
    if o.Succeeds? then h.(who := h.who.(data := true, verified := true), stage := Reopening)
    else Fail(h.(who := h.who.(data := h.who.data || o.effective)))
  }

  /** `reopen` refuses while writers are active. */
  function Reopen(h: Host, o: Outcome): Host {
    if h.gate.active > 0 || !o.Succeeds? then Fail(h) else h.(gate := Gate(true, 0), stage := Reconciling)
  }

  function MakeRequest(h: Host, o: Outcome): Host {
    if o.Succeeds? then Holding(h, h.own.(request := Some(Executor(true, 0))), MakingBackground) else Fail(h)
  }

  function MakeBackground(h: Host, o: Outcome): Host {
    if o.Succeeds? then Holding(h, h.own.(background := Some(Executor(true, 0))), Binding) else Fail(h)
  }

  function Bind(h: Host, o: Outcome): Host {
    if o.Succeeds? then Holding(h, h.own.(loopback := true), Securing) else Fail(h)
  }

  /** Cleanup ownership begins before the provider is called. */
  function Secure(h: Host, o: Outcome): Host {
    var live := if o.Succeeds? || o.effective then h.who.run else h.own.security.live;
    var g := h.(own := h.own.(security := Service(true, live)));
    if o.Succeeds? then g.(state := Listening, stage := Serving) else Fail(g)
  }

  function Serve(h: Host, o: Outcome): Host {
    var g := h.(own := h.own.(server := Server(true, o.Succeeds? || o.effective)));
    if o.Succeeds? then At(g, Publishing) else Fail(g)
  }

  /** The published flag is set only after `publish` returns. */
  function Publish(h: Host, o: Outcome): Host {
    if o.Succeeds? then Holding(h, h.own.(registry := Service(true, h.who.run)), Probing)
    else if o.effective then Fail(h.(own := h.own.(registry := h.own.registry.(live := h.who.run))))
    else Fail(h)
  }

  function StartStep(h: Host, o: Outcome): Host {
    match h.stage
    case Preparing(run) => Prepare(h, run, o)
    case Locking => AcquireLock(h, o)
    case BuildingRunner => Proceed(h, o, Migrating, RunningMigration)
    case RunningMigration => Proceed(h, o, Verifying, VerifyingIdentity)
    case VerifyingIdentity => VerifyIdentity(h, o)
    case Reopening => Reopen(h, o)
    case Reconciling => Proceed(h, o, h.state, MakingRequest)
    case MakingRequest => MakeRequest(h, o)
    case MakingBackground => MakeBackground(h, o)
    case Binding => Bind(h, o)
    case Securing => Secure(h, o)
    case Serving => Serve(h, o)
    case Publishing => Publish(h, o)
    case Probing => Proceed(h, o, h.state, Finishing)
    case Finishing => Proceed(h, o, Ready, Idle)
    case _ => h
  }

  /* ---- shutdown ---- */

  predicate Drained(e: Option<Executor>) {
    e.None? || e.value.outstanding == 0
  }

  /** Before cleanup; a drain that reports success is true. */
  function ShutdownStep(h: Host, o: Outcome): Host {
    match h.stage
    case DrainingWriters => At(h, if o.Succeeds? && h.gate.active == 0 then DrainingExecutors else Idle)
    case DrainingExecutors =>
      Holding(h, ShutExecutors(h.own),
              if o.Succeeds? && Drained(h.own.request) && Drained(h.own.background) then Checkpointing else Idle)
    case Checkpointing => At(h, if o.Succeeds? then Closing(CloseGate, FromShutdown, false, false) else Idle)
    case _ => h
  }

  /* ---- Cleanup of runtime resources ---- */

  /** The stage succeeded: on to `step`. */
  function Move(s: Stage, step: CloseStep): Stage
    requires s.Closing?
  {
    s.(step := step)
  }

  /** The stage failed; `retain` keeps ownership of everything after it. */
  function Note(s: Stage, step: CloseStep, retain: bool): Stage
    requires s.Closing?
  {
    Closing(step, s.origin, s.retain || retain, true)
  }

  function CleanGate(h: Host): Host
    requires h.stage.Closing?
  {
    h.(gate := ShutGate(h.gate), stage := Move(h.stage, QuiesceRequest))
  }

  /** Each executor is quiesced on its own: a failure of one leaves the other's turn. */
  function CleanQuiesceRequest(h: Host, o: Outcome): Host
    requires h.stage.Closing?
  {
    if h.own.request.None? || o.Succeeds? then
      Holding(h, h.own.(request := Shut(h.own.request)), Move(h.stage, QuiesceBackground))
    else
      Holding(h, h.own.(request := if o.effective then Shut(h.own.request) else h.own.request),
              Note(h.stage, QuiesceBackground, true))
  }

  function CleanQuiesceBackground(h: Host, o: Outcome): Host
    requires h.stage.Closing?
  {
    if h.own.background.None? || o.Succeeds? then
      Holding(h, h.own.(background := Shut(h.own.background)), Move(h.stage, StopServer))
    else
      Holding(h, h.own.(background := if o.effective then Shut(h.own.background) else h.own.background),
              Note(h.stage, StopServer, true))
  }

  /** The server counts as stopped only when its termination is proven, even if `stop` itself raised. */
  function CleanServer(h: Host, o: Outcome): Host
    requires h.stage.Closing?
  {
    if !h.own.server.started then At(h, Move(h.stage, CloseLoopback))
    else if o.Succeeds? then Holding(h, h.own.(server := Server(false, false)), Move(h.stage, CloseLoopback))
    else if o.effective then Holding(h, h.own.(server := Server(false, false)), Note(h.stage, CloseLoopback, false))
    else At(h, Note(h.stage, CloseLoopback, true))
  }

  function CleanLoopback(h: Host, o: Outcome): Host
    requires h.stage.Closing?
  {
    if !h.own.loopback then At(h, Move(h.stage, CloseRequest))
    else if o.Succeeds? then Holding(h, h.own.(loopback := false), Move(h.stage, CloseRequest))
    else At(h, Note(h.stage, CloseRequest, true))
  }

  /** An executor's reference is given up only when its whole set of futures has drained. */
  function CleanRequest(h: Host, o: Outcome): Host
    requires h.stage.Closing?
  {
    if h.own.request.None? || (o.Succeeds? && Drained(h.own.request)) then
      Holding(h, h.own.(request := None), Move(h.stage, CloseBackground))
    else Holding(h, h.own.(request := Shut(h.own.request)), Note(h.stage, CloseBackground, true))
  }

  function CleanBackground(h: Host, o: Outcome): Host
    requires h.stage.Closing?
  {
    if h.own.background.None? || (o.Succeeds? && Drained(h.own.background)) then
      Holding(h, h.own.(background := None), Move(h.stage, DrainGate))
    else Holding(h, h.own.(background := Shut(h.own.background)), Note(h.stage, DrainGate, true))
  }

  /** With no writer left there is nothing to wait for; otherwise the wait timed out or raised. */
  function CleanWriters(h: Host): Host
    requires h.stage.Closing?
  {
    At(h, if h.gate.active == 0 then Move(h.stage, CloseSecurity) else Note(h.stage, CloseSecurity, true))
  }

  predicate MayRelease(h: Host)
    requires h.stage.Closing?
  {
    !h.stage.retain && h.who.run.Some? && h.who.data
  }

  /** Closing a service of the current run. */
  function Released(s: Service, run: Option<Id>): Service {
    Service(false, if s.live == run then None else s.live)
  }

  function CleanSecurity(h: Host, o: Outcome): Host
    requires h.stage.Closing?
  {
    if !MayRelease(h) || !h.own.security.started then At(h, Move(h.stage, RemoveRegistry))
    else if o.Succeeds? then
      Holding(h, h.own.(security := Released(h.own.security, h.who.run)), Move(h.stage, RemoveRegistry))
    else At(h, Note(h.stage, RemoveRegistry, true))
  }

  function CleanRegistry(h: Host, o: Outcome): Host
    requires h.stage.Closing?
  {
    if !MayRelease(h) || !h.own.registry.started then At(h, Move(h.stage, ReleaseLock))
    else if o.Succeeds? then
      Holding(h, h.own.(registry := Released(h.own.registry, h.who.run)), Move(h.stage, ReleaseLock))
    else At(h, Note(h.stage, ReleaseLock, true))
  }

  /** A release that raises has closed its handle all the same, which drops the operating system's lock. */
  function CleanLock(h: Host, o: Outcome): Host
    requires h.stage.Closing?
  {
    if h.stage.retain || !h.own.lock.ref then At(h, Move(h.stage, Report))
    else if o.Succeeds? then Holding(h, h.own.(lock := LockState(false, false)), Move(h.stage, Report))
    else Holding(h, h.own.(lock := LockState(true, false)), Note(h.stage, Report, false))
  }

  function CleanReport(h: Host): Host
    requires h.stage.Closing?
  {
    if !h.stage.failed && h.stage.origin == FromShutdown then h.(state := Stopped, stage := Idle) else At(h, Idle)
  }

  function CleanupStep(h: Host, o: Outcome): Host
    requires h.stage.Closing?
  {
    match h.stage.step
    case CloseGate => CleanGate(h)
    case QuiesceRequest => CleanQuiesceRequest(h, o)
    case QuiesceBackground => CleanQuiesceBackground(h, o)
    case StopServer => CleanServer(h, o)
    case CloseLoopback => CleanLoopback(h, o)
    case CloseRequest => CleanRequest(h, o)
    case CloseBackground => CleanBackground(h, o)
    case DrainGate => CleanWriters(h)
    case CloseSecurity => CleanSecurity(h, o)
    case RemoveRegistry => CleanRegistry(h, o)
    case ReleaseLock => CleanLock(h, o)
    case Report => CleanReport(h)
  }

  /* ---- Calls, workers and the outside ---- */

  function Submit(e: Option<Executor>): Option<Executor> {
    if e.Some? && e.value.accepting then Some(e.value.(outstanding := e.value.outstanding + 1)) else e
  }

  function Finish(e: Option<Executor>): Option<Executor> {
    if e.Some? && e.value.outstanding > 0 then Some(e.value.(outstanding := e.value.outstanding - 1)) else e
  }

  predicate StartAllowed(h: Host) {
    h.stage == Idle && (h.state == Stopped || (h.state == Failed && !HasResources(h)))
  }

  predicate Active(h: Host) {
    h.who.run.Some? && h.who.data
  }

  predicate Listens(h: Host) {
    h.state == Ready || h.state == Listening
  }

  function Begin(h: Host, run: Id): Host {
    if StartAllowed(h) then h.(state := Starting, who := h.who.(verified := false), stage := Preparing(run)) else h
  }

  /** `shutdown` quiesces first, unless a worker already did. */
  function BeginShutdown(h: Host): Host {
    if h.stage != Idle || !Active(h) then h
    else if h.state == Quiescing then At(h, DrainingWriters)
    else if Listens(h) then
      Host(Quiescing, DrainingWriters, h.who, ShutExecutors(h.own), ShutGate(h.gate), h.quiescers)
    else h
  }

  function BeginRetry(h: Host): Host {
    if h.stage == Idle && h.state == Failed then At(h, Closing(CloseGate, FromRetry, false, false)) else h
  }

  function Advanced(h: Host, o: Outcome): Host {
    if h.stage.Closing? then CleanupStep(h, o)
    else if h.stage == DrainingWriters || h.stage == DrainingExecutors || h.stage == Checkpointing then
      ShutdownStep(h, o)
    else StartStep(h, o)
  }

  function QuiescerGates(h: Host): Host {
    if h.quiescers.checked == 0 then h
    else h.(gate := ShutGate(h.gate), quiescers := Quiescers(h.quiescers.checked - 1, h.quiescers.gated + 1))
  }

  function QuiescerSets(h: Host): Host {
    if h.quiescers.gated == 0 then h
    else Host(Quiescing, h.stage, h.who, ShutExecutors(h.own), h.gate,
              Quiescers(h.quiescers.checked, h.quiescers.gated - 1))
  }

  function Step(h: Host, e: Event): Host {
    match e
    case CallStart(run) => Begin(h, run)
    case CallShutdown => BeginShutdown(h)
    case CallRetry => BeginRetry(h)
    case Advance(o) => Advanced(h, o)
    case QuiesceChecks =>
      if Active(h) && Listens(h) then h.(quiescers := Quiescers(h.quiescers.checked + 1, h.quiescers.gated)) else h
    case QuiesceGates => QuiescerGates(h)
    case QuiesceSets => QuiescerSets(h)
    case WriterEnters => if h.gate.accepting then h.(gate := Gate(true, h.gate.active + 1)) else h
    case WriterLeaves => if h.gate.active > 0 then h.(gate := Gate(h.gate.accepting, h.gate.active - 1)) else h
    case SubmitRequest => h.(own := h.own.(request := Submit(h.own.request)))
    case SubmitBackground => h.(own := h.own.(background := Submit(h.own.background)))
    case FinishRequest => h.(own := h.own.(request := Finish(h.own.request)))
    case FinishBackground => h.(own := h.own.(background := Finish(h.own.background)))
    case ServerDies => h.(own := h.own.(server := Server(h.own.server.started, false)))
  }

  function Run(h: Host, events: seq<Event>): Host
    decreases |events|
  {
    if events == [] then h else Run(Step(h, events[0]), events[1..])
  }
}
