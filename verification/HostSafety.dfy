/** Ownership safety of the host over every interleaving of lifecycle steps, workers and failures. */
module HostSafety {
  import opened Prelude
  import opened HostLifecycle

  /** What is alive is also flagged, under the current run; a published flag is true; a lock in force is referenced. */
  ghost predicate Flagged(who: Identity, own: Holdings) {
    && (own.server.live ==> own.server.started)
    && (own.security.live.Some? ==> own.security.started && own.security.live == who.run)
    && (own.registry.started ==> own.registry.live == who.run)
    && (own.lock.held ==> own.lock.ref)
    && (own.security.started || own.registry.started ==> who.run.Some? && who.data)
  }

  predicate AnyOwned(own: Holdings, gate: Gate) {
    own.request.Some? || own.background.Some? || own.server.started || own.loopback || own.registry.started
    || own.security.started || gate.active > 0 || gate.accepting
  }

  /** Everything owned presupposes the instance lock; an open gate also a verified schema. */
  ghost predicate Owned(h: Host) {
    && (AnyOwned(h.own, h.gate) ==> h.own.lock.held)
    && (h.gate.accepting ==> h.who.verified)
  }

  function Rank(s: CloseStep): nat {
    match s
    case CloseGate => 0
    case QuiesceRequest => 1
    case QuiesceBackground => 2
    case StopServer => 3
    case CloseLoopback => 4
    case CloseRequest => 5
    case CloseBackground => 6
    case DrainGate => 7
    case CloseSecurity => 8
    case RemoveRegistry => 9
    case ReleaseLock => 10
    case Report => 11
  }

  /** The cleanup stages already passed without retaining ownership have really given their resource up. */
  ghost predicate Cleaned(step: CloseStep, retain: bool, failed: bool, own: Holdings, gate: Gate) {
    var n := Rank(step);
    && (retain ==> failed && own.lock.held)
    && (n >= 1 ==> !gate.accepting)
    && (!retain && n >= 4 ==> !own.server.started)
    && (!retain && n >= 5 ==> !own.loopback)
    && (!retain && n >= 6 ==> own.request.None?)
    && (!retain && n >= 7 ==> own.background.None?)
    && (!retain && n >= 8 ==> gate.active == 0)
    && (!retain && n >= 9 ==> !own.security.started)
    && (!retain && n >= 10 ==> !own.registry.started)
    && (!retain && n >= 11 ==> !own.lock.held)
    && (!failed && n >= 11 ==> !own.lock.ref)
  }

  predicate Equipped(h: Host) {
    h.own.lock.held && h.who.verified && h.who.data && h.who.run.Some?
  }

  ghost predicate StageOk(h: Host) {
    match h.stage
    case Preparing(_) => !HasAny(h.own)
    case Locking => !HasAny(h.own) && h.who.run.Some?
    case BuildingRunner => h.own.lock.held && !AnyOwned(h.own, h.gate) && h.who.run.Some?
    case RunningMigration => h.own.lock.held && !AnyOwned(h.own, h.gate) && h.who.run.Some?
    case VerifyingIdentity => h.own.lock.held && !AnyOwned(h.own, h.gate) && h.who.run.Some?
    case Reopening =>
      h.own.lock.held && !AnyOwned(h.own, h.gate) && h.who.run.Some? && h.who.verified && h.who.data
    case Closing(step, _, retain, failed) => Cleaned(step, retain, failed, h.own, h.gate)
    case Idle => true
    case DrainingWriters => true
    case DrainingExecutors => true
    case Checkpointing => true
    case Probing => Equipped(h)
    case Finishing => Equipped(h)
    case _ => Equipped(h) && !h.own.registry.started
  }

  ghost predicate Inv(h: Host) {
    && Flagged(h.who, h.own) && Owned(h) && StageOk(h)
    && (h.state == Stopped ==> !HasAny(h.own) && h.stage == Idle)
  }

  lemma FailKeeps(h: Host)
    requires Flagged(h.who, h.own) && Owned(h)
    ensures Inv(Fail(h))
  {
  }

  /** The stages of a start before anything but the lock is owned. */
  lemma EarlyStartKeeps(h: Host, o: Outcome)
    requires Inv(h)
    requires h.stage.Preparing? || h.stage in {Locking, BuildingRunner, RunningMigration, VerifyingIdentity, Reopening}
    ensures Inv(StartStep(h, o))
  {
    hide Fail;
    FailKeeps(h);
    FailKeeps(h.(who := h.who.(data := true)));
    FailKeeps(h.(who := h.who.(data := h.who.data)));
  }

  lemma MiddleStartKeeps(h: Host, o: Outcome)
    requires Inv(h) && h.stage in {Reconciling, MakingRequest, MakingBackground, Binding, Probing, Finishing}
    ensures Inv(StartStep(h, o))
  {
    hide Fail;
    FailKeeps(h);
  }

  lemma LateStartKeeps(h: Host, o: Outcome)
    requires Inv(h) && h.stage in {Securing, Serving}
    ensures Inv(StartStep(h, o))
  {
    hide Fail;
    var live := if o.Succeeds? || o.effective then h.who.run else h.own.security.live;
    FailKeeps(h.(own := h.own.(security := Service(true, live))));
    FailKeeps(h.(own := h.own.(server := Server(true, o.Succeeds? || o.effective))));
  }

  lemma PublishKeeps(h: Host, o: Outcome)
    requires Inv(h) && h.stage == Publishing
    ensures Inv(StartStep(h, o))
  {
    hide Fail;
    FailKeeps(h);
    FailKeeps(h.(own := h.own.(registry := h.own.registry.(live := h.who.run))));
  }

  lemma ShutdownStepKeeps(h: Host, o: Outcome)
    requires Inv(h)
    ensures Inv(ShutdownStep(h, o))
  {
  }

  lemma CleanGateKeeps(h: Host, o: Outcome)
    requires Inv(h) && h.stage.Closing?
    ensures Rank(h.stage.step) == 0 ==> Inv(CleanGate(h))
    ensures Rank(h.stage.step) == 1 ==> Inv(CleanQuiesceRequest(h, o))
  {
  }

  lemma CleanQuiesceKeeps(h: Host, o: Outcome)
    requires Inv(h) && h.stage.Closing?
    ensures Rank(h.stage.step) == 2 ==> Inv(CleanQuiesceBackground(h, o))
  {
  }

  lemma CleanServerKeeps(h: Host, o: Outcome)
    requires Inv(h) && h.stage.Closing?
    ensures Rank(h.stage.step) == 3 ==> Inv(CleanServer(h, o))
  {
  }

  lemma CleanLoopbackKeeps(h: Host, o: Outcome)
    requires Inv(h) && h.stage.Closing?
    ensures Rank(h.stage.step) == 4 ==> Inv(CleanLoopback(h, o))
  {
  }

  lemma CleanRequestKeeps(h: Host, o: Outcome)
    requires Inv(h) && h.stage.Closing?
    ensures Rank(h.stage.step) == 5 ==> Inv(CleanRequest(h, o))
  {
  }

  lemma CleanBackgroundKeeps(h: Host, o: Outcome)
    requires Inv(h) && h.stage.Closing?
    ensures Rank(h.stage.step) == 6 ==> Inv(CleanBackground(h, o))
  {
  }

  lemma CleanWritersKeeps(h: Host, o: Outcome)
    requires Inv(h) && h.stage.Closing?
    ensures Rank(h.stage.step) == 7 ==> Inv(CleanWriters(h))
  {
  }

  lemma CleanSecurityKeeps(h: Host, o: Outcome)
    requires Inv(h) && h.stage.Closing?
    ensures Rank(h.stage.step) == 8 ==> Inv(CleanSecurity(h, o))
  {
  }

  lemma CleanRegistryKeeps(h: Host, o: Outcome)
    requires Inv(h) && h.stage.Closing?
    ensures Rank(h.stage.step) == 9 ==> Inv(CleanRegistry(h, o))
  {
  }

  lemma CleanLockKeeps(h: Host, o: Outcome)
    requires Inv(h) && h.stage.Closing?
    ensures Rank(h.stage.step) == 10 ==> Inv(CleanLock(h, o))
    ensures Rank(h.stage.step) == 11 ==> Inv(CleanReport(h))
  {
  }

  lemma AdvanceKeeps(h: Host, o: Outcome)
    requires Inv(h)
    ensures Inv(Advanced(h, o))
  {
    hide Inv, ShutdownStep, StartStep;
    if h.stage.Closing? {
      hide CleanGate, CleanQuiesceRequest, CleanQuiesceBackground, CleanServer, CleanLoopback,
           CleanRequest, CleanBackground, CleanWriters, CleanSecurity, CleanRegistry, CleanLock, CleanReport;
      CleanGateKeeps(h, o);
      CleanQuiesceKeeps(h, o);
      CleanServerKeeps(h, o);
      CleanLoopbackKeeps(h, o);
      CleanRequestKeeps(h, o);
      CleanBackgroundKeeps(h, o);
      CleanWritersKeeps(h, o);
      CleanSecurityKeeps(h, o);
      CleanRegistryKeeps(h, o);
      CleanLockKeeps(h, o);
    } else if h.stage == DrainingWriters || h.stage == DrainingExecutors || h.stage == Checkpointing {
      ShutdownStepKeeps(h, o);
    } else if h.stage != Idle {
      match h.stage
      case Preparing(_) => EarlyStartKeeps(h, o);
      case Locking => EarlyStartKeeps(h, o);
      case BuildingRunner => EarlyStartKeeps(h, o);
      case RunningMigration => EarlyStartKeeps(h, o);
      case VerifyingIdentity => EarlyStartKeeps(h, o);
      case Reopening => EarlyStartKeeps(h, o);
      case Securing => LateStartKeeps(h, o);
      case Serving => LateStartKeeps(h, o);
      case Publishing => PublishKeeps(h, o);
      case _ => MiddleStartKeeps(h, o);
    } else {
      IdleStays(h, o);
    }
  }

  lemma IdleStays(h: Host, o: Outcome)
    requires h.stage == Idle
    ensures StartStep(h, o) == h
  {
  }

  lemma BeginKeeps(h: Host, run: Id)
    requires Inv(h)
    ensures Inv(Begin(h, run)) && Inv(BeginRetry(h))
  {
  }

  lemma BeginShutdownKeeps(h: Host)
    requires Inv(h)
    ensures Inv(BeginShutdown(h))
  {
  }

  predicate ByQuiescer(e: Event) {
    e.QuiesceChecks? || e.QuiesceGates? || e.QuiesceSets?
  }

  lemma QuiescerKeeps(h: Host, e: Event)
    requires Inv(h) && ByQuiescer(e)
    ensures Inv(Step(h, e))
  {
  }

  predicate ByWriter(e: Event) {
    e.WriterEnters? || e.WriterLeaves? || e.ServerDies?
  }

  lemma WriterKeeps(h: Host, e: Event)
    requires Inv(h) && ByWriter(e)
    ensures Inv(Step(h, e))
  {
  }

  lemma WorkerKeeps(h: Host, e: Event)
    requires Inv(h) && (e.SubmitRequest? || e.SubmitBackground? || e.FinishRequest? || e.FinishBackground?)
    ensures Inv(Step(h, e))
  {
  }

  lemma StepKeeps(h: Host, e: Event)
    requires Inv(h)
    ensures Inv(Step(h, e))
  {
    hide Inv, Advanced, Begin, BeginShutdown, BeginRetry;
    match e
    case Advance(o) => AdvanceKeeps(h, o);
    case CallStart(run) => BeginKeeps(h, run);
    case CallShutdown => BeginShutdownKeeps(h);
    case CallRetry => BeginKeeps(h, 0);
    case _ =>
      hide Step;
      if ByQuiescer(e) { QuiescerKeeps(h, e); } else if ByWriter(e) { WriterKeeps(h, e); } else { WorkerKeeps(h, e); }
  }

  lemma {:induction false} RunAppends(h: Host, first: seq<Event>, second: seq<Event>)
    ensures Run(h, first + second) == Run(Run(h, first), second)
    decreases |first|
  {
    hide Step;
    if first == [] {
      assert first + second == second;
    } else {
      assert (first + second)[0] == first[0] && (first + second)[1..] == first[1..] + second;
      RunAppends(Step(h, first[0]), first[1..], second);
    }
  }

  lemma {:induction false} RunKeeps(h: Host, events: seq<Event>)
    requires Inv(h)
    ensures Inv(Run(h, events))
    decreases |events|
  {
    hide Inv, Step;
    if events != [] {
      StepKeeps(h, events[0]);
      RunKeeps(Step(h, events[0]), events[1..]);
    }
  }

  /**
   For any interleaving of writers, workers and lifecycle calls, whatever raises: a live server, executor, security
   run, flagged registry or active writer implies that the instance lock is held, and an open gate that the schema was
   verified too.
   */
  lemma LiveImpliesLocked(events: seq<Event>)
    ensures var h := Run(NEW, events);
            && ((h.own.server.live || h.own.request.Some? || h.own.background.Some? || h.own.security.live.Some?
                 || h.own.registry.started || h.gate.active > 0) ==> h.own.lock.held)
            && (h.gate.accepting ==> h.own.lock.held && h.who.verified)
            && (h.state == Stopped ==> !h.own.lock.held && !h.gate.accepting)
  {
    hide Run;
    RunKeeps(NEW, events);
  }

  /** Reopening never meets an active writer, even after failed starts and retried cleanups. */
  lemma ReopenMeetsNoWriter(events: seq<Event>)
    requires Run(NEW, events).stage == Reopening
    ensures Run(NEW, events).gate == Gate(false, 0)
    ensures Step(Run(NEW, events), Advance(Succeeds)).gate.accepting
  {
    hide Run;
    RunKeeps(NEW, events);
  }

  /* ---- The published registry file ---- */

  /** Whether the file of an unflagged publication stands after a step, given whether one stood before it. */
  predicate Strays(h: Host, e: Event, before: bool) {
    if h.stage != Publishing || !e.Advance? then before
    else e.outcome.Raises? && (before || e.outcome.effective)
  }

  /** The last publication that took effect raised after its rename. */
  predicate LateFailureStands(h: Host, events: seq<Event>, before: bool)
    decreases |events|
  {
    if events == [] then before
    else LateFailureStands(Step(h, events[0]), events[1..], Strays(h, events[0], before))
  }

  /** A file of this or an earlier run is on disk that no flag owns up to. */
  predicate Stray(h: Host) {
    h.own.registry.live.Some? && !h.own.registry.started
  }

  lemma StepStrays(h: Host, e: Event)
    requires Inv(h)
    ensures Stray(Step(h, e)) <==> Strays(h, e, Stray(h))
  {
    hide Owned, Shut, Drained, CleanupStep, Flagged;
    if e.Advance? && h.stage.Closing? {
      CleanupKeepsStray(h, e.outcome);
    } else if h.stage != Publishing {
      hide StageOk, Stray, HasAny;
      assert Step(h, e).own.registry == h.own.registry;
      SameStray(h, Step(h, e));
    }
  }

  /** Only one stage of the cleanup touches the file, and only its own. */
  lemma CleanupKeepsStray(h: Host, o: Outcome)
    requires Flagged(h.who, h.own) && h.stage.Closing?
    ensures Stray(CleanupStep(h, o)) <==> Stray(h)
  {
    if h.stage.step == RemoveRegistry {
    } else {
      hide Stray, Flagged, Shut, Drained, MayRelease;
      assert CleanupStep(h, o).own.registry == h.own.registry;
      SameStray(h, CleanupStep(h, o));
    }
  }

  lemma SameStray(h: Host, g: Host)
    requires g.own.registry == h.own.registry
    ensures Stray(g) <==> Stray(h)
  {
  }

  lemma {:induction false} RunStrays(h: Host, events: seq<Event>)
    requires Inv(h)
    ensures Stray(Run(h, events)) <==> LateFailureStands(h, events, Stray(h))
    decreases |events|
  {
    hide Inv, Step, Stray, Strays;
    if events != [] {
      StepStrays(h, events[0]);
      StepKeeps(h, events[0]);
      RunStrays(Step(h, events[0]), events[1..]);
    }
  }

  /**
   Over every run, a registry file exists while the instance lock is not held exactly if the last publication that took
   effect raised after its rename. A cleanup that has come to its report leaves such a file without the lock exactly
   if, besides, it retained nothing.
   */
  lemma PublishedWithoutLockIff(events: seq<Event>)
    ensures var h := Run(NEW, events);
            && (!h.own.lock.held ==> (h.own.registry.live.Some? <==> LateFailureStands(NEW, events, false)))
            && (h.stage.Closing? && h.stage.step == Report ==>
                  (h.own.registry.live.Some? && !h.own.lock.held
                   <==> LateFailureStands(NEW, events, false) && !h.stage.retain))
  {
    hide Run, LateFailureStands;
    RunKeeps(NEW, events);
    RunStrays(NEW, events);
  }

  /** The lifecycle thread reopens the gate. */
  predicate Reopens(h: Host, e: Event) {
    h.stage == Reopening && e == Advance(Succeeds)
  }

  predicate NeverReopens(h: Host, events: seq<Event>)
    decreases |events|
  {
    events == [] || (!Reopens(h, events[0]) && NeverReopens(Step(h, events[0]), events[1..]))
  }

  /** After a quiesce and a true drain no writer is active until the gate is reopened. */
  lemma {:induction false} DrainedUntilReopened(h: Host, events: seq<Event>)
    requires h.gate == Gate(false, 0) && NeverReopens(h, events)
    ensures Run(h, events).gate == Gate(false, 0)
    decreases |events|
  {
    if events != [] {
      GateStaysShut(h, events[0]);
      DrainedUntilReopened(Step(h, events[0]), events[1..]);
    }
  }

  lemma GateStaysShut(h: Host, e: Event)
    requires h.gate == Gate(false, 0) && !Reopens(h, e)
    ensures Step(h, e).gate == Gate(false, 0)
  {
  }

  /** A cleanup that reports no failure has left nothing behind: the host can be started again. */
  lemma CleanReportMeansFree(h: Host)
    requires Inv(h) && h.stage.Closing? && h.stage.step == Report && !h.stage.failed
    ensures var g := Step(h, Advance(Succeeds));
            && !HasResources(g) && !g.own.lock.held && !g.own.server.live && g.own.security.live.None?
            && (g.own.registry.live.Some? <==> Stray(h))
            && g.gate == Gate(false, 0)
            && (h.state == Failed || h.stage.origin == FromShutdown ==> StartAllowed(g))
  {
  }

  /* ---- READY and the gate ---- */

  predicate InStart(s: Stage) {
    s in {Reopening, Reconciling, MakingRequest, MakingBackground, Binding, Securing, Serving, Publishing, Probing,
          Finishing}
  }

  /** The events take a start from where it stands to its return in READY, and no further. */
  predicate ReturnsReady(h: Host, events: seq<Event>)
    decreases |events|
  {
    && InStart(h.stage) && events != []
    && var g := Step(h, events[0]);
    if events[1..] == [] then g.stage == Idle && g.state == Ready else ReturnsReady(g, events[1..])
  }

  /** A worker inside `quiesce` shuts a gate that this start has reopened. */
  predicate Overtaken(h: Host, events: seq<Event>)
    decreases |events|
  {
    events != [] && ((events[0].QuiesceGates? && h.quiescers.checked > 0 && h.stage != Reopening)
                     || Overtaken(Step(h, events[0]), events[1..]))
  }

  /** The gate is open when a start returns in READY exactly when no quiescer shut it after it was reopened. */
  lemma ReadyIsOpenIff(h: Host, events: seq<Event>)
    requires h.stage == Reopening && ReturnsReady(h, events)
    ensures Run(h, events).gate.accepting <==> !Overtaken(h, events)
  {
    StartKeepsOpen(h, events);
  }

  lemma {:induction false} StartKeepsOpen(h: Host, events: seq<Event>)
    requires ReturnsReady(h, events)
    ensures Run(h, events).gate.accepting
       <==> (h.stage == Reopening || h.gate.accepting) && !Overtaken(h, events)
    decreases |events|
  {
    hide Step;
    var g := Step(h, events[0]);
    StartStepGate(h, events[0]);
    var rest := events[1..];
    assert Run(h, events) == Run(g, rest);
    assert Overtaken(h, events) <==> (events[0].QuiesceGates? && h.quiescers.checked > 0 && h.stage != Reopening)
                                     || Overtaken(g, rest);
    if rest == [] {
      AtTheEnd(g, rest);
    } else {
      StartKeepsOpen(g, rest);
    }
  }

  lemma AtTheEnd(h: Host, events: seq<Event>)
    requires events == []
    ensures Run(h, events) == h && !Overtaken(h, events)
  {
  }

  lemma StartStepGate(h: Host, e: Event)
    requires InStart(h.stage)
    ensures var g := Step(h, e);
            InStart(g.stage) || (g.stage == Idle && g.state == Ready) ==>
              && ((g.stage == Reopening || g.gate.accepting)
                  <==> (h.stage == Reopening || h.gate.accepting)
                       && !(e.QuiesceGates? && h.quiescers.checked > 0 && h.stage != Reopening))
              && (g.stage == Reopening ==> h.stage == Reopening)
  {
  }
}
