/** What quiescing, shutting down and starting the host achieve, from real calls and over every run. */
module HostEffects {
  import opened Prelude
  import opened HostLifecycle
  import opened HostSafety

  /** An executor that takes no new work. */
  predicate Refuses(e: Option<Executor>) { e.Some? ==> !e.value.accepting }

  predicate ShutsEverything(h: Host) {
    h.state == Quiescing && !h.gate.accepting && Refuses(h.own.request) && Refuses(h.own.background)
  }

  /** A shutdown call is accepted for an active host that listens or has been quiesced. */
  predicate ShutdownAccepted(h: Host) {
    h.stage == Idle && h.who.run.Some? && h.who.data && h.state in {Ready, Listening, Quiescing}
  }

  /**
   An accepted shutdown of a listening host refuses new writers and tasks at once and begins to drain; of a host already
   quiesced it only begins to drain; a refused one changes nothing.
   */
  lemma ShutdownShuts(h: Host)
    ensures var g := Step(h, CallShutdown);
            && (!ShutdownAccepted(h) ==> g == h)
            && (ShutdownAccepted(h) ==>
                  && g.stage == DrainingWriters && g.gate.active == h.gate.active && g.state == Quiescing
                  && (if h.state == Quiescing then g == At(h, DrainingWriters) else ShutsEverything(g)))
  {
  }

  /** The two steps of a worker's quiesce: it shuts the gate, and then both executors. */
  lemma QuiescerShuts(h: Host)
    ensures h.quiescers.checked > 0 ==> !Step(h, QuiesceGates).gate.accepting
    ensures h.quiescers.gated > 0 ==>
              var g := Step(h, QuiesceSets); g.state == Quiescing && Refuses(g.own.request) && Refuses(g.own.background)
  {
  }

  /* ---- The drain of a shutdown ---- */

  /** In a shutdown whose writers' drain has been reported. */
  predicate PastDrain(s: Stage) {
    s == DrainingExecutors || s == Checkpointing || (s.Closing? && s.origin == FromShutdown)
  }

  /**
   Whether the shutdown in progress found the host marked QUIESCING with its gate open, and drains before anyone has
   shut it.
   */
  predicate Misled(h: Host, e: Event, before: bool) {
    if e == CallShutdown && ShutdownAccepted(h) then h.state == Quiescing && h.gate.accepting
    else if e == QuiesceGates && h.quiescers.checked > 0 && h.stage == DrainingWriters then false
    else before
  }

  predicate DrainsOpen(h: Host, events: seq<Event>, before: bool)
    decreases |events|
  {
    if events == [] then before else DrainsOpen(Step(h, events[0]), events[1..], Misled(h, events[0], before))
  }

  predicate Idles(e: Option<Executor>) { e.Some? ==> !e.value.accepting && e.value.outstanding == 0 }

  /** What a shutdown has achieved so far, unless it was misled. */
  ghost predicate Progress(h: Host, misled: bool) {
    && (h.stage == DrainingWriters ==> (h.gate.accepting <==> misled))
    && (PastDrain(h.stage) && !misled ==> h.gate == Gate(false, 0))
    && (h.stage == Checkpointing ==> Idles(h.own.request) && Idles(h.own.background))
  }

  lemma StepProgresses(h: Host, e: Event, misled: bool)
    requires Progress(h, misled)
    ensures Progress(Step(h, e), Misled(h, e, misled))
  {
    hide StartStep, CleanupStep;
    if e.Advance? && h.stage.Closing? {
      CleanupGate(h, e.outcome);
    } else if e.Advance? && !(h.stage in {DrainingWriters, DrainingExecutors, Checkpointing}) {
      StartLeavesShutdown(h, e.outcome);
    }
  }

  lemma CleanupGate(h: Host, o: Outcome)
    requires h.stage.Closing?
    ensures var g := CleanupStep(h, o);
            && g.gate.active == h.gate.active && (g.gate.accepting ==> h.gate.accepting)
            && (g.stage == Idle || (g.stage.Closing? && g.stage.origin == h.stage.origin))
  {
    hide CleanupStep;
    CleanupKeepsWriters(h, o);
    CleanupStays(h, o);
  }

  lemma CleanupKeepsWriters(h: Host, o: Outcome)
    requires h.stage.Closing?
    ensures var g := CleanupStep(h, o); g.gate.active == h.gate.active && (g.gate.accepting ==> h.gate.accepting)
  {
    hide Shut, Drained, MayRelease, Move, Note, Released;
  }

  lemma CleanupStays(h: Host, o: Outcome)
    requires h.stage.Closing?
    ensures var s := CleanupStep(h, o).stage; s == Idle || (s.Closing? && s.origin == h.stage.origin)
  {
    hide Shut, Drained, MayRelease, Released;
  }

  lemma StartLeavesShutdown(h: Host, o: Outcome)
    requires !h.stage.Closing? && !(h.stage in {DrainingWriters, DrainingExecutors, Checkpointing})
    ensures var s := StartStep(h, o).stage;
            s != DrainingWriters && !PastDrain(s)
  {
  }

  lemma {:induction false} RunProgresses(h: Host, events: seq<Event>, misled: bool)
    requires Progress(h, misled)
    ensures Progress(Run(h, events), DrainsOpen(h, events, misled))
    decreases |events|
  {
    hide Step, Progress, Misled;
    if events != [] {
      StepProgresses(h, events[0], misled);
      RunProgresses(Step(h, events[0]), events[1..], Misled(h, events[0], misled));
    }
  }

  /**
   Over every run: a shutdown past its writers' drain has a shut gate and no writer, and stays so until a reopening,
   unless its call found the host marked QUIESCING with the gate open. While it still drains the gate is open exactly
   then, so that writers may enter after the reported drain.
   */
  lemma ShutdownDrains(events: seq<Event>, later: seq<Event>)
    ensures var h := Run(NEW, events);
            && (PastDrain(h.stage) && !DrainsOpen(NEW, events, false) ==> h.gate == Gate(false, 0))
            && (PastDrain(h.stage) && !DrainsOpen(NEW, events, false) && NeverReopens(h, later) ==>
                  Run(h, later).gate == Gate(false, 0))
            && (h.stage == DrainingWriters && h.gate.active == 0 ==>
                  var g := Step(h, Advance(Succeeds));
                  && g.stage == DrainingExecutors
                  && (g.gate == Gate(false, 0) <==> !DrainsOpen(NEW, events, false))
                  && (Step(g, WriterEnters).gate.active > 0 <==> DrainsOpen(NEW, events, false)))
            && (h.stage == Checkpointing ==> Idles(h.own.request) && Idles(h.own.background))
  {
    hide Run, DrainsOpen, NeverReopens;
    RunProgresses(NEW, events, false);
    var h := Run(NEW, events);
    if PastDrain(h.stage) && !DrainsOpen(NEW, events, false) && NeverReopens(h, later) {
      DrainedUntilReopened(h, later);
    }
  }

  /* ---- When a call can find that ---- */

  /** A worker marks the host QUIESCING although the gate it had shut has been reopened since. */
  predicate Late(h: Host, e: Event) {
    e == QuiesceSets && h.quiescers.gated > 0 && h.gate.accepting
  }

  predicate NoneLate(h: Host, events: seq<Event>)
    decreases |events|
  {
    events == [] || (!Late(h, events[0]) && NoneLate(Step(h, events[0]), events[1..]))
  }

  /** Between two calls a host marked QUIESCING has its gate shut; during a start nobody can call shutdown. */
  ghost predicate MarkedShut(h: Host) {
    && (h.state == Quiescing && !InStart(h.stage) ==> !h.gate.accepting)
    && (h.stage == Idle && h.state in {Stopped, Failed, Starting, Migrating, Verifying} ==> !h.gate.accepting)
    && (h.stage.Preparing? || h.stage in {Locking, BuildingRunner, RunningMigration, VerifyingIdentity} ==> !h.gate.accepting)
    && (h.stage.Closing? && h.stage.step != CloseGate ==> !h.gate.accepting)
    && (h.stage.Closing? && h.stage.origin != FromShutdown ==> !h.gate.accepting)
    && (h.stage == DrainingWriters || PastDrain(h.stage) ==> !h.gate.accepting)
  }

  lemma StepKeepsMarked(h: Host, e: Event)
    requires MarkedShut(h) && !Late(h, e)
    ensures MarkedShut(Step(h, e))
  {
    if e.Advance? {
      AdvanceKeepsMarked(h, e.outcome);
    }
  }

  lemma AdvanceKeepsMarked(h: Host, o: Outcome)
    requires MarkedShut(h)
    ensures MarkedShut(Advanced(h, o))
  {
    hide StartStep, CleanupStep;
    if h.stage.Closing? {
      CleanupGate(h, o);
      CleanupState(h, o);
    } else if !(h.stage in {DrainingWriters, DrainingExecutors, Checkpointing}) {
      StartKeepsMarked(h, o);
    }
  }

  lemma CleanupState(h: Host, o: Outcome)
    requires h.stage.Closing?
    ensures var g := CleanupStep(h, o);
            && (g.state == h.state || (g.state == Stopped && g.stage == Idle))
            && (g.stage.Closing? && g.stage.step != CloseGate && h.stage.step == CloseGate ==> !g.gate.accepting)
            && (g.stage == Idle ==> h.stage.step == Report) && (g.stage.Closing? ==> g.stage.step != CloseGate)
  {
    hide Shut, Drained, MayRelease;
  }

  lemma StartKeepsMarked(h: Host, o: Outcome)
    requires MarkedShut(h) && !h.stage.Closing? && !(h.stage in {DrainingWriters, DrainingExecutors, Checkpointing})
    ensures MarkedShut(StartStep(h, o))
  {
  }

  lemma {:induction false} RunKeepsMarked(h: Host, events: seq<Event>)
    requires MarkedShut(h) && NoneLate(h, events)
    ensures MarkedShut(Run(h, events))
    decreases |events|
  {
    hide Step, MarkedShut, Late;
    if events != [] {
      StepKeepsMarked(h, events[0]);
      RunKeepsMarked(Step(h, events[0]), events[1..]);
    }
  }

  /** Without such a late worker every shutdown drains behind a shut gate. */
  lemma PunctualShutdownDrains(events: seq<Event>)
    requires NoneLate(NEW, events)
    ensures var h := Run(NEW, events);
            && (h.stage == DrainingWriters || PastDrain(h.stage) ==> !h.gate.accepting)
            && (h.stage == DrainingWriters && h.gate.active == 0 ==> Step(h, Advance(Succeeds)).gate == Gate(false, 0))
  {
    hide Run, NoneLate;
    RunKeepsMarked(NEW, events);
  }

  /* ---- What a start has built ---- */

  function Built(s: Stage): nat {
    match s
    case MakingBackground => 1
    case Binding => 2
    case Securing => 3
    case Serving => 4
    case Publishing => 5
    case Probing => 6
    case Finishing => 6
    case _ => 0
  }

  predicate HasBuilt(own: Holdings, run: Option<Id>, n: nat) {
    && (n >= 1 ==> own.request.Some?) && (n >= 2 ==> own.background.Some?) && (n >= 3 ==> own.loopback)
    && (n >= 4 ==> own.security == Service(true, run)) && (n >= 5 ==> own.server.started)
    && (n >= 6 ==> own.registry == Service(true, run))
  }

  lemma StepBuilds(h: Host, e: Event)
    requires InStart(h.stage) && HasBuilt(h.own, h.who.run, Built(h.stage))
    ensures var g := Step(h, e);
            && (InStart(g.stage) ==> HasBuilt(g.own, g.who.run, Built(g.stage)))
            && (g.stage == Idle ==> HasBuilt(g.own, g.who.run, 6))
  {
    hide Fail;
    FailCloses(h);
  }

  lemma FailCloses(h: Host)
    ensures forall x :: Fail(x).stage.Closing?
  {
  }

  /** A start that returns in READY owns everything: lock, executors, socket, security run, server and registry. */
  lemma {:induction false} ReadyOwnsAll(h: Host, events: seq<Event>)
    requires ReturnsReady(h, events) && HasBuilt(h.own, h.who.run, Built(h.stage))
    ensures var g := Run(h, events); HasBuilt(g.own, g.who.run, 6)
    decreases |events|
  {
    hide Step, HasBuilt;
    StepBuilds(h, events[0]);
    var rest := events[1..];
    assert Run(h, events) == Run(Step(h, events[0]), rest);
    if rest == [] {
      AtTheEnd(Step(h, events[0]), rest);
    } else {
      ReadyOwnsAll(Step(h, events[0]), events[1..]);
    }
  }

  /* ---- Cleaning up ---- */

  /** What one statement of the cleanup has to deal with, and whether it got rid of it. */
  predicate Present(h: Host, step: CloseStep) {
    match step
    case QuiesceRequest => h.own.request.Some?
    case QuiesceBackground => h.own.background.Some?
    case StopServer => h.own.server.started
    case CloseLoopback => h.own.loopback
    case CloseRequest => h.own.request.Some?
    case CloseBackground => h.own.background.Some?
    case DrainGate => h.gate.active > 0
    case CloseSecurity => h.own.security.started && h.stage.Closing? && !h.stage.retain && Active(h)
    case RemoveRegistry => h.own.registry.started && h.stage.Closing? && !h.stage.retain && Active(h)
    case ReleaseLock => h.own.lock.ref && h.stage.Closing? && !h.stage.retain
    case _ => false
  }

  /** A statement fails if there is something to do and it raises, or tasks or writers are left. */
  predicate FailsAt(h: Host, step: CloseStep, o: Outcome) {
    Present(h, step)
    && (step == DrainGate || o.Raises? || (step == CloseRequest && !Drained(h.own.request))
        || (step == CloseBackground && !Drained(h.own.background)))
  }

  /** Every failure is remembered; all but a failed release, and a stop after which the server is gone, retain the rest. */
  lemma CleanupRemembers(h: Host, o: Outcome)
    requires h.stage.Closing? && h.stage.step != Report
    ensures var g, fails := CleanupStep(h, o), FailsAt(h, h.stage.step, o);
            && g.stage.Closing? && g.stage.origin == h.stage.origin
            && g.stage.failed == (h.stage.failed || fails)
            && g.stage.retain == (h.stage.retain
                                  || (fails && h.stage.step != ReleaseLock && !(h.stage.step == StopServer && o.effective)))
  {
  }

  /** The statements run in order, and the last reports: a shutdown without failures ends stopped, all else as it was. */
  lemma CleanupAdvances(h: Host, o: Outcome)
    requires h.stage.Closing?
    ensures h.stage.step != Report ==> CleanupStep(h, o).stage.Closing? && Rank(CleanupStep(h, o).stage.step) == Rank(h.stage.step) + 1
    ensures h.stage.step == Report ==>
              CleanupStep(h, o) == (if h.stage.origin == FromShutdown && !h.stage.failed then At(h, Idle).(state := Stopped)
                                    else At(h, Idle))
  {
  }

  /** Each statement gives up exactly its own resource, and only if it does not fail; executors refuse work either way. */
  lemma CleanupGivesUp(h: Host, o: Outcome)
    requires h.stage.Closing?
    ensures var g, s, fails := CleanupStep(h, o), h.stage.step, FailsAt(h, h.stage.step, o);
            && (s == CloseGate ==> !g.gate.accepting)
            && (s == QuiesceRequest && !fails ==> Refuses(g.own.request))
            && (s == QuiesceBackground && !fails ==> Refuses(g.own.background))
            && (s == StopServer && Present(h, s) ==> (g.own.server.started <==> o.Raises? && !o.effective))
            && (s == CloseLoopback ==> (g.own.loopback <==> fails))
            && (s == CloseRequest ==> (g.own.request.Some? <==> fails) && Refuses(g.own.request))
            && (s == CloseBackground ==> (g.own.background.Some? <==> fails) && Refuses(g.own.background))
            && (s == CloseSecurity && Present(h, s) ==> (g.own.security.started <==> fails))
            && (s == RemoveRegistry && Present(h, s) ==> (g.own.registry.started <==> fails))
            && (s == ReleaseLock && Present(h, s) ==> (g.own.lock.ref <==> fails) && !g.own.lock.held)
            && (!Present(h, s) && s != CloseGate ==> g.own == h.own && g.gate == h.gate)
  {
  }

  /** A retry is taken up exactly by a failed host nobody is working on, and begins a cleanup of its own. */
  lemma RetryBegins(h: Host)
    ensures Step(h, CallRetry)
         == if h.stage == Idle && h.state == Failed then At(h, Closing(CloseGate, FromRetry, false, false)) else h
  {
  }

  /** A start is taken up exactly by a stopped host, or a failed one that owns nothing any more. */
  lemma StartBegins(h: Host, run: Id)
    ensures var g, o := Step(h, CallStart(run)), h.own;
            if h.stage == Idle && (h.state == Stopped
                                   || (h.state == Failed && o.request.None? && o.background.None? && !o.server.started
                                       && !o.loopback && !o.registry.started && !o.security.started && !o.lock.ref))
            then g.stage == Preparing(run) && g.state == Starting && g.own == h.own && g.gate == h.gate else g == h
  {
  }

  /** The gate is reopened, empty, exactly if no writer is active; otherwise the start fails. */
  lemma ReopeningNeedsNoWriter(h: Host)
    requires h.stage == Reopening
    ensures var g := Step(h, Advance(Succeeds));
            if h.gate.active == 0 then g.gate == Gate(true, 0) && g.stage == Reconciling
            else g.gate == Gate(false, h.gate.active) && g.state == Failed && g.stage.Closing?
  {
  }

  /** A statement of a start that raises marks the host failed, shuts the gate and begins the cleanup. */
  lemma RaisingStartUnwinds(h: Host, effective: bool)
    requires InStart(h.stage) || h.stage.Preparing?
             || h.stage in {Locking, BuildingRunner, RunningMigration, VerifyingIdentity}
    ensures var g := Step(h, Advance(Raises(effective)));
            g.state == Failed && !g.gate.accepting && g.stage == Closing(CloseGate, FromStart, false, false)
  {
  }
}
