/**
 The host runtime as an object. Its calls are written statement by statement; before each statement other threads may
 have acted, and the statement may raise. Every call is proved to be a run of the lifecycle state machine.
 */
module HostRuntime {
  import opened Prelude
  import opened HostLifecycle
  import HostSafety
  import Connections

  /** What threads other than the lifecycle thread do. */
  predicate ByOthers(e: Event) {
    !e.Advance? && !e.CallStart? && !e.CallShutdown? && !e.CallRetry?
  }

  type Foreign = e: Event | ByOthers(e) witness QuiesceChecks

  /** What others do just before a statement, and how the statement ends. */
  datatype Turn = Turn(others: seq<Foreign>, outcome: Outcome)

  function Taken(h: Host, t: Turn): Host {
    Advanced(Run(h, t.others), t.outcome)
  }

  /** The host after `n` statements, beginning with statement `at`. */
  function After(h: Host, turns: nat -> Turn, at: nat, n: nat): Host
    decreases n
  {
    if n == 0 then h else Taken(After(h, turns, at, n - 1), turns(at + n - 1))
  }

  function Script(turns: nat -> Turn, at: nat, n: nat): seq<Event>
    decreases n
  {
    if n == 0 then []
    else Script(turns, at, n - 1) + (turns(at + n - 1).others + [Advance(turns(at + n - 1).outcome)])
  }

  lemma RunsOne(h: Host, o: Outcome)
    ensures Run(h, [Advance(o)]) == Advanced(h, o)
  {
    hide Advanced;
    assert [Advance(o)][1..] == [];
    assert Run(Step(h, Advance(o)), []) == Step(h, Advance(o));
  }

  /** A call that takes `n` statements is a run of the state machine. */
  lemma {:induction false} AfterIsRun(h: Host, turns: nat -> Turn, at: nat, n: nat)
    ensures After(h, turns, at, n) == Run(h, Script(turns, at, n))
    decreases n
  {
    hide Advanced, Run;
    if n > 0 {
      var t := turns(at + n - 1);
      AfterIsRun(h, turns, at, n - 1);
      var before := After(h, turns, at, n - 1);
      HostSafety.RunAppends(h, Script(turns, at, n - 1), t.others + [Advance(t.outcome)]);
      HostSafety.RunAppends(before, t.others, [Advance(t.outcome)]);
      RunsOne(Run(before, t.others), t.outcome);
    } else {
      RunsNone(h);
    }
  }

  lemma RunsNone(h: Host)
    ensures Run(h, []) == h
  {
  }

  /** So a call that starts from an owned host ends in one, whatever raises and whatever others do in between. */
  lemma CallKeepsOwnership(h: Host, turns: nat -> Turn, at: nat, n: nat)
    requires HostSafety.Inv(h)
    ensures HostSafety.Inv(After(h, turns, at, n))
  {
    hide After, Run, HostSafety.Inv;
    AfterIsRun(h, turns, at, n);
    HostSafety.RunKeeps(h, Script(turns, at, n));
  }

  lemma {:induction false} AfterAdds(h: Host, turns: nat -> Turn, at: nat, n: nat, m: nat)
    ensures After(h, turns, at, n + m) == After(After(h, turns, at, n), turns, at + n, m)
    decreases m
  {
    hide Taken;
    if m > 0 {
      AfterAdds(h, turns, at, n, m - 1);
    }
  }

  lemma NothingTaken(h: Host, turns: nat -> Turn)
    ensures After(h, turns, 0, 0) == h
  {
  }

  datatype Fault = InstanceOwned | StartFailed | NotReady | NotDrained | CleanupIncomplete

  class HostRuntime {
    var state: HostState
    var runId: Option<Id>
    var dataInstance: bool
    /** Whether the current start has verified the schema. */
    ghost var verified: bool
    var lock: LockState
    var request: Option<Executor>
    var background: Option<Executor>
    var loopback: bool
    var server: Server
    var security: Service
    var registry: Service
    /** Threads inside `Quiesce`. */
    var quiescers: Quiescers
    const writes: Connections.WriteAdmissionGate
    /** Where the lifecycle thread stands. */
    ghost var stage: Stage

    ghost function View(): Host
      reads this, writes
    {
      Host(state, stage, Identity(runId, dataInstance, verified),
           Holdings(lock, request, background, loopback, server, security, registry),
           Gate(writes.accepting, writes.active), quiescers)
    }

    /** A new runtime is stopped with its gate shut. */
    constructor ()
      ensures View() == NEW && fresh(writes)
    {
      state, runId, dataInstance, verified := Stopped, None, false, false;
      lock, request, background, loopback := LockState(false, false), None, None, false;
      server, security, registry := Server(false, false), Service(false, None), Service(false, None);
      quiescers, stage := Quiescers(0, 0), Idle;
      writes := new Connections.WriteAdmissionGate();
      new;
      writes.Quiesce();
    }

    method Act(e: Foreign)
      modifies this, writes
      ensures View() == Step(old(View()), e) && stage == old(stage)
    {
      match e
      case QuiesceChecks =>
        if runId.Some? && dataInstance && (state == Ready || state == Listening) {
          quiescers := Quiescers(quiescers.checked + 1, quiescers.gated);
        }
      case QuiesceGates =>
        if quiescers.checked > 0 {
          writes.Quiesce();
          quiescers := Quiescers(quiescers.checked - 1, quiescers.gated + 1);
        }
      case QuiesceSets =>
        if quiescers.gated > 0 {
          state, request, background := Quiescing, Shut(request), Shut(background);
          quiescers := Quiescers(quiescers.checked, quiescers.gated - 1);
        }
      case WriterEnters => var _ := writes.Enter();
      case WriterLeaves => var _ := writes.Exit();
      case SubmitRequest => request := Submit(request);
      case SubmitBackground => background := Submit(background);
      case FinishRequest => request := Finish(request);
      case FinishBackground => background := Finish(background);
      case ServerDies => server := Server(server.started, false);
    }

    /** What others did before the next statement of the lifecycle thread. */
    method Others(events: seq<Foreign>)
      modifies this, writes
      ensures View() == Run(old(View()), events) && stage == old(stage)
    {
      hide Step, View;
      ghost var start := View();
      for i := 0 to |events|
        invariant Run(start, events) == Run(View(), events[i..]) && stage == old(stage)
      {
        assert events[i..][0] == events[i] && events[i..][1..] == events[i + 1..];
        Act(events[i]);
      }
      assert events[|events|..] == [];
    }

    /* ---- The statements of `start`; when one raises, the handler follows ---- */

    /** The paths are ready and the run has its identity. */
    method Prepare(run: Id, t: Turn) returns (ok: bool)
      requires stage == Preparing(run)
      modifies this, writes
      ensures (if ok then View() else Fail(View())) == Taken(old(View()), t)
      ensures ok ==> stage == Locking
    {
      hide Run, Fail;
      Others(t.others);
      ok := t.outcome.Succeeds?;
      if ok {
        runId, stage := Some(run), Locking;
      }
    }

    method AcquireLock(t: Turn) returns (ok: bool)
      requires stage == Locking
      modifies this, writes
      ensures (if ok then View() else Fail(View())) == Taken(old(View()), t)
      ensures ok ==> stage == BuildingRunner
    {
      hide Run, Fail;
      Others(t.others);
      ok := t.outcome.Succeeds?;
      if ok {
        lock, stage := LockState(true, true), BuildingRunner;
      }
    }

    method BuildRunner(t: Turn) returns (ok: bool)
      requires stage == BuildingRunner
      modifies this, writes
      ensures (if ok then View() else Fail(View())) == Taken(old(View()), t)
      ensures ok ==> stage == RunningMigration
    {
      hide Run, Fail;
      Others(t.others);
      ok := t.outcome.Succeeds?;
      if ok {
        state, stage := Migrating, RunningMigration;
      }
    }

    method Migrate(t: Turn) returns (ok: bool)
      requires stage == RunningMigration
      modifies this, writes
      ensures (if ok then View() else Fail(View())) == Taken(old(View()), t)
      ensures ok ==> stage == VerifyingIdentity
    {
      hide Run, Fail;
      Others(t.others);
      ok := t.outcome.Succeeds?;
      if ok {
        state, stage := Verifying, VerifyingIdentity;
      }
    }

    /** The data identity may be read although its verification then raises. */
    method VerifyIdentity(t: Turn) returns (ok: bool)
      requires stage == VerifyingIdentity
      modifies this, writes
      ensures (if ok then View() else Fail(View())) == Taken(old(View()), t)
      ensures ok ==> stage == Reopening
    {
      hide Run, Fail;
      Others(t.others);
      ok := t.outcome.Succeeds?;
      if ok {
        dataInstance, verified, stage := true, true, Reopening;
      } else {
        dataInstance := dataInstance || t.outcome.effective;
      }
    }

    /** Reopening the write gate is refused while writers are active. */
    method Reopen(t: Turn) returns (ok: bool)
      requires stage == Reopening
      modifies this, writes
      ensures (if ok then View() else Fail(View())) == Taken(old(View()), t)
      ensures ok ==> stage == Reconciling
    {
      hide Run, Fail;
      Others(t.others);
      ok := t.outcome.Succeeds? && writes.active == 0;
      if ok {
        ok := writes.Reopen();
        stage := Reconciling;
      }
    }

    method Reconcile(t: Turn) returns (ok: bool)
      requires stage == Reconciling
      modifies this, writes
      ensures (if ok then View() else Fail(View())) == Taken(old(View()), t)
      ensures ok ==> stage == MakingRequest
    {
      hide Run, Fail;
      Others(t.others);
      ok := t.outcome.Succeeds?;
      if ok {
        stage := MakingRequest;
      }
    }

    method MakeRequestExecutor(t: Turn) returns (ok: bool)
      requires stage == MakingRequest
      modifies this, writes
      ensures (if ok then View() else Fail(View())) == Taken(old(View()), t)
      ensures ok ==> stage == MakingBackground
    {
      hide Run, Fail;
      Others(t.others);
      ok := t.outcome.Succeeds?;
      if ok {
        request, stage := Some(Executor(true, 0)), MakingBackground;
      }
    }

    method MakeBackgroundExecutor(t: Turn) returns (ok: bool)
      requires stage == MakingBackground
      modifies this, writes
      ensures (if ok then View() else Fail(View())) == Taken(old(View()), t)
      ensures ok ==> stage == Binding
    {
      hide Run, Fail;
      Others(t.others);
      ok := t.outcome.Succeeds?;
      if ok {
        background, stage := Some(Executor(true, 0)), Binding;
      }
    }

    method BindLoopback(t: Turn) returns (ok: bool)
      requires stage == Binding
      modifies this, writes
      ensures (if ok then View() else Fail(View())) == Taken(old(View()), t)
      ensures ok ==> stage == Securing
    {
      hide Run, Fail;
      Others(t.others);
      ok := t.outcome.Succeeds?;
      if ok {
        loopback, stage := true, Securing;
      }
    }

    /** Cleanup ownership begins before the provider is called. */
    method PrepareSecurity(t: Turn) returns (ok: bool)
      requires stage == Securing
      modifies this, writes
      ensures (if ok then View() else Fail(View())) == Taken(old(View()), t)
      ensures ok ==> stage == Serving
    {
      hide Run, Fail;
      Others(t.others);
      security := Service(true, if t.outcome.Succeeds? || t.outcome.effective then runId else security.live);
      ok := t.outcome.Succeeds?;
      if ok {
        state, stage := Listening, Serving;
      }
    }

    /** Cleanup ownership begins before the call. */
    method StartServer(t: Turn) returns (ok: bool)
      requires stage == Serving
      modifies this, writes
      ensures (if ok then View() else Fail(View())) == Taken(old(View()), t)
      ensures ok ==> stage == Publishing
    {
      hide Run, Fail;
      Others(t.others);
      server := Server(true, t.outcome.Succeeds? || t.outcome.effective);
      ok := t.outcome.Succeeds?;
      if ok {
        stage := Publishing;
      }
    }

    /** The published flag is set only after `publish` returns. */
    method PublishRegistry(t: Turn) returns (ok: bool)
      requires stage == Publishing
      modifies this, writes
      ensures (if ok then View() else Fail(View())) == Taken(old(View()), t)
      ensures ok ==> stage == Probing
    {
      hide Run, Fail;
      Others(t.others);
      ok := t.outcome.Succeeds?;
      if ok {
        registry, stage := Service(true, runId), Probing;
      } else if t.outcome.effective {
        registry := Service(registry.started, runId);
      }
    }

    method ProbeHealth(t: Turn) returns (ok: bool)
      requires stage == Probing
      modifies this, writes
      ensures (if ok then View() else Fail(View())) == Taken(old(View()), t)
      ensures ok ==> stage == Finishing
    {
      hide Run, Fail;
      Others(t.others);
      ok := t.outcome.Succeeds?;
      if ok {
        stage := Finishing;
      }
    }

    method BecomeReady(t: Turn) returns (ok: bool)
      requires stage == Finishing
      modifies this, writes
      ensures (if ok then View() else Fail(View())) == Taken(old(View()), t)
      ensures ok ==> stage == Idle && state == Ready
    {
      hide Run, Fail;
      Others(t.others);
      ok := t.outcome.Succeeds?;
      if ok {
        state, stage := Ready, Idle;
      }
    }

    /** The instance is owned, migrated, verified and opened for writers. */
    method TakeOwnership(run: Id, turns: nat -> Turn) returns (ok: bool, n: nat)
      requires stage == Preparing(run)
      modifies this, writes
      ensures n <= 7 && (ok ==> n == 7 && stage == MakingRequest)
      ensures (if ok then View() else Fail(View())) == After(old(View()), turns, 0, n)
    {
      hide Taken, Fail, View;
      n := 0;
      ok := Prepare(run, turns(0));
      n := 1;
      if !ok {
        return;
      }
      ok := AcquireLock(turns(1));
      n := 2;
      if !ok {
        return;
      }
      ok := BuildRunner(turns(2));
      n := 3;
      if !ok {
        return;
      }
      ok := Migrate(turns(3));
      n := 4;
      if !ok {
        return;
      }
      ok := VerifyIdentity(turns(4));
      n := 5;
      if !ok {
        return;
      }
      ok := Reopen(turns(5));
      n := 6;
      if !ok {
        return;
      }
      ok := Reconcile(turns(6));
      n := 7;
    }

    /** Executors, the socket, security and the server. */
    method OpenForRequests(turns: nat -> Turn) returns (ok: bool, n: nat)
      requires stage == MakingRequest
      modifies this, writes
      ensures n <= 5 && (ok ==> n == 5 && stage == Publishing)
      ensures (if ok then View() else Fail(View())) == After(old(View()), turns, 7, n)
    {
      hide Taken, Fail, View;
      n := 0;
      ok := MakeRequestExecutor(turns(7));
      n := 1;
      if !ok {
        return;
      }
      ok := MakeBackgroundExecutor(turns(8));
      n := 2;
      if !ok {
        return;
      }
      ok := BindLoopback(turns(9));
      n := 3;
      if !ok {
        return;
      }
      ok := PrepareSecurity(turns(10));
      n := 4;
      if !ok {
        return;
      }
      ok := StartServer(turns(11));
      n := 5;
    }

    /** The run is published, probed and ready. */
    method Announce(turns: nat -> Turn) returns (ok: bool, n: nat)
      requires stage == Publishing
      modifies this, writes
      ensures n <= 3 && (ok ==> n == 3 && stage == Idle && state == Ready)
      ensures (if ok then View() else Fail(View())) == After(old(View()), turns, 12, n)
    {
      hide Taken, Fail, View;
      n := 0;
      ok := PublishRegistry(turns(12));
      n := 1;
      if !ok {
        return;
      }
      ok := ProbeHealth(turns(13));
      n := 2;
      if !ok {
        return;
      }
      ok := BecomeReady(turns(14));
      n := 3;
    }

    /* ---- The statements of the cleanup; each notes its failure, and most then retain ownership ---- */

    method CloseAdmission(t: Turn, retain: bool, failed: bool) returns (kept: bool, faulty: bool)
      requires stage.Closing? && stage == Closing(CloseGate, stage.origin, retain, failed)
      modifies this, writes
      ensures View() == Taken(old(View()), t) && stage == Closing(QuiesceRequest, old(stage).origin, kept, faulty)
    {
      hide Run;
      Others(t.others);
      kept, faulty := retain, failed;
      writes.Quiesce();
      stage := Closing(QuiesceRequest, stage.origin, kept, faulty);
    }

    method ShutRequest(t: Turn, retain: bool, failed: bool) returns (kept: bool, faulty: bool)
      requires stage.Closing? && stage == Closing(QuiesceRequest, stage.origin, retain, failed)
      modifies this, writes
      ensures View() == Taken(old(View()), t) && stage == Closing(QuiesceBackground, old(stage).origin, kept, faulty)
    {
      hide Run;
      Others(t.others);
      kept, faulty := retain, failed;
      if request.Some? {
        if t.outcome.Succeeds? || t.outcome.effective {
          request := Shut(request);
        }
        if t.outcome.Raises? {
          kept, faulty := true, true;
        }
      }
      stage := Closing(QuiesceBackground, stage.origin, kept, faulty);
    }

    method ShutBackground(t: Turn, retain: bool, failed: bool) returns (kept: bool, faulty: bool)
      requires stage.Closing? && stage == Closing(QuiesceBackground, stage.origin, retain, failed)
      modifies this, writes
      ensures View() == Taken(old(View()), t) && stage == Closing(StopServer, old(stage).origin, kept, faulty)
    {
      hide Run;
      Others(t.others);
      kept, faulty := retain, failed;
      if background.Some? {
        if t.outcome.Succeeds? || t.outcome.effective {
          background := Shut(background);
        }
        if t.outcome.Raises? {
          kept, faulty := true, true;
        }
      }
      stage := Closing(StopServer, stage.origin, kept, faulty);
    }

    /** The server is given up when its termination is proven, even if `stop` raised. */
    method EndServer(t: Turn, retain: bool, failed: bool) returns (kept: bool, faulty: bool)
      requires stage.Closing? && stage == Closing(StopServer, stage.origin, retain, failed)
      modifies this, writes
      ensures View() == Taken(old(View()), t) && stage == Closing(CloseLoopback, old(stage).origin, kept, faulty)
    {
      hide Run;
      Others(t.others);
      kept, faulty := retain, failed;
      if server.started {
        faulty := failed || t.outcome.Raises?;
        if t.outcome.Succeeds? || t.outcome.effective {
          server := Server(false, false);
        } else {
          kept := true;
        }
      }
      stage := Closing(CloseLoopback, stage.origin, kept, faulty);
    }

    method CloseSocket(t: Turn, retain: bool, failed: bool) returns (kept: bool, faulty: bool)
      requires stage.Closing? && stage == Closing(CloseLoopback, stage.origin, retain, failed)
      modifies this, writes
      ensures View() == Taken(old(View()), t) && stage == Closing(CloseRequest, old(stage).origin, kept, faulty)
    {
      hide Run;
      Others(t.others);
      kept, faulty := retain, failed;
      if loopback {
        loopback := t.outcome.Raises?;
        kept, faulty := kept || loopback, faulty || loopback;
      }
      stage := Closing(CloseRequest, stage.origin, kept, faulty);
    }

    /** The reference is kept until every task has drained. */
    method CloseRequestExecutor(t: Turn, retain: bool, failed: bool) returns (kept: bool, faulty: bool)
      requires stage.Closing? && stage == Closing(CloseRequest, stage.origin, retain, failed)
      modifies this, writes
      ensures View() == Taken(old(View()), t) && stage == Closing(CloseBackground, old(stage).origin, kept, faulty)
    {
      hide Run;
      Others(t.others);
      kept, faulty := retain, failed;
      if request.Some? {
        if t.outcome.Succeeds? && request.value.outstanding == 0 {
          request := None;
        } else {
          request, kept, faulty := Shut(request), true, true;
        }
      }
      stage := Closing(CloseBackground, stage.origin, kept, faulty);
    }

    method CloseBackgroundExecutor(t: Turn, retain: bool, failed: bool) returns (kept: bool, faulty: bool)
      requires stage.Closing? && stage == Closing(CloseBackground, stage.origin, retain, failed)
      modifies this, writes
      ensures View() == Taken(old(View()), t) && stage == Closing(DrainGate, old(stage).origin, kept, faulty)
    {
      hide Run;
      Others(t.others);
      kept, faulty := retain, failed;
      if background.Some? {
        if t.outcome.Succeeds? && background.value.outstanding == 0 {
          background := None;
        } else {
          background, kept, faulty := Shut(background), true, true;
        }
      }
      stage := Closing(DrainGate, stage.origin, kept, faulty);
    }

    method DrainWriters(t: Turn, retain: bool, failed: bool) returns (kept: bool, faulty: bool)
      requires stage.Closing? && stage == Closing(DrainGate, stage.origin, retain, failed)
      modifies this, writes
      ensures View() == Taken(old(View()), t) && stage == Closing(CloseSecurity, old(stage).origin, kept, faulty)
    {
      hide Run;
      Others(t.others);
      kept, faulty := retain, failed;
      if writes.active > 0 {
        kept, faulty := true, true;
      }
      stage := Closing(CloseSecurity, stage.origin, kept, faulty);
    }

    /** Only when nothing is retained. */
    method CloseSecurityRun(t: Turn, retain: bool, failed: bool) returns (kept: bool, faulty: bool)
      requires stage.Closing? && stage == Closing(CloseSecurity, stage.origin, retain, failed)
      modifies this, writes
      ensures View() == Taken(old(View()), t) && stage == Closing(RemoveRegistry, old(stage).origin, kept, faulty)
    {
      hide Run;
      Others(t.others);
      kept, faulty := retain, failed;
      if !retain && security.started && runId.Some? && dataInstance {
        if t.outcome.Succeeds? {
          security := Released(security, runId);
        } else {
          kept, faulty := true, true;
        }
      }
      stage := Closing(RemoveRegistry, stage.origin, kept, faulty);
    }

    method RemoveOwnRegistry(t: Turn, retain: bool, failed: bool) returns (kept: bool, faulty: bool)
      requires stage.Closing? && stage == Closing(RemoveRegistry, stage.origin, retain, failed)
      modifies this, writes
      ensures View() == Taken(old(View()), t) && stage == Closing(ReleaseLock, old(stage).origin, kept, faulty)
    {
      hide Run;
      Others(t.others);
      kept, faulty := retain, failed;
      if !retain && registry.started && runId.Some? && dataInstance {
        if t.outcome.Succeeds? {
          registry := Released(registry, runId);
        } else {
          kept, faulty := true, true;
        }
      }
      stage := Closing(ReleaseLock, stage.origin, kept, faulty);
    }

    method ReleaseInstance(t: Turn, retain: bool, failed: bool) returns (kept: bool, faulty: bool)
      requires stage.Closing? && stage == Closing(ReleaseLock, stage.origin, retain, failed)
      modifies this, writes
      ensures View() == Taken(old(View()), t) && stage == Closing(Report, old(stage).origin, kept, faulty)
    {
      hide Run;
      Others(t.others);
      kept, faulty := retain, failed;
      if !retain && lock.ref {
        lock := LockState(t.outcome.Raises?, false);
        faulty := failed || t.outcome.Raises?;
      }
      stage := Closing(Report, stage.origin, kept, faulty);
    }

    method CloseRuntimeResources(turns: nat -> Turn, at: nat) returns (faulty: bool)
      requires stage.Closing? && stage == Closing(CloseGate, stage.origin, false, false)
      modifies this, writes
      ensures View() == After(old(View()), turns, at, 11)
      ensures stage.Closing? && stage == Closing(Report, old(stage).origin, stage.retain, faulty)
    {
      hide Taken, View;
      var kept := false;
      faulty := false;
      kept, faulty := CloseAdmission(turns(at), kept, faulty);
      kept, faulty := ShutRequest(turns(at + 1), kept, faulty);
      kept, faulty := ShutBackground(turns(at + 2), kept, faulty);
      kept, faulty := EndServer(turns(at + 3), kept, faulty);
      kept, faulty := CloseSocket(turns(at + 4), kept, faulty);
      kept, faulty := CloseRequestExecutor(turns(at + 5), kept, faulty);
      kept, faulty := CloseBackgroundExecutor(turns(at + 6), kept, faulty);
      kept, faulty := DrainWriters(turns(at + 7), kept, faulty);
      kept, faulty := CloseSecurityRun(turns(at + 8), kept, faulty);
      kept, faulty := RemoveOwnRegistry(turns(at + 9), kept, faulty);
      kept, faulty := ReleaseInstance(turns(at + 10), kept, faulty);
    }

    /** All of the cleanup and its report; only a clean shutdown ends stopped. */
    method CleanUp(turns: nat -> Turn, at: nat, stopping: bool) returns (faulty: bool)
      requires stage.Closing? && stage == Closing(CloseGate, stage.origin, false, false)
      requires stopping == (stage.origin == FromShutdown)
      modifies this, writes
      ensures View() == After(old(View()), turns, at, 12) && stage == Idle
      ensures !faulty && stopping ==> state == Stopped
    {
      hide Taken, View;
      faulty := CloseRuntimeResources(turns, at);
      Conclude(turns(at + 11), !faulty && stopping);
    }

    method Conclude(t: Turn, stops: bool)
      requires stage.Closing? && stage.step == Report && stops == (!stage.failed && stage.origin == FromShutdown)
      modifies this, writes
      ensures View() == Taken(old(View()), t) && stage == Idle && (stops ==> state == Stopped)
    {
      hide Run;
      Others(t.others);
      if stops {
        state := Stopped;
      }
      stage := Idle;
    }

    /* ---- Calls of the lifecycle thread ---- */

    predicate Holds()
      reads this
    {
      request.Some? || background.Some? || server.started || loopback || registry.started || security.started || lock.ref
    }

    /** Starting up, up to the first statement that raises. */
    method StartUp(run: Id, turns: nat -> Turn) returns (ok: bool, n: nat)
      requires stage == Preparing(run)
      modifies this, writes
      ensures ok ==> state == Ready && stage == Idle
      ensures (if ok then View() else Fail(View())) == After(old(View()), turns, 0, n)
    {
      hide After, Fail, View;
      var k;
      ok, n := TakeOwnership(run, turns);
      if !ok {
        return;
      }
      AfterAdds(old(View()), turns, 0, 7, 5);
      ok, k := OpenForRequests(turns);
      AfterAdds(old(View()), turns, 0, 7, k);
      n := 7 + k;
      if !ok {
        return;
      }
      ok, k := Announce(turns);
      AfterAdds(old(View()), turns, 0, 12, k);
      n := 12 + k;
    }

    method Accept(run: Id) returns (ok: bool)
      requires stage == Idle
      modifies this
      ensures ok == StartAllowed(old(View())) && View() == Begin(old(View()), run)
      ensures stage == if ok then Preparing(run) else Idle
    {
      ok := state == Stopped || (state == Failed && !Holds());
      if ok {
        state, verified, stage := Starting, false, Preparing(run);
      }
    }

    /** The handler of a failed start, up to its cleanup. */
    method NoteFailure()
      modifies this, writes
      ensures View() == Fail(old(View())) && stage == Closing(CloseGate, FromStart, false, false)
    {
      writes.Quiesce();
      state, stage := Failed, Closing(CloseGate, FromStart, false, false);
    }

    method Start(run: Id, turns: nat -> Turn) returns (r: Result<(), Fault>, n: nat)
      requires stage == Idle
      modifies this, writes
      ensures View() == After(Begin(old(View()), run), turns, 0, n) && stage == Idle
      ensures r == Err(InstanceOwned) <==> !StartAllowed(old(View()))
      ensures r.Ok? ==> state == Ready
    {
      hide After, Begin, Fail, StartAllowed, View;
      var ok := Accept(run);
      ghost var begun := View();
      if !ok {
        NothingTaken(begun, turns);
        return Err(InstanceOwned), 0;
      }
      ok, n := StartUp(run, turns);
      if ok {
        return Ok(()), n;
      }
      NoteFailure();
      var _ := CleanUp(turns, n, false);
      AfterAdds(begun, turns, 0, n, 12);
      r, n := Err(StartFailed), n + 12;
    }

    /** One quiesce call that nothing interrupts. */
    method Quiesce() returns (ok: bool)
      modifies this, writes
      ensures ok == (Active(old(View())) && (Listens(old(View())) || old(state) == Quiescing)) && stage == old(stage)
      ensures ok && Listens(old(View())) ==>
                && state == Quiescing && !writes.accepting && writes.active == old(writes.active)
                && (request.Some? ==> !request.value.accepting) && (background.Some? ==> !background.value.accepting)
      ensures View()
           == if ok && Listens(old(View())) then At(BeginShutdown(At(old(View()), Idle)), stage) else old(View())
    {
      ok := runId.Some? && dataInstance && (state == Quiescing || state == Ready || state == Listening);
      if ok && state != Quiescing {
        writes.Quiesce();
        state, request, background := Quiescing, Shut(request), Shut(background);
      }
    }

    /** The drains and the checkpoint in front of the cleanup of a shutdown. */
    method Drain(turns: nat -> Turn) returns (ok: bool, n: nat)
      requires stage == DrainingWriters
      modifies this, writes
      ensures View() == After(old(View()), turns, 0, n)
      ensures stage == if ok then Closing(CloseGate, FromShutdown, false, false) else Idle
    {
      hide Taken, View;
      ok := DrainWrites(turns(0));
      if !ok {
        return false, 1;
      }
      ok := DrainExecutors(turns(1));
      if !ok {
        return false, 2;
      }
      ok := Checkpoint(turns(2));
      n := 3;
    }

    method DrainWrites(t: Turn) returns (ok: bool)
      requires stage == DrainingWriters
      modifies this, writes
      ensures View() == Taken(old(View()), t) && stage == if ok then DrainingExecutors else Idle
    {
      hide Run;
      Others(t.others);
      ok := t.outcome.Succeeds? && writes.active == 0;
      stage := if ok then DrainingExecutors else Idle;
    }

    method DrainExecutors(t: Turn) returns (ok: bool)
      requires stage == DrainingExecutors
      modifies this, writes
      ensures View() == Taken(old(View()), t) && stage == if ok then Checkpointing else Idle
    {
      hide Run;
      Others(t.others);
      request, background := Shut(request), Shut(background);
      ok := t.outcome.Succeeds? && (request.None? || request.value.outstanding == 0)
            && (background.None? || background.value.outstanding == 0);
      stage := if ok then Checkpointing else Idle;
    }

    method Checkpoint(t: Turn) returns (ok: bool)
      requires stage == Checkpointing
      modifies this, writes
      ensures View() == Taken(old(View()), t)
      ensures stage == if ok then Closing(CloseGate, FromShutdown, false, false) else Idle
    {
      hide Run;
      Others(t.others);
      ok := t.outcome.Succeeds?;
      stage := if ok then Closing(CloseGate, FromShutdown, false, false) else Idle;
    }

    /** A shutdown quiesces first, unless a worker already did. */
    method BeginDrain() returns (ok: bool)
      requires stage == Idle
      modifies this, writes
      ensures ok == (Active(old(View())) && (Listens(old(View())) || old(state) == Quiescing))
      ensures View() == BeginShutdown(old(View())) && stage == if ok then DrainingWriters else Idle
    {
      ok := Quiesce();
      if ok {
        stage := DrainingWriters;
      }
    }

    method Shutdown(turns: nat -> Turn) returns (r: Result<(), Fault>, n: nat)
      requires stage == Idle
      modifies this, writes
      ensures View() == After(BeginShutdown(old(View())), turns, 0, n) && stage == Idle
      ensures r == Err(NotReady) <==> !(Active(old(View())) && (Listens(old(View())) || old(state) == Quiescing))
      ensures r.Ok? ==> state == Stopped
    {
      hide After, BeginShutdown, Active, Listens, View;
      var ok := BeginDrain();
      ghost var begun := View();
      if !ok {
        NothingTaken(begun, turns);
        return Err(NotReady), 0;
      }
      ok, n := Drain(turns);
      if !ok {
        return Err(NotDrained), n;
      }
      var faulty := CleanUp(turns, n, true);
      AfterAdds(begun, turns, 0, n, 12);
      n := n + 12;
      r := if faulty then Err(CleanupIncomplete) else Ok(());
    }

    /** The value says whether the failed runtime owns nothing any more. */
    method RetryFailedCleanup(turns: nat -> Turn) returns (r: Result<bool, Fault>, n: nat)
      requires stage == Idle
      modifies this, writes
      ensures View() == After(BeginRetry(old(View())), turns, 0, n) && stage == Idle
      ensures r == Err(NotReady) <==> old(state) != Failed
      ensures r.Ok? ==> r.value == !HasResources(View())
    {
      if state != Failed {
        return Err(NotReady), 0;
      }
      stage := Closing(CloseGate, FromRetry, false, false);
      assert View() == BeginRetry(old(View()));
      var faulty := CleanUp(turns, 0, false);
      n := 12;
      r := if faulty then Err(CleanupIncomplete) else Ok(!Holds());
    }
  }
}
