/** Concrete runs of the host: how far what can go wrong with the registry file and with READY is reachable. */
module HostRuns {
  import opened Prelude
  import opened HostLifecycle
  import opened HostSafety
  import opened HostEffects

  /** Such a cleanup is reachable: a start whose publication raises late, and nothing else fails. */
  lemma LateFailureReachable(run: Id)
    ensures exists events ::
              && LateFailureStands(NEW, events, false)
              && Run(NEW, events).stage == Closing(Report, FromStart, false, false)
              && Run(NEW, events).own.registry.live == Some(run) && !Run(NEW, events).own.lock.held
  {
    NewIsFree();
    hide *;
    var up, down := [CallStart(run)] + Successes(12), [Advance(Raises(true))] + Successes(11);
    StartsUp(run, NEW);
    CleansUp(run);
    RunAppends(NEW, up, down);
    PublishedWithoutLockIff(up + down);
    var h := Run(NEW, up + down);
    assert LateFailureStands(NEW, up + down, false);
  }

  function Successes(n: nat): seq<Event> {
    if n == 0 then [] else [Advance(Succeeds)] + Successes(n - 1)
  }

  /** Everything is up and the registry file is about to be published, in a start of the host `was`. */
  function Listed(run: Id, was: Host): Host {
    Host(Listening, Publishing, Identity(Some(run), true, true),
         Holdings(LockState(true, true), Some(Executor(true, 0)), Some(Executor(true, 0)), true, Server(true, true),
                  Service(true, Some(run)), Service(false, None)),
         Gate(true, 0), was.quiescers)
  }

  function Next(h: Host): Host {
    Step(h, Advance(Succeeds))
  }

  lemma FourSucceed(h: Host, n: nat)
    ensures Run(h, Successes(n + 4)) == Run(Next(Next(Next(Next(h)))), Successes(n))
  {
    hide Step;
    Succeeding(h, n + 3);
    Succeeding(Next(h), n + 2);
    Succeeding(Next(Next(h)), n + 1);
    Succeeding(Next(Next(Next(h))), n);
  }

  lemma Succeeding(h: Host, n: nat)
    ensures Run(h, Successes(n + 1)) == Run(Next(h), Successes(n))
  {
    hide Step;
    assert Successes(n + 1)[0] == Advance(Succeeds) && Successes(n + 1)[1..] == Successes(n);
  }

  lemma Begins(h: Host, e: Event, rest: seq<Event>)
    ensures Run(h, [e] + rest) == Run(Step(h, e), rest)
  {
    hide Step;
    assert ([e] + rest)[0] == e && ([e] + rest)[1..] == rest;
  }

  lemma RunsOut(h: Host)
    ensures Run(h, Successes(0)) == h
  {
  }

  /** The lock is held and the database migrated. */
  function Migrated(run: Id, was: Host): Host {
    Host(Verifying, VerifyingIdentity, Identity(Some(run), was.who.data, false), NOTHING.(lock := LockState(true, true)),
         Gate(false, 0), was.quiescers)
  }

  function Opened(run: Id, was: Host): Host {
    Host(Verifying, MakingBackground, Identity(Some(run), true, true),
         NOTHING.(lock := LockState(true, true), request := Some(Executor(true, 0))), Gate(true, 0), was.quiescers)
  }

  /** A stopped host that owns nothing. */
  predicate Free(h: Host) {
    h.state == Stopped && h.stage == Idle && h.own == NOTHING && h.gate == Gate(false, 0)
  }

  lemma NewIsFree()
    ensures Free(NEW)
  {
  }

  lemma StartsUp(run: Id, was: Host)
    requires Free(was)
    ensures Run(was, [CallStart(run)] + Successes(12)) == Listed(run, was)
  {
    hide *;
    var h := Step(was, CallStart(run));
    Migrates(run, was);
    Opens(run, was);
    Lists(run, was);
    Begins(was, CallStart(run), Successes(12));
    FourSucceed(h, 8);
    FourSucceed(Migrated(run, was), 4);
    FourSucceed(Opened(run, was), 0);
    RunsOut(Listed(run, was));
  }

  lemma Migrates(run: Id, was: Host)
    requires Free(was)
    ensures Next(Next(Next(Next(Step(was, CallStart(run)))))) == Migrated(run, was)
  {
  }

  lemma Opens(run: Id, was: Host)
    ensures Next(Next(Next(Next(Migrated(run, was))))) == Opened(run, was)
  {
  }

  lemma Lists(run: Id, was: Host)
    ensures Next(Next(Next(Next(Opened(run, was))))) == Listed(run, was)
  {
  }

  /** The file is on disk but not flagged, and the cleanup has come to `step`. */
  ghost predicate Abandoned(h: Host, run: Id, step: CloseStep) {
    && h.stage == Closing(step, FromStart, false, false) && h.gate == Gate(false, 0) && h.who.run == Some(run)
    && h.who.data && h.own.lock == LockState(true, true)
    && h.own.registry == Service(false, Some(run)) && Drained(h.own.request) && Drained(h.own.background)
  }

  lemma Abandons(run: Id)
    ensures var h := Step(Listed(run, NEW), Advance(Raises(true))); Abandoned(Next(h), run, QuiesceRequest)
  {
  }

  lemma HalfCleans(h: Host, run: Id)
    requires Abandoned(h, run, QuiesceRequest)
    ensures Abandoned(Next(Next(Next(Next(h)))), run, CloseRequest)
  {
    var g := Next(Next(h));
    assert Abandoned(g, run, StopServer);
    assert Abandoned(Next(g), run, CloseLoopback);
  }

  lemma MostlyCleans(h: Host, run: Id)
    requires Abandoned(h, run, CloseRequest)
    ensures Abandoned(Next(Next(Next(Next(h)))), run, RemoveRegistry)
  {
    var g := Next(Next(h));
    assert Abandoned(g, run, DrainGate);
    assert Abandoned(Next(g), run, CloseSecurity);
  }

  lemma GivesUp(h: Host, run: Id)
    requires Abandoned(h, run, RemoveRegistry)
    ensures var g := Next(Next(h));
            g.stage == Closing(Report, FromStart, false, false) && g.own.registry.live == Some(run) && !g.own.lock.held
  {
    assert Abandoned(Next(h), run, ReleaseLock);
  }

  lemma CleansUp(run: Id)
    ensures var g := Run(Listed(run, NEW), [Advance(Raises(true))] + Successes(11));
            g.stage == Closing(Report, FromStart, false, false) && g.own.registry.live == Some(run) && !g.own.lock.held
  {
    hide Run, Step, Next, Abandoned;
    var h := Step(Listed(run, NEW), Advance(Raises(true)));
    Begins(Listed(run, NEW), Advance(Raises(true)), Successes(11));
    Succeeding(h, 10);
    Abandons(run);
    var a := Next(h);
    FourSucceed(a, 6);
    HalfCleans(a, run);
    var b := Next(Next(Next(Next(a))));
    FourSucceed(b, 2);
    MostlyCleans(b, run);
    var c := Next(Next(Next(Next(b))));
    Succeeding(c, 1);
    Succeeding(Next(c), 0);
    GivesUp(c, run);
    RunsOut(Next(Next(c)));
  }

  /** A start whose self-health probe is still running when a worker quiesces returns READY with the gate shut. */
  lemma ReadyMayBeShut(run: Id)
    ensures exists events :: ShutWhenReady(Run(NEW, events))
  {
    NewIsFree();
    hide *;
    var up := [CallStart(run)] + Successes(12);
    StartsUp(run, NEW);
    QuiescedLate(run);
    RunAppends(NEW, up, Late());
    PlaysLate(run);
    assert ShutWhenReady(Run(NEW, up + Late()));
  }

  function Late(): seq<Event> {
    var s := Advance(Succeeds);
    [s] + ([QuiesceChecks] + ([QuiesceGates] + ([QuiesceSets] + ([s] + ([s] + [])))))
  }

  predicate ShutWhenReady(h: Host) {
    h.state == Ready && h.stage == Idle && h.own.lock.held && !h.gate.accepting
  }

  lemma QuiescedLate(run: Id)
    ensures ShutWhenReady(Next(Next(Step(Step(Step(Next(Listed(run, NEW)), QuiesceChecks), QuiesceGates), QuiesceSets))))
  {
  }

  lemma PlaysLate(run: Id)
    ensures Run(Listed(run, NEW), Late())
         == Next(Next(Step(Step(Step(Next(Listed(run, NEW)), QuiesceChecks), QuiesceGates), QuiesceSets)))
  {
    hide Step, Run, Listed;
    var s := Advance(Succeeds);
    var h := Next(Listed(run, NEW));
    var g := Step(Step(Step(h, QuiesceChecks), QuiesceGates), QuiesceSets);
    Begins(Listed(run, NEW), s, [QuiesceChecks] + ([QuiesceGates] + ([QuiesceSets] + ([s] + ([s] + [])))));
    Begins(h, QuiesceChecks, [QuiesceGates] + ([QuiesceSets] + ([s] + ([s] + []))));
    Begins(Step(h, QuiesceChecks), QuiesceGates, [QuiesceSets] + ([s] + ([s] + [])));
    Begins(Step(Step(h, QuiesceChecks), QuiesceGates), QuiesceSets, [s] + ([s] + []));
    Begins(g, s, [s] + []);
    Begins(Next(g), s, []);
    RunsOut(Next(Next(g)));
  }

  /* ---- A late quiescer ---- */

  /** The host is ready, with a worker inside `quiesce` that has not shut the gate of this run. */
  function Up(run: Id, quiescers: Quiescers): Host {
    Host(Ready, Idle, Identity(Some(run), true, true),
         Holdings(LockState(true, true), Some(Executor(true, 0)), Some(Executor(true, 0)), true, Server(true, true),
                  Service(true, Some(run)), Service(true, Some(run))),
         Gate(true, 0), quiescers)
  }

  function Started(run: Id): seq<Event> {
    [CallStart(run)] + Successes(15)
  }

  lemma Starts(run: Id, was: Host)
    requires Free(was)
    ensures Run(was, Started(run)) == Up(run, was.quiescers)
  {
    hide *;
    GetsReady(run, was);
    StartsUp(run, was);
    StartedSplits(run);
    RunAppends(was, [CallStart(run)] + Successes(12), Successes(3));
    var h := Listed(run, was);
    Succeeding(h, 2);
    Succeeding(Next(h), 1);
    Succeeding(Next(Next(h)), 0);
    RunsOut(Next(Next(Next(h))));
  }

  lemma GetsReady(run: Id, was: Host)
    ensures Next(Next(Next(Listed(run, was)))) == Up(run, was.quiescers)
  {
  }

  lemma StartedSplits(run: Id)
    ensures Started(run) == ([CallStart(run)] + Successes(12)) + Successes(3)
  {
    hide Successes;
    SuccessesAdd(12, 3);
  }

  lemma {:induction false} SuccessesAdd(n: nat, m: nat)
    ensures Successes(n + m) == Successes(n) + Successes(m)
  {
    if n > 0 { SuccessesAdd(n - 1, m); }
  }

  /** A whole shutdown that nothing disturbs, stage by stage. */
  ghost predicate Winding(h: Host, run: Id, step: CloseStep) {
    && h.stage == Closing(step, FromShutdown, false, false) && h.gate == Gate(false, 0) && h.state == Quiescing
    && h.who.run == Some(run) && h.who.data && h.own.lock == LockState(true, true) && h.quiescers == Quiescers(0, 1)
    && Drained(h.own.request) && Drained(h.own.background)
    && h.own.registry == Service(true, Some(run)) && h.own.security == Service(true, Some(run))
  }

  /** Stopped, with the worker still inside `quiesce`. */
  ghost predicate LeftBehind(h: Host) {
    Free(h) && h.quiescers == Quiescers(0, 1)
  }

  lemma WindsDown(h: Host, run: Id)
    requires Winding(h, run, CloseGate) && h.own.server == Server(true, true)
    ensures LeftBehind(Run(h, Successes(12)))
  {
    hide Run, Step, Next, Winding, LeftBehind;
    FourSucceed(h, 8);
    WindsOne(h, run);
    var a := Next(Next(Next(Next(h))));
    FourSucceed(a, 4);
    WindsTwo(a, run);
    var b := Next(Next(Next(Next(a))));
    FourSucceed(b, 0);
    WindsThree(b, run);
    RunsOut(Next(Next(Next(Next(b)))));
  }

  lemma WindsOne(h: Host, run: Id)
    requires Winding(h, run, CloseGate) && h.own.server == Server(true, true)
    ensures var g := Next(Next(Next(Next(h)))); Winding(g, run, CloseLoopback) && g.own.server == Server(false, false)
  {
    assert Winding(Next(h), run, QuiesceRequest);
    assert Winding(Next(Next(h)), run, QuiesceBackground);
    assert Winding(Next(Next(Next(h))), run, StopServer) && Next(Next(Next(h))).own.server == Server(true, true);
  }

  lemma WindsTwo(h: Host, run: Id)
    requires Winding(h, run, CloseLoopback) && h.own.server == Server(false, false)
    ensures var g := Next(Next(Next(Next(h))));
            Winding(g, run, CloseSecurity) && g.own.server == Server(false, false) && !g.own.loopback && g.own.request.None?
            && g.own.background.None?
  {
    assert Winding(Next(h), run, CloseRequest);
    assert Winding(Next(Next(h)), run, CloseBackground);
    assert Winding(Next(Next(Next(h))), run, DrainGate);
  }

  lemma WindsThree(h: Host, run: Id)
    requires Winding(h, run, CloseSecurity) && h.own.server == Server(false, false) && !h.own.loopback
    requires h.own.request.None? && h.own.background.None?
    ensures LeftBehind(Next(Next(Next(Next(h)))))
  {
  }

  lemma QuiescesAndStops(run: Id)
    ensures var h := Step(Step(Up(run, Quiescers(0, 0)), QuiesceChecks), QuiesceGates);
            var g := Next(Next(Next(Step(h, CallShutdown))));
            Winding(g, run, CloseGate) && g.own.server == Server(true, true)
  {
    QuiescesFirst(run);
    hide Step, Up;
    DrainsAll(run, Step(Step(Step(Up(run, Quiescers(0, 0)), QuiesceChecks), QuiesceGates), CallShutdown));
  }

  lemma QuiescesFirst(run: Id)
    ensures var h := Step(Step(Step(Up(run, Quiescers(0, 0)), QuiesceChecks), QuiesceGates), CallShutdown);
            h == Host(Quiescing, DrainingWriters, Identity(Some(run), true, true), ShutExecutors(Up(run, Quiescers(0, 1)).own),
                      Gate(false, 0), Quiescers(0, 1))
  {
  }

  lemma DrainsAll(run: Id, h: Host)
    requires h == Host(Quiescing, DrainingWriters, Identity(Some(run), true, true),
                       ShutExecutors(Up(run, Quiescers(0, 1)).own), Gate(false, 0), Quiescers(0, 1))
    ensures var g := Next(Next(Next(h))); Winding(g, run, CloseGate) && g.own.server == Server(true, true)
  {
  }

  lemma MarkedOpen(run: Id)
    ensures var h := Step(Step(Up(run, Quiescers(0, 1)), QuiesceSets), CallShutdown);
            && h.stage == DrainingWriters && h.gate == Gate(true, 0)
            && Next(h).stage == DrainingExecutors && Step(Next(h), WriterEnters).gate == Gate(true, 1)
  {
  }

  /** The first run and its shutdown, overtaking a worker inside `quiesce`. */
  function FirstRun(): seq<Event> {
    Started(0) + ([QuiesceChecks] + ([QuiesceGates] + ([CallShutdown] + Successes(15))))
  }

  lemma FirstRunEnds()
    ensures LeftBehind(Run(NEW, FirstRun()))
  {
    NewIsFree();
    hide *;
    Starts(0, NEW);
    NewQuiescers();
    var up := Up(0, Quiescers(0, 0));
    RunAppends(NEW, Started(0), [QuiesceChecks] + ([QuiesceGates] + ([CallShutdown] + Successes(15))));
    Begins(up, QuiesceChecks, [QuiesceGates] + ([CallShutdown] + Successes(15)));
    var h := Step(up, QuiesceChecks);
    Begins(h, QuiesceGates, [CallShutdown] + Successes(15));
    var g := Step(h, QuiesceGates);
    Begins(g, CallShutdown, Successes(15));
    var d := Step(g, CallShutdown);
    Succeeding(d, 14);
    Succeeding(Next(d), 13);
    Succeeding(Next(Next(d)), 12);
    QuiescesAndStops(0);
    WindsDown(Next(Next(Next(d))), 0);
    FirstRunIs();
  }

  lemma FirstRunIs()
    ensures FirstRun() == Started(0) + ([QuiesceChecks] + ([QuiesceGates] + ([CallShutdown] + Successes(15))))
  {
  }

  lemma NewQuiescers()
    ensures NEW.quiescers == Quiescers(0, 0)
  {
  }

  /** The second run: the worker marks the host QUIESCING, whose gate has been reopened, before shutdown is called. */
  function SecondRun(): seq<Event> {
    Started(1) + ([QuiesceSets] + ([CallShutdown] + ([Advance(Succeeds)] + ([WriterEnters] + []))))
  }

  /** A run in which a writer enters after the writers' drain of a shutdown has been reported. */
  lemma LateQuiescerOpensDrain()
    ensures var h := Run(NEW, FirstRun() + SecondRun());
            PastDrain(h.stage) && h.gate == Gate(true, 1) && DrainsOpen(NEW, FirstRun() + SecondRun(), false)
  {
    FirstRunEnds();
    hide Run, DrainsOpen, FirstRun, SecondRun;
    RunAppends(NEW, FirstRun(), SecondRun());
    SecondRunOpens(Run(NEW, FirstRun()));
    ShutdownDrains(FirstRun() + SecondRun(), []);
  }

  lemma SecondRunOpens(was: Host)
    requires LeftBehind(was)
    ensures var h := Run(was, SecondRun()); h.stage == DrainingExecutors && h.gate == Gate(true, 1)
  {
    LeftFree(was);
    hide *;
    Starts(1, was);
    var up := Up(1, Quiescers(0, 1));
    RunAppends(was, Started(1), [QuiesceSets] + ([CallShutdown] + ([Advance(Succeeds)] + ([WriterEnters] + []))));
    Begins(up, QuiesceSets, [CallShutdown] + ([Advance(Succeeds)] + ([WriterEnters] + [])));
    var h := Step(up, QuiesceSets);
    Begins(h, CallShutdown, [Advance(Succeeds)] + ([WriterEnters] + []));
    var d := Step(h, CallShutdown);
    Begins(d, Advance(Succeeds), [WriterEnters] + []);
    NextIs(d);
    Begins(Next(d), WriterEnters, []);
    RunsOut(Step(Next(d), WriterEnters));
    MarkedOpen(1);
    EnteringStays(Next(d));
    NoSuccesses();
    SecondRunIs();
  }

  lemma LeftFree(h: Host)
    requires LeftBehind(h)
    ensures Free(h) && h.quiescers == Quiescers(0, 1)
  {
  }

  lemma NextIs(h: Host)
    ensures Next(h) == Step(h, Advance(Succeeds))
  {
  }

  lemma EnteringStays(h: Host)
    ensures Step(h, WriterEnters).stage == h.stage
  {
  }

  lemma NoSuccesses()
    ensures Successes(0) == []
  {
  }

  lemma SecondRunIs()
    ensures SecondRun() == Started(1) + ([QuiesceSets] + ([CallShutdown] + ([Advance(Succeeds)] + ([WriterEnters] + []))))
  {
  }
}
