/**
 Data-instance locks of one process over POSIX record locks: the lock is on a file, belongs to the process, and is
 dropped as soon as the process closes any descriptor of that file (IEEE Std 1003.1-2017, System Interfaces,
 `fcntl()`). Other parties may re-link the path between any two system calls.
 */
module InstanceLock {
  import opened Prelude

  /** A file, by device and inode; a path; a descriptor. */
  type File = nat
  type Path = nat
  type Fd = nat

  /** A `DataInstanceLock` object. */
  datatype Lock = Lock(path: Path, file: File, handle: Option<Fd>, locked: bool)

  /** The operating system's view of this process: open descriptors and record locks. */
  datatype Os = Os(fds: map<Fd, File>, locks: set<File>)

  datatype Process = Process(
    locks: map<Id, Lock>, heldPaths: set<Path>, heldFiles: set<File>, deferred: map<File, seq<Fd>>, os: Os)

  const FRESH := Process(map[], {}, {}, map[], Os(map[], {}))

  datatype Error = Owned | Unavailable | Failed

  /** Closing any descriptor of a file drops the process's record lock on it. */
  function CloseFd(os: Os, fd: Fd): Os {
    if fd !in os.fds then os else Os(os.fds - {fd}, os.locks - {os.fds[fd]})
  }

  function CloseAll(os: Os, fds: seq<Fd>): Os
    decreases |fds|
  {
    if fds == [] then os else CloseAll(CloseFd(os, fds[0]), fds[1..])
  }

  /** What the outside does during one acquisition: the file the path names at `stat` and the file `open` returns. */
  datatype World = World(stat: Option<File>, empty: bool, found: Option<File>, fd: Fd, identified: bool,
                         lockByte: bool, granted: bool)

  function Closing(p: Process, fd: Fd): Process {
    p.(os := CloseFd(p.os, fd))
  }

  /** One acquisition under the process-wide mutex; `id` names the lock object it would return. */
  function Acquire(p: Process, id: Id, path: Path, create: bool, w: World): (Process, Option<Error>) {
    if path in p.heldPaths then (p, Some(Owned))
    else if w.stat.None? then (p, Some(Unavailable))
    else if w.stat.value in p.heldFiles then (p, Some(Owned))
    else if w.empty && !create then (p, Some(Unavailable))
    else if w.found.None? then (p, Some(Unavailable))
    else OpenedFile(p.(os := p.os.(fds := p.os.fds[w.fd := w.found.value])), id, path, w, w.found.value)
  }

  /** From the open descriptor on: an alias of a held file is not closed but deferred to its owner's release. */
  function OpenedFile(p: Process, id: Id, path: Path, w: World, file: File): (Process, Option<Error>) {
    if !w.identified then (Closing(p, w.fd), Some(Failed))
    else if Some(file) != w.stat then
      if file in p.heldFiles then
        var others := if file in p.deferred then p.deferred[file] else [];
        (p.(deferred := p.deferred[file := others + [w.fd]]), Some(Owned))
      else (Closing(p, w.fd), Some(Unavailable))
    else if w.empty && !w.lockByte then (Closing(p, w.fd), Some(Failed))
    else if !w.granted then (Closing(p, w.fd), Some(Owned))
    else
      (Process(p.locks[id := Lock(path, file, Some(w.fd), true)], p.heldPaths + {path}, p.heldFiles + {file}, p.deferred,
               p.os.(locks := p.os.locks + {file})),
       None)
  }

  /** The check a release makes before it takes the mutex: nothing to do when the handle is gone. */
  function ReleaseCheck(p: Process, id: Id): (Process, bool)
    requires id in p.locks
  {
    if p.locks[id].handle.None? then (p.(locks := p.locks[id := p.locks[id].(locked := false)]), false)
    else (p, true)
  }

  /**
   The rest of a release under the mutex; the unlock may raise, the cleanup still runs. Even when another release took
   the handle first, the deferred descriptors are closed.
   */
  function ReleaseBody(p: Process, id: Id, unlocks: bool): Process
    requires id in p.locks
  {
    var l := p.locks[id];
    var fds := if l.file in p.deferred then p.deferred[l.file] else [];
    var os := if l.locked && l.handle.Some? && unlocks then p.os.(locks := p.os.locks - {l.file}) else p.os;
    var closed := CloseAll(if l.handle.None? then os else CloseFd(os, l.handle.value), fds);
    Process(p.locks[id := l.(handle := None, locked := false)], p.heldPaths - {l.path}, p.heldFiles - {l.file},
            p.deferred - {l.file}, closed)
  }

  /** The process, and the threads whose release has passed the check but not yet taken the mutex. */
  datatype Threads = Threads(p: Process, releasing: multiset<Id>)

  const START := Threads(FRESH, multiset{})

  datatype Op =
    | DoAcquire(id: Id, path: Path, create: bool, world: World)
    | DoCheck(id: Id)
    | DoBody(id: Id, unlocks: bool)

  /** One step of one thread; between the two steps of a release any other thread may act. */
  function Apply(t: Threads, op: Op): Threads {
    match op
    case DoAcquire(id, path, create, w) => t.(p := Acquire(t.p, id, path, create, w).0)
    case DoCheck(id) =>
      if id !in t.p.locks then t
      else
        var (q, going) := ReleaseCheck(t.p, id);
        Threads(q, if going then t.releasing + multiset{id} else t.releasing)
    case DoBody(id, unlocks) =>
      if id !in t.p.locks || id !in t.releasing then t
      else Threads(ReleaseBody(t.p, id, unlocks), t.releasing - multiset{id})
  }

  function Run(t: Threads, ops: seq<Op>): Threads
    decreases |ops|
  {
    if ops == [] then t else Run(Apply(t, ops[0]), ops[1..])
  }

  /** A release that nothing interrupts. */
  function Release(p: Process, id: Id, unlocks: bool): Process
    requires id in p.locks
  {
    var (q, going) := ReleaseCheck(p, id);
    if going then ReleaseBody(q, id, unlocks) else q
  }

  /* ---- The invariant ---- */

  predicate Held(p: Process, id: Id) {
    id in p.locks && p.locks[id].locked && p.locks[id].handle.Some?
  }

  /** A held lock is in force, on its own open descriptor, and registered. */
  ghost predicate HeldOk(p: Process) {
    forall id :: id in p.locks ==>
      && (p.locks[id].locked <==> p.locks[id].handle.Some?)
      && (p.locks[id].locked ==>
            && p.locks[id].handle.value in p.os.fds && p.os.fds[p.locks[id].handle.value] == p.locks[id].file
            && p.locks[id].file in p.os.locks && p.locks[id].file in p.heldFiles && p.locks[id].path in p.heldPaths)
  }

  /** No two held locks share a file, a path or a descriptor. */
  ghost predicate Apart(p: Process) {
    forall a, b :: a in p.locks && b in p.locks && a != b && p.locks[a].locked && p.locks[b].locked ==>
      p.locks[a].file != p.locks[b].file && p.locks[a].path != p.locks[b].path && p.locks[a].handle != p.locks[b].handle
  }

  predicate FileHeld(p: Process, file: File) {
    exists id :: id in p.locks && p.locks[id].locked && p.locks[id].file == file
  }

  predicate PathHeld(p: Process, path: Path) {
    exists id :: id in p.locks && p.locks[id].locked && p.locks[id].path == path
  }

  /** The process-wide sets hold exactly what the held locks name, and so does the operating system. */
  ghost predicate Registered(p: Process) {
    && (forall file :: file in p.heldFiles ==> FileHeld(p, file))
    && (forall path :: path in p.heldPaths ==> PathHeld(p, path))
    && (forall file :: file in p.os.locks ==> file in p.heldFiles)
  }

  /** Deferred descriptors are open aliases of held files, apart from the handles. */
  ghost predicate DeferredOk(p: Process) {
    && (forall file :: file in p.deferred ==> file in p.heldFiles)
    && (forall file, i :: file in p.deferred && 0 <= i < |p.deferred[file]| ==>
          p.deferred[file][i] in p.os.fds && p.os.fds[p.deferred[file][i]] == file)
  }

  ghost predicate Inv(p: Process) {
    HeldOk(p) && Apart(p) && Registered(p) && DeferredOk(p)
  }

  /** The operating system hands out a new descriptor, the runtime a new object. */
  predicate Fresh(p: Process, op: Op) {
    op.DoAcquire? ==> op.id !in p.locks && op.world.fd !in p.os.fds
  }

  /** The only acquisition that can hurt a held lock: the new descriptor cannot be identified, and is closed, although
      the path had been swapped to a held file. */
  predicate Harmless(p: Process, op: Op) {
    op.DoAcquire? && op.path !in p.heldPaths && op.world.stat.Some? && op.world.stat.value !in p.heldFiles
    && !(op.world.empty && !op.create) && op.world.found.Some? && !op.world.identified ==>
      op.world.found.value !in p.heldFiles
  }

  /** Another thread has released the lock since this one passed its check. */
  predicate Overtaken(t: Threads, id: Id) {
    id in t.p.locks && id in t.releasing && t.p.locks[id].handle.None?
  }

  /** A step that cannot hurt a held lock: a harmless acquisition; a release that is not overtaken, or whose path and
      file no lock acquired in between has taken. */
  predicate Safe(t: Threads, op: Op) {
    && Harmless(t.p, op)
    && (op.DoBody? && Overtaken(t, op.id) ==> !PathHeld(t.p, t.p.locks[op.id].path) && !FileHeld(t.p, t.p.locks[op.id].file))
  }

  lemma OpenCloseKeeps(p: Process, fd: Fd, file: File)
    requires Inv(p) && fd !in p.os.fds && file !in p.heldFiles
    ensures Inv(Closing(p.(os := p.os.(fds := p.os.fds[fd := file])), fd))
  {
    var q := Closing(p.(os := p.os.(fds := p.os.fds[fd := file])), fd);
    assert q.os.fds == p.os.fds && q.os.locks == p.os.locks - {file};
    assert forall x :: FileHeld(q, x) == FileHeld(p, x);
    assert forall x :: PathHeld(q, x) == PathHeld(p, x);
  }

  lemma DeferKeeps(p: Process, fd: Fd, file: File)
    requires Inv(p) && fd !in p.os.fds && file in p.heldFiles
    ensures var others := if file in p.deferred then p.deferred[file] else [];
            Inv(p.(os := p.os.(fds := p.os.fds[fd := file]), deferred := p.deferred[file := others + [fd]]))
  {
    var others := if file in p.deferred then p.deferred[file] else [];
    var q := p.(os := p.os.(fds := p.os.fds[fd := file]), deferred := p.deferred[file := others + [fd]]);
    assert forall x :: FileHeld(q, x) == FileHeld(p, x);
    assert forall x :: PathHeld(q, x) == PathHeld(p, x);
  }

  lemma GrantKeeps(p: Process, id: Id, path: Path, fd: Fd, file: File)
    requires Inv(p) && fd !in p.os.fds && id !in p.locks && file !in p.heldFiles && path !in p.heldPaths
    ensures Inv(Process(p.locks[id := Lock(path, file, Some(fd), true)], p.heldPaths + {path}, p.heldFiles + {file},
                        p.deferred, Os(p.os.fds[fd := file], p.os.locks + {file})))
  {
    var q := Process(p.locks[id := Lock(path, file, Some(fd), true)], p.heldPaths + {path}, p.heldFiles + {file},
                     p.deferred, Os(p.os.fds[fd := file], p.os.locks + {file}));
    forall x | FileHeld(p, x)
      ensures FileHeld(q, x)
    {
      var a :| a in p.locks && p.locks[a].locked && p.locks[a].file == x;
      assert q.locks[a] == p.locks[a];
    }
    forall x | PathHeld(p, x)
      ensures PathHeld(q, x)
    {
      var a :| a in p.locks && p.locks[a].locked && p.locks[a].path == x;
      assert q.locks[a] == p.locks[a];
    }
    assert id in q.locks;
  }

  lemma AcquireKeeps(p: Process, op: Op)
    requires Inv(p) && op.DoAcquire? && Fresh(p, op) && Harmless(p, op)
    ensures var q := Acquire(p, op.id, op.path, op.create, op.world).0;
            Inv(q) && forall id :: Held(p, id) ==> Held(q, id) && q.locks[id] == p.locks[id]
  {
    hide Inv;
    var w := op.world;
    if w.found.Some? {
      var file := w.found.value;
      if file in p.heldFiles {
        DeferKeeps(p, w.fd, file);
      } else {
        OpenCloseKeeps(p, w.fd, file);
        if op.path !in p.heldPaths { GrantKeeps(p, op.id, op.path, w.fd, file); }
      }
    }
  }

  /** Closing descriptors that all name one file leaves every other descriptor and lock alone. */
  lemma {:induction false} CloseAllKeeps(os: Os, fds: seq<Fd>, file: File)
    requires forall i :: 0 <= i < |fds| ==> fds[i] in os.fds ==> os.fds[fds[i]] == file
    ensures var z := CloseAll(os, fds);
            && z.fds.Keys <= os.fds.Keys && os.locks - {file} <= z.locks <= os.locks
            && (forall fd :: fd in os.fds && os.fds[fd] != file ==> fd in z.fds)
            && (forall fd :: fd in z.fds ==> z.fds[fd] == os.fds[fd])
    decreases |fds|
  {
    if fds != [] {
      CloseAllKeeps(CloseFd(os, fds[0]), fds[1..], file);
    }
  }

  lemma ReleaseBodyKeeps(p: Process, id: Id, unlocks: bool)
    requires Inv(p) && Held(p, id)
    ensures Inv(ReleaseBody(p, id, unlocks))
    ensures forall x :: Held(p, x) && x != id ==> Held(ReleaseBody(p, id, unlocks), x)
    ensures forall x :: x in p.locks && x != id ==> ReleaseBody(p, id, unlocks).locks[x] == p.locks[x]
    ensures !Held(ReleaseBody(p, id, unlocks), id) && p.locks[id].file !in ReleaseBody(p, id, unlocks).os.locks
  {
    var l, q := p.locks[id], ReleaseBody(p, id, unlocks);
    var fds := if l.file in p.deferred then p.deferred[l.file] else [];
    var os := if unlocks then p.os.(locks := p.os.locks - {l.file}) else p.os;
    var first := CloseFd(os, l.handle.value);
    assert l.file !in first.locks;
    CloseAllKeeps(first, fds, l.file);
    OthersStay(p, q, id);
  }

  /** Every other held lock is on another file, so nothing that was closed or unregistered touches it. */
  lemma OthersStay(p: Process, q: Process, id: Id)
    requires Inv(p) && Held(p, id)
    requires q.locks == p.locks[id := p.locks[id].(handle := None, locked := false)]
    requires q.heldPaths == p.heldPaths - {p.locks[id].path} && q.heldFiles == p.heldFiles - {p.locks[id].file}
    requires q.deferred == p.deferred - {p.locks[id].file}
    requires q.os.fds.Keys <= p.os.fds.Keys && p.os.locks - {p.locks[id].file} <= q.os.locks <= p.os.locks
    requires p.locks[id].file !in q.os.locks
    requires forall fd :: fd in p.os.fds && p.os.fds[fd] != p.locks[id].file ==> fd in q.os.fds
    requires forall fd :: fd in q.os.fds ==> q.os.fds[fd] == p.os.fds[fd]
    ensures Inv(q)
  {
    forall file | file in q.heldFiles
      ensures FileHeld(q, file)
    {
      var a :| a in p.locks && p.locks[a].locked && p.locks[a].file == file;
      assert q.locks[a] == p.locks[a];
    }
    forall path | path in q.heldPaths
      ensures PathHeld(q, path)
    {
      var a :| a in p.locks && p.locks[a].locked && p.locks[a].path == path;
      assert q.locks[a] == p.locks[a];
    }
  }

  lemma IdleReleaseKeeps(p: Process, id: Id)
    requires Inv(p) && id in p.locks && p.locks[id].handle.None?
    ensures ReleaseCheck(p, id) == (p, false)
  {
    assert p.locks[id].(locked := false) == p.locks[id];
    assert p.locks[id := p.locks[id]] == p.locks;
  }

  lemma HandleMeansHeld(p: Process, id: Id)
    requires Inv(p) && id in p.locks
    ensures p.locks[id].handle.Some? <==> Held(p, id)
    ensures p.locks[id].handle.None? ==> !p.locks[id].locked
  {
  }

  predicate Releases(op: Op, id: Id) {
    op.DoBody? && op.id == id
  }

  lemma StepKeeps(t: Threads, op: Op)
    requires Inv(t.p) && Fresh(t.p, op) && Safe(t, op)
    ensures Inv(Apply(t, op).p)
    ensures forall id :: Held(t.p, id) && !Releases(op, id) ==>
              Held(Apply(t, op).p, id) && Apply(t, op).p.locks[id] == t.p.locks[id]
  {
    hide Inv, PathHeld, FileHeld, ReleaseBody, Harmless;
    match op
    case DoAcquire(_, _, _, _) => AcquireKeeps(t.p, op);
    case DoCheck(id) =>
      if id in t.p.locks && t.p.locks[id].handle.None? { IdleReleaseKeeps(t.p, id); }
    case DoBody(id, unlocks) =>
      if id in t.p.locks && id in t.releasing {
        HandleMeansHeld(t.p, id);
        if t.p.locks[id].handle.None? { OvertakenReleaseSafeIff(t.p, id, unlocks); }
        else { ReleaseBodyKeeps(t.p, id, unlocks); }
      }
  }

  predicate AllFresh(t: Threads, ops: seq<Op>)
    decreases |ops|
  {
    ops == [] || (Fresh(t.p, ops[0]) && AllFresh(Apply(t, ops[0]), ops[1..]))
  }

  predicate AllSafe(t: Threads, ops: seq<Op>)
    decreases |ops|
  {
    ops == [] || (Safe(t, ops[0]) && AllSafe(Apply(t, ops[0]), ops[1..]))
  }

  predicate NoneReleases(ops: seq<Op>, id: Id) {
    forall i :: 0 <= i < |ops| ==> !Releases(ops[i], id)
  }

  /**
   However threads acquire and release, and whatever paths are re-linked meanwhile: over a run of safe steps every held
   lock keeps its OS lock until its own release.
   */
  lemma {:induction false} HeldUntilReleased(t: Threads, ops: seq<Op>, id: Id)
    requires Inv(t.p) && AllFresh(t, ops) && AllSafe(t, ops) && Held(t.p, id) && NoneReleases(ops, id)
    ensures var q := Run(t, ops).p;
            && Inv(q) && Held(q, id) && q.locks[id] == t.p.locks[id]
            && t.p.locks[id].file in q.os.locks && q.os.fds[q.locks[id].handle.value] == t.p.locks[id].file
    decreases |ops|
  {
    hide Apply, Fresh, Safe;
    if ops == [] {
      assert HeldOk(t.p);
    } else {
      StepKeeps(t, ops[0]);
      assert !Releases(ops[0], id);
      assert NoneReleases(ops[1..], id) by {
        assert forall i :: 0 <= i < |ops[1..]| ==> ops[1..][i] == ops[i + 1];
      }
      HeldUntilReleased(Apply(t, ops[0]), ops[1..], id);
    }
  }

  /** The invariant holds before and after every step. */
  ghost predicate StaysSound(t: Threads, ops: seq<Op>)
    decreases |ops|
  {
    Inv(t.p) && (ops == [] || StaysSound(Apply(t, ops[0]), ops[1..]))
  }

  /** Over every run, the locks stay sound throughout exactly if every step is safe. */
  lemma {:induction false} SoundIffAllSafe(t: Threads, ops: seq<Op>)
    requires Inv(t.p) && AllFresh(t, ops)
    ensures StaysSound(t, ops) <==> AllSafe(t, ops)
    decreases |ops|
  {
    hide Inv, Apply, Fresh, Safe;
    if ops != [] {
      StepSafeIff(t, ops[0]);
      if Inv(Apply(t, ops[0]).p) {
        SoundIffAllSafe(Apply(t, ops[0]), ops[1..]);
      } else {
        Unsound(Apply(t, ops[0]), ops[1..]);
      }
    }
  }

  lemma Unsound(t: Threads, ops: seq<Op>)
    requires !Inv(t.p)
    ensures !StaysSound(t, ops)
  {
  }

  lemma {:induction false} SoundAtEnd(t: Threads, ops: seq<Op>)
    requires StaysSound(t, ops)
    ensures Inv(Run(t, ops).p)
    decreases |ops|
  {
    hide Inv, Apply;
    if ops != [] {
      SoundAtEnd(Apply(t, ops[0]), ops[1..]);
    }
  }

  /** From a fresh process: held locks are pairwise on different files, and every deferred handle aliases a held one. */
  lemma HeldLocksApart(ops: seq<Op>, a: Id, b: Id, file: File)
    requires AllFresh(START, ops) && AllSafe(START, ops)
    requires Held(Run(START, ops).p, a) && Held(Run(START, ops).p, b) && a != b
    ensures Run(START, ops).p.locks[a].file != Run(START, ops).p.locks[b].file
    ensures file in Run(START, ops).p.deferred ==> FileHeld(Run(START, ops).p, file)
  {
    hide Run, AllSafe, AllFresh, StaysSound;
    assert Inv(START.p);
    SoundIffAllSafe(START, ops);
    SoundAtEnd(START, ops);
  }

  /** The path names a file this process does not hold, at both looks, and the operating system grants its lock byte. */
  predicate Acquirable(p: Process, path: Path, create: bool, w: World) {
    && path !in p.heldPaths && w.stat.Some? && w.stat.value !in p.heldFiles && (w.empty ==> create && w.lockByte)
    && w.found == w.stat && w.identified && w.granted
  }

  /** An acquisition succeeds exactly then, and holds that path and file by its own open descriptor; else it holds nothing new. */
  lemma AcquireDoes(p: Process, id: Id, path: Path, create: bool, w: World)
    ensures var (q, error) := Acquire(p, id, path, create, w);
            && (error.None? <==> Acquirable(p, path, create, w))
            && (error.None? ==>
                  && Held(q, id) && q.locks == p.locks[id := q.locks[id]] && q.locks[id].path == path
                  && Some(q.locks[id].file) == w.stat && q.locks[id].handle == Some(w.fd)
                  && q.os.fds == p.os.fds[w.fd := q.locks[id].file] && q.os.locks == p.os.locks + {q.locks[id].file}
                  && q.heldPaths == p.heldPaths + {path} && q.heldFiles == p.heldFiles + {q.locks[id].file}
                  && q.deferred == p.deferred)
            && (error.Some? ==> q.locks == p.locks && q.heldPaths == p.heldPaths && q.heldFiles == p.heldFiles)
  {
  }

  /* ---- Exactly when the two unguarded steps are safe ---- */

  /**
   An acquisition keeps the invariant if and only if it is harmless: when the descriptor of a held file cannot be
   identified, closing it drops the owner's lock.
   */
  lemma AcquireSafeIff(p: Process, op: Op)
    requires Inv(p) && op.DoAcquire? && Fresh(p, op)
    ensures Inv(Acquire(p, op.id, op.path, op.create, op.world).0) <==> Harmless(p, op)
  {
    if Harmless(p, op) {
      AcquireKeeps(p, op);
    } else {
      var file := op.world.found.value;
      assert FileHeld(p, file);
      var a :| a in p.locks && p.locks[a].locked && p.locks[a].file == file;
      var q := Acquire(p, op.id, op.path, op.create, op.world).0;
      assert q.locks == p.locks && file !in q.os.locks;
      assert !HeldOk(q);
    }
  }

  /**
   A release that finds the handle already taken is safe if and only if no lock acquired in between shares the path or
   the file: otherwise it unregisters that other lock.
   */
  lemma OvertakenReleaseSafeIff(p: Process, id: Id, unlocks: bool)
    requires Inv(p) && id in p.locks && p.locks[id].handle.None? && !p.locks[id].locked
    ensures Inv(ReleaseBody(p, id, unlocks)) <==> !PathHeld(p, p.locks[id].path) && !FileHeld(p, p.locks[id].file)
    ensures Inv(ReleaseBody(p, id, unlocks)) ==> ReleaseBody(p, id, unlocks) == p
  {
    var l, q := p.locks[id], ReleaseBody(p, id, unlocks);
    assert q.locks == p.locks;
    if PathHeld(p, l.path) {
      var a :| a in p.locks && p.locks[a].locked && p.locks[a].path == l.path;
      assert !HeldOk(q);
    } else if FileHeld(p, l.file) {
      var a :| a in p.locks && p.locks[a].locked && p.locks[a].file == l.file;
      assert !HeldOk(q);
    } else {
      assert l.file !in p.heldFiles && l.path !in p.heldPaths;
      assert q.heldPaths == p.heldPaths && q.heldFiles == p.heldFiles;
      assert q.deferred == p.deferred;
      assert q == p;
    }
  }

  lemma StepSafeIff(t: Threads, op: Op)
    requires Inv(t.p) && Fresh(t.p, op)
    ensures Inv(Apply(t, op).p) <==> Safe(t, op)
  {
    hide Inv, PathHeld, FileHeld, ReleaseBody, Harmless, Acquire;
    if Safe(t, op) {
      StepKeeps(t, op);
    } else if op.DoAcquire? {
      AcquireSafeIff(t.p, op);
    } else {
      OthersHarmless(t.p, op);
      HandleMeansHeld(t.p, op.id);
      OvertakenReleaseSafeIff(t.p, op.id, op.unlocks);
    }
  }

  lemma OthersHarmless(p: Process, op: Op)
    requires !op.DoAcquire?
    ensures Harmless(p, op)
  {
  }

  /* ---- Both are reachable ---- */

  /** A held lock that the operating system no longer grants. */
  predicate Lost(p: Process, id: Id) {
    Held(p, id) && p.locks[id].file !in p.os.locks
  }

  /** The file behind path 1 is swapped for the held file 0, and the opened descriptor cannot be identified. */
  lemma UnidentifiedLosesLock()
    ensures var ops := [DoAcquire(0, 0, true, World(Some(0), false, Some(0), 0, true, true, true)),
                        DoAcquire(1, 1, true, World(Some(1), false, Some(0), 1, false, true, true))];
            AllFresh(START, ops) && !AllSafe(START, ops) && Lost(Run(START, ops).p, 0)
  {
  }

  /** The acquisition of path 0, which names file 0, by a lock with its own descriptor. */
  function Taking(id: Id): Op {
    DoAcquire(id, 0, true, World(Some(0), false, Some(0), id, true, true, true))
  }

  const FIRST: seq<Op> := [Taking(0)] + ([DoCheck(0)] + ([DoCheck(0)] + ([DoBody(0, true)] + [])))
  const SECOND: seq<Op> := [Taking(1)] + ([DoBody(0, true)] + ([Taking(2)] + []))

  /** Two threads release lock 0; between their bodies lock 1 is acquired, and after them lock 2 on the same file. */
  lemma DoubleReleaseSharesFile()
    ensures AllFresh(START, FIRST + SECOND) && !AllSafe(START, FIRST + SECOND)
    ensures var p := Run(START, FIRST + SECOND).p; Held(p, 1) && Held(p, 2) && p.locks[1].file == p.locks[2].file
  {
    hide *;
    FirstReleased();
    SecondReleased();
    RunSplits(START, FIRST, SECOND);
    if AllSafe(START, FIRST + SECOND) {
      HeldLocksApart(FIRST + SECOND, 1, 2, 0);
      assert false;
    }
  }

  /** Lock 0 has been released; one more thread has passed the check of its release. */
  const RELEASED := Threads(Process(map[0 := Lock(0, 0, None, false)], {}, {}, map[], Os(map[], {})), multiset{0})

  lemma Steps(t: Threads, op: Op, rest: seq<Op>)
    ensures Run(t, [op] + rest) == Run(Apply(t, op), rest)
    ensures AllFresh(t, [op] + rest) <==> Fresh(t.p, op) && AllFresh(Apply(t, op), rest)
  {
    hide Apply, Fresh;
    assert ([op] + rest)[0] == op && ([op] + rest)[1..] == rest;
  }

  lemma FirstReleased()
    ensures AllFresh(START, FIRST) && Run(START, FIRST) == RELEASED
  {
    var a := Apply(START, Taking(0));
    Steps(START, Taking(0), [DoCheck(0)] + ([DoCheck(0)] + ([DoBody(0, true)] + [])));
    var b := Apply(a, DoCheck(0));
    Steps(a, DoCheck(0), [DoCheck(0)] + ([DoBody(0, true)] + []));
    var c := Apply(b, DoCheck(0));
    Steps(b, DoCheck(0), [DoBody(0, true)] + []);
    Steps(c, DoBody(0, true), []);
    assert c.releasing - multiset{0} == multiset{0};
  }

  lemma SecondReleased()
    ensures AllFresh(RELEASED, SECOND)
    ensures var p := Run(RELEASED, SECOND).p; Held(p, 1) && Held(p, 2) && p.locks[1].file == p.locks[2].file
  {
    var a := Apply(RELEASED, Taking(1));
    Steps(RELEASED, Taking(1), [DoBody(0, true)] + ([Taking(2)] + []));
    var b := Apply(a, DoBody(0, true));
    Steps(a, DoBody(0, true), [Taking(2)] + []);
    Steps(b, Taking(2), []);
  }

  lemma {:induction false} RunSplits(t: Threads, first: seq<Op>, second: seq<Op>)
    ensures Run(t, first + second) == Run(Run(t, first), second)
    ensures AllFresh(t, first + second) <==> AllFresh(t, first) && AllFresh(Run(t, first), second)
    decreases |first|
  {
    hide Apply, Fresh;
    if first == [] {
      assert first + second == second;
    } else {
      assert (first + second)[0] == first[0] && (first + second)[1..] == first[1..] + second;
      RunSplits(Apply(t, first[0]), first[1..], second);
    }
  }

  /* ---- The process-wide tables, changed in place ---- */

  /** The module's tables and the operating system behind them; every method body runs under the process mutex. */
  class ProcessLocks {
    var locks: map<Id, Lock>
    var heldPaths: set<Path>
    var heldFiles: set<File>
    var deferred: map<File, seq<Fd>>
    var os: Os

    constructor ()
      ensures State() == FRESH
    {
      locks, heldPaths, heldFiles, deferred, os := map[], {}, {}, map[], Os(map[], {});
    }

    function State(): Process
      reads this
    {
      Process(locks, heldPaths, heldFiles, deferred, os)
    }

    /** On any failure after the open the descriptor is closed, unless its close had to be deferred. */
    method AcquireLock(id: Id, path: Path, create: bool, w: World) returns (error: Option<Error>)
      modifies this
      ensures (State(), error) == Acquire(old(State()), id, path, create, w)
    {
      if path in heldPaths {
        return Some(Owned);
      }
      if w.stat.None? {
        return Some(Unavailable);
      }
      if w.stat.value in heldFiles {
        return Some(Owned);
      }
      if (w.empty && !create) || w.found.None? {
        return Some(Unavailable);
      }
      var file := w.found.value;
      os := os.(fds := os.fds[w.fd := file]);
      var deferredClose := false;
      error := None;
      if !w.identified {
        error := Some(Failed);
      } else if Some(file) != w.stat {
        if file in heldFiles {
          deferred := deferred[file := (if file in deferred then deferred[file] else []) + [w.fd]];
          deferredClose := true;
          error := Some(Owned);
        } else {
          error := Some(Unavailable);
        }
      } else if w.empty && !w.lockByte {
        error := Some(Failed);
      } else if !w.granted {
        error := Some(Owned);
      }
      if error.Some? {
        if !deferredClose {
          os := CloseFd(os, w.fd);
        }
        return;
      }
      os := os.(locks := os.locks + {file});
      heldPaths, heldFiles := heldPaths + {path}, heldFiles + {file};
      locks := locks[id := Lock(path, file, Some(w.fd), true)];
    }

    /** The unguarded check in front of a release. */
    method CheckRelease(id: Id) returns (going: bool)
      requires id in locks
      modifies this
      ensures (State(), going) == ReleaseCheck(old(State()), id)
    {
      going := locks[id].handle.Some?;
      if !going {
        locks := locks[id := locks[id].(locked := false)];
      }
    }

    /** Unlock if still locked; whatever happens, unregister, close the handle and then the deferred aliases. */
    method FinishRelease(id: Id, unlocks: bool)
      requires id in locks
      modifies this
      ensures State() == ReleaseBody(old(State()), id, unlocks)
    {
      var l := locks[id];
      var aliases := if l.file in deferred then deferred[l.file] else [];
      locks := locks[id := l.(handle := None)];
      deferred := deferred - {l.file};
      if l.locked && l.handle.Some? && unlocks {
        os := os.(locks := os.locks - {l.file});
      }
      heldPaths, heldFiles := heldPaths - {l.path}, heldFiles - {l.file};
      locks := locks[id := l.(handle := None, locked := false)];
      if l.handle.Some? {
        os := CloseFd(os, l.handle.value);
      }
      ghost var start := os;
      for i := 0 to |aliases|
        invariant CloseAll(start, aliases) == CloseAll(os, aliases[i..])
        invariant State() == Process(locks, heldPaths, heldFiles, deferred, os)
        invariant locks == old(locks)[id := l.(handle := None, locked := false)]
        invariant heldPaths == old(heldPaths) - {l.path} && heldFiles == old(heldFiles) - {l.file}
        invariant deferred == old(deferred) - {l.file}
      {
        assert aliases[i..][0] == aliases[i] && aliases[i..][1..] == aliases[i + 1..];
        os := CloseFd(os, aliases[i]);
      }
      assert aliases[|aliases|..] == [];
    }

    method ReleaseLock(id: Id, unlocks: bool)
      requires id in locks
      modifies this
      ensures State() == Release(old(State()), id, unlocks)
    {
      var going := CheckRelease(id);
      if going {
        FinishRelease(id, unlocks);
      }
    }
  }
}
