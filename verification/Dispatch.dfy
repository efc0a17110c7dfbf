/**
  Handing an update over from the entry process to the worker, updater/main.go.

  Any number of entry processes (bootstraps), workers and `--check` runs share one lock, one
  dispatch record and per-job handshake files. Each step is one file operation, lock operation,
  process start or kill. Any process can die at any moment; the lock goes with it. A worker is
  named by its process number; its token is that of the bootstrap that started it.
*/
module Dispatch {
  datatype Option<T> = None | Some(value: T)

  datatype Record = Record(job: nat, pid: nat)

  datatype Process =
    | Bootstrap(job: nat, at: BootstrapPhase)
    | Worker(job: nat, parent: nat, on: WorkerPhase)
    | Checker(doing: CheckerPhase)
    | Gone

  datatype BootstrapPhase =
    | Entering
    | Locked                // holds the lock, about to look for an active dispatch
    | Preparing(blind: bool)  // found none, or could not read the file
    | Requested(blind: bool)  // request written, old handshakes removed
    | Spawned(w: nat, blind: bool)
    | Dispatched(w: nat)    // waits for ready, still under the lock
    | Released(w: nat)      // waits for ack
    | Killing(w: nat, held: bool)
    | Leaving(held: bool)

  datatype WorkerPhase =
    | Arriving
    | Accepted              // its request checked
    | Ready
    | Holding               // has the lock
    | Confirmed             // the dispatch names it
    | Acknowledged          // waits for its parent to be gone
    | Running               // inside the engine
    | Clearing
    | Releasing

  datatype CheckerPhase = Knocking | Looking | Checking

  datatype System = System(
    lock: Option<nat>, dispatch: Option<Record>,
    requests: map<nat, nat>, ready: map<nat, nat>, acks: map<nat, nat>,
    processes: map<nat, Process>)

  datatype Step =
    | Enter(p: nat, process: Process)     // a new bootstrap or checker
    | Acquire(p: nat)
    | LookForDispatch(p: nat, readable: bool)
    | WriteRequest(p: nat)
    | Spawn(p: nat, w: nat)
    | WriteDispatch(p: nat)
    | SeeReady(p: nat)
    | SeeAck(p: nat)
    | GiveUp(p: nat)
    | Kill(p: nat, works: bool)
    | Leave(p: nat)
    | ReadRequest(p: nat)
    | WriteReady(p: nat)
    | ConfirmDispatch(p: nat)
    | WriteAck(p: nat)
    | SeeParentGone(p: nat)
    | Finish(p: nat)        // the engine returns, the wait for the parent times out, or a file cannot be read or written
    | ClearDispatch(p: nat)
    | Die(p: nat)

  predicate Alive(s: System, p: nat) {
    p in s.processes && s.processes[p] != Gone
  }

  /** activeDispatch. */
  predicate Active(s: System) {
    s.dispatch.Some? && Alive(s, s.dispatch.value.pid)
  }

  /** The phases in which a process has the lock. */
  predicate HoldsLock(a: Process) {
    match a
    case Bootstrap(_, at) =>
      || at.Locked? || at.Preparing? || at.Requested? || at.Spawned? || at.Dispatched?
      || ((at.Killing? || at.Leaving?) && at.held)
    case Worker(_, _, on) =>
      on.Holding? || on.Confirmed? || on.Acknowledged? || on.Running? || on.Clearing? || on.Releasing?
    case Checker(doing) => !doing.Knocking?
    case Gone => false
  }

  predicate WaitsForLock(a: Process) {
    match a
    case Bootstrap(_, at) => at.Entering?
    case Worker(_, _, on) => on.Ready?
    case Checker(doing) => doing.Knocking?
    case Gone => false
  }

  function Locking(a: Process): (r: Process)
    requires WaitsForLock(a)
  {
    match a
    case Bootstrap(job, _) => Bootstrap(job, Locked)
    case Worker(job, parent, _) => Worker(job, parent, Holding)
    case Checker(_) => Checker(Looking)
  }

  predicate At(s: System, p: nat) {
    p in s.processes && s.processes[p].Bootstrap?
  }

  predicate On(s: System, p: nat) {
    p in s.processes && s.processes[p].Worker?
  }

  predicate Names(m: map<nat, nat>, job: nat, p: nat) {
    job in m && m[job] == p
  }

  predicate Enabled(s: System, step: Step) {
    var p := step.p;
    match step
    case Enter(_, process) =>
      p !in s.processes && (process == Checker(Knocking) || (process.Bootstrap? && process.at == Entering))
    case Acquire(_) => p in s.processes && WaitsForLock(s.processes[p]) && s.lock == None
    case LookForDispatch(_, _) =>
      p in s.processes && ((s.processes[p].Bootstrap? && s.processes[p].at.Locked?) || s.processes[p] == Checker(Looking))
    case WriteRequest(_) => At(s, p) && s.processes[p].at.Preparing?
    case Spawn(_, w) => At(s, p) && s.processes[p].at.Requested? && w !in s.processes
    case WriteDispatch(_) => At(s, p) && s.processes[p].at.Spawned?
    case SeeReady(_) => At(s, p) && s.processes[p].at.Dispatched? && Names(s.ready, s.processes[p].job, s.processes[p].at.w)
    case SeeAck(_) => At(s, p) && s.processes[p].at.Released? && Names(s.acks, s.processes[p].job, s.processes[p].at.w)
    case GiveUp(_) =>
      || (At(s, p) && !s.processes[p].at.Killing? && !s.processes[p].at.Leaving?)
      || (On(s, p) && (s.processes[p].on.Arriving? || s.processes[p].on.Accepted? || s.processes[p].on.Ready?))
      || (p in s.processes && s.processes[p].Checker?)
    case Kill(_, _) => At(s, p) && s.processes[p].at.Killing?
    case Leave(_) => At(s, p) && s.processes[p].at.Leaving?
    case ReadRequest(_) => On(s, p) && s.processes[p].on.Arriving?
    case WriteReady(_) => On(s, p) && s.processes[p].on.Accepted?
    case ConfirmDispatch(_) => On(s, p) && s.processes[p].on.Holding?
    case WriteAck(_) => On(s, p) && s.processes[p].on.Confirmed?
    case SeeParentGone(_) => On(s, p) && s.processes[p].on.Acknowledged? && !Alive(s, s.processes[p].parent)
    case Finish(_) => On(s, p) && (s.processes[p].on.Holding? || MayRun(s.processes[p].on) || s.processes[p].on.Releasing?)
    case ClearDispatch(_) => On(s, p) && s.processes[p].on.Clearing?
    case Die(_) => Alive(s, p)
  }

  function Next(s: System, step: Step): System
    requires Enabled(s, step)
  {
    var p := step.p;
    match step
    case Enter(_, process) => s.(processes := s.processes[p := process])
    case Acquire(_) => s.(lock := Some(p), processes := s.processes[p := Locking(s.processes[p])])
    case LookForDispatch(_, readable) =>
      if readable && Active(s) then Remove(s, p)
      else if s.processes[p].Checker? then s.(processes := s.processes[p := Checker(Checking)])
      else To(s, p, Preparing(!readable))
    case WriteRequest(_) =>
      var job := s.processes[p].job;
      To(s.(requests := s.requests[job := p], ready := s.ready - {job}, acks := s.acks - {job}), p, Requested(s.processes[p].at.blind))
    case Spawn(_, w) =>
      To(s.(processes := s.processes[w := Worker(s.processes[p].job, p, Arriving)]), p, Spawned(w, s.processes[p].at.blind))
    case WriteDispatch(_) =>
      var a := s.processes[p];
      To(s.(dispatch := Some(Record(a.job, a.at.w))), p, Dispatched(a.at.w))
    case SeeReady(_) => To(s.(lock := None), p, Released(s.processes[p].at.w))
    case SeeAck(_) => To(s, p, Leaving(false))
    case GiveUp(_) =>
      if At(s, p) && HasWorker(s.processes[p].at) then To(s, p, Killing(s.processes[p].at.w, HoldsLock(s.processes[p])))
      else Remove(s, p)
    case Kill(_, works) =>
      var at := s.processes[p].at;
      To(if works && at.w != p then Remove(s, at.w) else s, p, Leaving(at.held))
    case Leave(_) => Remove(s, p)
    case ReadRequest(_) =>
      var a := s.processes[p];
      if Names(s.requests, a.job, a.parent) then OnTo(s, p, Accepted) else Remove(s, p)
    case WriteReady(_) => OnTo(s.(ready := s.ready[s.processes[p].job := p]), p, Ready)
    case ConfirmDispatch(_) =>
      OnTo(s, p, if s.dispatch == Some(Record(s.processes[p].job, p)) then Confirmed else Clearing)
    case WriteAck(_) => OnTo(s.(acks := s.acks[s.processes[p].job := p]), p, Acknowledged)
    case SeeParentGone(_) => OnTo(s, p, Running)
    case Finish(_) => if s.processes[p].on.Releasing? then Remove(s, p) else OnTo(s, p, Clearing)
    case ClearDispatch(_) =>
      OnTo(if s.dispatch == Some(Record(s.processes[p].job, p)) then s.(dispatch := None) else s, p, Releasing)
    case Die(_) => Remove(s, p)
  }

  predicate HasWorker(at: BootstrapPhase) {
    at.Spawned? || at.Dispatched? || at.Released?
  }

  function To(s: System, p: nat, at: BootstrapPhase): System
    requires At(s, p)
  {
    s.(processes := s.processes[p := Bootstrap(s.processes[p].job, at)])
  }

  function OnTo(s: System, p: nat, on: WorkerPhase): System
    requires On(s, p)
  {
    s.(processes := s.processes[p := Worker(s.processes[p].job, s.processes[p].parent, on)])
  }

  /** The process ends, and a lock it held is free again. */
  function Remove(s: System, p: nat): System {
    s.(lock := if s.lock == Some(p) then None else s.lock, processes := s.processes[p := Gone])
  }

  // The invariant.

  ghost predicate LockHolds(s: System) {
    && (s.lock.Some? ==> s.lock.value in s.processes)
    && forall p :: p in s.processes ==> (HoldsLock(s.processes[p]) <==> s.lock == Some(p))
  }

  predicate MayRun(on: WorkerPhase) {
    on.Confirmed? || on.Acknowledged? || on.Running?
  }

  /** Past the check the dispatch keeps naming the worker; inside the engine its parent is gone. */
  predicate WorkerHolds(s: System, p: nat)
    requires On(s, p)
  {
    && (MayRun(s.processes[p].on) ==> s.dispatch == Some(Record(s.processes[p].job, p)))
    && (s.processes[p].on.Running? ==> !Alive(s, s.processes[p].parent))
    && s.processes[p].parent in s.processes
  }

  ghost predicate WorkersHold(s: System) {
    forall p :: On(s, p) ==> WorkerHolds(s, p)
  }

  /** A bootstrap only ever deals with a worker it started itself. */
  predicate BootstrapHolds(s: System, p: nat)
    requires At(s, p)
  {
    HasWorker(s.processes[p].at) || s.processes[p].at.Killing? ==>
      var w := s.processes[p].at.w;
      w in s.processes && (s.processes[w].Gone? || (s.processes[w].Worker? && s.processes[w].parent == p))
  }

  ghost predicate BootstrapsHold(s: System) {
    forall p :: At(s, p) ==> BootstrapHolds(s, p)
  }

  ghost predicate Invariant(s: System) {
    LockHolds(s) && WorkersHold(s) && BootstrapsHold(s)
  }

  /** Whatever earlier runs left in the files, with nobody running. */
  ghost predicate Start(s: System) {
    s.lock == None && s.processes == map[]
  }

  ghost predicate Reaches(s: System, steps: seq<Step>, end: System)
    decreases |steps|
  {
    if steps == [] then s == end
    else Enabled(s, steps[0]) && Reaches(Next(s, steps[0]), steps[1..], end)
  }

  /** A step changes its own process, the one it starts and the one it kills, and no other. */
  lemma OthersUntouched(s: System, step: Step, q: nat)
    requires Enabled(s, step) && q in s.processes && q != step.p
    ensures q in Next(s, step).processes
    ensures !(step.Kill? && step.works && s.processes[step.p].at.w == q) ==> Next(s, step).processes[q] == s.processes[q]
    ensures Next(s, step).processes[q] == s.processes[q] || Next(s, step).processes[q] == Gone
  {
  }

  lemma ProcessKeepsLock(s: System, step: Step, q: nat)
    requires LockHolds(s) && Enabled(s, step) && q in Next(s, step).processes
    ensures HoldsLock(Next(s, step).processes[q]) <==> Next(s, step).lock == Some(q)
  {
    hide Active, Alive, Names;
    if q in s.processes && q != step.p {
      OthersUntouched(s, step, q);
    }
  }

  lemma StepKeepsLock(s: System, step: Step)
    requires LockHolds(s) && Enabled(s, step)
    ensures LockHolds(Next(s, step))
  {
    var next := Next(s, step);
    forall q | q in next.processes ensures HoldsLock(next.processes[q]) <==> next.lock == Some(q) {
      ProcessKeepsLock(s, step, q);
    }
    assert next.lock.Some? ==> next.lock.value in next.processes;
  }

  lemma DispatchChanges(s: System, step: Step)
    requires Enabled(s, step)
    ensures Next(s, step).dispatch != s.dispatch ==> step.WriteDispatch? || step.ClearDispatch?
  {
  }

  lemma DeadStayDead(s: System, step: Step, p: nat)
    requires Enabled(s, step) && p in s.processes && !Alive(s, p)
    ensures p in Next(s, step).processes && !Alive(Next(s, step), p)
  {
  }

  lemma OtherWorkerKeeps(s: System, step: Step, q: nat)
    requires LockHolds(s) && WorkersHold(s) && Enabled(s, step) && On(Next(s, step), q) && q in s.processes && q != step.p
    ensures WorkerHolds(Next(s, step), q)
  {
    DispatchChanges(s, step);
    OthersUntouched(s, step, q);
    assert WorkerHolds(s, q);
    if !Alive(s, s.processes[q].parent) {
      DeadStayDead(s, step, s.processes[q].parent);
    }
    assert MayRun(s.processes[q].on) ==> HoldsLock(s.processes[q]);
    assert step.WriteDispatch? || step.ClearDispatch? ==> HoldsLock(s.processes[step.p]);
    KeepsProcesses(s, step);
    hide Next;
  }

  lemma KeepsProcesses(s: System, step: Step)
    requires Enabled(s, step)
    ensures s.processes.Keys <= Next(s, step).processes.Keys
  {
  }

  lemma WorkerKeeps(s: System, step: Step, q: nat)
    requires LockHolds(s) && WorkersHold(s) && Enabled(s, step) && On(Next(s, step), q)
    ensures WorkerHolds(Next(s, step), q)
  {
    if q in s.processes && q != step.p {
      OtherWorkerKeeps(s, step, q);
    } else if q in s.processes {
      assert WorkerHolds(s, q);
      if !Alive(s, s.processes[q].parent) {
        DeadStayDead(s, step, s.processes[q].parent);
      }
    }
  }

  lemma StepKeepsWorkers(s: System, step: Step)
    requires LockHolds(s) && WorkersHold(s) && Enabled(s, step)
    ensures WorkersHold(Next(s, step))
  {
    forall q | On(Next(s, step), q) ensures WorkerHolds(Next(s, step), q) {
      WorkerKeeps(s, step, q);
    }
  }

  lemma BootstrapKeeps(s: System, step: Step, q: nat)
    requires BootstrapsHold(s) && Enabled(s, step) && At(Next(s, step), q)
    ensures BootstrapHolds(Next(s, step), q)
  {
    if q in s.processes && q != step.p {
      OthersUntouched(s, step, q);
      assert BootstrapHolds(s, q);
    } else if At(s, q) {
      assert BootstrapHolds(s, q);
    }
  }

  lemma StepKeepsBootstraps(s: System, step: Step)
    requires BootstrapsHold(s) && Enabled(s, step)
    ensures BootstrapsHold(Next(s, step))
  {
    forall q | At(Next(s, step), q) ensures BootstrapHolds(Next(s, step), q) {
      BootstrapKeeps(s, step, q);
    }
  }

  lemma StepKeepsInvariant(s: System, step: Step)
    requires Invariant(s) && Enabled(s, step)
    ensures Invariant(Next(s, step))
  {
    StepKeepsLock(s, step);
    StepKeepsWorkers(s, step);
    StepKeepsBootstraps(s, step);
  }

  lemma {:induction false} RunsKeepInvariant(s: System, steps: seq<Step>, end: System)
    requires Invariant(s) && Reaches(s, steps, end)
    ensures Invariant(end)
    decreases |steps|
  {
    if steps != [] {
      StepKeepsInvariant(s, steps[0]);
      RunsKeepInvariant(Next(s, steps[0]), steps[1..], end);
    }
  }

  /** Inside the engine, for an update or for a check only. */
  predicate InEngine(s: System, p: nat) {
    (On(s, p) && s.processes[p].on.Running?) || (p in s.processes && s.processes[p] == Checker(Checking))
  }

  /**
    However bootstraps, workers and checks interleave and die: at most one of them is inside the
    engine; a worker there is the one the dispatch names; and its bootstrap is gone.
  */
  lemma OneInTheEngine(s: System, steps: seq<Step>, end: System, p: nat, q: nat)
    requires Start(s) && Reaches(s, steps, end) && InEngine(end, p)
    ensures InEngine(end, q) ==> q == p
    ensures On(end, p) ==> end.dispatch == Some(Record(end.processes[p].job, p))
    ensures On(end, p) ==> !Alive(end, end.processes[p].parent)
  {
    RunsKeepInvariant(s, steps, end);
    if On(end, p) {
      assert WorkerHolds(end, p);
    }
    assert HoldsLock(end.processes[p]);
    if InEngine(end, q) {
      assert HoldsLock(end.processes[q]);
    }
  }

  /** Nobody kills a worker that is inside the engine. */
  lemma RunningWorkersAreNotKilled(s: System, steps: seq<Step>, end: System, w: nat, step: Step)
    requires Start(s) && Reaches(s, steps, end) && On(end, w) && InEngine(end, w)
    requires Enabled(end, step) && step.p != w
    ensures Next(end, step).processes[w] == end.processes[w] && Next(end, step).lock == Some(w)
  {
    RunsKeepInvariant(s, steps, end);
    assert WorkerHolds(end, w);
    if At(end, step.p) {
      assert BootstrapHolds(end, step.p);
    }
    OthersUntouched(end, step, w);
    ProcessKeepsLock(end, step, w);
    hide Next;
  }

  // The dispatch of a live worker.

  /** Between its look and its own record, a bootstrap that could look knows that no dispatched worker is alive. */
  ghost predicate NoneDispatched(s: System) {
    forall p :: At(s, p) && KnowsOfNone(s.processes[p].at) ==> !Active(s)
  }

  predicate KnowsOfNone(at: BootstrapPhase) {
    BetweenLookAndRecord(at) && !at.blind
  }

  predicate BetweenLookAndRecord(at: BootstrapPhase) {
    at.Preparing? || at.Requested? || at.Spawned?
  }

  /** The process number in the dispatch file is not handed out again. */
  ghost predicate Clear(s: System, step: Step) {
    && (s.dispatch.Some? && step.Enter? ==> step.p != s.dispatch.value.pid)
    && (s.dispatch.Some? && step.Spawn? ==> step.w != s.dispatch.value.pid)
  }

  ghost predicate AllClear(s: System, steps: seq<Step>)
    decreases |steps|
  {
    steps != [] && Enabled(s, steps[0]) ==> Clear(s, steps[0]) && AllClear(Next(s, steps[0]), steps[1..])
  }

  lemma ProcessKeepsNoneDispatched(s: System, step: Step, p: nat)
    requires LockHolds(s) && NoneDispatched(s) && Enabled(s, step) && Clear(s, step)
    requires At(Next(s, step), p) && KnowsOfNone(Next(s, step).processes[p].at)
    ensures !Active(Next(s, step))
  {
    ProcessKeepsLock(s, step, p);
    DispatchChanges(s, step);
    if p != step.p {
      OthersUntouched(s, step, p);
      assert HoldsLock(s.processes[p]);
    }
  }

  lemma StepKeepsNoneDispatched(s: System, step: Step)
    requires LockHolds(s) && NoneDispatched(s) && Enabled(s, step) && Clear(s, step)
    ensures NoneDispatched(Next(s, step))
  {
    var next := Next(s, step);
    forall p | At(next, p) && KnowsOfNone(next.processes[p].at) ensures !Active(next) {
      ProcessKeepsNoneDispatched(s, step, p);
    }
  }

  lemma {:induction false} RunsKeepNoneDispatched(s: System, steps: seq<Step>, end: System)
    requires Invariant(s) && NoneDispatched(s) && Reaches(s, steps, end) && AllClear(s, steps)
    ensures Invariant(end) && NoneDispatched(end)
    decreases |steps|
  {
    if steps != [] {
      StepKeepsInvariant(s, steps[0]);
      StepKeepsNoneDispatched(s, steps[0]);
      RunsKeepNoneDispatched(Next(s, steps[0]), steps[1..], end);
    }
  }

  /** A bootstrap overwrites the record although it could not read it. */
  predicate Overwrites(s: System, step: Step) {
    step.WriteDispatch? && At(s, step.p) && BetweenLookAndRecord(s.processes[step.p].at) && s.processes[step.p].at.blind
  }

  /**
    While a dispatched worker is alive its record changes in two ways only: the worker clears it at
    the end, or a bootstrap that could not read it writes its own.
  */
  lemma LiveDispatchIsKept(s: System, steps: seq<Step>, end: System, step: Step)
    requires Start(s) && Reaches(s, steps, end) && AllClear(s, steps)
    requires Enabled(end, step) && Active(end) && Next(end, step).dispatch != end.dispatch
    ensures step == ClearDispatch(end.dispatch.value.pid) || Overwrites(end, step)
  {
    RunsKeepNoneDispatched(s, steps, end);
    DispatchChanges(end, step);
    if step.WriteDispatch? {
      assert BetweenLookAndRecord(end.processes[step.p].at);
    }
  }

  ghost predicate AllReadable(steps: seq<Step>) {
    forall k :: 0 <= k < |steps| && steps[k].LookForDispatch? ==> steps[k].readable
  }

  ghost predicate NoneBlind(s: System) {
    forall p :: At(s, p) && BetweenLookAndRecord(s.processes[p].at) ==> !s.processes[p].at.blind
  }

  lemma StepKeepsSight(s: System, step: Step)
    requires NoneBlind(s) && Enabled(s, step) && (step.LookForDispatch? ==> step.readable)
    ensures NoneBlind(Next(s, step))
  {
    var next := Next(s, step);
    forall p | At(next, p) && BetweenLookAndRecord(next.processes[p].at) ensures !next.processes[p].at.blind {
      if p in s.processes && p != step.p {
        OthersUntouched(s, step, p);
      }
    }
  }

  /** If every look can read the file, no bootstrap overwrites a record unread, and only the worker itself clears it. */
  lemma {:induction false} ReadersDoNotOverwrite(s: System, steps: seq<Step>, end: System, step: Step)
    requires NoneBlind(s) && Reaches(s, steps, end) && AllReadable(steps)
    ensures !Overwrites(end, step)
    decreases |steps|
  {
    if steps != [] {
      StepKeepsSight(s, steps[0]);
      ReadersDoNotOverwrite(Next(s, steps[0]), steps[1..], end, step);
    }
  }

  // The handshakes.

  /** The worker has said that it is ready, or is no more. */
  predicate SaidReady(a: Process) {
    a.Gone? || (a.Worker? && !a.on.Arriving? && !a.on.Accepted?)
  }

  /** The worker, holding the lock, has found its dispatch and said so, or is no more. */
  predicate SaidAck(a: Process) {
    a.Gone? || (a.Worker? && (a.on.Acknowledged? || a.on.Running? || a.on.Clearing? || a.on.Releasing?))
  }

  /** A handshake that names the worker of a bootstrap is from that worker; old ones were removed before it was started. */
  predicate HandshakeHolds(s: System, p: nat)
    requires At(s, p)
  {
    var job, at := s.processes[p].job, s.processes[p].at;
    && (at.Requested? ==>
          (job in s.ready ==> s.ready[job] in s.processes) && (job in s.acks ==> s.acks[job] in s.processes))
    && (HasWorker(at) && at.w in s.processes ==>
          && (Names(s.ready, job, at.w) ==> SaidReady(s.processes[at.w]))
          && (Names(s.acks, job, at.w) ==> SaidAck(s.processes[at.w])))
  }

  ghost predicate HandshakesHold(s: System) {
    forall p :: At(s, p) ==> HandshakeHolds(s, p)
  }

  /** What has been said stays said. */
  lemma SaidStaysSaid(s: System, step: Step, w: nat)
    requires Enabled(s, step) && w in s.processes
    ensures w in Next(s, step).processes
    ensures SaidReady(s.processes[w]) ==> SaidReady(Next(s, step).processes[w])
    ensures SaidAck(s.processes[w]) ==> SaidAck(Next(s, step).processes[w])
  {
    if w == step.p {
      OwnSaidStaysSaid(s, step);
    } else {
      OthersUntouched(s, step, w);
    }
    hide Next, Enabled;
  }

  lemma OwnSaidStaysSaid(s: System, step: Step)
    requires Enabled(s, step) && step.p in s.processes
    ensures SaidReady(s.processes[step.p]) ==> SaidReady(Next(s, step).processes[step.p])
    ensures SaidAck(s.processes[step.p]) ==> SaidAck(Next(s, step).processes[step.p])
  {
  }

  /** A step of another process changes a handshake only by writing or removing it. */
  lemma HandshakeChanges(s: System, step: Step, job: nat)
    requires Enabled(s, step)
    ensures var next := Next(s, step);
      && (job in next.ready ==> (job in s.ready && next.ready[job] == s.ready[job]) || next.ready[job] == step.p)
      && (job in next.acks ==> (job in s.acks && next.acks[job] == s.acks[job]) || next.acks[job] == step.p)
    ensures Names(Next(s, step).ready, job, step.p) && !Names(s.ready, job, step.p) ==> SaidReady(Next(s, step).processes[step.p])
    ensures Names(Next(s, step).acks, job, step.p) && !Names(s.acks, job, step.p) ==> SaidAck(Next(s, step).processes[step.p])
    ensures step.WriteRequest? ==> s.processes[step.p].job !in Next(s, step).ready && s.processes[step.p].job !in Next(s, step).acks
  {
  }

  lemma OtherBootstrapKeepsHandshake(s: System, step: Step, q: nat)
    requires BootstrapsHold(s) && HandshakesHold(s) && Enabled(s, step) && At(Next(s, step), q) && At(s, q) && q != step.p
    ensures HandshakeHolds(Next(s, step), q)
  {
    OthersUntouched(s, step, q);
    HandshakeChanges(s, step, s.processes[q].job);
    KeepsProcesses(s, step);
    assert HandshakeHolds(s, q) && BootstrapHolds(s, q);
    if HasWorker(s.processes[q].at) {
      SaidStaysSaid(s, step, s.processes[q].at.w);
    }
    OwnProcessIsKnown(s, step);
    hide Next, Enabled, SaidReady, SaidAck;
  }

  lemma OwnProcessIsKnown(s: System, step: Step)
    requires Enabled(s, step)
    ensures step.p in Next(s, step).processes
  {
  }

  lemma OwnHandshakeKept(s: System, step: Step)
    requires BootstrapsHold(s) && HandshakesHold(s) && Enabled(s, step) && At(Next(s, step), step.p)
    ensures HandshakeHolds(Next(s, step), step.p)
  {
    if At(s, step.p) {
      assert HandshakeHolds(s, step.p) && BootstrapHolds(s, step.p);
    }
  }

  lemma BootstrapKeepsHandshake(s: System, step: Step, q: nat)
    requires BootstrapsHold(s) && HandshakesHold(s) && Enabled(s, step) && At(Next(s, step), q)
    ensures HandshakeHolds(Next(s, step), q)
  {
    if q == step.p {
      OwnHandshakeKept(s, step);
    } else {
      OldBootstrap(s, step, q);
      OtherBootstrapKeepsHandshake(s, step, q);
    }
  }

  lemma OldBootstrap(s: System, step: Step, q: nat)
    requires Enabled(s, step) && At(Next(s, step), q) && q != step.p
    ensures At(s, q)
  {
  }

  lemma {:induction false} RunsKeepHandshakes(s: System, steps: seq<Step>, end: System)
    requires Invariant(s) && HandshakesHold(s) && Reaches(s, steps, end)
    ensures Invariant(end) && HandshakesHold(end)
    decreases |steps|
  {
    if steps != [] {
      StepKeepsInvariant(s, steps[0]);
      forall q | At(Next(s, steps[0]), q) ensures HandshakeHolds(Next(s, steps[0]), q) {
        BootstrapKeepsHandshake(s, steps[0], q);
      }
      RunsKeepHandshakes(Next(s, steps[0]), steps[1..], end);
    }
  }

  /**
    A bootstrap is never taken in by handshake files of an earlier run: when it releases the lock
    its own worker has said that it is ready, and when it leaves with an acknowledgement its own
    worker has found the dispatch under the lock; or the worker is no more.
  */
  lemma HandshakesAreGenuine(s: System, steps: seq<Step>, end: System, p: nat)
    requires Start(s) && Reaches(s, steps, end) && (Enabled(end, SeeReady(p)) || Enabled(end, SeeAck(p)))
    ensures var w := end.processes[p].at.w;
      && w in end.processes
      && (Enabled(end, SeeReady(p)) ==> SaidReady(end.processes[w]))
      && (Enabled(end, SeeAck(p)) ==> SaidAck(end.processes[w]))
  {
    RunsKeepHandshakes(s, steps, end);
    assert HandshakeHolds(end, p) && BootstrapHolds(end, p);
  }

  // A hand-over that nobody disturbs.

  lemma {:induction false} ReachesAppend(s: System, steps: seq<Step>, middle: System, more: seq<Step>, end: System)
    requires Reaches(s, steps, middle) && Reaches(middle, more, end)
    ensures Reaches(s, steps + more, end)
    decreases |steps|
  {
    if steps == [] {
      assert steps + more == more;
    } else {
      ReachesAppend(Next(s, steps[0]), steps[1..], middle, more, end);
      assert (steps + more)[1..] == steps[1..] + more;
    }
  }

  lemma Prepend(s: System, step: Step, steps: seq<Step>, end: System)
    requires Enabled(s, step) && Reaches(Next(s, step), steps, end)
    ensures Reaches(s, [step] + steps, end)
  {
    assert ([step] + steps)[1..] == steps;
  }

  /** Three steps in a row. */
  lemma Three(s: System, a: Step, b: Step, c: Step)
    requires Enabled(s, a) && Enabled(Next(s, a), b) && Enabled(Next(Next(s, a), b), c)
    ensures Reaches(s, [a, b, c], Next(Next(Next(s, a), b), c))
  {
    hide Enabled, Next;
    var s1, s2, end := Next(s, a), Next(Next(s, a), b), Next(Next(Next(s, a), b), c);
    Prepend(s2, c, [], end);
    assert [c] + [] == [c] && [b] + [c] == [b, c] && [a] + [b, c] == [a, b, c];
    Prepend(s1, b, [c], end);
    Prepend(s, a, [b, c], end);
  }

  /** Nobody has the lock, no live worker is dispatched, and the two process numbers are new. */
  predicate Free(s: System, p: nat, w: nat) {
    && s.lock == None && !Active(s) && p !in s.processes && w !in s.processes && p != w
    && (s.dispatch.Some? ==> s.dispatch.value.pid != p)
  }

  /** The bootstrap enters, and finds no live worker dispatched. */
  lemma LooksAround(s: System, p: nat, w: nat, job: nat) returns (end: System)
    requires Free(s, p, w)
    ensures Reaches(s, [Enter(p, Bootstrap(job, Entering)), Acquire(p), LookForDispatch(p, true)], end)
    ensures end == s.(lock := Some(p), processes := s.processes[p := Bootstrap(job, Preparing(false))])
  {
    hide Reaches;
    Three(s, Enter(p, Bootstrap(job, Entering)), Acquire(p), LookForDispatch(p, true));
    end := Next(Next(Next(s, Enter(p, Bootstrap(job, Entering))), Acquire(p)), LookForDispatch(p, true));
  }

  /** It starts its worker and records it. */
  lemma Dispatches(s: System, p: nat, w: nat) returns (end: System)
    requires At(s, p) && s.processes[p].at == Preparing(false) && w !in s.processes
    ensures Reaches(s, [WriteRequest(p), Spawn(p, w), WriteDispatch(p)], end)
    ensures var job := s.processes[p].job;
      && end.lock == s.lock && end.dispatch == Some(Record(job, w)) && end.requests == s.requests[job := p]
      && end.processes == s.processes[p := Bootstrap(job, Dispatched(w))][w := Worker(job, p, Arriving)]
  {
    hide Reaches;
    Three(s, WriteRequest(p), Spawn(p, w), WriteDispatch(p));
    end := Next(Next(Next(s, WriteRequest(p)), Spawn(p, w)), WriteDispatch(p));
  }

  /** The worker finds its request and says so, and the bootstrap lets go of the lock. */
  lemma Accepts(s: System, p: nat, w: nat) returns (end: System)
    requires At(s, p) && On(s, w) && s.processes[p].at == Dispatched(w) && s.processes[w].on == Arriving
    requires s.processes[w].job == s.processes[p].job && s.processes[w].parent == p && Names(s.requests, s.processes[p].job, p)
    ensures Reaches(s, [ReadRequest(w), WriteReady(w), SeeReady(p)], end)
    ensures var job := s.processes[p].job;
      && end.lock == None && end.dispatch == s.dispatch
      && end.processes == s.processes[p := Bootstrap(job, Released(w))][w := Worker(job, p, Ready)]
  {
    hide Reaches;
    Three(s, ReadRequest(w), WriteReady(w), SeeReady(p));
    end := Next(Next(Next(s, ReadRequest(w)), WriteReady(w)), SeeReady(p));
  }

  /** The worker takes the lock, finds itself dispatched, and says so. */
  lemma Confirms(s: System, p: nat, w: nat) returns (end: System)
    requires On(s, w) && s.processes[w].on == Ready && s.lock == None && s.dispatch == Some(Record(s.processes[w].job, w))
    ensures Reaches(s, [Acquire(w), ConfirmDispatch(w), WriteAck(w)], end)
    ensures var job := s.processes[w].job;
      && end.lock == Some(w) && end.dispatch == s.dispatch && Names(end.acks, job, w)
      && end.processes == s.processes[w := Worker(job, s.processes[w].parent, Acknowledged)]
  {
    hide Reaches;
    Three(s, Acquire(w), ConfirmDispatch(w), WriteAck(w));
    end := Next(Next(Next(s, Acquire(w)), ConfirmDispatch(w)), WriteAck(w));
  }

  /** The bootstrap leaves, and the worker goes on into the engine. */
  lemma Parts(s: System, p: nat, w: nat) returns (end: System)
    requires At(s, p) && On(s, w) && p != w && s.processes[p].at == Released(w) && s.processes[w].on == Acknowledged
    requires s.processes[w].parent == p && Names(s.acks, s.processes[p].job, w) && s.lock == Some(w)
    ensures Reaches(s, [SeeAck(p), Leave(p), SeeParentGone(w)], end)
    ensures end == s.(processes := s.processes[p := Gone][w := Worker(s.processes[w].job, p, Running)])
  {
    hide Reaches;
    Three(s, SeeAck(p), Leave(p), SeeParentGone(w));
    end := Next(Next(Next(s, SeeAck(p)), Leave(p)), SeeParentGone(w));
  }

  /** When the engine is done the worker clears its own record and leaves. */
  lemma ClearsUp(s: System, w: nat) returns (end: System)
    requires On(s, w) && s.processes[w].on == Running && s.lock == Some(w) && s.dispatch == Some(Record(s.processes[w].job, w))
    ensures Reaches(s, [Finish(w), ClearDispatch(w), Finish(w)], end)
    ensures end == s.(lock := None, dispatch := None, processes := s.processes[w := Gone])
  {
    hide Reaches;
    Three(s, Finish(w), ClearDispatch(w), Finish(w));
    end := Next(Next(Next(s, Finish(w)), ClearDispatch(w)), Finish(w));
  }

  /**
    Whatever earlier runs left behind: a bootstrap and its worker that nobody disturbs get the
    update into the engine, recorded and alone, and afterwards the lock and the record are free.
  */
  lemma UndisturbedHandOver(s: System, p: nat, w: nat, job: nat)
    returns (steps: seq<Step>, running: System, more: seq<Step>, end: System)
    requires Free(s, p, w)
    ensures Reaches(s, steps, running) && Reaches(running, more, end)
    ensures running.lock == Some(w) && running.dispatch == Some(Record(job, w))
    ensures running.processes == s.processes[p := Gone][w := Worker(job, p, Running)]
    ensures end.lock == None && end.dispatch == None && end.processes == s.processes[p := Gone][w := Gone]
  {
    hide Reaches, Enabled, Next;
    var looked := LooksAround(s, p, w, job);
    steps := [Enter(p, Bootstrap(job, Entering)), Acquire(p), LookForDispatch(p, true)];
    var dispatched := Dispatches(looked, p, w);
    ReachesAppend(s, steps, looked, [WriteRequest(p), Spawn(p, w), WriteDispatch(p)], dispatched);
    steps := steps + [WriteRequest(p), Spawn(p, w), WriteDispatch(p)];
    var accepted := Accepts(dispatched, p, w);
    ReachesAppend(s, steps, dispatched, [ReadRequest(w), WriteReady(w), SeeReady(p)], accepted);
    steps := steps + [ReadRequest(w), WriteReady(w), SeeReady(p)];
    var confirmed := Confirms(accepted, p, w);
    ReachesAppend(s, steps, accepted, [Acquire(w), ConfirmDispatch(w), WriteAck(w)], confirmed);
    steps := steps + [Acquire(w), ConfirmDispatch(w), WriteAck(w)];
    running := Parts(confirmed, p, w);
    ReachesAppend(s, steps, confirmed, [SeeAck(p), Leave(p), SeeParentGone(w)], running);
    steps := steps + [SeeAck(p), Leave(p), SeeParentGone(w)];
    assert running.processes == s.processes[p := Gone][w := Worker(job, p, Running)];
    end := ClearsUp(running, w);
    more := [Finish(w), ClearDispatch(w), Finish(w)];
    assert end.processes == s.processes[p := Gone][w := Gone];
  }
}
