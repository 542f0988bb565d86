/**
  Read-copy-update, core/rcu.cc and include/osv/rcu.hh: readers only disable preemption; a
  garbage collector asks a thread on every CPU to run, which it cannot while a reader does,
  and then runs the callbacks it had taken before. One step is one atomic access.
 */
module Rcu {

  // ---- the state ----

  // The quiescent-state thread of a CPU, in work(): waiting, or having read the request.
  datatype Worker = Waiting | Loaded(r: nat)

  /** A CPU: its worker's two counters, and the reader on it, if preemption is disabled:
      how deeply nested, which section (numbered as they begin), whether the CPU was registered
      when it began, and the objects it has read. */
  datatype Cpu = Cpu(gen: nat, req: nat, worker: Worker, depth: nat, section: nat, known: bool, holds: set<nat>)

  /** A deferred callback, which deletes obj. The sections running when it was registered
      are those it must outlast. */
  datatype Callback = Callback(obj: nat, waits: set<(nat, nat)>)

  // The garbage collector, in collect_garbage(), await_grace_period() and request().
  datatype Gc =
    | Idle
    | Took
    | Asking(k: nat)
    | Swapping(k: nat, r: nat)
    | Checking(k: nat)
    | Running

  /** Objects are numbered; ptr is the one the rcu_ptr points to, those below next exist,
      retired ones are replaced and not yet disposed of. */
  datatype State = State(
    cpus: seq<Cpu>, registered: seq<nat>, nextSection: nat,
    callbacks: seq<Callback>, gc: Gc, generation: nat, asked: seq<nat>, batch: seq<Callback>,
    ptr: nat, next: nat, retired: set<nat>, deleted: set<nat>)

  datatype Act =
    | Register(c: nat)               // the notifier of a CPU that comes up
    | Lock(c: nat) | Read(c: nat) | Unlock(c: nat)
    | Assign | Dispose(obj: nat)
    | WorkerLoads(c: nat) | WorkerStores(c: nat)
    | GcTakes | GcStarts | GcLoads | GcSwaps(spurious: bool) | GcChecks | GcRuns

  function NewCpu(): Cpu { Cpu(0, 0, Waiting, 0, 0, false, {}) }

  ghost predicate Init(s: State) {
    && (forall c | 0 <= c < |s.cpus| :: s.cpus[c] == NewCpu())
    && s.registered == [] && s.nextSection == 0 && s.callbacks == [] && s.gc == Idle && s.generation == 0
    && s.asked == [] && s.batch == [] && s.ptr == 0 && s.next == 1 && s.retired == {} && s.deleted == {}
  }

  // The sections running now.
  ghost function Sections(s: State): set<(nat, nat)> {
    set c: nat | c < |s.cpus| && s.cpus[c].depth > 0 :: (c, s.cpus[c].section)
  }

  ghost predicate Active(s: State, w: (nat, nat)) {
    w.0 < |s.cpus| && s.cpus[w.0].depth > 0 && s.cpus[w.0].section == w.1
  }

  /** A reader keeps the worker of its CPU from running: preemption is disabled. */
  ghost predicate Enabled(s: State, a: Act) {
    match a
    case Register(c) => c < |s.cpus| && c !in s.registered
    case Lock(c) => c < |s.cpus|
    case Read(c) => c < |s.cpus| && s.cpus[c].depth > 0
    case Unlock(c) => c < |s.cpus| && s.cpus[c].depth > 0
    case Assign => true
    case Dispose(obj) => obj in s.retired
    case WorkerLoads(c) =>
      && c < |s.cpus| && c in s.registered && s.cpus[c].depth == 0
      && s.cpus[c].worker == Waiting && s.cpus[c].gen < s.cpus[c].req
    case WorkerStores(c) => c < |s.cpus| && s.cpus[c].depth == 0 && s.cpus[c].worker.Loaded?
    case GcTakes => s.gc == Idle && s.callbacks != []
    case GcStarts => s.gc == Took
    case GcLoads => s.gc.Asking? && s.gc.k < |s.asked| && s.asked[s.gc.k] < |s.cpus|
    case GcSwaps(_) => s.gc.Swapping? && s.gc.k < |s.asked| && s.asked[s.gc.k] < |s.cpus|
    case GcChecks => s.gc.Checking? && s.gc.k < |s.asked| && s.asked[s.gc.k] < |s.cpus|
    case GcRuns => s.gc == Running && s.batch != []
  }

  function WithCpu(s: State, c: nat, p: Cpu): State
    requires c < |s.cpus|
  {
    s.(cpus := s.cpus[c := p])
  }

  function NextAsk(s: State, k: nat): Gc {
    if k < |s.asked| then Asking(k) else NextCheck(s, 0)
  }

  function NextCheck(s: State, k: nat): Gc {
    if k < |s.asked| then Checking(k) else Running
  }

  function ReaderStep(s: State, c: nat, a: Act): Cpu
    requires c < |s.cpus| && (a.Lock? || (s.cpus[c].depth > 0 && (a.Read? || a.Unlock?)))
  {
    var p := s.cpus[c];
    match a
    case Lock(_) => if p.depth > 0 then p.(depth := p.depth + 1)
                    else p.(depth := 1, section := s.nextSection, known := c in s.registered)
    case Read(_) => p.(holds := p.holds + {s.ptr})
    case Unlock(_) => if p.depth == 1 then p.(depth := 0, holds := {}) else p.(depth := p.depth - 1)
  }

  // compare_exchange_weak() in request(), which may fail for no reason.
  function Swap(s: State, spurious: bool): State
    requires Enabled(s, GcSwaps(spurious))
  {
    var k, r, c := s.gc.k, s.gc.r, s.asked[s.gc.k];
    var p := s.cpus[c];
    if s.generation <= r then s.(gc := NextAsk(s, k + 1))
    else if spurious || p.req != r then s.(gc := Swapping(k, p.req))
    else WithCpu(s, c, p.(req := s.generation)).(gc := NextAsk(s, k + 1))
  }

  ghost function Apply(s: State, a: Act): State
    requires Enabled(s, a)
  {
    match a
    case Register(c) => s.(registered := s.registered + [c])
    case Lock(c) => WithCpu(s, c, ReaderStep(s, c, a)).(nextSection := s.nextSection + 1)
    case Read(c) => WithCpu(s, c, ReaderStep(s, c, a))
    case Unlock(c) => WithCpu(s, c, ReaderStep(s, c, a))
    case Assign => s.(ptr := s.next, next := s.next + 1, retired := s.retired + {s.ptr})
    case Dispose(obj) => s.(retired := s.retired - {obj}, callbacks := s.callbacks + [Callback(obj, Sections(s))])
    case WorkerLoads(c) => WithCpu(s, c, s.cpus[c].(worker := Loaded(s.cpus[c].req)))
    case WorkerStores(c) => WithCpu(s, c, s.cpus[c].(gen := s.cpus[c].worker.r, worker := Waiting))
    case GcTakes => s.(batch := s.callbacks, callbacks := [], gc := Took)
    case GcStarts =>
      var t := s.(generation := s.generation + 1, asked := s.registered);
      t.(gc := NextAsk(t, 0))
    case GcLoads => s.(gc := Swapping(s.gc.k, s.cpus[s.asked[s.gc.k]].req))
    case GcSwaps(spurious) => Swap(s, spurious)
    case GcChecks =>
      if s.cpus[s.asked[s.gc.k]].gen >= s.generation then s.(gc := NextCheck(s, s.gc.k + 1)) else s.(gc := Checking(0))
    case GcRuns =>
      s.(deleted := s.deleted + {s.batch[0].obj}, batch := s.batch[1..], gc := if |s.batch| == 1 then Idle else Running)
  }

  ghost predicate Step(s: State, t: State) {
    exists a :: Enabled(s, a) && t == Apply(s, a)
  }

  ghost predicate Run(tr: seq<State>) {
    |tr| > 0 && Init(tr[0]) && forall i | 0 <= i < |tr| - 1 :: Step(tr[i], tr[i + 1])
  }
}
