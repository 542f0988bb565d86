/**
  Freeing an object on another CPU than its own, core/mempool.cc: a ring for each pair of CPUs, a
  slot for one more object when the ring is full, and a worker that empties both; with the
  signalling of the worker, core/percpu-worker.cc. A ring operation is one step.
 */
module RemoteFree {

  datatype Option<T> = None | Some(value: T)

  /** Where an object is: in use, with a thread that frees it, in the ring from CPU src, in the slot,
      with the worker that took it from there, or back in the pool of its own CPU. */
  datatype Place = InUse | InHand(t: nat) | InRing(src: nat) | InSlot | WithWorker | Back

  datatype Object = Object(cpu: nat, place: Place)

  /** free_different_cpu(): before the first push; before the mutex, in wait_until() under it, asleep
      on the condition variable; before the second push, and before the store to the slot if that
      failed; then, for CPU c and the ring from src, before ring->size(), the store of
      _have_work, the test of _ready, the store of _duty, and the unlock. */
  datatype Pc =
    | Out
    | Push(o: nat)
    | Locking(o: nat) | Testing(o: nat) | Asleep(o: nat)
    | Again(o: nat) | Storing(o: nat, src: nat)
    | Sizing(c: nat, src: nat) | Having(c: nat, src: nat) | Readying(c: nat, src: nat) | Dutying(c: nat)
    | Unlocking(c: nat)

  /** The worker's thread, call_of_duty(): not running yet, waiting for _duty, having seen it, having
      cleared it, having seen _have_work; and free_worker_fn(): at the ring from CPU i, at the slot,
      or with the object that was in it. */
  datatype Worker = Unready | Idle | Saw | Looks | Clears | AtRing(i: nat) | AtSlot | Took(o: nat)

  // A CPU: the rings by freeing CPU, the slot and its mutex, the two flags of its worker, and the worker.
  datatype Cpu = Cpu(
    rings: seq<seq<nat>>, slot: Option<nat>, mutex: Option<nat>, have: bool, duty: bool, worker: Worker)

  datatype State = State(objects: seq<Object>, cpus: seq<Cpu>, threads: map<nat, Pc>, size: nat)

  datatype Act =
    | Free(t: nat, o: nat)
    | TryRing(t: nat, src: nat)        // the first push, from CPU src
    | Lock(t: nat) | Test(t: nat)
    | TryAgain(t: nat, src: nat) | Store(t: nat)
    | Size(t: nat) | SetHave(t: nat) | TestReady(t: nat) | SetDuty(t: nat) | Unlock(t: nat)
    | Start(c: nat) | See(c: nat) | ClearDuty(c: nat) | Look(c: nat) | ClearHave(c: nat)
    | Pop(c: nat) | NextRing(c: nat) | TakeSlot(c: nat) | WakeAll(c: nat)

  ghost predicate Init(s: State) {
    && s.threads == map[] && s.size > 0
    && (forall o: nat | o < |s.objects| :: s.objects[o].cpu < |s.cpus| && s.objects[o].place == InUse)
    && (forall c: nat | c < |s.cpus| :: s.cpus[c] == Cpu(seq(|s.cpus|, _ => []), None, None, false, false, Unready))
  }

  // ---- who is where ----

  predicate HasObject(p: Pc) {
    p.Push? || p.Locking? || p.Testing? || p.Asleep? || p.Again? || p.Storing?
  }

  // Under the mutex.
  predicate Critical(p: Pc) {
    p.Testing? || p.Again? || p.Storing? || p.Sizing? || p.Having? || p.Readying? || p.Dutying? || p.Unlocking?
  }

  // The thread works for CPU c: it frees an object of that CPU.
  predicate For(s: State, p: Pc, c: nat) {
    if p.Out? then false
    else if HasObject(p) then p.o < |s.objects| && s.objects[p.o].cpu == c
    else p.c == c
  }

  function Dest(s: State, p: Pc): nat
    requires p != Out && (HasObject(p) ==> p.o < |s.objects|)
  {
    if HasObject(p) then s.objects[p.o].cpu else p.c
  }

  // The CPU thread t works for, if there is one.
  ghost predicate Busy(s: State, t: nat) {
    && t in s.threads && s.threads[t] != Out
    && (HasObject(s.threads[t]) ==> s.threads[t].o < |s.objects|) && Dest(s, s.threads[t]) < |s.cpus|
  }

  ghost predicate HasRing(s: State, t: nat, src: nat)
    requires Busy(s, t)
  {
    src < |s.cpus[Dest(s, s.threads[t])].rings|
  }

  // The worker's thread on its way, but for what it does to objects.
  predicate Turns(a: Act) {
    a.Start? || a.See? || a.ClearDuty? || a.Look? || a.ClearHave? || a.NextRing?
  }

  predicate Empties(a: Act) { a.Pop? || a.TakeSlot? || a.WakeAll? }

  predicate ByWorker(a: Act) { Turns(a) || Empties(a) }

  predicate Pushes(a: Act) { a.TryRing? || a.TryAgain? }

  predicate Locks(a: Act) { a.Lock? || a.Test? || a.Unlock? }

  predicate Signals(a: Act) { a.Size? || a.SetHave? || a.TestReady? || a.SetDuty? }

  ghost predicate TurnsOn(s: State, a: Act) {
    Turns(a) && a.c < |s.cpus| &&
    match a
    case Start(c) => s.cpus[c].worker == Unready
    case See(c) => s.cpus[c].worker == Idle && s.cpus[c].duty
    case ClearDuty(c) => s.cpus[c].worker == Saw
    case Look(c) => s.cpus[c].worker == Looks
    case ClearHave(c) => s.cpus[c].worker == Clears
    case NextRing(c) =>
      && s.cpus[c].worker.AtRing?
      && (s.cpus[c].worker.i < |s.cpus[c].rings| ==> s.cpus[c].rings[s.cpus[c].worker.i] == [])
  }

  ghost predicate EmptiesOn(s: State, a: Act) {
    Empties(a) && a.c < |s.cpus| &&
    match a
    case Pop(c) =>
      && s.cpus[c].worker.AtRing? && s.cpus[c].worker.i < |s.cpus[c].rings|
      && s.cpus[c].rings[s.cpus[c].worker.i] != [] && s.cpus[c].rings[s.cpus[c].worker.i][0] < |s.objects|
    case TakeSlot(c) =>
      && s.cpus[c].worker == AtSlot && s.cpus[c].mutex == None
      && (s.cpus[c].slot.Some? ==> s.cpus[c].slot.value < |s.objects|)
    case WakeAll(c) => s.cpus[c].worker.Took? && s.cpus[c].worker.o < |s.objects|
  }

  ghost predicate PushesOn(s: State, a: Act) {
    && Pushes(a) && Busy(s, a.t) && HasRing(s, a.t, a.src)
    && (if a.TryRing? then s.threads[a.t].Push? else s.threads[a.t].Again?)
  }

  ghost predicate LocksOn(s: State, a: Act) {
    Locks(a) && Busy(s, a.t) &&
    match a
    case Lock(t) => s.threads[t].Locking? && s.cpus[Dest(s, s.threads[t])].mutex == None
    case Test(t) => s.threads[t].Testing?
    case Unlock(t) => s.threads[t].Unlocking?
  }

  ghost predicate SignalsOn(s: State, a: Act) {
    Signals(a) && Busy(s, a.t) &&
    match a
    case Size(t) => s.threads[t].Sizing? && HasRing(s, t, s.threads[t].src)
    case SetHave(t) => s.threads[t].Having?
    case TestReady(t) => s.threads[t].Readying? && s.threads[t].src < |s.cpus|
    case SetDuty(t) => s.threads[t].Dutying?
  }

  ghost predicate StoreOn(s: State, a: Act) {
    a.Store? && Busy(s, a.t) && s.threads[a.t].Storing?
  }

  ghost predicate FreeOn(s: State, a: Act) {
    a.Free? && a.o < |s.objects| && s.objects[a.o].place == InUse && (a.t in s.threads ==> s.threads[a.t] == Out)
  }

  ghost predicate Enabled(s: State, a: Act) {
    if Turns(a) then TurnsOn(s, a)
    else if Empties(a) then EmptiesOn(s, a)
    else if Pushes(a) then PushesOn(s, a)
    else if Locks(a) then LocksOn(s, a)
    else if Signals(a) then SignalsOn(s, a)
    else if a.Store? then StoreOn(s, a)
    else FreeOn(s, a)
  }

  // ---- the steps ----

  function Move(s: State, o: nat, p: Place): State
    requires o < |s.objects|
  {
    s.(objects := s.objects[o := s.objects[o].(place := p)])
  }

  function WithCpu(s: State, c: nat, x: Cpu): State
    requires c < |s.cpus|
  {
    s.(cpus := s.cpus[c := x])
  }

  function WithPc(s: State, t: nat, p: Pc): State {
    s.(threads := s.threads[t := p])
  }

  // The ring of CPU c from src has no room.
  predicate NoRoom(s: State, c: nat, src: nat)
    requires c < |s.cpus| && src < |s.cpus[c].rings|
  {
    |s.cpus[c].rings[src]| >= s.size
  }

  predicate OverHalf(s: State, c: nat, src: nat)
    requires c < |s.cpus| && src < |s.cpus[c].rings|
  {
    |s.cpus[c].rings[src]| > s.size / 2
  }

  // A push that finds room.
  function Pushed(s: State, o: nat, src: nat): State
    requires o < |s.objects| && s.objects[o].cpu < |s.cpus| && src < |s.cpus[s.objects[o].cpu].rings|
  {
    var c := s.objects[o].cpu;
    var x := s.cpus[c];
    WithCpu(Move(s, o, InRing(src)), c, x.(rings := x.rings[src := x.rings[src] + [o]]))
  }

  // wait_until(): on, with the mutex, if the slot is empty, else to sleep without it.
  function Tested(s: State, t: nat, c: nat, o: nat): State
    requires c < |s.cpus|
  {
    if s.cpus[c].slot == None then WithPc(s, t, Again(o))
    else WithPc(WithCpu(s, c, s.cpus[c].(mutex := None)), t, Asleep(o))
  }

  // wake_all(): those asleep go for the mutex again.
  function Woken(s: State, c: nat): map<nat, Pc> {
    map t | t in s.threads ::
      if s.threads[t].Asleep? && For(s, s.threads[t], c) then Locking(s.threads[t].o) else s.threads[t]
  }

  // The CPU of the worker, after a step of its own.
  function Turned(x: Cpu, a: Act): Cpu
    requires Turns(a) && (a.NextRing? ==> x.worker.AtRing?)
  {
    match a
    case Start(_) => x.(worker := Idle)
    case See(_) => x.(worker := Saw)
    case ClearDuty(_) => x.(duty := false, worker := Looks)
    case Look(_) => x.(worker := if x.have then Clears else Idle)
    case ClearHave(_) => x.(have := false, worker := AtRing(0))
    case NextRing(_) => x.(worker := if x.worker.i + 1 < |x.rings| then AtRing(x.worker.i + 1) else AtSlot)
  }

  ghost function TurnsStep(s: State, a: Act): State
    requires TurnsOn(s, a)
  {
    WithCpu(s, a.c, Turned(s.cpus[a.c], a))
  }

  ghost function EmptiesStep(s: State, a: Act): State
    requires EmptiesOn(s, a)
  {
    var x := s.cpus[a.c];
    match a
    case Pop(c) =>
      var i := x.worker.i;
      WithCpu(Move(s, x.rings[i][0], Back), c, x.(rings := x.rings[i := x.rings[i][1..]]))
    case TakeSlot(c) =>
      if x.slot == None then WithCpu(s, c, x.(worker := Idle))
      else WithCpu(Move(s, x.slot.value, WithWorker), c, x.(slot := None, worker := Took(x.slot.value)))
    case WakeAll(c) => WithCpu(Move(s, x.worker.o, Back), c, x.(worker := Idle)).(threads := Woken(s, c))
  }

  ghost function PushesStep(s: State, a: Act): State
    requires PushesOn(s, a)
  {
    var p := s.threads[a.t];
    var c := Dest(s, p);
    if NoRoom(s, c, a.src) then WithPc(s, a.t, if a.TryRing? then Locking(p.o) else Storing(p.o, a.src))
    else WithPc(Pushed(s, p.o, a.src), a.t, if a.TryRing? then Out else Sizing(c, a.src))
  }

  ghost function LocksStep(s: State, a: Act): State
    requires LocksOn(s, a)
  {
    var p := s.threads[a.t];
    var c := Dest(s, p);
    match a
    case Lock(t) => WithPc(WithCpu(s, c, s.cpus[c].(mutex := Some(t))), t, Testing(p.o))
    case Test(t) => Tested(s, t, c, p.o)
    case Unlock(t) => WithPc(WithCpu(s, c, s.cpus[c].(mutex := None)), t, Out)
  }

  ghost function SignalsStep(s: State, a: Act): State
    requires SignalsOn(s, a)
  {
    var p := s.threads[a.t];
    var x := s.cpus[p.c];
    match a
    case Size(t) => WithPc(s, t, if OverHalf(s, p.c, p.src) then Having(p.c, p.src) else Unlocking(p.c))
    case SetHave(t) => WithPc(WithCpu(s, p.c, x.(have := true)), t, Readying(p.c, p.src))
    case TestReady(t) => WithPc(s, t, if s.cpus[p.src].worker != Unready then Dutying(p.c) else Unlocking(p.c))
    case SetDuty(t) => WithPc(WithCpu(s, p.c, x.(duty := true)), t, Unlocking(p.c))
  }

  ghost function StoreStep(s: State, a: Act): State
    requires StoreOn(s, a)
  {
    var p := s.threads[a.t];
    var c := Dest(s, p);
    WithPc(WithCpu(Move(s, p.o, InSlot), c, s.cpus[c].(slot := Some(p.o))), a.t, Sizing(c, p.src))
  }

  ghost function FreeStep(s: State, a: Act): State
    requires FreeOn(s, a)
  {
    WithPc(Move(s, a.o, InHand(a.t)), a.t, Push(a.o))
  }

  ghost function Apply(s: State, a: Act): State
    requires Enabled(s, a)
  {
    if Turns(a) then TurnsStep(s, a)
    else if Empties(a) then EmptiesStep(s, a)
    else if Pushes(a) then PushesStep(s, a)
    else if Locks(a) then LocksStep(s, a)
    else if Signals(a) then SignalsStep(s, a)
    else if a.Store? then StoreStep(s, a)
    else FreeStep(s, a)
  }

  ghost predicate Step(s: State, r: State) {
    exists a :: Enabled(s, a) && r == Apply(s, a)
  }

  ghost predicate Run(tr: seq<State>) {
    |tr| > 0 && Init(tr[0]) && forall i | 0 <= i < |tr| - 1 :: Step(tr[i], tr[i + 1])
  }
}
