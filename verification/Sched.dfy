/**
  Waiting and waking in core/sched.cc and include/sched.hh: thread states, run queues, the
  queues of incoming wakeups and their masks, the idle loop and the wakeup interrupt. Each
  step is one atomic access; scheduling with interrupts disabled excludes only its own CPU.
 */
module Sched {

  // ---- the state ----

  datatype Status = Unstarted | Waiting | Running | Queued | Waking | Terminating

  /** Where a thread is in do_wait_until(), stop_wait() or complete(): Prepared is between
      prepare_wait() and the predicate, Asleep in wait() after it was false, Stopping at the
      compare-and-swap of stop_wait(), Looping in its loop. */
  datatype Pc = Free | Prepared | Asleep | Stopping | Looping | Done

  /** Which structure holds a thread: the run queue of its CPU, the incoming queue filled by
      CPU i, the list that the scheduler or the idle loop is emptying, or a waker. */
  datatype Place = Nowhere | OnQueue | Incoming(i: nat) | InSched | InIdle | Held(w: nat)

  // rt is the runtime the run queue is sorted by; cond is what the thread waits for.
  datatype Thread = Thread(status: Status, cpu: nat, pc: Pc, rt: int, cond: bool, place: Place)

  // handle_incoming_wakeups(): the queues still to copy, and the threads copied.
  datatype Drain = NoDrain | Drain(left: set<nat>, local: set<nat>)

  // do_idle(). FinalDrain and Halted are with interrupts disabled.
  datatype Idle = Begin | Polling | PollDrain | Fenced | FinalDrain | Halted | Woken | LastDrain | Leaving

  datatype Cpu = Cpu(
    current: nat, idle: nat, queue: seq<nat>, incoming: seq<set<nat>>, mask: set<nat>,
    poll: bool, ipi: bool, sched: Drain, idlePc: Idle, idleDrain: Drain)

  // wake(): called, having made its target Waking, having queued it, having to decide on the interrupt.
  datatype Stage = Calling | Holding | Pushed | Deciding

  // balance: it is load_balance() that wakes, on CPU cpu with interrupts disabled, for CPU dst.
  datatype Waker = Waker(target: nat, stage: Stage, cpu: nat, balance: bool, dst: nat)

  datatype State = State(threads: seq<Thread>, cpus: seq<Cpu>, wakers: map<nat, Waker>, nextWaker: nat)

  datatype Act =
    | Prepare(t: nat) | Evaluate(t: nat) | Return(t: nat) | Stop(t: nat) | Leave(t: nat)
    | Finish(t: nat) | Consume(t: nat) | Start(t: nat, c: nat)
    | Enter(c: nat) | Copy(c: nat, i: nat) | DrainOne(c: nat, t: nat, rt: int)
    | Decide(c: nat, ran: nat, borrowed: nat, start: int)
    | PollOn(c: nat) | IdleFetch(c: nat) | IdleCopy(c: nat, i: nat) | IdleOne(c: nat, t: nat, rt: int)
    | IdleNext(c: nat, again: bool) | Interrupt(c: nat) | IdleBack(c: nat)
    | Call(t: nat, sets: bool) | Cas(w: nat) | Push(w: nat, c: nat) | Mask(w: nat) | Tell(w: nat)
    | Balance(c: nat, k: nat, dst: nat)

  // ---- what can run where ----

  predicate IrqOff(p: Idle) {
    p == FinalDrain || p == Halted
  }

  // A waker that keeps its CPU: preemption is disabled, or interrupts are.
  predicate Bound(w: Waker) {
    w.stage == Pushed || w.stage == Deciding || (w.stage == Holding && w.balance)
  }

  ghost predicate Handler(s: State, c: nat) {
    exists w :: w in s.wakers && Bound(s.wakers[w]) && s.wakers[w].cpu == c
  }

  // CPU c runs its current thread, or an interrupt handler on top of it.
  ghost predicate Open(s: State, c: nat) {
    c < |s.cpus| && s.cpus[c].sched.NoDrain? && !IrqOff(s.cpus[c].idlePc)
  }

  // Thread t itself runs.
  ghost predicate Runs(s: State, t: nat) {
    && t < |s.threads| && Open(s, s.threads[t].cpu) && s.cpus[s.threads[t].cpu].current == t
    && !Handler(s, s.threads[t].cpu)
  }

  ghost predicate IdleRuns(s: State, c: nat) {
    c < |s.cpus| && s.cpus[c].sched.NoDrain? && s.cpus[c].current == s.cpus[c].idle && !Handler(s, c)
  }

  // A step of the thread itself, or the start of one.
  predicate Own(a: Act) {
    a.Prepare? || a.Evaluate? || a.Return? || a.Stop? || a.Leave? || a.Finish? || a.Consume? || a.Start?
  }

  // A step of a waker, except for load_balance().
  predicate Wakes(a: Act) {
    a.Call? || a.Cas? || a.Push? || a.Mask? || a.Tell?
  }

  // A step that changes only the idle loop, the masks and which drain is on.
  predicate Loops(a: Act) {
    a.Enter? || a.PollOn? || a.IdleFetch? || a.IdleNext? || a.Interrupt? || a.IdleBack?
  }

  // A step that empties an incoming queue.
  predicate Copies(a: Act) {
    a.Copy? || a.IdleCopy?
  }

  // A step that makes a thread runnable.
  predicate Drains(a: Act) {
    a.DrainOne? || a.IdleOne?
  }

  ghost predicate OwnOn(s: State, a: Act) {
    Own(a) &&
    match a
    case Prepare(t) =>
      Runs(s, t) && s.threads[t].pc == Free && s.threads[t].status == Running && s.cpus[s.threads[t].cpu].idle != t
    case Evaluate(t) => Runs(s, t) && s.threads[t].pc == Prepared
    case Return(t) => Runs(s, t) && s.threads[t].pc == Asleep && s.threads[t].status == Running
    case Stop(t) => Runs(s, t) && s.threads[t].pc == Stopping
    case Leave(t) => Runs(s, t) && s.threads[t].pc == Looping && s.threads[t].status != Waking
    case Finish(t) =>
      Runs(s, t) && s.threads[t].pc == Free && s.threads[t].status == Running && s.cpus[s.threads[t].cpu].idle != t
    case Consume(t) => Runs(s, t) && s.threads[t].pc == Free
    case Start(t, c) => t < |s.threads| && s.threads[t].status == Unstarted && c < |s.cpus|
  }

  ghost predicate WakesOn(s: State, a: Act) {
    Wakes(a) &&
    match a
    case Call(t, _) => t < |s.threads| && s.threads[t].status != Unstarted
    case Cas(w) => w in s.wakers && s.wakers[w].stage == Calling && s.wakers[w].target < |s.threads|
    case Push(w, c) =>
      && w in s.wakers && s.wakers[w].stage == Holding && s.wakers[w].target < |s.threads|
      && Open(s, c) && (s.wakers[w].balance ==> c == s.wakers[w].cpu) && Receives(s, w, c)
    case Mask(w) => w in s.wakers && s.wakers[w].stage == Pushed && Targets(s, w)
    case Tell(w) => w in s.wakers && s.wakers[w].stage == Deciding && Targets(s, w)
  }

  ghost predicate LoopsOn(s: State, a: Act) {
    Loops(a) && a.c < |s.cpus| &&
    match a
    case Enter(c) =>
      && Open(s, c) && !Handler(s, c) && s.cpus[c].current < |s.threads|
      && s.threads[s.cpus[c].current].pc in {Free, Asleep, Looping, Done}
    case PollOn(c) => IdleRuns(s, c) && s.cpus[c].idlePc == Begin
    case IdleFetch(c) => IdleRuns(s, c) && s.cpus[c].idlePc in {Polling, Fenced, Woken}
    case IdleNext(c, _) => IdleRuns(s, c) && s.cpus[c].idleDrain == Drain({}, {})
    case Interrupt(c) => Open(s, c) || s.cpus[c].idlePc == Halted
    case IdleBack(c) => IdleRuns(s, c) && s.cpus[c].idlePc == Leaving
  }

  // The drain that a step works on: the scheduler's, or the idle loop's.
  function DrainOf(x: Cpu, sched: bool): Drain {
    if sched then x.sched else x.idleDrain
  }

  ghost predicate CopiesOn(s: State, a: Act) {
    && Copies(a) && a.c < |s.cpus| && (a.IdleCopy? ==> IdleRuns(s, a.c))
    && var d := DrainOf(s.cpus[a.c], a.Copy?);
       d.Drain? && d.local == {} && a.i in d.left
  }

  ghost predicate DrainsOn(s: State, a: Act) {
    && Drains(a) && a.c < |s.cpus| && (a.IdleOne? ==> IdleRuns(s, a.c))
    && var d := DrainOf(s.cpus[a.c], a.DrainOne?);
       d.Drain? && a.t in d.local
  }

  ghost predicate DecideOn(s: State, a: Act) {
    a.Decide? && a.c < |s.cpus| && s.cpus[a.c].sched == Drain({}, {}) && s.cpus[a.c].current < |s.threads|
  }

  ghost predicate BalanceOn(s: State, a: Act) {
    && a.Balance? && Open(s, a.c) && !Handler(s, a.c) && s.cpus[a.c].current != s.cpus[a.c].idle
    && a.k < |s.cpus[a.c].queue| && a.dst < |s.cpus| && a.dst != a.c
    && s.cpus[a.c].queue[a.k] < |s.threads| && s.cpus[a.c].queue[a.k] != s.cpus[a.c].idle
  }

  ghost predicate Enabled(s: State, a: Act) {
    if Own(a) then OwnOn(s, a)
    else if Wakes(a) then WakesOn(s, a)
    else if Loops(a) then LoopsOn(s, a)
    else if Copies(a) then CopiesOn(s, a)
    else if Drains(a) then DrainsOn(s, a)
    else if a.Decide? then DecideOn(s, a)
    else BalanceOn(s, a)
  }

  // The CPU a waker works for: wake() reads it anew each time, load_balance() has chosen it.
  function Dest(s: State, w: nat): nat
    requires w in s.wakers && s.wakers[w].target < |s.threads|
  {
    if s.wakers[w].balance then s.wakers[w].dst else s.threads[s.wakers[w].target].cpu
  }

  // There is such a CPU, with an incoming queue for CPU c.
  ghost predicate Receives(s: State, w: nat, c: nat)
    requires w in s.wakers && s.wakers[w].target < |s.threads|
  {
    Dest(s, w) < |s.cpus| && c < |s.cpus[Dest(s, w)].incoming|
  }

  ghost predicate Targets(s: State, w: nat)
    requires w in s.wakers
  {
    s.wakers[w].target < |s.threads| && Dest(s, w) < |s.cpus|
  }

  // ---- the run queue ----

  // insert_equal(): after the threads that have run no longer.
  function Insert(threads: seq<Thread>, q: seq<nat>, t: nat): seq<nat>
    requires t < |threads| && forall i | 0 <= i < |q| :: q[i] < |threads|
  {
    if q == [] || threads[t].rt < threads[q[0]].rt then [t] + q else [q[0]] + Insert(threads, q[1..], t)
  }

  ghost predicate InRange(s: State, c: nat)
    requires c < |s.cpus|
  {
    forall i | 0 <= i < |s.cpus[c].queue| :: s.cpus[c].queue[i] < |s.threads|
  }

  // ---- the steps ----

  function WithThread(s: State, t: nat, x: Thread): State
    requires t < |s.threads|
  {
    s.(threads := s.threads[t := x])
  }

  function WithCpu(s: State, c: nat, x: Cpu): State
    requires c < |s.cpus|
  {
    s.(cpus := s.cpus[c := x])
  }

  // A drained thread becomes runnable: queued, or running if it was not yet switched out.
  function MakeRunnable(s: State, c: nat, t: nat, rt: int): State
    requires c < |s.cpus| && t < |s.threads| && InRange(s, c)
  {
    var x := s.threads[t];
    if s.cpus[c].current == t then WithThread(s, t, x.(status := Running, place := Nowhere))
    else
      var r := WithThread(s, t, x.(status := Queued, place := OnQueue, rt := rt));
      WithCpu(r, c, s.cpus[c].(queue := Insert(r.threads, s.cpus[c].queue, t)))
  }

  // The threads of an incoming queue are moved to a list.
  function Moved(threads: seq<Thread>, ts: set<nat>, to: Place): seq<Thread> {
    seq(|threads|, t requires 0 <= t < |threads| => if t in ts then threads[t].(place := to) else threads[t])
  }

  // reschedule_from_interrupt() after the drain: the current thread goes on, or the first of the queue does.
  predicate GoesOn(s: State, c: nat, ran: nat)
    requires c < |s.cpus| && s.cpus[c].current < |s.threads| && InRange(s, c)
  {
    var p, q := s.threads[s.cpus[c].current], s.cpus[c].queue;
    p.status == Running && (q == [] || p.rt + ran < s.threads[q[0]].rt)
  }

  // The outgoing thread is queued if it is still running.
  function Outgoing(s: State, c: nat, ran: nat, borrowed: nat): State
    requires c < |s.cpus| && s.cpus[c].current < |s.threads| && InRange(s, c)
  {
    var x := s.cpus[c];
    var p := s.threads[x.current];
    if p.status == Running then
      var r := WithThread(s, x.current, p.(status := Queued, place := OnQueue, rt := p.rt + ran + borrowed));
      WithCpu(r, c, x.(queue := Insert(r.threads, x.queue, x.current)))
    else WithThread(s, x.current, p.(rt := p.rt + ran + borrowed))
  }

  // The first of the queue is switched to.
  function Switched(s: State, c: nat, start: int): State
    requires c < |s.cpus| && s.cpus[c].queue != [] && s.cpus[c].queue[0] < |s.threads|
  {
    var x := s.cpus[c];
    var n := x.queue[0];
    WithCpu(WithThread(s, n, s.threads[n].(status := Running, place := Nowhere, rt := start)), c,
            x.(queue := x.queue[1..], current := n, sched := NoDrain))
  }

  function NextIdle(x: Cpu, again: bool): Cpu {
    var y := x.(idleDrain := NoDrain);
    match x.idlePc
    case PollDrain => if x.queue != [] then y.(poll := false, idlePc := Leaving)
                      else if again then y.(idlePc := Polling) else y.(poll := false, idlePc := Fenced)
    case FinalDrain => if x.queue != [] then y.(idlePc := Leaving) else y.(idlePc := Halted)
    case _ => if x.queue != [] then y.(idlePc := Leaving) else y.(idlePc := Begin)
  }

  function FetchPc(p: Idle): Idle {
    if p == Polling then PollDrain else if p == Fenced then FinalDrain else LastDrain
  }

  function WithoutWaker(s: State, w: nat): State {
    s.(wakers := s.wakers - {w})
  }

  function NewWaker(s: State, w: Waker): State {
    s.(wakers := s.wakers[s.nextWaker := w], nextWaker := s.nextWaker + 1)
  }

  function CasStep(s: State, w: nat): State
    requires w in s.wakers && s.wakers[w].target < |s.threads|
  {
    var t := s.wakers[w].target;
    if s.threads[t].status != Waiting then WithoutWaker(s, w)
    else WithThread(s, t, s.threads[t].(status := Waking, place := Held(w)))
           .(wakers := s.wakers[w := s.wakers[w].(stage := Holding)])
  }

  function PushStep(s: State, w: nat, c: nat): State
    requires w in s.wakers && s.wakers[w].target < |s.threads|
    requires Dest(s, w) < |s.cpus| && c < |s.cpus[Dest(s, w)].incoming|
  {
    var t := s.wakers[w].target;
    var d := Dest(s, w);
    var x := s.cpus[d];
    WithCpu(WithThread(s, t, s.threads[t].(place := Incoming(c))), d,
            x.(incoming := x.incoming[c := x.incoming[c] + {t}]))
      .(wakers := s.wakers[w := s.wakers[w].(stage := Pushed, cpu := c)])
  }

  // test_all_and_set(): whoever finds the mask empty decides on the interrupt; load_balance() always does.
  function MaskStep(s: State, w: nat): State
    requires w in s.wakers && s.wakers[w].target < |s.threads| && Dest(s, w) < |s.cpus|
  {
    var d := Dest(s, w);
    var x := s.cpus[d];
    var r := WithCpu(s, d, x.(mask := x.mask + {s.wakers[w].cpu}));
    if x.mask == {} || s.wakers[w].balance then r.(wakers := s.wakers[w := s.wakers[w].(stage := Deciding)])
    else WithoutWaker(r, w)
  }

  function TellStep(s: State, w: nat): State
    requires w in s.wakers && s.wakers[w].target < |s.threads| && Dest(s, w) < |s.cpus|
  {
    var d := Dest(s, w);
    var x := s.cpus[d];
    WithoutWaker(if d != s.wakers[w].cpu && !x.poll then WithCpu(s, d, x.(ipi := true)) else s, w)
  }

  ghost function BalanceStep(s: State, a: Act): State
    requires BalanceOn(s, a)
  {
    var x := s.cpus[a.c];
    var t := x.queue[a.k];
    NewWaker(WithCpu(WithThread(s, t, s.threads[t].(status := Waking, cpu := a.dst, place := Held(s.nextWaker))), a.c,
                     x.(queue := x.queue[..a.k] + x.queue[a.k + 1..])),
             Waker(t, Holding, a.c, true, a.dst))
  }

  // A step that meets what it takes from the queues.
  ghost predicate CanCopy(s: State, a: Act) {
    CopiesOn(s, a) && a.i < |s.cpus[a.c].incoming|
  }

  ghost predicate CanDrain(s: State, a: Act) {
    DrainsOn(s, a) && a.t < |s.threads| && InRange(s, a.c)
  }

  ghost predicate CanDecide(s: State, a: Act) {
    && DecideOn(s, a) && InRange(s, a.c)
    && (!GoesOn(s, a.c, a.ran) ==>
          var r := Outgoing(s, a.c, a.ran, a.borrowed);
          r.cpus[a.c].queue != [] && r.cpus[a.c].queue[0] < |r.threads|)
  }

  ghost predicate Sane(s: State, a: Act) {
    (Copies(a) ==> CanCopy(s, a)) && (Drains(a) ==> CanDrain(s, a)) && (a.Decide? ==> CanDecide(s, a))
  }

  ghost function OwnStep(s: State, a: Act): State
    requires OwnOn(s, a)
  {
    match a
    case Prepare(t) => WithThread(s, t, s.threads[t].(status := Waiting, pc := Prepared))
    case Evaluate(t) => WithThread(s, t, s.threads[t].(pc := if s.threads[t].cond then Stopping else Asleep))
    case Return(t) => WithThread(s, t, s.threads[t].(pc := Stopping))
    case Stop(t) =>
      if s.threads[t].status == Waiting then WithThread(s, t, s.threads[t].(status := Running, pc := Free))
      else WithThread(s, t, s.threads[t].(pc := Looping))
    case Leave(t) => WithThread(s, t, s.threads[t].(pc := Free))
    case Finish(t) => WithThread(s, t, s.threads[t].(status := Terminating, pc := Done))
    case Consume(t) => WithThread(s, t, s.threads[t].(cond := false))
    case Start(t, c) =>
      NewWaker(WithThread(s, t, s.threads[t].(status := Waiting, cpu := c)), Waker(t, Calling, 0, false, 0))
  }

  ghost function WakesStep(s: State, a: Act): State
    requires WakesOn(s, a)
  {
    match a
    case Call(t, sets) =>
      NewWaker(WithThread(s, t, s.threads[t].(cond := s.threads[t].cond || sets)), Waker(t, Calling, 0, false, 0))
    case Cas(w) => CasStep(s, w)
    case Push(w, c) => PushStep(s, w, c)
    case Mask(w) => MaskStep(s, w)
    case Tell(w) => TellStep(s, w)
  }

  // What a step of the loops makes of its CPU.
  function Looped(x: Cpu, a: Act): Cpu
    requires Loops(a)
  {
    match a
    case Enter(_) => x.(sched := Drain(x.mask, {}), mask := {})
    case PollOn(_) => x.(poll := true, idlePc := Polling)
    case IdleFetch(_) => x.(idleDrain := Drain(x.mask, {}), mask := {}, idlePc := FetchPc(x.idlePc))
    case IdleNext(_, again) => NextIdle(x, again)
    case Interrupt(_) => x.(ipi := false, idlePc := if x.idlePc == Halted then Woken else x.idlePc)
    case IdleBack(_) => x.(idlePc := Begin)
  }

  ghost function LoopsStep(s: State, a: Act): State
    requires LoopsOn(s, a)
  {
    WithCpu(s, a.c, Looped(s.cpus[a.c], a))
  }

  function WithDrain(x: Cpu, sched: bool, d: Drain): Cpu {
    if sched then x.(sched := d) else x.(idleDrain := d)
  }

  ghost function CopiesStep(s: State, a: Act): State
    requires CanCopy(s, a)
  {
    var x := s.cpus[a.c];
    var d := Drain(DrainOf(x, a.Copy?).left - {a.i}, x.incoming[a.i]);
    WithCpu(s.(threads := Moved(s.threads, x.incoming[a.i], if a.Copy? then InSched else InIdle)), a.c,
            WithDrain(x.(incoming := x.incoming[a.i := {}]), a.Copy?, d))
  }

  ghost function DrainsStep(s: State, a: Act): State
    requires CanDrain(s, a)
  {
    var d := DrainOf(s.cpus[a.c], a.DrainOne?);
    MakeRunnable(WithCpu(s, a.c, WithDrain(s.cpus[a.c], a.DrainOne?, Drain(d.left, d.local - {a.t}))), a.c, a.t, a.rt)
  }

  ghost function DecideStep(s: State, a: Act): State
    requires CanDecide(s, a)
  {
    if GoesOn(s, a.c, a.ran) then
      var p := s.cpus[a.c].current;
      WithCpu(WithThread(s, p, s.threads[p].(rt := s.threads[p].rt + a.ran)), a.c, s.cpus[a.c].(sched := NoDrain))
    else Switched(Outgoing(s, a.c, a.ran, a.borrowed), a.c, a.start)
  }

  ghost function Apply(s: State, a: Act): State
    requires Enabled(s, a) && Sane(s, a)
  {
    if Own(a) then OwnStep(s, a)
    else if Wakes(a) then WakesStep(s, a)
    else if Loops(a) then LoopsStep(s, a)
    else if Copies(a) then CopiesStep(s, a)
    else if Drains(a) then DrainsStep(s, a)
    else if a.Decide? then DecideStep(s, a)
    else BalanceStep(s, a)
  }

  // ---- runs ----

  /** Each CPU starts with its idle thread, which never waits; no other thread is started. */
  ghost predicate Init(s: State) {
    && |s.cpus| <= |s.threads| && s.wakers == map[]
    && (forall t: nat | t < |s.threads| ::
          if t < |s.cpus| then s.threads[t] == Thread(Running, t, Free, 0, false, Nowhere)
          else s.threads[t].status == Unstarted && s.threads[t].pc == Free && s.threads[t].place == Nowhere)
    && (forall c: nat | c < |s.cpus| ::
          s.cpus[c] == Cpu(c, c, [], seq(|s.cpus|, _ => {}), {}, false, false, NoDrain, Begin, NoDrain))
  }

  ghost predicate Step(s: State, r: State) {
    exists a :: Enabled(s, a) && Sane(s, a) && r == Apply(s, a)
  }

  ghost predicate Run(tr: seq<State>) {
    |tr| > 0 && Init(tr[0]) && forall i | 0 <= i < |tr| - 1 :: Step(tr[i], tr[i + 1])
  }
}
