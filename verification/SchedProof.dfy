/** What every run of the scheduler model keeps. */
module SchedProof {
  import opened Sched

  // ---- the invariant, thread by thread and CPU by CPU ----

  ghost predicate IsCurrent(s: State, t: nat)
    requires t < |s.threads|
  {
    s.threads[t].cpu < |s.cpus| && s.cpus[s.threads[t].cpu].current == t
  }

  predicate InTransit(p: Place) {
    p.Incoming? || p.InSched? || p.InIdle? || p.Held?
  }

  /** The place of a thread fits its status, and both fit where it is in its code. */
  ghost predicate ThreadOk(s: State, t: nat)
    requires t < |s.threads|
  {
    var x := s.threads[t];
    && (x.status != Unstarted ==> x.cpu < |s.cpus|)
    && (match x.status
        case Unstarted => x.place == Nowhere && x.pc == Free
        case Waiting => x.place == Nowhere && x.pc in {Free, Prepared, Asleep, Stopping}
        case Running => x.place == Nowhere && IsCurrent(s, t) && x.pc in {Free, Asleep, Stopping, Looping}
        case Queued => x.place == OnQueue && !IsCurrent(s, t) && x.pc in {Free, Asleep, Looping}
        case Waking => InTransit(x.place) && x.pc in {Free, Prepared, Asleep, Stopping, Looping}
        case Terminating => x.place == Nowhere && x.pc == Done)
    && (x.pc in {Prepared, Stopping} ==> IsCurrent(s, t))
    && (x.pc == Free && IsCurrent(s, t) ==> x.status == Running)
  }

  // The current thread and the idle thread, which never waits.
  ghost predicate CpuOk(s: State, c: nat)
    requires c < |s.cpus|
  {
    var x := s.cpus[c];
    && x.current < |s.threads| && s.threads[x.current].cpu == c && s.threads[x.current].status !in {Queued, Unstarted}
    && x.idle < |s.threads| && s.threads[x.idle].cpu == c && s.threads[x.idle].status in {Running, Queued}
    && s.threads[x.idle].pc == Free
    && (x.sched.Drain? ==> s.threads[x.current].pc in {Free, Asleep, Looping, Done})
  }

  // The idle loop and the drains.
  ghost predicate LoopOk(s: State, c: nat)
    requires c < |s.cpus|
  {
    var x := s.cpus[c];
    && |x.incoming| == |s.cpus|
    && (forall i | i in x.mask :: i < |s.cpus|)
    && (x.sched.Drain? ==> forall i | i in x.sched.left :: i < |s.cpus|)
    && (x.idleDrain.Drain? ==> forall i | i in x.idleDrain.left :: i < |s.cpus|)
    && (x.idleDrain.Drain? <==> x.idlePc in {PollDrain, FinalDrain, LastDrain})
    && (x.poll <==> x.idlePc in {Polling, PollDrain})
    && (IrqOff(x.idlePc) ==> x.current == x.idle && x.sched.NoDrain?)
    && (x.idlePc == Halted ==> x.queue == [])
  }

  /** A thread is in a structure if and only if that is its place. */
  ghost predicate PlaceOk(s: State, c: nat, t: nat)
    requires c < |s.cpus|
  {
    var x := s.cpus[c];
    && (t in x.queue <==> At(s, c, t, OnQueue))
    && (forall i: nat | i < |x.incoming| :: t in x.incoming[i] <==> At(s, c, t, Incoming(i)))
    && (x.sched.Drain? && t in x.sched.local <==> At(s, c, t, InSched))
    && (x.idleDrain.Drain? && t in x.idleDrain.local <==> At(s, c, t, InIdle))
  }

  ghost predicate At(s: State, c: nat, t: nat, p: Place) {
    t < |s.threads| && s.threads[t].cpu == c && s.threads[t].place == p
  }

  ghost predicate QueueOk(s: State, c: nat)
    requires c < |s.cpus|
  {
    var q := s.cpus[c].queue;
    && (forall i | 0 <= i < |q| :: q[i] < |s.threads|)
    && (forall i, j | 0 <= i < j < |q| :: q[i] != q[j])
    && (forall i, j | 0 <= i < j < |q| :: s.threads[q[i]].rt <= s.threads[q[j]].rt)
  }

  ghost predicate WakerOk(s: State, w: nat)
    requires w in s.wakers
  {
    var x := s.wakers[w];
    && w < s.nextWaker && x.target < |s.threads| && s.threads[x.target].status != Unstarted
    && (x.stage == Holding ==> s.threads[x.target].place == Held(w))
    && (Bound(x) ==> x.cpu < |s.cpus|)
    && (x.balance ==> x.stage != Calling && x.dst < |s.cpus|)
    && (x.balance && x.stage == Holding ==> s.threads[x.target].cpu == x.dst)
  }

  ghost predicate HeldOk(s: State, t: nat)
    requires t < |s.threads|
  {
    var p := s.threads[t].place;
    p.Held? ==> p.w in s.wakers && s.wakers[p.w].stage == Holding && s.wakers[p.w].target == t
  }

  // ---- no wakeup is lost ----

  // Waker w is about to set the bit for thread t, which it has queued from CPU i.
  ghost predicate Masks(s: State, w: nat, t: nat, i: nat) {
    && w in s.wakers && s.wakers[w].stage == Pushed && s.wakers[w].target == t < |s.threads| && s.wakers[w].cpu == i
    && Dest(s, w) == s.threads[t].cpu
  }

  ghost predicate WillMask(s: State, t: nat, i: nat) {
    exists w :: Masks(s, w, t, i)
  }

  /** A thread in an incoming queue is noticed: the bit of the queue is set, or someone is
      emptying the queue, or the bit is about to be set. */
  ghost predicate NoticedOk(s: State, t: nat)
    requires t < |s.threads|
  {
    var x := s.threads[t];
    x.place.Incoming? && x.cpu < |s.cpus| ==>
      var y := s.cpus[x.cpu];
      || x.place.i in y.mask || (y.sched.Drain? && x.place.i in y.sched.left)
      || (y.idleDrain.Drain? && x.place.i in y.idleDrain.left) || WillMask(s, t, x.place.i)
  }

  // Waker w has yet to decide on the interrupt for CPU c.
  ghost predicate Tells(s: State, w: nat, c: nat) {
    w in s.wakers && s.wakers[w].stage == Deciding && s.wakers[w].target < |s.threads| && Dest(s, w) == c
  }

  ghost predicate WillTell(s: State, c: nat) {
    exists w :: Tells(s, w, c)
  }

  /** A CPU that is halted, or about to be, has no bit set unless an interrupt is on its way. */
  ghost predicate HaltOk(s: State, c: nat)
    requires c < |s.cpus|
  {
    IrqOff(s.cpus[c].idlePc) ==> !Handler(s, c) && (s.cpus[c].mask == {} || s.cpus[c].ipi || WillTell(s, c))
  }

  ghost predicate WillWake(s: State, t: nat) {
    exists w :: w in s.wakers && s.wakers[w].stage == Calling && s.wakers[w].target == t
  }

  /** A thread asleep although what it waits for holds is about to be woken; so is one just started. */
  ghost predicate AwaitedOk(s: State, t: nat)
    requires t < |s.threads|
  {
    var x := s.threads[t];
    x.status == Waiting && ((x.pc == Asleep && x.cond) || x.pc == Free) ==> WillWake(s, t)
  }

  ghost predicate Threads(s: State) {
    forall t: nat | t < |s.threads| :: ThreadOk(s, t)
  }

  ghost predicate Cpus(s: State) {
    forall c: nat | c < |s.cpus| :: CpuOk(s, c) && LoopOk(s, c)
  }

  ghost predicate Places(s: State) {
    && (forall c: nat, t: nat | c < |s.cpus| :: PlaceOk(s, c, t))
    && (forall c: nat | c < |s.cpus| :: QueueOk(s, c))
  }

  ghost predicate Wakers(s: State) {
    && (forall w | w in s.wakers :: WakerOk(s, w))
    && (forall t: nat | t < |s.threads| :: HeldOk(s, t))
  }

  ghost predicate Delivery(s: State) {
    && (forall t: nat | t < |s.threads| :: NoticedOk(s, t) && AwaitedOk(s, t))
    && (forall c: nat | c < |s.cpus| :: HaltOk(s, c))
  }

  ghost predicate Inv(s: State) {
    Threads(s) && Cpus(s) && Places(s) && Wakers(s) && Delivery(s)
  }

  // ---- a switch finds a thread ----

  lemma {:induction false} InsertHead(threads: seq<Thread>, q: seq<nat>, t: nat)
    requires t < |threads| && q != [] && (forall i | 0 <= i < |q| :: q[i] < |threads|)
    requires threads[q[0]].rt <= threads[t].rt
    ensures Insert(threads, q, t) != [] && Insert(threads, q, t)[0] == q[0]
  {
  }

  /** The idle thread is in the queue if it is not the one that runs. */
  lemma IdleIsQueued(s: State, c: nat)
    requires Inv(s) && c < |s.cpus| && s.cpus[c].current != s.cpus[c].idle
    ensures s.cpus[c].idle in s.cpus[c].queue
  {
    var t := s.cpus[c].idle;
    assert CpuOk(s, c) && ThreadOk(s, t) && PlaceOk(s, c, t);
  }

  /** Whenever the current thread cannot go on there is another to switch to: it is queued, it is
      not the current one, and no queued thread has run less. */
  lemma SwitchFinds(s: State, c: nat, ran: nat, borrowed: nat)
    requires Inv(s) && c < |s.cpus| && s.cpus[c].current < |s.threads| && InRange(s, c) && !GoesOn(s, c, ran)
    ensures s.cpus[c].queue != []
    ensures var r, n := Outgoing(s, c, ran, borrowed), s.cpus[c].queue[0];
            && r.cpus[c].queue != [] && r.cpus[c].queue[0] == n
            && n != s.cpus[c].current && s.threads[n].status == Queued
            && forall i | 0 <= i < |s.cpus[c].queue| :: s.threads[n].rt <= s.threads[s.cpus[c].queue[i]].rt
  {
    var x := s.cpus[c];
    assert CpuOk(s, c) && QueueOk(s, c);
    if x.current != x.idle {
      IdleIsQueued(s, c);
    } else {
      assert ThreadOk(s, x.idle);
    }
    var n := x.queue[0];
    assert n in x.queue && PlaceOk(s, c, n) && ThreadOk(s, n);
    var p := s.threads[x.current];
    if p.status == Running {
      var ts := s.threads[x.current := p.(status := Queued, place := OnQueue, rt := p.rt + ran + borrowed)];
      InsertHead(ts, x.queue, x.current);
    }
  }

  // ---- every step keeps it: threads ----

  lemma StartThread(s: State, a: Act, t: nat)
    requires Cpus(s) && OwnOn(s, a) && a.Start? && t < |s.threads| && ThreadOk(s, t)
    ensures ThreadOk(OwnStep(s, a), t)
  {
    assert CpuOk(s, a.c);
  }

  lemma OwnThread(s: State, a: Act, t: nat)
    requires Threads(s) && Cpus(s) && OwnOn(s, a) && t < |s.threads|
    ensures ThreadOk(OwnStep(s, a), t)
  {
    assert ThreadOk(s, t);
    if a.Start? {
      StartThread(s, a, t);
    }
  }

  lemma StaysOk(s: State, r: State, t: nat)
    requires t < |s.threads| == |r.threads| && ThreadOk(s, t)
    requires r.threads[t] == s.threads[t].(cond := r.threads[t].cond)
    requires |r.cpus| == |s.cpus| && forall c: nat | c < |s.cpus| :: r.cpus[c].current == s.cpus[c].current
    ensures ThreadOk(r, t)
  {
  }

  lemma CasThread(s: State, w: nat, t: nat)
    requires WakesOn(s, Cas(w)) && t < |s.threads| && ThreadOk(s, t)
    ensures ThreadOk(CasStep(s, w), t)
  {
  }

  lemma PushThread(s: State, w: nat, c: nat, t: nat)
    requires Wakers(s) && WakesOn(s, Push(w, c)) && t < |s.threads| && ThreadOk(s, t)
    ensures ThreadOk(PushStep(s, w, c), t)
  {
    assert WakerOk(s, w);
  }

  lemma WakesThread(s: State, a: Act, t: nat)
    requires Wakers(s) && WakesOn(s, a) && t < |s.threads| && ThreadOk(s, t)
    ensures |WakesStep(s, a).threads| == |s.threads| && ThreadOk(WakesStep(s, a), t)
  {
    if a.Cas? {
      CasThread(s, a.w, t);
    } else if a.Push? {
      PushThread(s, a.w, a.c, t);
    } else {
      StaysOk(s, WakesStep(s, a), t);
    }
  }

  lemma LoopsThread(s: State, a: Act, t: nat)
    requires Threads(s) && LoopsOn(s, a) && t < |s.threads|
    ensures ThreadOk(LoopsStep(s, a), t)
  {
    assert ThreadOk(s, t);
  }

  lemma CopyThread(s: State, a: Act, t: nat)
    requires Threads(s) && Places(s) && CanCopy(s, a) && t < |s.threads|
    ensures ThreadOk(CopiesStep(s, a), t)
  {
    assert ThreadOk(s, t) && PlaceOk(s, a.c, t);
  }

  lemma RunnableThread(s: State, d: nat, m: nat, rt: int, t: nat)
    requires d < |s.cpus| && m < |s.threads| && InRange(s, d) && s.threads[m].cpu == d && t < |s.threads|
    requires ThreadOk(s, m) && ThreadOk(s, t) && s.threads[m].status == Waking
    requires s.threads[m].pc == Prepared ==> s.cpus[d].current != m
    ensures ThreadOk(MakeRunnable(s, d, m, rt), t)
  {
  }

  lemma DrainThread(s: State, a: Act, t: nat)
    requires Threads(s) && Cpus(s) && Places(s) && CanDrain(s, a)
    requires t < |s.threads|
    ensures ThreadOk(DrainsStep(s, a), t)
  {
    assert ThreadOk(s, t) && PlaceOk(s, a.c, a.t) && ThreadOk(s, a.t) && CpuOk(s, a.c);
    var x := s.cpus[a.c];
    var d := DrainOf(x, a.DrainOne?);
    var r := WithCpu(s, a.c, WithDrain(x, a.DrainOne?, Drain(d.left, d.local - {a.t})));
    RunnableThread(r, a.c, a.t, a.rt, t);
  }

  lemma BalanceThread(s: State, a: Act, t: nat)
    requires Threads(s) && Cpus(s) && Places(s) && BalanceOn(s, a) && t < |s.threads|
    ensures ThreadOk(BalanceStep(s, a), t)
  {
    var m := s.cpus[a.c].queue[a.k];
    assert m in s.cpus[a.c].queue && PlaceOk(s, a.c, m) && ThreadOk(s, m) && ThreadOk(s, t);
    assert CpuOk(s, a.dst);
  }

  lemma DecideThread(s: State, a: Act, t: nat)
    requires Inv(s) && CanDecide(s, a) && t < |s.threads|
    ensures ThreadOk(DecideStep(s, a), t)
  {
    assert ThreadOk(s, t) && CpuOk(s, a.c) && ThreadOk(s, s.cpus[a.c].current);
    if !GoesOn(s, a.c, a.ran) {
      SwitchFinds(s, a.c, a.ran, a.borrowed);
      var n := s.cpus[a.c].queue[0];
      assert n in s.cpus[a.c].queue && PlaceOk(s, a.c, n) && ThreadOk(s, n);
    }
  }

  // ---- CPUs ----

  lemma OwnCpu(s: State, a: Act, c: nat)
    requires Threads(s) && Cpus(s) && OwnOn(s, a) && c < |s.cpus|
    ensures CpuOk(OwnStep(s, a), c) && LoopOk(OwnStep(s, a), c)
  {
    assert CpuOk(s, c) && LoopOk(s, c) && ThreadOk(s, a.t);
  }

  lemma WakesCpu(s: State, a: Act, c: nat)
    requires Cpus(s) && WakesOn(s, a) && c < |s.cpus|
    ensures |WakesStep(s, a).cpus| == |s.cpus| && CpuOk(WakesStep(s, a), c)
  {
    assert CpuOk(s, c);
  }

  lemma MaskLoop(s: State, w: nat, c: nat)
    requires Wakers(s) && WakesOn(s, Mask(w)) && c < |s.cpus| && LoopOk(s, c)
    ensures |MaskStep(s, w).cpus| == |s.cpus| && LoopOk(MaskStep(s, w), c)
  {
    assert WakerOk(s, w);
  }

  lemma WakesLoop(s: State, a: Act, c: nat)
    requires Cpus(s) && Wakers(s) && WakesOn(s, a) && c < |s.cpus|
    ensures |WakesStep(s, a).cpus| == |s.cpus| && LoopOk(WakesStep(s, a), c)
  {
    assert LoopOk(s, c);
    if a.Mask? {
      MaskLoop(s, a.w, c);
    }
  }

  lemma LoopsCpu(s: State, a: Act, c: nat)
    requires Cpus(s) && LoopsOn(s, a) && c < |s.cpus|
    ensures CpuOk(LoopsStep(s, a), c) && LoopOk(LoopsStep(s, a), c)
  {
    assert CpuOk(s, c) && LoopOk(s, c);
  }

  lemma CopyCpu(s: State, a: Act, c: nat)
    requires Cpus(s) && CanCopy(s, a) && c < |s.cpus|
    ensures CpuOk(CopiesStep(s, a), c) && LoopOk(CopiesStep(s, a), c)
  {
    assert CpuOk(s, c) && LoopOk(s, c);
  }

  lemma IdleOneCpu(s: State, a: Act, c: nat)
    requires Threads(s) && Cpus(s) && Places(s) && CanDrain(s, a) && a.IdleOne? && c < |s.cpus|
    ensures |DrainsStep(s, a).cpus| == |s.cpus| && CpuOk(DrainsStep(s, a), c)
  {
    assert CpuOk(s, c) && PlaceOk(s, a.c, a.t) && ThreadOk(s, a.t);
  }

  lemma DrainCpu(s: State, a: Act, c: nat)
    requires Threads(s) && Cpus(s) && Places(s) && CanDrain(s, a)
    requires c < |s.cpus|
    ensures |DrainsStep(s, a).cpus| == |s.cpus| && CpuOk(DrainsStep(s, a), c)
  {
    if a.IdleOne? {
      IdleOneCpu(s, a, c);
    } else {
      assert CpuOk(s, c) && PlaceOk(s, a.c, a.t) && ThreadOk(s, a.t);
    }
  }

  lemma DrainLoop(s: State, a: Act, c: nat)
    requires Cpus(s) && CanDrain(s, a) && c < |s.cpus|
    ensures |DrainsStep(s, a).cpus| == |s.cpus| && LoopOk(DrainsStep(s, a), c)
  {
    assert LoopOk(s, c);
  }

  lemma BalanceCpu(s: State, a: Act, c: nat)
    requires Threads(s) && Cpus(s) && Places(s) && BalanceOn(s, a) && c < |s.cpus|
    ensures CpuOk(BalanceStep(s, a), c) && LoopOk(BalanceStep(s, a), c)
  {
    var m := s.cpus[a.c].queue[a.k];
    assert m in s.cpus[a.c].queue && PlaceOk(s, a.c, m) && ThreadOk(s, m);
    assert CpuOk(s, c) && LoopOk(s, c);
  }

  lemma GoesOnCpu(s: State, a: Act, c: nat)
    requires Threads(s) && Cpus(s) && CanDecide(s, a) && GoesOn(s, a.c, a.ran) && c < |s.cpus|
    ensures |DecideStep(s, a).cpus| == |s.cpus| && CpuOk(DecideStep(s, a), c)
  {
    assert CpuOk(s, c) && CpuOk(s, a.c);
  }

  // Thread n is switched to on CPU d, and p away from.
  ghost predicate Switches(s: State, r: State, d: nat, p: nat, n: nat) {
    && |r.threads| == |s.threads| && |r.cpus| == |s.cpus| && d < |s.cpus| && p < |s.threads| && n < |s.threads|
    && (forall t: nat | t < |s.threads| && t != p && t != n :: r.threads[t] == s.threads[t])
    && (forall c: nat | c < |s.cpus| && c != d :: r.cpus[c] == s.cpus[c])
    && r.cpus[d] == s.cpus[d].(queue := r.cpus[d].queue, current := n, sched := NoDrain)
    && r.threads[n] == s.threads[n].(status := Running, place := Nowhere, rt := r.threads[n].rt)
    && r.threads[p].cpu == s.threads[p].cpu && r.threads[p].pc == s.threads[p].pc
    && r.threads[p].status == if s.threads[p].status == Running then Queued else s.threads[p].status
  }

  lemma DecideSwitches(s: State, a: Act, n: nat)
    requires CanDecide(s, a) && !GoesOn(s, a.c, a.ran) && n != s.cpus[a.c].current
    requires Outgoing(s, a.c, a.ran, a.borrowed).cpus[a.c].queue[0] == n
    ensures Switches(s, DecideStep(s, a), a.c, s.cpus[a.c].current, n)
  {
  }

  lemma SwitchCpu(s: State, r: State, d: nat, n: nat, c: nat)
    requires d < |s.cpus| && Switches(s, r, d, s.cpus[d].current, n) && c < |s.cpus| && CpuOk(s, c) && CpuOk(s, d)
    requires n != s.cpus[d].current && s.threads[n].cpu == d && s.threads[n].status == Queued
    ensures CpuOk(r, c)
  {
  }

  lemma DecideCpu(s: State, a: Act, c: nat)
    requires Inv(s) && CanDecide(s, a) && c < |s.cpus|
    ensures |DecideStep(s, a).cpus| == |s.cpus| && CpuOk(DecideStep(s, a), c)
  {
    if GoesOn(s, a.c, a.ran) {
      GoesOnCpu(s, a, c);
    } else {
      SwitchFinds(s, a.c, a.ran, a.borrowed);
      var n := s.cpus[a.c].queue[0];
      assert n in s.cpus[a.c].queue && PlaceOk(s, a.c, n) && CpuOk(s, c) && CpuOk(s, a.c);
      DecideSwitches(s, a, n);
      SwitchCpu(s, DecideStep(s, a), a.c, n, c);
    }
  }

  // What LoopOk says of a CPU depends on none of its threads.
  lemma SwitchLoop(s: State, r: State, c: nat)
    requires c < |s.cpus| == |r.cpus| && LoopOk(s, c) && !IrqOff(s.cpus[c].idlePc)
    requires r.cpus[c] == s.cpus[c].(queue := r.cpus[c].queue, current := r.cpus[c].current, sched := NoDrain)
    ensures LoopOk(r, c)
  {
  }

  lemma DecideLoop(s: State, a: Act, c: nat)
    requires Cpus(s) && CanDecide(s, a) && c < |s.cpus|
    ensures |DecideStep(s, a).cpus| == |s.cpus| && LoopOk(DecideStep(s, a), c)
  {
    assert LoopOk(s, c) && LoopOk(s, a.c);
    if c == a.c {
      SwitchLoop(s, DecideStep(s, a), c);
    }
  }

  // ---- places ----

  lemma {:induction false} InsertMembers(threads: seq<Thread>, q: seq<nat>, t: nat, u: nat)
    requires t < |threads| && forall i | 0 <= i < |q| :: q[i] < |threads|
    ensures u in Insert(threads, q, t) <==> u in q || u == t
  {
    if !(q == [] || threads[t].rt < threads[q[0]].rt) {
      InsertMembers(threads, q[1..], t, u);
      assert q == [q[0]] + q[1..];
    }
  }

  ghost predicate Distinct(q: seq<nat>) {
    forall i, j | 0 <= i < j < |q| :: q[i] != q[j]
  }

  ghost predicate Sorted(threads: seq<Thread>, q: seq<nat>)
    requires forall i | 0 <= i < |q| :: q[i] < |threads|
  {
    forall i, j | 0 <= i < j < |q| :: threads[q[i]].rt <= threads[q[j]].rt
  }

  lemma {:induction false} InsertSorted(threads: seq<Thread>, q: seq<nat>, t: nat)
    requires t < |threads| && (forall i | 0 <= i < |q| :: q[i] < |threads|) && t !in q && Distinct(q)
    requires Sorted(threads, q)
    ensures var r := Insert(threads, q, t);
            (forall i | 0 <= i < |r| :: r[i] < |threads|) && Distinct(r) && Sorted(threads, r)
  {
    if !(q == [] || threads[t].rt < threads[q[0]].rt) {
      InsertSorted(threads, q[1..], t);
      var r := Insert(threads, q[1..], t);
      forall u | u in r ensures u != q[0] && threads[q[0]].rt <= threads[u].rt {
        InsertMembers(threads, q[1..], t, u);
        if u != t {
          var j :| 0 <= j < |q[1..]| && q[1..][j] == u;
          assert q[j + 1] == u;
        }
      }
    }
  }

  lemma OwnPlace(s: State, a: Act, c: nat, t: nat)
    requires Threads(s) && c < |s.cpus| && PlaceOk(s, c, t) && OwnOn(s, a)
    ensures PlaceOk(OwnStep(s, a), c, t)
  {
    assert ThreadOk(s, a.t);
  }

  lemma PushPlace(s: State, w: nat, i: nat, c: nat, t: nat)
    requires Wakers(s) && c < |s.cpus| && PlaceOk(s, c, t) && WakesOn(s, Push(w, i))
    ensures PlaceOk(PushStep(s, w, i), c, t)
  {
    assert WakerOk(s, w);
  }

  lemma WakesPlace(s: State, a: Act, c: nat, t: nat)
    requires Threads(s) && c < |s.cpus| && PlaceOk(s, c, t) && WakesOn(s, a) && !a.Push?
    ensures PlaceOk(WakesStep(s, a), c, t)
  {
    if a.Cas? {
      assert ThreadOk(s, s.wakers[a.w].target);
    }
  }

  // What a place depends on.
  lemma SamePlace(s: State, r: State, c: nat, t: nat)
    requires c < |s.cpus| == |r.cpus| && PlaceOk(s, c, t) && r.threads == s.threads
    requires r.cpus[c].queue == s.cpus[c].queue && r.cpus[c].incoming == s.cpus[c].incoming
    requires (r.cpus[c].sched.Drain? && t in r.cpus[c].sched.local) <==>
             (s.cpus[c].sched.Drain? && t in s.cpus[c].sched.local)
    requires (r.cpus[c].idleDrain.Drain? && t in r.cpus[c].idleDrain.local) <==>
             (s.cpus[c].idleDrain.Drain? && t in s.cpus[c].idleDrain.local)
    ensures PlaceOk(r, c, t)
  {
  }

  lemma LoopsPlace(s: State, a: Act, c: nat, t: nat)
    requires Cpus(s) && c < |s.cpus| && PlaceOk(s, c, t) && LoopsOn(s, a)
    ensures PlaceOk(LoopsStep(s, a), c, t)
  {
    assert LoopOk(s, c);
    SamePlace(s, LoopsStep(s, a), c, t);
  }

  lemma CopyPlace(s: State, a: Act, c: nat, t: nat)
    requires Places(s) && c < |s.cpus| && PlaceOk(s, c, t) && CanCopy(s, a)
    ensures PlaceOk(CopiesStep(s, a), c, t)
  {
    assert PlaceOk(s, a.c, t);
  }

  ghost predicate Absent(x: Cpu, t: nat) {
    && t !in x.queue && (forall i: nat | i < |x.incoming| :: t !in x.incoming[i])
    && !(x.sched.Drain? && t in x.sched.local) && !(x.idleDrain.Drain? && t in x.idleDrain.local)
  }

  lemma RunnablePlace(s: State, d: nat, m: nat, rt: int, c: nat, t: nat)
    requires d < |s.cpus| && m < |s.threads| && InRange(s, d) && s.threads[m].cpu == d && c < |s.cpus|
    requires if t == m then Absent(s.cpus[c], t) else PlaceOk(s, c, t)
    ensures PlaceOk(MakeRunnable(s, d, m, rt), c, t)
  {
    if s.cpus[d].current != m {
      var ts := s.threads[m := s.threads[m].(status := Queued, place := OnQueue, rt := rt)];
      InsertMembers(ts, s.cpus[d].queue, m, t);
    }
  }

  lemma DrainPlace(s: State, a: Act, c: nat, t: nat)
    requires Cpus(s) && Places(s) && c < |s.cpus| && CanDrain(s, a) && a.DrainOne?
    ensures PlaceOk(DrainsStep(s, a), c, t)
  {
    assert PlaceOk(s, a.c, a.t) && PlaceOk(s, c, t);
    var x := s.cpus[a.c];
    RunnablePlace(WithCpu(s, a.c, x.(sched := Drain(x.sched.left, x.sched.local - {a.t}))), a.c, a.t, a.rt, c, t);
  }

  lemma IdlePlace(s: State, a: Act, c: nat, t: nat)
    requires Cpus(s) && Places(s) && c < |s.cpus| && CanDrain(s, a) && a.IdleOne?
    ensures PlaceOk(DrainsStep(s, a), c, t)
  {
    assert PlaceOk(s, a.c, a.t) && PlaceOk(s, c, t);
    var x := s.cpus[a.c];
    RunnablePlace(WithCpu(s, a.c, x.(idleDrain := Drain(x.idleDrain.left, x.idleDrain.local - {a.t}))),
                  a.c, a.t, a.rt, c, t);
  }

  lemma CutMembers(q: seq<nat>, k: nat, u: nat)
    requires k < |q| && Distinct(q)
    ensures u in q[..k] + q[k + 1..] <==> u in q && u != q[k]
  {
    if u in q && u != q[k] {
      var j :| 0 <= j < |q| && q[j] == u;
      assert j < k ==> q[..k][j] == u;
      assert j > k ==> q[k + 1..][j - k - 1] == u;
    }
  }

  lemma BalancePlace(s: State, a: Act, c: nat, t: nat)
    requires Threads(s) && Places(s) && c < |s.cpus| && BalanceOn(s, a)
    ensures PlaceOk(BalanceStep(s, a), c, t)
  {
    var q := s.cpus[a.c].queue;
    assert q[a.k] in q && PlaceOk(s, a.c, q[a.k]) && PlaceOk(s, c, t) && QueueOk(s, a.c);
    CutMembers(q, a.k, t);
  }

  lemma OutgoingPlace(s: State, d: nat, ran: nat, borrowed: nat, c: nat, t: nat)
    requires Threads(s) && Places(s) && d < |s.cpus| && s.cpus[d].current < |s.threads| && InRange(s, d) && c < |s.cpus|
    requires s.threads[s.cpus[d].current].cpu == d
    ensures PlaceOk(Outgoing(s, d, ran, borrowed), c, t)
  {
    var p := s.cpus[d].current;
    assert ThreadOk(s, p) && PlaceOk(s, c, t);
    if s.threads[p].status == Running {
      OutgoingQueued(s, d, ran, borrowed, c, t);
    }
  }

  lemma OutgoingQueued(s: State, d: nat, ran: nat, borrowed: nat, c: nat, t: nat)
    requires d < |s.cpus| && s.cpus[d].current < |s.threads| && InRange(s, d) && c < |s.cpus| && PlaceOk(s, c, t)
    requires var p := s.threads[s.cpus[d].current]; p.cpu == d && p.status == Running && p.place == Nowhere
    ensures PlaceOk(Outgoing(s, d, ran, borrowed), c, t)
  {
    var p := s.cpus[d].current;
    var ts := s.threads[p := s.threads[p].(status := Queued, place := OnQueue, rt := s.threads[p].rt + ran + borrowed)];
    InsertMembers(ts, s.cpus[d].queue, p, t);
  }

  lemma SwitchedPlace(s: State, d: nat, start: int, c: nat, t: nat)
    requires d < |s.cpus| && s.cpus[d].queue != [] && s.cpus[d].queue[0] < |s.threads| && Distinct(s.cpus[d].queue)
    requires s.cpus[d].sched == Drain({}, {}) && c < |s.cpus| && PlaceOk(s, c, t)
    requires s.threads[s.cpus[d].queue[0]].cpu == d
    requires PlaceOk(s, d, s.cpus[d].queue[0])
    ensures PlaceOk(Switched(s, d, start), c, t)
  {
    var q := s.cpus[d].queue;
    CutMembers(q, 0, t);
    assert q[..0] + q[1..] == q[1..];
    assert q[0] in q;
  }

  // ---- the order of the run queue ----

  // A queue is not disturbed by a change of a thread that is not in it.
  lemma QueueKeeps(s: State, r: State, c: nat)
    requires c < |s.cpus| && QueueOk(s, c) && |r.cpus| == |s.cpus| && |r.threads| == |s.threads|
    requires r.cpus[c].queue == s.cpus[c].queue
    requires forall i | 0 <= i < |s.cpus[c].queue| ::
               r.threads[s.cpus[c].queue[i]].rt == s.threads[s.cpus[c].queue[i]].rt
    ensures QueueOk(r, c)
  {
  }

  lemma QueueElse(s: State, r: State, c: nat, m: nat)
    requires c < |s.cpus| && QueueOk(s, c) && |r.cpus| == |s.cpus| && |r.threads| == |s.threads|
    requires m !in s.cpus[c].queue && r.cpus[c].queue == s.cpus[c].queue
    requires forall u: nat | u < |s.threads| && u != m :: r.threads[u].rt == s.threads[u].rt
    ensures QueueOk(r, c)
  {
    assert forall i | 0 <= i < |s.cpus[c].queue| :: s.cpus[c].queue[i] in s.cpus[c].queue;
    QueueKeeps(s, r, c);
  }

  lemma QueueInserts(s: State, r: State, c: nat, m: nat)
    requires c < |s.cpus| && QueueOk(s, c) && |r.cpus| == |s.cpus| && |r.threads| == |s.threads| && m < |s.threads|
    requires m !in s.cpus[c].queue && r.cpus[c].queue == Insert(r.threads, s.cpus[c].queue, m)
    requires forall u: nat | u < |s.threads| && u != m :: r.threads[u].rt == s.threads[u].rt
    ensures QueueOk(r, c)
  {
    var q := s.cpus[c].queue;
    assert forall i | 0 <= i < |q| :: q[i] in q;
    assert Sorted(r.threads, q);
    InsertSorted(r.threads, q, m);
  }

  lemma QueueCuts(s: State, r: State, c: nat, k: nat)
    requires c < |s.cpus| && QueueOk(s, c) && |r.cpus| == |s.cpus| && |r.threads| == |s.threads|
    requires k < |s.cpus[c].queue|
    requires r.cpus[c].queue == s.cpus[c].queue[..k] + s.cpus[c].queue[k + 1..]
    requires forall u: nat | u < |s.threads| && u != s.cpus[c].queue[k] :: r.threads[u].rt == s.threads[u].rt
    ensures QueueOk(r, c)
  {
    var q, p := s.cpus[c].queue, r.cpus[c].queue;
    forall i | 0 <= i < |p| ensures p[i] == q[if i < k then i else i + 1] {
    }
  }

  lemma OwnQueue(s: State, a: Act, c: nat)
    requires c < |s.cpus| && QueueOk(s, c) && OwnOn(s, a)
    ensures QueueOk(OwnStep(s, a), c)
  {
    QueueKeeps(s, OwnStep(s, a), c);
  }

  lemma WakesQueue(s: State, a: Act, c: nat)
    requires c < |s.cpus| && QueueOk(s, c) && WakesOn(s, a)
    ensures |WakesStep(s, a).cpus| == |s.cpus| && QueueOk(WakesStep(s, a), c)
  {
    QueueKeeps(s, WakesStep(s, a), c);
  }

  lemma LoopsQueue(s: State, a: Act, c: nat)
    requires c < |s.cpus| && QueueOk(s, c) && LoopsOn(s, a)
    ensures QueueOk(LoopsStep(s, a), c)
  {
    QueueKeeps(s, LoopsStep(s, a), c);
  }

  lemma CopyQueue(s: State, a: Act, c: nat)
    requires c < |s.cpus| && QueueOk(s, c) && CanCopy(s, a)
    ensures QueueOk(CopiesStep(s, a), c)
  {
    QueueKeeps(s, CopiesStep(s, a), c);
  }

  lemma RunnableQueue(s: State, d: nat, m: nat, rt: int, c: nat)
    requires d < |s.cpus| && m < |s.threads| && InRange(s, d) && c < |s.cpus| && QueueOk(s, c) && m !in s.cpus[c].queue
    ensures QueueOk(MakeRunnable(s, d, m, rt), c)
  {
    var r := MakeRunnable(s, d, m, rt);
    if c == d && s.cpus[d].current != m {
      QueueInserts(s, r, c, m);
    } else {
      QueueElse(s, r, c, m);
    }
  }

  lemma DrainQueue(s: State, a: Act, c: nat)
    requires Places(s) && c < |s.cpus| && CanDrain(s, a)
    ensures QueueOk(DrainsStep(s, a), c)
  {
    assert PlaceOk(s, a.c, a.t) && PlaceOk(s, c, a.t) && QueueOk(s, c);
    var x := s.cpus[a.c];
    var r := WithCpu(s, a.c, if a.DrainOne? then x.(sched := Drain(x.sched.left, x.sched.local - {a.t}))
                             else x.(idleDrain := Drain(x.idleDrain.left, x.idleDrain.local - {a.t})));
    RunnableQueue(r, a.c, a.t, a.rt, c);
  }

  lemma BalanceQueue(s: State, a: Act, c: nat)
    requires Places(s) && c < |s.cpus| && BalanceOn(s, a)
    ensures QueueOk(BalanceStep(s, a), c)
  {
    assert QueueOk(s, c);
    if c == a.c {
      QueueCuts(s, BalanceStep(s, a), c, a.k);
    } else {
      QueueKeeps(s, BalanceStep(s, a), c);
    }
  }

  lemma OutgoingQueue(s: State, d: nat, ran: nat, borrowed: nat, c: nat)
    requires Threads(s) && Places(s) && d < |s.cpus| && s.cpus[d].current < |s.threads| && InRange(s, d) && c < |s.cpus|
    requires s.threads[s.cpus[d].current].cpu == d && s.threads[s.cpus[d].current].status != Queued
    ensures QueueOk(Outgoing(s, d, ran, borrowed), c)
  {
    var r, p := Outgoing(s, d, ran, borrowed), s.cpus[d].current;
    assert ThreadOk(s, p) && PlaceOk(s, c, p) && PlaceOk(s, d, p) && QueueOk(s, c);
    if c == d && s.threads[p].status == Running {
      QueueInserts(s, r, c, p);
    } else {
      QueueElse(s, r, c, p);
    }
  }

  lemma SwitchedQueue(s: State, d: nat, start: int, c: nat)
    requires d < |s.cpus| && s.cpus[d].queue != [] && s.cpus[d].queue[0] < |s.threads| && c < |s.cpus| && QueueOk(s, c)
    requires c != d ==> s.cpus[d].queue[0] !in s.cpus[c].queue
    ensures QueueOk(Switched(s, d, start), c)
  {
    var r := Switched(s, d, start);
    if c == d {
      assert s.cpus[d].queue[..0] + s.cpus[d].queue[1..] == s.cpus[d].queue[1..];
      QueueCuts(s, r, c, 0);
    } else {
      QueueElse(s, r, c, s.cpus[d].queue[0]);
    }
  }

  lemma GoesOnPlaces(s: State, a: Act, c: nat, t: nat)
    requires Inv(s) && CanDecide(s, a) && GoesOn(s, a.c, a.ran) && c < |s.cpus|
    ensures PlaceOk(DecideStep(s, a), c, t) && QueueOk(DecideStep(s, a), c)
  {
    var p := s.cpus[a.c].current;
    assert CpuOk(s, a.c) && ThreadOk(s, p) && PlaceOk(s, c, p) && PlaceOk(s, c, t) && QueueOk(s, c);
    QueueElse(s, DecideStep(s, a), c, p);
  }

  lemma DecidePlaces(s: State, a: Act, c: nat, t: nat)
    requires Inv(s) && CanDecide(s, a) && !GoesOn(s, a.c, a.ran) && c < |s.cpus|
    ensures PlaceOk(DecideStep(s, a), c, t) && QueueOk(DecideStep(s, a), c)
  {
    var d := a.c;
    assert CpuOk(s, d) && ThreadOk(s, s.cpus[d].current);
    var r := Outgoing(s, d, a.ran, a.borrowed);
    SwitchFinds(s, d, a.ran, a.borrowed);
    var n := s.cpus[d].queue[0];
    assert n in s.cpus[d].queue && PlaceOk(s, d, n);
    OutgoingPlace(s, d, a.ran, a.borrowed, c, t);
    OutgoingPlace(s, d, a.ran, a.borrowed, c, n);
    OutgoingPlace(s, d, a.ran, a.borrowed, d, n);
    OutgoingQueue(s, d, a.ran, a.borrowed, c);
    OutgoingQueue(s, d, a.ran, a.borrowed, d);
    SwitchedPlace(r, d, a.start, c, t);
    SwitchedQueue(r, d, a.start, c);
  }

  // ---- wakers ----

  lemma CallsWaker(s: State, a: Act, w: nat)
    requires Threads(s) && Wakers(s) && WakesOn(s, a) && (a.Call? || a.Cas?) && w in WakesStep(s, a).wakers
    ensures WakerOk(WakesStep(s, a), w)
  {
    if w in s.wakers {
      assert WakerOk(s, w) && ThreadOk(s, s.wakers[w].target);
    }
  }

  lemma WakesWaker(s: State, a: Act, w: nat)
    requires Threads(s) && Wakers(s) && WakesOn(s, a) && w in WakesStep(s, a).wakers
    ensures WakerOk(WakesStep(s, a), w)
  {
    if a.Call? || a.Cas? {
      CallsWaker(s, a, w);
    } else {
      assert w in s.wakers && WakerOk(s, w) && ThreadOk(s, s.wakers[w].target);
    }
  }

  lemma OwnWaker(s: State, a: Act, w: nat)
    requires Threads(s) && Wakers(s) && OwnOn(s, a) && w in OwnStep(s, a).wakers
    ensures WakerOk(OwnStep(s, a), w)
  {
    if w in s.wakers {
      assert WakerOk(s, w) && ThreadOk(s, s.wakers[w].target);
    }
  }

  lemma LoopsWaker(s: State, a: Act, w: nat)
    requires w in s.wakers && WakerOk(s, w) && LoopsOn(s, a)
    ensures WakerOk(LoopsStep(s, a), w)
  {
  }

  lemma CopyWaker(s: State, a: Act, w: nat)
    requires w in s.wakers && WakerOk(s, w) && Places(s) && CanCopy(s, a)
    ensures WakerOk(CopiesStep(s, a), w)
  {
    assert PlaceOk(s, a.c, s.wakers[w].target);
  }

  predicate SameThread(x: Thread, y: Thread) {
    x.(rt := y.rt) == y
  }

  // What a step that puts threads on run queues or takes them off does to one thread: those waiting or
  // in a waker's hands keep all but the runtime.
  ghost predicate MovesThread(s: State, r: State, more: bool, t: nat) {
    && |r.threads| == |s.threads| && t < |s.threads|
    && var x, y := s.threads[t], r.threads[t];
       && (x.place.Held? || x.place.Incoming? || x.status in {Waiting, Unstarted} ==> SameThread(x, y))
       && (x.status !in {Waiting, Unstarted} ==> y.status !in {Waiting, Unstarted})
       && (y.place.Held? ==> SameThread(x, y) || more)
       && (y.place.Incoming? ==> SameThread(x, y))
  }

  lemma DrainMoves(s: State, a: Act, t: nat)
    requires Inv(s) && CanDrain(s, a) && t < |s.threads|
    ensures MovesThread(s, DrainsStep(s, a), false, t)
  {
    assert PlaceOk(s, a.c, a.t) && ThreadOk(s, a.t);
  }

  lemma BalanceMoves(s: State, a: Act, t: nat)
    requires Inv(s) && BalanceOn(s, a) && t < |s.threads|
    ensures MovesThread(s, BalanceStep(s, a), true, t)
  {
    var m := s.cpus[a.c].queue[a.k];
    assert m in s.cpus[a.c].queue && PlaceOk(s, a.c, m) && ThreadOk(s, m);
  }

  lemma DecideMoves(s: State, a: Act, t: nat)
    requires Inv(s) && CanDecide(s, a) && t < |s.threads|
    ensures MovesThread(s, DecideStep(s, a), false, t)
  {
    assert CpuOk(s, a.c) && ThreadOk(s, s.cpus[a.c].current);
    if !GoesOn(s, a.c, a.ran) {
      SwitchFinds(s, a.c, a.ran, a.borrowed);
      var n := s.cpus[a.c].queue[0];
      assert n in s.cpus[a.c].queue && PlaceOk(s, a.c, n) && ThreadOk(s, n);
    }
  }

  // What is left of a drain, which may end if that is nothing.
  predicate SameLeft(d: Drain, e: Drain) {
    d.Drain? ==> d.left == {} || (e.Drain? && e.left == d.left)
  }

  // And what it does to the rest; `more` is whether it makes a waker.
  ghost predicate MovesRest(s: State, r: State, more: bool) {
    && |r.threads| == |s.threads| && |r.cpus| == |s.cpus|
    && r.nextWaker == (if more then s.nextWaker + 1 else s.nextWaker)
    && (forall w | w in s.wakers :: w in r.wakers && r.wakers[w] == s.wakers[w])
    && (forall w | w in r.wakers && w !in s.wakers :: w == s.nextWaker && more)
    && (forall c: nat | c < |s.cpus| :: r.cpus[c].mask == s.cpus[c].mask && r.cpus[c].ipi == s.cpus[c].ipi)
    && (forall c: nat | c < |s.cpus| :: r.cpus[c].idlePc == s.cpus[c].idlePc)
    && (forall c: nat | c < |s.cpus| :: SameLeft(s.cpus[c].sched, r.cpus[c].sched))
    && (forall c: nat | c < |s.cpus| :: SameLeft(s.cpus[c].idleDrain, r.cpus[c].idleDrain))
  }

  lemma DrainTheRest(s: State, a: Act)
    requires CanDrain(s, a)
    ensures MovesRest(s, DrainsStep(s, a), false)
  {
  }

  lemma DecideTheRest(s: State, a: Act)
    requires CanDecide(s, a)
    ensures MovesRest(s, DecideStep(s, a), false)
  {
  }

  lemma BalanceTheRest(s: State, a: Act)
    requires BalanceOn(s, a) && s.nextWaker !in s.wakers
    ensures MovesRest(s, BalanceStep(s, a), true)
  {
  }

  lemma MovesWaker(s: State, r: State, more: bool, w: nat)
    requires w in s.wakers && WakerOk(s, w) && MovesRest(s, r, more) && MovesThread(s, r, more, s.wakers[w].target)
    ensures w in r.wakers && WakerOk(r, w)
  {
  }

  lemma BalanceWaker(s: State, a: Act)
    requires Threads(s) && BalanceOn(s, a)
    ensures s.nextWaker in BalanceStep(s, a).wakers && WakerOk(BalanceStep(s, a), s.nextWaker)
  {
  }

  lemma MovesHeld(s: State, r: State, t: nat)
    requires t < |s.threads| && HeldOk(s, t) && MovesRest(s, r, false) && MovesThread(s, r, false, t)
    ensures HeldOk(r, t)
  {
  }

  lemma BalanceHolds(s: State, a: Act, t: nat)
    requires Wakers(s) && BalanceOn(s, a) && t < |s.threads|
    ensures HeldOk(BalanceStep(s, a), t)
  {
    assert HeldOk(s, t);
  }

  lemma WakesHeld(s: State, a: Act, t: nat)
    requires Threads(s) && Wakers(s) && WakesOn(s, a) && t < |s.threads|
    ensures |WakesStep(s, a).threads| == |s.threads| && HeldOk(WakesStep(s, a), t)
  {
    assert ThreadOk(s, t) && HeldOk(s, t);
    if s.threads[t].place.Held? {
      assert WakerOk(s, s.threads[t].place.w);
    }
  }

  lemma OwnHeld(s: State, a: Act, t: nat)
    requires Wakers(s) && OwnOn(s, a) && t < |s.threads|
    ensures |OwnStep(s, a).threads| == |s.threads| && HeldOk(OwnStep(s, a), t)
  {
    assert HeldOk(s, t);
    if s.threads[t].place.Held? {
      assert WakerOk(s, s.threads[t].place.w);
    }
  }

  lemma CopyHeld(s: State, a: Act, t: nat)
    requires CanCopy(s, a) && t < |s.threads| && HeldOk(s, t)
    ensures |CopiesStep(s, a).threads| == |s.threads| && HeldOk(CopiesStep(s, a), t)
  {
  }

  // ---- delivery ----

  lemma StillMasks(s: State, r: State, t: nat, i: nat)
    requires WillMask(s, t, i) && t < |s.threads| && t < |r.threads| && r.threads[t].cpu == s.threads[t].cpu
    requires forall w | w in s.wakers :: w in r.wakers && r.wakers[w] == s.wakers[w]
    ensures WillMask(r, t, i)
  {
    var w :| Masks(s, w, t, i);
    assert Masks(r, w, t, i);
  }

  lemma StillTells(s: State, r: State, c: nat)
    requires WillTell(s, c) && forall w | w in s.wakers :: w in r.wakers && r.wakers[w] == s.wakers[w]
    requires |s.threads| == |r.threads| && forall t: nat | t < |s.threads| && (s.threads[t].status != Unstarted) ::
               r.threads[t].cpu == s.threads[t].cpu
    requires forall w | w in s.wakers :: WakerOk(s, w)
    ensures WillTell(r, c)
  {
    var w :| Tells(s, w, c);
    assert WakerOk(s, w);
    assert Tells(r, w, c);
  }

  lemma OwnNoticed(s: State, a: Act, t: nat)
    requires Threads(s) && Wakers(s) && OwnOn(s, a) && t < |s.threads| && NoticedOk(s, t)
    ensures NoticedOk(OwnStep(s, a), t)
  {
    var r := OwnStep(s, a);
    assert ThreadOk(s, t);
    OwnWakers(s, a);
    if s.threads[t].place.Incoming? && WillMask(s, t, s.threads[t].place.i) {
      StillMasks(s, r, t, s.threads[t].place.i);
    }
  }

  lemma OwnAwaited(s: State, a: Act, t: nat)
    requires Threads(s) && Wakers(s) && OwnOn(s, a) && t < |s.threads| && AwaitedOk(s, t)
    ensures AwaitedOk(OwnStep(s, a), t)
  {
    var r := OwnStep(s, a);
    assert ThreadOk(s, t);
    OwnWakers(s, a);
    if a.Start? && a.t == t {
      assert r.wakers[s.nextWaker] == Waker(t, Calling, 0, false, 0);
    }
  }

  lemma OwnDelivery(s: State, a: Act, t: nat)
    requires Threads(s) && Wakers(s) && OwnOn(s, a) && t < |s.threads|
    requires NoticedOk(s, t) && AwaitedOk(s, t)
    ensures NoticedOk(OwnStep(s, a), t) && AwaitedOk(OwnStep(s, a), t)
  {
    OwnNoticed(s, a, t);
    OwnAwaited(s, a, t);
  }

  lemma MaskNoticed(s: State, w: nat, t: nat)
    requires WakesOn(s, Mask(w)) && t < |s.threads| && NoticedOk(s, t)
    ensures NoticedOk(MaskStep(s, w), t)
  {
    var r, x := MaskStep(s, w), s.threads[t];
    if x.place.Incoming? && WillMask(s, t, x.place.i) {
      var v :| Masks(s, v, t, x.place.i);
      if v != w {
        assert Masks(r, v, t, x.place.i);
      }
    }
  }

  lemma PushNoticed(s: State, w: nat, c: nat, t: nat)
    requires Wakers(s) && WakesOn(s, Push(w, c)) && t < |s.threads| && NoticedOk(s, t)
    ensures NoticedOk(PushStep(s, w, c), t)
  {
    var r, x := PushStep(s, w, c), s.threads[t];
    assert WakerOk(s, w);
    if s.wakers[w].target == t {
      assert Masks(r, w, t, c);
    } else if x.place.Incoming? && WillMask(s, t, x.place.i) {
      var v :| Masks(s, v, t, x.place.i);
      assert Masks(r, v, t, x.place.i);
    }
  }

  lemma CasNoticed(s: State, w: nat, t: nat)
    requires WakesOn(s, Cas(w)) && t < |s.threads| && NoticedOk(s, t) && ThreadOk(s, t)
    ensures NoticedOk(CasStep(s, w), t)
  {
    var x := s.threads[t];
    if x.place.Incoming? && WillMask(s, t, x.place.i) {
      var v :| Masks(s, v, t, x.place.i);
      assert Masks(CasStep(s, w), v, t, x.place.i);
    }
  }

  lemma TellNoticed(s: State, w: nat, t: nat)
    requires WakesOn(s, Tell(w)) && t < |s.threads| && NoticedOk(s, t)
    ensures NoticedOk(TellStep(s, w), t)
  {
    var x := s.threads[t];
    if x.place.Incoming? && WillMask(s, t, x.place.i) {
      var v :| Masks(s, v, t, x.place.i);
      assert Masks(TellStep(s, w), v, t, x.place.i);
    }
  }

  lemma WakesNoticed(s: State, a: Act, t: nat)
    requires Wakers(s) && WakesOn(s, a) && t < |s.threads| && ThreadOk(s, t) && NoticedOk(s, t)
    ensures |WakesStep(s, a).threads| == |s.threads| && NoticedOk(WakesStep(s, a), t)
  {
    var x := s.threads[t];
    if a.Push? {
      PushNoticed(s, a.w, a.c, t);
    } else if a.Cas? {
      CasNoticed(s, a.w, t);
    } else if a.Mask? {
      MaskNoticed(s, a.w, t);
    } else if a.Tell? {
      TellNoticed(s, a.w, t);
    } else if x.place.Incoming? && WillMask(s, t, x.place.i) {
      var w :| Masks(s, w, t, x.place.i);
      assert WakerOk(s, w) && Masks(WakesStep(s, a), w, t, x.place.i);
    }
  }

  lemma WakesAwaited(s: State, a: Act, t: nat)
    requires Wakers(s) && WakesOn(s, a) && t < |s.threads| && AwaitedOk(s, t)
    ensures AwaitedOk(WakesStep(s, a), t)
  {
    var r := WakesStep(s, a);
    if a.Call? && a.t == t {
      assert r.wakers[s.nextWaker] == Waker(t, Calling, 0, false, 0);
    } else if WillWake(s, t) && !(a.Cas? && s.wakers[a.w].target == t) {
      var w :| w in s.wakers && s.wakers[w].stage == Calling && s.wakers[w].target == t;
      assert WakerOk(s, w) && w in r.wakers && r.wakers[w] == s.wakers[w];
    }
  }

  lemma LoopsDelivery(s: State, a: Act, t: nat)
    requires Cpus(s) && LoopsOn(s, a) && t < |s.threads| && NoticedOk(s, t) && AwaitedOk(s, t)
    ensures NoticedOk(LoopsStep(s, a), t) && AwaitedOk(LoopsStep(s, a), t)
  {
    assert LoopOk(s, a.c);
    assert LoopsStep(s, a).wakers == s.wakers && LoopsStep(s, a).threads == s.threads;
    if s.threads[t].place.Incoming? && WillMask(s, t, s.threads[t].place.i) {
      StillMasks(s, LoopsStep(s, a), t, s.threads[t].place.i);
    }
  }

  lemma CopyDelivery(s: State, a: Act, t: nat)
    requires Places(s) && CanCopy(s, a) && t < |s.threads|
    requires NoticedOk(s, t) && AwaitedOk(s, t)
    ensures NoticedOk(CopiesStep(s, a), t) && AwaitedOk(CopiesStep(s, a), t)
  {
    assert PlaceOk(s, a.c, t) && CopiesStep(s, a).wakers == s.wakers;
    if s.threads[t].place.Incoming? && WillMask(s, t, s.threads[t].place.i) {
      StillMasks(s, CopiesStep(s, a), t, s.threads[t].place.i);
    }
  }

  lemma MovesNoticed(s: State, r: State, more: bool, t: nat)
    requires t < |s.threads| && NoticedOk(s, t) && MovesRest(s, r, more) && MovesThread(s, r, more, t)
    ensures NoticedOk(r, t)
  {
    var x := s.threads[t];
    if x.place.Incoming? && WillMask(s, t, x.place.i) {
      StillMasks(s, r, t, x.place.i);
    }
  }

  lemma MovesAwaited(s: State, r: State, more: bool, t: nat)
    requires t < |s.threads| && AwaitedOk(s, t) && MovesRest(s, r, more) && MovesThread(s, r, more, t)
    ensures AwaitedOk(r, t)
  {
    if WillWake(s, t) {
      var w :| w in s.wakers && s.wakers[w].stage == Calling && s.wakers[w].target == t;
      assert r.wakers[w] == s.wakers[w];
    }
  }

  // A step of a thread changes no waker, and its new one is not bound to a CPU.
  lemma OwnWakers(s: State, a: Act)
    requires Wakers(s) && OwnOn(s, a)
    ensures forall w | w in s.wakers :: w in OwnStep(s, a).wakers && OwnStep(s, a).wakers[w] == s.wakers[w]
    ensures forall w | w in OwnStep(s, a).wakers && w !in s.wakers :: !Bound(OwnStep(s, a).wakers[w])
  {
    assert forall w | w in s.wakers :: WakerOk(s, w);
  }

  lemma OwnRest(s: State, a: Act)
    requires OwnOn(s, a)
    ensures var r := OwnStep(s, a); r.cpus == s.cpus && |r.threads| == |s.threads|
    ensures forall t: nat | t < |s.threads| && s.threads[t].status != Unstarted ::
              OwnStep(s, a).threads[t].cpu == s.threads[t].cpu
  {
  }

  lemma OwnHalt(s: State, a: Act, r: State, c: nat)
    requires Wakers(s) && OwnOn(s, a) && r == OwnStep(s, a) && c < |s.cpus| && HaltOk(s, c)
    ensures |r.cpus| == |s.cpus| && HaltOk(r, c)
  {
    OwnWakers(s, a);
    OwnRest(s, a);
    if WillTell(s, c) {
      StillTells(s, r, c);
    }
  }

  lemma CopyHalt(s: State, a: Act, c: nat)
    requires Wakers(s) && CanCopy(s, a) && c < |s.cpus| && HaltOk(s, c)
    ensures HaltOk(CopiesStep(s, a), c)
  {
    var r := CopiesStep(s, a);
    assert r.wakers == s.wakers && Handler(r, c) == Handler(s, c);
    if WillTell(s, c) {
      StillTells(s, r, c);
    }
  }

  lemma LoopsHalt(s: State, a: Act, c: nat)
    requires Wakers(s) && LoopsOn(s, a) && c < |s.cpus| && HaltOk(s, c)
    ensures HaltOk(LoopsStep(s, a), c)
  {
    assert LoopsStep(s, a).wakers == s.wakers && LoopsStep(s, a).threads == s.threads;
    assert Handler(LoopsStep(s, a), c) == Handler(s, c);
    if WillTell(s, c) {
      StillTells(s, LoopsStep(s, a), c);
    }
  }

  // A new handler is on a CPU that is open; no other appears.
  lemma WakesHandler(s: State, a: Act, c: nat)
    requires Wakers(s) && WakesOn(s, a) && c < |s.cpus| && IrqOff(s.cpus[c].idlePc)
    requires !Handler(s, c)
    ensures !Handler(WakesStep(s, a), c)
  {
    var r := WakesStep(s, a);
    forall w | w in r.wakers && Bound(r.wakers[w]) ensures r.wakers[w].cpu != c {
      if w in s.wakers {
        assert WakerOk(s, w);
      }
    }
  }

  lemma MaskHalt(s: State, w: nat, c: nat)
    requires Wakers(s) && WakesOn(s, Mask(w)) && c < |s.cpus| && IrqOff(s.cpus[c].idlePc) && HaltOk(s, c)
    ensures var r := MaskStep(s, w); r.cpus[c].mask == {} || r.cpus[c].ipi || WillTell(r, c)
  {
    var r := MaskStep(s, w);
    if WillTell(s, c) {
      var v :| Tells(s, v, c);
      assert v != w && Tells(r, v, c);
    } else if Dest(s, w) == c && s.cpus[c].mask == {} {
      assert Tells(r, w, c);
    }
  }

  lemma TellHalt(s: State, w: nat, c: nat)
    requires Cpus(s) && Wakers(s) && WakesOn(s, Tell(w)) && c < |s.cpus| && IrqOff(s.cpus[c].idlePc) && HaltOk(s, c)
    ensures var r := TellStep(s, w); r.cpus[c].mask == {} || r.cpus[c].ipi || WillTell(r, c)
  {
    var r := TellStep(s, w);
    assert LoopOk(s, c);
    if Dest(s, w) == c {
      assert s.wakers[w].cpu != c;
    } else if WillTell(s, c) {
      var v :| Tells(s, v, c);
      assert v != w && Tells(r, v, c);
    }
  }

  lemma StillHalts(s: State, a: Act, c: nat)
    requires Wakers(s) && WakesOn(s, a) && !a.Mask? && !a.Tell?
    requires c < |s.cpus| && IrqOff(s.cpus[c].idlePc) && HaltOk(s, c)
    ensures var r := WakesStep(s, a); |r.cpus| == |s.cpus| && (r.cpus[c].mask == {} || r.cpus[c].ipi || WillTell(r, c))
  {
    if WillTell(s, c) {
      var v :| Tells(s, v, c);
      assert WakerOk(s, v) && Tells(WakesStep(s, a), v, c);
    }
  }

  lemma WakesHalt(s: State, a: Act, c: nat)
    requires Cpus(s) && Wakers(s) && WakesOn(s, a) && c < |s.cpus| && HaltOk(s, c)
    ensures |WakesStep(s, a).cpus| == |s.cpus| && HaltOk(WakesStep(s, a), c)
  {
    if IrqOff(s.cpus[c].idlePc) {
      WakesHandler(s, a, c);
      if a.Mask? {
        MaskHalt(s, a.w, c);
      } else if a.Tell? {
        TellHalt(s, a.w, c);
      } else {
        StillHalts(s, a, c);
      }
    }
  }

  lemma MovesHalt(s: State, r: State, more: bool, c: nat)
    requires c < |s.cpus| && HaltOk(s, c) && MovesRest(s, r, more)
    requires forall w | w in r.wakers && w !in s.wakers :: r.wakers[w].cpu != c || !IrqOff(s.cpus[c].idlePc)
    requires forall t: nat | t < |s.threads| && s.threads[t].cpu == c ::
               r.threads[t].cpu == c || !IrqOff(s.cpus[c].idlePc)
    ensures HaltOk(r, c)
  {
    if IrqOff(s.cpus[c].idlePc) && WillTell(s, c) {
      var v :| Tells(s, v, c);
      assert Tells(r, v, c);
    }
  }

  // A thread changes its CPU only when its CPU's load balancer moves it.
  lemma DrainHalt(s: State, a: Act, c: nat)
    requires CanDrain(s, a) && c < |s.cpus| && HaltOk(s, c)
    ensures |DrainsStep(s, a).cpus| == |s.cpus| && HaltOk(DrainsStep(s, a), c)
  {
    DrainTheRest(s, a);
    MovesHalt(s, DrainsStep(s, a), false, c);
  }

  lemma DecideHalt(s: State, a: Act, c: nat)
    requires CanDecide(s, a) && c < |s.cpus| && HaltOk(s, c)
    ensures |DecideStep(s, a).cpus| == |s.cpus| && HaltOk(DecideStep(s, a), c)
  {
    DecideTheRest(s, a);
    MovesHalt(s, DecideStep(s, a), false, c);
  }

  lemma BalanceHalt(s: State, a: Act, c: nat)
    requires Places(s) && BalanceOn(s, a) && s.nextWaker !in s.wakers && c < |s.cpus| && HaltOk(s, c)
    ensures |BalanceStep(s, a).cpus| == |s.cpus| && HaltOk(BalanceStep(s, a), c)
  {
    var m := s.cpus[a.c].queue[a.k];
    assert m in s.cpus[a.c].queue && PlaceOk(s, a.c, m);
    BalanceTheRest(s, a);
    MovesHalt(s, BalanceStep(s, a), true, c);
  }

  // ---- every run ----

  /** A step that is enabled never meets an empty queue or a thread that does not exist. */
  lemma AlwaysSane(s: State, a: Act)
    requires Inv(s) && Enabled(s, a)
    ensures Sane(s, a)
  {
    if Drains(a) {
      DrainSane(s, a);
    } else if Copies(a) {
      assert LoopOk(s, a.c);
    } else if a.Decide? {
      DecideSane(s, a);
    }
  }

  lemma DrainSane(s: State, a: Act)
    requires Places(s) && DrainsOn(s, a)
    ensures CanDrain(s, a)
  {
    assert PlaceOk(s, a.c, a.t) && QueueOk(s, a.c);
  }

  lemma DecideSane(s: State, a: Act)
    requires Inv(s) && DecideOn(s, a)
    ensures CanDecide(s, a)
  {
    assert QueueOk(s, a.c);
    if !GoesOn(s, a.c, a.ran) {
      SwitchFinds(s, a.c, a.ran, a.borrowed);
    }
  }

  lemma NextIsNew(s: State)
    requires Wakers(s)
    ensures s.nextWaker !in s.wakers
  {
    assert s.nextWaker in s.wakers ==> WakerOk(s, s.nextWaker);
  }

  lemma OwnKeepsThreads(s: State, a: Act, r: State, t: nat)
    requires Inv(s) && OwnOn(s, a) && r == OwnStep(s, a) && t < |s.threads|
    ensures |r.threads| == |s.threads| && ThreadOk(r, t) && HeldOk(r, t) && NoticedOk(r, t) && AwaitedOk(r, t)
  {
    assert HeldOk(s, t) && NoticedOk(s, t) && AwaitedOk(s, t);
    OwnThread(s, a, t);
    OwnHeld(s, a, t);
    OwnDelivery(s, a, t);
  }

  lemma OwnKeepsCpus(s: State, a: Act, r: State, c: nat)
    requires Inv(s) && OwnOn(s, a) && r == OwnStep(s, a) && c < |s.cpus|
    ensures |r.cpus| == |s.cpus| && CpuOk(r, c) && LoopOk(r, c) && QueueOk(r, c) && HaltOk(r, c)
  {
    assert QueueOk(s, c) && HaltOk(s, c);
    OwnCpu(s, a, c);
    OwnQueue(s, a, c);
    OwnHalt(s, a, r, c);
  }

  lemma OwnKeepsPlaces(s: State, a: Act, r: State, c: nat, t: nat)
    requires Inv(s) && OwnOn(s, a) && r == OwnStep(s, a) && c < |s.cpus|
    ensures |r.cpus| == |s.cpus| && PlaceOk(r, c, t)
  {
    assert PlaceOk(s, c, t);
    OwnPlace(s, a, c, t);
  }

  lemma OwnKeepsWakers(s: State, a: Act, r: State, w: nat)
    requires Inv(s) && OwnOn(s, a) && r == OwnStep(s, a) && w in r.wakers
    ensures WakerOk(r, w)
  {
    OwnWaker(s, a, w);
  }

  lemma OwnKeeps(s: State, a: Act, r: State)
    requires Inv(s) && OwnOn(s, a) && r == OwnStep(s, a)
    ensures Inv(r)
  {
    assert |r.threads| == |s.threads| && |r.cpus| == |s.cpus|;
    forall t: nat | t < |r.threads| ensures ThreadOk(r, t) && HeldOk(r, t) && NoticedOk(r, t) && AwaitedOk(r, t) {
      OwnKeepsThreads(s, a, r, t);
    }
    forall c: nat | c < |r.cpus| ensures CpuOk(r, c) && LoopOk(r, c) && QueueOk(r, c) && HaltOk(r, c) {
      OwnKeepsCpus(s, a, r, c);
    }
    forall c: nat, t: nat | c < |r.cpus| ensures PlaceOk(r, c, t) {
      OwnKeepsPlaces(s, a, r, c, t);
    }
    forall w | w in r.wakers ensures WakerOk(r, w) {
      OwnKeepsWakers(s, a, r, w);
    }
  }

  lemma WakesKeepsThreads(s: State, a: Act, r: State, t: nat)
    requires Inv(s) && WakesOn(s, a) && r == WakesStep(s, a) && t < |s.threads|
    ensures |r.threads| == |s.threads| && ThreadOk(r, t) && HeldOk(r, t) && NoticedOk(r, t) && AwaitedOk(r, t)
  {
    assert HeldOk(s, t) && NoticedOk(s, t) && AwaitedOk(s, t);
    WakesThread(s, a, t);
    WakesHeld(s, a, t);
    WakesNoticed(s, a, t);
    WakesAwaited(s, a, t);
  }

  lemma WakesKeepsCpus(s: State, a: Act, r: State, c: nat)
    requires Inv(s) && WakesOn(s, a) && r == WakesStep(s, a) && c < |s.cpus|
    ensures |r.cpus| == |s.cpus| && CpuOk(r, c) && LoopOk(r, c) && QueueOk(r, c) && HaltOk(r, c)
  {
    assert QueueOk(s, c) && HaltOk(s, c);
    WakesCpu(s, a, c);
    WakesLoop(s, a, c);
    WakesQueue(s, a, c);
    WakesHalt(s, a, c);
  }

  lemma WakesKeepsPlaces(s: State, a: Act, r: State, c: nat, t: nat)
    requires Inv(s) && WakesOn(s, a) && r == WakesStep(s, a) && c < |s.cpus|
    ensures |r.cpus| == |s.cpus| && PlaceOk(r, c, t)
  {
    assert PlaceOk(s, c, t);
    if a.Push? {
      PushPlace(s, a.w, a.c, c, t);
    } else {
      WakesPlace(s, a, c, t);
    }
  }

  lemma WakesKeepsWakers(s: State, a: Act, r: State, w: nat)
    requires Inv(s) && WakesOn(s, a) && r == WakesStep(s, a) && w in r.wakers
    ensures WakerOk(r, w)
  {
    WakesWaker(s, a, w);
  }

  lemma WakesKeeps(s: State, a: Act, r: State)
    requires Inv(s) && WakesOn(s, a) && r == WakesStep(s, a)
    ensures Inv(r)
  {
    assert |r.threads| == |s.threads| && |r.cpus| == |s.cpus|;
    forall t: nat | t < |r.threads| ensures ThreadOk(r, t) && HeldOk(r, t) && NoticedOk(r, t) && AwaitedOk(r, t) {
      WakesKeepsThreads(s, a, r, t);
    }
    forall c: nat | c < |r.cpus| ensures CpuOk(r, c) && LoopOk(r, c) && QueueOk(r, c) && HaltOk(r, c) {
      WakesKeepsCpus(s, a, r, c);
    }
    forall c: nat, t: nat | c < |r.cpus| ensures PlaceOk(r, c, t) {
      WakesKeepsPlaces(s, a, r, c, t);
    }
    forall w | w in r.wakers ensures WakerOk(r, w) {
      WakesKeepsWakers(s, a, r, w);
    }
  }

  lemma LoopsKeepsThreads(s: State, a: Act, r: State, t: nat)
    requires Inv(s) && LoopsOn(s, a) && r == LoopsStep(s, a) && t < |s.threads|
    ensures |r.threads| == |s.threads| && ThreadOk(r, t) && HeldOk(r, t) && NoticedOk(r, t) && AwaitedOk(r, t)
  {
    assert HeldOk(s, t) && NoticedOk(s, t) && AwaitedOk(s, t);
    LoopsThread(s, a, t);
    LoopsDelivery(s, a, t);
  }

  lemma LoopsKeepsCpus(s: State, a: Act, r: State, c: nat)
    requires Inv(s) && LoopsOn(s, a) && r == LoopsStep(s, a) && c < |s.cpus|
    ensures |r.cpus| == |s.cpus| && CpuOk(r, c) && LoopOk(r, c) && QueueOk(r, c) && HaltOk(r, c)
  {
    assert QueueOk(s, c) && HaltOk(s, c);
    LoopsCpu(s, a, c);
    LoopsQueue(s, a, c);
    LoopsHalt(s, a, c);
  }

  lemma LoopsKeepsPlaces(s: State, a: Act, r: State, c: nat, t: nat)
    requires Inv(s) && LoopsOn(s, a) && r == LoopsStep(s, a) && c < |s.cpus|
    ensures |r.cpus| == |s.cpus| && PlaceOk(r, c, t)
  {
    assert PlaceOk(s, c, t);
    LoopsPlace(s, a, c, t);
  }

  lemma LoopsKeepsWakers(s: State, a: Act, r: State, w: nat)
    requires Inv(s) && LoopsOn(s, a) && r == LoopsStep(s, a) && w in r.wakers
    ensures WakerOk(r, w)
  {
    assert WakerOk(s, w);
    LoopsWaker(s, a, w);
  }

  lemma LoopsKeeps(s: State, a: Act, r: State)
    requires Inv(s) && LoopsOn(s, a) && r == LoopsStep(s, a)
    ensures Inv(r)
  {
    assert |r.threads| == |s.threads| && |r.cpus| == |s.cpus|;
    forall t: nat | t < |r.threads| ensures ThreadOk(r, t) && HeldOk(r, t) && NoticedOk(r, t) && AwaitedOk(r, t) {
      LoopsKeepsThreads(s, a, r, t);
    }
    forall c: nat | c < |r.cpus| ensures CpuOk(r, c) && LoopOk(r, c) && QueueOk(r, c) && HaltOk(r, c) {
      LoopsKeepsCpus(s, a, r, c);
    }
    forall c: nat, t: nat | c < |r.cpus| ensures PlaceOk(r, c, t) {
      LoopsKeepsPlaces(s, a, r, c, t);
    }
    forall w | w in r.wakers ensures WakerOk(r, w) {
      LoopsKeepsWakers(s, a, r, w);
    }
  }

  lemma CopyKeepsThreads(s: State, a: Act, r: State, t: nat)
    requires Inv(s) && CanCopy(s, a) && r == CopiesStep(s, a) && t < |s.threads|
    ensures |r.threads| == |s.threads| && ThreadOk(r, t) && HeldOk(r, t) && NoticedOk(r, t) && AwaitedOk(r, t)
  {
    assert HeldOk(s, t) && NoticedOk(s, t) && AwaitedOk(s, t);
    CopyThread(s, a, t);
    CopyHeld(s, a, t);
    CopyDelivery(s, a, t);
  }

  lemma CopyKeepsCpus(s: State, a: Act, r: State, c: nat)
    requires Inv(s) && CanCopy(s, a) && r == CopiesStep(s, a) && c < |s.cpus|
    ensures |r.cpus| == |s.cpus| && CpuOk(r, c) && LoopOk(r, c) && QueueOk(r, c) && HaltOk(r, c)
  {
    assert QueueOk(s, c) && HaltOk(s, c);
    CopyCpu(s, a, c);
    CopyQueue(s, a, c);
    CopyHalt(s, a, c);
  }

  lemma CopyKeepsPlaces(s: State, a: Act, r: State, c: nat, t: nat)
    requires Inv(s) && CanCopy(s, a) && r == CopiesStep(s, a) && c < |s.cpus|
    ensures |r.cpus| == |s.cpus| && PlaceOk(r, c, t)
  {
    assert PlaceOk(s, c, t);
    CopyPlace(s, a, c, t);
  }

  lemma CopyKeepsWakers(s: State, a: Act, r: State, w: nat)
    requires Inv(s) && CanCopy(s, a) && r == CopiesStep(s, a) && w in r.wakers
    ensures WakerOk(r, w)
  {
    assert WakerOk(s, w);
    CopyWaker(s, a, w);
  }

  lemma CopyKeeps(s: State, a: Act, r: State)
    requires Inv(s) && CanCopy(s, a) && r == CopiesStep(s, a)
    ensures Inv(r)
  {
    assert |r.threads| == |s.threads| && |r.cpus| == |s.cpus|;
    forall t: nat | t < |r.threads| ensures ThreadOk(r, t) && HeldOk(r, t) && NoticedOk(r, t) && AwaitedOk(r, t) {
      CopyKeepsThreads(s, a, r, t);
    }
    forall c: nat | c < |r.cpus| ensures CpuOk(r, c) && LoopOk(r, c) && QueueOk(r, c) && HaltOk(r, c) {
      CopyKeepsCpus(s, a, r, c);
    }
    forall c: nat, t: nat | c < |r.cpus| ensures PlaceOk(r, c, t) {
      CopyKeepsPlaces(s, a, r, c, t);
    }
    forall w | w in r.wakers ensures WakerOk(r, w) {
      CopyKeepsWakers(s, a, r, w);
    }
  }

  lemma DrainKeepsThreads(s: State, a: Act, r: State, t: nat)
    requires Inv(s) && CanDrain(s, a) && r == DrainsStep(s, a) && t < |s.threads|
    ensures |r.threads| == |s.threads| && ThreadOk(r, t) && HeldOk(r, t) && NoticedOk(r, t) && AwaitedOk(r, t)
  {
    assert HeldOk(s, t) && NoticedOk(s, t) && AwaitedOk(s, t);
    DrainThread(s, a, t);
    DrainMoves(s, a, t);
    DrainTheRest(s, a);
    MovesHeld(s, r, t);
    MovesNoticed(s, r, false, t);
    MovesAwaited(s, r, false, t);
  }

  lemma DrainKeepsCpus(s: State, a: Act, r: State, c: nat)
    requires Inv(s) && CanDrain(s, a) && r == DrainsStep(s, a) && c < |s.cpus|
    ensures |r.cpus| == |s.cpus| && CpuOk(r, c) && LoopOk(r, c) && QueueOk(r, c) && HaltOk(r, c)
  {
    assert QueueOk(s, c) && HaltOk(s, c);
    DrainCpu(s, a, c);
    DrainLoop(s, a, c);
    DrainQueue(s, a, c);
    DrainHalt(s, a, c);
  }

  lemma DrainKeepsPlaces(s: State, a: Act, r: State, c: nat, t: nat)
    requires Inv(s) && CanDrain(s, a) && r == DrainsStep(s, a) && c < |s.cpus|
    ensures |r.cpus| == |s.cpus| && PlaceOk(r, c, t)
  {
    assert PlaceOk(s, c, t);
    if a.DrainOne? {
      DrainPlace(s, a, c, t);
    } else {
      IdlePlace(s, a, c, t);
    }
  }

  lemma DrainKeepsWakers(s: State, a: Act, r: State, w: nat)
    requires Inv(s) && CanDrain(s, a) && r == DrainsStep(s, a) && w in r.wakers
    ensures WakerOk(r, w)
  {
    DrainTheRest(s, a);
    assert w in s.wakers && WakerOk(s, w);
    DrainMoves(s, a, s.wakers[w].target);
    MovesWaker(s, r, false, w);
  }

  lemma DrainKeeps(s: State, a: Act, r: State)
    requires Inv(s) && CanDrain(s, a) && r == DrainsStep(s, a)
    ensures Inv(r)
  {
    assert |r.threads| == |s.threads| && |r.cpus| == |s.cpus|;
    forall t: nat | t < |r.threads| ensures ThreadOk(r, t) && HeldOk(r, t) && NoticedOk(r, t) && AwaitedOk(r, t) {
      DrainKeepsThreads(s, a, r, t);
    }
    forall c: nat | c < |r.cpus| ensures CpuOk(r, c) && LoopOk(r, c) && QueueOk(r, c) && HaltOk(r, c) {
      DrainKeepsCpus(s, a, r, c);
    }
    forall c: nat, t: nat | c < |r.cpus| ensures PlaceOk(r, c, t) {
      DrainKeepsPlaces(s, a, r, c, t);
    }
    forall w | w in r.wakers ensures WakerOk(r, w) {
      DrainKeepsWakers(s, a, r, w);
    }
  }

  lemma DecideKeepsThreads(s: State, a: Act, r: State, t: nat)
    requires Inv(s) && CanDecide(s, a) && r == DecideStep(s, a) && t < |s.threads|
    ensures |r.threads| == |s.threads| && ThreadOk(r, t) && HeldOk(r, t) && NoticedOk(r, t) && AwaitedOk(r, t)
  {
    assert HeldOk(s, t) && NoticedOk(s, t) && AwaitedOk(s, t);
    DecideThread(s, a, t);
    DecideMoves(s, a, t);
    DecideTheRest(s, a);
    MovesHeld(s, r, t);
    MovesNoticed(s, r, false, t);
    MovesAwaited(s, r, false, t);
  }

  lemma DecideKeepsCpus(s: State, a: Act, r: State, c: nat)
    requires Inv(s) && CanDecide(s, a) && r == DecideStep(s, a) && c < |s.cpus|
    ensures |r.cpus| == |s.cpus| && CpuOk(r, c) && LoopOk(r, c) && QueueOk(r, c) && HaltOk(r, c)
  {
    assert QueueOk(s, c) && HaltOk(s, c);
    DecideCpu(s, a, c);
    DecideLoop(s, a, c);
    if GoesOn(s, a.c, a.ran) {
      GoesOnPlaces(s, a, c, 0);
    } else {
      DecidePlaces(s, a, c, 0);
    }
    DecideHalt(s, a, c);
  }

  lemma DecideKeepsPlaces(s: State, a: Act, r: State, c: nat, t: nat)
    requires Inv(s) && CanDecide(s, a) && r == DecideStep(s, a) && c < |s.cpus|
    ensures |r.cpus| == |s.cpus| && PlaceOk(r, c, t)
  {
    assert PlaceOk(s, c, t);
    if GoesOn(s, a.c, a.ran) {
      GoesOnPlaces(s, a, c, t);
    } else {
      DecidePlaces(s, a, c, t);
    }
  }

  lemma DecideKeepsWakers(s: State, a: Act, r: State, w: nat)
    requires Inv(s) && CanDecide(s, a) && r == DecideStep(s, a) && w in r.wakers
    ensures WakerOk(r, w)
  {
    DecideTheRest(s, a);
    assert w in s.wakers && WakerOk(s, w);
    DecideMoves(s, a, s.wakers[w].target);
    MovesWaker(s, r, false, w);
  }

  lemma DecideKeeps(s: State, a: Act, r: State)
    requires Inv(s) && CanDecide(s, a) && r == DecideStep(s, a)
    ensures Inv(r)
  {
    assert |r.threads| == |s.threads| && |r.cpus| == |s.cpus|;
    forall t: nat | t < |r.threads| ensures ThreadOk(r, t) && HeldOk(r, t) && NoticedOk(r, t) && AwaitedOk(r, t) {
      DecideKeepsThreads(s, a, r, t);
    }
    forall c: nat | c < |r.cpus| ensures CpuOk(r, c) && LoopOk(r, c) && QueueOk(r, c) && HaltOk(r, c) {
      DecideKeepsCpus(s, a, r, c);
    }
    forall c: nat, t: nat | c < |r.cpus| ensures PlaceOk(r, c, t) {
      DecideKeepsPlaces(s, a, r, c, t);
    }
    forall w | w in r.wakers ensures WakerOk(r, w) {
      DecideKeepsWakers(s, a, r, w);
    }
  }

  lemma BalanceKeepsThreads(s: State, a: Act, r: State, t: nat)
    requires Inv(s) && BalanceOn(s, a) && r == BalanceStep(s, a) && t < |s.threads|
    ensures |r.threads| == |s.threads| && ThreadOk(r, t) && HeldOk(r, t) && NoticedOk(r, t) && AwaitedOk(r, t)
  {
    assert HeldOk(s, t) && NoticedOk(s, t) && AwaitedOk(s, t);
    NextIsNew(s);
    BalanceThread(s, a, t);
    BalanceMoves(s, a, t);
    BalanceTheRest(s, a);
    BalanceHolds(s, a, t);
    MovesNoticed(s, r, true, t);
    MovesAwaited(s, r, true, t);
  }

  lemma BalanceKeepsCpus(s: State, a: Act, r: State, c: nat)
    requires Inv(s) && BalanceOn(s, a) && r == BalanceStep(s, a) && c < |s.cpus|
    ensures |r.cpus| == |s.cpus| && CpuOk(r, c) && LoopOk(r, c) && QueueOk(r, c) && HaltOk(r, c)
  {
    assert QueueOk(s, c) && HaltOk(s, c);
    NextIsNew(s);
    BalanceCpu(s, a, c);
    BalanceQueue(s, a, c);
    BalanceHalt(s, a, c);
  }

  lemma BalanceKeepsPlaces(s: State, a: Act, r: State, c: nat, t: nat)
    requires Inv(s) && BalanceOn(s, a) && r == BalanceStep(s, a) && c < |s.cpus|
    ensures |r.cpus| == |s.cpus| && PlaceOk(r, c, t)
  {
    assert PlaceOk(s, c, t);
    BalancePlace(s, a, c, t);
  }

  lemma BalanceKeepsWakers(s: State, a: Act, r: State, w: nat)
    requires Inv(s) && BalanceOn(s, a) && r == BalanceStep(s, a) && w in r.wakers
    ensures WakerOk(r, w)
  {
    NextIsNew(s);
    BalanceTheRest(s, a);
    if w in s.wakers {
      assert WakerOk(s, w);
      BalanceMoves(s, a, s.wakers[w].target);
      MovesWaker(s, r, true, w);
    } else {
      BalanceWaker(s, a);
    }
  }

  lemma BalanceKeeps(s: State, a: Act, r: State)
    requires Inv(s) && BalanceOn(s, a) && r == BalanceStep(s, a)
    ensures Inv(r)
  {
    assert |r.threads| == |s.threads| && |r.cpus| == |s.cpus|;
    forall t: nat | t < |r.threads| ensures ThreadOk(r, t) && HeldOk(r, t) && NoticedOk(r, t) && AwaitedOk(r, t) {
      BalanceKeepsThreads(s, a, r, t);
    }
    forall c: nat | c < |r.cpus| ensures CpuOk(r, c) && LoopOk(r, c) && QueueOk(r, c) && HaltOk(r, c) {
      BalanceKeepsCpus(s, a, r, c);
    }
    forall c: nat, t: nat | c < |r.cpus| ensures PlaceOk(r, c, t) {
      BalanceKeepsPlaces(s, a, r, c, t);
    }
    forall w | w in r.wakers ensures WakerOk(r, w) {
      BalanceKeepsWakers(s, a, r, w);
    }
  }

  lemma KeepInv(s: State, a: Act)
    requires Inv(s) && Enabled(s, a)
    ensures Sane(s, a) && Inv(Apply(s, a))
  {
    AlwaysSane(s, a);
    var r := Apply(s, a);
    if Own(a) {
      OwnKeeps(s, a, r);
    } else if Wakes(a) {
      WakesKeeps(s, a, r);
    } else if Loops(a) {
      LoopsKeeps(s, a, r);
    } else if Copies(a) {
      CopyKeeps(s, a, r);
    } else if Drains(a) {
      DrainKeeps(s, a, r);
    } else if a.Decide? {
      DecideKeeps(s, a, r);
    } else {
      BalanceKeeps(s, a, r);
    }
  }

  lemma InitInv(s: State)
    requires Init(s)
    ensures Inv(s)
  {
    assert forall t: nat | t < |s.threads| :: ThreadOk(s, t);
  }

  lemma {:induction false} RunInv(tr: seq<State>, i: nat)
    requires Run(tr) && i < |tr|
    ensures Inv(tr[i])
  {
    if i == 0 {
      InitInv(tr[0]);
    } else {
      RunInv(tr, i - 1);
      assert Step(tr[i - 1], tr[i - 1 + 1]);
      var a :| Enabled(tr[i - 1], a) && Sane(tr[i - 1], a) && tr[i] == Apply(tr[i - 1], a);
      KeepInv(tr[i - 1], a);
    }
  }

  // ---- what it means ----

  /** None of the assertions in the scheduler fails: the thread that waits was running, the one
      that stops waiting runs, the outgoing one is not queued and the migrated one is. */
  lemma AssertionsHold(s: State, t: nat, c: nat)
    requires Inv(s)
    ensures Runs(s, t) && s.threads[t].pc == Free ==> s.threads[t].status == Running
    ensures Enabled(s, Leave(t)) ==> s.threads[t].status == Running
    ensures c < |s.cpus| ==> s.cpus[c].current < |s.threads| && s.threads[s.cpus[c].current].status != Queued
    ensures forall k: nat, d: nat | Enabled(s, Balance(c, k, d)) :: s.threads[s.cpus[c].queue[k]].status == Queued
  {
    if t < |s.threads| {
      assert ThreadOk(s, t);
    }
    if c < |s.cpus| {
      assert CpuOk(s, c);
    }
    forall k: nat, d: nat | Enabled(s, Balance(c, k, d)) ensures s.threads[s.cpus[c].queue[k]].status == Queued {
      var m := s.cpus[c].queue[k];
      assert m in s.cpus[c].queue && PlaceOk(s, c, m) && ThreadOk(s, m);
    }
  }

  // What a thread's status says about where it is.
  ghost predicate InItsPlace(s: State, t: nat)
    requires t < |s.threads|
  {
    var x := s.threads[t];
    && (x.status == Running ==> IsCurrent(s, t))
    && (x.status == Queued <==> x.place == OnQueue) && (x.status == Waking <==> InTransit(x.place))
    && (x.place.Held? ==> x.place.w in s.wakers && s.wakers[x.place.w].target == t)
  }

  ghost predicate HaltedIdle(s: State, c: nat)
    requires c < |s.cpus|
  {
    var x := s.cpus[c];
    x.idlePc == Halted ==>
      && x.queue == [] && x.sched.NoDrain? && x.idleDrain.NoDrain?
      && (x.mask == {} || x.ipi || WillTell(s, c))
  }

  // A thread queued for a halted CPU: its bit is about to be set, or the interrupt is on its way.
  ghost predicate HaltedHears(s: State, t: nat)
    requires t < |s.threads|
  {
    var x := s.threads[t];
    x.place.Incoming? && x.cpu < |s.cpus| && s.cpus[x.cpu].idlePc == Halted ==>
      || WillMask(s, t, x.place.i)
      || (x.place.i in s.cpus[x.cpu].mask && (s.cpus[x.cpu].ipi || WillTell(s, x.cpu)))
  }

  /** In every state of every run: each thread is in the one structure that fits its status and in no
      other; a thread asleep on a predicate that holds has a wake() on its way; a thread in an
      incoming queue is noticed; and a halted CPU has nothing to run, and no bit set in its mask
      unless its interrupt is pending or a waker has yet to decide on it. So a thread queued for a
      halted CPU is one whose waker has yet to set the bit, or the interrupt is on its way. */
  lemma SchedulerIsCorrect(tr: seq<State>, i: nat)
    requires Run(tr) && i < |tr|
    ensures forall t: nat | t < |tr[i].threads| :: InItsPlace(tr[i], t) && NoticedOk(tr[i], t) && AwaitedOk(tr[i], t)
    ensures forall c: nat, t: nat | c < |tr[i].cpus| :: PlaceOk(tr[i], c, t)
    ensures forall c: nat | c < |tr[i].cpus| :: HaltedIdle(tr[i], c)
    ensures forall t: nat | t < |tr[i].threads| :: HaltedHears(tr[i], t)
    ensures forall a | Enabled(tr[i], a) :: Sane(tr[i], a)
  {
    var s := tr[i];
    RunInv(tr, i);
    forall t: nat | t < |s.threads| ensures InItsPlace(s, t) {
      assert ThreadOk(s, t) && HeldOk(s, t);
    }
    forall c: nat | c < |s.cpus| ensures HaltedIdle(s, c) {
      assert HaltOk(s, c) && LoopOk(s, c);
    }
    forall t: nat | t < |s.threads| ensures HaltedHears(s, t) {
      assert NoticedOk(s, t);
      assert s.threads[t].cpu < |s.cpus| ==> HaltedIdle(s, s.threads[t].cpu);
    }
    forall a | Enabled(s, a) ensures Sane(s, a) {
      AlwaysSane(s, a);
    }
  }

  // ---- the polling flag ----

  // Another thread runs, while the flag says that the idle thread polls.
  predicate StalePoll(x: Cpu) { x.poll && x.current != x.idle }

  // The idle thread is switched out between idle_poll_start() and idle_poll_end().
  ghost predicate Preempts(s: State, a: Act, c: nat)
    requires c < |s.cpus| && Enabled(s, a) && Sane(s, a)
  {
    && a.Decide? && a.c == c && !GoesOn(s, c, a.ran)
    && s.cpus[c].current == s.cpus[c].idle && s.cpus[c].idlePc in {Polling, PollDrain}
  }

  lemma DecideStales(s: State, c: nat, a: Act)
    requires Inv(s) && c < |s.cpus| && CanDecide(s, a) && !StalePoll(s.cpus[c])
    ensures |DecideStep(s, a).cpus| == |s.cpus| && (StalePoll(DecideStep(s, a).cpus[c]) <==> Preempts(s, a, c))
  {
    assert LoopOk(s, c);
    if !GoesOn(s, a.c, a.ran) {
      SwitchFinds(s, a.c, a.ran, a.borrowed);
    }
  }

  lemma OwnNoStale(s: State, c: nat, a: Act)
    requires c < |s.cpus| && (Own(a) || Wakes(a)) && Enabled(s, a) && Sane(s, a) && !StalePoll(s.cpus[c])
    ensures |Apply(s, a).cpus| == |s.cpus| && !StalePoll(Apply(s, a).cpus[c])
  {
  }

  lemma LoopsNoStale(s: State, c: nat, a: Act)
    requires c < |s.cpus| && LoopsOn(s, a) && !StalePoll(s.cpus[c])
    ensures |LoopsStep(s, a).cpus| == |s.cpus| && !StalePoll(LoopsStep(s, a).cpus[c])
  {
  }

  lemma DrainNoStale(s: State, c: nat, a: Act)
    requires c < |s.cpus| && CanDrain(s, a) && !StalePoll(s.cpus[c])
    ensures |DrainsStep(s, a).cpus| == |s.cpus| && !StalePoll(DrainsStep(s, a).cpus[c])
  {
  }

  lemma ElseNoStale(s: State, c: nat, a: Act)
    requires c < |s.cpus| && !a.Decide? && !Own(a) && !Wakes(a) && Enabled(s, a) && Sane(s, a) && !StalePoll(s.cpus[c])
    ensures |Apply(s, a).cpus| == |s.cpus| && !StalePoll(Apply(s, a).cpus[c])
  {
    if Loops(a) {
      LoopsNoStale(s, c, a);
    } else if Drains(a) {
      DrainNoStale(s, c, a);
    }
  }

  lemma StaleStep(s: State, c: nat, a: Act)
    requires Inv(s) && c < |s.cpus| && Enabled(s, a) && Sane(s, a) && !StalePoll(s.cpus[c])
    ensures |Apply(s, a).cpus| == |s.cpus| && (StalePoll(Apply(s, a).cpus[c]) <==> Preempts(s, a, c))
  {
    if a.Decide? {
      DecideStales(s, c, a);
    } else if Own(a) || Wakes(a) {
      OwnNoStale(s, c, a);
    } else {
      ElseNoStale(s, c, a);
    }
  }

  /** In every run: the flag is stale if and only if another thread runs and the idle loop is between
      setting it and clearing it; and a step makes it so if and only if it switches the idle thread
      out there. */
  lemma PollStaysSet(tr: seq<State>, i: nat, c: nat)
    requires Run(tr) && i < |tr| && c < |tr[i].cpus|
    ensures StalePoll(tr[i].cpus[c]) <==>
            tr[i].cpus[c].current != tr[i].cpus[c].idle && tr[i].cpus[c].idlePc in {Polling, PollDrain}
    ensures !StalePoll(tr[i].cpus[c]) ==>
              forall a | Enabled(tr[i], a) && Sane(tr[i], a) ::
                && |Apply(tr[i], a).cpus| == |tr[i].cpus|
                && (StalePoll(Apply(tr[i], a).cpus[c]) <==> Preempts(tr[i], a, c))
  {
    RunInv(tr, i);
    assert LoopOk(tr[i], c);
    if !StalePoll(tr[i].cpus[c]) {
      forall a | Enabled(tr[i], a) && Sane(tr[i], a)
        ensures |Apply(tr[i], a).cpus| == |tr[i].cpus|
        ensures (StalePoll(Apply(tr[i], a).cpus[c]) <==> Preempts(tr[i], a, c))
      {
        StaleStep(tr[i], c, a);
      }
    }
  }

  /** A waker on any CPU then sends no interrupt. */
  lemma StaleSendsNone(s: State, c: nat, w: nat)
    requires c < |s.cpus| && StalePoll(s.cpus[c]) && Enabled(s, Tell(w)) && Sane(s, Tell(w)) && Dest(s, w) == c
    ensures Apply(s, Tell(w)).cpus == s.cpus
  {
  }

  // A run in which it happens, on one CPU with thread 1 beside the idle thread.

  lemma Then(tr: seq<State>, a: Act) returns (to: seq<State>)
    requires Run(tr) && Enabled(tr[|tr| - 1], a) && Sane(tr[|tr| - 1], a)
    ensures Run(to) && tr <= to && to[|to| - 1] == Apply(tr[|tr| - 1], a)
  {
    to := tr + [Apply(tr[|tr| - 1], a)];
    forall i | 0 <= i < |to| - 1 ensures Step(to[i], to[i + 1]) {
      if i < |tr| - 1 {
        assert Step(tr[i], tr[i + 1]);
      }
    }
  }

  // The idle thread polls; thread 1 is started, and its waker is at the given stage.
  ghost predicate WakingOne(s: State, x: Thread, incoming: set<nat>, mask: set<nat>, wakers: map<nat, Waker>) {
    && |s.threads| == 2 && s.threads[0] == Thread(Running, 0, Free, 0, false, Nowhere) && s.threads[1] == x
    && s.wakers == wakers && |s.cpus| == 1 && |s.cpus[0].incoming| == 1 && s.cpus[0].incoming[0] == incoming
    && s.cpus[0] == Cpu(0, 0, [], s.cpus[0].incoming, mask, true, false, NoDrain, Polling, NoDrain)
  }

  lemma StartOne(s: State) returns (tr: seq<State>, x: Thread, w: nat)
    requires Init(s) && |s.cpus| == 1 && |s.threads| == 2
    ensures Run(tr) && tr[0] == s && x.cpu == 0 && x.pc == Free && x.status == Waiting && x.place == Nowhere
    ensures WakingOne(tr[|tr| - 1], x, {}, {}, map[w := Waker(1, Calling, 0, false, 0)])
  {
    w := s.nextWaker;
    tr := Then([s], PollOn(0));
    tr := Then(tr, Start(1, 0));
    x := tr[|tr| - 1].threads[1];
  }

  lemma CasOne(s: State, x: Thread, w: nat)
    requires x.status == Waiting && WakingOne(s, x, {}, {}, map[w := Waker(1, Calling, 0, false, 0)])
    ensures Enabled(s, Cas(w)) && Sane(s, Cas(w))
    ensures WakingOne(Apply(s, Cas(w)), x.(status := Waking, place := Held(w)), {}, {},
                      map[w := Waker(1, Holding, 0, false, 0)])
  {
  }

  lemma PushOne(s: State, x: Thread, w: nat)
    requires x.cpu == 0 && WakingOne(s, x, {}, {}, map[w := Waker(1, Holding, 0, false, 0)])
    ensures Enabled(s, Push(w, 0)) && Sane(s, Push(w, 0))
    ensures WakingOne(Apply(s, Push(w, 0)), x.(place := Incoming(0)), {1}, {}, map[w := Waker(1, Pushed, 0, false, 0)])
  {
  }

  lemma QueueOne(tr: seq<State>, x: Thread, w: nat) returns (to: seq<State>)
    requires Run(tr) && x.cpu == 0 && x.pc == Free && x.status == Waiting && x.place == Nowhere
    requires WakingOne(tr[|tr| - 1], x, {}, {}, map[w := Waker(1, Calling, 0, false, 0)])
    ensures Run(to) && tr <= to
    ensures WakingOne(to[|to| - 1], x.(status := Waking, place := Incoming(0)), {1}, {},
                      map[w := Waker(1, Pushed, 0, false, 0)])
  {
    CasOne(tr[|tr| - 1], x, w);
    to := Then(tr, Cas(w));
    PushOne(to[|to| - 1], x.(status := Waking, place := Held(w)), w);
    to := Then(to, Push(w, 0));
  }

  lemma NoticeOne(tr: seq<State>, x: Thread, w: nat) returns (to: seq<State>)
    requires Run(tr) && x.cpu == 0
    requires WakingOne(tr[|tr| - 1], x, {1}, {}, map[w := Waker(1, Pushed, 0, false, 0)])
    ensures Run(to) && tr <= to && WakingOne(to[|to| - 1], x, {1}, {0}, map[])
  {
    to := Then(tr, Mask(w));
    to := Then(to, Tell(w));
  }

  // The CPU reschedules: it is draining thread 1, or has queued it.
  ghost predicate Draining(s: State, queue: seq<nat>, local: set<nat>) {
    && |s.threads| == 2 && s.threads[0] == Thread(Running, 0, Free, 0, false, Nowhere)
    && (queue == [1] ==> s.threads[1].rt == 0) && |s.cpus| == 1
    && s.cpus[0] == Cpu(0, 0, queue, s.cpus[0].incoming, {}, true, false, Drain({}, local), Polling, NoDrain)
  }

  lemma EnterOne(tr: seq<State>, x: Thread) returns (to: seq<State>)
    requires Run(tr) && x.cpu == 0 && WakingOne(tr[|tr| - 1], x, {1}, {0}, map[])
    ensures Run(to) && tr <= to && Draining(to[|to| - 1], [], {1})
  {
    to := Then(tr, Enter(0));
    assert to[|to| - 1].cpus[0].sched == Drain({0}, {}) && {0} - {0} == {};
    to := Then(to, Copy(0, 0));
  }

  lemma DrainIt(s: State)
    requires Draining(s, [], {1})
    ensures Enabled(s, DrainOne(0, 1, 0)) && Sane(s, DrainOne(0, 1, 0))
    ensures Draining(Apply(s, DrainOne(0, 1, 0)), [1], {})
  {
    assert {1} - {1} == {} && [1] + [] == [1];
    assert Apply(s, DrainOne(0, 1, 0)).cpus[0].queue == [1];
  }

  /** On one CPU, with one thread beside the idle thread: it is woken on the CPU that polls, and runs. */
  lemma PollPreempted(s: State) returns (tr: seq<State>)
    requires Init(s) && |s.cpus| == 1 && |s.threads| == 2
    ensures Run(tr) && tr[0] == s && |tr[|tr| - 1].cpus| == 1 && StalePoll(tr[|tr| - 1].cpus[0])
  {
    var x, w;
    tr, x, w := StartOne(s);
    tr := QueueOne(tr, x, w);
    x := x.(status := Waking, place := Incoming(0));
    tr := NoticeOne(tr, x, w);
    tr := EnterOne(tr, x);
    DrainIt(tr[|tr| - 1]);
    tr := Then(tr, DrainOne(0, 1, 0));
    SwitchOne(tr[|tr| - 1]);
    tr := Then(tr, Decide(0, 0, 0, 0));
  }

  lemma SwitchOne(s: State)
    requires Draining(s, [1], {})
    ensures Enabled(s, Decide(0, 0, 0, 0)) && Sane(s, Decide(0, 0, 0, 0))
    ensures |Apply(s, Decide(0, 0, 0, 0)).cpus| == 1 && StalePoll(Apply(s, Decide(0, 0, 0, 0)).cpus[0])
  {
  }
}
