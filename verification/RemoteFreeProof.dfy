/** What every run of freeing on another CPU keeps, and when the worker comes. */
module RemoteFreeProof {
  import opened RemoteFree

  // ---- the invariant ----

  ghost predicate Is(s: State, c: nat, o: nat, p: Place) {
    o < |s.objects| && s.objects[o].cpu == c && s.objects[o].place == p
  }

  /** A ring, the slot or the worker of CPU c has an object if and only if that is its place. */
  ghost predicate PlaceOk(s: State, c: nat, o: nat)
    requires c < |s.cpus|
  {
    && (forall i: nat | i < |s.cpus[c].rings| :: o in s.cpus[c].rings[i] <==> Is(s, c, o, InRing(i)))
    && (s.cpus[c].slot == Some(o) <==> Is(s, c, o, InSlot))
    && (s.cpus[c].worker == Took(o) <==> Is(s, c, o, WithWorker))
  }

  ghost predicate Distinct(q: seq<nat>) {
    forall i, j | 0 <= i < j < |q| :: q[i] != q[j]
  }

  ghost predicate RingsOk(s: State, x: Cpu) {
    |x.rings| == |s.cpus| && forall i: nat | i < |x.rings| :: Distinct(x.rings[i]) && |x.rings[i]| <= s.size
  }

  // The holder of the mutex is in the code under it.
  predicate HolderOk(s: State, c: nat, mutex: Option<nat>) {
    mutex.Some? ==> mutex.value in s.threads && Critical(s.threads[mutex.value]) && For(s, s.threads[mutex.value], c)
  }

  ghost predicate CpuOk(s: State, c: nat)
    requires c < |s.cpus|
  {
    var x := s.cpus[c];
    RingsOk(s, x) && HolderOk(s, c, x.mutex) && (x.worker.AtRing? ==> x.worker.i < |x.rings|)
  }

  // The handler runs and has the slot still before it.
  predicate Ahead(w: Worker) { w.AtRing? || w.AtSlot? }

  // A ring that was full has been emptied only by a worker that has not been at the slot since.
  predicate FullOrAhead(s: State, c: nat, src: nat) {
    c < |s.cpus| && src < |s.cpus[c].rings| && (NoRoom(s, c, src) || Ahead(s.cpus[c].worker))
  }

  ghost predicate PcOk(s: State, t: nat, p: Pc, c: nat)
    requires c < |s.cpus|
  {
    var x := s.cpus[c];
    && (HasObject(p) ==> p.o < |s.objects| && s.objects[p.o].place == InHand(t))
    && (Critical(p) ==> x.mutex == Some(t))
    && (p.Asleep? ==> x.slot.Some? || x.worker.Took?)
    && (p.Again? || p.Storing? ==> x.slot == None)
    && (p.Storing? ==> p.src < |s.cpus| && FullOrAhead(s, c, p.src))
    && (p.Sizing? ==> p.src < |s.cpus| && (x.slot.Some? ==> FullOrAhead(s, c, p.src)))
    && (p.Having? || p.Readying? ==> p.src < |s.cpus|)
    && ((p.Readying? || p.Dutying?) && x.slot.Some? ==> x.have || x.worker == Clears || Ahead(x.worker))
  }

  ghost predicate ThreadOk(s: State, t: nat)
    requires t in s.threads
  {
    s.threads[t] != Out ==> Busy(s, t) && PcOk(s, t, s.threads[t], Dest(s, s.threads[t]))
  }

  ghost predicate Inv(s: State) {
    && s.size > 0 && (forall c: nat, o: nat | c < |s.cpus| :: PlaceOk(s, c, o))
    && (forall c: nat | c < |s.cpus| :: CpuOk(s, c)) && (forall t | t in s.threads :: ThreadOk(s, t))
    && (forall o: nat | o < |s.objects| :: s.objects[o].cpu < |s.cpus|)
  }

  // ---- every step keeps it ----

  // What no step changes.
  ghost predicate SameShape(s: State, r: State) {
    && |r.cpus| == |s.cpus| && |r.objects| == |s.objects| && r.size == s.size
    && forall o: nat | o < |s.objects| :: r.objects[o].cpu == s.objects[o].cpu
  }

  lemma StepShape(s: State, a: Act)
    requires Enabled(s, a)
    ensures SameShape(s, Apply(s, a))
  {
  }

  lemma TurnsPlace(s: State, a: Act, c: nat, o: nat)
    requires Inv(s) && TurnsOn(s, a) && c < |s.cpus|
    ensures |TurnsStep(s, a).cpus| == |s.cpus| && PlaceOk(TurnsStep(s, a), c, o)
  {
    assert PlaceOk(s, c, o);
  }

  lemma PopPlace(s: State, c: nat, d: nat, o: nat)
    requires Inv(s) && EmptiesOn(s, Pop(c)) && d < |s.cpus| && PlaceOk(s, d, o)
    ensures PlaceOk(EmptiesStep(s, Pop(c)), d, o)
  {
    var q := s.cpus[c].rings[s.cpus[c].worker.i];
    assert CpuOk(s, c) && PlaceOk(s, c, q[0]) && q[0] in q;
    assert q == [q[0]] + q[1..] && q[0] !in q[1..];
  }

  lemma EmptiesPlace(s: State, a: Act, c: nat, o: nat)
    requires Inv(s) && EmptiesOn(s, a) && c < |s.cpus|
    ensures |EmptiesStep(s, a).cpus| == |s.cpus| && PlaceOk(EmptiesStep(s, a), c, o)
  {
    assert PlaceOk(s, c, o);
    if a.Pop? {
      PopPlace(s, a.c, c, o);
    } else if a.TakeSlot? && s.cpus[a.c].slot.Some? {
      assert PlaceOk(s, a.c, s.cpus[a.c].slot.value);
    } else if a.WakeAll? {
      assert PlaceOk(s, a.c, s.cpus[a.c].worker.o);
    }
  }

  lemma PushedPlace(s: State, m: nat, src: nat, c: nat, o: nat)
    requires c < |s.cpus| && m < |s.objects| && s.objects[m].cpu < |s.cpus| && src < |s.cpus[s.objects[m].cpu].rings|
    requires PlaceOk(s, c, o) && s.objects[m].place.InHand?
    ensures PlaceOk(Pushed(s, m, src), c, o)
  {
  }

  lemma PushesPlace(s: State, a: Act, c: nat, o: nat)
    requires Inv(s) && PushesOn(s, a) && c < |s.cpus|
    ensures |PushesStep(s, a).cpus| == |s.cpus| && PlaceOk(PushesStep(s, a), c, o)
  {
    assert PlaceOk(s, c, o);
    assert ThreadOk(s, a.t);
    if !NoRoom(s, Dest(s, s.threads[a.t]), a.src) {
      PushedPlace(s, s.threads[a.t].o, a.src, c, o);
    }
  }

  lemma LocksPlace(s: State, a: Act, c: nat, o: nat)
    requires Inv(s) && LocksOn(s, a) && c < |s.cpus|
    ensures |LocksStep(s, a).cpus| == |s.cpus| && PlaceOk(LocksStep(s, a), c, o)
  {
    assert PlaceOk(s, c, o);
    assert ThreadOk(s, a.t);
  }

  lemma SignalsPlace(s: State, a: Act, c: nat, o: nat)
    requires Inv(s) && SignalsOn(s, a) && c < |s.cpus|
    ensures |SignalsStep(s, a).cpus| == |s.cpus| && PlaceOk(SignalsStep(s, a), c, o)
  {
    assert PlaceOk(s, c, o);
    assert ThreadOk(s, a.t);
  }

  lemma StorePlace(s: State, a: Act, c: nat, o: nat)
    requires Inv(s) && StoreOn(s, a) && c < |s.cpus|
    ensures |StoreStep(s, a).cpus| == |s.cpus| && PlaceOk(StoreStep(s, a), c, o)
  {
    assert PlaceOk(s, c, o);
    assert ThreadOk(s, a.t);
  }

  lemma FreePlace(s: State, a: Act, c: nat, o: nat)
    requires Inv(s) && FreeOn(s, a) && c < |s.cpus|
    ensures |FreeStep(s, a).cpus| == |s.cpus| && PlaceOk(FreeStep(s, a), c, o)
  {
    assert PlaceOk(s, c, o);
  }

  lemma TurnsCpu(s: State, a: Act, c: nat)
    requires Inv(s) && TurnsOn(s, a) && c < |s.cpus|
    ensures |TurnsStep(s, a).cpus| == |s.cpus| && CpuOk(TurnsStep(s, a), c)
  {
    assert CpuOk(s, c);
  }

  lemma EmptiesCpu(s: State, a: Act, c: nat)
    requires Inv(s) && EmptiesOn(s, a) && c < |s.cpus|
    ensures |EmptiesStep(s, a).cpus| == |s.cpus| && CpuOk(EmptiesStep(s, a), c)
  {
    assert CpuOk(s, c);
  }

  lemma PushedRings(s: State, o: nat, src: nat, c: nat)
    requires Inv(s) && c < |s.cpus| && o < |s.objects| && src < |s.cpus[s.objects[o].cpu].rings|
    requires s.objects[o].place.InHand? && !NoRoom(s, s.objects[o].cpu, src)
    ensures RingsOk(s, Pushed(s, o, src).cpus[c])
  {
    var d := s.objects[o].cpu;
    assert CpuOk(s, c) && CpuOk(s, d) && PlaceOk(s, d, o);
    assert o !in s.cpus[d].rings[src];
  }

  lemma PushesHolder(s: State, a: Act, c: nat, t: nat)
    requires PushesOn(s, a) && HolderOk(s, c, Some(t))
    ensures HolderOk(PushesStep(s, a), c, Some(t))
  {
  }

  lemma PushesCpu(s: State, a: Act, c: nat)
    requires Inv(s) && PushesOn(s, a) && c < |s.cpus|
    ensures |PushesStep(s, a).cpus| == |s.cpus| && CpuOk(PushesStep(s, a), c)
  {
    var o := s.threads[a.t].o;
    assert CpuOk(s, c);
    assert ThreadOk(s, a.t);
    if s.cpus[c].mutex.Some? {
      PushesHolder(s, a, c, s.cpus[c].mutex.value);
    }
    if !NoRoom(s, s.objects[o].cpu, a.src) {
      PushedRings(s, o, a.src, c);
    }
  }

  lemma LocksCpu(s: State, a: Act, c: nat)
    requires Inv(s) && LocksOn(s, a) && c < |s.cpus|
    ensures |LocksStep(s, a).cpus| == |s.cpus| && CpuOk(LocksStep(s, a), c)
  {
    assert CpuOk(s, c);
    assert ThreadOk(s, a.t);
  }

  lemma SignalsCpu(s: State, a: Act, c: nat)
    requires Inv(s) && SignalsOn(s, a) && c < |s.cpus|
    ensures |SignalsStep(s, a).cpus| == |s.cpus| && CpuOk(SignalsStep(s, a), c)
  {
    assert CpuOk(s, c);
    assert ThreadOk(s, a.t);
  }

  lemma StoreCpu(s: State, a: Act, c: nat)
    requires Inv(s) && StoreOn(s, a) && c < |s.cpus|
    ensures |StoreStep(s, a).cpus| == |s.cpus| && CpuOk(StoreStep(s, a), c)
  {
    assert CpuOk(s, c);
    assert ThreadOk(s, a.t);
  }

  lemma FreeCpu(s: State, a: Act, c: nat)
    requires Inv(s) && FreeOn(s, a) && c < |s.cpus|
    ensures |FreeStep(s, a).cpus| == |s.cpus| && CpuOk(FreeStep(s, a), c)
  {
    assert CpuOk(s, c);
  }

  // What a thread that takes no step itself relies on.
  ghost predicate Kept(x: Cpu, y: Cpu) {
    && y.mutex == x.mutex && y.slot == x.slot && |y.rings| == |x.rings|
    && (forall i | 0 <= i < |x.rings| :: |y.rings[i]| >= |x.rings[i]|)
    && (Ahead(x.worker) ==> Ahead(y.worker)) && (x.worker.Took? ==> y.worker.Took?)
    && (x.have || x.worker == Clears ==> y.have || y.worker == Clears || Ahead(y.worker))
  }

  lemma KeptThread(s: State, r: State, t: nat)
    requires t in s.threads && t in r.threads && r.threads[t] == s.threads[t] && ThreadOk(s, t) && r.size == s.size
    requires |r.cpus| == |s.cpus| && |r.objects| == |s.objects|
    requires forall c: nat | c < |s.cpus| :: Kept(s.cpus[c], r.cpus[c])
    requires HasObject(s.threads[t]) && s.threads[t].o < |s.objects| ==>
               r.objects[s.threads[t].o] == s.objects[s.threads[t].o]
    ensures ThreadOk(r, t)
  {
    if s.threads[t] != Out {
      assert Kept(s.cpus[Dest(s, s.threads[t])], r.cpus[Dest(s, s.threads[t])]);
    }
  }

  lemma TurnsThread(s: State, a: Act, t: nat)
    requires Inv(s) && TurnsOn(s, a) && t in TurnsStep(s, a).threads
    ensures ThreadOk(TurnsStep(s, a), t)
  {
    KeptThread(s, TurnsStep(s, a), t);
  }

  lemma PopThread(s: State, c: nat, t: nat)
    requires Inv(s) && EmptiesOn(s, Pop(c)) && t in s.threads
    ensures ThreadOk(EmptiesStep(s, Pop(c)), t)
  {
    var q := s.cpus[c].rings[s.cpus[c].worker.i];
    assert ThreadOk(s, t);
    assert PlaceOk(s, c, q[0]) && q[0] in q;
  }

  lemma TakeThread(s: State, c: nat, t: nat)
    requires Inv(s) && EmptiesOn(s, TakeSlot(c)) && t in s.threads
    ensures ThreadOk(EmptiesStep(s, TakeSlot(c)), t)
  {
    assert ThreadOk(s, t);
    if s.cpus[c].slot.Some? {
      assert PlaceOk(s, c, s.cpus[c].slot.value);
    }
  }

  // A thread that is not woken finds everything as it was, but that the worker's object is back.
  lemma UnwokenThread(s: State, r: State, c: nat, o: nat, t: nat)
    requires t in s.threads && ThreadOk(s, t) && c < |s.cpus| && s.cpus[c].worker == Took(o) && o < |s.objects|
    requires s.objects[o].place == WithWorker && (s.threads[t].Asleep? ==> !For(s, s.threads[t], c))
    requires r == WithCpu(Move(s, o, Back), c, s.cpus[c].(worker := Idle)).(threads := r.threads)
    requires t in r.threads && r.threads[t] == s.threads[t]
    ensures ThreadOk(r, t)
  {
  }

  lemma WakeThread(s: State, c: nat, t: nat)
    requires Inv(s) && EmptiesOn(s, WakeAll(c)) && t in s.threads
    ensures ThreadOk(EmptiesStep(s, WakeAll(c)), t)
  {
    assert ThreadOk(s, t);
    assert PlaceOk(s, c, s.cpus[c].worker.o);
    if !(s.threads[t].Asleep? && For(s, s.threads[t], c)) {
      UnwokenThread(s, EmptiesStep(s, WakeAll(c)), c, s.cpus[c].worker.o, t);
    }
  }

  lemma EmptiesThread(s: State, a: Act, t: nat)
    requires Inv(s) && EmptiesOn(s, a) && t in EmptiesStep(s, a).threads
    ensures ThreadOk(EmptiesStep(s, a), t)
  {
    if a.Pop? {
      PopThread(s, a.c, t);
    } else if a.TakeSlot? {
      TakeThread(s, a.c, t);
    } else {
      WakeThread(s, a.c, t);
    }
  }

  lemma PushesSelf(s: State, a: Act)
    requires Inv(s) && PushesOn(s, a)
    ensures a.t in PushesStep(s, a).threads && ThreadOk(PushesStep(s, a), a.t)
  {
    assert ThreadOk(s, a.t);
    assert CpuOk(s, Dest(s, s.threads[a.t]));
  }

  lemma PushesOther(s: State, a: Act, t: nat)
    requires Inv(s) && PushesOn(s, a) && t in s.threads && t != a.t
    ensures t in PushesStep(s, a).threads && ThreadOk(PushesStep(s, a), t)
  {
    assert ThreadOk(s, t);
    assert ThreadOk(s, a.t);
    KeptThread(s, PushesStep(s, a), t);
  }

  lemma PushesThread(s: State, a: Act, t: nat)
    requires Inv(s) && PushesOn(s, a) && t in PushesStep(s, a).threads
    ensures ThreadOk(PushesStep(s, a), t)
  {
    if t == a.t {
      PushesSelf(s, a);
    } else {
      PushesOther(s, a, t);
    }
  }

  lemma LocksSelf(s: State, a: Act)
    requires Inv(s) && LocksOn(s, a)
    ensures a.t in LocksStep(s, a).threads && ThreadOk(LocksStep(s, a), a.t)
  {
    assert ThreadOk(s, a.t);
  }

  lemma LocksThread(s: State, a: Act, t: nat)
    requires Inv(s) && LocksOn(s, a) && t in LocksStep(s, a).threads
    ensures ThreadOk(LocksStep(s, a), t)
  {
    if t == a.t {
      LocksSelf(s, a);
    } else {
      assert ThreadOk(s, t);
      assert ThreadOk(s, a.t);
    }
  }

  lemma SignalsSelf(s: State, a: Act)
    requires Inv(s) && SignalsOn(s, a)
    ensures a.t in SignalsStep(s, a).threads && ThreadOk(SignalsStep(s, a), a.t)
  {
    assert ThreadOk(s, a.t);
  }

  lemma SignalsThread(s: State, a: Act, t: nat)
    requires Inv(s) && SignalsOn(s, a) && t in SignalsStep(s, a).threads
    ensures ThreadOk(SignalsStep(s, a), t)
  {
    if t == a.t {
      SignalsSelf(s, a);
    } else {
      assert ThreadOk(s, t);
      KeptThread(s, SignalsStep(s, a), t);
    }
  }

  lemma StoreThread(s: State, a: Act, t: nat)
    requires Inv(s) && StoreOn(s, a) && t in StoreStep(s, a).threads
    ensures ThreadOk(StoreStep(s, a), t)
  {
    assert ThreadOk(s, t);
    assert ThreadOk(s, a.t);
  }

  lemma FreeThread(s: State, a: Act, t: nat)
    requires Inv(s) && FreeOn(s, a) && t in FreeStep(s, a).threads
    ensures ThreadOk(FreeStep(s, a), t)
  {
    if t in s.threads {
      assert ThreadOk(s, t);
    }
  }

  lemma TurnsKeeps(s: State, a: Act, r: State)
    requires Inv(s) && TurnsOn(s, a) && r == TurnsStep(s, a) && SameShape(s, r)
    ensures Inv(r)
  {
    forall c: nat, o: nat | c < |r.cpus| ensures PlaceOk(r, c, o) {
      TurnsPlace(s, a, c, o);
    }
    forall c: nat | c < |r.cpus| ensures CpuOk(r, c) {
      TurnsCpu(s, a, c);
    }
    forall t | t in r.threads ensures ThreadOk(r, t) {
      TurnsThread(s, a, t);
    }
  }

  lemma EmptiesKeeps(s: State, a: Act, r: State)
    requires Inv(s) && EmptiesOn(s, a) && r == EmptiesStep(s, a) && SameShape(s, r)
    ensures Inv(r)
  {
    forall c: nat, o: nat | c < |r.cpus| ensures PlaceOk(r, c, o) {
      EmptiesPlace(s, a, c, o);
    }
    forall c: nat | c < |r.cpus| ensures CpuOk(r, c) {
      EmptiesCpu(s, a, c);
    }
    forall t | t in r.threads ensures ThreadOk(r, t) {
      EmptiesThread(s, a, t);
    }
  }

  lemma PushesKeeps(s: State, a: Act, r: State)
    requires Inv(s) && PushesOn(s, a) && r == PushesStep(s, a) && SameShape(s, r)
    ensures Inv(r)
  {
    forall c: nat, o: nat | c < |r.cpus| ensures PlaceOk(r, c, o) {
      PushesPlace(s, a, c, o);
    }
    forall c: nat | c < |r.cpus| ensures CpuOk(r, c) {
      PushesCpu(s, a, c);
    }
    forall t | t in r.threads ensures ThreadOk(r, t) {
      PushesThread(s, a, t);
    }
  }

  lemma LocksKeeps(s: State, a: Act, r: State)
    requires Inv(s) && LocksOn(s, a) && r == LocksStep(s, a) && SameShape(s, r)
    ensures Inv(r)
  {
    forall c: nat, o: nat | c < |r.cpus| ensures PlaceOk(r, c, o) {
      LocksPlace(s, a, c, o);
    }
    forall c: nat | c < |r.cpus| ensures CpuOk(r, c) {
      LocksCpu(s, a, c);
    }
    forall t | t in r.threads ensures ThreadOk(r, t) {
      LocksThread(s, a, t);
    }
  }

  lemma SignalsKeeps(s: State, a: Act, r: State)
    requires Inv(s) && SignalsOn(s, a) && r == SignalsStep(s, a) && SameShape(s, r)
    ensures Inv(r)
  {
    forall c: nat, o: nat | c < |r.cpus| ensures PlaceOk(r, c, o) {
      SignalsPlace(s, a, c, o);
    }
    forall c: nat | c < |r.cpus| ensures CpuOk(r, c) {
      SignalsCpu(s, a, c);
    }
    forall t | t in r.threads ensures ThreadOk(r, t) {
      SignalsThread(s, a, t);
    }
  }

  lemma StoreKeeps(s: State, a: Act, r: State)
    requires Inv(s) && StoreOn(s, a) && r == StoreStep(s, a) && SameShape(s, r)
    ensures Inv(r)
  {
    forall c: nat, o: nat | c < |r.cpus| ensures PlaceOk(r, c, o) {
      StorePlace(s, a, c, o);
    }
    forall c: nat | c < |r.cpus| ensures CpuOk(r, c) {
      StoreCpu(s, a, c);
    }
    forall t | t in r.threads ensures ThreadOk(r, t) {
      StoreThread(s, a, t);
    }
  }

  lemma FreeKeeps(s: State, a: Act, r: State)
    requires Inv(s) && FreeOn(s, a) && r == FreeStep(s, a) && SameShape(s, r)
    ensures Inv(r)
  {
    forall c: nat, o: nat | c < |r.cpus| ensures PlaceOk(r, c, o) {
      FreePlace(s, a, c, o);
    }
    forall c: nat | c < |r.cpus| ensures CpuOk(r, c) {
      FreeCpu(s, a, c);
    }
    forall t | t in r.threads ensures ThreadOk(r, t) {
      FreeThread(s, a, t);
    }
  }

  lemma KeepInv(s: State, a: Act)
    requires Inv(s) && Enabled(s, a)
    ensures Inv(Apply(s, a))
  {
    var r := Apply(s, a);
    StepShape(s, a);
    if Turns(a) {
      TurnsKeeps(s, a, r);
    } else if Empties(a) {
      EmptiesKeeps(s, a, r);
    } else if Pushes(a) {
      PushesKeeps(s, a, r);
    } else if Locks(a) {
      LocksKeeps(s, a, r);
    } else if Signals(a) {
      SignalsKeeps(s, a, r);
    } else if a.Store? {
      StoreKeeps(s, a, r);
    } else {
      FreeKeeps(s, a, r);
    }
  }

  lemma {:induction false} RunInv(tr: seq<State>, i: nat)
    requires Run(tr) && i < |tr|
    ensures Inv(tr[i])
  {
    if i > 0 {
      RunInv(tr, i - 1);
      assert Step(tr[i - 1], tr[i - 1 + 1]);
      var a :| Enabled(tr[i - 1], a) && tr[i - 1 + 1] == Apply(tr[i - 1], a);
      KeepInv(tr[i - 1], a);
    }
  }

  /** In every run: an object being freed is with one thread, in one ring, in one slot, with one worker,
      or back, and in each at most once; and a thread asleep until the slot is empty finds it full, or
      its waker is on the way. */
  lemma FreedOnce(tr: seq<State>, i: nat)
    requires Run(tr) && i < |tr|
    ensures forall c: nat, o: nat | c < |tr[i].cpus| :: PlaceOk(tr[i], c, o)
    ensures forall c: nat, j: nat | c < |tr[i].cpus| && j < |tr[i].cpus[c].rings| :: Distinct(tr[i].cpus[c].rings[j])
    ensures forall t | t in tr[i].threads && HasObject(tr[i].threads[t]) ::
              tr[i].threads[t].o < |tr[i].objects| && tr[i].objects[tr[i].threads[t].o].place == InHand(t)
    ensures forall t | t in tr[i].threads && tr[i].threads[t].Asleep? ::
              Busy(tr[i], t) && var x := tr[i].cpus[Dest(tr[i], tr[i].threads[t])]; x.slot.Some? || x.worker.Took?
  {
    RunInv(tr, i);
    forall t | t in tr[i].threads && HasObject(tr[i].threads[t])
      ensures Busy(tr[i], t) && PcOk(tr[i], t, tr[i].threads[t], Dest(tr[i], tr[i].threads[t]))
    {
      assert ThreadOk(tr[i], t);
    }
    forall c: nat, j: nat | c < |tr[i].cpus| && j < |tr[i].cpus[c].rings| ensures Distinct(tr[i].cpus[c].rings[j]) {
      assert CpuOk(tr[i], c);
    }
  }

  // ---- does the worker come? ----

  // The handler runs with the slot before it, or is about to run, or both flags are set.
  predicate WorkerComes(x: Cpu) {
    Ahead(x.worker) || x.worker == Clears || (x.have && (x.duty || x.worker == Saw || x.worker == Looks))
  }

  // A thread has still to look at the size of the ring, or to signal.
  predicate MaySignal(p: Pc) {
    p.Sizing? || p.Having? || p.Readying? || p.Dutying?
  }

  /** There is an object in the slot, and nobody is on the way who will come to it. */
  ghost predicate Stuck(s: State, c: nat)
    requires c < |s.cpus|
  {
    var x := s.cpus[c];
    && x.slot.Some? && !WorkerComes(x)
    && !(x.mutex.Some? && x.mutex.value in s.threads && MaySignal(s.threads[x.mutex.value]))
  }

  /** workman::signal() returns without setting _duty, because the worker's thread of the signalling
      CPU has not run yet; and no worker comes for another reason. */
  ghost predicate Dropped(s: State, a: Act, c: nat)
    requires Enabled(s, a) && c < |s.cpus|
  {
    && a.TestReady? && s.threads[a.t].c == c && s.cpus[s.threads[a.t].src].worker == Unready
    && s.cpus[c].slot.Some? && !WorkerComes(s.cpus[c])
  }

  // Those under the mutex, after the second push.
  lemma SignalSticks(s: State, a: Act, c: nat)
    requires Inv(s) && SignalsOn(s, a) && c < |s.cpus| && !Stuck(s, c)
    ensures |SignalsStep(s, a).cpus| == |s.cpus| && (Stuck(SignalsStep(s, a), c) <==> Dropped(s, a, c))
  {
    assert ThreadOk(s, a.t);
    assert CpuOk(s, c);
  }

  lemma PushSticks(s: State, a: Act, c: nat)
    requires Inv(s) && PushesOn(s, a) && c < |s.cpus| && !Stuck(s, c)
    ensures |PushesStep(s, a).cpus| == |s.cpus| && !Stuck(PushesStep(s, a), c)
  {
    assert ThreadOk(s, a.t);
    assert CpuOk(s, c);
  }

  lemma LockSticks(s: State, a: Act, c: nat)
    requires Inv(s) && LocksOn(s, a) && c < |s.cpus| && !Stuck(s, c)
    ensures |LocksStep(s, a).cpus| == |s.cpus| && !Stuck(LocksStep(s, a), c)
  {
    assert ThreadOk(s, a.t);
    assert CpuOk(s, c);
  }

  lemma StoreSticks(s: State, a: Act, c: nat)
    requires Inv(s) && StoreOn(s, a) && c < |s.cpus| && !Stuck(s, c)
    ensures |StoreStep(s, a).cpus| == |s.cpus| && !Stuck(StoreStep(s, a), c)
  {
    assert ThreadOk(s, a.t);
    assert CpuOk(s, c);
  }

  lemma TurnSticks(s: State, a: Act, c: nat)
    requires Inv(s) && TurnsOn(s, a) && c < |s.cpus| && !Stuck(s, c)
    ensures !Stuck(TurnsStep(s, a), c)
  {
    assert CpuOk(s, c);
  }

  lemma EmptySticks(s: State, a: Act, c: nat)
    requires Inv(s) && EmptiesOn(s, a) && c < |s.cpus| && !Stuck(s, c)
    ensures |EmptiesStep(s, a).cpus| == |s.cpus| && !Stuck(EmptiesStep(s, a), c)
  {
    assert CpuOk(s, c);
  }

  /** An object in the slot is left there for good by exactly one step. */
  lemma StuckBegins(s: State, a: Act, c: nat)
    requires Inv(s) && Enabled(s, a) && c < |s.cpus| && !Stuck(s, c)
    ensures |Apply(s, a).cpus| == |s.cpus| && (Stuck(Apply(s, a), c) <==> Dropped(s, a, c))
  {
    StepShape(s, a);
    if Turns(a) {
      TurnSticks(s, a, c);
    } else if Empties(a) {
      EmptySticks(s, a, c);
    } else if Signals(a) {
      SignalSticks(s, a, c);
    } else if Pushes(a) {
      PushSticks(s, a, c);
    } else if Locks(a) {
      LockSticks(s, a, c);
    } else if a.Store? {
      StoreSticks(s, a, c);
    } else {
      assert CpuOk(s, c);
    }
  }

  // What stays so at a CPU.
  ghost predicate Leaves(s: State, r: State, c: nat)
    requires c < |s.cpus|
  {
    |r.cpus| == |s.cpus| && Stuck(r, c) && r.cpus[c].slot == s.cpus[c].slot
  }

  lemma TryLeaves(s: State, a: Act, c: nat)
    requires Inv(s) && PushesOn(s, a) && a.TryRing? && c < |s.cpus| && Stuck(s, c)
    ensures Leaves(s, PushesStep(s, a), c)
  {
    assert ThreadOk(s, a.t);
  }

  lemma PushLeaves(s: State, a: Act, c: nat)
    requires Inv(s) && PushesOn(s, a) && c < |s.cpus| && Stuck(s, c)
    ensures Leaves(s, PushesStep(s, a), c)
  {
    if a.TryRing? {
      TryLeaves(s, a, c);
    } else {
      assert CpuOk(s, c);
      assert ThreadOk(s, a.t);
    }
  }

  lemma LockLeaves(s: State, a: Act, c: nat)
    requires Inv(s) && LocksOn(s, a) && c < |s.cpus| && Stuck(s, c)
    ensures Leaves(s, LocksStep(s, a), c)
  {
    assert CpuOk(s, c);
    assert ThreadOk(s, a.t);
  }

  lemma SignalLeaves(s: State, a: Act, c: nat)
    requires Inv(s) && SignalsOn(s, a) && c < |s.cpus| && Stuck(s, c)
    ensures Leaves(s, SignalsStep(s, a), c)
  {
    assert CpuOk(s, c);
    assert ThreadOk(s, a.t);
  }

  lemma StoreLeaves(s: State, a: Act, c: nat)
    requires Inv(s) && StoreOn(s, a) && c < |s.cpus| && Stuck(s, c)
    ensures Leaves(s, StoreStep(s, a), c)
  {
    assert CpuOk(s, c);
    assert ThreadOk(s, a.t);
  }

  lemma TurnLeaves(s: State, a: Act, c: nat)
    requires Inv(s) && TurnsOn(s, a) && c < |s.cpus| && Stuck(s, c)
    ensures Leaves(s, TurnsStep(s, a), c)
  {
    assert CpuOk(s, c);
  }

  lemma EmptyLeaves(s: State, a: Act, c: nat)
    requires Inv(s) && EmptiesOn(s, a) && c < |s.cpus| && Stuck(s, c)
    ensures Leaves(s, EmptiesStep(s, a), c)
  {
    assert CpuOk(s, c);
  }

  /** No step changes that: whoever finds the ring full from then on waits for the slot. */
  lemma StuckStays(s: State, a: Act, c: nat)
    requires Inv(s) && Enabled(s, a) && c < |s.cpus| && Stuck(s, c)
    ensures Leaves(s, Apply(s, a), c)
  {
    StepShape(s, a);
    if Turns(a) {
      TurnLeaves(s, a, c);
    } else if Empties(a) {
      EmptyLeaves(s, a, c);
    } else if Pushes(a) {
      PushLeaves(s, a, c);
    } else if Locks(a) {
      LockLeaves(s, a, c);
    } else if Signals(a) {
      SignalLeaves(s, a, c);
    } else if a.Store? {
      StoreLeaves(s, a, c);
    } else {
      assert CpuOk(s, c);
    }
  }

  ghost predicate DropsAt(s: State, r: State, c: nat) {
    c < |s.cpus| && exists a :: Enabled(s, a) && r == Apply(s, a) && Dropped(s, a, c)
  }

  lemma {:induction false} SameCpus(tr: seq<State>, i: nat)
    requires Run(tr) && i < |tr|
    ensures |tr[i].cpus| == |tr[0].cpus|
  {
    if i > 0 {
      SameCpus(tr, i - 1);
      assert Step(tr[i - 1], tr[i - 1 + 1]);
      var a :| Enabled(tr[i - 1], a) && tr[i] == Apply(tr[i - 1], a);
      StepShape(tr[i - 1], a);
    }
  }

  /** The exact condition, in every run: an object in the slot is without anyone who will come to it if
      and only if a signal for it was dropped. */
  lemma {:induction false} SlotIsServedIff(tr: seq<State>, i: nat, c: nat)
    requires Run(tr) && i < |tr| && c < |tr[i].cpus|
    ensures Stuck(tr[i], c) <==> exists j: nat :: j < i && DropsAt(tr[j], tr[j + 1], c)
  {
    SameCpus(tr, i);
    if i > 0 {
      SameCpus(tr, i - 1);
      SlotIsServedIff(tr, i - 1, c);
      RunInv(tr, i - 1);
      var s := tr[i - 1];
      assert Step(tr[i - 1], tr[i - 1 + 1]);
      if Stuck(s, c) {
        var a :| Enabled(s, a) && tr[i] == Apply(s, a);
        StuckStays(s, a, c);
        var j: nat :| j < i - 1 && DropsAt(tr[j], tr[j + 1], c);
        assert j < i;
      } else {
        forall a | Enabled(s, a) && tr[i] == Apply(s, a) ensures Stuck(tr[i], c) <==> Dropped(s, a, c) {
          StuckBegins(s, a, c);
        }
        if Stuck(tr[i], c) {
          var a :| Enabled(s, a) && tr[i] == Apply(s, a);
          assert DropsAt(tr[i - 1], tr[i - 1 + 1], c);
        }
      }
    }
  }

  // ---- when is it signalled? ----

  // After the first push failed.
  predicate OnSlowPath(p: Pc) { p.Locking? || p.Asleep? || Critical(p) }

  // Between s and r the first push of thread t, for CPU c, finds the ring from CPU src full.
  ghost predicate Fails(s: State, r: State, t: nat, c: nat, src: nat) {
    && PushesOn(s, TryRing(t, src)) && Dest(s, s.threads[t]) == c && NoRoom(s, c, src)
    && r == PushesStep(s, TryRing(t, src))
  }

  ghost predicate FirstFails(s: State, r: State, t: nat, c: nat) {
    exists src :: Fails(s, r, t, c, src)
  }

  // Thread t is on the slow path for CPU c.
  ghost predicate Slow(s: State, t: nat, c: nat) {
    t in s.threads && OnSlowPath(s.threads[t]) && For(s, s.threads[t], c)
  }

  ghost predicate SlowSince(tr: seq<State>, j: nat, i: nat, t: nat, c: nat) {
    forall k: nat | j < k <= i && k < |tr| :: Slow(tr[k], t, c)
  }

  // A step that is not its own leaves a thread where it is, or wakes it.
  lemma PcElse(s: State, a: Act, t: nat)
    requires Enabled(s, a) && t in Apply(s, a).threads && (ByWorker(a) || a.t != t)
    ensures var r := Apply(s, a);
            t in s.threads
            && (r.threads[t] == s.threads[t] || (s.threads[t].Asleep? && r.threads[t] == Locking(s.threads[t].o)))
  {
  }

  ghost predicate ThreadsOk(s: State) {
    forall t | t in s.threads :: ThreadOk(s, t)
  }

  lemma SlowOwn(s: State, a: Act, c: nat)
    requires ThreadsOk(s) && Enabled(s, a) && !ByWorker(a) && Slow(Apply(s, a), a.t, c)
    ensures Slow(s, a.t, c) || FirstFails(s, Apply(s, a), a.t, c)
  {
    StepShape(s, a);
    if a.TryRing? {
      assert PushesStep(s, a).threads[a.t].Locking? ==> Fails(s, Apply(s, a), a.t, c, a.src);
    } else if !a.Free? {
      assert ThreadOk(s, a.t);
    }
  }

  lemma SlowStep(s: State, r: State, t: nat, c: nat)
    requires ThreadsOk(s) && Step(s, r) && Slow(r, t, c)
    ensures Slow(s, t, c) || FirstFails(s, r, t, c)
  {
    var a :| Enabled(s, a) && r == Apply(s, a);
    if ByWorker(a) || a.t != t {
      StepShape(s, a);
      PcElse(s, a, t);
    } else {
      SlowOwn(s, a, c);
    }
  }

  // A thread about to signal has been since it saw the ring over half full.
  lemma HavingStep(s: State, r: State, t: nat, c: nat, src: nat)
    requires ThreadsOk(s) && Step(s, r) && t in r.threads && r.threads[t] == Having(c, src)
    ensures t in s.threads && (s.threads[t] == Having(c, src) || Seen(s, t, c, src))
  {
    var a :| Enabled(s, a) && r == Apply(s, a);
    if ByWorker(a) || a.t != t {
      PcElse(s, a, t);
    } else {
      HavingOwn(s, a, c, src);
    }
  }

  lemma HavingOwn(s: State, a: Act, c: nat, src: nat)
    requires ThreadsOk(s) && Enabled(s, a) && !ByWorker(a) && a.t in Apply(s, a).threads
    requires Apply(s, a).threads[a.t] == Having(c, src)
    ensures Seen(s, a.t, c, src)
  {
    if !a.Free? {
      assert ThreadOk(s, a.t);
    }
  }

  ghost predicate Seen(s: State, t: nat, c: nat, src: nat) {
    && t in s.threads && s.threads[t] == Sizing(c, src) && c < |s.cpus| && src < |s.cpus[c].rings|
    && OverHalf(s, c, src)
  }

  // What is so, and at first is not, began with a step that makes it so, and has been since.
  lemma {:induction false} Began(on: seq<bool>, starts: seq<bool>, i: nat) returns (j: nat)
    requires i < |on| == |starts| && on[i] && !on[0]
    requires forall n | 0 < n < |on| :: on[n] ==> on[n - 1] || starts[n - 1]
    ensures j < i && starts[j] && forall k | j < k <= i :: on[k]
  {
    if on[i - 1] {
      j := Began(on, starts, i - 1);
    } else {
      j := i - 1;
    }
  }

  // At first no thread frees anything.
  lemma NoneYet(tr: seq<State>, t: nat)
    requires Run(tr)
    ensures t !in tr[0].threads
  {
  }

  lemma StepOf(tr: seq<State>, i: nat, s: State, r: State)
    requires Run(tr) && 0 < i < |tr| && s == tr[i - 1] && r == tr[i]
    ensures Step(s, r)
  {
    assert Step(tr[i - 1], tr[i - 1 + 1]);
  }

  lemma ThreadsAt(tr: seq<State>, i: nat, s: State)
    requires Run(tr) && i < |tr| && s == tr[i]
    ensures ThreadsOk(s)
  {
    RunInv(tr, i);
  }

  lemma SlowBefore(tr: seq<State>, i: nat, s: State, r: State, t: nat, c: nat)
    requires Run(tr) && 0 < i < |tr| && s == tr[i - 1] && r == tr[i] && Slow(r, t, c)
    ensures Slow(s, t, c) || FirstFails(s, r, t, c)
  {
    ThreadsAt(tr, i - 1, s);
    StepOf(tr, i, s, r);
    SlowStep(s, r, t, c);
  }

  lemma HavingBefore(tr: seq<State>, i: nat, s: State, r: State, t: nat, c: nat, src: nat)
    requires Run(tr) && 0 < i < |tr| && s == tr[i - 1] && r == tr[i]
    requires t in r.threads && r.threads[t] == Having(c, src)
    ensures t in s.threads && (s.threads[t] == Having(c, src) || Seen(s, t, c, src))
  {
    ThreadsAt(tr, i - 1, s);
    StepOf(tr, i, s, r);
    HavingStep(s, r, t, c, src);
  }

  ghost function SlowAt(tr: seq<State>, t: nat, c: nat): seq<bool> {
    seq(|tr|, n requires 0 <= n < |tr| => Slow(tr[n], t, c))
  }

  ghost function FailsAt(tr: seq<State>, t: nat, c: nat): seq<bool> {
    seq(|tr|, n requires 0 <= n < |tr| => n + 1 < |tr| && FirstFails(tr[n], tr[n + 1], t, c))
  }

  lemma SlowLinks(tr: seq<State>, n: nat, t: nat, c: nat)
    requires Run(tr) && 0 < n < |tr|
    ensures SlowAt(tr, t, c)[n] ==> SlowAt(tr, t, c)[n - 1] || FailsAt(tr, t, c)[n - 1]
  {
    if Slow(tr[n], t, c) {
      SlowBefore(tr, n, tr[n - 1], tr[n], t, c);
    }
  }

  lemma SlowMeans(tr: seq<State>, j: nat, i: nat, t: nat, c: nat)
    requires j < i < |tr| && FailsAt(tr, t, c)[j] && forall k | j < k <= i :: SlowAt(tr, t, c)[k]
    ensures FirstFails(tr[j], tr[j + 1], t, c) && SlowSince(tr, j, i, t, c)
  {
    assert forall k | j < k <= i :: SlowAt(tr, t, c)[k] == Slow(tr[k], t, c);
  }

  lemma SlowPathBegan(tr: seq<State>, i: nat, t: nat, c: nat) returns (j: nat)
    requires Run(tr) && i < |tr| && Slow(tr[i], t, c)
    ensures j < i && FirstFails(tr[j], tr[j + 1], t, c) && SlowSince(tr, j, i, t, c)
  {
    var on, starts := SlowAt(tr, t, c), FailsAt(tr, t, c);
    NoneYet(tr, t);
    forall n: nat | 0 < n < |on| ensures on[n] ==> on[n - 1] || starts[n - 1] {
      SlowLinks(tr, n, t, c);
    }
    j := Began(on, starts, i);
    SlowMeans(tr, j, i, t, c);
  }

  ghost predicate Has(s: State, t: nat, c: nat, src: nat) {
    t in s.threads && s.threads[t] == Having(c, src)
  }

  ghost function HasAt(tr: seq<State>, t: nat, c: nat, src: nat): seq<bool> {
    seq(|tr|, n requires 0 <= n < |tr| => Has(tr[n], t, c, src))
  }

  ghost function SeenAt(tr: seq<State>, t: nat, c: nat, src: nat): seq<bool> {
    seq(|tr|, n requires 0 <= n < |tr| => Seen(tr[n], t, c, src))
  }

  lemma HasLinks(tr: seq<State>, n: nat, t: nat, c: nat, src: nat)
    requires Run(tr) && 0 < n < |tr|
    ensures HasAt(tr, t, c, src)[n] ==> HasAt(tr, t, c, src)[n - 1] || SeenAt(tr, t, c, src)[n - 1]
  {
    if Has(tr[n], t, c, src) {
      HavingBefore(tr, n, tr[n - 1], tr[n], t, c, src);
    }
  }

  lemma HasMeans(tr: seq<State>, k: nat, i: nat, t: nat, c: nat, src: nat)
    requires k < i < |tr| && SeenAt(tr, t, c, src)[k] && forall n | k < n <= i :: HasAt(tr, t, c, src)[n]
    ensures Seen(tr[k], t, c, src) && SlowSince(tr, k, i, t, c)
  {
    assert forall n | k < n <= i :: HasAt(tr, t, c, src)[n] == Has(tr[n], t, c, src);
  }

  lemma SizeSeen(tr: seq<State>, i: nat, t: nat, c: nat, src: nat) returns (k: nat)
    requires Run(tr) && i < |tr| && t in tr[i].threads && tr[i].threads[t] == Having(c, src)
    ensures k < i && Seen(tr[k], t, c, src) && SlowSince(tr, k, i, t, c)
  {
    var on, starts := HasAt(tr, t, c, src), SeenAt(tr, t, c, src);
    NoneYet(tr, t);
    forall n: nat | 0 < n < |on| ensures on[n] ==> on[n - 1] || starts[n - 1] {
      HasLinks(tr, n, t, c, src);
    }
    k := Began(on, starts, i);
    HasMeans(tr, k, i, t, c, src);
  }

  /** Step i sets the flag for thread t, whose first push found its ring full at j, and which found the
      ring from CPU src over half full at k, after that. */
  ghost predicate SignalsAt(tr: seq<State>, i: nat, c: nat, t: nat, src: nat, j: nat, k: nat) {
    && j < k < i && i + 1 < |tr| && FirstFails(tr[j], tr[j + 1], t, c) && SlowSince(tr, j, i, t, c)
    && Seen(tr[k], t, c, src)
    && t in tr[i].threads && tr[i].threads[t] == Having(c, src)
    && Enabled(tr[i], SetHave(t)) && tr[i + 1] == Apply(tr[i], SetHave(t))
  }

  lemma SignalledOnlyWhenFull(tr: seq<State>, i: nat, c: nat) returns (t: nat, src: nat, j: nat, k: nat)
    requires Run(tr) && i + 1 < |tr| && c < |tr[i].cpus| && c < |tr[i + 1].cpus|
    requires !tr[i].cpus[c].have && tr[i + 1].cpus[c].have
    ensures SignalsAt(tr, i, c, t, src, j, k)
  {
    RunInv(tr, i);
    assert Step(tr[i], tr[i + 1]);
    t, src := SignalledBy(tr[i], tr[i + 1], c);
    k := SizeSeen(tr, i, t, c, src);
    j := SlowPathBegan(tr, k, t, c);
    forall n: nat | j < n <= i ensures Slow(tr[n], t, c) {
      assert n <= k || k < n;
    }
  }

  /** In every run: a step signals the worker of a CPU if and only if it is that of a free whose first
      push failed and which then found the ring over half full. */
  lemma SignalIff(tr: seq<State>, i: nat, c: nat)
    requires Run(tr) && i + 1 < |tr| && c < |tr[i].cpus| && c < |tr[i + 1].cpus| && !tr[i].cpus[c].have
    ensures tr[i + 1].cpus[c].have <==> exists t, src, j, k :: SignalsAt(tr, i, c, t, src, j, k)
  {
    if tr[i + 1].cpus[c].have {
      var t, src, j, k := SignalledOnlyWhenFull(tr, i, c);
    }
    forall t, src, j, k | SignalsAt(tr, i, c, t, src, j, k) ensures tr[i + 1].cpus[c].have {
      SetsHave(tr[i], t, c);
    }
  }

  lemma SetsHave(s: State, t: nat, c: nat)
    requires Enabled(s, SetHave(t)) && s.threads[t].c == c
    ensures c < |Apply(s, SetHave(t)).cpus| && Apply(s, SetHave(t)).cpus[c].have
  {
  }

  lemma SignalledBy(s: State, r: State, c: nat) returns (t: nat, src: nat)
    requires Inv(s) && Step(s, r) && c < |s.cpus| && c < |r.cpus| && !s.cpus[c].have && r.cpus[c].have
    ensures t in s.threads && s.threads[t] == Having(c, src) && Enabled(s, SetHave(t)) && r == Apply(s, SetHave(t))
  {
    var a :| Enabled(s, a) && r == Apply(s, a);
    if a.SetHave? {
      assert ThreadOk(s, a.t);
      t, src := a.t, s.threads[a.t].src;
    } else {
      NoSignal(s, a, c);
      assert false;
    }
  }

  lemma NoSignal(s: State, a: Act, c: nat)
    requires Inv(s) && Enabled(s, a) && c < |s.cpus| && !a.SetHave? && !s.cpus[c].have
    ensures |Apply(s, a).cpus| == |s.cpus| && !Apply(s, a).cpus[c].have
  {
    StepShape(s, a);
  }

  // ---- and when it is not ----

  lemma Then(tr: seq<State>, a: Act) returns (to: seq<State>)
    requires Run(tr) && Enabled(tr[|tr| - 1], a)
    ensures Run(to) && tr <= to && to[|to| - 1] == Apply(tr[|tr| - 1], a)
  {
    to := tr + [Apply(tr[|tr| - 1], a)];
    forall i | 0 <= i < |to| - 1 ensures Step(to[i], to[i + 1]) {
      if i < |tr| - 1 {
        assert Step(tr[i], tr[i + 1]);
      }
    }
  }

  // n objects of CPU 0 are in the ring from CPU 1, and the others in use; nothing else has happened.
  ghost predicate Filled(s: State, n: nat, worker: Worker) {
    && |s.cpus| == 2 && n <= s.size && n <= |s.objects| && s.cpus[1].worker == Unready
    && |s.cpus[0].rings| == 2 && |s.cpus[0].rings[1]| == n
    && s.cpus[0] == Cpu(s.cpus[0].rings, None, None, false, false, worker)
    && (forall o: nat | n <= o < |s.objects| :: s.objects[o] == Object(0, InUse))
    && (0 in s.threads ==> s.threads[0] == Out)
  }

  lemma PushOne(s: State, n: nat, worker: Worker) returns (f: State)
    requires Filled(s, n, worker) && n < s.size && n < |s.objects|
    ensures Enabled(s, Free(0, n)) && f == Apply(s, Free(0, n)) && f.size == s.size && |f.objects| == |s.objects|
    ensures Enabled(f, TryRing(0, 1)) && Filled(Apply(f, TryRing(0, 1)), n + 1, worker)
    ensures Apply(f, TryRing(0, 1)).size == s.size && |Apply(f, TryRing(0, 1)).objects| == |s.objects|
  {
    f := Apply(s, Free(0, n));
  }

  // Pushes that succeed, one after another.
  lemma {:induction false} Fill(tr: seq<State>, n: nat, m: nat, worker: Worker) returns (to: seq<State>)
    requires Run(tr) && n <= m && Filled(tr[|tr| - 1], n, worker) && m <= tr[|tr| - 1].size
    requires m <= |tr[|tr| - 1].objects|
    ensures Run(to) && tr <= to && Filled(to[|to| - 1], m, worker)
    ensures to[|to| - 1].size == tr[|tr| - 1].size && |to[|to| - 1].objects| == |tr[|tr| - 1].objects|
    decreases m - n
  {
    if n == m {
      to := tr;
    } else {
      var f := PushOne(tr[|tr| - 1], n, worker);
      to := Then(tr, Free(0, n));
      to := Then(to, TryRing(0, 1));
      to := Fill(to, n + 1, m, worker);
    }
  }

  // Two CPUs and enough objects of the first.
  ghost predicate TwoCpus(s: State) {
    Init(s) && |s.cpus| == 2 && |s.objects| > s.size && forall o: nat | o < |s.objects| :: s.objects[o].cpu == 0
  }

  /** A run, for every size of the ring, in which it is filled by pushes that succeed, and the worker
      waits with no flag set. */
  lemma FullUnsignalled(s: State) returns (tr: seq<State>)
    requires TwoCpus(s)
    ensures Run(tr) && tr[0] == s && Filled(tr[|tr| - 1], s.size, Idle) && tr[|tr| - 1].size == s.size
    ensures OverHalf(tr[|tr| - 1], 0, 1) && !tr[|tr| - 1].cpus[0].have && !tr[|tr| - 1].cpus[0].duty
  {
    tr := Then([s], Start(0));
    tr := Fill(tr, 0, s.size, Idle);
  }

  // Object o of CPU 0 is with thread 0, at p, and the ring from CPU 1 is full.
  ghost predicate Trying(s: State, o: nat, p: Pc, slot: Option<nat>, mutex: Option<nat>, have: bool) {
    && s.size > 0 && o < |s.objects| && s.objects[o].cpu == 0 && |s.cpus| == 2 && s.cpus[1].worker == Unready
    && 0 in s.threads && s.threads[0] == p && |s.cpus[0].rings| == 2 && NoRoom(s, 0, 1)
    && s.cpus[0] == Cpu(s.cpus[0].rings, slot, mutex, have, false, Unready)
  }

  // One more object finds the ring full, and the slot empty.
  lemma FullRing(s: State, o: nat) returns (f: State)
    requires s.size > 0 && o == s.size && Filled(s, o, Unready) && |s.objects| > o
    ensures Enabled(s, Free(0, o)) && f == Apply(s, Free(0, o)) && Enabled(f, TryRing(0, 1))
    ensures Trying(Apply(f, TryRing(0, 1)), o, Locking(o), None, None, false)
  {
    f := Apply(s, Free(0, o));
  }

  lemma ToTheMutex(tr: seq<State>) returns (to: seq<State>)
    requires Run(tr) && var s := tr[|tr| - 1]; s.size > 0 && Filled(s, s.size, Unready) && |s.objects| > s.size
    ensures Run(to) && tr <= to
    ensures Trying(to[|to| - 1], tr[|tr| - 1].size, Locking(tr[|tr| - 1].size), None, None, false)
  {
    var o := tr[|tr| - 1].size;
    var f := FullRing(tr[|tr| - 1], o);
    to := Then(tr, Free(0, o));
    to := Then(to, TryRing(0, 1));
  }

  // The free goes on from one place to the next.
  predicate GoesOn(o: nat, a: Act, p: Pc, q: Pc) {
    match a
    case Lock(t) => t == 0 && p == Locking(o) && q == Testing(o)
    case Test(t) => t == 0 && p == Testing(o) && q == Again(o)
    case TryAgain(t, src) => t == 0 && src == 1 && p == Again(o) && q == Storing(o, 1)
    case Store(t) => t == 0 && p == Storing(o, 1) && q == Sizing(0, 1)
    case Size(t) => t == 0 && p == Sizing(0, 1) && q == Having(0, 1)
    case SetHave(t) => t == 0 && p == Having(0, 1) && q == Readying(0, 1)
    case _ => false
  }

  lemma OneStep(s: State, o: nat, a: Act, p: Pc, q: Pc, slot: Option<nat>, mutex: Option<nat>, have: bool)
    requires Trying(s, o, p, slot, mutex, have) && GoesOn(o, a, p, q)
    requires (a.Lock? ==> mutex == None) && (a.Test? ==> slot == None)
    ensures Enabled(s, a)
    ensures Trying(Apply(s, a), o, q, if a.Store? then Some(o) else slot, if a.Lock? then Some(0) else mutex,
                   have || a.SetHave?)
  {
  }

  lemma Next(tr: seq<State>, o: nat, a: Act, p: Pc, q: Pc, slot: Option<nat>, mutex: Option<nat>, have: bool)
    returns (to: seq<State>)
    requires Run(tr) && Trying(tr[|tr| - 1], o, p, slot, mutex, have) && GoesOn(o, a, p, q)
    requires (a.Lock? ==> mutex == None) && (a.Test? ==> slot == None)
    ensures Run(to) && tr <= to
    ensures Trying(to[|to| - 1], o, q, if a.Store? then Some(o) else slot, if a.Lock? then Some(0) else mutex,
                   have || a.SetHave?)
  {
    OneStep(tr[|tr| - 1], o, a, p, q, slot, mutex, have);
    to := Then(tr, a);
  }

  lemma ToTheSlot(tr: seq<State>, o: nat) returns (to: seq<State>)
    requires Run(tr) && Trying(tr[|tr| - 1], o, Locking(o), None, None, false)
    ensures Run(to) && tr <= to && Trying(to[|to| - 1], o, Again(o), None, Some(0), false)
  {
    to := Next(tr, o, Lock(0), Locking(o), Testing(o), None, None, false);
    to := Next(to, o, Test(0), Testing(o), Again(o), None, Some(0), false);
  }

  lemma ToTheStore(tr: seq<State>, o: nat) returns (to: seq<State>)
    requires Run(tr) && Trying(tr[|tr| - 1], o, Again(o), None, Some(0), false)
    ensures Run(to) && tr <= to && Trying(to[|to| - 1], o, Sizing(0, 1), Some(o), Some(0), false)
  {
    to := Next(tr, o, TryAgain(0, 1), Again(o), Storing(o, 1), None, Some(0), false);
    to := Next(to, o, Store(0), Storing(o, 1), Sizing(0, 1), None, Some(0), false);
  }

  lemma ToTheSignal(tr: seq<State>, o: nat) returns (to: seq<State>)
    requires Run(tr) && Trying(tr[|tr| - 1], o, Sizing(0, 1), Some(o), Some(0), false)
    ensures Run(to) && tr <= to && Trying(to[|to| - 1], o, Readying(0, 1), Some(o), Some(0), true)
  {
    to := Next(tr, o, Size(0), Sizing(0, 1), Having(0, 1), Some(o), Some(0), false);
    to := Next(to, o, SetHave(0), Having(0, 1), Readying(0, 1), Some(o), Some(0), false);
  }

  lemma NotReady(s: State, o: nat)
    requires Trying(s, o, Readying(0, 1), Some(o), Some(0), true)
    ensures Enabled(s, TestReady(0)) && |Apply(s, TestReady(0)).cpus| == 2 && Stuck(Apply(s, TestReady(0)), 0)
  {
  }

  /** A run, for every size of the ring, at the end of which the object in the slot is there for good:
      the signalling CPU's own worker has not started. */
  lemma SignalLost(s: State) returns (tr: seq<State>)
    requires TwoCpus(s)
    ensures Run(tr) && tr[0] == s && |tr[|tr| - 1].cpus| == 2 && Stuck(tr[|tr| - 1], 0)
  {
    tr := Fill([s], 0, s.size, Unready);
    tr := ToTheMutex(tr);
    tr := ToTheSlot(tr, s.size);
    tr := ToTheStore(tr, s.size);
    tr := ToTheSignal(tr, s.size);
    NotReady(tr[|tr| - 1], s.size);
    tr := Then(tr, TestReady(0));
  }
}
