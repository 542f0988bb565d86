/** What every run of the RCU model keeps: a callback outlasts the sections it must outlast. */
module RcuProof {
  import opened Rcu

  // ---- the invariant ----

  predicate Started(g: Gc) {
    g.Asking? || g.Swapping? || g.Checking? || g.Running?
  }

  // A CPU's counters, and the reader on it.
  ghost predicate CpuOk(s: State, c: nat)
    requires c < |s.cpus|
  {
    var p := s.cpus[c];
    && p.gen <= p.req <= s.generation && (p.worker.Loaded? ==> p.gen <= p.worker.r <= p.req)
    && (p.depth > 0 ==> p.section < s.nextSection && (p.known ==> c in s.registered))
    && (p.depth == 0 ==> p.holds == {})
  }

  ghost predicate ListsOk(s: State) {
    && (forall i | 0 <= i < |s.registered| :: s.registered[i] < |s.cpus|)
    && (forall i | 0 <= i < |s.asked| :: s.asked[i] in s.registered)
    && (s.gc.Idle? <==> s.batch == [])
  }

  // How far the garbage collector has asked and checked.
  ghost predicate GcOk(s: State)
    requires ListsOk(s)
  {
    match s.gc
    case Idle => true
    case Took => true
    case Asking(k) => k < |s.asked| && Asked(s, k)
    case Swapping(k, r) => k < |s.asked| && Asked(s, k) && r == s.cpus[s.asked[k]].req
    case Checking(k) => k < |s.asked| && Asked(s, |s.asked|) && Checked(s, k)
    case Running => Checked(s, |s.asked|)
  }

  ghost predicate Asked(s: State, n: nat)
    requires ListsOk(s) && n <= |s.asked|
  {
    forall i | 0 <= i < n :: s.cpus[s.asked[i]].req >= s.generation
  }

  ghost predicate Checked(s: State, n: nat)
    requires ListsOk(s) && n <= |s.asked|
  {
    forall i | 0 <= i < n :: s.cpus[s.asked[i]].gen >= s.generation
  }

  // A section some callback waits for: it has begun.
  ghost predicate WaitOk(s: State, w: (nat, nat)) {
    w.0 < |s.cpus| && w.1 < s.nextSection
  }

  /** For a callback of the batch: if the section is still running, its CPU has not answered if it
      was asked, and it was if it was registered when the section began. */
  ghost predicate BatchWaitOk(s: State, w: (nat, nat)) {
    Started(s.gc) && Active(s, w) ==>
      && (w.0 in s.asked ==> s.cpus[w.0].gen < s.generation)
      && (s.cpus[w.0].known ==> w.0 in s.asked)
  }

  ghost predicate WaitsOk(s: State) {
    && (forall i, w | 0 <= i < |s.callbacks| && w in s.callbacks[i].waits :: WaitOk(s, w))
    && (forall i, w | 0 <= i < |s.batch| && w in s.batch[i].waits :: WaitOk(s, w) && BatchWaitOk(s, w))
  }

  // ---- and the objects ----

  // All callbacks, those of the batch first.
  function Pending(s: State): seq<Callback> {
    s.batch + s.callbacks
  }

  ghost predicate ObjectsOk(s: State) {
    && s.ptr < s.next && s.ptr !in s.retired && s.ptr !in s.deleted
    && (forall o | o in s.retired :: o < s.next && o !in s.deleted)
    && (forall o | o in s.deleted :: o < s.next)
    && (forall i | 0 <= i < |Pending(s)| :: PendingOk(s, Pending(s)[i].obj))
    && (forall i, j | 0 <= i < j < |Pending(s)| :: Pending(s)[i].obj != Pending(s)[j].obj)
  }

  ghost predicate PendingOk(s: State, o: nat) {
    o < s.next && o != s.ptr && o !in s.retired && o !in s.deleted
  }

  // An object a reader has read is still there for it.
  ghost predicate Reachable(s: State, o: nat, w: (nat, nat)) {
    o == s.ptr || o in s.retired ||
      exists i :: 0 <= i < |Pending(s)| && Pending(s)[i].obj == o && w in Pending(s)[i].waits
  }

  ghost predicate HoldsOk(s: State) {
    forall c: nat, o | c < |s.cpus| && s.cpus[c].known && o in s.cpus[c].holds ::
      Reachable(s, o, (c, s.cpus[c].section))
  }

  ghost predicate GraceInv(s: State) {
    && (forall c: nat | c < |s.cpus| :: CpuOk(s, c)) && ListsOk(s) && GcOk(s) && WaitsOk(s)
  }

  ghost predicate Inv(s: State) {
    GraceInv(s) && ObjectsOk(s) && HoldsOk(s)
  }

  // ---- what it gives ----

  /** When a callback runs, every section that was running when it was registered has ended, on each
      CPU that was registered when the grace period began. */
  lemma RunsAfterGrace(s: State, w: (nat, nat))
    requires GraceInv(s) && Enabled(s, GcRuns) && w in s.batch[0].waits && w.0 in s.asked
    ensures !Active(s, w)
  {
    assert BatchWaitOk(s, w);
    var i :| 0 <= i < |s.asked| && s.asked[i] == w.0;
    assert s.cpus[s.asked[i]].gen >= s.generation;
  }

  // ---- every step keeps it ----

  lemma KeepCpus(s: State, a: Act, c: nat)
    requires GraceInv(s) && Enabled(s, a) && c < |s.cpus|
    ensures CpuOk(Apply(s, a), c)
  {
    assert CpuOk(s, c);
  }

  lemma KeepLists(s: State, a: Act)
    requires GraceInv(s) && Enabled(s, a)
    ensures ListsOk(Apply(s, a))
  {
  }

  // The counters of the CPUs only grow.
  ghost predicate Grows(s: State, t: State) {
    && |t.cpus| == |s.cpus| && t.asked == s.asked && t.generation == s.generation
    && (forall c | 0 <= c < |s.cpus| :: t.cpus[c].req >= s.cpus[c].req)
    && (forall c | 0 <= c < |s.cpus| :: t.cpus[c].gen >= s.cpus[c].gen)
  }

  lemma StepGrows(s: State, a: Act)
    requires GraceInv(s) && Enabled(s, a) && !a.GcStarts?
    ensures Grows(s, Apply(s, a))
  {
    if a.WorkerStores? {
      assert CpuOk(s, a.c);
    } else if a.GcSwaps? {
      assert CpuOk(s, s.asked[s.gc.k]);
    }
  }

  lemma GrowsAsked(s: State, t: State, n: nat)
    requires ListsOk(s) && ListsOk(t) && Grows(s, t) && n <= |s.asked|
    ensures Asked(s, n) ==> Asked(t, n)
    ensures Checked(s, n) ==> Checked(t, n)
  {
    forall i | 0 <= i < n ensures t.cpus[t.asked[i]].req >= s.cpus[s.asked[i]].req
                          ensures t.cpus[t.asked[i]].gen >= s.cpus[s.asked[i]].gen {
      assert s.asked[i] in s.registered;
    }
  }

  predicate Collects(a: Act) {
    a.GcTakes? || a.GcStarts? || a.GcLoads? || a.GcSwaps? || a.GcChecks? || a.GcRuns?
  }

  // A step of a reader, a worker or a writer.
  lemma KeepGcElse(s: State, t: State)
    requires ListsOk(s) && ListsOk(t) && GcOk(s) && Grows(s, t) && t.gc == s.gc
    requires s.gc.Swapping? ==> s.gc.k < |s.asked| && t.cpus[t.asked[s.gc.k]].req == s.cpus[s.asked[s.gc.k]].req
    ensures GcOk(t)
  {
    if s.gc.Asking? || s.gc.Swapping? || s.gc.Checking? {
      GrowsAsked(s, t, s.gc.k);
    }
    GrowsAsked(s, t, |s.asked|);
  }

  // A step of the collector that changes nothing of the CPUs.
  lemma KeepGcOwn(s: State, a: Act, t: State)
    requires GraceInv(s) && Enabled(s, a) && (a.GcTakes? || a.GcLoads? || a.GcChecks? || a.GcRuns?)
    requires t == Apply(s, a) && ListsOk(t)
    ensures GcOk(t)
  {
    if a.GcLoads? || a.GcChecks? {
      assert s.asked[s.gc.k] in s.registered;
    }
  }

  lemma KeepGc(s: State, a: Act)
    requires GraceInv(s) && Enabled(s, a) && ListsOk(Apply(s, a))
    ensures GcOk(Apply(s, a))
  {
    var t := Apply(s, a);
    if a.GcStarts? {
      assert Asked(t, 0) && Checked(t, 0);
    } else if a.GcSwaps? {
      StepGrows(s, a);
      GrowsAsked(s, t, s.gc.k);
      assert CpuOk(s, s.asked[s.gc.k]);
      KeepSwap(s, t, a.spurious);
    } else if Collects(a) {
      KeepGcOwn(s, a, t);
    } else {
      StepGrows(s, a);
      KeepGcElse(s, t);
    }
  }

  lemma KeepSwap(s: State, t: State, spurious: bool)
    requires ListsOk(s) && ListsOk(t) && GcOk(s) && Enabled(s, GcSwaps(spurious)) && t == Swap(s, spurious)
    requires Asked(t, s.gc.k) && s.cpus[s.asked[s.gc.k]].req <= s.generation
    ensures GcOk(t)
  {
    if !t.gc.Swapping? {
      assert Asked(t, s.gc.k + 1);
    }
  }

  // A step that is not the garbage collector's start keeps what is known of a wait.
  lemma KeepBatchWait(s: State, a: Act, w: (nat, nat))
    requires GraceInv(s) && Enabled(s, a) && !a.GcStarts? && !a.GcTakes? && WaitOk(s, w) && BatchWaitOk(s, w)
    ensures WaitOk(Apply(s, a), w) && BatchWaitOk(Apply(s, a), w)
  {
  }

  lemma KeepWait(s: State, a: Act, w: (nat, nat))
    requires Enabled(s, a) && WaitOk(s, w)
    ensures WaitOk(Apply(s, a), w)
  {
  }

  // At the start no CPU has seen the new generation, and all registered ones are asked.
  lemma StartWait(s: State, w: (nat, nat))
    requires GraceInv(s) && Enabled(s, GcStarts) && WaitOk(s, w)
    ensures BatchWaitOk(Apply(s, GcStarts), w)
  {
    assert CpuOk(s, w.0);
  }

  lemma SectionWaitOk(s: State, w: (nat, nat))
    requires GraceInv(s) && w in Sections(s)
    ensures WaitOk(s, w)
  {
    assert CpuOk(s, w.0);
  }

  lemma KeepWaits(s: State, a: Act)
    requires GraceInv(s) && Enabled(s, a)
    ensures WaitsOk(Apply(s, a))
  {
    var t := Apply(s, a);
    forall i, w | 0 <= i < |t.callbacks| && w in t.callbacks[i].waits ensures WaitOk(t, w) {
      if i < |s.callbacks| {
        assert WaitOk(s, w);
      } else {
        SectionWaitOk(s, w);
      }
      KeepWait(s, a, w);
    }
    forall i, w | 0 <= i < |t.batch| && w in t.batch[i].waits ensures WaitOk(t, w) && BatchWaitOk(t, w) {
      if a.GcTakes? {
        assert t.batch[i] == s.callbacks[i] && WaitOk(s, w);
      } else {
        var j := if a.GcRuns? then i + 1 else i;
        assert s.batch[j] == t.batch[i] && WaitOk(s, w) && BatchWaitOk(s, w);
        if a.GcStarts? {
          StartWait(s, w);
        } else {
          KeepBatchWait(s, a, w);
        }
      }
    }
  }

  lemma KeepGrace(s: State, a: Act)
    requires GraceInv(s) && Enabled(s, a)
    ensures GraceInv(Apply(s, a))
  {
    forall c: nat | c < |s.cpus| ensures CpuOk(Apply(s, a), c) {
      KeepCpus(s, a, c);
    }
    KeepLists(s, a);
    KeepGc(s, a);
    KeepWaits(s, a);
  }

  lemma PendingStep(s: State, a: Act)
    requires Enabled(s, a) && (s.gc.Idle? ==> s.batch == [])
    ensures var p, q := Pending(s), Pending(Apply(s, a));
            match a
            case Dispose(o) => q == p + [Callback(o, Sections(s))]
            case GcRuns => q == p[1..] && p != [] && p[0] == s.batch[0]
            case _ => q == p
  {
  }

  lemma KeepObjects(s: State, a: Act)
    requires Inv(s) && Enabled(s, a)
    ensures ObjectsOk(Apply(s, a))
  {
    PendingStep(s, a);
    var p, q := Pending(s), Pending(Apply(s, a));
    forall i | 0 <= i < |q| ensures PendingOk(Apply(s, a), q[i].obj) {
      if a.GcRuns? {
        assert q[i] == p[i + 1] && PendingOk(s, p[i + 1].obj);
      } else if i < |p| {
        assert PendingOk(s, p[i].obj);
      }
    }
  }

  lemma KeepHold(s: State, a: Act, c: nat, o: nat)
    requires Inv(s) && Enabled(s, a) && c < |s.cpus| && Apply(s, a).cpus[c].known && o in Apply(s, a).cpus[c].holds
    ensures Reachable(Apply(s, a), o, (c, Apply(s, a).cpus[c].section))
  {
    var t := Apply(s, a);
    var p, q := Pending(s), Pending(t);
    PendingStep(s, a);
    assert CpuOk(s, c);
    var w := (c, s.cpus[c].section);
    if o !in s.cpus[c].holds {
      assert o == s.ptr == t.ptr;
    } else {
      assert t.cpus[c].section == w.1 && Reachable(s, o, w);
      if o != s.ptr && o !in s.retired {
        var i :| 0 <= i < |p| && p[i].obj == o && w in p[i].waits;
        HeldPending(s, a, o, w, i);
      } else if o in s.retired && o !in t.retired {
        assert w in Sections(s) && q[|p|] == Callback(o, Sections(s));
      }
    }
  }

  // A pending callback that a section holds up is not the one that runs.
  lemma HeldPending(s: State, a: Act, o: nat, w: (nat, nat), i: nat)
    requires Inv(s) && Enabled(s, a) && i < |Pending(s)| && Pending(s)[i].obj == o && w in Pending(s)[i].waits
    requires Active(s, w) && s.cpus[w.0].known
    ensures exists j :: 0 <= j < |Pending(Apply(s, a))| && Pending(Apply(s, a))[j] == Pending(s)[i]
  {
    PendingStep(s, a);
    var q := Pending(Apply(s, a));
    if a.GcRuns? {
      if i == 0 {
        assert BatchWaitOk(s, w);
        RunsAfterGrace(s, w);
        assert false;
      }
      assert q[i - 1] == Pending(s)[i];
    } else {
      assert q[i] == Pending(s)[i];
    }
  }

  lemma KeepHolds(s: State, a: Act)
    requires Inv(s) && Enabled(s, a)
    ensures HoldsOk(Apply(s, a))
  {
    var t := Apply(s, a);
    forall c: nat, o | c < |t.cpus| && t.cpus[c].known && o in t.cpus[c].holds
      ensures Reachable(t, o, (c, t.cpus[c].section)) {
      KeepHold(s, a, c, o);
    }
  }

  // ---- every run ----

  lemma InitInv(s: State)
    requires Init(s)
    ensures Inv(s)
  {
  }

  lemma {:induction false} RunInv(tr: seq<State>, i: nat)
    requires Run(tr) && i < |tr|
    ensures Inv(tr[i])
  {
    if i == 0 {
      InitInv(tr[0]);
    } else {
      RunInv(tr, i - 1);
      var s := tr[i - 1];
      assert Step(s, tr[i - 1 + 1]);
      var a :| Enabled(s, a) && tr[i] == Apply(s, a);
      KeepGrace(s, a);
      KeepObjects(s, a);
      KeepHolds(s, a);
    }
  }

  /** In every run: a callback runs only after the sections that were running when it was registered
      have ended, on all CPUs that were registered when the grace period began; and no reader
      holds an object that has been deleted, if its CPU was registered when its section began. */
  lemma GraceIsKept(tr: seq<State>, i: nat)
    requires Run(tr) && i < |tr|
    ensures Enabled(tr[i], GcRuns) ==> forall w | w in tr[i].batch[0].waits && w.0 in tr[i].asked :: !Active(tr[i], w)
    ensures forall c: nat | c < |tr[i].cpus| && tr[i].cpus[c].known :: tr[i].cpus[c].holds !! tr[i].deleted
  {
    var s := tr[i];
    RunInv(tr, i);
    if Enabled(s, GcRuns) {
      forall w | w in s.batch[0].waits && w.0 in s.asked ensures !Active(s, w) {
        RunsAfterGrace(s, w);
      }
    }
    forall c: nat, o | c < |s.cpus| && s.cpus[c].known && o in s.cpus[c].holds ensures o !in s.deleted {
      assert Reachable(s, o, (c, s.cpus[c].section));
    }
  }

  /** The wait ends: a CPU the collector still waits for has a reader on it, or its worker can
      run, and then answers at the latest in its second round. */
  lemma WorkerCanAnswer(s: State)
    requires GraceInv(s) && s.gc.Checking? && s.cpus[s.asked[s.gc.k]].gen < s.generation
    ensures var c := s.asked[s.gc.k];
            && (s.cpus[c].depth > 0 || Enabled(s, WorkerLoads(c)) || Enabled(s, WorkerStores(c)))
            && (Enabled(s, WorkerLoads(c)) ==>
                  var t := Apply(s, WorkerLoads(c));
                  Enabled(t, WorkerStores(c)) && Apply(t, WorkerStores(c)).cpus[c].gen >= s.generation)
  {
    var c := s.asked[s.gc.k];
    assert c in s.registered && c < |s.cpus|;
    assert CpuOk(s, c);
  }

  // ---- and no more than that ----

  lemma AppendRun(tr: seq<State>, a: Act)
    requires Run(tr) && Enabled(tr[|tr| - 1], a)
    ensures Run(tr + [Apply(tr[|tr| - 1], a)])
  {
    var r := tr + [Apply(tr[|tr| - 1], a)];
    forall i | 0 <= i < |r| - 1 ensures Step(r[i], r[i + 1]) {
      if i < |tr| - 1 {
        assert Step(tr[i], tr[i + 1]);
      }
    }
  }

  // The steps a CPU that was asked still has to take before its answer is seen.
  function Work(p: Cpu, generation: nat): nat {
    if p.gen >= generation then 0
    else 3 * p.depth + if p.worker.Waiting? then 2 else if p.worker.r >= generation then 1 else 3
  }

  // How far the collector has to go: to ask, and then to see the answers.
  function Phase(g: Gc): nat { if g.Asking? || g.Swapping? then 2 else if g.Checking? then 1 else 0 }

  function Left(s: State): int { if Phase(s.gc) > 0 then |s.asked| - s.gc.k else 0 }

  function Now(s: State): nat {
    if s.gc.Asking? then 1
    else if s.gc.Checking? && s.gc.k < |s.asked| && s.asked[s.gc.k] < |s.cpus| then
      Work(s.cpus[s.asked[s.gc.k]], s.generation)
    else 0
  }

  // A step that brings the grace period closer to its end: the collector's, or one on the CPU it waits for.
  function Helps(s: State): Act
    requires Phase(s.gc) > 0 && s.gc.k < |s.asked| && s.asked[s.gc.k] < |s.cpus|
  {
    var c := s.asked[s.gc.k];
    if s.gc.Asking? then GcLoads
    else if s.gc.Swapping? then GcSwaps(false)
    else if s.cpus[c].gen >= s.generation then GcChecks
    else if s.cpus[c].depth > 0 then Unlock(c)
    else if s.cpus[c].worker.Waiting? then WorkerLoads(c)
    else WorkerStores(c)
  }

  lemma HelpsEnabled(s: State)
    requires GraceInv(s) && Phase(s.gc) > 0
    ensures s.gc.k < |s.asked| && s.asked[s.gc.k] < |s.cpus| && Enabled(s, Helps(s))
  {
    assert s.asked[s.gc.k] in s.registered;
    assert CpuOk(s, s.asked[s.gc.k]);
  }

  // It leaves everything but the CPU waited for alone.
  lemma HelpsOnly(s: State)
    requires GraceInv(s) && Phase(s.gc) > 0 && s.gc.k < |s.asked| && s.asked[s.gc.k] < |s.cpus| && Enabled(s, Helps(s))
    ensures var r := Apply(s, Helps(s));
            && r.batch == s.batch && r.asked == s.asked && r.generation == s.generation && Started(r.gc)
            && forall w | Active(s, w) && w.0 !in s.asked :: Active(r, w)
  {
  }

  lemma HelpsCloser(s: State)
    requires GraceInv(s) && Phase(s.gc) > 0 && s.gc.k < |s.asked| && s.asked[s.gc.k] < |s.cpus| && Enabled(s, Helps(s))
    ensures var r := Apply(s, Helps(s));
            || Phase(r.gc) < Phase(s.gc)
            || (Phase(r.gc) == Phase(s.gc) && 0 <= Left(r) < Left(s))
            || (Phase(r.gc) == Phase(s.gc) && Left(r) == Left(s) && Now(r) < Now(s))
  {
    assert s.asked[s.gc.k] in s.registered;
    assert CpuOk(s, s.asked[s.gc.k]);
  }

  /** From every state of a grace period its end can be reached, with all sections on CPUs that were
      not asked still running. */
  lemma {:induction false} CanEnd(tr: seq<State>) returns (to: seq<State>)
    requires Run(tr) && Started(tr[|tr| - 1].gc)
    ensures Run(to) && tr <= to
    ensures var s, r := tr[|tr| - 1], to[|to| - 1];
            && r.gc == Running && r.batch == s.batch && r.generation == s.generation
            && forall w | Active(s, w) && w.0 !in s.asked :: Active(r, w)
    decreases Phase(tr[|tr| - 1].gc), Left(tr[|tr| - 1]), Now(tr[|tr| - 1])
  {
    var s := tr[|tr| - 1];
    if s.gc == Running {
      to := tr;
    } else {
      RunInv(tr, |tr| - 1);
      HelpsEnabled(s);
      HelpsOnly(s);
      HelpsCloser(s);
      AppendRun(tr, Helps(s));
      to := CanEnd(tr + [Apply(s, Helps(s))]);
    }
  }

  // Within a grace period the CPUs asked stay the same.
  lemma {:induction false} AskedStays(tr: seq<State>, i: nat, j: nat)
    requires Run(tr) && i <= j < |tr|
    ensures tr[i].generation <= tr[j].generation
    ensures tr[i].generation == tr[j].generation ==> tr[i].asked == tr[j].asked
  {
    if i < j {
      AskedStays(tr, i, j - 1);
      assert Step(tr[j - 1], tr[j - 1 + 1]);
    }
  }

  // In the same grace period the first callback is to run while section w is running.
  ghost predicate RunsEarly(s: State, r: State, w: (nat, nat)) {
    r.generation == s.generation && Enabled(r, GcRuns) && r.batch == s.batch && Active(r, w)
  }

  /** The exact condition, in every state of every grace period, for a section that the first callback
      should wait for: it can be overtaken if and only if its CPU was not registered when the
      grace period began. */
  lemma OvertakenIff(tr: seq<State>, w: (nat, nat))
    requires Run(tr) && var s := tr[|tr| - 1]; Started(s.gc) && s.batch != [] && w in s.batch[0].waits && Active(s, w)
    ensures var s := tr[|tr| - 1];
            (exists to: seq<State> :: Run(to) && tr <= to && RunsEarly(s, to[|to| - 1], w)) <==> w.0 !in s.asked
  {
    var s := tr[|tr| - 1];
    if w.0 !in s.asked {
      var to := CanEnd(tr);
      assert RunsEarly(s, to[|to| - 1], w);
    } else {
      forall to: seq<State> | Run(to) && tr <= to ensures !RunsEarly(s, to[|to| - 1], w) {
        AskedStays(to, |tr| - 1, |to| - 1);
        RunInv(to, |to| - 1);
        if RunsEarly(s, to[|to| - 1], w) {
          RunsAfterGrace(to[|to| - 1], w);
        }
      }
    }
  }

  // A reader on CPU 0, which is not registered, and a callback for the object it holds.
  lemma ReaderFirst(s: State) returns (tr: seq<State>)
    requires Init(s) && |s.cpus| > 0
    ensures Run(tr) && |tr| == 5 && tr[0] == s && var r := tr[4];
            && r.gc == Idle && r.registered == [] && |r.callbacks| == 1 && |r.cpus| > 0
            && r.callbacks[0].obj == 0 && (0, 0) in r.callbacks[0].waits && Active(r, (0, 0)) && 0 in r.cpus[0].holds
  {
    tr := [s];
    AppendRun(tr, Lock(0));
    tr := tr + [Apply(tr[0], Lock(0))];
    AppendRun(tr, Read(0));
    tr := tr + [Apply(tr[1], Read(0))];
    AppendRun(tr, Assign);
    tr := tr + [Apply(tr[2], Assign)];
    var c: nat := 0;
    assert tr[3].cpus[c].depth > 0 && tr[3].cpus[c].section == 0;
    assert (c, tr[3].cpus[c].section) in Sections(tr[3]);
    AppendRun(tr, Dispose(0));
    tr := tr + [Apply(tr[3], Dispose(0))];
  }

  /** A run in which it happens: a reader on a CPU whose thread is not registered yet holds an object
      when the callback deletes it. */
  lemma RegisterFirst(s: State) returns (tr: seq<State>)
    requires Init(s) && |s.cpus| > 0
    ensures Run(tr) && |tr| == 8 && tr[0] == s
    ensures Enabled(tr[6], GcRuns) && (0, 0) in tr[6].batch[0].waits && Active(tr[6], (0, 0))
    ensures tr[7] == Apply(tr[6], GcRuns) && |tr[7].cpus| > 0 && 0 in tr[7].cpus[0].holds && 0 in tr[7].deleted
  {
    tr := ReaderFirst(s);
    AppendRun(tr, GcTakes);
    tr := tr + [Apply(tr[4], GcTakes)];
    AppendRun(tr, GcStarts);
    tr := tr + [Apply(tr[5], GcStarts)];
    AppendRun(tr, GcRuns);
    tr := tr + [Apply(tr[6], GcRuns)];
  }
}
