/**
  Mutual exclusion, assertion safety and "no hand-off is ever lost" for the mutex of
  LfMutex, over every run.  The proof follows a single token, the right to decide who
  gets the mutex next: it is with one thread, or published in `handoff`, or nowhere
  when nobody wants the mutex.
 */
module LfMutexProof {
  import opened LfMutex

  datatype Token = Free | With(t: Tid) | Published

  // ---- what a program counter says about its thread ----

  predicate InHandoff(p: Pc) { p.LoadHandoff? || p.SeePoplist? || p.SeePushlist? || p.Claim? }
  predicate InPop(p: Pc) { p.Pop? || p.Swap? || p.Reverse? || p.NoneLeft? || p.Got? }

  // How often the thread holds the mutex.
  function Depth(p: Pc): nat {
    if InHandoff(p) || InPop(p) then if p.who.BySend? then p.who.k else 0
    else
      match p
      case Out(k) => k
      case Probe(k) => k
      case Recount(k) => k
      case Deepen(k) => k
      case SendWake(k, _) => k
      case SendPush(k, _) => k
      case TryProbe(k) => k
      case TryLoad(k) => k
      case TryClaim(k, _) => k
      case _ => 0
  }

  // Its record is live, has been counted, and may be woken.
  predicate Waits(p: Pc) {
    p.Sleep? || p.Sent? || ((InHandoff(p) || InPop(p)) && p.who.ByLock?)
  }

  // It contributes one to `count`, ...
  predicate Counts(p: Pc) {
    Depth(p) > 0 || Waits(p) || p.Probe? || p.Enqueue? || p.TakeOwner? || p.TakeDepth? || p.ClearOwner? || p.Release?
  }

  // ... and here, re-entering, a second one.
  predicate Extra(p: Pc) { p.Recount? || (p.Probe? && p.k > 0) }

  predicate Owns(p: Pc) { Depth(p) > 0 || p.TakeDepth? || p.ClearOwner? }

  predicate PcHasToken(p: Pc) {
    Owns(p) || InPop(p) || p.SendWake? || p.TakeOwner? || p.TryCount? || p.Release?
  }

  // The pc promises that pop() finds a record.
  predicate MustFind(who: Caller) { who.ByUnlock? ==> who.round == 2 }

  // ---- the invariant ----

  function Those(pc: map<Tid, Pc>, f: Pc -> bool): set<Tid> { set t | t in pc && f(pc[t]) }

  // The part of the queue that the popping thread holds while it reverses the pushlist.
  function InHand(s: State, k: Token): seq<Tid> {
    if k.With? && k.t in s.pc && s.pc[k.t].Reverse? then s.pc[k.t].l else []
  }

  predicate Queued(s: State, k: Token, r: Tid) {
    r in InHand(s, k) || r in s.poplist || r in s.pushlist
  }

  // How often r is queued.
  function Times(s: State, k: Token, r: Tid): nat {
    multiset(InHand(s, k))[r] + multiset(s.poplist)[r] + multiset(s.pushlist)[r]
  }

  // r was popped by the token holder and is about to be woken.
  predicate Popped(s: State, k: Token, r: Tid) {
    k.With? && k.t in s.pc && s.pc[k.t].Got? && s.pc[k.t].r == r
  }

  // r's sender has counted it but neither pushed nor woken it.
  predicate BeingSent(s: State, r: Tid) {
    && r in s.pc && s.pc[r].Sent? && s.pc[r].sender in s.pc
    && var p := s.pc[s.pc[r].sender]; (p.SendPush? || p.SendWake?) && p.r == r
  }

  // t will still try to claim the hand-off that is published now.
  predicate Claims(s: State, t: Tid) {
    && t in s.pc && InHandoff(s.pc[t])
    && (!s.pc[t].LoadHandoff? ==> s.pc[t].h == s.handoff)
  }

  predicate TokenOk(s: State, k: Token, t: Tid)
    requires t in s.pc
  {
    && ((PcHasToken(s.pc[t]) || t in s.woken) <==> k == With(t))
    && (Owns(s.pc[t]) <==> s.owner == Some(t))
    && (Depth(s.pc[t]) > 0 ==> s.depth == Depth(s.pc[t]))
    && (s.pc[t].Deepen? || s.pc[t].Recount? ==> Depth(s.pc[t]) > 0)
    && (InPop(s.pc[t]) || s.pc[t].SendWake? ==> Depth(s.pc[t]) == 0)
    && (t in s.woken ==> Waits(s.pc[t]) && !InPop(s.pc[t]))
  }

  // Where t's record is, and which records t handles.
  predicate RecordOk(s: State, k: Token, t: Tid)
    requires t in s.pc
  {
    var p := s.pc[t];
    && (Waits(p) ==> t in s.woken || Queued(s, k, t) || Popped(s, k, t) || BeingSent(s, t))
    && (Queued(s, k, t) ==> Waits(p) && t !in s.woken && !BeingSent(s, t) && !Popped(s, k, t))
    && (BeingSent(s, t) ==> t !in s.woken && !Popped(s, k, t))
    && (Popped(s, k, t) ==> Waits(p) && t !in s.woken)
    && (p.Got? ==> p.r in s.pc)
    && (p.SendPush? || p.SendWake? ==> p.r in s.pc && s.pc[p.r] == Sent(t))
  }

  predicate ViewOk(s: State, t: Tid)
    requires t in s.pc
  {
    var p := s.pc[t];
    && (p.SeePoplist? || p.SeePushlist? || p.Claim? || p.TryClaim? ==> 0 < p.h <= s.sequence)
    && (p.SeePushlist? && p.h == s.handoff ==> s.poplist == [])
    && (p.Claim? && p.h == s.handoff ==> s.poplist != [] || s.pushlist != [])
    && (p.Pop? && MustFind(p.who) ==> s.poplist != [] || s.pushlist != [])
    && (p.Swap? ==> s.poplist == [] && (MustFind(p.who) ==> s.pushlist != []))
    && (p.Reverse? ==> p.l != [])
    && (p.NoneLeft? ==> !MustFind(p.who))
    && (InPop(p) && p.who.ByUnlock? ==> 1 <= p.who.round <= 2)
    && (InHandoff(p) && p.who.ByUnlock? ==> p.who.round == 1 && !p.LoadHandoff?)
    && !p.Failed?
  }

  predicate Thread(s: State, k: Token, t: Tid)
    requires t in s.pc
  {
    TokenOk(s, k, t) && RecordOk(s, k, t) && ViewOk(s, t)
  }

  ghost predicate Global(s: State, k: Token) {
    && s.count == |Those(s.pc, Counts)| + |Those(s.pc, Extra)|
    && (k == Free <==> s.count == 0)
    && (k == Published <==> s.handoff != 0)
    && (k.With? ==> k.t in s.pc)
    && s.handoff <= s.sequence
    && (s.owner.Some? ==> s.owner.value in s.pc)
    && (forall r | Queued(s, k, r) :: r in s.pc)
    && (forall r :: Times(s, k, r) <= 1)
    && (s.handoff != 0 && (s.poplist != [] || s.pushlist != []) ==> exists t :: Claims(s, t))
  }

  ghost predicate Inv(s: State, k: Token) {
    && Global(s, k)
    && forall t | t in s.pc :: Thread(s, k, t)
  }

  // ---- counting ----

  lemma ThoseUpdate(pc: map<Tid, Pc>, t: Tid, p: Pc, f: Pc -> bool)
    requires t in pc
    ensures |Those(pc[t := p], f)| == |Those(pc, f)| - (if f(pc[t]) then 1 else 0) + (if f(p) then 1 else 0)
    ensures Those(pc[t := p], f) == if f(p) then Those(pc, f) + {t} else Those(pc, f) - {t}
  {
    var c, c' := Those(pc, f), Those(pc[t := p], f);
    assert c' == if f(p) then c + {t} else c - {t};
  }

  function One(b: bool): int { if b then 1 else 0 }

  // count moves with the contribution of t
  predicate CountMoves(s: State, s': State, t: Tid)
    requires t in s.pc && t in s'.pc
  {
    var p, p' := s.pc[t], s'.pc[t];
    s'.count == s.count + One(Counts(p')) - One(Counts(p)) + One(Extra(p')) - One(Extra(p))
  }

  lemma CountStep(s: State, s': State, t: Tid)
    requires t in s.pc && t in s'.pc && s'.pc == s.pc[t := s'.pc[t]]
    requires s.count == |Those(s.pc, Counts)| + |Those(s.pc, Extra)|
    requires CountMoves(s, s', t)
    ensures s'.count == |Those(s'.pc, Counts)| + |Those(s'.pc, Extra)|
  {
    ThoseUpdate(s.pc, t, s'.pc[t], Counts);
    ThoseUpdate(s.pc, t, s'.pc[t], Extra);
  }

  // ---- what a step does not disturb ----

  // What u has read of the queue and the hand-off stays true.
  predicate ViewKept(s: State, s': State, p: Pc) {
    || (s'.handoff == s.handoff && s'.poplist == s.poplist && (s.pushlist != [] ==> s'.pushlist != []))
    || (!InPop(p) && (p.SeePushlist? || p.Claim? ==> p.h != s'.handoff))
  }

  // Nothing the invariant says about thread u has changed.
  predicate Undisturbed(s: State, k: Token, s': State, k': Token, u: Tid) {
    && u in s.pc && u in s'.pc && s'.pc[u] == s.pc[u]
    && (u in s'.woken <==> u in s.woken)
    && (k' == With(u) <==> k == With(u))
    && (s'.owner == Some(u) <==> s.owner == Some(u))
    && (s.owner == Some(u) ==> s'.depth == s.depth)
    && (Queued(s', k', u) <==> Queued(s, k, u))
    && (Popped(s', k', u) <==> Popped(s, k, u))
    && (BeingSent(s', u) <==> BeingSent(s, u))
    && s'.pc.Keys == s.pc.Keys
    && (s.pc[u].SendPush? || s.pc[u].SendWake? ==> s.pc[u].r in s.pc && s'.pc[s.pc[u].r] == s.pc[s.pc[u].r])
    && s.sequence <= s'.sequence
    && ViewKept(s, s', s.pc[u])
  }

  lemma OtherThread(s: State, k: Token, s': State, k': Token, u: Tid)
    requires u in s.pc && Thread(s, k, u) && Undisturbed(s, k, s', k', u)
    ensures Thread(s', k', u)
  {
  }

  /** The steps of t that touch neither queue, hand-off nor records. */
  ghost predicate LocalStep(s: State, k: Token, s': State, k': Token, t: Tid) {
    && t in s.pc && t in s'.pc && s'.pc == s.pc[t := s'.pc[t]]
    && s' == s.(pc := s'.pc, count := s'.count, owner := s'.owner, depth := s'.depth)
    && (k' == k || (k == Free && k' == With(t)) || (k == With(t) && k' == Free))
    && var p, p' := s.pc[t], s'.pc[t];
    && (Waits(p) <==> Waits(p'))
    && !p.Got? && !p'.Got? && !p.SendPush? && !p'.SendPush? && !p.SendWake? && !p'.SendWake?
    && !p.Reverse? && !p'.Reverse? && !p.Sent? && !p'.Sent?
    && (k != With(t) ==> s'.depth == s.depth)
    && (s'.owner == s.owner || (k == With(t) && s'.owner in {None, Some(t)}))
  }

  // What a local step has to establish about its own thread.
  ghost predicate LocalOk(s: State, k: Token, s': State, k': Token, t: Tid) {
    && LocalStep(s, k, s', k', t)
    && TokenOk(s', k', t) && ViewOk(s', t)
    && CountMoves(s, s', t)
    && (k' == Free <==> s'.count == 0)
    && (Claims(s, t) ==> Claims(s', t) || s.handoff == 0 || (s.poplist == [] && s.pushlist == []))
  }

  lemma LocalRecords(s: State, k: Token, s': State, k': Token, t: Tid, u: Tid)
    requires LocalStep(s, k, s', k', t) && u in s.pc
    ensures InHand(s', k') == InHand(s, k)
    ensures Popped(s', k', u) == Popped(s, k, u) && BeingSent(s', u) == BeingSent(s, u)
  {
  }

  lemma LocalThread(s: State, k: Token, s': State, k': Token, t: Tid, u: Tid)
    requires LocalOk(s, k, s', k', t) && Thread(s, k, t)
    requires u in s.pc && Thread(s, k, u)
    ensures Thread(s', k', u)
  {
    LocalRecords(s, k, s', k', t, u);
    if u != t {
      OtherThread(s, k, s', k', u);
    }
  }

  lemma LocalGlobal(s: State, k: Token, s': State, k': Token, t: Tid)
    requires LocalOk(s, k, s', k', t) && Global(s, k)
    ensures Global(s', k')
  {
    CountStep(s, s', t);
    LocalRecords(s, k, s', k', t, t);
    forall r ensures Times(s', k', r) <= 1 {
      assert Times(s, k, r) <= 1;
    }
    if s.handoff != 0 && (s.poplist != [] || s.pushlist != []) {
      var c :| Claims(s, c);
      assert c == t || Claims(s', c);
    }
  }

  lemma KeepLocal(s: State, k: Token, s': State, k': Token, t: Tid)
    requires Inv(s, k) && LocalOk(s, k, s', k', t)
    ensures Inv(s', k')
  {
    LocalGlobal(s, k, s', k', t);
    forall u | u in s'.pc ensures Thread(s', k', u) {
      LocalThread(s, k, s', k', t, u);
    }
  }

  // ---- the local steps of each operation ----

  // What the invariant says about thread t alone.
  predicate Own(s: State, k: Token, t: Tid) {
    && t in s.pc && TokenOk(s, k, t) && ViewOk(s, t)
    && (k == Free <==> s.count == 0) && (k == Published <==> s.handoff != 0)
    && s.handoff <= s.sequence
    && s.count >= One(Counts(s.pc[t])) + One(Extra(s.pc[t]))
  }

  lemma InvOwn(s: State, k: Token, t: Tid)
    requires Inv(s, k) && t in s.pc
    ensures Own(s, k, t)
  {
    ThoseUpdate(s.pc, t, s.pc[t], Counts);
    ThoseUpdate(s.pc, t, s.pc[t], Extra);
  }

  lemma LockIsLocal(s: State, k: Token, t: Tid)
    requires Own(s, k, t) && s.pc[t].Out?
    ensures LocalOk(s, k, StartLock(s, t), if s.count == 0 then With(t) else k, t)
  {
  }

  lemma TryLockIsLocal(s: State, k: Token, t: Tid)
    requires Own(s, k, t) && s.pc[t].Out?
    ensures LocalOk(s, k, StartTry(s, t), if s.count == 0 then With(t) else k, t)
  {
  }

  lemma UnlockIsLocal(s: State, k: Token, t: Tid)
    requires Own(s, k, t) && s.pc[t].Out? && s.pc[t].k > 0
    ensures LocalOk(s, k, StartUnlock(s, t), k, t)
  {
  }

  lemma ParkIsLocal(s: State, k: Token, t: Tid, p: Pc)
    requires Own(s, k, t) && s.pc[t] in {Out(0), Parked} && p in {Out(0), Parked}
    ensures LocalOk(s, k, At(s, t, p), k, t)
  {
  }

  lemma ReentryIsLocal(s: State, k: Token, t: Tid)
    requires Own(s, k, t)
    requires s.pc[t].Probe? || s.pc[t].Recount? || s.pc[t].Deepen?
    ensures LocalOk(s, k, GoLock(s, t), k, t)
  {
  }

  lemma LoadIsLocal(s: State, k: Token, t: Tid)
    requires Own(s, k, t) && s.pc[t].LoadHandoff?
    ensures LocalOk(s, k, GoHandoff(s, t), k, t)
  {
  }

  lemma LookIsLocal(s: State, k: Token, t: Tid)
    requires Own(s, k, t) && (s.pc[t].SeePoplist? || s.pc[t].SeePushlist?)
    ensures LocalOk(s, k, GoHandoff(s, t), k, t)
  {
  }

  lemma MissIsLocal(s: State, k: Token, t: Tid)
    requires Own(s, k, t) && s.pc[t].Claim? && s.pc[t].h != s.handoff
    ensures LocalOk(s, k, GoHandoff(s, t), k, t)
  {
  }

  lemma TakeIsLocal(s: State, k: Token, t: Tid)
    requires Own(s, k, t)
    requires s.pc[t].TakeOwner? || s.pc[t].TakeDepth?
    ensures LocalOk(s, k, GoTake(s, t), k, t)
  {
  }

  lemma TryProbeIsLocal(s: State, k: Token, t: Tid)
    requires Own(s, k, t) && (s.pc[t].TryProbe? || s.pc[t].TryCount?)
    ensures LocalOk(s, k, GoTry(s, t), k, t)
  {
  }

  lemma TryLoadIsLocal(s: State, k: Token, t: Tid)
    requires Own(s, k, t) && (s.pc[t].TryLoad? || (s.pc[t].TryClaim? && s.pc[t].h != s.handoff))
    ensures LocalOk(s, k, GoTry(s, t), k, t)
  {
  }

  lemma ReleaseIsLocal(s: State, k: Token, t: Tid)
    requires Own(s, k, t)
    requires s.pc[t].ClearOwner? || s.pc[t].Release?
    ensures LocalOk(s, k, GoUnlock(s, t), if s.pc[t].Release? && s.count == 1 then Free else k, t)
  {
  }

  // ---- pushing a record: by its own thread, or by its sender ----

  // t pushes r, its own record or the one it was asked to send.
  predicate PushStep(s: State, t: Tid, r: Tid, s': State) {
    && t in s.pc && r in s.pc && t in s'.pc
    && s' == At(s, t, s'.pc[t]).(pushlist := [r] + s.pushlist)
    && ((s.pc[t].Enqueue? && r == t && s'.pc[t] == LoadHandoff(ByLock)) ||
        (s.pc[t].SendPush? && r == s.pc[t].r && s.pc[r] == Sent(t) && s'.pc[t] == LoadHandoff(BySend(s.pc[t].k))))
  }

  lemma PushSelf(s: State, k: Token, t: Tid, r: Tid, s': State)
    requires PushStep(s, t, r, s') && Thread(s, k, t) && Thread(s, k, r)
    ensures Thread(s', k, t)
  {
    assert InHand(s', k) == InHand(s, k);
  }

  lemma PushTarget(s: State, k: Token, t: Tid, r: Tid, s': State)
    requires PushStep(s, t, r, s') && r != t && Thread(s, k, r)
    ensures Thread(s', k, r)
  {
    assert InHand(s', k) == InHand(s, k);
  }

  lemma PushOther(s: State, k: Token, t: Tid, r: Tid, s': State, u: Tid)
    requires PushStep(s, t, r, s') && u in s.pc && u != t && u != r && RecordOk(s, k, u)
    ensures Undisturbed(s, k, s', k, u)
  {
    assert InHand(s', k) == InHand(s, k);
    assert Popped(s', k, u) == Popped(s, k, u);
    assert BeingSent(s', u) == BeingSent(s, u);
  }

  lemma PushTimes(s: State, k: Token, t: Tid, r: Tid, s': State, x: Tid)
    requires PushStep(s, t, r, s') && !Queued(s, k, r) && Times(s, k, x) <= 1
    ensures Times(s', k, x) <= 1 && (Queued(s', k, x) <==> x == r || Queued(s, k, x))
  {
    assert InHand(s', k) == InHand(s, k);
  }

  lemma PushGlobal(s: State, k: Token, t: Tid, r: Tid, s': State)
    requires Global(s, k) && PushStep(s, t, r, s') && !Queued(s, k, r)
    ensures Global(s', k)
  {
    CountStep(s, s', t);
    forall x ensures Times(s', k, x) <= 1 && (Queued(s', k, x) <==> x == r || Queued(s, k, x)) {
      PushTimes(s, k, t, r, s', x);
    }
    assert Claims(s', t);
  }

  lemma KeepPush(s: State, k: Token, t: Tid, r: Tid, s': State)
    requires Inv(s, k) && PushStep(s, t, r, s')
    ensures Inv(s', k)
  {
    assert Thread(s, k, t) && Thread(s, k, r);
    PushGlobal(s, k, t, r, s');
    forall u | u in s'.pc ensures Thread(s', k, u) {
      if u == t {
        PushSelf(s, k, t, r, s');
      } else if u == r {
        PushTarget(s, k, t, r, s');
      } else {
        PushOther(s, k, t, r, s', u);
        OtherThread(s, k, s', k, u);
      }
    }
  }

  // ---- what the token holder's steps do to the others ----

  // u's record is where it was.
  predicate RecordKept(s: State, k: Token, s': State, k': Token, u: Tid) {
    && (u in s'.woken <==> u in s.woken)
    && (Queued(s', k', u) <==> Queued(s, k, u))
    && (Popped(s', k', u) <==> Popped(s, k, u))
  }

  // The step of t only changes t's program counter, takes or publishes the hand-off,
  // and leaves every owner but t alone.
  predicate HolderStep(s: State, k: Token, s': State, k': Token, t: Tid) {
    && t in s.pc && t in s'.pc && s'.pc == s.pc[t := s'.pc[t]]
    && !s.pc[t].SendPush? && !s'.pc[t].SendPush? && !s'.pc[t].SendWake? && !s'.pc[t].Sent?
    && !BeingSent(s, t)
    && (s'.owner == s.owner || s'.owner == Some(t))
    && s.sequence <= s'.sequence && (s'.handoff == 0 || s'.handoff > s.sequence)
  }

  lemma HolderOther(s: State, k: Token, s': State, k': Token, t: Tid, u: Tid)
    requires HolderStep(s, k, s', k', t) && u in s.pc && u != t
    requires k != With(u) && k' != With(u) && Thread(s, k, u)
    requires RecordKept(s, k, s', k', u) && (s.pc[t].SendWake? ==> s.pc[t].r != u)
    ensures Undisturbed(s, k, s', k', u)
  {
    assert s.pc[u].SendPush? || s.pc[u].SendWake? ==> s.pc[s.pc[u].r] == Sent(u);
    assert BeingSent(s', u) == BeingSent(s, u);
  }

  // ---- queue_mpsc::pop() by the token holder ----

  // t moves records from list to list, or takes r out.
  predicate PopStep(s: State, k: Token, t: Tid, s': State) {
    && t in s.pc && k == With(t) && s.handoff == 0
    && (s.pc[t].Pop? || s.pc[t].Swap? || s.pc[t].Reverse?)
    && Thread(s, k, t) && s' == GoPop(s, t)
  }

  lemma ReverseMoves(s: State, k: Token, t: Tid, s': State, u: Tid)
    requires PopStep(s, k, t, s') && !s'.pc[t].Got? && s.pc[t].Reverse?
    ensures Queued(s', k, u) <==> Queued(s, k, u)
    ensures Times(s', k, u) == Times(s, k, u)
  {
    var l := s.pc[t].l;
    assert l == [l[0]] + l[1..];
  }

  lemma PopMoves(s: State, k: Token, t: Tid, s': State, u: Tid)
    requires PopStep(s, k, t, s') && !s'.pc[t].Got?
    ensures Queued(s', k, u) <==> Queued(s, k, u)
    ensures Times(s', k, u) == Times(s, k, u)
  {
    if s.pc[t].Reverse? {
      ReverseMoves(s, k, t, s', u);
    }
  }

  lemma PopTakes(s: State, k: Token, t: Tid, s': State, u: Tid)
    requires PopStep(s, k, t, s') && s'.pc[t].Got?
    ensures Times(s', k, u) == Times(s, k, u) - One(u == s'.pc[t].r)
    ensures u != s'.pc[t].r ==> (Queued(s', k, u) <==> Queued(s, k, u))
    ensures Times(s, k, u) <= 1 && u == s'.pc[t].r ==> Queued(s, k, u) && !Queued(s', k, u)
  {
    if s.pc[t].Pop? {
      assert s.poplist == [s.poplist[0]] + s.poplist[1..];
    } else {
      assert s.pc[t].l == [s.pc[t].l[0]];
    }
  }

  lemma PopOwnRecord(s: State, k: Token, t: Tid, s': State)
    requires PopStep(s, k, t, s') && Times(s, k, t) <= 1
    requires s'.pc[t].Got? ==> s'.pc[t].r in s.pc
    ensures RecordOk(s', k, t)
  {
    if s'.pc[t].Got? {
      PopTakes(s, k, t, s', t);
    } else {
      PopMoves(s, k, t, s', t);
    }
  }

  lemma PopView(s: State, k: Token, t: Tid, s': State)
    requires PopStep(s, k, t, s')
    ensures TokenOk(s', k, t) && ViewOk(s', t)
  {
  }

  lemma PopSelf(s: State, k: Token, t: Tid, s': State)
    requires PopStep(s, k, t, s') && Times(s, k, t) <= 1
    requires s'.pc[t].Got? ==> s'.pc[t].r in s.pc
    ensures Thread(s', k, t)
  {
    PopOwnRecord(s, k, t, s');
    PopView(s, k, t, s');
  }

  lemma PopTarget(s: State, k: Token, t: Tid, s': State, r: Tid)
    requires PopStep(s, k, t, s') && r in s.pc && r != t && s'.pc[t].Got? && s'.pc[t].r == r
    requires Thread(s, k, r) && Times(s, k, r) <= 1
    ensures Thread(s', k, r)
  {
    PopTakes(s, k, t, s', r);
  }

  lemma PopOther(s: State, k: Token, t: Tid, s': State, u: Tid)
    requires PopStep(s, k, t, s') && u in s.pc && u != t && !(s'.pc[t].Got? && s'.pc[t].r == u)
    ensures RecordKept(s, k, s', k, u)
  {
    if s'.pc[t].Got? {
      PopTakes(s, k, t, s', u);
    } else {
      PopMoves(s, k, t, s', u);
    }
  }

  lemma PopQueue(s: State, k: Token, t: Tid, s': State, r: Tid)
    requires PopStep(s, k, t, s') && Times(s, k, r) <= 1 && (Queued(s, k, r) ==> r in s.pc)
    ensures Times(s', k, r) <= 1 && (Queued(s', k, r) ==> r in s'.pc)
  {
    if s'.pc[t].Got? {
      PopTakes(s, k, t, s', r);
    } else {
      PopMoves(s, k, t, s', r);
    }
  }

  lemma PopGlobal(s: State, k: Token, t: Tid, s': State)
    requires Global(s, k) && PopStep(s, k, t, s')
    ensures Global(s', k)
  {
    CountStep(s, s', t);
    PopQueues(s, k, t, s');
  }

  lemma PopQueues(s: State, k: Token, t: Tid, s': State)
    requires PopStep(s, k, t, s') && (forall r :: Times(s, k, r) <= 1) && forall r | Queued(s, k, r) :: r in s.pc
    ensures (forall r :: Times(s', k, r) <= 1) && forall r | Queued(s', k, r) :: r in s'.pc
  {
    forall r
      ensures Times(s', k, r) <= 1
      ensures Queued(s', k, r) ==> r in s'.pc
    {
      assert Times(s, k, r) <= 1;
      PopQueue(s, k, t, s', r);
    }
  }

  lemma KeepPop(s: State, k: Token, t: Tid, s': State)
    requires Inv(s, k) && PopStep(s, k, t, s')
    requires s'.pc[t].Got? ==> s'.pc[t].r in s.pc
    ensures Inv(s', k)
  {
    PopGlobal(s, k, t, s');
    forall u | u in s'.pc ensures Thread(s', k, u) {
      assert Times(s, k, u) <= 1;
      if u == t {
        PopSelf(s, k, t, s');
      } else if s'.pc[t].Got? && s'.pc[t].r == u {
        PopTarget(s, k, t, s', u);
      } else {
        PopOther(s, k, t, s', u);
        HolderOther(s, k, s', k, t, u);
        OtherThread(s, k, s', k, u);
      }
    }
  }

  // ---- claiming and publishing the hand-off ----

  predicate ClaimStep(s: State, t: Tid, s': State) {
    && t in s.pc && (s.pc[t].Claim? || s.pc[t].TryClaim?) && s.pc[t].h == s.handoff
    && s' == if s.pc[t].Claim? then GoHandoff(s, t) else GoTry(s, t)
  }

  lemma ClaimSelf(s: State, t: Tid, s': State)
    requires ClaimStep(s, t, s') && Thread(s, Published, t)
    ensures Thread(s', With(t), t)
  {
    assert InHand(s', With(t)) == InHand(s, Published);
  }

  lemma ClaimGlobal(s: State, t: Tid, s': State)
    requires ClaimStep(s, t, s') && Global(s, Published) && Thread(s, Published, t)
    ensures Global(s', With(t))
  {
    CountStep(s, s', t);
    assert InHand(s', With(t)) == InHand(s, Published);
    forall r ensures Times(s', With(t), r) <= 1 {
      assert Times(s, Published, r) <= 1;
    }
  }

  lemma KeepClaim(s: State, k: Token, t: Tid, s': State)
    requires Inv(s, k) && ClaimStep(s, t, s')
    ensures Inv(s', With(t))
  {
    assert Thread(s, k, t);
    assert k == Published;
    ClaimGlobal(s, t, s');
    forall u | u in s'.pc ensures Thread(s', With(t), u) {
      if u == t {
        ClaimSelf(s, t, s');
      } else {
        HolderOther(s, k, s', With(t), t, u);
        OtherThread(s, k, s', With(t), u);
      }
    }
  }

  lemma PublishSelf(s: State, k: Token, t: Tid)
    requires t in s.pc && s.pc[t].NoneLeft? && Thread(s, k, t)
    ensures Thread(GoPopped(s, t), Published, t)
  {
    assert InHand(GoPopped(s, t), Published) == InHand(s, k);
  }

  lemma PublishGlobal(s: State, k: Token, t: Tid)
    requires Global(s, k) && t in s.pc && s.pc[t].NoneLeft? && Thread(s, k, t)
    ensures Global(GoPopped(s, t), Published)
  {
    var s' := GoPopped(s, t);
    CountStep(s, s', t);
    assert InHand(s', Published) == InHand(s, k);
    forall r ensures Times(s', Published, r) <= 1 {
      assert Times(s, k, r) <= 1;
    }
    assert Claims(s', t);
  }

  lemma KeepPublish(s: State, k: Token, t: Tid)
    requires Inv(s, k) && t in s.pc && s.pc[t].NoneLeft?
    ensures Inv(GoPopped(s, t), Published)
  {
    var s' := GoPopped(s, t);
    assert Thread(s, k, t);
    PublishGlobal(s, k, t);
    forall u | u in s'.pc ensures Thread(s', Published, u) {
      if u == t {
        PublishSelf(s, k, t);
      } else {
        HolderOther(s, k, s', Published, t, u);
        OtherThread(s, k, s', Published, u);
      }
    }
  }

  // ---- waking a record passes on the token ----

  // t wakes the record r, which it popped, or which it is sending.
  predicate WakeStep(s: State, k: Token, t: Tid, r: Tid, s': State) {
    && t in s.pc && r in s.pc && r != t && Thread(s, k, t) && Thread(s, k, r)
    && ((s.pc[t].Got? && s.pc[t].r == r && s' == GoPopped(s, t)) ||
        (s.pc[t].SendWake? && s.pc[t].r == r && s' == GoSend(s, t)))
  }

  lemma WakeEffect(s: State, k: Token, t: Tid, r: Tid, s': State)
    requires WakeStep(s, k, t, r, s')
    ensures k == With(t)
    ensures s' == At(s, t, s'.pc[t]).(woken := s.woken + {r})
    ensures s'.pc[t] == if s.pc[t].Got? then GiveUp(s.pc[t].who) else Out(0)
  {
  }

  lemma WakeSelf(s: State, k: Token, t: Tid, r: Tid, s': State)
    requires WakeStep(s, k, t, r, s')
    ensures Thread(s', With(r), t)
  {
    WakeEffect(s, k, t, r, s');
    assert InHand(s', With(r)) == InHand(s, k);
  }

  lemma WakeTarget(s: State, k: Token, t: Tid, r: Tid, s': State)
    requires WakeStep(s, k, t, r, s')
    ensures Thread(s', With(r), r)
  {
    WakeEffect(s, k, t, r, s');
    assert InHand(s', With(r)) == InHand(s, k);
  }

  lemma WakeOther(s: State, k: Token, t: Tid, r: Tid, s': State, u: Tid)
    requires WakeStep(s, k, t, r, s') && u in s.pc && u != t && u != r && Thread(s, k, u) && s.handoff == 0
    ensures Thread(s', With(r), u)
  {
    WakeEffect(s, k, t, r, s');
    assert InHand(s', With(r)) == InHand(s, k);
    HolderOther(s, k, s', With(r), t, u);
    OtherThread(s, k, s', With(r), u);
  }

  lemma WakeGlobal(s: State, k: Token, t: Tid, r: Tid, s': State)
    requires WakeStep(s, k, t, r, s') && Global(s, k)
    ensures Global(s', With(r))
  {
    WakeEffect(s, k, t, r, s');
    CountStep(s, s', t);
    assert InHand(s', With(r)) == InHand(s, k);
    forall x ensures Times(s', With(r), x) <= 1 {
      assert Times(s, k, x) <= 1;
    }
  }

  lemma KeepWake(s: State, k: Token, t: Tid, r: Tid, s': State)
    requires Inv(s, k) && WakeStep(s, k, t, r, s')
    ensures Inv(s', With(r))
  {
    WakeEffect(s, k, t, r, s');
    WakeGlobal(s, k, t, r, s');
    forall u | u in s'.pc ensures Thread(s', With(r), u) {
      if u == t {
        WakeSelf(s, k, t, r, s');
      } else if u == r {
        WakeTarget(s, k, t, r, s');
      } else {
        WakeOther(s, k, t, r, s', u);
      }
    }
  }

  // ---- receiving the token: by popping one's own record, or by being woken ----

  predicate ReceiveStep(s: State, k: Token, t: Tid, s': State) {
    && t in s.pc && Thread(s, k, t)
    && ((s.pc[t].Got? && s.pc[t].r == t && s' == GoPopped(s, t)) ||
        ((s.pc[t].Sleep? || s.pc[t].Sent?) && t in s.woken && s' == GoLock(s, t)))
  }

  lemma ReceiveEffect(s: State, k: Token, t: Tid, s': State)
    requires ReceiveStep(s, k, t, s')
    ensures k == With(t) && s' == At(s, t, TakeOwner).(woken := s.woken - {t})
    ensures Waits(s.pc[t]) && !Queued(s, k, t) && !BeingSent(s, t) && InHand(s', k) == InHand(s, k)
  {
  }

  lemma ReceiveSelf(s: State, k: Token, t: Tid, s': State)
    requires ReceiveStep(s, k, t, s')
    ensures Thread(s', k, t)
  {
    ReceiveEffect(s, k, t, s');
  }

  lemma ReceiveGlobal(s: State, k: Token, t: Tid, s': State)
    requires ReceiveStep(s, k, t, s') && Global(s, k)
    ensures Global(s', k)
  {
    ReceiveEffect(s, k, t, s');
    CountStep(s, s', t);
    forall x ensures Times(s', k, x) <= 1 {
      assert Times(s, k, x) <= 1;
    }
  }

  lemma ReceiveOther(s: State, k: Token, t: Tid, s': State, u: Tid)
    requires ReceiveStep(s, k, t, s') && u in s.pc && u != t && Thread(s, k, u) && s.handoff == 0
    ensures Thread(s', k, u)
  {
    ReceiveEffect(s, k, t, s');
    HolderOther(s, k, s', k, t, u);
    OtherThread(s, k, s', k, u);
  }

  lemma KeepReceive(s: State, k: Token, t: Tid, s': State)
    requires Inv(s, k) && ReceiveStep(s, k, t, s')
    ensures Inv(s', k)
  {
    ReceiveGlobal(s, k, t, s');
    forall u | u in s'.pc ensures Thread(s', k, u) {
      if u == t {
        ReceiveSelf(s, k, t, s');
      } else {
        ReceiveEffect(s, k, t, s');
        ReceiveOther(s, k, t, s', u);
      }
    }
  }

  // ---- send_lock() counts its target ----

  predicate SendStep(s: State, t: Tid, r: Tid, s': State) {
    && t in s.pc && s.pc[t].Out? && r in s.pc && s.pc[r] == Parked && s' == StartSend(s, t, r)
  }

  lemma SendSelf(s: State, k: Token, k': Token, t: Tid, r: Tid, s': State)
    requires SendStep(s, t, r, s') && Own(s, k, t) && Thread(s, k, t)
    requires k' == if s.count == 0 then With(t) else k
    ensures Thread(s', k', t)
  {
    assert InHand(s', k') == InHand(s, k);
  }

  lemma SendTarget(s: State, k: Token, k': Token, t: Tid, r: Tid, s': State)
    requires SendStep(s, t, r, s') && Own(s, k, t) && Thread(s, k, r)
    requires k' == if s.count == 0 then With(t) else k
    ensures Thread(s', k', r)
  {
    assert InHand(s', k') == InHand(s, k);
  }

  lemma SendOther(s: State, k: Token, k': Token, t: Tid, r: Tid, s': State, u: Tid)
    requires SendStep(s, t, r, s') && Own(s, k, t)
    requires k' == if s.count == 0 then With(t) else k
    requires u in s.pc && u != t && u != r && Thread(s, k, u)
    ensures Undisturbed(s, k, s', k', u)
  {
    assert InHand(s', k') == InHand(s, k);
    assert s.pc[u].SendPush? || s.pc[u].SendWake? ==> s.pc[s.pc[u].r] == Sent(u);
    assert BeingSent(s', u) == BeingSent(s, u);
    assert Popped(s', k', u) == Popped(s, k, u);
  }

  lemma SendCount(s: State, k: Token, t: Tid, r: Tid, s': State)
    requires SendStep(s, t, r, s') && Own(s, k, t) && s.count == |Those(s.pc, Counts)| + |Those(s.pc, Extra)|
    ensures s'.count == |Those(s'.pc, Counts)| + |Those(s'.pc, Extra)|
  {
    var m := At(s, r, Sent(t)).(count := s.count + 1);
    CountStep(s, m, r);
    CountStep(m, s', t);
  }

  lemma SendTimes(s: State, k: Token, k': Token, t: Tid, r: Tid, s': State)
    requires SendStep(s, t, r, s') && Own(s, k, t) && k' == if s.count == 0 then With(t) else k
    ensures forall x :: Times(s', k', x) == Times(s, k, x) && (Queued(s', k', x) <==> Queued(s, k, x))
  {
    assert InHand(s', k') == InHand(s, k);
  }

  lemma SendGlobal(s: State, k: Token, k': Token, t: Tid, r: Tid, s': State)
    requires SendStep(s, t, r, s') && Own(s, k, t) && Global(s, k)
    requires k' == if s.count == 0 then With(t) else k
    ensures Global(s', k')
  {
    SendCount(s, k, t, r, s');
    SendTimes(s, k, k', t, r, s');
    if s.handoff != 0 && (s.poplist != [] || s.pushlist != []) {
      var c :| Claims(s, c);
      assert Claims(s', c);
    }
  }

  lemma KeepSend(s: State, k: Token, k': Token, t: Tid, r: Tid, s': State)
    requires Inv(s, k) && SendStep(s, t, r, s')
    requires k' == if s.count == 0 then With(t) else k
    ensures Inv(s', k')
  {
    InvOwn(s, k, t);
    SendGlobal(s, k, k', t, r, s');
    forall u | u in s'.pc ensures Thread(s', k', u) {
      if u == t {
        SendSelf(s, k, k', t, r, s');
      } else if u == r {
        SendTarget(s, k, k', t, r, s');
      } else {
        SendOther(s, k, k', t, r, s', u);
        OtherThread(s, k, s', k', u);
      }
    }
  }

  // ---- every step keeps the invariant ----

  lemma KeepGoLock(s: State, k: Token, t: Tid)
    requires Inv(s, k) && Enabled(s, t, Go)
    requires s.pc[t].Probe? || s.pc[t].Recount? || s.pc[t].Deepen? ||
             s.pc[t].Enqueue? || s.pc[t].Sleep? || s.pc[t].Sent?
    ensures Inv(GoLock(s, t), k)
  {
    var s' := GoLock(s, t);
    if s.pc[t].Enqueue? {
      KeepPush(s, k, t, t, s');
    } else if s.pc[t].Sleep? || s.pc[t].Sent? {
      KeepReceive(s, k, t, s');
    } else {
      InvOwn(s, k, t);
      ReentryIsLocal(s, k, t);
      KeepLocal(s, k, s', k, t);
    }
  }

  lemma KeepGoSend(s: State, k: Token, t: Tid) returns (k': Token)
    requires Inv(s, k) && t in s.pc && (s.pc[t].SendWake? || s.pc[t].SendPush?)
    ensures Inv(GoSend(s, t), k')
  {
    var s', r := GoSend(s, t), s.pc[t].r;
    assert Thread(s, k, t);
    if s.pc[t].SendPush? {
      KeepPush(s, k, t, r, s');
      k' := k;
    } else {
      assert Thread(s, k, r);
      KeepWake(s, k, t, r, s');
      k' := With(r);
    }
  }

  lemma KeepGoHandoff(s: State, k: Token, t: Tid) returns (k': Token)
    requires Inv(s, k) && t in s.pc
    requires s.pc[t].LoadHandoff? || s.pc[t].SeePoplist? || s.pc[t].SeePushlist? || s.pc[t].Claim?
    ensures Inv(GoHandoff(s, t), k')
  {
    var s' := GoHandoff(s, t);
    if s.pc[t].Claim? && s.pc[t].h == s.handoff {
      KeepClaim(s, k, t, s');
      k' := With(t);
    } else {
      k' := k;
      InvOwn(s, k, t);
      if s.pc[t].LoadHandoff? {
        LoadIsLocal(s, k, t);
      } else if s.pc[t].Claim? {
        MissIsLocal(s, k, t);
      } else {
        LookIsLocal(s, k, t);
      }
      KeepLocal(s, k, s', k, t);
    }
  }

  lemma KeepGoPop(s: State, k: Token, t: Tid)
    requires Inv(s, k) && t in s.pc && (s.pc[t].Pop? || s.pc[t].Swap? || s.pc[t].Reverse?)
    ensures Inv(GoPop(s, t), k)
  {
    var s' := GoPop(s, t);
    assert Thread(s, k, t);
    if s'.pc[t].Got? {
      assert Times(s, k, s'.pc[t].r) <= 1;
      PopTakes(s, k, t, s', s'.pc[t].r);
    }
    KeepPop(s, k, t, s');
  }

  lemma KeepGoPopped(s: State, k: Token, t: Tid) returns (k': Token)
    requires Inv(s, k) && t in s.pc && (s.pc[t].NoneLeft? || s.pc[t].Got?)
    ensures Inv(GoPopped(s, t), k')
  {
    var s' := GoPopped(s, t);
    assert Thread(s, k, t);
    if s.pc[t].NoneLeft? {
      KeepPublish(s, k, t);
      k' := Published;
    } else if s.pc[t].r == t {
      KeepReceive(s, k, t, s');
      k' := k;
    } else {
      assert Thread(s, k, s.pc[t].r);
      KeepWake(s, k, t, s.pc[t].r, s');
      k' := With(s.pc[t].r);
    }
  }

  lemma KeepGoTry(s: State, k: Token, t: Tid) returns (k': Token)
    requires Inv(s, k) && t in s.pc
    requires s.pc[t].TryProbe? || s.pc[t].TryLoad? || s.pc[t].TryClaim? || s.pc[t].TryCount?
    ensures Inv(GoTry(s, t), k')
  {
    var s' := GoTry(s, t);
    if s.pc[t].TryClaim? && s.pc[t].h == s.handoff {
      KeepClaim(s, k, t, s');
      k' := With(t);
    } else {
      k' := k;
      InvOwn(s, k, t);
      if s.pc[t].TryProbe? || s.pc[t].TryCount? {
        TryProbeIsLocal(s, k, t);
      } else {
        TryLoadIsLocal(s, k, t);
      }
      KeepLocal(s, k, s', k, t);
    }
  }

  lemma KeepGoTake(s: State, k: Token, t: Tid)
    requires Inv(s, k) && t in s.pc && (s.pc[t].TakeOwner? || s.pc[t].TakeDepth?)
    ensures Inv(GoTake(s, t), k)
  {
    InvOwn(s, k, t);
    TakeIsLocal(s, k, t);
    KeepLocal(s, k, GoTake(s, t), k, t);
  }

  lemma KeepGoUnlock(s: State, k: Token, t: Tid) returns (k': Token)
    requires Inv(s, k) && t in s.pc && (s.pc[t].ClearOwner? || s.pc[t].Release?)
    ensures Inv(GoUnlock(s, t), k')
  {
    k' := if s.pc[t].Release? && s.count == 1 then Free else k;
    InvOwn(s, k, t);
    ReleaseIsLocal(s, k, t);
    KeepLocal(s, k, GoUnlock(s, t), k', t);
  }

  lemma KeepContinue(s: State, k: Token, t: Tid) returns (k': Token)
    requires Inv(s, k) && Enabled(s, t, Go)
    ensures Inv(Continue(s, t), k')
  {
    var p := s.pc[t];
    if p.Probe? || p.Recount? || p.Deepen? || p.Enqueue? || p.Sleep? || p.Sent? {
      KeepGoLock(s, k, t);
      k' := k;
    } else if p.SendWake? || p.SendPush? {
      k' := KeepGoSend(s, k, t);
    } else if p.LoadHandoff? || p.SeePoplist? || p.SeePushlist? || p.Claim? {
      k' := KeepGoHandoff(s, k, t);
    } else if p.Pop? || p.Swap? || p.Reverse? {
      KeepGoPop(s, k, t);
      k' := k;
    } else if p.NoneLeft? || p.Got? {
      k' := KeepGoPopped(s, k, t);
    } else if p.TryProbe? || p.TryLoad? || p.TryClaim? || p.TryCount? {
      k' := KeepGoTry(s, k, t);
    } else if p.TakeOwner? || p.TakeDepth? {
      KeepGoTake(s, k, t);
      k' := k;
    } else {
      k' := KeepGoUnlock(s, k, t);
    }
  }

  lemma KeepStart(s: State, k: Token, t: Tid, a: Act) returns (k': Token)
    requires Inv(s, k) && Enabled(s, t, a) && !a.Send? && !a.Go?
    ensures Inv(Apply(s, t, a), k')
  {
    InvOwn(s, k, t);
    k' := if a in {Lock, TryLock} && s.count == 0 then With(t) else k;
    match a {
      case Lock => LockIsLocal(s, k, t);
      case TryLock => TryLockIsLocal(s, k, t);
      case Unlock => UnlockIsLocal(s, k, t);
      case Park => ParkIsLocal(s, k, t, Parked);
      case Unpark => ParkIsLocal(s, k, t, Out(0));
    }
    KeepLocal(s, k, Apply(s, t, a), k', t);
  }

  lemma KeepStep(s: State, k: Token, t: Tid, a: Act) returns (k': Token)
    requires Inv(s, k) && Enabled(s, t, a)
    ensures Inv(Apply(s, t, a), k')
  {
    if a.Go? {
      k' := KeepContinue(s, k, t);
    } else if a.Send? {
      k' := if s.count == 0 then With(t) else k;
      KeepSend(s, k, k', t, a.r, Apply(s, t, a));
    } else {
      k' := KeepStart(s, k, t, a);
    }
  }

  // ---- what it means ----

  /** One holder, who has locked as often as `depth` says; one popper, as queue_mpsc
      requires; only live, unwoken records are woken; no assert() fails. */
  ghost predicate Safe(s: State) {
    && (forall t, u | t in s.pc && u in s.pc && Depth(s.pc[t]) > 0 && Depth(s.pc[u]) > 0 :: t == u)
    && (forall t | t in s.pc && Depth(s.pc[t]) > 0 :: s.owner == Some(t) && s.depth == Depth(s.pc[t]))
    && (forall t, u | t in s.pc && u in s.pc && InPop(s.pc[t]) && InPop(s.pc[u]) :: t == u)
    && (forall t | t in s.pc && (s.pc[t].Got? || s.pc[t].SendWake?) ::
          s.pc[t].r in s.pc && Waits(s.pc[s.pc[t].r]) && s.pc[t].r !in s.woken)
    && (forall t | t in s.pc :: s.pc[t] != Failed)
  }

  // t has counted itself, or is counting another, but has not pushed the record.
  predicate NotYetPushed(p: Pc) { p == Probe(0) || p.Enqueue? || p.SendPush? }

  /** A published hand-off is still going to be claimed. */
  ghost predicate HandoffKept(s: State) {
    s.handoff != 0 ==>
      if s.poplist != [] || s.pushlist != [] then exists t :: Claims(s, t)
      else exists t | t in s.pc :: NotYetPushed(s.pc[t])
  }

  /** unlock() pops at most twice, and the second pop() finds a record. */
  ghost predicate TwoRounds(s: State) {
    forall t | t in s.pc && InPop(s.pc[t]) && s.pc[t].who.ByUnlock? ::
      s.pc[t].who.round <= 2 && (s.pc[t].NoneLeft? ==> s.pc[t].who.round == 1)
  }

  /** Nobody waits in vain: while a thread wants the mutex, some thread is inside the
      critical section or can take a step of a mutex operation. */
  ghost predicate NotStuck(s: State) {
    (exists t | t in s.pc :: Counts(s.pc[t])) ==>
      exists u | u in s.pc :: Enabled(s, u, Go) || (s.pc[u].Out? && s.pc[u].k > 0)
  }

  lemma InvSafe(s: State, k: Token)
    requires Inv(s, k)
    ensures Safe(s)
  {
    forall t | t in s.pc && (s.pc[t].Got? || s.pc[t].SendWake?)
      ensures s.pc[t].r in s.pc && Waits(s.pc[s.pc[t].r]) && s.pc[t].r !in s.woken
    {
      assert Thread(s, k, t);
      assert Thread(s, k, s.pc[t].r);
    }
  }

  lemma SomeCounted(s: State, k: Token) returns (t: Tid)
    requires Global(s, k) && s.count != 0
    ensures t in s.pc && (Counts(s.pc[t]) || Extra(s.pc[t]))
  {
    if Those(s.pc, Counts) != {} {
      t :| t in Those(s.pc, Counts);
    } else {
      t :| t in Those(s.pc, Extra);
    }
  }

  lemma WaiterNotPushed(s: State, t: Tid) returns (u: Tid)
    requires t in s.pc && Thread(s, Published, t) && (Counts(s.pc[t]) || Extra(s.pc[t]))
    requires s.poplist == [] && s.pushlist == []
    requires s.pc[t].Sent? && s.pc[t].sender in s.pc ==> Thread(s, Published, s.pc[t].sender)
    ensures u in s.pc && NotYetPushed(s.pc[u])
  {
    u := if Waits(s.pc[t]) then s.pc[t].sender else t;
  }

  lemma InvHandoffKept(s: State, k: Token)
    requires Inv(s, k)
    ensures HandoffKept(s)
  {
    if s.handoff != 0 && s.poplist == [] && s.pushlist == [] {
      var t := SomeCounted(s, k);
      var u := WaiterNotPushed(s, t);
    }
  }

  lemma InvTwoRounds(s: State, k: Token)
    requires Inv(s, k)
    ensures TwoRounds(s)
  {
    forall t | t in s.pc ensures ViewOk(s, t) {
      assert Thread(s, k, t);
    }
  }

  lemma HolderCanGo(s: State, t: Tid)
    requires t in s.pc && TokenOk(s, With(t), t) && !s.pc[t].Failed?
    ensures Enabled(s, t, Go) || (s.pc[t].Out? && s.pc[t].k > 0)
  {
  }

  lemma InvNotStuck(s: State, k: Token)
    requires Inv(s, k)
    ensures NotStuck(s)
  {
    if t :| t in s.pc && Counts(s.pc[t]) {
      InvOwn(s, k, t);
      if k.With? {
        assert Thread(s, k, k.t);
        HolderCanGo(s, k.t);
      } else {
        InvHandoffKept(s, k);
        if c :| Claims(s, c) {
          assert Enabled(s, c, Go);
        } else {
          var u :| u in s.pc && NotYetPushed(s.pc[u]);
          assert Enabled(s, u, Go);
        }
      }
    }
  }

  // ---- the two-list queue is a FIFO ----

  function Rev(l: seq<Tid>): seq<Tid> {
    if l == [] then [] else Rev(l[1..]) + [l[0]]
  }

  // The queued records, longest waiting first.
  function Fifo(s: State, k: Token): seq<Tid> {
    Rev(InHand(s, k)) + s.poplist + Rev(s.pushlist)
  }

  lemma PushIsFifo(s: State, k: Token, t: Tid, r: Tid, s': State)
    requires PushStep(s, t, r, s')
    ensures Fifo(s', k) == Fifo(s, k) + [r]
  {
    assert InHand(s', k) == InHand(s, k);
    assert s'.pushlist[1..] == s.pushlist;
  }

  // A reversal in progress takes the next record from the front of what is left.
  lemma ReverseIsFifo(s: State, k: Token, t: Tid, s': State)
    requires PopStep(s, k, t, s') && s.pc[t].Reverse?
    ensures Fifo(s, k) == if s'.pc[t].Got? then [s'.pc[t].r] + Fifo(s', k) else Fifo(s', k)
  {
    var l := s.pc[t].l;
    assert |l| == 1 ==> Rev(l) == [l[0]];
  }

  lemma PopIsFifo(s: State, k: Token, t: Tid, s': State)
    requires PopStep(s, k, t, s')
    ensures Fifo(s, k) == if s'.pc[t].Got? then [s'.pc[t].r] + Fifo(s', k) else Fifo(s', k)
  {
    if s.pc[t].Reverse? {
      ReverseIsFifo(s, k, t, s');
    }
  }

  // ---- over every run ----

  lemma InitInv(s: State)
    requires Init(s)
    ensures Inv(s, Free)
  {
    assert Those(s.pc, Counts) == {};
    assert Those(s.pc, Extra) == {};
  }

  lemma {:induction false} RunInv(tr: seq<State>, i: nat) returns (k: Token)
    requires Run(tr) && i < |tr|
    ensures Inv(tr[i], k)
  {
    if i == 0 {
      InitInv(tr[0]);
      k := Free;
    } else {
      k := RunInv(tr, i - 1);
      assert Step(tr[i - 1], tr[i]);
      var t, a :| Enabled(tr[i - 1], t, a) && tr[i] == Apply(tr[i - 1], t, a);
      k := KeepStep(tr[i - 1], k, t, a);
    }
  }

  /** In every state of every run. */
  lemma MutexIsCorrect(tr: seq<State>, i: nat)
    requires Run(tr) && i < |tr|
    ensures Safe(tr[i]) && HandoffKept(tr[i]) && TwoRounds(tr[i]) && NotStuck(tr[i])
  {
    var k := RunInv(tr, i);
    InvSafe(tr[i], k);
    InvHandoffKept(tr[i], k);
    InvTwoRounds(tr[i], k);
    InvNotStuck(tr[i], k);
  }
}
