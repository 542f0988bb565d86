/**
  The lock-free recursive mutex of core/lfmutex.cc, with its "responsibility
  hand-off" protocol and the two-list wait queue of include/lockfree/queue-mpsc.hh,
  as an interleaving transition system: any number of threads, one atomic access
  per step.

  A wait record is named by the thread whose stack holds it, since a thread waits on
  at most one record at a time.  `pushlist` is newest first, as the linked list is;
  `poplist` is oldest first.
 */
module LfMutex {

  type Tid = nat

  datatype Option<T> = None | Some(value: T)

  // Which operation is executing the shared hand-off and pop() code.  A sender may
  // hold the mutex k times itself; an unlocker remembers its loop iteration.
  datatype Caller = ByLock | BySend(k: nat) | ByUnlock(round: nat)

  datatype Pc =
    // outside every call, holding the mutex k times
    | Out(k: nat)
    // lock()
    | Probe(k: nat) | Recount(k: nat) | Deepen(k: nat) | Enqueue | Sleep
    // send_lock(r) by a thread holding the mutex k times
    | SendWake(k: nat, r: Tid) | SendPush(k: nat, r: Tid)
    // waiting on a condition variable; the record not yet, or already, given to send_lock()
    | Parked | Sent(sender: Tid)
    // the hand-off protocol: handoff.load(), the two loads of empty(), compare_exchange
    | LoadHandoff(who: Caller)
    | SeePoplist(who: Caller, h: nat) | SeePushlist(who: Caller, h: nat) | Claim(who: Caller, h: nat)
    // queue_mpsc::pop()
    | Pop(who: Caller) | Swap(who: Caller) | Reverse(who: Caller, l: seq<Tid>)
    | NoneLeft(who: Caller) | Got(who: Caller, r: Tid)
    // taking possession: owner.store(), depth = 1
    | TakeOwner | TakeDepth
    // try_lock()
    | TryProbe(k: nat) | TryLoad(k: nat) | TryClaim(k: nat, h: nat) | TryCount
    // unlock()
    | ClearOwner | Release
    // an assert() of the code failed
    | Failed

  datatype State = State(
    count: int, owner: Option<Tid>, depth: nat,
    pushlist: seq<Tid>, poplist: seq<Tid>,
    handoff: nat, sequence: nat,
    woken: set<Tid>,        // records whose wake() has run
    pc: map<Tid, Pc>)

  // What a thread does next: it starts an operation, or continues the one it is in.
  datatype Act = Lock | TryLock | Unlock | Park | Unpark | Send(r: Tid) | Go

  predicate Init(s: State) {
    && s.count == 0 && s.owner == None && s.depth == 0
    && s.pushlist == [] && s.poplist == []
    && s.handoff == 0 && s.sequence == 0 && s.woken == {}
    && forall t | t in s.pc :: s.pc[t] == Out(0)
  }

  /** When thread t may take action a.  unlock() is only called by a holder, a thread
      gives up the mutex before it parks, and a record is sent at most once. */
  predicate Enabled(s: State, t: Tid, a: Act) {
    t in s.pc &&
    match a
    case Lock => s.pc[t].Out?
    case TryLock => s.pc[t].Out?
    case Unlock => s.pc[t].Out? && s.pc[t].k > 0
    case Park => s.pc[t] == Out(0)
    case Unpark => s.pc[t] == Parked
    case Send(r) => s.pc[t].Out? && r in s.pc && s.pc[r] == Parked
    case Go => (match s.pc[t]
                case Out(_) => false
                case Parked => false
                case Failed => false
                case Sleep => t in s.woken
                case Sent(_) => t in s.woken
                case _ => true)
  }

  // ---- the steps of each operation ----

  function At(s: State, t: Tid, p: Pc): State {
    s.(pc := s.pc[t := p])
  }

  // Where each caller goes when the hand-off is not its to take.
  function GiveUp(who: Caller): Pc {
    match who
    case ByLock => Sleep
    case BySend(k) => Out(k)
    case ByUnlock(_) => Out(0)
  }

  function StartLock(s: State, t: Tid): State
    requires t in s.pc && s.pc[t].Out?
  {
    At(s, t, if s.count == 0 then TakeOwner else Probe(s.pc[t].k)).(count := s.count + 1)
  }

  function StartTry(s: State, t: Tid): State
    requires t in s.pc && s.pc[t].Out?
  {
    if s.count == 0 then At(s, t, TakeOwner).(count := 1) else At(s, t, TryProbe(s.pc[t].k))
  }

  function StartUnlock(s: State, t: Tid): State
    requires t in s.pc && s.pc[t].Out? && s.pc[t].k > 0
  {
    if s.owner != Some(t) || s.depth == 0 then At(s, t, Failed)
    else if s.depth > 1 then At(s, t, Out(s.pc[t].k - 1)).(depth := s.depth - 1)
    else At(s, t, ClearOwner).(depth := 0)
  }

  function StartSend(s: State, t: Tid, r: Tid): State
    requires t in s.pc && s.pc[t].Out?
  {
    var k := s.pc[t].k;
    At(At(s, r, Sent(t)), t, if s.count == 0 then SendWake(k, r) else SendPush(k, r)).(count := s.count + 1)
  }

  function GoLock(s: State, t: Tid): State
    requires t in s.pc
    requires s.pc[t].Probe? || s.pc[t].Recount? || s.pc[t].Deepen? ||
             s.pc[t].Enqueue? || s.pc[t].Sleep? || s.pc[t].Sent?
  {
    match s.pc[t]
    case Probe(k) => At(s, t, if s.owner == Some(t) then Recount(k) else Enqueue)
    case Recount(k) => At(s, t, Deepen(k)).(count := s.count - 1)
    case Deepen(k) => At(s, t, Out(k + 1)).(depth := s.depth + 1)
    case Enqueue => At(s, t, LoadHandoff(ByLock)).(pushlist := [t] + s.pushlist)
    case Sleep => At(s, t, TakeOwner).(woken := s.woken - {t})
    case Sent(_) => At(s, t, TakeOwner).(woken := s.woken - {t})
  }

  function GoSend(s: State, t: Tid): State
    requires t in s.pc && (s.pc[t].SendWake? || s.pc[t].SendPush?)
  {
    match s.pc[t]
    case SendWake(k, r) => At(s, t, Out(k)).(woken := s.woken + {r})
    case SendPush(k, r) => At(s, t, LoadHandoff(BySend(k))).(pushlist := [r] + s.pushlist)
  }

  function GoHandoff(s: State, t: Tid): State
    requires t in s.pc
    requires s.pc[t].LoadHandoff? || s.pc[t].SeePoplist? || s.pc[t].SeePushlist? || s.pc[t].Claim?
  {
    match s.pc[t]
    case LoadHandoff(who) => At(s, t, if s.handoff != 0 then SeePoplist(who, s.handoff) else GiveUp(who))
    case SeePoplist(who, h) => At(s, t, if s.poplist != [] then Claim(who, h) else SeePushlist(who, h))
    case SeePushlist(who, h) => At(s, t, if s.pushlist != [] then Claim(who, h) else GiveUp(who))
    case Claim(who, h) =>
      if s.handoff != h then At(s, t, GiveUp(who))
      else At(s, t, Pop(if who.ByUnlock? then ByUnlock(who.round + 1) else who)).(handoff := 0)
  }

  function GoPop(s: State, t: Tid): State
    requires t in s.pc
    requires s.pc[t].Pop? || s.pc[t].Swap? || s.pc[t].Reverse?
  {
    match s.pc[t]
    case Pop(who) =>
      if s.poplist == [] then At(s, t, Swap(who))
      else At(s, t, Got(who, s.poplist[0])).(poplist := s.poplist[1..])
    case Swap(who) =>
      if s.pushlist == [] then At(s, t, NoneLeft(who))
      else At(s, t, Reverse(who, s.pushlist)).(pushlist := [])
    case Reverse(who, l) =>
      if l == [] then At(s, t, Failed)
      else if |l| == 1 then At(s, t, Got(who, l[0]))
      else At(s, t, Reverse(who, l[1..])).(poplist := [l[0]] + s.poplist)
  }

  function GoPopped(s: State, t: Tid): State
    requires t in s.pc && (s.pc[t].NoneLeft? || s.pc[t].Got?)
  {
    match s.pc[t]
    case NoneLeft(who) =>
      if !who.ByUnlock? then At(s, t, Failed)                  // assert(other)
      else At(s, t, SeePoplist(who, s.sequence + 1)).(sequence := s.sequence + 1, handoff := s.sequence + 1)
    case Got(who, r) =>
      if who.ByLock? && r == t && r !in s.woken then At(s, t, TakeOwner)
      else if who.ByLock? && t in s.woken then At(s, t, Failed)  // assert(waiter.thread())
      else if who.ByUnlock? && r == t && r !in s.woken then At(s, t, Failed)      // assert(other->thread() != current)
      else At(s, t, GiveUp(who)).(woken := s.woken + {r})
  }

  function GoTake(s: State, t: Tid): State
    requires t in s.pc && (s.pc[t].TakeOwner? || s.pc[t].TakeDepth?)
  {
    match s.pc[t]
    case TakeOwner => At(s, t, TakeDepth).(owner := Some(t))
    case TakeDepth => At(s, t, Out(1)).(depth := 1)
  }

  function GoTry(s: State, t: Tid): State
    requires t in s.pc && (s.pc[t].TryProbe? || s.pc[t].TryLoad? || s.pc[t].TryClaim? || s.pc[t].TryCount?)
  {
    match s.pc[t]
    case TryProbe(k) => At(s, t, if s.owner == Some(t) then Deepen(k) else TryLoad(k))
    case TryLoad(k) => At(s, t, if s.handoff != 0 then TryClaim(k, s.handoff) else Out(k))
    case TryClaim(k, h) =>
      if s.handoff == h then At(s, t, TryCount).(handoff := 0) else At(s, t, Out(k))
    case TryCount => At(s, t, TakeOwner).(count := s.count + 1)
  }

  function GoUnlock(s: State, t: Tid): State
    requires t in s.pc && (s.pc[t].ClearOwner? || s.pc[t].Release?)
  {
    match s.pc[t]
    case ClearOwner => At(s, t, Release).(owner := None)
    case Release => At(s, t, if s.count == 1 then Out(0) else Pop(ByUnlock(1))).(count := s.count - 1)
  }

  function Continue(s: State, t: Tid): State
    requires Enabled(s, t, Go)
  {
    match s.pc[t]
    case Probe(_) => GoLock(s, t)
    case Recount(_) => GoLock(s, t)
    case Deepen(_) => GoLock(s, t)
    case Enqueue => GoLock(s, t)
    case Sleep => GoLock(s, t)
    case Sent(_) => GoLock(s, t)
    case SendWake(_, _) => GoSend(s, t)
    case SendPush(_, _) => GoSend(s, t)
    case LoadHandoff(_) => GoHandoff(s, t)
    case SeePoplist(_, _) => GoHandoff(s, t)
    case SeePushlist(_, _) => GoHandoff(s, t)
    case Claim(_, _) => GoHandoff(s, t)
    case Pop(_) => GoPop(s, t)
    case Swap(_) => GoPop(s, t)
    case Reverse(_, _) => GoPop(s, t)
    case NoneLeft(_) => GoPopped(s, t)
    case Got(_, _) => GoPopped(s, t)
    case TakeOwner => GoTake(s, t)
    case TakeDepth => GoTake(s, t)
    case TryProbe(_) => GoTry(s, t)
    case TryLoad(_) => GoTry(s, t)
    case TryClaim(_, _) => GoTry(s, t)
    case TryCount => GoTry(s, t)
    case ClearOwner => GoUnlock(s, t)
    case Release => GoUnlock(s, t)
  }

  function Apply(s: State, t: Tid, a: Act): State
    requires Enabled(s, t, a)
  {
    match a
    case Lock => StartLock(s, t)
    case TryLock => StartTry(s, t)
    case Unlock => StartUnlock(s, t)
    case Park => At(s, t, Parked)
    case Unpark => At(s, t, Out(0))
    case Send(r) => StartSend(s, t, r)
    case Go => Continue(s, t)
  }

  ghost predicate Step(s: State, s': State) {
    exists t, a :: Enabled(s, t, a) && s' == Apply(s, t, a)
  }

  // A run: a sequence of states from an initial one, each by a step from the one before.
  ghost predicate Run(tr: seq<State>) {
    && |tr| > 0 && Init(tr[0])
    && forall i :: 0 <= i < |tr| - 1 ==> Step(tr[i], tr[i + 1])
  }
}
