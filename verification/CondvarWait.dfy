/**
  The protocol of core/condvar.cc: waits that may time out against wake_one() and wake_all().
  What is done under the internal mutex is one step; wake_all() sends after releasing it.
 */
module CondvarWait {

  type Tid = nat

  /** Where a waiter is: in wr.wait() with its timer running, past it because the timer expired,
      in the second wr.wait() because its record was no longer queued, or returned, with 0 or
      with ETIMEDOUT. */
  datatype Pc = Waiting | Expired | Missed | Returned(timedOut: bool)

  /** What has become of its record: not queued, in the list, taken by wake_all(), given to the
      mutex with send_lock(), or woken, the mutex being its own. */
  datatype Record = Gone | Listed | Taken | Sent | Woken

  // sends counts how often its record was given to the mutex during this wait.
  datatype Waiter = Waiter(pc: Pc, record: Record, mutex: nat, sends: nat)

  /** queue is the list; user is the mutex remembered for wait morphing; batches are the lists taken
      by calls of wake_all() that are still sending, with the mutex each remembered. */
  datatype State = State(waiters: map<Tid, Waiter>, queue: seq<Tid>, user: Option<nat>,
                         batches: map<nat, Batch>, next: nat, failed: bool)

  datatype Option<T> = None | Some(value: T)
  datatype Batch = Batch(left: set<Tid>, mutex: Option<nat>)

  datatype Act =
    | Wait(t: Tid, mutex: nat)         // condvar_wait() up to wr.wait()
    | Expire(t: Tid)                   // the timer expires first
    | Wake(t: Tid)                     // wr.wait() returns because the record is woken
    | Remove(t: Tid)                   // the search of the list after a timeout
    | WakeOne                          // condvar_wake_one()
    | WakeAll                          // condvar_wake_all() up to its unlock
    | SendNext(b: nat, t: Tid)         // one send_lock() of it
    | Deliver(t: Tid)                  // the mutex wakes a record it was sent

  ghost predicate Init(s: State) {
    s.waiters == map[] && s.queue == [] && s.user == None && s.batches == map[] && !s.failed
  }

  function Without(q: seq<Tid>, t: Tid): seq<Tid> {
    if q == [] then [] else if q[0] == t then q[1..] else [q[0]] + Without(q[1..], t)
  }

  ghost predicate Enabled(s: State, a: Act) {
    match a
    case Wait(t, _) => t in s.waiters ==> s.waiters[t].pc.Returned?
    case Expire(t) => t in s.waiters && s.waiters[t].pc == Waiting && s.waiters[t].record != Woken
    case Wake(t) => t in s.waiters && s.waiters[t].pc in {Waiting, Missed} && s.waiters[t].record == Woken
    case Remove(t) => t in s.waiters && s.waiters[t].pc == Expired
    case WakeOne => s.queue != [] && s.queue[0] in s.waiters
    case WakeAll => s.queue != []
    case SendNext(b, t) => b in s.batches && t in s.batches[b].left && t in s.waiters
    case Deliver(t) => t in s.waiters && s.waiters[t].record == Sent
  }

  function With(s: State, t: Tid, w: Waiter): State {
    s.(waiters := s.waiters[t := w])
  }

  function Given(w: Waiter): Waiter { w.(record := Sent, sends := w.sends + 1) }

  // The assertion in condvar_wait(): concurrent waits use the same mutex.
  predicate Agrees(s: State, mutex: nat) {
    s.user == None || s.user == Some(mutex)
  }

  function Members(q: seq<Tid>): set<Tid> { set t | t in q }

  function TakeAll(waiters: map<Tid, Waiter>, q: seq<Tid>): map<Tid, Waiter> {
    map t | t in waiters :: if t in q then waiters[t].(record := Taken) else waiters[t]
  }

  ghost function Apply(s: State, a: Act): State
    requires Enabled(s, a)
  {
    match a
    case Wait(t, mutex) =>
      if !Agrees(s, mutex) then s.(failed := true)
      else With(s, t, Waiter(Waiting, Listed, mutex, 0)).(queue := s.queue + [t], user := Some(mutex))
    case Expire(t) => With(s, t, s.waiters[t].(pc := Expired))
    case Wake(t) => With(s, t, s.waiters[t].(pc := Returned(false)))
    case Remove(t) =>
      if t in s.queue then
        With(s, t, s.waiters[t].(pc := Returned(true), record := Gone)).(queue := Without(s.queue, t))
      else With(s, t, s.waiters[t].(pc := Missed))
    case WakeOne =>
      var t := s.queue[0];
      With(s, t, Given(s.waiters[t])).(queue := s.queue[1..], user := if |s.queue| == 1 then None else s.user)
    case WakeAll =>
      s.(waiters := TakeAll(s.waiters, s.queue), queue := [], user := None,
         batches := s.batches[s.next := Batch(Members(s.queue), s.user)], next := s.next + 1)
    case SendNext(b, t) =>
      With(s, t, Given(s.waiters[t])).(batches := s.batches[b := s.batches[b].(left := s.batches[b].left - {t})])
    case Deliver(t) => With(s, t, s.waiters[t].(record := Woken))
  }

  ghost predicate Run(tr: seq<State>) {
    && |tr| > 0 && Init(tr[0])
    && forall i | 0 <= i < |tr| - 1 :: exists a :: Enabled(tr[i], a) && tr[i + 1] == Apply(tr[i], a)
  }

  // ---- the invariant ----

  /** What a waiter's place in its code says about its record, and where its record is. */
  ghost predicate WaiterOk(s: State, t: Tid)
    requires t in s.waiters
  {
    var w := s.waiters[t];
    && (match w.pc
        case Waiting => w.record != Gone
        case Expired => w.record != Gone
        case Missed => w.record in {Taken, Sent, Woken}
        case Returned(timedOut) => w.record == if timedOut then Gone else Woken)
    && (w.record == Listed ==> s.user == Some(w.mutex))
    && w.sends == if w.record in {Sent, Woken} then 1 else 0
  }

  ghost predicate BatchOk(s: State, b: nat)
    requires b in s.batches
  {
    && b < s.next && (s.batches[b].left != {} ==> s.batches[b].mutex.Some?)
    && forall t | t in s.batches[b].left :: t in s.waiters && s.waiters[t].mutex == s.batches[b].mutex.value
  }

  ghost predicate InBatch(s: State, t: Tid) {
    exists b :: b in s.batches && t in s.batches[b].left
  }

  ghost predicate Places(s: State, t: Tid) {
    && (t in s.queue <==> t in s.waiters && s.waiters[t].record == Listed)
    && (InBatch(s, t) <==> t in s.waiters && s.waiters[t].record == Taken)
  }

  ghost predicate Distinct(q: seq<Tid>) {
    forall i, j | 0 <= i < j < |q| :: q[i] != q[j]
  }

  ghost predicate Inv(s: State) {
    && (forall t | t in s.waiters :: WaiterOk(s, t)) && (forall b | b in s.batches :: BatchOk(s, b))
    && (forall t :: Places(s, t)) && Distinct(s.queue)
    && OneBatch(s)
  }

  lemma {:induction false} WithoutMembers(q: seq<Tid>, t: Tid, u: Tid)
    requires Distinct(q)
    ensures u in Without(q, t) <==> u in q && u != t
    ensures Distinct(Without(q, t))
  {
    if q != [] {
      assert q == [q[0]] + q[1..];
      if q[0] == t {
        assert forall i | 0 <= i < |q[1..]| :: q[1..][i] == q[i + 1];
      } else {
        WithoutMembers(q[1..], t, u);
        WithoutMembers(q[1..], t, q[0]);
        assert q[0] !in q[1..];
      }
    }
  }

  lemma WakeOneWaiter(s: State, t: Tid)
    requires Inv(s) && Enabled(s, WakeOne) && t in s.waiters
    ensures t in Apply(s, WakeOne).waiters && WaiterOk(Apply(s, WakeOne), t)
  {
    assert WaiterOk(s, t) && Places(s, t);
    if s.queue[0] != t && s.waiters[t].record == Listed {
      assert t in s.queue && |s.queue| > 1;
    }
  }

  lemma KeepWaiter(s: State, a: Act, t: Tid)
    requires Inv(s) && Enabled(s, a) && t in Apply(s, a).waiters
    ensures WaiterOk(Apply(s, a), t)
  {
    if a.WakeOne? {
      WakeOneWaiter(s, t);
    } else if t in s.waiters {
      assert WaiterOk(s, t) && Places(s, t);
    }
  }

  lemma KeepBatch(s: State, a: Act, b: nat)
    requires Inv(s) && Enabled(s, a) && b in Apply(s, a).batches
    ensures BatchOk(Apply(s, a), b)
  {
    if b in s.batches {
      assert BatchOk(s, b);
      forall t | t in s.batches[b].left ensures t in s.waiters && s.waiters[t].record == Taken {
        assert Places(s, t);
      }
    } else {
      forall t | t in s.queue ensures t in s.waiters && s.user == Some(s.waiters[t].mutex) {
        assert Places(s, t) && WaiterOk(s, t);
      }
      assert s.queue[0] in s.queue;
    }
  }

  lemma KeepQueue(s: State, a: Act, t: Tid)
    requires Inv(s) && Enabled(s, a)
    ensures var r := Apply(s, a); t in r.queue <==> t in r.waiters && r.waiters[t].record == Listed
  {
    assert Places(s, t);
    if a.Remove? {
      WithoutMembers(s.queue, a.t, t);
      assert Places(s, a.t);
    } else if a.WakeOne? {
      assert s.queue == [s.queue[0]] + s.queue[1..];
      assert s.queue[0] !in s.queue[1..];
    } else if a.SendNext? {
      assert InBatch(s, a.t) && Places(s, a.t);
    } else if a.Wait? {
      assert Places(s, a.t);
      if a.t in s.waiters {
        assert WaiterOk(s, a.t);
      }
    }
  }

  // Steps that take nothing and send nothing.
  predicate Still(a: Act) {
    !a.WakeAll? && !a.SendNext?
  }

  lemma StillBatches(s: State, a: Act, t: Tid)
    requires Inv(s) && Enabled(s, a) && Still(a)
    ensures var r := Apply(s, a); InBatch(r, t) <==> t in r.waiters && r.waiters[t].record == Taken
  {
    var r := Apply(s, a);
    assert r.batches == s.batches && Places(s, t);
    assert InBatch(r, t) <==> InBatch(s, t);
    if a.WakeOne? {
      assert Places(s, s.queue[0]) && s.queue[0] in s.queue;
    } else if a.Wait? && a.t in s.waiters {
      assert WaiterOk(s, a.t);
    } else if a.Remove? {
      assert Places(s, a.t);
    }
  }

  lemma WakeAllBatches(s: State, t: Tid)
    requires Inv(s) && Enabled(s, WakeAll)
    ensures var r := Apply(s, WakeAll); InBatch(r, t) <==> t in r.waiters && r.waiters[t].record == Taken
  {
    var r := Apply(s, WakeAll);
    assert Places(s, t) && s.next !in s.batches;
    if t in s.queue {
      assert t in r.batches[s.next].left;
    } else if InBatch(s, t) {
      var b :| b in s.batches && t in s.batches[b].left;
      assert b in r.batches && t in r.batches[b].left;
    }
  }

  lemma SendBatches(s: State, b: nat, u: Tid, t: Tid)
    requires Inv(s) && Enabled(s, SendNext(b, u))
    ensures var r := Apply(s, SendNext(b, u)); InBatch(r, t) <==> t in r.waiters && r.waiters[t].record == Taken
  {
    var r := Apply(s, SendNext(b, u));
    assert Places(s, t);
    if t != u && InBatch(s, t) {
      var c :| c in s.batches && t in s.batches[c].left;
      assert c in r.batches && t in r.batches[c].left;
    }
  }

  lemma KeepPlaces(s: State, a: Act, t: Tid)
    requires Inv(s) && Enabled(s, a)
    ensures Places(Apply(s, a), t)
  {
    KeepQueue(s, a, t);
    if a.WakeAll? {
      WakeAllBatches(s, t);
    } else if a.SendNext? {
      SendBatches(s, a.b, a.t, t);
    } else {
      StillBatches(s, a, t);
    }
  }

  lemma KeepDistinct(s: State, a: Act)
    requires Inv(s) && Enabled(s, a)
    ensures Distinct(Apply(s, a).queue)
  {
    if a.Remove? {
      WithoutMembers(s.queue, a.t, a.t);
    } else if a.Wait? {
      assert Places(s, a.t);
      if a.t in s.waiters {
        assert WaiterOk(s, a.t);
      }
    }
  }

  ghost predicate OneBatch(s: State) {
    forall a, b, t | a in s.batches && b in s.batches && t in s.batches[a].left && t in s.batches[b].left :: a == b
  }

  lemma KeepOneBatch(s: State, a: Act)
    requires Inv(s) && Enabled(s, a)
    ensures OneBatch(Apply(s, a))
  {
    if a.WakeAll? {
      forall b, t | b in s.batches && t in s.batches[b].left ensures t !in s.queue {
        assert InBatch(s, t) && Places(s, t);
      }
    }
  }

  lemma KeepInv(s: State, a: Act)
    requires Inv(s) && Enabled(s, a)
    ensures Inv(Apply(s, a))
  {
    var r := Apply(s, a);
    forall t | t in r.waiters ensures WaiterOk(r, t) {
      KeepWaiter(s, a, t);
    }
    forall b | b in r.batches ensures BatchOk(r, b) {
      KeepBatch(s, a, b);
    }
    forall t ensures Places(r, t) {
      KeepPlaces(s, a, t);
    }
    KeepDistinct(s, a);
    KeepOneBatch(s, a);
  }

  lemma {:induction false} RunInv(tr: seq<State>, i: nat)
    requires Run(tr) && i < |tr|
    ensures Inv(tr[i])
  {
    if i > 0 {
      RunInv(tr, i - 1);
      var a :| Enabled(tr[i - 1], a) && tr[i - 1 + 1] == Apply(tr[i - 1], a);
      KeepInv(tr[i - 1], a);
    }
  }

  // ---- what it gives ----

  /** How a wait ends, and that nobody keeps its record then. */
  ghost predicate EndsOnce(s: State, t: Tid)
    requires t in s.waiters
  {
    var w := s.waiters[t];
    && w.sends <= 1
    && (w.pc.Returned? ==> w.sends == (if w.pc.timedOut then 0 else 1) && t !in s.queue && !InBatch(s, t))
  }

  /** In every run: a waiter returns ETIMEDOUT only if its record was never given to the mutex, and 0
      only after it was given to it exactly once and woken; when it returns, its record is in
      no list. Those queued wait with the mutex that is remembered. */
  lemma WaitsEndOnce(tr: seq<State>, i: nat)
    requires Run(tr) && i < |tr|
    ensures forall t | t in tr[i].waiters :: EndsOnce(tr[i], t)
    ensures forall t | t in tr[i].queue :: t in tr[i].waiters && tr[i].user == Some(tr[i].waiters[t].mutex)
    ensures forall b, t | b in tr[i].batches && t in tr[i].batches[b].left ::
              t in tr[i].waiters && tr[i].batches[b].mutex == Some(tr[i].waiters[t].mutex)
  {
    var s := tr[i];
    RunInv(tr, i);
    forall t | t in s.waiters ensures EndsOnce(s, t) {
      assert WaiterOk(s, t) && Places(s, t);
    }
    forall t | t in s.queue ensures t in s.waiters && s.user == Some(s.waiters[t].mutex) {
      assert Places(s, t) && WaiterOk(s, t);
    }
    forall b, t | b in s.batches && t in s.batches[b].left
      ensures t in s.waiters && s.batches[b].mutex == Some(s.waiters[t].mutex)
    {
      assert BatchOk(s, b);
    }
  }

  /** The remembered mutex is forgotten with the last waiter, except when that waiter times out. */
  lemma ForgottenUnlessTimeout(s: State, a: Act)
    requires Inv(s) && Enabled(s, a) && (s.queue == [] ==> s.user == None)
    ensures var r := Apply(s, a); (r.queue == [] ==> r.user == None) <==> !(a.Remove? && s.queue == [a.t])
  {
    if a.Remove? && a.t in s.queue {
      assert Places(s, a.t) && WaiterOk(s, a.t);
      if |s.queue| > 1 {
        WithoutMembers(s.queue, a.t, if s.queue[0] == a.t then s.queue[1] else s.queue[0]);
      }
    }
  }

  // After it, the assertion in condvar_wait() fails for another mutex though nobody waits.
  lemma AssertionCanFail(s: State, t: Tid, x: nat, y: nat)
    requires Init(s) && x != y
    ensures var one := Apply(s, Wait(t, x));
            && Enabled(one, Expire(t)) && Enabled(Apply(one, Expire(t)), Remove(t))
            && var r := Apply(Apply(one, Expire(t)), Remove(t));
               r.queue == [] && r.batches == map[] && Enabled(r, Wait(t, y)) && Apply(r, Wait(t, y)).failed
  {
    assert Apply(s, Wait(t, x)).queue == [t];
  }
}
