/** Which cookies the virtio ring gives back over whole histories, drivers/virtio-vring.cc. */
module VringRun {
  import opened Vring

  // ---- a history ----

  /** Of the queue: the heads that are out, those posted and those with the host, the heads in the used
      ring, of which the upper layer has finished with so many and `first` more were recycled before,
      and the cookies that are owed. And its past: the cookie of each posting, the number of the posting
      that each head belongs to, the postings in the order in which the host returned them, and the
      places in that order whose cookies get_buf_elem() has given out. */
  datatype Hist = Hist(
    out: set<nat>, posted: seq<nat>, inflight: set<nat>, ids: seq<nat>, finished: nat, first: nat,
    owed: map<nat, nat>, cookies: seq<nat>, number: map<nat, nat>, used: seq<nat>, gave: seq<nat>)

  // The place, in the order of return, of the entry that is to be read next.
  function Place(h: Hist): nat { h.first + h.finished }

  // There is an entry to read, and its cookie is still there.
  predicate Gives(h: Hist) {
    h.finished < |h.ids| && h.ids[h.finished] in h.owed
  }

  function Posting(h: Hist, head: nat, ck: nat): Hist {
    h.(out := h.out + {head}, posted := h.posted + [head], owed := h.owed[head := ck],
       cookies := h.cookies + [ck], number := h.number[head := |h.cookies|])
  }

  function Recycling(h: Hist): Hist
    requires h.ids != [] && h.finished > 0
  {
    h.(out := h.out - {h.ids[0]}, ids := h.ids[1..], finished := h.finished - 1, first := h.first + 1,
       owed := h.owed - {h.ids[0]}, number := h.number - {h.ids[0]})
  }

  function Getting(h: Hist): Hist
    requires h.finished < |h.ids|
  {
    h.(owed := h.owed - {h.ids[h.finished]}, gave := if Gives(h) then h.gave + [Place(h)] else h.gave)
  }

  function Taking(h: Hist): Hist
    requires h.posted != []
  {
    h.(posted := h.posted[1..], inflight := h.inflight + {h.posted[0]})
  }

  function Returning(h: Hist, head: nat): Hist
    requires head in h.number
  {
    h.(inflight := h.inflight - {head}, ids := h.ids + [head], used := h.used + [h.number[head]])
  }

  // ---- the invariant ----

  // Each head that is out is in one place.
  ghost predicate HeadsOk(h: Hist) {
    && Distinct(h.ids) && (forall x | x in h.ids :: x !in h.posted && x !in h.inflight)
    && (forall x | x in h.posted || x in h.inflight || x in h.ids :: x in h.out) && h.finished <= |h.ids|
  }

  // It belongs to one posting, and owes its cookie.
  ghost predicate NumbersOk(h: Hist) {
    && h.number.Keys == h.out
    && (forall x | x in h.number :: h.number[x] < |h.cookies|)
    && (forall x, y | x in h.number && y in h.number && h.number[x] == h.number[y] :: x == y)
    && (forall x | x in h.owed :: x in h.number && h.owed[x] == h.cookies[h.number[x]])
  }

  // Each posting is returned at most once: those recycled belong to no head any more.
  ghost predicate UsedOk(h: Hist) {
    && |h.used| == h.first + |h.ids|
    && (forall j | 0 <= j < |h.ids| :: h.ids[j] in h.number && h.used[h.first + j] == h.number[h.ids[j]])
    && (forall k | 0 <= k < |h.used| :: h.used[k] < |h.cookies|)
    && (forall k, x | 0 <= k < h.first && x in h.number :: h.used[k] != h.number[x])
    && (forall j, k | 0 <= j < k < |h.used| :: h.used[j] != h.used[k])
  }

  // Cookies are owed until their entry is read.
  ghost predicate OwedOk(h: Hist) {
    && (forall x | x in h.posted || x in h.inflight :: x in h.owed)
    && (forall j | h.finished < j < |h.ids| :: h.ids[j] in h.owed)
    && (h.finished < |h.ids| ==> (h.ids[h.finished] in h.owed <==> h.gave == [] || h.gave[|h.gave| - 1] < Place(h)))
  }

  ghost predicate GaveOk(h: Hist) {
    && (forall k | 0 <= k < |h.gave| :: h.gave[k] <= Place(h) && h.gave[k] < |h.used|)
    && (forall j, k | 0 <= j < k < |h.gave| :: h.gave[j] < h.gave[k])
  }

  ghost predicate HistOk(h: Hist) {
    HeadsOk(h) && NumbersOk(h) && UsedOk(h) && OwedOk(h) && GaveOk(h)
  }

  // ---- every step keeps it ----

  lemma PostingOk(h: Hist, head: nat, ck: nat, r: Hist)
    requires HistOk(h) && head !in h.out && r == Posting(h, head, ck) && HeadsOk(r)
    ensures HistOk(r)
  {
    PostingNumbers(h, head, ck);
    PostingUsed(h, head, ck);
    PostingOwed(h, head, ck);
  }

  lemma PostingOwed(h: Hist, head: nat, ck: nat)
    requires HeadsOk(h) && OwedOk(h) && GaveOk(h) && head !in h.out
    ensures OwedOk(Posting(h, head, ck)) && GaveOk(Posting(h, head, ck))
  {
    assert forall j | 0 <= j < |h.ids| :: h.ids[j] in h.ids;
  }

  lemma PostingNumbers(h: Hist, head: nat, ck: nat)
    requires NumbersOk(h) && head !in h.out
    ensures NumbersOk(Posting(h, head, ck))
  {
    assert head !in h.number;
  }

  lemma PostingUsed(h: Hist, head: nat, ck: nat)
    requires NumbersOk(h) && UsedOk(h) && head !in h.out
    ensures UsedOk(Posting(h, head, ck))
  {
    assert head !in h.number;
  }

  lemma RecyclingNumbers(h: Hist, r: Hist)
    requires NumbersOk(h) && h.ids != [] && h.finished > 0 && r == Recycling(h)
    ensures NumbersOk(r)
  {
  }

  lemma RecyclingUsed(h: Hist, r: Hist)
    requires HeadsOk(h) && NumbersOk(h) && UsedOk(h) && h.ids != [] && h.finished > 0 && r == Recycling(h)
    ensures UsedOk(r)
  {
    forall k, x | 0 <= k < r.first && x in r.number ensures r.used[k] != r.number[x] {
      if k == h.first {
        assert h.used[h.first + 0] == h.number[h.ids[0]];
      }
    }
    forall j | 0 <= j < |r.ids| ensures r.ids[j] in r.number && r.used[r.first + j] == r.number[r.ids[j]] {
      assert h.used[h.first + (j + 1)] == h.number[h.ids[j + 1]];
    }
  }

  lemma RecyclingOwed(h: Hist, r: Hist)
    requires HeadsOk(h) && OwedOk(h) && GaveOk(h) && h.ids != [] && h.finished > 0 && r == Recycling(h)
    ensures OwedOk(r) && GaveOk(r)
  {
    assert h.ids[0] in h.ids;
  }

  lemma RecyclingOk(h: Hist, r: Hist)
    requires HistOk(h) && h.finished > 0 && h.ids != [] && r == Recycling(h) && HeadsOk(r)
    ensures HistOk(r)
  {
    RecyclingNumbers(h, r);
    RecyclingUsed(h, r);
    RecyclingOwed(h, r);
  }

  lemma GettingOwed(h: Hist)
    requires HeadsOk(h) && OwedOk(h) && GaveOk(h) && h.finished < |h.ids|
    ensures OwedOk(Getting(h))
  {
    assert h.ids[h.finished] in h.ids;
  }

  lemma GettingGave(h: Hist)
    requires OwedOk(h) && GaveOk(h) && h.finished < |h.ids| && |h.used| == h.first + |h.ids|
    ensures GaveOk(Getting(h))
  {
  }

  lemma ReadingKeeps(h: Hist, r: Hist)
    requires HeadsOk(h) && NumbersOk(h) && UsedOk(h) && r.finished <= |h.ids|
    requires r == h.(owed := r.owed, gave := r.gave, finished := r.finished)
    requires forall x | x in r.owed :: x in h.owed && r.owed[x] == h.owed[x]
    ensures HeadsOk(r) && NumbersOk(r) && UsedOk(r)
  {
  }

  lemma GettingOk(h: Hist)
    requires HistOk(h) && h.finished < |h.ids|
    ensures HistOk(Getting(h))
  {
    ReadingKeeps(h, Getting(h));
    GettingOwed(h);
    GettingGave(h);
  }

  lemma FinishingOk(h: Hist, r: Hist)
    requires HistOk(h) && h.finished < |h.ids| && r == h.(finished := h.finished + 1)
    ensures HistOk(r)
  {
    ReadingKeeps(h, r);
    FinishingOwed(h, r);
  }

  lemma FinishingOwed(h: Hist, r: Hist)
    requires OwedOk(h) && GaveOk(h) && |h.used| == h.first + |h.ids|
    requires h.finished < |h.ids| && r == h.(finished := h.finished + 1)
    ensures OwedOk(r) && GaveOk(r)
  {
  }

  lemma TakingPast(h: Hist, r: Hist)
    requires NumbersOk(h) && UsedOk(h) && GaveOk(h) && r == h.(posted := r.posted, inflight := r.inflight)
    ensures NumbersOk(r) && UsedOk(r) && GaveOk(r)
  {
  }

  lemma TakingOwed(h: Hist, r: Hist)
    requires OwedOk(h) && h.posted != [] && r == Taking(h)
    ensures OwedOk(r)
  {
  }

  lemma TakingOk(h: Hist, r: Hist)
    requires HistOk(h) && h.posted != [] && r == Taking(h) && HeadsOk(r)
    ensures HistOk(r)
  {
    TakingPast(h, r);
    TakingOwed(h, r);
  }

  lemma ReturningUsed(h: Hist, head: nat)
    requires HistOk(h) && head in h.inflight
    ensures head in h.number && UsedOk(Returning(h, head))
  {
    var r := Returning(h, head);
    forall k | 0 <= k < |h.used| ensures h.used[k] != h.number[head] {
      if k >= h.first {
        assert h.used[h.first + (k - h.first)] == h.number[h.ids[k - h.first]];
        assert h.ids[k - h.first] in h.ids;
      }
    }
  }

  lemma ReturningOwed(h: Hist, head: nat, r: Hist)
    requires OwedOk(h) && GaveOk(h) && h.finished <= |h.ids| && |h.used| == h.first + |h.ids|
    requires head in h.inflight && head in h.number && r == Returning(h, head)
    ensures OwedOk(r) && GaveOk(r)
  {
  }

  lemma ReturningOk(h: Hist, head: nat, r: Hist)
    requires HistOk(h) && head in h.inflight && head in h.number && r == Returning(h, head) && HeadsOk(r)
    ensures HistOk(r)
  {
    ReturningUsed(h, head);
    ReturningOwed(h, head, r);
  }

  // ---- the queue ----

  // The queue with its past.
  datatype State = State(v: View, cookies: seq<nat>, number: map<nat, nat>, used: seq<nat>, gave: seq<nat>)

  // get_buf_gc() is so many Recycle steps; add_buf() is that and a Post step, or a Kick step.
  datatype Act =
    | Post(ck: nat, sgs: seq<Sg>, ds: seq<Desc>) | Recycle | Get | Finish | Kick(dev: Device)
    | HostTake | HostReturn(head: nat, len: nat)

  ghost function Ids(log: seq<UsedElem>): seq<nat> {
    seq(|log|, i requires 0 <= i < |log| => log[i].id)
  }

  ghost function HistOf(s: State): Hist
    requires |s.v.log| <= s.v.rets
  {
    Hist(s.v.ring.chains.Keys, s.v.ring.posted, s.v.ring.inflight, Ids(s.v.log), s.v.finished, s.v.rets - |s.v.log|,
         s.v.owed, s.cookies, s.number, s.used, s.gave)
  }

  ghost predicate Init(s: State) {
    Fresh(s.v) && RingSize(s.v.num) && s.cookies == [] && s.number == map[] && s.used == [] && s.gave == []
  }

  ghost predicate Inv(s: State) {
    Ok(s.v) && RingSize(s.v.num) && HistOk(HistOf(s))
  }

  // An entry to be read names a place for a cookie.
  ghost predicate HasCookie(v: View) {
    v.finished < |v.log| ==> v.log[v.finished].id < |v.cookie|
  }

  ghost predicate Enabled(s: State, a: Act) {
    Ok(s.v) && RingSize(s.v.num) &&
    match a
    case Post(_, sgs, ds) =>
      && 0 < |sgs| <= s.v.availCount && FilledUpTo(s.v.desc, ds, s.v.ring.free, sgs, |sgs|, true)
      && s.v.ring.free[0] < s.v.num && s.v.ring.free[|sgs| - 1] < s.v.num
    case Recycle => s.v.finished > 0
    case Get => |s.v.log| <= s.v.rets && HasCookie(s.v)
    case Finish => s.v.finished < |s.v.log|
    case Kick(_) => true
    case HostTake => s.v.ring.posted != []
    case HostReturn(head, _) => head in s.v.ring.inflight && head in s.number
  }

  /** What get_buf_elem() returns. */
  function Given(v: View): Option<nat> {
    if v.finished < |v.log| && v.log[v.finished].id in v.owed then Some(v.owed[v.log[v.finished].id]) else None
  }

  // get_buf_elem().
  ghost function Got(s: State): State
    requires |s.v.log| <= s.v.rets && HasCookie(s.v)
  {
    if s.v.finished >= |s.v.log| then s
    else s.(v := Fetch(s.v),
            gave := if Given(s.v).Some? then s.gave + [s.v.rets - |s.v.log| + s.v.finished] else s.gave)
  }

  ghost function Apply(s: State, a: Act): State
    requires Enabled(s, a)
  {
    match a
    case Post(ck, sgs, ds) =>
      State(Posted(s.v, ds, ck, |sgs|), s.cookies + [ck], s.number[s.v.ring.free[0] := |s.cookies|], s.used, s.gave)
    case Recycle =>
      GcOneOk(s.v);
      s.(v := Gc(s.v), number := s.number - {s.v.ring.done[0]})
    case Get => Got(s)
    case Finish => s.(v := Finalize(s.v))
    case Kick(dev) => s.(v := Kicked(s.v, dev))
    case HostTake => s.(v := HostTakes(s.v))
    case HostReturn(head, len) => s.(v := HostReturns(s.v, head, len), used := s.used + [s.number[head]])
  }

  ghost predicate Step(s: State, t: State) {
    exists a :: Enabled(s, a) && t == Apply(s, a)
  }

  ghost predicate Run(tr: seq<State>) {
    |tr| > 0 && Init(tr[0]) && forall i | 0 <= i < |tr| - 1 :: Step(tr[i], tr[i + 1])
  }

  // ---- its steps are steps of the history ----

  lemma HeadsHold(s: State)
    requires Ok(s.v)
    ensures HeadsOk(HistOf(s))
  {
    var h := HistOf(s);
    assert h.ids == s.v.ring.done;
  }

  lemma KeepOk(s: State, a: Act)
    requires Enabled(s, a)
    ensures Ok(Apply(s, a).v) && Apply(s, a).v.num == s.v.num
  {
    match a {
      case Post(ck, sgs, ds) => { PostedOk(s.v, ds, ck, sgs); }
      case Recycle => { GcOneOk(s.v); }
      case Get => {
        if s.v.finished < |s.v.log| {
          FetchOk(s.v);
        }
      }
      case Finish => { FinalizeOk(s.v); }
      case Kick(dev) => { KickedOk(s.v, dev); }
      case HostTake => { HostTakesOk(s.v); }
      case HostReturn(head, len) => { HostReturnsOk(s.v, HostReturns(s.v, head, len), head, len); }
    }
  }

  lemma PostIs(s: State, a: Act)
    requires Enabled(s, a) && a.Post? && |Apply(s, a).v.log| <= Apply(s, a).v.rets
    ensures HistOf(Apply(s, a)) == Posting(HistOf(s), s.v.ring.free[0], a.ck)
  {
  }

  lemma RecycleIs(s: State, t: State)
    requires RingsOk(s.v) && IsGc(s.v, t.v) && t == s.(v := t.v, number := s.number - {s.v.ring.done[0]})
    ensures |t.v.log| <= t.v.rets && HistOf(s).ids != [] && HistOf(t) == Recycling(HistOf(s))
  {
    RecycledView(s.v, t.v);
  }

  lemma RecycledView(v: View, r: View)
    requires RingsOk(v) && IsGc(v, r)
    ensures v.ring.done[0] == v.log[0].id && Ids(r.log) == Ids(v.log)[1..] && r.rets == v.rets
    ensures r.ring.chains.Keys == v.ring.chains.Keys - {v.log[0].id} && r.owed == v.owed - {v.log[0].id}
    ensures r.ring.posted == v.ring.posted && r.ring.inflight == v.ring.inflight && r.finished == v.finished - 1
  {
    assert v.log[0].id == v.ring.done[0];
  }

  lemma GetIs(s: State)
    requires s.v.finished < |s.v.log| <= s.v.rets && HasCookie(s.v)
    ensures |Got(s).v.log| <= Got(s).v.rets && HistOf(Got(s)) == Getting(HistOf(s))
  {
  }

  lemma TakeIs(s: State)
    requires Enabled(s, HostTake)
    ensures HistOf(Apply(s, HostTake)) == Taking(HistOf(s))
  {
  }

  lemma ReturnIs(s: State, a: Act)
    requires Enabled(s, a) && a.HostReturn?
    ensures |Apply(s, a).v.log| <= Apply(s, a).v.rets && HistOf(Apply(s, a)) == Returning(HistOf(s), a.head)
  {
    assert Ids(Apply(s, a).v.log) == Ids(s.v.log) + [a.head];
  }

  lemma PostKeeps(s: State, a: Act)
    requires Inv(s) && Enabled(s, a) && a.Post? && Ok(Apply(s, a).v)
    ensures HistOk(HistOf(Apply(s, a)))
  {
    PostedOk(s.v, a.ds, a.ck, a.sgs);
    PostIs(s, a);
    HeadsHold(Apply(s, a));
    PostingOk(HistOf(s), s.v.ring.free[0], a.ck, HistOf(Apply(s, a)));
  }

  lemma HostKeeps(s: State, a: Act)
    requires Inv(s) && Enabled(s, a) && (a.HostTake? || a.HostReturn?) && Ok(Apply(s, a).v)
    ensures HistOk(HistOf(Apply(s, a)))
  {
    HeadsHold(Apply(s, a));
    if a.HostTake? {
      TakeIs(s);
      TakingOk(HistOf(s), HistOf(Apply(s, a)));
    } else {
      ReturnIs(s, a);
      ReturningOk(HistOf(s), a.head, HistOf(Apply(s, a)));
    }
  }

  lemma RecycleKeeps(s: State)
    requires Inv(s) && Enabled(s, Recycle) && Ok(Apply(s, Recycle).v)
    ensures HistOk(HistOf(Apply(s, Recycle)))
  {
    var t := Apply(s, Recycle);
    HeadsHold(t);
    GcOneOk(s.v);
    RecycleIs(s, t);
    RecyclingOk(HistOf(s), HistOf(t));
  }

  lemma GetKeeps(s: State)
    requires |s.v.log| <= s.v.rets && HasCookie(s.v) && HistOk(HistOf(s))
    ensures |Got(s).v.log| <= Got(s).v.rets && HistOk(HistOf(Got(s)))
  {
    if s.v.finished < |s.v.log| {
      GetIs(s);
      GettingOk(HistOf(s));
    }
  }

  lemma FinishKeeps(s: State, t: State)
    requires Inv(s) && s.v.finished < |s.v.log| && t == s.(v := Finalize(s.v))
    ensures |t.v.log| <= t.v.rets && HistOk(HistOf(t))
  {
    FinishingOk(HistOf(s), HistOf(t));
  }

  lemma KickKeeps(s: State, t: State, dev: Device)
    requires Inv(s) && t == s.(v := Kicked(s.v, dev))
    ensures |t.v.log| <= t.v.rets && HistOk(HistOf(t))
  {
    assert HistOf(t) == HistOf(s);
  }

  lemma KeepInv(s: State, a: Act)
    requires Inv(s) && Enabled(s, a)
    ensures Inv(Apply(s, a))
  {
    KeepOk(s, a);
    if a.Post? {
      PostKeeps(s, a);
    } else if a.HostTake? || a.HostReturn? {
      HostKeeps(s, a);
    } else if a.Recycle? {
      RecycleKeeps(s);
    } else if a.Get? {
      GetKeeps(s);
    } else if a.Finish? {
      FinishKeeps(s, Apply(s, a));
    } else {
      KickKeeps(s, Apply(s, a), a.dev);
    }
  }

  lemma StepInv(s: State, t: State)
    requires Inv(s) && Step(s, t)
    ensures Inv(t)
  {
    var a :| Enabled(s, a) && t == Apply(s, a);
    KeepInv(s, a);
  }

  lemma InitInv(s: State)
    requires Init(s)
    ensures Inv(s)
  {
    FreshOk(s.v);
    HeadsHold(s);
  }

  lemma RunStarts(tr: seq<State>)
    requires Run(tr)
    ensures Inv(tr[0])
  {
    InitInv(tr[0]);
  }

  lemma RunStep(tr: seq<State>, i: nat, s: State, t: State)
    requires Run(tr) && i + 1 < |tr| && s == tr[i] && t == tr[i + 1] && Inv(s)
    ensures Inv(t)
  {
    assert Step(s, t);
    StepInv(s, t);
  }

  lemma {:induction false} RunInv(tr: seq<State>, i: nat)
    requires Run(tr) && i < |tr|
    ensures Inv(tr[i])
  {
    if i == 0 {
      RunStarts(tr);
    } else {
      RunInv(tr, i - 1);
      RunStep(tr, i - 1, tr[i - 1], tr[i]);
    }
  }

  // ---- what it gives ----

  // The cookie of the entry at a place in the order of return.
  ghost predicate GivesNext(h: Hist, given: Option<nat>) {
    if Place(h) < |h.used| && (h.gave == [] || h.gave[|h.gave| - 1] < Place(h))
    then h.used[Place(h)] < |h.cookies| && given == Some(h.cookies[h.used[Place(h)]])
    else given == None
  }

  lemma NextIsGiven(h: Hist)
    requires HistOk(h)
    ensures GivesNext(h, if Gives(h) then Some(h.owed[h.ids[h.finished]]) else None)
  {
    if h.finished < |h.ids| {
      assert h.used[h.first + h.finished] == h.number[h.ids[h.finished]];
    }
  }

  /** In every run: no posting is returned twice, and the cookies given out are those of the postings in
      the order in which they were returned, each at most once. The next call gives the cookie of the
      next entry, unless there is none or it has been given. */
  lemma CookiesInOrder(tr: seq<State>, i: nat)
    requires Run(tr) && i < |tr|
    ensures forall j, k | 0 <= j < k < |tr[i].used| :: tr[i].used[j] != tr[i].used[k]
    ensures forall k | 0 <= k < |tr[i].gave| :: tr[i].gave[k] < |tr[i].used|
    ensures forall j, k | 0 <= j < k < |tr[i].gave| :: tr[i].gave[j] < tr[i].gave[k]
    ensures |tr[i].v.log| <= tr[i].v.rets && GivesNext(HistOf(tr[i]), Given(tr[i].v))
  {
    RunInv(tr, i);
    NextIsGiven(HistOf(tr[i]));
  }
}
