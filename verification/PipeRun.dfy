/** Any number of readers and writers of a pipe, libc/pipe_buffer.cc. */
module PipeRun {
  import opened Pipe

  datatype Result = Ok | Epipe | Eagain

  /** WaitRoom is the wait for enough room at first, WaitSpace the one with the buffer full; a waiter is
      asleep until it is woken. Notify is between giving up the lock and wake_all(). */
  datatype WPc = WaitRoom(woken: bool) | WaitSpace(woken: bool) | WNotify | WDone(r: Result)
  datatype RPc = WaitData(woken: bool) | RNotify | RDone(err: Result)

  // A writer has its buffers, and the place up to which they have been copied.
  datatype Writer = Writer(iovs: seq<seq<Byte>>, ind: nat, off: nat, nonblock: bool, pc: WPc)
  datatype Reader = Reader(lens: seq<nat>, nonblock: bool, pc: RPc, got: seq<seq<Byte>>)

  // What a writer put into the queue, or a reader took, at one time.
  datatype Chunk = Chunk(w: nat, bytes: seq<Byte>)

  /** q is the queue; log is all that was put into it, in order, and taken all that was taken. */
  datatype State = State(
    q: seq<Byte>, sender: bool, receiver: bool, writers: map<nat, Writer>, readers: map<nat, Reader>,
                         log: seq<Chunk>, taken: seq<Chunk>, failed: bool)

  datatype Act =
    | Write(w: nat, iovs: seq<seq<Byte>>, nonblock: bool)
    | Room(w: nat) | Space(w: nat)                 // a writer that was woken looks again
    | Wrote(w: nat)                                // its may_read.wake_all()
    | Read(r: nat, lens: seq<nat>, nonblock: bool)
    | Data(r: nat)                                 // a reader that was woken looks again
    | HasRead(r: nat)                              // its may_write.wake_all()
    | DetachSender | DetachReceiver

  ghost predicate Init(s: State) {
    && s.q == [] && s.sender && s.receiver && s.writers == map[] && s.readers == map[]
    && s.log == [] && s.taken == [] && !s.failed
  }

  ghost predicate Enabled(s: State, a: Act) {
    match a
    case Write(w, _, _) => w !in s.writers
    case Room(w) => w in s.writers && s.writers[w].pc == WaitRoom(true) && Placed(s.writers[w])
    case Space(w) => w in s.writers && s.writers[w].pc == WaitSpace(true) && Placed(s.writers[w])
    case Wrote(w) => w in s.writers && s.writers[w].pc == WNotify
    case Read(r, _, _) => r !in s.readers
    case Data(r) => r in s.readers && s.readers[r].pc == WaitData(true)
    case HasRead(r) => r in s.readers && s.readers[r].pc == RNotify
    case DetachSender => true
    case DetachReceiver => true
  }

  predicate Placed(x: Writer) { At(x.iovs, x.ind, x.off) }

  // The bytes not yet copied.
  function Left(x: Writer): seq<Byte>
    requires Placed(x)
  {
    Rest(x.iovs, x.ind, x.off)
  }

  function NeedRoom(n: nat): nat { if n <= PIPE_BUF then n else 1 }

  // ---- waking ----

  function WakeReaders(readers: map<nat, Reader>): map<nat, Reader> {
    map r | r in readers :: if readers[r].pc.WaitData? then readers[r].(pc := WaitData(true)) else readers[r]
  }

  function WakeWriter(x: Writer): Writer {
    if x.pc.WaitRoom? then x.(pc := WaitRoom(true)) else if x.pc.WaitSpace? then x.(pc := WaitSpace(true)) else x
  }

  function WakeWriters(writers: map<nat, Writer>): map<nat, Writer> {
    map w | w in writers :: WakeWriter(writers[w])
  }

  // ---- writing ----

  function Space0(s: State): nat { if |s.q| <= MAX_BUF then MAX_BUF - |s.q| else 0 }

  /** The loop of write() up to its next wait or its end: copy_from_uio(), and, with the buffer full, the
      assertion and may_read.wake_all(). */
  function Copy(s: State, w: nat, x: Writer): State
    requires Placed(x)
  {
    var n := Least(Space0(s), |Left(x)|);
    var to := Stop(x.iovs, x.ind, x.off, Space0(s));
    var more := n < |Left(x)|;
    var pc := if !more then WNotify else if x.nonblock then WDone(Ok) else WaitSpace(false);
    s.(q := s.q + Left(x)[..n], log := s.log + [Chunk(w, Left(x)[..n])],
       writers := s.writers[w := x.(ind := to.0, off := to.1, pc := pc)],
       readers := if more then WakeReaders(s.readers) else s.readers,
       failed := s.failed || (more && |s.q| + n != MAX_BUF))
  }

  function Put(s: State, w: nat, x: Writer): State {
    s.(writers := s.writers[w := x])
  }

  function StartWrite(s: State, w: nat, iovs: seq<seq<Byte>>, nonblock: bool): State {
    var x := Writer(iovs, 0, 0, nonblock, WDone(Ok));
    if Flat(iovs) == [] then Put(s, w, x)
    else if nonblock then
      if !s.receiver then Put(s, w, x.(pc := WDone(Epipe)))
      else if |s.q| + NeedRoom(|Flat(iovs)|) > MAX_BUF then Put(s, w, x.(pc := WDone(Eagain)))
      else Copy(s, w, x)
    else AwaitRoom(s, w, x)
  }

  function AwaitRoom(s: State, w: nat, x: Writer): State
    requires Placed(x)
  {
    if s.receiver && |s.q| + NeedRoom(|Flat(x.iovs)|) > MAX_BUF then Put(s, w, x.(pc := WaitRoom(false)))
    else if !s.receiver then Put(s, w, x.(pc := WDone(Epipe)))
    else Copy(s, w, x)
  }

  function AwaitSpace(s: State, w: nat, x: Writer): State
    requires Placed(x)
  {
    if s.receiver && |s.q| == MAX_BUF then Put(s, w, x.(pc := WaitSpace(false)))
    else if !s.receiver then Put(s, w, x.(pc := WNotify))
    else Copy(s, w, x)
  }

  /** What is copied in a step is what copy_from_uio() copies. */
  method CopyIn(s: State, w: nat, x: Writer) returns (i: nat, off: nat, q: seq<Byte>)
    requires Placed(x) && |s.q| <= MAX_BUF
    ensures var t := Copy(s, w, x); q == t.q && t.writers[w].ind == i && t.writers[w].off == off
  {
    i, off, q := CopyFromUio(x.iovs, x.ind, x.off, s.q, MAX_BUF);
  }

  // ---- reading ----

  function PutReader(s: State, r: nat, x: Reader): State {
    s.(readers := s.readers[r := x])
  }

  // copy_to_uio()
  function Take(s: State, r: nat, lens: seq<nat>, nonblock: bool): State {
    var n := Least(|s.q|, Sum(lens));
    PutReader(s, r, Reader(lens, nonblock, RNotify, Spread(s.q, lens)))
      .(q := s.q[n..], taken := s.taken + [Chunk(r, s.q[..n])])
  }

  /** And what is taken is what copy_to_uio() takes. */
  method CopyOut(s: State, r: nat, lens: seq<nat>, nonblock: bool) returns (q: seq<Byte>, got: seq<seq<Byte>>)
    ensures var t := Take(s, r, lens, nonblock); q == t.q && got == t.readers[r].got
  {
    q, got := CopyToUio(s.q, lens);
  }

  function StartRead(s: State, r: nat, lens: seq<nat>, nonblock: bool): State {
    if Sum(lens) == 0 then PutReader(s, r, Reader(lens, nonblock, RDone(Ok), []))
    else if nonblock && s.q == [] then
      PutReader(s, r, Reader(lens, nonblock, RDone(if s.sender then Eagain else Ok), []))
    else AwaitData(s, r, lens, nonblock)
  }

  function AwaitData(s: State, r: nat, lens: seq<nat>, nonblock: bool): State {
    if s.q != [] then Take(s, r, lens, nonblock)
    else PutReader(s, r, Reader(lens, nonblock, if s.sender then WaitData(false) else RDone(Ok), []))
  }

  ghost function Apply(s: State, a: Act): State
    requires Enabled(s, a)
  {
    match a
    case Write(w, iovs, nonblock) => StartWrite(s, w, iovs, nonblock)
    case Room(w) => AwaitRoom(s, w, s.writers[w])
    case Space(w) => AwaitSpace(s, w, s.writers[w])
    case Wrote(w) => Put(s, w, s.writers[w].(pc := WDone(Ok))).(readers := WakeReaders(s.readers))
    case Read(r, lens, nonblock) => StartRead(s, r, lens, nonblock)
    case Data(r) => AwaitData(s, r, s.readers[r].lens, s.readers[r].nonblock)
    case HasRead(r) =>
      PutReader(s, r, s.readers[r].(pc := RDone(Ok))).(writers := WakeWriters(s.writers))
    case DetachSender => if s.sender then s.(sender := false, readers := WakeReaders(s.readers)) else s
    case DetachReceiver => if s.receiver then s.(receiver := false, writers := WakeWriters(s.writers)) else s
  }

  ghost predicate Step(s: State, t: State) {
    exists a :: Enabled(s, a) && t == Apply(s, a)
  }

  ghost predicate Run(tr: seq<State>) {
    |tr| > 0 && Init(tr[0]) && forall i | 0 <= i < |tr| - 1 :: Step(tr[i], tr[i + 1])
  }

  // ---- the logs ----

  function AllBytes(log: seq<Chunk>): seq<Byte> {
    if log == [] then [] else AllBytes(log[..|log| - 1]) + log[|log| - 1].bytes
  }

  // What one writer has put in, and in how many pieces; or what one reader has taken.
  function BytesOf(log: seq<Chunk>, w: nat): seq<Byte> {
    if log == [] then []
    else BytesOf(log[..|log| - 1], w) + if log[|log| - 1].w == w then log[|log| - 1].bytes else []
  }

  function PiecesOf(log: seq<Chunk>, w: nat): nat {
    if log == [] then 0 else PiecesOf(log[..|log| - 1], w) + if log[|log| - 1].w == w then 1 else 0
  }

  lemma LogSnoc(log: seq<Chunk>, c: Chunk, w: nat)
    ensures AllBytes(log + [c]) == AllBytes(log) + c.bytes
    ensures BytesOf(log + [c], w) == BytesOf(log, w) + if c.w == w then c.bytes else []
    ensures PiecesOf(log + [c], w) == PiecesOf(log, w) + if c.w == w then 1 else 0
  {
    assert (log + [c])[..|log|] == log;
  }

  // ---- the invariant ----

  // How far a writer is, and what of its bytes is in the log.
  ghost predicate WriterIs(x: Writer, bytes: seq<Byte>, pieces: nat, receiver: bool) {
    && Placed(x) && bytes + Left(x) == Flat(x.iovs)
    && (x.pc.WaitRoom? ==> bytes == [] && Flat(x.iovs) != [] && !x.nonblock && pieces == 0)
    && (x.pc.WaitSpace? ==> Left(x) != [] && |Flat(x.iovs)| > PIPE_BUF && !x.nonblock)
    && (x.pc.WDone? && x.pc.r != Ok ==> bytes == [])
    && (|Flat(x.iovs)| <= PIPE_BUF ==> (bytes == [] || Left(x) == []) && pieces <= 1)
    && (x.pc == WDone(Ok) || x.pc == WNotify ==>
          Left(x) == [] || !receiver || (x.nonblock && |Flat(x.iovs)| > PIPE_BUF))
  }

  ghost predicate WriterOk(s: State, w: nat)
    requires w in s.writers
  {
    WriterIs(s.writers[w], BytesOf(s.log, w), PiecesOf(s.log, w), s.receiver)
  }

  ghost predicate ReaderIs(x: Reader, bytes: seq<Byte>, pieces: nat, sender: bool) {
    && Flat(x.got) == bytes && pieces <= 1 && |bytes| <= Sum(x.lens)
    && (x.pc.WaitData? ==> bytes == [] && pieces == 0 && Sum(x.lens) > 0 && !x.nonblock)
    && (x.pc == RDone(Ok) && bytes == [] ==> Sum(x.lens) == 0 || !sender)
    && (x.pc == RNotify ==> bytes != [])
    && (x.pc == RDone(Eagain) ==> bytes == [] && x.nonblock)
    && x.pc != RDone(Epipe)
  }

  ghost predicate ReaderOk(s: State, r: nat)
    requires r in s.readers
  {
    ReaderIs(s.readers[r], BytesOf(s.taken, r), PiecesOf(s.taken, r), s.sender)
  }

  ghost predicate Writers(s: State) {
    && (forall w | w in s.writers :: WriterOk(s, w))
    && (forall w: nat | w !in s.writers :: BytesOf(s.log, w) == [] && PiecesOf(s.log, w) == 0)
  }

  ghost predicate Readers(s: State) {
    && (forall r | r in s.readers :: ReaderOk(s, r))
    && (forall r: nat | r !in s.readers :: BytesOf(s.taken, r) == [] && PiecesOf(s.taken, r) == 0)
  }

  ghost predicate QueueOk(s: State) {
    AllBytes(s.taken) + s.q == AllBytes(s.log) && |s.q| <= MAX_BUF && !s.failed
  }

  // ---- no wakeup is lost ----

  ghost predicate WillWakeReaders(s: State) { exists w :: w in s.writers && s.writers[w].pc == WNotify }

  ghost predicate WillWakeWriters(s: State) { exists r :: r in s.readers && s.readers[r].pc == RNotify }

  /** Those asleep have reason to be, or somebody is about to wake them. */
  ghost predicate ReadersAsleep(s: State) {
    forall r | r in s.readers && s.readers[r].pc == WaitData(false) :: (s.sender && s.q == []) || WillWakeReaders(s)
  }

  ghost predicate MustWait(s: State, x: Writer) {
    && s.receiver && (x.pc == WaitRoom(false) ==> |s.q| + NeedRoom(|Flat(x.iovs)|) > MAX_BUF)
    && (x.pc == WaitSpace(false) ==> |s.q| == MAX_BUF)
  }

  predicate Sleeps(x: Writer) { x.pc == WaitRoom(false) || x.pc == WaitSpace(false) }

  ghost predicate WritersAsleep(s: State) {
    forall w | w in s.writers && Sleeps(s.writers[w]) :: MustWait(s, s.writers[w]) || WillWakeWriters(s)
  }

  ghost predicate Inv(s: State) {
    QueueOk(s) && Writers(s) && Readers(s) && ReadersAsleep(s) && WritersAsleep(s)
  }

  // ---- every step keeps it ----

  // A writer about to copy: nothing was put in if it is a small write, and then all of it fits.
  ghost predicate MayCopy(s: State, w: nat, x: Writer) {
    && s.receiver && Placed(x) && Left(x) != [] && BytesOf(s.log, w) + Left(x) == Flat(x.iovs) && |s.q| < MAX_BUF
    && (|Flat(x.iovs)| <= PIPE_BUF ==>
          BytesOf(s.log, w) == [] && |s.q| + |Flat(x.iovs)| <= MAX_BUF && PiecesOf(s.log, w) == 0)
  }

  lemma CopyWriter(s: State, w: nat, x: Writer)
    requires MayCopy(s, w, x)
    ensures WriterOk(Copy(s, w, x), w)
  {
    var rest := Left(x);
    var n := Least(Space0(s), |rest|);
    LogSnoc(s.log, Chunk(w, rest[..n]), w);
    StopRest(x.iovs, x.ind, x.off, Space0(s), Stop(x.iovs, x.ind, x.off, Space0(s)));
    assert rest == rest[..n] + rest[n..];
    Join(BytesOf(s.log, w), rest[..n], rest[n..]);
  }

  lemma CopyWriters(s: State, w: nat, x: Writer)
    requires Writers(s) && MayCopy(s, w, x)
    ensures Writers(Copy(s, w, x))
  {
    var r := Copy(s, w, x);
    CopyWriter(s, w, x);
    forall v | v in r.writers && v != w ensures WriterOk(r, v) {
      assert WriterOk(s, v);
      LogSnoc(s.log, r.log[|s.log|], v);
    }
    forall v: nat | v !in r.writers ensures BytesOf(r.log, v) == [] && PiecesOf(r.log, v) == 0 {
      LogSnoc(s.log, r.log[|s.log|], v);
    }
  }

  lemma CopyQueue(s: State, w: nat, x: Writer)
    requires QueueOk(s) && MayCopy(s, w, x)
    ensures QueueOk(Copy(s, w, x))
  {
    var r := Copy(s, w, x);
    LogSnoc(s.log, r.log[|s.log|], w);
    Join(AllBytes(s.taken), s.q, r.log[|s.log|].bytes);
  }

  // Waking, and a sender or receiver that goes, change nothing of what readers and writers have done.
  lemma SameReaders(s: State, t: State)
    requires Readers(s) && t.taken == s.taken && (t.sender ==> s.sender)
    requires t.readers == s.readers || t.readers == WakeReaders(s.readers)
    ensures Readers(t)
  {
    forall r | r in t.readers ensures ReaderOk(t, r) {
      assert ReaderOk(s, r);
    }
  }

  lemma SameWriters(s: State, t: State)
    requires Writers(s) && t.log == s.log && (t.receiver ==> s.receiver)
    requires t.writers == s.writers || t.writers == WakeWriters(s.writers)
    ensures Writers(t)
  {
    forall w | w in t.writers ensures WriterOk(t, w) {
      assert WriterOk(s, w);
    }
  }

  lemma WokenReaders(s: State, t: State)
    requires t.readers == WakeReaders(s.readers)
    ensures ReadersAsleep(t)
  {
  }

  lemma WokenWriters(s: State, t: State)
    requires t.writers == WakeWriters(s.writers)
    ensures WritersAsleep(t)
  {
  }

  // The same readers sleep, for the same reason.
  lemma StillReaders(s: State, t: State)
    requires ReadersAsleep(s) && t.q == s.q && t.sender == s.sender
    requires forall r | r in t.readers && t.readers[r].pc == WaitData(false) ::
               r in s.readers && s.readers[r].pc == WaitData(false)
    requires forall w | w in s.writers && s.writers[w].pc == WNotify :: w in t.writers && t.writers[w].pc == WNotify
    ensures ReadersAsleep(t)
  {
    if WillWakeReaders(s) {
      var w :| w in s.writers && s.writers[w].pc == WNotify;
      assert t.writers[w].pc == WNotify;
    }
  }

  lemma StillWriters(s: State, t: State)
    requires WritersAsleep(s) && t.q == s.q && t.receiver == s.receiver
    requires forall w | w in t.writers && Sleeps(t.writers[w]) :: w in s.writers && t.writers[w] == s.writers[w]
    requires forall r | r in s.readers && s.readers[r].pc == RNotify :: r in t.readers && t.readers[r].pc == RNotify
    ensures WritersAsleep(t)
  {
    if WillWakeWriters(s) {
      var r :| r in s.readers && s.readers[r].pc == RNotify;
      assert t.readers[r].pc == RNotify;
    }
  }

  lemma CopySleep(s: State, w: nat, x: Writer)
    requires Inv(s) && MayCopy(s, w, x)
    ensures ReadersAsleep(Copy(s, w, x)) && WritersAsleep(Copy(s, w, x))
  {
    var r := Copy(s, w, x);
    if Least(Space0(s), |Left(x)|) == |Left(x)| {
      assert r.writers[w].pc == WNotify;
    }
    forall v | v in r.writers && Sleeps(r.writers[v]) ensures MustWait(r, r.writers[v]) || WillWakeWriters(r) {
      if v != w && !MustWait(s, s.writers[v]) {
        var u :| u in s.readers && s.readers[u].pc == RNotify;
        assert r.readers[u].pc == RNotify;
      }
    }
  }

  lemma CopyOk(s: State, w: nat, x: Writer)
    requires Inv(s) && MayCopy(s, w, x)
    ensures Inv(Copy(s, w, x))
  {
    CopyQueue(s, w, x);
    CopyWriters(s, w, x);
    SameReaders(s, Copy(s, w, x));
    CopySleep(s, w, x);
  }

  lemma PutWriters(s: State, w: nat, x: Writer)
    requires Writers(s) && WriterOk(Put(s, w, x), w)
    ensures Writers(Put(s, w, x))
  {
    forall v | v in s.writers && v != w ensures WriterOk(Put(s, w, x), v) {
      assert WriterOk(s, v);
    }
  }

  lemma PutAsleep(s: State, w: nat, x: Writer)
    requires ReadersAsleep(s) && WritersAsleep(s) && (Sleeps(x) ==> MustWait(s, x))
    requires w in s.writers ==> s.writers[w].pc != WNotify
    ensures ReadersAsleep(Put(s, w, x)) && WritersAsleep(Put(s, w, x))
  {
    var r := Put(s, w, x);
    StillReaders(s, r);
    if WillWakeWriters(s) {
      var u :| u in s.readers && s.readers[u].pc == RNotify;
      assert r.readers[u].pc == RNotify;
    }
  }

  lemma PutOk(s: State, w: nat, x: Writer)
    requires Inv(s) && WriterOk(Put(s, w, x), w) && (Sleeps(x) ==> MustWait(s, x))
    requires w in s.writers ==> s.writers[w].pc != WNotify
    ensures Inv(Put(s, w, x))
  {
    PutWriters(s, w, x);
    SameReaders(s, Put(s, w, x));
    PutAsleep(s, w, x);
  }

  lemma RoomOk(s: State, w: nat, x: Writer)
    requires Inv(s) && Placed(x) && Left(x) == Flat(x.iovs) != [] && !x.nonblock
    requires BytesOf(s.log, w) == [] && PiecesOf(s.log, w) == 0
    requires w in s.writers ==> s.writers[w].pc != WNotify
    ensures Inv(AwaitRoom(s, w, x))
  {
    if s.receiver && |s.q| + NeedRoom(|Flat(x.iovs)|) > MAX_BUF {
      PutOk(s, w, x.(pc := WaitRoom(false)));
    } else if !s.receiver {
      PutOk(s, w, x.(pc := WDone(Epipe)));
    } else {
      CopyOk(s, w, x);
    }
  }

  lemma NonblockOk(s: State, w: nat, x: Writer)
    requires Inv(s) && w !in s.writers && Placed(x) && Left(x) == Flat(x.iovs) != [] && x.nonblock && s.receiver
    ensures |s.q| + NeedRoom(|Flat(x.iovs)|) > MAX_BUF ==> Inv(Put(s, w, x.(pc := WDone(Eagain))))
    ensures |s.q| + NeedRoom(|Flat(x.iovs)|) <= MAX_BUF ==> Inv(Copy(s, w, x))
  {
    if |s.q| + NeedRoom(|Flat(x.iovs)|) > MAX_BUF {
      PutOk(s, w, x.(pc := WDone(Eagain)));
    } else {
      CopyOk(s, w, x);
    }
  }

  lemma WriteOk(s: State, w: nat, iovs: seq<seq<Byte>>, nonblock: bool)
    requires Inv(s) && w !in s.writers
    ensures Inv(StartWrite(s, w, iovs, nonblock))
  {
    var x := Writer(iovs, 0, 0, nonblock, WDone(Ok));
    RestStart(iovs);
    if Flat(iovs) == [] {
      PutOk(s, w, x);
    } else if !nonblock {
      RoomOk(s, w, x);
    } else if !s.receiver {
      PutOk(s, w, x.(pc := WDone(Epipe)));
    } else {
      NonblockOk(s, w, x);
    }
  }

  lemma SpaceOk(s: State, w: nat)
    requires Inv(s) && Enabled(s, Space(w))
    ensures Inv(AwaitSpace(s, w, s.writers[w]))
  {
    var x := s.writers[w];
    assert WriterOk(s, w);
    if s.receiver && |s.q| == MAX_BUF {
      PutOk(s, w, x.(pc := WaitSpace(false)));
    } else if !s.receiver {
      PutOk(s, w, x.(pc := WNotify));
    } else {
      CopyOk(s, w, x);
    }
  }

  lemma WroteWriters(s: State, w: nat, t: State)
    requires Writers(s) && Enabled(s, Wrote(w)) && t == Apply(s, Wrote(w))
    ensures Writers(t)
  {
    forall v | v in t.writers ensures WriterOk(t, v) {
      assert WriterOk(s, v);
    }
  }

  lemma WroteAsleep(s: State, w: nat, t: State)
    requires WritersAsleep(s) && Enabled(s, Wrote(w)) && t == Apply(s, Wrote(w))
    ensures ReadersAsleep(t) && WritersAsleep(t)
  {
    WokenReaders(s, t);
    StillWriters(s, t);
  }

  lemma WroteOk(s: State, w: nat)
    requires Inv(s) && Enabled(s, Wrote(w))
    ensures Inv(Apply(s, Wrote(w)))
  {
    var t := Apply(s, Wrote(w));
    WroteWriters(s, w, t);
    SameReaders(s, t);
    WroteAsleep(s, w, t);
  }

  // ---- reading ----

  lemma PutReaders(s: State, r: nat, x: Reader)
    requires Readers(s) && ReaderOk(PutReader(s, r, x), r)
    ensures Readers(PutReader(s, r, x))
  {
    forall v | v in s.readers && v != r ensures ReaderOk(PutReader(s, r, x), v) {
      assert ReaderOk(s, v);
    }
  }

  lemma PutReaderAsleep(s: State, r: nat, x: Reader)
    requires ReadersAsleep(s) && WritersAsleep(s) && (x.pc == WaitData(false) ==> s.sender && s.q == [])
    requires r in s.readers ==> s.readers[r].pc != RNotify
    ensures ReadersAsleep(PutReader(s, r, x)) && WritersAsleep(PutReader(s, r, x))
  {
    var t := PutReader(s, r, x);
    StillWriters(s, t);
    if WillWakeReaders(s) {
      var v :| v in s.writers && s.writers[v].pc == WNotify;
      assert t.writers[v].pc == WNotify;
    }
  }

  lemma PutReaderOk(s: State, r: nat, x: Reader)
    requires Inv(s) && ReaderOk(PutReader(s, r, x), r) && (x.pc == WaitData(false) ==> s.sender && s.q == [])
    requires r in s.readers ==> s.readers[r].pc != RNotify
    ensures Inv(PutReader(s, r, x))
  {
    PutReaders(s, r, x);
    SameWriters(s, PutReader(s, r, x));
    PutReaderAsleep(s, r, x);
  }

  lemma TakeReaders(s: State, r: nat, lens: seq<nat>, nonblock: bool)
    requires Readers(s) && s.q != [] && Sum(lens) > 0 && BytesOf(s.taken, r) == [] && PiecesOf(s.taken, r) == 0
    ensures Readers(Take(s, r, lens, nonblock))
  {
    var t := Take(s, r, lens, nonblock);
    SpreadFlat(s.q, lens);
    LogSnoc(s.taken, t.taken[|s.taken|], r);
    forall v | v in t.readers && v != r ensures ReaderOk(t, v) {
      assert ReaderOk(s, v);
      LogSnoc(s.taken, t.taken[|s.taken|], v);
    }
    forall v: nat | v !in t.readers ensures BytesOf(t.taken, v) == [] && PiecesOf(t.taken, v) == 0 {
      LogSnoc(s.taken, t.taken[|s.taken|], v);
    }
  }

  lemma TakenBytes(taken: seq<Chunk>, q: seq<Byte>, n: nat, r: nat)
    requires n <= |q|
    ensures AllBytes(taken + [Chunk(r, q[..n])]) + q[n..] == AllBytes(taken) + q
  {
    LogSnoc(taken, Chunk(r, q[..n]), r);
    assert q == q[..n] + q[n..];
    Join(AllBytes(taken), q[..n], q[n..]);
  }

  lemma TakeQueue(s: State, r: nat, lens: seq<nat>, nonblock: bool)
    requires QueueOk(s)
    ensures QueueOk(Take(s, r, lens, nonblock))
  {
    TakenBytes(s.taken, s.q, Least(|s.q|, Sum(lens)), r);
  }

  lemma TakeOk(s: State, r: nat, lens: seq<nat>, nonblock: bool)
    requires Inv(s) && s.q != [] && Sum(lens) > 0 && BytesOf(s.taken, r) == [] && PiecesOf(s.taken, r) == 0
    requires r in s.readers ==> s.readers[r].pc != RNotify
    ensures Inv(Take(s, r, lens, nonblock))
  {
    var t := Take(s, r, lens, nonblock);
    TakeReaders(s, r, lens, nonblock);
    TakeQueue(s, r, lens, nonblock);
    SameWriters(s, t);
    assert t.readers[r].pc == RNotify;
    if WillWakeReaders(s) {
      var v :| v in s.writers && s.writers[v].pc == WNotify;
      assert t.writers[v].pc == WNotify;
    }
  }

  lemma DataOk(s: State, r: nat, lens: seq<nat>, nonblock: bool)
    requires Inv(s) && Sum(lens) > 0 && BytesOf(s.taken, r) == [] && PiecesOf(s.taken, r) == 0
    requires (r in s.readers ==> s.readers[r].pc != RNotify) && (s.q == [] ==> !nonblock)
    ensures Inv(AwaitData(s, r, lens, nonblock))
  {
    if s.q != [] {
      TakeOk(s, r, lens, nonblock);
    } else {
      PutReaderOk(s, r, Reader(lens, nonblock, if s.sender then WaitData(false) else RDone(Ok), []));
    }
  }

  lemma ReadOk(s: State, r: nat, lens: seq<nat>, nonblock: bool)
    requires Inv(s) && r !in s.readers
    ensures Inv(StartRead(s, r, lens, nonblock))
  {
    if Sum(lens) == 0 {
      PutReaderOk(s, r, Reader(lens, nonblock, RDone(Ok), []));
    } else if nonblock && s.q == [] {
      PutReaderOk(s, r, Reader(lens, nonblock, RDone(if s.sender then Eagain else Ok), []));
    } else {
      DataOk(s, r, lens, nonblock);
    }
  }

  lemma HasReadReaders(s: State, r: nat, t: State)
    requires Readers(s) && Enabled(s, HasRead(r)) && t == Apply(s, HasRead(r))
    ensures Readers(t)
  {
    forall v | v in t.readers ensures ReaderOk(t, v) {
      assert ReaderOk(s, v);
    }
  }

  lemma HasReadOk(s: State, r: nat)
    requires Inv(s) && Enabled(s, HasRead(r))
    ensures Inv(Apply(s, HasRead(r)))
  {
    var t := Apply(s, HasRead(r));
    HasReadReaders(s, r, t);
    SameWriters(s, t);
    WokenWriters(s, t);
    StillReaders(s, t);
  }

  lemma DetachSenderOk(s: State)
    requires Inv(s) && s.sender
    ensures Inv(Apply(s, DetachSender))
  {
    var t := Apply(s, DetachSender);
    SameReaders(s, t);
    SameWriters(s, t);
    WokenReaders(s, t);
    StillWriters(s, t);
  }

  lemma DetachReceiverOk(s: State)
    requires Inv(s) && s.receiver
    ensures Inv(Apply(s, DetachReceiver))
  {
    var t := Apply(s, DetachReceiver);
    SameReaders(s, t);
    SameWriters(s, t);
    WokenWriters(s, t);
    StillReaders(s, t);
  }

  lemma KeepInv(s: State, a: Act)
    requires Inv(s) && Enabled(s, a)
    ensures Inv(Apply(s, a))
  {
    match a {
      case Write(w, iovs, nonblock) => { WriteOk(s, w, iovs, nonblock); }
      case Room(w) => {
        assert WriterOk(s, w);
        RoomOk(s, w, s.writers[w]);
      }
      case Space(w) => { SpaceOk(s, w); }
      case Wrote(w) => { WroteOk(s, w); }
      case Read(r, lens, nonblock) => { ReadOk(s, r, lens, nonblock); }
      case Data(r) => {
        assert ReaderOk(s, r);
        DataOk(s, r, s.readers[r].lens, s.readers[r].nonblock);
      }
      case HasRead(r) => { HasReadOk(s, r); }
      case DetachSender => {
        if s.sender {
          DetachSenderOk(s);
        }
      }
      case DetachReceiver => {
        if s.receiver {
          DetachReceiverOk(s);
        }
      }
    }
  }

  lemma {:induction false} RunInv(tr: seq<State>, i: nat)
    requires Run(tr) && i < |tr|
    ensures Inv(tr[i])
  {
    if i > 0 {
      RunInv(tr, i - 1);
      assert Step(tr[i - 1], tr[i - 1 + 1]);
      var a :| Enabled(tr[i - 1], a) && tr[i - 1 + 1] == Apply(tr[i - 1], a);
      KeepInv(tr[i - 1], a);
    }
  }

  // ---- what it gives ----

  /** In every run: the bytes taken and then those queued are the bytes put in, in order; the queue is
      never over its size; and the assertion in write() holds. A write puts in a prefix of its data: all
      or nothing of it, in one piece, if it is of at most PIPE_BUF bytes; nothing if it fails; all of it
      unless it fails, or the receiver is gone, or it is a larger one that may not block. */
  lemma PipeIsCorrect(tr: seq<State>, i: nat)
    requires Run(tr) && i < |tr|
    ensures AllBytes(tr[i].taken) + tr[i].q == AllBytes(tr[i].log) && |tr[i].q| <= MAX_BUF && !tr[i].failed
    ensures forall w | w in tr[i].writers ::
              WriterIs(tr[i].writers[w], BytesOf(tr[i].log, w), PiecesOf(tr[i].log, w), tr[i].receiver)
  {
    RunInv(tr, i);
    forall w | w in tr[i].writers
      ensures WriterIs(tr[i].writers[w], BytesOf(tr[i].log, w), PiecesOf(tr[i].log, w), tr[i].receiver)
    {
      assert WriterOk(tr[i], w);
    }
  }

  /** In every run: a read has in its buffers what it took, at one time, in order; it returns without any
      only if it asked for none or the sender is gone, or with EAGAIN if it may not block. */
  lemma ReadsAreCorrect(tr: seq<State>, i: nat)
    requires Run(tr) && i < |tr|
    ensures forall r | r in tr[i].readers ::
              ReaderIs(tr[i].readers[r], BytesOf(tr[i].taken, r), PiecesOf(tr[i].taken, r), tr[i].sender)
  {
    RunInv(tr, i);
    forall r | r in tr[i].readers
      ensures ReaderIs(tr[i].readers[r], BytesOf(tr[i].taken, r), PiecesOf(tr[i].taken, r), tr[i].sender)
    {
      assert ReaderOk(tr[i], r);
    }
  }

  /** A step returns EAGAIN for a read if and only if it is one that may not block, asks for something,
      and finds the queue empty with the sender there. */
  lemma EagainIff(s: State, a: Act, r: nat)
    requires Enabled(s, a) && (r in s.readers ==> s.readers[r].pc != RDone(Eagain))
    ensures (r in Apply(s, a).readers && Apply(s, a).readers[r].pc == RDone(Eagain)) <==>
            (a.Read? && a.r == r && a.nonblock && Sum(a.lens) > 0 && s.q == [] && s.sender)
  {
    if !a.Read? && !a.Data? {
      NoEagain(s, a, r);
    }
  }

  lemma NoEagain(s: State, a: Act, r: nat)
    requires Enabled(s, a) && !a.Read? && !a.Data? && (r in s.readers ==> s.readers[r].pc != RDone(Eagain))
    ensures r in Apply(s, a).readers ==> Apply(s, a).readers[r].pc != RDone(Eagain)
  {
  }

  /** In every run: a reader asleep would go to sleep again, and so would a writer, or somebody is about to
      wake all of them. */
  lemma NoWakeupIsLost(tr: seq<State>, i: nat)
    requires Run(tr) && i < |tr|
    ensures ReadersAsleep(tr[i]) && WritersAsleep(tr[i])
  {
    RunInv(tr, i);
  }
}
