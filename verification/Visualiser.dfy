/** The telemetry consumer: it tracks its sequence number over the results of its reads and
    posts the records in batches. */
module Visualiser {
  import opened MaskArithmetic
  import opened Ring
  import opened RingProtocol
  import opened RingProtocolLaws

  const BATCH_SIZE_LIMIT := 5000

  datatype Progress = Progress(sequenceNum: nat, batch: seq<Slot>, posted: seq<seq<Slot>>) {

    function Flush(): Progress {
      this.(posted := posted + [batch], batch := [])
    }

    function Take(r: ReadResult): Progress {
      match r
      case Success(slot) =>
        var p := this.(sequenceNum := sequenceNum + 1, batch := batch + [slot]);
        if |p.batch| > BATCH_SIZE_LIMIT then p.Flush() else p
      case Empty => if batch != [] then Flush() else this
      case Reset => this.(sequenceNum := 0, batch := [])
      case Overlapped(next) => this.(sequenceNum := next)
      case Interrupted(next) => this.(sequenceNum := next)
    }

    function TakeAll(rs: seq<ReadResult>): Progress {
      if rs == [] then this else TakeAll(rs[..|rs| - 1]).Take(rs[|rs| - 1])
    }
  }

  const BEGINNING := Progress(0, [], [])

  class Consumer {
    var sequenceNum: nat
    var recordsInBatch: nat
    var batchBuffer: seq<Slot>
    var posted: seq<seq<Slot>>

    constructor ()
      ensures Valid() && View() == BEGINNING
    {
      sequenceNum, recordsInBatch, batchBuffer, posted := 0, 0, [], [];
    }

    ghost predicate Valid()
      reads this
    {
      recordsInBatch == |batchBuffer|
    }

    ghost function View(): Progress
      reads this
    {
      Progress(sequenceNum, batchBuffer, posted)
    }

    // The post may fail; the batch is dropped either way.
    method FlushToInflux()
      modifies this
      ensures Valid() && View() == old(View()).Flush()
    {
      posted := posted + [batchBuffer];
      batchBuffer := [];
      recordsInBatch := 0;
    }

    method OnRead(r: ReadResult)
      requires Valid()
      modifies this
      ensures Valid() && View() == old(View()).Take(r)
    {
      match r {
        case Success(slot) =>
          batchBuffer := batchBuffer + [slot];
          recordsInBatch := recordsInBatch + 1;
          sequenceNum := sequenceNum + 1;
          if recordsInBatch > BATCH_SIZE_LIMIT {
            FlushToInflux();
          }
        case Empty =>
          if recordsInBatch > 0 {
            FlushToInflux();
          }
        case Reset =>
          sequenceNum := 0;
          batchBuffer := [];
          recordsInBatch := 0;
        case Overlapped(next) =>
          sequenceNum := next;
        case Interrupted(next) =>
          sequenceNum := next;
      }
    }

    /** The consumer loop over a run's read results. */
    method Consume(results: seq<ReadResult>)
      requires Valid()
      modifies this
      ensures Valid() && View() == old(View()).TakeAll(results)
    {
      for i := 0 to |results|
        invariant Valid() && View() == old(View()).TakeAll(results[..i])
      {
        OnRead(results[i]);
        assert results[..i + 1][..i] == results[..i];
      }
      assert results[..|results|] == results;
    }
  }

  /** The slot a complete copy amounts to. */
  function SlotFrom(copy: map<nat, nat>): Slot {
    if WholeSlot(copy) then
      Slot(copy[0], copy[1], seq(MAX_DATA, i requires 0 <= i < MAX_DATA => copy[2 + i] % 0x100))
    else BLANK
  }

  /** What a protocol outcome looks like to the consumer. */
  function ResultOf(o: Outcome): ReadResult {
    match o
    case Delivered(_, copy, _, _) => Success(SlotFrom(copy))
    case Jumped(_, to, _) => Overlapped(to)
    case Nothing(_) => Empty
    case Retried(_) => Empty
  }

  function ResultsOf(h: seq<Outcome>): seq<ReadResult> {
    seq(|h|, i requires 0 <= i < |h| => ResultOf(h[i]))
  }

  /** The slots delivered, in order. */
  function Slots(h: seq<Outcome>): seq<Slot> {
    if h == [] then []
    else
      var o := h[|h| - 1];
      Slots(h[..|h| - 1]) + if o.Delivered? then [SlotFrom(o.copy)] else []
  }

  function Joined(batches: seq<seq<Slot>>): seq<Slot> {
    if batches == [] then [] else Joined(batches[..|batches| - 1]) + batches[|batches| - 1]
  }

  lemma JoinedPush(batches: seq<seq<Slot>>, b: seq<Slot>)
    ensures Joined(batches + [b]) == Joined(batches) + b
  {
    assert (batches + [b])[..|batches|] == batches;
  }

  predicate BatchSized(batches: seq<seq<Slot>>) {
    forall k | 0 <= k < |batches| :: 0 < |batches[k]| <= 5001
  }

  /** Fed a ring reader's outcomes, the consumer is at the reader's position, and its posted
      batches followed by the open one are exactly the slots delivered: batching loses,
      repeats and reorders nothing, and no posted batch is empty or over the limit by more
      than one. After an idle read nothing is held back, and posts happen only then or at the
      5001st record. */
  lemma ConsumerFollowsReader(h: seq<Outcome>, next: nat)
    requires Chained(h, 0, next) && forall k | 0 <= k < |h| :: !h[k].Retried?
    ensures var p := BEGINNING.TakeAll(ResultsOf(h));
            && p.sequenceNum == next
            && Carries(p, Slots(h))
            && (h != [] && h[|h| - 1].Nothing? ==> p.batch == [] && Joined(p.posted) == Slots(h))
    ensures forall n | 0 <= n < |h| :: PostsRightly(ConsumerAt(h, n), h[n], ConsumerAt(h, n + 1))
  {
    ConsumerCarries(h, next);
    PostsAlong(h, next);
    assert h[..|h|] == h;
    if h != [] && h[|h| - 1].Nothing? {
      assert PostsRightly(ConsumerAt(h, |h| - 1), h[|h| - 1], ConsumerAt(h, |h|));
      var p := BEGINNING.TakeAll(ResultsOf(h));
      assert Joined(p.posted) + [] == Joined(p.posted);
    }
  }

  lemma {:induction false} PostsAlong(h: seq<Outcome>, next: nat)
    requires Chained(h, 0, next) && forall k | 0 <= k < |h| :: !h[k].Retried?
    ensures forall n | 0 <= n < |h| :: PostsRightly(ConsumerAt(h, n), h[n], ConsumerAt(h, n + 1))
  {
    if h == [] {
    } else {
      var front := h[..|h| - 1];
      PostsAlong(front, h[|h| - 1].seqNo);
      ConsumerCarries(front, h[|h| - 1].seqNo);
      forall n | 0 <= n < |h| ensures PostsRightly(ConsumerAt(h, n), h[n], ConsumerAt(h, n + 1)) {
        if n < |front| {
          assert front[..n] == h[..n] && front[..n + 1] == h[..n + 1] && front[n] == h[n];
          assert PostsRightly(ConsumerAt(front, n), front[n], ConsumerAt(front, n + 1));
        } else {
          TakeAllStep(h, n);
          TakePostsRightly(ConsumerAt(h, n), h[n]);
        }
      }
    }
  }

  lemma {:induction false} ConsumerCarries(h: seq<Outcome>, next: nat)
    requires Chained(h, 0, next) && forall k | 0 <= k < |h| :: !h[k].Retried?
    ensures var p := BEGINNING.TakeAll(ResultsOf(h)); p.sequenceNum == next && Carries(p, Slots(h))
  {
    if h == [] {
    } else {
      var n := |h| - 1;
      ConsumerCarries(h[..n], h[n].seqNo);
      assert ResultsOf(h)[..n] == ResultsOf(h[..n]);
      TakeKeeps(BEGINNING.TakeAll(ResultsOf(h[..n])), Slots(h[..n]), h[n]);
    }
  }

  /** The batches posted and the open one together carry the slots, within the size bounds. */
  predicate Carries(p: Progress, slots: seq<Slot>) {
    Joined(p.posted) + p.batch == slots && BatchSized(p.posted) && |p.batch| <= 5000
  }

  /** How the posts go on: the held records go out together, at once when an idle read finds any,
      or when the 5001st arrives, and at no other time. */
  ghost predicate PostsRightly(before: Progress, o: Outcome, after: Progress) {
    if o.Nothing? && before.batch != [] then
      after.posted == before.posted + [before.batch] && after.batch == []
    else if o.Delivered? && |before.batch| == 5000 then
      && after.batch == [] && |after.posted| == |before.posted| + 1
      && after.posted[..|before.posted|] == before.posted
      && |after.posted[|before.posted|]| == 5001
    else after.posted == before.posted && (o.Nothing? ==> after.batch == [])
  }

  /** After n outcomes. */
  function ConsumerAt(h: seq<Outcome>, n: nat): Progress
    requires n <= |h|
  {
    BEGINNING.TakeAll(ResultsOf(h[..n]))
  }

  lemma TakeAllStep(h: seq<Outcome>, n: nat)
    requires n < |h|
    ensures ConsumerAt(h, n + 1) == ConsumerAt(h, n).Take(ResultOf(h[n]))
  {
    assert ResultsOf(h[..n + 1])[..n] == ResultsOf(h[..n]);
  }

  lemma TakePostsRightly(p: Progress, o: Outcome)
    requires !o.Retried? && |p.batch| <= 5000
    ensures PostsRightly(p, o, p.Take(ResultOf(o)))
  {
    if o.Delivered? && |p.batch| == 5000 {
      var batch := p.batch + [SlotFrom(o.copy)];
      assert p.Take(ResultOf(o)).posted == p.posted + [batch] && |batch| == 5001;
    }
  }


  lemma FlushCarries(p: Progress, slots: seq<Slot>)
    requires Joined(p.posted) + p.batch == slots && BatchSized(p.posted)
    requires 0 < |p.batch| <= 5001
    ensures Carries(p.Flush(), slots)
  {
    JoinedPush(p.posted, p.batch);
    assert slots + [] == slots;
  }

  lemma SuccessCarries(p: Progress, slots: seq<Slot>, slot: Slot)
    requires Carries(p, slots)
    ensures Carries(p.Take(Success(slot)), slots + [slot])
    ensures p.Take(Success(slot)).sequenceNum == p.sequenceNum + 1
  {
    var p1 := p.(sequenceNum := p.sequenceNum + 1, batch := p.batch + [slot]);
    assert Joined(p.posted) + (p.batch + [slot]) == (Joined(p.posted) + p.batch) + [slot];
    if |p1.batch| > BATCH_SIZE_LIMIT { FlushCarries(p1, slots + [slot]); }
  }

  lemma EmptyCarries(p: Progress, slots: seq<Slot>)
    requires Carries(p, slots)
    ensures Carries(p.Take(Empty), slots) && p.Take(Empty).sequenceNum == p.sequenceNum
  {
    if p.batch != [] { FlushCarries(p, slots); }
  }

  lemma TakeKeeps(p: Progress, slots: seq<Slot>, o: Outcome)
    requires Carries(p, slots) && p.sequenceNum == o.seqNo && !o.Retried?
    ensures var p' := p.Take(ResultOf(o));
            && Carries(p', slots + (if o.Delivered? then [SlotFrom(o.copy)] else []))
            && p'.sequenceNum == RingProtocol.After(o)
  {
    assert slots + [] == slots;
    match o
    case Delivered(_, copy, _, _) => SuccessCarries(p, slots, SlotFrom(copy));
    case Nothing(_) => EmptyCarries(p, slots);
    case Jumped(_, _, _) =>
  }

  lemma SlotHoldsMessage(copy: map<nat, nat>, m: Message)
    requires WholeSlot(copy) && Genuine(copy, m) && |m.data| <= MAX_DATA
    ensures Holds(SlotFrom(copy), m)
  {
    assert copy[0] == Cell(m, 0) && copy[1] == Cell(m, 1);
    forall i | 0 <= i < |m.data| ensures SlotFrom(copy).data[i] == m.data[i] {
      assert copy[2 + i] == Cell(m, 2 + i);
    }
  }

  predicate TakenInTime(o: Outcome, capacity: nat) {
    o.Delivered? && InTime(capacity, o.seqNo, o.head, o.midWrite)
  }

  /** In every interleaving with the producer: a consumer that starts at zero has posted, or
      holds ready to post, exactly the slots its reads delivered, in the order of the log; and
      each carries its log message that was delivered less than a capacity behind the head, or
      exactly a capacity behind it with no write under way. */
  lemma ConsumerShowsTheLog(capacity: nat, readers: seq<Reader>, acts: seq<Action>, r: nat)
    requires IsPow2(capacity) && Attaching(readers) && ValidRun(Start(capacity, readers), acts)
    requires var s := Run(Start(capacity, readers), acts);
             r < |s.readers| && s.readers[r].checked && s.readers[r].start == 0
    ensures var s := Run(Start(capacity, readers), acts);
            var h := s.readers[r].history;
            var p := BEGINNING.TakeAll(ResultsOf(h));
            && p.sequenceNum == s.readers[r].next
            && Carries(p, Slots(h))
            && (h != [] && h[|h| - 1].Nothing? ==> p.batch == [] && Joined(p.posted) == Slots(h))
            && (forall n | 0 <= n < |h| :: PostsRightly(ConsumerAt(h, n), h[n], ConsumerAt(h, n + 1)))
            && forall k | 0 <= k < |h| && TakenInTime(h[k], capacity) ::
                 h[k].seqNo < |s.log| && Holds(SlotFrom(h[k].copy), s.log[h[k].seqNo])
  {
    StartOk(capacity, readers);
    RunOk(Start(capacity, readers), acts);
    RunKeepsCapacity(Start(capacity, readers), acts);
    var s := Run(Start(capacity, readers), acts);
    var q := s.readers[r];
    assert ReaderOk(s, q);
    assert forall k | 0 <= k < |q.history| :: OutcomeOk(s.log, capacity, true, q.history[k]);
    ConsumerFollowsReader(q.history, q.next);
    forall k | 0 <= k < |q.history| && TakenInTime(q.history[k], capacity)
      ensures q.history[k].seqNo < |s.log| && Holds(SlotFrom(q.history[k].copy), s.log[q.history[k].seqNo])
    {
      SlotHoldsMessage(q.history[k].copy, s.log[q.history[k].seqNo]);
    }
  }

  /** The slots of the successful reads, in order. */
  function Successes(rs: seq<ReadResult>): seq<Slot> {
    if rs == [] then []
    else
      var r := rs[|rs| - 1];
      Successes(rs[..|rs| - 1]) + if r.Success? then [r.slot] else []
  }

  predicate Moves(r: ReadResult) {
    r.Reset? || r.Overlapped? || r.Interrupted?
  }

  /** Where a read that moves the consumer sends it. */
  function Target(r: ReadResult): nat
    requires Moves(r)
  {
    match r case Reset => 0 case Overlapped(next) => next case Interrupted(next) => next
  }

  lemma TakeAllPush(p: Progress, rs: seq<ReadResult>, r: ReadResult)
    ensures p.TakeAll(rs + [r]) == p.TakeAll(rs).Take(r)
    ensures Successes(rs + [r]) == Successes(rs) + if r.Success? then [r.slot] else []
  {
    assert (rs + [r])[..|rs|] == rs;
  }

  /** Whatever its reads return, the consumer is as many successes past where its last reset,
      overrun or interruption sent it as came since. */
  lemma {:induction false} PositionAfterAnyReads(rs: seq<ReadResult>, k: nat)
    requires k <= |rs| && (k > 0 ==> Moves(rs[k - 1])) && forall j | k <= j < |rs| :: !Moves(rs[j])
    ensures BEGINNING.TakeAll(rs).sequenceNum == (if k == 0 then 0 else Target(rs[k - 1])) + |Successes(rs[k..])|
  {
    if |rs| == k {
      assert rs[k..] == [];
    } else {
      var front, r := rs[..|rs| - 1], rs[|rs| - 1];
      PositionAfterAnyReads(front, k);
      TakeStays(BEGINNING.TakeAll(front), r);
      SuccessesSince(rs, k);
    }
  }

  lemma TakeStays(p: Progress, r: ReadResult)
    requires !Moves(r)
    ensures p.Take(r).sequenceNum == p.sequenceNum + if r.Success? then 1 else 0
  {
  }

  lemma SuccessesSince(rs: seq<ReadResult>, k: nat)
    requires k < |rs|
    ensures var front, r := rs[..|rs| - 1], rs[|rs| - 1];
            |Successes(rs[k..])| == |Successes(front[k..])| + if r.Success? then 1 else 0
  {
    var front, r := rs[..|rs| - 1], rs[|rs| - 1];
    assert rs[k..] == front[k..] + [r];
    TakeAllPush(BEGINNING, front[k..], r);
  }

  /** A reset drops what is held, keeps what is posted, and starts over. */
  lemma {:induction false} ResetStartsOver(before: seq<ReadResult>, after: seq<ReadResult>)
    ensures var p, q := BEGINNING.TakeAll(before), BEGINNING.TakeAll(after);
            BEGINNING.TakeAll(before + [Reset] + after) == q.(posted := p.posted + q.posted)
  {
    if after == [] {
      assert before + [Reset] + after == before + [Reset];
      TakeAllPush(BEGINNING, before, Reset);
    } else {
      var front, r := after[..|after| - 1], after[|after| - 1];
      ResetStartsOver(before, front);
      assert before + [Reset] + after == (before + [Reset] + front) + [r];
      TakeAllPush(BEGINNING, before + [Reset] + front, r);
      TakeOnTop(BEGINNING.TakeAll(before).posted, BEGINNING.TakeAll(front), r);
    }
  }

  // What was posted before has no influence.
  lemma TakeOnTop(posted: seq<seq<Slot>>, q: Progress, r: ReadResult)
    ensures q.(posted := posted + q.posted).Take(r) == q.Take(r).(posted := posted + q.Take(r).posted)
  {
    assert forall b: seq<Slot> :: (posted + q.posted) + [b] == posted + (q.posted + [b]);
  }

  /** Without a reset every successful read is posted or held, in order, once. */
  lemma {:induction false} AnyReadsKept(rs: seq<ReadResult>)
    requires forall k | 0 <= k < |rs| :: !rs[k].Reset?
    ensures Carries(BEGINNING.TakeAll(rs), Successes(rs))
    ensures rs != [] && rs[|rs| - 1].Empty? ==> BEGINNING.TakeAll(rs).batch == []
  {
    if rs == [] {
    } else {
      var front, r := rs[..|rs| - 1], rs[|rs| - 1];
      AnyReadsKept(front);
      var p := BEGINNING.TakeAll(front);
      match r
      case Success(slot) => SuccessCarries(p, Successes(front), slot);
      case Empty => EmptyCarries(p, Successes(front));
      case Overlapped(_) =>
      case Interrupted(_) =>
    }
  }
}
