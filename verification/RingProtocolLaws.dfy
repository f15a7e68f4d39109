/** What every interleaving of ring steps keeps, and what readers therefore receive. */
module RingProtocolLaws {
  import opened MaskArithmetic
  import opened Ring
  import opened RingProtocol

  lemma StartOk(capacity: nat, readers: seq<Reader>)
    requires IsPow2(capacity) && Attaching(readers)
    ensures Inv(Start(capacity, readers))
  {
  }

  // A step that leaves slots, head and writer alone keeps every untouched reader.
  lemma ReaderStep(s: Shared, r: nat, q: Reader)
    requires Inv(s) && r < |s.readers| && ReaderOk(s, q)
    ensures Inv(s.(readers := s.readers[r := q]))
  {
    var s' := s.(readers := s.readers[r := q]);
    assert SlotsHoldLog(s') by {
      forall n, c | 0 <= n < s.head && Intact(s', n) && 0 <= c < Cells(s.log[n]) <= CELLS
        ensures s.slots[SlotOf(n, s.capacity)][c] == Cell(s.log[n], c) { assert Intact(s, n); }
    }
    forall k | 0 <= k < |s'.readers| ensures ReaderOk(s', s'.readers[k]) {
      assert ReaderOk(s, s'.readers[k]);
      assert Intact(s', s'.readers[k].next) == Intact(s, s'.readers[k].next);
    }
  }

  // A read that ends, in whatever way, adds its outcome to the reader's history.
  lemma ReadEnds(s: Shared, r: nat, o: Outcome, q': Reader)
    requires Inv(s) && r < |s.readers|
    requires var q := s.readers[r];
             && OutcomeOk(s.log, s.capacity, q.checked, o) && o.seqNo == q.next
             && q' == q.(phase := Ready, next := After(o), history := q.history + [o])
    ensures Inv(s.(readers := s.readers[r := q']))
  {
    var q := s.readers[r];
    assert ReaderOk(s, q);
    assert q'.history[..|q.history|] == q.history;
    ReaderStep(s, r, q');
  }

  lemma LoadOk(s: Shared, r: nat)
    requires Inv(s) && Enabled(s, Load(r))
    ensures Inv(Next(s, Load(r)))
  {
    var q := s.readers[r];
    if q.next >= s.head {
      ReadEnds(s, r, Nothing(q.next), AfterLoad(q, s.head, s.capacity));
    } else if q.checked && s.head - q.next > s.capacity {
      ReadEnds(s, r, Jumped(q.next, s.head - s.capacity, s.head), AfterLoad(q, s.head, s.capacity));
    } else {
      assert ReaderOk(s, q);
      ReaderStep(s, r, q.(phase := Copying(map[])));
    }
  }

  lemma CopyStepOk(s: Shared, r: nat, c: nat)
    requires Inv(s) && Enabled(s, Copy(r, c))
    ensures Inv(Next(s, Copy(r, c)))
  {
    var q := s.readers[r];
    assert ReaderOk(s, q);
    ReaderStep(s, r, q.(phase := Copying(q.phase.copy[c := s.slots[SlotOf(q.next, s.capacity)][c]])));
  }

  lemma FinishOk(s: Shared, r: nat)
    requires Inv(s) && Enabled(s, Finish(r))
    ensures Inv(Next(s, Finish(r)))
  {
    var q := s.readers[r];
    var q' := AfterFinish(q, s.head, s.capacity, s.writer.Writing?);
    assert ReaderOk(s, q);
    if q.checked && s.head - q.next > s.capacity {
      ReadEnds(s, r, Jumped(q.next, s.head - s.capacity, s.head), q');
    } else {
      ReadEnds(s, r, Delivered(q.next, q.phase.copy, s.head, s.writer.Writing?), q');
    }
  }

  lemma RetryOk(s: Shared, r: nat)
    requires Inv(s) && Enabled(s, Retry(r))
    ensures Inv(Next(s, Retry(r)))
  {
    ReadEnds(s, r, Retried(s.readers[r].next), Next(s, Retry(r)).readers[r]);
  }

  lemma BeginOk(s: Shared, msg: Message)
    requires Inv(s) && Enabled(s, Begin(msg))
    ensures Inv(Next(s, Begin(msg)))
  {
    var s' := Next(s, Begin(msg));
    assert forall n :: Intact(s', n) ==> Intact(s, n);
    forall k | 0 <= k < |s.readers| ensures ReaderOk(s', s'.readers[k]) {
      assert ReaderOk(s, s.readers[k]);
    }
  }

  lemma SlotsApart(a: nat, b: nat, capacity: nat)
    requires IsPow2(capacity) && a < b < a + capacity
    ensures SlotOf(a, capacity) != SlotOf(b, capacity)
  {
    MaskIsRemainder(a, capacity);
    MaskIsRemainder(b, capacity);
    DistinctSlots(a, b, capacity);
  }

  lemma StoreOk(s: Shared, c: nat)
    requires Inv(s) && Enabled(s, Store(c))
    ensures Inv(Next(s, Store(c)))
  {
    var s' := Next(s, Store(c));
    forall n, d | 0 <= n < s.head && Intact(s', n) && 0 <= d < Cells(s.log[n]) <= CELLS
      ensures s'.slots[SlotOf(n, s.capacity)][d] == Cell(s.log[n], d)
    {
      assert Intact(s, n);
      SlotsApart(n, s.head, s.capacity);
    }
    forall k | 0 <= k < |s.readers| ensures ReaderOk(s', s'.readers[k]) {
      assert ReaderOk(s, s.readers[k]);
      assert Intact(s', s'.readers[k].next) == Intact(s, s.readers[k].next);
    }
  }

  lemma PublishOk(s: Shared)
    requires Inv(s) && Enabled(s, Publish)
    ensures Inv(Next(s, Publish))
  {
    var s' := Next(s, Publish);
    forall n, c | 0 <= n < s'.head && Intact(s', n) && 0 <= c < Cells(s'.log[n]) <= CELLS
      ensures s'.slots[SlotOf(n, s.capacity)][c] == Cell(s'.log[n], c)
    {
      if n < s.head { assert Intact(s, n); }
    }
    forall k | 0 <= k < |s.readers| ensures ReaderOk(s', s'.readers[k]) {
      var q := s.readers[k];
      assert ReaderOk(s, q);
      assert Intact(s', q.next) && q.next < s.head ==> Intact(s, q.next);
      forall j | 0 <= j < |q.history| ensures OutcomeOk(s'.log, s.capacity, q.checked, q.history[j]) {
        assert OutcomeOk(s.log, s.capacity, q.checked, q.history[j]);
      }
    }
  }

  lemma StepOk(s: Shared, a: Action)
    requires Inv(s) && Enabled(s, a)
    ensures Inv(Next(s, a))
  {
    match a
    case Begin(msg) => BeginOk(s, msg);
    case Store(c) => StoreOk(s, c);
    case Publish => PublishOk(s);
    case Load(r) => LoadOk(s, r);
    case Copy(r, c) => CopyStepOk(s, r, c);
    case Finish(r) => FinishOk(s, r);
    case Retry(r) => RetryOk(s, r);
  }

  lemma {:induction false} RunOk(s: Shared, acts: seq<Action>)
    requires Inv(s) && ValidRun(s, acts)
    ensures Inv(Run(s, acts))
    decreases |acts|
  {
    if acts == [] {
    } else {
      StepOk(s, acts[0]);
      RunOk(Next(s, acts[0]), acts[1..]);
    }
  }

  /** In every interleaving, a success whose final head load was less than a capacity ahead of
      its sequence number returns exactly the message of that number; so does one exactly a
      capacity ahead, unless the producer was mid-write at that load. */
  lemma SuccessIsGenuine(capacity: nat, readers: seq<Reader>, acts: seq<Action>, r: nat, k: nat)
    requires IsPow2(capacity) && Attaching(readers) && ValidRun(Start(capacity, readers), acts)
    requires var s := Run(Start(capacity, readers), acts);
             r < |s.readers| && k < |s.readers[r].history| && s.readers[r].history[k].Delivered?
    ensures var s := Run(Start(capacity, readers), acts);
            var o := s.readers[r].history[k];
            && o.seqNo < o.head <= |s.log|
            && (s.readers[r].checked ==> o.head <= o.seqNo + capacity)
            && (InTime(capacity, o.seqNo, o.head, o.midWrite) ==>
                  Genuine(o.copy, s.log[o.seqNo]))
  {
    StartOk(capacity, readers);
    RunOk(Start(capacity, readers), acts);
    RunKeepsCapacity(Start(capacity, readers), acts);
    var s := Run(Start(capacity, readers), acts);
    assert ReaderOk(s, s.readers[r]);
    assert OutcomeOk(s.log, s.capacity, s.readers[r].checked, s.readers[r].history[k]);
  }

  lemma {:induction false} RunKeepsCapacity(s: Shared, acts: seq<Action>)
    requires ValidRun(s, acts)
    ensures Run(s, acts).capacity == s.capacity
    decreases |acts|
  {
    if acts == [] {
    } else {
      RunKeepsCapacity(Next(s, acts[0]), acts[1..]);
    }
  }

  // Reads go forward: each starts no earlier than where any previous one ended.
  lemma {:induction false} ChainGoesForward(h: seq<Outcome>, start: nat, next: nat, i: nat)
    requires Chained(h, start, next) && i < |h|
    requires forall k | 0 <= k < |h| :: h[k].seqNo <= After(h[k])
    ensures start <= h[i].seqNo && After(h[i]) <= next
    ensures forall j | i < j < |h| :: After(h[i]) <= h[j].seqNo
  {
    var n := |h| - 1;
    if i < n {
      ChainGoesForward(h[..n], start, h[n].seqNo, i);
      assert forall j | i < j < n :: h[..n][j] == h[j];
    } else if n > 0 {
      ChainGoesForward(h[..n], start, h[n].seqNo, n - 1);
      ChainStart(h[..n], start, h[n].seqNo);
    }
  }

  lemma {:induction false} ChainStart(h: seq<Outcome>, start: nat, next: nat)
    requires Chained(h, start, next)
    requires forall k | 0 <= k < |h| :: h[k].seqNo <= After(h[k])
    ensures start <= next
  {
    if h == [] {
    } else {
      ChainStart(h[..|h| - 1], start, h[|h| - 1].seqNo);
    }
  }

  // Every sequence number passed was covered by some read.
  lemma {:induction false} ChainCovers(h: seq<Outcome>, start: nat, next: nat, n: nat) returns (k: nat)
    requires Chained(h, start, next) && start <= n < next
    ensures k < |h| && h[k].seqNo <= n < After(h[k])
  {
    var last := |h| - 1;
    if h[last].seqNo <= n {
      k := last;
    } else {
      k := ChainCovers(h[..last], start, h[last].seqNo, n);
    }
  }

  /** The message was handed over by this read, or skipped by this jump. */
  predicate Covers(o: Outcome, n: nat) {
    (o.Delivered? && o.seqNo == n) || (o.Jumped? && o.seqNo <= n < o.to)
  }

  predicate Accounted(h: seq<Outcome>, n: nat) {
    exists k :: 0 <= k < |h| && Covers(h[k], n)
  }

  /** A consumer receives messages in strictly increasing order, and every message between
      its start and its position was either delivered to it or skipped by a jump; a jump goes
      strictly forward, and lands on the oldest message retained when it was taken. */
  lemma ConsumerReceivesInOrder(capacity: nat, readers: seq<Reader>, acts: seq<Action>, r: nat)
    requires IsPow2(capacity) && Attaching(readers) && ValidRun(Start(capacity, readers), acts)
    requires r < |Run(Start(capacity, readers), acts).readers|
    ensures var q := Run(Start(capacity, readers), acts).readers[r];
            var h := q.history;
            && (forall i, j | 0 <= i < j < |h| && h[i].Delivered? && h[j].Delivered? :: h[i].seqNo < h[j].seqNo)
            && (forall i | 0 <= i < |h| && h[i].Jumped? :: h[i].seqNo < h[i].to == h[i].head - capacity)
            && (forall n | q.start <= n < q.next :: Accounted(h, n))
  {
    StartOk(capacity, readers);
    RunOk(Start(capacity, readers), acts);
    RunKeepsCapacity(Start(capacity, readers), acts);
    var s := Run(Start(capacity, readers), acts);
    var q := s.readers[r];
    assert ReaderOk(s, q);
    assert forall k | 0 <= k < |q.history| :: OutcomeOk(s.log, s.capacity, q.checked, q.history[k]);
    forall i, j | 0 <= i < j < |q.history| && q.history[i].Delivered? && q.history[j].Delivered?
      ensures q.history[i].seqNo < q.history[j].seqNo
    {
      ChainGoesForward(q.history, q.start, q.next, i);
    }
    forall n | q.start <= n < q.next ensures Accounted(q.history, n) {
      var k := ChainCovers(q.history, q.start, q.next, n);
      assert Covers(q.history[k], n);
    }
  }
}
