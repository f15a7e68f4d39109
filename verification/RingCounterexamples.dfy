/** Reachable reads that are not genuine: the bounds in RingProtocolLaws are exact, for checked
    readers and for the unchecked gateway. */
module RingCounterexamples {
  import opened MaskArithmetic
  import opened Ring
  import opened RingProtocol
  import opened RingProtocolLaws

  ghost predicate Reaches(s: Shared, t: Shared) {
    exists acts :: ValidRun(s, acts) && Run(s, acts) == t
  }

  lemma {:induction false} RunPush(s: Shared, acts: seq<Action>, a: Action)
    requires ValidRun(s, acts) && Enabled(Run(s, acts), a)
    ensures ValidRun(s, acts + [a]) && Run(s, acts + [a]) == Next(Run(s, acts), a)
    decreases |acts|
  {
    if acts == [] {
      assert [a][1..] == [];
    } else {
      assert (acts + [a])[1..] == acts[1..] + [a];
      RunPush(Next(s, acts[0]), acts[1..], a);
    }
  }

  lemma ReachesNext(s: Shared, t: Shared, a: Action)
    requires Reaches(s, t) && Enabled(t, a)
    ensures Reaches(s, Next(t, a))
  {
    var acts :| ValidRun(s, acts) && Run(s, acts) == t;
    RunPush(s, acts, a);
  }

  function Numbered(k: nat): Message {
    Message(k, [])
  }

  /** The producer has published the first `head` numbered messages and rests. */
  ghost predicate Published(s: Shared, head: nat, q: Reader) {
    && Inv(s) && s.head == head && s.writer.Idle? && s.readers == [q]
    && forall n | 0 <= n < head :: s.log[n] == Numbered(n)
  }

  lemma {:induction false} PublishMany(capacity: nat, q: Reader, head: nat) returns (t: Shared)
    requires IsPow2(capacity) && Attaching([q])
    ensures Reaches(Start(capacity, [q]), t) && Published(t, head, q) && t.capacity == capacity
  {
    var s := Start(capacity, [q]);
    if head == 0 {
      t := s;
      assert ValidRun(s, []) && Run(s, []) == s;
      StartOk(capacity, [q]);
    } else {
      var t0 := PublishMany(capacity, q, head - 1);
      t := PublishOne(s, t0, q);
    }
  }

  lemma PublishOne(s: Shared, t0: Shared, q: Reader) returns (t: Shared)
    requires Reaches(s, t0) && Published(t0, t0.head, q)
    ensures Reaches(s, t) && Published(t, t0.head + 1, q) && t.capacity == t0.capacity
  {
    var t1 := DoStep(s, t0, Begin(Numbered(t0.head)));
    var t2 := DoStep(s, t1, Store(0));
    var t3 := DoStep(s, t2, Store(1));
    t := DoStep(s, t3, Publish);
  }

  lemma DoStep(s: Shared, t: Shared, a: Action) returns (t': Shared)
    requires Reaches(s, t) && Inv(t) && Enabled(t, a)
    ensures Reaches(s, t') && t' == Next(t, a) && Inv(t')
  {
    t' := Next(t, a);
    ReachesNext(s, t, a);
    StepOk(t, a);
  }

  // The only reader copies the rest of its slot.
  lemma {:induction false} CopyRest(s: Shared, t: Shared, q: Reader, copy: map<nat, nat>, c: nat) returns (full: map<nat, nat>)
    requires Reaches(s, t) && Inv(t) && t.readers == [q] && q.phase == Copying(copy)
    requires c <= CELLS && forall d: nat :: d in copy <==> d < c
    requires forall d: nat | d < c :: copy[d] == t.slots[SlotOf(q.next, t.capacity)][d]
    ensures forall d: nat :: d in full <==> d < CELLS
    ensures forall d: nat | d < CELLS :: full[d] == t.slots[SlotOf(q.next, t.capacity)][d]
    ensures Reaches(s, t.(readers := [q.(phase := Copying(full))])) && Inv(t.(readers := [q.(phase := Copying(full))]))
    decreases CELLS - c
  {
    if c == CELLS {
      full := copy;
    } else {
      var t' := DoStep(s, t, Copy(0, c));
      var copy' := copy[c := t.slots[SlotOf(q.next, t.capacity)][c]];
      assert t'.readers == [q.(phase := Copying(copy'))];
      full := CopyRest(s, t', q.(phase := Copying(copy')), copy', c + 1);
      assert t.(readers := [q.(phase := Copying(full))]) == t'.(readers := [q.(phase := Copying(full))]);
    }
  }

  lemma NextLap(n: nat, capacity: nat)
    requires IsPow2(capacity)
    ensures SlotOf(n + capacity, capacity) == SlotOf(n, capacity)
  {
    MaskIsRemainder(n, capacity);
    MaskIsRemainder(n + capacity, capacity);
    OneLapOn(n, capacity);
  }

  // The reader's copy of a whole slot, finished with the head counter where it is.
  lemma FinishCopy(s: Shared, t: Shared, q: Reader) returns (t': Shared, copy: map<nat, nat>)
    requires Reaches(s, t) && Inv(t) && t.readers == [q] && q.phase == Copying(map[])
    requires q.history == []
    ensures Reaches(s, t') && t'.log == t.log
    ensures t'.readers == [AfterFinish(q.(phase := Copying(copy)), t.head, t.capacity, t.writer.Writing?)]
    ensures forall d: nat | d < CELLS :: d in copy && copy[d] == t.slots[SlotOf(q.next, t.capacity)][d]
  {
    copy := CopyRest(s, t, q, map[], 0);
    t' := DoStep(s, t.(readers := [q.(phase := Copying(copy))]), Finish(0));
  }

  // A reader that has just loaded the head and is about to copy slot n.
  lemma LoadAt(capacity: nat, q: Reader, head: nat) returns (t: Shared)
    requires IsPow2(capacity) && Attaching([q]) && q.start < head
    requires q.checked ==> head <= q.start + capacity
    ensures Reaches(Start(capacity, [q]), t) && t.capacity == capacity
    ensures Published(t, head, q.(phase := Copying(map[])))
  {
    var t0 := PublishMany(capacity, q, head);
    t := DoStep(Start(capacity, [q]), t0, Load(0));
  }

  /** For every capacity and every message number n, some run has a read of n, checked or not,
      succeed exactly a capacity ahead, mid-write, with a copy that is not message n. The test
      `> capacity` would have to be `>= capacity` to exclude it. */
  lemma TornSuccess(capacity: nat, n: nat, checked: bool) returns (t: Shared, copy: map<nat, nat>)
    requires IsPow2(capacity)
    ensures Gives(t, capacity, checked, n, copy, n + capacity, true)
    ensures n < |t.log| && !Genuine(copy, t.log[n])
  {
    var q := Reader(checked, n, n, Ready, []);
    var s := Start(capacity, [q]);
    var t1 := LoadAt(capacity, q, n + capacity);
    var t2 := DoStep(s, t1, Begin(Numbered(n + capacity)));
    var t3 := DoStep(s, t2, Store(0));
    NextLap(n, capacity);
    assert t3.slots[SlotOf(n, capacity)][0] == n + capacity && t3.log[n] == Numbered(n);
    t, copy := FinishCopy(s, t3, q.(phase := Copying(map[])));
    assert copy[0] != Cell(t.log[n], 0);
    var o := Delivered(n, copy, n + capacity, true);
    assert q.history + [o] == [o];
  }

  /** The run ends with the only reader's first read, of message n, having delivered this copy
      at this head, with or without a write under way. */
  ghost predicate Gives(
    t: Shared, capacity: nat, checked: bool, n: nat, copy: map<nat, nat>, head: nat, midWrite: bool)
    requires IsPow2(capacity)
  {
    && Reaches(Start(capacity, [Reader(checked, n, n, Ready, [])]), t)
    && t.readers == [Reader(checked, n, n + 1, Ready, [Delivered(n, copy, head, midWrite)])]
  }

  // The last message written into the slot of n before the head.
  lemma {:induction false} LastLap(n: nat, capacity: nat, head: nat) returns (m: nat)
    requires IsPow2(capacity) && n < head
    ensures n <= m < head <= m + capacity && SlotOf(m, capacity) == SlotOf(n, capacity)
    ensures head > n + capacity ==> m > n
    decreases head - n
  {
    MaskIsRemainder(n, capacity);
    if head <= n + capacity {
      m := n;
    } else {
      NextLap(n, capacity);
      m := LastLap(n + capacity, capacity, head);
    }
  }

  // The slot of number n holds the last message of its laps.
  lemma SlotCopied(t: Shared, n: nat, m: nat)
    requires Inv(t) && Intact(t, m) && SlotOf(m, t.capacity) == SlotOf(n, t.capacity) && t.log[m] == Numbered(m)
    ensures t.slots[SlotOf(n, t.capacity)][0] == m && t.slots[SlotOf(n, t.capacity)][1] == 0
  {
    assert t.slots[SlotOf(m, t.capacity)][0] == Cell(t.log[m], 0);
    assert t.slots[SlotOf(m, t.capacity)][1] == Cell(t.log[m], 1);
  }

  /** The gateway does not check for overruns: whenever the head is more than a capacity past
      n, some run has it take, whole, the last message m written into the slot of n, be there a
      write under way or not. */
  lemma LappedGatewayTakesTheWrongMessage(capacity: nat, n: nat, head: nat, midWrite: bool)
    returns (t: Shared, copy: map<nat, nat>, m: nat)
    requires IsPow2(capacity) && head > n + capacity
    ensures Gives(t, capacity, false, n, copy, head, midWrite)
    ensures n < m < head <= m + capacity && SlotOf(m, capacity) == SlotOf(n, capacity)
    ensures m < |t.log| && Genuine(copy, t.log[m]) && !Genuine(copy, t.log[n])
  {
    var q := Reader(false, n, n, Ready, []);
    var s := Start(capacity, [q]);
    m := LastLap(n, capacity, head);
    var t1 := LoadAt(capacity, q, head);
    SlotCopied(t1, n, m);
    var t2 := MaybeBegin(s, t1, q.(phase := Copying(map[])), midWrite);
    t, copy := FinishCopy(s, t2, q.(phase := Copying(map[])));
    assert copy[0] == m && copy[1] == 0 && Cell(t.log[n], 0) == n && t.log[m] == Numbered(m);
    var o := Delivered(n, copy, head, midWrite);
    assert q.history + [o] == [o];
  }

  // The producer starts the next message, or does not; no word is stored yet.
  lemma MaybeBegin(s: Shared, t: Shared, q: Reader, midWrite: bool) returns (t': Shared)
    requires Reaches(s, t) && Published(t, t.head, q)
    ensures Reaches(s, t') && Inv(t') && t'.writer.Writing? == midWrite
    ensures t' == t.(writer := t'.writer)
  {
    t' := t;
    if midWrite { t' := DoStep(s, t, Begin(Numbered(t.head))); }
  }

  /** Every run that makes this delivery delivers message n. */
  ghost predicate Guaranteed(capacity: nat, checked: bool, n: nat, head: nat, midWrite: bool)
    requires IsPow2(capacity)
  {
    forall t, copy | Gives(t, capacity, checked, n, copy, head, midWrite) ::
      n < |t.log| && Genuine(copy, t.log[n])
  }

  /** A read of n is sure to be genuine exactly when the head it ends at is less than a capacity
      ahead, or a capacity ahead with no write under way. A checked read succeeds nowhere else
      but mid-write a capacity ahead; the gateway's succeeds at any head. */
  lemma GenuineExactlyWhen(capacity: nat, checked: bool, n: nat, head: nat, midWrite: bool)
    requires IsPow2(capacity) && n < head && (checked ==> head <= n + capacity)
    ensures Guaranteed(capacity, checked, n, head, midWrite)
       <==> InTime(capacity, n, head, midWrite)
  {
    if InTime(capacity, n, head, midWrite) {
      forall t, copy | Gives(t, capacity, checked, n, copy, head, midWrite)
        ensures n < |t.log| && Genuine(copy, t.log[n])
      {
        DeliveredInBounds(t, capacity, checked, n, copy, head, midWrite);
      }
    } else if head == n + capacity {
      var t, copy := TornSuccess(capacity, n, checked);
      assert Gives(t, capacity, checked, n, copy, head, midWrite);
    } else {
      var t, copy, m := LappedGatewayTakesTheWrongMessage(capacity, n, head, midWrite);
      assert Gives(t, capacity, false, n, copy, head, midWrite);
    }
  }

  lemma DeliveredInBounds(
    t: Shared, capacity: nat, checked: bool, n: nat, copy: map<nat, nat>, head: nat, midWrite: bool)
    requires IsPow2(capacity) && Gives(t, capacity, checked, n, copy, head, midWrite)
    requires InTime(capacity, n, head, midWrite)
    ensures n < |t.log| && Genuine(copy, t.log[n])
  {
    var q := Reader(checked, n, n, Ready, []);
    var acts :| ValidRun(Start(capacity, [q]), acts) && Run(Start(capacity, [q]), acts) == t;
    SuccessIsGenuine(capacity, [q], acts, 0, 0);
  }
}
