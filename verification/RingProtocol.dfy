/** One producer and any number of readers share a ring, each step touching one memory word:
    a slot's timestamp, its length, one of its data bytes, or the head counter. Steps of
    different processes interleave freely, under sequential consistency. */
module RingProtocol {
  import opened MaskArithmetic
  import opened Ring

  // Words of a slot: 0 is the timestamp, 1 the length, the rest are the data bytes.
  const CELLS: nat := 2 + MAX_DATA

  function Cells(m: Message): nat {
    2 + |m.data|
  }

  function Cell(m: Message, c: nat): nat
    requires c < Cells(m)
  {
    if c == 0 then m.timestamp else if c == 1 then |m.data| else m.data[c - 2]
  }

  /** The producer fills the slot of the next message word by word, then advances the head. */
  datatype Writer = Idle | Writing(msg: Message, done: set<nat>)

  datatype Phase = Ready | Copying(copy: map<nat, nat>)

  /** What a read came to. `head` is the head counter the reader last loaded; `midWrite` tells
      whether the producer was between starting and publishing a message at that moment. */
  datatype Outcome =
    | Delivered(seqNo: nat, copy: map<nat, nat>, head: nat, midWrite: bool)
    | Jumped(seqNo: nat, to: nat, head: nat)
    | Nothing(seqNo: nat)
    | Retried(seqNo: nat)

  /** A checked reader runs ShmRing::read in the consumers' loop, moving on to the next
      sequence number after a success and to the suggested one after an overrun. An unchecked
      reader is the gateway, which compares nothing but its own index with the head. */
  datatype Reader = Reader(checked: bool, start: nat, next: nat, phase: Phase, history: seq<Outcome>)

  datatype Shared = Shared(
    capacity: nat, slots: seq<seq<nat>>, head: nat, log: seq<Message>, writer: Writer, readers: seq<Reader>)

  datatype Action =
    | Begin(msg: Message) | Store(c: nat) | Publish
    | Load(r: nat) | Copy(r: nat, c: nat) | Finish(r: nat) | Retry(r: nat)

  predicate Shape(s: Shared) {
    IsPow2(s.capacity) && |s.slots| == s.capacity && forall i | 0 <= i < s.capacity :: |s.slots[i]| == CELLS
  }

  function SlotOf(n: nat, capacity: nat): (i: nat)
    requires IsPow2(capacity)
    ensures i < capacity
  {
    MaskIsRemainder(n, capacity);
    BitAnd(n, capacity - 1)
  }

  predicate Enabled(s: Shared, a: Action) {
    && Shape(s)
    && match a
       case Begin(msg) => s.writer.Idle? && |msg.data| <= MAX_DATA
       case Store(c) => s.writer.Writing? && c < Cells(s.writer.msg) <= CELLS && c !in s.writer.done
       case Publish => s.writer.Writing? && forall c | 0 <= c < Cells(s.writer.msg) :: c in s.writer.done
       case Load(r) => r < |s.readers| && s.readers[r].phase.Ready?
       case Copy(r, c) =>
         r < |s.readers| && s.readers[r].phase.Copying? && c < CELLS && c !in s.readers[r].phase.copy
       case Finish(r) => r < |s.readers| && Copied(s.readers[r])
       case Retry(r) => r < |s.readers| && Copied(s.readers[r]) && !s.readers[r].checked
  }

  predicate WholeSlot(copy: map<nat, nat>) {
    forall c | 0 <= c < CELLS :: c in copy
  }

  predicate Copied(r: Reader) {
    r.phase.Copying? && WholeSlot(r.phase.copy)
  }

  function Next(s: Shared, a: Action): Shared
    requires Enabled(s, a)
  {
    match a
    case Begin(msg) => s.(writer := Writing(msg, {}))
    case Store(c) =>
      var i, w := SlotOf(s.head, s.capacity), s.writer;
      var row: seq<nat> := s.slots[i][c := Cell(w.msg, c)];
      s.(slots := s.slots[i := row], writer := w.(done := w.done + {c}))
    case Publish => s.(head := s.head + 1, log := s.log + [s.writer.msg], writer := Idle)
    case Load(r) => s.(readers := s.readers[r := AfterLoad(s.readers[r], s.head, s.capacity)])
    case Copy(r, c) =>
      var q := s.readers[r];
      var word := s.slots[SlotOf(q.next, s.capacity)][c];
      s.(readers := s.readers[r := q.(phase := Copying(q.phase.copy[c := word]))])
    case Finish(r) =>
      s.(readers := s.readers[r := AfterFinish(s.readers[r], s.head, s.capacity, s.writer.Writing?)])
    case Retry(r) =>
      var q := s.readers[r];
      s.(readers := s.readers[r := q.(phase := Ready, history := q.history + [Retried(q.next)])])
  }

  function AfterLoad(q: Reader, head: nat, capacity: nat): Reader {
    if q.next >= head then q.(history := q.history + [Nothing(q.next)])
    else if q.checked && head - q.next > capacity then Jump(q, head, capacity)
    else q.(phase := Copying(map[]))
  }

  function AfterFinish(q: Reader, head: nat, capacity: nat, midWrite: bool): Reader
    requires q.phase.Copying?
  {
    if q.checked && SaturatingSub(head, q.next) > capacity then Jump(q, head, capacity)
    else q.(phase := Ready, next := q.next + 1,
            history := q.history + [Delivered(q.next, q.phase.copy, head, midWrite)])
  }

  function Jump(q: Reader, head: nat, capacity: nat): Reader {
    var to := SaturatingSub(head, capacity);
    q.(phase := Ready, next := to, history := q.history + [Jumped(q.next, to, head)])
  }

  function Start(capacity: nat, readers: seq<Reader>): Shared {
    Shared(capacity, seq(capacity, _ => seq(CELLS, _ => 0)), 0, [], Idle, readers)
  }

  predicate Attaching(readers: seq<Reader>) {
    forall r | 0 <= r < |readers| ::
      readers[r].phase == Ready && readers[r].history == [] && readers[r].next == readers[r].start
  }

  predicate ValidRun(s: Shared, acts: seq<Action>)
    decreases |acts|
  {
    acts == [] || (Enabled(s, acts[0]) && ValidRun(Next(s, acts[0]), acts[1..]))
  }

  function Run(s: Shared, acts: seq<Action>): Shared
    requires ValidRun(s, acts)
    decreases |acts|
  {
    if acts == [] then s else Run(Next(s, acts[0]), acts[1..])
  }

  /** The copy is the message: timestamp, length and every data byte of it. */
  predicate Genuine(copy: map<nat, nat>, m: Message) {
    forall c | 0 <= c < Cells(m) :: c in copy && copy[c] == Cell(m, c)
  }

  /** Slot n is not the one the producer may be overwriting. */
  predicate Intact(s: Shared, n: nat) {
    n < s.head && (s.head < n + s.capacity || (s.head == n + s.capacity && s.writer.Idle?))
  }

  ghost predicate SlotsHoldLog(s: Shared)
    requires Shape(s) && s.head == |s.log|
  {
    forall n, c | 0 <= n < s.head && Intact(s, n) && 0 <= c < Cells(s.log[n]) <= CELLS ::
      s.slots[SlotOf(n, s.capacity)][c] == Cell(s.log[n], c)
  }

  ghost predicate WriterOk(s: Shared)
    requires Shape(s)
  {
    s.writer.Writing? ==>
      && |s.writer.msg.data| <= MAX_DATA
      && forall c | c in s.writer.done ::
           c < Cells(s.writer.msg) && s.slots[SlotOf(s.head, s.capacity)][c] == Cell(s.writer.msg, c)
  }

  ghost predicate CopyOk(s: Shared, q: Reader)
    requires s.head == |s.log|
  {
    q.phase.Copying? ==>
      && q.next < s.head
      && (Intact(s, q.next) ==>
            forall c | c in q.phase.copy && c < Cells(s.log[q.next]) :: q.phase.copy[c] == Cell(s.log[q.next], c))
  }

  /** A read of message n that ends at this head ends before its slot can be written again. */
  predicate InTime(capacity: nat, n: nat, head: nat, midWrite: bool) {
    head < n + capacity || (head == n + capacity && !midWrite)
  }

  /** A delivery is genuine if the last head loaded was less than a capacity ahead, or exactly
      a capacity ahead with no write under way; a jump goes forward, to the oldest message
      still retained. */
  ghost predicate OutcomeOk(log: seq<Message>, capacity: nat, checked: bool, o: Outcome) {
    match o
    case Delivered(n, copy, head, midWrite) =>
      && n < head <= |log| && WholeSlot(copy)
      && (checked ==> head <= n + capacity)
      && (InTime(capacity, n, head, midWrite) ==> Genuine(copy, log[n]))
    case Jumped(n, to, head) => n < to && to + capacity == head <= |log|
    case Nothing(n) => true
    case Retried(n) => !checked
  }

  function After(o: Outcome): nat {
    match o
    case Delivered(n, _, _, _) => n + 1
    case Jumped(_, to, _) => to
    case Nothing(n) => n
    case Retried(n) => n
  }

  /** Each read starts where the one before it ended. */
  predicate Chained(history: seq<Outcome>, start: nat, next: nat) {
    if history == [] then start == next
    else
      var o := history[|history| - 1];
      After(o) == next && Chained(history[..|history| - 1], start, o.seqNo)
  }

  ghost predicate ReaderOk(s: Shared, q: Reader)
    requires s.head == |s.log|
  {
    && CopyOk(s, q)
    && (forall k | 0 <= k < |q.history| :: OutcomeOk(s.log, s.capacity, q.checked, q.history[k]))
    && Chained(q.history, q.start, q.next)
  }

  ghost predicate Inv(s: Shared) {
    && Shape(s) && s.head == |s.log|
    && (forall n | 0 <= n < |s.log| :: |s.log[n].data| <= MAX_DATA)
    && SlotsHoldLog(s) && WriterOk(s)
    && forall r | 0 <= r < |s.readers| :: ReaderOk(s, s.readers[r])
  }
}
