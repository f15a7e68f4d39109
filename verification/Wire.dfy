/** The packed 19-byte records exchanged with the exchange, and cutting a byte stream into them. */
module Wire {
  import opened Common
  import opened Bytes

  const RECORD: nat := 19
  // The gateway's receive buffer.
  const BUFFER: nat := 1024

  type Record = s: seq<u8> | |s| == RECORD witness seq(RECORD, _ => 0)

  function EncodeReport(r: ExecutionReport): Record {
    ToLE(r.orderId, 8) + ToLE(r.lastQty, 4) + ToLE(r.lastPrice, 4) + [r.execType] + ToLE(r.locate, 2)
  }

  function DecodeReport(s: Record): ExecutionReport {
    ExecutionReport(U64LE(s, 0), U32LE(s, 8), U32LE(s, 12), s[16], U16LE(s, 17))
  }

  function EncodeCommand(c: OrderCommand): Record {
    ToLE(c.locate, 2) + ToLE(c.orderId, 8) + ToLE(c.price, 4) + ToLE(c.quantity, 4) + [if c.side == Buy then 0 else 1]
  }

  function DecodeCommand(s: Record): OrderCommand {
    OrderCommand(U16LE(s, 0), U64LE(s, 2), U32LE(s, 10), U32LE(s, 14), if s[18] == 0 then Buy else Sell)
  }

  lemma FieldLE(record: seq<u8>, before: seq<u8>, n: nat, k: nat)
    requires n < Pow256(k) && before + ToLE(n, k) <= record
    ensures FromLE(record[|before|..|before| + k]) == n
  {
    assert record[|before|..|before| + k] == ToLE(n, k);
    LERoundTrip(n, k);
  }

  /** A report with a u64 order id survives the wire. */
  lemma ReportRoundTrip(r: ExecutionReport)
    requires r.orderId < 0x1_0000_0000_0000_0000
    ensures DecodeReport(EncodeReport(r)) == r
  {
    Widths();
    var a := ToLE(r.orderId, 8);
    var b := a + ToLE(r.lastQty, 4);
    var c := b + ToLE(r.lastPrice, 4);
    var d := c + [r.execType];
    var s := d + ToLE(r.locate, 2);
    assert a <= b <= c <= d <= s && [] + a == a;
    FieldLE(s, [], r.orderId, 8);
    FieldLE(s, a, r.lastQty, 4);
    FieldLE(s, b, r.lastPrice, 4);
    FieldLE(s, d, r.locate, 2);
    assert s[16] == d[16] == r.execType;
  }

  /** So does a command. */
  lemma CommandRoundTrip(c: OrderCommand)
    requires c.orderId < 0x1_0000_0000_0000_0000
    ensures DecodeCommand(EncodeCommand(c)) == c
  {
    Widths();
    var a := ToLE(c.locate, 2);
    var b := a + ToLE(c.orderId, 8);
    var d := b + ToLE(c.price, 4);
    var e := d + ToLE(c.quantity, 4);
    var s := EncodeCommand(c);
    assert a <= b <= d <= e <= s && [] + a == a;
    FieldLE(s, [], c.locate, 2);
    FieldLE(s, a, c.orderId, 8);
    FieldLE(s, b, c.price, 4);
    FieldLE(s, d, c.quantity, 4);
  }

  /** The fields of a report by byte offset, little-endian, packed. */
  predicate ReportFields(s: Record, r: ExecutionReport) {
    && WordLE(s, 0, 8) == r.orderId && WordLE(s, 8, 4) == r.lastQty && WordLE(s, 12, 4) == r.lastPrice
    && s[16] == r.execType && WordLE(s, 17, 2) == r.locate
  }

  /** And those of a command; the side is zero for a buy. */
  predicate CommandFields(s: Record, c: OrderCommand) {
    && WordLE(s, 0, 2) == c.locate && WordLE(s, 2, 8) == c.orderId && WordLE(s, 10, 4) == c.price
    && WordLE(s, 14, 4) == c.quantity && (s[18] == 0 <==> c.side == Buy)
  }

  /** A record is read as exactly the report whose fields it holds, and a report is written with
      its fields in place. */
  lemma ReportLayout(s: Record, r: ExecutionReport)
    ensures DecodeReport(s) == r <==> ReportFields(s, r)
    ensures r.orderId < 0x1_0000_0000_0000_0000 ==> ReportFields(EncodeReport(r), r)
  {
    ReportWords(s);
    if r.orderId < 0x1_0000_0000_0000_0000 {
      ReportWords(EncodeReport(r));
      ReportRoundTrip(r);
    }
  }

  lemma ReportWords(s: Record)
    ensures DecodeReport(s)
         == ExecutionReport(WordLE(s, 0, 8), WordLE(s, 8, 4), WordLE(s, 12, 4), s[16], WordLE(s, 17, 2))
  {
    U64WordLE(s, 0);
    U32WordLE(s, 8);
    U32WordLE(s, 12);
    U16WordLE(s, 17);
  }

  lemma CommandWords(s: Record)
    ensures DecodeCommand(s)
         == OrderCommand(WordLE(s, 0, 2), WordLE(s, 2, 8), WordLE(s, 10, 4), WordLE(s, 14, 4),
                         if s[18] == 0 then Buy else Sell)
  {
    U16WordLE(s, 0);
    U64WordLE(s, 2);
    U32WordLE(s, 10);
    U32WordLE(s, 14);
  }

  lemma CommandLayout(s: Record, c: OrderCommand)
    ensures DecodeCommand(s) == c <==> CommandFields(s, c)
    ensures c.orderId < 0x1_0000_0000_0000_0000 ==> CommandFields(EncodeCommand(c), c) && EncodeCommand(c)[18] <= 1
  {
    CommandWords(s);
    if c.orderId < 0x1_0000_0000_0000_0000 {
      CommandWords(EncodeCommand(c));
      CommandRoundTrip(c);
    }
  }

  /** The stream cut into consecutive whole records. */
  function Records(stream: seq<u8>): seq<Record> {
    if |stream| < RECORD then [] else [stream[..RECORD]] + Records(stream[RECORD..])
  }

  /** The bytes of the record still incomplete. */
  function Tail(stream: seq<u8>): (t: seq<u8>)
    ensures |t| < RECORD
  {
    if |stream| < RECORD then stream else Tail(stream[RECORD..])
  }

  function Flatten(records: seq<Record>): seq<u8> {
    if records == [] then [] else records[0] + Flatten(records[1..])
  }

  lemma FirstRecord(r: Record, rest: seq<Record>, tail: seq<u8>)
    ensures Flatten([r] + rest) + tail == r + (Flatten(rest) + tail)
  {
    assert ([r] + rest)[1..] == rest;
  }

  lemma {:induction false} RecordsAndTail(stream: seq<u8>)
    ensures stream == Flatten(Records(stream)) + Tail(stream)
  {
    if |stream| < RECORD {
    } else {
      RecordsAndTail(stream[RECORD..]);
      FirstRecord(stream[..RECORD], Records(stream[RECORD..]), Tail(stream[RECORD..]));
      assert stream == stream[..RECORD] + stream[RECORD..];
    }
  }

  /** However a stream is split, cutting the tail of the first part on with the second gives
      the rest of the records. */
  lemma {:induction false} RecordsOfSplit(a: seq<u8>, b: seq<u8>)
    ensures Records(a + b) == Records(a) + Records(Tail(a) + b)
    ensures Tail(a + b) == Tail(Tail(a) + b)
  {
    if |a| < RECORD {
    } else {
      RecordsOfSplit(a[RECORD..], b);
      assert (a + b)[..RECORD] == a[..RECORD];
      assert (a + b)[RECORD..] == a[RECORD..] + b;
    }
  }

  function Concat(chunks: seq<seq<u8>>): seq<u8> {
    if chunks == [] then [] else chunks[0] + Concat(chunks[1..])
  }

  /** The records handed on when the stream arrives in these chunks, after a given tail. */
  function Emitted(tail: seq<u8>, chunks: seq<seq<u8>>): seq<Record>
    decreases |chunks|
  {
    if chunks == [] then []
    else Records(tail + chunks[0]) + Emitted(Tail(tail + chunks[0]), chunks[1..])
  }

  /** Chunking does not matter: the records emitted are those of the whole stream. */
  lemma {:induction false} AnyChunking(tail: seq<u8>, chunks: seq<seq<u8>>)
    requires |tail| < RECORD
    ensures Emitted(tail, chunks) == Records(tail + Concat(chunks))
    decreases |chunks|
  {
    if chunks == [] {
      assert tail + Concat(chunks) == tail;
    } else {
      AnyChunking(Tail(tail + chunks[0]), chunks[1..]);
      RecordsOfSplit(tail + chunks[0], Concat(chunks[1..]));
      assert (tail + chunks[0]) + Concat(chunks[1..]) == tail + Concat(chunks);
    }
  }

  lemma {:induction false} RecordsOfFlatten(records: seq<Record>)
    ensures Records(Flatten(records)) == records && Tail(Flatten(records)) == []
  {
    if records == [] {
    } else {
      RecordsOfFlatten(records[1..]);
      assert Flatten(records)[..RECORD] == records[0];
      assert Flatten(records)[RECORD..] == Flatten(records[1..]);
    }
  }

  lemma {:induction false} FlattenPush(records: seq<Record>, r: Record)
    ensures Flatten(records + [r]) == Flatten(records) + r
  {
    if records == [] {
      assert [r][1..] == [];
    } else {
      assert (records + [r])[1..] == records[1..] + [r];
      FlattenPush(records[1..], r);
      assert records[0] + (Flatten(records[1..]) + r) == (records[0] + Flatten(records[1..])) + r;
    }
  }
}
