/** The replay file: messages prefixed by their length as two big-endian bytes. */
module Framing {
  import opened Common
  import opened Bytes

  type Payload = seq<u8>

  /** The payloads found in the rest of a file, in the order the replay loop hands them on. */
  function Frames(data: seq<u8>): seq<Payload> {
    if |data| <= 2 then []
    else
      var end := 2 + U16BE(data, 0);
      if end > |data| then [] else [data[2..end]] + Frames(data[end..])
  }

  predicate Sendable(msgs: seq<Payload>) {
    forall i | 0 <= i < |msgs| :: |msgs[i]| < 0x1_0000
  }

  function Encode(msgs: seq<Payload>): seq<u8> {
    if msgs == [] then [] else ToBE(|msgs[0]|, 2) + (msgs[0] + Encode(msgs[1..]))
  }

  lemma Parts<T>(a: seq<T>, b: seq<T>, c: seq<T>)
    ensures var s, k := a + (b + c), |a| + |b|; s[0..|a|] == a && s[|a|..k] == b && s[k..] == c
  {
  }

  lemma CutFront<T>(a: seq<T>, b: seq<T>, cut: nat)
    requires |a| <= cut <= |a| + |b|
    ensures (a + b)[..cut][0..|a|] == a
  {
  }

  lemma CutBack<T>(a: seq<T>, b: seq<T>, c: seq<T>, cut: nat)
    requires |a| + |b| <= cut <= |a| + |b| + |c|
    ensures (a + (b + c))[..cut] == a + (b + c[..cut - |a| - |b|])
  {
  }

  lemma LengthRead(data: seq<u8>, n: nat)
    requires |data| >= 2 && n < 0x1_0000 && data[0..2] == ToBE(n, 2)
    ensures U16BE(data, 0) == n
  {
    Widths();
    BERoundTrip(n, 2);
  }

  // What the loop does at a message that is there as a whole, and at one that is not.
  lemma WholeFrame(m: Payload, rest: seq<u8>)
    requires |m| < 0x1_0000 && |m| + |rest| > 0
    ensures Frames(ToBE(|m|, 2) + (m + rest)) == [m] + Frames(rest)
  {
    var data := ToBE(|m|, 2) + (m + rest);
    Parts(ToBE(|m|, 2), m, rest);
    LengthRead(data, |m|);
  }

  lemma PartFrame(data: seq<u8>, n: nat)
    requires |data| > 2 && n < 0x1_0000 && data[0..2] == ToBE(n, 2) && 2 + n > |data|
    ensures Frames(data) == []
  {
    LengthRead(data, n);
  }

  // What follows a whole first message.
  lemma EncodedTail(msgs: seq<Payload>, cut: nat) returns (tail: seq<u8>)
    requires Sendable(msgs) && msgs != []
    requires 2 + |msgs[0]| <= cut <= |Encode(msgs)|
    ensures cut - 2 - |msgs[0]| <= |Encode(msgs[1..])| && tail == Encode(msgs[1..])[..cut - 2 - |msgs[0]|]
    ensures Encode(msgs)[..cut] == ToBE(|msgs[0]|, 2) + (msgs[0] + tail)
    ensures |tail| == cut - 2 - |msgs[0]|
  {
    tail := Encode(msgs[1..])[..cut - 2 - |msgs[0]|];
    CutBack(ToBE(|msgs[0]|, 2), msgs[0], Encode(msgs[1..]), cut);
  }

  // And so at the first message of an encoded file cut anywhere.
  lemma FirstWhole(msgs: seq<Payload>, cut: nat)
    requires Sendable(msgs) && msgs != []
    requires 2 < cut <= |Encode(msgs)| && 2 + |msgs[0]| <= cut
    ensures Frames(Encode(msgs)[..cut]) == [msgs[0]] + Frames(Encode(msgs[1..])[..cut - 2 - |msgs[0]|])
  {
    var tail := EncodedTail(msgs, cut);
    WholeFrame(msgs[0], tail);
  }

  lemma FirstPart(msgs: seq<Payload>, cut: nat)
    requires Sendable(msgs) && msgs != []
    requires 2 < cut <= |Encode(msgs)| && cut < 2 + |msgs[0]|
    ensures Frames(Encode(msgs)[..cut]) == []
  {
    var m := msgs[0];
    CutFront(ToBE(|m|, 2), m + Encode(msgs[1..]), cut);
    PartFrame(Encode(msgs)[..cut], |m|);
  }

  lemma FirstFrame(msgs: seq<Payload>, cut: nat)
    requires Sendable(msgs) && msgs != []
    requires cut <= |Encode(msgs)|
    ensures var end := 2 + |msgs[0]|;
            Frames(Encode(msgs)[..cut]) ==
            if cut <= 2 || end > cut then [] else [msgs[0]] + Frames(Encode(msgs[1..])[..cut - end])
  {
    if cut > 2 {
      if 2 + |msgs[0]| > cut {
        FirstPart(msgs, cut);
      } else {
        FirstWhole(msgs, cut);
      }
    }
  }

  /** The encoded length. */
  function Size(msgs: seq<Payload>): nat {
    if msgs == [] then 0 else 2 + |msgs[0]| + Size(msgs[1..])
  }

  lemma {:induction false} SizeIsLength(msgs: seq<Payload>)
    ensures |Encode(msgs)| == Size(msgs)
  {
    if msgs == [] {
    } else {
      SizeIsLength(msgs[1..]);
    }
  }

  lemma SizeOfPrefix(msgs: seq<Payload>, n: nat)
    requires 0 < n <= |msgs|
    ensures Size(msgs[..n]) == 2 + |msgs[0]| + Size(msgs[1..][..n - 1])
  {
    assert msgs[..n][1..] == msgs[1..][..n - 1];
  }

  /** How many messages the loop yields when n of them lie wholly before the cut. */
  function Yielded(msgs: seq<Payload>, n: nat, flush: bool): nat
    requires n <= |msgs|
  {
    if n == 0 || msgs[n - 1] != [] || !flush then n else n - 1
  }

  lemma YieldedFirst(msgs: seq<Payload>, n: nat, flush: bool)
    requires 0 < n <= |msgs|
    ensures msgs[..Yielded(msgs, n, flush)] ==
            if n == 1 && msgs[0] == [] && flush then []
            else [msgs[0]] + msgs[1..][..Yielded(msgs[1..], n - 1, flush)]
  {
    if n > 1 { assert msgs[1..][n - 2] == msgs[n - 1]; }
  }

  /** The cut falls after the first n messages and before the end of the next. */
  predicate CutAfter(msgs: seq<Payload>, cut: nat, n: nat) {
    && n <= |msgs| && Size(msgs[..n]) <= cut <= Size(msgs)
    && (n == |msgs| || cut < Size(msgs[..n + 1]))
  }

  /** The loop yields those messages, but not an empty last one that ends at the cut. */
  predicate Yields(msgs: seq<Payload>, cut: nat, n: nat)
    requires n <= |msgs| && cut <= |Encode(msgs)|
  {
    Frames(Encode(msgs)[..cut]) == msgs[..Yielded(msgs, n, cut == Size(msgs[..n]))]
  }

  // The cut stands to the later messages as it stands to all.
  lemma CutOfRest(msgs: seq<Payload>, cut: nat, n: nat)
    requires CutAfter(msgs, cut, n) && n > 0
    ensures 2 + |msgs[0]| <= cut && CutAfter(msgs[1..], cut - 2 - |msgs[0]|, n - 1)
    ensures Size(msgs[..n]) == 2 + |msgs[0]| + Size(msgs[1..][..n - 1])
  {
    SizeOfPrefix(msgs, n);
    if n < |msgs| { SizeOfPrefix(msgs, n + 1); }
  }

  lemma {:induction false} FramesOfCut(msgs: seq<Payload>, cut: nat, n: nat)
    requires Sendable(msgs) && CutAfter(msgs, cut, n)
    ensures cut <= |Encode(msgs)| && Yields(msgs, cut, n)
  {
    SizeIsLength(msgs);
    if n == 0 {
      NothingWhole(msgs, cut);
    } else {
      CutOfRest(msgs, cut, n);
      FramesOfCut(msgs[1..], cut - 2 - |msgs[0]|, n - 1);
      OneMoreWhole(msgs, cut, n);
    }
  }

  // A whole first message is yielded ahead of the rest, unless it is all there is and empty.
  lemma OneMoreWhole(msgs: seq<Payload>, cut: nat, n: nat)
    requires Sendable(msgs) && 0 < n <= |msgs| && cut <= |Encode(msgs)|
    requires Size(msgs[..n]) == 2 + |msgs[0]| + Size(msgs[1..][..n - 1]) <= cut
    requires var rest, left := msgs[1..], cut - 2 - |msgs[0]|;
             left <= |Encode(rest)| && Yields(rest, left, n - 1)
    ensures Yields(msgs, cut, n)
  {
    FirstFrame(msgs, cut);
    YieldedFirst(msgs, n, cut == Size(msgs[..n]));
    if n > 1 { SizeOfPrefix(msgs[1..], n - 1); }
  }

  // A cut inside the first message.
  lemma NothingWhole(msgs: seq<Payload>, cut: nat)
    requires Sendable(msgs) && cut <= |Encode(msgs)| && (msgs == [] || cut < Size(msgs[..1]))
    ensures Yields(msgs, cut, 0)
  {
    if msgs != [] {
      SizeOfPrefix(msgs, 1);
      FirstFrame(msgs, cut);
    }
  }

  /** Wherever an encoded file is cut, replay yields exactly the messages wholly before
      the cut, unless the last of them is empty and ends exactly at the cut: the loop
      guard `cursor + 2 < len` then drops it. */
  lemma ReplayYieldsWholeMessages(msgs: seq<Payload>, cut: nat, n: nat)
    requires Sendable(msgs) && n <= |msgs|
    requires |Encode(msgs[..n])| <= cut <= |Encode(msgs)|
    requires n == |msgs| || cut < |Encode(msgs[..n + 1])|
    ensures Frames(Encode(msgs)[..cut]) == msgs[..n]
       <==> n == 0 || msgs[n - 1] != [] || cut > |Encode(msgs[..n])|
  {
    SizeIsLength(msgs);
    SizeIsLength(msgs[..n]);
    if n < |msgs| { SizeIsLength(msgs[..n + 1]); }
    FramesOfCut(msgs, cut, n);
  }

  /** Every cut falls right after some number of whole messages, so the lemma above covers it. */
  lemma {:induction false} SomeMessagesAreWhole(msgs: seq<Payload>, cut: nat) returns (n: nat)
    requires cut <= |Encode(msgs)|
    ensures n <= |msgs| && |Encode(msgs[..n])| <= cut
    ensures n == |msgs| || cut < |Encode(msgs[..n + 1])|
  {
    n := 0;
    while n < |msgs| && |Encode(msgs[..n + 1])| <= cut
      invariant n <= |msgs| && |Encode(msgs[..n])| <= cut
    {
      n := n + 1;
    }
  }
}
