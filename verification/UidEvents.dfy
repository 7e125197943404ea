/**
 Picking hosting accounts' processes out of what the kernel's process connector sends. A datagram
 holds netlink messages one after another, each padded to four bytes (section 2.3.2 of RFC 3549):
 a 16-byte header that starts with the message's length, a 20-byte connector header, and a process
 event whose first word says what happened.
 */
module UidEvents {
  import opened Wrappers

  type Byte = b: int | 0 <= b < 256

  const HEADER := 16
  const CONNECTOR := 20
  const EVENT_HEADER := 16
  const EVENT_DATA := 16
  const BODY := HEADER + CONNECTOR
  const UID_EVENT := 4

  // ---------------------------------------------------------------- words

  /** Bytes as a number, least significant first. */
  function Word(b: seq<Byte>): nat {
    if b == [] then 0 else b[0] as int + 0x100 * Word(b[1..])
  }

  function WordAt(data: seq<Byte>, offset: nat): nat
    requires offset + 4 <= |data|
  {
    Word(data[offset..offset + 4])
  }

  /** The lowest `count` bytes of a number. */
  function LowBytes(n: nat, count: nat): (b: seq<Byte>)
    ensures |b| == count
  {
    if count == 0 then [] else [n % 0x100] + LowBytes(n / 0x100, count - 1)
  }

  function Bytes(n: nat): (b: seq<Byte>)
    ensures |b| == 4
  {
    LowBytes(n, 4)
  }

  function Power(count: nat): nat { if count == 0 then 1 else 0x100 * Power(count - 1) }

  predicate IsInt32(n: int) { -0x8000_0000 <= n < 0x8000_0000 }
  predicate IsUint32(n: int) { 0 <= n < 0x1_0000_0000 }

  /** Two's complement. */
  function Signed(n: int): int { if n >= 0x8000_0000 then n - 0x1_0000_0000 else n }
  function Unsigned(n: int): int { if n < 0 then n + 0x1_0000_0000 else n }

  lemma {:induction false} WordOfLowBytes(n: nat, count: nat)
    requires n < Power(count)
    ensures Word(LowBytes(n, count)) == n
  {
    if count > 0 {
      WordOfLowBytes(n / 0x100, count - 1);
      assert LowBytes(n, count)[1..] == LowBytes(n / 0x100, count - 1);
    }
  }

  lemma {:induction false} WordOfBytes(n: int)
    requires IsUint32(n)
    ensures Word(Bytes(n)) == n
  {
    assert Power(4) == 0x100 * (0x100 * (0x100 * (0x100 * Power(0))));
    WordOfLowBytes(n, 4);
  }

  // ---------------------------------------------------------------- the parser

  /** A length up to the next multiple of four. */
  function Padded(length: nat): (n: nat)
    ensures length <= n < length + 4
  {
    (length + 3) / 4 * 4
  }

  /** Found, or a read past the end of the datagram. */
  datatype Parsed = Found(tgids: seq<int>) | OutOfRange

  function Prepend(found: seq<int>, p: Parsed): Parsed {
    if p.Found? then Found(found + p.tgids) else OutOfRange
  }

  /** One pass over a datagram from `offset` on. */
  function Parse(data: seq<Byte>, uids: set<int>, offset: nat): Parsed
    decreases |data| - offset
  {
    if offset + HEADER > |data| then Found([])
    else
      var length := WordAt(data, offset);
      if length < HEADER then Found([])
      else
        match EventAt(data, uids, offset, length)
        case OutOfRange => OutOfRange
        case Found(here) => Prepend(here, Parse(data, uids, offset + Padded(length)))
  }

  /** What one message yields: nothing if it is too short or another event. */
  function EventAt(data: seq<Byte>, uids: set<int>, offset: nat, length: nat): Parsed {
    var body := offset + BODY;
    if body + EVENT_HEADER + EVENT_DATA > offset + length then Found([])
    else if body + 4 > |data| then OutOfRange
    else if WordAt(data, body) != UID_EVENT then Found([])
    else if body + EVENT_HEADER + EVENT_DATA > |data| then OutOfRange
    else if WordAt(data, body + 24) in uids || WordAt(data, body + 28) in uids
    then Found([Signed(WordAt(data, body + 20))])
    else Found([])
  }

  datatype Receive = Datagram(data: seq<Byte>) | WouldBlock | SocketError

  /** What is read before the socket is drained or fails. */
  function Drained(script: seq<Receive>): seq<seq<Byte>> {
    if script == [] || !script[0].Datagram? then [] else [script[0].data] + Drained(script[1..])
  }

  function ParseAll(datagrams: seq<seq<Byte>>, uids: set<int>): Parsed {
    if datagrams == [] then Found([])
    else
      match Parse(datagrams[0], uids, 0)
      case OutOfRange => OutOfRange
      case Found(here) => Prepend(here, ParseAll(datagrams[1..], uids))
  }

  lemma {:induction false} PrependTwice(a: seq<int>, b: seq<int>, p: Parsed)
    ensures Prepend(a, Prepend(b, p)) == Prepend(a + b, p)
  {
    if p.Found? { assert a + (b + p.tgids) == a + b + p.tgids; }
  }

  /** The inner loop: the messages of one datagram. */
  method ScanDatagram(data: seq<Byte>, uids: set<int>) returns (r: Parsed)
    ensures r == Parse(data, uids, 0)
  {
    var found: seq<int> := [];
    var offset := 0;
    ghost var rest := Parse(data, uids, 0);
    while offset + HEADER <= |data|
      invariant rest == Parse(data, uids, offset) && Parse(data, uids, 0) == Prepend(found, rest)
      decreases |data| - offset
    {
      var length := WordAt(data, offset);
      if length < HEADER { break; }
      var here := EventAt(data, uids, offset, length);
      ParseHead(data, uids, offset, found);
      if here.OutOfRange? { return OutOfRange; }
      found := found + here.tgids;
      offset := offset + Padded(length);
      rest := Parse(data, uids, offset);
    }
    return Found(found);
  }

  /** One message more, and what was found before it. */
  lemma {:induction false} ParseHead(data: seq<Byte>, uids: set<int>, offset: nat, found: seq<int>)
    requires offset + HEADER <= |data| && WordAt(data, offset) >= HEADER
    ensures var length := WordAt(data, offset); var here := EventAt(data, uids, offset, length);
      Prepend(found, Parse(data, uids, offset)) ==
        if here.Found? then Prepend(found + here.tgids, Parse(data, uids, offset + Padded(length)))
        else OutOfRange
  {
    var here := EventAt(data, uids, offset, WordAt(data, offset));
    if here.Found? {
      PrependTwice(found, here.tgids, Parse(data, uids, offset + Padded(WordAt(data, offset))));
    }
  }

  lemma {:induction false} OneMoreDatagram(script: seq<Receive>, k: nat, uids: set<int>, found: seq<int>)
    requires k < |script| && script[k].Datagram?
    ensures var here, later := Parse(script[k].data, uids, 0), ParseAll(Drained(script[k + 1..]), uids);
            Prepend(found, ParseAll(Drained(script[k..]), uids)) ==
              if here.Found? then Prepend(found + here.tgids, later) else OutOfRange
  {
    var here, later := Parse(script[k].data, uids, 0), ParseAll(Drained(script[k + 1..]), uids);
    assert script[k..][0] == script[k] && script[k..][1..] == script[k + 1..];
    assert Drained(script[k..])[1..] == Drained(script[k + 1..]);
    if here.Found? { PrependTwice(found, here.tgids, later); }
  }

  /** The outer loop: datagrams until the socket has no more of them. */
  method ReadUidEvents(script: seq<Receive>, uids: set<int>) returns (r: Parsed)
    requires script != [] && !script[|script| - 1].Datagram?
    ensures r == ParseAll(Drained(script), uids)
  {
    var found: seq<int> := [];
    var k := 0;
    assert script[0..] == script;
    while true
      invariant k < |script|
      invariant ParseAll(Drained(script), uids) == Prepend(found, ParseAll(Drained(script[k..]), uids))
      decreases |script| - k
    {
      if !script[k].Datagram? {
        assert Drained(script[k..]) == [];
        return Found(found);
      }
      OneMoreDatagram(script, k, uids, found);
      var here := ScanDatagram(script[k].data, uids);
      if here.OutOfRange? { return OutOfRange; }
      found := found + here.tgids;
      k := k + 1;
    }
  }

  // ---------------------------------------------------------------- frames

  /** What follows a message's length word: at least the rest of the header. */
  predicate IsContent(c: seq<Byte>) { HEADER - 4 <= |c| < 0x1_0000_0000 - 4 }

  function Padding(length: nat): (p: seq<Byte>)
    ensures length + |p| == Padded(length)
  {
    seq((4 - length % 4) % 4, _ => 0)
  }

  function Frame(c: seq<Byte>): (f: seq<Byte>)
    requires IsContent(c)
    ensures |f| == Padded(|c| + 4)
  {
    Bytes(|c| + 4) + c + Padding(|c| + 4)
  }

  ghost predicate AllContents(cs: seq<seq<Byte>>) { forall i :: 0 <= i < |cs| ==> IsContent(cs[i]) }

  function Frames(cs: seq<seq<Byte>>): seq<Byte>
    requires AllContents(cs)
  {
    if cs == [] then [] else Frame(cs[0]) + Frames(cs[1..])
  }

  /** What a message's content says by itself, wherever it stands. */
  function Yield(c: seq<Byte>, uids: set<int>): seq<int> {
    if |c| + 4 < BODY + EVENT_HEADER + EVENT_DATA || WordAt(c, BODY - 4) != UID_EVENT then []
    else if WordAt(c, BODY + 20) in uids || WordAt(c, BODY + 24) in uids then [Signed(WordAt(c, BODY + 16))]
    else []
  }

  function YieldAll(cs: seq<seq<Byte>>, uids: set<int>): seq<int> {
    if cs == [] then [] else Yield(cs[0], uids) + YieldAll(cs[1..], uids)
  }

  lemma {:induction false} WordInside(data: seq<Byte>, at: nat, c: seq<Byte>, i: nat)
    requires at + |c| <= |data| && data[at..at + |c|] == c && i + 4 <= |c|
    ensures WordAt(data, at + i) == WordAt(c, i)
  {
    var d, e := data[at + i..at + i + 4], c[i..i + 4];
    assert data[at..at + |c|][i] == data[at + i] && data[at..at + |c|][i + 1] == data[at + i + 1];
    assert data[at..at + |c|][i + 2] == data[at + i + 2] && data[at..at + |c|][i + 3] == data[at + i + 3];
    assert d[0] == e[0] && d[1] == e[1] && d[2] == e[2] && d[3] == e[3];
    assert d == e;
  }

  /** The parser reads an event from its own content only. */
  lemma {:induction false} EventIsYield(data: seq<Byte>, uids: set<int>, offset: nat, c: seq<Byte>)
    requires offset + 4 + |c| <= |data| && data[offset + 4..offset + 4 + |c|] == c
    ensures EventAt(data, uids, offset, |c| + 4) == Found(Yield(c, uids))
  {
    if |c| + 4 >= BODY + EVENT_HEADER + EVENT_DATA {
      WordInside(data, offset + 4, c, BODY - 4);
      WordInside(data, offset + 4, c, BODY + 16);
      WordInside(data, offset + 4, c, BODY + 20);
      WordInside(data, offset + 4, c, BODY + 24);
    }
  }

  lemma {:induction false} FrameAt(before: seq<Byte>, c: seq<Byte>, after: seq<Byte>)
    requires IsContent(c)
    ensures var data := before + Frame(c) + after;
            && |before| + 4 + |c| <= |data|
            && WordAt(data, |before|) == |c| + 4
            && data[|before| + 4..|before| + 4 + |c|] == c
  {
    var word, tail := Bytes(|c| + 4), Padding(|c| + 4) + after;
    assert before + Frame(c) + after == before + word + c + tail;
    SliceOfParts(before, word, c, tail);
    WordOfBytes(|c| + 4);
  }

  lemma {:induction false} SliceOfParts(before: seq<Byte>, word: seq<Byte>, c: seq<Byte>, rest: seq<Byte>)
    requires |word| == 4
    ensures var data := before + word + c + rest;
            data[|before|..|before| + 4] == word && data[|before| + 4..|before| + 4 + |c|] == c
  {
  }

  lemma {:induction false} ParseStep(data: seq<Byte>, uids: set<int>, offset: nat, c: seq<Byte>)
    requires IsContent(c) && offset + 4 + |c| <= |data|
    requires WordAt(data, offset) == |c| + 4 && data[offset + 4..offset + 4 + |c|] == c
    ensures Parse(data, uids, offset) ==
              Prepend(Yield(c, uids), Parse(data, uids, offset + Padded(|c| + 4)))
  {
    EventIsYield(data, uids, offset, c);
  }

  lemma {:induction false} ParseFrame(data: seq<Byte>, before: seq<Byte>, c: seq<Byte>, after: seq<Byte>, uids: set<int>)
    requires IsContent(c) && data == before + Frame(c) + after
    ensures Parse(data, uids, |before|) == Prepend(Yield(c, uids), Parse(data, uids, |before| + |Frame(c)|))
  {
    FrameAt(before, c, after);
    ParseStep(data, uids, |before|, c);
  }

  /**
   A datagram of padded messages, whatever their contents, is never read past its end, and each
   message is looked at once, in order and on its own.
   */
  lemma {:induction false} ParseOfFrames(before: seq<Byte>, cs: seq<seq<Byte>>, uids: set<int>)
    requires AllContents(cs)
    ensures Parse(before + Frames(cs), uids, |before|) == Found(YieldAll(cs, uids))
    decreases |cs|
  {
    if cs == [] {
      assert before + Frames(cs) == before;
    } else {
      var frame, rest := Frame(cs[0]), Frames(cs[1..]);
      assert before + Frames(cs) == before + frame + rest;
      ParseOfFrames(before + frame, cs[1..], uids);
      assert |before + frame| == |before| + |frame|;
      ParseFrame(before + Frames(cs), before, cs[0], rest, uids);
    }
  }

  // ---------------------------------------------------------------- what the kernel sends

  /**
   A message as the kernel builds it. `header` and `connector` are what the parser passes over;
   a uid event may carry more bytes after the four words, and any message may have other content.
   */
  datatype Message =
    | UidChange(header: seq<Byte>, connector: seq<Byte>, rest: seq<Byte>,
                pid: int, tgid: int, ruid: int, euid: int, extra: seq<Byte>)
    | OtherEvent(header: seq<Byte>, connector: seq<Byte>, what: int, extra: seq<Byte>)
    | Short(content: seq<Byte>)

  predicate WellFormed(m: Message) {
    match m
    case UidChange(header, connector, rest, pid, tgid, ruid, euid, extra) =>
      && |header| == HEADER - 4 && |connector| == CONNECTOR && |rest| == EVENT_HEADER - 4
      && IsInt32(pid) && IsInt32(tgid) && IsUint32(ruid) && IsUint32(euid) && |extra| < 0x1_0000
    case OtherEvent(header, connector, what, extra) =>
      && |header| == HEADER - 4 && |connector| == CONNECTOR
      && IsUint32(what) && what != UID_EVENT && |extra| < 0x1_0000
    case Short(content) => HEADER - 4 <= |content| < BODY + EVENT_HEADER + EVENT_DATA - 4
  }

  function Content(m: Message): (c: seq<Byte>)
    requires WellFormed(m)
    ensures IsContent(c)
  {
    match m
    case UidChange(header, connector, rest, pid, tgid, ruid, euid, extra) =>
      (header + connector) + Bytes(UID_EVENT) + rest + Bytes(Unsigned(pid)) + Bytes(Unsigned(tgid))
      + Bytes(ruid) + Bytes(euid) + extra
    case OtherEvent(header, connector, what, extra) => (header + connector) + Bytes(what) + extra
    case Short(content) => content
  }

  predicate AllWellFormed(ms: seq<Message>) { forall i :: 0 <= i < |ms| ==> WellFormed(ms[i]) }

  function Contents(ms: seq<Message>): (cs: seq<seq<Byte>>)
    requires AllWellFormed(ms)
    ensures AllContents(cs)
  {
    if ms == [] then [] else [Content(ms[0])] + Contents(ms[1..])
  }

  function Encode(ms: seq<Message>): seq<Byte>
    requires AllWellFormed(ms)
  {
    Frames(Contents(ms))
  }

  predicate Hosted(m: Message, uids: set<int>) {
    m.UidChange? && (m.ruid in uids || m.euid in uids)
  }

  /** The tgids of the hosted uid changes, in order. */
  function HostedTgids(ms: seq<Message>, uids: set<int>): seq<int> {
    if ms == [] then []
    else (if Hosted(ms[0], uids) then [ms[0].tgid] else []) + HostedTgids(ms[1..], uids)
  }

  lemma {:induction false} WordAfter(c: seq<Byte>, before: seq<Byte>, word: seq<Byte>, after: seq<Byte>)
    requires |word| == 4 && c == before + word + after
    ensures WordAt(c, |before|) == Word(word)
  {
    assert c[|before|..|before| + 4] == word;
  }

  /** The words of an event, by where they stand in the content. */
  lemma {:induction false} WordsOfEvent(front: seq<Byte>, what: seq<Byte>, rest: seq<Byte>, pid: seq<Byte>,
                                        tgid: seq<Byte>, ruid: seq<Byte>, euid: seq<Byte>, extra: seq<Byte>)
    requires |front| == BODY - 4 && |what| == |pid| == |tgid| == |ruid| == |euid| == 4 && |rest| == EVENT_HEADER - 4
    ensures var c := front + what + rest + pid + tgid + ruid + euid + extra;
            && WordAt(c, BODY - 4) == Word(what) && WordAt(c, BODY + 16) == Word(tgid)
            && WordAt(c, BODY + 20) == Word(ruid) && WordAt(c, BODY + 24) == Word(euid)
  {
    var c := front + what + rest + pid + tgid + ruid + euid + extra;
    WordAfter(c, front, what, rest + pid + tgid + ruid + euid + extra);
    WordAfter(c, front + what + rest + pid, tgid, ruid + euid + extra);
    WordAfter(c, front + what + rest + pid + tgid, ruid, euid + extra);
    WordAfter(c, front + what + rest + pid + tgid + ruid, euid, extra);
  }

  lemma {:induction false} YieldOfUidChange(m: Message, uids: set<int>)
    requires WellFormed(m) && m.UidChange?
    ensures Yield(Content(m), uids) == if Hosted(m, uids) then [m.tgid] else []
  {
    WordsOfEvent(m.header + m.connector, Bytes(UID_EVENT), m.rest, Bytes(Unsigned(m.pid)), Bytes(Unsigned(m.tgid)),
                 Bytes(m.ruid), Bytes(m.euid), m.extra);
    WordOfBytes(UID_EVENT);
    WordOfBytes(Unsigned(m.tgid));
    WordOfBytes(m.ruid);
    WordOfBytes(m.euid);
  }

  lemma {:induction false} YieldOfOther(m: Message, uids: set<int>)
    requires WellFormed(m) && !m.UidChange?
    ensures Yield(Content(m), uids) == []
  {
    if m.OtherEvent? {
      WordAfter(Content(m), m.header + m.connector, Bytes(m.what), m.extra);
      WordOfBytes(m.what);
    }
  }

  lemma {:induction false} YieldsAreHostedTgids(ms: seq<Message>, uids: set<int>)
    requires AllWellFormed(ms)
    ensures YieldAll(Contents(ms), uids) == HostedTgids(ms, uids)
  {
    if ms != [] {
      if ms[0].UidChange? { YieldOfUidChange(ms[0], uids); } else { YieldOfOther(ms[0], uids); }
      YieldsAreHostedTgids(ms[1..], uids);
      assert Contents(ms)[1..] == Contents(ms[1..]);
    }
  }

  /** Parsing what the kernel encoded keeps exactly the hosted uid changes: a filter, in order. */
  lemma {:induction false} ParseUndoesEncode(ms: seq<Message>, uids: set<int>)
    requires AllWellFormed(ms)
    ensures Parse(Encode(ms), uids, 0) == Found(HostedTgids(ms, uids))
  {
    ParseOfFrames([], Contents(ms), uids);
    assert [] + Encode(ms) == Encode(ms);
    YieldsAreHostedTgids(ms, uids);
  }

  ghost predicate AllBatchesWellFormed(batches: seq<seq<Message>>) {
    forall i :: 0 <= i < |batches| ==> AllWellFormed(batches[i])
  }

  function EncodeBatches(batches: seq<seq<Message>>): seq<seq<Byte>>
    requires AllBatchesWellFormed(batches)
  {
    if batches == [] then [] else [Encode(batches[0])] + EncodeBatches(batches[1..])
  }

  function Flatten(batches: seq<seq<Message>>): seq<Message> {
    if batches == [] then [] else batches[0] + Flatten(batches[1..])
  }

  lemma {:induction false} HostedTgidsAppend(a: seq<Message>, b: seq<Message>, uids: set<int>)
    ensures HostedTgids(a + b, uids) == HostedTgids(a, uids) + HostedTgids(b, uids)
  {
    if a == [] {
      assert a + b == b;
    } else {
      assert (a + b)[1..] == a[1..] + b;
      HostedTgidsAppend(a[1..], b, uids);
    }
  }

  /** The same, for all the datagrams a socket has queued. */
  lemma {:induction false} SocketYieldsHostedTgids(batches: seq<seq<Message>>, uids: set<int>)
    requires AllBatchesWellFormed(batches)
    ensures ParseAll(EncodeBatches(batches), uids) == Found(HostedTgids(Flatten(batches), uids))
  {
    if batches != [] {
      var datagrams := EncodeBatches(batches);
      ParseUndoesEncode(batches[0], uids);
      assert datagrams[1..] == EncodeBatches(batches[1..]);
      SocketYieldsHostedTgids(batches[1..], uids);
      HostedTgidsAppend(batches[0], Flatten(batches[1..]), uids);
    }
  }

  // ---------------------------------------------------------------- lengths that lie

  /** The last message whose header the parser reads. */
  function LastVisited(data: seq<Byte>, offset: nat): Option<nat>
    decreases |data| - offset
  {
    if offset + HEADER > |data| || WordAt(data, offset) < HEADER then None
    else
      match LastVisited(data, offset + Padded(WordAt(data, offset)))
      case None => Some(offset)
      case Some(later) => Some(later)
  }

  /** The message claims an event the datagram ends before. */
  predicate CutShort(data: seq<Byte>, offset: nat)
    requires offset + HEADER <= |data|
  {
    && WordAt(data, offset) >= BODY + EVENT_HEADER + EVENT_DATA
    && (|data| < offset + BODY + 4
        || (WordAt(data, offset + BODY) == UID_EVENT && |data| < offset + BODY + EVENT_HEADER + EVENT_DATA))
  }

  /**
   On any bytes at all, the parser reads past the end exactly when the last message it visits
   claims an event that is not there: every earlier message is followed by a header it fits before.
   */
  lemma {:induction false} OverrunsIff(data: seq<Byte>, uids: set<int>, offset: nat)
    ensures LastVisited(data, offset).Some? ==> LastVisited(data, offset).value + HEADER <= |data|
    ensures Parse(data, uids, offset) == OutOfRange <==>
            LastVisited(data, offset).Some? && CutShort(data, LastVisited(data, offset).value)
    decreases |data| - offset
  {
    if offset + HEADER <= |data| && WordAt(data, offset) >= HEADER {
      OverrunsIff(data, uids, offset + Padded(WordAt(data, offset)));
    }
  }

  /** The failing case: a header whose length claims a whole event, and nothing after the connector header. */
  lemma {:induction false} ClaimedLengthOverruns()
    ensures Parse(Bytes(68) + seq(32, _ => 0), {}, 0) == OutOfRange
  {
    var data := Bytes(68) + seq(32, _ => 0);
    assert data[0..4] == Bytes(68);
    WordOfBytes(68);
  }
}
