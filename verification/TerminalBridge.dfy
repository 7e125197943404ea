/**
 The bridge between a PTY and a browser's WebSocket.

 A reader callback puts what the PTY wrote on a queue and stops reading when the queue is long;
 a sender drains the queue into frames and starts reading again once it is short. Everything
 between two suspension points of the event loop is one step here, so a run is any interleaving
 of the reader, the sender and whatever closes the bridge.
 */
module TerminalBridge {

  const MAX_QUEUED_CHUNKS := 64
  const READ_SIZE := 65536
  const FRAME_SIZE := 256 * 1024

  type Byte = b: int | 0 <= b < 256

  datatype Item = Chunk(data: seq<Byte>) | End

  /** What one read of the PTY gives: bytes (none at all once the shell has gone), or an error. */
  datatype ReadResult = Bytes(data: seq<Byte>) | WouldBlock | IoError

  datatype Sender =
    | Waiting
    | Sending(frame: seq<Byte>, last: bool)
    | Exited
    | Failed(lost: seq<Byte>)

  /** `received` and `sent` are everything read from the PTY and everything the browser took. */
  datatype State = State(
    queue: seq<Item>, reading: bool, registered: bool, open: bool,
    sender: Sender, ended: bool, received: seq<Byte>, sent: seq<Byte>)

  datatype Event = Readable(result: ReadResult) | Get | SendReturns(ok: bool) | Close

  const INITIAL := State([], true, true, true, Waiting, false, [], [])

  // ---------------------------------------------------------------- one step

  /** The bytes a read delivers; an error reads as the end of the stream. */
  function DataOf(r: ReadResult): seq<Byte> {
    if r.Bytes? then r.data else []
  }

  function OnReadable(s: State, r: ReadResult): State {
    if r.WouldBlock? then s
    else if DataOf(r) == [] then
      s.(registered := false, reading := false, queue := s.queue + [End], ended := true)
    else
      var queue := s.queue + [Chunk(DataOf(r))];
      var full := |queue| > MAX_QUEUED_CHUNKS;
      s.(queue := queue, received := s.received + DataOf(r),
         registered := s.registered && !full, reading := s.reading && !full)
  }

  /** Takes chunks off the queue while the frame is short; true when an end marker stopped it. */
  function Drain(queue: seq<Item>, data: seq<Byte>): (seq<Item>, seq<Byte>, bool) {
    if queue == [] || |data| >= FRAME_SIZE then (queue, data, false)
    else if queue[0].End? then (queue[1..], data, true)
    else Drain(queue[1..], data + queue[0].data)
  }

  function OnGet(s: State): State
    requires s.queue != []
  {
    if s.queue[0].End? then s.(queue := s.queue[1..], sender := Exited)
    else
      var (rest, data, last) := Drain(s.queue[1..], s.queue[0].data);
      s.(queue := rest, sender := Sending(data, last))
  }

  function OnSent(s: State, ok: bool): State
    requires s.sender.Sending?
  {
    if !ok then s.(sender := Failed(s.sender.frame))
    else
      var s1 := s.(sent := s.sent + s.sender.frame);
      if s.sender.last then s1.(sender := Exited)
      else
        var s2 := s1.(sender := Waiting);
        if !s.reading && |s.queue| < MAX_QUEUED_CHUNKS / 4 then s2.(reading := true, registered := true) else s2
  }

  function OnClose(s: State): State {
    s.(open := false, registered := s.registered && !s.reading)
  }

  /**
   When an event can happen. The callback runs only while it is registered, and a PTY that has
   ended keeps reporting its end; a bridge that has closed does nothing more.
   */
  predicate Enabled(s: State, e: Event) {
    s.open &&
    match e
    case Readable(r) => s.registered && (r.Bytes? ==> |r.data| <= READ_SIZE && (s.ended ==> r.data == []))
    case Get => s.sender.Waiting? && s.queue != []
    case SendReturns(_) => s.sender.Sending?
    case Close => true
  }

  function Step(s: State, e: Event): State
    requires Enabled(s, e)
  {
    match e
    case Readable(r) => OnReadable(s, r)
    case Get => OnGet(s)
    case SendReturns(ok) => OnSent(s, ok)
    case Close => OnClose(s)
  }

  predicate EnabledRun(s: State, es: seq<Event>)
    decreases |es|
  {
    es == [] || (Enabled(s, es[0]) && EnabledRun(Step(s, es[0]), es[1..]))
  }

  function Run(s: State, es: seq<Event>): State
    requires EnabledRun(s, es)
    decreases |es|
  {
    if es == [] then s else Run(Step(s, es[0]), es[1..])
  }

  // ---------------------------------------------------------------- the invariant

  function QueuedBytes(queue: seq<Item>): seq<Byte> {
    if queue == [] then []
    else (if queue[0].Chunk? then queue[0].data else []) + QueuedBytes(queue[1..])
  }

  function InFlight(sender: Sender): seq<Byte> {
    match sender
    case Sending(frame, _) => frame
    case Failed(lost) => lost
    case _ => []
  }

  ghost predicate HasEnd(queue: seq<Item>) { End in queue }

  ghost predicate OnlyEnds(queue: seq<Item>) { forall i :: 0 <= i < |queue| ==> queue[i].End? }

  /** Chunks are whole reads, and nothing but end markers follows an end marker. */
  ghost predicate WellQueued(queue: seq<Item>) {
    && (forall i :: 0 <= i < |queue| && queue[i].Chunk? ==> 0 < |queue[i].data| <= READ_SIZE)
    && (forall i, j :: 0 <= i < j < |queue| && queue[i].End? ==> queue[j].End?)
  }

  ghost predicate Finishing(sender: Sender) {
    sender.Exited? || (sender.Sending? && sender.last)
  }

  ghost predicate Inv(s: State) {
    && s.sent + InFlight(s.sender) + QueuedBytes(s.queue) == s.received
    && WellQueued(s.queue)
    && (HasEnd(s.queue) ==> s.ended)
    && (Finishing(s.sender) ==> s.ended && OnlyEnds(s.queue))
    && (s.ended && !Finishing(s.sender) && !s.sender.Failed? ==> HasEnd(s.queue))
    && (if s.open then s.registered == s.reading else !s.registered)
    && |s.queue| <= MAX_QUEUED_CHUNKS + 1
    && (s.reading ==> |s.queue| <= MAX_QUEUED_CHUNKS)
    && (s.sender.Sending? ==> |s.sender.frame| < FRAME_SIZE + READ_SIZE)
    && (s.sender.Waiting? && !s.reading ==> |s.queue| >= MAX_QUEUED_CHUNKS / 4 || HasEnd(s.queue))
  }

  lemma {:induction false} QueuedBytesAppend(queue: seq<Item>, item: Item)
    ensures QueuedBytes(queue + [item]) == QueuedBytes(queue) + (if item.Chunk? then item.data else [])
  {
    if queue == [] {
      assert QueuedBytes([item]) == (if item.Chunk? then item.data else []) + QueuedBytes([]);
    } else {
      assert (queue + [item])[1..] == queue[1..] + [item];
      QueuedBytesAppend(queue[1..], item);
    }
  }

  lemma {:induction false} OnlyEndsCarryNothing(queue: seq<Item>)
    requires OnlyEnds(queue)
    ensures QueuedBytes(queue) == []
  {
    if queue != [] { OnlyEndsCarryNothing(queue[1..]); }
  }

  /** Draining moves bytes from the queue to the frame in order, and keeps the frame short. */
  lemma {:induction false} DrainMoves(queue: seq<Item>, data: seq<Byte>)
    requires WellQueued(queue) && |data| < FRAME_SIZE + READ_SIZE
    ensures var (rest, frame, last) := Drain(queue, data);
            && (last ==> HasEnd(queue) && OnlyEnds(rest))
            && frame + QueuedBytes(rest) == data + QueuedBytes(queue)
            && |frame| < FRAME_SIZE + READ_SIZE
  {
    if queue == [] || |data| >= FRAME_SIZE {
    } else if queue[0].End? {
      assert queue[0] in queue;
      assert OnlyEnds(queue[1..]);
      OnlyEndsCarryNothing(queue[1..]);
    } else {
      var more := queue[0].data;
      DrainMoves(queue[1..], data + more);
      assert data + more + QueuedBytes(queue[1..]) == data + (more + QueuedBytes(queue[1..]));
    }
  }

  /** What is left after draining is the tail of the queue, short of nothing but what was taken. */
  lemma {:induction false} DrainLeavesTail(queue: seq<Item>, data: seq<Byte>)
    ensures var (rest, frame, last) := Drain(queue, data);
            && |rest| <= |queue| && rest == queue[|queue| - |rest|..]
            && Chunks(rest) <= Chunks(queue)
            && (!last && HasEnd(queue) ==> HasEnd(rest))
  {
    if queue != [] && |data| < FRAME_SIZE && queue[0].Chunk? {
      DrainLeavesTail(queue[1..], data + queue[0].data);
      assert queue == [queue[0]] + queue[1..];
    }
  }

  lemma {:induction false} StepKeepsInv(s: State, e: Event)
    requires Inv(s) && Enabled(s, e)
    ensures Inv(Step(s, e))
  {
    match e
    case Readable(r) => ReadKeepsInv(s, r);
    case Get => GetKeepsInv(s);
    case SendReturns(ok) =>
      if ok && s.sender.last { OnlyEndsCarryNothing(s.queue); }
    case Close =>
  }

  lemma {:induction false} PushedQueue(queue: seq<Item>, item: Item)
    requires WellQueued(queue)
    requires item.Chunk? ==> !HasEnd(queue) && 0 < |item.data| <= READ_SIZE
    ensures WellQueued(queue + [item]) && (HasEnd(queue + [item]) <==> HasEnd(queue) || item.End?)
    ensures OnlyEnds(queue) && item.End? ==> OnlyEnds(queue + [item])
  {
    var longer := queue + [item];
    assert longer[|queue|] == item;
    assert forall i :: 0 <= i < |queue| ==> longer[i] == queue[i] && queue[i] in queue;
    assert HasEnd(longer) ==> HasEnd(queue) || item.End?;
  }

  lemma {:induction false} EndKeepsInv(s: State)
    requires Inv(s) && s.open && s.registered
    ensures Inv(s.(registered := false, reading := false, queue := s.queue + [End], ended := true))
  {
    QueuedBytesAppend(s.queue, End);
    PushedQueue(s.queue, End);
    assert QueuedBytes(s.queue) + [] == QueuedBytes(s.queue);
  }

  lemma {:induction false} ChunkKeepsInv(s: State, data: seq<Byte>, full: bool)
    requires Inv(s) && s.open && s.registered && !s.ended && 0 < |data| <= READ_SIZE
    requires full <==> |s.queue| + 1 > MAX_QUEUED_CHUNKS
    ensures Inv(s.(queue := s.queue + [Chunk(data)], received := s.received + data,
                   registered := s.registered && !full, reading := s.reading && !full))
  {
    QueuedBytesAppend(s.queue, Chunk(data));
    PushedQueue(s.queue, Chunk(data));
    var front := s.sent + InFlight(s.sender);
    assert front + (QueuedBytes(s.queue) + data) == front + QueuedBytes(s.queue) + data;
  }

  lemma {:induction false} ReadKeepsInv(s: State, r: ReadResult)
    requires Inv(s) && Enabled(s, Readable(r))
    ensures Inv(OnReadable(s, r))
  {
    if !r.WouldBlock? {
      if DataOf(r) == [] {
        EndKeepsInv(s);
      } else {
        ChunkKeepsInv(s, DataOf(r), |s.queue| + 1 > MAX_QUEUED_CHUNKS);
      }
    }
  }

  lemma {:induction false} GetKeepsInv(s: State)
    requires Inv(s) && Enabled(s, Get)
    ensures Inv(OnGet(s))
  {
    var first, tail := s.queue[0], s.queue[1..];
    assert s.queue == [first] + tail;
    assert WellQueued(tail);
    if first.End? {
      assert first in s.queue && OnlyEnds(tail);
      OnlyEndsCarryNothing(tail);
      assert HasEnd(tail) ==> HasEnd(s.queue);
    } else {
      assert HasEnd(tail) == HasEnd(s.queue);
      FrameKeepsInv(s, first.data, tail);
    }
  }

  lemma {:induction false} FrameKeepsInv(s: State, data: seq<Byte>, tail: seq<Item>)
    requires Inv(s) && s.sender.Waiting? && s.queue == [Chunk(data)] + tail
    requires WellQueued(tail) && HasEnd(tail) == HasEnd(s.queue) && |data| <= READ_SIZE
    ensures var (rest, frame, last) := Drain(tail, data);
            Inv(s.(queue := rest, sender := Sending(frame, last)))
  {
    DrainMoves(tail, data);
    DrainLeavesTail(tail, data);
    var (rest, frame, last) := Drain(tail, data);
    assert s.sent + frame + QueuedBytes(rest) == s.sent + (frame + QueuedBytes(rest));
    assert s.queue[1..] == tail && QueuedBytes(s.queue) == data + QueuedBytes(tail);
    assert s.sent + [] + QueuedBytes(s.queue) == s.sent + QueuedBytes(s.queue);
    TailIsWellQueued(tail, rest);
  }

  lemma {:induction false} TailIsWellQueued(queue: seq<Item>, rest: seq<Item>)
    requires WellQueued(queue) && |rest| <= |queue| && rest == queue[|queue| - |rest|..]
    ensures WellQueued(rest) && (HasEnd(rest) ==> HasEnd(queue))
  {
  }

  lemma {:induction false} RunKeepsInv(s: State, es: seq<Event>)
    requires Inv(s) && EnabledRun(s, es)
    ensures Inv(Run(s, es))
    decreases |es|
  {
    if es != [] {
      StepKeepsInv(s, es[0]);
      RunKeepsInv(Step(s, es[0]), es[1..]);
    }
  }

  // ---------------------------------------------------------------- delivery

  /** What the PTY wrote during a run, read off the events alone: every byte of every read. */
  function PtyOutput(es: seq<Event>): seq<Byte> {
    if es == [] then []
    else (match es[0] case Readable(Bytes(data)) => data case _ => []) + PtyOutput(es[1..])
  }

  /** The PTY has reported its end: a read without bytes, or one that fails for good. */
  predicate PtyEnded(es: seq<Event>) { Readable(Bytes([])) in es || Readable(IoError) in es }

  lemma {:induction false} ReceivedIsPtyOutput(s: State, es: seq<Event>)
    requires EnabledRun(s, es)
    ensures Run(s, es).received == s.received + PtyOutput(es)
    decreases |es|
  {
    if es != [] {
      ReceivedIsPtyOutput(Step(s, es[0]), es[1..]);
    }
  }

  lemma {:induction false} EndedIsPtyEnded(s: State, es: seq<Event>)
    requires EnabledRun(s, es)
    ensures Run(s, es).ended <==> s.ended || PtyEnded(es)
    decreases |es|
  {
    if es != [] {
      EndedIsPtyEnded(Step(s, es[0]), es[1..]);
      assert forall e :: e in es <==> e == es[0] || e in es[1..];
    }
  }

  /** What the browser took during a run: the frames whose sends returned. */
  function BrowserInput(s: State, es: seq<Event>): seq<Byte>
    requires EnabledRun(s, es)
    decreases |es|
  {
    if es == [] then []
    else (if es[0] == SendReturns(true) then s.sender.frame else []) + BrowserInput(Step(s, es[0]), es[1..])
  }

  lemma {:induction false} SentIsBrowserInput(s: State, es: seq<Event>)
    requires EnabledRun(s, es)
    ensures Run(s, es).sent == s.sent + BrowserInput(s, es)
    decreases |es|
  {
    if es != [] {
      SentIsBrowserInput(Step(s, es[0]), es[1..]);
    }
  }

  /** Nothing has been read and nothing sent. */
  ghost predicate Fresh(s: State) { Inv(s) && s.received == [] && s.sent == [] && !s.ended }

  ghost predicate Delivered(s: State, es: seq<Event>)
    requires EnabledRun(s, es)
  {
    var s' := Run(s, es);
    && BrowserInput(s, es) + InFlight(s'.sender) + QueuedBytes(s'.queue) == PtyOutput(es)
    && BrowserInput(s, es) <= PtyOutput(es)
    && (s'.sender.Exited? ==> PtyEnded(es) && BrowserInput(s, es) == PtyOutput(es))
  }

  lemma {:induction false} FreshDelivers(s: State, es: seq<Event>)
    requires Fresh(s) && EnabledRun(s, es)
    ensures Delivered(s, es)
  {
    RunKeepsInv(s, es);
    ReceivedIsPtyOutput(s, es);
    SentIsBrowserInput(s, es);
    EndedIsPtyEnded(s, es);
    InvDelivers(Run(s, es));
    assert Run(s, es).sent == BrowserInput(s, es) && Run(s, es).received == PtyOutput(es);
  }

  /**
   In every interleaving the browser has got a prefix of what the PTY wrote, the rest is in flight or
   queued in order, and a sender that reports "exit" has sent all of it.
   */
  lemma {:induction false} DeliveredInOrder(es: seq<Event>)
    requires EnabledRun(INITIAL, es)
    ensures var s := Run(INITIAL, es);
            && BrowserInput(INITIAL, es) + InFlight(s.sender) + QueuedBytes(s.queue) == PtyOutput(es)
            && BrowserInput(INITIAL, es) <= PtyOutput(es)
            && (s.sender.Exited? ==> PtyEnded(es) && BrowserInput(INITIAL, es) == PtyOutput(es))
  {
    FreshDelivers(INITIAL, es);
  }

  lemma {:induction false} InvDelivers(s: State)
    requires Inv(s)
    ensures s.sent <= s.received
    ensures s.sender.Exited? ==> s.sent == s.received
  {
    assert s.sent + InFlight(s.sender) + QueuedBytes(s.queue) == s.sent + (InFlight(s.sender) + QueuedBytes(s.queue));
    if s.sender.Exited? { OnlyEndsCarryNothing(s.queue); }
  }

  predicate Bounded(s: State) {
    && |s.queue| <= 65
    && (s.reading ==> |s.queue| <= 64)
    && (s.sender.Sending? ==> |s.sender.frame| < 262144 + 65536)
    && (s.open ==> s.registered == s.reading)
    && (!s.open ==> !s.registered)
  }

  /** Memory is bounded, and the `reading` flag says exactly whether the callback is registered. */
  lemma {:induction false} BridgeIsBounded(es: seq<Event>)
    requires EnabledRun(INITIAL, es)
    ensures Bounded(Run(INITIAL, es))
  {
    RunKeepsInv(INITIAL, es);
  }

  /**
   Reading stops exactly at the end of the PTY and with the chunk that makes 65, and starts again exactly
   when a send returns, no end marker stopped it, and fewer than 16 chunks are left.
   */
  lemma {:induction false} ReadingTurnsIff(s: State, e: Event)
    requires Inv(s) && Enabled(s, e)
    ensures s.reading && !Step(s, e).reading <==>
            e == Readable(IoError) || e == Readable(Bytes([])) || (e.Readable? && e.result.Bytes? && |s.queue| == 64)
    ensures !s.reading && Step(s, e).reading <==>
            e == SendReturns(true) && !s.sender.last && !s.reading && |s.queue| < 16
  {
    if e.Readable? && e.result.Bytes? && e.result.data == [] { assert e == Readable(Bytes([])); }
  }

  ghost predicate GoesOn(s: State, ended: bool) {
    && (s.open && s.sender.Waiting? && s.queue == [] ==> s.registered && !ended)
    && (s.open && ended && !s.sender.Exited? && !s.sender.Failed? ==> Enabled(s, Get) || Enabled(s, SendReturns(true)))
  }

  /** An open bridge whose sender has nothing to send is always listening to the PTY, which has not ended. */
  lemma {:induction false} NeverStalls(es: seq<Event>)
    requires EnabledRun(INITIAL, es)
    ensures GoesOn(Run(INITIAL, es), PtyEnded(es))
  {
    RunKeepsInv(INITIAL, es);
    EndedIsPtyEnded(INITIAL, es);
    if Run(INITIAL, es).open { InvRulesOutStalls(Run(INITIAL, es)); }
  }

  lemma {:induction false} InvRulesOutStalls(s: State)
    requires Inv(s) && s.open
    ensures s.sender.Waiting? && s.queue == [] ==> s.registered && !s.ended
    ensures s.ended && !s.sender.Exited? && !s.sender.Failed? ==> Enabled(s, Get) || Enabled(s, SendReturns(true))
  {
  }

  // ---------------------------------------------------------------- reaching the end

  function Chunks(queue: seq<Item>): nat {
    if queue == [] then 0 else (if queue[0].Chunk? then 1 else 0) + Chunks(queue[1..])
  }

  /** How many more sender steps there can be once the PTY has ended. */
  function StepsLeft(s: State): nat {
    match s.sender
    case Waiting => 2 * Chunks(s.queue) + 1
    case Sending(_, last) => if last then 1 else 2 * Chunks(s.queue) + 2
    case _ => 0
  }

  predicate SenderEvent(e: Event) { e.Get? || e.SendReturns? }

  /** Neither the connection nor another task ends the bridge. */
  predicate Undisturbed(es: seq<Event>) {
    forall i :: 0 <= i < |es| ==> es[i] != Close && es[i] != SendReturns(false)
  }

  function SenderSteps(es: seq<Event>): nat {
    if es == [] then 0 else (if SenderEvent(es[0]) then 1 else 0) + SenderSteps(es[1..])
  }

  lemma {:induction false} ChunksAppendEnd(queue: seq<Item>)
    ensures Chunks(queue + [End]) == Chunks(queue)
  {
    if queue != [] {
      assert (queue + [End])[1..] == queue[1..] + [End];
      ChunksAppendEnd(queue[1..]);
    }
  }

  lemma {:induction false} EveryStepGetsCloser(s: State, e: Event)
    requires Inv(s) && s.ended && Enabled(s, e) && e != Close && e != SendReturns(false)
    ensures Step(s, e).ended
    ensures SenderEvent(e) ==> StepsLeft(Step(s, e)) < StepsLeft(s)
    ensures !SenderEvent(e) ==> StepsLeft(Step(s, e)) == StepsLeft(s)
  {
    match e
    case Readable(r) => if !r.WouldBlock? { ChunksAppendEnd(s.queue); }
    case Get => if s.queue[0].Chunk? { DrainLeavesTail(s.queue[1..], s.queue[0].data); }
    case SendReturns(ok) =>
  }

  lemma {:induction false} StepsRunOut(s: State, es: seq<Event>)
    requires Inv(s) && s.ended && !s.sender.Failed?
    requires EnabledRun(s, es) && Undisturbed(es)
    ensures StepsLeft(Run(s, es)) + SenderSteps(es) <= StepsLeft(s)
    ensures SenderSteps(es) == StepsLeft(s) ==> Run(s, es).sender.Exited?
    decreases |es|
  {
    if es != [] {
      assert forall i :: 0 <= i < |es[1..]| ==> es[1..][i] == es[i + 1];
      StepKeepsInv(s, es[0]);
      EveryStepGetsCloser(s, es[0]);
      StepsRunOut(Step(s, es[0]), es[1..]);
    }
  }

  lemma {:induction false} RunParts(s: State, before: seq<Event>, es: seq<Event>)
    requires EnabledRun(s, before) && EnabledRun(Run(s, before), es)
    ensures EnabledRun(s, before + es) && Run(s, before + es) == Run(Run(s, before), es)
    decreases |before|
  {
    if before == [] {
      assert before + es == es;
    } else {
      assert (before + es)[0] == before[0] && (before + es)[1..] == before[1..] + es;
      RunParts(Step(s, before[0]), before[1..], es);
    }
  }

  lemma {:induction false} FreshReachesEnd(s: State, before: seq<Event>, es: seq<Event>)
    requires Fresh(s) && EnabledRun(s, before) && PtyEnded(before) && !Run(s, before).sender.Failed?
    requires EnabledRun(Run(s, before), es) && Undisturbed(es)
    ensures SenderSteps(es) <= StepsLeft(Run(s, before)) && EnabledRun(s, before + es)
    ensures SenderSteps(es) == StepsLeft(Run(s, before)) ==>
              Run(s, before + es).sender.Exited? && BrowserInput(s, before + es) == PtyOutput(before + es)
  {
    RunKeepsInv(s, before);
    EndedIsPtyEnded(s, before);
    StepsRunOut(Run(s, before), es);
    RunParts(s, before, es);
    FreshDelivers(s, before + es);
  }

  /**
   Once the PTY has ended, no interleaving lets the sender take more than `StepsLeft` steps, and
   taking that many brings it to "exit" with everything the PTY ever wrote delivered.
   */
  lemma {:induction false} EndIsReached(before: seq<Event>, es: seq<Event>)
    requires EnabledRun(INITIAL, before) && PtyEnded(before) && !Run(INITIAL, before).sender.Failed?
    requires EnabledRun(Run(INITIAL, before), es) && Undisturbed(es)
    ensures SenderSteps(es) <= StepsLeft(Run(INITIAL, before)) && EnabledRun(INITIAL, before + es)
    ensures SenderSteps(es) == StepsLeft(Run(INITIAL, before)) ==>
              && Run(INITIAL, before + es).sender.Exited?
              && BrowserInput(INITIAL, before + es) == PtyOutput(before + es)
  {
    FreshReachesEnd(INITIAL, before, es);
  }

  // ---------------------------------------------------------------- the object

  /** The shared queue, the flag and the reader registration, changed in place. */
  class Bridge {
    var queue: seq<Item>
    var reading: bool
    var registered: bool
    var open: bool
    var sender: Sender
    ghost var ended: bool
    ghost var received: seq<Byte>
    ghost var sent: seq<Byte>

    ghost function Abstract(): State
      reads this
    {
      State(queue, reading, registered, open, sender, ended, received, sent)
    }

    constructor ()
      ensures Abstract() == INITIAL && Inv(Abstract())
    {
      queue, reading, registered, open := [], true, true, true;
      sender := Waiting;
      ended, received, sent := false, [], [];
    }

    method ReadReady(r: ReadResult)
      requires Inv(Abstract()) && Enabled(Abstract(), Readable(r))
      modifies this
      ensures Abstract() == Step(old(Abstract()), Readable(r)) && Inv(Abstract())
    {
      StepKeepsInv(Abstract(), Readable(r));
      if r.WouldBlock? { return; }
      var data := if r.IoError? then [] else r.data;
      if data == [] {
        registered := false;
        reading := false;
        queue := queue + [End];
        ended := true;
        return;
      }
      queue := queue + [Chunk(data)];
      received := received + data;
      if |queue| > MAX_QUEUED_CHUNKS {
        registered := false;
        reading := false;
      }
    }

    /** From the queue to the start of a send, with no suspension point in between. */
    method TakeFrame()
      requires Inv(Abstract()) && Enabled(Abstract(), Get)
      modifies this
      ensures Abstract() == Step(old(Abstract()), Get) && Inv(Abstract())
    {
      StepKeepsInv(Abstract(), Get);
      var first := queue[0];
      queue := queue[1..];
      if first.End? {
        sender := Exited;
        return;
      }
      var data := first.data;
      ghost var target := Drain(queue, data);
      while queue != [] && |data| < FRAME_SIZE
        invariant Drain(queue, data) == target
        invariant Abstract() == old(Abstract()).(queue := queue)
        decreases |queue|
      {
        var more := queue[0];
        queue := queue[1..];
        if more.End? {
          sender := Sending(data, true);
          return;
        }
        data := data + more.data;
      }
      sender := Sending(data, false);
    }

    method FrameSent(ok: bool)
      requires Inv(Abstract()) && Enabled(Abstract(), SendReturns(ok))
      modifies this
      ensures Abstract() == Step(old(Abstract()), SendReturns(ok)) && Inv(Abstract())
    {
      StepKeepsInv(Abstract(), SendReturns(ok));
      if !ok {
        sender := Failed(sender.frame);
        return;
      }
      sent := sent + sender.frame;
      if sender.last {
        sender := Exited;
        return;
      }
      if !reading && |queue| < MAX_QUEUED_CHUNKS / 4 {
        reading := true;
        registered := true;
      }
      sender := Waiting;
    }

    method Shut()
      requires Inv(Abstract()) && Enabled(Abstract(), Close)
      modifies this
      ensures Abstract() == Step(old(Abstract()), Close) && Inv(Abstract())
      ensures !registered
    {
      StepKeepsInv(Abstract(), Close);
      open := false;
      if reading { registered := false; }
    }
  }

  // ---------------------------------------------------------------- keystrokes

  /** One attempt to write to the PTY: it takes some of the bytes, or would block. */
  datatype Attempt = Took(count: nat) | Busy

  /**
   Writes `data` with as many attempts as the script has. Whatever happens, the PTY has got a
   prefix of the input once and in order, and the loop stops early only when it has got it all.
   */
  method WriteAll(data: seq<Byte>, script: seq<Attempt>) returns (written: seq<Byte>, attempts: nat)
    ensures written <= data
    ensures attempts <= |script|
    ensures written != data ==> attempts == |script|
    ensures |written| == Taken(script[..attempts], |data|)
  {
    var view := data;
    written := [];
    attempts := 0;
    assert script[..0] == [];
    while view != [] && attempts < |script|
      invariant attempts <= |script|
      invariant written + view == data
      invariant |written| == Taken(script[..attempts], |data|)
      decreases |script| - attempts
    {
      assert script[..attempts + 1] == script[..attempts] + [script[attempts]];
      TakenAppend(script[..attempts], script[attempts], |data|);
      if script[attempts].Took? {
        var n := if script[attempts].count < |view| then script[attempts].count else |view|;
        written := written + view[..n];
        view := view[n..];
      }
      attempts := attempts + 1;
    }
  }

  /** How much of `room` a series of attempts takes. */
  function Taken(script: seq<Attempt>, room: nat): (n: nat)
    ensures n <= room
  {
    if script == [] then 0
    else match script[0]
      case Busy => Taken(script[1..], room)
      case Took(count) => if count >= room then room else count + Taken(script[1..], room - count)
  }

  lemma {:induction false} TakenAppend(script: seq<Attempt>, last: Attempt, room: nat)
    ensures var before := Taken(script, room);
            Taken(script + [last], room) ==
              (if last.Busy? then before
               else if last.count < room - before then before + last.count else room)
  {
    if script == [] {
    } else {
      assert (script + [last])[1..] == script[1..] + [last];
      match script[0]
      case Busy => TakenAppend(script[1..], last, room);
      case Took(count) => if count < room { TakenAppend(script[1..], last, room - count); }
    }
  }
}
