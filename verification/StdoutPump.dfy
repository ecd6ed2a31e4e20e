/** The app-server's stdout pipeline: a scanner that must keep the pipe drained, a pump that queues
    scanned lines under a byte cap, and a consumer that may be busy for as long as it likes. The two
    channels are unbuffered, so a send and its receive are one step. */
module StdoutPump {
  import opened Prelude

  type Line = seq<char>

  const ITEM_OVERHEAD: nat := 64
  const DEFAULT_CAP: nat := 64 * 1024 * 1024

  function LineCharge(line: Line): nat {
    |line| + ITEM_OVERHEAD
  }

  function Charge(items: seq<Line>): nat {
    if items == [] then 0 else LineCharge(items[0]) + Charge(items[1..])
  }

  lemma {:induction false} ChargeAppends(a: seq<Line>, b: seq<Line>)
    ensures Charge(a + b) == Charge(a) + Charge(b)
  {
    if a == [] {
      assert a + b == b;
    } else {
      assert (a + b)[1..] == a[1..] + b;
      ChargeAppends(a[1..], b);
    }
  }

  function Text(items: seq<Line>): seq<char> {
    if items == [] then [] else items[0] + Text(items[1..])
  }

  /** The charge is the text queued and 64 bytes for each line. */
  lemma {:induction false} ChargeIs(items: seq<Line>)
    ensures Charge(items) == |Text(items)| + 64 * |items|
  {
    if items != [] {
      ChargeIs(items[1..]);
    }
  }

  // ---------------------------------------------------------------------------------------------
  // The queue

  /** lineQueue: `bytes` is kept up to date instead of being summed. */
  class LineQueue {
    const capBytes: nat
    var items: seq<Line>
    var bytes: nat

    predicate Valid()
      reads this
    {
      bytes == Charge(items)
    }

    constructor (configured: int)
      ensures Valid() && items == [] && capBytes == if configured <= 0 then 67_108_864 else configured
    {
      capBytes := if configured <= 0 then DEFAULT_CAP else configured;
      items, bytes := [], 0;
    }

    /** The line is queued even when it breaks the cap. */
    method Push(line: Line) returns (ok: bool)
      requires Valid()
      modifies this
      ensures Valid() && items == old(items) + [line]
      ensures ok <==> Charge(old(items) + [line]) <= capBytes
    {
      ChargeAppends(items, [line]);
      items := items + [line];
      bytes := bytes + LineCharge(line);
      ok := bytes <= capBytes;
    }

    method Pop() returns (head: Line)
      requires Valid() && items != []
      modifies this
      ensures Valid() && [head] + items == old(items)
    {
      head := items[0];
      bytes := bytes - LineCharge(head);
      items := items[1..];
    }
  }

  // ---------------------------------------------------------------------------------------------
  // Scanner, pump and consumer

  datatype StreamEnd = CleanEof | LineTooLong | ReadFailure

  datatype ReadError = Ended(end: StreamEnd) | BacklogOverflow

  /** Scanning the next line, parked on handing one over, or at the end with its error published. */
  datatype Scanner = Idle | Offering | Closed

  /** Selecting between lines and the consumer; discarding to the end after an overflow; or finished. */
  datatype Pump = Pumping(linesOpen: bool) | Draining | Finished

  datatype Consumer = Waiting | Busy | Stopped(error: ReadError)

  /** `stream` is everything the process writes and `end` how its output ends. `taken` counts the lines
      that left the scanner. */
  datatype Pipe = Pipe(
    stream: seq<Line>,
    end: StreamEnd,
    cap: nat,
    scanner: Scanner,
    taken: nat,
    pump: Pump,
    queue: seq<Line>,
    readError: Option<ReadError>,
    consumer: Consumer,
    received: seq<Line>)

  datatype Move =
    | Scan          // the scanner reads the next line, or finds the end
    | HandOver      // the scanner's line goes to the pump, or is discarded
    | SeeClosed     // the pump finds the line channel closed
    | Deliver       // the queue's head goes to the consumer
    | Finish        // the pump publishes the scanner's error and closes the read channel
    | TurnAway      // the consumer goes off to do something else
    | ComeBack      // the consumer reads again
    | SeeEnd        // the consumer finds the read channel closed

  predicate CanMove(p: Pipe, m: Move) {
    match m
    case Scan => p.scanner == Idle
    case HandOver => p.scanner == Offering && p.taken < |p.stream| && (p.pump == Pumping(true) || p.pump == Draining)
    case SeeClosed => p.scanner == Closed && p.pump == Pumping(true)
    case Deliver => p.pump.Pumping? && p.queue != [] && p.consumer == Waiting
    case Finish => p.pump == Pumping(false) && p.queue == []
    case TurnAway => p.consumer == Waiting
    case ComeBack => p.consumer == Busy
    case SeeEnd => p.consumer == Waiting && p.readError.Some?
  }

  function Take(p: Pipe): Pipe
    requires CanMove(p, HandOver)
  {
    var line := p.stream[p.taken];
    var p1 := p.(scanner := Idle, taken := p.taken + 1);
    if p.pump == Draining then p1
    else if Charge(p.queue + [line]) <= p.cap then p1.(queue := p.queue + [line])
    else p1.(queue := p.queue + [line], pump := Draining, readError := Some(BacklogOverflow))
  }

  function After(p: Pipe, m: Move): Pipe
    requires CanMove(p, m)
  {
    match m
    case Scan => p.(scanner := if p.taken < |p.stream| then Offering else Closed)
    case HandOver => Take(p)
    case SeeClosed => p.(pump := Pumping(false))
    case Deliver => p.(received := p.received + [p.queue[0]], queue := p.queue[1..])
    case Finish => p.(pump := Finished, readError := Some(Ended(p.end)))
    case TurnAway => p.(consumer := Busy)
    case ComeBack => p.(consumer := Waiting)
    case SeeEnd => p.(consumer := Stopped(p.readError.value))
  }

  function Start(stream: seq<Line>, end: StreamEnd, cap: nat): Pipe {
    Pipe(stream, end, cap, Idle, 0, Pumping(true), [], None, Waiting, [])
  }

  /** Any interleaving of the three parties. */
  ghost predicate IsRun(stream: seq<Line>, end: StreamEnd, cap: nat, run: seq<Pipe>, moves: seq<Move>) {
    && |run| == |moves| + 1 && run[0] == Start(stream, end, cap)
    && forall i {:trigger moves[i]} :: 0 <= i < |moves| ==> CanMove(run[i], moves[i]) && run[i + 1] == After(run[i], moves[i])
  }

  predicate Overflowed(p: Pipe) {
    p.readError == Some(BacklogOverflow)
  }

  predicate IsPrefix(a: seq<Line>, b: seq<Line>) {
    |a| <= |b| && a == b[..|a|]
  }

  ghost predicate PipeOk(p: Pipe) {
    && p.taken <= |p.stream|
    && (p.scanner == Offering ==> p.taken < |p.stream|)
    && (p.scanner == Closed ==> p.taken == |p.stream|)
    && (p.pump == Pumping(false) || p.pump == Finished ==> p.scanner == Closed)
    && (p.pump == Finished ==> p.queue == [])
    && IsPrefix(p.received + p.queue, p.stream[..p.taken])
    && (!p.pump.Draining? ==> p.received + p.queue == p.stream[..p.taken])
    && Charge(p.queue) <= p.cap + (if p.queue == [] then 0 else LineCharge(p.queue[|p.queue| - 1]))
    && (!p.pump.Draining? ==> Charge(p.queue) <= p.cap)
    && (p.pump.Pumping? ==> p.readError.None?)
    && (p.pump.Draining? ==> Overflowed(p))
    && (p.pump.Finished? ==> p.readError == Some(Ended(p.end)))
    && (p.consumer.Stopped? ==> p.readError == Some(p.consumer.error))
  }

  lemma TakeKeepsOk(p: Pipe)
    requires PipeOk(p) && CanMove(p, HandOver)
    ensures PipeOk(Take(p))
  {
    var line := p.stream[p.taken];
    ChargeAppends(p.queue, [line]);
    assert p.stream[..p.taken + 1] == p.stream[..p.taken] + [line];
    assert p.received + (p.queue + [line]) == p.received + p.queue + [line];
  }

  predicate SameSource(p: Pipe, q: Pipe) {
    p.stream == q.stream && p.end == q.end && p.cap == q.cap
  }

  lemma StartsOk(stream: seq<Line>, end: StreamEnd, cap: nat)
    ensures PipeOk(Start(stream, end, cap))
  {
  }

  lemma MoveKeepsOk(p: Pipe, m: Move)
    requires PipeOk(p) && CanMove(p, m)
    ensures PipeOk(After(p, m)) && SameSource(After(p, m), p)
  {
    match m
    case HandOver => TakeKeepsOk(p);
    case Deliver =>
      assert p.queue == [p.queue[0]] + p.queue[1..];
      assert (p.received + [p.queue[0]]) + p.queue[1..] == p.received + p.queue;
    case _ =>
  }

  lemma {:induction false} RunKeepsOk(stream: seq<Line>, end: StreamEnd, cap: nat, run: seq<Pipe>, moves: seq<Move>, i: nat)
    requires IsRun(stream, end, cap, run, moves) && i < |run|
    ensures PipeOk(run[i]) && SameSource(run[i], Start(stream, end, cap))
  {
    if i == 0 {
      StartsOk(stream, end, cap);
    } else {
      RunKeepsOk(stream, end, cap, run, moves, i - 1);
      MoveKeepsOk(run[i - 1], moves[i - 1]);
    }
  }

  /** In every interleaving the consumer has received a prefix of the scanned lines, in order. When it
      finds the channel closed it has either been told of an overflow, or received every line and
      the scanner's own ending. The queue never holds more than the cap and one line. */
  lemma ConsumerReceivesStream(stream: seq<Line>, end: StreamEnd, cap: nat, run: seq<Pipe>, moves: seq<Move>, i: nat)
    requires IsRun(stream, end, cap, run, moves) && i < |run|
    ensures run[i].taken <= |stream| && IsPrefix(run[i].received, stream[..run[i].taken])
    ensures run[i].consumer.Stopped? ==>
              (if Overflowed(run[i]) then run[i].consumer.error == BacklogOverflow
               else run[i].received == stream && run[i].consumer.error == Ended(end))
    ensures var q := run[i].queue; Charge(q) <= cap + if q == [] then 0 else LineCharge(q[|q| - 1])
    ensures !Overflowed(run[i]) ==> Charge(run[i].queue) <= cap
  {
    RunKeepsOk(stream, end, cap, run, moves, i);
    var p := run[i];
    assert p.received == (p.received + p.queue)[..|p.received|];
    assert p.stream[..|p.stream|] == p.stream;
    if p.pump.Finished? {
      assert p.received + p.queue == p.received;
    }
  }

  lemma SmallOutputFits(p: Pipe, m: Move)
    requires PipeOk(p) && CanMove(p, m) && !Overflowed(p) && Charge(p.stream) <= p.cap
    ensures !Overflowed(After(p, m))
  {
    if m == HandOver {
      var line := p.stream[p.taken];
      assert p.stream == (p.received + (p.queue + [line])) + p.stream[p.taken + 1..];
      ChargeAppends(p.received + (p.queue + [line]), p.stream[p.taken + 1..]);
      ChargeAppends(p.received, p.queue + [line]);
    }
  }

  /** A process whose whole output fits under the cap never overflows the queue. */
  lemma {:induction false} SmallOutputNeverOverflows(stream: seq<Line>, end: StreamEnd, cap: nat, run: seq<Pipe>,
                                                     moves: seq<Move>, i: nat)
    requires IsRun(stream, end, cap, run, moves) && i < |run| && Charge(stream) <= cap
    ensures !Overflowed(run[i])
  {
    if i > 0 {
      SmallOutputNeverOverflows(stream, end, cap, run, moves, i - 1);
      RunKeepsOk(stream, end, cap, run, moves, i - 1);
      SmallOutputFits(run[i - 1], moves[i - 1]);
    }
  }

  // ---------------------------------------------------------------------------------------------
  // The scanner never waits for the consumer

  /** Whatever the consumer is doing, a scanner that is not done can move at once. */
  lemma ScannerNeverBlocked(p: Pipe)
    requires PipeOk(p) && p.scanner != Closed
    ensures CanMove(p, if p.scanner == Idle then Scan else HandOver)
  {
  }

  /** The pipe after the scanner alone ran to the end of the output. */
  function ScanOut(p: Pipe): Pipe
    requires PipeOk(p)
    decreases 2 * (|p.stream| - p.taken) + (if p.scanner == Idle then 1 else 0) + (if p.scanner == Closed then 0 else 1)
  {
    if p.scanner == Closed then p
    else
      ScannerNeverBlocked(p);
      var m := if p.scanner == Idle then Scan else HandOver;
      MoveKeepsOk(p, m);
      ScanOut(After(p, m))
  }

  /** With the consumer stopped in its tracks, the scanner still reads the whole output. */
  lemma {:induction false} ScannerDrainsAlone(p: Pipe)
    requires PipeOk(p)
    ensures var p' := ScanOut(p);
            p'.scanner == Closed && p'.taken == |p.stream| && p'.consumer == p.consumer && p'.received == p.received
    decreases 2 * (|p.stream| - p.taken) + (if p.scanner == Idle then 1 else 0) + (if p.scanner == Closed then 0 else 1)
  {
    if p.scanner != Closed {
      ScannerNeverBlocked(p);
      var m := if p.scanner == Idle then Scan else HandOver;
      MoveKeepsOk(p, m);
      ScannerDrainsAlone(After(p, m));
    }
  }
}
