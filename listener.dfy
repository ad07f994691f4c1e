/**
 * The per-connection handler of the listener threads. The event loop calls its callbacks one
 * at a time: `OnRequest`, then `OnRequestReadable` until the whole body is buffered and a
 * token has been queued for a worker, then, after the worker's wake-up, `OnResponse` once and
 * `OnResponseWritable` until a `Finish` event arrives.
 */
module Listener {
  import opened Outcomes
  import opened Seqs
  import opened Http

  /** Size of the window each read pass appends to the buffer. */
  const ReadWindow: nat := 4096
  /** A pass is refused once the buffer holds more than this many bytes (8 MiB). */
  const MaxBody: nat := 8388608
  /** The most the buffer can ever hold: the limit plus one read window. */
  const MaxBuffered: nat := MaxBody + ReadWindow

  /** `n` zero bytes, the filler `Vec::resize` writes. */
  function Zeros(n: nat): seq<Byte>
  {
    seq(n, _ => 0 as Byte)
  }

  /** The events a worker sends back on the response channel. */
  datatype WorkerResponse =
    | Header(status: StatusCode, headers: Headers)
    | Data(bytes: seq<Byte>)
    | Finish

  /** The token as the listener builds it: request data plus the ways to answer it. */
  datatype RequestToken = RequestToken(
    httpMethod: Method, uri: RequestUri, data: seq<Byte>, ctrl: Control, sender: Channel)

  datatype WorkerCommand = HandleRequest(token: RequestToken)

  /** What one non-blocking read returned: `Ok(Some(bytes))`, `Ok(None)` or an error. */
  datatype ReadResult = ReadOk(got: Option<seq<Byte>>) | ReadErr(message: string)

  /** A read never returns more than the window it was handed. */
  predicate ReadFits(read: ReadResult)
  {
    read.ReadOk? && read.got.Some? ==> |read.got.value| <= ReadWindow
  }

  /** The reason a callback panics instead of returning. */
  datatype Fault =
    | MissingData
    | MissingCtrl
    | MissingReceiver
    | EmptyMailbox
    | UnexpectedResponse(event: WorkerResponse)

  /** What a callback does: hand an interest back to the event loop, or panic. */
  datatype Outcome = Return(next: Next) | Panic(fault: Fault)

  // ---------------------------------------------------------------------------------------
  // The external objects the handler talks to

  /** The work queue shared by all listeners and workers; only its pushes are modelled. */
  class WorkQueue {
    var items: seq<WorkerCommand>

    constructor ()
      ensures items == []
    {
      items := [];
    }

    method Push(command: WorkerCommand)
      modifies this
      ensures items == old(items) + [command]
    {
      items := items + [command];
    }
  }

  /** One response channel: the events sent on it that have not been received yet. */
  class Channel {
    var queued: seq<WorkerResponse>

    constructor ()
      ensures queued == []
    {
      queued := [];
    }

    /** `try_recv`: the oldest queued event, or nothing when the channel is empty. */
    method TryRecv() returns (received: Option<WorkerResponse>)
      modifies this
      ensures old(queued) == [] ==> received == None && queued == []
      ensures old(queued) != [] ==> received == Some(old(queued)[0]) && queued == old(queued)[1..]
    {
      if queued == [] {
        received := None;
      } else {
        received := Some(queued[0]);
        queued := queued[1..];
      }
    }
  }

  /** The outgoing response head. */
  class Response {
    var status: StatusCode
    var headers: Headers

    constructor ()
      ensures status == 200 && headers == []
    {
      status, headers := 200, [];
    }
  }

  /** The outgoing body stream: everything written to the socket so far. */
  class Encoder {
    var written: seq<Byte>

    constructor ()
      ensures written == []
    {
      written := [];
    }

    method Write(bytes: seq<Byte>)
      modifies this
      ensures written == old(written) + bytes
    {
      written := written + bytes;
    }
  }

  // ---------------------------------------------------------------------------------------
  // Request body accumulation

  /** How one read pass ends, with the buffer it leaves. */
  datatype Pass =
    | Refused
    | ReadFailed(buffer: seq<Byte>)
    | MoreData(buffer: seq<Byte>)
    | EndOfBody(buffer: seq<Byte>)

  /**
   * The effect of one read pass on a buffer `buf`: refused when the buffer is over the limit,
   * otherwise the bytes read are appended and an empty read ends the body.
   */
  function ReadPass(buf: seq<Byte>, read: ReadResult): (p: Pass)
    requires ReadFits(read)
    ensures p.Refused? <==> |buf| > MaxBody
    ensures !p.Refused? ==> buf <= p.buffer && |p.buffer| <= MaxBuffered
    ensures p.EndOfBody? <==> !p.Refused? && read == ReadOk(Some([]))
    ensures p.EndOfBody? ==> p.buffer == buf
    ensures !p.Refused? ==> (p.ReadFailed? <==> read.ReadErr?)
    ensures p.ReadFailed? ==> p.buffer == buf + Zeros(ReadWindow)
    ensures p.MoreData? ==> read.ReadOk? && p.buffer == buf + (if read.got.Some? then read.got.value else [])
  {
    if |buf| + ReadWindow > MaxBody + ReadWindow then Refused
    else match read
      case ReadErr(_) => ReadFailed(buf + Zeros(ReadWindow))
      case ReadOk(None) => MoreData(buf)
      case ReadOk(Some(bytes)) => if bytes == [] then EndOfBody(buf) else MoreData(buf + bytes)
  }

  /**
   * The same pass as listener.rs writes it: on an empty read the window appended by `resize`
   * is never trimmed, so the finished body carries `ReadWindow` zero bytes at its end.
   */
  function ReadPassAsWritten(buf: seq<Byte>, read: ReadResult): (p: Pass)
    requires ReadFits(read)
    ensures p.EndOfBody? ==> |p.buffer| == |buf| + ReadWindow
  {
    if |buf| + ReadWindow > MaxBody + ReadWindow then Refused
    else match read
      case ReadErr(_) => ReadFailed(buf + Zeros(ReadWindow))
      case ReadOk(None) => MoreData(buf)
      case ReadOk(Some(bytes)) =>
        if bytes == [] then EndOfBody(buf + Zeros(ReadWindow)) else MoreData(buf + bytes)
  }

  /**
   * The two passes differ only at the end of a body within the limit: as written the queued
   * body keeps the 4096 zero bytes of the read window, the trimmed pass queues the buffer alone.
   */
  lemma EmptyBodyIsPaddedAsWritten(buf: seq<Byte>, read: ReadResult)
    requires ReadFits(read)
    ensures |buf| <= MaxBody ==>
      && ReadPassAsWritten(buf, ReadOk(Some([]))) == EndOfBody(buf + Zeros(ReadWindow))
      && ReadPass(buf, ReadOk(Some([]))) == EndOfBody(buf)
    ensures read != ReadOk(Some([])) || |buf| > MaxBody ==>
      ReadPassAsWritten(buf, read) == ReadPass(buf, read)
  {
  }

  /** Where a run of read passes leaves the connection. */
  datatype Fed = Aborted | Enqueued(body: seq<Byte>) | Reading(buffer: seq<Byte>)

  /** The event loop calling `OnRequestReadable` once per read in `passes` while it answers `Read`. */
  function Feed(buf: seq<Byte>, passes: seq<ReadResult>): Fed
    requires forall i :: 0 <= i < |passes| ==> ReadFits(passes[i])
    decreases |passes|
  {
    if passes == [] then Reading(buf)
    else match ReadPass(buf, passes[0])
      case Refused => Aborted
      case ReadFailed(_) => Aborted
      case MoreData(b) => Feed(b, passes[1..])
      case EndOfBody(b) => Enqueued(b)
  }

  /** A body arriving as the non-empty `chunks`, followed by the empty read that ends it. */
  function ChunkReads(chunks: seq<seq<Byte>>): (passes: seq<ReadResult>)
    ensures |passes| == |chunks| + 1
  {
    seq(|chunks|, i requires 0 <= i < |chunks| => ReadOk(Some(chunks[i]))) + [ReadOk(Some([]))]
  }

  /**
   * A body that fits within the limit reaches the queue byte for byte and in order; a larger
   * one aborts the connection and nothing is queued.
   */
  lemma {:induction false} FeedDeliversBody(buf: seq<Byte>, chunks: seq<seq<Byte>>)
    requires forall i :: 0 <= i < |chunks| ==> 0 < |chunks[i]| <= ReadWindow
    ensures forall i :: 0 <= i < |chunks| + 1 ==> ReadFits(ChunkReads(chunks)[i])
    ensures Feed(buf, ChunkReads(chunks)) ==
      if |buf| + |Concat(chunks)| <= MaxBody then Enqueued(buf + Concat(chunks)) else Aborted
    decreases |chunks|
  {
    var passes := ChunkReads(chunks);
    assert forall i :: 0 <= i < |passes| ==> ReadFits(passes[i]);
    if chunks == [] {
      assert passes == [ReadOk(Some([]))];
      assert buf + Concat(chunks) == buf;
    } else {
      assert passes[0] == ReadOk(Some(chunks[0]));
      assert passes[1..] == ChunkReads(chunks[1..]);
      FeedDeliversBody(buf + chunks[0], chunks[1..]);
      assert buf + Concat(chunks) == (buf + chunks[0]) + Concat(chunks[1..]);
    }
  }

  // ---------------------------------------------------------------------------------------
  // Draining the response events

  /** What the writable callback did with a run of events: bytes written, events left, outcome. */
  datatype Drained = Drained(bytes: seq<Byte>, rest: seq<WorkerResponse>, outcome: Outcome)

  /** Handle the events `m`, oldest first, as the writable callback does. */
  function Drain(m: seq<WorkerResponse>): (d: Drained)
    ensures |d.rest| < |m| || (m == [] && d.rest == [])
    ensures d.rest == m[|m| - |d.rest|..]
    ensures d.outcome == Return(Wait) ==> d.rest == []
  {
    if m == [] then Drained([], [], Return(Wait))
    else match m[0]
      case Data(b) =>
        var t := Drain(m[1..]);
        Drained(b + t.bytes, t.rest, t.outcome)
      case Finish => Drained([], m[1..], Return(End))
      case Header(_, _) => Drained([], m[1..], Panic(UnexpectedResponse(m[0])))
  }

  /** The position of the first event in `m` that is not `Data`, or `|m|` if there is none. */
  function FirstStop(m: seq<WorkerResponse>): (k: nat)
    ensures k <= |m|
    ensures forall i :: 0 <= i < k ==> m[i].Data?
    ensures k < |m| ==> !m[k].Data?
  {
    if m == [] || !m[0].Data? then 0 else 1 + FirstStop(m[1..])
  }

  /** The payloads of the `Data` events of `m`, joined in order. */
  function Payloads(m: seq<WorkerResponse>): seq<Byte>
  {
    if m == [] then []
    else (if m[0].Data? then m[0].bytes else []) + Payloads(m[1..])
  }

  /**
   * The writable callback writes the payloads of the `Data` events up to the first other
   * event; that event decides the outcome (`Finish` ends, `Header` is fatal), and with none
   * left it waits.
   */
  lemma {:induction false} DrainWritesUntilStop(m: seq<WorkerResponse>)
    ensures var k := FirstStop(m);
      && Drain(m).bytes == Payloads(m[..k])
      && Drain(m).rest == (if k < |m| then m[k + 1..] else [])
      && (Drain(m).outcome == Return(Wait) <==> k == |m|)
      && (Drain(m).outcome == Return(End) <==> k < |m| && m[k].Finish?)
      && (Drain(m).outcome.Panic? <==> k < |m| && m[k].Header?)
      && (Drain(m).outcome.Panic? ==> Drain(m).outcome.fault == UnexpectedResponse(m[k]))
  {
    if m != [] && m[0].Data? {
      DrainWritesUntilStop(m[1..]);
      var k := FirstStop(m);
      assert m[..k] == [m[0]] + m[1..][..k - 1];
      if k < |m| {
        assert m[k + 1..] == m[1..][k..];
      }
    } else if m != [] {
      assert m[..0] == [];
    }
  }

  /** The events a well-behaved worker sends for a body made of `chunks`. */
  function DataEvents(chunks: seq<seq<Byte>>): (m: seq<WorkerResponse>)
    ensures |m| == |chunks|
  {
    seq(|chunks|, i requires 0 <= i < |chunks| => Data(chunks[i]))
  }

  /** `Data` events followed by `Finish`: the chunks are written in order and the response ends. */
  lemma {:induction false} DrainBodyThenFinish(chunks: seq<seq<Byte>>, tail: seq<WorkerResponse>)
    ensures Drain(DataEvents(chunks) + [Finish] + tail) == Drained(Concat(chunks), tail, Return(End))
  {
    var m := DataEvents(chunks) + [Finish] + tail;
    if chunks == [] {
      assert m == [Finish] + tail;
    } else {
      assert m[0] == Data(chunks[0]);
      assert m[1..] == DataEvents(chunks[1..]) + [Finish] + tail;
      DrainBodyThenFinish(chunks[1..], tail);
    }
  }

  // ---------------------------------------------------------------------------------------
  // The handler

  class HyperHandler {
    var httpMethod: Option<Method>
    var uri: Option<RequestUri>
    var data: Option<seq<Byte>>

    var ctrl: Option<Control>
    const queue: WorkQueue
    var receiver: Option<Channel>

    /** Pending events as a stack: `pop()` takes the last element. */
    var responses: seq<WorkerResponse>

    /** The buffer stays within its bound, and is only present next to the method and target. */
    ghost predicate Valid()
      reads this
    {
      data.Some? ==> httpMethod.Some? && uri.Some? && |data.value| <= MaxBuffered
    }

    /** The pending events in the order successive `pop()`s return them. */
    ghost function Mailbox(): seq<WorkerResponse>
      reads this
    {
      Reverse(responses)
    }

    constructor (ctrl: Control, queue: WorkQueue)
      ensures Valid()
      ensures httpMethod == None && uri == None && data == None
      ensures this.ctrl == Some(ctrl) && this.queue == queue && receiver == None
      ensures responses == []
    {
      httpMethod, uri, data := None, None, None;
      this.ctrl := Some(ctrl);
      this.queue := queue;
      receiver := None;
      responses := [];
    }

    /**
     * Move every event waiting on the channel onto the stack so that `pop()` returns the ones
     * already pending first and then the new ones in arrival order.
     */
    method RecvIntoResponses()
      requires receiver.Some?
      modifies this`responses, receiver.value
      ensures Mailbox() == old(Mailbox()) + old(receiver.value.queued)
      ensures responses == Reverse(Reverse(old(responses)) + old(receiver.value.queued))
      ensures receiver.value.queued == []
    {
      var rx := receiver.value;
      responses := Reverse(responses);
      ghost var all := responses + rx.queued;
      var received := rx.TryRecv();
      while received.Some?
        invariant received.Some? ==> responses + [received.value] + rx.queued == all
        invariant received.None? ==> responses == all && rx.queued == []
        decreases |rx.queued| + (if received.Some? then 1 else 0)
      {
        responses := responses + [received.value];
        received := rx.TryRecv();
      }
      responses := Reverse(responses);
      ReverseReverse(all);
    }

    /** A new request head: remember method and target, start an empty body, ask to read. */
    method OnRequest(m: Method, u: RequestUri) returns (next: Next)
      requires Valid()
      modifies this`httpMethod, this`uri, this`data
      ensures Valid()
      ensures httpMethod == Some(m) && uri == Some(u) && data == Some([])
      ensures next == Read
    {
      httpMethod := Some(m);
      uri := Some(u);
      data := Some([]);
      next := Read;
    }

    /**
     * One read pass over the body: grow the buffer by a window, read into it and trim it.
     * At the end of the body the request moves into a token on the queue and the handler
     * suspends until a worker wakes it.
     */
    method OnRequestReadable(read: ReadResult) returns (r: Outcome)
      requires Valid() && ReadFits(read)
      modifies this, queue
      ensures Valid()
      ensures old(data).None? ==> r == Panic(MissingData) && unchanged(this) && unchanged(queue)
      ensures old(data).Some? ==> var p := ReadPass(old(data).value, read);
        && (p.Refused? ==> r == Return(End) && unchanged(this) && unchanged(queue))
        && (p.ReadFailed? || p.MoreData? ==>
              && r == Return(if p.MoreData? then Read else End)
              && data == Some(p.buffer) && queue.items == old(queue.items)
              && httpMethod == old(httpMethod) && uri == old(uri) && ctrl == old(ctrl)
              && receiver == old(receiver) && responses == old(responses))
        && (p.EndOfBody? && old(ctrl).None? ==>
              r == Panic(MissingCtrl) && queue.items == old(queue.items))
        && (p.EndOfBody? && old(ctrl).Some? ==>
              && r == Return(Wait)
              && receiver.Some? && fresh(receiver.value) && receiver.value.queued == []
              && queue.items == old(queue.items) + [HandleRequest(RequestToken(
                   old(httpMethod).value, old(uri).value, p.buffer, old(ctrl).value, receiver.value))]
              && httpMethod == None && uri == None && data == None && ctrl == None
              && responses == old(responses))
    {
      if data.None? {
        return Panic(MissingData);
      }
      var buf := data.value;
      var start := |buf|;
      var end := start + ReadWindow;
      if end > MaxBody + ReadWindow {
        return Return(End);
      }
      // `data.resize(end, 0)`, then the read fills the front of the new window
      buf := buf + Zeros(ReadWindow);
      var done: bool;
      match read {
        case ReadOk(Some(bytes)) =>
          buf := buf[..start] + bytes + buf[start + |bytes|..];
          if |bytes| == 0 {
            // the trim back to `start` that listener.rs omits here (see the README's findings)
            buf := buf[..start];
            done := true;
          } else {
            buf := buf[..start + |bytes|];
            done := false;
          }
        case ReadOk(None) =>
          buf := buf[..start];
          done := false;
        case ReadErr(_) =>
          data := Some(buf);
          return Return(End);
      }
      data := Some(buf);
      assert done ==> ReadPass(old(data).value, read) == EndOfBody(buf);
      if !done {
        return Return(Read);
      }

      var channel := new Channel();
      receiver := Some(channel);
      var m := httpMethod.value;
      httpMethod := None;
      var u := uri.value;
      uri := None;
      var body := data.value;
      data := None;
      if ctrl.None? {
        return Panic(MissingCtrl);
      }
      var c := ctrl.value;
      ctrl := None;
      queue.Push(HandleRequest(RequestToken(m, u, body, c, channel)));
      return Return(Wait);
    }

    /**
     * Woken by the worker: the oldest pending event must be the response head, which is
     * applied to `response`; write mode follows if more events are already pending.
     */
    method OnResponse(response: Response) returns (r: Outcome)
      requires Valid()
      modifies this`responses, if receiver.Some? then {receiver.value} else {}, response
      ensures Valid()
      ensures old(receiver).None? ==>
        r == Panic(MissingReceiver) && unchanged(this) && unchanged(response)
      ensures old(receiver).Some? ==> var m := old(Mailbox()) + old(receiver.value.queued);
        && receiver.value.queued == []
        && (m == [] ==> r == Panic(EmptyMailbox) && Mailbox() == [] && unchanged(response))
        && (m != [] ==> Mailbox() == m[1..])
        && (m != [] && m[0].Header? ==>
              && response.status == m[0].status && response.headers == m[0].headers
              && r == Return(if |m| > 1 then Write else Wait))
        && (m != [] && !m[0].Header? ==>
              r == Panic(UnexpectedResponse(m[0])) && unchanged(response))
    {
      if receiver.None? {
        return Panic(MissingReceiver);
      }
      RecvIntoResponses();
      if responses == [] {
        return Panic(EmptyMailbox);
      }
      ReversePop(responses);
      var received := responses[|responses| - 1];
      responses := responses[..|responses| - 1];
      if !received.Header? {
        return Panic(UnexpectedResponse(received));
      }
      response.status := received.status;
      response.headers := received.headers;
      if |responses| != 0 {
        r := Return(Write);
      } else {
        r := Return(Wait);
      }
    }

    /**
     * Write the payloads of the pending `Data` events to the socket in order, until a
     * `Finish` ends the response or nothing is left to write.
     */
    method OnResponseWritable(encoder: Encoder) returns (r: Outcome)
      requires Valid()
      modifies this`responses, if receiver.Some? then {receiver.value} else {}, encoder
      ensures Valid()
      ensures old(receiver).None? ==>
        r == Panic(MissingReceiver) && unchanged(this) && unchanged(encoder)
      ensures old(receiver).Some? ==>
        var d := Drain(old(Mailbox()) + old(receiver.value.queued));
        && receiver.value.queued == []
        && encoder.written == old(encoder.written) + d.bytes
        && Mailbox() == d.rest
        && r == d.outcome
    {
      if receiver.None? {
        return Panic(MissingReceiver);
      }
      RecvIntoResponses();
      r := WriteResponses(encoder);
    }

    /** The loop of `OnResponseWritable`: pop and write events until a stop or none are left. */
    method WriteResponses(encoder: Encoder) returns (r: Outcome)
      modifies this`responses, encoder
      ensures var d := Drain(old(Mailbox()));
        && encoder.written == old(encoder.written) + d.bytes
        && Mailbox() == d.rest
        && r == d.outcome
    {
      ghost var m := Mailbox();
      ghost var before := encoder.written;
      ghost var todo := m;
      while responses != []
        invariant todo == Reverse(responses)
        invariant encoder.written + Drain(todo).bytes == before + Drain(m).bytes
        invariant Drain(todo).rest == Drain(m).rest && Drain(todo).outcome == Drain(m).outcome
        decreases |responses|
      {
        ReversePop(responses);
        var received := responses[|responses| - 1];
        responses := responses[..|responses| - 1];
        ghost var d := Drain(todo);
        todo := todo[1..];
        match received {
          case Data(bytes) =>
            assert d.bytes == bytes + Drain(todo).bytes;
            encoder.Write(bytes);
          case Finish =>
            assert d == Drained([], todo, Return(End));
            return Return(End);
          case Header(_, _) =>
            assert d == Drained([], todo, Panic(UnexpectedResponse(received)));
            return Panic(UnexpectedResponse(received));
        }
      }
      assert todo == [];
      r := Return(Wait);
    }
  }
}
