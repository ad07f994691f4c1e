/**
 * The worker side of one request: decode the request target, hand the request to the
 * application, and turn the application's responder calls into one completion of the token.
 * The responder is a two-stage protocol: `Start` consumes the initial capability and yields a
 * body responder, `Send` appends a chunk, and `Finish` consumes the body responder.
 */
module Worker {
  import opened Outcomes
  import opened Seqs
  import opened Http

  /** The sending half of a token's response channel, identified by its channel. */
  datatype Sender = Sender(channel: nat)

  /** The token as worker.rs declares it: the request target and the ways to answer it. */
  datatype RequestToken = RequestToken(uri: RequestUri, ctrl: Control, sender: Sender)

  /** The request handed to the application. */
  datatype Request = Request(path: string)

  /** The response head the application passes to `start`. */
  datatype Header = Header(status: StatusCode, headers: Headers)

  /** What the worker does to the outside world, in order. */
  datatype Effect =
    | Sent(on: Sender, message: seq<Byte>)
    | Signalled(ctrl: Control, interest: Next)

  /** A request target the worker cannot serve. */
  datatype DecodeError = UnsupportedUri(uri: RequestUri)

  /** An application's answer to a request: the head it starts with and the chunks it sends. */
  datatype Reply = Reply(header: Header, chunks: seq<seq<Byte>>)

  /** `RequestToken::complete`: the whole body as one message, then a write wake-up. */
  function Complete(token: RequestToken, data: seq<Byte>): (effects: seq<Effect>)
    ensures |effects| == 2
    ensures effects[0] == Sent(token.sender, data)
    ensures effects[1] == Signalled(token.ctrl, Write)
  {
    [Sent(token.sender, data), Signalled(token.ctrl, Write)]
  }

  /** Only an absolute-path target yields a request, whose path is that target's path. */
  function DecodeRequest(token: RequestToken): (r: Result<Request, DecodeError>)
    ensures r.Ok? <==> token.uri.AbsolutePath?
    ensures r.Ok? ==> r.value.path == token.uri.path
    ensures r.Err? ==> r.error == UnsupportedUri(token.uri)
  {
    match token.uri
    case AbsolutePath(path) => Ok(Request(path))
    case _ => Err(UnsupportedUri(token.uri))
  }

  /** The first-stage capability the application receives. */
  datatype CwResponder = CwResponder(token: RequestToken)

  /** The second-stage capability: the token and the body gathered so far. */
  class CwBodyResponder {
    const token: RequestToken
    var data: seq<Byte>
    /** Set once `Finish` has consumed this responder; nothing may use it afterwards. */
    ghost var finished: bool

    /** `CwResponder::start`: keep the token, start an empty body; the header is dropped. */
    constructor Start(responder: CwResponder, header: Header)
      ensures token == responder.token && data == [] && !finished
    {
      token := responder.token;
      data := [];
      finished := false;
    }

    /** Append a chunk to the body; nothing else changes. */
    method Send(chunk: seq<Byte>)
      requires !finished
      modifies this`data
      ensures data == old(data) + chunk
    {
      data := data + chunk;
    }

    /**
     * Complete the token once with the gathered body: one message on its sender, then a
     * write wake-up on its control, in that order.
     */
    method Finish() returns (effects: seq<Effect>)
      requires !finished
      modifies this`finished
      ensures finished
      ensures effects == Complete(token, data)
    {
      finished := true;
      effects := Complete(token, data);
    }
  }

  /**
   * An application that starts with `header`, sends `chunks` and finishes: the token is
   * completed exactly once, with every chunk in call order.
   */
  method Respond(responder: CwResponder, header: Header, chunks: seq<seq<Byte>>)
    returns (effects: seq<Effect>)
    ensures effects == [Sent(responder.token.sender, Concat(chunks)), Signalled(responder.token.ctrl, Write)]
  {
    var body := new CwBodyResponder.Start(responder, header);
    var i := 0;
    while i < |chunks|
      invariant 0 <= i <= |chunks|
      invariant body.token == responder.token && !body.finished
      invariant body.data == Concat(chunks[..i])
    {
      ConcatSnoc(chunks[..i], chunks[i]);
      assert chunks[..i + 1] == chunks[..i] + [chunks[i]];
      body.Send(chunks[i]);
      i := i + 1;
    }
    assert chunks[..i] == chunks;
    effects := body.Finish();
  }

  /**
   * `handle_request`: decode the target, then run the application `app` on the request.
   * A target other than an absolute path is refused before the application runs.
   */
  method HandleRequest(token: RequestToken, app: Request -> Reply)
    returns (outcome: Result<seq<Effect>, DecodeError>)
    ensures outcome.Err? <==> !token.uri.AbsolutePath?
    ensures outcome.Err? ==> outcome.error == UnsupportedUri(token.uri)
    ensures outcome.Ok? ==>
      var reply := app(Request(token.uri.path));
      outcome.value == [Sent(token.sender, Concat(reply.chunks)), Signalled(token.ctrl, Write)]
  {
    var decoded := DecodeRequest(token);
    if decoded.Err? {
      return Err(decoded.error);
    }
    var reply := app(decoded.value);
    var effects := Respond(CwResponder(token), reply.header, reply.chunks);
    return Ok(effects);
  }
}
