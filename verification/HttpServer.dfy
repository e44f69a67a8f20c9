/** The HTTP server's handling of a connection's bytes. */
module HttpServer {
  import opened Buffer
  import opened HttpRequest
  import opened HttpContext

  /** What onMessage does to the connection. */
  datatype Action =
    | SendBadRequest
    | Respond(request: Request, close: bool)
    | Shutdown

  // "Connection", "close" and "Keep-Alive"
  const CONNECTION: Text := [67, 111, 110, 110, 101, 99, 116, 105, 111, 110]
  const CLOSE: Text := [99, 108, 111, 115, 101]
  const KEEP_ALIVE: Text := [75, 101, 101, 112, 45, 65, 108, 105, 118, 101]

  /** onRequest's choice whether the response closes the connection. */
  predicate AsksToClose(r: Request) {
    var connection := GetHeader(r, CONNECTION);
    connection == CLOSE || (r.version == Http10 && connection != KEEP_ALIVE)
  }

  /** The response as the user's callback leaves it: it may change the close flag. */
  function Answer(r: Request, decideClose: (Request, bool) -> bool): seq<Action> {
    var close := decideClose(r, AsksToClose(r));
    [Respond(r, close)] + (if close then [Shutdown] else [])
  }

  /** What is true of a connection's context before each message. */
  predicate Ready(c: Context) {
    && c.state != GotAll
    && (c.state == ExpectRequestLine ==> c.request.method_ == Invalid)
    && HeadersSpaced(c.request)
  }

  /** A ready context may be parsed in, whatever arrives. */
  lemma ReadyMeetsAsserts(c: Context, s: Text)
    requires Ready(c)
    ensures c.state != GotAll && SetMethodAsserts(c, s)
  {
  }

  /** Success without completion leaves a context that is ready for more. */
  lemma {:induction false} ParseKeepsReady(c: Context, s: Text, time: int)
    requires Ready(c) && Parse(c, s, time).ok && Parse(c, s, time).ctx.state != GotAll
    ensures Ready(Parse(c, s, time).ctx)
    decreases |s|
  {
    ParseKeepsHeadersSpaced(c, s, time);
    ParseKeepsUnset(c, s, time);
  }

  lemma {:induction false} ParseKeepsUnset(c: Context, s: Text, time: int)
    requires c.state != GotAll && (c.state == ExpectRequestLine ==> c.request.method_ == Invalid)
    requires Parse(c, s, time).ok
    ensures var d := Parse(c, s, time).ctx; d.state == ExpectRequestLine ==> d.request.method_ == Invalid
    decreases |s|
  {
    var t := Turn(c, s, time);
    if t.more {
      ParseKeepsUnset(t.ctx, t.rest, time);
    }
  }

  /**
   Because a stored header value never starts with a letter, the Connection header
   has no effect: the server closes after exactly the HTTP/1.0 requests.
   */
  lemma ClosesExactlyHttp10(c: Context, s: Text, time: int)
    requires Ready(c) && Parse(c, s, time).ok && Parse(c, s, time).ctx.state == GotAll
    ensures var r := Parse(c, s, time).ctx.request; AsksToClose(r) <==> r.version == Http10
  {
    ParseKeepsHeadersSpaced(c, s, time);
    var r := Parse(c, s, time).ctx.request;
    assert BlankOrSpaced(GetHeader(r, CONNECTION));
    assert CLOSE[0] == 99 && KEEP_ALIVE[0] == 75;
  }

  /**
   From bytes to the response: a well-formed message is answered once, with a request
   that has its parts; the callback is offered to close after HTTP/1.0 only, and the
   connection is shut down exactly if the callback leaves the flag set.
   */
  lemma MessageIsAnswered(msg: Message, body: Text, time: int, decideClose: (Request, bool) -> bool)
    requires WellFormed(msg)
    ensures var r := Parse(NEW_CONTEXT, HeaderText(msg) + body, time).ctx.request;
            && Represents(r, msg, body)
            && Answer(r, decideClose)
               == (if decideClose(r, msg.version == Http10) then [Respond(r, true), Shutdown] else [Respond(r, false)])
  {
    MessageIsParsed(msg, body, time);
    ClosesExactlyHttp10(NEW_CONTEXT, HeaderText(msg) + body, time);
  }

  class HttpServer {
    // what was done on the connection, in order
    var actions: seq<Action>

    constructor ()
      ensures actions == []
    {
      actions := [];
    }

    /**
     Parses what has arrived; answers and resets the context when the request is
     complete, refuses it when the request line is bad.  The parser is never left
     in its final state.  An arrival after a refusal is taken as long as the source's
     assertion on the method holds.
     */
    method OnMessage(context: HttpContext, buf: Buffer, receiveTime: int, decideClose: (Request, bool) -> bool)
      requires buf.Valid() && context.state != GotAll && SetMethodAsserts(context.View(), buf.Contents())
      modifies this, context, buf`readerIndex, buf`writerIndex
      ensures buf.Valid() && context.state != GotAll
      ensures var o := Parse(old(context.View()), old(buf.Contents()), receiveTime);
              && buf.Contents() == o.rest
              && (if !o.ok then
                    actions == old(actions) + [SendBadRequest, Shutdown] && context.View() == o.ctx
                  else if o.ctx.state == GotAll then
                    actions == old(actions) + Answer(o.ctx.request, decideClose) && context.View() == NEW_CONTEXT
                  else
                    actions == old(actions) && context.View() == o.ctx)
              && (Ready(old(context.View())) && o.ok ==> Ready(context.View()))
    {
      ghost var c, s := context.View(), buf.Contents();
      var ok := context.ParseRequest(buf, receiveTime);
      if !ok {
        RefusedLineTripsIff(c, s, receiveTime, []);
        actions := actions + [SendBadRequest];
        actions := actions + [Shutdown];
      } else if context.state != GotAll && Ready(c) {
        ParseKeepsReady(c, s, receiveTime);
      }
      if context.state == GotAll {
        OnRequest(context.request, decideClose);
        context.Reset();
      }
    }

    method OnRequest(request: Request, decideClose: (Request, bool) -> bool)
      modifies this
      ensures actions == old(actions) + Answer(request, decideClose)
    {
      var connection := GetHeader(request, CONNECTION);
      var close := connection == CLOSE || (request.version == Http10 && connection != KEEP_ALIVE);
      close := decideClose(request, close);
      actions := actions + [Respond(request, close)];
      if close {
        actions := actions + [Shutdown];
      }
    }
  }
}
