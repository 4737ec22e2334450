/** The server side of one browser WebSocket as the gateway uses it (accept, close, send_text,
    receive_text), and the registry of accepted sockets. The registry's own source is not part
    of this model: connect is taken to accept the socket and record it, disconnect to forget it. */
module Sockets {
  import opened Wrappers

  class WebSocket {
    /** Whether the handshake was accepted. */
    var accepted: bool
    /** The close code and reason, once the server closed the socket. */
    var closed: Option<(int, string)>
    /** Every text frame sent to the client, oldest first. */
    var sent: seq<string>
    /** Text frames the client has sent and the server has not yet received. */
    var inbox: seq<string>

    constructor(inbox: seq<string>)
      ensures !accepted && closed.None? && sent == [] && this.inbox == inbox
    {
      accepted := false;
      closed := None;
      sent := [];
      this.inbox := inbox;
    }

    method SendText(text: string)
      modifies this
      ensures sent == old(sent) + [text]
      ensures accepted == old(accepted) && closed == old(closed) && inbox == old(inbox)
    {
      sent := sent + [text];
    }

    method Close(code: int, reason: string)
      modifies this
      ensures closed == Some((code, reason))
      ensures accepted == old(accepted) && sent == old(sent) && inbox == old(inbox)
    {
      closed := Some((code, reason));
    }

    method Accept()
      modifies this
      ensures accepted
      ensures closed == old(closed) && sent == old(sent) && inbox == old(inbox)
    {
      accepted := true;
    }

    /** receive_text(): the next client frame, or None when the client has gone
        (WebSocketDisconnect). */
    method ReceiveText() returns (text: Option<string>)
      modifies this
      ensures old(inbox) == [] ==> text.None? && inbox == []
      ensures old(inbox) != [] ==> text == Some(old(inbox)[0]) && inbox == old(inbox)[1..]
      ensures accepted == old(accepted) && closed == old(closed) && sent == old(sent)
    {
      if inbox == [] {
        text := None;
      } else {
        text := Some(inbox[0]);
        inbox := inbox[1..];
      }
    }
  }

  class ConnectionManager {
    var active: seq<WebSocket>

    constructor()
      ensures active == []
    {
      active := [];
    }

    /** connect(websocket): accept the handshake and register the socket. */
    method Connect(ws: WebSocket)
      modifies this, ws
      ensures active == old(active) + [ws]
      ensures ws.accepted && ws.closed == old(ws.closed) && ws.sent == old(ws.sent) && ws.inbox == old(ws.inbox)
    {
      ws.Accept();
      active := active + [ws];
    }

    /** disconnect(websocket): forget every registration of the socket, keeping the others in order. */
    method Disconnect(ws: WebSocket)
      modifies this
      ensures active == Without(old(active), ws)
    {
      var xs := active;
      var kept: seq<WebSocket> := [];
      var i := 0;
      while i < |xs|
        invariant 0 <= i <= |xs|
        invariant kept == Without(xs[..i], ws)
      {
        assert xs[..i + 1] == xs[..i] + [xs[i]];
        WithoutConcat(xs[..i], [xs[i]], ws);
        assert Without([xs[i]], ws) == if xs[i] == ws then [] else [xs[i]];
        if xs[i] != ws {
          kept := kept + [xs[i]];
        }
        i := i + 1;
      }
      assert xs[..i] == xs;
      active := kept;
    }
  }

  /** The sockets of xs other than ws, in order. */
  function Without(xs: seq<WebSocket>, ws: WebSocket): (r: seq<WebSocket>)
    ensures ws !in r
    ensures forall i :: 0 <= i < |r| ==> r[i] in xs
    ensures forall i :: 0 <= i < |xs| && xs[i] != ws ==> xs[i] in r
  {
    if xs == [] then []
    else (if xs[0] == ws then [] else [xs[0]]) + Without(xs[1..], ws)
  }

  lemma {:induction false} WithoutConcat(a: seq<WebSocket>, b: seq<WebSocket>, ws: WebSocket)
    ensures Without(a + b, ws) == Without(a, ws) + Without(b, ws)
  {
    if a == [] {
      assert a + b == b;
    } else {
      var h := if a[0] == ws then [] else [a[0]];
      assert (a + b)[0] == a[0] && (a + b)[1..] == a[1..] + b;
      assert Without(a + b, ws) == h + Without(a[1..] + b, ws);
      WithoutConcat(a[1..], b, ws);
      AppendAssoc(h, Without(a[1..], ws), Without(b, ws));
    }
  }

  lemma AppendAssoc<T>(a: seq<T>, b: seq<T>, c: seq<T>)
    ensures (a + b) + c == a + (b + c)
  {
  }
}
