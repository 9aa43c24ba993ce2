/** The server side of the channel (src/pages/api/socket.ts): the API route
    that attaches a socket.io server to the HTTP server at most once, and the
    per-connection handlers that answer every `send-message` with one
    `receive-message` on the same connection.

    The socket.io server is foreign code: a server instance is an opaque id
    (the n-th instance created is id n), a registered listener is a count, and
    what a connection emits is a sequence of payloads. */
module SocketServer {
  import opened Messages

  type ServerId = nat

  /** The state the route handler touches: the `io` property of the HTTP server,
      how many socket.io servers were constructed, and how many `connection`
      listeners were registered on them. */
  datatype ServerState = ServerState(io: Option<ServerId>, serversCreated: nat, connectionListeners: nat)

  /** The HTTP server before the first request to the route. */
  const Unattached: ServerState := ServerState(None, 0, 0)

  /** Which branch of the route handler ran. */
  datatype Path = AlreadyRunning | Started

  datatype HandlerResult = HandlerResult(state: ServerState, path: Path)

  /** The route's invariant from the unattached start: either nothing exists yet,
      or exactly one server (the first) is stored in `io` with exactly one
      `connection` listener. */
  ghost predicate Attached(s: ServerState) {
    (s.io.None? && s.serversCreated == 0 && s.connectionListeners == 0) ||
    (s.io == Some(0) && s.serversCreated == 1 && s.connectionListeners == 1)
  }

  /** SocketHandler: when a server is already attached it creates and registers
      nothing; otherwise it creates one server, stores it, and registers one
      `connection` listener on it. */
  function HandlerStep(s: ServerState): (r: HandlerResult)
    ensures r.state.io.Some?
    ensures s.io.Some? ==> r == HandlerResult(s, AlreadyRunning)
    ensures s.io.None? ==>
              r.path == Started &&
              r.state.io == Some(s.serversCreated) &&
              r.state.serversCreated == s.serversCreated + 1 &&
              r.state.connectionListeners == s.connectionListeners + 1
    ensures Attached(s) ==> Attached(r.state)
  {
    if s.io.Some? then HandlerResult(s, AlreadyRunning)
    else HandlerResult(ServerState(Some(s.serversCreated), s.serversCreated + 1, s.connectionListeners + 1), Started)
  }

  /** `n` requests to the route: the final state and the branch each one took. */
  function HandleRequests(s: ServerState, n: nat): (ServerState, seq<Path>)
    decreases n
  {
    if n == 0 then (s, [])
    else
      var first := HandlerStep(s);
      var rest := HandleRequests(first.state, n - 1);
      (rest.0, [first.path] + rest.1)
  }

  lemma {:induction false} RequestsWhenRunning(s: ServerState, n: nat)
    requires s.io.Some?
    ensures HandleRequests(s, n) == (s, Repeat(AlreadyRunning, n))
    decreases n
  {
    if n > 0 {
      RequestsWhenRunning(s, n - 1);
    }
  }

  /** Bootstrapping is idempotent: after any number of requests to the route,
      exactly one server exists, it is stored in `io`, exactly one `connection`
      listener is registered, and every request after the first took the early
      return. */
  lemma {:induction false} RepeatedBootstrap(n: nat)
    requires n > 0
    ensures HandleRequests(Unattached, n) ==
      (ServerState(Some(0), 1, 1), [Started] + Repeat(AlreadyRunning, n - 1))
  {
    RequestsWhenRunning(HandlerStep(Unattached).state, n - 1);
  }

  const ReplyPrefix: string := "Thanks for your message: \""
  const ReplySuffix: string := "\""

  /** The bot message built for an inbound message at clock reading `now`
      (milliseconds): the id is the reading in decimal, the timestamp the
      reading itself. */
  function Reply(m: Message, now: nat): (r: Message)
    ensures r.sender == Bot && r.timestamp == now && r.id == DecimalString(now)
    ensures |r.content| == |m.content| + |ReplyPrefix| + |ReplySuffix|
  {
    Message(DecimalString(now), ReplyPrefix + m.content + ReplySuffix, Bot, now)
  }

  /** Recovers the quoted text from a reply's content, if it has the reply's shape. */
  function Unquote(c: string): Option<string> {
    var p, q := |ReplyPrefix|, |ReplySuffix|;
    if |c| >= p + q && c[..p] == ReplyPrefix && c[|c| - q..] == ReplySuffix
    then Some(c[p..|c| - q])
    else None
  }

  /** The reply quotes the inbound content verbatim, between the fixed template. */
  lemma ReplyQuotesContent(m: Message, now: nat)
    ensures Unquote(Reply(m, now).content) == Some(m.content)
  {
    var c := Reply(m, now).content;
    var p, q := |ReplyPrefix|, |ReplySuffix|;
    assert c == ReplyPrefix + m.content + ReplySuffix;
    assert c[..p] == ReplyPrefix;
    assert c[|c| - q..] == ReplySuffix;
    assert c[p..|c| - q] == m.content;
  }

  /** The reply depends on the inbound content and the clock only: id, sender
      and timestamp of the inbound message are ignored. */
  lemma ReplyIgnoresOtherFields(m1: Message, m2: Message, now: nat)
    requires m1.content == m2.content
    ensures Reply(m1, now) == Reply(m2, now)
  {
  }

  /** Different inbound contents give different reply contents. */
  lemma ReplyContentInjective(m1: Message, m2: Message, t1: nat, t2: nat)
    requires Reply(m1, t1).content == Reply(m2, t2).content
    ensures m1.content == m2.content
  {
    ReplyQuotesContent(m1, t1);
    ReplyQuotesContent(m2, t2);
  }

  /** A `send-message` as it reached a connection, with the clock reading its
      handler took. */
  datatype Inbound = Inbound(message: Message, now: nat)

  /** The replies owed for a sequence of inbound messages, in arrival order. */
  function Replies(xs: seq<Inbound>): (r: seq<Message>)
    ensures |r| == |xs|
    ensures forall i :: 0 <= i < |xs| ==> r[i] == Reply(xs[i].message, xs[i].now)
  {
    if xs == [] then []
    else Replies(xs[..|xs| - 1]) + [Reply(xs[|xs| - 1].message, xs[|xs| - 1].now)]
  }

  /** The response object of the route: only whether and how often it was ended matters. */
  class Response {
    var endCalls: nat

    constructor ()
      ensures endCalls == 0
    {
      endCalls := 0;
    }

    method End()
      modifies this
      ensures endCalls == old(endCalls) + 1
    {
      endCalls := endCalls + 1;
    }
  }

  /** The HTTP server object shared by every request (`res.socket.server`). */
  class HttpServer {
    var io: Option<ServerId>
    var serversCreated: nat
    var connectionListeners: nat

    function State(): ServerState
      reads this
    {
      ServerState(io, serversCreated, connectionListeners)
    }

    ghost predicate Valid()
      reads this
    {
      Attached(State())
    }

    constructor ()
      ensures Valid() && State() == Unattached
    {
      io, serversCreated, connectionListeners := None, 0, 0;
    }

    /** The route handler: attach a socket.io server unless one is attached, and
        end the response exactly once on either path. */
    method SocketHandler(res: Response) returns (path: Path)
      requires Valid()
      modifies this, res
      ensures Valid()
      ensures HandlerResult(State(), path) == HandlerStep(old(State()))
      ensures res.endCalls == old(res.endCalls) + 1
    {
      if io.Some? {
        res.End();
        return AlreadyRunning;
      }
      io := Some(serversCreated);
      serversCreated := serversCreated + 1;
      connectionListeners := connectionListeners + 1;
      res.End();
      path := Started;
    }
  }

  /** One accepted client connection, as the `connection` callback sets it up.
      Every `send-message` builds its reply at once and schedules the emit one
      second later; the timers all have the same delay, so they fire in the
      order they were set, and `pending` is that FIFO queue. */
  class Connection {
    const id: nat   // `socket.id`: the route only writes it to the log
    ghost var inbound: seq<Inbound>
    var emitted: seq<Message>   // `receive-message` payloads emitted on this connection
    var pending: seq<Message>   // replies whose timer has not fired yet

    /** Every inbound message is owed exactly one reply; the replies emitted
        so far followed by those still waiting are those replies, in order. */
    ghost predicate Valid()
      reads this
    {
      emitted + pending == Replies(inbound)
    }

    /** The `connection` callback: registers the `send-message` and
        `disconnect` listeners on a new connection. */
    constructor (id: nat)
      ensures Valid() && this.id == id
      ensures inbound == [] && emitted == [] && pending == []
    {
      this.id := id;
      inbound, emitted, pending := [], [], [];
    }

    /** The `send-message` listener: builds the bot reply now and schedules its emit. */
    method OnSendMessage(m: Message, now: nat)
      requires Valid()
      modifies this
      ensures Valid()
      ensures inbound == old(inbound) + [Inbound(m, now)]
      ensures emitted == old(emitted)
      ensures pending == old(pending) + [Reply(m, now)]
    {
      var reply := Reply(m, now);
      inbound := inbound + [Inbound(m, now)];
      pending := pending + [reply];
      assert Replies(inbound)[..|inbound| - 1] == Replies(old(inbound));
    }

    /** The oldest pending timer fires: its reply is emitted on this connection. */
    method OnTimer()
      requires Valid() && pending != []
      modifies this
      ensures Valid()
      ensures inbound == old(inbound)
      ensures emitted == old(emitted) + [old(pending)[0]]
      ensures pending == old(pending)[1..]
    {
      emitted := emitted + [pending[0]];
      pending := pending[1..];
    }

    /** The `disconnect` listener only logs; it changes no state. */
    method OnDisconnect()
      requires Valid()
      ensures Valid()
      ensures inbound == old(inbound) && emitted == old(emitted) && pending == old(pending)
    {
    }

    /** Once every timer has fired, the connection has emitted exactly one reply
        per inbound message, in arrival order. */
    lemma AllDelivered()
      requires Valid() && pending == []
      ensures |emitted| == |inbound|
      ensures forall i :: 0 <= i < |inbound| ==> emitted[i] == Reply(inbound[i].message, inbound[i].now)
    {
      assert emitted == emitted + pending;
    }
  }
}
