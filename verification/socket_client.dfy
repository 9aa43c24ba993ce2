/** The browser side of the channel (src/lib/socket.ts): one module-level,
    nullable socket.io connection shared by the whole page, opened lazily,
    torn down on request, and used to emit `send-message` events.

    The socket.io client is foreign code, so a connection is an opaque handle:
    the n-th connection the page opens is handle n. What the library does with a
    handle is recorded as an event in `log`. */
module SocketClient {
  import opened Messages

  type Handle = nat

  /** The one event name the client emits. */
  const SendMessageEvent: string := "send-message"

  datatype ClientEvent =
    | Opened(handle: Handle)                                  // io(...) created a connection
    | Emitted(handle: Handle, event: string, payload: Message) // socket.emit(event, payload)
    | Closed(handle: Handle)                                  // socket.disconnect()

  /** The module's state: the `socket` variable, how many connections were ever
      opened, and what was done with them. */
  datatype ClientState = ClientState(socket: Option<Handle>, created: nat, log: seq<ClientEvent>)

  /** The state when the page loads: `socket` is null. */
  const Initial: ClientState := ClientState(None, 0, [])

  /** Connections opened in `log` and not closed since. */
  function Live(log: seq<ClientEvent>): set<Handle> {
    if log == [] then {}
    else
      var earlier := Live(log[..|log| - 1]);
      match log[|log| - 1]
      case Opened(h) => earlier + {h}
      case Closed(h) => earlier - {h}
      case Emitted(_, _, _) => earlier
  }

  /** The invariant of the module: the connections left open are exactly the one
      `socket` holds (at most one live connection per page), and every handle
      the log mentions was opened before. */
  ghost predicate WellFormed(s: ClientState) {
    Live(s.log) == (if s.socket.Some? then {s.socket.value} else {}) &&
    (s.socket.Some? ==> s.socket.value < s.created) &&
    forall i :: 0 <= i < |s.log| ==> s.log[i].handle < s.created
  }

  lemma InitialWellFormed()
    ensures WellFormed(Initial)
  {
  }

  datatype InitResult = InitResult(state: ClientState, handle: Handle)

  /** initSocket: opens a connection only when `socket` is null, and returns the
      connection `socket` then holds. */
  function InitStep(s: ClientState): (r: InitResult)
    ensures r.state.socket == Some(r.handle)
    ensures s.socket.Some? ==> r.state == s && r.handle == s.socket.value
    ensures s.socket.None? ==>
      r.state.created == s.created + 1 && r.state.log == s.log + [Opened(r.handle)]
    ensures WellFormed(s) && s.socket.None? ==>
      forall i :: 0 <= i < |s.log| ==> s.log[i].handle != r.handle
  {
    match s.socket
    case Some(h) => InitResult(s, h)
    case None => InitResult(ClientState(Some(s.created), s.created + 1, s.log + [Opened(s.created)]), s.created)
  }

  /** disconnectSocket: closes the held connection, if any, and clears `socket`. */
  function DisconnectStep(s: ClientState): (r: ClientState)
    ensures r.socket == None && r.created == s.created
    ensures s.socket.None? ==> r == s
    ensures s.socket.Some? ==> r.log == s.log + [Closed(s.socket.value)]
  {
    match s.socket
    case Some(h) => ClientState(None, s.created, s.log + [Closed(h)])
    case None => s
  }

  /** sendMessage: emits `send-message` with the message unchanged on the held
      connection; with no connection it does nothing and does not fail. */
  function SendStep(s: ClientState, m: Message): (r: ClientState)
    ensures r.socket == s.socket && r.created == s.created
    ensures s.socket.None? ==> r == s
    ensures s.socket.Some? ==> r.log == s.log + [Emitted(s.socket.value, SendMessageEvent, m)]
  {
    match s.socket
    case Some(h) => ClientState(s.socket, s.created, s.log + [Emitted(h, SendMessageEvent, m)])
    case None => s
  }

  lemma LiveAppend(log: seq<ClientEvent>, e: ClientEvent)
    ensures e.Opened? ==> Live(log + [e]) == Live(log) + {e.handle}
    ensures e.Closed? ==> Live(log + [e]) == Live(log) - {e.handle}
    ensures e.Emitted? ==> Live(log + [e]) == Live(log)
  {
    assert (log + [e])[..|log|] == log;
  }

  lemma InitPreserves(s: ClientState)
    requires WellFormed(s)
    ensures WellFormed(InitStep(s).state)
  {
    if s.socket.None? {
      LiveAppend(s.log, Opened(s.created));
    }
  }

  lemma DisconnectPreserves(s: ClientState)
    requires WellFormed(s)
    ensures WellFormed(DisconnectStep(s))
  {
    if s.socket.Some? {
      LiveAppend(s.log, Closed(s.socket.value));
      var t := DisconnectStep(s);
      forall i | 0 <= i < |t.log| ensures t.log[i].handle < t.created {
        if i < |s.log| { assert t.log[i] == s.log[i]; }
      }
    }
  }

  lemma SendPreserves(s: ClientState, m: Message)
    requires WellFormed(s)
    ensures WellFormed(SendStep(s, m))
  {
    if s.socket.Some? {
      LiveAppend(s.log, Emitted(s.socket.value, SendMessageEvent, m));
      var t := SendStep(s, m);
      forall i | 0 <= i < |t.log| ensures t.log[i].handle < t.created {
        if i < |s.log| { assert t.log[i] == s.log[i]; }
      }
    }
  }

  /** `n` consecutive calls of initSocket: the final state and the handles returned. */
  function InitRepeated(s: ClientState, n: nat): (ClientState, seq<Handle>)
    decreases n
  {
    if n == 0 then (s, [])
    else
      var first := InitStep(s);
      var rest := InitRepeated(first.state, n - 1);
      (rest.0, [first.handle] + rest.1)
  }

  lemma {:induction false} InitRepeatedWhenHeld(s: ClientState, n: nat)
    requires s.socket.Some?
    ensures InitRepeated(s, n) == (s, Repeat(s.socket.value, n))
    decreases n
  {
    if n > 0 {
      InitRepeatedWhenHeld(s, n - 1);
    }
  }

  /** initSocket is idempotent: any number of consecutive calls leaves the state a
      single call leaves (so at most one connection is opened) and returns the same
      handle every time. */
  lemma {:induction false} InitIdempotent(s: ClientState, n: nat)
    requires n > 0
    ensures InitRepeated(s, n).0 == InitStep(s).state
    ensures InitRepeated(s, n).1 == Repeat(InitStep(s).handle, n)
    ensures InitRepeated(s, n).0.created <= s.created + 1
  {
    InitRepeatedWhenHeld(InitStep(s).state, n - 1);
  }

  /** Disconnecting and connecting again yields a handle that is new: it differs
      from the one just closed and nothing in the log was ever done on it. */
  lemma ReconnectIsFresh(s: ClientState)
    requires WellFormed(s) && s.socket.Some?
    ensures var r := InitStep(DisconnectStep(s));
      r.handle != s.socket.value &&
      r.state.created == s.created + 1 &&
      forall i :: 0 <= i < |DisconnectStep(s).log| ==> DisconnectStep(s).log[i].handle != r.handle
  {
    DisconnectPreserves(s);
  }

  /** The module-level `socket` variable with its history, as a mutable object. */
  class Client {
    var socket: Option<Handle>
    var created: nat
    var log: seq<ClientEvent>

    function State(): ClientState
      reads this
    {
      ClientState(socket, created, log)
    }

    ghost predicate Valid()
      reads this
    {
      WellFormed(State())
    }

    /** The module as loaded: `let socket = null`. */
    constructor ()
      ensures Valid() && State() == Initial
    {
      socket, created, log := None, 0, [];
      InitialWellFormed();
    }

    method InitSocket() returns (h: Handle)
      requires Valid()
      modifies this
      ensures Valid()
      ensures InitResult(State(), h) == InitStep(old(State()))
    {
      InitPreserves(State());
      if socket.None? {
        socket := Some(created);
        log := log + [Opened(created)];
        created := created + 1;
      }
      h := socket.value;
    }

    method DisconnectSocket()
      requires Valid()
      modifies this
      ensures Valid()
      ensures State() == DisconnectStep(old(State()))
    {
      DisconnectPreserves(State());
      if socket.Some? {
        log := log + [Closed(socket.value)];
        socket := None;
      }
    }

    method SendMessage(m: Message)
      requires Valid()
      modifies this
      ensures Valid()
      ensures State() == SendStep(old(State()), m)
    {
      SendPreserves(State(), m);
      if socket.Some? {
        log := log + [Emitted(socket.value, SendMessageEvent, m)];
      }
    }
  }
}
