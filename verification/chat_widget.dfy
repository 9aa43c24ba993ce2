/** The conversation state of the chat widget (src/components/ChatWidget.tsx):
    the message list, the text field, the `receive-message` listener that the
    open effect registers on the shared connection and its cleanup removes,
    and the send path through the client module.

    Rendering is left out; the component's state and its event handlers are
    modelled as a state value with one step function per handler, and as a
    class whose methods are proved to take those steps. */
module Widget {
  import opened Messages
  import opened SocketClient
  import SocketServer

  /** The characters JavaScript's `String.prototype.trim` removes: the
      ECMAScript WhiteSpace set (tab, vertical tab, form feed, space, no-break
      space, the byte order mark and the other space separators) and the
      LineTerminator set (line feed, carriage return, line and paragraph
      separators). */
  predicate IsJsWhitespace(c: char) {
    c == '\t' || c == '\n' || c == '\U{0B}' || c == '\U{0C}' || c == '\r' ||
    c == ' ' || c == '\U{A0}' || c == '\U{1680}' ||
    ('\U{2000}' <= c <= '\U{200A}') ||
    c == '\U{2028}' || c == '\U{2029}' || c == '\U{202F}' || c == '\U{205F}' ||
    c == '\U{3000}' || c == '\U{FEFF}'
  }

  predicate AllWhitespace(s: string) {
    forall i :: 0 <= i < |s| ==> IsJsWhitespace(s[i])
  }

  /** `s` without its leading whitespace. */
  function TrimStart(s: string): (r: string)
    ensures |r| <= |s| && r == s[|s| - |r|..]
    ensures forall i :: 0 <= i < |s| - |r| ==> IsJsWhitespace(s[i])
    ensures r == [] || !IsJsWhitespace(r[0])
  {
    if s != [] && IsJsWhitespace(s[0]) then TrimStart(s[1..]) else s
  }

  /** `s` without its trailing whitespace. */
  function TrimEnd(s: string): (r: string)
    ensures |r| <= |s| && r == s[..|r|]
    ensures forall i :: |r| <= i < |s| ==> IsJsWhitespace(s[i])
    ensures r == [] || !IsJsWhitespace(r[|r| - 1])
  {
    if s != [] && IsJsWhitespace(s[|s| - 1]) then TrimEnd(s[..|s| - 1]) else s
  }

  /** `s.trim()`: a slice of `s` (`TrimIsSlice`) that neither starts nor ends
      with whitespace. */
  function Trim(s: string): (r: string)
    ensures |r| <= |s|
    ensures r == [] || (!IsJsWhitespace(r[0]) && !IsJsWhitespace(r[|r| - 1]))
  {
    var t := TrimStart(s);
    var r := TrimEnd(t);
    assert r != [] ==> r[0] == t[0];
    r
  }

  /** `s.trim()` removes exactly the leading and the trailing whitespace: the
      result is the piece of `s` from `k` on, and everything of `s` before
      and after that piece is whitespace. */
  lemma {:induction false} TrimIsSlice(s: string)
    ensures var r := Trim(s); var k := |s| - |TrimStart(s)|;
      k + |r| <= |s| &&
      (forall i :: 0 <= i < |r| ==> r[i] == s[k + i]) &&
      (forall i :: 0 <= i < k ==> IsJsWhitespace(s[i])) &&
      (forall i :: k + |r| <= i < |s| ==> IsJsWhitespace(s[i]))
  {
    var t := TrimStart(s);
    var r := TrimEnd(t);
    assert Trim(s) == r;
    SplitAround(s, t, r);
  }

  /** `r`, a prefix of the suffix `t` of `s`, sits in `s` where `t` starts,
      and what follows it in `s` is what follows it in `t`. */
  lemma {:induction false} SplitAround(s: string, t: string, r: string)
    requires |t| <= |s| && t == s[|s| - |t|..] && |r| <= |t| && r == t[..|r|]
    requires forall j :: |r| <= j < |t| ==> IsJsWhitespace(t[j])
    ensures var k := |s| - |t|;
      (forall i :: 0 <= i < |r| ==> r[i] == s[k + i]) &&
      (forall i :: k + |r| <= i < |s| ==> IsJsWhitespace(s[i]))
  {
    var k := |s| - |t|;
    forall i | 0 <= i < |r|
      ensures r[i] == s[k + i]
    {
      assert r[i] == t[i];
    }
    forall i | k + |r| <= i < |s|
      ensures IsJsWhitespace(s[i])
    {
      assert s[i] == t[i - k];
    }
  }

  lemma {:induction false} BlankTrimsAway(s: string)
    requires AllWhitespace(s)
    ensures TrimStart(s) == []
  {
    if s != [] {
      BlankTrimsAway(s[1..]);
    }
  }

  /** `input.trim() === ''` holds exactly for the inputs made of whitespace only
      (the empty input among them). */
  lemma TrimEmptyIffBlank(s: string)
    ensures Trim(s) == [] <==> AllWhitespace(s)
  {
    if AllWhitespace(s) {
      BlankTrimsAway(s);
    }
    var t := TrimStart(s);
    if Trim(s) == [] {
      assert t[0..] == t;
      assert t == [];
      assert s[..|s|] == s;
    }
  }

  /** The send button's enabling condition: `disabled={input.trim() === ''}`. */
  predicate SendEnabled(input: string)
    ensures SendEnabled(input) <==> !AllWhitespace(input)
  {
    TrimEmptyIffBlank(input);
    Trim(input) != []
  }

  /** The key handler sends on Enter without Shift, and on nothing else. */
  predicate TriggersSend(key: string, shiftKey: bool)
    ensures shiftKey ==> !TriggersSend(key, shiftKey)
    ensures key != "Enter" ==> !TriggersSend(key, shiftKey)
  {
    key == "Enter" && !shiftKey
  }

  const WelcomeId: string := "welcome"
  const WelcomeText: string := "Hello! How can I help you today?"

  /** The greeting the open effect seeds the list with. */
  function WelcomeMessage(now: nat): (m: Message)
    ensures m.id == WelcomeId && m.sender == Bot && m.content == WelcomeText && m.timestamp == now
  {
    Message(WelcomeId, WelcomeText, Bot, now)
  }

  /** The message `handleSend` builds from the text field at clock reading `now`:
      the content is the input as typed, not trimmed. */
  function UserMessage(input: string, now: nat): (m: Message)
    ensures m.content == input && m.sender == User && m.timestamp == now && m.id == DecimalString(now)
  {
    Message(DecimalString(now), input, User, now)
  }

  /** The component's state and the client module's state it drives:
      `socketRef` is `socket.current`, and `receiveListeners` counts the
      `receive-message` listeners registered on it. */
  datatype WidgetState = WidgetState(
    isOpen: bool,
    messages: seq<Message>,
    input: string,
    socketRef: Option<Handle>,
    receiveListeners: nat,
    client: ClientState)

  /** The component as first rendered (closed, as the page renders it), over
      whatever state the client module is in. */
  function Mounted(client: ClientState): WidgetState {
    WidgetState(false, [], "", None, 0, client)
  }

  /** The invariant the open effect and its cleanup keep: one `receive-message`
      listener while open, none while closed, `socket.current` the client
      module's connection while open, and a well-formed client. */
  ghost predicate Consistent(w: WidgetState) {
    w.receiveListeners == (if w.isOpen then 1 else 0) &&
    (w.isOpen ==> w.socketRef.Some? && w.socketRef == w.client.socket) &&
    WellFormed(w.client)
  }

  /** A change of `isOpen`: React runs the cleanup of the previous effect run
      (remove every `receive-message` listener from `socket.current`, if set),
      then the effect; opening connects, seeds the welcome message and
      registers one listener. An unchanged `isOpen` runs nothing. */
  function SetOpenStep(w: WidgetState, open: bool, now: nat): (r: WidgetState)
    ensures r.isOpen == open && r.input == w.input
    ensures open == w.isOpen ==> r == w
    ensures open && !w.isOpen ==>
              r.messages == [WelcomeMessage(now)] &&
              r.client == InitStep(w.client).state &&
              r.socketRef == r.client.socket &&
              r.receiveListeners == (if w.socketRef.Some? then 1 else w.receiveListeners + 1)
    ensures !open && w.isOpen ==>
              r.messages == w.messages && r.client == w.client && r.socketRef == w.socketRef &&
              r.receiveListeners == (if w.socketRef.Some? then 0 else w.receiveListeners)
  {
    if open == w.isOpen then w
    else
      var listeners := if w.socketRef.Some? then 0 else w.receiveListeners;
      if open then
        var init := InitStep(w.client);
        WidgetState(true, [WelcomeMessage(now)], w.input, Some(init.handle), listeners + 1, init.state)
      else
        w.(isOpen := false, receiveListeners := listeners)
  }

  /** A `receive-message` on `socket.current`: every registered listener
      appends the message to the list. */
  function ReceiveStep(w: WidgetState, m: Message): (r: WidgetState)
    ensures |r.messages| == |w.messages| + w.receiveListeners
    ensures r.messages[..|w.messages|] == w.messages
    ensures forall i :: |w.messages| <= i < |r.messages| ==> r.messages[i] == m
    ensures r.(messages := w.messages) == w
  {
    w.(messages := w.messages + Repeat(m, w.receiveListeners))
  }

  /** handleSend. */
  function HandleSendStep(w: WidgetState, now: nat): (r: WidgetState)
    ensures r.isOpen == w.isOpen && r.socketRef == w.socketRef && r.receiveListeners == w.receiveListeners
    ensures r == w || (
              r.input == "" &&
              |r.messages| == |w.messages| + 1 &&
              r.messages[..|w.messages|] == w.messages &&
              r.messages[|w.messages|] == UserMessage(w.input, now) &&
              r.client == SendStep(w.client, UserMessage(w.input, now)))
  {
    if Trim(w.input) == [] then w
    else
      var m := UserMessage(w.input, now);
      w.(messages := w.messages + [m], client := SendStep(w.client, m), input := "")
  }

  /** handleKeyPress. */
  function KeyPressStep(w: WidgetState, key: string, shiftKey: bool, now: nat): (r: WidgetState)
    ensures !TriggersSend(key, shiftKey) ==> r == w
    ensures TriggersSend(key, shiftKey) ==> r == HandleSendStep(w, now)
  {
    if TriggersSend(key, shiftKey) then HandleSendStep(w, now) else w
  }

  /** The text field's onChange. */
  function InputChangeStep(w: WidgetState, text: string): (r: WidgetState)
    ensures r.input == text && r.(input := w.input) == w
  {
    w.(input := text)
  }

  lemma MountedConsistent(client: ClientState)
    requires WellFormed(client)
    ensures Consistent(Mounted(client))
  {
  }

  /** Opening seeds exactly the welcome message, replacing any earlier list, on
      the client module's one connection, with one listener registered. */
  lemma OpenSeedsWelcome(w: WidgetState, now: nat)
    requires Consistent(w) && !w.isOpen
    ensures var r := SetOpenStep(w, true, now);
      r.messages == [WelcomeMessage(now)] &&
      r.receiveListeners == 1 &&
      r.client == InitStep(w.client).state &&
      r.socketRef == Some(InitStep(w.client).handle) == r.client.socket &&
      Consistent(r)
  {
    InitPreserves(w.client);
  }

  /** Closing unregisters the listener and keeps the list and the connection. */
  lemma CloseUnregisters(w: WidgetState, now: nat)
    requires Consistent(w) && w.isOpen
    ensures var r := SetOpenStep(w, false, now);
      r.receiveListeners == 0 && r.messages == w.messages && r.client == w.client && Consistent(r)
  {
  }

  /** A received message is appended once at the end while the widget is open,
      and dropped while it is closed; earlier entries are untouched. */
  lemma ReceiveAppends(w: WidgetState, m: Message)
    requires Consistent(w)
    ensures ReceiveStep(w, m).messages == w.messages + (if w.isOpen then [m] else [])
    ensures Consistent(ReceiveStep(w, m))
  {
  }

  /** handleSend with a whitespace-only input changes nothing: no message, no
      emit, the input kept. */
  lemma SendRejectsBlank(w: WidgetState, now: nat)
    requires AllWhitespace(w.input)
    ensures HandleSendStep(w, now) == w
  {
    TrimEmptyIffBlank(w.input);
  }

  /** handleSend with any other input appends one user message carrying the
      untrimmed input at the end of the list, passes that same message to
      sendMessage once, and clears the input. */
  lemma SendAppendsUserMessage(w: WidgetState, now: nat)
    requires !AllWhitespace(w.input)
    ensures var r := HandleSendStep(w, now);
      |r.messages| == |w.messages| + 1 &&
      r.messages[..|w.messages|] == w.messages &&
      r.messages[|w.messages|].content == w.input &&
      r.messages[|w.messages|].sender == User &&
      r.client == SendStep(w.client, r.messages[|w.messages|]) &&
      r.input == ""
  {
    TrimEmptyIffBlank(w.input);
    var r := HandleSendStep(w, now);
    assert r.messages == w.messages + [UserMessage(w.input, now)];
  }

  /** The send button is enabled exactly when clicking it would change the state. */
  lemma ButtonMatchesGuard(w: WidgetState, now: nat)
    ensures SendEnabled(w.input) <==> HandleSendStep(w, now) != w
  {
    if SendEnabled(w.input) {
      assert |HandleSendStep(w, now).messages| == |w.messages| + 1;
    }
  }

  /** Shift+Enter and every key other than Enter leave the state as it is. */
  lemma OnlyPlainEnterSends(w: WidgetState, key: string, shiftKey: bool, now: nat)
    ensures KeyPressStep(w, key, shiftKey, now) ==
      (if key == "Enter" && !shiftKey then HandleSendStep(w, now) else w)
    ensures KeyPressStep(w, "Enter", true, now) == w
  {
  }

  /** An event the widget handles. */
  datatype WidgetEvent =
    | Toggle(open: bool, now: nat)
    | Incoming(message: Message)
    | Send(now: nat)
    | KeyPress(key: string, shiftKey: bool, now: nat)
    | Typed(text: string)

  function Apply(w: WidgetState, e: WidgetEvent): WidgetState {
    match e
    case Toggle(open, now) => SetOpenStep(w, open, now)
    case Incoming(m) => ReceiveStep(w, m)
    case Send(now) => HandleSendStep(w, now)
    case KeyPress(key, shiftKey, now) => KeyPressStep(w, key, shiftKey, now)
    case Typed(text) => InputChangeStep(w, text)
  }

  function Run(w: WidgetState, es: seq<WidgetEvent>): WidgetState
    decreases |es|
  {
    if es == [] then w else Run(Apply(w, es[0]), es[1..])
  }

  lemma ApplyPreserves(w: WidgetState, e: WidgetEvent)
    requires Consistent(w)
    ensures Consistent(Apply(w, e))
  {
    match e
    case Toggle(open, now) =>
      if open && !w.isOpen { InitPreserves(w.client); }
    case Incoming(m) =>
    case Send(now) =>
      SendPreserves(w.client, UserMessage(w.input, now));
    case KeyPress(key, shiftKey, now) =>
      SendPreserves(w.client, UserMessage(w.input, now));
    case Typed(text) =>
  }

  /** Listeners never stack: after any sequence of events, in particular any
      number of open/close cycles, at most one `receive-message` listener is
      registered, and exactly one while the widget is open. */
  lemma {:induction false} ListenersNeverStack(w: WidgetState, es: seq<WidgetEvent>)
    requires Consistent(w)
    ensures Consistent(Run(w, es))
    ensures Run(w, es).receiveListeners <= 1
    decreases |es|
  {
    if es != [] {
      ApplyPreserves(w, es[0]);
      ListenersNeverStack(Apply(w, es[0]), es[1..]);
    }
  }

  /** No event in `es` opens or closes the widget. */
  predicate NoToggle(es: seq<WidgetEvent>) {
    forall i :: 0 <= i < |es| ==> !es[i].Toggle?
  }

  /** Every handler other than an open/close change keeps the list as a prefix
      of the new list and leaves the listener registration alone. */
  lemma ApplyKeepsPrefix(w: WidgetState, e: WidgetEvent)
    requires !e.Toggle?
    ensures var r := Apply(w, e);
      |w.messages| <= |r.messages| && r.messages[..|w.messages|] == w.messages &&
      r.isOpen == w.isOpen && r.receiveListeners == w.receiveListeners
  {
    var r := Apply(w, e);
    assert r.messages == w.messages + r.messages[|w.messages|..];
  }

  lemma {:induction false} RunKeepsPrefix(w: WidgetState, es: seq<WidgetEvent>)
    requires NoToggle(es)
    ensures var r := Run(w, es);
      |w.messages| <= |r.messages| && r.messages[..|w.messages|] == w.messages &&
      r.isOpen == w.isOpen && r.receiveListeners == w.receiveListeners
    decreases |es|
  {
    if es != [] {
      var w1 := Apply(w, es[0]);
      ApplyKeepsPrefix(w, es[0]);
      RunKeepsPrefix(w1, es[1..]);
      var r := Run(w1, es[1..]);
      assert r.messages[..|w.messages|] == r.messages[..|w1.messages|][..|w.messages|];
    }
  }

  /** With one listener registered, a received message goes last and leaves
      any prefix of the list in place. */
  lemma ReceiveKeepsPrefix(w: WidgetState, prefix: seq<Message>, m: Message)
    requires w.receiveListeners == 1
    requires |prefix| <= |w.messages| && w.messages[..|prefix|] == prefix
    ensures var r := ReceiveStep(w, m);
      |r.messages| == |w.messages| + 1 &&
      r.messages[..|prefix|] == prefix &&
      r.messages[|r.messages| - 1] == m
  {
    var r := ReceiveStep(w, m);
    assert r.messages == w.messages + [m];
    assert r.messages[..|prefix|] == w.messages[..|prefix|];
  }

  /** With input that is not blank, handleSend takes its sending branch. */
  lemma SendTakesBranch(w: WidgetState, now: nat)
    requires !AllWhitespace(w.input)
    ensures var m := UserMessage(w.input, now);
      HandleSendStep(w, now) == w.(messages := w.messages + [m], client := SendStep(w.client, m), input := "")
  {
    TrimEmptyIffBlank(w.input);
  }

  /** A round trip while open: the user's message is emitted through
      `sendMessage` and appended at the end of the list. Whatever happens in the
      second before the server's answer arrives (typing, other sends, other
      incoming messages, but no closing), the user's message keeps its place,
      the answer lands after it as the last entry and quotes the input; with
      nothing in between, the answer lands right after it. */
  lemma {:induction false} SendThenReplyOrder(w: WidgetState, now: nat, es: seq<WidgetEvent>, later: nat)
    requires Consistent(w) && w.isOpen && !AllWhitespace(w.input) && NoToggle(es)
    ensures var m := UserMessage(w.input, now);
      var reply := SocketServer.Reply(m, later);
      var r := ReceiveStep(Run(HandleSendStep(w, now), es), reply);
      HandleSendStep(w, now).client == SendStep(w.client, m) &&
      HandleSendStep(w, now).client.log == w.client.log + [Emitted(w.socketRef.value, SendMessageEvent, m)] &&
      |r.messages| >= |w.messages| + 2 &&
      r.messages[..|w.messages| + 1] == w.messages + [m] &&
      r.messages[|r.messages| - 1] == reply &&
      SocketServer.Unquote(r.messages[|r.messages| - 1].content) == Some(w.input) &&
      (es == [] ==> r.messages == w.messages + [m, reply])
  {
    SendTakesBranch(w, now);
    var m := UserMessage(w.input, now);
    var reply := SocketServer.Reply(m, later);
    var w1 := HandleSendStep(w, now);
    RunKeepsPrefix(w1, es);
    var w2 := Run(w1, es);
    ReceiveKeepsPrefix(w2, w1.messages, reply);
    SocketServer.ReplyQuotesContent(m, later);
  }

  /** The mounted component. `client` is the page's one client module. */
  class ChatWidget {
    const client: Client
    var isOpen: bool
    var messages: seq<Message>
    var input: string
    var socketRef: Option<Handle>
    var receiveListeners: nat

    function State(): WidgetState
      reads this, client
    {
      WidgetState(isOpen, messages, input, socketRef, receiveListeners, client.State())
    }

    ghost predicate Valid()
      reads this, client
    {
      Consistent(State())
    }

    /** First render: `useState([])`, `useState('')`, `useRef(null)`, closed. */
    constructor (client: Client)
      requires client.Valid()
      ensures Valid() && this.client == client
      ensures State() == Mounted(client.State())
    {
      this.client := client;
      isOpen, messages, input, socketRef, receiveListeners := false, [], "", None, 0;
    }

    /** The open/close effect, run when `isOpen` changes. */
    method SetOpen(open: bool, now: nat)
      requires Valid()
      modifies this, client
      ensures Valid()
      ensures State() == SetOpenStep(old(State()), open, now)
    {
      if open == isOpen {
        return;
      }
      if open {
        Open(now);
      } else {
        Close();
      }
    }

    /** `isOpen` becomes true: the cleanup of the closed run finds no listener;
        the effect connects, seeds the welcome message and registers one
        listener. */
    method Open(now: nat)
      requires Valid() && !isOpen
      modifies this, client
      ensures Valid()
      ensures State() == SetOpenStep(old(State()), true, now)
    {
      ghost var w := State();
      ghost var init := InitStep(w.client);
      var h := client.InitSocket();
      assert client.State() == init.state && h == init.handle;
      isOpen := true;
      socketRef := Some(h);
      messages := [WelcomeMessage(now)];
      receiveListeners := 1;
      assert State() == WidgetState(true, [WelcomeMessage(now)], w.input, Some(h), 1, init.state);
    }

    /** `isOpen` becomes false: the cleanup runs
        `socket.current.off('receive-message')`, and the effect does nothing. */
    method Close()
      requires Valid() && isOpen
      modifies this
      ensures Valid()
      ensures State() == old(State()).(isOpen := false, receiveListeners := 0)
    {
      if socketRef.Some? {
        receiveListeners := 0;
      }
      isOpen := false;
    }

    /** A `receive-message` on `socket.current`. */
    method Receive(m: Message)
      requires Valid()
      modifies this
      ensures Valid()
      ensures State() == ReceiveStep(old(State()), m)
      ensures messages == old(messages) + (if isOpen then [m] else [])
    {
      messages := messages + Repeat(m, receiveListeners);
    }

    method HandleSend(now: nat)
      requires Valid()
      modifies this, client
      ensures Valid()
      ensures State() == HandleSendStep(old(State()), now)
    {
      if Trim(input) == [] {
        return;
      }
      var userMessage := UserMessage(input, now);
      messages := messages + [userMessage];
      client.SendMessage(userMessage);
      input := "";
    }

    /** handleKeyPress; `prevented` says whether the default action was suppressed. */
    method HandleKeyPress(key: string, shiftKey: bool, now: nat) returns (prevented: bool)
      requires Valid()
      modifies this, client
      ensures Valid()
      ensures prevented == TriggersSend(key, shiftKey)
      ensures State() == KeyPressStep(old(State()), key, shiftKey, now)
    {
      prevented := TriggersSend(key, shiftKey);
      if prevented {
        HandleSend(now);
      }
    }

    method OnInputChange(text: string)
      requires Valid()
      modifies this
      ensures Valid()
      ensures State() == InputChangeStep(old(State()), text)
    {
      input := text;
    }
  }
}
