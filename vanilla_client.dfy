/**
 * The plain-JavaScript client the backend serves (backend/static/js/app.js): its global
 * state, the routing of server frames, the typing debounce, the send guard and the socket
 * that reconnects itself.
 *
 * The socket is its `readyState`; the page is a transcript of rendered lines, the typing
 * indicator and the toasts shown; timers are explicit events (a pending typing timeout and
 * a count of pending reconnect timeouts).
 */
module VanillaClient {
  import opened Wrappers
  import opened Text
  import opened Protocol
  import Store
  import Crud
  import ChatRouter

  /** `WebSocket.readyState`. */
  datatype ReadyState = Connecting | Open | Closing | Closed

  /** A frame the client sends; `receiverId` is `state.currentChatId` or an id, possibly null. */
  datatype ClientFrame =
    | TextFrame(content: string, receiverId: Option<int>)
    | TypingStart(receiverId: Option<int>)
    | TypingStop(receiverId: Option<int>)
    | ReadReceipt(receiverId: Option<int>)

  /** The JSON object the server reads from a client frame. */
  function Encode(f: ClientFrame): (r: Frame)
    ensures r.Object? && r.kind.Some? && r.receiverId == f.receiverId
    ensures f.TextFrame? <==> r.kind == Some(JStr("text"))
    ensures f.TextFrame? ==> r.content == Some(f.content)
    ensures !f.TextFrame? ==> r.content.None?
  {
    match f
    case TextFrame(c, rid) => Object(Some(JStr("text")), rid, Some(c))
    case TypingStart(rid) => Object(Some(JStr("typing_start")), rid, None)
    case TypingStop(rid) => Object(Some(JStr("typing_stop")), rid, None)
    case ReadReceipt(rid) => Object(Some(JStr("message_read")), rid, None)
  }

  /**
   * What the server does with each client frame: a text frame with content is stored as a
   * message from the sender and sent to the receiver and back; the other frames are
   * forwarded to the receiver only, naming the sender, and change no row.
   */
  lemma ServerHandlesClientFrames(t: Crud.Tables, user: int, f: ClientFrame, now: int)
    ensures var r := ChatRouter.HandleFrame(t, user, Encode(f), now);
      && r.Done?
      && (f.TextFrame? && f.content != "" ==>
            |r.tables.messages| == |t.messages| + 1
            && r.tables.messages[|t.messages|].content == Some(f.content)
            && r.tables.messages[|t.messages|].senderId == user
            && |r.sends| == 2 && r.sends[0].target == f.receiverId && r.sends[1].target == Some(user))
      && (f.TextFrame? && f.content == "" ==> r == ChatRouter.Done(t, []))
      && (f.TypingStart? ==> r == ChatRouter.Done(t, [ChatRouter.Send(f.receiverId, TypingStartOut(user))]))
      && (f.TypingStop? ==> r == ChatRouter.Done(t, [ChatRouter.Send(f.receiverId, TypingStopOut(user))]))
      && (f.ReadReceipt? ==> r == ChatRouter.Done(t, [ChatRouter.Send(f.receiverId, MessageReadOut(user, f.receiverId))]))
  {
    if f.TextFrame? && f.content != "" {
      ChatRouter.TextFrameEchoesStoredMessage(t, user, Encode(f), now);
    }
  }

  // ------------------------------------------------------------------
  // Rendering
  // ------------------------------------------------------------------

  /** A message as `appendMessage` reads it, from the history route or a `new_message` frame. */
  datatype Msg = Msg(senderId: int, content: string, status: string)

  /** The tick of an own message: its sign and whether it carries the `read` class. */
  datatype Tick = Tick(sign: string, read: bool)

  /** A rendered message: its content, whether it is the user's own, and its tick (own messages only). */
  datatype Line = Line(content: string, mine: bool, tick: Option<Tick>)

  const SingleTick: string := "✓"
  const DoubleTick: string := "✓✓"

  /** The tick markup of an own message with the given status. */
  function TickFor(status: string): (r: Tick)
    ensures r.sign == SingleTick <==> status == "sent"
    ensures r.sign == DoubleTick <==> status != "sent"
    ensures r.read <==> status == "read"
  {
    Tick(if status == "sent" then SingleTick else DoubleTick, status == "read")
  }

  /** `appendMessage`: the message is the user's own exactly when its sender is the user, and only own messages carry a tick. */
  function Render(m: Msg, me: Option<int>): (r: Line)
    ensures r.content == m.content
    ensures r.mine <==> me == Some(m.senderId)
    ensures r.tick.Some? <==> r.mine
    ensures r.tick.Some? ==> r.tick.value == TickFor(m.status)
  {
    var mine := me == Some(m.senderId);
    Line(m.content, mine, if mine then Some(TickFor(m.status)) else None)
  }

  /** `renderMessages`: the transcript is the messages rendered, in order. */
  function RenderAll(msgs: seq<Msg>, me: Option<int>): (r: seq<Line>)
    ensures |r| == |msgs| && forall i :: 0 <= i < |msgs| ==> r[i] == Render(msgs[i], me)
  {
    seq(|msgs|, i requires 0 <= i < |msgs| => Render(msgs[i], me))
  }

  /** Every tick on the page gets the `read` class; nothing else changes. */
  function MarkAllRead(lines: seq<Line>): (r: seq<Line>)
    ensures |r| == |lines|
    ensures forall i :: 0 <= i < |r| ==>
      && r[i].content == lines[i].content && r[i].mine == lines[i].mine
      && (lines[i].tick.None? ==> r[i].tick.None?)
      && (lines[i].tick.Some? ==> r[i].tick == Some(Tick(lines[i].tick.value.sign, true)))
  {
    seq(|lines|, i requires 0 <= i < |lines| =>
      var l := lines[i];
      if l.tick.Some? then l.(tick := Some(l.tick.value.(read := true))) else l)
  }

  /**
   * Marking ticks read twice is marking them once, for any list of lines: a second `message_read`
   * frame for a chat already shown as read leaves the display as it is.
   */
  lemma MarkAllReadIdempotent(lines: seq<Line>)
    ensures MarkAllRead(MarkAllRead(lines)) == MarkAllRead(lines)
  {
  }

  // ------------------------------------------------------------------
  // Routing of server frames
  // ------------------------------------------------------------------

  /** What `onmessage` does with one server frame. */
  datatype Reaction =
    | Append(m: Msg, receipt: bool)  // render it; send a read receipt when `receipt`
    | NewMessageToast
    | MarkTicksRead
    | ShowTyping
    | HideTyping
    | Ignore

  /**
   * The routing in `onmessage`, given the open chat and the user's id: a new message is
   * rendered only while a chat is open and it is from the open partner or from the user,
   * and otherwise announced by a toast; a read receipt is sent back only for the partner's
   * messages; read receipts and typing events matter only when they come from the open
   * partner.
   */
  function React(current: Option<int>, me: Option<int>, e: WireOut): (r: Reaction)
    ensures e.NewMessage? ==>
      (r.Append? <==> Store.Truthy(current) && (current == Some(e.senderId) || me == Some(e.senderId)))
    ensures e.NewMessage? ==> (r.NewMessageToast? <==> !r.Append?)
    ensures r.Append? ==> e.NewMessage? && r.m == Msg(e.senderId, e.content, e.status)
    ensures r.Append? ==> (r.receipt <==> current == Some(e.senderId))
    ensures r.MarkTicksRead? <==> e.MessageReadOut? && current == Some(e.readerId)
    ensures r.ShowTyping? <==> e.TypingStartOut? && current == Some(e.senderId)
    ensures r.HideTyping? <==> e.TypingStopOut? && current == Some(e.senderId)
  {
    match e
    case NewMessage(_, content, sender, _, _, status) =>
      if Store.Truthy(current) && (current == Some(sender) || me == Some(sender)) then
        Append(Msg(sender, content, status), current == Some(sender))
      else NewMessageToast
    case MessageReadOut(reader, _) => if current == Some(reader) then MarkTicksRead else Ignore
    case TypingStartOut(sender) => if current == Some(sender) then ShowTyping else Ignore
    case TypingStopOut(sender) => if current == Some(sender) then HideTyping else Ignore
  }

  /**
   * A typing notice that the server forwards from `user` reaches the indicator of a client
   * whose open chat is with `user`, and no other.
   */
  lemma TypingReachesOpenChat(t: Crud.Tables, user: int, receiver: int, now: int, current: Option<int>, me: Option<int>)
    ensures var r := ChatRouter.HandleFrame(t, user, Encode(TypingStart(Some(receiver))), now);
      && r.Done? && |r.sends| == 1 && r.sends[0].target == Some(receiver)
      && (React(current, me, r.sends[0].frame) == ShowTyping <==> current == Some(user))
  {
    ServerHandlesClientFrames(t, user, TypingStart(Some(receiver)), now);
  }

  const ConnectionLostToast: string := "Connection Lost. Reconnecting..."
  const NewMessageText: string := "New message"

  /** The milliseconds of input silence after which `typing_stop` is sent. */
  const TypingIdleMs: nat := 2000
  /** The milliseconds after a close before the client connects again. */
  const ReconnectDelayMs: nat := 3000

  // ------------------------------------------------------------------
  // The page state
  // ------------------------------------------------------------------

  class App {
    var userId: Option<int>
    var currentChatId: Option<int>
    /** `state.ws`: no socket, or the socket's ready state. */
    var ws: Option<ReadyState>
    var typing: bool
    /** A `typing_stop` timeout is pending. */
    var typingTimer: bool
    /** Reconnect timeouts scheduled and not yet run. */
    var reconnectTimers: nat
    /** The message input's value. */
    var input: string
    var transcript: seq<Line>
    var typingIndicator: bool
    var toasts: seq<string>
    /** Everything sent on the socket, oldest first. */
    var sent: seq<ClientFrame>

    constructor (userId: Option<int>)
      ensures this.userId == userId && currentChatId == None && ws == None
      ensures !typing && !typingTimer && reconnectTimers == 0 && input == ""
      ensures transcript == [] && !typingIndicator && toasts == [] && sent == []
    {
      this.userId := userId;
      currentChatId, ws := None, None;
      typing, typingTimer, reconnectTimers, input := false, false, 0, "";
      transcript, typingIndicator, toasts, sent := [], false, [], [];
    }

    /** `sendWs`: a frame is sent only on an open socket; otherwise it is dropped and a toast shown. */
    method SendWs(f: ClientFrame)
      modifies this`sent, this`toasts
      ensures ws == Some(Open) ==> sent == old(sent) + [f] && toasts == old(toasts)
      ensures ws != Some(Open) ==> sent == old(sent) && toasts == old(toasts) + [ConnectionLostToast]
    {
      if ws == Some(Open) {
        sent := sent + [f];
      } else {
        toasts := toasts + [ConnectionLostToast];
      }
    }

    /** `connectWs`: nothing while a socket exists; otherwise a new socket, connecting. */
    method ConnectWs()
      modifies this`ws
      ensures ws == if old(ws).Some? then old(ws) else Some(Connecting)
    {
      if ws.Some? {
        return;
      }
      ws := Some(Connecting);
    }

    /** The socket finished its opening handshake. */
    method SocketOpened()
      modifies this`ws
      ensures ws == if old(ws) == Some(Connecting) then Some(Open) else old(ws)
    {
      if ws == Some(Connecting) {
        ws := Some(Open);
      }
    }

    /** `onclose`: the socket is dropped and a reconnect is scheduled. */
    method SocketClosed()
      modifies this`ws, this`reconnectTimers
      ensures ws == None && reconnectTimers == old(reconnectTimers) + 1
    {
      ws := None;
      reconnectTimers := reconnectTimers + 1;
    }

    /** A scheduled reconnect runs `connectWs`. */
    method ReconnectTimerFires()
      requires reconnectTimers > 0
      modifies this`ws, this`reconnectTimers
      ensures reconnectTimers == old(reconnectTimers) - 1
      ensures ws == if old(ws).Some? then old(ws) else Some(Connecting)
    {
      reconnectTimers := reconnectTimers - 1;
      ConnectWs();
    }

    /**
     * `selectChat`: the chat with `id` becomes the open one; when the history request
     * succeeds, the transcript is replaced by the history and a read receipt is sent.
     */
    method SelectChat(id: int, history: Option<seq<Msg>>)
      modifies this`currentChatId, this`transcript, this`sent, this`toasts
      ensures currentChatId == Some(id)
      ensures history.None? ==> transcript == old(transcript) && sent == old(sent) && toasts == old(toasts)
      ensures history.Some? ==>
        && transcript == RenderAll(history.value, userId)
        && (ws == Some(Open) ==> sent == old(sent) + [ReadReceipt(Some(id))] && toasts == old(toasts))
        && (ws != Some(Open) ==> sent == old(sent) && toasts == old(toasts) + [ConnectionLostToast])
    {
      currentChatId := Some(id);
      if history.Some? {
        transcript := RenderAll(history.value, userId);
        SendWs(ReadReceipt(Some(id)));
      }
    }

    /** `onmessage`, following `React`. */
    method OnMessage(e: WireOut)
      modifies this`transcript, this`typingIndicator, this`toasts, this`sent
      ensures var r := React(currentChatId, userId, e);
        && transcript == (if r.Append? then old(transcript) + [Render(r.m, userId)]
                          else if r.MarkTicksRead? then MarkAllRead(old(transcript))
                          else old(transcript))
        && typingIndicator == (if r.ShowTyping? then true else if r.HideTyping? then false else old(typingIndicator))
        && sent == (if r.Append? && r.receipt && ws == Some(Open) then old(sent) + [ReadReceipt(currentChatId)] else old(sent))
        && toasts == (if r.NewMessageToast? then old(toasts) + [NewMessageText]
                      else if r.Append? && r.receipt && ws != Some(Open) then old(toasts) + [ConnectionLostToast]
                      else old(toasts))
    {
      var r := React(currentChatId, userId, e);
      match r
      case Append(m, receipt) =>
        transcript := transcript + [Render(m, userId)];
        if receipt {
          SendWs(ReadReceipt(currentChatId));
        }
      case NewMessageToast =>
        toasts := toasts + [NewMessageText];
      case MarkTicksRead =>
        transcript := MarkAllRead(transcript);
      case ShowTyping =>
        typingIndicator := true;
      case HideTyping =>
        typingIndicator := false;
      case Ignore =>
    }

    /**
     * The input's `input` event: with a chat open, `typing_start` is sent only when the user
     * was not already typing, and the `typing_stop` timeout is (re)started.
     */
    method OnInput(text: string)
      modifies this`input, this`typing, this`typingTimer, this`sent, this`toasts
      ensures input == text
      ensures !Store.Truthy(currentChatId) ==>
        typing == old(typing) && typingTimer == old(typingTimer) && sent == old(sent) && toasts == old(toasts)
      ensures Store.Truthy(currentChatId) ==> typing && typingTimer
      ensures Store.Truthy(currentChatId) && old(typing) ==> sent == old(sent) && toasts == old(toasts)
      ensures Store.Truthy(currentChatId) && !old(typing) && ws == Some(Open) ==>
        sent == old(sent) + [TypingStart(currentChatId)] && toasts == old(toasts)
      ensures Store.Truthy(currentChatId) && !old(typing) && ws != Some(Open) ==>
        sent == old(sent) && toasts == old(toasts) + [ConnectionLostToast]
    {
      input := text;
      if !Store.Truthy(currentChatId) {
        return;
      }
      if !typing {
        typing := true;
        SendWs(TypingStart(currentChatId));
      }
      typingTimer := true;
    }

    /** The typing timeout: the flag is reset and `typing_stop` is sent for the chat open now. */
    method TypingTimerFires()
      requires typingTimer
      modifies this`typing, this`typingTimer, this`sent, this`toasts
      ensures !typing && !typingTimer
      ensures ws == Some(Open) ==> sent == old(sent) + [TypingStop(currentChatId)] && toasts == old(toasts)
      ensures ws != Some(Open) ==> sent == old(sent) && toasts == old(toasts) + [ConnectionLostToast]
    {
      typing := false;
      typingTimer := false;
      SendWs(TypingStop(currentChatId));
    }

    /**
     * `sendMessage`: with trimmed text and a chat open, the trimmed text is sent, the input
     * cleared, the typing flag reset and `typing_stop` sent (the pending timeout is not
     * cancelled); otherwise nothing happens.
     */
    method SendMessage()
      modifies this`input, this`typing, this`sent, this`toasts
      ensures var text := JsTrim(old(input));
        && (text == "" || !Store.Truthy(currentChatId) ==>
              input == old(input) && typing == old(typing) && sent == old(sent) && toasts == old(toasts))
        && (text != "" && Store.Truthy(currentChatId) ==>
              && input == "" && !typing
              && (ws == Some(Open) ==>
                    sent == old(sent) + [TextFrame(text, currentChatId), TypingStop(currentChatId)] && toasts == old(toasts))
              && (ws != Some(Open) ==>
                    sent == old(sent) && toasts == old(toasts) + [ConnectionLostToast, ConnectionLostToast]))
    {
      var text := JsTrim(input);
      if text == "" || !Store.Truthy(currentChatId) {
        return;
      }
      SendWs(TextFrame(text, currentChatId));
      input := "";
      typing := false;
      SendWs(TypingStop(currentChatId));
    }
  }
}
