/**
 * The backend's chat routes (backend/routers/chat.py): adding a contact, reading a direct
 * history, and the WebSocket endpoint that authenticates a socket, registers it, and then
 * handles one inbound frame at a time.
 *
 * Each frame's handling is a pure function from the tables, the authenticated user, the
 * frame and the current time to the new tables and the frames to send, each with the user
 * it is addressed to. `Serve` is the endpoint's receive loop over a given sequence of
 * inbound events.
 */
module ChatRouter {
  import opened Wrappers
  import opened Protocol
  import opened Crud
  import opened CrudSession
  import opened OrderedMaps
  import CM = ConnectionManager

  // ------------------------------------------------------------------
  // HTTP routes
  // ------------------------------------------------------------------

  /** `POST /chat/contacts`: the added user, or 400 when `add_contact` gave nothing. */
  function AddContactRoute(t: Tables, uid: int, email: string): (r: (Tables, Result<UserRow, HttpError>))
    ensures r.0 == AddContact(t, uid, email).0
    ensures AddContact(t, uid, email).1.None? <==> r.1 == Err(HttpError(400, "User not found or invalid"))
    ensures AddContact(t, uid, email).1.Some? ==> r.1 == Ok(AddContact(t, uid, email).1.value)
  {
    var (t1, contact) := AddContact(t, uid, email);
    (t1, if contact.None? then Err(HttpError(400, "User not found or invalid")) else Ok(contact.value))
  }

  /**
   * `GET /chat/history/{contact_id}`: always the direct history between the caller and that
   * id, never a group's, even when the id is a group's.
   */
  function GetHistoryRoute(t: Tables, uid: int, contactId: int): (r: seq<MessageRow>)
    ensures SortedByTime(r)
    ensures forall m :: m in r <==> m in t.messages && InDirectChat(m, uid, contactId)
    ensures forall m :: m in r ==> m.receiverId.Some?
  {
    GetChatHistory(t, uid, contactId, false)
  }

  // ------------------------------------------------------------------
  // One frame
  // ------------------------------------------------------------------

  /** A frame to send and the user it is addressed to (`None` when the frame named no receiver). */
  datatype Send = Send(target: Option<int>, frame: WireOut)

  /** What handling one frame leads to. */
  datatype Outcome =
    | Failed                                    // the handler raised
    | Done(tables: Tables, sends: seq<Send>)

  /** `msg_data.get("type", "text")`. */
  function FrameKind(kind: Option<Json>): (k: Json)
    ensures kind.None? ==> k == JStr("text")
    ensures kind.Some? ==> k == kind.value
  {
    kind.GetOr(JStr("text"))
  }

  /** Python truthiness of the `content` value. */
  function HasContent(content: Option<string>): (b: bool)
    ensures b <==> content.Some? && |content.value| > 0
  {
    content.Some? && content.value != ""
  }

  /**
   * The handling of one inbound frame from `user`:
   *   - a frame that is not a JSON object fails;
   *   - a text frame (also one without a type) with content stores one message from `user`
   *     with that content and sends the same `new_message` frame to the receiver and then
   *     back to the sender; without content it does nothing;
   *   - typing frames and read receipts are forwarded to the receiver only, naming `user`;
   *     a read receipt changes no row;
   *   - any other type does nothing.
   */
  function HandleFrame(t: Tables, user: int, f: Frame, now: int): (r: Outcome)
    ensures r.Failed? <==> f.Malformed?
    ensures f.Object? && FrameKind(f.kind) == JStr("text") && HasContent(f.content) ==>
      var (t1, row) := CreateMessage(t, user, MessageFields(f.receiverId, None, f.content, None, None, None, None), now);
      var out := NewMessage(row.id, f.content.value, user, f.receiverId, now, "sent");
      r == Done(t1, [Send(f.receiverId, out), Send(Some(user), out)])
    ensures f.Object? && FrameKind(f.kind) == JStr("text") && !HasContent(f.content) ==> r == Done(t, [])
    ensures f.Object? && FrameKind(f.kind) == JStr("typing_start") ==> r == Done(t, [Send(f.receiverId, TypingStartOut(user))])
    ensures f.Object? && FrameKind(f.kind) == JStr("typing_stop") ==> r == Done(t, [Send(f.receiverId, TypingStopOut(user))])
    ensures f.Object? && FrameKind(f.kind) == JStr("message_read") ==>
      r == Done(t, [Send(f.receiverId, MessageReadOut(user, f.receiverId))])
    ensures f.Object? && FrameKind(f.kind) !in {JStr("text"), JStr("typing_start"), JStr("typing_stop"), JStr("message_read")} ==>
      r == Done(t, [])
  {
    match f
    case Malformed => Failed
    case Object(kind, receiverId, content) =>
      var k := FrameKind(kind);
      if k == JStr("text") then
        if !HasContent(content) then Done(t, [])
        else
          var (t1, row) := CreateMessage(t, user, MessageFields(receiverId, None, content, None, None, None, None), now);
          var out := NewMessage(row.id, row.content.value, user, receiverId, row.createdAt, "sent");
          Done(t1, [Send(receiverId, out), Send(Some(user), out)])
      else if k == JStr("typing_start") then Done(t, [Send(receiverId, TypingStartOut(user))])
      else if k == JStr("typing_stop") then Done(t, [Send(receiverId, TypingStopOut(user))])
      else if k == JStr("message_read") then Done(t, [Send(receiverId, MessageReadOut(user, receiverId))])
      else Done(t, [])
  }

  /** A frame without a `type` is handled exactly as a text frame. */
  lemma MissingTypeIsText(t: Tables, user: int, receiverId: Option<int>, content: Option<string>, now: int)
    ensures HandleFrame(t, user, Object(None, receiverId, content), now)
         == HandleFrame(t, user, Object(Some(JStr("text")), receiverId, content), now)
  {
  }

  /**
   * A stored text message is what the receiver and the sender are both sent: the frame
   * carries the new row's id, its content and "sent", and the row is from `user`.
   */
  lemma TextFrameEchoesStoredMessage(t: Tables, user: int, f: Frame, now: int)
    requires f.Object? && FrameKind(f.kind) == JStr("text") && HasContent(f.content)
    ensures var r := HandleFrame(t, user, f, now);
      && r.Done? && |r.tables.messages| == |t.messages| + 1 && |r.sends| == 2
      && var row := r.tables.messages[|t.messages|];
      && row.senderId == user && row.status == "sent" && row.receiverId == f.receiverId
      && r.sends[0].frame == r.sends[1].frame
      && r.sends[0].target == f.receiverId && r.sends[1].target == Some(user)
      && r.sends[0].frame.NewMessage? && r.sends[0].frame.id == row.id
      && Some(r.sends[0].frame.content) == row.content && r.sends[0].frame.status == row.status
  {
  }

  // ------------------------------------------------------------------
  // The receive loop
  // ------------------------------------------------------------------

  /** What the endpoint receives: a text frame, or the client's disconnect. */
  datatype Inbound = Text(frame: Frame) | ClientGone

  /** How a session ends. */
  datatype SessionEnd =
    | Rejected(code: int)  // invalid token: closed before registration
    | ClientLeft           // `WebSocketDisconnect`
    | ServerClosed         // any other exception: the server closes the socket
    | StillOpen            // the given inbound events ran out

  /** The close code for an invalid token: in the private-use range 4000-4999 of RFC 6455, section 7.4.2. */
  const InvalidTokenCode: int := 4001

  datatype Run = Run(tables: Tables, sends: seq<Send>, end: SessionEnd)

  /**
   * The effect of a registered session on the tables and the frames sent, from the given
   * inbound events with their arrival times.
   */
  function Session(t: Tables, user: int, inbound: seq<Inbound>, times: seq<int>): (r: Run)
    requires |times| == |inbound|
    ensures r.end != Rejected(InvalidTokenCode)
    decreases |inbound|
  {
    if inbound == [] then Run(t, [], StillOpen)
    else match inbound[0]
      case ClientGone => Run(t, [], ClientLeft)
      case Text(f) =>
        match HandleFrame(t, user, f, times[0])
        case Failed => Run(t, [], ServerClosed)
        case Done(t1, s1) =>
          var rest := Session(t1, user, inbound[1..], times[1..]);
          Run(rest.tables, s1 + rest.sends, rest.end)
  }

  /** An event that ends the receive loop: the client's disconnect, or a frame whose handling raises. */
  predicate EndsLoop(e: Inbound)
  {
    e.ClientGone? || (e.Text? && e.frame.Malformed?)
  }

  /** The events the loop handles: those before the first event that ends it. */
  function Handled(inbound: seq<Inbound>): (h: seq<Inbound>)
    ensures h <= inbound
    ensures forall i | 0 <= i < |h| :: !EndsLoop(h[i])
    ensures |h| < |inbound| ==> EndsLoop(inbound[|h|])
  {
    if inbound == [] || EndsLoop(inbound[0]) then []
    else [inbound[0]] + Handled(inbound[1..])
  }

  /** A handled event that stores a message: a text frame, typed or not, with content. */
  predicate StoresMessage(e: Inbound)
  {
    e.Text? && e.frame.Object? && FrameKind(e.frame.kind) == JStr("text") && HasContent(e.frame.content)
  }

  /** A handled event that is relayed once to its receiver: a typing frame or a read receipt. */
  predicate Relayed(e: Inbound)
  {
    e.Text? && e.frame.Object? && FrameKind(e.frame.kind) in {JStr("typing_start"), JStr("typing_stop"), JStr("message_read")}
  }

  /** The number of stored messages among handled events. */
  function StoredCount(h: seq<Inbound>): nat
  {
    if h == [] then 0 else (if StoresMessage(h[0]) then 1 else 0) + StoredCount(h[1..])
  }

  /** The number of frames sent for handled events: two per stored message, one per relayed frame. */
  function SendCount(h: seq<Inbound>): nat
  {
    if h == [] then 0
    else (if StoresMessage(h[0]) then 2 else if Relayed(h[0]) then 1 else 0) + SendCount(h[1..])
  }

  /** What handling one event that does not end the loop does to the tables and the sends. */
  lemma HandledStep(t: Tables, user: int, e: Inbound, now: int)
    requires !EndsLoop(e)
    requires e.Text?
    ensures var o := HandleFrame(t, user, e.frame, now);
      && o.Done?
      && o.tables == t.(messages := o.tables.messages, nextId := o.tables.nextId)
      && t.messages <= o.tables.messages
      && |o.tables.messages| == |t.messages| + (if StoresMessage(e) then 1 else 0)
      && (forall k | |t.messages| <= k < |o.tables.messages| :: o.tables.messages[k].senderId == user && o.tables.messages[k].status == "sent")
      && |o.sends| == (if StoresMessage(e) then 2 else if Relayed(e) then 1 else 0)
  {
  }

  /**
   * The receive loop handles the events up to the first disconnect or failing frame: it
   * stays open exactly when there is none, it ends as the client leaving or the server
   * closing according to which comes first, the tables change only by new messages from
   * the user (one per text frame with content), and two frames are sent per stored message
   * and one per relayed frame.
   */
  lemma {:induction false} SessionOutcome(t: Tables, user: int, inbound: seq<Inbound>, times: seq<int>)
    requires |times| == |inbound|
    ensures var r := Session(t, user, inbound, times); var h := Handled(inbound);
      && (r.end == StillOpen <==> h == inbound)
      && (r.end == ClientLeft <==> |h| < |inbound| && inbound[|h|].ClientGone?)
      && (r.end == ServerClosed <==> |h| < |inbound| && inbound[|h|].Text?)
      && r.tables == t.(messages := r.tables.messages, nextId := r.tables.nextId)
      && t.messages <= r.tables.messages
      && |r.tables.messages| == |t.messages| + StoredCount(h)
      && (forall k | |t.messages| <= k < |r.tables.messages| :: r.tables.messages[k].senderId == user && r.tables.messages[k].status == "sent")
      && |r.sends| == SendCount(h)
    decreases |inbound|
  {
    if inbound != [] && !EndsLoop(inbound[0]) {
      var e := inbound[0];
      HandledStep(t, user, e, times[0]);
      var o := HandleFrame(t, user, e.frame, times[0]);
      SessionOutcome(o.tables, user, inbound[1..], times[1..]);
      var h := Handled(inbound);
      assert h == [e] + Handled(inbound[1..]);
      assert h[1..] == Handled(inbound[1..]);
      assert h != inbound <==> Handled(inbound[1..]) != inbound[1..] by {
        assert inbound == [e] + inbound[1..];
      }
    }
  }

  /** The deliveries the manager makes for a list of sends, given its registry and closed sockets. */
  function DeliveriesFor(sends: seq<Send>, reg: CM.Registry, closed: set<CM.Sock>): seq<CM.Delivery>
  {
    if sends == [] then []
    else
      var last := sends[|sends| - 1];
      DeliveriesFor(sends[..|sends| - 1], reg, closed)
        + (if last.target.Some? then CM.PersonalDeliveries(CM.Sockets(reg, last.target.value), closed, CM.JsonText(last.frame)) else [])
  }

  lemma {:induction false} DeliveriesForAppend(a: seq<Send>, b: seq<Send>, reg: CM.Registry, closed: set<CM.Sock>)
    ensures DeliveriesFor(a + b, reg, closed) == DeliveriesFor(a, reg, closed) + DeliveriesFor(b, reg, closed)
    decreases |b|
  {
    if b == [] {
      assert a + b == a;
    } else {
      var init := b[..|b| - 1];
      assert (a + b)[..|a + b| - 1] == a + init;
      assert (a + b)[|a + b| - 1] == b[|b| - 1];
      DeliveriesForAppend(a, init, reg, closed);
    }
  }

  /** The sends of one frame, in order, through `send_personal_message`. */
  method SendAll(manager: CM.ConnectionManager, sends: seq<Send>)
    modifies manager`sent
    ensures manager.sent == old(manager.sent) + DeliveriesFor(sends, manager.active, manager.closed)
  {
    var j := 0;
    while j < |sends|
      invariant 0 <= j <= |sends|
      invariant manager.sent == old(manager.sent) + DeliveriesFor(sends[..j], manager.active, manager.closed)
    {
      assert sends[..j + 1][..j] == sends[..j];
      manager.SendPersonalMessage(CM.JsonText(sends[j].frame), sends[j].target);
      j := j + 1;
    }
    assert sends[..j] == sends;
  }

  /**
   * `websocket_endpoint` as written, over the given inbound events. An invalid token (`auth`
   * is `None`) closes the socket with 4001 before registration. Otherwise the socket is
   * registered and the frames are handled in turn until the client leaves (the socket is
   * unregistered) or a frame fails (the socket is closed but stays registered).
   */
  method Serve(manager: CM.ConnectionManager, db: Database, sock: CM.Sock, auth: Option<int>,
               inbound: seq<Inbound>, times: seq<int>) returns (end: SessionEnd)
    requires manager.Valid() && |times| == |inbound|
    modifies manager, db
    ensures manager.Valid()
    ensures auth.None? ==>
      && end == Rejected(InvalidTokenCode) && manager.active == old(manager.active)
      && manager.closed == old(manager.closed) + {sock}
      && manager.sent == old(manager.sent) && db.tables == old(db.tables)
    ensures auth.Some? ==>
      var run := Session(old(db.tables), auth.value, inbound, times);
      var registered := CM.Register(old(manager.active), sock, auth.value);
      && end == run.end && db.tables == run.tables
      && manager.sent == old(manager.sent) + DeliveriesFor(run.sends, registered, old(manager.closed))
      && manager.active == RegistryAfter(old(manager.active), sock, auth.value, end)
      && manager.closed == old(manager.closed) + (if end == ServerClosed then {sock} else {})
  {
    if auth.None? {
      manager.Close(sock);
      return Rejected(InvalidTokenCode);
    }
    manager.Connect(sock, auth.value);
    end := Receive(manager, db, sock, auth.value, inbound, times);
  }

  /**
   * One inbound event of a registered socket: the client's disconnect unregisters it, a
   * failing frame closes it, and any other frame updates the tables and is delivered.
   */
  method Step(manager: CM.ConnectionManager, db: Database, sock: CM.Sock, user: int, ev: Inbound, now: int)
    returns (stop: Option<SessionEnd>)
    requires manager.Valid()
    modifies manager, db
    ensures manager.Valid()
    ensures ev.ClientGone? ==>
      && stop == Some(ClientLeft) && manager.active == CM.Unregister(old(manager.active), sock, user)
      && manager.closed == old(manager.closed) && manager.sent == old(manager.sent) && db.tables == old(db.tables)
    ensures ev.Text? && HandleFrame(old(db.tables), user, ev.frame, now).Failed? ==>
      && stop == Some(ServerClosed) && manager.active == old(manager.active)
      && manager.closed == old(manager.closed) + {sock} && manager.sent == old(manager.sent) && db.tables == old(db.tables)
    ensures ev.Text? && HandleFrame(old(db.tables), user, ev.frame, now).Done? ==>
      var o := HandleFrame(old(db.tables), user, ev.frame, now);
      && stop == None && db.tables == o.tables
      && manager.active == old(manager.active) && manager.closed == old(manager.closed)
      && manager.sent == old(manager.sent) + DeliveriesFor(o.sends, old(manager.active), old(manager.closed))
  {
    match ev
    case ClientGone =>
      manager.Disconnect(sock, user);
      stop := Some(ClientLeft);
    case Text(f) =>
      var outcome := HandleFrame(db.tables, user, f, now);
      if outcome.Failed? {
        manager.Close(sock);
        stop := Some(ServerClosed);
      } else {
        db.tables := outcome.tables;
        SendAll(manager, outcome.sends);
        stop := None;
      }
  }

  /** The receive loop of a registered socket of `user`. */
  method Receive(manager: CM.ConnectionManager, db: Database, sock: CM.Sock, user: int,
                 inbound: seq<Inbound>, times: seq<int>) returns (end: SessionEnd)
    requires manager.Valid() && |times| == |inbound|
    modifies manager, db
    ensures manager.Valid()
    ensures var run := Session(old(db.tables), user, inbound, times);
      && end == run.end && db.tables == run.tables
      && manager.sent == old(manager.sent) + DeliveriesFor(run.sends, old(manager.active), old(manager.closed))
      && manager.active == (if end == ClientLeft then CM.Unregister(old(manager.active), sock, user) else old(manager.active))
      && manager.closed == old(manager.closed) + (if end == ServerClosed then {sock} else {})
  {
    ghost var total := Session(db.tables, user, inbound, times);
    ghost var reg := manager.active;
    ghost var closed0 := manager.closed;
    ghost var sent0 := manager.sent;
    ghost var done: seq<Send> := [];
    SessionStart(total, db.tables, user, inbound, times);
    var i := 0;
    while i < |inbound|
      invariant 0 <= i <= |inbound|
      invariant manager.Valid() && manager.active == reg && manager.closed == closed0
      invariant manager.sent == sent0 + DeliveriesFor(done, reg, closed0)
      invariant SessionResumes(total, db.tables, user, inbound, times, i, done)
    {
      ghost var t := db.tables;
      ghost var before := manager.sent;
      var stop := Step(manager, db, sock, user, inbound[i], times[i]);
      if stop.Some? {
        SessionStops(total, t, user, inbound, times, i, done);
        return stop.value;
      }
      ghost var sends := HandleFrame(t, user, inbound[i].frame, times[i]).sends;
      SessionAdvances(total, t, user, inbound, times, i, done);
      SentAdvances(sent0, before, manager.sent, done, sends, reg, closed0);
      done := done + sends;
      i := i + 1;
    }
    SessionStops(total, db.tables, user, inbound, times, i, done);
    return StillOpen;
  }

  /** The sends of one more frame extend what the manager has sent. */
  lemma SentAdvances(sent0: seq<CM.Delivery>, before: seq<CM.Delivery>, after: seq<CM.Delivery>,
                     done: seq<Send>, sends: seq<Send>, reg: CM.Registry, closed: set<CM.Sock>)
    requires before == sent0 + DeliveriesFor(done, reg, closed)
    requires after == before + DeliveriesFor(sends, reg, closed)
    ensures after == sent0 + DeliveriesFor(done + sends, reg, closed)
  {
    DeliveriesForAppend(done, sends, reg, closed);
  }

  /**
   * `total` is what the session yields when, after the sends `done`, it goes on with the
   * tables `t` from the `i`-th inbound event.
   */
  ghost predicate SessionResumes(total: Run, t: Tables, user: int, inbound: seq<Inbound>, times: seq<int>, i: int, done: seq<Send>)
    requires |times| == |inbound| && 0 <= i <= |inbound|
  {
    var rest := Session(t, user, inbound[i..], times[i..]);
    total == Run(rest.tables, done + rest.sends, rest.end)
  }

  lemma SessionStart(total: Run, t: Tables, user: int, inbound: seq<Inbound>, times: seq<int>)
    requires |times| == |inbound| && total == Session(t, user, inbound, times)
    ensures SessionResumes(total, t, user, inbound, times, 0, [])
  {
    assert inbound[0..] == inbound && times[0..] == times;
    assert [] + total.sends == total.sends;
  }

  lemma SessionAdvances(total: Run, t: Tables, user: int, inbound: seq<Inbound>, times: seq<int>, i: int, done: seq<Send>)
    requires |times| == |inbound| && 0 <= i < |inbound| && SessionResumes(total, t, user, inbound, times, i, done)
    requires inbound[i].Text? && HandleFrame(t, user, inbound[i].frame, times[i]).Done?
    ensures var o := HandleFrame(t, user, inbound[i].frame, times[i]);
      SessionResumes(total, o.tables, user, inbound, times, i + 1, done + o.sends)
  {
    var o := HandleFrame(t, user, inbound[i].frame, times[i]);
    assert inbound[i..][0] == inbound[i] && times[i..][0] == times[i];
    assert inbound[i..][1..] == inbound[i + 1..] && times[i..][1..] == times[i + 1..];
    var rest := Session(o.tables, user, inbound[i + 1..], times[i + 1..]);
    assert (done + o.sends) + rest.sends == done + (o.sends + rest.sends);
  }

  lemma SessionStops(total: Run, t: Tables, user: int, inbound: seq<Inbound>, times: seq<int>, i: int, done: seq<Send>)
    requires |times| == |inbound| && 0 <= i <= |inbound| && SessionResumes(total, t, user, inbound, times, i, done)
    ensures i == |inbound| ==> total == Run(t, done, StillOpen)
    ensures i < |inbound| && inbound[i].ClientGone? ==> total == Run(t, done, ClientLeft)
    ensures i < |inbound| && inbound[i].Text? && HandleFrame(t, user, inbound[i].frame, times[i]).Failed? ==>
      total == Run(t, done, ServerClosed)
  {
    assert done + [] == done;
    if i < |inbound| {
      assert inbound[i..][0] == inbound[i] && times[i..][0] == times[i];
    } else {
      assert inbound[i..] == [];
    }
  }

  // ------------------------------------------------------------------
  // The registry after a session
  // ------------------------------------------------------------------

  /** The connection registry once a session with a valid token has ended, as written. */
  function RegistryAfter(r: CM.Registry, sock: CM.Sock, user: int, end: SessionEnd): (after: CM.Registry)
    requires r.Valid()
    ensures after.Valid() && (CM.NoEmptyList(r) ==> CM.NoEmptyList(after))
    ensures end != ClientLeft ==> sock in CM.Sockets(after, user) && user in after.entries
    ensures end == ClientLeft && CM.NoEmptyList(r) && sock !in CM.Sockets(r, user) ==> after == r
  {
    var registered := CM.Register(r, sock, user);
    if end != ClientLeft then registered
    else if CM.NoEmptyList(r) && sock !in CM.Sockets(r, user) then
      CM.RegisterThenUnregister(r, sock, user);
      CM.Unregister(registered, sock, user)
    else CM.Unregister(registered, sock, user)
  }

  /**
   * As written, a session that ends on a failing frame (for instance text that is not JSON)
   * leaves its closed socket registered: a user whose only socket that was stays online.
   */
  lemma FailedSessionLeavesSocketRegistered(sock: CM.Sock, user: int, t: Tables, now: int)
    ensures Session(t, user, [Text(Malformed)], [now]).end == ServerClosed
    ensures var r := RegistryAfter(Empty(), sock, user, ServerClosed);
      CM.Sockets(r, user) == [sock] && CM.IsOnline(r, user)
  {
    assert [] + [sock] == [sock];
  }

  /**
   * The evident intent: every way out of the receive loop after registration unregisters
   * the socket, the exception path included.
   */
  function RegistryAfterFixed(r: CM.Registry, sock: CM.Sock, user: int, end: SessionEnd): (after: CM.Registry)
    requires r.Valid()
    ensures after.Valid() && (CM.NoEmptyList(r) ==> CM.NoEmptyList(after))
    ensures end == StillOpen ==> sock in CM.Sockets(after, user)
    ensures (end == ClientLeft || end == ServerClosed) && CM.NoEmptyList(r) && sock !in CM.Sockets(r, user) ==> after == r
  {
    var registered := CM.Register(r, sock, user);
    if end == StillOpen || end.Rejected? then registered
    else if CM.NoEmptyList(r) && sock !in CM.Sockets(r, user) then
      CM.RegisterThenUnregister(r, sock, user);
      CM.Unregister(registered, sock, user)
    else CM.Unregister(registered, sock, user)
  }

  /** With the fix, a session that has ended leaves the registry as it found it. */
  lemma FixedSessionRestoresRegistry(r: CM.Registry, sock: CM.Sock, user: int, end: SessionEnd)
    requires r.Valid() && CM.NoEmptyList(r) && sock !in CM.Sockets(r, user)
    requires end == ClientLeft || end == ServerClosed
    ensures RegistryAfterFixed(r, sock, user, end) == r
    ensures CM.IsOnline(RegistryAfterFixed(r, sock, user, end), user) == CM.IsOnline(r, user)
  {
    CM.RegisterThenUnregister(r, sock, user);
  }
}
