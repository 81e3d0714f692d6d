/**
 * The web client's realtime service (frontend/src/lib/socket.ts).
 *
 * `SocketService` owns at most one socket, the token it connected with, a reconnect counter
 * and an optional status callback; its handlers write the chat store. The socket itself is
 * abstract: whether one exists, whether it is connected, and the log of events emitted on it.
 * The calls made to the status callback are recorded in `notified`. Routing decisions
 * (which conversation key an event belongs to, how a profile update patches the contacts)
 * are pure functions below.
 */
module SocketService {
  import opened Wrappers
  import opened Text
  import opened OrderedMaps
  import opened Store

  /** The reconnection options the service passes to the socket library. */
  const MaxReconnectAttempts: nat := 5
  const ReconnectDelayMs: nat := 1000

  // ------------------------------------------------------------------
  // Inbound payloads
  // ------------------------------------------------------------------

  /** The fields of a `new_message` event as the service reads them. */
  datatype MessageData = MessageData(
    id: int,
    content: Option<string>,
    senderId: int,
    receiverId: Option<int>,
    groupId: Option<int>,
    createdAt: string,
    status: string,
    fileUrl: Option<string>,
    fileType: Option<string>,
    fileName: Option<string>)

  /** The fields of a `typing_start` / `typing_stop` event. */
  datatype TypingData = TypingData(userId: int, receiverId: Option<int>, groupId: Option<int>)

  /** The connection events the service subscribes to. */
  datatype ConnectionEvent =
    | ConnectEvent         // 'connect'
    | ServerConfirmed      // 'connected', sent by the server
    | DisconnectEvent      // 'disconnect'
    | ConnectError         // 'connect_error'
    | ReconnectAttempt     // 'reconnect_attempt'
    | ReconnectEvent       // 'reconnect'
    | ReconnectFailed      // 'reconnect_failed'

  // ------------------------------------------------------------------
  // Outbound events
  // ------------------------------------------------------------------

  /** The payload of `sendMessage`: every key is optional. */
  datatype SendPayload = SendPayload(
    kind: Option<string>,
    content: Option<string>,
    receiverId: Option<int>,
    groupId: Option<int>,
    fileUrl: Option<string>,
    fileType: Option<string>,
    fileName: Option<string>,
    fileSize: Option<int>)

  datatype ProfileData = ProfileData(
    displayName: Option<string>,
    about: Option<string>,
    profilePhotoUrl: Option<string>)

  /** An event emitted on the socket. */
  datatype Emit =
    | SendMessageEmit(payload: SendPayload)
    | TypingStartEmit(receiverId: Option<int>, groupId: Option<int>)
    | TypingStopEmit(receiverId: Option<int>, groupId: Option<int>)
    | MessageReadEmit(messageId: int)
    | ProfileUpdatedEmit(profile: ProfileData)

  // ------------------------------------------------------------------
  // Routing of inbound messages
  // ------------------------------------------------------------------

  /**
   * The bucket a `new_message` is filed under: the group's key when the message carries a
   * (truthy) group id; otherwise the key of the other party, which is the receiver when the
   * current user sent it and the sender when someone else did.
   */
  function NewMessageKey(d: MessageData, currentUserId: Option<int>): (key: string)
    ensures Truthy(d.groupId) ==> key == ChatKey(d.groupId.value, GroupChat)
    ensures !Truthy(d.groupId) && currentUserId == Some(d.senderId) ==> key == ContactKeyOf(d.receiverId)
    ensures !Truthy(d.groupId) && currentUserId != Some(d.senderId) ==> key == ChatKey(d.senderId, ContactChat)
  {
    if Truthy(d.groupId) then ChatKey(d.groupId.value, GroupChat)
    else
      var isMe := currentUserId == Some(d.senderId);
      var otherId := if isMe then d.receiverId else Some(d.senderId);
      ContactKeyOf(otherId)
  }

  /**
   * Both directions of a direct conversation land in the same bucket: what the current user
   * sent to `other` and what `other` sent to the current user are both filed under
   * `contact_<other>`, and never under a group key.
   */
  lemma DirectConversationSharesBucket(me: int, other: int, sent: MessageData, received: MessageData)
    requires me != other
    requires !Truthy(sent.groupId) && sent.senderId == me && sent.receiverId == Some(other)
    requires !Truthy(received.groupId) && received.senderId == other
    ensures NewMessageKey(sent, Some(me)) == NewMessageKey(received, Some(me)) == ChatKey(other, ContactChat)
    ensures forall g :: NewMessageKey(sent, Some(me)) != ChatKey(g, GroupChat)
  {
    forall g ensures ChatKey(other, ContactChat) != ChatKey(g, GroupChat) {
      ChatKeyInjective(other, ContactChat, g, GroupChat);
    }
  }

  /** The store message built from the payload: every field copied, the side derived. */
  function ToStoreMessage(d: MessageData, currentUserId: Option<int>): (m: Message)
    ensures m.sender == Some(if currentUserId == Some(d.senderId) then Me else Them)
    ensures m.id == d.id && m.content == d.content && m.senderId == d.senderId
    ensures m.receiverId == d.receiverId && m.groupId == d.groupId && m.createdAt == d.createdAt
    ensures m.status == d.status && m.fileUrl == d.fileUrl && m.fileType == d.fileType && m.fileName == d.fileName
  {
    Message(d.id, d.content, d.senderId, d.receiverId, d.groupId, d.createdAt, d.status,
            d.fileUrl, d.fileType, d.fileName,
            Some(if currentUserId == Some(d.senderId) then Me else Them))
  }

  /**
   * For a direct message between two different users, the message is tagged as the current
   * user's own exactly when it is filed under its receiver's key.
   */
  lemma OwnMessagesFiledUnderReceiver(d: MessageData, currentUserId: Option<int>)
    requires !Truthy(d.groupId) && d.receiverId.Some? && d.receiverId != Some(d.senderId)
    ensures ToStoreMessage(d, currentUserId).sender == Some(Me) <==> NewMessageKey(d, currentUserId) == ContactKeyOf(d.receiverId)
  {
    if currentUserId != Some(d.senderId) && NewMessageKey(d, currentUserId) == ContactKeyOf(d.receiverId) {
      ChatKeyInjective(d.senderId, ContactChat, d.receiverId.value, ContactChat);
    }
  }

  /**
   * The typing set a typing event touches: the group's key when it carries a group id, the
   * typist's contact key when it carries a receiver id, and none otherwise.
   */
  function TypingKey(d: TypingData): (key: Option<string>)
    ensures Truthy(d.groupId) ==> key == Some(ChatKey(d.groupId.value, GroupChat))
    ensures !Truthy(d.groupId) && Truthy(d.receiverId) ==> key == Some(ChatKey(d.userId, ContactChat))
    ensures key.None? <==> !Truthy(d.groupId) && !Truthy(d.receiverId)
  {
    if Truthy(d.groupId) then Some(ChatKey(d.groupId.value, GroupChat))
    else if Truthy(d.receiverId) then Some(ChatKey(d.userId, ContactChat))
    else None
  }

  // ------------------------------------------------------------------
  // Contact profile updates
  // ------------------------------------------------------------------

  /** JavaScript truthiness of an optional string: absent and "" are falsy. */
  predicate TruthyText(s: Option<string>)
  {
    s.Some? && s.value != ""
  }

  /** The name shown for a contact: the display name if non-empty, else the email's local part. */
  function DisplayNameOr(displayName: Option<string>, email: string): (name: string)
    ensures TruthyText(displayName) ==> name == displayName.value
    ensures !TruthyText(displayName) ==> '@' !in name && (email == name || StartsWith(email, name + "@"))
  {
    if TruthyText(displayName) then displayName.value
    else
      var local := BeforeFirst(email, '@');
      assert |local| < |email| ==> email[..|local| + 1] == local + "@";
      local
  }

  /**
   * `contact_profile_updated`: every contact with the given id gets the new name, about and
   * photo (an absent about or photo is written as absent); all other contacts are unchanged,
   * and the list keeps its length and order.
   */
  function PatchContacts(contacts: seq<Contact>, userId: int, p: ProfileData): (r: seq<Contact>)
    ensures |r| == |contacts|
    ensures forall i :: 0 <= i < |contacts| && contacts[i].id != userId ==> r[i] == contacts[i]
    ensures forall i :: 0 <= i < |contacts| && contacts[i].id == userId ==>
      && r[i].id == userId && r[i].email == contacts[i].email && r[i].status == contacts[i].status
      && r[i].name == Some(DisplayNameOr(p.displayName, contacts[i].email))
      && r[i].about == p.about && r[i].profilePhotoUrl == p.profilePhotoUrl
  {
    if contacts == [] then []
    else
      var c := contacts[0];
      var head := if c.id == userId
        then c.(name := Some(DisplayNameOr(p.displayName, c.email)), about := p.about, profilePhotoUrl := p.profilePhotoUrl)
        else c;
      [head] + PatchContacts(contacts[1..], userId, p)
  }

  /** Applying the same profile update twice is the same as applying it once. */
  lemma PatchContactsIdempotent(contacts: seq<Contact>, userId: int, p: ProfileData)
    ensures PatchContacts(PatchContacts(contacts, userId, p), userId, p) == PatchContacts(contacts, userId, p)
  {
    var once := PatchContacts(contacts, userId, p);
    var twice := PatchContacts(once, userId, p);
    assert |twice| == |once|;
    forall i | 0 <= i < |once| ensures twice[i] == once[i] {
    }
  }

  // ------------------------------------------------------------------
  // Connection events
  // ------------------------------------------------------------------

  /** The reconnect counter after an event: reset by connect and reconnect, bumped by an error. */
  function NextAttempts(e: ConnectionEvent, attempts: nat): (r: nat)
    ensures r == 0 <==> e == ConnectEvent || e == ReconnectEvent || (attempts == 0 && e != ConnectError)
    ensures e == ConnectError ==> r == attempts + 1
    ensures e != ConnectError && r != 0 ==> r == attempts
  {
    match e
    case ConnectEvent => 0
    case ReconnectEvent => 0
    case ConnectError => attempts + 1
    case _ => attempts
  }

  /** The status an event reports to the store. */
  function ReportedStatus(e: ConnectionEvent): (s: ConnectionStatus)
    ensures s == Connected <==> e in {ConnectEvent, ServerConfirmed, ReconnectEvent}
    ensures s == Reconnecting <==> e in {ConnectError, ReconnectAttempt}
  {
    match e
    case ConnectEvent => Connected
    case ServerConfirmed => Connected
    case DisconnectEvent => Disconnected
    case ConnectError => Reconnecting
    case ReconnectAttempt => Reconnecting
    case ReconnectEvent => Connected
    case ReconnectFailed => Disconnected
  }

  /** Every event except the server's confirmation goes through `updateConnectionStatus`. */
  predicate NotifiesCallback(e: ConnectionEvent)
  {
    e != ServerConfirmed
  }

  /** The counter after a sequence of events, starting from `attempts`. */
  function AttemptsAfter(es: seq<ConnectionEvent>, attempts: nat): nat
    decreases |es|
  {
    if es == [] then attempts else AttemptsAfter(es[1..], NextAttempts(es[0], attempts))
  }

  function CountErrors(es: seq<ConnectionEvent>): nat
  {
    if es == [] then 0 else CountErrors(es[..|es| - 1]) + (if es[|es| - 1] == ConnectError then 1 else 0)
  }

  /** Whether `es` contains a connect or reconnect event. */
  predicate HasReset(es: seq<ConnectionEvent>)
  {
    exists i | 0 <= i < |es| :: es[i] == ConnectEvent || es[i] == ReconnectEvent
  }

  /**
   * The reconnect counter counts the connection errors since the last successful connect or
   * reconnect (or since the start, added to the initial value, when there was none).
   */
  lemma {:induction false} AttemptsCountErrorsSinceReset(es: seq<ConnectionEvent>, attempts: nat)
    ensures !HasReset(es) ==> AttemptsAfter(es, attempts) == attempts + CountErrors(es)
    ensures forall i :: 0 <= i < |es| && (es[i] == ConnectEvent || es[i] == ReconnectEvent) && !HasReset(es[i + 1..]) ==>
      AttemptsAfter(es, attempts) == CountErrors(es[i + 1..])
    decreases |es|
  {
    if es != [] {
      var last := es[|es| - 1];
      var init := es[..|es| - 1];
      assert es == init + [last];
      AttemptsAfterSnoc(init, last, attempts);
      AttemptsCountErrorsSinceReset(init, attempts);
      assert CountErrors(es) == CountErrors(init) + (if last == ConnectError then 1 else 0);
      if !HasReset(es) {
        assert !HasReset(init);
        assert last != ConnectEvent && last != ReconnectEvent;
      }
      forall i | 0 <= i < |es| && (es[i] == ConnectEvent || es[i] == ReconnectEvent) && !HasReset(es[i + 1..])
        ensures AttemptsAfter(es, attempts) == CountErrors(es[i + 1..])
      {
        if i == |es| - 1 {
          assert es[i + 1..] == [];
        } else {
          var tail := es[i + 1..];
          assert tail[|tail| - 1] == last;
          assert !HasReset(init[i + 1..]);
          assert last != ConnectEvent && last != ReconnectEvent by {
            assert tail[|tail| - 1] == last;
          }
          assert tail[..|tail| - 1] == init[i + 1..];
        }
      }
    }
  }

  lemma {:induction false} AttemptsAfterSnoc(es: seq<ConnectionEvent>, e: ConnectionEvent, attempts: nat)
    ensures AttemptsAfter(es + [e], attempts) == NextAttempts(e, AttemptsAfter(es, attempts))
    decreases |es|
  {
    if es != [] {
      assert (es + [e])[1..] == es[1..] + [e];
      AttemptsAfterSnoc(es[1..], e, NextAttempts(es[0], attempts));
    }
  }

  // ------------------------------------------------------------------
  // The service
  // ------------------------------------------------------------------

  class SocketService {
    /** The chat store the handlers write. */
    const store: ChatStore
    /** Whether the service holds a socket (`this.socket !== null`). */
    var hasSocket: bool
    /** The held socket's `connected` flag. */
    var socketConnected: bool
    var token: Option<string>
    var reconnectAttempts: nat
    /** Whether a status callback has been registered. */
    var hasCallback: bool
    /** The statuses passed to the registered callback, oldest first. */
    var notified: seq<ConnectionStatus>
    /** The events emitted on sockets, oldest first. */
    var outbox: seq<Emit>

    predicate IsConnected()
      reads this
    {
      hasSocket && socketConnected
    }

    constructor (store: ChatStore)
      ensures this.store == store
      ensures !hasSocket && !socketConnected && token == None && reconnectAttempts == 0
      ensures !hasCallback && notified == [] && outbox == []
    {
      this.store := store;
      hasSocket, socketConnected, token, reconnectAttempts := false, false, None, 0;
      hasCallback, notified, outbox := false, [], [];
    }

    /**
     * `connect(token)`: nothing when the held socket is connected; otherwise remembers the
     * token and opens a new, not yet connected socket in place of any old one.
     */
    method Connect(token: string)
      modifies this
      ensures old(IsConnected()) ==> hasSocket == old(hasSocket) && socketConnected == old(socketConnected) && this.token == old(this.token)
      ensures !old(IsConnected()) ==> hasSocket && !socketConnected && this.token == Some(token)
      ensures reconnectAttempts == old(reconnectAttempts) && hasCallback == old(hasCallback)
      ensures notified == old(notified) && outbox == old(outbox)
    {
      if IsConnected() {
        return;
      }
      this.token := Some(token);
      hasSocket, socketConnected := true, false;
    }

    /** `onConnectionStatusChange(callback)`. */
    method OnConnectionStatusChange()
      modifies this`hasCallback
      ensures hasCallback
    {
      hasCallback := true;
    }

    /**
     * A connection event: the counter moves as `NextAttempts` says, the store records the
     * reported status, the callback (if any) hears it unless it is the server's confirmation,
     * and the socket's own flag follows the event.
     */
    method HandleConnectionEvent(e: ConnectionEvent)
      modifies this, store
      ensures reconnectAttempts == NextAttempts(e, old(reconnectAttempts))
      ensures store.state == old(store.state).(connectionStatus := ReportedStatus(e))
      ensures notified == old(notified) + (if hasCallback && NotifiesCallback(e) then [ReportedStatus(e)] else [])
      ensures socketConnected == (if e in {ConnectEvent, ReconnectEvent} then true
                                  else if e == DisconnectEvent then false else old(socketConnected))
      ensures hasSocket == old(hasSocket) && token == old(token) && hasCallback == old(hasCallback) && outbox == old(outbox)
    {
      reconnectAttempts := NextAttempts(e, reconnectAttempts);
      var status := ReportedStatus(e);
      store.SetConnectionStatus(status);
      if NotifiesCallback(e) && hasCallback {
        notified := notified + [status];
      }
      if e == ConnectEvent || e == ReconnectEvent {
        socketConnected := true;
      } else if e == DisconnectEvent {
        socketConnected := false;
      }
    }

    /** `new_message`: the message is added, with the dedup of `addMessage`, to its bucket. */
    method HandleNewMessage(d: MessageData, currentUserId: Option<int>)
      requires store.Valid()
      modifies store
      ensures store.Valid()
      ensures store.state == old(store.state).(messages :=
        AddToBucket(old(store.state.messages), NewMessageKey(d, currentUserId), ToStoreMessage(d, currentUserId)))
    {
      var key := NewMessageKey(d, currentUserId);
      store.AddMessage(key, ToStoreMessage(d, currentUserId));
    }

    /** `typing_start` (isTyping) and `typing_stop` (not isTyping). */
    method HandleTyping(d: TypingData, isTyping: bool)
      modifies store
      ensures TypingKey(d).None? ==> store.state == old(store.state)
      ensures TypingKey(d).Some? ==> store.state == old(store.state).(typingUsers :=
        UpdateTyping(old(store.state.typingUsers), TypingKey(d).value, d.userId, isTyping))
    {
      var key := TypingKey(d);
      if key.Some? {
        store.SetTyping(key.value, d.userId, isTyping);
      }
    }

    /** `user_status`. */
    method HandleUserStatus(userId: int, status: string)
      modifies store
      ensures store.state == old(store.state).(userStatuses := UpdatePresence(old(store.state.userStatuses), userId, status))
    {
      store.UpdateUserStatus(userId, status);
    }

    /**
     * `message_read`: marks the message read by its `message_id`. A payload without one
     * matches no message, so the store keeps its state.
     */
    method HandleMessageRead(messageId: Option<int>)
      requires store.Valid()
      modifies store
      ensures store.Valid()
      ensures messageId.None? ==> store.state == old(store.state)
      ensures messageId.Some? ==> store.state == old(store.state).(messages :=
        SetStatusById(old(store.state.messages), messageId.value, "read"))
    {
      if messageId.Some? {
        store.UpdateMessageStatus(messageId.value, "read");
      }
    }

    /** `contact_profile_updated`. */
    method HandleContactProfileUpdated(userId: int, p: ProfileData)
      modifies store
      ensures store.state == old(store.state).(contacts := PatchContacts(old(store.state.contacts), userId, p))
    {
      store.SetContacts(PatchContacts(store.state.contacts, userId, p));
    }

    /** `sendMessage`: emits exactly one event and answers true when connected; else nothing, false. */
    method SendMessage(payload: SendPayload) returns (sent: bool)
      modifies this`outbox
      ensures sent == IsConnected()
      ensures outbox == old(outbox) + (if sent then [SendMessageEmit(payload)] else [])
    {
      if !IsConnected() {
        return false;
      }
      outbox := outbox + [SendMessageEmit(payload)];
      return true;
    }

    method SendTypingStart(receiverId: Option<int>, groupId: Option<int>)
      modifies this`outbox
      ensures outbox == old(outbox) + (if IsConnected() then [TypingStartEmit(receiverId, groupId)] else [])
    {
      if IsConnected() {
        outbox := outbox + [TypingStartEmit(receiverId, groupId)];
      }
    }

    method SendTypingStop(receiverId: Option<int>, groupId: Option<int>)
      modifies this`outbox
      ensures outbox == old(outbox) + (if IsConnected() then [TypingStopEmit(receiverId, groupId)] else [])
    {
      if IsConnected() {
        outbox := outbox + [TypingStopEmit(receiverId, groupId)];
      }
    }

    method SendMessageRead(messageId: int)
      modifies this`outbox
      ensures outbox == old(outbox) + (if IsConnected() then [MessageReadEmit(messageId)] else [])
    {
      if IsConnected() {
        outbox := outbox + [MessageReadEmit(messageId)];
      }
    }

    method EmitProfileUpdate(p: ProfileData)
      modifies this`outbox
      ensures outbox == old(outbox) + (if IsConnected() then [ProfileUpdatedEmit(p)] else [])
    {
      if IsConnected() {
        outbox := outbox + [ProfileUpdatedEmit(p)];
      }
    }

    /**
     * `disconnect()`: drops the socket, if any; the token and counter are kept. Closing a
     * connected socket makes the client library raise its `disconnect` event first, whose
     * handler reports "disconnected" to the store and the callback.
     */
    method Disconnect()
      modifies this, store
      ensures !hasSocket && !IsConnected()
      ensures old(!hasSocket) ==> socketConnected == old(socketConnected)
      ensures old(hasSocket && socketConnected) ==>
        && store.state == old(store.state).(connectionStatus := Disconnected)
        && notified == old(notified) + (if hasCallback then [Disconnected] else [])
      ensures !old(hasSocket && socketConnected) ==> store.state == old(store.state) && notified == old(notified)
      ensures reconnectAttempts == old(reconnectAttempts) && token == old(token)
      ensures hasCallback == old(hasCallback) && outbox == old(outbox)
    {
      if hasSocket {
        if socketConnected {
          HandleConnectionEvent(DisconnectEvent);
        }
        hasSocket, socketConnected := false, false;
      }
    }
  }
}
