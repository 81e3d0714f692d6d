/**
 * The React chat window (frontend/src/components/chat/chat-window.tsx): which stored
 * conversation it shows, how a fetched history becomes store messages, and how the input
 * becomes a `send_message` payload.
 */
module ChatWindow {
  import opened Wrappers
  import opened Text
  import opened OrderedMaps
  import opened Store
  import SocketService

  /** The conversation key of the open chat: none unless both an id and a type are set. */
  function ChatKeyFor(activeId: Option<int>, activeType: Option<ChatType>): (r: Option<string>)
    ensures r.Some? <==> Truthy(activeId) && activeType.Some?
    ensures r.Some? ==> r.value == ChatKey(activeId.value, activeType.value)
  {
    if Truthy(activeId) && activeType.Some? then Some(ChatKey(activeId.value, activeType.value)) else None
  }

  /** `currentMessages`: the open conversation's bucket, empty when there is none or no chat is open. */
  function CurrentMessages(s: ChatState): (r: seq<Message>)
    ensures ChatKeyFor(s.activeId, s.activeType).None? ==> r == []
    ensures ChatKeyFor(s.activeId, s.activeType).Some? ==>
      var key := ChatKeyFor(s.activeId, s.activeType).value;
      && (key in s.messages.entries ==> r == s.messages.entries[key])
      && (key !in s.messages.entries ==> r == [])
  {
    match ChatKeyFor(s.activeId, s.activeType)
    case None => []
    case Some(key) => Bucket(s.messages, key)
  }

  // ------------------------------------------------------------------
  // History
  // ------------------------------------------------------------------

  /** One message of the history response, as the backend serialises it. */
  datatype HistoryItem = HistoryItem(
    id: int,
    content: Option<string>,
    senderId: int,
    receiverId: Option<int>,
    groupId: Option<int>,
    createdAt: string,
    status: string,
    fileUrl: Option<string>,
    fileType: Option<string>,
    fileName: Option<string>)

  /**
   * The mapping of one history item: the fields are copied except the file type, which is
   * not carried over, and the side is `Me` exactly when the sender is the logged-in user.
   */
  function MapItem(m: HistoryItem, user: Option<User>): (r: Message)
    ensures r.id == m.id && r.content == m.content && r.senderId == m.senderId
    ensures r.receiverId == m.receiverId && r.groupId == m.groupId && r.createdAt == m.createdAt
    ensures r.status == m.status && r.fileUrl == m.fileUrl && r.fileName == m.fileName
    ensures r.fileType == None
    ensures r.sender == Some(Me) <==> user.Some? && user.value.id == m.senderId
    ensures r.sender == Some(Me) || r.sender == Some(Them)
  {
    Message(m.id, m.content, m.senderId, m.receiverId, m.groupId, m.createdAt, m.status,
            m.fileUrl, None, m.fileName,
            if user.Some? && m.senderId == user.value.id then Some(Me) else Some(Them))
  }

  /** `res.data.map(...)`: one message per item, in order. */
  function MapHistory(items: seq<HistoryItem>, user: Option<User>): (r: seq<Message>)
    ensures |r| == |items| && forall i :: 0 <= i < |items| ==> r[i] == MapItem(items[i], user)
  {
    seq(|items|, i requires 0 <= i < |items| => MapItem(items[i], user))
  }

  /**
   * `fetchHistory`: a successful response replaces the open conversation's bucket
   * wholesale; a failed request, or no open conversation, leaves the store as it was.
   */
  method FetchHistory(store: ChatStore, user: Option<User>, response: Option<seq<HistoryItem>>)
    requires store.Valid()
    modifies store
    ensures store.Valid()
    ensures var key := ChatKeyFor(old(store.state).activeId, old(store.state).activeType);
      store.state == if response.Some? && key.Some?
        then old(store.state).(messages := ReplaceBucket(old(store.state).messages, key.value, MapHistory(response.value, user)))
        else old(store.state)
  {
    var key := ChatKeyFor(store.state.activeId, store.state.activeType);
    if response.Some? && key.Some? {
      store.SetMessages(key.value, MapHistory(response.value, user));
    }
  }

  /** After a fetch, the window shows exactly the fetched history. */
  lemma FetchedHistoryIsShown(s: ChatState, items: seq<HistoryItem>, user: Option<User>)
    requires s.messages.Valid() && ChatKeyFor(s.activeId, s.activeType).Some?
    ensures var key := ChatKeyFor(s.activeId, s.activeType).value;
      CurrentMessages(s.(messages := ReplaceBucket(s.messages, key, MapHistory(items, user)))) == MapHistory(items, user)
  {
  }

  // ------------------------------------------------------------------
  // Sending
  // ------------------------------------------------------------------

  /**
   * The payload for the input text: type "text", the text as typed (not trimmed), and the
   * open chat's id as the group for a group chat and as the receiver otherwise, never both.
   */
  function BuildPayload(inputText: string, activeId: int, activeType: Option<ChatType>): (r: SocketService.SendPayload)
    ensures r.kind == Some("text") && r.content == Some(inputText)
    ensures activeType == Some(GroupChat) ==> r.groupId == Some(activeId) && r.receiverId == None
    ensures activeType != Some(GroupChat) ==> r.receiverId == Some(activeId) && r.groupId == None
    ensures r.fileUrl == None && r.fileType == None && r.fileName == None && r.fileSize == None
  {
    if activeType == Some(GroupChat) then
      SocketService.SendPayload(Some("text"), Some(inputText), None, Some(activeId), None, None, None, None)
    else
      SocketService.SendPayload(Some("text"), Some(inputText), Some(activeId), None, None, None, None, None)
  }

  /** The window's own state: the text in the input. */
  class ChatWindowView {
    var inputText: string

    constructor ()
      ensures inputText == ""
    {
      inputText := "";
    }

    method SetInputText(text: string)
      modifies this
      ensures inputText == text
    {
      inputText := text;
    }

    /**
     * `handleSendMessage`: nothing without non-blank input and an open chat; otherwise the
     * payload is handed to the socket service and the input is cleared whether or not the
     * service sent it. No message is put in the store here.
     */
    method HandleSendMessage(store: ChatStore, socket: SocketService.SocketService)
      modifies this, socket`outbox
      ensures var s := store.state;
        && (JsTrim(old(inputText)) == "" || !Truthy(s.activeId) ==>
              inputText == old(inputText) && socket.outbox == old(socket.outbox))
        && (JsTrim(old(inputText)) != "" && Truthy(s.activeId) ==>
              && inputText == ""
              && socket.outbox == old(socket.outbox)
                   + (if socket.IsConnected() then [SocketService.SendMessageEmit(BuildPayload(old(inputText), s.activeId.value, s.activeType))] else []))
    {
      if JsTrim(inputText) == "" || !Truthy(store.state.activeId) {
        return;
      }
      var payload := BuildPayload(inputText, store.state.activeId.value, store.state.activeType);
      var _ := socket.SendMessage(payload);
      inputText := "";
    }
  }
}
