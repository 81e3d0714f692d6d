/**
 * The desktop client's chat window (client/ui/chat_window.py): the open chat, the contact
 * list, the transcript of HTML lines and the message input. What the network layer does
 * with a send (client/network.py) is not part of this model: the window's sends are
 * recorded as requests.
 */
module QtChatWindow {
  import opened Wrappers
  import opened Text
  import Store

  /** One user of the contacts response: the fields the window reads. */
  datatype ContactEntry = ContactEntry(id: int, email: string)

  /** A row of the contact list: its text and the id stored with it. */
  datatype ListItem = ListItem(text: string, id: int)

  /** A send handed to the network layer: the receiver and the text. */
  datatype SendRequest = SendRequest(receiverId: int, content: string)

  /**
   * An event from the socket, after `json.loads`: its `type`, `sender_id` and `content`,
   * each `None` when absent (or null).
   */
  datatype Incoming = Incoming(kind: Option<string>, senderId: Option<int>, content: Option<string>)

  const InitialHeader: string := "Select a contact to start chatting"
  const OwnLabel: string := "Me"
  const OtherLabel: string := "Them"

  /** A transcript line: the sender in bold, a colon, a space and the text. */
  function TranscriptLine(sender: string, text: string): (r: string)
    ensures |r| == |sender| + |text| + 9
    ensures StartsWith(r, "<b>" + sender + ":</b> ") && EndsWith(r, text)
  {
    "<b>" + sender + ":</b> " + text
  }

  /** Lines with the same sender are equal exactly when their texts are. */
  lemma TranscriptLineInjective(sender: string, a: string, b: string)
    ensures TranscriptLine(sender, a) == TranscriptLine(sender, b) <==> a == b
  {
    if TranscriptLine(sender, a) == TranscriptLine(sender, b) {
      var n := |sender| + 9;
      assert TranscriptLine(sender, a)[n..] == a;
      assert TranscriptLine(sender, b)[n..] == b;
    }
  }

  /** How Python's f-string shows the `content` value: the text, or "None" when it is missing. */
  function Shown(content: Option<string>): string
  {
    if content.Some? then content.value else "None"
  }

  /**
   * `on_message_received`: the line to append, if any. Only `new_message` events count,
   * and only one whose sender equals the open chat (as Python compares them: a missing
   * sender equals no open chat); the user's own echoes and other senders add nothing.
   */
  function Received(current: Option<int>, e: Incoming): (r: Option<string>)
    ensures r.Some? <==> e.kind == Some("new_message") && e.senderId == current
    ensures r.Some? ==> r.value == TranscriptLine(OtherLabel, Shown(e.content))
  {
    if e.kind == Some("new_message") && e.senderId == current then Some(TranscriptLine(OtherLabel, Shown(e.content)))
    else None
  }

  /** `update_contact_list`: one row per contact, in order, showing the email and carrying the id. */
  function ContactRows(contacts: seq<ContactEntry>): (r: seq<ListItem>)
    ensures |r| == |contacts|
    ensures forall i :: 0 <= i < |r| ==> r[i].text == contacts[i].email && r[i].id == contacts[i].id
  {
    seq(|contacts|, i requires 0 <= i < |contacts| => ListItem(contacts[i].email, contacts[i].id))
  }

  class ChatWindow {
    var currentChatId: Option<int>
    var header: string
    /** The messages area, one HTML line per message. */
    var transcript: seq<string>
    var contactList: seq<ListItem>
    /** The message input's text. */
    var input: string
    /** The sends handed to the network layer, oldest first. */
    var requests: seq<SendRequest>

    constructor ()
      ensures currentChatId == None && header == InitialHeader && transcript == []
      ensures contactList == [] && input == "" && requests == []
    {
      currentChatId, header, transcript := None, InitialHeader, [];
      contactList, input, requests := [], "", [];
    }

    method SetInput(text: string)
      modifies this`input
      ensures input == text
    {
      input := text;
    }

    /** `update_contact_list`: the list is cleared and refilled from the response. */
    method UpdateContactList(contacts: seq<ContactEntry>)
      modifies this`contactList
      ensures contactList == ContactRows(contacts)
    {
      contactList := [];
      var i := 0;
      while i < |contacts|
        invariant 0 <= i <= |contacts|
        invariant contactList == ContactRows(contacts[..i])
      {
        contactList := contactList + [ListItem(contacts[i].email, contacts[i].id)];
        i := i + 1;
      }
      assert contacts[..i] == contacts;
    }

    /** `on_contact_selected`: the row's contact becomes the open chat, with its header, and the transcript is cleared. */
    method OnContactSelected(item: ListItem)
      modifies this`currentChatId, this`header, this`transcript
      ensures currentChatId == Some(item.id)
      ensures header == "Chatting with " + item.text
      ensures transcript == []
    {
      currentChatId := Some(item.id);
      header := "Chatting with " + item.text;
      transcript := [];
    }

    /**
     * `send_message`: nothing without an open chat (an id of 0 counts as none) or with
     * blank input; otherwise the stripped text is handed to the network layer, appended
     * locally as the user's own line before any echo arrives, and the input is cleared.
     */
    method SendMessage()
      modifies this`transcript, this`input, this`requests
      ensures !Store.Truthy(currentChatId) || PyStrip(old(input)) == "" ==>
        transcript == old(transcript) && input == old(input) && requests == old(requests)
      ensures Store.Truthy(currentChatId) && PyStrip(old(input)) != "" ==>
        && requests == old(requests) + [SendRequest(currentChatId.value, PyStrip(old(input)))]
        && transcript == old(transcript) + [TranscriptLine(OwnLabel, PyStrip(old(input)))]
        && input == ""
    {
      if !Store.Truthy(currentChatId) {
        return;
      }
      var text := PyStrip(input);
      if text == "" {
        return;
      }
      requests := requests + [SendRequest(currentChatId.value, text)];
      transcript := transcript + [TranscriptLine(OwnLabel, text)];
      input := "";
    }

    /** `on_message_received`, following `Received`. */
    method OnMessageReceived(e: Incoming)
      modifies this`transcript
      ensures transcript == old(transcript) + (if Received(currentChatId, e).Some? then [Received(currentChatId, e).value] else [])
    {
      if e.kind == Some("new_message") {
        if e.senderId == currentChatId {
          transcript := transcript + [TranscriptLine(OtherLabel, Shown(e.content))];
        }
      }
    }
  }

  /**
   * The user's own message shows once, as a "Me" line: the server's echo of it names the
   * user as sender, which is not the open chat, so it adds no line.
   */
  lemma OwnEchoAddsNoLine(current: int, me: int, content: string)
    requires current != me
    ensures Received(Some(current), Incoming(Some("new_message"), Some(me), Some(content))).None?
  {
  }
}
