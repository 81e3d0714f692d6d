# E_Chat chat state and message routing, modelled in Dafny

This project models the part of E_Chat that holds chat state and routes messages:

- **Next.js frontend state and transport.**
  - The Zustand chat and auth stores (`Store`).
  - The Socket.IO client service (`SocketService`).
  - The chat window and sidebar (`ChatWindow`, `ChatSidebar`).
  - The attachment button and attachment view (`FileUpload`, `FileMessage`).
  - The voice recorder (`VoiceRecorder`).
  - The settings page (`SettingsPage`).
  - The theme provider (`ThemeProvider`).
- **FastAPI backend.**
  - The WebSocket connection registry (`ConnectionManager`).
  - The CRUD layer over the tables (`Crud`, with the `CrudSession.Database` class holding the tables).
  - The chat router with its WebSocket session loop (`ChatRouter`).
  - The profile router (`ProfileRouter`).
  - The database URL rewrite (`DatabaseUrl`).
- **The two other clients.**
  - The vanilla JavaScript page (`VanillaClient`).
  - The Qt desktop window (`QtChatWindow`).
- **Shared modules.**
  - `Wrappers` gives `Option` and `Result`.
  - `Text` covers decimal rendering, prefixes and suffixes, ASCII case, JavaScript `trim` and Python `strip`.
  - `OrderedMaps` holds the insertion-ordered maps that JavaScript objects and Python dicts are.

**How state is represented**
- Objects whose fields the source updates in place are classes: the stores, the socket service, the connection manager, the database session, the voice recorder, the uploader, the settings page, and both client windows. Their methods are specified against pure transition functions, and the properties are proved about those functions.
- Pure helpers are functions.
- The theme provider's effects are functions from state to state.
- Sockets are an abstract connected flag plus a log of what was emitted or delivered.
- Timers become explicit events, such as `Tick`, `TypingTimerFires` and `ClearTimerFires`.
- HTTP responses, the clock and random UUIDs are parameters.
- JavaScript truthiness is spelled out where the source depends on it. A numeric id of 0 and an empty string are falsy (`Store.Truthy`, `SocketService.TruthyText`).

## Model

| member | source | states |
|---|---|---|
| Store.InitialChatState | frontend/src/lib/store.ts:113-121 | the chat store starts with no contacts, no groups and no open chat; every chat's bucket reads as empty; nobody is typing, no presence is known, and the status is disconnected |
| Store.ChatKey | frontend/src/lib/store.ts:111 | a chat's key is its type name, an underscore, and its id in decimal |
| Store.Bucket | frontend/src/lib/store.ts:134 | a key with a bucket reads as that bucket; a key without one reads as empty |
| Store.ChatKeyInjective | frontend/src/lib/store.ts:111 | `getChatKey` gives distinct keys to distinct (id, type) pairs, so contact and group chats never share a bucket |
| Store.UndefinedContactKeyIsFresh | frontend/src/lib/store.ts:111 | the key built from a missing id ("contact_undefined") is never the key of a real chat |
| Store.ReplaceBucket | frontend/src/lib/store.ts:127-130 | `setMessages` makes the bucket exactly the given list; every other bucket is unchanged; a known key keeps its place in key order and a new key goes last |
| Store.AddToBucket | frontend/src/lib/store.ts:132-142 | `addMessage` leaves the store unchanged when the bucket already holds that id; otherwise it appends the message, creating the bucket if missing; other buckets are untouched; a known key keeps its place in key order and a new key goes last |
| Store.AddToBucketIdempotent | frontend/src/lib/store.ts:134-137 | adding the same message twice is the same as adding it once |
| Store.AddToBucketKeepsIdsUnique | frontend/src/lib/store.ts:134-141 | a bucket whose ids are distinct keeps them distinct after `addMessage` |
| Store.AddAllToBucketDeduplicates | frontend/src/lib/store.ts:132-142 | adding any sequence of messages keeps ids unique, keeps the old bucket as a prefix, holds every added id, and appends only given messages |
| Store.UpdateTyping | frontend/src/lib/store.ts:146-160 | `setTyping` adds or removes exactly that user from that chat's set; every other user and every other chat is unchanged |
| Store.UpdateTypingIdempotent | frontend/src/lib/store.ts:146-160 | repeating the same typing update changes nothing more |
| Store.UpdatePresence | frontend/src/lib/store.ts:162-165 | `updateUserStatus` sets that user's status and keeps everyone else's |
| Store.FindIndex | frontend/src/lib/store.ts:172-185 | the index of the first message with the id, or -1 exactly when there is none |
| Store.FirstBucketWith | frontend/src/lib/store.ts:172-185 | the first bucket, in key order, that holds the id, or -1 exactly when none does |
| Store.SetStatusById | frontend/src/lib/store.ts:167-188 | `updateMessageStatus` changes the status of only the first matching message in the first bucket that holds it, and stops there (the `break`); with no match the store is unchanged |
| Store.SetStatusByIdCanRegress | frontend/src/lib/store.ts:167-188 | a "read" message can be set back to "sent": the update has no forward-only check |
| Store.ChatStore.constructor | frontend/src/lib/store.ts:113-121 | a fresh store is in its initial state |
| Store.ChatStore.SetContacts | frontend/src/lib/store.ts:123 | replaces the contact list and nothing else |
| Store.ChatStore.SetGroups | frontend/src/lib/store.ts:124 | replaces the group list and nothing else |
| Store.ChatStore.SetActiveChat | frontend/src/lib/store.ts:125 | sets the active id and type and nothing else |
| Store.ChatStore.SetMessages | frontend/src/lib/store.ts:127-130 | the new state is `ReplaceBucket` of the old one; well-formedness is kept |
| Store.ChatStore.AddMessage | frontend/src/lib/store.ts:132-142 | the new state is `AddToBucket` of the old one; well-formedness is kept |
| Store.ChatStore.SetConnectionStatus | frontend/src/lib/store.ts:144 | sets the connection status and nothing else |
| Store.ChatStore.SetTyping | frontend/src/lib/store.ts:146-160 | the new typing map is `UpdateTyping` of the old one |
| Store.ChatStore.UpdateUserStatus | frontend/src/lib/store.ts:162-165 | the new status map is `UpdatePresence` of the old one |
| Store.ChatStore.UpdateMessageStatus | frontend/src/lib/store.ts:167-188 | the new message map is `SetStatusById` of the old one |
| Store.MergeUser | frontend/src/lib/store.ts:68-72 | `updateUser` does nothing without a user; otherwise each field given in the patch replaces the old one and the rest are kept |
| Store.AuthStore.constructor | frontend/src/lib/store.ts:62-78 | a fresh auth store holds no token or user and is not authenticated |
| Store.AuthStore.SetAuth | frontend/src/lib/store.ts:62-67 | stores the token and user, marks the session authenticated, and writes the token under "echat_token" |
| Store.AuthStore.UpdateUser | frontend/src/lib/store.ts:68-72 | the user becomes `MergeUser` of the old user and the patch |
| Store.AuthStore.Logout | frontend/src/lib/store.ts:73-78 | clears the token, the user and the stored token |
| SocketService.NewMessageKey | frontend/src/lib/socket.ts:134-142 | a group message is filed under its group; a direct message is filed under the receiver when the current user sent it, otherwise under the sender |
| SocketService.DirectConversationSharesBucket | frontend/src/lib/socket.ts:134-142 | one's own message to X and X's message to oneself land in the same contact bucket, which no group shares |
| SocketService.ToStoreMessage | frontend/src/lib/socket.ts:144-156 | every wire field is copied, and `sender` is "me" exactly when the sender is the current user |
| SocketService.OwnMessagesFiledUnderReceiver | frontend/src/lib/socket.ts:136-156 | a direct message is marked "me" exactly when it is filed under its receiver |
| SocketService.TypingKey | frontend/src/lib/socket.ts:164-189 | a group typing event uses the group key; a direct one uses the typist's contact key; with neither id the event is ignored |
| SocketService.DisplayNameOr | frontend/src/lib/socket.ts:299 | a non-empty display name wins; otherwise the part of the e-mail before the first '@' is used |
| SocketService.PatchContacts | frontend/src/lib/socket.ts:290-309 | only contacts with the user's id change: name, about and photo are replaced, while id, e-mail and status stay |
| SocketService.PatchContactsIdempotent | frontend/src/lib/socket.ts:290-309 | applying the same profile update twice equals applying it once |
| SocketService.NextAttempts | frontend/src/lib/socket.ts:48-84 | a connect or reconnect resets the attempt counter; a connect error adds one; any other event keeps it |
| SocketService.ReportedStatus | frontend/src/lib/socket.ts:48-84 | connect, server confirmation and reconnect report "connected"; connect error and reconnect attempt report "reconnecting"; the rest report "disconnected" |
| SocketService.AttemptsCountErrorsSinceReset | frontend/src/lib/socket.ts:48-84 | after any run of events, the counter equals the number of connect errors since the last connect or reconnect |
| SocketService.AttemptsAfterSnoc | frontend/src/lib/socket.ts:48-84 | the counter after one more event is `NextAttempts` applied to the counter before it |
| SocketService.SocketService.constructor | frontend/src/lib/socket.ts:4-10 | a fresh service has no socket, token, callback or emitted events, and zero attempts |
| SocketService.SocketService.Connect | frontend/src/lib/socket.ts:15-39 | does nothing while connected; otherwise keeps the token and opens a new, not-yet-connected socket |
| SocketService.SocketService.OnConnectionStatusChange | frontend/src/lib/socket.ts:273-275 | registers the status callback |
| SocketService.SocketService.HandleConnectionEvent | frontend/src/lib/socket.ts:48-84 | the counter follows `NextAttempts`; the store's status becomes `ReportedStatus`; the callback hears every event except the server's confirmation; only connect, reconnect and disconnect change the socket's connected flag |
| SocketService.SocketService.HandleNewMessage | frontend/src/lib/socket.ts:130-159 | adds `ToStoreMessage` under `NewMessageKey` through `addMessage` |
| SocketService.SocketService.HandleTyping | frontend/src/lib/socket.ts:164-189 | updates the typing set under `TypingKey`, or leaves the store unchanged when there is no key |
| SocketService.SocketService.HandleUserStatus | frontend/src/lib/socket.ts:194-197 | updates that user's presence |
| SocketService.SocketService.HandleMessageRead | frontend/src/lib/socket.ts:202-205 | marks the named message "read"; without a `message_id` it changes nothing |
| SocketService.SocketService.HandleContactProfileUpdated | frontend/src/lib/socket.ts:290-309 | replaces the contacts with `PatchContacts` of them |
| SocketService.SocketService.SendMessage | frontend/src/lib/socket.ts:210-227 | emits `send_message` and returns true exactly when connected; otherwise emits nothing and returns false |
| SocketService.SocketService.SendTypingStart | frontend/src/lib/socket.ts:232-236 | emits `typing_start` only when connected |
| SocketService.SocketService.SendTypingStop | frontend/src/lib/socket.ts:238-242 | emits `typing_stop` only when connected |
| SocketService.SocketService.SendMessageRead | frontend/src/lib/socket.ts:247-251 | emits `message_read` only when connected |
| SocketService.SocketService.EmitProfileUpdate | frontend/src/lib/socket.ts:314-318 | emits `profile_updated` only when connected |
| SocketService.SocketService.Disconnect | frontend/src/lib/socket.ts:256-261 | drops the socket, after which the service is not connected; closing a connected socket first reports "disconnected" to the store and the callback, through the library's `disconnect` event (socket.ts:59-61); otherwise the store and the callback hear nothing |
| ConnectionManager.RemoveFirst | backend/chat_manager.py:21-22 | `list.remove` deletes the first occurrence of a present socket and keeps the others in their order (the result is the list before that occurrence followed by the list after it); an absent socket leaves the list unchanged |
| ConnectionManager.Sockets | backend/chat_manager.py:27-28 | a registered user's socket list; an unknown user has no sockets |
| ConnectionManager.RemoveFirstOfAppended | backend/chat_manager.py:14-22 | removing a socket that was just appended to a list without it gives the list back |
| ConnectionManager.Register | backend/chat_manager.py:10-14 | `connect` appends the socket to the user's list, creating it if needed; other users are unchanged; no user is left with an empty list |
| ConnectionManager.Unregister | backend/chat_manager.py:19-24 | `disconnect` removes the first occurrence of the socket from the user's list, keeping the order of the rest; the user's entry is dropped exactly when the list becomes empty; other users are unchanged; unknown sockets change nothing |
| ConnectionManager.RegisterThenUnregister | backend/chat_manager.py:10-24 | connecting and then disconnecting a new socket restores the registry exactly |
| ConnectionManager.RegisterThenUnregisterKnown | backend/chat_manager.py:10-24 | the same round trip for a user who already had sockets |
| ConnectionManager.RegisterThenUnregisterNew | backend/chat_manager.py:10-24 | the same round trip for a user who had none |
| ConnectionManager.IsOnline | backend/chat_manager.py:40-41 | a user is online exactly when they have at least one registered socket |
| ConnectionManager.Deliver | backend/chat_manager.py:28-30 | one delivery of the payload to each socket, in order |
| ConnectionManager.PersonalDeliveriesReachOpenSockets | backend/chat_manager.py:26-33 | the deliveries are exactly one per open entry of the user's list, in registration order, each carrying the payload; a closed socket's failure is swallowed and delivery goes on |
| ConnectionManager.OpenEntries | backend/chat_manager.py:28-33 | the open entries of a socket list, in order: exactly the listed sockets that are not closed, and never more entries than the list |
| ConnectionManager.OpenEntriesCount | backend/chat_manager.py:28-33 | an open socket keeps as many entries as it has in the list, so a socket registered twice is sent to twice; a closed socket has none |
| ConnectionManager.PersonalDeliveries | backend/chat_manager.py:26-33 | no more deliveries than sockets, and none at all when every socket is closed |
| ConnectionManager.UpToFirstClosed | backend/chat_manager.py:35-38 | broadcast sends in order up to the first closed socket and stops there |
| ConnectionManager.BroadcastStopsAt | backend/chat_manager.py:35-38 | the sockets served are exactly those before the first closed socket, over all users in key order |
| ConnectionManager.ConnectionManager.constructor | backend/chat_manager.py:6-8 | a fresh manager has no connections |
| ConnectionManager.ConnectionManager.Connect | backend/chat_manager.py:10-14 | the registry becomes `Register` of the old one |
| ConnectionManager.ConnectionManager.Disconnect | backend/chat_manager.py:19-24 | the registry becomes `Unregister` of the old one |
| ConnectionManager.ConnectionManager.Close | backend/routers/chat.py:45 | the socket is now closed |
| ConnectionManager.ConnectionManager.SendPersonalMessage | backend/chat_manager.py:26-33 | logs `PersonalDeliveries` to the user's sockets; a missing user id delivers nothing |
| ConnectionManager.ConnectionManager.Broadcast | backend/chat_manager.py:35-38 | delivers the text up to the first closed socket; the call raises exactly when some registered socket is closed |
| Crud.GetUserByEmail | backend/crud.py:7-9 | the first user with that e-mail, or none exactly when no user has it |
| Crud.GetContacts | backend/crud.py:18-36 | the users the caller added, together with the users who sent the caller a message; empty when there are none |
| Crud.VisibleIds | backend/crud.py:18-36 | the visible ids are exactly those of users the caller added and of users who sent the caller a message |
| Crud.AddContact | backend/crud.py:38-55 | none for an unknown e-mail or for oneself; an existing contact is returned without a new row; otherwise one contact row is added with a fresh id |
| Crud.AddContactIdempotent | backend/crud.py:38-55 | adding the same contact a second time changes nothing and returns the same user |
| Crud.AddContactMakesVisible | backend/crud.py:18-55 | a successfully added contact appears in `get_contacts` |
| Crud.GetGroupMembersIds | backend/crud.py:93-95 | exactly the user ids of the group's member rows |
| Crud.CreateGroup | backend/crud.py:58-69 | adds the group row, then a member row for its admin, using two fresh ids |
| Crud.CreateGroupSoleMember | backend/crud.py:58-69 | a new group's only member is its admin |
| Crud.AddGroupMember | backend/crud.py:71-85 | none for an unknown e-mail; an existing member is returned without a new row; otherwise one member row is added |
| Crud.AddGroupMemberKeepsMembershipUnique | backend/crud.py:71-85 | no user is ever a member of the same group twice, and the returned user is a member afterwards |
| Crud.GetUserGroups | backend/crud.py:87-91 | exactly the groups the user is a member of |
| Crud.CreateMessage | backend/crud.py:98-123 | a new row with status "sent", a fresh id, the given fields and the current time, appended to the messages |
| Crud.InsertByTime | backend/crud.py:125-137 | inserting into a time-sorted list keeps it sorted and adds exactly that message |
| Crud.SortByTime | backend/crud.py:125-137 | the result is sorted by creation time and is a permutation of the input |
| Crud.Conversation | backend/crud.py:126-134 | a group's messages, or the messages between the two users in either direction |
| Crud.GetChatHistory | backend/crud.py:125-137 | exactly the conversation's messages, as a permutation, sorted oldest first |
| Crud.MarkMessagesRead | backend/crud.py:139-148 | every unread message from the sender to the receiver becomes "read"; nothing else changes |
| Crud.MarkMessagesReadSettles | backend/crud.py:139-148 | afterwards no such message is unread, and marking again changes nothing |
| CrudSession.Database.constructor | backend/database.py:23-25 | a session over the given tables |
| CrudSession.Database.AddContact | backend/crud.py:38-55 | the tables and result are `Crud.AddContact` of the old tables |
| CrudSession.Database.CreateGroup | backend/crud.py:58-69 | the tables and result are `Crud.CreateGroup` of the old tables |
| CrudSession.Database.AddGroupMember | backend/crud.py:71-85 | the tables and result are `Crud.AddGroupMember` of the old tables |
| CrudSession.Database.CreateMessage | backend/crud.py:98-123 | the tables and result are `Crud.CreateMessage` of the old tables |
| CrudSession.Database.MarkMessagesRead | backend/crud.py:139-148 | the messages become `Crud.MarkMessagesRead` of the old ones |
| ChatRouter.AddContactRoute | backend/routers/chat.py:18-27 | a failed add answers 400 "User not found or invalid", and only then; otherwise it returns the contact |
| ChatRouter.GetHistoryRoute | backend/routers/chat.py:29-35 | the direct conversation with the contact, sorted oldest first |
| ChatRouter.HandleFrame | backend/routers/chat.py:53-104 | undecodable JSON fails. A text frame with content stores a message and sends it to the receiver and back to the sender; one without content is ignored. The typing and read frames are relayed to the receiver. Any other type is ignored |
| ChatRouter.FrameKind | backend/routers/chat.py:55 | a frame without a type counts as "text"; otherwise its own type is used |
| ChatRouter.HasContent | backend/routers/chat.py:59-60 | a frame has content exactly when the content is present and non-empty |
| ChatRouter.MissingTypeIsText | backend/routers/chat.py:55 | a frame without "type" is handled as a text frame |
| ChatRouter.TextFrameEchoesStoredMessage | backend/routers/chat.py:58-84 | the stored row and the frame sent to both sides agree on id, content, sender and status |
| ChatRouter.Session | backend/routers/chat.py:51-110 | a session of an authenticated user never ends with the invalid-token close; how it ends, which rows it stores and how many frames it sends are stated by `ChatRouter.SessionOutcome` |
| ChatRouter.SessionOutcome | backend/routers/chat.py:51-110 | the loop handles the events up to the first disconnect or failing frame. It stays open exactly when there is neither; it ends with the client leaving or the server closing according to which comes first. The tables change only by new "sent" messages from the user, one per text frame with content. Two frames go out per stored message and one per relayed typing or read frame |
| ChatRouter.SendAll | backend/routers/chat.py:82-104 | each send is delivered through `send_personal_message`, in order |
| ChatRouter.Serve | backend/routers/chat.py:37-110 | a bad token closes with code 4001 and touches nothing else. Otherwise the socket is registered, the frames are handled as `Session` says, and the registry is left as `RegistryAfter` says |
| ChatRouter.Step | backend/routers/chat.py:52-110 | one iteration of the receive loop: a disconnect unregisters, a failure closes, a handled frame stores and delivers |
| ChatRouter.Receive | backend/routers/chat.py:51-110 | the loop's deliveries, tables and end agree with `Session` |
| ChatRouter.FailedSessionLeavesSocketRegistered | backend/routers/chat.py:106-110 | after a malformed frame the socket is closed but stays registered, and the user still counts as online |
| ChatRouter.RegistryAfter | backend/routers/chat.py:51-110 | as written, the socket is still registered after any end other than the client leaving; after the client leaves, a fresh socket's registration is undone exactly |
| ChatRouter.FixedSessionRestoresRegistry | backend/routers/chat.py:106-110 | with `disconnect` called on every exit path, the registry and the user's online state are restored |
| ChatRouter.RegistryAfterFixed | backend/routers/chat.py:106-110 | with `disconnect` on every exit path, a client leaving and a server close both undo a fresh socket's registration exactly; a session still open keeps the socket |
| VanillaClient.ServerHandlesClientFrames | backend/static/js/app.js:211-231 | every frame the page sends is handled by the server without failing, with the effect `HandleFrame` gives it |
| VanillaClient.Encode | backend/static/js/app.js:213-231 | every frame the page sends is an object with a type and the open chat as receiver; only a text frame has type "text" and carries content |
| VanillaClient.TickFor | backend/static/js/app.js:148-153 | one tick exactly for "sent", two otherwise, coloured as read exactly for "read" |
| VanillaClient.Render | backend/static/js/app.js:141-161 | a line is the user's own exactly when they sent it; only own lines carry ticks |
| VanillaClient.RenderAll | backend/static/js/app.js:135-139 | the transcript renders each history message in order |
| VanillaClient.MarkAllRead | backend/static/js/app.js:193-195 | every tick turns read; content, ownership and tick shape stay |
| VanillaClient.MarkAllReadIdempotent | backend/static/js/app.js:193-195 | marking ticks read twice equals marking them once |
| VanillaClient.React | backend/static/js/app.js:183-198 | a new message is appended when the chat with its sender is open or the user sent it, and otherwise shows a toast; a receipt goes back only for the open chat's partner; read receipts and typing events act only for the open chat |
| VanillaClient.TypingReachesOpenChat | backend/static/js/app.js:196 | a typing frame sent by user U reaches the receiver, whose indicator shows exactly when U's chat is open |
| VanillaClient.App.constructor | backend/static/js/app.js:1-9 | the page starts with no socket, no chat, no timers and nothing sent |
| VanillaClient.App.SendWs | backend/static/js/app.js:166-174 | sends when the socket is open; otherwise shows the connection-lost toast |
| VanillaClient.App.ConnectWs | backend/static/js/app.js:176-179 | does nothing when a socket exists; otherwise starts connecting |
| VanillaClient.App.SocketOpened | backend/static/js/app.js:181 | a connecting socket becomes open |
| VanillaClient.App.SocketClosed | backend/static/js/app.js:200-204 | the socket is dropped and a reconnect timer is scheduled |
| VanillaClient.App.ReconnectTimerFires | backend/static/js/app.js:203 | the timer fires `connectWs` |
| VanillaClient.App.SelectChat | backend/static/js/app.js:125-133 | opens the chat; on a history response it renders the history and sends a read receipt |
| VanillaClient.App.OnMessage | backend/static/js/app.js:183-198 | the transcript, typing indicator, receipts and toasts change as `React` says |
| VanillaClient.App.OnInput | backend/static/js/app.js:211-216 | with a chat open, `typing_start` is sent only on the first keystroke and the stop timer is re-armed |
| VanillaClient.App.TypingTimerFires | backend/static/js/app.js:215 | typing ends and `typing_stop` is sent |
| VanillaClient.App.SendMessage | backend/static/js/app.js:218-229 | a trimmed non-empty text in an open chat is sent, followed by `typing_stop`, and the input is cleared; otherwise nothing happens |
| Text.JsTrim | backend/static/js/app.js:219 | `trim()` gives the text with only leading and trailing whitespace removed: a contiguous slice of it whose removed prefix and suffix are all whitespace, and which has no whitespace at either end; a text with no whitespace at either end is unchanged |
| ChatWindow.ChatKeyFor | frontend/src/components/chat/chat-window.tsx:20 | a key exists exactly when the active id is truthy and a type is set |
| ChatWindow.CurrentMessages | frontend/src/components/chat/chat-window.tsx:21 | the active chat's bucket, or empty |
| ChatWindow.MapItem | frontend/src/components/chat/chat-window.tsx:39-50 | copies the history fields (not `file_type`) and marks "me" exactly for the user's own messages |
| ChatWindow.MapHistory | frontend/src/components/chat/chat-window.tsx:39-50 | maps each history item in order |
| ChatWindow.FetchHistory | frontend/src/components/chat/chat-window.tsx:35-58 | a successful fetch replaces the active chat's bucket with the mapped history; a failure changes nothing |
| ChatWindow.FetchedHistoryIsShown | frontend/src/components/chat/chat-window.tsx:21-53 | after the fetch, the window shows exactly the fetched history |
| ChatWindow.BuildPayload | frontend/src/components/chat/chat-window.tsx:63-72 | a text payload addressed to the group or to the contact, never both |
| ChatWindow.ChatWindowView.constructor | frontend/src/components/chat/chat-window.tsx:16 | the input starts empty |
| ChatWindow.ChatWindowView.SetInputText | frontend/src/components/chat/chat-window.tsx:16 | the input holds the typed text |
| ChatWindow.ChatWindowView.HandleSendMessage | frontend/src/components/chat/chat-window.tsx:60-76 | a non-blank input in an active chat is sent untrimmed, if connected, and the input is cleared even when nothing was sent |
| ChatSidebar.MapContact | frontend/src/components/chat/chat-sidebar.tsx:41-48 | the display name, else the e-mail's local part; the status starts "offline" |
| ChatSidebar.MapContacts | frontend/src/components/chat/chat-sidebar.tsx:41-48 | maps each contact in order |
| ChatSidebar.FilterContacts | frontend/src/components/chat/chat-sidebar.tsx:70-73 | keeps, in order, the contacts whose e-mail or name contains the term, ignoring case |
| ChatSidebar.Matches | frontend/src/components/chat/chat-sidebar.tsx:70-73 | an empty search term matches every contact |
| ChatSidebar.EmptyTermKeepsAll | frontend/src/components/chat/chat-sidebar.tsx:70-73 | an empty search shows every contact |
| ChatSidebar.FilterContactsIdempotent | frontend/src/components/chat/chat-sidebar.tsx:70-73 | filtering twice by the same term equals filtering once |
| ChatSidebar.AtMostOneHighlighted | frontend/src/components/chat/chat-sidebar.tsx:112 | with distinct ids, at most one contact is highlighted |
| ChatSidebar.IsHighlighted | frontend/src/components/chat/chat-sidebar.tsx:112 | a contact is highlighted only when a contact chat is open, and only the contact with the open chat's id |
| ChatSidebar.Initials | frontend/src/components/chat/chat-sidebar.tsx:126 | the first two characters, upper-cased |
| ChatSidebar.AvatarFallback | frontend/src/components/chat/chat-sidebar.tsx:126 | initials of the name when it is non-empty, otherwise of the e-mail |
| ChatSidebar.Label | frontend/src/components/chat/chat-sidebar.tsx:139 | the name when it is non-empty, otherwise the e-mail |
| ChatSidebar.MappedLabelNonEmpty | frontend/src/components/chat/chat-sidebar.tsx:41-48 | a mapped contact's label is never blank when its e-mail has a local part |
| QtChatWindow.TranscriptLine | client/ui/chat_window.py:142-143 | the bold sender label followed by the text |
| QtChatWindow.TranscriptLineInjective | client/ui/chat_window.py:142-143 | distinct texts give distinct lines |
| QtChatWindow.Received | client/ui/chat_window.py:125-140 | only a `new_message` from the open chat adds a line |
| QtChatWindow.ContactRows | client/ui/chat_window.py:93-101 | one row per contact showing its e-mail and carrying its id |
| QtChatWindow.ChatWindow.constructor | client/ui/chat_window.py:93-143 | no chat is open and the transcript is empty |
| QtChatWindow.ChatWindow.SetInput | client/ui/chat_window.py:117 | the input holds the typed text |
| QtChatWindow.ChatWindow.UpdateContactList | client/ui/chat_window.py:93-101 | the list becomes `ContactRows` of the contacts |
| QtChatWindow.ChatWindow.OnContactSelected | client/ui/chat_window.py:103-107 | opens the chat, sets the header and clears the transcript |
| QtChatWindow.ChatWindow.SendMessage | client/ui/chat_window.py:113-123 | a stripped non-empty text in an open chat is sent and shown as the user's own line, and the input is cleared |
| Text.PyStrip | client/ui/chat_window.py:117 | `strip()` gives the text with only leading and trailing whitespace removed: a contiguous slice of it whose removed prefix and suffix are all whitespace, and which has no whitespace at either end; a text with no whitespace at either end is unchanged |
| QtChatWindow.ChatWindow.OnMessageReceived | client/ui/chat_window.py:125-140 | adds the line `Received` gives, if any |
| QtChatWindow.OwnEchoAddsNoLine | client/ui/chat_window.py:135-137 | the server's echo of one's own message adds no second line |
| ProfileRouter.OrElse | backend/routers/profile.py:24-27 | Python's `or`: the value unless it is missing or empty |
| ProfileRouter.ProfileOf | backend/routers/profile.py:21-30 | the display name falls back to the e-mail's local part; about and theme fall back to their defaults |
| ProfileRouter.Extension | backend/routers/profile.py:73 | the text after the last dot, or "jpg" for a name with no dot |
| ProfileRouter.PhotoUrl | backend/routers/profile.py:82 | the stored name under "/uploads/profiles/" |
| ProfileRouter.StoredNameExtension | backend/routers/profile.py:73-74 | the stored file keeps the upload's extension |
| ProfileRouter.StoredNameInjective | backend/routers/profile.py:74 | distinct UUIDs give distinct stored names |
| ProfileRouter.StoredName | backend/routers/profile.py:74 | the stored name starts with the user id and an underscore and ends with a dot and the extension |
| ProfileRouter.IsImageType | backend/routers/profile.py:66 | an upload passes exactly when its content type is present and starts with "image/"; a missing type fails |
| ProfileRouter.FindUser | backend/routers/profile.py:17-19 | the user with that id, or none exactly when there is none |
| ProfileRouter.UpdateProfile | backend/routers/profile.py:32-56 | only that user changes; fields left out of the update are kept |
| ProfileRouter.SetPhoto | backend/routers/profile.py:58-100 | only that user's photo URL changes |
| ProfileRouter.FindAfterUpdate | backend/routers/profile.py:32-56 | reading the user back after an update gives the patched user |
| ProfileRouter.FindAfterSetPhoto | backend/routers/profile.py:58-100 | reading the user back after a photo change gives the new URL |
| ProfileRouter.HandleAsWritten | backend/routers/profile.py:11-100 | as written, every route answers 500 except an upload rejected as not an image, because the crud helpers they call do not exist |
| ProfileRouter.Handle | backend/routers/profile.py:11-100 | an unknown user's read gets 404; a read returns the profile with defaults; an update patches the row and returns the updated profile, or fails with 500 when the caller has no row; a non-image upload gets 400; an image upload stores and returns the new URL; a delete clears it |
| ProfileRouter.ProfileReadFailsAsWritten | backend/routers/profile.py:17 | for an existing user, GET /profile/me fails as written but succeeds once the helper exists |
| ProfileRouter.ReadAfterUpdate | backend/routers/profile.py:11-56 | a read after an update shows the patched fields |
| ProfileRouter.ReadAfterPhotoChange | backend/routers/profile.py:11-100 | a read after an upload shows the returned URL; after a delete it shows none |
| DatabaseUrl.ReplaceFirst | backend/database.py:10 | `str.replace(…, 1)` on a string that starts with the pattern swaps that prefix; a string without the pattern is unchanged |
| DatabaseUrl.FromEnvironment | backend/database.py:8 | the environment value, or the SQLite default when it is unset |
| DatabaseUrl.Rewrite | backend/database.py:9-10 | a "postgres://" prefix becomes "postgresql+asyncpg://", with the rest kept; anything else is kept |
| DatabaseUrl.DatabaseUrl | backend/database.py:8-10 | the URL the engine gets never has the legacy scheme; without the variable it is the SQLite default; a value with the legacy scheme gets "postgresql+asyncpg://" in its place and keeps the rest; a value without it is used as given |
| DatabaseUrl.AsyncSchemeIsNotLegacy | backend/database.py:9-10 | the rewritten scheme never starts with the legacy one |
| DatabaseUrl.RewriteIdempotent | backend/database.py:9-10 | rewriting twice equals rewriting once |
| DatabaseUrl.OtherSchemesUnchanged | backend/database.py:8-10 | "postgresql://" URLs and the default pass through unchanged |
| DatabaseUrl.RewriteKeepsRemainder | backend/database.py:9-10 | only the scheme changes |
| FileUpload.Extension | frontend/src/components/chat/file-upload.tsx:60 | the lower-cased text after the last dot; the whole name when it has no dot |
| FileUpload.FileIcon | frontend/src/components/chat/file-upload.tsx:59-66 | each icon is chosen exactly when the extension is in its list |
| FileUpload.ExtensionListsDisjoint | frontend/src/components/chat/file-upload.tsx:61-64 | no extension is in two lists, so the order of the tests does not matter |
| FileUpload.GenericIff | frontend/src/components/chat/file-upload.tsx:65 | the generic icon appears exactly when the extension is in no list |
| FileUpload.UppercaseImageExtension | frontend/src/components/chat/file-upload.tsx:60-61 | "Photo.JPG" gets the image icon |
| FileUpload.LastExtensionCounts | frontend/src/components/chat/file-upload.tsx:60-62 | "clip.old.mp4" gets the video icon |
| FileUpload.InnerExtensionIgnored | frontend/src/components/chat/file-upload.tsx:60-65 | "song.mp3.zip" gets the generic icon |
| FileUpload.WholeNameAsExtension | frontend/src/components/chat/file-upload.tsx:60-64 | a dot-free name such as "pdf" is read as its own extension |
| FileUpload.TrailingDotIsGeneric | frontend/src/components/chat/file-upload.tsx:60-65 | a trailing dot leaves an empty extension, which gets the generic icon |
| FileUpload.ErrorText | frontend/src/components/chat/file-upload.tsx:44 | the server's detail, else the error message, else "Upload failed"; never empty |
| FileUpload.WithinLimit | frontend/src/components/chat/file-upload.tsx:55 | exactly the dropped files of at most 10 MiB, in order |
| FileUpload.FirstAccepted | frontend/src/components/chat/file-upload.tsx:20-22 | every dropped file before the first one within the limit is over the limit |
| FileUpload.Accepted | frontend/src/components/chat/file-upload.tsx:53-57 | under `multiple: false` at most one file reaches `onDrop`: one exactly when a single dropped file is within the limit, and then it is that file; more than one within the limit rejects them all |
| FileUpload.TwoSmallFilesRejected | frontend/src/components/chat/file-upload.tsx:53-57 | two files within the limit dropped together hand nothing to `onDrop` |
| FileUpload.OversizedFileDoesNotCount | frontend/src/components/chat/file-upload.tsx:53-57 | an oversized file dropped next to a small one is rejected alone and the small one is handed on |
| FileUpload.Uploader.constructor | frontend/src/components/chat/file-upload.tsx:15-17 | not uploading, progress 0, nothing selected |
| FileUpload.Uploader.OnDrop | frontend/src/components/chat/file-upload.tsx:19-31 | nothing happens unless exactly one dropped file is within the limit; that file is then selected and sent, with progress 0 |
| FileUpload.Uploader.UploadSettled | frontend/src/components/chat/file-upload.tsx:38-50 | a response is handed on and a failure alerts `ErrorText`; either way uploading stops and the selection clears |
| FileMessage.FullUrl | frontend/src/components/chat/file-message.tsx:13 | the backend origin followed by the file URL |
| FileMessage.FullUrlInjective | frontend/src/components/chat/file-message.tsx:13 | distinct file URLs give distinct full URLs |
| FileMessage.IsImageIffImageExtension | frontend/src/components/chat/file-message.tsx:14 | the image test holds exactly when the URL has a dot and its extension is an image extension, so it agrees with the upload icon |
| FileMessage.IsImage | frontend/src/components/chat/file-message.tsx:14 | the test itself: the URL ends, ignoring ASCII case, with a dot and one of the image extensions, anchored at its end (its properties are proved in `FileMessage.IsImageIffImageExtension`) |
| FileMessage.UppercaseImageUrl | frontend/src/components/chat/file-message.tsx:14 | ".PNG" counts as an image: the match ignores case |
| FileMessage.InnerImageExtensionIgnored | frontend/src/components/chat/file-message.tsx:14 | ".png.txt" is not an image: the match is anchored at the end |
| FileMessage.DotRequired | frontend/src/components/chat/file-message.tsx:14 | "/uploads/png" is not an image: the dot is required |
| FileMessage.Render | frontend/src/components/chat/file-message.tsx:16-52 | an image shows as a linked picture captioned with the file name; anything else shows as a download link under the file name |
| VoiceRecorder.JsRem60 | frontend/src/components/chat/voice-recorder.tsx:26 | JavaScript's `%` by 60: truncating, with the sign of the dividend |
| VoiceRecorder.PadStart | frontend/src/components/chat/voice-recorder.tsx:27 | `padStart`: the text, preceded by enough fill characters to reach the width |
| VoiceRecorder.ParseTime | frontend/src/components/chat/voice-recorder.tsx:24-28 | reads an "M:SS" label back; the label contains a colon |
| VoiceRecorder.FormatTimeRoundTrip | frontend/src/components/chat/voice-recorder.tsx:24-28 | every non-negative time label reads back as its number of seconds |
| VoiceRecorder.FormatTime | frontend/src/components/chat/voice-recorder.tsx:24-28 | every label has at least four characters and a colon; for a non-negative time the colon comes just before the last two characters |
| VoiceRecorder.FormatTimeInjective | frontend/src/components/chat/voice-recorder.tsx:24-28 | distinct times give distinct labels |
| VoiceRecorder.FormatTimeExamples | frontend/src/components/chat/voice-recorder.tsx:24-28 | 65 s shows as "1:05" and 600 s as "10:00" |
| VoiceRecorder.NegativeTimeLabel | frontend/src/components/chat/voice-recorder.tsx:25-27 | a negative time renders as "-1:-5", through the floor and the truncating remainder |
| VoiceRecorder.VoiceFileName | frontend/src/components/chat/voice-recorder.tsx:93 | "voice_", the timestamp, then ".webm" |
| VoiceRecorder.VoiceFileNameInjective | frontend/src/components/chat/voice-recorder.tsx:93 | distinct timestamps give distinct file names |
| VoiceRecorder.TotalAppend | frontend/src/components/chat/voice-recorder.tsx:43-47 | the blob grows by each chunk's size |
| VoiceRecorder.TotalZeroIff | frontend/src/components/chat/voice-recorder.tsx:43-50 | the blob is empty exactly when no chunk was kept |
| VoiceRecorder.Recorder.constructor | frontend/src/components/chat/voice-recorder.tsx:13-21 | idle, at 0 s, with no recorder, stream, timer or chunks |
| VoiceRecorder.Recorder.StartRecording | frontend/src/components/chat/voice-recorder.tsx:31-68 | a refused microphone, or a missing recorder, alerts; a start begins recording at 0 with a new interval and captures the stale time the stop handler will send |
| VoiceRecorder.Recorder.DataAvailable | frontend/src/components/chat/voice-recorder.tsx:43-47 | only non-empty chunks are kept |
| VoiceRecorder.Recorder.Tick | frontend/src/components/chat/voice-recorder.tsx:60-62 | each interval tick adds one second |
| VoiceRecorder.Recorder.StopAndSend | frontend/src/components/chat/voice-recorder.tsx:71-76 | stops an active recording and queues its stop event; otherwise nothing |
| VoiceRecorder.Recorder.Cleanup | frontend/src/components/chat/voice-recorder.tsx:111-121 | clears the timer and the stream and resets the time |
| VoiceRecorder.Recorder.Cancel | frontend/src/components/chat/voice-recorder.tsx:79-86 | stops the recording and drops its chunks, but the stop event is still queued; cleans up either way |
| VoiceRecorder.CancelledRecordingIsSent | frontend/src/components/chat/voice-recorder.tsx:43-86 | start, cancel, the final chunk, then the stop handler: the final chunk is uploaded and sent as a voice message, with no alert |
| VoiceRecorder.Recorder.RecorderStopped | frontend/src/components/chat/voice-recorder.tsx:49-53 | uploads the joined chunks as "voice_<now>.webm"; on success it sends the file with the duration captured at start, on failure it alerts; then cleans up |
| SettingsPage.CheckPhoto | frontend/src/app/settings/page.tsx:84-98 | no file does nothing; a non-image is refused first; an image over 5 MiB is refused; the rest are accepted |
| SettingsPage.PhotoLimitIsInclusive | frontend/src/app/settings/page.tsx:95 | exactly 5 MiB is accepted and one byte more is not |
| SettingsPage.TypeCheckedFirst | frontend/src/app/settings/page.tsx:89-98 | a non-image gets the type message whatever its size |
| SettingsPage.BannerFor | frontend/src/app/settings/page.tsx:177-180 | no banner for an empty message; the banner is green exactly when the text contains "success" |
| SettingsPage.SavedBannerIsSuccess | frontend/src/app/settings/page.tsx:74 | the save confirmation shows green |
| SettingsPage.PhotoSavedBannerIsError | frontend/src/app/settings/page.tsx:128 | the photo confirmation "Profile photo updated!" shows in the error colour |
| SettingsPage.OrEmpty | frontend/src/app/settings/page.tsx:39-41 | the text when it is present and non-empty, otherwise the empty string |
| SettingsPage.FormFrom | frontend/src/app/settings/page.tsx:38-43 | the form is filled from the response, with missing text as empty |
| SettingsPage.SavePatch | frontend/src/app/settings/page.tsx:62-65 | the store patch sets only the display name and about |
| SettingsPage.PhotoPatch | frontend/src/app/settings/page.tsx:117-119 | the store patch sets only the photo URL |
| SettingsPage.LoadingScreenNeedsMissingEmail | frontend/src/app/settings/page.tsx:147 | the loading screen shows while loading exactly when the fetched e-mail is missing |
| SettingsPage.ShowsLoadingScreen | frontend/src/app/settings/page.tsx:147 | the loading screen shows only while loading and only when no e-mail is known |
| SettingsPage.SaveKeepsEmail | frontend/src/app/settings/page.tsx:62-65 | saving changes the user's name and about and keeps id, e-mail and photo |
| SettingsPage.Settings.constructor | frontend/src/app/settings/page.tsx:20-28 | an empty form, not loading or saving, with no message |
| SettingsPage.Settings.FetchStarted | frontend/src/app/settings/page.tsx:36 | loading begins |
| SettingsPage.Settings.FetchSettled | frontend/src/app/settings/page.tsx:37-48 | a response fills the form and a failure keeps it; loading ends either way |
| SettingsPage.Settings.EditDisplayName | frontend/src/app/settings/page.tsx:236-237 | only the display name changes |
| SettingsPage.Settings.EditAbout | frontend/src/app/settings/page.tsx:247-248 | only the about text changes |
| SettingsPage.Settings.SaveProfile | frontend/src/app/settings/page.tsx:51-82 | sends name and about. On success it merges the reply into the user, broadcasts it with the current photo, shows the saved message and schedules its clearing. On failure it shows the failure message. Saving ends either way |
| SettingsPage.Settings.PhotoPicked | frontend/src/app/settings/page.tsx:84-136 | a rejected file only sets its message. An accepted file is uploaded; on success the form, the user and the broadcast get the new URL and the confirmation is shown, and on failure the failure message is shown |
| SettingsPage.Settings.ClearTimerFires | frontend/src/app/settings/page.tsx:75 | the message is cleared |
| ThemeProvider.Create | frontend/src/components/theme-provider.tsx:25-30 | the first render holds the default theme ("light" unless given) and is not mounted |
| ThemeProvider.InitialTheme | frontend/src/components/theme-provider.tsx:35-42 | a non-empty stored value wins; otherwise dark exactly when the system prefers dark |
| ThemeProvider.Mount | frontend/src/components/theme-provider.tsx:32-51 | mounting chooses the initial theme and stores it |
| ThemeProvider.Persist | frontend/src/components/theme-provider.tsx:45-51 | once mounted, the theme is written to storage |
| ThemeProvider.Toggled | frontend/src/components/theme-provider.tsx:58 | "light" becomes "dark"; anything else becomes "light" |
| ThemeProvider.SetTheme | frontend/src/components/theme-provider.tsx:53-55 | the theme becomes the given one and is stored once mounted |
| ThemeProvider.Toggle | frontend/src/components/theme-provider.tsx:57-59 | the theme flips and is stored once mounted |
| ThemeProvider.ToggleTwice | frontend/src/components/theme-provider.tsx:57-59 | toggling twice restores "light" or "dark" |
| ThemeProvider.ToggleTwiceNormalises | frontend/src/components/theme-provider.tsx:57-59 | toggling twice turns any other stored value into "dark" |
| ThemeProvider.Context | frontend/src/components/theme-provider.tsx:61-79 | children see the theme only once the provider has mounted |
| ThemeProvider.NothingBeforeMount | frontend/src/components/theme-provider.tsx:71-73 | nothing renders before mounting |
| ThemeProvider.UseTheme | frontend/src/components/theme-provider.tsx:82-88 | outside a provider it throws the documented error; inside it returns the theme |
| ThemeProvider.OperationsKeepInSync | frontend/src/components/theme-provider.tsx:45-59 | after mounting, setting or toggling, the stored value equals the theme |
| ThemeProvider.ThemeSurvivesReload | frontend/src/components/theme-provider.tsx:35-50 | a theme chosen after mounting is the theme a reload mounts with, whatever the system prefers |

## Notes on the code

- `updateMessageStatus` (frontend/src/lib/store.ts:167-188) sets whatever status it is given, including an earlier one. `Store.SetStatusByIdCanRegress` shows a read message set back to sent.
- The server's read receipt (backend/routers/chat.py:100-104) carries `reader_id` and `contact_id`, while the Socket.IO client reads `message_id` from it (frontend/src/lib/socket.ts:203-204). `HandleMessageRead` takes an optional message id and does nothing without one.
- The read receipt is relayed without marking anything read in the database: the call at backend/routers/chat.py:99 is commented out. `Crud.MarkMessagesRead` is modelled, and no route uses it.
- A cancelled voice recording is still uploaded and sent. `cancelRecording` (frontend/src/components/chat/voice-recorder.tsx:79-86) empties the chunk list and stops the recorder. The recorder then delivers its final `dataavailable` chunk, and `onstop` (lines 49-53) uploads what was collected. `VoiceRecorder.CancelledRecordingIsSent` makes these calls in this order and ensures one upload and one sent message.

## Left out

- ChatRouter.HandleFrame: a frame's `receiver_id` is modelled as an optional integer and its `content` as an optional string (`Protocol.Frame`). backend/routers/chat.py:56-59 takes whatever `msg_data.get` returns, so a truthy non-string content or a non-integer receiver is not modelled. The outgoing `created_at` is modelled as an integer, where chat.py:77 sends `str(db_msg.created_at)`. Other JSON types for these fields, and the database's handling of them, are not modelled.
- I/O, the network, the clock and UUIDs are parameters of the operations that use them. JSON is represented by its decoded values, or by `Malformed` for a frame that fails to decode.
- Timers (`setTimeout`, `setInterval`) are explicit events. Their delays (2 s, 3 s, 1 s) are not modelled.
- Case folding is ASCII only. Characters outside A–Z are left unchanged by `Lower` and `Upper`.
- Rendering of `created_at`, avatars, icons and CSS classes is left out, except where a class carries meaning, such as the read tick and the highlight.
- The authentication module, sign-up, login and the contacts and groups pages are not part of this model. Neither are the other context files.
- client/network.py is not part of this model. The Qt window's `SendMessage` records the request it makes.
- The Socket.IO client library's own reconnection schedule is left out. Only the events it raises are modelled.
- Store.UpdateTyping: the source adds or deletes the user in the existing `Set` in place and then copies only the outer object, so the previous state and the new one share that `Set`. The model builds a new set value, so that sharing between states is not captured.
- Crud.GetContacts and Crud.GetUserGroups: they state membership, not the order of the result, because SQL gives no order without ORDER BY.
- Crud.GetChatHistory: rows with equal `created_at` may come back in any order from the database. The model fixes one order (a stable insertion sort), which is one of those the database may give.
- Crud.AddGroupMember: the group's existence is not checked, as in the source. A foreign-key failure from the database is not modelled.
- ProfileRouter.ProfileOf: `last_seen` and `created_at` are left out of the profile.
- Writing the uploaded photo to disk (backend/routers/profile.py:78-79) is left out.
- FileUpload.Uploader.OnDrop: upload progress percentages are not modelled; progress is 0 at the start and at the end. They come from a floating-point `Math.round` in the progress callback.
- VoiceRecorder.Recorder.RecorderStopped: the upload is atomic, so the "Sending..." view is not captured. The duration it sends is the time captured when recording started, matching the stale closure in the source.
- SettingsPage.Settings.SaveProfile and SettingsPage.Settings.PhotoPicked: each request is atomic, so the in-flight `isSaving`/`isLoading` views and the disabled button are not captured.
- ThemeProvider: the `data-theme` attribute on the document is not modelled. A stored value is not validated, as in the source.

## Findings

| source | as written | input that shows it | evidently intended | confidence | as-written member | corrected member |
|---|---|---|---|---|---|---|
| backend/routers/chat.py:106-110 | a generic exception closes the socket without calling `manager.disconnect` | one frame that is not valid JSON | the socket is unregistered on every exit path | not executed | ChatRouter.FailedSessionLeavesSocketRegistered | ChatRouter.FixedSessionRestoresRegistry |
| backend/routers/profile.py:17 | the profile routes call `crud.get_user_by_id`, `update_user_profile` and `update_profile_photo`, which backend/crud.py does not define | GET /profile/me by an existing user | the read returns the user's profile with defaults | not executed | ProfileRouter.HandleAsWritten | ProfileRouter.Handle |
