/**
 * The web client's two stores (frontend/src/lib/store.ts).
 *
 * The chat store is a single state record that every action replaces through `set`: the
 * contacts and groups lists, the open conversation, the message buckets keyed by
 * conversation key (`contact_<id>` / `group_<id>`), the connection status, the per-key
 * typing sets and the per-user presence map. Each action is a pure transition below,
 * carrying the properties it promises, and a method of `ChatStore` that applies it.
 * The auth store holds the token, the signed-in user and the authenticated flag.
 */
module Store {
  import opened Wrappers
  import opened Text
  import opened OrderedMaps

  // ------------------------------------------------------------------
  // Entities
  // ------------------------------------------------------------------

  datatype ChatType = ContactChat | GroupChat

  /** Which side of a conversation a message shows on (the UI helper field `sender`). */
  datatype Side = Me | Them

  datatype User = User(
    id: int,
    email: string,
    displayName: Option<string>,
    about: Option<string>,
    profilePhotoUrl: Option<string>,
    themePreference: Option<string>)

  datatype Contact = Contact(
    id: int,
    email: string,
    name: Option<string>,
    status: Option<string>,
    profilePhotoUrl: Option<string>,
    about: Option<string>)

  datatype Group = Group(id: int, name: string)

  datatype Message = Message(
    id: int,
    content: Option<string>,
    senderId: int,
    receiverId: Option<int>,
    groupId: Option<int>,
    createdAt: string,
    status: string,
    fileUrl: Option<string>,
    fileType: Option<string>,
    fileName: Option<string>,
    sender: Option<Side>)

  datatype ConnectionStatus = Connected | Disconnected | Reconnecting

  /** Message lists by conversation key, in key-insertion order. */
  type Buckets = OrderedMap<string, seq<Message>>

  datatype ChatState = ChatState(
    contacts: seq<Contact>,
    groups: seq<Group>,
    activeId: Option<int>,
    activeType: Option<ChatType>,
    messages: Buckets,
    connectionStatus: ConnectionStatus,
    typingUsers: map<string, set<int>>,
    userStatuses: map<int, string>)

  /** The store's first state: no chats loaded, none open, nobody typing, not connected. */
  function InitialChatState(): (s: ChatState)
    ensures s.messages.Valid() && s.messages.keys == []
    ensures forall key :: Bucket(s.messages, key) == []
    ensures s.contacts == [] && s.groups == [] && s.activeId.None? && s.activeType.None?
    ensures s.connectionStatus == Disconnected
    ensures s.typingUsers == map[] && s.userStatuses == map[]
  {
    ChatState([], [], None, None, Empty(), Disconnected, map[], map[])
  }

  // ------------------------------------------------------------------
  // Conversation keys
  // ------------------------------------------------------------------

  function TypeName(t: ChatType): string
  {
    match t
    case ContactChat => "contact"
    case GroupChat => "group"
  }

  /** `getChatKey(id, type)`: the type name, an underscore and the id in decimal. */
  function ChatKey(id: int, t: ChatType): (key: string)
    ensures StartsWith(key, TypeName(t) + "_") && key[|TypeName(t)| + 1..] == IntToString(id)
  {
    TypeName(t) + "_" + IntToString(id)
  }

  /** `getChatKey(otherId, 'contact')` where `otherId` may be `undefined`. */
  function ContactKeyOf(id: Option<int>): string
  {
    match id
    case Some(v) => ChatKey(v, ContactChat)
    case None => "contact_undefined"
  }

  /** JavaScript truthiness of a numeric field that may be missing: 0 is falsy. */
  predicate Truthy(id: Option<int>)
  {
    id.Some? && id.value != 0
  }

  /** Two conversations share a key exactly when they have the same kind and the same id. */
  lemma ChatKeyInjective(id1: int, t1: ChatType, id2: int, t2: ChatType)
    ensures ChatKey(id1, t1) == ChatKey(id2, t2) <==> id1 == id2 && t1 == t2
  {
    var k1, k2 := ChatKey(id1, t1), ChatKey(id2, t2);
    if t1 != t2 {
      assert k1[0] == TypeName(t1)[0] && k2[0] == TypeName(t2)[0];
    } else if k1 == k2 {
      var n := |TypeName(t1)| + 1;
      assert k1[n..] == IntToString(id1);
      assert k2[n..] == IntToString(id2);
      IntToStringInjective(id1, id2);
    }
  }

  /** The key for a missing partner id collides with no real conversation key. */
  lemma UndefinedContactKeyIsFresh(id: int, t: ChatType)
    ensures ContactKeyOf(None) != ChatKey(id, t)
  {
    var k := ChatKey(id, t);
    if t == ContactChat && |k| == |"contact_undefined"| {
      assert k[8] == IntToString(id)[0];
      assert k[8] != 'u';
    } else if t == GroupChat {
      assert k[0] == 'g';
    }
  }

  // ------------------------------------------------------------------
  // Message buckets
  // ------------------------------------------------------------------

  /** `state.messages[key] || []`: a key with no bucket reads as empty. */
  function Bucket(b: Buckets, key: string): (r: seq<Message>)
    ensures key in b.entries ==> r == b.entries[key]
    ensures key !in b.entries ==> r == []
  {
    b.GetOr(key, [])
  }

  predicate HasId(msgs: seq<Message>, id: int)
  {
    exists i | 0 <= i < |msgs| :: msgs[i].id == id
  }

  /** Every message id occurs at most once. */
  predicate UniqueIds(msgs: seq<Message>)
  {
    forall i, j :: 0 <= i < j < |msgs| ==> msgs[i].id != msgs[j].id
  }

  /** `setMessages(key, msgs)`: replaces exactly the named bucket. */
  function ReplaceBucket(b: Buckets, key: string, msgs: seq<Message>): (r: Buckets)
    requires b.Valid()
    ensures r.Valid()
    ensures key in r.entries && Bucket(r, key) == msgs
    ensures forall k :: k != key ==> (k in r.entries <==> k in b.entries) && Bucket(r, k) == Bucket(b, k)
    ensures key in b.entries ==> r.keys == b.keys
    ensures key !in b.entries ==> r.keys == b.keys + [key]
  {
    b.Put(key, msgs)
  }

  /**
   * `addMessage(key, m)`: appends `m` to the bucket unless a message with the same id is
   * already there, in which case the state is returned as it was.
   */
  function AddToBucket(b: Buckets, key: string, m: Message): (r: Buckets)
    requires b.Valid()
    ensures r.Valid()
    ensures HasId(Bucket(b, key), m.id) ==> r == b
    ensures !HasId(Bucket(b, key), m.id) ==> key in r.entries && Bucket(r, key) == Bucket(b, key) + [m]
    ensures key !in b.entries ==> Bucket(r, key) == [m]
    ensures forall k :: k != key ==> (k in r.entries <==> k in b.entries) && Bucket(r, k) == Bucket(b, k)
    ensures HasId(Bucket(r, key), m.id)
    ensures key in b.entries ==> r.keys == b.keys
    ensures key !in b.entries ==> r.keys == b.keys + [key]
  {
    var current := Bucket(b, key);
    if HasId(current, m.id) then b
    else
      assert (current + [m])[|current|].id == m.id;
      b.Put(key, current + [m])
  }

  /** Adding the same message twice is the same as adding it once. */
  lemma AddToBucketIdempotent(b: Buckets, key: string, m: Message)
    requires b.Valid()
    ensures AddToBucket(AddToBucket(b, key, m), key, m) == AddToBucket(b, key, m)
  {
  }

  /** A sequence of live `addMessage` calls on one key. */
  function AddAllToBucket(b: Buckets, key: string, ms: seq<Message>): (r: Buckets)
    requires b.Valid()
    ensures r.Valid()
    decreases |ms|
  {
    if ms == [] then b else AddAllToBucket(AddToBucket(b, key, ms[0]), key, ms[1..])
  }

  /** One `addMessage` keeps the ids of the bucket unique. */
  lemma AddToBucketKeepsIdsUnique(b: Buckets, key: string, m: Message)
    requires b.Valid() && UniqueIds(Bucket(b, key))
    ensures UniqueIds(Bucket(AddToBucket(b, key, m), key))
  {
    var before, after := Bucket(b, key), Bucket(AddToBucket(b, key, m), key);
    if !HasId(before, m.id) {
      forall i, j | 0 <= i < j < |after| ensures after[i].id != after[j].id {
        if j == |before| {
          assert after[i] == before[i];
        }
      }
    }
  }

  /** The old bucket stays a prefix and everything after it comes from the input. */
  lemma {:induction false} AddAllToBucketExtends(b: Buckets, key: string, ms: seq<Message>)
    requires b.Valid()
    ensures var r := Bucket(AddAllToBucket(b, key, ms), key);
      Bucket(b, key) <= r && forall j :: |Bucket(b, key)| <= j < |r| ==> r[j] in ms
    decreases |ms|
  {
    if ms != [] {
      var b1 := AddToBucket(b, key, ms[0]);
      var before, mid := Bucket(b, key), Bucket(b1, key);
      AddAllToBucketExtends(b1, key, ms[1..]);
      var r := Bucket(AddAllToBucket(b1, key, ms[1..]), key);
      forall j | |before| <= j < |r| ensures r[j] in ms {
        if j < |mid| {
          assert mid == before + [ms[0]] && r[j] == mid[j];
        } else {
          assert r[j] in ms[1..];
        }
      }
    }
  }

  /** Every id of the input ends up in the bucket. */
  lemma {:induction false} AddAllToBucketCovers(b: Buckets, key: string, ms: seq<Message>)
    requires b.Valid()
    ensures forall i :: 0 <= i < |ms| ==> HasId(Bucket(AddAllToBucket(b, key, ms), key), ms[i].id)
    decreases |ms|
  {
    if ms != [] {
      var b1 := AddToBucket(b, key, ms[0]);
      var mid := Bucket(b1, key);
      AddAllToBucketExtends(b1, key, ms[1..]);
      AddAllToBucketCovers(b1, key, ms[1..]);
      var r := Bucket(AddAllToBucket(b1, key, ms[1..]), key);
      forall i | 0 <= i < |ms| ensures HasId(r, ms[i].id) {
        if i == 0 {
          var w :| 0 <= w < |mid| && mid[w].id == ms[0].id;
          assert r[w] == mid[w];
        } else {
          assert ms[i] == ms[1..][i - 1];
        }
      }
    }
  }

  /** Ingesting keeps ids unique within the bucket. */
  lemma {:induction false} AddAllToBucketKeepsIdsUnique(b: Buckets, key: string, ms: seq<Message>)
    requires b.Valid() && UniqueIds(Bucket(b, key))
    ensures UniqueIds(Bucket(AddAllToBucket(b, key, ms), key))
    decreases |ms|
  {
    if ms != [] {
      AddToBucketKeepsIdsUnique(b, key, ms[0]);
      AddAllToBucketKeepsIdsUnique(AddToBucket(b, key, ms[0]), key, ms[1..]);
    }
  }

  /**
   * Ingesting any sequence of live messages into a bucket with unique ids: ids stay unique,
   * the old bucket stays a prefix, every id of the input is present, and each later message
   * comes from the input.
   */
  lemma AddAllToBucketDeduplicates(b: Buckets, key: string, ms: seq<Message>)
    requires b.Valid() && UniqueIds(Bucket(b, key))
    ensures var r := Bucket(AddAllToBucket(b, key, ms), key);
      && UniqueIds(r)
      && Bucket(b, key) <= r
      && (forall i :: 0 <= i < |ms| ==> HasId(r, ms[i].id))
      && (forall j :: |Bucket(b, key)| <= j < |r| ==> r[j] in ms)
  {
    AddAllToBucketKeepsIdsUnique(b, key, ms);
    AddAllToBucketExtends(b, key, ms);
    AddAllToBucketCovers(b, key, ms);
  }

  // ------------------------------------------------------------------
  // Typing sets and presence
  // ------------------------------------------------------------------

  /**
   * `setTyping(key, user, isTyping)`: creates an empty set for an unknown key, then adds or
   * removes the user; other users of that key and all other keys are untouched.
   */
  function UpdateTyping(t: map<string, set<int>>, key: string, user: int, isTyping: bool): (r: map<string, set<int>>)
    ensures r.Keys == t.Keys + {key}
    ensures isTyping <==> user in r[key]
    ensures forall u :: u != user ==> (u in r[key] <==> key in t && u in t[key])
    ensures forall k :: k in t && k != key ==> r[k] == t[k]
  {
    var current := if key in t then t[key] else {};
    t[key := if isTyping then current + {user} else current - {user}]
  }

  /** Repeating a typing update changes nothing more. */
  lemma UpdateTypingIdempotent(t: map<string, set<int>>, key: string, user: int, isTyping: bool)
    ensures UpdateTyping(UpdateTyping(t, key, user, isTyping), key, user, isTyping) == UpdateTyping(t, key, user, isTyping)
  {
    var once := UpdateTyping(t, key, user, isTyping);
    var twice := UpdateTyping(once, key, user, isTyping);
    assert twice[key] == once[key];
    assert twice == once;
  }

  /** `updateUserStatus(user, status)`: the last write for a user wins. */
  function UpdatePresence(statuses: map<int, string>, user: int, status: string): (r: map<int, string>)
    ensures r.Keys == statuses.Keys + {user}
    ensures r[user] == status
    ensures forall u :: u in statuses && u != user ==> r[u] == statuses[u]
  {
    statuses[user := status]
  }

  // ------------------------------------------------------------------
  // Status updates across buckets
  // ------------------------------------------------------------------

  /** `msgs.findIndex(m => m.id === id)`. */
  function FindIndex(msgs: seq<Message>, id: int): (r: int)
    ensures -1 <= r < |msgs|
    ensures r == -1 <==> !HasId(msgs, id)
    ensures r >= 0 ==> msgs[r].id == id && forall i :: 0 <= i < r ==> msgs[i].id != id
  {
    if msgs == [] then -1
    else if msgs[0].id == id then 0
    else
      var r := FindIndex(msgs[1..], id);
      assert forall i :: 1 <= i < |msgs| ==> msgs[i] == msgs[1..][i - 1];
      if r == -1 then -1 else r + 1
  }

  /** The position, in key order, of the first bucket holding a message with this id, or -1. */
  function FirstBucketWith(b: Buckets, keys: seq<string>, id: int): (r: int)
    ensures -1 <= r < |keys|
    ensures r == -1 <==> forall i :: 0 <= i < |keys| ==> !HasId(Bucket(b, keys[i]), id)
    ensures r >= 0 ==> HasId(Bucket(b, keys[r]), id) && forall i :: 0 <= i < r ==> !HasId(Bucket(b, keys[i]), id)
  {
    if keys == [] then -1
    else if HasId(Bucket(b, keys[0]), id) then 0
    else
      var r := FirstBucketWith(b, keys[1..], id);
      assert forall i :: 1 <= i < |keys| ==> keys[i] == keys[1..][i - 1];
      if r == -1 then -1 else r + 1
  }

  /**
   * `updateMessageStatus(id, status)`: in the first bucket (in key order) that holds a
   * message with this id, the first such message gets `status`, whatever its old status;
   * nothing else changes, and without a match the buckets are unchanged.
   */
  function SetStatusById(b: Buckets, id: int, status: string): (r: Buckets)
    requires b.Valid()
    ensures r.Valid() && r.keys == b.keys && r.entries.Keys == b.entries.Keys
    ensures FirstBucketWith(b, b.keys, id) == -1 ==> r == b
    ensures FirstBucketWith(b, b.keys, id) >= 0 ==>
      var key := b.keys[FirstBucketWith(b, b.keys, id)];
      var i := FindIndex(Bucket(b, key), id);
      && |Bucket(r, key)| == |Bucket(b, key)|
      && Bucket(r, key)[i] == Bucket(b, key)[i].(status := status)
      && (forall j :: 0 <= j < |Bucket(b, key)| && j != i ==> Bucket(r, key)[j] == Bucket(b, key)[j])
      && (forall k :: k != key ==> Bucket(r, k) == Bucket(b, k))
  {
    var n := FirstBucketWith(b, b.keys, id);
    if n == -1 then b
    else
      var key := b.keys[n];
      var chat := Bucket(b, key);
      var i := FindIndex(chat, id);
      b.Put(key, chat[i := chat[i].(status := status)])
  }

  /** The status is overwritten unconditionally: a read message can be set back to sent. */
  lemma SetStatusByIdCanRegress(m: Message, key: string)
    requires m.status == "read"
    ensures var b := Empty<string, seq<Message>>().Put(key, [m]);
      Bucket(SetStatusById(b, m.id, "sent"), key) == [m.(status := "sent")]
  {
    var b := Empty<string, seq<Message>>().Put(key, [m]);
    assert b.keys == [key] && Bucket(b, key) == [m];
    assert Bucket(b, key)[0].id == m.id;
    assert FirstBucketWith(b, b.keys, m.id) == 0;
    assert FindIndex([m], m.id) == 0;
    assert [m][0 := m.(status := "sent")] == [m.(status := "sent")];
  }

  // ------------------------------------------------------------------
  // The chat store
  // ------------------------------------------------------------------

  class ChatStore {
    var state: ChatState

    ghost predicate Valid()
      reads this
    {
      state.messages.Valid()
    }

    constructor ()
      ensures Valid() && state == InitialChatState()
    {
      state := InitialChatState();
    }

    method SetContacts(contacts: seq<Contact>)
      modifies this
      ensures state == old(state).(contacts := contacts)
    {
      state := state.(contacts := contacts);
    }

    method SetGroups(groups: seq<Group>)
      modifies this
      ensures state == old(state).(groups := groups)
    {
      state := state.(groups := groups);
    }

    /** Marks the open conversation; the stored conversations are not touched. */
    method SetActiveChat(id: int, t: ChatType)
      modifies this
      ensures state == old(state).(activeId := Some(id), activeType := Some(t))
    {
      state := state.(activeId := Some(id), activeType := Some(t));
    }

    method SetMessages(key: string, msgs: seq<Message>)
      requires Valid()
      modifies this
      ensures Valid()
      ensures state == old(state).(messages := ReplaceBucket(old(state).messages, key, msgs))
    {
      state := state.(messages := ReplaceBucket(state.messages, key, msgs));
    }

    method AddMessage(key: string, m: Message)
      requires Valid()
      modifies this
      ensures Valid()
      ensures state == old(state).(messages := AddToBucket(old(state).messages, key, m))
    {
      state := state.(messages := AddToBucket(state.messages, key, m));
    }

    method SetConnectionStatus(status: ConnectionStatus)
      modifies this
      ensures state == old(state).(connectionStatus := status)
    {
      state := state.(connectionStatus := status);
    }

    method SetTyping(key: string, user: int, isTyping: bool)
      modifies this
      ensures state == old(state).(typingUsers := UpdateTyping(old(state).typingUsers, key, user, isTyping))
    {
      state := state.(typingUsers := UpdateTyping(state.typingUsers, key, user, isTyping));
    }

    method UpdateUserStatus(user: int, status: string)
      modifies this
      ensures state == old(state).(userStatuses := UpdatePresence(old(state).userStatuses, user, status))
    {
      state := state.(userStatuses := UpdatePresence(state.userStatuses, user, status));
    }

    /** Walks the buckets in key order and stops at the first one holding the message. */
    method UpdateMessageStatus(id: int, status: string)
      requires Valid()
      modifies this
      ensures Valid()
      ensures state == old(state).(messages := SetStatusById(old(state).messages, id, status))
    {
      var messages := state.messages;
      var keys := messages.keys;
      var i := 0;
      while i < |keys|
        invariant 0 <= i <= |keys|
        invariant messages == state.messages
        invariant forall j :: 0 <= j < i ==> !HasId(Bucket(messages, keys[j]), id)
      {
        var key := keys[i];
        var chat := Bucket(messages, key);
        var index := FindIndex(chat, id);
        if index != -1 {
          assert FirstBucketWith(messages, keys, id) == i;
          messages := messages.Put(key, chat[index := chat[index].(status := status)]);
          break;
        }
        i := i + 1;
      }
      state := state.(messages := messages);
    }
  }

  // ------------------------------------------------------------------
  // The auth store
  // ------------------------------------------------------------------

  /** The localStorage key under which `setAuth` saves the token and `logout` removes it. */
  const TokenStorageKey: string := "echat_token"

  /** One key of a `Partial<User>`: absent, or present with a value (which may be undefined). */
  datatype Field<T> = Keep | Assign(value: T)

  function Apply<T>(f: Field<T>, current: T): T
  {
    match f
    case Keep => current
    case Assign(v) => v
  }

  datatype UserPatch = UserPatch(
    id: Field<int>,
    email: Field<string>,
    displayName: Field<Option<string>>,
    about: Field<Option<string>>,
    profilePhotoUrl: Field<Option<string>>,
    themePreference: Field<Option<string>>)

  /**
   * `updateUser(patch)`: `{ ...user, ...patch }` when a user is signed in, otherwise still
   * no user. Keys present in the patch win; the others keep the user's value.
   */
  function MergeUser(user: Option<User>, p: UserPatch): (r: Option<User>)
    ensures r.Some? <==> user.Some?
    ensures r.Some? ==>
      && r.value.id == Apply(p.id, user.value.id)
      && r.value.email == Apply(p.email, user.value.email)
      && r.value.displayName == Apply(p.displayName, user.value.displayName)
      && r.value.about == Apply(p.about, user.value.about)
      && r.value.profilePhotoUrl == Apply(p.profilePhotoUrl, user.value.profilePhotoUrl)
      && r.value.themePreference == Apply(p.themePreference, user.value.themePreference)
  {
    match user
    case None => None
    case Some(u) =>
      Some(User(Apply(p.id, u.id), Apply(p.email, u.email), Apply(p.displayName, u.displayName),
                Apply(p.about, u.about), Apply(p.profilePhotoUrl, u.profilePhotoUrl),
                Apply(p.themePreference, u.themePreference)))
  }

  class AuthStore {
    var token: Option<string>
    var user: Option<User>
    var isAuthenticated: bool
    /** The value stored under `TokenStorageKey`. */
    var storedToken: Option<string>

    constructor (storedToken: Option<string>)
      ensures token == None && user == None && !isAuthenticated
      ensures this.storedToken == storedToken
    {
      token, user, isAuthenticated := None, None, false;
      this.storedToken := storedToken;
    }

    method SetAuth(token: string, user: User)
      modifies this
      ensures this.token == Some(token) && this.user == Some(user) && isAuthenticated
      ensures storedToken == Some(token)
    {
      storedToken := Some(token);
      this.token, this.user, isAuthenticated := Some(token), Some(user), true;
    }

    method UpdateUser(p: UserPatch)
      modifies this`user
      ensures user == MergeUser(old(user), p)
    {
      user := MergeUser(user, p);
    }

    method Logout()
      modifies this
      ensures token == None && user == None && !isAuthenticated && storedToken == None
    {
      storedToken := None;
      token, user, isAuthenticated := None, None, false;
    }
  }
}
