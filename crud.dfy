/**
 * The backend's data operations (backend/crud.py) over in-memory tables.
 *
 * Each table is a sequence of rows in insertion order. Row ids come from one counter that
 * only grows, so a new row's id is fresh, as an auto-increment key is. Queries are pure
 * functions of the tables; inserts and updates are pure transitions that `Database`, the
 * session, applies to its tables.
 */
module Crud {
  import opened Wrappers

  // ------------------------------------------------------------------
  // Rows and tables
  // ------------------------------------------------------------------

  datatype UserRow = UserRow(
    id: int,
    email: string,
    displayName: Option<string>,
    about: Option<string>,
    profilePhotoUrl: Option<string>,
    themePreference: Option<string>)

  datatype ContactRow = ContactRow(id: int, ownerId: int, contactUserId: int)

  datatype GroupRow = GroupRow(id: int, name: string, adminId: int)

  datatype MemberRow = MemberRow(id: int, groupId: int, userId: int)

  datatype MessageRow = MessageRow(
    id: int,
    senderId: int,
    receiverId: Option<int>,
    groupId: Option<int>,
    content: Option<string>,
    fileUrl: Option<string>,
    fileType: Option<string>,
    fileName: Option<string>,
    fileSize: Option<int>,
    status: string,
    createdAt: int)

  /** The optional columns `create_message` is given; each defaults to null. */
  datatype MessageFields = MessageFields(
    receiverId: Option<int>,
    groupId: Option<int>,
    content: Option<string>,
    fileUrl: Option<string>,
    fileType: Option<string>,
    fileName: Option<string>,
    fileSize: Option<int>)

  datatype Tables = Tables(
    users: seq<UserRow>,
    contacts: seq<ContactRow>,
    groups: seq<GroupRow>,
    members: seq<MemberRow>,
    messages: seq<MessageRow>,
    nextId: int)

  /** Every stored id is below the counter, so the counter's value is a fresh id. */
  predicate FreshCounter(t: Tables)
  {
    && (forall i :: 0 <= i < |t.contacts| ==> t.contacts[i].id < t.nextId)
    && (forall i :: 0 <= i < |t.groups| ==> t.groups[i].id < t.nextId)
    && (forall i :: 0 <= i < |t.members| ==> t.members[i].id < t.nextId)
    && (forall i :: 0 <= i < |t.messages| ==> t.messages[i].id < t.nextId)
  }

  /** `filter(f, s)`, order kept. */
  function Filter<T(!new)>(s: seq<T>, f: T -> bool): (r: seq<T>)
    ensures |r| <= |s|
    ensures forall x :: x in r <==> x in s && f(x)
    ensures multiset(r) <= multiset(s)
  {
    if s == [] then []
    else
      assert s == [s[0]] + s[1..];
      (if f(s[0]) then [s[0]] else []) + Filter(s[1..], f)
  }

  // ------------------------------------------------------------------
  // Users and contacts
  // ------------------------------------------------------------------

  /** `get_user_by_email`: the first user row with that email, if any. */
  function GetUserByEmail(users: seq<UserRow>, email: string): (r: Option<UserRow>)
    ensures r.None? <==> forall i :: 0 <= i < |users| ==> users[i].email != email
    ensures r.Some? ==> r.value in users && r.value.email == email
  {
    if users == [] then None
    else if users[0].email == email then Some(users[0])
    else
      var r := GetUserByEmail(users[1..], email);
      assert forall i :: 1 <= i < |users| ==> users[i] == users[1..][i - 1];
      r
  }

  /** The ids `get_contacts` shows: the user's explicit contacts and everyone who messaged the user. */
  function VisibleIds(t: Tables, uid: int): (ids: set<int>)
    ensures forall c | c in t.contacts && c.ownerId == uid :: c.contactUserId in ids
    ensures forall m | m in t.messages && m.receiverId == Some(uid) :: m.senderId in ids
    ensures forall id | id in ids ::
      || (exists c | c in t.contacts :: c.ownerId == uid && c.contactUserId == id)
      || (exists m | m in t.messages :: m.receiverId == Some(uid) && m.senderId == id)
  {
    (set c | c in t.contacts && c.ownerId == uid :: c.contactUserId)
    + (set m | m in t.messages && m.receiverId == Some(uid) :: m.senderId)
  }

  /**
   * `get_contacts`: the users whose id is visible, in table order; none at all when no id
   * is visible.
   */
  function GetContacts(t: Tables, uid: int): (r: seq<UserRow>)
    ensures forall u :: u in r <==> u in t.users && u.id in VisibleIds(t, uid)
    ensures VisibleIds(t, uid) == {} ==> r == []
  {
    var ids := VisibleIds(t, uid);
    if ids == {} then [] else Filter(t.users, (u: UserRow) => u.id in ids)
  }

  /** Whether `uid` already lists `cid` as a contact. */
  predicate HasContact(t: Tables, uid: int, cid: int)
  {
    exists i | 0 <= i < |t.contacts| :: t.contacts[i].ownerId == uid && t.contacts[i].contactUserId == cid
  }

  /**
   * `add_contact`: nothing, and no row, when the email is unknown or is the caller's own;
   * the user and no new row when the pair exists; otherwise the user and exactly one new
   * contact row.
   */
  function AddContact(t: Tables, uid: int, email: string): (r: (Tables, Option<UserRow>))
    ensures GetUserByEmail(t.users, email).None? ==> r == (t, None)
    ensures GetUserByEmail(t.users, email).Some? && GetUserByEmail(t.users, email).value.id == uid ==> r == (t, None)
    ensures GetUserByEmail(t.users, email).Some? && GetUserByEmail(t.users, email).value.id != uid ==>
      var u := GetUserByEmail(t.users, email).value;
      && r.1 == Some(u)
      && (HasContact(t, uid, u.id) ==> r.0 == t)
      && (!HasContact(t, uid, u.id) ==>
            r.0 == t.(contacts := t.contacts + [ContactRow(t.nextId, uid, u.id)], nextId := t.nextId + 1))
  {
    match GetUserByEmail(t.users, email)
    case None => (t, None)
    case Some(u) =>
      if u.id == uid then (t, None)
      else if HasContact(t, uid, u.id) then (t, Some(u))
      else (t.(contacts := t.contacts + [ContactRow(t.nextId, uid, u.id)], nextId := t.nextId + 1), Some(u))
  }

  /** Adding the same contact again returns the same user and changes nothing. */
  lemma AddContactIdempotent(t: Tables, uid: int, email: string)
    ensures var (t1, u1) := AddContact(t, uid, email);
      AddContact(t1, uid, email) == (t1, u1)
  {
    var (t1, u1) := AddContact(t, uid, email);
    assert t1.users == t.users;
    match GetUserByEmail(t.users, email)
    case None =>
    case Some(u) =>
      if u.id != uid && !HasContact(t, uid, u.id) {
        assert t1.contacts[|t.contacts|] == ContactRow(t.nextId, uid, u.id);
      }
  }

  /** After a successful `add_contact` the added user is among the caller's contacts. */
  lemma AddContactMakesVisible(t: Tables, uid: int, email: string)
    requires AddContact(t, uid, email).1.Some?
    ensures var (t1, u) := AddContact(t, uid, email);
      u.value.id in VisibleIds(t1, uid) && u.value in GetContacts(t1, uid)
  {
    var (t1, u) := AddContact(t, uid, email);
    var k :| 0 <= k < |t1.contacts| && t1.contacts[k].ownerId == uid && t1.contacts[k].contactUserId == u.value.id;
    assert t1.contacts[k] in t1.contacts;
  }

  // ------------------------------------------------------------------
  // Groups
  // ------------------------------------------------------------------

  /** `get_group_members_ids`: the user ids of the group's membership rows, in row order. */
  function GetGroupMembersIds(members: seq<MemberRow>, gid: int): (r: seq<int>)
    ensures forall u :: u in r <==> exists i | 0 <= i < |members| :: members[i].groupId == gid && members[i].userId == u
    ensures |r| <= |members|
  {
    if members == [] then []
    else
      var rest := GetGroupMembersIds(members[1..], gid);
      assert forall i :: 1 <= i < |members| ==> members[i] == members[1..][i - 1];
      (if members[0].groupId == gid then [members[0].userId] else []) + rest
  }

  /** Every membership row refers to a stored group (what the `group_id` foreign key enforces). */
  predicate MembersReferenceGroups(t: Tables)
  {
    forall i :: 0 <= i < |t.members| ==> exists j | 0 <= j < |t.groups| :: t.groups[j].id == t.members[i].groupId
  }

  /** `create_group`: a group row with a fresh id, then a membership row for its admin. */
  function CreateGroup(t: Tables, name: string, adminId: int): (r: (Tables, GroupRow))
    ensures r.1 == GroupRow(t.nextId, name, adminId)
    ensures r.0.groups == t.groups + [r.1]
    ensures r.0.members == t.members + [MemberRow(t.nextId + 1, t.nextId, adminId)]
    ensures r.0 == t.(groups := r.0.groups, members := r.0.members, nextId := t.nextId + 2)
  {
    var g := GroupRow(t.nextId, name, adminId);
    (t.(groups := t.groups + [g], members := t.members + [MemberRow(t.nextId + 1, g.id, adminId)], nextId := t.nextId + 2), g)
  }

  /**
   * When the counter is fresh and membership rows refer to stored groups, a new group's
   * only member is its admin.
   */
  lemma CreateGroupSoleMember(t: Tables, name: string, adminId: int)
    requires FreshCounter(t) && MembersReferenceGroups(t)
    ensures var (t1, g) := CreateGroup(t, name, adminId);
      GetGroupMembersIds(t1.members, g.id) == [adminId]
  {
    var (t1, g) := CreateGroup(t, name, adminId);
    forall i | 0 <= i < |t.members| ensures t.members[i].groupId != g.id {
      var j :| 0 <= j < |t.groups| && t.groups[j].id == t.members[i].groupId;
    }
    MembersIdsAppend(t.members, [MemberRow(t.nextId + 1, g.id, adminId)], g.id);
    NoMembersIds(t.members, g.id);
  }

  lemma {:induction false} MembersIdsAppend(a: seq<MemberRow>, b: seq<MemberRow>, gid: int)
    ensures GetGroupMembersIds(a + b, gid) == GetGroupMembersIds(a, gid) + GetGroupMembersIds(b, gid)
  {
    if a == [] {
      assert a + b == b;
    } else {
      assert (a + b)[1..] == a[1..] + b;
      assert (a + b)[0] == a[0];
      MembersIdsAppend(a[1..], b, gid);
      var head := if a[0].groupId == gid then [a[0].userId] else [];
      assert GetGroupMembersIds(a + b, gid) == head + GetGroupMembersIds(a[1..] + b, gid);
      assert GetGroupMembersIds(a, gid) == head + GetGroupMembersIds(a[1..], gid);
    }
  }

  lemma {:induction false} NoMembersIds(a: seq<MemberRow>, gid: int)
    requires forall i :: 0 <= i < |a| ==> a[i].groupId != gid
    ensures GetGroupMembersIds(a, gid) == []
  {
    if a != [] {
      NoMembersIds(a[1..], gid);
    }
  }

  predicate IsMember(t: Tables, gid: int, uid: int)
  {
    exists i | 0 <= i < |t.members| :: t.members[i].groupId == gid && t.members[i].userId == uid
  }

  /** No (group, user) pair has two membership rows. */
  predicate NoDuplicateMembership(t: Tables)
  {
    forall i, j :: 0 <= i < j < |t.members| ==>
      t.members[i].groupId != t.members[j].groupId || t.members[i].userId != t.members[j].userId
  }

  /**
   * `add_group_member`: nothing for an unknown email; the user and no new row when already
   * a member; otherwise the user and one new membership row. The group id is not checked.
   */
  function AddGroupMember(t: Tables, gid: int, email: string): (r: (Tables, Option<UserRow>))
    ensures GetUserByEmail(t.users, email).None? ==> r == (t, None)
    ensures GetUserByEmail(t.users, email).Some? ==>
      var u := GetUserByEmail(t.users, email).value;
      && r.1 == Some(u)
      && (IsMember(t, gid, u.id) ==> r.0 == t)
      && (!IsMember(t, gid, u.id) ==>
            r.0 == t.(members := t.members + [MemberRow(t.nextId, gid, u.id)], nextId := t.nextId + 1))
  {
    match GetUserByEmail(t.users, email)
    case None => (t, None)
    case Some(u) =>
      if IsMember(t, gid, u.id) then (t, Some(u))
      else (t.(members := t.members + [MemberRow(t.nextId, gid, u.id)], nextId := t.nextId + 1), Some(u))
  }

  /** `add_group_member` never creates a duplicate membership. */
  lemma AddGroupMemberKeepsMembershipUnique(t: Tables, gid: int, email: string)
    requires NoDuplicateMembership(t)
    ensures NoDuplicateMembership(AddGroupMember(t, gid, email).0)
    ensures AddGroupMember(t, gid, email).1.Some? ==> IsMember(AddGroupMember(t, gid, email).0, gid, AddGroupMember(t, gid, email).1.value.id)
  {
    var (t1, u) := AddGroupMember(t, gid, email);
    if u.Some? && !IsMember(t, gid, u.value.id) {
      var n := |t.members|;
      assert t1.members[n] == MemberRow(t.nextId, gid, u.value.id);
      forall i, j | 0 <= i < j < |t1.members|
        ensures t1.members[i].groupId != t1.members[j].groupId || t1.members[i].userId != t1.members[j].userId
      {
        if j == n {
          assert t1.members[i] == t.members[i];
        }
      }
    }
  }

  /** `get_user_groups`: the groups (in table order) that have a membership row for the user. */
  function GetUserGroups(t: Tables, uid: int): (r: seq<GroupRow>)
    ensures forall g :: g in r <==> g in t.groups && IsMember(t, g.id, uid)
  {
    Filter(t.groups, (g: GroupRow) => IsMember(t, g.id, uid))
  }

  // ------------------------------------------------------------------
  // Messages
  // ------------------------------------------------------------------

  /** `create_message`: one new row with a fresh id, the given columns, status "sent" and the time `now`. */
  function CreateMessage(t: Tables, senderId: int, f: MessageFields, now: int): (r: (Tables, MessageRow))
    ensures r.1.status == "sent" && r.1.id == t.nextId && r.1.senderId == senderId && r.1.createdAt == now
    ensures r.1.receiverId == f.receiverId && r.1.groupId == f.groupId && r.1.content == f.content
    ensures r.1.fileUrl == f.fileUrl && r.1.fileType == f.fileType && r.1.fileName == f.fileName && r.1.fileSize == f.fileSize
    ensures r.0 == t.(messages := t.messages + [r.1], nextId := t.nextId + 1)
    ensures FreshCounter(t) ==> FreshCounter(r.0) && forall m :: m in t.messages ==> m.id != r.1.id
  {
    var m := MessageRow(t.nextId, senderId, f.receiverId, f.groupId, f.content, f.fileUrl, f.fileType,
                        f.fileName, f.fileSize, "sent", now);
    (t.(messages := t.messages + [m], nextId := t.nextId + 1), m)
  }

  /** A message between the two users, in either direction. */
  predicate InDirectChat(m: MessageRow, uid: int, other: int)
  {
    (m.senderId == uid && m.receiverId == Some(other)) || (m.senderId == other && m.receiverId == Some(uid))
  }

  predicate InGroupChat(m: MessageRow, gid: int)
  {
    m.groupId == Some(gid)
  }

  predicate SortedByTime(s: seq<MessageRow>)
  {
    forall i, j :: 0 <= i < j < |s| ==> s[i].createdAt <= s[j].createdAt
  }

  lemma PrependSorted(x: MessageRow, s: seq<MessageRow>)
    requires SortedByTime(s) && (s != [] ==> x.createdAt <= s[0].createdAt)
    ensures SortedByTime([x] + s)
  {
    var r := [x] + s;
    forall i, j | 0 <= i < j < |r| ensures r[i].createdAt <= r[j].createdAt {
      if i == 0 {
        assert r[j] == s[j - 1];
      } else {
        assert r[i] == s[i - 1] && r[j] == s[j - 1];
      }
    }
  }

  /** Inserts `m` into a time-sorted list before the first later message. */
  function InsertByTime(m: MessageRow, s: seq<MessageRow>): (r: seq<MessageRow>)
    requires SortedByTime(s)
    ensures SortedByTime(r)
    ensures |r| == |s| + 1 && multiset(r) == multiset(s) + multiset{m}
    ensures r[0] == m || (s != [] && r[0] == s[0])
  {
    if s == [] then [m]
    else if m.createdAt <= s[0].createdAt then
      PrependSorted(m, s);
      [m] + s
    else
      var rest := InsertByTime(m, s[1..]);
      InsertAfterHead(m, s, rest);
      [s[0]] + rest
  }

  /** The head of `s`, older than `m`, followed by `m` inserted into the tail. */
  lemma InsertAfterHead(m: MessageRow, s: seq<MessageRow>, rest: seq<MessageRow>)
    requires SortedByTime(s) && s != [] && s[0].createdAt < m.createdAt
    requires SortedByTime(rest) && multiset(rest) == multiset(s[1..]) + multiset{m}
    requires rest[0] == m || (s[1..] != [] && rest[0] == s[1..][0])
    ensures SortedByTime([s[0]] + rest)
    ensures multiset([s[0]] + rest) == multiset(s) + multiset{m}
  {
    assert s == [s[0]] + s[1..];
    PrependSorted(s[0], rest);
  }

  /** `ORDER BY created_at ASC`. */
  function SortByTime(s: seq<MessageRow>): (r: seq<MessageRow>)
    ensures SortedByTime(r)
    ensures multiset(r) == multiset(s)
  {
    if s == [] then []
    else
      assert s == [s[0]] + s[1..];
      InsertByTime(s[0], SortByTime(s[1..]))
  }

  /** The stored messages of a conversation, in table order. */
  function Conversation(msgs: seq<MessageRow>, uid: int, other: int, isGroup: bool): (r: seq<MessageRow>)
    ensures forall m :: m in r <==> m in msgs && (if isGroup then InGroupChat(m, other) else InDirectChat(m, uid, other))
    ensures multiset(r) <= multiset(msgs)
  {
    if isGroup then Filter(msgs, (m: MessageRow) => InGroupChat(m, other))
    else Filter(msgs, (m: MessageRow) => InDirectChat(m, uid, other))
  }

  /**
   * `get_chat_history`: the group's messages when `isGroup`, otherwise the messages between
   * the two users in either direction; oldest first, and each as often as it is stored.
   */
  function GetChatHistory(t: Tables, uid: int, other: int, isGroup: bool): (r: seq<MessageRow>)
    ensures SortedByTime(r)
    ensures multiset(r) == multiset(Conversation(t.messages, uid, other, isGroup))
    ensures forall m :: m in r <==> m in t.messages && (if isGroup then InGroupChat(m, other) else InDirectChat(m, uid, other))
  {
    var selected := Conversation(t.messages, uid, other, isGroup);
    var r := SortByTime(selected);
    forall m ensures m in r <==> m in selected {
      assert m in r <==> m in multiset(r);
      assert m in selected <==> m in multiset(selected);
    }
    r
  }

  /** The rows `mark_messages_read` updates. */
  predicate Unread(m: MessageRow, senderId: int, receiverId: int)
  {
    m.senderId == senderId && m.receiverId == Some(receiverId) && m.status != "read"
  }

  /**
   * `mark_messages_read`: every not yet read message from `senderId` to `receiverId` becomes
   * read; every other row is unchanged.
   */
  function MarkMessagesRead(msgs: seq<MessageRow>, senderId: int, receiverId: int): (r: seq<MessageRow>)
    ensures |r| == |msgs|
    ensures forall i :: 0 <= i < |msgs| ==>
      r[i] == (if Unread(msgs[i], senderId, receiverId) then msgs[i].(status := "read") else msgs[i])
  {
    seq(|msgs|, i requires 0 <= i < |msgs| =>
      if Unread(msgs[i], senderId, receiverId) then msgs[i].(status := "read") else msgs[i])
  }

  /** Afterwards nothing from that sender to that receiver is unread, and marking again changes nothing. */
  lemma MarkMessagesReadSettles(msgs: seq<MessageRow>, senderId: int, receiverId: int)
    ensures var r := MarkMessagesRead(msgs, senderId, receiverId);
      && (forall i :: 0 <= i < |r| ==> !Unread(r[i], senderId, receiverId))
      && MarkMessagesRead(r, senderId, receiverId) == r
  {
    var r := MarkMessagesRead(msgs, senderId, receiverId);
    assert forall i :: 0 <= i < |r| ==> !Unread(r[i], senderId, receiverId);
  }

}

/** The database session of backend/crud.py: the tables that the writing operations change. */
module CrudSession {
  import opened Wrappers
  import Crud

  class Database {
    var tables: Crud.Tables

    constructor (tables: Crud.Tables)
      ensures this.tables == tables
    {
      this.tables := tables;
    }

    method AddContact(uid: int, email: string) returns (contact: Option<Crud.UserRow>)
      modifies this
      ensures (tables, contact) == Crud.AddContact(old(tables), uid, email)
    {
      var r := Crud.AddContact(tables, uid, email);
      tables, contact := r.0, r.1;
    }

    method CreateGroup(name: string, adminId: int) returns (g: Crud.GroupRow)
      modifies this
      ensures (tables, g) == Crud.CreateGroup(old(tables), name, adminId)
    {
      var r := Crud.CreateGroup(tables, name, adminId);
      tables, g := r.0, r.1;
    }

    method AddGroupMember(gid: int, email: string) returns (user: Option<Crud.UserRow>)
      modifies this
      ensures (tables, user) == Crud.AddGroupMember(old(tables), gid, email)
    {
      var r := Crud.AddGroupMember(tables, gid, email);
      tables, user := r.0, r.1;
    }

    method CreateMessage(senderId: int, f: Crud.MessageFields, now: int) returns (m: Crud.MessageRow)
      modifies this
      ensures (tables, m) == Crud.CreateMessage(old(tables), senderId, f, now)
    {
      var r := Crud.CreateMessage(tables, senderId, f, now);
      tables, m := r.0, r.1;
    }

    method MarkMessagesRead(senderId: int, receiverId: int)
      modifies this
      ensures tables == old(tables).(messages := Crud.MarkMessagesRead(old(tables).messages, senderId, receiverId))
    {
      tables := tables.(messages := Crud.MarkMessagesRead(tables.messages, senderId, receiverId));
    }
  }
}
