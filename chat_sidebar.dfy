/**
 * The React contact sidebar (frontend/src/components/chat/chat-sidebar.tsx): how fetched
 * users become contacts, the search filter, the highlight of the open contact and the
 * avatar initials.
 */
module ChatSidebar {
  import opened Wrappers
  import opened Text
  import opened Store
  import SocketService

  /** One user of the `GET /chat/contacts` response. */
  datatype ContactItem = ContactItem(
    id: int,
    email: string,
    displayName: Option<string>,
    profilePhotoUrl: Option<string>,
    about: Option<string>)

  /**
   * The mapping in `fetchContacts`: the name is the display name when it is non-empty and
   * otherwise the part of the email before the first '@'; every contact starts offline.
   */
  function MapContact(c: ContactItem): (r: Contact)
    ensures r.id == c.id && r.email == c.email
    ensures r.profilePhotoUrl == c.profilePhotoUrl && r.about == c.about
    ensures r.status == Some("offline")
    ensures r.name.Some?
    ensures SocketService.TruthyText(c.displayName) ==> r.name.value == c.displayName.value
    ensures !SocketService.TruthyText(c.displayName) ==>
      '@' !in r.name.value && (r.name.value == c.email || StartsWith(c.email, r.name.value + "@"))
  {
    Contact(c.id, c.email, Some(SocketService.DisplayNameOr(c.displayName, c.email)), Some("offline"),
            c.profilePhotoUrl, c.about)
  }

  /** The fetched list, mapped one to one and in order; it replaces the store's contacts. */
  function MapContacts(items: seq<ContactItem>): (r: seq<Contact>)
    ensures |r| == |items| && forall i :: 0 <= i < |items| ==> r[i] == MapContact(items[i])
  {
    seq(|items|, i requires 0 <= i < |items| => MapContact(items[i]))
  }

  // ------------------------------------------------------------------
  // Search
  // ------------------------------------------------------------------

  /** The search test: the lowercased term occurs in the lowercased email or in the lowercased non-empty name. */
  function Matches(c: Contact, term: string): (b: bool)
    ensures term == "" ==> b
  {
    assert OccursAt(Lower(c.email), Lower(""), 0);
    Contains(Lower(c.email), Lower(term))
    || (SocketService.TruthyText(c.name) && Contains(Lower(c.name.value), Lower(term)))
  }

  /** `filteredContacts`: the contacts that match, in their order. */
  function FilterContacts(contacts: seq<Contact>, term: string): (r: seq<Contact>)
    ensures |r| <= |contacts|
    ensures forall c :: c in r <==> c in contacts && Matches(c, term)
  {
    if contacts == [] then []
    else (if Matches(contacts[0], term) then [contacts[0]] else []) + FilterContacts(contacts[1..], term)
  }

  /** Filtering a concatenation filters each part and keeps them in order. */
  lemma {:induction false} FilterContactsAppend(a: seq<Contact>, b: seq<Contact>, term: string)
    ensures FilterContacts(a + b, term) == FilterContacts(a, term) + FilterContacts(b, term)
  {
    if a == [] {
      assert a + b == b;
    } else {
      assert (a + b)[0] == a[0];
      assert (a + b)[1..] == a[1..] + b;
      FilterContactsAppend(a[1..], b, term);
    }
  }

  /** Every string contains the empty string. */
  lemma ContainsEmpty(s: string)
    ensures Contains(s, "")
  {
    assert OccursAt(s, "", 0);
  }

  /** The empty search term keeps every contact, in order. */
  lemma {:induction false} EmptyTermKeepsAll(contacts: seq<Contact>)
    ensures FilterContacts(contacts, "") == contacts
  {
    if contacts != [] {
      ContainsEmpty(Lower(contacts[0].email));
      EmptyTermKeepsAll(contacts[1..]);
    }
  }

  /** Filtering with the same term again changes nothing. */
  lemma {:induction false} FilterContactsIdempotent(contacts: seq<Contact>, term: string)
    ensures FilterContacts(FilterContacts(contacts, term), term) == FilterContacts(contacts, term)
  {
    if contacts != [] {
      FilterContactsIdempotent(contacts[1..], term);
      var head := if Matches(contacts[0], term) then [contacts[0]] else [];
      FilterContactsAppend(head, FilterContacts(contacts[1..], term), term);
    }
  }

  // ------------------------------------------------------------------
  // Rendering rules
  // ------------------------------------------------------------------

  /** A contact is highlighted when it is the open chat and the open chat is a contact chat. */
  function IsHighlighted(activeId: Option<int>, activeType: Option<ChatType>, c: Contact): (b: bool)
    ensures activeType != Some(ContactChat) ==> !b
    ensures b ==> activeId == Some(c.id)
  {
    activeId == Some(c.id) && activeType == Some(ContactChat)
  }

  /** Highlighted contacts all share the open chat's id: with distinct ids, at most one is highlighted. */
  lemma AtMostOneHighlighted(activeId: Option<int>, activeType: Option<ChatType>, contacts: seq<Contact>, i: int, j: int)
    requires forall p, q :: 0 <= p < q < |contacts| ==> contacts[p].id != contacts[q].id
    requires 0 <= i < |contacts| && 0 <= j < |contacts|
    requires IsHighlighted(activeId, activeType, contacts[i]) && IsHighlighted(activeId, activeType, contacts[j])
    ensures i == j
  {
  }

  /** The text's first two characters (all of it when shorter), uppercased. */
  function Initials(s: string): (r: string)
    ensures |r| == if |s| < 2 then |s| else 2
    ensures forall k :: 0 <= k < |r| ==> r[k] == UpperChar(s[k])
  {
    Upper(if |s| < 2 then s else s[..2])
  }

  /** The avatar fallback: the name's initials when the name is non-empty, else the email's. */
  function AvatarFallback(c: Contact): (r: string)
    ensures SocketService.TruthyText(c.name) ==> r == Initials(c.name.value) && r != ""
    ensures !SocketService.TruthyText(c.name) ==> r == Initials(c.email)
  {
    if SocketService.TruthyText(c.name) then Initials(c.name.value) else Initials(c.email)
  }

  /** The label shown: the name when non-empty, else the email. */
  function Label(c: Contact): (r: string)
    ensures SocketService.TruthyText(c.name) ==> r == c.name.value
    ensures !SocketService.TruthyText(c.name) ==> r == c.email
  {
    if SocketService.TruthyText(c.name) then c.name.value else c.email
  }

  /** For a contact made by `MapContact`, the label is never empty unless the email is. */
  lemma MappedLabelNonEmpty(item: ContactItem)
    requires item.email != "" && item.email[0] != '@'
    ensures Label(MapContact(item)) != ""
  {
    var c := MapContact(item);
    if !SocketService.TruthyText(item.displayName) {
      assert c.name.value == BeforeFirst(item.email, '@');
    }
  }
}
