/**
 * The backend's registry of live WebSocket connections (backend/chat_manager.py).
 *
 * `ConnectionManager.active_connections` maps a user id to the list of that user's sockets
 * (one per device), in dict insertion order. Sockets are opaque handles; sending is recorded
 * in a delivery log, and a socket that has been closed makes `send_text` raise, which
 * `send_personal_message` swallows and `broadcast` lets through.
 */
module ConnectionManager {
  import opened Wrappers
  import opened OrderedMaps
  import opened Protocol

  /** An opaque WebSocket handle. */
  type Sock = nat

  /** What a socket is sent: a JSON-encoded frame, or a text passed to `broadcast`. */
  datatype Outgoing = JsonText(frame: WireOut) | RawText(text: string)

  datatype Delivery = Delivery(sock: Sock, payload: Outgoing)

  type Registry = OrderedMap<int, seq<Sock>>

  /** `active_connections.get(u, [])`. */
  function Sockets(t: Registry, u: int): (r: seq<Sock>)
    ensures u in t.entries ==> r == t.entries[u]
    ensures u !in t.entries ==> r == []
  {
    t.GetOr(u, [])
  }

  /** The registry's invariant: no user is stored with an empty list. */
  predicate NoEmptyList(t: Registry)
  {
    forall u | u in t.entries :: t.entries[u] != []
  }

  // ------------------------------------------------------------------
  // connect and disconnect
  // ------------------------------------------------------------------

  /** Python's `list.remove(x)` when `x` is present: drops the first occurrence only. */
  function RemoveFirst(s: seq<Sock>, x: Sock): (r: seq<Sock>)
    ensures x !in s ==> r == s
    ensures x in s ==> |r| == |s| - 1
    ensures multiset(r) == multiset(s) - multiset{x}
    ensures forall y :: y != x ==> (y in r <==> y in s)
    ensures x in s ==> DropsFirst(s, x, r)
  {
    if s == [] then []
    else
      assert s == [s[0]] + s[1..];
      if s[0] == x then
        assert s[..0] == [];
        assert DropsFirst(s, x, s[1..]) by { assert s[0] == x; }
        s[1..]
      else
        var rest := RemoveFirst(s[1..], x);
        DropsFirstAfterHead(s, x, rest);
        [s[0]] + rest
  }

  /** `r == s[..i] + s[i + 1..]` where `s[i]` is the first occurrence of `x`. */
  predicate DropsFirst(s: seq<Sock>, x: Sock, r: seq<Sock>)
  {
    exists i | 0 <= i < |s| :: s[i] == x && x !in s[..i] && r == s[..i] + s[i + 1..]
  }

  /** Dropping the first `x` from the tail, behind a head other than `x`, drops the first `x` of the whole. */
  lemma DropsFirstAfterHead(s: seq<Sock>, x: Sock, rest: seq<Sock>)
    requires s != [] && s[0] != x
    requires x in s[1..] ==> DropsFirst(s[1..], x, rest)
    ensures x in s ==> DropsFirst(s, x, [s[0]] + rest)
  {
    if x in s {
      var tail := s[1..];
      assert s == [s[0]] + tail;
      assert x in tail;
      var i :| 0 <= i < |tail| && tail[i] == x && x !in tail[..i] && rest == tail[..i] + tail[i + 1..];
      ConsKeepsSplit(s[0], tail, i);
    }
  }

  /** Putting `h` in front of `tail` shifts a split of `tail` at `i` to a split at `i + 1`. */
  lemma ConsKeepsSplit<T>(h: T, tail: seq<T>, i: nat)
    requires i < |tail|
    ensures ([h] + tail)[i + 1] == tail[i]
    ensures ([h] + tail)[..i + 1] == [h] + tail[..i]
    ensures [h] + (tail[..i] + tail[i + 1..]) == ([h] + tail)[..i + 1] + ([h] + tail)[i + 2..]
  {
    var s := [h] + tail;
    assert s[..i + 1] == [h] + tail[..i];
    assert s[i + 2..] == tail[i + 1..];
  }

  /** Removing what was just appended, when it was not there before, gives the list back. */
  lemma {:induction false} RemoveFirstOfAppended(s: seq<Sock>, x: Sock)
    requires x !in s
    ensures RemoveFirst(s + [x], x) == s
  {
    if s != [] {
      assert (s + [x])[1..] == s[1..] + [x];
      RemoveFirstOfAppended(s[1..], x);
    }
  }

  /** `connect(ws, u)`: appends the socket to the user's list, creating the list if absent. */
  function Register(t: Registry, ws: Sock, u: int): (r: Registry)
    requires t.Valid()
    ensures r.Valid()
    ensures u in r.entries && Sockets(r, u) == Sockets(t, u) + [ws]
    ensures forall v :: v != u ==> (v in r.entries <==> v in t.entries) && Sockets(r, v) == Sockets(t, v)
    ensures NoEmptyList(t) ==> NoEmptyList(r)
  {
    t.Put(u, Sockets(t, u) + [ws])
  }

  /** Sets a known user's list to `rest`, deleting the user's entry when `rest` is empty. */
  function SetList(t: Registry, u: int, rest: seq<Sock>): (r: Registry)
    requires t.Valid() && u in t.entries
    ensures r.Valid()
    ensures Sockets(r, u) == rest && (u in r.entries <==> rest != [])
    ensures forall v :: v != u ==> (v in r.entries <==> v in t.entries) && Sockets(r, v) == Sockets(t, v)
    ensures NoEmptyList(t) ==> NoEmptyList(r)
    ensures rest != [] && rest == t.entries[u] ==> r == t
  {
    if rest == [] then t.Remove(u)
    else
      assert rest == t.entries[u] ==> t.entries[u := rest] == t.entries;
      t.Put(u, rest)
  }

  /**
   * `disconnect(ws, u)`: removes the socket from the user's list (first occurrence) and
   * deletes the user's entry when the list is left empty; an unknown user is ignored.
   */
  function Unregister(t: Registry, ws: Sock, u: int): (r: Registry)
    requires t.Valid()
    ensures r.Valid()
    ensures NoEmptyList(t) ==> NoEmptyList(r)
    ensures Sockets(r, u) == RemoveFirst(Sockets(t, u), ws)
    ensures u in r.entries <==> Sockets(r, u) != []
    ensures forall v :: v != u ==> (v in r.entries <==> v in t.entries) && Sockets(r, v) == Sockets(t, v)
    ensures NoEmptyList(t) && ws !in Sockets(t, u) ==> r == t
  {
    if u in t.entries then SetList(t, u, RemoveFirst(t.entries[u], ws)) else t
  }

  /** Connecting a socket that was not registered and disconnecting it restores the registry. */
  lemma RegisterThenUnregister(t: Registry, ws: Sock, u: int)
    requires t.Valid() && NoEmptyList(t) && ws !in Sockets(t, u)
    ensures Unregister(Register(t, ws, u), ws, u) == t
  {
    if u in t.entries {
      RegisterThenUnregisterKnown(t, ws, u);
    } else {
      RegisterThenUnregisterNew(t, ws, u);
    }
  }

  lemma RegisterThenUnregisterKnown(t: Registry, ws: Sock, u: int)
    requires t.Valid() && NoEmptyList(t) && u in t.entries && ws !in t.entries[u]
    ensures Unregister(Register(t, ws, u), ws, u) == t
  {
    var before := t.entries[u];
    var r := t.Put(u, before + [ws]);
    assert Register(t, ws, u) == r;
    RemoveFirstOfAppended(before, ws);
    assert Unregister(r, ws, u) == SetList(r, u, before);
    assert SetList(r, u, before) == r.Put(u, before);
    PutTwice(t, u, before + [ws], before);
  }

  lemma RegisterThenUnregisterNew(t: Registry, ws: Sock, u: int)
    requires t.Valid() && u !in t.entries
    ensures Unregister(Register(t, ws, u), ws, u) == t
  {
    var r := t.Put(u, [ws]);
    assert Sockets(t, u) + [ws] == [ws];
    assert Register(t, ws, u) == r;
    assert RemoveFirst([ws], ws) == [];
    assert Unregister(r, ws, u) == r.Remove(u);
    PutThenRemove(t, u, [ws]);
  }

  /** `is_online(u)`: under the invariant, exactly when the user has at least one socket. */
  function IsOnline(t: Registry, u: int): (b: bool)
    ensures NoEmptyList(t) ==> (b <==> Sockets(t, u) != [])
  {
    u in t.entries
  }

  // ------------------------------------------------------------------
  // Sending
  // ------------------------------------------------------------------

  /** The same payload to each socket of `socks`, in order. */
  function Deliver(socks: seq<Sock>, p: Outgoing): (r: seq<Delivery>)
    ensures |r| == |socks| && forall i :: 0 <= i < |socks| ==> r[i] == Delivery(socks[i], p)
  {
    seq(|socks|, i requires 0 <= i < |socks| => Delivery(socks[i], p))
  }

  lemma DeliverAppend(a: seq<Sock>, b: seq<Sock>, p: Outgoing)
    ensures Deliver(a + b, p) == Deliver(a, p) + Deliver(b, p)
  {
    assert forall i :: 0 <= i < |a| + |b| ==> Deliver(a + b, p)[i] == (Deliver(a, p) + Deliver(b, p))[i];
  }

  /** The deliveries `send_personal_message` makes to `socks`: one per socket that is not closed. */
  function PersonalDeliveries(socks: seq<Sock>, closed: set<Sock>, p: Outgoing): (r: seq<Delivery>)
    ensures |r| <= |socks|
    ensures (forall s | s in socks :: s in closed) ==> r == []
  {
    if socks == [] then []
    else
      var init := socks[..|socks| - 1];
      var last := socks[|socks| - 1];
      PersonalDeliveries(init, closed, p) + (if last in closed then [] else [Delivery(last, p)])
  }

  /**
   * The entries of a socket list that are still open, in list order: a socket registered
   * twice appears twice.
   */
  function OpenEntries<T(==,!new)>(socks: seq<T>, closed: set<T>): (r: seq<T>)
    ensures |r| <= |socks|
    ensures forall s :: s in r <==> s in socks && s !in closed
  {
    if socks == [] then []
    else
      assert socks == [socks[0]] + socks[1..];
      (if socks[0] in closed then [] else [socks[0]]) + OpenEntries(socks[1..], closed)
  }

  /** An open socket keeps its number of entries; a closed one has none left. */
  lemma {:induction false} OpenEntriesCount<T(!new)>(socks: seq<T>, closed: set<T>, x: T)
    ensures multiset(OpenEntries(socks, closed))[x] == if x in closed then 0 else multiset(socks)[x]
  {
    if socks != [] {
      assert socks == [socks[0]] + socks[1..];
      OpenEntriesCount(socks[1..], closed, x);
    }
  }

  lemma {:induction false} OpenEntriesSnoc<T(!new)>(init: seq<T>, last: T, closed: set<T>)
    ensures OpenEntries(init + [last], closed)
         == OpenEntries(init, closed) + (if last in closed then [] else [last])
    decreases |init|
  {
    if init == [] {
      assert init + [last] == [last];
      assert [last][1..] == [];
    } else {
      var s := init + [last];
      var head := if init[0] in closed then [] else [init[0]];
      var tail := if last in closed then [] else [last];
      assert s[0] == init[0] && s[1..] == init[1..] + [last];
      assert OpenEntries(s, closed) == head + OpenEntries(init[1..] + [last], closed);
      OpenEntriesSnoc(init[1..], last, closed);
      assert OpenEntries(init, closed) == head + OpenEntries(init[1..], closed);
      assert head + (OpenEntries(init[1..], closed) + tail) == (head + OpenEntries(init[1..], closed)) + tail;
    }
  }

  /**
   * The deliveries are exactly one per open entry of the list, in registration order, each
   * carrying the payload: a closed socket's failure is skipped without stopping the others.
   */
  lemma PersonalDeliveriesReachOpenSockets(socks: seq<Sock>, closed: set<Sock>, p: Outgoing)
    ensures var r := PersonalDeliveries(socks, closed, p);
      && |r| == |OpenEntries(socks, closed)|
      && (forall i :: 0 <= i < |r| ==> r[i] == Delivery(OpenEntries(socks, closed)[i], p))
      && (forall d :: d in r ==> d.payload == p && d.sock in socks && d.sock !in closed)
      && (forall s :: s in socks && s !in closed ==> Delivery(s, p) in r)
  {
    DeliveriesFollowOpenEntries(socks, closed, p);
    DeliveriesOfEntries(PersonalDeliveries(socks, closed, p), OpenEntries(socks, closed), socks, closed, p);
  }

  lemma {:induction false} DeliveriesFollowOpenEntries(socks: seq<Sock>, closed: set<Sock>, p: Outgoing)
    ensures var r := PersonalDeliveries(socks, closed, p);
      && |r| == |OpenEntries(socks, closed)|
      && (forall i :: 0 <= i < |r| ==> r[i] == Delivery(OpenEntries(socks, closed)[i], p))
  {
    if socks != [] {
      var init := socks[..|socks| - 1];
      var last := socks[|socks| - 1];
      assert socks == init + [last];
      DeliveriesFollowOpenEntries(init, closed, p);
      OpenEntriesSnoc(init, last, closed);
    }
  }

  /** Deliveries that follow the open entries one by one reach exactly the open sockets. */
  lemma DeliveriesOfEntries(r: seq<Delivery>, o: seq<Sock>, socks: seq<Sock>, closed: set<Sock>, p: Outgoing)
    requires |r| == |o| && forall i :: 0 <= i < |r| ==> r[i] == Delivery(o[i], p)
    requires forall s :: s in o <==> s in socks && s !in closed
    ensures forall d :: d in r ==> d.payload == p && d.sock in socks && d.sock !in closed
    ensures forall s :: s in socks && s !in closed ==> Delivery(s, p) in r
  {
    forall s | s in socks && s !in closed
      ensures Delivery(s, p) in r
    {
      var i :| 0 <= i < |o| && o[i] == s;
      assert r[i] == Delivery(s, p);
    }
  }

  /** One more socket of the list adds its delivery unless it is closed. */
  lemma PersonalDeliveriesStep(socks: seq<Sock>, i: int, closed: set<Sock>, p: Outgoing)
    requires 0 <= i < |socks|
    ensures PersonalDeliveries(socks[..i + 1], closed, p)
         == PersonalDeliveries(socks[..i], closed, p) + (if socks[i] in closed then [] else [Delivery(socks[i], p)])
  {
    var next := socks[..i + 1];
    assert next[..|next| - 1] == socks[..i] && next[|next| - 1] == socks[i];
  }

  /** All sockets of the registry, user by user in key order. */
  function AllSockets(t: Registry, keys: seq<int>): seq<Sock>
  {
    if keys == [] then [] else AllSockets(t, keys[..|keys| - 1]) + Sockets(t, keys[|keys| - 1])
  }

  lemma {:induction false} AllSocketsAppend(t: Registry, a: seq<int>, b: seq<int>)
    ensures AllSockets(t, a + b) == AllSockets(t, a) + AllSockets(t, b)
    decreases |b|
  {
    if b != [] {
      var init := b[..|b| - 1];
      assert (a + b)[..|a + b| - 1] == a + init;
      assert (a + b)[|a + b| - 1] == b[|b| - 1];
      AllSocketsAppend(t, a, init);
    } else {
      assert a + b == a;
    }
  }

  /** The longest prefix of `socks` that holds no closed socket. */
  function UpToFirstClosed(socks: seq<Sock>, closed: set<Sock>): (r: seq<Sock>)
    ensures r <= socks
    ensures forall s :: s in r ==> s !in closed
    ensures |r| < |socks| ==> socks[|r|] in closed
    ensures (forall s :: s in socks ==> s !in closed) ==> r == socks
  {
    if socks == [] || socks[0] in closed then []
    else [socks[0]] + UpToFirstClosed(socks[1..], closed)
  }

  lemma {:induction false} UpToFirstClosedAppend(a: seq<Sock>, b: seq<Sock>, closed: set<Sock>)
    requires forall s :: s in a ==> s !in closed
    ensures UpToFirstClosed(a + b, closed) == a + UpToFirstClosed(b, closed)
  {
    if a != [] {
      assert (a + b)[1..] == a[1..] + b;
      assert (a + b)[0] == a[0] && a[0] in a;
      UpToFirstClosedAppend(a[1..], b, closed);
    } else {
      assert a + b == b;
    }
  }

  lemma AllSocketsStep(t: Registry, keys: seq<int>, i: int)
    requires 0 <= i < |keys|
    ensures AllSockets(t, keys[..i + 1]) == AllSockets(t, keys[..i]) + Sockets(t, keys[i])
  {
    assert keys[..i + 1][..i] == keys[..i];
  }

  /** Where a broadcast meets the `j`-th socket of the `i`-th user closed, it has sent to everything before. */
  lemma BroadcastStopsAt(t: Registry, keys: seq<int>, i: int, j: int, closed: set<Sock>)
    requires 0 <= i < |keys| && 0 <= j < |Sockets(t, keys[i])| && Sockets(t, keys[i])[j] in closed
    requires forall s :: s in AllSockets(t, keys[..i]) + Sockets(t, keys[i])[..j] ==> s !in closed
    ensures UpToFirstClosed(AllSockets(t, keys), closed) == AllSockets(t, keys[..i]) + Sockets(t, keys[i])[..j]
    ensures Sockets(t, keys[i])[j] in AllSockets(t, keys)
  {
    var socks := Sockets(t, keys[i]);
    var done := AllSockets(t, keys[..i]);
    var rest := AllSockets(t, keys[i + 1..]);
    assert keys == keys[..i + 1] + keys[i + 1..];
    AllSocketsAppend(t, keys[..i + 1], keys[i + 1..]);
    AllSocketsStep(t, keys, i);
    Regroup(done, socks, rest, j);
    StopsAtClosed(done + socks[..j], socks[j], socks[j + 1..] + rest, closed);
  }

  /** Splits the middle list of `done + socks + rest` around its `j`-th socket. */
  lemma Regroup(done: seq<Sock>, socks: seq<Sock>, rest: seq<Sock>, j: int)
    requires 0 <= j < |socks|
    ensures done + socks + rest == (done + socks[..j]) + ([socks[j]] + (socks[j + 1..] + rest))
  {
    assert socks == socks[..j] + ([socks[j]] + socks[j + 1..]);
  }

  /** A closed socket right after an open prefix ends the prefix that is sent to. */
  lemma StopsAtClosed(pre: seq<Sock>, x: Sock, post: seq<Sock>, closed: set<Sock>)
    requires forall s :: s in pre ==> s !in closed
    requires x in closed
    ensures UpToFirstClosed(pre + ([x] + post), closed) == pre
    ensures x in pre + ([x] + post)
  {
    UpToFirstClosedAppend(pre, [x] + post, closed);
    assert ([x] + post)[0] == x;
    assert (pre + ([x] + post))[|pre|] == x;
  }

  // ------------------------------------------------------------------
  // The manager
  // ------------------------------------------------------------------

  class ConnectionManager {
    var active: Registry
    /** The sockets that are closed: sending to them raises. */
    var closed: set<Sock>
    /** Everything sent, oldest first. */
    var sent: seq<Delivery>

    ghost predicate Valid()
      reads this
    {
      active.Valid() && NoEmptyList(active)
    }

    constructor ()
      ensures Valid() && active == Empty() && closed == {} && sent == []
    {
      active, closed, sent := Empty(), {}, [];
    }

    method Connect(ws: Sock, u: int)
      requires Valid()
      modifies this`active
      ensures Valid() && active == Register(old(active), ws, u)
    {
      active := Register(active, ws, u);
    }

    method Disconnect(ws: Sock, u: int)
      requires Valid()
      modifies this`active
      ensures Valid() && active == Unregister(old(active), ws, u)
    {
      active := Unregister(active, ws, u);
    }

    /** The socket is closed (by its client, or by the server's `websocket.close()`). */
    method Close(ws: Sock)
      modifies this`closed
      ensures closed == old(closed) + {ws}
    {
      closed := closed + {ws};
    }

    /**
     * `send_personal_message(p, u)`: each of the user's sockets is sent the payload, a
     * failing socket is skipped, and an absent (or missing) user gets nothing.
     */
    method SendPersonalMessage(p: Outgoing, u: Option<int>)
      modifies this`sent
      ensures sent == old(sent) + (if u.Some? then PersonalDeliveries(Sockets(active, u.value), closed, p) else [])
    {
      if u.None? || u.value !in active.entries {
        return;
      }
      var socks := active.entries[u.value];
      var i := 0;
      while i < |socks|
        invariant 0 <= i <= |socks|
        invariant sent == old(sent) + PersonalDeliveries(socks[..i], closed, p)
      {
        PersonalDeliveriesStep(socks, i, closed, p);
        if socks[i] !in closed {
          sent := sent + [Delivery(socks[i], p)];
        }
        i := i + 1;
      }
      assert socks[..i] == socks;
    }

    /**
     * `broadcast(text)`: sends the text to every socket, user by user in key order; the first
     * closed socket raises, which ends the broadcast.
     */
    method Broadcast(text: string) returns (raised: bool)
      modifies this`sent
      ensures sent == old(sent) + Deliver(UpToFirstClosed(AllSockets(active, active.keys), closed), RawText(text))
      ensures raised <==> exists s :: s in AllSockets(active, active.keys) && s in closed
    {
      var keys := active.keys;
      var p := RawText(text);
      var i := 0;
      while i < |keys|
        invariant 0 <= i <= |keys|
        invariant sent == old(sent) + Deliver(AllSockets(active, keys[..i]), p)
        invariant forall s :: s in AllSockets(active, keys[..i]) ==> s !in closed
      {
        var socks := Sockets(active, keys[i]);
        var done := AllSockets(active, keys[..i]);
        var j := 0;
        while j < |socks|
          invariant 0 <= j <= |socks|
          invariant sent == old(sent) + Deliver(done + socks[..j], p)
          invariant forall s :: s in done + socks[..j] ==> s !in closed
        {
          if socks[j] in closed {
            BroadcastStopsAt(active, keys, i, j, closed);
            return true;
          }
          DeliverAppend(done + socks[..j], [socks[j]], p);
          assert done + socks[..j + 1] == done + socks[..j] + [socks[j]];
          sent := sent + [Delivery(socks[j], p)];
          j := j + 1;
        }
        AllSocketsStep(active, keys, i);
        assert socks[..j] == socks;
        i := i + 1;
      }
      assert keys[..i] == keys;
      return false;
    }
  }
}
