/** internal/store/store.go: the store object, its tables as fields. */
module StoreService {
  import opened Prelude
  import opened Sanitizer
  import opened Mentions
  import D = Database
  import L = StoreLaws
  import opened Database

  /** The reversal loop of RoomHistory and DMHistory. */
  method ReverseInPlace<T>(a: array<T>)
    modifies a
    ensures a[..] == Reverse(old(a[..]))
  {
    var n := a.Length;
    var i, j := 0, n - 1;
    while i < j
      invariant 0 <= i && j == n - 1 - i && i <= j + 1
      invariant forall k :: 0 <= k < i ==> a[k] == old(a[n - 1 - k]) && a[n - 1 - k] == old(a[k])
      invariant forall k :: i <= k <= j ==> a[k] == old(a[k])
    {
      a[i], a[j] := a[j], a[i];
      i, j := i + 1, j - 1;
    }
    L.ReverseAt(old(a[..]));
  }

  /** Fetch the newest rows that satisfy p, at most limit of them, and turn them round. */
  method NewestInOrder(ms: seq<Message>, p: Message -> bool, limit: int) returns (out: seq<Message>)
    ensures out == Tail(Filter(ms, p), limit)
  {
    var rows := SelectDesc(ms, p, limit);
    var a := new Message[|rows|](i requires 0 <= i < |rows| => rows[i]);
    assert a[..] == rows;
    ReverseInPlace(a);
    out := a[..];
    L.HistoryIsTail(Filter(ms, p), limit);
  }

  class Store {
    var users: seq<User>
    var rooms: seq<Room>
    var members: map<(Id, Id), Role>
    var bans: set<(Id, Id)>
    var blocks: set<(Id, Id)>
    var messages: seq<Message>
    var mentions: set<(Id, Id)>
    var notifs: seq<Notif>
    var index: set<(string, Id)>

    constructor ()
      ensures View() == EMPTY
    {
      users, rooms, members, bans, blocks := [], [], map[], {}, {};
      messages, mentions, notifs, index := [], {}, [], {};
    }

    ghost function View(): DB
      reads this
    {
      DB(users, rooms, members, bans, blocks, messages, mentions, notifs, index)
    }

    method UserByHandle(h: string) returns (u: Option<Id>)
      ensures u == D.UserByHandle(View(), h)
      ensures if u.Some? then 1 <= u.value <= |users| && Lower(users[u.value - 1].handle) == Lower(h)
              else forall i :: 0 <= i < |users| ==> Lower(users[i].handle) != Lower(h)
    {
      u := FindHandle(users, h);
      L.FindHandleExact(users, h);
    }

    method RoomByName(name: string) returns (r: Option<Id>)
      ensures r == D.RoomByName(View(), name)
      ensures if r.Some? then
                1 <= r.value <= |rooms| && Lower(rooms[r.value - 1].name) == Lower(name) && !rooms[r.value - 1].deleted
              else forall i :: 0 <= i < |rooms| ==> Lower(rooms[i].name) != Lower(name) || rooms[i].deleted
    {
      r := FindRoom(rooms, name, true);
      L.FindRoomExact(rooms, name, true);
    }

    method CreateUser(h: string) returns (ok: bool)
      modifies this`users
      ensures ok == D.CreateUser(old(View()), h).Ok?
      ensures View() == if ok then D.CreateUser(old(View()), h).value else old(View())
    {
      if FindHandle(users, h).Some? { return false; }
      users := users + [User(h, false)];
      return true;
    }

    method CreateRoom(name: string, private: bool, owner: Id, now: int) returns (ok: bool)
      modifies this`rooms, this`members
      ensures ok == D.CreateRoom(old(View()), name, private, owner, now).Ok?
      ensures View() == if ok then D.CreateRoom(old(View()), name, private, owner, now).value else old(View())
    {
      if FindRoom(rooms, name, false).Some? || !(1 <= owner <= |users|) { return false; }
      rooms := rooms + [Room(name, private, owner, now, false)];
      members := members[(|rooms|, owner) := Owner];
      return true;
    }

    method JoinRoom(r: Id, u: Id) returns (ok: bool)
      modifies this`members
      ensures ok == D.JoinRoom(old(View()), r, u).Ok?
      ensures ok ==> (r, u) in members
                     && members[(r, u)] == if (r, u) in old(members) then old(members)[(r, u)] else Member
      ensures View() == if ok then D.JoinRoom(old(View()), r, u).value else old(View())
    {
      if (r, u) in bans { return false; }
      if (r, u) in members { return true; }
      if !(1 <= r <= |rooms|) || !(1 <= u <= |users|) { return false; }
      members := members[(r, u) := Member];
      return true;
    }

    /** LeaveRoom and KickFromRoom. */
    method RemoveMember(r: Id, u: Id)
      modifies this`members
      ensures View() == D.RemoveMember(old(View()), r, u)
    {
      members := members - {(r, u)};
    }

    /** A ban that names no room or no user fails on its foreign keys. */
    method BanFromRoom(r: Id, u: Id) returns (ok: bool)
      modifies this`members, this`bans
      ensures ok <==> RoomExists(View(), r) && UserExists(View(), u)
      ensures View() == D.BanFromRoom(old(View()), r, u)
    {
      ok := 1 <= r <= |rooms| && 1 <= u <= |users|;
      if ok {
        bans := bans + {(r, u)};
        members := members - {(r, u)};
      }
    }

    method SetBlock(u: Id, other: Id, on: bool)
      modifies this`blocks
      ensures View() == D.SetBlock(old(View()), u, other, on)
    {
      if on { blocks := blocks + {(u, other)}; } else { blocks := blocks - {(u, other)}; }
    }

    method ListUserRooms(u: Id) returns (ids: seq<Id>)
      ensures ids == D.ListUserRooms(View(), u)
      ensures forall r :: r in ids <==> 1 <= r <= |rooms| && (r, u) in members && !rooms[r - 1].deleted
      ensures L.InNameOrder(rooms, ids)
    {
      ids := D.ListUserRooms(DB(users, rooms, members, bans, blocks, messages, mentions, notifs, index), u);
      forall r ensures r in ids <==> 1 <= r <= |rooms| && (r, u) in members && !rooms[r - 1].deleted {
        L.RoomsUpToExact(View(), u, |rooms|, r);
      }
      L.ListedInNameOrder(View(), u);
    }

    /** INSERT INTO messages, with the trigger messages_ai. */
    method AppendMessage(m: Message)
      modifies this`messages, this`index
      ensures View() == D.AppendMessage(old(View()), m)
    {
      messages := messages + [m];
      index := AfterInsert(index, m);
    }

    /** The loop over the mentioned ids. */
    method NotifyMentioned(r: Id, author: Id, mid: Id, uids: seq<Id>) returns (notified: seq<Id>)
      modifies this`mentions, this`notifs
      ensures notified == Filter(uids, Eligible(members, r, author))
      ensures mentions == old(mentions) + Paired(mid, notified)
      ensures notifs == old(notifs) + Map(notified, MentionRow(r, mid))
    {
      notified := [];
      assert old(notifs) + [] == old(notifs);
      for i := 0 to |uids|
        invariant notified == Filter(uids[..i], Eligible(members, r, author))
        invariant mentions == old(mentions) + Paired(mid, notified)
        invariant notifs == old(notifs) + Map(notified, MentionRow(r, mid))
      {
        var uid := uids[i];
        FilterNext(uids, i, Eligible(members, r, author));
        MapSnoc(notified, uid, MentionRow(r, mid));
        if uid != author && (r, uid) in members {
          mentions := mentions + {(mid, uid)};
          notifs := notifs + [Notif(uid, Mention(r), mid, false)];
          notified := notified + [uid];
        }
      }
      assert uids[..|uids|] == uids;
    }

    method InsertRoomMessage(r: Id, author: Id, text: string, uids: seq<Id>) returns (res: Result<Sent>)
      modifies this`messages, this`index, this`mentions, this`notifs
      ensures (View(), res) == D.InsertRoomMessage(old(View()), r, author, text, uids)
    {
      if (r, author) !in members { return Err(NotAMember); }
      if (r, author) in bans { return Err(IsBanned); }
      var body := SanitizeUserText(text);
      if body == "" { return Err(EmptyMessage); }
      var m := Message(NextId(messages), InRoom(r), author, Truncate(body), None);
      AppendMessage(m);
      var notified := NotifyMentioned(r, author, m.id, uids);
      return Ok(Sent(m, notified));
    }

    method InsertDM(author: Id, peer: Id, text: string) returns (res: Result<Message>)
      modifies this`messages, this`index, this`notifs
      ensures (View(), res) == D.InsertDM(old(View()), author, peer, text)
    {
      if author == peer { return Err(ToSelf); }
      if !(1 <= peer <= |users|) { return Err(NoRecipient); }
      if (peer, author) in blocks { return Err(IsBlocked); }
      var body := SanitizeUserText(text);
      if body == "" { return Err(EmptyMessage); }
      var (a, b) := DMKey(author, peer);
      var m := Message(NextId(messages), InDM(a, b), author, Truncate(body), None);
      AppendMessage(m);
      notifs := notifs + [Notif(peer, DM, m.id, false)];
      return Ok(m);
    }

    method RoomHistory(r: Id, limit: int) returns (out: seq<Message>)
      ensures out == Tail(Filter(messages, InRoomRows(r)), limit)
    {
      out := NewestInOrder(messages, InRoomRows(r), limit);
    }

    method DMHistory(u1: Id, u2: Id, limit: int) returns (out: seq<Message>)
      ensures out == Tail(Filter(messages, InThread(DMKey(u1, u2).0, DMKey(u1, u2).1)), limit)
    {
      var (a, b) := DMKey(u1, u2);
      out := NewestInOrder(messages, InThread(a, b), limit);
    }

    method SearchRoom(r: Id, q: Query, limit: int) returns (out: seq<Message>)
      ensures out == D.SearchRoom(View(), r, q, limit)
      ensures L.Valid(View()) ==> out == SelectDesc(messages, L.RoomAsks(r, q), limit)
    {
      out := SelectDesc(messages, RoomHit(index, r, q), limit);
      if L.Valid(View()) { L.SearchIsScan(View(), r, q, limit); }
    }

    /** UPDATE messages, with the trigger messages_au on the row that changes. */
    method DeleteMessageForUser(id: Id, actor: Id, admin: bool, now: int) returns (ok: bool)
      modifies this`messages, this`index
      ensures ok == D.DeleteMessageForUser(old(View()), id, actor, admin, now).Ok?
      ensures View() == if ok then D.DeleteMessageForUser(old(View()), id, actor, admin, now).value else old(View())
    {
      var m := Find(messages, id);
      if m.None? { return false; }
      if m.value.author != actor && !admin {
        if m.value.place.InDM? { return false; }
        var key := (m.value.place.room, actor);
        if key !in members || members[key] == Member { return false; }
      }
      if m.value.deletedAt.None? {
        index := AfterUpdate(index, m.value, Tombstone(id, now)(m.value));
        messages := Map(messages, Tombstone(id, now));
      }
      return true;
    }

    /** DELETE FROM messages, with the trigger messages_ad row by row and the cascades. */
    method PurgeDeletedOlderThan(cutoff: int) returns (n: nat)
      modifies this`messages, this`index, this`mentions, this`notifs
      ensures View() == Purge(old(View()), cutoff)
      ensures n == |old(messages)| - |messages|
      ensures forall m :: m in messages <==> m in old(messages) && (m.deletedAt.None? || m.deletedAt.value >= cutoff)
    {
      n := 0;
      var kept: seq<Message> := [];
      for i := 0 to |messages|
        invariant messages == old(messages) && mentions == old(mentions) && notifs == old(notifs)
        invariant kept == Filter(messages[..i], Survives(cutoff)) && n + |kept| == i
        invariant index == AfterDeletes(old(index), messages[..i], Survives(cutoff))
      {
        assert messages[..i + 1][..i] == messages[..i];
        var m := messages[i];
        if m.deletedAt.Some? && m.deletedAt.value < cutoff {
          index := AfterDelete(index, m);
          n := n + 1;
          assert kept + [] == kept;
        } else {
          kept := kept + [m];
        }
      }
      assert messages[..|messages|] == messages;
      messages := kept;
      L.SurvivorsExact(old(messages), cutoff);
      mentions := set x | x in mentions && Find(kept, x.0).Some?;
      notifs := Filter(notifs, StillThere(kept));
    }

    method UnreadCounts(u: Id) returns (inRooms: map<Id, nat>, inDMs: map<Id, nat>)
      ensures Badges(inRooms, inDMs) == D.UnreadCounts(View(), u)
    {
      inRooms, inDMs := map[], map[];
      for i := 0 to |notifs|
        invariant Badges(inRooms, inDMs) == Tally(messages, u, notifs[..i])
      {
        assert notifs[..i + 1][..i] == notifs[..i];
        var n := notifs[i];
        if n.user == u && !n.read {
          match n.kind {
            case Mention(r) => inRooms := Bump(inRooms, r);
            case DM =>
              var peer := PeerOf(messages, u, n.message);
              if peer.Some? { inDMs := Bump(inDMs, peer.value); }
          }
        }
      }
      assert notifs[..|notifs|] == notifs;
    }

    method MarkRoomRead(u: Id, r: Id)
      modifies this`notifs
      ensures View() == D.MarkRoomRead(old(View()), u, r)
    {
      notifs := Map(notifs, ReadIf(UnreadMention(u, r)));
    }

    method MarkDMRead(u: Id, p: Id)
      modifies this`notifs
      ensures View() == D.MarkDMRead(old(View()), u, p)
    {
      notifs := Map(notifs, ReadIf(UnreadInThread(messages, u, p)));
    }
  }
}
