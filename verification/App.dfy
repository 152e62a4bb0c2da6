/** internal/tui/app.go and internal/tui/commands.go: the session object on the shared objects. */
module App {
  import opened Prelude
  import D = Database
  import opened Database
  import opened Mentions
  import H = HubModel
  import HubService
  import StoreService
  import SessionCap
  import M = SessionModel

  class AppModel {
    const store: StoreService.Store
    const hub: HubService.Hub
    const lease: SessionCap.Lease
    const user: Id
    const admin: bool
    var hubSub: HubService.Sub?
    var rooms: seq<Id>
    var view: M.View
    var unreadRoom: map<Id, nat>
    var unreadDM: map<Id, nat>
    var mentionRoom: set<Id>

    constructor (store: StoreService.Store, hub: HubService.Hub, lease: SessionCap.Lease, user: Id, admin: bool)
      ensures this.store == store && this.hub == hub && this.lease == lease && this.user == user && this.admin == admin
      ensures hubSub == null
    {
      this.store, this.hub, this.lease, this.user, this.admin := store, hub, lease, user, admin;
      hubSub, rooms, view := null, [], M.NoView;
      unreadRoom, unreadDM, mentionRoom := map[], map[], {};
    }

    ghost function Sess(): M.Session
      reads this
    {
      M.Session(user, admin, rooms, view, unreadRoom, unreadDM, mentionRoom)
    }

    /** The session runs: its subscription is one of the hub's live ones. */
    ghost predicate Live()
      reads this, hub, hub.live
    {
      hubSub != null && hub.Valid() && hubSub in hub.live && hubSub.user == user
    }

    ghost function Ctx(): M.Ctx<HubService.Sub>
      requires hubSub != null
      reads this, store, hub, hub.live
    {
      M.Ctx(store.View(), hub.View(), hubSub, Sess())
    }

    method RefreshRooms()
      requires Live()
      modifies this`rooms
      ensures Live() && Ctx() == M.RefreshRooms(old(Ctx()))
    {
      rooms := store.ListUserRooms(user);
    }

    method OpenRoom(r: Id)
      requires Live()
      modifies this, store
      ensures Live() && Ctx() == M.OpenRoom(old(Ctx()), r)
    {
      view := M.RoomView(r);
      store.MarkRoomRead(user, r);
      unreadRoom := unreadRoom - {r};
      mentionRoom := mentionRoom - {r};
    }

    method OpenDM(p: Id)
      requires Live()
      modifies this, store
      ensures Live() && Ctx() == M.OpenDM(old(Ctx()), p)
    {
      view := M.DMView(p);
      store.MarkDMRead(user, p);
      unreadDM := unreadDM - {p};
    }

    method OpenFirst()
      requires Live()
      modifies this, store
      ensures Live() && Ctx() == M.OpenFirst(old(Ctx()))
    {
      if rooms != [] { OpenRoom(rooms[0]); } else { view := M.NoView; }
    }

    method RefreshUnread()
      modifies this`unreadRoom, this`unreadDM, this`mentionRoom
      ensures Sess() == M.RefreshedUnread(store.View(), old(Sess()))
    {
      unreadRoom, unreadDM := store.UnreadCounts(user);
      mentionRoom := set r | r in unreadRoom && unreadRoom[r] > 0;
    }

    /** Subscribe and join the rooms of the list. */
    method SubscribeAll()
      requires hub.Valid()
      modifies this`hubSub, hub, hub.live
      ensures Live() && fresh(hubSub) && hub.live == old(hub.live) + {hubSub}
      ensures hub.View() == M.JoinAll(H.Subscribe(old(hub.View()), hubSub, user), hubSub, rooms)
    {
      var s := hub.Subscribe(user);
      hubSub := s;
      ghost var h1 := hub.View();
      for i := 0 to |rooms|
        invariant hub.Valid() && hubSub == s && s in hub.live && hub.live == old(hub.live) + {s}
        invariant hub.View() == M.JoinAll(h1, s, rooms[..i])
      {
        assert rooms[..i + 1][..i] == rooms[..i];
        hub.JoinRoom(s, rooms[i]);
      }
      assert rooms[..|rooms|] == rooms;
    }

    /** The refreshes at the start of Init. */
    method Prepare()
      requires Sess() == M.Session(user, admin, [], M.NoView, map[], map[], {})
      modifies this`rooms, this`unreadRoom, this`unreadDM, this`mentionRoom
      ensures Sess() == M.Opening(store.View(), user, admin)
    {
      rooms := store.ListUserRooms(user);
      RefreshUnread();
    }

    method Init()
      requires hubSub == null && hub.Valid() && Sess() == M.Session(user, admin, [], M.NoView, map[], map[], {})
      modifies this, store, hub, hub.live
      ensures Live() && fresh(hubSub) && hub.live == old(hub.live) + {hubSub}
      ensures Ctx() == M.Init(old(store.View()), old(hub.View()), hubSub, user, admin)
    {
      ghost var db, h := store.View(), hub.View();
      Prepare();
      ghost var x := Sess();
      SubscribeAll();
      assert Ctx() == M.Ctx(db, M.JoinAll(H.Subscribe(h, hubSub, user), hubSub, x.rooms), hubSub, x);
      OpenFirst();
      M.InitIs(db, h, hubSub, user, admin, x);
    }

    /** The loop that sends a notify event to every notified user. */
    method NotifyAll(r: Id, us: seq<Id>)
      requires Live()
      modifies hub.live
      ensures Live() && Ctx() == old(Ctx()).(hub := M.NotifyAll(old(hub.View()), r, us))
    {
      for i := 0 to |us|
        invariant Live() && hub.View() == M.NotifyAll(old(hub.View()), r, us[..i])
      {
        assert us[..i + 1][..i] == us[..i];
        hub.PublishUser(us[i], H.Notify(us[i], r));
      }
      assert us[..|us|] == us;
    }

    method PublishSent(r: Id, sent: Sent)
      requires Live()
      modifies hub.live
      ensures Live() && Ctx() == M.PublishSent(old(Ctx()), r, sent)
    {
      var us := sent.notified;
      hub.PublishRoom(r, H.RoomMsg(r, sent.msg, set x | x in us));
      NotifyAll(r, us);
    }

    method StoreMessage(r: Id, body: string) returns (res: Result<Sent>)
      requires Live()
      modifies store
      ensures Live()
      ensures (Ctx().db, res) == M.StoreMessage(old(Ctx()), r, body) && Ctx() == old(Ctx()).(db := Ctx().db)
    {
      var handles := ParseMentions(body);
      res := store.InsertRoomMessage(r, user, body, ResolveHandles(store.users, handles));
    }

    method SendToRoom(r: Id, body: string)
      requires Live()
      modifies store, hub.live
      ensures Live() && Ctx() == M.SendToRoom(old(Ctx()), r, body)
    {
      if (r, user) !in store.members { return; }
      var res := StoreMessage(r, body);
      if res.Ok? { PublishSent(r, res.value); }
    }

    method StoreDM(p: Id, body: string) returns (res: Result<Message>)
      requires Live()
      modifies store
      ensures Live()
      ensures (Ctx().db, res) == D.InsertDM(old(Ctx()).db, user, p, body) && Ctx() == old(Ctx()).(db := Ctx().db)
    {
      res := store.InsertDM(user, p, body);
    }

    method SendToPeer(p: Id, body: string)
      requires Live()
      modifies store, hub.live
      ensures Live() && Ctx() == M.SendToPeer(old(Ctx()), p, body)
    {
      if (p, user) in store.blocks { return; }
      var res := StoreDM(p, body);
      if res.Err? { return; }
      hub.PublishUser(p, H.DmMsg(p, user, res.value));
      hub.PublishUser(user, H.DmMsg(user, p, res.value));
    }

    /** allowed is the answer of the rate limiter. */
    method SendCurrent(text: string, allowed: bool)
      requires Live()
      modifies store, hub.live
      ensures Live() && Ctx() == M.SendCurrent(old(Ctx()), text, allowed)
    {
      if !allowed { return; }
      var body := Truncate(text);
      match view {
        case RoomView(r) => SendToRoom(r, body);
        case DMView(p) => SendToPeer(p, body);
        case NoView =>
      }
    }

    method HandleHubEvent(ev: H.Event)
      requires Live()
      modifies this, store, hub`rooms
      ensures Live() && Ctx() == M.HandleEvent(old(Ctx()), ev)
    {
      match ev {
        case RoomMsg(r, msg, mentionSet) =>
          if view == M.RoomView(r) {
            store.MarkRoomRead(user, r);
          } else if user !in mentionSet {
            unreadRoom := Bump(unreadRoom, r);
          }
        case DmMsg(_, peer, msg) =>
          if view == M.DMView(peer) {
            store.MarkDMRead(user, peer);
          } else if msg.author != user {
            unreadDM := Bump(unreadDM, peer);
          }
        case Notify(_, r) =>
          mentionRoom := mentionRoom + {r};
          unreadRoom := Bump(unreadRoom, r);
        case RoomMeta(_) => RefreshRooms();
        case RoomRemoved(r, _) =>
          hub.LeaveRoom(hubSub, r);
          RefreshRooms();
          if view == M.RoomView(r) { OpenFirst(); }
        case MsgDeleted(_) =>
        case Presence(_, _) =>
      }
    }

    /** One turn of listenHub and Update: the next event leaves the queue and is handled. */
    method ReceiveNext()
      requires Live()
      modifies this, store, hub`rooms, hubSub
      ensures Live()
      ensures Ctx() == if old(Ctx()).hub.boxes[old(hubSub)].queue == [] then old(Ctx())
                       else M.HandleEvent(old(Ctx()).(hub := H.Consume(old(Ctx()).hub, old(hubSub))),
                                          old(Ctx()).hub.boxes[old(hubSub)].queue[0])
    {
      ghost var before := hub.Boxes();
      var ev := hubSub.Receive();
      assert hub.Boxes() == before[hubSub := H.Receive(before[hubSub])];
      if ev.Some? { HandleHubEvent(ev.value); }
    }

    /** Quit, ctrl+c and disconnect, in any mix: the hub and the counter are left once. */
    method Cleanup()
      requires hub.Valid() && (hubSub != null ==> hubSub in hub.live)
      modifies this`hubSub, hub, hub.live, lease, lease.counter
      ensures hub.Valid() && hubSub == null && lease.released
      ensures hub.View() == if old(hubSub) == null then old(hub.View()) else H.Unsubscribe(old(hub.View()), old(hubSub))
      ensures lease.counter.sessions == old(lease.counter.sessions) - (if old(lease.released) then 0 else 1)
    {
      if hubSub != null {
        hub.Unsubscribe(hubSub);
        hubSub := null;
      }
      lease.Cleanup();
    }

    // ----- slash commands -----

    /** The store's JoinRoom, seen from the session. */
    method AddMember(r: Id, u: Id) returns (ok: bool)
      requires Live()
      modifies store`members
      ensures Live() && ok == D.JoinRoom(old(Ctx()).db, r, u).Ok?
      ensures Ctx() == if ok then old(Ctx()).(db := D.JoinRoom(old(Ctx()).db, r, u).value) else old(Ctx())
    {
      ok := store.JoinRoom(r, u);
    }

    method AddRoom(name: string, private: bool, now: int) returns (ok: bool)
      requires Live()
      modifies store`rooms, store`members
      ensures Live() && ok == D.CreateRoom(old(Ctx()).db, name, private, user, now).Ok?
      ensures Ctx() == if ok then old(Ctx()).(db := D.CreateRoom(old(Ctx()).db, name, private, user, now).value)
                       else old(Ctx())
    {
      ok := store.CreateRoom(name, private, user, now);
    }

    method EnterRoom(r: Id)
      requires Live()
      modifies this`rooms, hub`rooms
      ensures Live() && Ctx() == M.EnterRoom(old(Ctx()), r)
    {
      RefreshRooms();
      hub.JoinRoom(hubSub, r);
    }

    method JoinTarget(name: string) returns (r: Option<Id>)
      requires Live()
      ensures r == M.JoinTarget(Ctx(), name)
    {
      if !M.ValidRoomName(name) { return None; }
      r := store.RoomByName(name);
      if r.Some? && store.rooms[r.value - 1].private && (r.value, user) !in store.members { return None; }
    }

    method Join(name: string)
      requires Live()
      modifies this, store, hub`rooms, hub.live
      ensures Live() && Ctx() == M.Join(old(Ctx()), name)
    {
      var target := JoinTarget(name);
      if target.None? { return; }
      var r := target.value;
      var ok := AddMember(r, user);
      if !ok { return; }
      EnterRoom(r);
      hub.PublishRoom(r, H.RoomMeta(r));
      OpenRoom(r);
    }

    method Leave()
      requires Live()
      modifies this, store, hub`rooms, hub.live
      ensures Live() && Ctx() == M.Leave(old(Ctx()))
    {
      if !view.RoomView? { return; }
      var r := view.room;
      store.RemoveMember(r, user);
      hub.LeaveRoom(hubSub, r);
      RefreshRooms();
      OpenFirst();
      hub.PublishRoom(r, H.RoomMeta(r));
    }

    method Create(name: string, private: bool, now: int)
      requires Live()
      modifies this, store, hub`rooms
      ensures Live() && Ctx() == M.Create(old(Ctx()), name, private, now)
    {
      if !M.ValidRoomName(name) { return; }
      if CountRoomCreates(store.rooms, user, now - M.DAY) >= M.MAX_CREATES { return; }
      var existing := store.RoomByName(name);
      if existing.Some? { return; }
      var ok := AddRoom(name, private, now);
      if !ok { return; }
      EnterRoom(|store.rooms|);
      OpenRoom(|store.rooms|);
    }

    /** The role check of the moderators' commands. */
    method MayModerate() returns (may: bool)
      requires Live()
      ensures may == M.MayModerate(Ctx())
    {
      if !view.RoomView? { return false; }
      var key := (view.room, user);
      may := admin || (key in store.members && store.members[key] != Member);
    }

    method Topic()
      requires Live()
      modifies hub.live
      ensures Live() && Ctx() == M.Topic(old(Ctx()))
    {
      if !view.RoomView? { return; }
      var key := (view.room, user);
      if (key in store.members && store.members[key] == Owner) || admin {
        hub.PublishRoom(view.room, H.RoomMeta(view.room));
      }
    }

    method Invite(h: string)
      requires Live()
      modifies store, hub.live
      ensures Live() && Ctx() == M.Invite(old(Ctx()), h)
    {
      var may := MayModerate();
      var u := store.UserByHandle(h);
      if !may || u.None? { return; }
      var ok := AddMember(view.room, u.value);
      if !ok { return; }
      hub.PublishRoom(view.room, H.RoomMeta(view.room));
    }

    /** The store's part of /kick and /ban. */
    method Strike(r: Id, u: Id, ban: bool)
      requires Live()
      modifies store
      ensures Live()
      ensures Ctx() == old(Ctx()).(db := if ban then D.BanFromRoom(old(Ctx()).db, r, u)
                                         else D.RemoveMember(old(Ctx()).db, r, u))
    {
      if ban { var ok := store.BanFromRoom(r, u); } else { store.RemoveMember(r, u); }
    }

    method ExpelUser(r: Id, u: Id, ban: bool)
      requires Live()
      modifies store, hub`rooms, hub.live
      ensures Live() && Ctx() == M.ExpelUser(old(Ctx()), r, u, ban)
    {
      Strike(r, u, ban);
      hub.RemoveUserFromRoom(u, r);
      hub.PublishRoom(r, H.RoomMeta(r));
    }

    /** /kick and /ban. */
    method Expel(h: string, ban: bool)
      requires Live()
      modifies store, hub`rooms, hub.live
      ensures Live() && Ctx() == M.Expel(old(Ctx()), h, ban)
    {
      var may := MayModerate();
      var u := store.UserByHandle(h);
      if !may || u.None? { return; }
      ExpelUser(view.room, u.value, ban);
    }

    method Msg(h: string, text: string, allowed: bool)
      requires Live()
      modifies this, store, hub.live
      ensures Live() && Ctx() == M.Msg(old(Ctx()), h, text, allowed)
    {
      var u := store.UserByHandle(h);
      if u.None? || u.value == user { return; }
      OpenDM(u.value);
      if text != "" { SendCurrent(text, allowed); }
    }

    method Block(h: string, on: bool)
      requires Live()
      modifies store
      ensures Live() && Ctx() == M.Block(old(Ctx()), h, on)
    {
      var u := store.UserByHandle(h);
      if u.Some? { store.SetBlock(user, u.value, on); }
    }

    method Delete(id: Id, now: int)
      requires Live()
      modifies store, hub.live
      ensures Live() && Ctx() == M.Delete(old(Ctx()), id, now)
    {
      var m := Find(store.messages, id);
      if m.None? { return; }
      if !admin {
        match m.value.place {
          case InRoom(r) => if (r, user) !in store.members { return; }
          case InDM(a, b) => if a != user && b != user { return; }
        }
      }
      var ok := store.DeleteMessageForUser(id, user, admin, now);
      if ok && m.value.place.InRoom? {
        hub.PublishRoom(m.value.place.room, H.MsgDeleted(m.value.place.room));
      }
    }
  }
}
