/** What every step of the system keeps: the tables, the hub, and the bans. */
module Safety {
  import opened Mentions
  import opened Database
  import opened StoreLaws
  import opened HubModel
  import opened SessionModel
  import opened World

  // ----- the tables -----

  lemma MarksKeepValid(db: DB, u: Id, k: Id)
    requires Valid(db)
    ensures Valid(MarkRoomRead(db, u, k)) && Valid(MarkDMRead(db, u, k))
  {
    MarkKeepsValid(db, UnreadMention(u, k));
    MarkKeepsValid(db, UnreadInThread(db.messages, u, k));
  }

  lemma OpenFirstValid<S>(c: Ctx<S>)
    requires Valid(c.db)
    ensures Valid(OpenFirst(c).db)
  {
    if c.sess.rooms != [] { MarksKeepValid(c.db, c.sess.user, c.sess.rooms[0]); }
  }

  lemma SendValid(c: Ctx<Sid>, text: string, allowed: bool)
    requires Valid(c.db)
    ensures Valid(SendCurrent(c, text, allowed).db)
  {
    var u, body := c.sess.user, Truncate(text);
    match c.sess.view
    case NoView =>
    case RoomView(r) => InsertRoomMessageKeepsValid(c.db, r, u, body, ResolveHandles(c.db.users, Mentioned(body)));
    case DMView(p) => InsertDMKeepsValid(c.db, u, p, body);
  }

  lemma HandleValid(c: Ctx<Sid>, ev: Event)
    requires Valid(c.db)
    ensures Valid(HandleEvent(c, ev).db)
  {
    match ev
    case RoomMsg(r, _, _) => MarksKeepValid(c.db, c.sess.user, r);
    case DmMsg(_, p, _) => MarksKeepValid(c.db, c.sess.user, p);
    case RoomRemoved(r, _) => OpenFirstValid(RefreshRooms(c.(hub := LeaveHubRoom(c.hub, c.me, r))));
    case _ =>
  }

  lemma LeaveValid(c: Ctx<Sid>)
    requires Valid(c.db)
    ensures Valid(Leave(c).db)
  {
    if c.sess.view.RoomView? {
      var r := c.sess.view.room;
      MembershipKeepsValid(c.db, r, c.sess.user);
      OpenFirstValid(RefreshRooms(c.(db := RemoveMember(c.db, r, c.sess.user), hub := LeaveHubRoom(c.hub, c.me, r))));
    }
  }

  lemma CreateValid(c: Ctx<Sid>, name: string, private: bool, now: int)
    requires Valid(c.db)
    ensures Valid(Create(c, name, private, now).db)
  {
    CreateRoomKeepsValid(c.db, name, private, c.sess.user, now);
    var made := CreateRoom(c.db, name, private, c.sess.user, now);
    if made.Ok? { MarksKeepValid(made.value, c.sess.user, |made.value.rooms|); }
  }

  lemma JoinValid(c: Ctx<Sid>, name: string)
    requires Valid(c.db)
    ensures Valid(Join(c, name).db)
  {
    var r := JoinTarget(c, name);
    if r.Some? {
      MembershipKeepsValid(c.db, r.value, c.sess.user);
      var joined := JoinRoom(c.db, r.value, c.sess.user);
      if joined.Ok? { MarksKeepValid(joined.value, c.sess.user, r.value); }
    }
  }

  lemma ModerateValid(c: Ctx<Sid>, a: Action)
    requires Valid(c.db) && (a.CmdInvite? || a.CmdExpel?)
    ensures Valid(Act(c, a).db)
  {
    if MayModerate(c) && UserByHandle(c.db, a.handle).Some? {
      MembershipKeepsValid(c.db, c.sess.view.room, UserByHandle(c.db, a.handle).value);
    }
  }

  lemma MsgValid(c: Ctx<Sid>, h: string, text: string, allowed: bool)
    requires Valid(c.db)
    ensures Valid(Msg(c, h, text, allowed).db)
  {
    if UserByHandle(c.db, h).Some? {
      MarksKeepValid(c.db, c.sess.user, UserByHandle(c.db, h).value);
      SendValid(OpenDM(c, UserByHandle(c.db, h).value), text, allowed);
    }
  }

  lemma ReceiveValid(c: Ctx<Sid>)
    requires Valid(c.db)
    ensures Valid(Act(c, Handle(c.me)).db)
  {
    if c.me in c.hub.boxes && c.hub.boxes[c.me].queue != [] {
      HandleValid(c.(hub := Consume(c.hub, c.me)), c.hub.boxes[c.me].queue[0]);
    }
  }

  lemma ActValid(c: Ctx<Sid>, a: Action)
    requires Valid(c.db)
    ensures Valid(Act(c, a).db)
  {
    if a.CmdInvite? || a.CmdExpel? {
      ModerateValid(c, a);
    } else if a.Say? || a.CmdMsg? || a.CmdDelete? {
      MessageValid(c, a);
    } else if a.CmdJoin? || a.CmdLeave? || a.CmdCreate? {
      RoomValid(c, a);
    } else {
      OtherValid(c, a);
    }
  }

  lemma MessageValid(c: Ctx<Sid>, a: Action)
    requires Valid(c.db) && (a.Say? || a.CmdMsg? || a.CmdDelete?)
    ensures Valid(Act(c, a).db)
  {
    match a
    case Say(_, text, allowed) => SendValid(c, text, allowed);
    case CmdMsg(_, h, text, allowed) => MsgValid(c, h, text, allowed);
    case CmdDelete(_, id, now) => DeleteKeepsValid(c.db, id, now);
  }

  lemma RoomValid(c: Ctx<Sid>, a: Action)
    requires Valid(c.db) && (a.CmdJoin? || a.CmdLeave? || a.CmdCreate?)
    ensures Valid(Act(c, a).db)
  {
    match a
    case CmdJoin(_, name) => JoinValid(c, name);
    case CmdLeave(_) => LeaveValid(c);
    case CmdCreate(_, name, private, now) => CreateValid(c, name, private, now);
  }

  lemma OtherValid(c: Ctx<Sid>, a: Action)
    requires Valid(c.db)
    requires a.ShowRoom? || a.ShowDM? || a.Handle? || a.CmdTopic? || a.CmdBlock? || !IsSessionAction(a)
    ensures Valid(Act(c, a).db)
  {
    if a.ShowRoom? {
      MarksKeepValid(c.db, c.sess.user, a.room);
    } else if a.ShowDM? {
      MarksKeepValid(c.db, c.sess.user, a.peer);
    } else if a.Handle? && a.s == c.me {
      ReceiveValid(c);
    }
  }

  lemma RegisteredValid(db: DB, h: string, room: string, now: int)
    requires Valid(db)
    ensures Valid(Registered(db, h, room, now))
  {
    AdminToolKeepsValid(db, h, false, 0);
    var db1 := CreateUser(db, h);
    if db1.Ok? {
      var u := |db1.value.users|;
      CreateRoomKeepsValid(db1.value, room, false, u, now);
      var r := RoomByName(db1.value, room);
      var made := if r.Some? then Ok(db1.value) else CreateRoom(db1.value, room, false, u, now);
      if made.Ok? {
        MembershipKeepsValid(made.value, if r.Some? then r.value else |made.value.rooms|, u);
      }
    }
  }

  lemma InitValid(db: DB, hub: Hub<Sid>, s: Sid, u: Id, admin: bool)
    requires Valid(db)
    ensures Valid(Init(db, hub, s, u, admin).db)
  {
    var x := Opening(db, u, admin);
    InitIs(db, hub, s, u, admin, x);
    OpenFirstValid(Ctx(db, JoinAll(Subscribe(hub, s, u), s, x.rooms), s, x));
  }

  lemma RegisterValid(w: World, a: Action)
    requires Valid(w.db) && a.Register?
    ensures Valid(Step(w, a).db)
  {
    RegisteredValid(w.db, a.handle, a.defaultRoom, a.now);
  }

  lemma PurgeValid(w: World, a: Action)
    requires Valid(w.db) && a.PurgeOld?
    ensures Valid(Step(w, a).db)
  {
    PurgeKeepsValid(w.db, a.cutoff);
  }

  lemma AdminValid(w: World, a: Action)
    requires Valid(w.db) && (a.Admin? || a.RemoveRoom?)
    ensures Valid(Step(w, a).db)
  {
    if a.Admin? {
      AdminToolKeepsValid(w.db, a.handle, a.on, 0);
    } else if RoomByName(w.db, a.name).Some? {
      AdminToolKeepsValid(w.db, "", false, RoomByName(w.db, a.name).value);
    }
  }

  lemma StoreValid(w: World, a: Action)
    requires Valid(w.db) && !IsSessionAction(a) && !a.Connect? && !a.Disconnect?
    ensures Valid(Step(w, a).db)
  {
    if a.Register? {
      RegisterValid(w, a);
    } else if a.PurgeOld? {
      PurgeValid(w, a);
    } else {
      AdminValid(w, a);
    }
  }

  lemma StepValid(w: World, a: Action)
    requires Valid(w.db)
    ensures Valid(Step(w, a).db)
  {
    if a.Connect? {
      ConnectIs(w, a.s, a.user);
      InitValid(w.db, w.hub, a.s, a.user, IsAdmin(w.db, a.user));
    } else if a.Disconnect? {
      DisconnectIs(w, a.s);
    } else if IsSessionAction(a) {
      SessionStep(w, a);
      if a.s in w.sessions { ActValid(Focus(w, a.s), a); }
    } else {
      StoreValid(w, a);
    }
  }

  // ----- the hub -----

  ghost predicate SameSubs(h: Hub<Sid>, h': Hub<Sid>) {
    h'.boxes.Keys == h.boxes.Keys && forall s :: s in h.boxes ==> h'.boxes[s].user == h.boxes[s].user
  }

  lemma {:induction false} NotifyAllHub(h: Hub<Sid>, r: Id, us: seq<Id>)
    requires HubOk(h)
    ensures HubOk(NotifyAll(h, r, us)) && SameSubs(h, NotifyAll(h, r, us))
    ensures NotifyAll(h, r, us).rooms == h.rooms && NotifyAll(h, r, us).users == h.users
  {
    if us != [] {
      var n := |us| - 1;
      NotifyAllHub(h, r, us[..n]);
      PublishKeepsOk(NotifyAll(h, r, us[..n]), us[n], Notify(us[n], r));
    }
  }

  lemma {:induction false} JoinAllHub(h: Hub<Sid>, s: Sid, rs: seq<Id>)
    requires HubOk(h) && s in h.boxes
    ensures HubOk(JoinAll(h, s, rs)) && JoinAll(h, s, rs).boxes == h.boxes
  {
    if rs != [] {
      var n := |rs| - 1;
      JoinAllHub(h, s, rs[..n]);
      RoomOpsKeepOk(JoinAll(h, s, rs[..n]), s, rs[n]);
    }
  }

  ghost predicate HubKept(h: Hub<Sid>, h': Hub<Sid>) { HubOk(h') && SameSubs(h, h') }

  lemma PublishHub(h: Hub<Sid>, r: Id, ev: Event)
    requires HubOk(h)
    ensures HubKept(h, PublishRoom(h, r, ev))
  {
    PublishKeepsOk(h, r, ev);
  }

  lemma PublishSentHub(c: Ctx<Sid>, r: Id, sent: Sent)
    requires HubOk(c.hub)
    ensures HubKept(c.hub, PublishSent(c, r, sent).hub)
  {
    var ev := RoomMsg(r, sent.msg, set x | x in sent.notified);
    PublishHub(c.hub, r, ev);
    NotifyAllHub(PublishRoom(c.hub, r, ev), r, sent.notified);
  }

  lemma TwoToUserHub(h: Hub<Sid>, p: Id, u: Id, e1: Event, e2: Event)
    requires HubOk(h)
    ensures HubKept(h, PublishUser(PublishUser(h, p, e1), u, e2))
  {
    PublishKeepsOk(h, p, e1);
    PublishKeepsOk(PublishUser(h, p, e1), u, e2);
  }

  lemma SendToRoomHub(c: Ctx<Sid>, r: Id, body: string)
    requires HubOk(c.hub)
    ensures HubKept(c.hub, SendToRoom(c, r, body).hub)
  {
    var (db, res) := StoreMessage(c, r, body);
    if res.Ok? { PublishSentHub(c.(db := db), r, res.value); }
  }

  lemma SendToPeerHub(c: Ctx<Sid>, p: Id, body: string)
    requires HubOk(c.hub)
    ensures HubKept(c.hub, SendToPeer(c, p, body).hub)
  {
    var u := c.sess.user;
    var (db, res) := InsertDM(c.db, u, p, body);
    if res.Ok? { TwoToUserHub(c.hub, p, u, DmMsg(p, u, res.value), DmMsg(u, p, res.value)); }
  }

  lemma SendHub(c: Ctx<Sid>, text: string, allowed: bool)
    requires HubOk(c.hub)
    ensures HubKept(c.hub, SendCurrent(c, text, allowed).hub)
  {
    match c.sess.view
    case NoView =>
    case RoomView(r) => SendToRoomHub(c, r, Truncate(text));
    case DMView(p) => SendToPeerHub(c, p, Truncate(text));
  }

  lemma JoinThenPublish(h: Hub<Sid>, s: Sid, r: Id, ev: Event)
    requires HubOk(h) && s in h.boxes
    ensures HubKept(h, PublishRoom(JoinHubRoom(h, s, r), r, ev)) && HubKept(h, h)
  {
    RoomOpsKeepOk(h, s, r);
    PublishHub(JoinHubRoom(h, s, r), r, ev);
  }

  lemma LeaveThenPublish(h: Hub<Sid>, s: Sid, r: Id, ev: Event)
    requires HubOk(h)
    ensures HubKept(h, PublishRoom(LeaveHubRoom(h, s, r), r, ev)) && HubKept(h, h)
  {
    RoomOpsKeepOk(h, s, r);
    PublishHub(LeaveHubRoom(h, s, r), r, ev);
  }

  lemma JoinedHubIs(c: Ctx<Sid>, a: Action) returns (r: Id)
    requires a.CmdJoin?
    ensures Act(c, a).hub == c.hub || Act(c, a).hub == PublishRoom(JoinHubRoom(c.hub, c.me, r), r, RoomMeta(r))
  {
    var target := JoinTarget(c, a.name);
    r := if target.Some? then target.value else 0;
  }

  lemma LeftHubIs(c: Ctx<Sid>, a: Action, r: Id)
    requires a.CmdLeave? && (c.sess.view.RoomView? ==> r == c.sess.view.room)
    ensures Act(c, a).hub
         == if c.sess.view.RoomView? then PublishRoom(LeaveHubRoom(c.hub, c.me, r), r, RoomMeta(r)) else c.hub
  {
  }

  lemma JoinHub(c: Ctx<Sid>, a: Action)
    requires HubOk(c.hub) && c.me in c.hub.boxes && a.CmdJoin?
    ensures HubKept(c.hub, Act(c, a).hub)
  {
    var r := JoinedHubIs(c, a);
    JoinThenPublish(c.hub, c.me, r, RoomMeta(r));
  }

  lemma CreatedHubIs(c: Ctx<Sid>, a: Action)
    requires a.CmdCreate?
    ensures Act(c, a).hub == c.hub || Act(c, a).hub == JoinHubRoom(c.hub, c.me, |c.db.rooms| + 1)
  {
  }

  lemma JoinRoomHub(h: Hub<Sid>, s: Sid, r: Id)
    requires HubOk(h) && s in h.boxes
    ensures HubKept(h, JoinHubRoom(h, s, r)) && HubKept(h, h)
  {
    RoomOpsKeepOk(h, s, r);
  }

  lemma CreateHub(c: Ctx<Sid>, a: Action)
    requires HubOk(c.hub) && c.me in c.hub.boxes && a.CmdCreate?
    ensures HubKept(c.hub, Act(c, a).hub)
  {
    CreatedHubIs(c, a);
    JoinRoomHub(c.hub, c.me, |c.db.rooms| + 1);
  }

  lemma LeaveHub(c: Ctx<Sid>, a: Action)
    requires HubOk(c.hub) && a.CmdLeave?
    ensures HubKept(c.hub, Act(c, a).hub)
  {
    var r := if c.sess.view.RoomView? then c.sess.view.room else 0;
    LeftHubIs(c, a, r);
    LeaveThenPublish(c.hub, c.me, r, RoomMeta(r));
  }

  lemma RemoveThenPublish(h: Hub<Sid>, u: Id, r: Id, ev: Event)
    requires HubOk(h)
    ensures HubKept(h, PublishRoom(RemoveUserFromRoom(h, u, r), r, ev)) && HubKept(h, h)
  {
    RemoveKeepsOk(h, u, r);
    PublishHub(RemoveUserFromRoom(h, u, r), r, ev);
  }

  lemma ExpelledHubIs(c: Ctx<Sid>, a: Action, u: Id, r: Id)
    requires a.CmdExpel?
    requires c.sess.view.RoomView? ==> r == c.sess.view.room
    requires UserByHandle(c.db, a.handle).Some? ==> u == UserByHandle(c.db, a.handle).value
    ensures Act(c, a).hub == c.hub || Act(c, a).hub == PublishRoom(RemoveUserFromRoom(c.hub, u, r), r, RoomMeta(r))
  {
  }

  lemma ExpelHub(c: Ctx<Sid>, a: Action)
    requires HubOk(c.hub) && a.CmdExpel?
    ensures HubKept(c.hub, Act(c, a).hub)
  {
    var u := UserByHandle(c.db, a.handle);
    var r := if c.sess.view.RoomView? then c.sess.view.room else 0;
    ExpelledHubIs(c, a, if u.Some? then u.value else 0, r);
    RemoveThenPublish(c.hub, if u.Some? then u.value else 0, r, RoomMeta(r));
  }

  lemma DeleteHub(c: Ctx<Sid>, id: Id, now: int)
    requires HubOk(c.hub)
    ensures HubKept(c.hub, Delete(c, id, now).hub)
  {
    var m := Find(c.db.messages, id);
    if m.Some? && m.value.place.InRoom? { PublishHub(c.hub, m.value.place.room, MsgDeleted(m.value.place.room)); }
  }

  lemma HandledHubIs(c: Ctx<Sid>, ev: Event)
    ensures HandleEvent(c, ev).hub == if ev.RoomRemoved? then LeaveHubRoom(c.hub, c.me, ev.room) else c.hub
    ensures HandleEvent(c, ev).me == c.me
  {
  }

  lemma LeaveRoomHub(h: Hub<Sid>, s: Sid, r: Id)
    requires HubOk(h)
    ensures HubKept(h, LeaveHubRoom(h, s, r)) && HubKept(h, h)
  {
    RoomOpsKeepOk(h, s, r);
  }

  lemma HandleHub(c: Ctx<Sid>, ev: Event)
    requires HubOk(c.hub)
    ensures HubKept(c.hub, HandleEvent(c, ev).hub)
  {
    HandledHubIs(c, ev);
    LeaveRoomHub(c.hub, c.me, if ev.RoomRemoved? then ev.room else 0);
  }

  lemma MetaHubIs(c: Ctx<Sid>, a: Action, r: Id)
    requires (a.CmdTopic? || a.CmdInvite?) && (c.sess.view.RoomView? ==> r == c.sess.view.room)
    ensures Act(c, a).hub == c.hub || Act(c, a).hub == PublishRoom(c.hub, r, RoomMeta(r))
  {
  }

  lemma MetaHub(c: Ctx<Sid>, a: Action)
    requires HubOk(c.hub) && (a.CmdTopic? || a.CmdInvite?)
    ensures HubKept(c.hub, Act(c, a).hub)
  {
    var r := if c.sess.view.RoomView? then c.sess.view.room else 0;
    MetaHubIs(c, a, r);
    PublishHub(c.hub, r, RoomMeta(r));
    HubItself(c.hub);
  }

  lemma ConsumeHub(h: Hub<Sid>, s: Sid)
    requires HubOk(h) && s in h.boxes
    ensures HubKept(h, Consume(h, s))
  {
    RoomOpsKeepOk(h, s, 0);
  }

  lemma KeptTrans(h0: Hub<Sid>, h1: Hub<Sid>, h2: Hub<Sid>)
    requires HubKept(h0, h1) && HubKept(h1, h2)
    ensures HubKept(h0, h2)
  {
  }

  /** What handling the head of the queue is. */
  lemma ActHandle(c: Ctx<Sid>)
    requires c.me in c.hub.boxes
    ensures Act(c, Handle(c.me))
         == if c.hub.boxes[c.me].queue == [] then c
            else HandleEvent(c.(hub := Consume(c.hub, c.me)), c.hub.boxes[c.me].queue[0])
  {
  }

  lemma ReceiveHub(c: Ctx<Sid>)
    requires HubOk(c.hub) && c.me in c.hub.boxes
    ensures HubKept(c.hub, Act(c, Handle(c.me)).hub)
  {
    ActHandle(c);
    if c.hub.boxes[c.me].queue == [] {
      HubItself(c.hub);
    } else {
      var h1, ev := Consume(c.hub, c.me), c.hub.boxes[c.me].queue[0];
      ConsumeHub(c.hub, c.me);
      HandleHub(c.(hub := h1), ev);
      KeptTrans(c.hub, h1, HandleEvent(c.(hub := h1), ev).hub);
    }
  }

  lemma MsgHub(c: Ctx<Sid>, h: string, text: string, allowed: bool)
    requires HubOk(c.hub)
    ensures HubKept(c.hub, Msg(c, h, text, allowed).hub)
  {
    if UserByHandle(c.db, h).Some? { SendHub(OpenDM(c, UserByHandle(c.db, h).value), text, allowed); }
  }

  lemma SameHubIs(c: Ctx<Sid>, a: Action)
    requires a.ShowRoom? || a.ShowDM? || a.CmdBlock? || !IsSessionAction(a)
    ensures Act(c, a).hub == c.hub
  {
  }

  lemma HubItself(h: Hub<Sid>)
    requires HubOk(h)
    ensures HubKept(h, h)
  {
  }

  lemma MessageHub(c: Ctx<Sid>, a: Action)
    requires HubOk(c.hub) && (a.Say? || a.CmdMsg? || a.CmdDelete?)
    ensures HubKept(c.hub, Act(c, a).hub)
  {
    match a
    case Say(_, text, allowed) => SendHub(c, text, allowed);
    case CmdMsg(_, h, text, allowed) => MsgHub(c, h, text, allowed);
    case CmdDelete(_, id, now) => DeleteHub(c, id, now);
  }

  lemma ActHub(c: Ctx<Sid>, a: Action)
    requires HubOk(c.hub) && c.me in c.hub.boxes && (a.Handle? ==> a.s == c.me)
    ensures HubKept(c.hub, Act(c, a).hub)
  {
    if a.CmdTopic? || a.CmdInvite? {
      MetaHub(c, a);
    } else if a.CmdExpel? {
      ExpelHub(c, a);
    } else if a.Say? || a.CmdMsg? || a.CmdDelete? {
      MessageHub(c, a);
    } else if a.CmdJoin? {
      JoinHub(c, a);
    } else if a.CmdLeave? {
      LeaveHub(c, a);
    } else if a.CmdCreate? {
      CreateHub(c, a);
    } else if a.Handle? {
      ReceiveHub(c);
    } else {
      SameHubIs(c, a);
      HubItself(c.hub);
    }
  }

  /** The hub's live subscribers are the sessions. */
  ghost predicate Linked(w: World) {
    && w.sessions.Keys == w.hub.boxes.Keys
    && forall s :: s in w.sessions ==> w.sessions[s].user == w.hub.boxes[s].user
  }

  lemma SubscribeSubs(h: Hub<Sid>, s: Sid, u: Id)
    requires s !in h.boxes
    ensures Subscribe(h, s, u).boxes.Keys == h.boxes.Keys + {s} && Subscribe(h, s, u).boxes[s].user == u
    ensures forall t :: t in h.boxes ==> Subscribe(h, s, u).boxes[t].user == h.boxes[t].user
  {
  }

  lemma InitHub(db: DB, hub: Hub<Sid>, s: Sid, u: Id, admin: bool)
    ensures Init(db, hub, s, u, admin).hub == JoinAll(Subscribe(hub, s, u), s, ListUserRooms(db, u))
    ensures Init(db, hub, s, u, admin).sess.user == u && Init(db, hub, s, u, admin).me == s
  {
  }

  lemma ConnectIs(w: World, s: Sid, u: Id)
    ensures Step(w, Connect(s, u))
         == if s !in w.sessions && UserExists(w.db, u) then Put(w, Init(w.db, w.hub, s, u, IsAdmin(w.db, u))) else w
  {
  }

  lemma DisconnectIs(w: World, s: Sid)
    ensures Step(w, Disconnect(s))
         == if s in w.sessions && s in w.hub.boxes then World(w.db, Unsubscribe(w.hub, s), w.sessions - {s}) else w
  {
  }

  lemma SubscribeAllHub(h: Hub<Sid>, s: Sid, u: Id, rs: seq<Id>)
    requires HubOk(h) && s !in h.boxes
    ensures HubOk(JoinAll(Subscribe(h, s, u), s, rs))
  {
    SubscribeKeepsOk(h, s, u);
    SubscribeSubs(h, s, u);
    JoinAllHub(Subscribe(h, s, u), s, rs);
  }

  lemma PutNewLinked(w: World, c: Ctx<Sid>)
    requires Linked(w) && c.me !in w.sessions && c.hub.boxes.Keys == w.hub.boxes.Keys + {c.me}
    requires c.hub.boxes[c.me].user == c.sess.user
    requires forall t :: t in w.hub.boxes ==> c.hub.boxes[t].user == w.hub.boxes[t].user
    ensures Linked(Put(w, c))
  {
  }

  lemma ConnectLinked(w: World, s: Sid, u: Id, admin: bool)
    requires Linked(w) && s !in w.sessions
    ensures Linked(Put(w, Init(w.db, w.hub, s, u, admin)))
  {
    SubscribeSubs(w.hub, s, u);
    JoinAllBoxes(Subscribe(w.hub, s, u), s, ListUserRooms(w.db, u));
    InitHub(w.db, w.hub, s, u, admin);
    PutNewLinked(w, Init(w.db, w.hub, s, u, admin));
  }

  lemma ConnectHub(w: World, s: Sid, u: Id)
    requires HubOk(w.hub) && Linked(w)
    ensures HubOk(Step(w, Connect(s, u)).hub) && Linked(Step(w, Connect(s, u)))
  {
    ConnectIs(w, s, u);
    if s !in w.sessions && UserExists(w.db, u) {
      SubscribeAllHub(w.hub, s, u, ListUserRooms(w.db, u));
      InitHub(w.db, w.hub, s, u, IsAdmin(w.db, u));
      ConnectLinked(w, s, u, IsAdmin(w.db, u));
    }
  }

  lemma ActSameUser(c: Ctx<Sid>, a: Action)
    ensures Act(c, a).sess.user == c.sess.user && Act(c, a).me == c.me
  {
  }

  lemma DisconnectHub(w: World, s: Sid)
    requires HubOk(w.hub) && Linked(w)
    ensures HubOk(Step(w, Disconnect(s)).hub) && Linked(Step(w, Disconnect(s)))
  {
    DisconnectIs(w, s);
    if s in w.sessions {
      UnsubscribeKeepsOk(w.hub, s);
      UnsubscribeSubs(w.hub, s);
      RestLinked(w, Unsubscribe(w.hub, s), s);
    }
  }

  lemma UnsubscribeSubs(h: Hub<Sid>, s: Sid)
    requires s in h.boxes
    ensures Unsubscribe(h, s).boxes.Keys == h.boxes.Keys - {s}
    ensures forall t :: t in h.boxes && t != s ==> Unsubscribe(h, s).boxes[t].user == h.boxes[t].user
  {
  }

  lemma RestLinked(w: World, hub: Hub<Sid>, s: Sid)
    requires Linked(w) && hub.boxes.Keys == w.hub.boxes.Keys - {s}
    requires forall t :: t in w.hub.boxes && t != s ==> hub.boxes[t].user == w.hub.boxes[t].user
    ensures Linked(World(w.db, hub, w.sessions - {s}))
  {
  }

  lemma PutLinked(w: World, c: Ctx<Sid>)
    requires Linked(w) && c.me in w.sessions && SameSubs(w.hub, c.hub) && c.sess.user == w.sessions[c.me].user
    ensures Linked(Put(w, c))
  {
  }

  /** What a session's own actions do to the world. */
  lemma SessionStep(w: World, a: Action)
    requires IsSessionAction(a)
    ensures Step(w, a) == if a.s in w.sessions then Put(w, Act(Focus(w, a.s), a)) else w
  {
  }

  lemma SessionHub(w: World, a: Action)
    requires HubOk(w.hub) && Linked(w) && IsSessionAction(a) && a.s in w.sessions
    ensures HubOk(Put(w, Act(Focus(w, a.s), a)).hub) && Linked(Put(w, Act(Focus(w, a.s), a)))
  {
    ActHub(Focus(w, a.s), a);
    ActSameUser(Focus(w, a.s), a);
    PutLinked(w, Act(Focus(w, a.s), a));
  }

  lemma StepHub(w: World, a: Action)
    requires HubOk(w.hub) && Linked(w)
    ensures HubOk(Step(w, a).hub) && Linked(Step(w, a))
  {
    if a.Connect? {
      ConnectHub(w, a.s, a.user);
    } else if a.Disconnect? {
      DisconnectHub(w, a.s);
    } else if IsSessionAction(a) {
      SessionStep(w, a);
      if a.s in w.sessions { SessionHub(w, a); }
    } else {
      StoreStep(w, a);
    }
  }

  /** What the sessions do not do leaves the hub and the sessions alone. */
  lemma StoreStep(w: World, a: Action)
    requires !IsSessionAction(a) && !a.Connect? && !a.Disconnect?
    ensures Step(w, a) == w.(db := Step(w, a).db)
  {
  }

  // ----- bans -----

  /** No session of a banned user is subscribed to the room. */
  ghost predicate BansHold(db: DB, hub: Hub<Sid>) {
    forall r, s :: r in hub.rooms && s in hub.rooms[r] && s in hub.boxes ==> (r, hub.boxes[s].user) !in db.bans
  }

  /** Only me is newly subscribed, and only to rooms that I am not banned from. */
  ghost predicate OnlyMeJoins(h: Hub<Sid>, h': Hub<Sid>, me: Sid, u: Id, db: DB) {
    forall r, s :: r in h'.rooms && s in h'.rooms[r] ==>
      (r in h.rooms && s in h.rooms[r]) || (s == me && (r, u) !in db.bans)
  }

  lemma {:induction false} NotifyAllRooms(h: Hub<Sid>, r: Id, us: seq<Id>)
    ensures NotifyAll(h, r, us).rooms == h.rooms && NotifyAll(h, r, us).users == h.users
  {
    if us != [] { NotifyAllRooms(h, r, us[..|us| - 1]); }
  }

  lemma SendToRoomRooms(c: Ctx<Sid>, r: Id, body: string)
    ensures SendToRoom(c, r, body).hub.rooms == c.hub.rooms && SendToRoom(c, r, body).db.bans == c.db.bans
  {
    var (db, res) := StoreMessage(c, r, body);
    if res.Ok? {
      var us := res.value.notified;
      NotifyAllRooms(PublishRoom(c.hub, r, RoomMsg(r, res.value.msg, set x | x in us)), r, us);
    }
  }

  lemma SendRooms(c: Ctx<Sid>, text: string, allowed: bool)
    ensures SendCurrent(c, text, allowed).hub.rooms == c.hub.rooms
    ensures SendCurrent(c, text, allowed).db.bans == c.db.bans
  {
    if c.sess.view.RoomView? { SendToRoomRooms(c, c.sess.view.room, Truncate(text)); }
  }

  lemma HandleRooms(c: Ctx<Sid>, ev: Event)
    ensures OnlyMeJoins(c.hub, HandleEvent(c, ev).hub, c.me, c.sess.user, c.db)
    ensures HandleEvent(c, ev).db.bans == c.db.bans
  {
  }

  lemma CreateRooms(c: Ctx<Sid>, name: string, private: bool, now: int)
    requires RoomsOk(c.db)
    ensures OnlyMeJoins(c.hub, Create(c, name, private, now).hub, c.me, c.sess.user, c.db)
    ensures Create(c, name, private, now).db.bans == c.db.bans
  {
    assert (|c.db.rooms| + 1, c.sess.user) !in c.db.bans;
  }

  /** The session joins no room it is banned from, and the command lifts no ban. */
  ghost predicate JoinsLawfully(c: Ctx<Sid>, c': Ctx<Sid>) {
    OnlyMeJoins(c.hub, c'.hub, c.me, c.sess.user, c.db) && c'.db.bans == c.db.bans
  }

  lemma MsgRooms(c: Ctx<Sid>, h: string, text: string, allowed: bool)
    ensures JoinsLawfully(c, Msg(c, h, text, allowed))
  {
    if UserByHandle(c.db, h).Some? { SendRooms(OpenDM(c, UserByHandle(c.db, h).value), text, allowed); }
  }

  lemma ReceiveRooms(c: Ctx<Sid>)
    ensures JoinsLawfully(c, Act(c, Handle(c.me)))
  {
    if c.me in c.hub.boxes && c.hub.boxes[c.me].queue != [] {
      HandleRooms(c.(hub := Consume(c.hub, c.me)), c.hub.boxes[c.me].queue[0]);
    }
  }

  lemma JoinRooms(c: Ctx<Sid>, name: string)
    ensures JoinsLawfully(c, Join(c, name))
  {
  }

  lemma LeaveRooms(c: Ctx<Sid>)
    ensures JoinsLawfully(c, Leave(c))
  {
  }

  lemma ActRooms(c: Ctx<Sid>, a: Action)
    requires RoomsOk(c.db) && !a.CmdExpel? && IsSessionAction(a)
    ensures JoinsLawfully(c, Act(c, a))
  {
    if a.CmdJoin? || a.CmdLeave? || a.CmdCreate? {
      SeatRooms(c, a);
    } else {
      OtherRooms(c, a);
    }
  }

  lemma SeatRooms(c: Ctx<Sid>, a: Action)
    requires RoomsOk(c.db) && (a.CmdJoin? || a.CmdLeave? || a.CmdCreate?)
    ensures JoinsLawfully(c, Act(c, a))
  {
    match a
    case CmdCreate(_, name, private, now) => CreateRooms(c, name, private, now);
    case CmdJoin(_, name) => JoinRooms(c, name);
    case CmdLeave(_) => LeaveRooms(c);
  }

  lemma OtherRooms(c: Ctx<Sid>, a: Action)
    requires !a.CmdJoin? && !a.CmdLeave? && !a.CmdCreate? && !a.CmdExpel?
    ensures JoinsLawfully(c, Act(c, a))
  {
    match a
    case Say(_, text, allowed) => SendRooms(c, text, allowed);
    case CmdMsg(_, h, text, allowed) => MsgRooms(c, h, text, allowed);
    case Handle(s) => if s == c.me { ReceiveRooms(c); }
    case _ =>
  }

  lemma JoinsKeepBans(h: Hub<Sid>, h': Hub<Sid>, me: Sid, u: Id, db: DB, db': DB)
    requires BansHold(db, h) && SameSubs(h, h') && me in h.boxes && h.boxes[me].user == u
    requires OnlyMeJoins(h, h', me, u, db) && db'.bans == db.bans
    ensures BansHold(db', h')
  {
  }

  lemma ExpelBans(c: Ctx<Sid>, h: string, ban: bool)
    requires BansHold(c.db, c.hub) && SameSubs(c.hub, Expel(c, h, ban).hub)
    ensures BansHold(Expel(c, h, ban).db, Expel(c, h, ban).hub)
    ensures c.db.bans <= Expel(c, h, ban).db.bans
  {
  }

  lemma JoinAllBoxes(h: Hub<Sid>, s: Sid, rs: seq<Id>)
    ensures JoinAll(h, s, rs).boxes == h.boxes
  {
    if rs != [] { JoinAllBoxes(h, s, rs[..|rs| - 1]); }
  }

  lemma {:induction false} JoinAllRooms(h: Hub<Sid>, s: Sid, rs: seq<Id>)
    ensures forall r, t :: r in JoinAll(h, s, rs).rooms && t in JoinAll(h, s, rs).rooms[r] ==>
              (r in h.rooms && t in h.rooms[r]) || (t == s && r in rs)
  {
    if rs != [] {
      var n := |rs| - 1;
      assert rs == rs[..n] + [rs[n]];
      JoinAllRooms(h, s, rs[..n]);
    }
  }

  lemma SubscribeBans(db: DB, h: Hub<Sid>, s: Sid, u: Id)
    requires BansHold(db, h) && s !in h.boxes && Structured(h)
    ensures BansHold(db, Subscribe(h, s, u))
  {
    SubscribeSubs(h, s, u);
  }

  lemma JoinAllBans(db: DB, h: Hub<Sid>, s: Sid, rs: seq<Id>)
    requires BansHold(db, h) && s in h.boxes
    requires forall r :: r in rs ==> (r, h.boxes[s].user) !in db.bans
    ensures BansHold(db, JoinAll(h, s, rs))
  {
    JoinAllBoxes(h, s, rs);
    JoinAllRooms(h, s, rs);
  }

  /** Init joins the rooms of the user's list, which holds no room the user is banned from. */
  lemma ConnectBans(db: DB, hub: Hub<Sid>, s: Sid, u: Id, admin: bool)
    requires Valid(db) && BansHold(db, hub) && s !in hub.boxes && Structured(hub)
    ensures BansHold(db, Init(db, hub, s, u, admin).hub)
  {
    var rs := ListUserRooms(db, u);
    forall r | r in rs ensures (r, u) !in db.bans { ListedRoomsAreMemberships(db, u, r); }
    SubscribeBans(db, hub, s, u);
    SubscribeSubs(hub, s, u);
    JoinAllBans(db, Subscribe(hub, s, u), s, rs);
    InitHub(db, hub, s, u, admin);
  }

  lemma DisconnectBans(w: World, s: Sid)
    requires BansHold(w.db, w.hub)
    ensures BansHold(Step(w, Disconnect(s)).db, Step(w, Disconnect(s)).hub)
  {
  }

  lemma RegisteredBans(db: DB, h: string, room: string, now: int)
    ensures Registered(db, h, room, now).bans == db.bans
  {
  }

  lemma ExpelActIs(c: Ctx<Sid>, a: Action)
    requires a.CmdExpel?
    ensures Act(c, a) == Expel(c, a.handle, a.ban)
  {
  }

  lemma ExpelActBans(c: Ctx<Sid>, a: Action)
    requires a.CmdExpel? && BansHold(c.db, c.hub) && SameSubs(c.hub, Act(c, a).hub)
    ensures BansHold(Act(c, a).db, Act(c, a).hub) && c.db.bans <= Act(c, a).db.bans
  {
    ExpelActIs(c, a);
    ExpelBans(c, a.handle, a.ban);
  }

  lemma SessionBans(c: Ctx<Sid>, a: Action)
    requires RoomsOk(c.db) && IsSessionAction(a) && BansHold(c.db, c.hub) && SameSubs(c.hub, Act(c, a).hub)
    requires c.me in c.hub.boxes && c.hub.boxes[c.me].user == c.sess.user
    ensures BansHold(Act(c, a).db, Act(c, a).hub) && c.db.bans <= Act(c, a).db.bans
  {
    if a.CmdExpel? {
      ExpelActBans(c, a);
    } else {
      ActRooms(c, a);
      JoinsKeepBans(c.hub, Act(c, a).hub, c.me, c.sess.user, c.db, Act(c, a).db);
    }
  }

  lemma InitDb(db: DB, hub: Hub<Sid>, s: Sid, u: Id, admin: bool)
    ensures Init(db, hub, s, u, admin).db.bans == db.bans
  {
  }

  lemma ConnectStepBans(w: World, s: Sid, u: Id)
    requires Valid(w.db) && Structured(w.hub) && Linked(w) && BansHold(w.db, w.hub)
    ensures BansHold(Step(w, Connect(s, u)).db, Step(w, Connect(s, u)).hub)
    ensures Step(w, Connect(s, u)).db.bans == w.db.bans
  {
    ConnectIs(w, s, u);
    if s !in w.sessions && UserExists(w.db, u) {
      ConnectBans(w.db, w.hub, s, u, IsAdmin(w.db, u));
      InitDb(w.db, w.hub, s, u, IsAdmin(w.db, u));
      SameBans(w.db, Init(w.db, w.hub, s, u, IsAdmin(w.db, u)).db, Init(w.db, w.hub, s, u, IsAdmin(w.db, u)).hub);
    }
  }

  lemma SameBans(db: DB, db': DB, hub: Hub<Sid>)
    requires BansHold(db, hub) && db'.bans == db.bans
    ensures BansHold(db', hub)
  {
  }

  lemma StoreBans(w: World, a: Action)
    requires BansHold(w.db, w.hub) && !IsSessionAction(a) && !a.Connect? && !a.Disconnect?
    ensures BansHold(Step(w, a).db, Step(w, a).hub) && Step(w, a).db.bans == w.db.bans
  {
    if a.Register? { RegisteredBans(w.db, a.handle, a.defaultRoom, a.now); }
    StoreStep(w, a);
    SameBans(w.db, Step(w, a).db, w.hub);
  }

  /** Everything above, over one step; and bans are never lifted. */
  lemma StepBans(w: World, a: Action)
    requires Valid(w.db) && HubOk(w.hub) && Linked(w) && BansHold(w.db, w.hub)
    ensures BansHold(Step(w, a).db, Step(w, a).hub) && w.db.bans <= Step(w, a).db.bans
  {
    if a.Connect? {
      ConnectStepBans(w, a.s, a.user);
    } else if a.Disconnect? {
      DisconnectBans(w, a.s);
    } else if IsSessionAction(a) {
      SessionStep(w, a);
      if a.s in w.sessions {
        ActHub(Focus(w, a.s), a);
        SessionBans(Focus(w, a.s), a);
      }
    } else {
      StoreBans(w, a);
    }
  }
}
