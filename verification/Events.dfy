/** What handling one event, opening a channel and sending do, to every badge, mark and unread count. */
module EventLaws {
  import opened Prelude
  import opened Sanitizer
  import opened Database
  import opened StoreLaws
  import opened HubModel
  import opened SessionModel
  import opened World
  import opened Safety
  import opened BadgeLaws
  import opened CommandLaws

  // ----- one event -----

  /** The event raises the badge of room r: a message that does not mention the user, out of view, or a notify. */
  ghost predicate RaisesRoom(x: Session, ev: Event, r: Id) {
    || (ev.RoomMsg? && ev.room == r && x.view != RoomView(r) && x.user !in ev.mentionSet)
    || (ev.Notify? && ev.room == r)
  }

  /** The event raises the badge of the thread with p: a message that p wrote, out of view. */
  ghost predicate RaisesDM(x: Session, ev: Event, p: Id) {
    ev.DmMsg? && ev.peer == p && x.view != DMView(p) && ev.msg.author != x.user
  }

  /** The room that the session falls back to, when the event takes the room in view away. */
  ghost function FallsBackTo(x': Session, x: Session, ev: Event): View {
    if ev.RoomRemoved? && x.view == RoomView(ev.room) then x'.view else NoView
  }

  ghost predicate BadgesMove(x: Session, x': Session, ev: Event) {
    && (forall r :: Get(x'.unreadRoom, r) == if FallsBackTo(x', x, ev) == RoomView(r) then 0
                                            else Get(x.unreadRoom, r) + (if RaisesRoom(x, ev, r) then 1 else 0))
    && (forall p :: Get(x'.unreadDM, p) == Get(x.unreadDM, p) + (if RaisesDM(x, ev, p) then 1 else 0))
    && (forall r :: r in x'.mentionRoom <==>
          (r in x.mentionRoom && FallsBackTo(x', x, ev) != RoomView(r)) || (ev.Notify? && ev.room == r))
  }

  /** What is read: a message of the channel in view, or the room fallen back to. */
  ghost predicate ReadsRoom(x: Session, x': Session, ev: Event, r: Id) {
    (ev.RoomMsg? && ev.room == r && x.view == RoomView(r)) || FallsBackTo(x', x, ev) == RoomView(r)
  }

  ghost predicate ReadsDM(x: Session, ev: Event, p: Id) { ev.DmMsg? && ev.peer == p && x.view == DMView(p) }

  ghost predicate CountsMove(db: DB, db': DB, x: Session, x': Session, ev: Event) {
    && (forall v, r :: RoomUnread(db', v, r)
          == if v == x.user && ReadsRoom(x, x', ev, r) then 0 else RoomUnread(db, v, r))
    && (forall v, p :: PeerUnread(db', v, p) == if v == x.user && ReadsDM(x, ev, p) then 0 else PeerUnread(db, v, p))
    && db' == db.(notifs := db'.notifs)
  }

  /** The view stays, but for the room that the user was taken out of; the list is read again on a change of rooms. */
  ghost predicate ViewMoves(db: DB, x: Session, x': Session, ev: Event) {
    var lists := ev.RoomMeta? || ev.RoomRemoved?;
    && x'.user == x.user && x'.admin == x.admin
    && x'.rooms == (if lists then ListUserRooms(db, x.user) else x.rooms)
    && x'.view == (if ev.RoomRemoved? && x.view == RoomView(ev.room)
                   then (if x'.rooms == [] then NoView else RoomView(x'.rooms[0])) else x.view)
  }

  lemma RoomMsgMoves(c: Ctx<Sid>, ev: Event)
    requires Valid(c.db) && ev.RoomMsg?
    ensures BadgesMove(c.sess, HandleEvent(c, ev).sess, ev)
    ensures CountsMove(c.db, HandleEvent(c, ev).db, c.sess, HandleEvent(c, ev).sess, ev)
  {
    MarkRoomReadExact(c.db, c.sess.user, ev.room);
  }

  lemma DmMsgMoves(c: Ctx<Sid>, ev: Event)
    requires Valid(c.db) && ev.DmMsg?
    ensures BadgesMove(c.sess, HandleEvent(c, ev).sess, ev)
    ensures CountsMove(c.db, HandleEvent(c, ev).db, c.sess, HandleEvent(c, ev).sess, ev)
  {
    MarkDMReadExact(c.db, c.sess.user, ev.peer);
  }

  lemma RemovalMoves(c: Ctx<Sid>, ev: Event)
    requires Valid(c.db) && ev.RoomRemoved?
    ensures BadgesMove(c.sess, HandleEvent(c, ev).sess, ev)
    ensures CountsMove(c.db, HandleEvent(c, ev).db, c.sess, HandleEvent(c, ev).sess, ev)
  {
    var ids := ListUserRooms(c.db, c.sess.user);
    if ids != [] { MarkRoomReadExact(c.db, c.sess.user, ids[0]); }
  }

  /** One event: what becomes of every badge, every mark, the view, the list, and every unread count of anybody. */
  lemma EventMoves(c: Ctx<Sid>, ev: Event)
    requires Valid(c.db)
    ensures var c' := HandleEvent(c, ev);
            && BadgesMove(c.sess, c'.sess, ev) && ViewMoves(c.db, c.sess, c'.sess, ev)
            && CountsMove(c.db, c'.db, c.sess, c'.sess, ev)
  {
    if ev.RoomMsg? {
      RoomMsgMoves(c, ev);
    } else if ev.DmMsg? {
      DmMsgMoves(c, ev);
    } else if ev.RoomRemoved? {
      RemovalMoves(c, ev);
    }
  }

  // ----- opening a channel -----

  /** A listed room is shown and read, and any thread; no other badge, mark or count changes. */
  lemma ShowTakesHold(c: Ctx<Sid>, a: Action)
    requires Valid(c.db) && (a.ShowRoom? || a.ShowDM?)
    ensures var c' := Act(c, a);
            if a.ShowRoom? && a.room !in c.sess.rooms then c' == c
            else
              && c'.hub == c.hub && c'.db == c.db.(notifs := c'.db.notifs) && Shown(c.sess, c'.sess, a)
              && (forall v, r :: RoomUnread(c'.db, v, r)
                    == if a.ShowRoom? && v == c.sess.user && r == a.room then 0 else RoomUnread(c.db, v, r))
              && (forall v, p :: PeerUnread(c'.db, v, p)
                    == if a.ShowDM? && v == c.sess.user && p == a.peer then 0 else PeerUnread(c.db, v, p))
  {
    ShowIs(c, a);
    if a.ShowRoom? {
      MarkRoomReadExact(c.db, c.sess.user, a.room);
    } else {
      MarkDMReadExact(c.db, c.sess.user, a.peer);
    }
  }

  ghost predicate Shown(x: Session, x': Session, a: Action)
    requires a.ShowRoom? || a.ShowDM?
  {
    && x'.user == x.user && x'.admin == x.admin && x'.rooms == x.rooms
    && x'.view == (if a.ShowRoom? then RoomView(a.room) else DMView(a.peer))
    && (forall r :: Get(x'.unreadRoom, r) == if a.ShowRoom? && r == a.room then 0 else Get(x.unreadRoom, r))
    && (forall p :: Get(x'.unreadDM, p) == if a.ShowDM? && p == a.peer then 0 else Get(x.unreadDM, p))
    && (forall r :: r in x'.mentionRoom <==> r in x.mentionRoom && !(a.ShowRoom? && r == a.room))
  }

  // ----- sending -----

  /** There is something to say: the first 2000 runes, without escape sequences and trailing blanks. */
  ghost predicate Says(text: string) { Sanitize(if |text| > 2000 then text[..2000] else text) != "" }

  /** The channel in view takes a message of the session's user. */
  ghost predicate Takes(c: Ctx<Sid>) {
    match c.sess.view
    case NoView => false
    case RoomView(r) => (r, c.sess.user) in c.db.members
    case DMView(p) => p != c.sess.user && UserExists(c.db, p) && (p, c.sess.user) !in c.db.blocks
  }

  /** The place of the messages of the channel in view. */
  ghost predicate InView(m: Message, x: Session) {
    match x.view
    case NoView => false
    case RoomView(r) => m.place == InRoom(r)
    case DMView(p) => m.place == if x.user < p then InDM(x.user, p) else InDM(p, x.user)
  }

  /**
   A send is stored if and only if the limiter allows it, the channel in view takes it and there is something to say;
   then one message of the user in that channel is added at the end. Otherwise nothing happens at all.
   */
  lemma SayTakesHold(c: Ctx<Sid>, text: string, allowed: bool)
    requires Valid(c.db)
    ensures var c' := SendCurrent(c, text, allowed);
            if allowed && Takes(c) && Says(text) then
              && |c'.db.messages| == |c.db.messages| + 1 && c'.db.messages[..|c.db.messages|] == c.db.messages
              && var m := c'.db.messages[|c.db.messages|];
              m.author == c.sess.user && InView(m, c.sess) && m.deletedAt.None? && StoredAs(m.body, Truncate(text))
            else c' == c
  {
    match c.sess.view
    case NoView =>
    case RoomView(r) => if (r, c.sess.user) in c.db.members { RoomSayTakesHold(c, r, text); }
    case DMView(p) => PeerSayTakesHold(c, p, text);
  }

  lemma RoomSayTakesHold(c: Ctx<Sid>, r: Id, text: string)
    requires Valid(c.db) && (r, c.sess.user) in c.db.members
    ensures var c' := SendToRoom(c, r, Truncate(text));
            if Says(text) then
              && |c'.db.messages| == |c.db.messages| + 1 && c'.db.messages[..|c.db.messages|] == c.db.messages
              && var m := c'.db.messages[|c.db.messages|];
              m.author == c.sess.user && m.place == InRoom(r) && m.deletedAt.None? && StoredAs(m.body, Truncate(text))
            else c' == c
  {
    SendToRoomIs(c, r, Truncate(text));
  }

  lemma PeerSayTakesHold(c: Ctx<Sid>, p: Id, text: string)
    requires Valid(c.db)
    ensures var c', u := SendToPeer(c, p, Truncate(text)), c.sess.user;
            if p != u && UserExists(c.db, p) && (p, u) !in c.db.blocks && Says(text) then
              && |c'.db.messages| == |c.db.messages| + 1 && c'.db.messages[..|c.db.messages|] == c.db.messages
              && var m := c'.db.messages[|c.db.messages|];
              && m.author == u && m.place == (if u < p then InDM(u, p) else InDM(p, u))
              && m.deletedAt.None? && StoredAs(m.body, Truncate(text))
            else c' == c
  {
    SendToPeerIs(c, p, Truncate(text));
  }

  /** /msg shows the thread with another user, and then says the text there, if there is one. */
  lemma MsgTakesHold(c: Ctx<Sid>, h: string, text: string, allowed: bool)
    ensures var c', u := Msg(c, h, text, allowed), UserByHandle(c.db, h);
            if u.None? || u.value == c.sess.user then c' == c
            else
              var c1 := Act(c, ShowDM(c.me, u.value));
              c' == if text == "" then c1 else Act(c1, Say(c.me, text, allowed))
  {
    MsgIs(c, h, text, allowed, UserByHandle(c.db, h));
    if UserByHandle(c.db, h).Some? {
      ShowIs(c, ShowDM(c.me, UserByHandle(c.db, h).value));
      ActIs(Act(c, ShowDM(c.me, UserByHandle(c.db, h).value)), Say(c.me, text, allowed));
    }
  }

  // ----- who is told of a change of rooms -----

  /** Session t is addressed what, and nothing else. */
  ghost predicate Told(h: Hub<Sid>, h': Hub<Sid>, t: Sid, what: seq<Event>)
    requires t in h.boxes
  {
    t in h'.boxes && h'.boxes[t].addressed == h.boxes[t].addressed + what
  }

  /** A publish tells exactly the subscribers of the room. */
  lemma PublishTells(h: Hub<Sid>, r: Id, ev: Event, t: Sid)
    requires t in h.boxes
    ensures Told(h, PublishRoom(h, r, ev), t, if t in At(h.rooms, r) then [ev] else [])
  {
    assert h.boxes[t].addressed + [] == h.boxes[t].addressed;
  }

  lemma NobodyTold(h: Hub<Sid>, h': Hub<Sid>, t: Sid)
    requires t in h.boxes && h'.boxes == h.boxes
    ensures Told(h, h', t, [])
  {
    assert h.boxes[t].addressed + [] == h.boxes[t].addressed;
  }

  /** /join, if it works, tells everybody subscribed to the room, the one who joined included. */
  lemma JoinTells(c: Ctx<Sid>, name: string, t: Sid)
    requires t in c.hub.boxes && Valid(c.db)
    ensures var c', r := Join(c, name), RoomByName(c.db, name);
            var joined := GoodRoomName(name) && r.Some? && JoinRoom(c.db, r.value, c.sess.user).Ok?
                          && (!c.db.rooms[r.value - 1].private || (r.value, c.sess.user) in c.db.members);
            Told(c.hub, c'.hub, t,
                 if joined && (t == c.me || t in At(c.hub.rooms, r.value)) then [RoomMeta(r.value)] else [])
  {
    var r := RoomByName(c.db, name);
    JoinIs(c, name);
    NobodyTold(c.hub, c.hub, t);
    if r.Some? { PublishTells(JoinHubRoom(c.hub, c.me, r.value), r.value, RoomMeta(r.value), t); }
  }

  /** /leave tells everybody else who is subscribed to the room, and /create nobody. */
  lemma LeaveTells(c: Ctx<Sid>, name: string, private: bool, now: int, t: Sid)
    requires t in c.hub.boxes
    ensures Told(c.hub, Leave(c).hub, t,
                 if c.sess.view.RoomView? && t != c.me && t in At(c.hub.rooms, c.sess.view.room)
                 then [RoomMeta(c.sess.view.room)] else [])
    ensures Told(c.hub, Create(c, name, private, now).hub, t, [])
  {
    NobodyTold(c.hub, c.hub, t);
    NobodyTold(c.hub, Create(c, name, private, now).hub, t);
    if c.sess.view.RoomView? {
      PublishTells(LeaveHubRoom(c.hub, c.me, c.sess.view.room), c.sess.view.room, RoomMeta(c.sess.view.room), t);
    }
  }

  /** /invite, if it works, tells everybody subscribed to the room. */
  lemma InviteTells(c: Ctx<Sid>, h: string, t: Sid)
    requires t in c.hub.boxes
    ensures var c', u := Invite(c, h), UserByHandle(c.db, h);
            var invited := Ranks(c) && u.Some? && JoinRoom(c.db, c.sess.view.room, u.value).Ok?;
            Told(c.hub, c'.hub, t,
                 if invited && t in At(c.hub.rooms, c.sess.view.room) then [RoomMeta(c.sess.view.room)] else [])
  {
    RanksModerate(c);
    NobodyTold(c.hub, c.hub, t);
    if c.sess.view.RoomView? { PublishTells(c.hub, c.sess.view.room, RoomMeta(c.sess.view.room), t); }
  }

  /** /kick and /ban tell the user's sessions in the room that they are out, and the others there of the change. */
  lemma ExpelTells(c: Ctx<Sid>, h: string, ban: bool, t: Sid)
    requires t in c.hub.boxes
    ensures var c', u := Expel(c, h, ban), UserByHandle(c.db, h);
            Told(c.hub, c'.hub, t,
                 if !Ranks(c) || u.None? || t !in At(c.hub.rooms, c.sess.view.room) then []
                 else if c.hub.boxes[t].user == u.value then [RoomRemoved(c.sess.view.room, u.value)]
                 else [RoomMeta(c.sess.view.room)])
  {
    var u := UserByHandle(c.db, h);
    RanksModerate(c);
    NobodyTold(c.hub, c.hub, t);
    if c.sess.view.RoomView? && u.Some? {
      var r := c.sess.view.room;
      RemovedSeats(c.hub, r, u.value, t, r);
      PublishTells(RemoveUserFromRoom(c.hub, u.value, r), r, RoomMeta(r), t);
      assert c.hub.boxes[t].addressed + [] == c.hub.boxes[t].addressed;
    }
  }

  // ----- steps -----

  /** Each command is what its name says. */
  lemma Commands(c: Ctx<Sid>, a: Action)
    ensures a.CmdJoin? ==> Act(c, a) == Join(c, a.name)
    ensures a.CmdLeave? ==> Act(c, a) == Leave(c)
    ensures a.CmdCreate? ==> Act(c, a) == Create(c, a.name, a.private, a.now)
    ensures a.CmdTopic? ==> Act(c, a) == Topic(c)
    ensures a.CmdInvite? ==> Act(c, a) == Invite(c, a.handle)
    ensures a.CmdExpel? ==> Act(c, a) == Expel(c, a.handle, a.ban)
    ensures a.CmdBlock? ==> Act(c, a) == Block(c, a.handle, a.on)
    ensures a.CmdDelete? ==> Act(c, a) == Delete(c, a.id, a.now)
  {
  }

  /** So are a registration and the runs of the admin tool, which touch no session and no queue. */
  lemma StoreTools(w: World, a: Action)
    requires !IsSessionAction(a) && !a.Connect? && !a.Disconnect?
    ensures Step(w, a).hub == w.hub && Step(w, a).sessions == w.sessions
    ensures a.Register? ==> Step(w, a).db == Registered(w.db, a.handle, a.defaultRoom, a.now)
    ensures a.Admin? ==> Step(w, a).db == SetAdmin(w.db, a.handle, a.on)
    ensures a.PurgeOld? ==> Step(w, a).db == Purge(w.db, a.cutoff)
    ensures a.RemoveRoom? ==>
              var r := RoomByName(w.db, a.name); Step(w, a).db == if r.Some? then DeleteRoom(w.db, r.value) else w.db
  {
    StoreStep(w, a);
  }

  /** A session is an admin's exactly if its user is an admin when it connects. */
  lemma AdminAtConnect(w: World, s: Sid, u: Id)
    requires s !in w.sessions && UserExists(w.db, u)
    ensures var w' := Step(w, Connect(s, u));
            s in w'.sessions && w'.sessions[s].user == u && w'.sessions[s].admin == w.db.users[u - 1].admin
  {
    ConnectIs(w, s, u);
    InitSession(w.db, w.hub, s, u, IsAdmin(w.db, u));
    InitHub(w.db, w.hub, s, u, IsAdmin(w.db, u));
  }
}
