/** Unread badges against the store: what is never missed, and what each message adds. */
module BadgeLaws {
  import opened Prelude
  import opened Mentions
  import opened Database
  import opened StoreLaws
  import opened HubModel
  import opened SessionModel
  import opened World
  import opened Safety

  // ----- events that raise a badge -----

  function IsNotify(r: Id): Event -> bool { (ev: Event) => ev.Notify? && ev.room == r }

  function IsDMFrom(u: Id, p: Id): Event -> bool {
    (ev: Event) => ev.DmMsg? && ev.peer == p && ev.msg.author != u
  }

  /** What raises u's badge of room r: a message that does not mention u, or a notify. */
  function IsBump(u: Id, r: Id): Event -> bool {
    (ev: Event) => (ev.RoomMsg? && ev.room == r && u !in ev.mentionSet) || (ev.Notify? && ev.room == r)
  }

  function IsLoud(): Event -> bool { (ev: Event) => ev.RoomMsg? || ev.DmMsg? || ev.Notify? }

  /** Matching events that the session has not seen: still queued, or dropped. */
  function Unseen(b: Mailbox, p: Event -> bool): nat { Count(b.queue, p) + Count(b.dropped, p) }

  /** The store's unread count is at most the badge plus the unseen events that would raise it. */
  ghost predicate Covered(db: DB, b: Mailbox, x: Session) {
    && (forall r :: RoomUnread(db, x.user, r) <= Get(x.unreadRoom, r) + Unseen(b, IsNotify(r)))
    && (forall p :: PeerUnread(db, x.user, p) <= Get(x.unreadDM, p) + Unseen(b, IsDMFrom(x.user, p)))
  }

  ghost predicate AllCovered(w: World) {
    forall s :: s in w.sessions && s in w.hub.boxes ==> Covered(w.db, w.hub.boxes[s], w.sessions[s])
  }

  /** Badge and unseen events of room r: what the session owes for the messages it was sent. */
  function Debt(b: Mailbox, x: Session, r: Id): nat { Get(x.unreadRoom, r) + Unseen(b, IsBump(x.user, r)) }

  // ----- steps that raise nothing -----

  /** No unread count grows. */
  ghost predicate Calmer(db: DB, db': DB) {
    && (forall u, r :: RoomUnread(db', u, r) <= RoomUnread(db, u, r))
    && (forall u, p :: PeerUnread(db', u, p) <= PeerUnread(db, u, p))
  }

  /** The same loud events wait in the queue, and the same were dropped. */
  ghost predicate QuietBox(b: Mailbox, b': Mailbox) {
    && b'.user == b.user
    && Filter(b'.queue, IsLoud()) == Filter(b.queue, IsLoud())
    && Filter(b'.dropped, IsLoud()) == Filter(b.dropped, IsLoud())
  }

  ghost predicate QuietHub(h: Hub<Sid>, h': Hub<Sid>) {
    forall s :: s in h.boxes ==> s in h'.boxes && QuietBox(h.boxes[s], h'.boxes[s])
  }

  /** Badges change only where the store has nothing unread left, and only for what is in view. */
  ghost predicate BadgesKept(db: DB, x: Session, x': Session) {
    && x'.user == x.user
    && (forall r :: Get(x'.unreadRoom, r) == Get(x.unreadRoom, r)
                    || (x'.view == RoomView(r) && RoomUnread(db, x.user, r) == 0))
    && (forall p :: Get(x'.unreadDM, p) == Get(x.unreadDM, p) || PeerUnread(db, x.user, p) == 0)
  }

  lemma CountLoud(s: seq<Event>, p: Event -> bool)
    requires forall ev :: p(ev) ==> IsLoud()(ev)
    ensures Count(s, p) == Count(Filter(s, IsLoud()), p)
  {
    CountFiltered(s, IsLoud(), p, p);
  }

  lemma QuietUnseen(b: Mailbox, b': Mailbox, p: Event -> bool)
    requires QuietBox(b, b') && forall ev :: p(ev) ==> IsLoud()(ev)
    ensures Unseen(b', p) == Unseen(b, p)
  {
    CountLoud(b.queue, p);
    CountLoud(b'.queue, p);
    CountLoud(b.dropped, p);
    CountLoud(b'.dropped, p);
  }

  lemma CoveredTame(db: DB, db': DB, b: Mailbox, b': Mailbox, x: Session, x': Session)
    requires Covered(db, b, x) && Calmer(db, db') && QuietBox(b, b') && BadgesKept(db', x, x')
    ensures Covered(db', b', x')
  {
    forall r ensures RoomUnread(db', x.user, r) <= Get(x'.unreadRoom, r) + Unseen(b', IsNotify(r)) {
      QuietUnseen(b, b', IsNotify(r));
      assert RoomUnread(db', x.user, r) <= RoomUnread(db, x.user, r);
    }
    forall p ensures PeerUnread(db', x.user, p) <= Get(x'.unreadDM, p) + Unseen(b', IsDMFrom(x.user, p)) {
      QuietUnseen(b, b', IsDMFrom(x.user, p));
      assert PeerUnread(db', x.user, p) <= PeerUnread(db, x.user, p);
    }
  }

  lemma DebtTame(db: DB, b: Mailbox, b': Mailbox, x: Session, x': Session, r: Id)
    requires QuietBox(b, b') && BadgesKept(db, x, x') && x'.view != RoomView(r)
    ensures Debt(b', x', r) == Debt(b, x, r)
  {
    QuietUnseen(b, b', IsBump(x.user, r));
  }

  lemma SendQuiet(b: Mailbox, ev: Event)
    requires !IsLoud()(ev)
    ensures QuietBox(b, Send(b, ev))
  {
    FilterConcat(b.queue, [ev], IsLoud());
    FilterConcat(b.dropped, [ev], IsLoud());
    assert Filter([ev], IsLoud()) == [];
    assert Filter(b.queue, IsLoud()) + [] == Filter(b.queue, IsLoud());
    assert Filter(b.dropped, IsLoud()) + [] == Filter(b.dropped, IsLoud());
  }

  lemma SendAllQuiet(h: Hub<Sid>, to: set<Sid>, ev: Event)
    requires !IsLoud()(ev)
    ensures QuietHub(h, h.(boxes := SendAll(h.boxes, to, ev)))
  {
    forall s | s in h.boxes ensures QuietBox(h.boxes[s], SendAll(h.boxes, to, ev)[s]) { SendQuiet(h.boxes[s], ev); }
  }

  lemma PublishQuiet(h: Hub<Sid>, r: Id, ev: Event)
    requires !IsLoud()(ev)
    ensures QuietHub(h, PublishRoom(h, r, ev))
  {
    SendAllQuiet(h, At(h.rooms, r), ev);
  }

  lemma RemoveQuiet(h: Hub<Sid>, u: Id, r: Id)
    ensures QuietHub(h, RemoveUserFromRoom(h, u, r))
  {
    SendAllQuiet(h, SubsOf(h, u, r), RoomRemoved(r, u));
  }

  lemma SameRowsCalmer(db: DB, db': DB)
    requires db'.messages == db.messages && db'.notifs == db.notifs
    ensures Calmer(db, db')
  {
  }

  lemma CalmerTrans(d0: DB, d1: DB, d2: DB)
    requires Calmer(d0, d1) && Calmer(d1, d2)
    ensures Calmer(d0, d2)
  {
    forall u, r ensures RoomUnread(d2, u, r) <= RoomUnread(d0, u, r) {
      assert RoomUnread(d2, u, r) <= RoomUnread(d1, u, r);
    }
    forall u, p ensures PeerUnread(d2, u, p) <= PeerUnread(d0, u, p) {
      assert PeerUnread(d2, u, p) <= PeerUnread(d1, u, p);
    }
  }

  // ----- opening a channel -----

  lemma OpenRoomTame(c: Ctx<Sid>, r: Id)
    requires Valid(c.db)
    ensures Calmer(c.db, OpenRoom(c, r).db) && BadgesKept(OpenRoom(c, r).db, c.sess, OpenRoom(c, r).sess)
  {
    MarkRoomReadExact(c.db, c.sess.user, r);
  }

  lemma OpenDMTame(c: Ctx<Sid>, p: Id)
    requires Valid(c.db)
    ensures Calmer(c.db, OpenDM(c, p).db) && BadgesKept(OpenDM(c, p).db, c.sess, OpenDM(c, p).sess)
  {
    MarkDMReadExact(c.db, c.sess.user, p);
  }

  lemma OpenFirstTame(c: Ctx<Sid>)
    requires Valid(c.db)
    ensures Calmer(c.db, OpenFirst(c).db) && BadgesKept(OpenFirst(c).db, c.sess, OpenFirst(c).sess)
    ensures OpenFirst(c).hub == c.hub
  {
    if c.sess.rooms != [] { OpenRoomTame(c, c.sess.rooms[0]); }
  }

  // ----- commands that raise nothing -----

  ghost predicate Tame(c: Ctx<Sid>, c': Ctx<Sid>) {
    Calmer(c.db, c'.db) && QuietHub(c.hub, c'.hub) && BadgesKept(c'.db, c.sess, c'.sess)
  }

  lemma JoinTame(c: Ctx<Sid>, name: string)
    requires Valid(c.db)
    ensures Tame(c, Join(c, name))
  {
    var r := JoinTarget(c, name);
    if Join(c, name) != c {
      var db := JoinRoom(c.db, r.value, c.sess.user).value;
      MembershipKeepsValid(c.db, r.value, c.sess.user);
      SameRowsCalmer(c.db, db);
      OpenRoomTame(RefreshRooms(c.(db := db)), r.value);
      CalmerTrans(c.db, db, Join(c, name).db);
      PublishQuiet(JoinHubRoom(c.hub, c.me, r.value), r.value, RoomMeta(r.value));
    }
  }

  lemma LeaveTame(c: Ctx<Sid>)
    requires Valid(c.db)
    ensures Tame(c, Leave(c))
  {
    if c.sess.view.RoomView? {
      var r := c.sess.view.room;
      var db := RemoveMember(c.db, r, c.sess.user);
      var hub := LeaveHubRoom(c.hub, c.me, r);
      MembershipKeepsValid(c.db, r, c.sess.user);
      SameRowsCalmer(c.db, db);
      OpenFirstTame(RefreshRooms(c.(db := db, hub := hub)));
      CalmerTrans(c.db, db, Leave(c).db);
      PublishQuiet(hub, r, RoomMeta(r));
    }
  }

  lemma CreateTame(c: Ctx<Sid>, name: string, private: bool, now: int)
    requires Valid(c.db)
    ensures Tame(c, Create(c, name, private, now))
  {
    if Create(c, name, private, now) != c {
      var db := CreateRoom(c.db, name, private, c.sess.user, now).value;
      CreateRoomKeepsValid(c.db, name, private, c.sess.user, now);
      SameRowsCalmer(c.db, db);
      OpenRoomTame(RefreshRooms(c.(db := db)), |db.rooms|);
      CalmerTrans(c.db, db, Create(c, name, private, now).db);
    }
  }

  lemma ModerateTame(c: Ctx<Sid>, a: Action)
    requires a.CmdTopic? || a.CmdInvite? || a.CmdExpel?
    ensures Tame(c, Act(c, a)) && Act(c, a).sess == c.sess
  {
    SameRowsCalmer(c.db, Act(c, a).db);
    if c.sess.view.RoomView? {
      var r := c.sess.view.room;
      PublishQuiet(c.hub, r, RoomMeta(r));
      if a.CmdExpel? && UserByHandle(c.db, a.handle).Some? {
        var u := UserByHandle(c.db, a.handle).value;
        RemoveQuiet(c.hub, u, r);
        PublishQuiet(RemoveUserFromRoom(c.hub, u, r), r, RoomMeta(r));
      }
    }
  }

  lemma DeleteTame(c: Ctx<Sid>, id: Id, now: int)
    requires Valid(c.db)
    ensures Tame(c, Delete(c, id, now)) && Delete(c, id, now).sess == c.sess
  {
    DeletionRaisesNothing(c.db, id, now, 0);
    var m := Find(c.db.messages, id);
    if m.Some? && m.value.place.InRoom? {
      PublishQuiet(c.hub, m.value.place.room, MsgDeleted(m.value.place.room));
    }
  }

  /** Actions that send and receive no message. */
  predicate IsSilent(a: Action) { IsSessionAction(a) && !a.Say? && !a.CmdMsg? && !a.Handle? }

  lemma RoomsTame(c: Ctx<Sid>, a: Action)
    requires Valid(c.db) && (a.CmdJoin? || a.CmdLeave? || a.CmdCreate?)
    ensures Tame(c, Act(c, a))
  {
    match a
    case CmdJoin(_, name) => JoinTame(c, name);
    case CmdLeave(_) => LeaveTame(c);
    case CmdCreate(_, name, private, now) => CreateTame(c, name, private, now);
  }

  lemma ShowIs(c: Ctx<Sid>, a: Action)
    ensures a.ShowRoom? ==> Act(c, a) == if a.room in c.sess.rooms then OpenRoom(c, a.room) else c
    ensures a.ShowDM? ==> Act(c, a) == OpenDM(c, a.peer)
  {
  }

  lemma TameItself(c: Ctx<Sid>)
    ensures Tame(c, c)
  {
  }

  lemma OpenedRoomTame(c: Ctx<Sid>, r: Id)
    requires Valid(c.db)
    ensures Tame(c, OpenRoom(c, r))
  {
    OpenRoomTame(c, r);
  }

  lemma OpenedDMTame(c: Ctx<Sid>, p: Id)
    requires Valid(c.db)
    ensures Tame(c, OpenDM(c, p))
  {
    OpenDMTame(c, p);
  }

  lemma ShowTame(c: Ctx<Sid>, a: Action)
    requires Valid(c.db) && (a.ShowRoom? || a.ShowDM?)
    ensures Tame(c, Act(c, a))
  {
    ShowIs(c, a);
    if a.ShowDM? {
      OpenedDMTame(c, a.peer);
    } else if a.room in c.sess.rooms {
      OpenedRoomTame(c, a.room);
    } else {
      TameItself(c);
    }
  }

  lemma BlockTame(c: Ctx<Sid>, a: Action)
    requires a.CmdBlock?
    ensures Tame(c, Act(c, a))
  {
    SameRowsCalmer(c.db, Act(c, a).db);
  }

  lemma ActTame(c: Ctx<Sid>, a: Action)
    requires Valid(c.db) && IsSilent(a)
    ensures Tame(c, Act(c, a))
  {
    if a.CmdJoin? || a.CmdLeave? || a.CmdCreate? {
      RoomsTame(c, a);
    } else if a.CmdTopic? || a.CmdInvite? || a.CmdExpel? {
      ModerateTame(c, a);
    } else if a.CmdDelete? {
      DeleteTame(c, a.id, a.now);
    } else if a.CmdBlock? {
      BlockTame(c, a);
    } else {
      ShowTame(c, a);
    }
  }

  // ----- sends -----

  lemma UnseenGrows(b: Mailbox, ev: Event, p: Event -> bool)
    ensures Unseen(Send(b, ev), p) == Unseen(b, p) + (if p(ev) then 1 else 0)
  {
    CountSnoc(b.queue, ev, p);
    CountSnoc(b.dropped, ev, p);
  }

  /** A session gets a notify for each time its user is notified. */
  lemma {:induction false} NotifyAllUnseen(h: Hub<Sid>, r: Id, us: seq<Id>, t: Sid, p: Event -> bool)
    requires Structured(h) && t in h.boxes
    ensures t in NotifyAll(h, r, us).boxes && NotifyAll(h, r, us).boxes[t].user == h.boxes[t].user
    ensures NotifyAll(h, r, us).users == h.users
    ensures Unseen(NotifyAll(h, r, us).boxes[t], p)
         == Unseen(h.boxes[t], p) + (if p(Notify(h.boxes[t].user, r)) then multiset(us)[h.boxes[t].user] else 0)
  {
    if us != [] {
      var n := |us| - 1;
      NotifyAllUnseen(h, r, us[..n], t, p);
      assert us == us[..n] + [us[n]];
      var before := NotifyAll(h, r, us[..n]);
      assert t in At(h.users, us[n]) <==> us[n] == h.boxes[t].user;
      UnseenGrows(before.boxes[t], Notify(us[n], r), p);
    }
  }

  /** What a send to room r does to the queue of session t. */
  lemma RoomSendUnseen(h: Hub<Sid>, r: Id, ev: Event, us: seq<Id>, t: Sid, p: Event -> bool)
    requires Structured(h) && t in h.boxes
    ensures t in NotifyAll(PublishRoom(h, r, ev), r, us).boxes
    ensures Unseen(NotifyAll(PublishRoom(h, r, ev), r, us).boxes[t], p)
         == Unseen(h.boxes[t], p) + (if t in At(h.rooms, r) && p(ev) then 1 else 0)
            + (if p(Notify(h.boxes[t].user, r)) then multiset(us)[h.boxes[t].user] else 0)
  {
    SendAllStructured(h, At(h.rooms, r), ev);
    NotifyAllUnseen(PublishRoom(h, r, ev), r, us, t, p);
    UnseenGrows(h.boxes[t], ev, p);
  }

  /** Unread counts of u grow by no more than the unseen events that announce them. */
  ghost predicate Announces(db: DB, db': DB, b: Mailbox, b': Mailbox, u: Id) {
    && (forall k :: RoomUnread(db', u, k) + Unseen(b, IsNotify(k)) <= RoomUnread(db, u, k) + Unseen(b', IsNotify(k)))
    && (forall k :: PeerUnread(db', u, k) + Unseen(b, IsDMFrom(u, k)) <= PeerUnread(db, u, k) + Unseen(b', IsDMFrom(u, k)))
  }

  lemma AnnouncedCovered(db: DB, db': DB, b: Mailbox, b': Mailbox, x: Session)
    requires Covered(db, b, x) && Announces(db, db', b, b', x.user)
    ensures Covered(db', b', x)
  {
    forall r ensures RoomUnread(db', x.user, r) <= Get(x.unreadRoom, r) + Unseen(b', IsNotify(r)) {
      assert RoomUnread(db, x.user, r) <= Get(x.unreadRoom, r) + Unseen(b, IsNotify(r));
    }
    forall p ensures PeerUnread(db', x.user, p) <= Get(x.unreadDM, p) + Unseen(b', IsDMFrom(x.user, p)) {
      assert PeerUnread(db, x.user, p) <= Get(x.unreadDM, p) + Unseen(b, IsDMFrom(x.user, p));
    }
  }

  lemma RoomSendPoint(c: Ctx<Sid>, r: Id, body: string, t: Sid, k: Id)
    requires Valid(c.db) && Structured(c.hub) && t in c.hub.boxes && StoreMessage(c, r, body).1.Ok?
    ensures var (db, res) := StoreMessage(c, r, body);
            var h', b, v := PublishSent(c, r, res.value).hub, c.hub.boxes[t], c.hub.boxes[t].user;
            && t in h'.boxes
            && RoomUnread(db, v, k) + Unseen(b, IsNotify(k)) <= RoomUnread(c.db, v, k) + Unseen(h'.boxes[t], IsNotify(k))
            && PeerUnread(db, v, k) + Unseen(b, IsDMFrom(v, k))
               <= PeerUnread(c.db, v, k) + Unseen(h'.boxes[t], IsDMFrom(v, k))
  {
    var (db, res) := StoreMessage(c, r, body);
    var us, v := res.value.notified, c.hub.boxes[t].user;
    var ev := RoomMsg(r, res.value.msg, set y | y in us);
    RoomMessageRaises(c.db, r, c.sess.user, body, ResolveHandles(c.db.users, Mentioned(body)));
    RoomSendUnseen(c.hub, r, ev, us, t, IsNotify(k));
    RoomSendUnseen(c.hub, r, ev, us, t, IsDMFrom(v, k));
  }

  lemma RoomSendAnnounces(c: Ctx<Sid>, r: Id, body: string, t: Sid)
    requires Valid(c.db) && Structured(c.hub) && t in c.hub.boxes && StoreMessage(c, r, body).1.Ok?
    ensures var (db, res) := StoreMessage(c, r, body);
            var h' := PublishSent(c, r, res.value).hub;
            t in h'.boxes && Announces(c.db, db, c.hub.boxes[t], h'.boxes[t], c.hub.boxes[t].user)
  {
    forall k { RoomSendPoint(c, r, body, t, k); }
    RoomSendPoint(c, r, body, t, 0);
  }

  /** Both users of a direct message hear of it. */
  function PublishDM(h: Hub<Sid>, u: Id, p: Id, m: Message): Hub<Sid> {
    PublishUser(PublishUser(h, p, DmMsg(p, u, m)), u, DmMsg(u, p, m))
  }

  lemma DMSendUnseen(h: Hub<Sid>, u: Id, p: Id, m: Message, t: Sid, q: Event -> bool)
    requires Structured(h) && t in h.boxes
    ensures var h' := PublishDM(h, u, p, m);
            && t in h'.boxes
            && Unseen(h'.boxes[t], q) == Unseen(h.boxes[t], q)
                 + (if h.boxes[t].user == p && q(DmMsg(p, u, m)) then 1 else 0)
                 + (if h.boxes[t].user == u && q(DmMsg(u, p, m)) then 1 else 0)
  {
    var h1 := PublishUser(h, p, DmMsg(p, u, m));
    SendAllStructured(h, At(h.users, p), DmMsg(p, u, m));
    UnseenGrows(h.boxes[t], DmMsg(p, u, m), q);
    UnseenGrows(h1.boxes[t], DmMsg(u, p, m), q);
    assert t in At(h.users, p) <==> h.boxes[t].user == p;
    assert t in At(h.users, u) <==> h.boxes[t].user == u;
  }

  lemma DMRaisesAt(db: DB, author: Id, p: Id, body: string, v: Id, k: Id)
    requires Valid(db) && InsertDM(db, author, p, body).1.Ok?
    ensures var db' := InsertDM(db, author, p, body).0;
            && PeerUnread(db', v, k) == PeerUnread(db, v, k) + (if v == p && k == author then 1 else 0)
            && RoomUnread(db', v, k) == RoomUnread(db, v, k)
  {
    InsertDMRaisesOne(db, author, p, body);
  }

  lemma DMRoomPoint(c: Ctx<Sid>, p: Id, body: string, t: Sid, k: Id)
    requires Valid(c.db) && Structured(c.hub) && t in c.hub.boxes && InsertDM(c.db, c.sess.user, p, body).1.Ok?
    ensures var (db, res) := InsertDM(c.db, c.sess.user, p, body);
            var h', b, v := PublishDM(c.hub, c.sess.user, p, res.value), c.hub.boxes[t], c.hub.boxes[t].user;
            && t in h'.boxes
            && RoomUnread(db, v, k) + Unseen(b, IsNotify(k)) <= RoomUnread(c.db, v, k) + Unseen(h'.boxes[t], IsNotify(k))
  {
    DMRaisesAt(c.db, c.sess.user, p, body, c.hub.boxes[t].user, k);
    DMSendUnseen(c.hub, c.sess.user, p, InsertDM(c.db, c.sess.user, p, body).1.value, t, IsNotify(k));
  }

  lemma DMPeerPoint(c: Ctx<Sid>, p: Id, body: string, t: Sid, k: Id)
    requires Valid(c.db) && Structured(c.hub) && t in c.hub.boxes && InsertDM(c.db, c.sess.user, p, body).1.Ok?
    ensures var (db, res) := InsertDM(c.db, c.sess.user, p, body);
            var h', b, v := PublishDM(c.hub, c.sess.user, p, res.value), c.hub.boxes[t], c.hub.boxes[t].user;
            && t in h'.boxes
            && PeerUnread(db, v, k) + Unseen(b, IsDMFrom(v, k))
               <= PeerUnread(c.db, v, k) + Unseen(h'.boxes[t], IsDMFrom(v, k))
  {
    var u, m, v := c.sess.user, InsertDM(c.db, c.sess.user, p, body).1.value, c.hub.boxes[t].user;
    DMRaisesAt(c.db, u, p, body, v, k);
    DMSendUnseen(c.hub, u, p, m, t, IsDMFrom(v, k));
    DMIsFrom(c.db, u, p, body, v, k);
  }

  /** The copy that the peer gets counts for the author's thread, and the author's own copy for none. */
  lemma DMIsFrom(db: DB, u: Id, p: Id, body: string, v: Id, k: Id)
    requires InsertDM(db, u, p, body).1.Ok?
    ensures var m := InsertDM(db, u, p, body).1.value;
            v == p && k == u ==> IsDMFrom(v, k)(DmMsg(p, u, m))
  {
  }

  lemma DMSendAnnounces(c: Ctx<Sid>, p: Id, body: string, t: Sid)
    requires Valid(c.db) && Structured(c.hub) && t in c.hub.boxes && InsertDM(c.db, c.sess.user, p, body).1.Ok?
    ensures var (db, res) := InsertDM(c.db, c.sess.user, p, body);
            var h' := PublishDM(c.hub, c.sess.user, p, res.value);
            t in h'.boxes && Announces(c.db, db, c.hub.boxes[t], h'.boxes[t], c.hub.boxes[t].user)
  {
    forall k { DMRoomPoint(c, p, body, t, k); }
    forall k { DMPeerPoint(c, p, body, t, k); }
    DMRoomPoint(c, p, body, t, 0);
  }

  lemma SendToRoomCovered(c: Ctx<Sid>, r: Id, body: string, t: Sid, x: Session)
    requires Valid(c.db) && Structured(c.hub) && t in c.hub.boxes && c.hub.boxes[t].user == x.user
    requires Covered(c.db, c.hub.boxes[t], x)
    ensures var c' := SendToRoom(c, r, body); t in c'.hub.boxes && Covered(c'.db, c'.hub.boxes[t], x)
  {
    var (db, res) := StoreMessage(c, r, body);
    if (r, c.sess.user) in c.db.members && res.Ok? {
      RoomSendAnnounces(c, r, body, t);
      AnnouncedCovered(c.db, db, c.hub.boxes[t], PublishSent(c, r, res.value).hub.boxes[t], x);
    }
  }

  lemma SendToPeerIs(c: Ctx<Sid>, p: Id, body: string)
    ensures var (db, res) := InsertDM(c.db, c.sess.user, p, body);
            var c' := SendToPeer(c, p, body);
            c' == c || (res.Ok? && c' == c.(db := db, hub := PublishDM(c.hub, c.sess.user, p, res.value)))
  {
  }

  lemma SendToPeerCovered(c: Ctx<Sid>, p: Id, body: string, t: Sid, x: Session)
    requires Valid(c.db) && Structured(c.hub) && t in c.hub.boxes && c.hub.boxes[t].user == x.user
    requires Covered(c.db, c.hub.boxes[t], x)
    ensures var c' := SendToPeer(c, p, body); t in c'.hub.boxes && Covered(c'.db, c'.hub.boxes[t], x)
  {
    SendToPeerIs(c, p, body);
    if SendToPeer(c, p, body) != c {
      DMSendAnnounces(c, p, body, t);
      AnnouncedCovered(c.db, SendToPeer(c, p, body).db, c.hub.boxes[t], SendToPeer(c, p, body).hub.boxes[t], x);
    }
  }

  lemma SendCovered(c: Ctx<Sid>, text: string, allowed: bool, t: Sid, x: Session)
    requires Valid(c.db) && Structured(c.hub) && t in c.hub.boxes && c.hub.boxes[t].user == x.user
    requires Covered(c.db, c.hub.boxes[t], x)
    ensures var c' := SendCurrent(c, text, allowed); t in c'.hub.boxes && Covered(c'.db, c'.hub.boxes[t], x)
  {
    match c.sess.view
    case NoView =>
    case RoomView(r) => SendToRoomCovered(c, r, Truncate(text), t, x);
    case DMView(p) => SendToPeerCovered(c, p, Truncate(text), t, x);
  }

  // ----- receipts -----

  lemma UnseenReceived(b: Mailbox, p: Event -> bool)
    requires b.queue != []
    ensures Unseen(b, p) == Unseen(Receive(b), p) + (if p(b.queue[0]) then 1 else 0)
  {
    CountHead(b.queue, p);
  }

  /** A quiet event: the session may reopen a channel, and nothing else happens to badges. */
  lemma QuietHandled(c: Ctx<Sid>, ev: Event)
    requires Valid(c.db) && !IsLoud()(ev)
    ensures var c' := HandleEvent(c, ev); Calmer(c.db, c'.db) && BadgesKept(c'.db, c.sess, c'.sess)
  {
    if ev.RoomRemoved? { OpenFirstTame(RefreshRooms(c.(hub := LeaveHubRoom(c.hub, c.me, ev.room)))); }
  }

  /** The badges make up for the event that leaves the queue, or the store has nothing unread. */
  ghost predicate Paid(db: DB, x: Session, x': Session, ev: Event) {
    && x'.user == x.user
    && (forall r :: Get(x'.unreadRoom, r) >= Get(x.unreadRoom, r) + (if IsNotify(r)(ev) then 1 else 0)
                    || RoomUnread(db, x.user, r) == 0)
    && (forall p :: Get(x'.unreadDM, p) >= Get(x.unreadDM, p) + (if IsDMFrom(x.user, p)(ev) then 1 else 0)
                    || PeerUnread(db, x.user, p) == 0)
  }

  ghost predicate Handled(c: Ctx<Sid>, ev: Event, c': Ctx<Sid>) {
    c'.hub.boxes == c.hub.boxes && Calmer(c.db, c'.db) && Paid(c'.db, c.sess, c'.sess, ev)
  }

  lemma RoomReadPays(db: DB, x: Session, ev: Event)
    requires Valid(db) && ev.RoomMsg?
    ensures Calmer(db, MarkRoomRead(db, x.user, ev.room)) && Paid(MarkRoomRead(db, x.user, ev.room), x, x, ev)
  {
    MarkRoomReadExact(db, x.user, ev.room);
  }

  lemma DMReadPays(db: DB, x: Session, ev: Event)
    requires Valid(db) && ev.DmMsg?
    ensures Calmer(db, MarkDMRead(db, x.user, ev.peer)) && Paid(MarkDMRead(db, x.user, ev.peer), x, x, ev)
  {
    MarkDMReadExact(db, x.user, ev.peer);
  }

  lemma BumpPays(db: DB, x: Session, ev: Event)
    ensures ev.RoomMsg? ==> Paid(db, x, x, ev) && Paid(db, x, x.(unreadRoom := Bump(x.unreadRoom, ev.room)), ev)
    ensures ev.DmMsg? && ev.msg.author != x.user ==> Paid(db, x, x.(unreadDM := Bump(x.unreadDM, ev.peer)), ev)
    ensures ev.DmMsg? && ev.msg.author == x.user ==> Paid(db, x, x, ev)
    ensures Calmer(db, db)
  {
  }

  lemma RoomMsgPays(c: Ctx<Sid>, ev: Event)
    requires Valid(c.db) && ev.RoomMsg?
    ensures Handled(c, ev, HandleEvent(c, ev))
  {
    BumpPays(c.db, c.sess, ev);
    RoomReadPays(c.db, c.sess, ev);
  }

  lemma DmMsgPays(c: Ctx<Sid>, ev: Event)
    requires Valid(c.db) && ev.DmMsg?
    ensures Handled(c, ev, HandleEvent(c, ev))
  {
    BumpPays(c.db, c.sess, ev);
    DMReadPays(c.db, c.sess, ev);
  }

  lemma NotifyPays(c: Ctx<Sid>, ev: Event)
    requires ev.Notify?
    ensures Handled(c, ev, HandleEvent(c, ev))
  {
  }

  lemma KeptPays(db: DB, x: Session, x': Session, ev: Event)
    requires BadgesKept(db, x, x') && !IsLoud()(ev)
    ensures Paid(db, x, x', ev)
  {
  }

  lemma QuietPays(c: Ctx<Sid>, ev: Event)
    requires Valid(c.db) && !IsLoud()(ev)
    ensures Handled(c, ev, HandleEvent(c, ev))
  {
    HandledHubIs(c, ev);
    QuietHandled(c, ev);
    KeptPays(HandleEvent(c, ev).db, c.sess, HandleEvent(c, ev).sess, ev);
  }

  lemma HandledPays(c: Ctx<Sid>, ev: Event)
    requires Valid(c.db)
    ensures Handled(c, ev, HandleEvent(c, ev))
  {
    if ev.RoomMsg? {
      RoomMsgPays(c, ev);
    } else if ev.DmMsg? {
      DmMsgPays(c, ev);
    } else if ev.Notify? {
      NotifyPays(c, ev);
    } else {
      QuietPays(c, ev);
    }
  }

  lemma PaidCovers(db: DB, db': DB, b: Mailbox, x: Session, x': Session)
    requires b.queue != [] && Covered(db, b, x) && Calmer(db, db') && Paid(db', x, x', b.queue[0])
    ensures Covered(db', Receive(b), x')
  {
    forall r ensures RoomUnread(db', x.user, r) <= Get(x'.unreadRoom, r) + Unseen(Receive(b), IsNotify(r)) {
      UnseenReceived(b, IsNotify(r));
      assert RoomUnread(db', x.user, r) <= RoomUnread(db, x.user, r);
    }
    forall p ensures PeerUnread(db', x.user, p) <= Get(x'.unreadDM, p) + Unseen(Receive(b), IsDMFrom(x.user, p)) {
      UnseenReceived(b, IsDMFrom(x.user, p));
      assert PeerUnread(db', x.user, p) <= PeerUnread(db, x.user, p);
    }
  }

  /** Handling leaves the debt of a room that is out of view as it was. */
  lemma HandledDebt(c: Ctx<Sid>, b: Mailbox, ev: Event, r: Id)
    requires Valid(c.db) && b.queue != [] && ev == b.queue[0]
    requires c.sess.view != RoomView(r) && HandleEvent(c, ev).sess.view != RoomView(r)
    ensures Debt(Receive(b), HandleEvent(c, ev).sess, r) == Debt(b, c.sess, r)
  {
    UnseenReceived(b, IsBump(c.sess.user, r));
    if !IsLoud()(ev) { QuietHandled(c, ev); }
  }

  // ----- the invariant over one step of the system -----

  lemma CoveredStill(db: DB, db': DB, b: Mailbox, b': Mailbox, x: Session)
    requires Covered(db, b, x) && Calmer(db, db') && QuietBox(b, b')
    ensures Covered(db', b', x)
  {
    assert BadgesKept(db', x, x);
    CoveredTame(db, db', b, b', x, x);
  }

  /** The sessions other than me are covered by this store and these queues. */
  ghost predicate RestCovered(w: World, db: DB, hub: Hub<Sid>, me: Sid) {
    forall t :: t in w.sessions && t != me ==> t in hub.boxes && Covered(db, hub.boxes[t], w.sessions[t])
  }

  lemma OthersCovered(w: World, db: DB, hub: Hub<Sid>, me: Sid)
    requires AllCovered(w) && Calmer(w.db, db) && w.sessions.Keys <= w.hub.boxes.Keys
    requires forall t :: t in w.hub.boxes && t != me ==> t in hub.boxes && QuietBox(w.hub.boxes[t], hub.boxes[t])
    ensures RestCovered(w, db, hub, me)
  {
    forall t | t in w.sessions && t != me ensures t in hub.boxes && Covered(db, hub.boxes[t], w.sessions[t]) {
      CoveredStill(w.db, db, w.hub.boxes[t], hub.boxes[t], w.sessions[t]);
    }
  }

  lemma PutCovered(w: World, c: Ctx<Sid>)
    requires c.me in c.hub.boxes ==> Covered(c.db, c.hub.boxes[c.me], c.sess)
    requires RestCovered(w, c.db, c.hub, c.me)
    ensures AllCovered(Put(w, c))
  {
  }

  /** A step that raises nothing keeps every session covered. */
  lemma TameCovers(w: World, c: Ctx<Sid>)
    requires AllCovered(w) && Linked(w) && c.me in w.sessions && Tame(Focus(w, c.me), c)
    ensures AllCovered(Put(w, c))
  {
    OthersCovered(w, c.db, c.hub, c.me);
    CoveredTame(w.db, c.db, w.hub.boxes[c.me], c.hub.boxes[c.me], w.sessions[c.me], c.sess);
    PutCovered(w, c);
  }

  lemma SendSame(c: Ctx<Sid>, text: string, allowed: bool)
    ensures SendCurrent(c, text, allowed).sess == c.sess && SendCurrent(c, text, allowed).me == c.me
  {
  }

  lemma PutSent(w: World, c: Ctx<Sid>, text: string, allowed: bool)
    ensures var c' := SendCurrent(c, text, allowed); Put(w, c') == World(c'.db, c'.hub, Put(w, c).sessions)
  {
    SendSame(c, text, allowed);
  }

  lemma SendCovers(w: World, c: Ctx<Sid>, text: string, allowed: bool)
    requires Valid(w.db) && Structured(w.hub) && Linked(w) && AllCovered(w) && c.db == w.db && c.hub == w.hub
    ensures var c' := SendCurrent(c, text, allowed); AllCovered(World(c'.db, c'.hub, w.sessions))
  {
    var c' := SendCurrent(c, text, allowed);
    forall t | t in w.sessions ensures t in c'.hub.boxes && Covered(c'.db, c'.hub.boxes[t], w.sessions[t]) {
      SendCovered(c, text, allowed, t, w.sessions[t]);
    }
  }

  lemma PutFocus(w: World, s: Sid)
    requires s in w.sessions
    ensures Put(w, Focus(w, s)) == w
  {
  }

  function HandledHead(w: World, s: Sid): Ctx<Sid>
    requires s in w.sessions && s in w.hub.boxes && w.hub.boxes[s].queue != []
  {
    HandleEvent(Focus(w, s).(hub := Consume(w.hub, s)), w.hub.boxes[s].queue[0])
  }

  lemma QueueHeadHandled(w: World, s: Sid)
    requires Valid(w.db) && s in w.sessions && s in w.hub.boxes && w.hub.boxes[s].queue != []
    ensures var c' := HandledHead(w, s);
            && c'.me == s && c'.hub.boxes == w.hub.boxes[s := Receive(w.hub.boxes[s])]
            && Calmer(w.db, c'.db) && Paid(c'.db, w.sessions[s], c'.sess, w.hub.boxes[s].queue[0])
  {
    var c, ev := Focus(w, s).(hub := Consume(w.hub, s)), w.hub.boxes[s].queue[0];
    HandledPays(c, ev);
    HandledHubIs(c, ev);
  }

  lemma QueueHeadMine(w: World, s: Sid)
    requires Valid(w.db) && s in w.sessions && s in w.hub.boxes && AllCovered(w) && w.hub.boxes[s].queue != []
    ensures var c' := HandledHead(w, s); s in c'.hub.boxes && Covered(c'.db, c'.hub.boxes[s], c'.sess)
  {
    var c' := HandledHead(w, s);
    QueueHeadHandled(w, s);
    PaidCovers(w.db, c'.db, w.hub.boxes[s], w.sessions[s], c'.sess);
  }

  /** A session's own step that touches no other queue. */
  lemma OthersSame(w: World, db: DB, hub: Hub<Sid>, s: Sid, b: Mailbox)
    requires AllCovered(w) && Calmer(w.db, db) && w.sessions.Keys <= w.hub.boxes.Keys && hub.boxes == w.hub.boxes[s := b]
    ensures RestCovered(w, db, hub, s)
  {
    OthersCovered(w, db, hub, s);
  }

  lemma QueueHeadOthers(w: World, s: Sid)
    requires Valid(w.db) && Linked(w) && s in w.sessions && AllCovered(w) && w.hub.boxes[s].queue != []
    ensures RestCovered(w, HandledHead(w, s).db, HandledHead(w, s).hub, s)
  {
    QueueHeadHandled(w, s);
    OthersSame(w, HandledHead(w, s).db, HandledHead(w, s).hub, s, Receive(w.hub.boxes[s]));
  }

  lemma QueueHeadCovers(w: World, s: Sid)
    requires Valid(w.db) && Linked(w) && s in w.sessions && AllCovered(w) && w.hub.boxes[s].queue != []
    ensures AllCovered(Put(w, HandledHead(w, s)))
  {
    QueueHeadHandled(w, s);
    QueueHeadMine(w, s);
    QueueHeadOthers(w, s);
    PutCovered(w, HandledHead(w, s));
  }

  lemma ReceiveCovers(w: World, s: Sid)
    requires Valid(w.db) && Linked(w) && s in w.sessions && AllCovered(w)
    ensures AllCovered(Put(w, Act(Focus(w, s), Handle(s))))
  {
    ActHandle(Focus(w, s));
    PutFocus(w, s);
    if w.hub.boxes[s].queue != [] { QueueHeadCovers(w, s); }
  }

  lemma OpenDMCovers(w: World, s: Sid, p: Id)
    requires Valid(w.db) && Linked(w) && s in w.sessions && AllCovered(w)
    ensures AllCovered(Put(w, OpenDM(Focus(w, s), p)))
  {
    OpenDMTame(Focus(w, s), p);
    TameCovers(w, OpenDM(Focus(w, s), p));
  }

  lemma MsgIs(c: Ctx<Sid>, h: string, text: string, allowed: bool, u: Option<Id>)
    requires u == UserByHandle(c.db, h)
    ensures Msg(c, h, text, allowed)
         == if u.None? || u.value == c.sess.user then c
            else if text == "" then OpenDM(c, u.value)
            else SendCurrent(OpenDM(c, u.value), text, allowed)
  {
  }

  lemma OpenDMLinked(w: World, s: Sid, p: Id)
    requires Valid(w.db) && Linked(w) && s in w.sessions
    ensures var w1 := Put(w, OpenDM(Focus(w, s), p)); Linked(w1) && Valid(w1.db) && w1.hub == w.hub
  {
    MarksKeepValid(w.db, w.sessions[s].user, p);
  }

  lemma MsgCovers(w: World, s: Sid, h: string, text: string, allowed: bool)
    requires Valid(w.db) && Structured(w.hub) && Linked(w) && s in w.sessions && AllCovered(w)
    ensures AllCovered(Put(w, Msg(Focus(w, s), h, text, allowed)))
  {
    var c, u := Focus(w, s), UserByHandle(w.db, h);
    MsgIs(c, h, text, allowed, u);
    PutFocus(w, s);
    if u.Some? && u.value != c.sess.user {
      OpenDMCovers(w, s, u.value);
      OpenDMLinked(w, s, u.value);
      PutSent(w, OpenDM(c, u.value), text, allowed);
      SendCovers(Put(w, OpenDM(c, u.value)), OpenDM(c, u.value), text, allowed);
    }
  }

  lemma SilentCovers(w: World, a: Action)
    requires Valid(w.db) && Linked(w) && AllCovered(w) && IsSilent(a) && a.s in w.sessions
    ensures AllCovered(Put(w, Act(Focus(w, a.s), a)))
  {
    ActTame(Focus(w, a.s), a);
    ActSameUser(Focus(w, a.s), a);
    TameCovers(w, Act(Focus(w, a.s), a));
  }

  lemma SayCovers(w: World, s: Sid, text: string, allowed: bool)
    requires Valid(w.db) && Structured(w.hub) && Linked(w) && AllCovered(w) && s in w.sessions
    ensures AllCovered(Put(w, SendCurrent(Focus(w, s), text, allowed)))
  {
    PutFocus(w, s);
    PutSent(w, Focus(w, s), text, allowed);
    SendCovers(w, Focus(w, s), text, allowed);
  }

  lemma ActIs(c: Ctx<Sid>, a: Action)
    ensures a.Say? ==> Act(c, a) == SendCurrent(c, a.text, a.allowed)
    ensures a.CmdMsg? ==> Act(c, a) == Msg(c, a.handle, a.text, a.allowed)
  {
  }

  lemma SessionCovers(w: World, a: Action)
    requires Valid(w.db) && Structured(w.hub) && Linked(w) && AllCovered(w)
    requires IsSessionAction(a) && a.s in w.sessions
    ensures AllCovered(Put(w, Act(Focus(w, a.s), a)))
  {
    ActIs(Focus(w, a.s), a);
    if a.Say? {
      SayCovers(w, a.s, a.text, a.allowed);
    } else if a.CmdMsg? {
      MsgCovers(w, a.s, a.handle, a.text, a.allowed);
    } else if a.Handle? {
      ReceiveCovers(w, a.s);
    } else {
      SilentCovers(w, a);
    }
  }

  /** Init copies the store's counts into the badges. */
  lemma OpeningCovered(db: DB, u: Id, admin: bool)
    requires Valid(db)
    ensures Covered(db, NewBox(u), Opening(db, u, admin))
  {
    UnreadIsConserved(db, u);
  }

  lemma InitOpens(db: DB, hub: Hub<Sid>, s: Sid, u: Id, admin: bool)
    requires Valid(db)
    ensures var c := Init(db, hub, s, u, admin);
            Calmer(db, c.db) && BadgesKept(c.db, Opening(db, u, admin), c.sess)
  {
    var x := Opening(db, u, admin);
    InitIs(db, hub, s, u, admin, x);
    OpenFirstTame(Ctx(db, JoinAll(Subscribe(hub, s, u), s, x.rooms), s, x));
  }

  /** Its subscription starts empty, and the others hear of a presence at most. */
  lemma InitBoxes(db: DB, hub: Hub<Sid>, s: Sid, u: Id, admin: bool)
    requires Structured(hub) && s !in hub.boxes
    ensures var c := Init(db, hub, s, u, admin);
            c.me == s && QuietHub(hub, c.hub) && s in c.hub.boxes && c.hub.boxes[s] == NewBox(u)
  {
    InitHub(db, hub, s, u, admin);
    JoinAllBoxes(Subscribe(hub, s, u), s, ListUserRooms(db, u));
    SubscribeQuiet(hub, s, u);
  }

  lemma NewCovered(w: World, c: Ctx<Sid>, x: Session, b: Mailbox)
    requires AllCovered(w) && Linked(w) && Covered(w.db, b, x)
    requires Calmer(w.db, c.db) && BadgesKept(c.db, x, c.sess)
    requires QuietHub(w.hub, c.hub) && c.me in c.hub.boxes && c.hub.boxes[c.me] == b
    ensures AllCovered(Put(w, c))
  {
    CoveredTame(w.db, c.db, b, b, x, c.sess);
    OthersCovered(w, c.db, c.hub, c.me);
    PutCovered(w, c);
  }

  lemma ConnectCovers(w: World, s: Sid, u: Id, admin: bool)
    requires Valid(w.db) && Structured(w.hub) && Linked(w) && AllCovered(w) && s !in w.sessions
    ensures AllCovered(Put(w, Init(w.db, w.hub, s, u, admin)))
  {
    OpeningCovered(w.db, u, admin);
    InitOpens(w.db, w.hub, s, u, admin);
    InitBoxes(w.db, w.hub, s, u, admin);
    NewCovered(w, Init(w.db, w.hub, s, u, admin), Opening(w.db, u, admin), NewBox(u));
  }

  lemma SubscribeQuiet(h: Hub<Sid>, s: Sid, u: Id)
    requires Structured(h) && s !in h.boxes
    ensures QuietHub(h, Subscribe(h, s, u)) && s in Subscribe(h, s, u).boxes
    ensures Subscribe(h, s, u).boxes[s] == NewBox(u)
  {
    var h1 := Subscribed(h, s, u);
    SendAllQuiet(h1, InSomeRoom(h1.rooms), Presence(u, true));
    assert s !in InSomeRoom(h1.rooms);
    forall t | t in h.boxes ensures t in Subscribe(h, s, u).boxes && QuietBox(h.boxes[t], Subscribe(h, s, u).boxes[t]) {
      assert h1.boxes[t] == h.boxes[t];
    }
  }

  lemma UnsubscribeQuiet(h: Hub<Sid>, s: Sid)
    requires s in h.boxes
    ensures var h' := Unsubscribe(h, s);
            forall t :: t in h.boxes && t != s ==> t in h'.boxes && QuietBox(h.boxes[t], h'.boxes[t])
  {
    var h1 := Unsubscribed(h, s);
    SendAllQuiet(h1, InSomeRoom(h1.rooms), Presence(h.boxes[s].user, false));
    forall t | t in h.boxes && t != s
      ensures t in Unsubscribe(h, s).boxes && QuietBox(h.boxes[t], Unsubscribe(h, s).boxes[t])
    {
      assert h1.boxes[t] == h.boxes[t];
    }
  }

  lemma LeftCovered(w: World, hub: Hub<Sid>, s: Sid)
    requires AllCovered(w) && w.sessions.Keys <= w.hub.boxes.Keys
    requires forall t :: t in w.hub.boxes && t != s ==> t in hub.boxes && QuietBox(w.hub.boxes[t], hub.boxes[t])
    ensures AllCovered(World(w.db, hub, w.sessions - {s}))
  {
    OthersCovered(w, w.db, hub, s);
  }

  lemma DisconnectCovers(w: World, s: Sid)
    requires Linked(w) && AllCovered(w)
    ensures AllCovered(Step(w, Disconnect(s)))
  {
    DisconnectIs(w, s);
    if s in w.sessions {
      UnsubscribeQuiet(w.hub, s);
      LeftCovered(w, Unsubscribe(w.hub, s), s);
    }
  }

  lemma DbCovers(w: World, db: DB)
    requires AllCovered(w) && Calmer(w.db, db)
    ensures AllCovered(w.(db := db))
  {
    forall t | t in w.sessions && t in w.hub.boxes ensures Covered(db, w.hub.boxes[t], w.sessions[t]) {
      CoveredStill(w.db, db, w.hub.boxes[t], w.hub.boxes[t], w.sessions[t]);
    }
  }

  lemma RegisteredSameRows(db: DB, h: string, room: string, now: int)
    ensures Calmer(db, Registered(db, h, room, now))
  {
    SameRowsCalmer(db, Registered(db, h, room, now));
  }

  lemma StoreCalmer(w: World, a: Action)
    requires Valid(w.db) && !IsSessionAction(a) && !a.Connect? && !a.Disconnect?
    ensures Calmer(w.db, Step(w, a).db)
  {
    if a.Register? {
      RegisteredSameRows(w.db, a.handle, a.defaultRoom, a.now);
    } else if a.PurgeOld? {
      DeletionRaisesNothing(w.db, 0, 0, a.cutoff);
    } else {
      SameRowsCalmer(w.db, Step(w, a).db);
    }
  }

  lemma StepCovers(w: World, a: Action)
    requires Valid(w.db) && Structured(w.hub) && Linked(w) && AllCovered(w)
    ensures AllCovered(Step(w, a))
  {
    if a.Connect? {
      ConnectIs(w, a.s, a.user);
      if a.s !in w.sessions { ConnectCovers(w, a.s, a.user, IsAdmin(w.db, a.user)); }
    } else if a.Disconnect? {
      DisconnectCovers(w, a.s);
    } else if IsSessionAction(a) {
      SessionStep(w, a);
      if a.s in w.sessions { SessionCovers(w, a); }
    } else {
      StoreCalmer(w, a);
      StoreStep(w, a);
      DbCovers(w, Step(w, a).db);
    }
  }

  // ----- one bump for each message -----

  /** Session t is subscribed to r and does not show it. */
  ghost predicate Watching(w: World, t: Sid, r: Id) {
    && t in w.sessions && t in w.hub.boxes
    && t in At(w.hub.rooms, r)
    && w.sessions[t].view != RoomView(r)
  }

  ghost function DebtOf(w: World, t: Sid, r: Id): nat
    requires Watching(w, t, r)
  {
    Debt(w.hub.boxes[t], w.sessions[t], r)
  }

  /** The step added a message, and added it to room r. */
  predicate Posted(db: DB, db': DB, r: Id) {
    |db'.messages| > |db.messages| && db'.messages[|db'.messages| - 1].place == InRoom(r)
  }

  lemma SilentPostsNothing(c: Ctx<Sid>, a: Action)
    requires IsSilent(a)
    ensures |Act(c, a).db.messages| == |c.db.messages|
  {
  }

  /** A mentioned user is notified once. */
  lemma NotifiedOnce(users: seq<User>, members: map<(Id, Id), Role>, k: Id, author: Id, text: string, u: Id)
    ensures var us := Filter(ResolveHandles(users, Mentioned(text)), Eligible(members, k, author));
            multiset(us)[u] == if u in us then 1 else 0
  {
    var uids := ResolveHandles(users, Mentioned(text));
    ResolveExact(users, Mentioned(text), u);
    FilterMultiset(uids, Eligible(members, k, author), u);
  }

  /** A room send adds one bump to every subscriber of the room, mentioned or not. */
  lemma RoomSendDebt(c: Ctx<Sid>, k: Id, sent: Sent, t: Sid, x: Session, r: Id)
    requires Structured(c.hub) && t in c.hub.boxes && c.hub.boxes[t].user == x.user && t in At(c.hub.rooms, r)
    requires multiset(sent.notified)[x.user] == if x.user in sent.notified then 1 else 0
    ensures var h' := PublishSent(c, k, sent).hub;
            t in h'.boxes && Debt(h'.boxes[t], x, r) == Debt(c.hub.boxes[t], x, r) + (if k == r then 1 else 0)
  {
    var us := sent.notified;
    RoomSendUnseen(c.hub, k, RoomMsg(k, sent.msg, set y | y in us), us, t, IsBump(x.user, r));
  }

  lemma StoreMessagePosts(c: Ctx<Sid>, k: Id, body: string, r: Id)
    requires StoreMessage(c, k, body).1.Ok?
    ensures Posted(c.db, StoreMessage(c, k, body).0, r) <==> k == r
  {
  }

  lemma SendToRoomIs(c: Ctx<Sid>, k: Id, body: string)
    ensures SendToRoom(c, k, body) == c ||
            (StoreMessage(c, k, body).1.Ok?
             && SendToRoom(c, k, body)
                == PublishSent(c, k, StoreMessage(c, k, body).1.value).(db := StoreMessage(c, k, body).0))
  {
  }

  lemma SendToRoomDebt(c: Ctx<Sid>, k: Id, body: string, t: Sid, x: Session, r: Id)
    requires Structured(c.hub) && t in c.hub.boxes && c.hub.boxes[t].user == x.user && t in At(c.hub.rooms, r)
    ensures var c' := SendToRoom(c, k, body);
            && t in c'.hub.boxes
            && Debt(c'.hub.boxes[t], x, r) == Debt(c.hub.boxes[t], x, r) + (if Posted(c.db, c'.db, r) then 1 else 0)
  {
    SendToRoomIs(c, k, body);
    if SendToRoom(c, k, body) != c {
      var sent := StoreMessage(c, k, body).1.value;
      StoreMessagePosts(c, k, body, r);
      NotifiedOnce(c.db.users, c.db.members, k, c.sess.user, body, x.user);
      RoomSendDebt(c, k, sent, t, x, r);
    }
  }

  lemma SendToPeerDebt(c: Ctx<Sid>, p: Id, body: string, t: Sid, x: Session, r: Id)
    requires Structured(c.hub) && t in c.hub.boxes && c.hub.boxes[t].user == x.user
    ensures var c' := SendToPeer(c, p, body);
            && t in c'.hub.boxes
            && Debt(c'.hub.boxes[t], x, r) == Debt(c.hub.boxes[t], x, r) && !Posted(c.db, c'.db, r)
  {
    var u := c.sess.user;
    var (db, res) := InsertDM(c.db, u, p, body);
    if res.Ok? { DMSendUnseen(c.hub, u, p, res.value, t, IsBump(x.user, r)); }
  }

  lemma SendDebt(c: Ctx<Sid>, text: string, allowed: bool, t: Sid, x: Session, r: Id)
    requires Structured(c.hub) && t in c.hub.boxes && c.hub.boxes[t].user == x.user && t in At(c.hub.rooms, r)
    ensures var c' := SendCurrent(c, text, allowed);
            && t in c'.hub.boxes && c'.sess == c.sess
            && Debt(c'.hub.boxes[t], x, r) == Debt(c.hub.boxes[t], x, r) + (if Posted(c.db, c'.db, r) then 1 else 0)
  {
    SendSame(c, text, allowed);
    match c.sess.view
    case NoView =>
    case RoomView(k) => SendToRoomDebt(c, k, Truncate(text), t, x, r);
    case DMView(p) => SendToPeerDebt(c, p, Truncate(text), t, x, r);
  }

  /** A session action, seen from a watching session t. */
  lemma SilentDebt(w: World, a: Action, t: Sid, r: Id)
    requires Valid(w.db) && Linked(w) && IsSilent(a) && a.s in w.sessions && Watching(w, t, r)
    requires Watching(Put(w, Act(Focus(w, a.s), a)), t, r)
    ensures DebtOf(Put(w, Act(Focus(w, a.s), a)), t, r) == DebtOf(w, t, r)
  {
    var c' := Act(Focus(w, a.s), a);
    ActTame(Focus(w, a.s), a);
    ActSameUser(Focus(w, a.s), a);
    var x' := if t == a.s then c'.sess else w.sessions[t];
    assert t != a.s ==> BadgesKept(c'.db, w.sessions[t], x');
    DebtTame(c'.db, w.hub.boxes[t], c'.hub.boxes[t], w.sessions[t], x', r);
  }

  lemma SayDebt(w: World, s: Sid, text: string, allowed: bool, t: Sid, r: Id)
    requires Structured(w.hub) && Linked(w) && s in w.sessions && Watching(w, t, r)
    requires Watching(Put(w, SendCurrent(Focus(w, s), text, allowed)), t, r)
    ensures DebtOf(Put(w, SendCurrent(Focus(w, s), text, allowed)), t, r)
         == DebtOf(w, t, r) + (if Posted(w.db, SendCurrent(Focus(w, s), text, allowed).db, r) then 1 else 0)
  {
    SendDebt(Focus(w, s), text, allowed, t, w.sessions[t], r);
  }

  lemma OpenDMDebt(w: World, s: Sid, p: Id, t: Sid, r: Id)
    requires s in w.sessions && Watching(w, t, r)
    ensures var w1 := Put(w, OpenDM(Focus(w, s), p));
            && t in w1.sessions && w1.sessions[t].user == w.sessions[t].user
            && Debt(w.hub.boxes[t], w1.sessions[t], r) == DebtOf(w, t, r)
            && w1.db.messages == w.db.messages && w1.hub == w.hub
  {
  }

  lemma OpenSendDebt(w: World, s: Sid, p: Id, text: string, allowed: bool, t: Sid, r: Id)
    requires Structured(w.hub) && Linked(w) && s in w.sessions && Watching(w, t, r)
    requires Watching(Put(w, SendCurrent(OpenDM(Focus(w, s), p), text, allowed)), t, r)
    ensures var c' := SendCurrent(OpenDM(Focus(w, s), p), text, allowed);
            DebtOf(Put(w, c'), t, r) == DebtOf(w, t, r) + (if Posted(w.db, c'.db, r) then 1 else 0)
  {
    var c1 := OpenDM(Focus(w, s), p);
    OpenDMDebt(w, s, p, t, r);
    PutSent(w, c1, text, allowed);
    SendDebt(c1, text, allowed, t, Put(w, c1).sessions[t], r);
  }

  lemma MsgDebt(w: World, s: Sid, h: string, text: string, allowed: bool, t: Sid, r: Id)
    requires Structured(w.hub) && Linked(w) && s in w.sessions && Watching(w, t, r)
    requires Watching(Put(w, Msg(Focus(w, s), h, text, allowed)), t, r)
    ensures DebtOf(Put(w, Msg(Focus(w, s), h, text, allowed)), t, r)
         == DebtOf(w, t, r) + (if Posted(w.db, Msg(Focus(w, s), h, text, allowed).db, r) then 1 else 0)
  {
    var u := UserByHandle(w.db, h);
    MsgIs(Focus(w, s), h, text, allowed, u);
    PutFocus(w, s);
    if u.Some? && u.value != w.sessions[s].user {
      if text == "" { OpenDMDebt(w, s, u.value, t, r); } else { OpenSendDebt(w, s, u.value, text, allowed, t, r); }
    }
  }

  lemma HandleDebt(w: World, s: Sid, t: Sid, r: Id)
    requires Valid(w.db) && Linked(w) && s in w.sessions && Watching(w, t, r)
    requires Watching(Put(w, Act(Focus(w, s), Handle(s))), t, r)
    ensures DebtOf(Put(w, Act(Focus(w, s), Handle(s))), t, r) == DebtOf(w, t, r)
    ensures |Act(Focus(w, s), Handle(s)).db.messages| == |w.db.messages|
  {
    ActHandle(Focus(w, s));
    PutFocus(w, s);
    if w.hub.boxes[s].queue != [] {
      var c, ev := Focus(w, s).(hub := Consume(w.hub, s)), w.hub.boxes[s].queue[0];
      HandledSame(c, ev);
      if t == s { HandledDebt(c, w.hub.boxes[s], ev, r); }
    }
  }

  lemma HandledSame(c: Ctx<Sid>, ev: Event)
    ensures HandleEvent(c, ev).hub.boxes == c.hub.boxes && HandleEvent(c, ev).me == c.me
    ensures |HandleEvent(c, ev).db.messages| == |c.db.messages|
  {
  }

  lemma QuietDebt(w: World, w': World, t: Sid, r: Id)
    requires Watching(w, t, r) && Watching(w', t, r)
    requires w'.sessions[t] == w.sessions[t] && QuietBox(w.hub.boxes[t], w'.hub.boxes[t])
    ensures DebtOf(w', t, r) == DebtOf(w, t, r)
  {
    QuietUnseen(w.hub.boxes[t], w'.hub.boxes[t], IsBump(w.sessions[t].user, r));
  }

  lemma ConnectDebt(w: World, a: Action, t: Sid, r: Id)
    requires Structured(w.hub) && Linked(w) && a.Connect?
    requires Watching(w, t, r) && Watching(Step(w, a), t, r)
    ensures DebtOf(Step(w, a), t, r) == DebtOf(w, t, r)
  {
    ConnectIs(w, a.s, a.user);
    if a.s !in w.sessions && UserExists(w.db, a.user) {
      InitBoxes(w.db, w.hub, a.s, a.user, IsAdmin(w.db, a.user));
      QuietDebt(w, Step(w, a), t, r);
    }
  }

  lemma DisconnectDebt(w: World, a: Action, t: Sid, r: Id)
    requires Linked(w) && a.Disconnect?
    requires Watching(w, t, r) && Watching(Step(w, a), t, r)
    ensures DebtOf(Step(w, a), t, r) == DebtOf(w, t, r)
  {
    DisconnectIs(w, a.s);
    if a.s in w.sessions {
      UnsubscribeQuiet(w.hub, a.s);
      QuietDebt(w, Step(w, a), t, r);
    }
  }

  /**
   One step, seen from a session that is subscribed to r and does not show it: the badge plus
   the bumps on their way grow by one if the step posts to r, and by nothing otherwise.
   */
  lemma StepDebt(w: World, a: Action, t: Sid, r: Id)
    requires Valid(w.db) && Structured(w.hub) && Linked(w)
    requires Watching(w, t, r) && Watching(Step(w, a), t, r)
    ensures DebtOf(Step(w, a), t, r) == DebtOf(w, t, r) + (if Posted(w.db, Step(w, a).db, r) then 1 else 0)
  {
    if a.Connect? || a.Disconnect? {
      if a.Connect? { ConnectDebt(w, a, t, r); } else { DisconnectDebt(w, a, t, r); }
      ConnectPostsNothing(w, a);
    } else if IsSessionAction(a) {
      SessionStep(w, a);
      if a.s in w.sessions {
        if a.Say? {
          SayDebt(w, a.s, a.text, a.allowed, t, r);
        } else if a.CmdMsg? {
          MsgDebt(w, a.s, a.handle, a.text, a.allowed, t, r);
        } else if a.Handle? {
          HandleDebt(w, a.s, t, r);
        } else {
          SilentDebt(w, a, t, r);
          SilentPostsNothing(Focus(w, a.s), a);
        }
      }
    } else {
      StorePostsNothing(w, a);
    }
  }

  lemma ConnectPostsNothing(w: World, a: Action)
    requires a.Connect? || a.Disconnect?
    ensures |Step(w, a).db.messages| == |w.db.messages|
  {
  }

  lemma StorePostsNothing(w: World, a: Action)
    requires !IsSessionAction(a) && !a.Connect? && !a.Disconnect?
    ensures |Step(w, a).db.messages| <= |w.db.messages|
    ensures Step(w, a).hub == w.hub && Step(w, a).sessions == w.sessions
  {
    if a.PurgeOld? { FilterShorter(w.db.messages, Survives(a.cutoff)); }
  }

  lemma {:induction false} FilterShorter<T>(s: seq<T>, p: T -> bool)
    ensures |Filter(s, p)| <= |s|
  {
    if s != [] { FilterShorter(s[..|s| - 1], p); }
  }
}
