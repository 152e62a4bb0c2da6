/**
 internal/tui/app.go and internal/tui/commands.go: what one session does to the store, the hub
 and its own fields. S is the type of subscribers, as in the hub.
 */
module SessionModel {
  import opened Prelude
  import opened Mentions
  import opened Database
  import opened HubModel

  datatype View = NoView | RoomView(room: Id) | DMView(peer: Id)

  /** The fields of AppModel that the event handlers and the commands read and write. */
  datatype Session = Session(
    user: Id,
    admin: bool,
    rooms: seq<Id>,
    view: View,
    unreadRoom: map<Id, nat>,
    unreadDM: map<Id, nat>,
    mentionRoom: set<Id>
  )

  /** What a session's code can reach: the store, the hub, its subscription and its fields. */
  datatype Ctx<S> = Ctx(db: DB, hub: Hub<S>, me: S, sess: Session)

  const MAX_CREATES := 5
  const DAY := 86400

  predicate ValidRoomName(n: string) {
    1 <= |n| <= 32 && forall i :: 0 <= i < |n| ==> HandleChar(n[i])
  }

  // ----- steps that the handlers are made of -----

  function ToRoom<S(==)>(c: Ctx<S>, r: Id, ev: Event): Ctx<S> { c.(hub := PublishRoom(c.hub, r, ev)) }

  function ToUser<S(==)>(c: Ctx<S>, u: Id, ev: Event): Ctx<S> { c.(hub := PublishUser(c.hub, u, ev)) }

  function RefreshRooms<S>(c: Ctx<S>): Ctx<S> {
    c.(sess := c.sess.(rooms := ListUserRooms(c.db, c.sess.user)))
  }

  function OpenRoom<S>(c: Ctx<S>, r: Id): Ctx<S> {
    c.(db := MarkRoomRead(c.db, c.sess.user, r),
       sess := c.sess.(view := RoomView(r), unreadRoom := c.sess.unreadRoom - {r},
                       mentionRoom := c.sess.mentionRoom - {r}))
  }

  function OpenDM<S>(c: Ctx<S>, p: Id): Ctx<S> {
    c.(db := MarkDMRead(c.db, c.sess.user, p),
       sess := c.sess.(view := DMView(p), unreadDM := c.sess.unreadDM - {p}))
  }

  /** Show the first room of the list, if there is one. */
  function OpenFirst<S>(c: Ctx<S>): Ctx<S> {
    if c.sess.rooms != [] then OpenRoom(c, c.sess.rooms[0]) else c.(sess := c.sess.(view := NoView))
  }

  // ----- Init -----

  function RefreshedUnread(db: DB, s: Session): Session {
    var b := UnreadCounts(db, s.user);
    s.(unreadRoom := b.rooms, unreadDM := b.dms, mentionRoom := set r | r in b.rooms && b.rooms[r] > 0)
  }

  /** The session after the refreshes, before it subscribes. */
  function Opening(db: DB, u: Id, admin: bool): Session {
    RefreshedUnread(db, Session(u, admin, ListUserRooms(db, u), NoView, map[], map[], {}))
  }

  function JoinAll<S(==)>(h: Hub<S>, s: S, rs: seq<Id>): Hub<S> {
    if rs == [] then h else JoinHubRoom(JoinAll(h, s, rs[..|rs| - 1]), s, rs[|rs| - 1])
  }

  function Init<S(==)>(db: DB, hub: Hub<S>, me: S, u: Id, admin: bool): Ctx<S> {
    var x := Opening(db, u, admin);
    OpenFirst(Ctx(db, JoinAll(Subscribe(hub, me, u), me, x.rooms), me, x))
  }

  lemma InitIs<S>(db: DB, hub: Hub<S>, me: S, u: Id, admin: bool, x: Session)
    requires x == Opening(db, u, admin)
    ensures Init(db, hub, me, u, admin) == OpenFirst(Ctx(db, JoinAll(Subscribe(hub, me, u), me, x.rooms), me, x))
  {
  }

  // ----- sending -----

  /** The notify events, one for each notified id. */
  function NotifyAll<S(==)>(h: Hub<S>, r: Id, us: seq<Id>): Hub<S> {
    if us == [] then h
    else PublishUser(NotifyAll(h, r, us[..|us| - 1]), us[|us| - 1], Notify(us[|us| - 1], r))
  }

  /** A stored room message goes to the room, and a notify to every notified user. */
  function PublishSent<S(==)>(c: Ctx<S>, r: Id, sent: Sent): Ctx<S> {
    var us := sent.notified;
    var h := PublishRoom(c.hub, r, RoomMsg(r, sent.msg, set x | x in us));
    c.(hub := NotifyAll(h, r, us))
  }

  /** Parse the mentions, resolve them and insert the message. */
  function StoreMessage<S>(c: Ctx<S>, r: Id, body: string): (DB, Result<Sent>) {
    InsertRoomMessage(c.db, r, c.sess.user, body, ResolveHandles(c.db.users, Mentioned(body)))
  }

  function SendToRoom<S(==)>(c: Ctx<S>, r: Id, body: string): Ctx<S> {
    if (r, c.sess.user) !in c.db.members then c
    else
      var (db, res) := StoreMessage(c, r, body);
      if res.Err? then c else PublishSent(c.(db := db), r, res.value)
  }

  function SendToPeer<S(==)>(c: Ctx<S>, p: Id, body: string): Ctx<S> {
    var u := c.sess.user;
    if (p, u) in c.db.blocks then c
    else
      var (db, res) := InsertDM(c.db, u, p, body);
      if res.Err? then c
      else ToUser(ToUser(c.(db := db), p, DmMsg(p, u, res.value)), u, DmMsg(u, p, res.value))
  }

  /** allowed is the answer of the rate limiter. */
  function SendCurrent<S(==)>(c: Ctx<S>, text: string, allowed: bool): Ctx<S> {
    if !allowed then c
    else
      match c.sess.view
      case NoView => c
      case RoomView(r) => SendToRoom(c, r, Truncate(text))
      case DMView(p) => SendToPeer(c, p, Truncate(text))
  }

  // ----- receiving -----

  function HandleEvent<S(==)>(c: Ctx<S>, ev: Event): Ctx<S> {
    var x := c.sess;
    match ev
    case RoomMsg(r, msg, mentionSet) =>
      if x.view == RoomView(r) then c.(db := MarkRoomRead(c.db, x.user, r))
      else if x.user !in mentionSet then c.(sess := x.(unreadRoom := Bump(x.unreadRoom, r)))
      else c
    case DmMsg(_, peer, msg) =>
      if x.view == DMView(peer) then c.(db := MarkDMRead(c.db, x.user, peer))
      else if msg.author != x.user then c.(sess := x.(unreadDM := Bump(x.unreadDM, peer)))
      else c
    case MsgDeleted(_) => c
    case Presence(_, _) => c
    case Notify(_, r) => c.(sess := x.(mentionRoom := x.mentionRoom + {r}, unreadRoom := Bump(x.unreadRoom, r)))
    case RoomMeta(_) => RefreshRooms(c)
    case RoomRemoved(r, _) =>
      var c1 := RefreshRooms(c.(hub := LeaveHubRoom(c.hub, c.me, r)));
      if x.view == RoomView(r) then OpenFirst(c1) else c1
  }

  // ----- slash commands -----

  /** The session lists its rooms again and subscribes to r. */
  function EnterRoom<S(==)>(c: Ctx<S>, r: Id): Ctx<S> {
    var c1 := RefreshRooms(c);
    c1.(hub := JoinHubRoom(c1.hub, c1.me, r))
  }

  /** The room that /join may enter: it exists and is public, or the user is in it. */
  function JoinTarget<S>(c: Ctx<S>, name: string): Option<Id> {
    var r := RoomByName(c.db, name);
    if !ValidRoomName(name) || r.None? then None
    else if c.db.rooms[r.value - 1].private && (r.value, c.sess.user) !in c.db.members then None
    else r
  }

  function Join<S(==)>(c: Ctx<S>, name: string): Ctx<S> {
    match JoinTarget(c, name)
    case None => c
    case Some(r) =>
      match JoinRoom(c.db, r, c.sess.user)
      case Err(_) => c
      case Ok(db) => OpenRoom(ToRoom(EnterRoom(c.(db := db), r), r, RoomMeta(r)), r)
  }

  function Leave<S(==)>(c: Ctx<S>): Ctx<S> {
    if !c.sess.view.RoomView? then c
    else
      var r := c.sess.view.room;
      var c1 := c.(db := RemoveMember(c.db, r, c.sess.user), hub := LeaveHubRoom(c.hub, c.me, r));
      ToRoom(OpenFirst(RefreshRooms(c1)), r, RoomMeta(r))
  }

  function Create<S(==)>(c: Ctx<S>, name: string, private: bool, now: int): Ctx<S> {
    if !ValidRoomName(name) || CountRoomCreates(c.db.rooms, c.sess.user, now - DAY) >= MAX_CREATES
       || RoomByName(c.db, name).Some? then c
    else
      match CreateRoom(c.db, name, private, c.sess.user, now)
      case Err(_) => c
      case Ok(db) => OpenRoom(EnterRoom(c.(db := db), |db.rooms|), |db.rooms|)
  }

  predicate MayModerate<S>(c: Ctx<S>) {
    c.sess.view.RoomView? && (Moderates(c.db, c.sess.view.room, c.sess.user) || c.sess.admin)
  }

  function Topic<S(==)>(c: Ctx<S>): Ctx<S> {
    if !c.sess.view.RoomView? then c
    else
      var r, u := c.sess.view.room, c.sess.user;
      if ((r, u) in c.db.members && c.db.members[(r, u)] == Owner) || c.sess.admin then ToRoom(c, r, RoomMeta(r))
      else c
  }

  function Invite<S(==)>(c: Ctx<S>, h: string): Ctx<S> {
    var u := UserByHandle(c.db, h);
    if !MayModerate(c) || u.None? then c
    else
      var r := c.sess.view.room;
      match JoinRoom(c.db, r, u.value)
      case Err(_) => c
      case Ok(db) => ToRoom(c.(db := db), r, RoomMeta(r))
  }

  function ExpelUser<S(==)>(c: Ctx<S>, r: Id, u: Id, ban: bool): Ctx<S> {
    var db := if ban then BanFromRoom(c.db, r, u) else RemoveMember(c.db, r, u);
    ToRoom(c.(db := db, hub := RemoveUserFromRoom(c.hub, u, r)), r, RoomMeta(r))
  }

  /** /kick, and /ban when ban is set. */
  function Expel<S(==)>(c: Ctx<S>, h: string, ban: bool): Ctx<S> {
    var u := UserByHandle(c.db, h);
    if !MayModerate(c) || u.None? then c
    else
      ExpelUser(c, c.sess.view.room, u.value, ban)
  }

  function Msg<S(==)>(c: Ctx<S>, h: string, text: string, allowed: bool): Ctx<S> {
    var u := UserByHandle(c.db, h);
    if u.None? || u.value == c.sess.user then c
    else
      var c1 := OpenDM(c, u.value);
      if text != "" then SendCurrent(c1, text, allowed) else c1
  }

  function Block<S(==)>(c: Ctx<S>, h: string, on: bool): Ctx<S> {
    var u := UserByHandle(c.db, h);
    if u.None? then c else c.(db := SetBlock(c.db, c.sess.user, u.value, on))
  }

  function Delete<S(==)>(c: Ctx<S>, id: Id, now: int): Ctx<S> {
    var m := Find(c.db.messages, id);
    if m.None? || !(c.sess.admin || CanRead(c.db, c.sess.user, m.value)) then c
    else
      match DeleteMessageForUser(c.db, id, c.sess.user, c.sess.admin, now)
      case Err(_) => c
      case Ok(db) =>
        var c1 := c.(db := db);
        if m.value.place.InRoom? then ToRoom(c1, m.value.place.room, MsgDeleted(m.value.place.room)) else c1
  }
}
