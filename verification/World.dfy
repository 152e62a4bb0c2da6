/**
 The whole system: one store, one hub and any number of sessions. A step is one command, one
 key that opens a channel, one send, the handling of one queued event, a connection or its end,
 or one run of the admin tool.
 */
module World {
  import opened Database
  import opened HubModel
  import opened SessionModel

  type Sid = nat

  datatype World = World(db: DB, hub: Hub<Sid>, sessions: map<Sid, Session>)

  datatype Action =
    | Register(handle: string, defaultRoom: string, now: int)
    | Connect(s: Sid, user: Id)
    | Disconnect(s: Sid)
    | ShowRoom(s: Sid, room: Id)
    | ShowDM(s: Sid, peer: Id)
    | Say(s: Sid, text: string, allowed: bool)
    | Handle(s: Sid)
    | CmdJoin(s: Sid, name: string)
    | CmdLeave(s: Sid)
    | CmdCreate(s: Sid, name: string, private: bool, now: int)
    | CmdTopic(s: Sid)
    | CmdInvite(s: Sid, handle: string)
    | CmdExpel(s: Sid, handle: string, ban: bool)
    | CmdMsg(s: Sid, handle: string, text: string, allowed: bool)
    | CmdBlock(s: Sid, handle: string, on: bool)
    | CmdDelete(s: Sid, id: Id, now: int)
    | Admin(handle: string, on: bool)
    | PurgeOld(cutoff: int)
    | RemoveRoom(name: string)

  const INITIAL := World(EMPTY, NewHub(), map[])

  function Focus(w: World, s: Sid): Ctx<Sid>
    requires s in w.sessions
  {
    Ctx(w.db, w.hub, s, w.sessions[s])
  }

  function Put(w: World, c: Ctx<Sid>): World {
    World(c.db, c.hub, w.sessions[c.me := c.sess])
  }

  predicate IsAdmin(db: DB, u: Id) { UserExists(db, u) && db.users[u - 1].admin }

  /** A new user joins the default room, which the first registration creates. */
  function Registered(db: DB, h: string, defaultRoom: string, now: int): DB {
    match CreateUser(db, h)
    case Err(_) => db
    case Ok(db1) =>
      var u := |db1.users|;
      var r := RoomByName(db1, defaultRoom);
      var made := if r.Some? then Ok(db1) else CreateRoom(db1, defaultRoom, false, u, now);
      if made.Err? then db1
      else
        var joined := JoinRoom(made.value, if r.Some? then r.value else |made.value.rooms|, u);
        if joined.Ok? then joined.value else made.value
  }

  /** The command of the session that acts. */
  function Act(c: Ctx<Sid>, a: Action): Ctx<Sid> {
    match a
    case ShowRoom(_, r) => if r in c.sess.rooms then OpenRoom(c, r) else c
    case ShowDM(_, p) => OpenDM(c, p)
    case Say(_, text, allowed) => SendCurrent(c, text, allowed)
    case CmdJoin(_, name) => Join(c, name)
    case CmdLeave(_) => Leave(c)
    case CmdCreate(_, name, private, now) => Create(c, name, private, now)
    case CmdTopic(_) => Topic(c)
    case CmdInvite(_, h) => Invite(c, h)
    case CmdExpel(_, h, ban) => Expel(c, h, ban)
    case CmdMsg(_, h, text, allowed) => Msg(c, h, text, allowed)
    case CmdBlock(_, h, on) => Block(c, h, on)
    case CmdDelete(_, id, now) => Delete(c, id, now)
    case Handle(s) =>
      if s == c.me && s in c.hub.boxes && c.hub.boxes[s].queue != [] then
        HandleEvent(c.(hub := Consume(c.hub, s)), c.hub.boxes[s].queue[0])
      else c
    case _ => c
  }

  predicate IsSessionAction(a: Action) {
    !a.Register? && !a.Connect? && !a.Disconnect? && !a.Admin? && !a.PurgeOld? && !a.RemoveRoom?
  }

  function Step(w: World, a: Action): World {
    match a
    case Register(h, room, now) => w.(db := Registered(w.db, h, room, now))
    case Connect(s, u) =>
      if s !in w.sessions && UserExists(w.db, u) then Put(w, Init(w.db, w.hub, s, u, IsAdmin(w.db, u))) else w
    case Disconnect(s) =>
      if s in w.sessions && s in w.hub.boxes then World(w.db, Unsubscribe(w.hub, s), w.sessions - {s}) else w
    case Admin(h, on) => w.(db := SetAdmin(w.db, h, on))
    case PurgeOld(cutoff) => w.(db := Purge(w.db, cutoff))
    case RemoveRoom(name) =>
      var r := RoomByName(w.db, name);
      if r.Some? then w.(db := DeleteRoom(w.db, r.value)) else w
    case _ => if a.s in w.sessions then Put(w, Act(Focus(w, a.s), a)) else w
  }

  function Run(w: World, acts: seq<Action>): World {
    if acts == [] then w else Step(Run(w, acts[..|acts| - 1]), acts[|acts| - 1])
  }
}
