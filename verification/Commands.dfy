/** What each command of internal/tui/commands.go brings about, and when it does nothing at all. */
module CommandLaws {
  import opened Prelude
  import opened Database
  import opened StoreLaws
  import opened RowLaws
  import opened Sanitizer
  import opened Mentions
  import opened HubModel
  import opened SessionModel
  import opened World
  import opened Safety
  import opened BadgeLaws

  // ----- names -----

  /** Handles are distinct, and so are room names, ignoring case. */
  ghost predicate NamesUnique(db: DB) {
    && (forall i, j :: 0 <= i < j < |db.users| ==> Lower(db.users[i].handle) != Lower(db.users[j].handle))
    && (forall i, j :: 0 <= i < j < |db.rooms| ==> Lower(db.rooms[i].name) != Lower(db.rooms[j].name))
  }

  /** With unique names, a lookup finds the one row that has the name, and finds it whenever it is there. */
  lemma LookupsInvert(db: DB, u: Id, r: Id)
    requires NamesUnique(db)
    ensures UserExists(db, u) ==> UserByHandle(db, db.users[u - 1].handle) == Some(u)
    ensures RoomExists(db, r) && !db.rooms[r - 1].deleted ==> RoomByName(db, db.rooms[r - 1].name) == Some(r)
  {
    if UserExists(db, u) { FindHandleExact(db.users, db.users[u - 1].handle); }
    if RoomExists(db, r) { FindRoomExact(db.rooms, db.rooms[r - 1].name, true); }
  }

  lemma CreationKeepsNames(db: DB, h: string, name: string, private: bool, owner: Id, now: int)
    requires NamesUnique(db)
    ensures CreateUser(db, h).Ok? ==> NamesUnique(CreateUser(db, h).value)
    ensures CreateRoom(db, name, private, owner, now).Ok? ==> NamesUnique(CreateRoom(db, name, private, owner, now).value)
  {
    FindHandleExact(db.users, h);
    FindRoomExact(db.rooms, name, false);
  }

  ghost predicate SameNames(db: DB, db': DB) {
    && |db'.users| == |db.users| && |db'.rooms| == |db.rooms|
    && (forall i :: 0 <= i < |db.users| ==> db'.users[i].handle == db.users[i].handle)
    && (forall i :: 0 <= i < |db.rooms| ==> db'.rooms[i].name == db.rooms[i].name)
  }

  lemma SameNamesKeep(db: DB, db': DB)
    requires NamesUnique(db) && SameNames(db, db')
    ensures NamesUnique(db')
  {
  }

  lemma SentNames(c: Ctx<Sid>, text: string, allowed: bool)
    ensures SendCurrent(c, text, allowed).db.users == c.db.users && SendCurrent(c, text, allowed).db.rooms == c.db.rooms
  {
  }

  lemma MessageNames(c: Ctx<Sid>, a: Action)
    requires a.Say? || a.CmdMsg?
    ensures Act(c, a).db.users == c.db.users && Act(c, a).db.rooms == c.db.rooms
  {
    ActIs(c, a);
    if a.Say? {
      SentNames(c, a.text, a.allowed);
    } else {
      MsgIs(c, a.handle, a.text, a.allowed, UserByHandle(c.db, a.handle));
      if UserByHandle(c.db, a.handle).Some? { SentNames(OpenDM(c, UserByHandle(c.db, a.handle).value), a.text, a.allowed); }
    }
  }

  lemma ActNames(c: Ctx<Sid>, a: Action)
    requires !a.CmdCreate?
    ensures Act(c, a).db.users == c.db.users && Act(c, a).db.rooms == c.db.rooms
  {
    if a.Say? || a.CmdMsg? { MessageNames(c, a); }
  }

  lemma CreateNames(c: Ctx<Sid>, a: Action)
    requires NamesUnique(c.db) && a.CmdCreate?
    ensures NamesUnique(Act(c, a).db)
  {
    CreationKeepsNames(c.db, "", a.name, a.private, c.sess.user, a.now);
  }

  lemma SessionNames(c: Ctx<Sid>, a: Action)
    requires NamesUnique(c.db)
    ensures NamesUnique(Act(c, a).db)
  {
    if a.CmdCreate? { CreateNames(c, a); } else { ActNames(c, a); }
  }

  lemma RegisteredNames(db: DB, h: string, room: string, now: int)
    requires NamesUnique(db)
    ensures NamesUnique(Registered(db, h, room, now))
  {
    CreationKeepsNames(db, h, "", false, 0, now);
    if CreateUser(db, h).Ok? {
      var db1 := CreateUser(db, h).value;
      CreationKeepsNames(db1, "", room, false, |db1.users|, now);
    }
  }

  /** Every step keeps names unique, so each mention and each command names one user or room. */
  lemma StepKeepsNames(w: World, a: Action)
    requires NamesUnique(w.db)
    ensures NamesUnique(Step(w, a).db)
  {
    if a.Register? {
      RegisteredNames(w.db, a.handle, a.defaultRoom, a.now);
    } else if IsSessionAction(a) {
      SessionStep(w, a);
      if a.s in w.sessions { SessionNames(Focus(w, a.s), a); }
    } else {
      OtherNames(w, a);
      SameNamesKeep(w.db, Step(w, a).db);
    }
  }

  lemma OtherNames(w: World, a: Action)
    requires !IsSessionAction(a) && !a.Register?
    ensures SameNames(w.db, Step(w, a).db)
  {
    if a.Connect? {
      ConnectIs(w, a.s, a.user);
      InitNames(w.db, w.hub, a.s, a.user, IsAdmin(w.db, a.user));
    } else if a.Disconnect? {
      DisconnectIs(w, a.s);
    }
  }

  lemma InitNames(db: DB, hub: Hub<Sid>, s: Sid, u: Id, admin: bool)
    ensures Init(db, hub, s, u, admin).db.users == db.users && Init(db, hub, s, u, admin).db.rooms == db.rooms
  {
  }

  // ----- connecting and leaving -----

  lemma {:induction false} JoinAllExact(h: Hub<Sid>, s: Sid, rs: seq<Id>, t: Sid, r: Id)
    ensures t in At(JoinAll(h, s, rs).rooms, r) <==> t in At(h.rooms, r) || (t == s && r in rs)
  {
    if rs != [] {
      var n := |rs| - 1;
      assert rs == rs[..n] + [rs[n]];
      JoinAllExact(h, s, rs[..n], t, r);
    }
  }

  lemma InitSession(db: DB, hub: Hub<Sid>, s: Sid, u: Id, admin: bool)
    ensures var x, rs := Init(db, hub, s, u, admin).sess, ListUserRooms(db, u);
            && x.rooms == rs && x.user == u && x.admin == admin
            && x.view == (if rs == [] then NoView else RoomView(rs[0]))
            && x.unreadDM == UnreadCounts(db, u).dms
            && (forall r :: r in x.mentionRoom <==> x.view != RoomView(r) && Get(UnreadCounts(db, u).rooms, r) > 0)
            && x.unreadRoom == UnreadCounts(db, u).rooms - (if rs == [] then {} else {rs[0]})
  {
  }

  /**
   A new session is subscribed to exactly the rooms of its user that are not deleted, shows the first of
   them, and starts with badges that are the store's counts. Nobody else's subscriptions change.
   */
  lemma ConnectTakesHold(db: DB, hub: Hub<Sid>, s: Sid, u: Id, admin: bool)
    requires Valid(db) && Structured(hub) && s !in hub.boxes
    ensures var c := Init(db, hub, s, u, admin);
            && c.sess.user == u && c.sess.admin == admin
            && (forall r :: s in At(c.hub.rooms, r) <==> (r, u) in db.members && !db.rooms[r - 1].deleted)
            && (forall t, r :: t != s ==> (t in At(c.hub.rooms, r) <==> t in At(hub.rooms, r)))
            && (c.sess.view == if c.sess.rooms == [] then NoView else RoomView(c.sess.rooms[0]))
            && (forall r :: Get(c.sess.unreadRoom, r) == if c.sess.view == RoomView(r) then 0 else RoomUnread(db, u, r))
            && (forall p :: Get(c.sess.unreadDM, p) == PeerUnread(db, u, p))
  {
    var h1, rs := Subscribe(hub, s, u), ListUserRooms(db, u);
    InitHub(db, hub, s, u, admin);
    InitSession(db, hub, s, u, admin);
    UnreadIsConserved(db, u);
    forall t, r ensures t in At(JoinAll(h1, s, rs).rooms, r) <==> t in At(hub.rooms, r) || (t == s && r in rs) {
      JoinAllExact(h1, s, rs, t, r);
    }
    forall r ensures r in rs <==> (r, u) in db.members && !db.rooms[r - 1].deleted { ListedRoomsAreMemberships(db, u, r); }
    forall r ensures s !in At(hub.rooms, r) {}
  }

  /** Its marks are the rooms out of view where the user has unread mentions. */
  lemma ConnectMarks(db: DB, hub: Hub<Sid>, s: Sid, u: Id, admin: bool, r: Id)
    requires Valid(db)
    ensures var x := Init(db, hub, s, u, admin).sess;
            r in x.mentionRoom <==> x.view != RoomView(r) && RoomUnread(db, u, r) > 0
  {
    InitSession(db, hub, s, u, admin);
    UnreadIsConserved(db, u);
  }

  /** A disconnected session is in no room, and the others stay where they were. */
  lemma DisconnectTakesHold(h: Hub<Sid>, s: Sid, t: Sid, r: Id)
    requires Structured(h) && s in h.boxes
    ensures s !in Unsubscribe(h, s).boxes && s !in At(Unsubscribe(h, s).rooms, r)
    ensures t != s ==> (t in At(Unsubscribe(h, s).rooms, r) <==> t in At(h.rooms, r))
  {
    UnsubscribeStructured(h, s);
    if t != s && t in At(h.rooms, r) { assert h.rooms[r] != {s}; }
  }

  // ----- rooms -----

  /** Only u's membership of r may differ. */
  ghost predicate OnlyMembership(db: DB, db': DB, r: Id, u: Id) {
    && db'.messages == db.messages && db'.rooms == db.rooms && db'.users == db.users && db'.blocks == db.blocks
    && (forall x :: x != (r, u) ==> (x in db'.members <==> x in db.members))
    && (forall x :: x != (r, u) && x in db.members ==> db'.members[x] == db.members[x])
  }

  ghost predicate Entered(c: Ctx<Sid>, c': Ctx<Sid>, r: Id) {
    && (r, c.sess.user) in c'.db.members && c.me in At(c'.hub.rooms, r)
    && r in c'.sess.rooms && c'.sess.view == RoomView(r)
    && Get(c'.sess.unreadRoom, r) == 0 && RoomUnread(c'.db, c.sess.user, r) == 0
  }

  lemma OpensRead(db: DB, u: Id, r: Id)
    requires Valid(db)
    ensures RoomUnread(MarkRoomRead(db, u, r), u, r) == 0
  {
    MarkRoomReadExact(db, u, r);
  }

  /** A room name is 1 to 32 runes of a handle's alphabet. */
  ghost predicate GoodRoomName(n: string) { 1 <= |n| <= 32 && forall i :: 0 <= i < |n| ==> HandleChar(n[i]) }

  /** The role in the room is what it was, or that of a plain member if there was none. */
  ghost predicate PlainUnlessMember(db: DB, db': DB, r: Id, u: Id) {
    (r, u) in db'.members && db'.members[(r, u)] == if (r, u) in db.members then db.members[(r, u)] else Member
  }

  /**
   /join: a live room that is public or already the user's, unless banned; otherwise nothing happens. Who joins is a
   plain member.
   */
  lemma JoinTakesHold(c: Ctx<Sid>, name: string)
    requires Valid(c.db)
    ensures var c', r, u := Join(c, name), RoomByName(c.db, name), c.sess.user;
            if GoodRoomName(name) && r.Some? && UserExists(c.db, u) && (r.value, u) !in c.db.bans
               && (!c.db.rooms[r.value - 1].private || (r.value, u) in c.db.members)
            then Entered(c, c', r.value) && OnlyMembership(c.db, c'.db, r.value, u)
                 && PlainUnlessMember(c.db, c'.db, r.value, u)
            else c' == c
  {
    var r, u := JoinTarget(c, name), c.sess.user;
    JoinIs(c, name);
    if r.Some? && JoinRoom(c.db, r.value, u).Ok? {
      var db := JoinRoom(c.db, r.value, u).value;
      FindRoomExact(c.db.rooms, name, true);
      MembershipKeepsValid(c.db, r.value, u);
      EnterEnters(c.(db := db), r.value, RoomMeta(r.value));
    }
  }

  lemma JoinIs(c: Ctx<Sid>, name: string)
    ensures var r, u := JoinTarget(c, name), c.sess.user;
            Join(c, name)
            == if r.Some? && JoinRoom(c.db, r.value, u).Ok? then
                 var c1 := EnterRoom(c.(db := JoinRoom(c.db, r.value, u).value), r.value);
                 OpenRoom(ToRoom(c1, r.value, RoomMeta(r.value)), r.value)
               else c
  {
  }

  /** Entering and opening a live room that the user is a member of. */
  lemma EnterEnters(c: Ctx<Sid>, r: Id, ev: Event)
    requires Valid(c.db) && (r, c.sess.user) in c.db.members && !c.db.rooms[r - 1].deleted
    ensures Entered(c, OpenRoom(EnterRoom(c, r), r), r) && Entered(c, OpenRoom(ToRoom(EnterRoom(c, r), r, ev), r), r)
  {
    ListedRoomsAreMemberships(c.db, c.sess.user, r);
    OpensRead(c.db, c.sess.user, r);
  }

  /** /leave: out of the room in the store and, this session, in the hub; then on to the first room left. */
  lemma LeaveTakesHold(c: Ctx<Sid>)
    requires Valid(c.db)
    ensures var c', u := Leave(c), c.sess.user;
            if !c.sess.view.RoomView? then c' == c
            else
              var r := c.sess.view.room;
              && (r, u) !in c'.db.members && OnlyMembership(c.db, c'.db, r, u) && c.me !in At(c'.hub.rooms, r)
              && r !in c'.sess.rooms
              && c'.sess.view == if c'.sess.rooms == [] then NoView else RoomView(c'.sess.rooms[0])
  {
    if c.sess.view.RoomView? {
      var r, u := c.sess.view.room, c.sess.user;
      MembershipKeepsValid(c.db, r, u);
      ListedRoomsAreMemberships(RemoveMember(c.db, r, u), u, r);
    }
  }

  /**
   /create: a valid name that no room ever had, fewer than five rooms in the last day. The creator owns and
   shows the new room, and has still made at most five.
   */
  lemma CreateTakesHold(c: Ctx<Sid>, name: string, private: bool, now: int)
    requires Valid(c.db)
    ensures var c', u, r := Create(c, name, private, now), c.sess.user, |c.db.rooms| + 1;
            if GoodRoomName(name) && FindRoom(c.db.rooms, name, false).None? && UserExists(c.db, u)
               && Count(c.db.rooms, MadeAfter(u, now - 24 * 60 * 60)) < 5
            then Entered(c, c', r) && c'.db.members[(r, u)] == Owner && OthersMembers(c.db, c'.db, r, u)
                 && c'.db.rooms == c.db.rooms + [Room(name, private, u, now, false)] && c'.db.bans == c.db.bans
                 && Count(c'.db.rooms, MadeAfter(u, now - 24 * 60 * 60)) <= 5
            else c' == c
  {
    FindRoomExact(c.db.rooms, name, false);
    FindRoomExact(c.db.rooms, name, true);
    CreatesAreCounted(c.db.rooms, c.sess.user, now - DAY);
    if Create(c, name, private, now) != c {
      var db := CreateRoom(c.db, name, private, c.sess.user, now).value;
      CreateRoomKeepsValid(c.db, name, private, c.sess.user, now);
      EnterEnters(c.(db := db), |db.rooms|, RoomMeta(|db.rooms|));
      CountSnoc(c.db.rooms, db.rooms[|c.db.rooms|], MadeAfter(c.sess.user, now - DAY));
    }
  }

  /** The session shows a room that its user owns or moderates, or its user is an admin. */
  ghost predicate Ranks(c: Ctx<Sid>) {
    c.sess.view.RoomView? &&
      var key := (c.sess.view.room, c.sess.user);
      c.sess.admin || (key in c.db.members && (c.db.members[key] == Owner || c.db.members[key] == Moderator))
  }

  lemma RanksModerate(c: Ctx<Sid>)
    ensures Ranks(c) <==> MayModerate(c)
  {
  }

  /** /invite: a moderator or admin adds a user who is not banned, in the store only. */
  lemma InviteTakesHold(c: Ctx<Sid>, h: string)
    requires Valid(c.db)
    ensures var c', u := Invite(c, h), UserByHandle(c.db, h);
            if Ranks(c) && u.Some? && RoomExists(c.db, c.sess.view.room) && (c.sess.view.room, u.value) !in c.db.bans
            then PlainUnlessMember(c.db, c'.db, c.sess.view.room, u.value)
                 && OnlyMembership(c.db, c'.db, c.sess.view.room, u.value)
                 && c'.hub.rooms == c.hub.rooms && c'.sess == c.sess
            else c' == c
  {
    RanksModerate(c);
  }

  /**
   /kick and /ban: out of the room in the store and, every session of the user, in the hub, where each is
   told; a ban is recorded besides. No other membership, ban or subscription changes.
   */
  lemma ExpelTakesHold(c: Ctx<Sid>, h: string, ban: bool)
    requires Valid(c.db) && Structured(c.hub)
    ensures var c', u := Expel(c, h, ban), UserByHandle(c.db, h);
            if Ranks(c) && u.Some? then Expelled(c, c', c.sess.view.room, u.value, ban) else c' == c
  {
    RanksModerate(c);
    if MayModerate(c) && UserByHandle(c.db, h).Some? {
      ExpelledHub(c.hub, c.sess.view.room, UserByHandle(c.db, h).value, RoomMeta(c.sess.view.room));
    }
  }

  ghost predicate Expelled(c: Ctx<Sid>, c': Ctx<Sid>, r: Id, u: Id, ban: bool) {
    && (r, u) !in c'.db.members && OnlyMembership(c.db, c'.db, r, u) && c'.sess == c.sess
    && c'.db.bans == (if ban && RoomExists(c.db, r) then c.db.bans + {(r, u)} else c.db.bans)
    && OutOfRoom(c.hub, c'.hub, r, u)
  }

  ghost predicate SameSeat(h: Hub<Sid>, h': Hub<Sid>, s: Sid, k: Id) { s in At(h'.rooms, k) <==> s in At(h.rooms, k) }

  ghost predicate OutOfRoom(h: Hub<Sid>, h': Hub<Sid>, r: Id, u: Id) {
    && (forall s :: s in At(h'.rooms, r) && s in h'.boxes ==> h'.boxes[s].user != u)
    && (forall s :: s in SubsOf(h, u, r) ==> s in h'.boxes && RoomRemoved(r, u) in h'.boxes[s].addressed)
    && (forall s, k :: k != r || (s in h.boxes && h.boxes[s].user != u) ==> SameSeat(h, h', s, k))
  }

  lemma RemovedHub(h: Hub<Sid>, r: Id, u: Id)
    requires Structured(h)
    ensures OutOfRoom(h, RemoveUserFromRoom(h, u, r), r, u)
  {
    var h' := RemoveUserFromRoom(h, u, r);
    forall s | s in SubsOf(h, u, r) ensures s in h'.boxes && RoomRemoved(r, u) in h'.boxes[s].addressed {
      RemovedTold(h, r, u, s);
    }
    forall s | s in At(h'.rooms, r) && s in h'.boxes ensures h'.boxes[s].user != u { RemovedSeats(h, r, u, s, r); }
    forall s, k | k != r || (s in h.boxes && h.boxes[s].user != u) ensures SameSeat(h, h', s, k) {
      RemovedSeats(h, r, u, s, k);
    }
  }

  lemma RemovedTold(h: Hub<Sid>, r: Id, u: Id, s: Sid)
    requires s in SubsOf(h, u, r)
    ensures s in RemoveUserFromRoom(h, u, r).boxes
    ensures RoomRemoved(r, u) in RemoveUserFromRoom(h, u, r).boxes[s].addressed
  {
    assert RemoveUserFromRoom(h, u, r).boxes[s].addressed[|h.boxes[s].addressed|] == RoomRemoved(r, u);
  }

  lemma RemovedSeats(h: Hub<Sid>, r: Id, u: Id, s: Sid, k: Id)
    ensures s in At(RemoveUserFromRoom(h, u, r).rooms, k) <==> s in At(h.rooms, k) && !(k == r && s in SubsOf(h, u, r))
    ensures s in h.boxes ==>
              s in RemoveUserFromRoom(h, u, r).boxes && RemoveUserFromRoom(h, u, r).boxes[s].user == h.boxes[s].user
    ensures RemoveUserFromRoom(h, u, r).boxes.Keys == h.boxes.Keys
  {
  }

  lemma PublishKeepsOut(h: Hub<Sid>, h1: Hub<Sid>, r: Id, u: Id, ev: Event)
    requires OutOfRoom(h, h1, r, u)
    ensures OutOfRoom(h, PublishRoom(h1, r, ev), r, u)
  {
    var h2 := PublishRoom(h1, r, ev);
    assert h2.rooms == h1.rooms;
    forall s, k | k != r || (s in h.boxes && h.boxes[s].user != u) ensures SameSeat(h, h2, s, k) {
      assert SameSeat(h, h1, s, k);
    }
    forall s | s in SubsOf(h, u, r) ensures s in h2.boxes && RoomRemoved(r, u) in h2.boxes[s].addressed {
      var i :| 0 <= i < |h1.boxes[s].addressed| && h1.boxes[s].addressed[i] == RoomRemoved(r, u);
      assert h2.boxes[s].addressed[i] == RoomRemoved(r, u);
    }
  }

  lemma ExpelledHub(h: Hub<Sid>, r: Id, u: Id, ev: Event)
    requires Structured(h)
    ensures OutOfRoom(h, PublishRoom(RemoveUserFromRoom(h, u, r), r, ev), r, u)
  {
    RemovedHub(h, r, u);
    PublishKeepsOut(h, RemoveUserFromRoom(h, u, r), r, u, ev);
  }

  /** A session told that its user is out of r leaves r in the hub, drops it from its list and from view. */
  lemma RemovalTakesHold(c: Ctx<Sid>, r: Id, v: Id)
    requires Valid(c.db) && (r, c.sess.user) !in c.db.members
    ensures var c' := HandleEvent(c, RoomRemoved(r, v));
            && c.me !in At(c'.hub.rooms, r) && r !in c'.sess.rooms && c'.sess.view != RoomView(r)
            && (c.sess.view != RoomView(r) ==> c'.sess.view == c.sess.view)
  {
    ListedRoomsAreMemberships(c.db, c.sess.user, r);
  }

  lemma RemovalDropped(h: Hub<Sid>, r: Id, u: Id, t: Sid, ev: Event)
    requires t in SubsOf(h, u, r) && |h.boxes[t].queue| >= CAPACITY
    ensures var h' := PublishRoom(RemoveUserFromRoom(h, u, r), r, ev);
            && t in h'.boxes && t !in At(h'.rooms, r) && h'.boxes[t].queue == h.boxes[t].queue
            && h'.boxes[t].dropped == h.boxes[t].dropped + [RoomRemoved(r, u)]
  {
    RemovedSeats(h, r, u, t, r);
  }

  /**
   A session that shows the room its user is expelled from, with a full queue, is never told: it goes on showing
   the room, out of which it has been taken, and whatever it says there changes nothing.
   */
  lemma DroppedRemovalLeavesView(c: Ctx<Sid>, h: string, ban: bool, t: Ctx<Sid>, text: string, allowed: bool)
    requires MayModerate(c) && UserByHandle(c.db, h) == Some(t.sess.user) && t.sess.view == c.sess.view
    requires t.me in SubsOf(c.hub, t.sess.user, c.sess.view.room) && |c.hub.boxes[t.me].queue| >= CAPACITY
    requires t.db == Expel(c, h, ban).db && t.hub == Expel(c, h, ban).hub
    requires RoomExists(c.db, c.sess.view.room)
    ensures var r, b := c.sess.view.room, c.hub.boxes[t.me];
            && t.me in t.hub.boxes && t.me !in At(t.hub.rooms, r) && t.hub.boxes[t.me].queue == b.queue
            && t.hub.boxes[t.me].dropped == b.dropped + [RoomRemoved(r, t.sess.user)]
            && SendCurrent(t, text, allowed) == t
  {
    RemovalDropped(c.hub, c.sess.view.room, t.sess.user, t.me, RoomMeta(c.sess.view.room));
  }

  /** What a session shows, lists and counts changes by its own actions only, whoever else does what. */
  lemma OthersLeaveSession(w: World, a: Action, t: Sid)
    requires t in w.sessions && (IsSessionAction(a) || a.Disconnect? ==> a.s != t)
    ensures t in Step(w, a).sessions && Step(w, a).sessions[t] == w.sessions[t]
  {
    if a.Connect? {
      ConnectIs(w, a.s, a.user);
      InitHub(w.db, w.hub, a.s, a.user, IsAdmin(w.db, a.user));
    } else if a.Disconnect? {
      DisconnectIs(w, a.s);
    } else if IsSessionAction(a) {
      SessionStep(w, a);
      if a.s in w.sessions { ActSameUser(Focus(w, a.s), a); }
    } else {
      StoreStep(w, a);
    }
  }

  /** A session told of a change lists exactly the live rooms of its user. */
  lemma RefreshTakesHold(c: Ctx<Sid>, r: Id, k: Id)
    requires Valid(c.db)
    ensures k in HandleEvent(c, RoomMeta(r)).sess.rooms <==> (k, c.sess.user) in c.db.members && !c.db.rooms[k - 1].deleted
  {
    ListedRoomsAreMemberships(c.db, c.sess.user, k);
  }

  /** /topic: the owner or an admin, and nobody else, has the room told; the rest stays. */
  lemma TopicTakesHold(c: Ctx<Sid>, t: Sid)
    requires t in c.hub.boxes
    ensures var c' := Topic(c);
            var may := c.sess.view.RoomView?
                       && (c.sess.admin || ((c.sess.view.room, c.sess.user) in c.db.members
                                            && c.db.members[(c.sess.view.room, c.sess.user)] == Owner));
            && c'.db == c.db && c'.sess == c.sess && c'.hub.rooms == c.hub.rooms && t in c'.hub.boxes
            && c'.hub.boxes[t].addressed
               == c.hub.boxes[t].addressed
                  + (if may && t in At(c.hub.rooms, c.sess.view.room) then [RoomMeta(c.sess.view.room)] else [])
  {
    assert c.hub.boxes[t].addressed + [] == c.hub.boxes[t].addressed;
  }

  // ----- the rows that sessions refer to -----

  /** The session's user, the rooms it lists and the room in view exist. */
  ghost predicate Refers(db: DB, x: Session) {
    && UserExists(db, x.user)
    && (forall r :: r in x.rooms ==> RoomExists(db, r))
    && (x.view.RoomView? ==> RoomExists(db, x.view.room))
  }

  ghost predicate AllRefer(w: World) { forall s :: s in w.sessions ==> Refers(w.db, w.sessions[s]) }

  /** Users and rooms are never deleted. */
  ghost predicate Larger(db: DB, db': DB) { |db.users| <= |db'.users| && |db.rooms| <= |db'.rooms| }

  lemma ActLarger(c: Ctx<Sid>, a: Action)
    ensures Larger(c.db, Act(c, a).db)
  {
    if !a.CmdCreate? { ActNames(c, a); }
  }

  lemma RefreshRefers(c: Ctx<Sid>)
    requires Refers(c.db, c.sess)
    ensures Refers(RefreshRooms(c).db, RefreshRooms(c).sess)
  {
    var ids := ListUserRooms(c.db, c.sess.user);
    forall r | r in ids ensures RoomExists(c.db, r) {
      var i :| 0 <= i < |ids| && ids[i] == r;
    }
  }

  lemma OpenRefers(c: Ctx<Sid>, r: Id)
    requires Refers(c.db, c.sess)
    ensures RoomExists(c.db, r) ==> Refers(OpenRoom(c, r).db, OpenRoom(c, r).sess)
    ensures Refers(OpenDM(c, r).db, OpenDM(c, r).sess)
    ensures Refers(OpenFirst(c).db, OpenFirst(c).sess)
  {
    if c.sess.rooms != [] { assert c.sess.rooms[0] in c.sess.rooms; }
  }

  lemma EnterRefers(c: Ctx<Sid>, r: Id, ev: Event)
    requires Refers(c.db, c.sess) && RoomExists(c.db, r)
    ensures var c1 := OpenRoom(EnterRoom(c, r), r); Refers(c1.db, c1.sess)
    ensures var c1 := OpenRoom(ToRoom(EnterRoom(c, r), r, ev), r); Refers(c1.db, c1.sess)
  {
    RefreshRefers(c);
    OpenRefers(EnterRoom(c, r), r);
  }

  lemma SeatRefers(c: Ctx<Sid>, a: Action)
    requires Refers(c.db, c.sess) && (a.CmdJoin? || a.CmdLeave? || a.CmdCreate?)
    ensures Refers(Act(c, a).db, Act(c, a).sess)
  {
    match a
    case CmdJoin(_, name) =>
      var r := JoinTarget(c, name);
      JoinIs(c, name);
      if r.Some? && JoinRoom(c.db, r.value, c.sess.user).Ok? {
        EnterRefers(c.(db := JoinRoom(c.db, r.value, c.sess.user).value), r.value, RoomMeta(r.value));
      }
    case CmdLeave(_) =>
      if c.sess.view.RoomView? {
        var r := c.sess.view.room;
        var c1 := c.(db := RemoveMember(c.db, r, c.sess.user), hub := LeaveHubRoom(c.hub, c.me, r));
        RefreshRefers(c1);
        OpenRefers(RefreshRooms(c1), r);
      }
    case CmdCreate(_, name, private, now) =>
      if Create(c, name, private, now) != c {
        var db := CreateRoom(c.db, name, private, c.sess.user, now).value;
        EnterRefers(c.(db := db), |db.rooms|, RoomMeta(|db.rooms|));
      }
  }

  lemma HandledRefers(c: Ctx<Sid>, ev: Event)
    requires Refers(c.db, c.sess)
    ensures Refers(HandleEvent(c, ev).db, HandleEvent(c, ev).sess)
  {
    if ev.RoomMeta? {
      RefreshRefers(c);
    } else if ev.RoomRemoved? {
      var c1 := c.(hub := LeaveHubRoom(c.hub, c.me, ev.room));
      RefreshRefers(c1);
      OpenRefers(RefreshRooms(c1), ev.room);
    }
  }

  lemma ViewRefers(c: Ctx<Sid>, a: Action)
    requires Refers(c.db, c.sess) && (a.Say? || a.CmdMsg? || a.ShowRoom? || a.ShowDM?)
    ensures Refers(Act(c, a).db, Act(c, a).sess)
  {
    ActIs(c, a);
    ShowIs(c, a);
    if a.Say? {
      SendSame(c, a.text, a.allowed);
      SentNames(c, a.text, a.allowed);
    } else if a.CmdMsg? {
      var u := UserByHandle(c.db, a.handle);
      MsgIs(c, a.handle, a.text, a.allowed, u);
      if u.Some? {
        OpenRefers(c, u.value);
        SendSame(OpenDM(c, u.value), a.text, a.allowed);
        SentNames(OpenDM(c, u.value), a.text, a.allowed);
      }
    } else {
      OpenRefers(c, if a.ShowRoom? then a.room else a.peer);
    }
  }

  lemma StoreRefers(c: Ctx<Sid>, a: Action)
    requires Refers(c.db, c.sess) && (a.CmdTopic? || a.CmdInvite? || a.CmdExpel? || a.CmdBlock? || a.CmdDelete?)
    ensures Refers(Act(c, a).db, Act(c, a).sess)
  {
  }

  lemma ActRefers(c: Ctx<Sid>, a: Action)
    requires Refers(c.db, c.sess) && IsSessionAction(a) && c.me in c.hub.boxes && (a.Handle? ==> a.s == c.me)
    ensures Refers(Act(c, a).db, Act(c, a).sess)
  {
    if a.CmdJoin? || a.CmdLeave? || a.CmdCreate? {
      SeatRefers(c, a);
    } else if a.Say? || a.CmdMsg? || a.ShowRoom? || a.ShowDM? {
      ViewRefers(c, a);
    } else if a.Handle? {
      ActHandle(c);
      if c.hub.boxes[c.me].queue != [] { HandledRefers(c.(hub := Consume(c.hub, c.me)), c.hub.boxes[c.me].queue[0]); }
    } else {
      StoreRefers(c, a);
    }
  }

  lemma PutRefers(w: World, c: Ctx<Sid>)
    requires AllRefer(w) && Larger(w.db, c.db) && Refers(c.db, c.sess)
    ensures AllRefer(Put(w, c))
  {
  }

  lemma InitRefers(db: DB, hub: Hub<Sid>, s: Sid, u: Id, admin: bool)
    requires UserExists(db, u)
    ensures Refers(Init(db, hub, s, u, admin).db, Init(db, hub, s, u, admin).sess)
  {
    var ids := ListUserRooms(db, u);
    InitSession(db, hub, s, u, admin);
    InitNames(db, hub, s, u, admin);
    InitHub(db, hub, s, u, admin);
    forall r | r in ids ensures RoomExists(db, r) {
      var i :| 0 <= i < |ids| && ids[i] == r;
    }
    if ids != [] { assert ids[0] in ids; }
  }

  lemma StoreLarger(w: World, a: Action)
    requires !IsSessionAction(a) && !a.Connect? && !a.Disconnect?
    ensures Larger(w.db, Step(w, a).db)
  {
  }

  lemma SessionRefers(w: World, a: Action)
    requires AllRefer(w) && Linked(w) && IsSessionAction(a) && a.s in w.sessions
    ensures AllRefer(Put(w, Act(Focus(w, a.s), a)))
  {
    ActRefers(Focus(w, a.s), a);
    ActLarger(Focus(w, a.s), a);
    PutRefers(w, Act(Focus(w, a.s), a));
  }

  /** Every step keeps what sessions refer to in existence. */
  lemma StepRefers(w: World, a: Action)
    requires AllRefer(w) && Linked(w)
    ensures AllRefer(Step(w, a))
  {
    if a.Connect? {
      ConnectIs(w, a.s, a.user);
      if a.s !in w.sessions && UserExists(w.db, a.user) {
        InitRefers(w.db, w.hub, a.s, a.user, IsAdmin(w.db, a.user));
        InitNames(w.db, w.hub, a.s, a.user, IsAdmin(w.db, a.user));
        PutRefers(w, Init(w.db, w.hub, a.s, a.user, IsAdmin(w.db, a.user)));
      }
    } else if a.Disconnect? {
      DisconnectIs(w, a.s);
    } else if IsSessionAction(a) {
      SessionStep(w, a);
      if a.s in w.sessions { SessionRefers(w, a); }
    } else {
      StoreLarger(w, a);
      StoreStep(w, a);
    }
  }

  // ----- mention marks -----

  /** A room is marked as mentioning the user only while it has a badge. */
  ghost predicate MarksHaveBadges(x: Session) { forall r :: r in x.mentionRoom ==> Get(x.unreadRoom, r) > 0 }

  ghost predicate AllMarks(w: World) { forall s :: s in w.sessions ==> MarksHaveBadges(w.sessions[s]) }

  lemma SendMarks(c: Ctx<Sid>, a: Action)
    requires MarksHaveBadges(c.sess) && (a.Say? || a.CmdMsg?)
    ensures MarksHaveBadges(Act(c, a).sess)
  {
    ActIs(c, a);
    if a.Say? {
      SendSame(c, a.text, a.allowed);
    } else {
      MsgIs(c, a.handle, a.text, a.allowed, UserByHandle(c.db, a.handle));
      if UserByHandle(c.db, a.handle).Some? { SendSame(OpenDM(c, UserByHandle(c.db, a.handle).value), a.text, a.allowed); }
    }
  }

  lemma HandledMarks(c: Ctx<Sid>, ev: Event)
    requires MarksHaveBadges(c.sess)
    ensures MarksHaveBadges(HandleEvent(c, ev).sess)
  {
  }

  lemma ReceiveMarks(c: Ctx<Sid>, a: Action)
    requires MarksHaveBadges(c.sess) && a.Handle?
    ensures MarksHaveBadges(Act(c, a).sess)
  {
    if a.s == c.me && c.me in c.hub.boxes {
      ActHandle(c);
      if c.hub.boxes[c.me].queue != [] { HandledMarks(c.(hub := Consume(c.hub, c.me)), c.hub.boxes[c.me].queue[0]); }
    }
  }

  lemma SilentMarks(c: Ctx<Sid>, a: Action)
    requires MarksHaveBadges(c.sess) && IsSilent(a)
    ensures MarksHaveBadges(Act(c, a).sess)
  {
  }

  lemma InitMarks(db: DB, hub: Hub<Sid>, s: Sid, u: Id, admin: bool)
    ensures MarksHaveBadges(Init(db, hub, s, u, admin).sess) && Init(db, hub, s, u, admin).me == s
  {
  }

  lemma PutMarks(w: World, c: Ctx<Sid>)
    requires AllMarks(w) && MarksHaveBadges(c.sess)
    ensures AllMarks(Put(w, c))
  {
  }

  /** Every step keeps the marks to rooms with a badge. */
  lemma StepMarks(w: World, a: Action)
    requires AllMarks(w)
    ensures AllMarks(Step(w, a))
  {
    if a.Connect? {
      ConnectIs(w, a.s, a.user);
      InitMarks(w.db, w.hub, a.s, a.user, IsAdmin(w.db, a.user));
      PutMarks(w, Init(w.db, w.hub, a.s, a.user, IsAdmin(w.db, a.user)));
    } else if a.Disconnect? {
      DisconnectIs(w, a.s);
    } else if IsSessionAction(a) {
      SessionStep(w, a);
      if a.s in w.sessions {
        var c := Focus(w, a.s);
        if a.Say? || a.CmdMsg? { SendMarks(c, a); } else if a.Handle? { ReceiveMarks(c, a); } else { SilentMarks(c, a); }
        PutMarks(w, Act(c, a));
      }
    } else {
      StoreStep(w, a);
    }
  }

  // ----- messages and blocks -----

  function Times(ev: Event, n: nat): seq<Event> { if n == 0 then [] else Times(ev, n - 1) + [ev] }

  lemma PublishUserAddressed(h: Hub<Sid>, u: Id, ev: Event, t: Sid)
    requires Structured(h) && t in h.boxes
    ensures var h' := PublishUser(h, u, ev);
            && t in h'.boxes && h'.boxes[t].user == h.boxes[t].user && Structured(h')
            && h'.boxes[t].addressed == h.boxes[t].addressed + (if h.boxes[t].user == u then [ev] else [])
  {
    SendAllStructured(h, At(h.users, u), ev);
    assert h.boxes[t].addressed + [] == h.boxes[t].addressed;
  }

  lemma MultisetStep(us: seq<Id>, u: Id)
    requires us != []
    ensures multiset(us)[u] == multiset(us[..|us| - 1])[u] + (if us[|us| - 1] == u then 1 else 0)
  {
    assert us == us[..|us| - 1] + [us[|us| - 1]];
  }

  lemma TimesStep(before: seq<Event>, ev: Event, n: nat)
    ensures (before + Times(ev, n)) + [ev] == before + Times(ev, n + 1)
    ensures (before + Times(ev, n)) + [] == before + Times(ev, n) && before + Times(ev, 0) == before
  {
  }

  lemma {:induction false} NotifyAllAddressed(h: Hub<Sid>, r: Id, us: seq<Id>, t: Sid)
    requires Structured(h) && t in h.boxes
    ensures var h', u := NotifyAll(h, r, us), h.boxes[t].user;
            && t in h'.boxes && h'.boxes[t].user == u && Structured(h')
            && h'.boxes[t].addressed == h.boxes[t].addressed + Times(Notify(u, r), multiset(us)[u])
  {
    var u := h.boxes[t].user;
    if us == [] {
      TimesStep(h.boxes[t].addressed, Notify(u, r), 0);
    } else {
      var n := |us| - 1;
      NotifyAllAddressed(h, r, us[..n], t);
      PublishUserAddressed(NotifyAll(h, r, us[..n]), us[n], Notify(us[n], r), t);
      MultisetStep(us, u);
      TimesStep(h.boxes[t].addressed, Notify(u, r), multiset(us[..n])[u]);
    }
  }

  lemma PublishedAddressed(h: Hub<Sid>, r: Id, ev: Event, us: seq<Id>, t: Sid)
    requires Structured(h) && t in h.boxes
    requires multiset(us)[h.boxes[t].user] == if h.boxes[t].user in us then 1 else 0
    ensures var h', b := NotifyAll(PublishRoom(h, r, ev), r, us), h.boxes[t];
            && t in h'.boxes
            && h'.boxes[t].addressed
               == b.addressed + (if t in At(h.rooms, r) then [ev] else [])
                  + (if b.user in us then [Notify(b.user, r)] else [])
  {
    var b := h.boxes[t];
    SendAllStructured(h, At(h.rooms, r), ev);
    NotifyAllAddressed(PublishRoom(h, r, ev), r, us, t);
    assert Times(Notify(b.user, r), 1) == [Notify(b.user, r)];
    assert b.addressed + [] == b.addressed;
  }

  /**
   A room message goes once to every session subscribed to the room, and once more, as a notify, to every
   session of a user it notified; to nobody else.
   */
  lemma RoomSendReaches(c: Ctx<Sid>, r: Id, body: string, t: Sid)
    requires Structured(c.hub) && t in c.hub.boxes
    requires (r, c.sess.user) in c.db.members && StoreMessage(c, r, body).1.Ok?
    ensures var h', sent, b := SendToRoom(c, r, body).hub, StoreMessage(c, r, body).1.value, c.hub.boxes[t];
            && t in h'.boxes
            && h'.boxes[t].addressed
               == b.addressed
                  + (if t in At(c.hub.rooms, r) then [RoomMsg(r, sent.msg, set x | x in sent.notified)] else [])
                  + (if b.user in sent.notified then [Notify(b.user, r)] else [])
  {
    var sent := StoreMessage(c, r, body).1.value;
    NotifiedOnce(c.db.users, c.db.members, r, c.sess.user, body, c.hub.boxes[t].user);
    PublishedAddressed(c.hub, r, RoomMsg(r, sent.msg, set x | x in sent.notified), sent.notified, t);
  }

  /** A direct message goes once to every session of each of its two users, and to nobody else. */
  lemma DMSendReaches(c: Ctx<Sid>, p: Id, body: string, t: Sid)
    requires Structured(c.hub) && t in c.hub.boxes
    requires (p, c.sess.user) !in c.db.blocks && InsertDM(c.db, c.sess.user, p, body).1.Ok?
    ensures var h', u, b := SendToPeer(c, p, body).hub, c.sess.user, c.hub.boxes[t];
            var m := InsertDM(c.db, u, p, body).1.value;
            && t in h'.boxes
            && h'.boxes[t].addressed
               == b.addressed + (if b.user == p then [DmMsg(p, u, m)] else if b.user == u then [DmMsg(u, p, m)] else [])
  {
    var u, m := c.sess.user, InsertDM(c.db, c.sess.user, p, body).1.value;
    PublishUserAddressed(c.hub, p, DmMsg(p, u, m), t);
    PublishUserAddressed(PublishUser(c.hub, p, DmMsg(p, u, m)), u, DmMsg(u, p, m), t);
  }

  /**
   Who may delete a message: an admin; a member of its room who wrote it or who owns or moderates the room; the author
   of a direct message.
   */
  ghost predicate MayDelete(c: Ctx<Sid>, m: Message) {
    c.sess.admin ||
      match m.place
      case InRoom(r) =>
        var key := (r, c.sess.user);
        key in c.db.members && (m.author == c.sess.user || c.db.members[key] == Owner || c.db.members[key] == Moderator)
      case InDM(a, b) => m.author == c.sess.user && (c.sess.user == a || c.sess.user == b)
  }

  lemma DeleteIs(c: Ctx<Sid>, id: Id, now: int, m: Option<Message>)
    requires m == Find(c.db.messages, id)
    ensures Delete(c, id, now)
         == if m.None? || !MayDelete(c, m.value) then c
            else
              var c1 := c.(db := DeleteMessage(c.db, id, now));
              if m.value.place.InRoom? then ToRoom(c1, m.value.place.room, MsgDeleted(m.value.place.room)) else c1
  {
  }

  lemma DeletedRows(db: DB, id: Id, now: int, k: Id)
    ensures var m, m' := Find(db.messages, k), Find(DeleteMessage(db, id, now).messages, k);
            m' == if m.Some? && k == id && m.value.deletedAt.None? then Some(m.value.(deletedAt := Some(now))) else m
  {
    FindIn(db.messages, id);
    FindIn(db.messages, k);
    FindTombstoned(db.messages, id, now, k);
  }

  /** /delete: the message, and no other, is marked deleted, once; its room is told. */
  lemma DeleteTakesHold(c: Ctx<Sid>, id: Id, now: int)
    ensures var c', m := Delete(c, id, now), Find(c.db.messages, id);
            if m.Some? && MayDelete(c, m.value) then
              && (forall k :: Find(c'.db.messages, k)
                    == if k == id && m.value.deletedAt.None? then Some(m.value.(deletedAt := Some(now)))
                       else Find(c.db.messages, k))
              && var place := m.value.place;
              c'.hub == if place.InRoom? then PublishRoom(c.hub, place.room, MsgDeleted(place.room)) else c.hub
            else c' == c
  {
    DeleteIs(c, id, now, Find(c.db.messages, id));
    forall k { DeletedRows(c.db, id, now, k); }
  }

  /** /block and /unblock: while the block stands, and no longer, nothing the other user writes is stored or sent. */
  lemma BlockTakesHold(c: Ctx<Sid>, h: string, on: bool, other: Ctx<Sid>, text: string)
    requires Valid(c.db) && UserByHandle(c.db, h) == Some(other.sess.user) && other.db == Block(c, h, on).db
    requires UserExists(c.db, c.sess.user) && other.sess.user != c.sess.user && Sanitize(text) != ""
    ensures on <==> SendToPeer(other, c.sess.user, text) == other
    ensures on <==> InsertDM(other.db, other.sess.user, c.sess.user, text).1.Err?
  {
    var (db, res) := InsertDM(other.db, other.sess.user, c.sess.user, text);
    if res.Ok? { assert |db.messages| == |other.db.messages| + 1; }
  }
}
