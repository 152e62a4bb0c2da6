/** Who hears of a presence change (internal/hub/hub.go: broadcastPresence), and of which. */
module PresenceLaws {
  import opened Prelude
  import opened Database
  import opened HubModel
  import opened SessionModel
  import opened World
  import opened Safety
  import opened DeliveryLaws

  /** The session is subscribed to some room. */
  ghost predicate Seated(h: Hub<Sid>, t: Sid) { exists r :: r in h.rooms && t in h.rooms[r] }

  function AsEvent(a: Announced): Event { Presence(a.user, a.online) }

  /** The events of broadcasts. */
  function Heard(log: seq<Announced>): seq<Event> { Map(log, AsEvent) }

  /** From h to h' the session was sent the presence event of every broadcast if it was seated, and none if not. */
  ghost predicate Hears(h: Hub<Sid>, h': Hub<Sid>, t: Sid)
    requires t in h.boxes && t in h'.boxes
  {
    && h.log <= h'.log
    && Presences(h'.boxes[t])
       == Presences(h.boxes[t]) + (if Seated(h, t) then Heard(h'.log[|h.log|..]) else [])
  }

  lemma NothingHeard(h: Hub<Sid>, h': Hub<Sid>, t: Sid)
    requires t in h.boxes && t in h'.boxes && h'.log == h.log && Presences(h'.boxes[t]) == Presences(h.boxes[t])
    ensures Hears(h, h', t)
  {
    assert h.log[|h.log|..] == [] && Presences(h.boxes[t]) + [] == Presences(h.boxes[t]);
  }

  /** A broadcast reaches exactly the sessions that are subscribed to some room. */
  lemma BroadcastReaches(h: Hub<Sid>, u: Id, online: bool, t: Sid)
    requires t in h.boxes
    ensures var h' := BroadcastPresence(h, u, online);
            && t in h'.boxes && h'.log == h.log + [Announced(u, online)]
            && h'.boxes[t].addressed == h.boxes[t].addressed + (if Seated(h, t) then [Presence(u, online)] else [])
  {
    assert t in InSomeRoom(h.rooms) <==> Seated(h, t);
    assert h.boxes[t].addressed + [] == h.boxes[t].addressed;
  }

  lemma BroadcastHeard(h: Hub<Sid>, h1: Hub<Sid>, u: Id, online: bool, t: Sid)
    requires t in h.boxes && t in h1.boxes && h1.boxes[t] == h.boxes[t] && h1.log == h.log
    requires Seated(h1, t) <==> Seated(h, t)
    ensures t in BroadcastPresence(h1, u, online).boxes && Hears(h, BroadcastPresence(h1, u, online), t)
  {
    var h' := BroadcastPresence(h1, u, online);
    BroadcastReaches(h1, u, online, t);
    PresencesSend(h.boxes[t], Presence(u, online));
    assert h'.log[|h.log|..] == [Announced(u, online)];
    assert Heard([Announced(u, online)]) == [Presence(u, online)];
    assert Presences(h.boxes[t]) + [] == Presences(h.boxes[t]);
  }

  lemma SubscribeHeard(h: Hub<Sid>, s: Sid, u: Id, t: Sid)
    requires t in h.boxes && t != s
    ensures t in Subscribe(h, s, u).boxes && Hears(h, Subscribe(h, s, u), t)
  {
    var h1 := Subscribed(h, s, u);
    assert h1.rooms == h.rooms;
    if Sessions(h1, u) == 1 { BroadcastHeard(h, h1, u, true, t); } else { NothingHeard(h, h1, t); }
  }

  lemma StillSeated(h: Hub<Sid>, s: Sid, t: Sid)
    requires s in h.boxes && t != s
    ensures Seated(Unsubscribed(h, s), t) <==> Seated(h, t)
  {
    var rooms := Unsubscribed(h, s).rooms;
    if r :| r in h.rooms && t in h.rooms[r] { assert h.rooms[r] != {s} && r in rooms && t in rooms[r]; }
  }

  lemma UnsubscribeHeard(h: Hub<Sid>, s: Sid, t: Sid)
    requires s in h.boxes && t in h.boxes && t != s
    ensures t in Unsubscribe(h, s).boxes && Hears(h, Unsubscribe(h, s), t)
  {
    var u, h1 := h.boxes[s].user, Unsubscribed(h, s);
    StillSeated(h, s, t);
    if Sessions(h, u) <= 1 { BroadcastHeard(h, h1, u, false, t); } else { NothingHeard(h, h1, t); }
  }

  lemma {:induction false} JoinAllQuiet(h: Hub<Sid>, s: Sid, rs: seq<Id>)
    ensures JoinAll(h, s, rs).boxes == h.boxes && JoinAll(h, s, rs).log == h.log
  {
    if rs != [] { JoinAllQuiet(h, s, rs[..|rs| - 1]); }
  }

  lemma ConnectHeard(w: World, s: Sid, u: Id, t: Sid)
    requires Linked(w) && t in w.hub.boxes
    ensures t in Step(w, Connect(s, u)).hub.boxes && Hears(w.hub, Step(w, Connect(s, u)).hub, t)
  {
    ConnectIs(w, s, u);
    NothingHeard(w.hub, w.hub, t);
    if s !in w.sessions && UserExists(w.db, u) {
      InitHub(w.db, w.hub, s, u, IsAdmin(w.db, u));
      JoinAllQuiet(Subscribe(w.hub, s, u), s, ListUserRooms(w.db, u));
      SubscribeHeard(w.hub, s, u, t);
    }
  }

  lemma DisconnectHeard(w: World, s: Sid, t: Sid)
    requires Linked(w) && t in w.hub.boxes && t in Step(w, Disconnect(s)).hub.boxes
    ensures Hears(w.hub, Step(w, Disconnect(s)).hub, t)
  {
    DisconnectIs(w, s);
    NothingHeard(w.hub, w.hub, t);
    if s in w.sessions {
      UnsubscribeSubs(w.hub, s);
      UnsubscribeHeard(w.hub, s, t);
    }
  }

  lemma HandleHeard(w: World, s: Sid, t: Sid)
    requires Linked(w) && s in w.sessions && t in w.hub.boxes
    ensures var h' := Act(Focus(w, s), Handle(s)).hub; t in h'.boxes && Hears(w.hub, h', t)
  {
    ActHandle(Focus(w, s));
    NothingHeard(w.hub, w.hub, t);
    if w.hub.boxes[s].queue != [] {
      var c, ev := Focus(w, s).(hub := Consume(w.hub, s)), w.hub.boxes[s].queue[0];
      HandledHubIs(c, ev);
      NothingHeard(w.hub, HandleEvent(c, ev).hub, t);
    }
  }

  lemma SessionHeard(w: World, a: Action, t: Sid)
    requires Linked(w) && t in w.hub.boxes && IsSessionAction(a) && a.s in w.sessions
    ensures var h' := Act(Focus(w, a.s), a).hub; t in h'.boxes && Hears(w.hub, h', t)
  {
    if a.Handle? {
      HandleHeard(w, a.s, t);
    } else {
      ActFlows(Focus(w, a.s), a);
      NothingHeard(w.hub, Act(Focus(w, a.s), a).hub, t);
    }
  }

  /** In a step a session hears of each broadcast once, in order, if it is subscribed to some room, and else of none. */
  lemma StepHears(w: World, a: Action, t: Sid)
    requires Linked(w) && t in w.hub.boxes && t in Step(w, a).hub.boxes
    ensures Hears(w.hub, Step(w, a).hub, t)
  {
    NothingHeard(w.hub, w.hub, t);
    if a.Connect? {
      ConnectHeard(w, a.s, a.user, t);
    } else if a.Disconnect? {
      DisconnectHeard(w, a.s, t);
    } else if IsSessionAction(a) {
      SessionStep(w, a);
      if a.s in w.sessions { SessionHeard(w, a, t); }
    } else {
      StoreStep(w, a);
    }
  }

  lemma HeardJoin(p0: seq<Event>, p1: seq<Event>, p2: seq<Event>,
                  l0: seq<Announced>, l1: seq<Announced>, l2: seq<Announced>)
    requires l0 <= l1 <= l2 && p1 == p0 + Heard(l1[|l0|..]) && p2 == p1 + Heard(l2[|l1|..])
    ensures l0 <= l2 && p2 == p0 + Heard(l2[|l0|..])
  {
    var mid, last := l1[|l0|..], l2[|l1|..];
    assert l2[|l0|..] == mid + last;
    assert Heard(mid + last) == Heard(mid) + Heard(last);
    assert (p0 + Heard(mid)) + Heard(last) == p0 + (Heard(mid) + Heard(last));
  }

  lemma HearsTrans(h: Hub<Sid>, h1: Hub<Sid>, h2: Hub<Sid>, t: Sid)
    requires t in h.boxes && t in h1.boxes && t in h2.boxes && Seated(h, t) && Seated(h1, t)
    requires Hears(h, h1, t) && Hears(h1, h2, t)
    ensures Hears(h, h2, t)
  {
    HeardJoin(Presences(h.boxes[t]), Presences(h1.boxes[t]), Presences(h2.boxes[t]), h.log, h1.log, h2.log);
  }
}
