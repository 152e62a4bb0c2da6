/** What happens to a session's queue in one step: events are dropped exactly when they do not fit. */
module DeliveryLaws {
  import opened Prelude
  import opened Database
  import opened HubModel
  import opened SessionModel
  import opened World
  import opened Safety
  import opened BadgeLaws

  // ----- events that arrive -----

  /** Only arrivals: if all of them fit, all of them are queued, in order. */
  ghost predicate Flows(b: Mailbox, b': Mailbox) {
    && b'.user == b.user && b'.consumed == b.consumed
    && b.addressed <= b'.addressed && b.dropped <= b'.dropped
    && var arrived := b'.addressed[|b.addressed|..];
       |b.queue| + |arrived| <= CAPACITY ==> b'.dropped == b.dropped && b'.queue == b.queue + arrived
  }

  lemma FlowsSend(b: Mailbox, ev: Event)
    ensures Flows(b, Send(b, ev)) && Flows(b, b)
  {
    assert Send(b, ev).addressed[|b.addressed|..] == [ev];
    assert b.addressed[|b.addressed|..] == [] && b.queue + [] == b.queue;
  }

  lemma FlowsTrans(a: Mailbox, b: Mailbox, c: Mailbox)
    requires Flows(a, b) && Flows(b, c)
    ensures Flows(a, c)
  {
    var n, m := |a.addressed|, |b.addressed|;
    assert c.addressed[n..] == b.addressed[n..] + c.addressed[m..];
    assert a.queue + (b.addressed[n..] + c.addressed[m..]) == (a.queue + b.addressed[n..]) + c.addressed[m..];
  }

  function IsPresence(): Event -> bool { (ev: Event) => ev.Presence? }

  /** The presence events that were addressed to a session. */
  function Presences(b: Mailbox): seq<Event> { Filter(b.addressed, IsPresence()) }

  lemma PresencesSend(b: Mailbox, ev: Event)
    ensures Presences(Send(b, ev)) == Presences(b) + (if ev.Presence? then [ev] else [])
  {
    assert (b.addressed + [ev])[..|b.addressed|] == b.addressed;
  }

  /** Only arrivals, and none that tells of a presence; nothing is broadcast. */
  ghost predicate AllFlow(h: Hub<Sid>, h': Hub<Sid>) {
    && h'.log == h.log
    && forall s :: s in h.boxes ==>
         s in h'.boxes && Flows(h.boxes[s], h'.boxes[s]) && Presences(h'.boxes[s]) == Presences(h.boxes[s])
  }

  lemma SameBoxesFlow(h: Hub<Sid>, h': Hub<Sid>)
    requires h'.boxes == h.boxes && h'.log == h.log
    ensures AllFlow(h, h')
  {
    forall s | s in h.boxes ensures Flows(h.boxes[s], h'.boxes[s]) { FlowsSend(h.boxes[s], RoomMeta(0)); }
  }

  lemma SendAllFlows(h: Hub<Sid>, h': Hub<Sid>, to: set<Sid>, ev: Event)
    requires h'.boxes == SendAll(h.boxes, to, ev) && h'.log == h.log && !ev.Presence?
    ensures AllFlow(h, h')
  {
    forall s | s in h.boxes ensures Flows(h.boxes[s], h'.boxes[s]) && Presences(h'.boxes[s]) == Presences(h.boxes[s]) {
      FlowsSend(h.boxes[s], ev);
      PresencesSend(h.boxes[s], ev);
    }
  }

  lemma AllFlowTrans(h0: Hub<Sid>, h1: Hub<Sid>, h2: Hub<Sid>)
    requires AllFlow(h0, h1) && AllFlow(h1, h2)
    ensures AllFlow(h0, h2)
  {
    forall s | s in h0.boxes
      ensures s in h2.boxes && Flows(h0.boxes[s], h2.boxes[s]) && Presences(h2.boxes[s]) == Presences(h0.boxes[s])
    {
      FlowsTrans(h0.boxes[s], h1.boxes[s], h2.boxes[s]);
    }
  }

  lemma PublishFlows(h: Hub<Sid>, h1: Hub<Sid>, r: Id, ev: Event)
    requires h1.boxes == h.boxes && h1.log == h.log && !ev.Presence?
    ensures AllFlow(h, PublishRoom(h1, r, ev))
  {
    SendAllFlows(h, PublishRoom(h1, r, ev), At(h1.rooms, r), ev);
  }

  lemma PublishUserFlows(h: Hub<Sid>, u: Id, ev: Event)
    requires !ev.Presence?
    ensures AllFlow(h, PublishUser(h, u, ev))
  {
    SendAllFlows(h, PublishUser(h, u, ev), At(h.users, u), ev);
  }

  lemma {:induction false} NotifyAllFlows(h: Hub<Sid>, r: Id, us: seq<Id>)
    ensures AllFlow(h, NotifyAll(h, r, us))
  {
    if us == [] {
      SameBoxesFlow(h, h);
    } else {
      var n := |us| - 1;
      NotifyAllFlows(h, r, us[..n]);
      PublishUserFlows(NotifyAll(h, r, us[..n]), us[n], Notify(us[n], r));
      AllFlowTrans(h, NotifyAll(h, r, us[..n]), NotifyAll(h, r, us));
    }
  }

  // ----- the commands of a session -----

  lemma PublishSentFlows(c: Ctx<Sid>, r: Id, sent: Sent)
    ensures AllFlow(c.hub, PublishSent(c, r, sent).hub)
  {
    var ev := RoomMsg(r, sent.msg, set x | x in sent.notified);
    var h1 := PublishRoom(c.hub, r, ev);
    PublishFlows(c.hub, c.hub, r, ev);
    NotifyAllFlows(h1, r, sent.notified);
    AllFlowTrans(c.hub, h1, NotifyAll(h1, r, sent.notified));
  }

  lemma SendToRoomFlows(c: Ctx<Sid>, r: Id, body: string)
    ensures AllFlow(c.hub, SendToRoom(c, r, body).hub)
  {
    SendToRoomIs(c, r, body);
    if SendToRoom(c, r, body) == c {
      SameBoxesFlow(c.hub, c.hub);
    } else {
      PublishSentFlows(c, r, StoreMessage(c, r, body).1.value);
    }
  }

  lemma SendToPeerFlows(c: Ctx<Sid>, p: Id, body: string)
    ensures AllFlow(c.hub, SendToPeer(c, p, body).hub)
  {
    SendToPeerIs(c, p, body);
    if SendToPeer(c, p, body) == c {
      SameBoxesFlow(c.hub, c.hub);
    } else {
      var u, m := c.sess.user, InsertDM(c.db, c.sess.user, p, body).1.value;
      var h1 := PublishUser(c.hub, p, DmMsg(p, u, m));
      PublishUserFlows(c.hub, p, DmMsg(p, u, m));
      PublishUserFlows(h1, u, DmMsg(u, p, m));
      AllFlowTrans(c.hub, h1, PublishDM(c.hub, u, p, m));
    }
  }

  lemma SendFlows(c: Ctx<Sid>, text: string, allowed: bool)
    ensures AllFlow(c.hub, SendCurrent(c, text, allowed).hub)
  {
    SameBoxesFlow(c.hub, c.hub);
    match c.sess.view
    case NoView =>
    case RoomView(r) => SendToRoomFlows(c, r, Truncate(text));
    case DMView(p) => SendToPeerFlows(c, p, Truncate(text));
  }

  lemma MessageFlows(c: Ctx<Sid>, a: Action)
    requires a.Say? || a.CmdMsg?
    ensures AllFlow(c.hub, Act(c, a).hub)
  {
    ActIs(c, a);
    if a.Say? {
      SendFlows(c, a.text, a.allowed);
    } else {
      var u := UserByHandle(c.db, a.handle);
      MsgIs(c, a.handle, a.text, a.allowed, u);
      SameBoxesFlow(c.hub, c.hub);
      if u.Some? { SendFlows(OpenDM(c, u.value), a.text, a.allowed); }
    }
  }

  lemma DeletedHubIs(c: Ctx<Sid>, a: Action) returns (r: Id)
    requires a.CmdDelete?
    ensures Act(c, a).hub == c.hub || Act(c, a).hub == PublishRoom(c.hub, r, MsgDeleted(r))
  {
    var m := Find(c.db.messages, a.id);
    r := if m.Some? && m.value.place.InRoom? then m.value.place.room else 0;
  }

  lemma SeatFlows(c: Ctx<Sid>, a: Action)
    requires a.CmdJoin? || a.CmdLeave? || a.CmdCreate?
    ensures AllFlow(c.hub, Act(c, a).hub)
  {
    if a.CmdJoin? {
      var r := JoinedHubIs(c, a);
      PublishFlows(c.hub, JoinHubRoom(c.hub, c.me, r), r, RoomMeta(r));
    } else if a.CmdLeave? {
      var r := if c.sess.view.RoomView? then c.sess.view.room else 0;
      LeftHubIs(c, a, r);
      PublishFlows(c.hub, LeaveHubRoom(c.hub, c.me, r), r, RoomMeta(r));
    } else {
      CreatedHubIs(c, a);
    }
    if Act(c, a).hub.boxes == c.hub.boxes { SameBoxesFlow(c.hub, Act(c, a).hub); }
  }

  lemma ModeratorFlows(c: Ctx<Sid>, a: Action)
    requires a.CmdTopic? || a.CmdInvite? || a.CmdExpel?
    ensures AllFlow(c.hub, Act(c, a).hub)
  {
    var r := if c.sess.view.RoomView? then c.sess.view.room else 0;
    SameBoxesFlow(c.hub, c.hub);
    if a.CmdExpel? {
      var found := UserByHandle(c.db, a.handle);
      var u := if found.Some? then found.value else 0;
      ExpelledHubIs(c, a, u, r);
      var h1 := RemoveUserFromRoom(c.hub, u, r);
      SendAllFlows(c.hub, h1, SubsOf(c.hub, u, r), RoomRemoved(r, u));
      PublishFlows(h1, h1, r, RoomMeta(r));
      AllFlowTrans(c.hub, h1, PublishRoom(h1, r, RoomMeta(r)));
    } else {
      MetaHubIs(c, a, r);
      PublishFlows(c.hub, c.hub, r, RoomMeta(r));
    }
  }

  /** Whatever a session does, but for taking an event off its queue, is arrivals for every session. */
  lemma ActFlows(c: Ctx<Sid>, a: Action)
    requires IsSessionAction(a) && !a.Handle?
    ensures AllFlow(c.hub, Act(c, a).hub)
  {
    if a.Say? || a.CmdMsg? {
      MessageFlows(c, a);
    } else if a.CmdDelete? {
      var r := DeletedHubIs(c, a);
      PublishFlows(c.hub, c.hub, r, MsgDeleted(r));
      SameBoxesFlow(c.hub, c.hub);
    } else if a.CmdJoin? || a.CmdLeave? || a.CmdCreate? {
      SeatFlows(c, a);
    } else if a.CmdTopic? || a.CmdInvite? || a.CmdExpel? {
      ModeratorFlows(c, a);
    } else {
      SameHubIs(c, a);
      SameBoxesFlow(c.hub, c.hub);
    }
  }

  // ----- every step -----

  /** Arrivals, or one event taken off. */
  ghost predicate Moves(b: Mailbox, b': Mailbox) { Flows(b, b') || (b.queue != [] && b' == Receive(b)) }

  lemma HandleMoves(w: World, s: Sid, t: Sid)
    requires Linked(w) && s in w.sessions && t in w.hub.boxes
    ensures var h' := Act(Focus(w, s), Handle(s)).hub; t in h'.boxes && Moves(w.hub.boxes[t], h'.boxes[t])
  {
    ActHandle(Focus(w, s));
    FlowsSend(w.hub.boxes[t], RoomMeta(0));
    if w.hub.boxes[s].queue != [] {
      HandledHubIs(Focus(w, s).(hub := Consume(w.hub, s)), w.hub.boxes[s].queue[0]);
    }
  }

  lemma SubscribeFlows(h: Hub<Sid>, s: Sid, u: Id, t: Sid)
    requires t in h.boxes && t != s
    ensures t in Subscribe(h, s, u).boxes && Flows(h.boxes[t], Subscribe(h, s, u).boxes[t])
  {
    FlowsSend(h.boxes[t], Presence(u, true));
  }

  lemma UnsubscribeFlows(h: Hub<Sid>, s: Sid, t: Sid)
    requires s in h.boxes && t in h.boxes && t != s
    ensures t in Unsubscribe(h, s).boxes && Flows(h.boxes[t], Unsubscribe(h, s).boxes[t])
  {
    FlowsSend(h.boxes[t], Presence(h.boxes[s].user, false));
  }

  lemma ConnectMoves(w: World, s: Sid, u: Id, t: Sid)
    requires Linked(w) && t in w.hub.boxes
    ensures t in Step(w, Connect(s, u)).hub.boxes
    ensures Flows(w.hub.boxes[t], Step(w, Connect(s, u)).hub.boxes[t])
  {
    ConnectIs(w, s, u);
    FlowsSend(w.hub.boxes[t], RoomMeta(0));
    if s !in w.sessions && UserExists(w.db, u) {
      InitHub(w.db, w.hub, s, u, IsAdmin(w.db, u));
      JoinAllBoxes(Subscribe(w.hub, s, u), s, ListUserRooms(w.db, u));
      SubscribeFlows(w.hub, s, u, t);
    }
  }

  lemma DisconnectMoves(w: World, s: Sid, t: Sid)
    requires Linked(w) && t in w.hub.boxes && t in Step(w, Disconnect(s)).hub.boxes
    ensures Flows(w.hub.boxes[t], Step(w, Disconnect(s)).hub.boxes[t])
  {
    DisconnectIs(w, s);
    FlowsSend(w.hub.boxes[t], RoomMeta(0));
    if s in w.sessions {
      UnsubscribeSubs(w.hub, s);
      UnsubscribeFlows(w.hub, s, t);
    }
  }

  lemma SessionMoves(w: World, a: Action, t: Sid)
    requires Linked(w) && t in w.hub.boxes && IsSessionAction(a) && a.s in w.sessions
    ensures var h' := Act(Focus(w, a.s), a).hub; t in h'.boxes && Moves(w.hub.boxes[t], h'.boxes[t])
  {
    if a.Handle? { HandleMoves(w, a.s, t); } else { ActFlows(Focus(w, a.s), a); }
  }

  lemma StepMoves(w: World, a: Action, t: Sid)
    requires Linked(w) && t in w.hub.boxes && t in Step(w, a).hub.boxes
    ensures Moves(w.hub.boxes[t], Step(w, a).hub.boxes[t])
  {
    if a.Connect? {
      ConnectMoves(w, a.s, a.user, t);
    } else if a.Disconnect? {
      DisconnectMoves(w, a.s, t);
    } else if IsSessionAction(a) {
      SessionStep(w, a);
      if a.s in w.sessions { SessionMoves(w, a, t); } else { FlowsSend(w.hub.boxes[t], RoomMeta(0)); }
    } else {
      StoreMoves(w, a, t);
    }
  }

  lemma StoreMoves(w: World, a: Action, t: Sid)
    requires t in w.hub.boxes && !IsSessionAction(a) && !a.Connect? && !a.Disconnect?
    ensures t in Step(w, a).hub.boxes && Moves(w.hub.boxes[t], Step(w, a).hub.boxes[t])
  {
    StoreStep(w, a);
    FlowsSend(w.hub.boxes[t], RoomMeta(0));
  }

  // ----- what is lost, and when -----

  /** What was taken off made room for everything that arrived. */
  ghost predicate Fits(b: Mailbox, b': Mailbox) {
    |b.queue| - (|b'.consumed| - |b.consumed|) + (|b'.addressed| - |b.addressed|) <= 64
  }

  ghost predicate NothingLost(b: Mailbox, b': Mailbox) {
    b'.dropped == b.dropped && b.addressed <= b'.addressed && Kept(b') == Kept(b) + b'.addressed[|b.addressed|..]
  }

  lemma BoxLengths(b: Mailbox)
    requires BoxOk(b)
    ensures |b.addressed| == |b.consumed| + |b.queue| + |b.dropped|
  {
    assert |multiset(b.addressed)| == |multiset(Kept(b)) + multiset(b.dropped)|;
  }

  lemma ReceiveLosesNothing(b: Mailbox)
    requires b.queue != []
    ensures NothingLost(b, Receive(b))
  {
    assert Kept(Receive(b)) == Kept(b);
    assert Kept(b) + [] == Kept(b) && b.addressed[|b.addressed|..] == [];
  }

  lemma FlowsLoseNothing(b: Mailbox, b': Mailbox)
    requires Flows(b, b') && Fits(b, b')
    ensures NothingLost(b, b')
  {
    var arrived := b'.addressed[|b.addressed|..];
    assert b.consumed + (b.queue + arrived) == Kept(b) + arrived;
  }

  /** Nothing is dropped between b and b' exactly if there was room, and then what was addressed is kept. */
  ghost predicate LossUnless(room: bool, b: Mailbox, b': Mailbox) {
    && b.addressed <= b'.addressed && b.dropped <= b'.dropped
    && (b'.dropped == b.dropped <==> room)
    && (room ==> NothingLost(b, b'))
  }

  /** In one step something is dropped if and only if what arrives does not fit. */
  lemma MovesExact(b: Mailbox, b': Mailbox)
    requires BoxOk(b) && BoxOk(b') && Moves(b, b')
    ensures LossUnless(Fits(b, b'), b, b')
  {
    BoxLengths(b);
    BoxLengths(b');
    if Flows(b, b') {
      if Fits(b, b') { FlowsLoseNothing(b, b'); }
    } else {
      ReceiveLosesNothing(b);
    }
  }

  lemma NothingLostTrans(a: Mailbox, b: Mailbox, c: Mailbox)
    requires NothingLost(a, b) && NothingLost(b, c)
    ensures NothingLost(a, c)
  {
    var n, m := |a.addressed|, |b.addressed|;
    assert c.addressed[n..] == b.addressed[n..] + c.addressed[m..];
    assert Kept(a) + (b.addressed[n..] + c.addressed[m..]) == (Kept(a) + b.addressed[n..]) + c.addressed[m..];
  }

  lemma LossTrans(p: bool, q: bool, a: Mailbox, b: Mailbox, c: Mailbox)
    requires LossUnless(p, a, b) && LossUnless(q, b, c)
    ensures LossUnless(p && q, a, c)
  {
    if p && q { NothingLostTrans(a, b, c); }
  }

  lemma NoLossAtRest(b: Mailbox)
    ensures LossUnless(true, b, b)
  {
    assert b.addressed[|b.addressed|..] == [] && Kept(b) + [] == Kept(b);
  }
}
