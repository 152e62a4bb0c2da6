/**
 internal/hub/hub.go. The hub is written over any type S of subscribers, so that the class and
 the whole-system model share one specification.
 */
module HubModel {
  import opened Prelude
  import opened Database

  datatype Event =
    | RoomMsg(room: Id, msg: Message, mentionSet: set<Id>)
    | DmMsg(user: Id, peer: Id, msg: Message)
    | MsgDeleted(room: Id)
    | Presence(user: Id, online: bool)
    | Notify(user: Id, room: Id)
    | RoomMeta(room: Id)
    | RoomRemoved(room: Id, user: Id)

  /** make(chan Event, 64) */
  const CAPACITY := 64

  /** A subscriber's queue, with the history of the events addressed to it. */
  datatype Mailbox = Mailbox(
    user: Id,
    queue: seq<Event>,
    consumed: seq<Event>,
    addressed: seq<Event>,
    dropped: seq<Event>
  )

  function NewBox(u: Id): Mailbox { Mailbox(u, [], [], [], []) }

  function Send(b: Mailbox, ev: Event): Mailbox {
    if |b.queue| < CAPACITY then b.(queue := b.queue + [ev], addressed := b.addressed + [ev])
    else b.(dropped := b.dropped + [ev], addressed := b.addressed + [ev])
  }

  function Receive(b: Mailbox): Mailbox {
    if b.queue == [] then b else b.(queue := b.queue[1..], consumed := b.consumed + [b.queue[0]])
  }

  /** One presence broadcast. */
  datatype Announced = Announced(user: Id, online: bool)

  datatype Hub<S> = Hub(
    rooms: map<Id, set<S>>,
    users: map<Id, set<S>>,
    presence: map<Id, int>,
    boxes: map<S, Mailbox>,       // the live subscribers
    log: seq<Announced>           // history of broadcastPresence
  )

  function NewHub<S(==)>(): Hub<S> { Hub(map[], map[], map[], map[], []) }

  function At<S(==)>(m: map<Id, set<S>>, k: Id): set<S> { if k in m then m[k] else {} }

  /** delete(m[k], s), and the entry with its last member. */
  function Drop<S(==)>(m: map<Id, set<S>>, k: Id, gone: set<S>): map<Id, set<S>> {
    if k !in m then m
    else if m[k] - gone == {} then m - {k}
    else m[k := m[k] - gone]
  }

  function SendAll<S(==)>(boxes: map<S, Mailbox>, to: set<S>, ev: Event): map<S, Mailbox> {
    map s | s in boxes :: if s in to then Send(boxes[s], ev) else boxes[s]
  }

  function PublishRoom<S(==)>(h: Hub<S>, r: Id, ev: Event): Hub<S> {
    h.(boxes := SendAll(h.boxes, At(h.rooms, r), ev))
  }

  function PublishUser<S(==)>(h: Hub<S>, u: Id, ev: Event): Hub<S> {
    h.(boxes := SendAll(h.boxes, At(h.users, u), ev))
  }

  function InSomeRoom<S(==)>(rooms: map<Id, set<S>>): set<S> { set r, s | r in rooms && s in rooms[r] :: s }

  function BroadcastPresence<S(==)>(h: Hub<S>, u: Id, online: bool): Hub<S> {
    h.(boxes := SendAll(h.boxes, InSomeRoom(h.rooms), Presence(u, online)), log := h.log + [Announced(u, online)])
  }

  function Sessions<S>(h: Hub<S>, u: Id): int { if u in h.presence then h.presence[u] else 0 }

  predicate IsOnline<S>(h: Hub<S>, u: Id) { Sessions(h, u) > 0 }

  function Subscribed<S(==)>(h: Hub<S>, s: S, u: Id): Hub<S> {
    h.(users := h.users[u := At(h.users, u) + {s}],
       presence := h.presence[u := Sessions(h, u) + 1],
       boxes := h.boxes[s := NewBox(u)])
  }

  /** The rooms once s has left them all; a room goes with its last subscriber. */
  function LeftAll<S(==)>(rooms: map<Id, set<S>>, s: S): map<Id, set<S>> {
    map r | r in rooms && rooms[r] != {s} :: rooms[r] - {s}
  }

  function Unsubscribed<S(==)>(h: Hub<S>, s: S): Hub<S>
    requires s in h.boxes
  {
    var u := h.boxes[s].user;
    var left := Sessions(h, u) - 1;
    h.(rooms := LeftAll(h.rooms, s),
       users := Drop(h.users, u, {s}),
       presence := if left <= 0 then h.presence - {u} else h.presence[u := left],
       boxes := h.boxes - {s})
  }

  function Subscribe<S(==)>(h: Hub<S>, s: S, u: Id): Hub<S> {
    var h1 := Subscribed(h, s, u);
    if Sessions(h1, u) == 1 then BroadcastPresence(h1, u, true) else h1
  }

  function Unsubscribe<S(==)>(h: Hub<S>, s: S): Hub<S>
    requires s in h.boxes
  {
    var u := h.boxes[s].user;
    var h1 := Unsubscribed(h, s);
    if Sessions(h, u) <= 1 then BroadcastPresence(h1, u, false) else h1
  }

  function JoinHubRoom<S(==)>(h: Hub<S>, s: S, r: Id): Hub<S> {
    h.(rooms := h.rooms[r := At(h.rooms, r) + {s}])
  }

  function LeaveHubRoom<S(==)>(h: Hub<S>, s: S, r: Id): Hub<S> { h.(rooms := Drop(h.rooms, r, {s})) }

  /** The subscribers of room r that belong to user u. */
  function SubsOf<S(==)>(h: Hub<S>, u: Id, r: Id): set<S> {
    set s | s in At(h.rooms, r) && s in h.boxes && h.boxes[s].user == u
  }

  function RemoveUserFromRoom<S(==)>(h: Hub<S>, u: Id, r: Id): Hub<S> {
    var subs := SubsOf(h, u, r);
    h.(rooms := Drop(h.rooms, r, subs), boxes := SendAll(h.boxes, subs, RoomRemoved(r, u)))
  }

  /** The session takes the next event off its queue. */
  function Consume<S(==)>(h: Hub<S>, s: S): Hub<S>
    requires s in h.boxes
  {
    h.(boxes := h.boxes[s := Receive(h.boxes[s])])
  }

  // ----- what every operation keeps -----

  function Kept(b: Mailbox): seq<Event> { b.consumed + b.queue }

  /** Loss only at a full buffer: what is consumed and queued is in order, the rest was dropped. */
  ghost predicate BoxOk(b: Mailbox) {
    && |b.queue| <= CAPACITY
    && Delivered(Kept(b), b.dropped, b.addressed)
  }

  ghost predicate Delivered(kept: seq<Event>, dropped: seq<Event>, addressed: seq<Event>) {
    && IsSubseq(kept, addressed)
    && multiset(addressed) == multiset(kept) + multiset(dropped)
    && (dropped == [] ==> kept == addressed)
  }

  lemma DeliveredSnoc(kept: seq<Event>, dropped: seq<Event>, addressed: seq<Event>, ev: Event)
    requires Delivered(kept, dropped, addressed)
    ensures Delivered(kept + [ev], dropped, addressed + [ev]) && Delivered(kept, dropped + [ev], addressed + [ev])
  {
    SubseqSnoc(kept, addressed, ev);
  }

  lemma SendKeepsOk(b: Mailbox, ev: Event)
    requires BoxOk(b)
    ensures BoxOk(Send(b, ev))
    ensures Send(b, ev).dropped != b.dropped <==> |b.queue| == 64
  {
    DeliveredSnoc(Kept(b), b.dropped, b.addressed, ev);
    assert b.consumed + (b.queue + [ev]) == Kept(b) + [ev];
  }

  lemma ReceiveKeepsOk(b: Mailbox)
    requires BoxOk(b)
    ensures BoxOk(Receive(b))
  {
    if b.queue != [] {
      assert Kept(Receive(b)) == Kept(b);
    }
  }

  /** The presence broadcasts about u, in order. */
  function Said(log: seq<Announced>, u: Id): seq<bool> {
    if log == [] then []
    else Said(log[..|log| - 1], u) + (if log[|log| - 1].user == u then [log[|log| - 1].online] else [])
  }

  lemma SaidSnoc(log: seq<Announced>, u: Id, online: bool, v: Id)
    ensures Said(log + [Announced(u, online)], v) == Said(log, v) + (if v == u then [online] else [])
  {
    assert (log + [Announced(u, online)])[..|log|] == log;
  }

  /** Presence counts live sessions; room sets are non-empty and hold live sessions only. */
  ghost predicate Structured<S>(h: Hub<S>) {
    && h.presence.Keys == h.users.Keys
    && (forall u :: u in h.users ==> h.users[u] != {} && h.presence[u] == |h.users[u]|)
    && (forall u, s :: u in h.users && s in h.users[u] ==> s in h.boxes && h.boxes[s].user == u)
    && (forall s :: s in h.boxes ==> h.boxes[s].user in h.users && s in h.users[h.boxes[s].user])
    && (forall r :: r in h.rooms ==> h.rooms[r] != {} && h.rooms[r] <= h.boxes.Keys)
  }

  /** Alternating, online first, and ending in the present state. */
  ghost predicate Alternates(said: seq<bool>, online: bool) {
    && (forall k :: 0 <= k < |said| ==> said[k] == (k % 2 == 0))
    && online == (said != [] && said[|said| - 1])
  }

  /** The broadcasts about each user alternate, online first, and the last one tells the truth. */
  ghost predicate PresenceTold<S>(h: Hub<S>) {
    forall u :: Alternates(Said(h.log, u), IsOnline(h, u))
  }

  ghost predicate BoxesOk<S>(boxes: map<S, Mailbox>) { forall s :: s in boxes ==> BoxOk(boxes[s]) }

  lemma SendAllBoxes<S>(boxes: map<S, Mailbox>, to: set<S>, ev: Event)
    requires BoxesOk(boxes)
    ensures BoxesOk(SendAll(boxes, to, ev))
  {
    forall s | s in boxes ensures BoxOk(SendAll(boxes, to, ev)[s]) { SendKeepsOk(boxes[s], ev); }
  }

  lemma SendAllStructured<S>(h: Hub<S>, to: set<S>, ev: Event)
    requires Structured(h)
    ensures Structured(h.(boxes := SendAll(h.boxes, to, ev)))
  {
  }

  /** A broadcast that turns u's last announced state over, to what it now is. */
  lemma BroadcastTold<S>(before: Hub<S>, h: Hub<S>, u: Id, online: bool)
    requires PresenceTold(before) && h.log == before.log
    requires forall v :: v != u ==> IsOnline(h, v) == IsOnline(before, v)
    requires IsOnline(before, u) != online && IsOnline(h, u) == online
    ensures PresenceTold(BroadcastPresence(h, u, online))
  {
    forall v ensures Alternates(Said(h.log + [Announced(u, online)], v), IsOnline(h, v)) {
      SaidSnoc(h.log, u, online, v);
      assert Alternates(Said(h.log, v), IsOnline(before, v));
      if v == u { AlternatesSnoc(Said(h.log, u), online); }
    }
  }

  lemma AlternatesSnoc(said: seq<bool>, online: bool)
    requires Alternates(said, !online)
    ensures Alternates(said + [online], online)
  {
    if said != [] {
      var k := |said| - 1;
      assert said[k] == (k % 2 == 0);
    }
  }

  lemma SubscribedStructured<S>(h: Hub<S>, s: S, u: Id)
    requires Structured(h) && s !in h.boxes
    ensures Structured(Subscribed(h, s, u))
  {
    assert s !in At(h.users, u);
  }

  lemma UnsubscribedStructured<S>(h: Hub<S>, s: S)
    requires Structured(h) && s in h.boxes
    ensures Structured(Unsubscribed(h, s))
    ensures Sessions(h, h.boxes[s].user) >= 1
    ensures forall r :: r in Unsubscribed(h, s).rooms ==> s !in Unsubscribed(h, s).rooms[r]
  {
    var u := h.boxes[s].user;
    assert |h.users[u] - {s}| == Sessions(h, u) - 1;
    assert Sessions(h, u) - 1 == 0 <==> h.users[u] - {s} == {};
    var h1 := Unsubscribed(h, s);
    forall r | r in h1.rooms ensures h1.rooms[r] != {} {
      assert h.rooms[r] != {} && h.rooms[r] != {s};
    }
  }

  lemma SubscribeStructured<S>(h: Hub<S>, s: S, u: Id)
    requires Structured(h) && s !in h.boxes
    ensures Structured(Subscribe(h, s, u))
  {
    SubscribedStructured(h, s, u);
    var h1 := Subscribed(h, s, u);
    SendAllStructured(h1, InSomeRoom(h1.rooms), Presence(u, true));
  }

  /** An unsubscribed session is in no room. */
  lemma UnsubscribeStructured<S>(h: Hub<S>, s: S)
    requires Structured(h) && s in h.boxes
    ensures Structured(Unsubscribe(h, s))
    ensures forall r :: r in Unsubscribe(h, s).rooms ==> s !in Unsubscribe(h, s).rooms[r]
  {
    UnsubscribedStructured(h, s);
    var h1 := Unsubscribed(h, s);
    SendAllStructured(h1, InSomeRoom(h1.rooms), Presence(h.boxes[s].user, false));
  }

  lemma RoomOpsStructured<S>(h: Hub<S>, s: S, r: Id)
    requires Structured(h)
    ensures s in h.boxes ==> Structured(JoinHubRoom(h, s, r))
    ensures Structured(LeaveHubRoom(h, s, r))
  {
  }

  lemma ConsumeStructured<S>(h: Hub<S>, s: S)
    requires Structured(h) && s in h.boxes
    ensures Structured(Consume(h, s))
  {
  }

  lemma RemoveStructured<S>(h: Hub<S>, u: Id, r: Id)
    requires Structured(h)
    ensures Structured(RemoveUserFromRoom(h, u, r))
    ensures SubsOf(RemoveUserFromRoom(h, u, r), u, r) == {}
  {
    var subs := SubsOf(h, u, r);
    SendAllStructured(h.(rooms := Drop(h.rooms, r, subs)), subs, RoomRemoved(r, u));
  }

  /** All of the above, with the broadcasts and the queues. */
  ghost predicate HubOk<S>(h: Hub<S>) { Structured(h) && PresenceTold(h) && BoxesOk(h.boxes) }

  lemma SendAllKeepsOk<S>(h: Hub<S>, to: set<S>, ev: Event)
    requires HubOk(h)
    ensures HubOk(h.(boxes := SendAll(h.boxes, to, ev)))
  {
    SendAllStructured(h, to, ev);
    SendAllBoxes(h.boxes, to, ev);
    SameTold(h, h.(boxes := SendAll(h.boxes, to, ev)));
  }

  lemma SameTold<S>(before: Hub<S>, h: Hub<S>)
    requires PresenceTold(before) && h.log == before.log
    requires forall v :: IsOnline(h, v) == IsOnline(before, v)
    ensures PresenceTold(h)
  {
    forall v ensures Alternates(Said(h.log, v), IsOnline(h, v)) {
      assert Alternates(Said(before.log, v), IsOnline(before, v));
    }
  }

  lemma PublishKeepsOk<S>(h: Hub<S>, k: Id, ev: Event)
    requires HubOk(h)
    ensures HubOk(PublishRoom(h, k, ev)) && HubOk(PublishUser(h, k, ev))
  {
    SendAllKeepsOk(h, At(h.rooms, k), ev);
    SendAllKeepsOk(h, At(h.users, k), ev);
  }

  lemma SubscribeKeepsOk<S>(h: Hub<S>, s: S, u: Id)
    requires HubOk(h) && s !in h.boxes
    ensures HubOk(Subscribe(h, s, u))
  {
    var h1 := Subscribed(h, s, u);
    SubscribeStructured(h, s, u);
    assert BoxOk(NewBox(u));
    SendAllBoxes(h1.boxes, InSomeRoom(h1.rooms), Presence(u, true));
    assert u in h.users ==> Sessions(h, u) == |h.users[u]| > 0;
    if Sessions(h1, u) == 1 { BroadcastTold(h, h1, u, true); } else { SameTold(h, h1); }
  }

  lemma UnsubscribeKeepsOk<S>(h: Hub<S>, s: S)
    requires HubOk(h) && s in h.boxes
    ensures HubOk(Unsubscribe(h, s))
  {
    var u, h1 := h.boxes[s].user, Unsubscribed(h, s);
    UnsubscribeStructured(h, s);
    UnsubscribedStructured(h, s);
    SendAllBoxes(h1.boxes, InSomeRoom(h1.rooms), Presence(u, false));
    if Sessions(h, u) <= 1 { BroadcastTold(h, h1, u, false); } else { SameTold(h, h1); }
  }

  lemma RoomOpsKeepOk<S>(h: Hub<S>, s: S, r: Id)
    requires HubOk(h)
    ensures s in h.boxes ==> HubOk(JoinHubRoom(h, s, r)) && HubOk(Consume(h, s))
    ensures HubOk(LeaveHubRoom(h, s, r))
  {
    RoomOpsStructured(h, s, r);
    SameTold(h, LeaveHubRoom(h, s, r));
    if s in h.boxes {
      SameTold(h, JoinHubRoom(h, s, r));
      ConsumeStructured(h, s);
      SameTold(h, Consume(h, s));
      ReceiveKeepsOk(h.boxes[s]);
    }
  }

  lemma RemoveKeepsOk<S>(h: Hub<S>, u: Id, r: Id)
    requires HubOk(h)
    ensures HubOk(RemoveUserFromRoom(h, u, r))
  {
    RemoveStructured(h, u, r);
    SendAllBoxes(h.boxes, SubsOf(h, u, r), RoomRemoved(r, u));
    SameTold(h, RemoveUserFromRoom(h, u, r));
  }
}

/** The hub object and its subscribers. */
module HubService {
  import opened Prelude
  import opened Database
  import M = HubModel

  class Sub {
    const user: Id
    var ch: seq<M.Event>
    var closed: bool
    ghost var consumed: seq<M.Event>
    ghost var addressed: seq<M.Event>
    ghost var dropped: seq<M.Event>

    constructor (u: Id)
      ensures user == u && !closed && Box() == M.NewBox(u)
    {
      user, ch, closed := u, [], false;
      consumed, addressed, dropped := [], [], [];
    }

    ghost function Box(): M.Mailbox
      reads this
    {
      M.Mailbox(user, ch, consumed, addressed, dropped)
    }

    /** A send on a closed channel would panic. */
    method Send(ev: M.Event)
      requires !closed
      modifies this
      ensures Box() == M.Send(old(Box()), ev) && closed == old(closed)
    {
      addressed := addressed + [ev];
      if |ch| < M.CAPACITY {
        ch := ch + [ev];
      } else {
        dropped := dropped + [ev];
      }
    }

    method Receive() returns (ev: Option<M.Event>)
      modifies this
      ensures Box() == M.Receive(old(Box())) && closed == old(closed)
      ensures ev == if old(ch) == [] then None else Some(old(ch)[0])
    {
      if ch == [] { return None; }
      ev := Some(ch[0]);
      consumed := consumed + [ch[0]];
      ch := ch[1..];
    }
  }

  lemma LeftLive(rooms: map<Id, set<Sub>>, users: map<Id, set<Sub>>, live: set<Sub>, s: Sub)
    requires forall r :: r in rooms ==> rooms[r] <= live
    requires forall u, t :: u in users && t in users[u] ==> t in live && t.user == u
    ensures forall r :: r in M.LeftAll(rooms, s) ==> M.LeftAll(rooms, s)[r] <= live - {s}
    ensures var left := M.Drop(users, s.user, {s});
            forall u, t :: u in left && t in left[u] ==> t in live - {s} && t.user == u
  {
  }

  class Hub {
    var rooms: map<Id, set<Sub>>
    var users: map<Id, set<Sub>>
    var presenceCnt: map<Id, int>
    ghost var live: set<Sub>
    ghost var log: seq<M.Announced>

    constructor ()
      ensures Valid() && View() == M.NewHub() && live == {}
    {
      rooms, users, presenceCnt := map[], map[], map[];
      live, log := {}, [];
    }

    ghost function Boxes(): map<Sub, M.Mailbox>
      reads this`live, live
    {
      map s | s in live :: s.Box()
    }

    ghost predicate AllOpen()
      reads this`live, live
    {
      forall s :: s in live ==> !s.closed
    }

    ghost function View(): M.Hub<Sub>
      reads this, live
    {
      M.Hub(rooms, users, presenceCnt, Boxes(), log)
    }

    /** Only live subscribers, with open channels, are reachable. */
    ghost predicate Valid()
      reads this, live
    {
      && AllOpen()
      && (forall r :: r in rooms ==> rooms[r] <= live)
      && (forall u, s :: u in users && s in users[u] ==> s in live && s.user == u)
    }

    /** The loops over a snapshot of subscribers. */
    method SendEach(subs: set<Sub>, ev: M.Event)
      requires subs <= live && AllOpen()
      modifies live
      ensures Boxes() == M.SendAll(old(Boxes()), subs, ev) && AllOpen()
    {
      var todo := subs;
      while todo != {}
        invariant todo <= subs
        invariant AllOpen()
        invariant forall s :: s in live ==>
          s.Box() == if s in subs - todo then M.Send(old(s.Box()), ev) else old(s.Box())
        decreases |todo|
      {
        var s :| s in todo;
        s.Send(ev);
        todo := todo - {s};
      }
    }

    method PublishRoom(r: Id, ev: M.Event)
      requires Valid()
      modifies live
      ensures Valid() && View() == M.PublishRoom(old(View()), r, ev)
    {
      SendEach(if r in rooms then rooms[r] else {}, ev);
    }

    method PublishUser(u: Id, ev: M.Event)
      requires Valid()
      modifies live
      ensures Valid() && View() == M.PublishUser(old(View()), u, ev)
    {
      SendEach(if u in users then users[u] else {}, ev);
    }

    /** The loop that collects every subscriber of some room. */
    method SeenInRooms() returns (seen: set<Sub>)
      ensures seen == M.InSomeRoom(rooms)
    {
      seen := {};
      var todo := rooms.Keys;
      while |todo| > 0
        invariant todo <= rooms.Keys
        invariant forall s :: s in seen <==> exists r :: r in rooms && r !in todo && s in rooms[r]
        decreases |todo|
      {
        ghost var some := Inhabited(todo);
        var r :| r in todo;
        todo := todo - {r};
        seen := seen + rooms[r];
      }
    }

    method BroadcastPresence(u: Id, online: bool)
      requires AllOpen() && forall r :: r in rooms ==> rooms[r] <= live
      modifies this`log, live
      ensures View() == M.BroadcastPresence(old(View()), u, online) && AllOpen()
    {
      var seen := SeenInRooms();
      SendEach(seen, M.Presence(u, online));
      log := log + [M.Announced(u, online)];
    }

    /** Subscribe up to the release of the lock; first tells whether to broadcast. */
    method Enter(u: Id) returns (s: Sub, first: bool)
      requires Valid()
      modifies this
      ensures Valid() && fresh(s) && s.user == u && live == old(live) + {s}
      ensures View() == M.Subscribed(old(View()), s, u) && first == (M.Sessions(View(), u) == 1)
    {
      s := new Sub(u);
      ghost var before := Boxes();
      users := users[u := (if u in users then users[u] else {}) + {s}];
      var cnt := (if u in presenceCnt then presenceCnt[u] else 0) + 1;
      presenceCnt := presenceCnt[u := cnt];
      live := live + {s};
      first := cnt == 1;
      assert Boxes() == before[s := M.NewBox(u)];
    }

    method Subscribe(u: Id) returns (s: Sub)
      requires Valid()
      modifies this, live
      ensures Valid() && fresh(s) && s.user == u && live == old(live) + {s}
      ensures View() == M.Subscribe(old(View()), s, u)
    {
      var first;
      s, first := Enter(u);
      if first { BroadcastPresence(u, true); }
    }

    method JoinRoom(s: Sub, r: Id)
      requires Valid() && s in live
      modifies this`rooms
      ensures Valid() && View() == M.JoinHubRoom(old(View()), s, r)
    {
      rooms := rooms[r := (if r in rooms then rooms[r] else {}) + {s}];
    }

    method LeaveRoom(s: Sub, r: Id)
      requires Valid()
      modifies this`rooms
      ensures Valid() && View() == M.LeaveHubRoom(old(View()), s, r)
    {
      rooms := M.Drop(rooms, r, {s});
    }

    /** The loop over the room's subscribers. */
    method SubsInRoom(u: Id, r: Id) returns (subs: set<Sub>)
      ensures subs == set s | s in M.At(rooms, r) && s.user == u
    {
      subs := {};
      var todo := M.At(rooms, r);
      while todo != {}
        invariant todo <= M.At(rooms, r)
        invariant subs == set s | s in M.At(rooms, r) - todo && s.user == u
        decreases |todo|
      {
        var s :| s in todo;
        todo := todo - {s};
        if s.user == u { subs := subs + {s}; }
      }
    }

    method RemoveUserFromRoom(u: Id, r: Id)
      requires Valid()
      modifies this`rooms, live
      ensures Valid() && View() == M.RemoveUserFromRoom(old(View()), u, r)
    {
      var subs := SubsInRoom(u, r);
      assert subs == M.SubsOf(View(), u, r);
      rooms := M.Drop(rooms, r, subs);
      SendEach(subs, M.RoomRemoved(r, u));
    }

    method CountDown(u: Id) returns (last: bool)
      modifies this`presenceCnt
      ensures var left := (if u in old(presenceCnt) then old(presenceCnt)[u] else 0) - 1;
              && last == (left <= 0)
              && presenceCnt == if left <= 0 then old(presenceCnt) - {u} else old(presenceCnt)[u := left]
    {
      var cnt := (if u in presenceCnt then presenceCnt[u] else 0) - 1;
      last := cnt <= 0;
      presenceCnt := if last then presenceCnt - {u} else presenceCnt[u := cnt];
    }

    method Close(s: Sub)
      requires s in live && AllOpen()
      modifies this`live, s`closed
      ensures s.closed && live == old(live) - {s} && AllOpen() && Boxes() == old(Boxes()) - {s}
    {
      ghost var before := Boxes();
      s.closed := true;
      live := live - {s};
      assert Boxes() == before - {s};
    }

    /** Every room, and the sessions of its user, without s. */
    method Detach(s: Sub) returns (last: bool)
      requires Valid() && s in live
      modifies this`rooms, this`users, this`presenceCnt
      ensures View() == M.Unsubscribed(old(View()), s).(boxes := old(View()).boxes)
      ensures last == (M.Sessions(old(View()), s.user) <= 1)
    {
      rooms := M.LeftAll(rooms, s);
      users := M.Drop(users, s.user, {s});
      last := CountDown(s.user);
    }

    /** Unsubscribe up to the close of the channel. */
    method Exit(s: Sub) returns (last: bool)
      requires Valid() && s in live
      modifies this, s
      ensures Valid() && s.closed && live == old(live) - {s}
      ensures View() == M.Unsubscribed(old(View()), s) && last == (M.Sessions(old(View()), s.user) <= 1)
    {
      LeftLive(rooms, users, live, s);
      last := Detach(s);
      Close(s);
    }

    method Unsubscribe(s: Sub)
      requires Valid() && s in live
      modifies this, live
      ensures Valid() && s.closed && live == old(live) - {s}
      ensures View() == M.Unsubscribe(old(View()), s)
    {
      var last := Exit(s);
      if last { BroadcastPresence(s.user, false); }
    }

    method IsOnline(u: Id) returns (on: bool)
      ensures on == M.IsOnline(View(), u)
    {
      on := u in presenceCnt && presenceCnt[u] > 0;
    }
  }
}
