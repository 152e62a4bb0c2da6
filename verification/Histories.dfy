/** What becomes of the message table, and so of every history, over a run. */
module HistoryLaws {
  import opened Prelude
  import opened Database
  import opened StoreLaws
  import opened HubModel
  import opened SessionModel
  import opened World
  import opened Safety
  import opened BadgeLaws

  /** A message as it was posted: without its tombstone. */
  function Bare(m: Message): Message { m.(deletedAt := None) }

  function AsPosted(ms: seq<Message>): seq<Message> { Map(ms, Bare) }

  /** The message that a change of the table adds, if it adds one. */
  function Added(db: DB, db': DB): seq<Message> {
    if |db'.messages| > |db.messages| then [Bare(db'.messages[|db'.messages| - 1])] else []
  }

  /** Apart from tombstones, the table is as it was, with what was posted at its end. */
  ghost predicate Grown(db: DB, db': DB) {
    AsPosted(db'.messages) == AsPosted(db.messages) + Added(db, db')
  }

  lemma SameGrown(db: DB, db': DB)
    requires db'.messages == db.messages
    ensures Grown(db, db')
  {
    assert AsPosted(db.messages) + [] == AsPosted(db.messages);
  }

  lemma AppendGrown(db: DB, db': DB, m: Message)
    requires db'.messages == db.messages + [m]
    ensures Grown(db, db')
  {
    MapSnoc(db.messages, m, Bare);
  }

  lemma {:induction false} TombstonedAsPosted(ms: seq<Message>, id: Id, now: int)
    ensures AsPosted(Map(ms, Tombstone(id, now))) == AsPosted(ms)
  {
    var out := Map(ms, Tombstone(id, now));
    forall i | 0 <= i < |ms| ensures AsPosted(out)[i] == AsPosted(ms)[i] {}
  }

  lemma DeleteGrown(db: DB, id: Id, now: int)
    ensures Grown(db, DeleteMessage(db, id, now))
  {
    TombstonedAsPosted(db.messages, id, now);
    SameGrown(db, db);
    assert AsPosted(db.messages) + [] == AsPosted(db.messages);
  }

  // ----- one step -----

  lemma SendToRoomGrown(c: Ctx<Sid>, r: Id, body: string)
    ensures Grown(c.db, SendToRoom(c, r, body).db)
  {
    SendToRoomIs(c, r, body);
    if SendToRoom(c, r, body) == c {
      SameGrown(c.db, c.db);
    } else {
      AppendGrown(c.db, StoreMessage(c, r, body).0, StoreMessage(c, r, body).1.value.msg);
    }
  }

  lemma SendToPeerGrown(c: Ctx<Sid>, p: Id, body: string)
    ensures Grown(c.db, SendToPeer(c, p, body).db)
  {
    SendToPeerIs(c, p, body);
    if SendToPeer(c, p, body) == c {
      SameGrown(c.db, c.db);
    } else {
      var (db, res) := InsertDM(c.db, c.sess.user, p, body);
      AppendGrown(c.db, db, res.value);
    }
  }

  lemma SendGrown(c: Ctx<Sid>, text: string, allowed: bool)
    ensures Grown(c.db, SendCurrent(c, text, allowed).db)
  {
    SameGrown(c.db, c.db);
    match c.sess.view
    case NoView =>
    case RoomView(r) => SendToRoomGrown(c, r, Truncate(text));
    case DMView(p) => SendToPeerGrown(c, p, Truncate(text));
  }

  lemma MessageGrown(c: Ctx<Sid>, a: Action)
    requires a.Say? || a.CmdMsg?
    ensures Grown(c.db, Act(c, a).db)
  {
    ActIs(c, a);
    if a.Say? {
      SendGrown(c, a.text, a.allowed);
    } else {
      var u := UserByHandle(c.db, a.handle);
      MsgIs(c, a.handle, a.text, a.allowed, u);
      SameGrown(c.db, c.db);
      if u.Some? {
        SameGrown(c.db, OpenDM(c, u.value).db);
        SendGrown(OpenDM(c, u.value), a.text, a.allowed);
      }
    }
  }

  lemma DeleteCommandGrown(c: Ctx<Sid>, a: Action)
    requires a.CmdDelete?
    ensures Grown(c.db, Act(c, a).db)
  {
    SameGrown(c.db, c.db);
    DeleteGrown(c.db, a.id, a.now);
  }

  lemma OthersWriteNoMessage(c: Ctx<Sid>, a: Action)
    requires !a.Say? && !a.CmdMsg? && !a.CmdDelete?
    ensures Act(c, a).db.messages == c.db.messages
  {
  }

  lemma ActGrown(c: Ctx<Sid>, a: Action)
    ensures Grown(c.db, Act(c, a).db)
  {
    if a.Say? || a.CmdMsg? {
      MessageGrown(c, a);
    } else if a.CmdDelete? {
      DeleteCommandGrown(c, a);
    } else {
      OthersWriteNoMessage(c, a);
      SameGrown(c.db, Act(c, a).db);
    }
  }

  lemma InitWritesNoMessage(db: DB, hub: Hub<Sid>, s: Sid, u: Id, admin: bool)
    ensures Init(db, hub, s, u, admin).db.messages == db.messages
  {
  }

  lemma StoreGrown(w: World, a: Action)
    requires !IsSessionAction(a) && !a.Connect? && !a.Disconnect? && !a.PurgeOld?
    ensures Grown(w.db, Step(w, a).db)
  {
    if a.Register? { RegisteredRows(w.db, a.handle, a.defaultRoom, a.now); }
    SameGrown(w.db, Step(w, a).db);
  }

  lemma RegisteredRows(db: DB, h: string, room: string, now: int)
    ensures Registered(db, h, room, now).messages == db.messages
  {
  }

  /** Every step but a purge keeps all messages, and adds what it posts at the end. */
  lemma StepGrown(w: World, a: Action)
    requires !a.PurgeOld?
    ensures Grown(w.db, Step(w, a).db)
  {
    SameGrown(w.db, w.db);
    if a.Connect? {
      ConnectIs(w, a.s, a.user);
      InitWritesNoMessage(w.db, w.hub, a.s, a.user, IsAdmin(w.db, a.user));
      SameGrown(w.db, Init(w.db, w.hub, a.s, a.user, IsAdmin(w.db, a.user)).db);
    } else if a.Disconnect? {
      DisconnectIs(w, a.s);
    } else if IsSessionAction(a) {
      SessionStep(w, a);
      if a.s in w.sessions { ActGrown(Focus(w, a.s), a); }
    } else {
      StoreGrown(w, a);
    }
  }

  lemma {:induction false} FilterAsPosted(ms: seq<Message>, p: Message -> bool)
    requires forall m :: p(Bare(m)) == p(m)
    ensures Filter(AsPosted(ms), p) == AsPosted(Filter(ms, p))
  {
    if ms != [] {
      var n := |ms| - 1;
      FilterAsPosted(ms[..n], p);
      MapSnoc(Filter(ms[..n], p), ms[n], Bare);
      assert AsPosted(ms)[..n] == AsPosted(ms[..n]);
      assert Filter(ms[..n], p) + [] == Filter(ms[..n], p);
    }
  }

  lemma {:induction false} MapSubseq(xs: seq<Message>, zs: seq<Message>)
    requires IsSubseq(xs, zs)
    ensures IsSubseq(AsPosted(xs), AsPosted(zs))
    decreases |zs|
  {
    if xs != [] {
      assert AsPosted(zs)[1..] == AsPosted(zs[1..]);
      if xs[0] == zs[0] && IsSubseq(xs[1..], zs[1..]) {
        MapSubseq(xs[1..], zs[1..]);
        assert AsPosted(xs)[1..] == AsPosted(xs[1..]);
      } else {
        MapSubseq(xs, zs[1..]);
      }
    }
  }

  /** A purge leaves an in-order part. */
  lemma StepHistory(w: World, a: Action)
    ensures IsSubseq(AsPosted(Step(w, a).db.messages), AsPosted(w.db.messages) + Added(w.db, Step(w, a).db))
    ensures !a.PurgeOld? ==> Grown(w.db, Step(w, a).db)
  {
    if a.PurgeOld? {
      var ms, ms' := w.db.messages, Filter(w.db.messages, Survives(a.cutoff));
      FilterShorter(ms, Survives(a.cutoff));
      FilterSubseq(ms, Survives(a.cutoff));
      MapSubseq(ms', ms);
      assert AsPosted(ms) + [] == AsPosted(ms);
    } else {
      StepGrown(w, a);
      SubseqSelf(AsPosted(Step(w, a).db.messages));
    }
  }

  // ----- a message that is not deleted -----

  /** The message is found as it was. */
  ghost predicate Stays(db: DB, db': DB, m: Message) {
    Find(db.messages, m.id) == Some(m) ==> Find(db'.messages, m.id) == Some(m)
  }

  lemma AppendStays(db: DB, db': DB, new_: Message, m: Message)
    requires Sorted(db.messages) && new_.id == NextId(db.messages) && db'.messages == db.messages + [new_]
    ensures Stays(db, db', m)
  {
    FindFresh(db.messages);
    FindSnoc(db.messages, new_, m.id);
  }

  lemma SendStays(c: Ctx<Sid>, text: string, allowed: bool, m: Message)
    requires Sorted(c.db.messages)
    ensures Stays(c.db, SendCurrent(c, text, allowed).db, m)
  {
    match c.sess.view
    case NoView =>
    case RoomView(r) => RoomSendStays(c, r, Truncate(text), m);
    case DMView(p) => PeerSendStays(c, p, Truncate(text), m);
  }

  lemma RoomSendStays(c: Ctx<Sid>, r: Id, body: string, m: Message)
    requires Sorted(c.db.messages)
    ensures Stays(c.db, SendToRoom(c, r, body).db, m)
  {
    SendToRoomIs(c, r, body);
    if SendToRoom(c, r, body) != c {
      AppendStays(c.db, StoreMessage(c, r, body).0, StoreMessage(c, r, body).1.value.msg, m);
    }
  }

  lemma PeerSendStays(c: Ctx<Sid>, p: Id, body: string, m: Message)
    requires Sorted(c.db.messages)
    ensures Stays(c.db, SendToPeer(c, p, body).db, m)
  {
    SendToPeerIs(c, p, body);
    if SendToPeer(c, p, body) != c {
      AppendStays(c.db, InsertDM(c.db, c.sess.user, p, body).0, InsertDM(c.db, c.sess.user, p, body).1.value, m);
    }
  }

  lemma MessageStays(c: Ctx<Sid>, a: Action, m: Message)
    requires Sorted(c.db.messages) && (a.Say? || a.CmdMsg?)
    ensures Stays(c.db, Act(c, a).db, m)
  {
    ActIs(c, a);
    if a.Say? {
      SendStays(c, a.text, a.allowed, m);
    } else {
      var u := UserByHandle(c.db, a.handle);
      MsgIs(c, a.handle, a.text, a.allowed, u);
      if u.Some? { SendStays(OpenDM(c, u.value), a.text, a.allowed, m); }
    }
  }

  lemma DeletionStays(db: DB, id: Id, now: int, m: Message)
    requires id != m.id
    ensures Stays(db, DeleteMessage(db, id, now), m)
  {
    FindTombstoned(db.messages, id, now, m.id);
  }

  lemma DeleteStays(c: Ctx<Sid>, a: Action, m: Message)
    requires a.CmdDelete? && a.id != m.id
    ensures Stays(c.db, Act(c, a).db, m)
  {
    DeletionStays(c.db, a.id, a.now, m);
  }

  lemma PurgeStays(db: DB, cutoff: int, m: Message)
    requires Valid(db) && m.deletedAt.None?
    ensures Stays(db, Purge(db, cutoff), m)
  {
    PurgeExact(db, cutoff);
  }

  /** A step leaves a message that was never deleted as it is, unless it is a /delete of that message. */
  lemma StepKeepsLive(w: World, a: Action, m: Message)
    requires Valid(w.db) && m.deletedAt.None? && !(a.CmdDelete? && a.id == m.id)
    ensures Stays(w.db, Step(w, a).db, m)
  {
    if a.PurgeOld? {
      PurgeStays(w.db, a.cutoff, m);
      StoreStep(w, a);
    } else if a.Connect? {
      ConnectIs(w, a.s, a.user);
      InitWritesNoMessage(w.db, w.hub, a.s, a.user, IsAdmin(w.db, a.user));
    } else if a.Disconnect? {
      DisconnectIs(w, a.s);
    } else if IsSessionAction(a) {
      SessionStep(w, a);
      if a.s in w.sessions { SessionKeepsLive(Focus(w, a.s), a, m); }
    } else {
      StoreWritesNoMessage(w, a);
    }
  }

  lemma StoreWritesNoMessage(w: World, a: Action)
    requires !IsSessionAction(a) && !a.Connect? && !a.Disconnect? && !a.PurgeOld?
    ensures Step(w, a).db.messages == w.db.messages
  {
    if a.Register? { RegisteredRows(w.db, a.handle, a.defaultRoom, a.now); }
  }

  lemma SessionKeepsLive(c: Ctx<Sid>, a: Action, m: Message)
    requires Sorted(c.db.messages) && !(a.CmdDelete? && a.id == m.id)
    ensures Stays(c.db, Act(c, a).db, m)
  {
    if a.Say? || a.CmdMsg? {
      MessageStays(c, a, m);
    } else if a.CmdDelete? {
      DeleteStays(c, a, m);
    } else {
      OthersWriteNoMessage(c, a);
    }
  }

  // ----- runs -----

  /** What the steps of the run post, in order. */
  function PostedBy(w: World, acts: seq<Action>): seq<Message> {
    if acts == [] then []
    else
      var n := |acts| - 1;
      PostedBy(w, acts[..n]) + Added(Run(w, acts[..n]).db, Run(w, acts).db)
  }

  predicate NoPurge(acts: seq<Action>) { forall i :: 0 <= i < |acts| ==> !acts[i].PurgeOld? }

  lemma {:induction false} RunHistory(w: World, acts: seq<Action>)
    ensures IsSubseq(AsPosted(Run(w, acts).db.messages), AsPosted(w.db.messages) + PostedBy(w, acts))
    ensures NoPurge(acts) ==> AsPosted(Run(w, acts).db.messages) == AsPosted(w.db.messages) + PostedBy(w, acts)
  {
    var start := AsPosted(w.db.messages);
    if acts == [] {
      SubseqSelf(start);
      assert start + [] == start;
    } else {
      var n := |acts| - 1;
      var w1 := Run(w, acts[..n]);
      RunHistory(w, acts[..n]);
      StepHistory(w1, acts[n]);
      HistorySnoc(start, PostedBy(w, acts[..n]), AsPosted(w1.db.messages), Added(w1.db, Step(w1, acts[n]).db),
                  AsPosted(Step(w1, acts[n]).db.messages));
    }
  }

  lemma HistorySnoc(start: seq<Message>, posted: seq<Message>, mid: seq<Message>, added: seq<Message>, last: seq<Message>)
    requires IsSubseq(mid, start + posted) && IsSubseq(last, mid + added)
    ensures IsSubseq(last, start + (posted + added))
    ensures mid == start + posted && last == mid + added ==> last == start + (posted + added)
  {
    SubseqAppend(mid, start + posted, added);
    SubseqTrans(last, mid + added, (start + posted) + added);
    assert (start + posted) + added == start + (posted + added);
  }

  lemma ChannelHistory(w: World, acts: seq<Action>, p: Message -> bool)
    requires forall m :: p(Bare(m)) == p(m)
    ensures IsSubseq(AsPosted(Filter(Run(w, acts).db.messages, p)),
                     AsPosted(Filter(w.db.messages, p)) + Filter(PostedBy(w, acts), p))
    ensures NoPurge(acts) ==>
              AsPosted(Filter(Run(w, acts).db.messages, p))
              == AsPosted(Filter(w.db.messages, p)) + Filter(PostedBy(w, acts), p)
  {
    var ms, ms', posted := w.db.messages, Run(w, acts).db.messages, PostedBy(w, acts);
    RunHistory(w, acts);
    SubseqFilter(AsPosted(ms'), AsPosted(ms) + posted, p);
    FilterConcat(AsPosted(ms), posted, p);
    FilterAsPosted(ms, p);
    FilterAsPosted(ms', p);
  }
}
