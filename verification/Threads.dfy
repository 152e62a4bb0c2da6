/** Direct-message badges: one for each message of the peer, none for the user's own. */
module ThreadLaws {
  import opened Prelude
  import opened Database
  import opened StoreLaws
  import opened HubModel
  import opened SessionModel
  import opened World
  import opened Safety
  import opened BadgeLaws
  import opened EventLaws

  /** The badge of the thread with p, and the messages of p that the session has not seen. */
  function DMDebt(b: Mailbox, x: Session, p: Id): nat { Get(x.unreadDM, p) + Unseen(b, IsDMFrom(x.user, p)) }

  /** Session t is live and does not show the thread with p. */
  ghost predicate Away(w: World, t: Sid, p: Id) {
    t in w.sessions && t in w.hub.boxes && w.sessions[t].view != DMView(p)
  }

  ghost function DMDebtOf(w: World, t: Sid, p: Id): nat
    requires Away(w, t, p)
  {
    DMDebt(w.hub.boxes[t], w.sessions[t], p)
  }

  /** The step stored a message that p wrote in the thread of u and p. */
  predicate Wrote(db: DB, db': DB, u: Id, p: Id) {
    && |db'.messages| > |db.messages|
    && var m := db'.messages[|db'.messages| - 1];
    m.author == p && m.place == if u < p then InDM(u, p) else InDM(p, u)
  }

  // ----- sends -----

  lemma DMStored(db: DB, author: Id, peer: Id, body: string)
    requires InsertDM(db, author, peer, body).1.Ok?
    ensures var (db', res) := InsertDM(db, author, peer, body);
            && db'.messages == db.messages + [res.value] && res.value.author == author && author != peer
            && res.value.place == if author < peer then InDM(author, peer) else InDM(peer, author)
  {
  }

  lemma PeerDebt(c: Ctx<Sid>, q: Id, body: string, t: Sid, x: Session, p: Id)
    requires Structured(c.hub) && t in c.hub.boxes && c.hub.boxes[t].user == x.user
    ensures var c' := SendToPeer(c, q, body);
            && t in c'.hub.boxes
            && DMDebt(c'.hub.boxes[t], x, p)
               == DMDebt(c.hub.boxes[t], x, p) + (if Wrote(c.db, c'.db, x.user, p) then 1 else 0)
  {
    SendToPeerIs(c, q, body);
    if SendToPeer(c, q, body) != c {
      var m := InsertDM(c.db, c.sess.user, q, body).1.value;
      DMStored(c.db, c.sess.user, q, body);
      DMSendUnseen(c.hub, c.sess.user, q, m, t, IsDMFrom(x.user, p));
    }
  }

  lemma RoomStored(c: Ctx<Sid>, k: Id, body: string)
    requires StoreMessage(c, k, body).1.Ok?
    ensures var (db, res) := StoreMessage(c, k, body);
            db.messages == c.db.messages + [res.value.msg] && res.value.msg.place == InRoom(k)
  {
  }

  lemma RoomDebt(c: Ctx<Sid>, k: Id, body: string, t: Sid, x: Session, p: Id)
    requires Structured(c.hub) && t in c.hub.boxes && c.hub.boxes[t].user == x.user
    ensures var c' := SendToRoom(c, k, body);
            t in c'.hub.boxes && DMDebt(c'.hub.boxes[t], x, p) == DMDebt(c.hub.boxes[t], x, p)
            && !Wrote(c.db, c'.db, x.user, p)
  {
    SendToRoomIs(c, k, body);
    if SendToRoom(c, k, body) != c {
      var sent := StoreMessage(c, k, body).1.value;
      RoomStored(c, k, body);
      RoomSendUnseen(c.hub, k, RoomMsg(k, sent.msg, set y | y in sent.notified), sent.notified, t, IsDMFrom(x.user, p));
    }
  }

  lemma SendDMDebt(c: Ctx<Sid>, text: string, allowed: bool, t: Sid, x: Session, p: Id)
    requires Structured(c.hub) && t in c.hub.boxes && c.hub.boxes[t].user == x.user
    ensures var c' := SendCurrent(c, text, allowed);
            && t in c'.hub.boxes
            && DMDebt(c'.hub.boxes[t], x, p)
               == DMDebt(c.hub.boxes[t], x, p) + (if Wrote(c.db, c'.db, x.user, p) then 1 else 0)
  {
    match c.sess.view
    case NoView =>
    case RoomView(k) => RoomDebt(c, k, Truncate(text), t, x, p);
    case DMView(q) => PeerDebt(c, q, Truncate(text), t, x, p);
  }

  // ----- one step of a session -----

  /** A session that ends up not showing the thread kept its badge. */
  ghost predicate SameBadge(x: Session, x': Session, p: Id) {
    x'.user == x.user && (x'.view != DMView(p) ==> Get(x'.unreadDM, p) == Get(x.unreadDM, p))
  }

  lemma SilentBadge(c: Ctx<Sid>, a: Action, p: Id)
    requires IsSilent(a)
    ensures SameBadge(c.sess, Act(c, a).sess, p)
  {
    if a.ShowDM? { ShowIs(c, a); } else { SilentKeepsDMs(c, a); }
  }

  lemma SilentKeepsDMs(c: Ctx<Sid>, a: Action)
    requires IsSilent(a) && !a.ShowDM?
    ensures Act(c, a).sess.unreadDM == c.sess.unreadDM && Act(c, a).sess.user == c.sess.user
  {
  }

  lemma SilentDMDebt(w: World, a: Action, t: Sid, p: Id)
    requires Valid(w.db) && Linked(w) && IsSilent(a) && a.s in w.sessions
    requires Away(w, t, p) && Away(Put(w, Act(Focus(w, a.s), a)), t, p)
    ensures DMDebtOf(Put(w, Act(Focus(w, a.s), a)), t, p) == DMDebtOf(w, t, p)
  {
    var c' := Act(Focus(w, a.s), a);
    ActTame(Focus(w, a.s), a);
    ActSameUser(Focus(w, a.s), a);
    SilentBadge(Focus(w, a.s), a, p);
    QuietUnseen(w.hub.boxes[t], c'.hub.boxes[t], IsDMFrom(w.sessions[t].user, p));
  }

  lemma SayDMDebt(w: World, s: Sid, text: string, allowed: bool, t: Sid, p: Id)
    requires Structured(w.hub) && Linked(w) && s in w.sessions
    requires Away(w, t, p) && Away(Put(w, SendCurrent(Focus(w, s), text, allowed)), t, p)
    ensures var w' := Put(w, SendCurrent(Focus(w, s), text, allowed));
            DMDebtOf(w', t, p) == DMDebtOf(w, t, p) + (if Wrote(w.db, w'.db, w.sessions[t].user, p) then 1 else 0)
  {
    SendSame(Focus(w, s), text, allowed);
    SendDMDebt(Focus(w, s), text, allowed, t, w.sessions[t], p);
  }

  lemma OpenDMSame(w: World, s: Sid, q: Id, t: Sid, p: Id)
    requires s in w.sessions && Away(w, t, p)
    ensures var w1 := Put(w, OpenDM(Focus(w, s), q));
            && t in w1.sessions && SameBadge(w.sessions[t], w1.sessions[t], p)
            && w1.db.messages == w.db.messages && w1.hub == w.hub
  {
  }

  lemma OpenSendDMDebt(w: World, s: Sid, q: Id, text: string, allowed: bool, t: Sid, p: Id)
    requires Structured(w.hub) && Linked(w) && s in w.sessions
    requires Away(w, t, p) && Away(Put(w, SendCurrent(OpenDM(Focus(w, s), q), text, allowed)), t, p)
    ensures var w' := Put(w, SendCurrent(OpenDM(Focus(w, s), q), text, allowed));
            DMDebtOf(w', t, p) == DMDebtOf(w, t, p) + (if Wrote(w.db, w'.db, w.sessions[t].user, p) then 1 else 0)
  {
    var c1 := OpenDM(Focus(w, s), q);
    OpenDMSame(w, s, q, t, p);
    PutSent(w, c1, text, allowed);
    SendDMDebt(c1, text, allowed, t, Put(w, c1).sessions[t], p);
  }

  lemma MsgDMDebt(w: World, s: Sid, h: string, text: string, allowed: bool, t: Sid, p: Id)
    requires Structured(w.hub) && Linked(w) && s in w.sessions
    requires Away(w, t, p) && Away(Put(w, Msg(Focus(w, s), h, text, allowed)), t, p)
    ensures var w' := Put(w, Msg(Focus(w, s), h, text, allowed));
            DMDebtOf(w', t, p) == DMDebtOf(w, t, p) + (if Wrote(w.db, w'.db, w.sessions[t].user, p) then 1 else 0)
  {
    var u := UserByHandle(w.db, h);
    MsgIs(Focus(w, s), h, text, allowed, u);
    PutFocus(w, s);
    if u.Some? && u.value != w.sessions[s].user {
      if text == "" { OpenDMSame(w, s, u.value, t, p); } else { OpenSendDMDebt(w, s, u.value, text, allowed, t, p); }
    }
  }

  /** Handling changes nothing: what leaves the queue is in the badge. */
  lemma HandledDMDebt(c: Ctx<Sid>, b: Mailbox, ev: Event, p: Id)
    requires Valid(c.db) && b.queue != [] && ev == b.queue[0]
    requires c.sess.view != DMView(p) && HandleEvent(c, ev).sess.view != DMView(p)
    ensures DMDebt(Receive(b), HandleEvent(c, ev).sess, p) == DMDebt(b, c.sess, p)
  {
    UnseenReceived(b, IsDMFrom(c.sess.user, p));
    EventMoves(c, ev);
  }

  lemma HandleDMDebt(w: World, s: Sid, t: Sid, p: Id)
    requires Valid(w.db) && Linked(w) && s in w.sessions
    requires Away(w, t, p) && Away(Put(w, Act(Focus(w, s), Handle(s))), t, p)
    ensures DMDebtOf(Put(w, Act(Focus(w, s), Handle(s))), t, p) == DMDebtOf(w, t, p)
    ensures |Act(Focus(w, s), Handle(s)).db.messages| == |w.db.messages|
  {
    ActHandle(Focus(w, s));
    PutFocus(w, s);
    if w.hub.boxes[s].queue != [] {
      var c, ev := Focus(w, s).(hub := Consume(w.hub, s)), w.hub.boxes[s].queue[0];
      HandledSame(c, ev);
      if t == s { HandledDMDebt(c, w.hub.boxes[s], ev, p); }
    }
  }

  // ----- every step -----

  lemma QuietDMDebt(w: World, w': World, t: Sid, p: Id)
    requires Away(w, t, p) && Away(w', t, p)
    requires w'.sessions[t] == w.sessions[t] && QuietBox(w.hub.boxes[t], w'.hub.boxes[t])
    ensures DMDebtOf(w', t, p) == DMDebtOf(w, t, p)
  {
    QuietUnseen(w.hub.boxes[t], w'.hub.boxes[t], IsDMFrom(w.sessions[t].user, p));
  }

  lemma ConnectDMDebt(w: World, a: Action, t: Sid, p: Id)
    requires Structured(w.hub) && Linked(w) && (a.Connect? || a.Disconnect?) && Away(w, t, p) && Away(Step(w, a), t, p)
    ensures DMDebtOf(Step(w, a), t, p) == DMDebtOf(w, t, p)
  {
    if a.Disconnect? {
      DisconnectIs(w, a.s);
      if a.s in w.sessions {
        UnsubscribeQuiet(w.hub, a.s);
        QuietDMDebt(w, Step(w, a), t, p);
      }
    } else {
      ConnectIs(w, a.s, a.user);
      if a.s !in w.sessions && UserExists(w.db, a.user) {
        InitBoxes(w.db, w.hub, a.s, a.user, IsAdmin(w.db, a.user));
        QuietDMDebt(w, Step(w, a), t, p);
      }
    }
  }

  /**
   One step, seen from a session that does not show the thread with p: the badge, with the messages of p on their way,
   grows by one if the step stores a message of p in the thread, and by nothing otherwise.
   */
  lemma StepDMDebt(w: World, a: Action, t: Sid, p: Id)
    requires Valid(w.db) && Structured(w.hub) && Linked(w) && Away(w, t, p) && Away(Step(w, a), t, p)
    ensures DMDebtOf(Step(w, a), t, p)
         == DMDebtOf(w, t, p) + (if Wrote(w.db, Step(w, a).db, w.sessions[t].user, p) then 1 else 0)
  {
    if a.Connect? || a.Disconnect? {
      ConnectDMDebt(w, a, t, p);
      ConnectPostsNothing(w, a);
    } else if IsSessionAction(a) {
      SessionStep(w, a);
      if a.s in w.sessions { SessionDMDebt(w, a, t, p); }
    } else {
      StorePostsNothing(w, a);
    }
  }

  lemma SessionDMDebt(w: World, a: Action, t: Sid, p: Id)
    requires Valid(w.db) && Structured(w.hub) && Linked(w) && IsSessionAction(a) && a.s in w.sessions
    requires Away(w, t, p) && Away(Put(w, Act(Focus(w, a.s), a)), t, p)
    ensures var w' := Put(w, Act(Focus(w, a.s), a));
            DMDebtOf(w', t, p) == DMDebtOf(w, t, p) + (if Wrote(w.db, w'.db, w.sessions[t].user, p) then 1 else 0)
  {
    ActIs(Focus(w, a.s), a);
    if a.Say? {
      SayDMDebt(w, a.s, a.text, a.allowed, t, p);
    } else if a.CmdMsg? {
      MsgDMDebt(w, a.s, a.handle, a.text, a.allowed, t, p);
    } else if a.Handle? {
      HandleDMDebt(w, a.s, t, p);
    } else {
      SilentDMDebt(w, a, t, p);
      SilentPostsNothing(Focus(w, a.s), a);
    }
  }
}
