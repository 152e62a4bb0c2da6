/** The guarantees over whole runs, from the empty system or from any state it can reach. */
module Runs {
  import opened Prelude
  import opened Database
  import opened StoreLaws
  import opened HubModel
  import opened SessionModel
  import opened World
  import opened Safety
  import opened BadgeLaws
  import opened CommandLaws
  import opened DeliveryLaws
  import opened HistoryLaws
  import opened ThreadLaws
  import opened PresenceLaws

  /** What every reachable state satisfies. */
  ghost predicate Good(w: World) {
    && Valid(w.db) && NamesUnique(w.db)
    && HubOk(w.hub) && Linked(w) && BansHold(w.db, w.hub)
    && AllCovered(w) && AllMarks(w) && AllRefer(w)
  }

  lemma InitialIsGood()
    ensures Good(INITIAL)
  {
    EmptyIsValid();
  }

  lemma StepKeepsGood(w: World, a: Action)
    requires Good(w)
    ensures Good(Step(w, a)) && w.db.bans <= Step(w, a).db.bans
  {
    StepValid(w, a);
    StepHub(w, a);
    StepKeepsNames(w, a);
    StepBans(w, a);
    StepCovers(w, a);
    StepMarks(w, a);
    StepRefers(w, a);
  }

  lemma {:induction false} RunKeepsGood(w: World, acts: seq<Action>)
    requires Good(w)
    ensures Good(Run(w, acts)) && w.db.bans <= Run(w, acts).db.bans
  {
    if acts != [] {
      RunKeepsGood(w, acts[..|acts| - 1]);
      StepKeepsGood(Run(w, acts[..|acts| - 1]), acts[|acts| - 1]);
    }
  }

  lemma ReachableIsGood(acts: seq<Action>)
    ensures Good(Run(INITIAL, acts))
  {
    InitialIsGood();
    RunKeepsGood(INITIAL, acts);
  }

  // ----- unread -----

  /** In every reachable state a live session's badges, with what it has not seen, cover the store. */
  lemma BadgesNeverUnderReport(acts: seq<Action>, s: Sid)
    requires s in Run(INITIAL, acts).sessions
    ensures var w := Run(INITIAL, acts);
            && s in w.hub.boxes
            && var b, x := w.hub.boxes[s], w.sessions[s];
            && (forall r :: RoomUnread(w.db, x.user, r)
                  <= Get(x.unreadRoom, r) + Count(b.queue, IsNotify(r)) + Count(b.dropped, IsNotify(r)))
            && (forall p :: PeerUnread(w.db, x.user, p)
                  <= Get(x.unreadDM, p) + Count(b.queue, IsDMFrom(x.user, p)) + Count(b.dropped, IsDMFrom(x.user, p)))
  {
    ReachableIsGood(acts);
  }

  /** In every reachable state a room marked as mentioning the user has a badge. */
  lemma MarksInRuns(acts: seq<Action>, s: Sid, r: Id)
    requires s in Run(INITIAL, acts).sessions && r in Run(INITIAL, acts).sessions[s].mentionRoom
    ensures Get(Run(INITIAL, acts).sessions[s].unreadRoom, r) > 0
  {
    ReachableIsGood(acts);
    assert MarksHaveBadges(Run(INITIAL, acts).sessions[s]);
  }

  /** In every reachable state the entries of UnreadCounts partition the user's unread rows. */
  lemma UnreadIsConservedInRuns(acts: seq<Action>, u: Id)
    ensures var db := Run(INITIAL, acts).db;
            Total(UnreadCounts(db, u).rooms) + Total(UnreadCounts(db, u).dms) == Count(db.notifs, UnreadOf(u))
  {
    ReachableIsGood(acts);
    UnreadIsConserved(Run(INITIAL, acts).db, u);
  }

  /** How many steps of the run post to room r. */
  function Posts(w: World, acts: seq<Action>, r: Id): nat {
    if acts == [] then 0
    else
      var before := Run(w, acts[..|acts| - 1]);
      Posts(w, acts[..|acts| - 1], r) + (if Posted(before.db, Step(before, acts[|acts| - 1]).db, r) then 1 else 0)
  }

  /** Session t is live, subscribed to r and showing something else all through the run. */
  ghost predicate WatchingThroughout(w: World, acts: seq<Action>, t: Sid, r: Id) {
    forall k :: 0 <= k <= |acts| ==> Watching(Run(w, acts[..k]), t, r)
  }

  lemma WatchingEnds(w: World, acts: seq<Action>, t: Sid, r: Id)
    requires WatchingThroughout(w, acts, t, r)
    ensures Watching(w, t, r) && Watching(Run(w, acts), t, r)
    ensures acts != [] ==> WatchingThroughout(w, acts[..|acts| - 1], t, r)
  {
    assert acts[..0] == [] && acts[..|acts|] == acts;
    if acts != [] {
      var before := acts[..|acts| - 1];
      forall k | 0 <= k <= |before| ensures Watching(Run(w, before[..k]), t, r) {
        assert before[..k] == acts[..k];
      }
    }
  }

  /** Badge plus bumps on their way grow by exactly one for each message posted to the room. */
  lemma {:induction false} OneBumpPerMessage(w: World, acts: seq<Action>, t: Sid, r: Id)
    requires Good(w) && WatchingThroughout(w, acts, t, r)
    ensures Watching(w, t, r) && Watching(Run(w, acts), t, r)
    ensures DebtOf(Run(w, acts), t, r) == DebtOf(w, t, r) + Posts(w, acts, r)
  {
    WatchingEnds(w, acts, t, r);
    if acts != [] {
      var n := |acts| - 1;
      OneBumpPerMessage(w, acts[..n], t, r);
      RunKeepsGood(w, acts[..n]);
      StepDebt(Run(w, acts[..n]), acts[n], t, r);
    }
  }

  /** A live session keeps its user. */
  lemma StepKeepsUser(w: World, a: Action, t: Sid)
    requires t in w.sessions && t in Step(w, a).sessions
    ensures Step(w, a).sessions[t].user == w.sessions[t].user
  {
    if IsSessionAction(a) {
      SessionStep(w, a);
      if a.s in w.sessions { ActSameUser(Focus(w, a.s), a); }
    } else if a.Connect? {
      InitHub(w.db, w.hub, a.s, a.user, IsAdmin(w.db, a.user));
    }
  }

  lemma {:induction false} RunKeepsUser(w: World, acts: seq<Action>, t: Sid, r: Id)
    requires WatchingThroughout(w, acts, t, r)
    ensures t in w.sessions && t in Run(w, acts).sessions && Run(w, acts).sessions[t].user == w.sessions[t].user
  {
    WatchingEnds(w, acts, t, r);
    if acts != [] {
      RunKeepsUser(w, acts[..|acts| - 1], t, r);
      StepKeepsUser(Run(w, acts[..|acts| - 1]), acts[|acts| - 1], t);
    }
  }

  /** When nothing is dropped meanwhile, the badge and the queue alone account for every message. */
  lemma OneBumpWithoutLoss(w: World, acts: seq<Action>, t: Sid, r: Id)
    requires Good(w) && WatchingThroughout(w, acts, t, r)
    ensures Watching(w, t, r) && Watching(Run(w, acts), t, r)
    ensures var w' := Run(w, acts);
            var b, b', x, x' := w.hub.boxes[t], w'.hub.boxes[t], w.sessions[t], w'.sessions[t];
            b'.dropped == b.dropped ==>
              Get(x'.unreadRoom, r) + Count(b'.queue, IsBump(x.user, r))
              == Get(x.unreadRoom, r) + Count(b.queue, IsBump(x.user, r)) + Posts(w, acts, r)
  {
    OneBumpPerMessage(w, acts, t, r);
    RunKeepsUser(w, acts, t, r);
  }

  // ----- direct messages -----

  /** How many steps of the run store a message of p in the thread of u and p. */
  function Writes(w: World, acts: seq<Action>, u: Id, p: Id): nat {
    if acts == [] then 0
    else
      var before := Run(w, acts[..|acts| - 1]);
      Writes(w, acts[..|acts| - 1], u, p) + (if Wrote(before.db, Step(before, acts[|acts| - 1]).db, u, p) then 1 else 0)
  }

  /** Session t is live and does not show the thread with p all through the run. */
  ghost predicate AwayThroughout(w: World, acts: seq<Action>, t: Sid, p: Id) {
    forall k :: 0 <= k <= |acts| ==> Away(Run(w, acts[..k]), t, p)
  }

  lemma AwayEnds(w: World, acts: seq<Action>, t: Sid, p: Id)
    requires AwayThroughout(w, acts, t, p)
    ensures Away(w, t, p) && Away(Run(w, acts), t, p)
    ensures acts != [] ==> AwayThroughout(w, acts[..|acts| - 1], t, p)
  {
    assert acts[..0] == [] && acts[..|acts|] == acts;
    if acts != [] {
      var before := acts[..|acts| - 1];
      forall k | 0 <= k <= |before| ensures Away(Run(w, before[..k]), t, p) { assert before[..k] == acts[..k]; }
    }
  }

  /**
   Over any run in which a session does not show the thread with p, its badge and what it has not seen of p's messages
   grow by exactly one for each message that p wrote in the thread. The user's own messages, which come back to all
   of their sessions, add nothing.
   */
  lemma {:induction false} OneBumpPerDM(w: World, acts: seq<Action>, t: Sid, p: Id)
    requires Good(w) && AwayThroughout(w, acts, t, p)
    ensures Away(w, t, p) && Away(Run(w, acts), t, p) && Run(w, acts).sessions[t].user == w.sessions[t].user
    ensures DMDebtOf(Run(w, acts), t, p) == DMDebtOf(w, t, p) + Writes(w, acts, w.sessions[t].user, p)
  {
    AwayEnds(w, acts, t, p);
    if acts != [] {
      var n := |acts| - 1;
      AwayEnds(w, acts[..n], t, p);
      OneBumpPerDM(w, acts[..n], t, p);
      RunKeepsGood(w, acts[..n]);
      StepKeepsUser(Run(w, acts[..n]), acts[n], t);
      StepDMDebt(Run(w, acts[..n]), acts[n], t, p);
    }
  }

  /** When nothing is dropped meanwhile, the badge and the queue alone account for every message of p. */
  lemma OneDMBumpWithoutLoss(w: World, acts: seq<Action>, t: Sid, p: Id)
    requires Good(w) && AwayThroughout(w, acts, t, p)
    ensures Away(w, t, p) && Away(Run(w, acts), t, p)
    ensures var w', u := Run(w, acts), w.sessions[t].user;
            var b, b', x, x' := w.hub.boxes[t], w'.hub.boxes[t], w.sessions[t], w'.sessions[t];
            b'.dropped == b.dropped ==>
              Get(x'.unreadDM, p) + Count(b'.queue, IsDMFrom(u, p))
              == Get(x.unreadDM, p) + Count(b.queue, IsDMFrom(u, p)) + Writes(w, acts, u, p)
  {
    OneBumpPerDM(w, acts, t, p);
  }

  // ----- bans -----

  /** What holds of a banned user and the room, in one state. */
  ghost predicate ShutOut(w: World, r: Id, u: Id) {
    && (r, u) in w.db.bans && (r, u) !in w.db.members
    && (forall s :: s in w.sessions && w.sessions[s].user == u ==> s !in At(w.hub.rooms, r))
    && (forall s, text, allowed :: s in w.sessions && w.sessions[s].user == u && w.sessions[s].view == RoomView(r) ==>
          SendCurrent(Focus(w, s), text, allowed) == Focus(w, s))
    && (forall author, text, uids :: InsertRoomMessage(w.db, r, author, text, uids).1.Ok? ==>
          author != u && u !in InsertRoomMessage(w.db, r, author, text, uids).1.value.notified)
  }

  /**
   A ban is permanent and total: from then on the user is not a member, has no session, old or
   new, subscribed to the room, cannot send to it, and is in no notified list of it.
   */
  lemma BanIsPermanent(w: World, acts: seq<Action>, r: Id, u: Id)
    requires Good(w) && (r, u) in w.db.bans
    ensures ShutOut(Run(w, acts), r, u)
  {
    RunKeepsGood(w, acts);
    var w' := Run(w, acts);
    assert (r, u) !in w'.db.members;
    forall author, text, uids | InsertRoomMessage(w'.db, r, author, text, uids).1.Ok?
      ensures author != u && u !in InsertRoomMessage(w'.db, r, author, text, uids).1.value.notified
    {
      InFilter(uids, Eligible(w'.db.members, r, author), u);
    }
  }

  lemma BanIsRecorded(w: World, s: Sid, h: string, u: Id)
    requires s in w.sessions && MayModerate(Focus(w, s)) && UserByHandle(w.db, h) == Some(u) && Refers(w.db, w.sessions[s])
    ensures (w.sessions[s].view.room, u) in Step(w, CmdExpel(s, h, true)).db.bans
  {
  }

  /** From the /ban of a moderator or admin on, whatever happens next, the user is shut out of the room. */
  lemma BanCommandIsPermanent(w: World, s: Sid, h: string, u: Id, acts: seq<Action>)
    requires Good(w) && s in w.sessions && MayModerate(Focus(w, s)) && UserByHandle(w.db, h) == Some(u)
    ensures ShutOut(Run(Step(w, CmdExpel(s, h, true)), acts), w.sessions[s].view.room, u)
  {
    BanIsRecorded(w, s, h, u);
    StepKeepsGood(w, CmdExpel(s, h, true));
    BanIsPermanent(Step(w, CmdExpel(s, h, true)), acts, w.sessions[s].view.room, u);
  }

  // ----- a lost removal -----

  /** Session t does nothing itself. */
  predicate Passive(acts: seq<Action>, t: Sid) {
    forall k :: 0 <= k < |acts| ==> (IsSessionAction(acts[k]) || acts[k].Disconnect? ==> acts[k].s != t)
  }

  lemma {:induction false} PassiveStays(w: World, acts: seq<Action>, t: Sid)
    requires t in w.sessions && Passive(acts, t)
    ensures t in Run(w, acts).sessions && Run(w, acts).sessions[t] == w.sessions[t]
  {
    if acts != [] {
      PassiveStays(w, acts[..|acts| - 1], t);
      OthersLeaveSession(Run(w, acts[..|acts| - 1]), acts[|acts| - 1], t);
    }
  }

  lemma ExpelKeepsSessions(w: World, s: Sid, h: string, ban: bool)
    requires s in w.sessions
    ensures var w' := Step(w, CmdExpel(s, h, ban));
            && w'.db == Expel(Focus(w, s), h, ban).db && w'.hub == Expel(Focus(w, s), h, ban).hub
            && forall t :: t in w.sessions ==> t in w'.sessions && w'.sessions[t] == w.sessions[t]
  {
    SessionStep(w, CmdExpel(s, h, ban));
  }

  /**
   A session whose queue is full when its user is expelled loses the event that would tell it: it has been taken out
   of the room and what it says there changes nothing, but until it acts itself it goes on showing the room, whatever
   else happens.
   */
  lemma LostRemovalStays(w: World, s: Sid, h: string, ban: bool, t: Sid, acts: seq<Action>, text: string, allowed: bool)
    requires Good(w) && s in w.sessions && t in w.sessions && MayModerate(Focus(w, s)) && Passive(acts, t)
    requires UserByHandle(w.db, h) == Some(w.sessions[t].user) && w.sessions[t].view == w.sessions[s].view
    requires t in SubsOf(w.hub, w.sessions[t].user, w.sessions[s].view.room) && |w.hub.boxes[t].queue| == CAPACITY
    ensures var w1, x, r := Step(w, CmdExpel(s, h, ban)), w.sessions[t], w.sessions[s].view.room;
            && t in Run(w1, acts).sessions && Run(w1, acts).sessions[t] == x && x.view == RoomView(r)
            && t in w1.hub.boxes && w1.hub.boxes[t].dropped == w.hub.boxes[t].dropped + [RoomRemoved(r, x.user)]
            && t !in At(w1.hub.rooms, r) && t in w1.sessions && SendCurrent(Focus(w1, t), text, allowed) == Focus(w1, t)
  {
    var w1 := Step(w, CmdExpel(s, h, ban));
    ExpelKeepsSessions(w, s, h, ban);
    PassiveStays(w1, acts, t);
    assert Refers(w.db, w.sessions[s]);
    DroppedRemovalLeavesView(Focus(w, s), h, ban, Focus(w1, t), text, allowed);
  }

  // ----- hub -----

  lemma OnlineMeansLive(w: World, u: Id)
    requires Structured(w.hub) && Linked(w)
    ensures forall s :: s in At(w.hub.users, u) <==> s in w.sessions && w.sessions[s].user == u
    ensures Sessions(w.hub, u) == |At(w.hub.users, u)|
    ensures IsOnline(w.hub, u) <==> exists s :: s in w.sessions && w.sessions[s].user == u
  {
    if u in w.hub.users {
      var s :| s in w.hub.users[u];
      assert s in w.sessions && w.sessions[s].user == u;
    }
  }

  /**
   In every reachable state the presence count of a user is the number of their live sessions,
   the presence broadcasts about them alternate starting with online, the last one is true, and
   rooms hold live sessions only.
   */
  lemma PresenceInRuns(acts: seq<Action>, u: Id)
    ensures var w := Run(INITIAL, acts);
            && (IsOnline(w.hub, u) <==> exists s :: s in w.sessions && w.sessions[s].user == u)
            && Alternates(Said(w.hub.log, u), IsOnline(w.hub, u))
            && Sessions(w.hub, u) == |At(w.hub.users, u)|
            && (forall s :: s in At(w.hub.users, u) <==> s in w.sessions && w.sessions[s].user == u)
            && (forall r :: r in w.hub.rooms ==> w.hub.rooms[r] != {} && w.hub.rooms[r] <= w.sessions.Keys)
  {
    ReachableIsGood(acts);
    OnlineMeansLive(Run(INITIAL, acts), u);
  }

  /**
   In every reachable state, what a session has consumed followed by its queue is, in order, what
   it was addressed less what was dropped. LossOnlyWhenFull says when something is dropped.
   */
  lemma DeliveryInRuns(acts: seq<Action>, s: Sid)
    requires s in Run(INITIAL, acts).sessions
    ensures var w := Run(INITIAL, acts);
            && s in w.hub.boxes
            && var b := w.hub.boxes[s];
            && |b.queue| <= 64
            && IsSubseq(b.consumed + b.queue, b.addressed)
            && multiset(b.addressed) == multiset(b.consumed + b.queue) + multiset(b.dropped)
            && (b.dropped == [] ==> b.consumed + b.queue == b.addressed)
  {
    ReachableIsGood(acts);
    assert BoxOk(Run(INITIAL, acts).hub.boxes[s]);
  }

  /** Session t is live all through the run. */
  ghost predicate LiveThroughout(w: World, acts: seq<Action>, t: Sid) {
    forall k :: 0 <= k <= |acts| ==> t in Run(w, acts[..k]).hub.boxes
  }

  /** At every step of the run, the queue of t has room for what arrives. */
  ghost predicate RoomThroughout(w: World, acts: seq<Action>, t: Sid)
    requires LiveThroughout(w, acts, t)
  {
    forall k :: 0 <= k < |acts| ==> FitsAt(w, acts, t, k)
  }

  ghost predicate FitsAt(w: World, acts: seq<Action>, t: Sid, k: nat)
    requires k < |acts| && LiveThroughout(w, acts, t)
  {
    Fits(Run(w, acts[..k]).hub.boxes[t], Run(w, acts[..k + 1]).hub.boxes[t])
  }

  lemma LiveEnds(w: World, acts: seq<Action>, t: Sid)
    requires LiveThroughout(w, acts, t)
    ensures t in w.hub.boxes && t in Run(w, acts).hub.boxes
    ensures acts != [] ==> LiveThroughout(w, acts[..|acts| - 1], t)
  {
    assert acts[..0] == [] && acts[..|acts|] == acts;
    if acts != [] {
      var before := acts[..|acts| - 1];
      forall k | 0 <= k <= |before| ensures t in Run(w, before[..k]).hub.boxes { assert before[..k] == acts[..k]; }
    }
  }

  lemma FitsEarlier(w: World, acts: seq<Action>, t: Sid, k: nat)
    requires LiveThroughout(w, acts, t) && k < |acts| - 1 && LiveThroughout(w, acts[..|acts| - 1], t)
    ensures FitsAt(w, acts[..|acts| - 1], t, k) == FitsAt(w, acts, t, k)
  {
    var before := acts[..|acts| - 1];
    assert before[..k] == acts[..k] && before[..k + 1] == acts[..k + 1];
  }

  lemma RoomEnds(w: World, acts: seq<Action>, t: Sid)
    requires LiveThroughout(w, acts, t) && acts != [] && LiveThroughout(w, acts[..|acts| - 1], t)
    ensures RoomThroughout(w, acts, t) <==>
            RoomThroughout(w, acts[..|acts| - 1], t) && FitsAt(w, acts, t, |acts| - 1)
  {
    if RoomThroughout(w, acts, t) { RoomBefore(w, acts, t); }
    if RoomThroughout(w, acts[..|acts| - 1], t) && FitsAt(w, acts, t, |acts| - 1) { RoomAfter(w, acts, t); }
  }

  lemma RoomBefore(w: World, acts: seq<Action>, t: Sid)
    requires LiveThroughout(w, acts, t) && acts != [] && LiveThroughout(w, acts[..|acts| - 1], t)
    requires RoomThroughout(w, acts, t)
    ensures RoomThroughout(w, acts[..|acts| - 1], t) && FitsAt(w, acts, t, |acts| - 1)
  {
    var before := acts[..|acts| - 1];
    forall k | 0 <= k < |before| ensures FitsAt(w, before, t, k) {
      assert FitsAt(w, acts, t, k);
      FitsEarlier(w, acts, t, k);
    }
  }

  lemma RoomAfter(w: World, acts: seq<Action>, t: Sid)
    requires LiveThroughout(w, acts, t) && acts != [] && LiveThroughout(w, acts[..|acts| - 1], t)
    requires RoomThroughout(w, acts[..|acts| - 1], t) && FitsAt(w, acts, t, |acts| - 1)
    ensures RoomThroughout(w, acts, t)
  {
    forall k | 0 <= k < |acts| ensures FitsAt(w, acts, t, k) {
      if k < |acts| - 1 {
        assert FitsAt(w, acts[..|acts| - 1], t, k);
        FitsEarlier(w, acts, t, k);
      }
    }
  }

  lemma RunHubOk(w: World, acts: seq<Action>)
    requires Good(w)
    ensures HubOk(Run(w, acts).hub) && Linked(Run(w, acts))
  {
    RunKeepsGood(w, acts);
  }

  lemma LastLoss(w: World, acts: seq<Action>, t: Sid)
    requires LiveThroughout(w, acts, t) && acts != []
    requires HubOk(Run(w, acts[..|acts| - 1]).hub) && Linked(Run(w, acts[..|acts| - 1])) && HubOk(Run(w, acts).hub)
    ensures t in Run(w, acts[..|acts| - 1]).hub.boxes && t in Run(w, acts).hub.boxes
    ensures LossUnless(FitsAt(w, acts, t, |acts| - 1), Run(w, acts[..|acts| - 1]).hub.boxes[t], Run(w, acts).hub.boxes[t])
  {
    var n := |acts| - 1;
    LiveEnds(w, acts, t);
    LiveEnds(w, acts[..n], t);
    assert acts[..n + 1] == acts;
    StepLoss(Run(w, acts[..n]), acts[n], t);
  }

  lemma {:induction false} RunLoss(w: World, acts: seq<Action>, t: Sid)
    requires Good(w) && LiveThroughout(w, acts, t)
    ensures t in w.hub.boxes && t in Run(w, acts).hub.boxes
    ensures LossUnless(RoomThroughout(w, acts, t), w.hub.boxes[t], Run(w, acts).hub.boxes[t])
  {
    LiveEnds(w, acts, t);
    if acts == [] {
      NoLossAtRest(w.hub.boxes[t]);
    } else {
      var n := |acts| - 1;
      RunLoss(w, acts[..n], t);
      RoomEnds(w, acts, t);
      RunHubOk(w, acts[..n]);
      RunHubOk(w, acts);
      LastLoss(w, acts, t);
      LossTrans(RoomThroughout(w, acts[..n], t), FitsAt(w, acts, t, n),
                w.hub.boxes[t], Run(w, acts[..n]).hub.boxes[t], Run(w, acts).hub.boxes[t]);
    }
  }

  lemma StepLoss(w: World, a: Action, t: Sid)
    requires HubOk(w.hub) && HubOk(Step(w, a).hub) && Linked(w) && t in w.hub.boxes && t in Step(w, a).hub.boxes
    ensures LossUnless(Fits(w.hub.boxes[t], Step(w, a).hub.boxes[t]), w.hub.boxes[t], Step(w, a).hub.boxes[t])
  {
    StepMoves(w, a, t);
    MovesExact(w.hub.boxes[t], Step(w, a).hub.boxes[t]);
  }

  /**
   Over any run through which a session is live, something is dropped if and only if at some step more
   arrives than its queue has room for. If not, what it has consumed and queued grows, in order, by exactly
   what was addressed to it.
   */
  lemma LossOnlyWhenFull(w: World, acts: seq<Action>, t: Sid)
    requires Good(w) && LiveThroughout(w, acts, t)
    ensures t in w.hub.boxes && t in Run(w, acts).hub.boxes
    ensures var b, b' := w.hub.boxes[t], Run(w, acts).hub.boxes[t];
            && b.addressed <= b'.addressed && b.dropped <= b'.dropped
            && (b'.dropped == b.dropped <==> RoomThroughout(w, acts, t))
            && (RoomThroughout(w, acts, t) ==> Kept(b') == Kept(b) + b'.addressed[|b.addressed|..])
  {
    RunLoss(w, acts, t);
  }

  lemma ConnectedBox(w: World, t: Sid, u: Id)
    requires Structured(w.hub) && Linked(w) && t !in w.sessions && UserExists(w.db, u)
    ensures t in Step(w, Connect(t, u)).hub.boxes && Step(w, Connect(t, u)).hub.boxes[t] == NewBox(u)
  {
    ConnectIs(w, t, u);
    InitBoxes(w.db, w.hub, t, u, IsAdmin(w.db, u));
  }

  lemma NothingLostFromNew(u: Id, b: Mailbox)
    requires LossUnless(true, NewBox(u), b)
    ensures Kept(b) == b.addressed && b.dropped == []
  {
    assert b.addressed[0..] == b.addressed && [] + b.addressed == b.addressed;
  }

  /** A session whose queue has had room since it connected has every event ever addressed to it, in order. */
  lemma NothingLostSinceConnect(w: World, t: Sid, u: Id, acts: seq<Action>)
    requires Good(w) && t !in w.sessions && UserExists(w.db, u)
    requires LiveThroughout(Step(w, Connect(t, u)), acts, t) && RoomThroughout(Step(w, Connect(t, u)), acts, t)
    ensures t in Run(Step(w, Connect(t, u)), acts).hub.boxes
    ensures var b := Run(Step(w, Connect(t, u)), acts).hub.boxes[t]; Kept(b) == b.addressed && b.dropped == []
  {
    ConnectedBox(w, t, u);
    StepKeepsGood(w, Connect(t, u));
    RunLoss(Step(w, Connect(t, u)), acts, t);
    NothingLostFromNew(u, Run(Step(w, Connect(t, u)), acts).hub.boxes[t]);
  }

  // ----- presence events -----

  /** Session t is live all through the run, and subscribed to some room at every step. */
  ghost predicate SeatedThroughout(w: World, acts: seq<Action>, t: Sid) {
    forall k :: 0 <= k <= |acts| ==> t in Run(w, acts[..k]).hub.boxes && Seated(Run(w, acts[..k]).hub, t)
  }

  lemma SeatedEnds(w: World, acts: seq<Action>, t: Sid)
    requires SeatedThroughout(w, acts, t)
    ensures t in w.hub.boxes && Seated(w.hub, t) && t in Run(w, acts).hub.boxes && Seated(Run(w, acts).hub, t)
    ensures acts != [] ==> SeatedThroughout(w, acts[..|acts| - 1], t)
  {
    assert acts[..0] == [] && acts[..|acts|] == acts;
    if acts != [] {
      var before := acts[..|acts| - 1];
      forall k | 0 <= k <= |before| ensures t in Run(w, before[..k]).hub.boxes && Seated(Run(w, before[..k]).hub, t) {
        assert before[..k] == acts[..k];
      }
    }
  }

  /**
   Over any run in which a session is subscribed to some room, the presence events it is sent are, one for one and in
   order, the broadcasts of the run, which PresenceInRuns says tell the truth.
   */
  lemma {:induction false} PresenceIsHeard(w: World, acts: seq<Action>, t: Sid)
    requires Good(w) && SeatedThroughout(w, acts, t)
    ensures t in w.hub.boxes && t in Run(w, acts).hub.boxes
    ensures var h, h' := w.hub, Run(w, acts).hub;
            h.log <= h'.log && Presences(h'.boxes[t]) == Presences(h.boxes[t]) + Heard(h'.log[|h.log|..])
  {
    SeatedEnds(w, acts, t);
    if acts == [] {
      NothingHeard(w.hub, w.hub, t);
    } else {
      var n := |acts| - 1;
      SeatedEnds(w, acts[..n], t);
      PresenceIsHeard(w, acts[..n], t);
      RunHubOk(w, acts[..n]);
      StepHears(Run(w, acts[..n]), acts[n], t);
      HearsTrans(w.hub, Run(w, acts[..n]).hub, Run(w, acts).hub, t);
    }
  }

  // ----- names -----

  /** In every reachable state a handle finds its one user, and the name of a live room finds that room. */
  lemma NamesInRuns(acts: seq<Action>, u: Id, r: Id)
    ensures var db := Run(INITIAL, acts).db;
            && (UserExists(db, u) ==> UserByHandle(db, db.users[u - 1].handle) == Some(u))
            && (RoomExists(db, r) && !db.rooms[r - 1].deleted ==> RoomByName(db, db.rooms[r - 1].name) == Some(r))
  {
    ReachableIsGood(acts);
    LookupsInvert(Run(INITIAL, acts).db, u, r);
  }

  // ----- messages that nobody deletes -----

  /** No step of the run deletes the message: what /delete is tried on it changes nothing. */
  ghost predicate NeverDeleted(w: World, acts: seq<Action>, id: Id) {
    forall k :: 0 <= k < |acts| && acts[k].CmdDelete? && acts[k].id == id ==>
      Step(Run(w, acts[..k]), acts[k]) == Run(w, acts[..k])
  }

  lemma NeverDeletedEnds(w: World, acts: seq<Action>, id: Id)
    requires NeverDeleted(w, acts, id) && acts != []
    ensures var n := |acts| - 1;
            && NeverDeleted(w, acts[..n], id)
            && (acts[n].CmdDelete? && acts[n].id == id ==> Step(Run(w, acts[..n]), acts[n]) == Run(w, acts[..n]))
  {
    var before := acts[..|acts| - 1];
    forall k | 0 <= k < |before| && before[k].CmdDelete? && before[k].id == id
      ensures Step(Run(w, before[..k]), before[k]) == Run(w, before[..k])
    {
      assert before[..k] == acts[..k];
    }
  }

  /** A message that no step of a run deletes is still there at the end, as it was, whatever is purged meanwhile. */
  lemma {:induction false} LiveMessageStays(w: World, acts: seq<Action>, m: Message)
    requires Good(w) && Find(w.db.messages, m.id) == Some(m) && m.deletedAt.None? && NeverDeleted(w, acts, m.id)
    ensures Find(Run(w, acts).db.messages, m.id) == Some(m)
  {
    if acts != [] {
      var n := |acts| - 1;
      NeverDeletedEnds(w, acts, m.id);
      LiveMessageStays(w, acts[..n], m);
      RunKeepsGood(w, acts[..n]);
      if !(acts[n].CmdDelete? && acts[n].id == m.id) { StepKeepsLive(Run(w, acts[..n]), acts[n], m); }
    }
  }

  // ----- history and search -----

  /**
   In every reachable state, after purges and reused ids: the history of a room and of a pair is the tail of
   its messages, and search is the scan.
   */
  lemma QueriesInRuns(acts: seq<Action>, r: Id, u: Id, v: Id, q: Query, limit: int)
    ensures var db := Run(INITIAL, acts).db;
            var thread := InThread(DMKey(u, v).0, DMKey(u, v).1);
            && Sorted(db.messages)
            && Reverse(SelectDesc(db.messages, InRoomRows(r), limit)) == Tail(Filter(db.messages, InRoomRows(r)), limit)
            && Reverse(SelectDesc(db.messages, thread, limit)) == Tail(Filter(db.messages, thread), limit)
            && SearchRoom(db, r, q, limit) == SelectDesc(db.messages, RoomReads(r, q), limit)
  {
    ReachableIsGood(acts);
    var db := Run(INITIAL, acts).db;
    HistoryIsTail(Filter(db.messages, InRoomRows(r)), limit);
    HistoryIsTail(Filter(db.messages, InThread(DMKey(u, v).0, DMKey(u, v).1)), limit);
    SearchIsScan(db, r, q, limit);
  }

  /**
   After any run the history of a room is, apart from tombstones, an in-order part of what it was followed by
   what was posted there meanwhile; all of it, if nothing was purged.
   */
  lemma RoomHistoryInRuns(w: World, acts: seq<Action>, r: Id)
    ensures var before, after := Filter(w.db.messages, InRoomRows(r)), Filter(Run(w, acts).db.messages, InRoomRows(r));
            var posted := Filter(PostedBy(w, acts), InRoomRows(r));
            && IsSubseq(AsPosted(after), AsPosted(before) + posted)
            && (NoPurge(acts) ==> AsPosted(after) == AsPosted(before) + posted)
  {
    ChannelHistory(w, acts, InRoomRows(r));
  }

  /** The same for the thread of two users, whichever of them asks. */
  lemma ThreadHistoryInRuns(w: World, acts: seq<Action>, u: Id, v: Id)
    ensures var thread := InThread(DMKey(u, v).0, DMKey(u, v).1);
            var before, after := Filter(w.db.messages, thread), Filter(Run(w, acts).db.messages, thread);
            var posted := Filter(PostedBy(w, acts), thread);
            && IsSubseq(AsPosted(after), AsPosted(before) + posted)
            && (NoPurge(acts) ==> AsPosted(after) == AsPosted(before) + posted)
            && DMKey(v, u) == DMKey(u, v)
  {
    ChannelHistory(w, acts, InThread(DMKey(u, v).0, DMKey(u, v).1));
  }
}
