/**
 How much of the limiter one user can use (internal/ssh/server.go: rateKey and msgAllow, one key a session). A
 session that signed its user up is limited under the fingerprint, and every later session of that user under the
 id, so for as long as the first one lives its user has two budgets.
 */
module BudgetLaws {
  import opened Prelude
  import opened Database
  import opened Sanitizer
  import opened Mentions
  import opened SessionModel
  import opened World
  import opened Safety
  import opened BadgeLaws
  import opened CommandLaws
  import opened LimitedRuns
  import Rate

  // ----- a rested limiter -----

  /** At this instant the key has spent n of its capacity. */
  ghost predicate Spent(l: Rate.Limits, m: map<string, Rate.BucketState>, key: string, now: real, n: nat) {
    if key in m && !Rate.Idle(l, m[key], now) then m[key] == Rate.BucketState(l.cap as real - n as real, now)
    else n == 0
  }

  function CallNow(key: string, now: real): Rate.Call { Rate.Call(key, now, now, now) }

  lemma NothingEarned(x: real, refill: real)
    ensures Rate.Earned(x - x, refill) == 0.0
  {
  }

  lemma SpendOne(l: Rate.Limits, m: map<string, Rate.BucketState>, key: string, now: real, n: nat)
    requires Spent(l, m, key, now, n) && n < l.cap
    ensures Rate.Admits(Rate.ShapeOf(l), Rate.Found(l, m, CallNow(key, now)), now)
    ensures Spent(l, Rate.LimiterStep(l, m, CallNow(key, now)), key, now, n + 1)
  {
    NothingEarned(now, Rate.ShapeOf(l).refill);
  }

  lemma OthersSpendNothing(l: Rate.Limits, m: map<string, Rate.BucketState>, key: string, other: string,
                           now: real, n: nat)
    requires Spent(l, m, other, now, n) && other != key
    ensures Spent(l, Rate.LimiterStep(l, m, CallNow(key, now)), other, now, n)
  {
  }

  lemma {:induction false} DecisionSnoc(l: Rate.Limits, cs: seq<Rate.Call>, c: Rate.Call)
    ensures Rate.LimiterRun(l, cs + [c]) == Rate.LimiterStep(l, Rate.LimiterRun(l, cs), c)
    ensures Rate.Decision(l, cs + [c]) == Rate.Admits(Rate.ShapeOf(l), Rate.Found(l, Rate.LimiterRun(l, cs), c), c.take)
  {
    assert (cs + [c])[..|cs|] == cs;
  }

  /** More than two windows after the last call, no key has spent anything. */
  lemma {:induction false} Rested(l: Rate.Limits, cs: seq<Rate.Call>, key: string, now: real)
    requires l.cap >= 1 && Rate.Clocked(cs) && (cs != [] ==> now - cs[|cs| - 1].take > 2.0 * l.per)
    ensures Spent(l, Rate.LimiterRun(l, cs), key, now, 0)
  {
    if cs != [] { Rate.RunAgrees(l, cs, key); }
  }

  // ----- a burst of messages -----

  /** A direct message at one instant, still without the limiter's answer. */
  predicate IsNote(t: Timed) {
    t.deed.Do? && t.deed.act.CmdMsg? && !t.deed.act.allowed && t.sweep == t.create == t.take
  }

  function Sender(t: Timed): Sid { if IsNote(t) then t.deed.act.s else 0 }

  /** A session sends a text to v, who has not blocked its user. */
  ghost predicate CanWrite(w: World, t: Timed, v: Id) {
    && IsNote(t) && t.deed.act.s in w.sessions && UserByHandle(w.db, t.deed.act.handle) == Some(v)
    && var u := w.sessions[t.deed.act.s].user;
       v != u && (v, u) !in w.db.blocks && t.deed.act.text != "" && Sanitize(Truncate(t.deed.act.text)) != ""
  }

  /** Users and blocks are as they were, and the sessions are still there. */
  ghost predicate Undisturbed(w: World, w': World) {
    && w'.db.users == w.db.users && w'.db.blocks == w.db.blocks
    && (forall s :: s in w.sessions ==> s in w'.sessions && w'.sessions[s].user == w.sessions[s].user)
  }

  lemma TextStored(c: Ctx<Sid>, v: Id, text: string)
    requires c.sess.view == DMView(v) && UserExists(c.db, v) && v != c.sess.user && (v, c.sess.user) !in c.db.blocks
    requires Sanitize(Truncate(text)) != ""
    ensures var c' := SendCurrent(c, text, true);
            && |c'.db.messages| == |c.db.messages| + 1
            && c'.db.users == c.db.users && c'.db.blocks == c.db.blocks && c'.sess == c.sess && c'.me == c.me
  {
  }

  lemma NoteDoes(w: World, t: Timed, v: Id)
    requires CanWrite(w, t, v)
    ensures var w' := Step(w, Answered(t.deed.act, true));
            |w'.db.messages| == |w.db.messages| + 1 && Undisturbed(w, w')
  {
    var a := Answered(t.deed.act, true);
    var c := Focus(w, a.s);
    SessionStep(w, a);
    ActIs(c, a);
    MsgIs(c, a.handle, a.text, true, Some(v));
    TextStored(OpenDM(c, v), v, a.text);
  }

  lemma {:induction false} NotePasses(l: Rate.Limits, x: Limited, t: Timed, v: Id, n: nat)
    requires CanWrite(x.w, t, v) && n < l.cap
    requires Spent(l, Rate.LimiterRun(l, x.calls), KeyAt(x, Sender(t)), t.take, n)
    ensures var x' := LimitedStep(l, x, t);
            && StoresFor(l, x, t, x.w.sessions[Sender(t)].user)
            && Undisturbed(x.w, x'.w) && x'.keys == x.keys
            && x'.calls == x.calls + [CallNow(KeyAt(x, Sender(t)), t.take)]
  {
    DecisionSnoc(l, x.calls, CallNow(KeyAt(x, Sender(t)), t.take));
    SpendOne(l, Rate.LimiterRun(l, x.calls), KeyAt(x, Sender(t)), t.take, n);
    NoteDoes(x.w, t, v);
  }

  lemma StillCanWrite(w: World, w': World, t: Timed, v: Id)
    requires CanWrite(w, t, v) && Undisturbed(w, w')
    ensures CanWrite(w', t, v)
  {
  }

  /** A key and what it has spent. */
  datatype Account = Account(key: string, spent: nat)

  /** From x to x' came n copies of the message t; the other account is as it was. */
  ghost predicate Bursting(l: Rate.Limits, x: Limited, x': Limited, t: Timed, n: nat, other: Account) {
    var m := Rate.LimiterRun(l, x'.calls);
    && Undisturbed(x.w, x'.w) && x'.keys == x.keys && Spent(l, m, KeyAt(x, Sender(t)), t.take, n)
    && Spent(l, m, other.key, t.take, other.spent) && other.key != KeyAt(x, Sender(t))
  }

  lemma BurstStep(l: Rate.Limits, x: Limited, x': Limited, t: Timed, v: Id, n: nat, other: Account)
    requires CanWrite(x.w, t, v) && Bursting(l, x, x', t, n, other) && n < l.cap
    ensures Bursting(l, x, LimitedStep(l, x', t), t, n + 1, other)
    ensures StoresFor(l, x', t, x.w.sessions[Sender(t)].user)
  {
    var m, key := Rate.LimiterRun(l, x'.calls), KeyAt(x, Sender(t));
    StillCanWrite(x.w, x'.w, t, v);
    NotePasses(l, x', t, v, n);
    DecisionSnoc(l, x'.calls, CallNow(key, t.take));
    SpendOne(l, m, key, t.take, n);
    OthersSpendNothing(l, m, key, other.key, t.take, other.spent);
  }

  /** The run ts goes on with n copies of t. */
  function Burst(ts: seq<Timed>, t: Timed, n: nat): seq<Timed> { if n == 0 then ts else Burst(ts, t, n - 1) + [t] }

  lemma {:induction false} StoredForSnoc(l: Rate.Limits, ts: seq<Timed>, t: Timed, u: Id, from: nat)
    requires from <= |ts|
    ensures StoredFor(l, ts + [t], u, from)
         == StoredFor(l, ts, u, from) + (if StoresFor(l, LimitedRun(l, ts), t, u) then 1 else 0)
  {
    assert (ts + [t])[..|ts|] == ts;
  }

  /** The run ts went on to ts' with n copies of t, all stored. */
  ghost predicate Came(l: Rate.Limits, x: Limited, ts: seq<Timed>, t: Timed, n: nat, other: Account, u: Id, from: nat,
                       before: nat) {
    from <= |ts| && Bursting(l, x, LimitedRun(l, ts), t, n, other) && StoredFor(l, ts, u, from) == before + n
  }

  lemma {:induction false} OneMoreCame(l: Rate.Limits, x: Limited, ts: seq<Timed>, t: Timed, v: Id, n: nat,
                                       other: Account, u: Id, from: nat, before: nat)
    requires CanWrite(x.w, t, v) && x.w.sessions[Sender(t)].user == u && n < l.cap
    requires Came(l, x, ts, t, n, other, u, from, before)
    ensures Came(l, x, ts + [t], t, n + 1, other, u, from, before)
  {
    BurstStep(l, x, LimitedRun(l, ts), t, v, n, other);
    LimitedRunSnoc(l, ts, t);
    StoredForSnoc(l, ts, t, u, from);
  }

  lemma {:induction false} Repeated(ts: seq<Timed>, t: Timed, n: nat, p: (seq<Timed>, nat) -> bool)
    requires p(ts, 0) && forall ts', k: nat :: k < n && p(ts', k) ==> p(ts' + [t], k + 1)
    ensures p(Burst(ts, t, n), n)
  {
    if n > 0 { Repeated(ts, t, n - 1, p); }
  }

  /** A session whose key is rested stores, at one instant, as many messages as the capacity allows. */
  lemma {:induction false} BurstPasses(l: Rate.Limits, x: Limited, ts: seq<Timed>, t: Timed, v: Id, n: nat,
                                       other: Account, u: Id, from: nat, before: nat)
    requires CanWrite(x.w, t, v) && x.w.sessions[Sender(t)].user == u && n <= l.cap
    requires Came(l, x, ts, t, 0, other, u, from, before)
    ensures Came(l, x, Burst(ts, t, n), t, n, other, u, from, before)
  {
    forall ts', k: nat | k < n && Came(l, x, ts', t, k, other, u, from, before)
      ensures Came(l, x, ts' + [t], t, k + 1, other, u, from, before)
    {
      OneMoreCame(l, x, ts', t, v, k, other, u, from, before);
    }
    Repeated(ts, t, n, (ts', k: nat) => Came(l, x, ts', t, k, other, u, from, before));
  }

  // ----- a second session and somebody to write to -----

  lemma Unused(a: set<nat>) returns (s: nat)
    ensures forall t :: t in a ==> t < s
  {
    if a == {} {
      s := 0;
    } else {
      var t :| t in a;
      s := Unused(a - {t});
      s := if s <= t then t + 1 else s;
      assert a == (a - {t}) + {t};
    }
  }

  lemma UnusedPrint(a: set<Print>) returns (fp: Print)
    ensures forall x :: x in a ==> |x| < |fp|
  {
    if a == {} {
      fp := "SHA256:";
    } else {
      var x :| x in a;
      fp := UnusedPrint(a - {x});
      if |fp| <= |x| { fp := x + "0"; }
    }
  }

  function Now(d: Deed, now: real): Timed { Timed(d, now, now, now) }

  /** No call is made, nobody goes, and nobody's key changes. */
  ghost predicate Calm(x: Limited, x': Limited) {
    && x'.calls == x.calls && |x.w.db.users| <= |x'.w.db.users|
    && (forall s :: s in x.w.sessions ==>
          s in x'.w.sessions && x'.w.sessions[s].user == x.w.sessions[s].user && KeyAt(x', s) == KeyAt(x, s))
  }

  lemma SignInIsCalm(l: Rate.Limits, x: Limited, u: Id, now: real) returns (t: Timed, s: Sid)
    requires KeysOk(x) && UserExists(x.w.db, u)
    ensures t.sweep == t.create == t.take == now
    ensures var x' := LimitedStep(l, x, t);
            && Calm(x, x') && x'.w.db.users == x.w.db.users && x'.w.db.blocks == x.w.db.blocks
            && s in x'.w.sessions && x'.w.sessions[s].user == u && KeyAt(x', s) == UserKey(u)
  {
    s := Unused(x.w.sessions.Keys);
    t := Now(SignIn(s, x.first[u]), now);
    ConnectDoes(x.w, s, u);
  }

  /** A handle that the first user does not have. */
  function FreeHandle(db: DB): string {
    if db.users != [] && Lower(db.users[0].handle) == Lower("aaa") then "bbb" else "aaa"
  }

  lemma FreeHandleIsFree(db: DB)
    requires |db.users| == 1
    ensures UserByHandle(db, FreeHandle(db)).None? && ValidHandle(FreeHandle(db))
  {
    assert Lower("aaa")[0] == 'a' && Lower("bbb")[0] == 'b';
    assert db.users[..0] == [];
  }

  lemma SignUpIsCalm(l: Rate.Limits, x: Limited, now: real) returns (t: Timed, s: Sid)
    requires |x.w.db.users| == 1
    ensures t.sweep == t.create == t.take == now
    ensures var x' := LimitedStep(l, x, t);
            Calm(x, x') && |x'.w.db.users| == 2 && s in x'.w.sessions && x'.w.sessions[s].user == 2
  {
    s := Unused(x.w.sessions.Keys);
    var fp := UnusedPrint(x.prints.Keys);
    var h := FreeHandle(x.w.db);
    t := Now(SignUp(s, h, fp, "general", 0), now);
    FreeHandleIsFree(x.w.db);
    SignUpDoes(x, s, h, fp, "general", 0);
  }

  /** Another user than u comes online. */
  lemma PeerComes(l: Rate.Limits, x: Limited, u: Id, now: real) returns (t: Timed, s: Sid, v: Id)
    requires KeysOk(x) && UserExists(x.w.db, u)
    ensures t.sweep == t.create == t.take == now
    ensures var x' := LimitedStep(l, x, t);
            Calm(x, x') && UserExists(x'.w.db, v) && v != u && s in x'.w.sessions && x'.w.sessions[s].user == v
  {
    if |x.w.db.users| == 1 {
      v := 2;
      t, s := SignUpIsCalm(l, x, now);
    } else {
      v := if u == 1 then 2 else 1;
      t, s := SignInIsCalm(l, x, v, now);
    }
  }

  lemma UnblockDoes(w: World, s: Sid, h: string, u: Id)
    requires s in w.sessions && UserByHandle(w.db, h) == Some(u)
    ensures var w' := Step(w, CmdBlock(s, h, false));
            && w'.db.users == w.db.users && (w.sessions[s].user, u) !in w'.db.blocks && w'.sessions == w.sessions
  {
    SessionStep(w, CmdBlock(s, h, false));
  }

  /** Session s, of user v, takes back the block of the user whose handle is h. */
  lemma UnblockIsCalm(l: Rate.Limits, x: Limited, s: Sid, h: string, u: Id, now: real)
    requires s in x.w.sessions && UserByHandle(x.w.db, h) == Some(u)
    ensures var x' := LimitedStep(l, x, Now(Do(CmdBlock(s, h, false)), now));
            && Calm(x, x') && x'.w.db.users == x.w.db.users && x'.w.sessions == x.w.sessions
            && (x.w.sessions[s].user, u) !in x'.w.db.blocks
  {
    UnblockDoes(x.w, s, h, u);
  }

  /** All clock readings are this one. */
  ghost predicate AllAt(ts: seq<Timed>, now: real) { forall t :: t in ts ==> t.sweep == t.create == t.take == now }

  lemma {:induction false} BurstAllAt(ts: seq<Timed>, more: seq<Timed>, t: Timed, n: nat, now: real)
    requires AllAt(more, now) && t.sweep == t.create == t.take == now
    ensures AllAt(Burst(more, t, n), now) && Burst(ts + more, t, n) == ts + Burst(more, t, n)
  {
    if n > 0 { BurstAllAt(ts, more, t, n - 1, now); }
  }

  lemma {:induction false} HandleOf(l: Rate.Limits, ts: seq<Timed>, u: Id)
    requires UserExists(LimitedRun(l, ts).w.db, u)
    ensures var db := LimitedRun(l, ts).w.db; UserByHandle(db, db.users[u - 1].handle) == Some(u)
  {
    LimitedRunIsGood(l, ts);
    LookupsInvert(LimitedRun(l, ts).w.db, u, 0);
  }

  /** u has a session under the id and may write to v, whose handle is h. */
  ghost predicate Ready(x: Limited, u: Id, s: Sid, h: string, v: Id) {
    && s in x.w.sessions && x.w.sessions[s].user == u && KeyAt(x, s) == UserKey(u)
    && UserByHandle(x.w.db, h) == Some(v) && v != u && (v, u) !in x.w.db.blocks
  }

  lemma {:induction false} Unblocking(l: Rate.Limits, ts: seq<Timed>, s: Sid, u: Id, now: real) returns (t: Timed)
    requires var x := LimitedRun(l, ts); UserExists(x.w.db, u) && s in x.w.sessions
    ensures t.sweep == t.create == t.take == now
    ensures var x, x' := LimitedRun(l, ts), LimitedRun(l, ts + [t]);
            Calm(x, x') && x'.w.db.users == x.w.db.users && (x.w.sessions[s].user, u) !in x'.w.db.blocks
  {
    var x := LimitedRun(l, ts);
    var h := x.w.db.users[u - 1].handle;
    t := Now(Do(CmdBlock(s, h, false)), now);
    HandleOf(l, ts, u);
    UnblockIsCalm(l, x, s, h, u, now);
    LimitedRunSnoc(l, ts, t);
  }

  /** Another user than u is there and does not block u. */
  lemma {:induction false} PeerReady(l: Rate.Limits, ts: seq<Timed>, u: Id, now: real) returns (more: seq<Timed>, v: Id)
    requires UserExists(LimitedRun(l, ts).w.db, u)
    ensures AllAt(more, now)
    ensures var x, x' := LimitedRun(l, ts), LimitedRun(l, ts + more);
            Calm(x, x') && UserExists(x'.w.db, v) && v != u && (v, u) !in x'.w.db.blocks
  {
    RunKeepsKeys(l, ts, 0);
    var t1, s, v1 := PeerComes(l, LimitedRun(l, ts), u, now);
    v := v1;
    LimitedRunSnoc(l, ts, t1);
    var t2 := Unblocking(l, ts + [t1], s, u, now);
    more := [t1, t2];
    assert ts + more == ts + [t1] + [t2];
  }

  lemma {:induction false} SignInReady(l: Rate.Limits, ts: seq<Timed>, u: Id, v: Id, now: real)
    returns (t: Timed, s: Sid, h: string)
    requires var db := LimitedRun(l, ts).w.db; UserExists(db, u) && UserExists(db, v) && v != u && (v, u) !in db.blocks
    ensures t.sweep == t.create == t.take == now
    ensures Calm(LimitedRun(l, ts), LimitedRun(l, ts + [t])) && Ready(LimitedRun(l, ts + [t]), u, s, h, v)
  {
    RunKeepsKeys(l, ts, 0);
    h := LimitedRun(l, ts).w.db.users[v - 1].handle;
    HandleOf(l, ts, v);
    t, s := SignInIsCalm(l, LimitedRun(l, ts), u, now);
    LimitedRunSnoc(l, ts, t);
  }

  lemma {:induction false} Prepare(l: Rate.Limits, ts: seq<Timed>, u: Id, now: real)
    returns (more: seq<Timed>, s: Sid, h: string, v: Id)
    requires UserExists(LimitedRun(l, ts).w.db, u)
    ensures AllAt(more, now)
    ensures Calm(LimitedRun(l, ts), LimitedRun(l, ts + more)) && Ready(LimitedRun(l, ts + more), u, s, h, v)
  {
    var prep, t;
    prep, v := PeerReady(l, ts, u, now);
    t, s, h := SignInReady(l, ts + prep, u, v, now);
    more := prep + [t];
    assert ts + more == ts + prep + [t];
  }

  // ----- twice the capacity, whenever two keys are live -----

  function LastTake(ts: seq<Timed>): real { if ts == [] then 0.0 else ts[|ts| - 1].take }

  /** A time at which every key is rested. */
  function Later(l: Rate.Limits, ts: seq<Timed>): real { LastTake(ts) + 3.0 * l.per }

  lemma {:induction false} RestedLater(l: Rate.Limits, ts: seq<Timed>, key: string)
    requires l.cap >= 1 && Ticking(ts)
    ensures Spent(l, Rate.LimiterRun(l, LimitedRun(l, ts).calls), key, Later(l, ts), 0)
  {
    CallsClocked(l, ts);
    Rested(l, LimitedRun(l, ts).calls, key, Later(l, ts));
  }

  lemma TickingOn(ts: seq<Timed>, more: seq<Timed>, now: real)
    requires Ticking(ts) && AllAt(more, now) && (ts != [] ==> LastTake(ts) <= now)
    ensures Ticking(ts + more) && forall i :: |ts| <= i < |ts + more| ==> (ts + more)[i].take == now
  {
    var all := ts + more;
    forall i | |ts| <= i < |all| ensures all[i].sweep == all[i].create == all[i].take == now {
      assert all[i] == more[i - |ts|] && all[i] in more;
    }
    forall i, j | 0 <= i < j < |all| ensures all[i].take <= all[j].sweep {
      if j >= |ts| && i < |ts| - 1 { assert ts[i].take <= ts[|ts| - 1].sweep <= LastTake(ts); }
    }
  }

  /** Two notes of u, one from a session under another key than the id and one from a session under the id. */
  ghost predicate Poised(x: Limited, u: Id, t0: Timed, t1: Timed, v: Id) {
    && CanWrite(x.w, t0, v) && x.w.sessions[Sender(t0)].user == u && KeyAt(x, Sender(t0)) != UserKey(u)
    && CanWrite(x.w, t1, v) && x.w.sessions[Sender(t1)].user == u && KeyAt(x, Sender(t1)) == UserKey(u)
  }

  ghost predicate BothRested(l: Rate.Limits, x: Limited, u: Id, s0: Sid, now: real) {
    && Spent(l, Rate.LimiterRun(l, x.calls), KeyAt(x, s0), now, 0)
    && Spent(l, Rate.LimiterRun(l, x.calls), UserKey(u), now, 0)
  }

  lemma {:induction false} TwoBursts(l: Rate.Limits, ts: seq<Timed>, u: Id, t0: Timed, t1: Timed, v: Id, now: real)
    requires l.cap >= 1 && Poised(LimitedRun(l, ts), u, t0, t1, v) && t0.take == now == t1.take
    requires BothRested(l, LimitedRun(l, ts), u, Sender(t0), now)
    ensures |ts| <= |Burst(Burst(ts, t0, l.cap), t1, l.cap)|
    ensures StoredFor(l, Burst(Burst(ts, t0, l.cap), t1, l.cap), u, |ts|) == 2 * l.cap
  {
    var x, ts' := LimitedRun(l, ts), Burst(ts, t0, l.cap);
    BurstPasses(l, x, ts, t0, v, l.cap, Account(UserKey(u), 0), u, |ts|, 0);
    StillCanWrite(x.w, LimitedRun(l, ts').w, t1, v);
    BurstPasses(l, LimitedRun(l, ts'), ts', t1, v, l.cap, Account(KeyAt(x, Sender(t0)), l.cap), u, |ts|, l.cap);
  }

  function Hi(s: Sid, h: string, now: real): Timed { Now(Do(CmdMsg(s, h, "hi", false)), now) }

  lemma HiIsText()
    ensures Sanitize(Truncate("hi")) != ""
  {
    assert "hi"[1..] == "i" && "i"[1..] == "";
    assert Emit(Ground, "i") == "i";
    assert Strip("hi") == "hi";
  }

  lemma HiCanBeSent(w: World, s: Sid, h: string, v: Id, now: real)
    requires s in w.sessions && UserByHandle(w.db, h) == Some(v)
    requires v != w.sessions[s].user && (v, w.sessions[s].user) !in w.db.blocks
    ensures CanWrite(w, Hi(s, h, now), v) && Sender(Hi(s, h, now)) == s && Hi(s, h, now).take == now
  {
    HiIsText();
  }

  /** s0 is a live session of u under another key than the id, which a new session of u would have. */
  ghost predicate TwoBudgets(x: Limited, u: Id, s0: Sid) {
    UserExists(x.w.db, u) && s0 in x.w.sessions && x.w.sessions[s0].user == u && KeyAt(x, s0) != UserKey(u)
  }

  lemma {:induction false} Stage(l: Rate.Limits, ts: seq<Timed>, u: Id, s0: Sid)
    returns (prep: seq<Timed>, t0: Timed, t1: Timed, v: Id)
    requires l.cap >= 1 && Ticking(ts) && TwoBudgets(LimitedRun(l, ts), u, s0)
    ensures AllAt(prep + [t0, t1], Later(l, ts)) && Poised(LimitedRun(l, ts + prep), u, t0, t1, v)
    ensures BothRested(l, LimitedRun(l, ts + prep), u, Sender(t0), Later(l, ts))
  {
    var s1, h;
    var now := Later(l, ts);
    prep, s1, h, v := Prepare(l, ts, u, now);
    t0, t1 := Hi(s0, h, now), Hi(s1, h, now);
    HiCanBeSent(LimitedRun(l, ts + prep).w, s0, h, v, now);
    HiCanBeSent(LimitedRun(l, ts + prep).w, s1, h, v, now);
    RestedLater(l, ts, KeyAt(LimitedRun(l, ts), s0));
    RestedLater(l, ts, UserKey(u));
  }

  /** What u stores from position from on comes at this one instant, and is twice the capacity. */
  ghost predicate TwiceAt(l: Rate.Limits, ts: seq<Timed>, u: Id, from: nat, now: real) {
    && Ticking(ts) && from <= |ts| && (forall i :: from <= i < |ts| ==> ts[i].take == now)
    && StoredFor(l, ts, u, from) == 2 * l.cap
  }

  /** From any such state the run can go on so that u stores twice the capacity at one instant. */
  lemma {:induction false} TwiceAtOnce(l: Rate.Limits, ts: seq<Timed>, u: Id, s0: Sid)
    returns (more: seq<Timed>, from: nat, now: real)
    requires l.cap >= 1 && Ticking(ts) && TwoBudgets(LimitedRun(l, ts), u, s0)
    ensures |ts| <= from && TwiceAt(l, ts + more, u, from, now)
  {
    var prep, t0, t1, v := Stage(l, ts, u, s0);
    now, from := Later(l, ts), |ts + prep|;
    more := Burst(Burst(prep, t0, l.cap), t1, l.cap);
    assert t0 in prep + [t0, t1] && t1 in prep + [t0, t1] && forall t :: t in prep ==> t in prep + [t0, t1];
    TwoBursts(l, ts + prep, u, t0, t1, v, now);
    BurstAllAt(ts, prep, t0, l.cap, now);
    BurstAllAt(ts, Burst(prep, t0, l.cap), t1, l.cap, now);
    TickingOn(ts, more, now);
  }

  /** What u stores from position from on, if all of that is within t1..t2, fits one capacity plus rate. */
  ghost predicate WithinOne(l: Rate.Limits, ts: seq<Timed>, u: Id, from: nat, t1: real, t2: real) {
    Ticking(ts) && from <= |ts| && t1 <= t2 && (forall i :: from <= i < |ts| ==> t1 <= ts[i].take <= t2) ==>
      StoredFor(l, ts, u, from) as real <= l.cap as real + Rate.Earned(t2 - t1, l.cap as real / l.per)
  }

  lemma TwiceExceeds(l: Rate.Limits, ts: seq<Timed>, u: Id, from: nat, now: real)
    requires l.cap >= 1 && TwiceAt(l, ts, u, from, now)
    ensures !WithinOne(l, ts, u, from, now, now)
  {
    NothingEarned(now, l.cap as real / l.per);
  }

  lemma {:induction false} FirstSignUp(l: Rate.Limits, fp: Print)
    ensures TwoBudgets(LimitedRun(l, [Now(SignUp(0, "abc", fp, "general", 0), 0.0)]), 1, 0)
  {
    var t := Now(SignUp(0, "abc", fp, "general", 0), 0.0);
    LimitedRunSnoc(l, [], t);
    assert [] + [t] == [t];
    SignUpDoes(START, 0, "abc", fp, "general", 0);
    PrintIsNoUserKey(fp, 1);
  }

  /**
   So one capacity plus rate does not bound a user: whatever the capacity, a run of the system from its start
   stores twice as much for its first user at one instant. UserWithinTwice is attained.
   */
  lemma {:induction false} TwiceIsReached(l: Rate.Limits) returns (ts: seq<Timed>, from: nat, now: real)
    requires l.cap >= 1
    ensures TwiceAt(l, ts, 1, from, now) && !WithinOne(l, ts, 1, from, now, now)
  {
    var ts0 := [Now(SignUp(0, "abc", "SHA256:", "general", 0), 0.0)];
    FirstSignUp(l, "SHA256:");
    var more;
    more, from, now := TwiceAtOnce(l, ts0, 1, 0);
    ts := ts0 + more;
    TwiceExceeds(l, ts, 1, from, now);
  }

  // ----- when a user has one budget -----

  /** However the run ts goes on, u stays within one capacity plus rate. */
  ghost predicate HeldToOne(l: Rate.Limits, ts: seq<Timed>, u: Id) {
    forall more, from, t1, t2 :: |ts| <= from ==> WithinOne(l, ts + more, u, from, t1, t2)
  }

  /** The sessions of u are all later ones. */
  ghost predicate OnlyLater(x: Limited, u: Id) { UserExists(x.w.db, u) && OneKey(x, u, UserKey(u)) }

  lemma DoStaysLater(l: Rate.Limits, x: Limited, a: Action, t: Timed, u: Id)
    requires OnlyLater(x, u) && !a.Register? && !a.Connect?
    ensures OnlyLater(Did(l, x, a, t), u)
  {
    DoNoNewcomer(x.w, Taken(l, x, a, t));
  }

  lemma SignUpStaysLater(x: Limited, s: Sid, h: string, fp: Print, room: string, now: int, u: Id)
    requires OnlyLater(x, u) && MaySignUp(x, s, h, fp)
    ensures OnlyLater(SignedUp(x, s, h, fp, room, now), u)
  {
    SignUpDoes(x, s, h, fp, room, now);
  }

  lemma SignInStaysLater(x: Limited, s: Sid, v: Id, u: Id)
    requires OnlyLater(x, u) && s !in x.w.sessions && UserExists(x.w.db, v)
    ensures OnlyLater(SignedIn(x, s, v), u)
  {
    ConnectDoes(x.w, s, v);
  }

  /** It stays so: a session under a fingerprint comes with a new user. */
  lemma LaterStaysLater(l: Rate.Limits, x: Limited, t: Timed, u: Id)
    requires KeysOk(x) && OnlyLater(x, u)
    ensures OnlyLater(LimitedStep(l, x, t), u)
  {
    match t.deed
    case SignUp(s, h, fp, room, now) => if MaySignUp(x, s, h, fp) { SignUpStaysLater(x, s, h, fp, room, now, u); }
    case SignIn(s, fp) => if s !in x.w.sessions && fp in x.prints { SignInStaysLater(x, s, x.prints[fp], u); }
    case AddKey(s, fp) =>
    case Do(a) => if !a.Register? && !a.Connect? { DoStaysLater(l, x, a, t, u); }
  }

  lemma {:induction false} OneMoreLater(l: Rate.Limits, ts: seq<Timed>, t: Timed, u: Id)
    requires OnlyLater(LimitedRun(l, ts), u)
    ensures OnlyLater(LimitedRun(l, ts + [t]), u)
  {
    RunKeepsKeys(l, ts, 0);
    LaterStaysLater(l, LimitedRun(l, ts), t, u);
    LimitedRunSnoc(l, ts, t);
  }

  lemma {:induction false} OnlyLaterOn(l: Rate.Limits, ts: seq<Timed>, more: seq<Timed>, u: Id)
    requires OnlyLater(LimitedRun(l, ts), u)
    ensures OnlyLater(LimitedRun(l, ts + more), u)
  {
    if more == [] {
      assert ts + more == ts;
    } else {
      var n := |more| - 1;
      OnlyLaterOn(l, ts, more[..n], u);
      OneMoreLater(l, ts + more[..n], more[n], u);
      assert ts + more == (ts + more[..n]) + [more[n]];
    }
  }

  lemma {:induction false} LaterWithin(l: Rate.Limits, ts: seq<Timed>, more: seq<Timed>, u: Id,
                                       from: nat, t1: real, t2: real)
    requires l.cap >= 0 && OnlyLater(LimitedRun(l, ts), u) && |ts| <= from
    ensures WithinOne(l, ts + more, u, from, t1, t2)
  {
    var all := ts + more;
    if Ticking(all) && from <= |all| && t1 <= t2 && (forall i :: from <= i < |all| ==> t1 <= all[i].take <= t2) {
      forall n | from <= n < |all| ensures OneKey(LimitedRun(l, all[..n]), u, UserKey(u)) {
        assert all[..n] == ts + more[..n - |ts|];
        OnlyLaterOn(l, ts, more[..n - |ts|], u);
      }
      UserWithinRate(l, all, u, UserKey(u), from, t1, t2);
    }
  }

  lemma NoRefill(l: Rate.Limits, span: real)
    requires l.cap == 0
    ensures l.cap as real + Rate.Earned(span, l.cap as real / l.per) == 0.0
  {
    assert 0.0 / l.per == 0.0;
    assert span * 0.0 == 0.0;
  }

  lemma {:induction false} NoCapacityWithin(l: Rate.Limits, ts: seq<Timed>, u: Id, from: nat, t1: real, t2: real)
    requires l.cap == 0
    ensures WithinOne(l, ts, u, from, t1, t2)
  {
    if Ticking(ts) && from <= |ts| && t1 <= t2 && (forall i :: from <= i < |ts| ==> t1 <= ts[i].take <= t2) {
      UserWithinTwice(l, ts, u, from, t1, t2);
      NoRefill(l, t2 - t1);
    }
  }

  /**
   From a state on, a user is held to one capacity plus rate if and only if none of their live sessions is the one
   they signed up in, whose key is not their id; apart from the limiter that admits nothing at all.
   */
  lemma {:induction false} OneBudgetExactly(l: Rate.Limits, ts: seq<Timed>, u: Id)
    requires l.cap >= 0 && Ticking(ts) && UserExists(LimitedRun(l, ts).w.db, u)
    ensures HeldToOne(l, ts, u) <==> l.cap == 0 || OneKey(LimitedRun(l, ts), u, UserKey(u))
  {
    var x := LimitedRun(l, ts);
    if l.cap == 0 {
      forall more, from, t1, t2 | |ts| <= from ensures WithinOne(l, ts + more, u, from, t1, t2) {
        NoCapacityWithin(l, ts + more, u, from, t1, t2);
      }
    } else if OneKey(x, u, UserKey(u)) {
      forall more, from, t1, t2 | |ts| <= from ensures WithinOne(l, ts + more, u, from, t1, t2) {
        LaterWithin(l, ts, more, u, from, t1, t2);
      }
    } else {
      var s0 :| s0 in x.w.sessions && x.w.sessions[s0].user == u && KeyAt(x, s0) != UserKey(u);
      assert TwoBudgets(x, u, s0);
      var more, from, now := TwiceAtOnce(l, ts, u, s0);
      TwiceExceeds(l, ts + more, u, from, now);
    }
  }
}
