/**
 The system with its message limiter (internal/ssh/server.go: rateKey, msgAllow) and its sign-up
 (internal/tui/register.go). A session asks the one limiter of the server, under the key it got when it
 connected, whenever it is about to send.
 */
module LimitedRuns {
  import opened Database
  import opened Mentions
  import opened StoreLaws
  import opened HubModel
  import opened SessionModel
  import opened World
  import opened Safety
  import opened BadgeLaws
  import opened CommandLaws
  import opened Runs
  import Rate

  /** A key's fingerprint. */
  type Print = s: string | "SHA256:" <= s witness "SHA256:"

  /** strconv.FormatInt(n, 10) of an id. */
  function Decimal(n: nat): string {
    if n < 10 then [('0' as int + n) as char] else Decimal(n / 10) + [('0' as int + n % 10) as char]
  }

  /** The limiter key of a user who is known when the session starts. */
  function UserKey(u: Id): string { "u:" + (if u < 0 then "-" + Decimal(-u) else Decimal(u)) }

  lemma PrintIsNoUserKey(fp: Print, u: Id)
    ensures fp != UserKey(u)
  {
    assert fp[0] == 'S' && UserKey(u)[0] == 'u';
  }

  /** The number that a string of decimal digits says. */
  function Number(s: string): int {
    if s == [] then 0 else 10 * Number(s[..|s| - 1]) + (s[|s| - 1] as int - '0' as int)
  }

  lemma {:induction false} DecimalSays(n: nat)
    ensures Number(Decimal(n)) == n && Decimal(n) != [] && '0' <= Decimal(n)[0] <= '9'
  {
    var last := ('0' as int + n % 10) as char;
    if n < 10 {
      assert [last][..0] == [];
    } else {
      DecimalSays(n / 10);
      assert (Decimal(n / 10) + [last])[..|Decimal(n / 10)|] == Decimal(n / 10);
    }
  }

  /** Different users have different keys. */
  lemma UserKeysDiffer(u: Id, v: Id)
    ensures UserKey(u) == UserKey(v) <==> u == v
  {
    var a, b := UserKey(u)[2..], UserKey(v)[2..];
    DecimalSays(if u < 0 then -u else u);
    DecimalSays(if v < 0 then -v else v);
    assert a == if u < 0 then "-" + Decimal(-u) else Decimal(u);
    assert b == if v < 0 then "-" + Decimal(-v) else Decimal(v);
    if a == b {
      assert u < 0 <==> v < 0 by { assert a[0] == b[0]; }
      if u < 0 { assert a[1..] == Decimal(-u) && b[1..] == Decimal(-v); }
    }
  }

  predicate ValidHandle(h: string) {
    MIN_HANDLE <= |h| <= MAX_HANDLE && forall i :: 0 <= i < |h| ==> HandleChar(h[i])
  }

  /** An unknown key signs up, a known key signs in, a session adds a key, or anything else happens. */
  datatype Deed =
    | SignUp(s: Sid, handle: string, fp: Print, defaultRoom: string, now: int)
    | SignIn(s: Sid, fp: Print)
    | AddKey(s: Sid, fp: Print)
    | Do(act: Action)

  /** A deed with the clock readings of the limiter call it makes, if it makes one. */
  datatype Timed = Timed(deed: Deed, sweep: real, create: real, take: real)

  /**
   prints is the table of keys with their users. calls is the history of the limiter's calls, whose buckets are
   Rate.LimiterRun of them, and first the history of the keys that users signed up with.
   */
  datatype Limited = Limited(
    w: World,
    calls: seq<Rate.Call>,
    keys: map<Sid, string>,
    prints: map<Print, Id>,
    first: map<Id, Print>
  )

  const START := Limited(INITIAL, [], map[], map[], map[])

  function KeyAt(x: Limited, s: Sid): string { if s in x.keys then x.keys[s] else "" }

  // ----- signing up and in -----

  predicate MaySignUp(x: Limited, s: Sid, h: string, fp: Print) {
    s !in x.w.sessions && ValidHandle(h) && UserByHandle(x.w.db, h).None? && fp !in x.prints
  }

  /** The session that signs its user up goes on with the key it was started under: its fingerprint. */
  function SignedUp(x: Limited, s: Sid, h: string, fp: Print, room: string, now: int): Limited {
    var u := |x.w.db.users| + 1;
    Limited(Step(Step(x.w, Register(h, room, now)), Connect(s, u)), x.calls,
            x.keys[s := fp], x.prints[fp := u], x.first[u := fp])
  }

  function SignedIn(x: Limited, s: Sid, u: Id): Limited {
    x.(w := Step(x.w, Connect(s, u)), keys := x.keys[s := UserKey(u)])
  }

  // ----- sending -----

  predicate Sending(a: Action) { a.Say? || a.CmdMsg? }

  /** Whether the action gets as far as asking the limiter. */
  predicate Asks(w: World, a: Action) {
    && Sending(a) && a.s in w.sessions
    && (a.CmdMsg? ==>
          var u := UserByHandle(w.db, a.handle); u.Some? && u.value != w.sessions[a.s].user && a.text != "")
  }

  function CallOf(x: Limited, a: Action, t: Timed): Rate.Call
    requires Sending(a)
  {
    Rate.Call(KeyAt(x, a.s), t.sweep, t.create, t.take)
  }

  function Answered(a: Action, ok: bool): Action
    requires Sending(a)
  {
    match a
    case Say(s, text, _) => Say(s, text, ok)
    case CmdMsg(s, h, text, _) => CmdMsg(s, h, text, ok)
  }

  /** The action that the world takes: a send carries the limiter's answer. */
  function Taken(l: Rate.Limits, x: Limited, a: Action, t: Timed): Action {
    if Sending(a) then Answered(a, Rate.Decision(l, x.calls + [CallOf(x, a, t)])) else a
  }

  function Did(l: Rate.Limits, x: Limited, a: Action, t: Timed): Limited {
    x.(w := Step(x.w, Taken(l, x, a, t)),
       calls := if Asks(x.w, a) then x.calls + [CallOf(x, a, t)] else x.calls)
  }

  /** Users come by signing up only, and sessions by signing up or in. */
  function LimitedStep(l: Rate.Limits, x: Limited, t: Timed): Limited {
    match t.deed
    case SignUp(s, h, fp, room, now) => if MaySignUp(x, s, h, fp) then SignedUp(x, s, h, fp, room, now) else x
    case SignIn(s, fp) => if s !in x.w.sessions && fp in x.prints then SignedIn(x, s, x.prints[fp]) else x
    case AddKey(s, fp) =>
      if s in x.w.sessions && fp !in x.prints then x.(prints := x.prints[fp := x.w.sessions[s].user]) else x
    case Do(a) => if a.Register? || a.Connect? then x else Did(l, x, a, t)
  }

  function LimitedRun(l: Rate.Limits, ts: seq<Timed>): Limited {
    if ts == [] then START else LimitedStep(l, LimitedRun(l, ts[..|ts| - 1]), ts[|ts| - 1])
  }

  lemma {:induction false} LimitedRunSnoc(l: Rate.Limits, ts: seq<Timed>, t: Timed)
    ensures LimitedRun(l, ts + [t]) == LimitedStep(l, LimitedRun(l, ts), t)
  {
    assert (ts + [t])[..|ts|] == ts;
  }

  // ----- the same runs -----

  /** The steps of the world that a deed is. */
  function ActsOf(l: Rate.Limits, x: Limited, t: Timed): seq<Action> {
    match t.deed
    case SignUp(s, h, fp, room, now) =>
      if MaySignUp(x, s, h, fp) then [Register(h, room, now), Connect(s, |x.w.db.users| + 1)] else []
    case SignIn(s, fp) => if s !in x.w.sessions && fp in x.prints then [Connect(s, x.prints[fp])] else []
    case AddKey(_, _) => []
    case Do(a) => if a.Register? || a.Connect? then [] else [Taken(l, x, a, t)]
  }

  lemma RunShort(w: World, a: Action, b: Action)
    ensures Run(w, []) == w && Run(w, [a]) == Step(w, a) && Run(w, [a, b]) == Step(Step(w, a), b)
  {
    assert [a][..0] == [] && [a, b][..1] == [a];
  }

  lemma StepIsActs(l: Rate.Limits, x: Limited, t: Timed)
    ensures LimitedStep(l, x, t).w == Run(x.w, ActsOf(l, x, t))
  {
    var acts := ActsOf(l, x, t);
    if |acts| == 2 {
      assert acts == [acts[0], acts[1]];
      RunShort(x.w, acts[0], acts[1]);
    } else if |acts| == 1 {
      assert acts == [acts[0]];
      RunShort(x.w, acts[0], acts[0]);
    }
  }

  lemma {:induction false} RunConcat(w: World, a: seq<Action>, b: seq<Action>)
    ensures Run(w, a + b) == Run(Run(w, a), b)
  {
    if b == [] {
      assert a + b == a;
    } else {
      var n := |b| - 1;
      RunConcat(w, a, b[..n]);
      assert (a + b)[..|a + b| - 1] == a + b[..n];
    }
  }

  /** With the limiter and the keys in place the world runs as before, so everything about runs carries over. */
  lemma {:induction false} LimitedRunIsRun(l: Rate.Limits, ts: seq<Timed>) returns (acts: seq<Action>)
    ensures LimitedRun(l, ts).w == Run(INITIAL, acts)
  {
    if ts == [] {
      acts := [];
    } else {
      var n := |ts| - 1;
      var x := LimitedRun(l, ts[..n]);
      var before := LimitedRunIsRun(l, ts[..n]);
      StepIsActs(l, x, ts[n]);
      RunConcat(INITIAL, before, ActsOf(l, x, ts[n]));
      acts := before + ActsOf(l, x, ts[n]);
    }
  }

  lemma {:induction false} LimitedRunIsGood(l: Rate.Limits, ts: seq<Timed>)
    ensures Good(LimitedRun(l, ts).w)
  {
    var acts := LimitedRunIsRun(l, ts);
    ReachableIsGood(acts);
  }

  // ----- what the limiter lets through -----

  /** The step stores a message, sent by a session with this key. */
  predicate Stores(l: Rate.Limits, x: Limited, t: Timed, key: string) {
    && t.deed.Do? && Sending(t.deed.act) && t.deed.act.s in x.w.sessions && KeyAt(x, t.deed.act.s) == key
    && |LimitedStep(l, x, t).w.db.messages| > |x.w.db.messages|
  }

  /** How many of the steps from position from on store a message under the key. */
  function StoredUnder(l: Rate.Limits, ts: seq<Timed>, key: string, from: nat): nat {
    if |ts| <= from then 0
    else
      var n := |ts| - 1;
      StoredUnder(l, ts[..n], key, from) + (if Stores(l, LimitedRun(l, ts[..n]), ts[n], key) then 1 else 0)
  }

  lemma RefusedSend(c: Ctx<Sid>, a: Action)
    requires Sending(a) && !a.allowed
    ensures Act(c, a).db.messages == c.db.messages
  {
    ActIs(c, a);
    if a.CmdMsg? { MsgIs(c, a.handle, a.text, a.allowed, UserByHandle(c.db, a.handle)); }
  }

  lemma UnaskedSend(c: Ctx<Sid>, a: Action)
    requires a.CmdMsg?
    requires var u := UserByHandle(c.db, a.handle); u.None? || u.value == c.sess.user || a.text == ""
    ensures Act(c, a).db.messages == c.db.messages
  {
    ActIs(c, a);
    MsgIs(c, a.handle, a.text, a.allowed, UserByHandle(c.db, a.handle));
  }

  /** A step that stores a message has asked the limiter, under its session's key, and was admitted. */
  lemma StoredIsAdmitted(l: Rate.Limits, x: Limited, t: Timed, key: string)
    requires Stores(l, x, t, key)
    ensures var a := t.deed.act;
            Asks(x.w, a) && CallOf(x, a, t).key == key && Rate.Decision(l, x.calls + [CallOf(x, a, t)])
  {
    var a := Taken(l, x, t.deed.act, t);
    SessionStep(x.w, a);
    if !a.allowed { RefusedSend(Focus(x.w, a.s), a); }
    if !Asks(x.w, t.deed.act) { UnaskedSend(Focus(x.w, a.s), a); }
  }

  lemma {:induction false} CallsGrow(l: Rate.Limits, ts: seq<Timed>, from: nat)
    requires from <= |ts|
    ensures LimitedRun(l, ts[..from]).calls <= LimitedRun(l, ts).calls
  {
    if from == |ts| {
      assert ts[..from] == ts;
    } else {
      assert ts[..|ts| - 1][..from] == ts[..from];
      CallsGrow(l, ts[..|ts| - 1], from);
      CallsAre(l, LimitedRun(l, ts[..|ts| - 1]), ts[|ts| - 1]);
    }
  }

  lemma {:induction false} AdmittedSnoc(l: Rate.Limits, cs: seq<Rate.Call>, c: Rate.Call, key: string, from: nat)
    requires from <= |cs|
    ensures Rate.AdmittedOf(l, cs + [c], key, from)
         == Rate.AdmittedOf(l, cs, key, from) + (if c.key == key && Rate.Decision(l, cs + [c]) then 1 else 0)
  {
    assert (cs + [c])[..|cs|] == cs;
  }

  lemma CallsAre(l: Rate.Limits, x: Limited, t: Timed)
    ensures LimitedStep(l, x, t).calls
         == if t.deed.Do? && Asks(x.w, t.deed.act) then x.calls + [CallOf(x, t.deed.act, t)] else x.calls
  {
  }

  /** Somebody else has the handle. */
  ghost predicate OtherHas(db: DB, me: Id, h: string) {
    exists u :: UserExists(db, u) && u != me && Lower(db.users[u - 1].handle) == Lower(h)
  }

  lemma HandleIsOnes(db: DB, u: Id, v: Id)
    requires NamesUnique(db) && UserExists(db, u) && UserExists(db, v)
    requires Lower(db.users[u - 1].handle) == Lower(db.users[v - 1].handle)
    ensures u == v
  {
  }

  lemma OtherIsFound(db: DB, me: Id, h: string)
    requires NamesUnique(db)
    ensures OtherHas(db, me, h) <==> UserByHandle(db, h).Some? && UserByHandle(db, h).value != me
  {
    FindHandleExact(db.users, h);
    var found := UserByHandle(db, h);
    if u :| UserExists(db, u) && u != me && Lower(db.users[u - 1].handle) == Lower(h) {
      assert found.Some?;
      HandleIsOnes(db, found.value, u);
    }
    if found.Some? && found.value != me { assert UserExists(db, found.value); }
  }

  /**
   The limiter is asked by a live session that says something, in whatever view, or that writes a text to another
   user, and by nothing else.
   */
  lemma AskedExactly(l: Rate.Limits, x: Limited, t: Timed)
    requires NamesUnique(x.w.db)
    ensures var calls := LimitedStep(l, x, t).calls;
            if t.deed.Do? && Sending(t.deed.act) && t.deed.act.s in x.w.sessions
               && (t.deed.act.CmdMsg? ==>
                     t.deed.act.text != "" && OtherHas(x.w.db, x.w.sessions[t.deed.act.s].user, t.deed.act.handle))
            then calls == x.calls + [Rate.Call(KeyAt(x, t.deed.act.s), t.sweep, t.create, t.take)]
            else calls == x.calls
  {
    CallsAre(l, x, t);
    if t.deed.Do? && t.deed.act.CmdMsg? && t.deed.act.s in x.w.sessions {
      OtherIsFound(x.w.db, x.w.sessions[t.deed.act.s].user, t.deed.act.handle);
    }
  }

  lemma {:induction false} StoredStep(l: Rate.Limits, x: Limited, t: Timed, key: string, from: nat)
    requires from <= |x.calls|
    ensures Rate.AdmittedOf(l, x.calls, key, from) + (if Stores(l, x, t, key) then 1 else 0)
         <= Rate.AdmittedOf(l, LimitedStep(l, x, t).calls, key, from)
  {
    CallsAre(l, x, t);
    if t.deed.Do? && Asks(x.w, t.deed.act) { AdmittedSnoc(l, x.calls, CallOf(x, t.deed.act, t), key, from); }
    if Stores(l, x, t, key) { StoredIsAdmitted(l, x, t, key); }
  }

  lemma {:induction false} StoredLast(l: Rate.Limits, ts: seq<Timed>, key: string, from: nat, k: nat)
    requires from < |ts| && k <= |LimitedRun(l, ts[..|ts| - 1]).calls|
    ensures var before := ts[..|ts| - 1];
            StoredUnder(l, ts, key, from) - StoredUnder(l, before, key, from)
            <= Rate.AdmittedOf(l, LimitedRun(l, ts).calls, key, k) - Rate.AdmittedOf(l, LimitedRun(l, before).calls, key, k)
  {
    StoredStep(l, LimitedRun(l, ts[..|ts| - 1]), ts[|ts| - 1], key, k);
  }

  lemma PrefixOfLess(ts: seq<Timed>, from: nat)
    requires from < |ts|
    ensures ts[..|ts| - 1][..from] == ts[..from]
  {
  }

  lemma {:induction false} StoredAtMostAfter(l: Rate.Limits, ts: seq<Timed>, key: string, from: nat, k: nat)
    requires from <= |ts| && k == |LimitedRun(l, ts[..from]).calls|
    ensures StoredUnder(l, ts, key, from) <= Rate.AdmittedOf(l, LimitedRun(l, ts).calls, key, k)
  {
    if from < |ts| {
      var before := ts[..|ts| - 1];
      PrefixOfLess(ts, from);
      StoredAtMostAfter(l, before, key, from, k);
      CallsGrow(l, before, from);
      StoredLast(l, ts, key, from, k);
    }
  }

  lemma StoredAtMostAdmitted(l: Rate.Limits, ts: seq<Timed>, key: string, from: nat)
    requires from <= |ts|
    ensures StoredUnder(l, ts, key, from)
         <= Rate.AdmittedOf(l, LimitedRun(l, ts).calls, key, |LimitedRun(l, ts[..from]).calls|)
  {
    StoredAtMostAfter(l, ts, key, from, |LimitedRun(l, ts[..from]).calls|);
  }

  // ----- the clock -----

  /** The clock does not run backwards, inside an action or between actions. */
  ghost predicate Ticking(ts: seq<Timed>) {
    && (forall i :: 0 <= i < |ts| ==> ts[i].sweep <= ts[i].create <= ts[i].take)
    && (forall i, j :: 0 <= i < j < |ts| ==> ts[i].take <= ts[j].sweep)
  }

  /** A step makes at most one call, with the step's clock readings. */
  ghost predicate OneMore(cs: seq<Rate.Call>, cs': seq<Rate.Call>, t: Timed) {
    cs' == cs || exists key :: cs' == cs + [Rate.Call(key, t.sweep, t.create, t.take)]
  }

  lemma {:induction false} CallsStep(l: Rate.Limits, ts: seq<Timed>)
    requires ts != []
    ensures OneMore(LimitedRun(l, ts[..|ts| - 1]).calls, LimitedRun(l, ts).calls, ts[|ts| - 1])
  {
    var x, t := LimitedRun(l, ts[..|ts| - 1]), ts[|ts| - 1];
    CallsAre(l, x, t);
  }

  lemma ClockedSnoc(cs: seq<Rate.Call>, cs': seq<Rate.Call>, t: Timed)
    requires Rate.Clocked(cs) && OneMore(cs, cs', t) && t.sweep <= t.create <= t.take
    requires cs != [] ==> cs[|cs| - 1].take <= t.sweep
    ensures Rate.Clocked(cs') && (cs' != [] ==> cs'[|cs'| - 1].take <= t.take)
  {
  }

  /** The calls are clocked, and the last one is not after the last step. */
  ghost predicate ClockedBy(cs: seq<Rate.Call>, ts: seq<Timed>) {
    Rate.Clocked(cs) && (cs != [] ==> ts != [] && cs[|cs| - 1].take <= ts[|ts| - 1].take)
  }

  lemma ClockedByNext(cs: seq<Rate.Call>, cs': seq<Rate.Call>, ts: seq<Timed>)
    requires ts != [] && Ticking(ts) && ClockedBy(cs, ts[..|ts| - 1]) && OneMore(cs, cs', ts[|ts| - 1])
    ensures ClockedBy(cs', ts)
  {
    var n := |ts| - 1;
    assert cs != [] ==> cs[|cs| - 1].take <= ts[n - 1].take <= ts[n].sweep;
    ClockedSnoc(cs, cs', ts[n]);
  }

  lemma {:induction false} CallsClocked(l: Rate.Limits, ts: seq<Timed>)
    requires Ticking(ts)
    ensures ClockedBy(LimitedRun(l, ts).calls, ts)
  {
    if ts != [] {
      var n := |ts| - 1;
      CallsClocked(l, ts[..n]);
      CallsStep(l, ts);
      ClockedByNext(LimitedRun(l, ts[..n]).calls, LimitedRun(l, ts).calls, ts);
    }
  }

  ghost predicate Within(cs: seq<Rate.Call>, from: nat, t1: real, t2: real) {
    forall j :: from <= j < |cs| ==> t1 <= cs[j].take <= t2
  }

  lemma WithinSnoc(cs: seq<Rate.Call>, cs': seq<Rate.Call>, t: Timed, from: nat, t1: real, t2: real)
    requires Within(cs, from, t1, t2) && OneMore(cs, cs', t) && t1 <= t.take <= t2
    ensures Within(cs', from, t1, t2)
  {
  }

  lemma {:induction false} CallsWithin(l: Rate.Limits, ts: seq<Timed>, from: nat, t1: real, t2: real)
    requires from <= |ts| && forall i :: from <= i < |ts| ==> t1 <= ts[i].take <= t2
    ensures Within(LimitedRun(l, ts).calls, |LimitedRun(l, ts[..from]).calls|, t1, t2)
  {
    if from == |ts| {
      assert ts[..from] == ts;
    } else {
      var n := |ts| - 1;
      assert ts[..n][..from] == ts[..from];
      CallsWithin(l, ts[..n], from, t1, t2);
      CallsStep(l, ts);
      var first := |LimitedRun(l, ts[..from]).calls|;
      WithinSnoc(LimitedRun(l, ts[..n]).calls, LimitedRun(l, ts).calls, ts[n], first, t1, t2);
    }
  }

  // ----- the bound -----

  /**
   Over any run and any window of time, all sessions with one key together store at most capacity +
   length * capacity / window messages.
   */
  lemma {:induction false} MessagesWithinRate(l: Rate.Limits, ts: seq<Timed>, key: string, from: nat,
                                              t1: real, t2: real)
    requires l.cap >= 0 && Ticking(ts) && from <= |ts| && t1 <= t2
    requires forall i :: from <= i < |ts| ==> t1 <= ts[i].take <= t2
    ensures StoredUnder(l, ts, key, from) as real <= l.cap as real + Rate.Earned(t2 - t1, l.cap as real / l.per)
  {
    CallsClocked(l, ts);
    CallsWithin(l, ts, from, t1, t2);
    CallsGrow(l, ts, from);
    StoredAtMostAdmitted(l, ts, key, from);
    Rate.AdmittedInWindow(l, LimitedRun(l, ts).calls, key, |LimitedRun(l, ts[..from]).calls|, t1, t2);
  }

  /** The step stores a message of user u. */
  predicate StoresFor(l: Rate.Limits, x: Limited, t: Timed, u: Id) {
    && t.deed.Do? && Sending(t.deed.act) && t.deed.act.s in x.w.sessions && x.w.sessions[t.deed.act.s].user == u
    && |LimitedStep(l, x, t).w.db.messages| > |x.w.db.messages|
  }

  function StoredFor(l: Rate.Limits, ts: seq<Timed>, u: Id, from: nat): nat {
    if |ts| <= from then 0
    else
      var n := |ts| - 1;
      StoredFor(l, ts[..n], u, from) + (if StoresFor(l, LimitedRun(l, ts[..n]), ts[n], u) then 1 else 0)
  }

  /** In this state every session of u has this key. */
  ghost predicate OneKey(x: Limited, u: Id, key: string) {
    forall s :: s in x.w.sessions && x.w.sessions[s].user == u ==> KeyAt(x, s) == key
  }

  lemma {:induction false} StoredForAtMostUnder(l: Rate.Limits, ts: seq<Timed>, u: Id, key: string, from: nat)
    requires forall n :: from <= n < |ts| ==> OneKey(LimitedRun(l, ts[..n]), u, key)
    ensures StoredFor(l, ts, u, from) <= StoredUnder(l, ts, key, from)
  {
    if from < |ts| {
      var n := |ts| - 1;
      forall m | from <= m < n ensures OneKey(LimitedRun(l, ts[..n][..m]), u, key) {
        assert ts[..n][..m] == ts[..m];
      }
      StoredForAtMostUnder(l, ts[..n], u, key, from);
      assert OneKey(LimitedRun(l, ts[..n]), u, key);
    }
  }

  /** So a user whose sessions share one key is held to it, however many sessions there are. */
  lemma {:induction false} UserWithinRate(l: Rate.Limits, ts: seq<Timed>, u: Id, key: string, from: nat,
                                          t1: real, t2: real)
    requires l.cap >= 0 && Ticking(ts) && from <= |ts| && t1 <= t2
    requires forall i :: from <= i < |ts| ==> t1 <= ts[i].take <= t2
    requires forall n :: from <= n < |ts| ==> OneKey(LimitedRun(l, ts[..n]), u, key)
    ensures StoredFor(l, ts, u, from) as real <= l.cap as real + Rate.Earned(t2 - t1, l.cap as real / l.per)
  {
    StoredForAtMostUnder(l, ts, u, key, from);
    MessagesWithinRate(l, ts, key, from, t1, t2);
  }

  // ----- the keys of a user -----

  /**
   Every user has the key that they signed up with, and every session of theirs is limited under that key or
   under their id.
   */
  ghost predicate KeysOk(x: Limited) {
    && (forall fp :: fp in x.prints ==> UserExists(x.w.db, x.prints[fp]))
    && (forall u :: UserExists(x.w.db, u) <==> u in x.first)
    && (forall u :: u in x.first ==> x.first[u] in x.prints && x.prints[x.first[u]] == u)
    && (forall s :: s in x.w.sessions ==> KeyFits(x, s))
  }

  ghost predicate KeyFits(x: Limited, s: Sid)
    requires s in x.w.sessions
  {
    var u := x.w.sessions[s].user;
    u in x.first && (KeyAt(x, s) == UserKey(u) || KeyAt(x, s) == x.first[u])
  }

  /** Sessions only go, and keep their user; users stay as many. */
  ghost predicate NoNewcomer(w: World, w': World) {
    && |w'.db.users| == |w.db.users|
    && (forall s :: s in w'.sessions ==> s in w.sessions && w'.sessions[s].user == w.sessions[s].user)
  }

  lemma ActUsers(c: Ctx<Sid>, a: Action)
    ensures Act(c, a).db.users == c.db.users
  {
    if !a.CmdCreate? { ActNames(c, a); }
  }

  lemma DoNoNewcomer(w: World, a: Action)
    requires !a.Register? && !a.Connect?
    ensures NoNewcomer(w, Step(w, a))
  {
    if a.Disconnect? {
      DisconnectIs(w, a.s);
    } else if IsSessionAction(a) {
      SessionStep(w, a);
      if a.s in w.sessions {
        ActUsers(Focus(w, a.s), a);
        ActSameUser(Focus(w, a.s), a);
      }
    } else {
      StoreStep(w, a);
      OtherNames(w, a);
    }
  }

  lemma RegisteredUsers(db: DB, h: string, room: string, now: int)
    requires UserByHandle(db, h).None?
    ensures var db' := Registered(db, h, room, now); db'.users == db.users + [User(h, false)] && db'.blocks == db.blocks
  {
  }

  lemma ConnectDoes(w: World, s: Sid, u: Id)
    requires s !in w.sessions && UserExists(w.db, u)
    ensures var w' := Step(w, Connect(s, u));
            && w'.db.users == w.db.users && w'.db.blocks == w.db.blocks
            && w'.sessions.Keys == w.sessions.Keys + {s} && w'.sessions[s].user == u
            && forall t :: t in w.sessions ==> w'.sessions[t] == w.sessions[t]
  {
    ConnectIs(w, s, u);
    InitHub(w.db, w.hub, s, u, IsAdmin(w.db, u));
    InitRows(w.db, w.hub, s, u, IsAdmin(w.db, u));
  }

  lemma InitRows(db: DB, hub: Hub<Sid>, s: Sid, u: Id, admin: bool)
    ensures Init(db, hub, s, u, admin).db.users == db.users && Init(db, hub, s, u, admin).db.blocks == db.blocks
  {
  }

  lemma SignUpDoes(x: Limited, s: Sid, h: string, fp: Print, room: string, now: int)
    requires MaySignUp(x, s, h, fp)
    ensures var x', u := SignedUp(x, s, h, fp, room, now), |x.w.db.users| + 1;
            && x'.w.db.users == x.w.db.users + [User(h, false)] && x'.w.db.blocks == x.w.db.blocks
            && x'.w.sessions.Keys == x.w.sessions.Keys + {s} && x'.w.sessions[s].user == u
            && forall t :: t in x.w.sessions ==> x'.w.sessions[t] == x.w.sessions[t]
  {
    RegisteredUsers(x.w.db, h, room, now);
    StoreStep(x.w, Register(h, room, now));
    ConnectDoes(Step(x.w, Register(h, room, now)), s, |x.w.db.users| + 1);
  }

  /** A user's first key stays what it is. */
  ghost predicate FirstKept(x: Limited, x': Limited) {
    forall u :: u in x.first ==> u in x'.first && x'.first[u] == x.first[u]
  }

  /** Session s is new, and the others are as they were. */
  ghost predicate NewSession(x: Limited, x': Limited, s: Sid, u: Id, key: string) {
    && s !in x.w.sessions && x'.w.sessions.Keys == x.w.sessions.Keys + {s} && x'.w.sessions[s].user == u
    && (forall t :: t in x.w.sessions ==> x'.w.sessions[t] == x.w.sessions[t])
    && x'.keys == x.keys[s := key]
  }

  lemma NewSessionFits(x: Limited, x': Limited, s: Sid, u: Id, key: string)
    requires (forall t :: t in x.w.sessions ==> KeyFits(x, t)) && NewSession(x, x', s, u, key) && FirstKept(x, x')
    requires u in x'.first && (key == UserKey(u) || key == x'.first[u])
    ensures forall t :: t in x'.w.sessions ==> KeyFits(x', t)
  {
    forall t | t in x'.w.sessions ensures KeyFits(x', t) {
      if t != s { assert KeyFits(x, t); }
    }
  }

  lemma NewUserKeys(x: Limited, x': Limited, s: Sid, u: Id, fp: Print)
    requires KeysOk(x) && fp !in x.prints && u == |x.w.db.users| + 1 == |x'.w.db.users|
    requires x'.prints == x.prints[fp := u] && x'.first == x.first[u := fp] && NewSession(x, x', s, u, fp)
    ensures KeysOk(x') && FirstKept(x, x')
  {
    assert !UserExists(x.w.db, u);
    NewSessionFits(x, x', s, u, fp);
    forall v ensures UserExists(x'.w.db, v) <==> v in x'.first {
      assert UserExists(x.w.db, v) <==> v in x.first;
    }
    forall v | v in x'.first ensures x'.first[v] in x'.prints && x'.prints[x'.first[v]] == v {
      if v != u { assert v in x.first && x.first[v] in x.prints; }
    }
  }

  lemma SignUpKeys(x: Limited, s: Sid, h: string, fp: Print, room: string, now: int)
    requires KeysOk(x) && MaySignUp(x, s, h, fp)
    ensures KeysOk(SignedUp(x, s, h, fp, room, now)) && FirstKept(x, SignedUp(x, s, h, fp, room, now))
  {
    SignUpDoes(x, s, h, fp, room, now);
    NewUserKeys(x, SignedUp(x, s, h, fp, room, now), s, |x.w.db.users| + 1, fp);
  }

  lemma OldUserKeys(x: Limited, x': Limited, s: Sid, u: Id)
    requires KeysOk(x) && UserExists(x.w.db, u) && |x'.w.db.users| == |x.w.db.users|
    requires x'.prints == x.prints && x'.first == x.first && NewSession(x, x', s, u, UserKey(u))
    ensures KeysOk(x')
  {
    assert u in x.first;
    NewSessionFits(x, x', s, u, UserKey(u));
  }

  lemma SignInKeys(x: Limited, s: Sid, u: Id)
    requires KeysOk(x) && s !in x.w.sessions && UserExists(x.w.db, u)
    ensures KeysOk(SignedIn(x, s, u))
  {
    ConnectDoes(x.w, s, u);
    OldUserKeys(x, SignedIn(x, s, u), s, u);
  }

  lemma DidKeys(l: Rate.Limits, x: Limited, a: Action, t: Timed)
    requires KeysOk(x) && !a.Register? && !a.Connect?
    ensures KeysOk(Did(l, x, a, t))
  {
    var x' := Did(l, x, a, t);
    DoNoNewcomer(x.w, Taken(l, x, a, t));
    forall s | s in x'.w.sessions ensures KeyFits(x', s) { assert KeyFits(x, s); }
  }

  lemma AddKeyKeys(x: Limited, fp: Print, s: Sid)
    requires KeysOk(x) && s in x.w.sessions && fp !in x.prints
    ensures KeysOk(x.(prints := x.prints[fp := x.w.sessions[s].user]))
  {
    var x' := x.(prints := x.prints[fp := x.w.sessions[s].user]);
    assert KeyFits(x, s);
    forall t | t in x'.w.sessions ensures KeyFits(x', t) { assert KeyFits(x, t); }
  }

  lemma StepKeepsKeys(l: Rate.Limits, x: Limited, t: Timed)
    requires KeysOk(x)
    ensures KeysOk(LimitedStep(l, x, t)) && FirstKept(x, LimitedStep(l, x, t))
  {
    match t.deed
    case SignUp(s, h, fp, room, now) =>
      if MaySignUp(x, s, h, fp) { SignUpKeys(x, s, h, fp, room, now); }
    case SignIn(s, fp) => if s !in x.w.sessions && fp in x.prints { SignInKeys(x, s, x.prints[fp]); }
    case AddKey(s, fp) => if s in x.w.sessions && fp !in x.prints { AddKeyKeys(x, fp, s); }
    case Do(a) => if !a.Register? && !a.Connect? { DidKeys(l, x, a, t); }
  }

  lemma {:induction false} LastKeepsKeys(l: Rate.Limits, ts: seq<Timed>)
    requires ts != [] && KeysOk(LimitedRun(l, ts[..|ts| - 1]))
    ensures KeysOk(LimitedRun(l, ts)) && FirstKept(LimitedRun(l, ts[..|ts| - 1]), LimitedRun(l, ts))
  {
    StepKeepsKeys(l, LimitedRun(l, ts[..|ts| - 1]), ts[|ts| - 1]);
  }

  lemma FirstKeptTrans(x: Limited, y: Limited, z: Limited)
    requires FirstKept(x, y) && FirstKept(y, z)
    ensures FirstKept(x, z)
  {
  }

  lemma {:induction false} RunKeepsKeys(l: Rate.Limits, ts: seq<Timed>, n: nat)
    requires n <= |ts|
    ensures KeysOk(LimitedRun(l, ts)) && FirstKept(LimitedRun(l, ts[..n]), LimitedRun(l, ts))
  {
    if ts != [] {
      var before := ts[..|ts| - 1];
      var k := if n < |ts| then n else |before|;
      RunKeepsKeys(l, before, k);
      LastKeepsKeys(l, ts);
      if n < |ts| {
        assert before[..n] == ts[..n];
        FirstKeptTrans(LimitedRun(l, ts[..n]), LimitedRun(l, before), LimitedRun(l, ts));
      } else {
        assert ts[..n] == ts;
      }
    }
  }

  /** In every reachable state sessions with one key have one user, so nobody uses up what is another's. */
  lemma {:induction false} KeysAreOfOneUser(l: Rate.Limits, ts: seq<Timed>, s: Sid, t: Sid)
    requires var x := LimitedRun(l, ts); s in x.w.sessions && t in x.w.sessions && KeyAt(x, s) == KeyAt(x, t)
    ensures LimitedRun(l, ts).w.sessions[s].user == LimitedRun(l, ts).w.sessions[t].user
  {
    var x := LimitedRun(l, ts);
    RunKeepsKeys(l, ts, 0);
    OneUser(x, s, t);
  }

  lemma OneUser(x: Limited, s: Sid, t: Sid)
    requires KeysOk(x) && s in x.w.sessions && t in x.w.sessions && KeyAt(x, s) == KeyAt(x, t)
    ensures x.w.sessions[s].user == x.w.sessions[t].user
  {
    var u, v := x.w.sessions[s].user, x.w.sessions[t].user;
    assert KeyFits(x, s) && KeyFits(x, t);
    UserKeysDiffer(u, v);
    PrintIsNoUserKey(x.first[u], v);
    PrintIsNoUserKey(x.first[v], u);
  }

  /**
   A key that a session adds, if it is nobody's yet, signs in that session's user from then on, under the id; a key
   that is nobody's signs in nobody.
   */
  lemma AddedKeySignsIn(l: Rate.Limits, x: Limited, s: Sid, fp: Print, t: Sid, now: Timed, later: Timed)
    requires KeysOk(x) && s in x.w.sessions && t !in x.w.sessions && fp !in x.prints
    requires now.deed == AddKey(s, fp) && later.deed == SignIn(t, fp)
    ensures LimitedStep(l, x, later) == x
    ensures var x' := LimitedStep(l, LimitedStep(l, x, now), later);
            var u := x.w.sessions[s].user;
            t in x'.w.sessions && x'.w.sessions[t].user == u && KeyAt(x', t) == UserKey(u)
  {
    assert KeyFits(x, s);
    ConnectDoes(x.w, t, x.w.sessions[s].user);
  }

  // ----- handles -----

  /** Every handle is 3 to 20 lower-case letters, digits, underscores and hyphens. */
  ghost predicate HandlesOk(db: DB) {
    forall i :: 0 <= i < |db.users| ==>
      var h := db.users[i].handle;
      && 3 <= |h| <= 20
      && forall k :: 0 <= k < |h| ==> 'a' <= h[k] <= 'z' || '0' <= h[k] <= '9' || h[k] == '_' || h[k] == '-'
  }

  lemma DoSameHandles(w: World, a: Action)
    requires !a.Register? && !a.Connect?
    ensures var w' := Step(w, a);
            |w'.db.users| == |w.db.users|
            && forall i :: 0 <= i < |w.db.users| ==> w'.db.users[i].handle == w.db.users[i].handle
  {
    if IsSessionAction(a) {
      SessionStep(w, a);
      if a.s in w.sessions { ActUsers(Focus(w, a.s), a); }
    } else {
      OtherNames(w, a);
    }
  }

  lemma DidHandles(l: Rate.Limits, x: Limited, a: Action, t: Timed)
    requires HandlesOk(x.w.db) && !a.Register? && !a.Connect?
    ensures HandlesOk(Did(l, x, a, t).w.db)
  {
    DoSameHandles(x.w, Taken(l, x, a, t));
  }

  lemma OneMoreHandle(db: DB, db': DB, h: string)
    requires HandlesOk(db) && ValidHandle(h) && db'.users == db.users + [User(h, false)]
    ensures HandlesOk(db')
  {
  }

  lemma SignUpHandles(x: Limited, s: Sid, h: string, fp: Print, room: string, now: int)
    requires HandlesOk(x.w.db) && MaySignUp(x, s, h, fp)
    ensures HandlesOk(SignedUp(x, s, h, fp, room, now).w.db)
  {
    SignUpDoes(x, s, h, fp, room, now);
    OneMoreHandle(x.w.db, SignedUp(x, s, h, fp, room, now).w.db, h);
  }

  lemma SignInHandles(x: Limited, s: Sid, u: Id)
    requires HandlesOk(x.w.db) && s !in x.w.sessions && UserExists(x.w.db, u)
    ensures HandlesOk(SignedIn(x, s, u).w.db)
  {
    ConnectDoes(x.w, s, u);
  }

  lemma StepKeepsHandles(l: Rate.Limits, x: Limited, t: Timed)
    requires KeysOk(x) && HandlesOk(x.w.db)
    ensures HandlesOk(LimitedStep(l, x, t).w.db)
  {
    match t.deed
    case SignUp(s, h, fp, room, now) => if MaySignUp(x, s, h, fp) { SignUpHandles(x, s, h, fp, room, now); }
    case SignIn(s, fp) => if s !in x.w.sessions && fp in x.prints { SignInHandles(x, s, x.prints[fp]); }
    case AddKey(_, _) =>
    case Do(a) => if !a.Register? && !a.Connect? { DidHandles(l, x, a, t); }
  }

  /** In every reachable state handles are of that form. */
  lemma {:induction false} HandlesInRuns(l: Rate.Limits, ts: seq<Timed>)
    ensures HandlesOk(LimitedRun(l, ts).w.db)
  {
    if ts != [] {
      HandlesInRuns(l, ts[..|ts| - 1]);
      RunKeepsKeys(l, ts[..|ts| - 1], 0);
      StepKeepsHandles(l, LimitedRun(l, ts[..|ts| - 1]), ts[|ts| - 1]);
    }
  }

  lemma MentionOf(h: string)
    requires 3 <= |h| <= 20
    requires forall k :: 0 <= k < |h| ==> 'a' <= h[k] <= 'z' || '0' <= h[k] <= '9' || h[k] == '_' || h[k] == '-'
    ensures MentionAt(Lower("@" + h), 0, h)
  {
    var s := Lower("@" + h);
    forall k | 1 <= k < |s| ensures s[k] == h[k - 1] { assert ("@" + h)[k] == h[k - 1]; }
    assert s[1..1 + |h|] == h;
  }

  /** So every user can be mentioned: by an @ and the handle. */
  lemma {:induction false} EveryoneCanBeMentioned(l: Rate.Limits, ts: seq<Timed>, u: Id)
    requires UserExists(LimitedRun(l, ts).w.db, u)
    ensures var h := LimitedRun(l, ts).w.db.users[u - 1].handle; h in Mentioned("@" + h)
  {
    var h := LimitedRun(l, ts).w.db.users[u - 1].handle;
    HandlesInRuns(l, ts);
    MentionOf(h);
    ParseMentionsExact("@" + h);
  }

  // ----- two keys at most -----

  ghost predicate TwoKeys(x: Limited, u: Id, k1: string, k2: string) {
    forall s :: s in x.w.sessions && x.w.sessions[s].user == u ==> KeyAt(x, s) == k1 || KeyAt(x, s) == k2
  }

  lemma {:induction false} StoredForAtMostBoth(l: Rate.Limits, ts: seq<Timed>, u: Id, k1: string, k2: string, from: nat)
    requires forall n :: from <= n < |ts| ==> TwoKeys(LimitedRun(l, ts[..n]), u, k1, k2)
    ensures StoredFor(l, ts, u, from) <= StoredUnder(l, ts, k1, from) + StoredUnder(l, ts, k2, from)
  {
    if from < |ts| {
      var n := |ts| - 1;
      forall m | from <= m < n ensures TwoKeys(LimitedRun(l, ts[..n][..m]), u, k1, k2) {
        assert ts[..n][..m] == ts[..m];
      }
      StoredForAtMostBoth(l, ts[..n], u, k1, k2, from);
      assert TwoKeys(LimitedRun(l, ts[..n]), u, k1, k2);
    }
  }

  lemma {:induction false} UserHasTwoKeys(l: Rate.Limits, ts: seq<Timed>, u: Id, n: nat, k2: string)
    requires n <= |ts| && k2 == if u in LimitedRun(l, ts).first then LimitedRun(l, ts).first[u] else ""
    ensures TwoKeys(LimitedRun(l, ts[..n]), u, UserKey(u), k2)
  {
    var x := LimitedRun(l, ts[..n]);
    RunKeepsKeys(l, ts, n);
    RunKeepsKeys(l, ts[..n], n);
    forall s | s in x.w.sessions && x.w.sessions[s].user == u ensures KeyAt(x, s) == UserKey(u) || KeyAt(x, s) == k2 {
      assert KeyFits(x, s);
    }
  }

  /**
   Over any run and any window of time, a user stores, over all sessions together, at most twice capacity +
   length * capacity / window messages.
   */
  lemma {:induction false} UserWithinTwice(l: Rate.Limits, ts: seq<Timed>, u: Id, from: nat, t1: real, t2: real)
    requires l.cap >= 0 && Ticking(ts) && from <= |ts| && t1 <= t2
    requires forall i :: from <= i < |ts| ==> t1 <= ts[i].take <= t2
    ensures StoredFor(l, ts, u, from) as real <= 2.0 * (l.cap as real + Rate.Earned(t2 - t1, l.cap as real / l.per))
  {
    var k2 := if u in LimitedRun(l, ts).first then LimitedRun(l, ts).first[u] else "";
    forall n | from <= n < |ts| ensures TwoKeys(LimitedRun(l, ts[..n]), u, UserKey(u), k2) {
      UserHasTwoKeys(l, ts, u, n, k2);
    }
    StoredForAtMostBoth(l, ts, u, UserKey(u), k2, from);
    MessagesWithinRate(l, ts, UserKey(u), from, t1, t2);
    MessagesWithinRate(l, ts, k2, from, t1, t2);
  }
}
