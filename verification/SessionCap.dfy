/**
 internal/ssh/server.go: teaHandler's session counter. Any number of handlers run at once;
 each atomic operation on the counter is a step of its own.
 */
module SessionCap {

  /**
   Where a handler is. Add returned its ticket; Refused and Rejected still hold the count they added; Done has none,
   or has given it back.
   */
  datatype Phase =
    | Start
    | Ticket(cur: int)     // after sessions.Add(1)
    | Refused              // over the cap, before sessions.Add(-1)
    | Passed(cur: int)     // under the cap
    | Rejected(cur: int)   // no PTY, a command, or no key; before sessions.Add(-1)
    | Admitted(cur: int)   // in session, with its cleanup and the Once that guards it
    | Done

  /** Who may call the cleanup: the user who quits and the connection that ends. */
  datatype Caller = Quit | Disconnect

  /** entered is the Onces whose function has been entered, and inside the calls that are in it. */
  datatype Server = Server(max: int, sessions: int, at: map<nat, Phase>, entered: set<nat>, inside: set<(nat, Caller)>)

  datatype Event =
    | Connect(h: nat)            // a new handler
    | Add(h: nat)
    | Check(h: nat)
    | Reject(h: nat)
    | Undo(h: nat)               // sessions.Add(-1) of a refused or rejected handler
    | Accept(h: nat)
    | Call(h: nat, caller: Caller)   // cleanupOnce.Do: the first call enters, any other returns
    | Give(h: nat, caller: Caller)   // sessions.Add(-1) of a call that has entered

  function PhaseOf(s: Server, h: nat): Phase { if h in s.at then s.at[h] else Done }

  function Move(s: Server, h: nat, p: Phase, delta: int): Server {
    s.(sessions := s.sessions + delta, at := s.at[h := p])
  }

  function Step(s: Server, e: Event): Server {
    match e
    case Connect(h) => if h in s.at then s else Move(s, h, Start, 0)
    case Add(h) => if PhaseOf(s, h).Start? then Move(s, h, Ticket(s.sessions + 1), 1) else s
    case Check(h) =>
      if PhaseOf(s, h).Ticket? then
        var cur := s.at[h].cur;
        Move(s, h, if cur > s.max then Refused else Passed(cur), 0)
      else s
    case Reject(h) => if PhaseOf(s, h).Passed? then Move(s, h, Rejected(s.at[h].cur), 0) else s
    case Undo(h) => if PhaseOf(s, h).Refused? || PhaseOf(s, h).Rejected? then Move(s, h, Done, -1) else s
    case Accept(h) => if PhaseOf(s, h).Passed? then Move(s, h, Admitted(s.at[h].cur), 0) else s
    case Call(h, caller) =>
      if PhaseOf(s, h).Admitted? && h !in s.entered then
        s.(entered := s.entered + {h}, inside := s.inside + {(h, caller)})
      else s
    case Give(h, caller) =>
      if (h, caller) in s.inside then Move(s, h, Done, -1).(inside := s.inside - {(h, caller)}) else s
  }

  function Run(max: int, es: seq<Event>): Server {
    if es == [] then Server(max, 0, map[], {}, {}) else Step(Run(max, es[..|es| - 1]), es[|es| - 1])
  }

  /** Handlers with an undischarged increment. */
  function Holding(s: Server): set<nat> {
    set h | h in s.at && !s.at[h].Start? && !s.at[h].Done?
  }

  function AdmittedNow(s: Server): set<nat> { set h | h in s.at && (s.at[h].Passed? || s.at[h].Admitted?) }

  /** Holders whose ticket is, or will be found, within the cap. */
  function WithinCap(s: Server): set<nat> {
    set h | h in s.at && Fits(s.max, s.at[h])
  }

  predicate Fits(max: int, p: Phase) {
    (p.Ticket? && p.cur <= max) || p.Passed? || p.Rejected? || p.Admitted?
  }

  ghost predicate Inv(s: Server) {
    s.sessions == |Holding(s)| && (|WithinCap(s)| <= s.max || WithinCap(s) == {})
  }

  /** A call inside a Once is the only one there, and its handler still holds its increment. */
  ghost predicate OnceOk(s: Server) {
    && (forall x :: x in s.inside ==> x.0 in s.entered && PhaseOf(s, x.0).Admitted?)
    && (forall x, y :: x in s.inside && y in s.inside && x.0 == y.0 ==> x == y)
  }

  lemma SubsetSize(a: set<nat>, b: set<nat>)
    requires a <= b
    ensures |a| <= |b|
  {
    if a != {} {
      var x :| x in a;
      SubsetSize(a - {x}, b - {x});
    }
  }

  lemma SizeMove(a: set<nat>, b: set<nat>, h: nat)
    requires forall x :: x != h ==> (x in a <==> x in b)
    ensures |b| - (if h in b then 1 else 0) == |a| - (if h in a then 1 else 0)
  {
    assert a - {h} == b - {h};
    assert h in a ==> |a - {h}| == |a| - 1;
    assert h in b ==> |b - {h}| == |b| - 1;
    assert h !in a ==> a - {h} == a;
    assert h !in b ==> b - {h} == b;
  }

  lemma MoveSizes(s: Server, h: nat, p: Phase, delta: int)
    ensures var t := Move(s, h, p, delta);
            && |Holding(t)| - (if h in Holding(t) then 1 else 0) == |Holding(s)| - (if h in Holding(s) then 1 else 0)
            && |WithinCap(t)| - (if h in WithinCap(t) then 1 else 0)
               == |WithinCap(s)| - (if h in WithinCap(s) then 1 else 0)
            && (h in Holding(t) <==> !p.Start? && !p.Done?)
            && (h in WithinCap(t) <==> Fits(s.max, p))
            && WithinCap(t) <= Holding(t)
  {
    SizeMove(Holding(s), Holding(Move(s, h, p, delta)), h);
    SizeMove(WithinCap(s), WithinCap(Move(s, h, p, delta)), h);
  }

  lemma MoveKeepsInv(s: Server, h: nat, p: Phase, delta: int)
    requires Inv(s)
    requires delta == (if p.Start? || p.Done? then 0 else 1) - (if h in Holding(s) then 1 else 0)
    requires Fits(s.max, p) ==>
               h in WithinCap(s) || (h !in Holding(s) && p == Ticket(s.sessions + 1))
    ensures Inv(Move(s, h, p, delta))
  {
    var t := Move(s, h, p, delta);
    MoveSizes(s, h, p, delta);
    if h in WithinCap(t) && h !in WithinCap(s) {
      // A new ticket counts every holder, this one included.
      SubsetSize(WithinCap(t), Holding(t));
    } else {
      assert |WithinCap(t)| <= |WithinCap(s)|;
      assert WithinCap(s) == {} ==> |WithinCap(t)| == 0;
    }
  }

  /** Whatever does not touch the handlers' phases keeps the counts. */
  lemma SameSizes(s: Server, t: Server)
    requires t.max == s.max && t.sessions == s.sessions && t.at == s.at
    ensures Inv(t) == Inv(s)
  {
    assert Holding(t) == Holding(s) && WithinCap(t) == WithinCap(s);
  }

  lemma StepKeepsInv(s: Server, e: Event)
    requires Inv(s) && OnceOk(s)
    ensures Inv(Step(s, e)) && Step(s, e).max == s.max
  {
    var h := e.h;
    match e
    case Connect(_) => if h !in s.at { MoveKeepsInv(s, h, Start, 0); }
    case Add(_) => if PhaseOf(s, h).Start? { MoveKeepsInv(s, h, Ticket(s.sessions + 1), 1); }
    case Check(_) =>
      if PhaseOf(s, h).Ticket? {
        var cur := s.at[h].cur;
        MoveKeepsInv(s, h, if cur > s.max then Refused else Passed(cur), 0);
      }
    case Reject(_) => if PhaseOf(s, h).Passed? { MoveKeepsInv(s, h, Rejected(s.at[h].cur), 0); }
    case Undo(_) => if PhaseOf(s, h).Refused? || PhaseOf(s, h).Rejected? { MoveKeepsInv(s, h, Done, -1); }
    case Accept(_) => if PhaseOf(s, h).Passed? { MoveKeepsInv(s, h, Admitted(s.at[h].cur), 0); }
    case Call(_, _) => SameSizes(s, Step(s, e));
    case Give(_, caller) =>
      if (h, caller) in s.inside {
        MoveKeepsInv(s, h, Done, -1);
        SameSizes(Move(s, h, Done, -1), Step(s, e));
      }
  }

  lemma StepKeepsOnce(s: Server, e: Event)
    requires OnceOk(s)
    ensures OnceOk(Step(s, e))
  {
  }

  lemma {:induction false} RunKeepsOnce(max: int, es: seq<Event>)
    ensures OnceOk(Run(max, es))
  {
    if es != [] {
      RunKeepsOnce(max, es[..|es| - 1]);
      StepKeepsOnce(Run(max, es[..|es| - 1]), es[|es| - 1]);
    }
  }

  /**
   Under every interleaving the counter equals the handlers holding an increment, and the
   admitted sessions never exceed the cap.
   */
  lemma {:induction false} CapHolds(max: int, es: seq<Event>)
    ensures var s := Run(max, es);
            && s.max == max && Inv(s) && s.sessions == |Holding(s)|
            && (AdmittedNow(s) == {} || |AdmittedNow(s)| <= max)
  {
    var s := Run(max, es);
    if es == [] {
      assert Holding(s) == {} && WithinCap(s) == {} && AdmittedNow(s) == {};
    } else {
      CapHolds(max, es[..|es| - 1]);
      RunKeepsOnce(max, es[..|es| - 1]);
      StepKeepsInv(Run(max, es[..|es| - 1]), es[|es| - 1]);
    }
    SubsetSize(AdmittedNow(s), WithinCap(s));
  }

  // ----- who is refused -----

  /** How many handlers held an increment when handler h made its own, if it has. */
  function HoldersAtAdd(max: int, es: seq<Event>, h: nat): int {
    if es == [] then -1
    else
      var before, e := Run(max, es[..|es| - 1]), es[|es| - 1];
      if e.Add? && e.h == h && PhaseOf(before, h).Start? then |Holding(before)|
      else HoldersAtAdd(max, es[..|es| - 1], h)
  }

  /**
   Under every interleaving a handler is refused only if the cap's number of others held an increment when it made its
   own, and passes only if fewer did; its ticket says how many.
   */
  lemma {:induction false} RefusedExactlyAtCap(max: int, es: seq<Event>, h: nat)
    ensures var p, n := PhaseOf(Run(max, es), h), HoldersAtAdd(max, es, h);
            && (p.Ticket? ==> p.cur == n + 1)
            && (p.Refused? ==> n >= max)
            && (p.Passed? || p.Rejected? || p.Admitted? ==> n < max && p.cur == n + 1)
  {
    if es != [] {
      RefusedExactlyAtCap(max, es[..|es| - 1], h);
      CapHolds(max, es[..|es| - 1]);
      RunKeepsOnce(max, es[..|es| - 1]);
    }
  }

  /** The check takes every ticket, and decides by the cap. */
  lemma TicketIsDecided(s: Server, h: nat)
    requires PhaseOf(s, h).Ticket?
    ensures var s', n := Step(s, Check(h)), s.at[h].cur;
            h in s'.at && (s'.at[h].Passed? <==> n <= s.max) && (s'.at[h].Refused? <==> n > s.max)
  {
  }

  // ----- one handler on the shared counter -----

  /** The part of Server that teaHandler and the sessions share. */
  class Counter {
    var sessions: int
    const max: int

    constructor (max: int)
      ensures sessions == 0 && this.max == max
    {
      this.max := max;
      sessions := 0;
    }

    method Add(delta: int) returns (cur: int)
      modifies this
      ensures sessions == old(sessions) + delta && cur == sessions
    {
      sessions := sessions + delta;
      cur := sessions;
    }

    /** Run without interference: the session is admitted or the counter is as it was. */
    method TeaHandler(pty: bool, command: bool, keyed: bool) returns (lease: Lease?)
      modifies this
      ensures lease != null <==> old(sessions) + 1 <= max && pty && !command && keyed
      ensures lease != null ==> fresh(lease) && lease.counter == this && !lease.released
      ensures sessions == old(sessions) + (if lease != null then 1 else 0)
    {
      lease := null;
      var cur := Add(1);
      if cur > max {
        cur := Add(-1);
        return;
      }
      if !pty || command || !keyed {
        cur := Add(-1);
        return;
      }
      lease := new Lease(this);
    }
  }

  /** cleanupOnce and the closure it guards. */
  class Lease {
    const counter: Counter
    var released: bool

    constructor (c: Counter)
      ensures counter == c && !released
    {
      counter := c;
      released := false;
    }

    method Cleanup()
      modifies this, counter
      ensures released
      ensures counter.sessions == old(counter.sessions) - (if old(released) then 0 else 1)
    {
      if !released {
        released := true;
        var cur := counter.Add(-1);
      }
    }
  }

  // ----- how often an increment is given back -----

  /** Counts how often handler h gave its increment back. */
  function Discharges(max: int, es: seq<Event>, h: nat): nat {
    if es == [] then 0
    else
      var before := Run(max, es[..|es| - 1]);
      Discharges(max, es[..|es| - 1], h)
        + (if es[|es| - 1].h == h && Step(before, es[|es| - 1]).sessions < before.sessions then 1 else 0)
  }

  /**
   An increment is given back once, and only when it was made, however refusals and the two calls of the cleanup
   interleave: a call that comes while the other is inside the Once, or after it, gives nothing back.
   */
  lemma {:induction false} DischargedOnce(max: int, es: seq<Event>, h: nat)
    ensures Discharges(max, es, h) == if h in Run(max, es).at && Run(max, es).at[h].Done? then 1 else 0
  {
    if es != [] {
      DischargedOnce(max, es[..|es| - 1], h);
      RunKeepsOnce(max, es[..|es| - 1]);
    }
  }
}
