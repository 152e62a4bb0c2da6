/** internal/rate/rate.go: the token bucket and the per-key limiter that evicts idle buckets. */
module Rate {
  import opened Prelude

  /** Capacity and tokens per second of a bucket. */
  datatype Shape = Shape(cap: real, refill: real)

  datatype BucketState = BucketState(tokens: real, last: real)

  function Fresh(b: Shape, now: real): BucketState { BucketState(b.cap, now) }

  function Earned(elapsed: real, refill: real): real { elapsed * refill }

  function Topped(b: Shape, s: BucketState, now: real): real {
    var t := s.tokens + Earned(now - s.last, b.refill);
    if t > b.cap then b.cap else t
  }

  function Admits(b: Shape, s: BucketState, now: real): bool { Topped(b, s, now) >= 1.0 }

  function Take(b: Shape, s: BucketState, now: real): BucketState {
    BucketState(if Admits(b, s, now) then Topped(b, s, now) - 1.0 else Topped(b, s, now), now)
  }

  datatype RawLimits = Limits(cap: int, per: real)

  /** Both limiters of the server have a positive window (one minute, ten seconds). */
  type Limits = l: RawLimits | l.per > 0.0 witness Limits(1, 1.0)

  function ShapeOf(l: Limits): Shape { Shape(l.cap as real, l.cap as real / l.per) }

  class Bucket {
    var tokens: real
    const cap: real
    const refill: real
    var last: real

    constructor (capacity: int, per: real, now: real)
      requires per > 0.0
      ensures Form() == ShapeOf(Limits(capacity, per)) && View() == Fresh(Form(), now)
      ensures cap == capacity as real && refill == capacity as real / per && tokens == cap && last == now
    {
      tokens := capacity as real;
      cap := capacity as real;
      refill := capacity as real / per;
      last := now;
    }

    ghost function View(): BucketState
      reads this
    {
      BucketState(tokens, last)
    }

    ghost function Form(): Shape { Shape(cap, refill) }

    method Allow(now: real) returns (ok: bool)
      modifies this
      ensures View() == Take(Form(), old(View()), now) && ok == Admits(Form(), old(View()), now)
    {
      var elapsed := now - last;
      last := now;
      tokens := tokens + Earned(elapsed, refill);
      if tokens > cap { tokens := cap; }
      if tokens >= 1.0 {
        tokens := tokens - 1.0;
        return true;
      }
      return false;
    }
  }

  // ----- one bucket: exactly which calls are admitted -----

  /** The bucket made at t0 after the calls at times ts. */
  function After(b: Shape, t0: real, ts: seq<real>): BucketState {
    if ts == [] then Fresh(b, t0) else Take(b, After(b, t0, ts[..|ts| - 1]), ts[|ts| - 1])
  }

  /** The token count that call k finds, before the take. */
  function Tokens(b: Shape, t0: real, ts: seq<real>, k: nat): real
    requires k < |ts|
  {
    Topped(b, After(b, t0, ts[..k]), ts[k])
  }

  function Admitted(b: Shape, t0: real, ts: seq<real>, k: nat): bool
    requires k < |ts|
  {
    Admits(b, After(b, t0, ts[..k]), ts[k])
  }

  /** How many of the calls i..k are admitted, call k excluded. */
  function AdmittedIn(b: Shape, t0: real, ts: seq<real>, i: nat, k: nat): nat
    requires k <= |ts|
    decreases k
  {
    if k <= i then 0 else AdmittedIn(b, t0, ts, i, k - 1) + (if Admitted(b, t0, ts, k - 1) then 1 else 0)
  }

  /** Point 0 is the creation of the bucket and point i > 0 is call i - 1. */
  function PointTime(t0: real, ts: seq<real>, i: nat): real
    requires i <= |ts|
  {
    if i == 0 then t0 else ts[i - 1]
  }

  /** The allowance as a function of what the window has admitted. */
  function Room(cap: real, span: real, refill: real, used: nat): real { cap + Earned(span, refill) - used as real }

  /** What the window from point i to call k leaves for call k. */
  function Allowance(b: Shape, t0: real, ts: seq<real>, i: nat, k: nat): real
    requires i <= k + 1 && k < |ts|
  {
    Room(b.cap, ts[k] - PointTime(t0, ts, i), b.refill, AdmittedIn(b, t0, ts, if i == 0 then 0 else i - 1, k))
  }

  /** Admitting call k overfills no window that ends now. */
  ghost predicate RoomInEveryWindow(b: Shape, t0: real, ts: seq<real>, k: nat)
    requires k < |ts|
  {
    forall i: nat :: i <= k + 1 ==> Allowance(b, t0, ts, i, k) >= 1.0
  }

  lemma RoomStep(cap: real, x: real, y: real, z: real, refill: real, used: nat, more: nat)
    ensures Room(cap, z - x, refill, used + more) == Room(cap, y - x, refill, used) - more as real + Earned(z - y, refill)
  {
  }

  lemma AllowanceStep(b: Shape, t0: real, ts: seq<real>, i: nat, k: nat)
    requires i <= k && 0 < k < |ts|
    ensures Allowance(b, t0, ts, i, k)
         == Allowance(b, t0, ts, i, k - 1) - (if Admitted(b, t0, ts, k - 1) then 1 else 0) as real
            + Earned(ts[k] - ts[k - 1], b.refill)
  {
    var first := if i == 0 then 0 else i - 1;
    RoomStep(b.cap, PointTime(t0, ts, i), ts[k - 1], ts[k], b.refill,
             AdmittedIn(b, t0, ts, first, k - 1), if Admitted(b, t0, ts, k - 1) then 1 else 0);
  }

  /** The empty window, from call k to itself. */
  lemma AllowanceNow(b: Shape, t0: real, ts: seq<real>, k: nat)
    requires k < |ts|
    ensures Allowance(b, t0, ts, k + 1, k) == b.cap
  {
    assert PointTime(t0, ts, k + 1) == ts[k] && ts[k] - ts[k] == 0.0;
    assert AdmittedIn(b, t0, ts, k, k) == 0;
    assert 0.0 * b.refill == 0.0;
  }

  lemma TokensStep(b: Shape, t0: real, ts: seq<real>, k: nat)
    requires 0 < k < |ts|
    ensures var t := Tokens(b, t0, ts, k - 1) - (if Admitted(b, t0, ts, k - 1) then 1.0 else 0.0)
                     + Earned(ts[k] - ts[k - 1], b.refill);
            Tokens(b, t0, ts, k) == if t > b.cap then b.cap else t
  {
    assert ts[..k][..k - 1] == ts[..k - 1];
  }

  /** The token count is the least allowance over all windows ending now. */
  lemma {:induction false} TokensAreLeastAllowance(b: Shape, t0: real, ts: seq<real>, k: nat) returns (least: nat)
    requires k < |ts|
    ensures forall i: nat :: i <= k + 1 ==> Tokens(b, t0, ts, k) <= Allowance(b, t0, ts, i, k)
    ensures least <= k + 1 && Tokens(b, t0, ts, k) == Allowance(b, t0, ts, least, k)
  {
    AllowanceNow(b, t0, ts, k);
    if k == 0 {
      least := if Tokens(b, t0, ts, 0) == b.cap then 1 else 0;
    } else {
      least := TokensAreLeastAllowance(b, t0, ts, k - 1);
      TokensStep(b, t0, ts, k);
      AllowanceStep(b, t0, ts, least, k);
      forall i: nat | i <= k + 1 ensures Tokens(b, t0, ts, k) <= Allowance(b, t0, ts, i, k) {
        if i <= k { AllowanceStep(b, t0, ts, i, k); }
      }
      if Tokens(b, t0, ts, k) == b.cap { least := k + 1; }
    }
  }

  /** A call is admitted if and only if admitting it overfills no window that ends now. */
  lemma ExactAdmission(b: Shape, t0: real, ts: seq<real>, k: nat)
    requires k < |ts|
    ensures Admitted(b, t0, ts, k) <==> RoomInEveryWindow(b, t0, ts, k)
  {
    var least := TokensAreLeastAllowance(b, t0, ts, k);
  }

  // ----- the limiter: one bucket a key, idle buckets evicted on every call -----

  /** One call with its three clock readings: the sweep, New and Bucket.Allow. */
  datatype Call = Call(key: string, sweep: real, create: real, take: real)

  predicate Idle(l: Limits, b: BucketState, now: real) { now - b.last > 2.0 * l.per }

  function Swept(l: Limits, m: map<string, BucketState>, now: real): map<string, BucketState> {
    map k | k in m && !Idle(l, m[k], now) :: m[k]
  }

  function Found(l: Limits, m: map<string, BucketState>, c: Call): BucketState {
    var s := Swept(l, m, c.sweep);
    if c.key in s then s[c.key] else Fresh(ShapeOf(l), c.create)
  }

  function LimiterStep(l: Limits, m: map<string, BucketState>, c: Call): map<string, BucketState> {
    Swept(l, m, c.sweep)[c.key := Take(ShapeOf(l), Found(l, m, c), c.take)]
  }

  class Limiter {
    var buckets: map<string, Bucket>
    const cap: int
    const per: real

    constructor (capacity: int, window: real)
      requires window > 0.0
      ensures Valid() && View() == map[] && cap == capacity && per == window
    {
      buckets := map[];
      cap := capacity;
      per := window;
    }

    ghost predicate Valid()
      reads this
    {
      && per > 0.0
      && (forall k :: k in buckets ==> buckets[k].Form() == ShapeOf(Limits(cap, per)))
      && (forall j, k :: j in buckets && k in buckets && j != k ==> buckets[j] != buckets[k])
    }

    ghost function View(): map<string, BucketState>
      reads this, buckets.Values
    {
      map k | k in buckets :: buckets[k].View()
    }

    method Sweep(now: real)
      requires Valid()
      modifies this
      ensures Valid() && View() == Swept(Limits(cap, per), old(View()), now)
      ensures forall k :: k in buckets ==> k in old(buckets) && buckets[k] == old(buckets)[k]
    {
      ghost var l := Limits(cap, per);
      var todo := buckets.Keys;
      while todo != {}
        invariant todo <= buckets.Keys
        invariant forall k :: k in old(buckets) && (k in todo || !Idle(l, old(buckets)[k].View(), now)) ==> k in buckets
        invariant forall k :: k in buckets ==> k in old(buckets) && buckets[k] == old(buckets)[k]
        invariant forall k :: k in buckets && k !in todo ==> !Idle(l, buckets[k].View(), now)
        decreases |todo|
      {
        var k :| k in todo;
        todo := todo - {k};
        if now - buckets[k].last > 2.0 * per {
          buckets := buckets - {k};
        }
      }
    }

    /** The bucket of the key, made if there is none. */
    method Provide(key: string, create: real)
      requires Valid()
      modifies this
      ensures Valid() && key in buckets && fresh(buckets.Values - old(buckets).Values)
      ensures View() == if key in old(buckets) then old(View())
                        else old(View())[key := Fresh(ShapeOf(Limits(cap, per)), create)]
    {
      if key !in buckets {
        var b := new Bucket(cap, per, create);
        buckets := buckets[key := b];
      }
    }

    method Allow(c: Call) returns (ok: bool)
      requires Valid()
      modifies this, buckets.Values
      ensures Valid()
      ensures View() == LimiterStep(Limits(cap, per), old(View()), c)
      ensures ok == Admits(ShapeOf(Limits(cap, per)), Found(Limits(cap, per), old(View()), c), c.take)
    {
      Sweep(c.sweep);
      Provide(c.key, c.create);
      assert buckets[c.key].View() == View()[c.key] == Found(Limits(cap, per), old(View()), c);
      ok := buckets[c.key].Allow(c.take);
    }
  }

  // ----- eviction and sharing are invisible -----

  function LimiterRun(l: Limits, cs: seq<Call>): map<string, BucketState> {
    if cs == [] then map[] else LimiterStep(l, LimiterRun(l, cs[..|cs| - 1]), cs[|cs| - 1])
  }

  /** The decision on the last call of cs. */
  function Decision(l: Limits, cs: seq<Call>): bool
    requires cs != []
  {
    var c := cs[|cs| - 1];
    Admits(ShapeOf(l), Found(l, LimiterRun(l, cs[..|cs| - 1]), c), c.take)
  }

  /** A bucket of its own for key, made on its first call and never evicted. */
  function Alone(l: Limits, cs: seq<Call>, key: string): Option<BucketState> {
    if cs == [] then None
    else
      var before, c := Alone(l, cs[..|cs| - 1], key), cs[|cs| - 1];
      if c.key != key then before
      else Some(Take(ShapeOf(l), if before.Some? then before.value else Fresh(ShapeOf(l), c.create), c.take))
  }

  function AloneDecision(l: Limits, cs: seq<Call>): bool
    requires cs != []
  {
    var c := cs[|cs| - 1];
    var before := Alone(l, cs[..|cs| - 1], c.key);
    Admits(ShapeOf(l), if before.Some? then before.value else Fresh(ShapeOf(l), c.create), c.take)
  }

  /** The clock does not run backwards, inside a call or between calls. */
  ghost predicate Clocked(cs: seq<Call>) {
    && (forall i :: 0 <= i < |cs| ==> cs[i].sweep <= cs[i].create <= cs[i].take)
    && (forall i :: 0 < i < |cs| ==> cs[i - 1].take <= cs[i].sweep)
  }

  ghost predicate Agree(l: Limits, m: map<string, BucketState>, b: Option<BucketState>, key: string, now: real) {
    match b
    case None => key !in m
    case Some(b) =>
      && 0.0 <= b.tokens <= l.cap as real && b.last <= now
      && (if key in m then m[key] == b else Idle(l, b, now))
  }

  lemma RefillFacts(l: Limits, span: real)
    requires l.cap >= 0 && span >= 0.0
    ensures Earned(span, ShapeOf(l).refill) >= 0.0
    ensures span >= 2.0 * l.per ==> Earned(span, ShapeOf(l).refill) >= l.cap as real
  {
    var r := l.cap as real / l.per;
    assert r * l.per == l.cap as real;
    assert r >= 0.0;
    assert span * r >= 0.0;
    if span >= 2.0 * l.per {
      assert (span - l.per) * r >= 0.0;
      assert span * r == (span - l.per) * r + l.per * r;
    }
  }

  /** A bucket left alone for more than two windows is back in the state New makes. */
  lemma IdleIsFull(l: Limits, b: BucketState, now: real)
    requires 0.0 <= b.tokens && l.cap >= 0 && Idle(l, b, now)
    ensures Topped(ShapeOf(l), b, now) == l.cap as real
  {
    RefillFacts(l, now - b.last);
  }

  /** An emptied bucket is full again exactly one window later, and has a token once a capacity-th of it is over. */
  lemma RefillsInOneWindow(l: Limits, b: BucketState, now: real)
    requires l.cap >= 1 && b.tokens == 0.0
    ensures Topped(ShapeOf(l), b, now) == l.cap as real <==> now - b.last >= l.per
    ensures Admits(ShapeOf(l), b, now) <==> (now - b.last) * l.cap as real >= l.per
  {
    var span, c, r := now - b.last, l.cap as real, l.cap as real / l.per;
    assert r * l.per == c && r > 0.0;
    assert (span - l.per) * r == span * r - c;
    assert (span * c - l.per) / l.per == span * r - 1.0;
    ScaledSign(span - l.per, r);
    ScaledSign(span * c - l.per, 1.0 / l.per);
  }

  lemma ScaledSign(x: real, r: real)
    requires r > 0.0
    ensures x * r >= 0.0 <==> x >= 0.0
  {
  }

  lemma TakeStaysInRange(l: Limits, b: BucketState, now: real)
    requires 0.0 <= b.tokens && l.cap >= 1 && b.last <= now
    ensures 0.0 <= Take(ShapeOf(l), b, now).tokens <= l.cap as real
  {
    RefillFacts(l, now - b.last);
  }

  lemma AgreeStep(l: Limits, m: map<string, BucketState>, b: Option<BucketState>, c: Call, now: real)
    requires l.cap >= 1 && now <= c.sweep <= c.create <= c.take
    requires Agree(l, m, b, c.key, now)
    ensures var own := if b.Some? then b.value else Fresh(ShapeOf(l), c.create);
            Topped(ShapeOf(l), Found(l, m, c), c.take) == Topped(ShapeOf(l), own, c.take)
            && 0.0 <= Take(ShapeOf(l), own, c.take).tokens <= l.cap as real
  {
    var f := Fresh(ShapeOf(l), c.create);
    assert Topped(ShapeOf(l), f, c.take) == l.cap as real by { RefillFacts(l, c.take - c.create); }
    TakeStaysInRange(l, if b.Some? then b.value else f, c.take);
    if b.Some? && c.key !in Swept(l, m, c.sweep) {
      IdleIsFull(l, b.value, c.take);
    }
  }

  lemma {:induction false} RunAgrees(l: Limits, cs: seq<Call>, key: string)
    requires l.cap >= 1 && Clocked(cs) && cs != []
    ensures Agree(l, LimiterRun(l, cs), Alone(l, cs, key), key, cs[|cs| - 1].take)
    ensures cs[|cs| - 1].key == key ==> Decision(l, cs) == AloneDecision(l, cs)
  {
    var n := |cs| - 1;
    var before, c := cs[..n], cs[n];
    var m := LimiterRun(l, before);
    var now := if n == 0 then c.sweep else cs[n - 1].take;
    if n > 0 {
      assert before[n - 1] == cs[n - 1];
      RunAgrees(l, before, key);
    }
    if c.key == key {
      AgreeStep(l, m, Alone(l, before, key), c, now);
    }
  }

  /** Each decision is that of a never-evicted bucket fed only the calls of the same key. */
  lemma EvictionIsInvisible(l: Limits, cs: seq<Call>)
    requires Clocked(cs) && cs != []
    ensures Decision(l, cs) == AloneDecision(l, cs)
  {
    if l.cap >= 1 {
      RunAgrees(l, cs, cs[|cs| - 1].key);
    }
  }

  /** The take times of the calls of key, and the time of its bucket's creation. */
  function TimesOf(cs: seq<Call>, key: string): seq<real> {
    if cs == [] then []
    else TimesOf(cs[..|cs| - 1], key) + (if cs[|cs| - 1].key == key then [cs[|cs| - 1].take] else [])
  }

  function CreatedAt(cs: seq<Call>, key: string): real {
    if cs == [] then 0.0
    else if cs[|cs| - 1].key == key && TimesOf(cs[..|cs| - 1], key) == [] then cs[|cs| - 1].create
    else CreatedAt(cs[..|cs| - 1], key)
  }

  lemma {:induction false} AloneIsOneBucket(l: Limits, cs: seq<Call>, key: string)
    ensures Alone(l, cs, key)
         == if TimesOf(cs, key) == [] then None else Some(After(ShapeOf(l), CreatedAt(cs, key), TimesOf(cs, key)))
  {
    if cs != [] {
      var n := |cs| - 1;
      AloneIsOneBucket(l, cs[..n], key);
      var ts := TimesOf(cs[..n], key);
      if cs[n].key == key {
        assert (ts + [cs[n].take])[..|ts|] == ts;
      } else {
        assert ts + [] == ts;
      }
    }
  }

  /**
   What the window from point i to call k leaves for call k, with the rate written out: the capacity, and capacity /
   window for each second, less what it admitted.
   */
  function WindowLeaves(l: Limits, t0: real, ts: seq<real>, i: nat, k: nat): real
    requires i <= k + 1 && k < |ts|
  {
    var start := if i == 0 then t0 else ts[i - 1];
    var used := AdmittedIn(ShapeOf(l), t0, ts, if i == 0 then 0 else i - 1, k);
    l.cap as real + (ts[k] - start) * (l.cap as real / l.per) - used as real
  }

  ghost predicate EveryWindowLeavesOne(l: Limits, t0: real, ts: seq<real>, k: nat)
    requires k < |ts|
  {
    forall i: nat :: i <= k + 1 ==> WindowLeaves(l, t0, ts, i, k) >= 1.0
  }

  lemma WindowLeavesIs(l: Limits, t0: real, ts: seq<real>, i: nat, k: nat)
    requires i <= k + 1 && k < |ts|
    ensures WindowLeaves(l, t0, ts, i, k) == Allowance(ShapeOf(l), t0, ts, i, k)
  {
  }

  lemma AllWindowsAre(l: Limits, t0: real, ts: seq<real>, k: nat)
    requires k < |ts|
    ensures forall i: nat :: i <= k + 1 ==> WindowLeaves(l, t0, ts, i, k) == Allowance(ShapeOf(l), t0, ts, i, k)
  {
    forall i: nat | i <= k + 1 { WindowLeavesIs(l, t0, ts, i, k); }
  }

  /** The token count is the least of what the windows leave, and so a call is admitted exactly if each leaves one. */
  lemma BucketWrittenOut(l: Limits, t0: real, ts: seq<real>, k: nat) returns (least: nat)
    requires k < |ts|
    ensures forall i: nat :: i <= k + 1 ==> Tokens(ShapeOf(l), t0, ts, k) <= WindowLeaves(l, t0, ts, i, k)
    ensures least <= k + 1 && Tokens(ShapeOf(l), t0, ts, k) == WindowLeaves(l, t0, ts, least, k)
    ensures Admitted(ShapeOf(l), t0, ts, k) <==> EveryWindowLeavesOne(l, t0, ts, k)
  {
    AllWindowsAre(l, t0, ts, k);
    least := TokensAreLeastAllowance(ShapeOf(l), t0, ts, k);
  }

  /**
   Over any interleaving of keys, a call is admitted if and only if every window over the
   calls of its own key, from a call of that key or from its first one on, has room for it.
   */
  lemma LimiterAdmitsByOwnWindows(l: Limits, cs: seq<Call>)
    requires Clocked(cs) && cs != []
    ensures var key := cs[|cs| - 1].key;
            var ts, t0 := TimesOf(cs, key), CreatedAt(cs, key);
            ts != [] && (Decision(l, cs) <==> EveryWindowLeavesOne(l, t0, ts, |ts| - 1))
  {
    var n := |cs| - 1;
    var key := cs[n].key;
    var ts, t0 := TimesOf(cs, key), CreatedAt(cs, key);
    var past := TimesOf(cs[..n], key);
    assert ts[..|ts| - 1] == past;
    EvictionIsInvisible(l, cs);
    AloneIsOneBucket(l, cs[..n], key);
    assert Decision(l, cs) == Admitted(ShapeOf(l), t0, ts, |ts| - 1);
    var least := BucketWrittenOut(l, t0, ts, |ts| - 1);
  }

  // ----- which buckets are kept -----

  /** When the key was last used. */
  function LastUse(cs: seq<Call>, key: string): Option<real> {
    if cs == [] then None
    else if cs[|cs| - 1].key == key then Some(cs[|cs| - 1].take)
    else LastUse(cs[..|cs| - 1], key)
  }

  /** The table holds the key of the last call, and of the others those used within two windows before it. */
  lemma {:induction false} TableHoldsRecent(l: Limits, cs: seq<Call>, key: string)
    requires Clocked(cs) && cs != []
    ensures key in LimiterRun(l, cs) <==>
            cs[|cs| - 1].key == key
            || (LastUse(cs, key).Some? && cs[|cs| - 1].sweep - LastUse(cs, key).value <= 2.0 * l.per)
    ensures key in LimiterRun(l, cs) ==> Some(LimiterRun(l, cs)[key].last) == LastUse(cs, key)
  {
    var n := |cs| - 1;
    if n > 0 {
      assert cs[..n][n - 1] == cs[n - 1];
      TableHoldsRecent(l, cs[..n], key);
    }
  }

  // ----- how much a window can admit -----

  lemma EarnedGrows(x: real, y: real, refill: real)
    requires x <= y && refill >= 0.0
    ensures Earned(x, refill) <= Earned(y, refill)
    ensures x >= 0.0 ==> Earned(x, refill) >= 0.0
  {
    assert (y - x) * refill >= 0.0;
    if x >= 0.0 { assert x * refill >= 0.0; }
  }

  /** Of the calls i..k of one bucket, k excluded, no more are admitted than fit the window they span. */
  lemma {:induction false} WindowBound(b: Shape, t0: real, ts: seq<real>, i: nat, k: nat)
    requires i < k <= |ts| && b.cap >= 0.0 && b.refill >= 0.0
    requires forall j :: 0 < j < |ts| ==> ts[j - 1] <= ts[j]
    ensures AdmittedIn(b, t0, ts, i, k) as real <= b.cap + Earned(ts[k - 1] - ts[i], b.refill)
    decreases k
  {
    if Admitted(b, t0, ts, k - 1) {
      var least := TokensAreLeastAllowance(b, t0, ts, k - 1);
      assert Tokens(b, t0, ts, k - 1) <= Allowance(b, t0, ts, i + 1, k - 1);
    } else if k - 1 == i {
      EarnedGrows(0.0, 0.0, b.refill);
    } else {
      WindowBound(b, t0, ts, i, k - 1);
      EarnedGrows(ts[k - 2] - ts[i], ts[k - 1] - ts[i], b.refill);
    }
  }

  /** How many calls of key from position from on are admitted. */
  function AdmittedOf(l: Limits, cs: seq<Call>, key: string, from: nat): nat {
    if |cs| <= from then 0
    else
      AdmittedOf(l, cs[..|cs| - 1], key, from) + (if cs[|cs| - 1].key == key && Decision(l, cs) then 1 else 0)
  }

  lemma {:induction false} AdmittedInPrefix(b: Shape, t0: real, ts: seq<real>, x: real, i: nat, k: nat)
    requires k <= |ts|
    ensures AdmittedIn(b, t0, ts + [x], i, k) == AdmittedIn(b, t0, ts, i, k)
    decreases k
  {
    if k > i {
      assert (ts + [x])[..k - 1] == ts[..k - 1];
      AdmittedInPrefix(b, t0, ts, x, i, k - 1);
    }
  }

  lemma {:induction false} TimesOfPrefix(cs: seq<Call>, key: string, from: nat)
    requires from <= |cs|
    ensures TimesOf(cs[..from], key) <= TimesOf(cs, key)
  {
    if from == |cs| {
      assert cs[..from] == cs;
    } else {
      assert cs[..|cs| - 1][..from] == cs[..from];
      TimesOfPrefix(cs[..|cs| - 1], key, from);
    }
  }

  lemma LastOfKey(l: Limits, cs: seq<Call>, key: string)
    requires Clocked(cs) && cs != [] && cs[|cs| - 1].key == key
    ensures var ts := TimesOf(cs, key);
            && ts != [] && ts == TimesOf(cs[..|cs| - 1], key) + [cs[|cs| - 1].take]
            && Decision(l, cs) == Admitted(ShapeOf(l), CreatedAt(cs, key), ts, |ts| - 1)
  {
    var n := |cs| - 1;
    var ts, past := TimesOf(cs, key), TimesOf(cs[..n], key);
    EvictionIsInvisible(l, cs);
    AloneIsOneBucket(l, cs[..n], key);
    assert ts[..|ts| - 1] == past;
  }

  /** What the limiter admits to a key is what one bucket of its own admits. */
  lemma {:induction false} AdmittedOfIsOneBucket(l: Limits, cs: seq<Call>, key: string, from: nat)
    requires Clocked(cs) && from <= |cs|
    ensures AdmittedOf(l, cs, key, from)
         == AdmittedIn(ShapeOf(l), CreatedAt(cs, key), TimesOf(cs, key), |TimesOf(cs[..from], key)|, |TimesOf(cs, key)|)
  {
    if from == |cs| {
      assert cs[..from] == cs;
    } else {
      var n := |cs| - 1;
      var past := TimesOf(cs[..n], key);
      assert cs[..n][..from] == cs[..from];
      AdmittedOfIsOneBucket(l, cs[..n], key, from);
      TimesOfPrefix(cs[..n], key, from);
      if cs[n].key == key {
        LastOfKey(l, cs, key);
        AdmittedInSnoc(ShapeOf(l), CreatedAt(cs, key), past, cs[n].take, |TimesOf(cs[..from], key)|);
        SameStart(ShapeOf(l), cs, key, |TimesOf(cs[..from], key)|);
      } else {
        assert past + [] == past;
      }
    }
  }

  lemma AdmittedInSnoc(b: Shape, t0: real, ts: seq<real>, x: real, i: nat)
    requires i <= |ts|
    ensures AdmittedIn(b, t0, ts + [x], i, |ts| + 1)
         == AdmittedIn(b, t0, ts, i, |ts|) + (if Admitted(b, t0, ts + [x], |ts|) then 1 else 0)
  {
    AdmittedInPrefix(b, t0, ts, x, i, |ts|);
  }

  /** A bucket that has had a call keeps its creation time; one that has not has admitted nothing. */
  lemma SameStart(b: Shape, cs: seq<Call>, key: string, i: nat)
    requires cs != []
    ensures var past := TimesOf(cs[..|cs| - 1], key);
            AdmittedIn(b, CreatedAt(cs[..|cs| - 1], key), past, i, |past|)
            == AdmittedIn(b, CreatedAt(cs, key), past, i, |past|)
  {
  }

  lemma {:induction false} TimesSorted(cs: seq<Call>, key: string)
    requires Clocked(cs)
    ensures var ts := TimesOf(cs, key);
            && (forall j :: 0 < j < |ts| ==> ts[j - 1] <= ts[j])
            && (ts != [] ==> cs != [] && ts[|ts| - 1] <= cs[|cs| - 1].take)
  {
    if cs != [] { TimesSorted(cs[..|cs| - 1], key); }
  }

  lemma {:induction false} TimesWithin(cs: seq<Call>, key: string, from: nat, t1: real, t2: real, i: nat)
    requires from <= |cs| && forall j :: from <= j < |cs| ==> t1 <= cs[j].take <= t2
    ensures |TimesOf(cs[..from], key)| <= i < |TimesOf(cs, key)| ==> t1 <= TimesOf(cs, key)[i] <= t2
  {
    if from == |cs| {
      assert cs[..from] == cs;
    } else {
      assert cs[..|cs| - 1][..from] == cs[..from];
      TimesWithin(cs[..|cs| - 1], key, from, t1, t2, i);
    }
  }

  lemma RefillPositive(l: Limits)
    requires l.cap >= 0
    ensures ShapeOf(l).refill >= 0.0
  {
    RefillFacts(l, 1.0);
  }

  /** Over any interleaving of keys, what a key is admitted in a window is at most capacity + length * refill. */
  lemma AdmittedInWindow(l: Limits, cs: seq<Call>, key: string, from: nat, t1: real, t2: real)
    requires l.cap >= 0 && Clocked(cs) && from <= |cs| && t1 <= t2
    requires forall j :: from <= j < |cs| ==> t1 <= cs[j].take <= t2
    ensures AdmittedOf(l, cs, key, from) as real <= l.cap as real + Earned(t2 - t1, ShapeOf(l).refill)
  {
    var ts, i := TimesOf(cs, key), |TimesOf(cs[..from], key)|;
    RefillPositive(l);
    EarnedGrows(t2 - t1, t2 - t1, ShapeOf(l).refill);
    AdmittedOfIsOneBucket(l, cs, key, from);
    TimesOfPrefix(cs, key, from);
    if i < |ts| {
      TimesSorted(cs, key);
      TimesWithin(cs, key, from, t1, t2, i);
      TimesWithin(cs, key, from, t1, t2, |ts| - 1);
      BoundWithin(ShapeOf(l), CreatedAt(cs, key), ts, i, t1, t2);
    }
  }

  lemma BoundWithin(b: Shape, t0: real, ts: seq<real>, i: nat, t1: real, t2: real)
    requires i < |ts| && b.cap >= 0.0 && b.refill >= 0.0 && t1 <= ts[i] && ts[|ts| - 1] <= t2
    requires forall j :: 0 < j < |ts| ==> ts[j - 1] <= ts[j]
    ensures AdmittedIn(b, t0, ts, i, |ts|) as real <= b.cap + Earned(t2 - t1, b.refill)
  {
    WindowBound(b, t0, ts, i, |ts|);
    EarnedGrows(ts[|ts| - 1] - ts[i], t2 - t1, b.refill);
  }
}
