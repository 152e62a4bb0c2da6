/** What the statements of internal/store/store.go keep and mean, over every reachable database. */
module StoreLaws {
  import opened Prelude
  import opened Sanitizer
  import opened Mentions
  import opened Database
  import WordLaws

  // ----- rows by id -----

  ghost predicate Sorted(ms: seq<Message>) {
    && (forall i :: 0 <= i < |ms| ==> 1 <= ms[i].id)
    && (forall i, j :: 0 <= i < j < |ms| ==> ms[i].id < ms[j].id)
  }

  lemma {:induction false} FindIn(ms: seq<Message>, id: Id)
    ensures Find(ms, id).Some? ==> Find(ms, id).value in ms && Find(ms, id).value.id == id
  {
    if ms != [] { FindIn(ms[..|ms| - 1], id); }
  }

  lemma {:induction false} FindRow(ms: seq<Message>, i: nat)
    requires Sorted(ms) && i < |ms|
    ensures Find(ms, ms[i].id) == Some(ms[i])
  {
    if i < |ms| - 1 { FindRow(ms[..|ms| - 1], i); }
  }

  lemma FindFresh(ms: seq<Message>)
    requires Sorted(ms)
    ensures Find(ms, NextId(ms)) == None && forall i :: 0 <= i < |ms| ==> ms[i].id < NextId(ms)
  {
    FindIn(ms, NextId(ms));
  }

  lemma FindSnoc(ms: seq<Message>, m: Message, id: Id)
    ensures Find(ms + [m], id) == if m.id == id then Some(m) else Find(ms, id)
  {
    assert (ms + [m])[..|ms|] == ms;
  }

  lemma {:induction false} FilterSorted(ms: seq<Message>, keep: Message -> bool)
    requires Sorted(ms)
    ensures Sorted(Filter(ms, keep))
  {
    if ms != [] {
      var n := |ms| - 1;
      FilterSorted(ms[..n], keep);
      var f := Filter(ms[..n], keep);
      forall i | 0 <= i < |f| ensures f[i].id < ms[n].id {
        InFilter(ms[..n], keep, f[i]);
      }
    }
  }

  /** Filtering finds the row that was there, if it is kept. */
  lemma {:induction false} FindFiltered(ms: seq<Message>, keep: Message -> bool, id: Id)
    requires Sorted(ms)
    ensures Find(Filter(ms, keep), id)
         == if Find(ms, id).Some? && keep(Find(ms, id).value) then Find(ms, id) else None
  {
    if ms != [] {
      var n := |ms| - 1;
      FindFiltered(ms[..n], keep, id);
      FindIn(ms[..n], ms[n].id);
      if keep(ms[n]) { FindSnoc(Filter(ms[..n], keep), ms[n], id); }
      else { assert Filter(ms[..n], keep) + [] == Filter(ms[..n], keep); }
    }
  }

  lemma {:induction false} FindTombstoned(ms: seq<Message>, id: Id, now: int, k: Id)
    ensures Find(Map(ms, Tombstone(id, now)), k)
         == if Find(ms, k).Some? then Some(Tombstone(id, now)(Find(ms, k).value)) else None
  {
    if ms != [] {
      FindTombstoned(ms[..|ms| - 1], id, now, k);
      FindSnoc(Map(ms[..|ms| - 1], Tombstone(id, now)), Tombstone(id, now)(ms[|ms| - 1]), k);
    }
  }

  // ----- lookups by name -----

  lemma {:induction false} FindHandleExact(users: seq<User>, h: string)
    ensures var u := FindHandle(users, h);
            if u.Some? then Lower(users[u.value - 1].handle) == Lower(h)
            else forall i :: 0 <= i < |users| ==> Lower(users[i].handle) != Lower(h)
  {
    if users != [] { FindHandleExact(users[..|users| - 1], h); }
  }

  lemma {:induction false} FindRoomExact(rooms: seq<Room>, name: string, live: bool)
    ensures var r := FindRoom(rooms, name, live);
            if r.Some? then Lower(rooms[r.value - 1].name) == Lower(name) && !(live && rooms[r.value - 1].deleted)
            else forall i :: 0 <= i < |rooms| ==> Lower(rooms[i].name) != Lower(name) || (live && rooms[i].deleted)
  {
    if rooms != [] { FindRoomExact(rooms[..|rooms| - 1], name, live); }
  }

  // ----- the invariant -----

  /** The postings are exactly those of the rows. */
  ghost predicate IndexAgrees(index: set<(string, Id)>, ms: seq<Message>) {
    forall t: string, id: Id :: (t, id) in index <==> Find(ms, id).Some? && t in Terms(Find(ms, id).value.body)
  }

  /** A notification points at a message of its own room, or of a thread its user is in. */
  ghost predicate NotifOk(ms: seq<Message>, n: Notif) {
    var m := Find(ms, n.message);
    && m.Some?
    && match n.kind
       case Mention(r) => m.value.place == InRoom(r)
       case DM => m.value.place.InDM? && m.value.place.a < m.value.place.b
                  && (n.user == m.value.place.a || n.user == m.value.place.b)
  }

  ghost predicate RowsOk(db: DB) {
    && Sorted(db.messages)
    && IndexAgrees(db.index, db.messages)
    && (forall x :: x in db.mentions ==> Find(db.messages, x.0).Some?)
    && (forall n :: n in db.notifs ==> NotifOk(db.messages, n))
  }

  /** Members and bans name existing rooms and users, and no member is banned. */
  ghost predicate RoomsOk(db: DB) {
    && (forall x :: x in db.members ==> RoomExists(db, x.0) && UserExists(db, x.1) && x !in db.bans)
    && (forall x :: x in db.bans ==> RoomExists(db, x.0) && UserExists(db, x.1))
  }

  ghost predicate Valid(db: DB) { RowsOk(db) && RoomsOk(db) }

  lemma EmptyIsValid()
    ensures Valid(EMPTY)
  {
  }

  lemma SameRowsOk(db: DB, db': DB)
    requires RowsOk(db) && db'.messages == db.messages && db'.notifs == db.notifs
    requires db'.mentions == db.mentions && db'.index == db.index
    ensures RowsOk(db')
  {
  }

  lemma MembershipKeepsValid(db: DB, r: Id, u: Id)
    requires Valid(db)
    ensures JoinRoom(db, r, u).Ok? ==> Valid(JoinRoom(db, r, u).value)
    ensures Valid(RemoveMember(db, r, u)) && Valid(BanFromRoom(db, r, u))
  {
    if JoinRoom(db, r, u).Ok? { SameRowsOk(db, JoinRoom(db, r, u).value); }
    SameRowsOk(db, RemoveMember(db, r, u));
    SameRowsOk(db, BanFromRoom(db, r, u));
  }

  lemma CreateRoomKeepsValid(db: DB, name: string, private: bool, owner: Id, now: int)
    requires Valid(db)
    ensures CreateRoom(db, name, private, owner, now).Ok? ==> Valid(CreateRoom(db, name, private, owner, now).value)
  {
    if CreateRoom(db, name, private, owner, now).Ok? { SameRowsOk(db, CreateRoom(db, name, private, owner, now).value); }
  }

  lemma AdminToolKeepsValid(db: DB, h: string, on: bool, r: Id)
    requires Valid(db)
    ensures CreateUser(db, h).Ok? ==> Valid(CreateUser(db, h).value)
    ensures Valid(SetAdmin(db, h, on)) && Valid(DeleteRoom(db, r))
  {
    if CreateUser(db, h).Ok? { SameRowsOk(db, CreateUser(db, h).value); }
    SameRowsOk(db, SetAdmin(db, h, on));
    SameRowsOk(db, DeleteRoom(db, r));
  }

  lemma NotifStaysOk(ms: seq<Message>, ms': seq<Message>, n: Notif)
    requires NotifOk(ms, n)
    requires Find(ms', n.message).Some? && Find(ms', n.message).value.place == Find(ms, n.message).value.place
    ensures NotifOk(ms', n)
    ensures forall u, p :: UnreadFrom(ms', u, p)(n) == UnreadFrom(ms, u, p)(n)
  {
  }

  lemma AppendKeepsRows(db: DB, m: Message)
    requires RowsOk(db) && m.id == NextId(db.messages)
    ensures RowsOk(AppendMessage(db, m))
    ensures forall n, u, p :: n in db.notifs ==> UnreadFrom(db.messages + [m], u, p)(n) == UnreadFrom(db.messages, u, p)(n)
  {
    var ms := db.messages;
    FindFresh(ms);
    forall id ensures Find(ms + [m], id) == if m.id == id then Some(m) else Find(ms, id) {
      FindSnoc(ms, m, id);
    }
    forall n | n in db.notifs ensures NotifOk(ms + [m], n) { NotifStaysOk(ms, ms + [m], n); }
  }

  lemma InsertRoomMessageKeepsValid(db: DB, r: Id, author: Id, text: string, uids: seq<Id>)
    requires Valid(db)
    ensures Valid(InsertRoomMessage(db, r, author, text, uids).0)
  {
    var (db', res) := InsertRoomMessage(db, r, author, text, uids);
    if res.Ok? {
      var m := res.value.msg;
      AppendKeepsRows(db, m);
      FindSnoc(db.messages, m, m.id);
    }
  }

  lemma InsertDMKeepsValid(db: DB, author: Id, peer: Id, text: string)
    requires Valid(db)
    ensures Valid(InsertDM(db, author, peer, text).0)
  {
    var (db', res) := InsertDM(db, author, peer, text);
    if res.Ok? {
      AppendKeepsRows(db, res.value);
      FindSnoc(db.messages, res.value, res.value.id);
    }
  }

  lemma DeleteKeepsValid(db: DB, id: Id, now: int)
    requires Valid(db)
    ensures Valid(DeleteMessage(db, id, now))
    ensures forall n, u, p :: n in db.notifs ==>
              UnreadFrom(DeleteMessage(db, id, now).messages, u, p)(n) == UnreadFrom(db.messages, u, p)(n)
  {
    var ms, f := db.messages, Tombstone(id, now);
    if Find(ms, id).Some? && Find(ms, id).value.deletedAt.None? {
      FindIn(ms, id);
      forall k ensures Find(Map(ms, f), k) == if Find(ms, k).Some? then Some(f(Find(ms, k).value)) else None {
        FindTombstoned(ms, id, now, k);
      }
      forall n | n in db.notifs ensures NotifOk(Map(ms, f), n) { NotifStaysOk(ms, Map(ms, f), n); }
    }
  }

  lemma {:induction false} IndexAfterDeletes(index: set<(string, Id)>, ms: seq<Message>, keep: Message -> bool,
      t: string, id: Id)
    requires Sorted(ms)
    ensures (t, id) in AfterDeletes(index, ms, keep) <==>
            (t, id) in index && !(Find(ms, id).Some? && !keep(Find(ms, id).value) && t in Terms(Find(ms, id).value.body))
  {
    if ms != [] {
      var n := |ms| - 1;
      IndexAfterDeletes(index, ms[..n], keep, t, id);
      FindIn(ms[..n], id);
    }
  }

  lemma PurgeKeepsValid(db: DB, cutoff: int)
    requires Valid(db)
    ensures Valid(Purge(db, cutoff))
    ensures forall n, u, p :: n in db.notifs && StillThere(Purge(db, cutoff).messages)(n) ==>
              UnreadFrom(Purge(db, cutoff).messages, u, p)(n) == UnreadFrom(db.messages, u, p)(n)
  {
    var ms, keep := db.messages, Survives(cutoff);
    var kept := Filter(ms, keep);
    FilterSorted(ms, keep);
    forall id
      ensures Find(kept, id) == if Find(ms, id).Some? && keep(Find(ms, id).value) then Find(ms, id) else None
    {
      FindFiltered(ms, keep, id);
    }
    forall t: string, id: Id
      ensures (t, id) in Purge(db, cutoff).index <==> Find(kept, id).Some? && t in Terms(Find(kept, id).value.body)
    {
      IndexAfterDeletes(db.index, ms, keep, t, id);
    }
    forall n | n in Purge(db, cutoff).notifs ensures NotifOk(kept, n) {
      InFilter(db.notifs, StillThere(kept), n);
      NotifStaysOk(ms, kept, n);
    }
  }

  lemma MarkKeepsValid(db: DB, p: Notif -> bool)
    requires Valid(db)
    ensures Valid(db.(notifs := Map(db.notifs, ReadIf(p))))
  {
    var ns := Map(db.notifs, ReadIf(p));
    forall n | n in ns ensures NotifOk(db.messages, n) {
      var i :| 0 <= i < |ns| && ns[i] == n;
      assert db.notifs[i] in db.notifs;
    }
  }

  // ----- unread counts -----

  /** The entries of the tally are the row counts. */
  lemma {:induction false} TallyCounts(ms: seq<Message>, u: Id, ns: seq<Notif>, k: Id)
    ensures Get(Tally(ms, u, ns).rooms, k) == Count(ns, UnreadMention(u, k))
    ensures Get(Tally(ms, u, ns).dms, k) == Count(ns, UnreadFrom(ms, u, k))
  {
    if ns != [] { TallyCounts(ms, u, ns[..|ns| - 1], k); }
  }

  lemma {:induction false} TallyTotal(ms: seq<Message>, u: Id, ns: seq<Notif>)
    requires forall n :: n in ns ==> NotifOk(ms, n)
    ensures Total(Tally(ms, u, ns).rooms) + Total(Tally(ms, u, ns).dms) == Count(ns, UnreadOf(u))
  {
    if ns != [] {
      var n := ns[|ns| - 1];
      assert n in ns;
      TallyTotal(ms, u, ns[..|ns| - 1]);
      var b := Tally(ms, u, ns[..|ns| - 1]);
      match n.kind {
        case Mention(r) => TotalBump(b.rooms, r);
        case DM => TotalBump(b.dms, PeerOf(ms, u, n.message).value);
      }
    }
  }

  /** Every unread row of the user is in exactly one entry. */
  lemma UnreadIsConserved(db: DB, u: Id)
    requires Valid(db)
    ensures forall r :: Get(UnreadCounts(db, u).rooms, r) == RoomUnread(db, u, r)
    ensures forall p :: Get(UnreadCounts(db, u).dms, p) == PeerUnread(db, u, p)
    ensures Total(UnreadCounts(db, u).rooms) + Total(UnreadCounts(db, u).dms) == Count(db.notifs, UnreadOf(u))
  {
    TallyTotal(db.messages, u, db.notifs);
    forall k ensures Get(UnreadCounts(db, u).rooms, k) == RoomUnread(db, u, k)
             ensures Get(UnreadCounts(db, u).dms, k) == PeerUnread(db, u, k) {
      TallyCounts(db.messages, u, db.notifs, k);
    }
  }

  /** Marking rows read by a predicate zeroes the counts inside it and leaves those outside it. */
  lemma MarkCount(ns: seq<Notif>, marked: Notif -> bool, p: Notif -> bool)
    requires forall n :: p(n) ==> !n.read
    ensures (forall n :: n in ns && p(n) ==> marked(n)) ==> Count(Map(ns, ReadIf(marked)), p) == 0
    ensures (forall n :: n in ns && p(n) ==> !marked(n)) ==> Count(Map(ns, ReadIf(marked)), p) == Count(ns, p)
  {
    if forall n :: n in ns && p(n) ==> marked(n) {
      var out := Map(ns, ReadIf(marked));
      forall n | n in out ensures !p(n) {
        var i :| 0 <= i < |out| && out[i] == n;
        assert ns[i] in ns;
      }
      CountNone(out, p);
    }
    if forall n :: n in ns && p(n) ==> !marked(n) {
      CountMapped(ns, ReadIf(marked), p, p);
    }
  }

  /** MarkRoomRead zeroes the user's entry for that room and no other entry of anyone. */
  lemma MarkRoomReadExact(db: DB, u: Id, r: Id)
    requires Valid(db)
    ensures Valid(MarkRoomRead(db, u, r))
    ensures forall v, k :: RoomUnread(MarkRoomRead(db, u, r), v, k) == if v == u && k == r then 0 else RoomUnread(db, v, k)
    ensures forall v, k :: PeerUnread(MarkRoomRead(db, u, r), v, k) == PeerUnread(db, v, k)
  {
    MarkKeepsValid(db, UnreadMention(u, r));
    forall v, k
      ensures RoomUnread(MarkRoomRead(db, u, r), v, k) == if v == u && k == r then 0 else RoomUnread(db, v, k)
    {
      MarkCount(db.notifs, UnreadMention(u, r), UnreadMention(v, k));
    }
    forall v, k ensures PeerUnread(MarkRoomRead(db, u, r), v, k) == PeerUnread(db, v, k) {
      MarkCount(db.notifs, UnreadMention(u, r), UnreadFrom(db.messages, v, k));
    }
  }

  /** Peer resolution inverts DMKey: a direct-message row of u is in the thread with p iff p is its peer. */
  lemma ThreadIsPeer(ms: seq<Message>, n: Notif, u: Id, p: Id)
    requires NotifOk(ms, n)
    ensures UnreadInThread(ms, u, p)(n) == UnreadFrom(ms, u, p)(n)
  {
  }

  /** MarkDMRead zeroes the user's entry for that peer and no other entry of anyone. */
  lemma MarkDMReadExact(db: DB, u: Id, p: Id)
    requires Valid(db)
    ensures Valid(MarkDMRead(db, u, p))
    ensures forall v, k :: PeerUnread(MarkDMRead(db, u, p), v, k) == if v == u && k == p then 0 else PeerUnread(db, v, k)
    ensures forall v, k :: RoomUnread(MarkDMRead(db, u, p), v, k) == RoomUnread(db, v, k)
  {
    var marked := UnreadInThread(db.messages, u, p);
    MarkKeepsValid(db, marked);
    forall n | n in db.notifs ensures marked(n) == UnreadFrom(db.messages, u, p)(n) {
      ThreadIsPeer(db.messages, n, u, p);
    }
    forall v, k
      ensures PeerUnread(MarkDMRead(db, u, p), v, k) == if v == u && k == p then 0 else PeerUnread(db, v, k)
    {
      MarkCount(db.notifs, marked, UnreadFrom(db.messages, v, k));
    }
    forall v, k ensures RoomUnread(MarkDMRead(db, u, p), v, k) == RoomUnread(db, v, k) {
      MarkCount(db.notifs, marked, UnreadMention(v, k));
    }
  }

  /** A direct message raises one entry of one user by one. */
  lemma InsertDMRaisesOne(db: DB, author: Id, peer: Id, text: string)
    requires Valid(db) && InsertDM(db, author, peer, text).1.Ok?
    ensures var db' := InsertDM(db, author, peer, text).0;
            && (forall v, k :: PeerUnread(db', v, k) == PeerUnread(db, v, k) + (if v == peer && k == author then 1 else 0))
            && (forall v, k :: RoomUnread(db', v, k) == RoomUnread(db, v, k))
  {
    var (db', res) := InsertDM(db, author, peer, text);
    var m := res.value;
    AppendKeepsRows(db, m);
    FindSnoc(db.messages, m, m.id);
    var n := Notif(peer, DM, m.id, false);
    forall v, k
      ensures PeerUnread(db', v, k) == PeerUnread(db, v, k) + (if v == peer && k == author then 1 else 0)
      ensures RoomUnread(db', v, k) == RoomUnread(db, v, k)
    {
      CountSnoc(db.notifs, n, UnreadFrom(db'.messages, v, k));
      CountEq(db.notifs, UnreadFrom(db'.messages, v, k), UnreadFrom(db.messages, v, k));
      CountSnoc(db.notifs, n, UnreadMention(v, k));
    }
  }

  lemma {:induction false} CountMentionRows(us: seq<Id>, r: Id, mid: Id, ms: seq<Message>, v: Id, k: Id)
    ensures Count(Map(us, MentionRow(r, mid)), UnreadMention(v, k)) == if k == r then multiset(us)[v] else 0
    ensures Count(Map(us, MentionRow(r, mid)), UnreadFrom(ms, v, k)) == 0
  {
    if us != [] {
      var n := |us| - 1;
      CountMentionRows(us[..n], r, mid, ms, v, k);
      assert us == us[..n] + [us[n]];
      CountSnoc(Map(us[..n], MentionRow(r, mid)), MentionRow(r, mid)(us[n]), UnreadMention(v, k));
      CountSnoc(Map(us[..n], MentionRow(r, mid)), MentionRow(r, mid)(us[n]), UnreadFrom(ms, v, k));
    }
  }

  /** A room message raises each notified user's entry for the room, once per entry in notified. */
  lemma RoomMessageRaises(db: DB, r: Id, author: Id, text: string, uids: seq<Id>)
    requires Valid(db) && InsertRoomMessage(db, r, author, text, uids).1.Ok?
    ensures var (db', res) := InsertRoomMessage(db, r, author, text, uids);
            && (forall v, k :: RoomUnread(db', v, k)
                            == RoomUnread(db, v, k) + (if k == r then multiset(res.value.notified)[v] else 0))
            && (forall v, k :: PeerUnread(db', v, k) == PeerUnread(db, v, k))
  {
    var (db', res) := InsertRoomMessage(db, r, author, text, uids);
    var m, us := res.value.msg, res.value.notified;
    AppendKeepsRows(db, m);
    forall v, k
      ensures RoomUnread(db', v, k) == RoomUnread(db, v, k) + (if k == r then multiset(us)[v] else 0)
      ensures PeerUnread(db', v, k) == PeerUnread(db, v, k)
    {
      CountMentionRows(us, r, m.id, db'.messages, v, k);
      CountConcat(db.notifs, Map(us, MentionRow(r, m.id)), UnreadMention(v, k));
      CountConcat(db.notifs, Map(us, MentionRow(r, m.id)), UnreadFrom(db'.messages, v, k));
      CountEq(db.notifs, UnreadFrom(db'.messages, v, k), UnreadFrom(db.messages, v, k));
    }
  }

  /** Soft deletion and purge raise no count. */
  lemma DeletionRaisesNothing(db: DB, id: Id, now: int, cutoff: int)
    requires Valid(db)
    ensures forall v, k :: RoomUnread(DeleteMessage(db, id, now), v, k) == RoomUnread(db, v, k)
    ensures forall v, k :: PeerUnread(DeleteMessage(db, id, now), v, k) == PeerUnread(db, v, k)
    ensures forall v, k :: RoomUnread(Purge(db, cutoff), v, k) <= RoomUnread(db, v, k)
    ensures forall v, k :: PeerUnread(Purge(db, cutoff), v, k) <= PeerUnread(db, v, k)
  {
    DeleteKeepsValid(db, id, now);
    PurgeKeepsValid(db, cutoff);
    var gone, purged := DeleteMessage(db, id, now).messages, Purge(db, cutoff).messages;
    forall v, k
      ensures PeerUnread(DeleteMessage(db, id, now), v, k) == PeerUnread(db, v, k)
      ensures RoomUnread(Purge(db, cutoff), v, k) <= RoomUnread(db, v, k)
      ensures PeerUnread(Purge(db, cutoff), v, k) <= PeerUnread(db, v, k)
    {
      CountEq(db.notifs, UnreadFrom(gone, v, k), UnreadFrom(db.messages, v, k));
      CountFilterLe(db.notifs, StillThere(purged), UnreadMention(v, k), UnreadMention(v, k));
      CountFilterLe(db.notifs, StillThere(purged), UnreadFrom(purged, v, k), UnreadFrom(db.messages, v, k));
    }
  }

  // ----- mentions, notifications and notified ids -----

  function AboutMessage(mid: Id, u: Id): Notif -> bool { (n: Notif) => n.message == mid && n.user == u }

  lemma {:induction false} CountRowsAbout(us: seq<Id>, r: Id, mid: Id, u: Id)
    ensures Count(Map(us, MentionRow(r, mid)), AboutMessage(mid, u)) == multiset(us)[u]
  {
    if us != [] {
      var n := |us| - 1;
      CountRowsAbout(us[..n], r, mid, u);
      assert us == us[..n] + [us[n]];
      CountSnoc(Map(us[..n], MentionRow(r, mid)), MentionRow(r, mid)(us[n]), AboutMessage(mid, u));
    }
  }

  /**
   For any list of mentioned ids, duplicates included: an id is notified as often as it is
   listed if it is a member other than the author, and not at all otherwise; the new message
   has one notification for each of these and a mention row if there is any.
   */
  lemma RoomMessageNotifies(db: DB, r: Id, author: Id, text: string, uids: seq<Id>, u: Id)
    requires Valid(db) && InsertRoomMessage(db, r, author, text, uids).1.Ok?
    ensures var (db', res) := InsertRoomMessage(db, r, author, text, uids);
            var m, notified := res.value.msg, res.value.notified;
            && multiset(notified)[u] == (if u != author && (r, u) in db.members then multiset(uids)[u] else 0)
            && Count(db'.notifs, AboutMessage(m.id, u)) == multiset(notified)[u]
            && ((m.id, u) in db'.mentions <==> u in notified)
  {
    var (db', res) := InsertRoomMessage(db, r, author, text, uids);
    var m, notified := res.value.msg, res.value.notified;
    FilterMultiset(uids, Eligible(db.members, r, author), u);
    FindFresh(db.messages);
    assert forall n :: n in db.notifs ==> NotifOk(db.messages, n);
    CountNone(db.notifs, AboutMessage(m.id, u));
    CountConcat(db.notifs, Map(notified, MentionRow(r, m.id)), AboutMessage(m.id, u));
    CountRowsAbout(notified, r, m.id, u);
  }

  lemma {:induction false} ResolveExact(users: seq<User>, hs: seq<string>, u: Id)
    ensures multiset(ResolveHandles(users, hs))[u]
         == if 1 <= u <= |users| && Listed(users[u - 1].handle, hs) then 1 else 0
  {
    if users != [] {
      ResolveExact(users[..|users| - 1], hs, u);
    }
  }

  /** A handle character is lower case already. */
  lemma LowerOfMention(s: string, p: nat, h: string)
    requires MentionAt(s, p, h)
    ensures Lower(h) == h
  {
    forall k | 0 <= k < |h| ensures Lower(h)[k] == h[k] {
      assert h[k] == s[p + 1..p + 1 + |h|][k];
    }
  }

  ghost predicate HandleMentioned(body: string, h: string) {
    exists p: nat :: MentionAt(Lower(body), p, h)
  }

  lemma ListedIsMentioned(body: string, h: string)
    ensures Listed(h, Mentioned(body)) <==> HandleMentioned(body, Lower(h))
  {
    var hs := Mentioned(body);
    ParseMentionsExact(body);
    if Listed(h, hs) {
      var k :| 0 <= k < |hs| && Lower(hs[k]) == Lower(h);
      assert hs[k] in hs;
      var p: nat :| MentionAt(Lower(body), p, hs[k]);
      LowerOfMention(Lower(body), p, hs[k]);
    }
    if p: nat :| MentionAt(Lower(body), p, Lower(h)) {
      LowerOfMention(Lower(body), p, Lower(h));
      assert Lower(h) in hs;
    }
  }

  /**
   A send: every member other than the author whose handle is mentioned in the text gets
   exactly one mention row, one notification and one entry in notified; nobody else gets any.
   */
  lemma MentionedOnceEach(db: DB, r: Id, author: Id, body: string, u: Id)
    requires Valid(db)
    requires InsertRoomMessage(db, r, author, body, ResolveHandles(db.users, Mentioned(body))).1.Ok?
    ensures var (db', res) := InsertRoomMessage(db, r, author, body, ResolveHandles(db.users, Mentioned(body)));
            var m, notified := res.value.msg, res.value.notified;
            var hit := u != author && (r, u) in db.members && UserExists(db, u)
                       && HandleMentioned(body, Lower(db.users[u - 1].handle));
            && multiset(notified)[u] == (if hit then 1 else 0)
            && Count(db'.notifs, AboutMessage(m.id, u)) == (if hit then 1 else 0)
            && ((m.id, u) in db'.mentions <==> hit)
  {
    var uids := ResolveHandles(db.users, Mentioned(body));
    RoomMessageNotifies(db, r, author, body, uids, u);
    ResolveExact(db.users, Mentioned(body), u);
    if UserExists(db, u) { ListedIsMentioned(body, db.users[u - 1].handle); }
  }

  // ----- what a send stores -----

  /** The sanitized text, or its first MAX_BODY runes if it is longer. */
  predicate StoredAs(body: string, text: string) {
    && body != "" && body <= Sanitize(text) && |body| <= MAX_BODY
    && (body != Sanitize(text) ==> |body| == MAX_BODY)
  }

  lemma FilterSnoc(ms: seq<Message>, m: Message, p: Message -> bool)
    ensures Filter(ms + [m], p) == if p(m) then Filter(ms, p) + [m] else Filter(ms, p)
  {
    assert (ms + [m])[..|ms|] == ms;
    assert Filter(ms, p) + [] == Filter(ms, p);
  }

  /**
   A room send succeeds exactly for a member who is not banned with something to say. The room's
   history then ends with the new message, and no other history changes.
   */
  lemma RoomSendOutcome(db: DB, r: Id, author: Id, text: string, uids: seq<Id>)
    requires Valid(db)
    ensures var (db', res) := InsertRoomMessage(db, r, author, text, uids);
            && (res.Ok? <==> (r, author) in db.members && Sanitize(text) != "")
            && (res.Err? ==> db' == db)
            && (res.Ok? ==>
                  var m := res.value.msg;
                  && m.author == author && m.deletedAt.None? && StoredAs(m.body, text)
                  && Find(db.messages, m.id).None? && Find(db'.messages, m.id) == Some(m)
                  && Filter(db'.messages, InRoomRows(r)) == Filter(db.messages, InRoomRows(r)) + [m]
                  && (forall k :: k != r ==> Filter(db'.messages, InRoomRows(k)) == Filter(db.messages, InRoomRows(k)))
                  && (forall a, b :: Filter(db'.messages, InThread(a, b)) == Filter(db.messages, InThread(a, b))))
  {
    var (db', res) := InsertRoomMessage(db, r, author, text, uids);
    if res.Ok? {
      var m := res.value.msg;
      FindFresh(db.messages);
      FindSnoc(db.messages, m, m.id);
      forall k ensures Filter(db'.messages, InRoomRows(k))
                    == Filter(db.messages, InRoomRows(k)) + if k == r then [m] else [] {
        FilterSnoc(db.messages, m, InRoomRows(k));
      }
      forall a, b ensures Filter(db'.messages, InThread(a, b)) == Filter(db.messages, InThread(a, b)) {
        FilterSnoc(db.messages, m, InThread(a, b));
      }
    }
  }

  /** Two pairs of users share a thread exactly when they are the same pair, in either order. */
  lemma DMKeyIsThePair(a: Id, b: Id, c: Id, d: Id)
    ensures DMKey(a, b) == DMKey(c, d) <==> (a == c && b == d) || (a == d && b == c)
    ensures DMKey(a, b).0 <= DMKey(a, b).1
  {
  }

  /**
   A direct message succeeds exactly to another, existing user who does not block the author, with
   something to say. The thread of the two then ends with it, whichever of them reads it.
   */
  lemma DMSendOutcome(db: DB, author: Id, peer: Id, text: string)
    requires Valid(db)
    ensures var (db', res) := InsertDM(db, author, peer, text);
            && (res.Ok? <==> author != peer && UserExists(db, peer) && (peer, author) !in db.blocks && Sanitize(text) != "")
            && (res.Err? ==> db' == db)
            && (res.Ok? ==>
                  var m := res.value;
                  && m.author == author && m.deletedAt.None? && StoredAs(m.body, text)
                  && Find(db.messages, m.id).None? && Find(db'.messages, m.id) == Some(m)
                  && (forall u, v :: Filter(db'.messages, InThread(DMKey(u, v).0, DMKey(u, v).1))
                        == Filter(db.messages, InThread(DMKey(u, v).0, DMKey(u, v).1))
                           + (if (u == author && v == peer) || (u == peer && v == author) then [m] else []))
                  && (forall k :: Filter(db'.messages, InRoomRows(k)) == Filter(db.messages, InRoomRows(k))))
  {
    var (db', res) := InsertDM(db, author, peer, text);
    if res.Ok? {
      var m := res.value;
      FindFresh(db.messages);
      FindSnoc(db.messages, m, m.id);
      forall u, v ensures Filter(db'.messages, InThread(DMKey(u, v).0, DMKey(u, v).1))
                       == Filter(db.messages, InThread(DMKey(u, v).0, DMKey(u, v).1))
                          + (if (u == author && v == peer) || (u == peer && v == author) then [m] else []) {
        FilterSnoc(db.messages, m, InThread(DMKey(u, v).0, DMKey(u, v).1));
        DMKeyIsThePair(author, peer, u, v);
      }
      forall k ensures Filter(db'.messages, InRoomRows(k)) == Filter(db.messages, InRoomRows(k)) {
        FilterSnoc(db.messages, m, InRoomRows(k));
      }
    }
  }

  lemma SurvivorsExact(ms: seq<Message>, cutoff: int)
    ensures forall m :: m in Filter(ms, Survives(cutoff)) <==> m in ms && (m.deletedAt.None? || m.deletedAt.value >= cutoff)
  {
    forall m ensures m in Filter(ms, Survives(cutoff)) <==> m in ms && Survives(cutoff)(m) {
      InFilter(ms, Survives(cutoff), m);
    }
  }

  /**
   Purge removes exactly the messages deleted before the cutoff, and every row that points at one. A message that was
   never deleted stays, and so does one deleted at the cutoff or later.
   */
  lemma PurgeExact(db: DB, cutoff: int)
    requires Valid(db)
    ensures forall id :: Find(Purge(db, cutoff).messages, id) == match Find(db.messages, id)
              case None => None
              case Some(m) => if m.deletedAt.None? || m.deletedAt.value >= cutoff then Some(m) else None
    ensures forall x :: x in Purge(db, cutoff).mentions <==> x in db.mentions && Find(Purge(db, cutoff).messages, x.0).Some?
    ensures var kept := Purge(db, cutoff).messages;
            forall n :: n in Purge(db, cutoff).notifs <==> n in db.notifs && Find(kept, n.message).Some?
  {
    forall id ensures Find(Purge(db, cutoff).messages, id) == match Find(db.messages, id)
              case None => None
              case Some(m) => if m.deletedAt.None? || m.deletedAt.value >= cutoff then Some(m) else None {
      FindFiltered(db.messages, Survives(cutoff), id);
    }
    var kept := Purge(db, cutoff).messages;
    forall n ensures n in Purge(db, cutoff).notifs <==> n in db.notifs && Find(kept, n.message).Some? {
      InFilter(db.notifs, StillThere(kept), n);
    }
  }

  // ----- history and search -----

  lemma {:induction false} ReverseAt<T>(s: seq<T>)
    ensures |Reverse(s)| == |s| && forall k :: 0 <= k < |s| ==> Reverse(s)[k] == s[|s| - 1 - k]
  {
    if s != [] { ReverseAt(s[..|s| - 1]); }
  }

  /** Newest first, cut, and turned round: the last rows in order. */
  lemma HistoryIsTail<T>(s: seq<T>, limit: int)
    ensures Reverse(Limit(Reverse(s), limit)) == Tail(s, limit)
  {
    ReverseAt(s);
    ReverseAt(Limit(Reverse(s), limit));
  }

  /** The tail is the last rows, as many as the limit allows, or all of them. */
  lemma TailIsLast<T>(s: seq<T>, limit: int)
    ensures var n := if limit < 0 || limit > |s| then |s| else limit; Tail(s, limit) == s[|s| - n..]
  {
  }

  /** A smaller limit gives a suffix of what a larger one gives. */
  lemma TailIsSuffix<T>(s: seq<T>, small: nat, large: int)
    requires small <= large || large < 0
    ensures |Tail(s, small)| <= |Tail(s, large)|
    ensures Tail(s, small) == Tail(s, large)[|Tail(s, large)| - |Tail(s, small)|..]
  {
  }

  /** After any purge, the rows of a room or thread are a subsequence of what they were, ids ascending. */
  lemma PurgedHistory(db: DB, cutoff: int, p: Message -> bool)
    requires Valid(db)
    ensures IsSubseq(Filter(Purge(db, cutoff).messages, p), Filter(db.messages, p))
    ensures Sorted(Filter(Purge(db, cutoff).messages, p))
  {
    FilterCommutes(db.messages, Survives(cutoff), p);
    FilterSubseq(Filter(db.messages, p), Survives(cutoff));
    PurgeKeepsValid(db, cutoff);
    FilterSorted(Purge(db, cutoff).messages, p);
  }

  lemma {:induction false} FilterCommutes<T>(s: seq<T>, p: T -> bool, q: T -> bool)
    ensures Filter(Filter(s, p), q) == Filter(Filter(s, q), p)
  {
    if s != [] {
      var n := |s| - 1;
      FilterCommutes(s[..n], p, q);
      if p(s[n]) { FilterConcat(Filter(s[..n], p), [s[n]], q); }
      if q(s[n]) { FilterConcat(Filter(s[..n], q), [s[n]], p); }
      assert Filter(s[..n], p) + [] == Filter(s[..n], p) && Filter(s[..n], q) + [] == Filter(s[..n], q);
      assert Filter([s[n]], q) == (if q(s[n]) then [s[n]] else []) && Filter([s[n]], p) == (if p(s[n]) then [s[n]] else []);
    }
  }

  lemma {:induction false} HitReads(db: DB, i: nat, q: Query)
    requires RowsOk(db) && i < |db.messages|
    ensures Hit(db.index, q, db.messages[i].id) == Reads(db.messages[i].body, q)
    decreases q
  {
    match q
    case Term(t) => FindRow(db.messages, i);
    case And(l, r) => HitReads(db, i, l); HitReads(db, i, r);
    case Or(l, r) => HitReads(db, i, l); HitReads(db, i, r);
    case Not(l, r) => HitReads(db, i, l); HitReads(db, i, r);
  }

  /** A message of the room with the words that the query asks for. */
  ghost function RoomAsks(r: Id, q: Query): Message -> bool {
    (m: Message) => m.place == InRoom(r) && WordLaws.Asks(m.body, q)
  }

  /**
   Indexed search is the linear scan of the room for the words of the query, newest first, cut at the limit. A word is
   a longest run of letters and digits, without case.
   */
  lemma SearchIsScan(db: DB, r: Id, q: Query, limit: int)
    requires Valid(db)
    ensures SearchRoom(db, r, q, limit) == SelectDesc(db.messages, RoomReads(r, q), limit)
    ensures SearchRoom(db, r, q, limit) == SelectDesc(db.messages, RoomAsks(r, q), limit)
  {
    forall m | m in db.messages ensures RoomHit(db.index, r, q)(m) == RoomReads(r, q)(m) {
      var i :| 0 <= i < |db.messages| && db.messages[i] == m;
      HitReads(db, i, q);
    }
    FilterEq(db.messages, RoomHit(db.index, r, q), RoomReads(r, q));
    forall m | m in db.messages ensures RoomReads(r, q)(m) == RoomAsks(r, q)(m) { WordLaws.ReadsIsAsks(m.body, q); }
    FilterEq(db.messages, RoomReads(r, q), RoomAsks(r, q));
  }

  /** Found is exactly what the room has with those words; newest first; the first of it if there is a limit. */
  lemma SearchFinds(db: DB, r: Id, q: Query, limit: int)
    requires Valid(db)
    ensures var found, all := SearchRoom(db, r, q, limit), SearchRoom(db, r, q, -1);
            && (forall m :: m in all <==> m in db.messages && m.place == InRoom(r) && WordLaws.Asks(m.body, q))
            && (forall i, j :: 0 <= i < j < |all| ==> all[i].id > all[j].id)
            && found <= all && |found| == if limit < 0 || limit > |all| then |all| else limit
  {
    var rows := Filter(db.messages, RoomAsks(r, q));
    SearchIsScan(db, r, q, limit);
    SearchIsScan(db, r, q, -1);
    ReverseAt(rows);
    FilterSorted(db.messages, RoomAsks(r, q));
    forall m ensures m in Reverse(rows) <==> m in db.messages && RoomAsks(r, q)(m) {
      InFilter(db.messages, RoomAsks(r, q), m);
      InReverse(rows, m);
    }
  }

  lemma {:induction false} InReverse<T>(s: seq<T>, x: T)
    ensures x in Reverse(s) <==> x in s
  {
    if s != [] {
      InReverse(s[..|s| - 1], x);
      assert s == s[..|s| - 1] + [s[|s| - 1]];
    }
  }

  /** Stored bodies hold no control character and no more than the maximum. */
  lemma StoredBodyIsSafe(text: string)
    ensures AllKept(Truncate(Sanitize(text))) && |Truncate(Sanitize(text))| <= MAX_BODY
  {
    SanitizeIsClean(text);
  }

  lemma {:induction false} InsertByNameExact(rooms: seq<Room>, r: Id, ids: seq<Id>, x: Id)
    requires 1 <= r <= |rooms| && forall i :: 0 <= i < |ids| ==> 1 <= ids[i] <= |rooms|
    ensures x in InsertByName(rooms, r, ids) <==> x == r || x in ids
  {
    if ids != [] && !NameLe(Lower(rooms[r - 1].name), Lower(rooms[ids[0] - 1].name)) {
      InsertByNameExact(rooms, r, ids[1..], x);
    }
  }

  lemma {:induction false} RoomsUpToExact(db: DB, u: Id, n: nat, r: Id)
    requires n <= |db.rooms|
    ensures r in RoomsUpTo(db, u, n) <==> 1 <= r <= n && (r, u) in db.members && !db.rooms[r - 1].deleted
  {
    if n > 0 {
      RoomsUpToExact(db, u, n - 1, r);
      if (n, u) in db.members && !db.rooms[n - 1].deleted {
        InsertByNameExact(db.rooms, n, RoomsUpTo(db, u, n - 1), r);
      }
    }
  }

  lemma {:induction false} NameLeTotal(a: string, b: string)
    ensures NameLe(a, b) || NameLe(b, a)
  {
    if a != [] && b != [] && a[0] == b[0] { NameLeTotal(a[1..], b[1..]); }
  }

  lemma {:induction false} NameLeTrans(a: string, b: string, c: string)
    requires NameLe(a, b) && NameLe(b, c)
    ensures NameLe(a, c)
  {
    if a != [] && a[0] == b[0] && b[0] == c[0] { NameLeTrans(a[1..], b[1..], c[1..]); }
  }

  ghost predicate Before(rooms: seq<Room>, x: Id, y: Id) {
    1 <= x <= |rooms| && 1 <= y <= |rooms| && NameLe(Lower(rooms[x - 1].name), Lower(rooms[y - 1].name))
  }

  lemma BeforeTrans(rooms: seq<Room>, x: Id, y: Id, z: Id)
    requires Before(rooms, x, y) && Before(rooms, y, z)
    ensures Before(rooms, x, z)
  {
    NameLeTrans(Lower(rooms[x - 1].name), Lower(rooms[y - 1].name), Lower(rooms[z - 1].name));
  }

  /** Every listed room comes, by name, after x. */
  ghost predicate NamedAfter(rooms: seq<Room>, x: Id, ids: seq<Id>) {
    forall i :: 0 <= i < |ids| ==> Before(rooms, x, ids[i])
  }

  ghost predicate InNameOrder(rooms: seq<Room>, ids: seq<Id>) {
    ids == [] || (NamedAfter(rooms, ids[0], ids[1..]) && InNameOrder(rooms, ids[1..]))
  }

  lemma {:induction false} InsertKeepsAfter(rooms: seq<Room>, r: Id, ids: seq<Id>, x: Id)
    requires 1 <= r <= |rooms| && forall i :: 0 <= i < |ids| ==> 1 <= ids[i] <= |rooms|
    requires NamedAfter(rooms, x, ids) && Before(rooms, x, r)
    ensures NamedAfter(rooms, x, InsertByName(rooms, r, ids))
  {
    forall i | 0 <= i < |InsertByName(rooms, r, ids)| ensures Before(rooms, x, InsertByName(rooms, r, ids)[i]) {
      InsertByNameExact(rooms, r, ids, InsertByName(rooms, r, ids)[i]);
    }
  }

  lemma {:induction false} InsertKeepsOrder(rooms: seq<Room>, r: Id, ids: seq<Id>)
    requires 1 <= r <= |rooms| && forall i :: 0 <= i < |ids| ==> 1 <= ids[i] <= |rooms|
    requires InNameOrder(rooms, ids)
    ensures InNameOrder(rooms, InsertByName(rooms, r, ids))
  {
    if ids != [] {
      var rest := InsertByName(rooms, r, ids[1..]);
      if NameLe(Lower(rooms[r - 1].name), Lower(rooms[ids[0] - 1].name)) {
        assert ([r] + ids)[1..] == ids;
        forall i | 0 <= i < |ids| ensures Before(rooms, r, ids[i]) {
          if i > 0 {
            assert ids[1..][i - 1] == ids[i];
            BeforeTrans(rooms, r, ids[0], ids[i]);
          }
        }
      } else {
        NameLeTotal(Lower(rooms[r - 1].name), Lower(rooms[ids[0] - 1].name));
        InsertKeepsOrder(rooms, r, ids[1..]);
        InsertKeepsAfter(rooms, r, ids[1..], ids[0]);
        assert ([ids[0]] + rest)[1..] == rest;
      }
    }
  }

  lemma {:induction false} RoomsUpToOrdered(db: DB, u: Id, n: nat)
    requires n <= |db.rooms|
    ensures InNameOrder(db.rooms, RoomsUpTo(db, u, n))
  {
    if n > 0 {
      RoomsUpToOrdered(db, u, n - 1);
      if (n, u) in db.members && !db.rooms[n - 1].deleted { InsertKeepsOrder(db.rooms, n, RoomsUpTo(db, u, n - 1)); }
    }
  }

  /** The room list is in name order, ignoring case. */
  lemma ListedInNameOrder(db: DB, u: Id)
    ensures InNameOrder(db.rooms, ListUserRooms(db, u))
  {
    RoomsUpToOrdered(db, u, |db.rooms|);
  }

  /** The room list holds exactly the user's rooms, and so none the user is banned from. */
  lemma ListedRoomsAreMemberships(db: DB, u: Id, r: Id)
    requires Valid(db)
    ensures r in ListUserRooms(db, u) <==> (r, u) in db.members && !db.rooms[r - 1].deleted
    ensures r in ListUserRooms(db, u) ==> (r, u) !in db.bans
  {
    RoomsUpToExact(db, u, |db.rooms|, r);
  }
}
