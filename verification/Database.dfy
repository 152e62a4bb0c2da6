/**
 The tables of internal/store/migrations/0001_init.sql and the meaning of the statements
 internal/store/store.go runs on them.

 Users and rooms are never deleted, so their ids are 1, 2, 3, ... and the row with id k is at
 index k - 1. Messages are kept in id order; SQLite gives a new row the largest id plus one.
 */
module Database {
  import opened Prelude
  import opened Sanitizer
  import opened Mentions

  type Id = int

  const MAX_BODY := 2000

  datatype Role = Owner | Moderator | Member
  datatype User = User(handle: string, admin: bool)
  datatype Room = Room(name: string, private: bool, createdBy: Id, createdAt: int, deleted: bool)
  datatype Place = InRoom(room: Id) | InDM(a: Id, b: Id)
  datatype Message = Message(id: Id, place: Place, author: Id, body: string, deletedAt: Option<int>)
  datatype NotifKind = Mention(room: Id) | DM
  datatype Notif = Notif(user: Id, kind: NotifKind, message: Id, read: bool)

  datatype DB = DB(
    users: seq<User>,
    rooms: seq<Room>,
    members: map<(Id, Id), Role>,   // (room, user)
    bans: set<(Id, Id)>,            // (room, user)
    blocks: set<(Id, Id)>,          // (user, blocked)
    messages: seq<Message>,
    mentions: set<(Id, Id)>,        // (message, user)
    notifs: seq<Notif>,
    index: set<(string, Id)>        // postings: (term, message)
  )

  const EMPTY := DB([], [], map[], {}, {}, [], {}, [], {})

  datatype Error = NotAMember | IsBanned | EmptyMessage | ToSelf | NoRecipient | IsBlocked | Refused
  datatype Result<+T> = Ok(value: T) | Err(error: Error)
  datatype Sent = Sent(msg: Message, notified: seq<Id>)

  // ----- users -----

  predicate UserExists(db: DB, u: Id) { 1 <= u <= |db.users| }

  /** The user with this handle, ignoring case. */
  function FindHandle(users: seq<User>, h: string): (u: Option<Id>)
    ensures u.Some? ==> 1 <= u.value <= |users|
  {
    if users == [] then None
    else if Lower(users[|users| - 1].handle) == Lower(h) then Some(|users|)
    else FindHandle(users[..|users| - 1], h)
  }

  function UserByHandle(db: DB, h: string): Option<Id> { FindHandle(db.users, h) }

  /** handle is UNIQUE COLLATE NOCASE. */
  function CreateUser(db: DB, h: string): Result<DB> {
    if UserByHandle(db, h).Some? then Err(Refused) else Ok(db.(users := db.users + [User(h, false)]))
  }

  function SetAdmin(db: DB, h: string, on: bool): DB {
    match UserByHandle(db, h)
    case None => db
    case Some(u) => db.(users := db.users[u - 1 := db.users[u - 1].(admin := on)])
  }

  predicate Listed(h: string, hs: seq<string>) { exists k :: 0 <= k < |hs| && Lower(hs[k]) == Lower(h) }

  /** The ids of the users whose handle is listed, in table order. */
  function ResolveHandles(users: seq<User>, hs: seq<string>): (ids: seq<Id>)
    ensures forall i :: 0 <= i < |ids| ==> 1 <= ids[i] <= |users|
  {
    if users == [] then []
    else
      var ids := ResolveHandles(users[..|users| - 1], hs);
      if Listed(users[|users| - 1].handle, hs) then ids + [|users|] else ids
  }

  function SetBlock(db: DB, u: Id, other: Id, on: bool): DB {
    db.(blocks := if on then db.blocks + {(u, other)} else db.blocks - {(u, other)})
  }

  // ----- rooms, members and bans -----

  predicate RoomExists(db: DB, r: Id) { 1 <= r <= |db.rooms| }

  function FindRoom(rooms: seq<Room>, name: string, live: bool): (r: Option<Id>)
    ensures r.Some? ==> 1 <= r.value <= |rooms|
  {
    if rooms == [] then None
    else
      var r := rooms[|rooms| - 1];
      if Lower(r.name) == Lower(name) && !(live && r.deleted) then Some(|rooms|)
      else FindRoom(rooms[..|rooms| - 1], name, live)
  }

  function RoomByName(db: DB, name: string): Option<Id> { FindRoom(db.rooms, name, true) }

  /** name is UNIQUE COLLATE NOCASE, deleted rooms included. */
  function CreateRoom(db: DB, name: string, private: bool, owner: Id, now: int): Result<DB> {
    if FindRoom(db.rooms, name, false).Some? || !UserExists(db, owner) then Err(Refused)
    else
      Ok(db.(rooms := db.rooms + [Room(name, private, owner, now, false)],
             members := db.members[(|db.rooms| + 1, owner) := Owner]))
  }

  function CreatedSince(owner: Id, cutoff: int): Room -> bool {
    (r: Room) => r.createdBy == owner && r.createdAt > cutoff
  }

  /** Rooms that owner created after the cutoff. */
  function CountRoomCreates(rooms: seq<Room>, owner: Id, cutoff: int): nat { Count(rooms, CreatedSince(owner, cutoff)) }

  function JoinRoom(db: DB, r: Id, u: Id): Result<DB> {
    if (r, u) in db.bans then Err(IsBanned)
    else if (r, u) in db.members then Ok(db)
    else if !RoomExists(db, r) || !UserExists(db, u) then Err(Refused)
    else Ok(db.(members := db.members[(r, u) := Member]))
  }

  /** LeaveRoom and KickFromRoom delete the same row. */
  function RemoveMember(db: DB, r: Id, u: Id): DB { db.(members := db.members - {(r, u)}) }

  function BanFromRoom(db: DB, r: Id, u: Id): DB {
    if !RoomExists(db, r) || !UserExists(db, u) then db
    else db.(bans := db.bans + {(r, u)}, members := db.members - {(r, u)})
  }

  function DeleteRoom(db: DB, r: Id): DB {
    if RoomExists(db, r) then db.(rooms := db.rooms[r - 1 := db.rooms[r - 1].(deleted := true)]) else db
  }

  predicate NameLe(a: string, b: string) {
    a == [] || (b != [] && (a[0] < b[0] || (a[0] == b[0] && NameLe(a[1..], b[1..]))))
  }

  function InsertByName(rooms: seq<Room>, r: Id, ids: seq<Id>): (out: seq<Id>)
    requires 1 <= r <= |rooms| && forall i :: 0 <= i < |ids| ==> 1 <= ids[i] <= |rooms|
    ensures forall i :: 0 <= i < |out| ==> 1 <= out[i] <= |rooms|
  {
    if ids == [] then [r]
    else if NameLe(Lower(rooms[r - 1].name), Lower(rooms[ids[0] - 1].name)) then [r] + ids
    else [ids[0]] + InsertByName(rooms, r, ids[1..])
  }

  /** The rooms with id at most n that u is a member of and that are not deleted, ordered by name without case. */
  function RoomsUpTo(db: DB, u: Id, n: nat): (out: seq<Id>)
    requires n <= |db.rooms|
    ensures forall i :: 0 <= i < |out| ==> 1 <= out[i] <= |db.rooms|
  {
    if n == 0 then []
    else if (n, u) in db.members && !db.rooms[n - 1].deleted then InsertByName(db.rooms, n, RoomsUpTo(db, u, n - 1))
    else RoomsUpTo(db, u, n - 1)
  }

  function ListUserRooms(db: DB, u: Id): seq<Id> { RoomsUpTo(db, u, |db.rooms|) }

  predicate Moderates(db: DB, r: Id, u: Id) { (r, u) in db.members && db.members[(r, u)] != Member }

  // ----- the search index and its triggers -----

  predicate TermChar(c: char) { 'a' <= c <= 'z' || 'A' <= c <= 'Z' || '0' <= c <= '9' }

  /** The words of s, in lower case; cur is the word being read. */
  function TermsFrom(s: string, cur: string): set<string> {
    if s != [] && TermChar(s[0]) then TermsFrom(s[1..], cur + [LowerChar(s[0])])
    else (if cur == [] then {} else {cur}) + (if s == [] then {} else TermsFrom(s[1..], []))
  }

  function Terms(body: string): set<string> { TermsFrom(body, []) }

  function Postings(m: Message): set<(string, Id)> { set t | t in Terms(m.body) :: (t, m.id) }

  /** messages_ai, messages_ad and messages_au. */
  function AfterInsert(index: set<(string, Id)>, m: Message): set<(string, Id)> { index + Postings(m) }
  function AfterDelete(index: set<(string, Id)>, m: Message): set<(string, Id)> { index - Postings(m) }
  function AfterUpdate(index: set<(string, Id)>, old_: Message, new_: Message): set<(string, Id)> {
    (index - Postings(old_)) + Postings(new_)
  }

  // ----- messages -----

  function NextId(ms: seq<Message>): Id { if ms == [] then 1 else ms[|ms| - 1].id + 1 }

  function Find(ms: seq<Message>, id: Id): Option<Message> {
    if ms == [] then None
    else if ms[|ms| - 1].id == id then Some(ms[|ms| - 1])
    else Find(ms[..|ms| - 1], id)
  }

  function AppendMessage(db: DB, m: Message): DB {
    db.(messages := db.messages + [m], index := AfterInsert(db.index, m))
  }

  function Truncate(body: string): string { if |body| > MAX_BODY then body[..MAX_BODY] else body }

  function Eligible(members: map<(Id, Id), Role>, r: Id, author: Id): Id -> bool {
    (u: Id) => u != author && (r, u) in members
  }

  function MentionRow(r: Id, mid: Id): Id -> Notif { (u: Id) => Notif(u, Mention(r), mid, false) }

  function Paired(mid: Id, us: seq<Id>): set<(Id, Id)> { set u | u in us :: (mid, u) }

  function InsertRoomMessage(db: DB, r: Id, author: Id, text: string, uids: seq<Id>): (DB, Result<Sent>) {
    var body := Sanitize(text);
    if (r, author) !in db.members then (db, Err(NotAMember))
    else if (r, author) in db.bans then (db, Err(IsBanned))
    else if body == "" then (db, Err(EmptyMessage))
    else
      var m := Message(NextId(db.messages), InRoom(r), author, Truncate(body), None);
      var notified := Filter(uids, Eligible(db.members, r, author));
      (AppendMessage(db, m).(mentions := db.mentions + Paired(m.id, notified),
                             notifs := db.notifs + Map(notified, MentionRow(r, m.id))),
       Ok(Sent(m, notified)))
  }

  function DMKey(u1: Id, u2: Id): (Id, Id) { if u1 < u2 then (u1, u2) else (u2, u1) }

  function InsertDM(db: DB, author: Id, peer: Id, text: string): (DB, Result<Message>) {
    var body := Sanitize(text);
    if author == peer then (db, Err(ToSelf))
    else if !UserExists(db, peer) then (db, Err(NoRecipient))
    else if (peer, author) in db.blocks then (db, Err(IsBlocked))
    else if body == "" then (db, Err(EmptyMessage))
    else
      var (a, b) := DMKey(author, peer);
      var m := Message(NextId(db.messages), InDM(a, b), author, Truncate(body), None);
      (AppendMessage(db, m).(notifs := db.notifs + [Notif(peer, DM, m.id, false)]), Ok(m))
  }

  function Tombstone(id: Id, now: int): Message -> Message {
    (m: Message) => if m.id == id && m.deletedAt.None? then m.(deletedAt := Some(now)) else m
  }

  function DeleteMessage(db: DB, id: Id, now: int): DB {
    var m := Find(db.messages, id);
    if m.Some? && m.value.deletedAt.None? then
      db.(messages := Map(db.messages, Tombstone(id, now)),
          index := AfterUpdate(db.index, m.value, Tombstone(id, now)(m.value)))
    else db
  }

  predicate CanRead(db: DB, u: Id, m: Message) {
    match m.place
    case InRoom(r) => (r, u) in db.members
    case InDM(a, b) => a == u || b == u
  }

  predicate CanDelete(db: DB, m: Message, actor: Id, admin: bool) {
    m.author == actor || admin || (m.place.InRoom? && Moderates(db, m.place.room, actor))
  }

  function DeleteMessageForUser(db: DB, id: Id, actor: Id, admin: bool, now: int): Result<DB> {
    match Find(db.messages, id)
    case None => Err(Refused)
    case Some(m) => if CanDelete(db, m, actor, admin) then Ok(DeleteMessage(db, id, now)) else Err(Refused)
  }

  function Survives(cutoff: int): Message -> bool {
    (m: Message) => !(m.deletedAt.Some? && m.deletedAt.value < cutoff)
  }

  /** messages_ad, once for every row that goes. */
  function AfterDeletes(index: set<(string, Id)>, ms: seq<Message>, keep: Message -> bool): set<(string, Id)> {
    if ms == [] then index
    else
      var before := AfterDeletes(index, ms[..|ms| - 1], keep);
      if keep(ms[|ms| - 1]) then before else AfterDelete(before, ms[|ms| - 1])
  }

  /** A foreign key into messages still has its row. */
  function StillThere(ms: seq<Message>): Notif -> bool { (n: Notif) => Find(ms, n.message).Some? }

  function Purge(db: DB, cutoff: int): DB {
    var ms := Filter(db.messages, Survives(cutoff));
    db.(messages := ms,
        index := AfterDeletes(db.index, db.messages, Survives(cutoff)),
        mentions := (set x | x in db.mentions && Find(ms, x.0).Some?),
        notifs := Filter(db.notifs, StillThere(ms)))
  }

  // ----- queries over messages -----

  function InRoomRows(r: Id): Message -> bool { (m: Message) => m.place == InRoom(r) }
  function InThread(a: Id, b: Id): Message -> bool { (m: Message) => m.place == InDM(a, b) }

  function Reverse<T>(s: seq<T>): seq<T> {
    if s == [] then [] else [s[|s| - 1]] + Reverse(s[..|s| - 1])
  }

  /** LIMIT: a negative limit is no limit. */
  function Limit<T>(s: seq<T>, limit: int): seq<T> {
    if limit < 0 || limit >= |s| then s else s[..limit]
  }

  /** SELECT ... WHERE p ORDER BY id DESC LIMIT limit. */
  function SelectDesc(ms: seq<Message>, p: Message -> bool, limit: int): seq<Message> {
    Limit(Reverse(Filter(ms, p)), limit)
  }

  /** The last min(limit, n) rows, in order. */
  function Tail<T>(s: seq<T>, limit: int): seq<T> {
    if limit < 0 || limit >= |s| then s else s[|s| - limit..]
  }

  datatype Query = Term(t: string) | And(l: Query, r: Query) | Or(l: Query, r: Query) | Not(l: Query, r: Query)

  /** A full-text query answered from the postings. */
  predicate Hit(index: set<(string, Id)>, q: Query, id: Id) {
    match q
    case Term(t) => (t, id) in index
    case And(l, r) => Hit(index, l, id) && Hit(index, r, id)
    case Or(l, r) => Hit(index, l, id) || Hit(index, r, id)
    case Not(l, r) => Hit(index, l, id) && !Hit(index, r, id)
  }

  /** The same query answered by reading the text. */
  predicate Reads(body: string, q: Query) {
    match q
    case Term(t) => t in Terms(body)
    case And(l, r) => Reads(body, l) && Reads(body, r)
    case Or(l, r) => Reads(body, l) || Reads(body, r)
    case Not(l, r) => Reads(body, l) && !Reads(body, r)
  }

  function RoomHit(index: set<(string, Id)>, r: Id, q: Query): Message -> bool {
    (m: Message) => m.place == InRoom(r) && Hit(index, q, m.id)
  }

  function RoomReads(r: Id, q: Query): Message -> bool {
    (m: Message) => m.place == InRoom(r) && Reads(m.body, q)
  }

  function SearchRoom(db: DB, r: Id, q: Query, limit: int): seq<Message> {
    SelectDesc(db.messages, RoomHit(db.index, r, q), limit)
  }

  // ----- notifications -----

  /** The peer of u in the direct message with this id, if there is one. */
  function PeerOf(ms: seq<Message>, u: Id, mid: Id): Option<Id> {
    match Find(ms, mid)
    case Some(m) => if m.place.InDM? then Some(if m.place.a == u then m.place.b else m.place.a) else None
    case None => None
  }

  function UnreadOf(u: Id): Notif -> bool { (n: Notif) => n.user == u && !n.read }

  function UnreadMention(u: Id, r: Id): Notif -> bool {
    (n: Notif) => n.user == u && !n.read && n.kind == Mention(r)
  }

  function UnreadFrom(ms: seq<Message>, u: Id, p: Id): Notif -> bool {
    (n: Notif) => n.user == u && !n.read && n.kind.DM? && PeerOf(ms, u, n.message) == Some(p)
  }

  /** How many unread mentions u has in room r, and how many unread messages from peer p. */
  function RoomUnread(db: DB, u: Id, r: Id): nat { Count(db.notifs, UnreadMention(u, r)) }
  function PeerUnread(db: DB, u: Id, p: Id): nat { Count(db.notifs, UnreadFrom(db.messages, u, p)) }

  datatype Badges = Badges(rooms: map<Id, nat>, dms: map<Id, nat>)

  function TallyOne(ms: seq<Message>, u: Id, b: Badges, n: Notif): Badges {
    if n.user != u || n.read then b
    else
      match n.kind
      case Mention(r) => b.(rooms := Bump(b.rooms, r))
      case DM =>
        var p := PeerOf(ms, u, n.message);
        if p.Some? then b.(dms := Bump(b.dms, p.value)) else b
  }

  function Tally(ms: seq<Message>, u: Id, ns: seq<Notif>): Badges {
    if ns == [] then Badges(map[], map[])
    else TallyOne(ms, u, Tally(ms, u, ns[..|ns| - 1]), ns[|ns| - 1])
  }

  function UnreadCounts(db: DB, u: Id): Badges { Tally(db.messages, u, db.notifs) }

  function ReadIf(p: Notif -> bool): Notif -> Notif { (n: Notif) => if p(n) then n.(read := true) else n }

  function MarkRoomRead(db: DB, u: Id, r: Id): DB {
    db.(notifs := Map(db.notifs, ReadIf(UnreadMention(u, r))))
  }

  /** The unread rows of u whose message is in the thread of u and p. */
  function UnreadInThread(ms: seq<Message>, u: Id, p: Id): Notif -> bool {
    (n: Notif) =>
      n.user == u && !n.read && n.kind.DM?
      && var m := Find(ms, n.message); m.Some? && m.value.place == InDM(DMKey(u, p).0, DMKey(u, p).1)
  }

  function MarkDMRead(db: DB, u: Id, p: Id): DB {
    db.(notifs := Map(db.notifs, ReadIf(UnreadInThread(db.messages, u, p))))
  }
}
