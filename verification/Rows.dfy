/** What the small statements of internal/store/store.go write, and what they leave alone. */
module RowLaws {
  import opened Prelude
  import opened Sanitizer
  import opened Mentions
  import opened Database
  import opened StoreLaws
  import opened World

  // ----- names in order -----

  /** a is before b in the dictionary, or the same. */
  ghost predicate Lexicographic(a: string, b: string) {
    a <= b || exists i: nat :: FirstDifference(a, b, i)
  }

  /** a and b agree up to i, where a has the smaller rune. */
  ghost predicate FirstDifference(a: string, b: string, i: nat) {
    i < |a| && i < |b| && a[..i] == b[..i] && a[i] < b[i]
  }

  lemma {:induction false} NameLeIsLexicographic(a: string, b: string)
    ensures NameLe(a, b) <==> Lexicographic(a, b)
  {
    if a != [] && b != [] {
      NameLeIsLexicographic(a[1..], b[1..]);
      assert a == [a[0]] + a[1..] && b == [b[0]] + b[1..];
      if a[0] < b[0] { assert FirstDifference(a, b, 0); }
      if a[0] == b[0] { SameHead(a, b); }
    }
  }

  lemma SameHead(a: string, b: string)
    requires a != [] && b != [] && a[0] == b[0]
    ensures Lexicographic(a, b) <==> Lexicographic(a[1..], b[1..])
  {
    if i: nat :| FirstDifference(a[1..], b[1..], i) {
      assert a[..i + 1] == [a[0]] + a[1..][..i] && b[..i + 1] == [b[0]] + b[1..][..i];
      assert FirstDifference(a, b, i + 1);
    }
    if i: nat :| FirstDifference(a, b, i) {
      assert i > 0;
      assert a[1..][..i - 1] == a[..i][1..] && b[1..][..i - 1] == b[..i][1..];
      assert FirstDifference(a[1..], b[1..], i - 1);
    }
    assert a == [a[0]] + a[1..] && b == [b[0]] + b[1..];
  }

  lemma {:induction false} OrderedPairwise(rooms: seq<Room>, ids: seq<Id>, i: nat, j: nat)
    requires InNameOrder(rooms, ids) && i < j < |ids|
    ensures Before(rooms, ids[i], ids[j])
  {
    if i == 0 {
      assert ids[1..][j - 1] == ids[j];
    } else {
      OrderedPairwise(rooms, ids[1..], i - 1, j - 1);
    }
  }

  lemma {:induction false} InsertOnce(rooms: seq<Room>, r: Id, ids: seq<Id>)
    requires 1 <= r <= |rooms| && (forall i :: 0 <= i < |ids| ==> 1 <= ids[i] <= |rooms|) && r !in ids && NoDup(ids)
    ensures NoDup(InsertByName(rooms, r, ids))
  {
    if ids != [] && !NameLe(Lower(rooms[r - 1].name), Lower(rooms[ids[0] - 1].name)) {
      InsertOnce(rooms, r, ids[1..]);
      InsertByNameExact(rooms, r, ids[1..], ids[0]);
    }
  }

  lemma {:induction false} RoomsUpToOnce(db: DB, u: Id, n: nat)
    requires n <= |db.rooms|
    ensures NoDup(RoomsUpTo(db, u, n))
  {
    if n > 0 {
      RoomsUpToOnce(db, u, n - 1);
      RoomsUpToExact(db, u, n - 1, n);
      if (n, u) in db.members && !db.rooms[n - 1].deleted { InsertOnce(db.rooms, n, RoomsUpTo(db, u, n - 1)); }
    }
  }

  /** A room list names each room once, and in the order of the dictionary, without case. */
  lemma ListedOnceByName(db: DB, u: Id, i: nat, j: nat)
    requires i < j < |ListUserRooms(db, u)|
    ensures var ids := ListUserRooms(db, u);
            && NoDup(ids) && 1 <= ids[i] <= |db.rooms| && 1 <= ids[j] <= |db.rooms|
            && Lexicographic(Lower(db.rooms[ids[i] - 1].name), Lower(db.rooms[ids[j] - 1].name))
  {
    var ids := ListUserRooms(db, u);
    RoomsUpToOnce(db, u, |db.rooms|);
    ListedInNameOrder(db, u);
    OrderedPairwise(db.rooms, ids, i, j);
    NameLeIsLexicographic(Lower(db.rooms[ids[i] - 1].name), Lower(db.rooms[ids[j] - 1].name));
  }

  // ----- the alphabet -----

  const CAPITALS := "ABCDEFGHIJKLMNOPQRSTUVWXYZ"
  const LETTERS := "abcdefghijklmnopqrstuvwxyz"
  const DIGITS := "0123456789"

  /** Lower case takes each capital to its letter and leaves every other rune alone. */
  lemma LowerCase(c: char)
    ensures forall i :: 0 <= i < 26 && CAPITALS[i] == c ==> LowerChar(c) == LETTERS[i]
    ensures c !in CAPITALS ==> LowerChar(c) == c
  {
    if 'A' <= c <= 'Z' { assert CAPITALS[c as int - 'A' as int] == c; }
  }

  lemma IsLetter(c: char)
    ensures 'a' <= c <= 'z' <==> c in LETTERS
  {
    if 'a' <= c <= 'z' { assert LETTERS[c as int - 'a' as int] == c; }
  }

  lemma IsDigit(c: char)
    ensures '0' <= c <= '9' <==> c in DIGITS
  {
    if '0' <= c <= '9' { assert DIGITS[c as int - '0' as int] == c; }
  }

  /** Handles and room names are made of lower-case letters, digits, underscores and hyphens. */
  lemma HandleRunes(c: char)
    ensures HandleChar(c) <==> c in LETTERS || c in DIGITS || c == '_' || c == '-'
  {
    IsLetter(c);
    IsDigit(c);
  }

  // ----- users -----

  /** A user row changes in its admin flag only, and only that of the user with the handle. */
  lemma AdminFlagExact(db: DB, h: string, on: bool)
    ensures var db', u := SetAdmin(db, h, on), UserByHandle(db, h);
            && db' == db.(users := db'.users) && |db'.users| == |db.users|
            && forall i :: 0 <= i < |db.users| ==>
                 db'.users[i].handle == db.users[i].handle
                 && db'.users[i].admin == if u == Some(i + 1) then on else db.users[i].admin
  {
  }

  /** A block concerns one pair of users, in one direction. */
  lemma BlockExact(db: DB, u: Id, other: Id, on: bool)
    ensures var db' := SetBlock(db, u, other, on);
            && db' == db.(blocks := db'.blocks)
            && forall x :: x in db'.blocks <==> if x == (u, other) then on else x in db.blocks
  {
  }

  // ----- members -----

  /** No other membership differs. */
  ghost predicate OthersMembers(db: DB, db': DB, r: Id, u: Id) {
    && (forall x :: x != (r, u) ==> (x in db'.members <==> x in db.members))
    && (forall x :: x != (r, u) && x in db.members ==> db'.members[x] == db.members[x])
  }

  /** Who joins is a plain member, unless a member already, whose role then stays; and nothing else changes. */
  lemma JoinRoomExact(db: DB, r: Id, u: Id)
    ensures JoinRoom(db, r, u).Ok? <==>
            (r, u) !in db.bans && ((r, u) in db.members || (RoomExists(db, r) && UserExists(db, u)))
    ensures JoinRoom(db, r, u).Ok? ==>
              var db' := JoinRoom(db, r, u).value;
              && db' == db.(members := db'.members) && OthersMembers(db, db', r, u)
              && (r, u) in db'.members
              && db'.members[(r, u)] == if (r, u) in db.members then db.members[(r, u)] else Member
  {
  }

  /** Who creates a room owns it; the name is one that no room ever had; and nothing else changes. */
  lemma CreateRoomExact(db: DB, name: string, private: bool, owner: Id, now: int)
    ensures CreateRoom(db, name, private, owner, now).Ok? <==>
            UserExists(db, owner) && forall i :: 0 <= i < |db.rooms| ==> Lower(db.rooms[i].name) != Lower(name)
    ensures CreateRoom(db, name, private, owner, now).Ok? ==>
              var db', r := CreateRoom(db, name, private, owner, now).value, |db.rooms| + 1;
              && db' == db.(members := db'.members, rooms := db'.rooms) && OthersMembers(db, db', r, owner)
              && db'.rooms == db.rooms + [Room(name, private, owner, now, false)]
              && (r, owner) in db'.members && db'.members[(r, owner)] == Owner
  {
    FindRoomExact(db.rooms, name, false);
  }

  // ----- registration -----

  lemma {:induction false} FindHandleSnoc(users: seq<User>, user: User)
    ensures FindHandle(users + [user], user.handle) == Some(|users| + 1)
  {
    assert (users + [user])[..|users|] == users;
  }

  /**
   A free handle gives a new user, no admin, who is a member of the default room; the first user makes that room and
   owns it. A room that has the name but was deleted stays as it is, and nobody joins. A taken handle changes nothing.
   */
  lemma RegistrationExact(db: DB, h: string, room: string, now: int)
    requires Valid(db)
    ensures var db', u, r := Registered(db, h, room, now), |db.users| + 1, RoomByName(db, room);
            if UserByHandle(db, h).Some? then db' == db
            else
              && db' == db.(users := db.users + [User(h, false)], rooms := db'.rooms, members := db'.members)
              && (r.Some? ==> db'.rooms == db.rooms && OthersMembers(db, db', r.value, u)
                              && (r.value, u) in db'.members && db'.members[(r.value, u)] == Member)
              && (r.None? && FindRoom(db.rooms, room, false).None? ==>
                    && db'.rooms == db.rooms + [Room(room, false, u, now, false)]
                    && OthersMembers(db, db', |db'.rooms|, u)
                    && (|db'.rooms|, u) in db'.members && db'.members[(|db'.rooms|, u)] == Owner)
              && (r.None? && FindRoom(db.rooms, room, false).Some? ==>
                    db'.rooms == db.rooms && db'.members == db.members)
  {
    if UserByHandle(db, h).None? {
      var db1, u := CreateUser(db, h).value, |db.users| + 1;
      assert forall k :: (k, u) !in db.members && (k, u) !in db.bans;
    }
  }

  // ----- rooms -----

  /** A removed room is found by no name and listed for nobody; the other rooms and all memberships stay. */
  lemma RemovedRoomIsGone(db: DB, r: Id, name: string, u: Id)
    requires Valid(db) && RoomByName(db, name) == Some(r)
    requires forall i, j :: 0 <= i < j < |db.rooms| ==> Lower(db.rooms[i].name) != Lower(db.rooms[j].name)
    ensures var db' := DeleteRoom(db, r);
            && RoomByName(db', name).None? && FindRoom(db'.rooms, name, false).Some? && r !in ListUserRooms(db', u)
            && db' == db.(rooms := db'.rooms) && |db'.rooms| == |db.rooms|
            && (forall i :: 0 <= i < |db.rooms| && i != r - 1 ==> db'.rooms[i] == db.rooms[i])
            && (forall k :: k != r ==> (k in ListUserRooms(db', u) <==> k in ListUserRooms(db, u)))
  {
    var db' := DeleteRoom(db, r);
    FindRoomExact(db.rooms, name, true);
    FindRoomExact(db'.rooms, name, true);
    FindRoomExact(db'.rooms, name, false);
    assert Lower(db'.rooms[r - 1].name) == Lower(name);
    AdminToolKeepsValid(db, "", false, r);
    forall k ensures k in ListUserRooms(db', u) <==> (k, u) in db.members && !db'.rooms[k - 1].deleted {
      ListedRoomsAreMemberships(db', u, k);
    }
    forall k ensures k in ListUserRooms(db, u) <==> (k, u) in db.members && !db.rooms[k - 1].deleted {
      ListedRoomsAreMemberships(db, u, k);
    }
  }

  function MadeAfter(u: Id, cutoff: int): Room -> bool { (r: Room) => r.createdBy == u && r.createdAt > cutoff }

  /** The day's quota counts the rooms that the user created after the cutoff, deleted ones included. */
  lemma CreatesAreCounted(rooms: seq<Room>, u: Id, cutoff: int)
    ensures CountRoomCreates(rooms, u, cutoff) == Count(rooms, MadeAfter(u, cutoff))
  {
    CountEq(rooms, CreatedSince(u, cutoff), MadeAfter(u, cutoff));
  }

  // ----- messages -----

  /** A new message has the id after the largest there is, or 1. */
  lemma NewIdIsNext(ms: seq<Message>)
    requires Sorted(ms)
    ensures forall m :: m in ms ==> m.id < NextId(ms)
    ensures if ms == [] then NextId(ms) == 1 else exists m :: m in ms && m.id + 1 == NextId(ms)
  {
    if ms != [] { assert ms[|ms| - 1] in ms; }
  }

  /** Why a room message is refused, in the order of the checks. */
  lemma RoomSendErrors(db: DB, r: Id, author: Id, text: string, uids: seq<Id>)
    ensures var (db', res) := InsertRoomMessage(db, r, author, text, uids);
            && (res == Err(NotAMember) <==> (r, author) !in db.members)
            && (res == Err(IsBanned) <==> (r, author) in db.members && (r, author) in db.bans)
            && (res == Err(EmptyMessage) <==>
                  (r, author) in db.members && (r, author) !in db.bans && Sanitize(text) == "")
            && (res.Err? ==> db' == db)
  {
  }

  /** Why a direct message is refused, in the order of the checks. */
  lemma DMSendErrors(db: DB, author: Id, peer: Id, text: string)
    ensures var (db', res) := InsertDM(db, author, peer, text);
            var other, there, blocked := author != peer, UserExists(db, peer), (peer, author) in db.blocks;
            && (res == Err(ToSelf) <==> !other)
            && (res == Err(NoRecipient) <==> other && !there)
            && (res == Err(IsBlocked) <==> other && there && blocked)
            && (res == Err(EmptyMessage) <==> other && there && !blocked && Sanitize(text) == "")
            && (res.Err? ==> db' == db)
  {
  }

  /** Text is cut to its first 2000 runes. */
  lemma CutIsExact(text: string)
    ensures Truncate(text) <= text && |Truncate(text)| == if |text| > 2000 then 2000 else |text|
  {
  }
}
