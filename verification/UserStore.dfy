/** The users table and the two cache keys under which each record may lie, as
    services/user-service/internal/repository/user_repository.go keeps them. Ids and e-mail addresses are in their
    normal form; a statement that fails has not been carried out. */
module UserStore {
  import opened Basics

  datatype User = User(
    id: string, email: string, firstName: string, lastName: string, phone: string, role: string,
    verified: bool, banned: bool, banReason: string, createdAt: Time, updatedAt: Time)

  datatype Row = Row(user: User, deleted: bool)

  datatype Profile = Profile(email: string, firstName: string, lastName: string, phone: string, role: string)

  datatype Names = Names(firstName: string, lastName: string, phone: string)

  datatype Store = Store(rows: map<string, Row>, byId: map<string, User>, byEmail: map<string, User>)

  datatype Error = UserNotFound | EmailTaken | InvalidInput | DatabaseError

  /** Which cache commands of a call took effect; an answer that got lost is never noticed. */
  datatype Caching = Caching(del: bool, setId: bool, setEmail: bool)

  predicate Live(rows: map<string, Row>, id: string) {
    id in rows && !rows[id].deleted
  }

  predicate LiveWith(rows: map<string, Row>, id: string, email: string) {
    Live(rows, id) && rows[id].user.email == email
  }

  predicate EmailFree(rows: map<string, Row>, email: string) {
    forall id | id in rows :: !LiveWith(rows, id, email)
  }

  ghost function FindByEmail(rows: map<string, Row>, email: string): (u: User)
    requires !EmailFree(rows, email)
    ensures exists id :: LiveWith(rows, id, email) && u == rows[id].user
  {
    var id :| LiveWith(rows, id, email);
    rows[id].user
  }

  function Cached(s: Store, u: User, c: Caching): Store {
    s.(byId := if c.setId then s.byId[u.id := u] else s.byId,
       byEmail := if c.setEmail then s.byEmail[u.email := u] else s.byEmail)
  }

  function NewUser(id: string, p: Profile, now: Time): User {
    User(id, p.email, p.firstName, p.lastName, p.phone, p.role, false, false, "", now, now)
  }

  function Overwritten(u: User, p: Profile, now: Time): User {
    u.(email := p.email, firstName := p.firstName, lastName := p.lastName, phone := p.phone, role := p.role,
       updatedAt := now)
  }

  function Renamed(u: User, n: Names, now: Time): User {
    u.(firstName := n.firstName, lastName := n.lastName, phone := n.phone, updatedAt := now)
  }

  datatype Op =
    | GetByID(id: string, hit: bool, db: bool, c: Caching)
    | GetByEmail(email: string, hit: bool, db: bool, c: Caching)
    | GetBatch(ids: seq<string>, unread: set<string>, db: bool, order: seq<string>, sets: map<string, Caching>)
    | Create(id: string, profile: Profile, now: Time, db: bool, c: Caching)
    | CreateWithID(id: string, profile: Profile, now: Time, db: bool, c: Caching)
    | Update(id: string, names: Names, now: Time, db: bool, c: Caching)
    | VerifyEmail(id: string, now: Time, db: bool, c: Caching)
    | Ban(id: string, reason: string, now: Time, db: bool, c: Caching)
    | Delete(id: string, now: Time, db: bool, c: Caching)
    | ForgetId(id: string)
    | ForgetEmail(email: string)

  /** The ids that `GetBatch` has to ask the database for: not cached, or the cache could not be read. */
  function Missing(s: Store, ids: seq<string>, unread: set<string>): set<string> {
    set id | id in ids && (id in unread || id !in s.byId)
  }

  /** Cache the rows that the query delivered, one after the other. The query has no filter on `deleted`. */
  function Refill(s: Store, missing: set<string>, order: seq<string>, sets: map<string, Caching>): Store {
    if order == [] then s
    else
      var before, id := Refill(s, missing, order[..|order| - 1], sets), order[|order| - 1];
      if id in missing && id in s.rows && id in sets then Cached(before, s.rows[id].user, sets[id]) else before
  }

  function Insert(s: Store, id: string, p: Profile, now: Time, c: Caching): Store {
    var u := NewUser(id, p, now);
    Cached(s.(rows := s.rows[id := Row(u, false)]), u, c)
  }

  /** `ON CONFLICT (id) DO UPDATE`, which leaves the flags and `deleted_at` alone. */
  function Overwrite(s: Store, id: string, p: Profile, now: Time, c: Caching): Store
    requires id in s.rows
  {
    var u := Overwritten(s.rows[id].user, p, now);
    if !s.rows[id].deleted && !EmailFree(s.rows - {id}, p.email) then s
    else Cached(s.(rows := s.rows[id := Row(u, s.rows[id].deleted)]), u, c)
  }

  /** Write the row and drop its id key. */
  function Changed(s: Store, id: string, row: Row, del: bool): Store {
    s.(rows := s.rows[id := row], byId := if del then s.byId - {id} else s.byId)
  }

  function DropEmail(s: Store, email: string, del: bool): Store {
    s.(byEmail := if del then s.byEmail - {email} else s.byEmail)
  }

  ghost function Step(s: Store, op: Op): Store {
    match op
    case GetByID(id, hit, db, c) =>
      if id == "" || (hit && id in s.byId) || !db || !Live(s.rows, id) then s else Cached(s, s.rows[id].user, c)
    case GetByEmail(email, hit, db, c) =>
      if email == "" || (hit && email in s.byEmail) || !db || EmailFree(s.rows, email) then s
      else Cached(s, FindByEmail(s.rows, email), c)
    case GetBatch(ids, unread, db, order, sets) =>
      if db then Refill(s, Missing(s, ids, unread), order, sets) else s
    case Create(id, p, now, db, c) =>
      if db && id !in s.rows && EmailFree(s.rows, p.email) then Insert(s, id, p, now, c) else s
    case CreateWithID(id, p, now, db, c) =>
      if !db then s
      else if id in s.rows then Overwrite(s, id, p, now, c)
      else if EmailFree(s.rows, p.email) then Insert(s, id, p, now, c)
      else s
    case Update(id, n, now, db, c) =>
      if !db || !Live(s.rows, id) then s
      else
        var u := Renamed(s.rows[id].user, n, now);
        Cached(DropEmail(Changed(s, id, Row(u, false), c.del), u.email, c.del), u, c)
    case VerifyEmail(id, now, db, c) =>
      if !db || !Live(s.rows, id) then s
      else Changed(s, id, Row(s.rows[id].user.(verified := true, updatedAt := now), false), c.del)
    case Ban(id, reason, now, db, c) =>
      if !db || !Live(s.rows, id) then s
      else Changed(s, id, Row(s.rows[id].user.(banned := true, banReason := reason, updatedAt := now), false), c.del)
    case Delete(id, now, db, c) =>
      if !db || !Live(s.rows, id) then s
      else DropEmail(Changed(s, id, Row(s.rows[id].user.(updatedAt := now), true), c.del), s.rows[id].user.email, c.del)
    case ForgetId(id) => s.(byId := s.byId - {id})
    case ForgetEmail(email) => s.(byEmail := s.byEmail - {email})
  }

  ghost function Run(ops: seq<Op>): Store {
    if ops == [] then Store(map[], map[], map[]) else Step(Run(ops[..|ops| - 1]), ops[|ops| - 1])
  }

  // ---------------------------------------------------------------- what the caches hold

  /** The keys of the table: the primary key, and the unique index on the addresses of live users. */
  ghost predicate Keyed(rows: map<string, Row>) {
    && (forall id | id in rows :: rows[id].user.id == id)
    && (forall a, b, email | LiveWith(rows, a, email) && LiveWith(rows, b, email) :: a == b)
  }

  /** Equal but for the flags, the ban reason and the time of change, and no flag set that is not set in the row. */
  predicate LagsBehind(cached: User, stored: User) {
    && cached.(verified := stored.verified, banned := stored.banned, banReason := stored.banReason,
               updatedAt := stored.updatedAt) == stored
    && (cached.verified ==> stored.verified)
    && (cached.banned ==> stored.banned)
  }

  ghost predicate IdKeysMatch(s: Store) {
    forall id | id in s.byId :: id in s.rows && s.byId[id] == s.rows[id].user
  }

  predicate EmailEntryLags(rows: map<string, Row>, email: string, u: User) {
    u.email == email && u.id in rows && LagsBehind(u, rows[u.id].user)
  }

  ghost predicate EmailKeysLag(s: Store) {
    forall email | email in s.byEmail :: EmailEntryLags(s.rows, email, s.byEmail[email])
  }

  ghost predicate Coherent(s: Store) {
    Keyed(s.rows) && IdKeysMatch(s) && EmailKeysLag(s)
  }

  /** What a caller or an operator can see about a call: `CreateWithID` brings a new id, and enough of the cache
      commands get through. */
  predicate KeepsUp(s: Store, op: Op) {
    match op
    case CreateWithID(id, _, _, _, _) => id !in s.rows
    case Update(_, _, _, _, c) => c.del || (c.setId && c.setEmail)
    case VerifyEmail(_, _, _, c) => c.del
    case Ban(_, _, _, _, c) => c.del
    case Delete(_, _, _, c) => c.del
    case _ => true
  }

  ghost predicate AllKeepUp(ops: seq<Op>) {
    ops == [] || (AllKeepUp(ops[..|ops| - 1]) && KeepsUp(Run(ops[..|ops| - 1]), ops[|ops| - 1]))
  }

  lemma CachingKeepsCoherent(s: Store, id: string, c: Caching)
    requires Coherent(s) && id in s.rows
    ensures Coherent(Cached(s, s.rows[id].user, c))
  {
  }

  lemma {:induction false} RefillKeepsCoherent(s: Store, missing: set<string>, order: seq<string>,
                                               sets: map<string, Caching>)
    requires Coherent(s)
    ensures Coherent(Refill(s, missing, order, sets)) && Refill(s, missing, order, sets).rows == s.rows
  {
    if order != [] {
      var id := order[|order| - 1];
      var before := Refill(s, missing, order[..|order| - 1], sets);
      RefillKeepsCoherent(s, missing, order[..|order| - 1], sets);
      if id in missing && id in s.rows && id in sets { CachingKeepsCoherent(before, id, sets[id]); }
    }
  }

  lemma NewRowsKeepCoherent(s: Store, id: string, p: Profile, now: Time, c: Caching)
    requires Coherent(s) && id !in s.rows && EmailFree(s.rows, p.email)
    ensures Coherent(Insert(s, id, p, now, c))
  {
    var u := NewUser(id, p, now);
    var added := s.(rows := s.rows[id := Row(u, false)]);
    assert Keyed(added.rows) by {
      forall a, b, email | LiveWith(added.rows, a, email) && LiveWith(added.rows, b, email) ensures a == b {
        if a != id { assert LiveWith(s.rows, a, email); }
        if b != id { assert LiveWith(s.rows, b, email); }
      }
    }
    CachingKeepsCoherent(added, id, c);
  }

  /** Rows whose names, address and flags do not go back: the id key must go, the e-mail key may stay. */
  lemma ChangesKeepCoherent(s: Store, id: string, row: Row)
    requires Coherent(s) && Live(s.rows, id) && LagsBehind(s.rows[id].user, row.user)
    ensures Coherent(Changed(s, id, row, true))
  {
    var s' := Changed(s, id, row, true);
    assert row.user.id == id && row.user.email == s.rows[id].user.email;
    forall a, b, email | LiveWith(s'.rows, a, email) && LiveWith(s'.rows, b, email) ensures a == b {
      assert LiveWith(s.rows, a, email) && LiveWith(s.rows, b, email);
    }
  }

  lemma RenamingKeepsKeys(rows: map<string, Row>, id: string, n: Names, now: Time)
    requires Keyed(rows) && Live(rows, id)
    ensures Keyed(rows[id := Row(Renamed(rows[id].user, n, now), false)])
  {
    var rows' := rows[id := Row(Renamed(rows[id].user, n, now), false)];
    forall a, b, email | LiveWith(rows', a, email) && LiveWith(rows', b, email) ensures a == b {
      assert LiveWith(rows, a, email) && LiveWith(rows, b, email);
    }
  }

  lemma UpdateKeepsCoherent(s: Store, op: Op)
    requires Coherent(s) && op.Update? && KeepsUp(s, op)
    ensures Coherent(Step(s, op))
  {
    var s' := Step(s, op);
    if op.db && Live(s.rows, op.id) {
      RenamingKeepsKeys(s.rows, op.id, op.names, op.now);
      var u := Renamed(s.rows[op.id].user, op.names, op.now);
      forall email | email in s'.byEmail ensures EmailEntryLags(s'.rows, email, s'.byEmail[email]) {
        if email != u.email {
          assert s'.byEmail[email] == s.byEmail[email];
          assert EmailEntryLags(s.rows, email, s.byEmail[email]);
        }
      }
    }
  }

  lemma StepKeepsCoherent(s: Store, op: Op)
    requires Coherent(s) && KeepsUp(s, op)
    ensures Coherent(Step(s, op))
  {
    match op
    case GetByID(id, _, _, c) => if id in s.rows { CachingKeepsCoherent(s, id, c); }
    case GetByEmail(email, _, _, c) =>
      if !EmailFree(s.rows, email) { CachingKeepsCoherent(s, FindByEmail(s.rows, email).id, c); }
    case GetBatch(ids, unread, _, order, sets) => RefillKeepsCoherent(s, Missing(s, ids, unread), order, sets);
    case Create(id, p, now, _, c) =>
      if id !in s.rows && EmailFree(s.rows, p.email) { NewRowsKeepCoherent(s, id, p, now, c); }
    case CreateWithID(id, p, now, _, c) =>
      if EmailFree(s.rows, p.email) { NewRowsKeepCoherent(s, id, p, now, c); }
    case Update(_, _, _, _, _) => UpdateKeepsCoherent(s, op);
    case VerifyEmail(id, now, _, _) =>
      if Live(s.rows, id) {
        ChangesKeepCoherent(s, id, Row(s.rows[id].user.(verified := true, updatedAt := now), false));
      }
    case Ban(id, reason, now, _, _) =>
      if Live(s.rows, id) {
        ChangesKeepCoherent(s, id, Row(s.rows[id].user.(banned := true, banReason := reason, updatedAt := now), false));
      }
    case Delete(id, now, _, _) =>
      if Live(s.rows, id) { ChangesKeepCoherent(s, id, Row(s.rows[id].user.(updatedAt := now), true)); }
    case ForgetId(_) =>
    case ForgetEmail(_) =>
  }

  /** After every run that keeps up: each id key holds the stored record, and each e-mail key holds the record of a user
      with that address, at most behind in its flags. */
  lemma {:induction false} RunIsCoherent(ops: seq<Op>)
    requires AllKeepUp(ops)
    ensures Coherent(Run(ops))
  {
    if ops != [] {
      RunIsCoherent(ops[..|ops| - 1]);
      StepKeepsCoherent(Run(ops[..|ops| - 1]), ops[|ops| - 1]);
    }
  }
}
