/** What the reads of the user repository return, against the users table; and exactly when a write leaves a cache key
    wrong. */
module UserReads {
  import opened Basics
  import opened UserStore

  // ---------------------------------------------------------------- reads

  function ReadByID(s: Store, id: string, hit: bool, db: bool): Result<User, Error> {
    if id == "" then Err(InvalidInput)
    else if hit && id in s.byId then Ok(s.byId[id])
    else if !db then Err(DatabaseError)
    else if Live(s.rows, id) then Ok(s.rows[id].user)
    else Err(UserNotFound)
  }

  ghost function ReadByEmail(s: Store, email: string, hit: bool, db: bool): Result<User, Error> {
    if email == "" then Err(InvalidInput)
    else if hit && email in s.byEmail then Ok(s.byEmail[email])
    else if !db then Err(DatabaseError)
    else if EmailFree(s.rows, email) then Err(UserNotFound)
    else Ok(FindByEmail(s.rows, email))
  }

  /** Equal answers, except that the first may lag behind the second in the flags. */
  predicate SameOrLagging(cached: Result<User, Error>, direct: Result<User, Error>) {
    if cached.Ok? && direct.Ok? then LagsBehind(cached.value, direct.value) else cached == direct
  }

  /** A read by id through the cache equals the direct read, except exactly for a deleted user whose key is filled. */
  lemma CachedReadByIdExactly(s: Store, id: string)
    requires Coherent(s) && id != ""
    ensures ReadByID(s, id, true, true) == ReadByID(s, id, false, true) <==> !(id in s.byId && s.rows[id].deleted)
  {
  }

  /** Every `GetBatch` asks only for users that are not deleted at that time. */
  ghost predicate BatchesOfLiveUsers(ops: seq<Op>) {
    ops == [] ||
    (var before, op := ops[..|ops| - 1], ops[|ops| - 1];
     && BatchesOfLiveUsers(before)
     && (op.GetBatch? ==> forall id | id in op.ids && id in Run(before).rows :: Live(Run(before).rows, id)))
  }

  ghost predicate OnlyLiveCached(s: Store) {
    && (forall id | id in s.byId :: Live(s.rows, id))
    && (forall email | email in s.byEmail :: Live(s.rows, s.byEmail[email].id))
  }

  lemma {:induction false} RefillCachesLive(s: Store, missing: set<string>, order: seq<string>,
                                            sets: map<string, Caching>)
    requires Coherent(s) && OnlyLiveCached(s)
    requires forall id | id in missing && id in s.rows :: Live(s.rows, id)
    ensures OnlyLiveCached(Refill(s, missing, order, sets))
  {
    if order != [] {
      RefillCachesLive(s, missing, order[..|order| - 1], sets);
      RefillKeepsCoherent(s, missing, order[..|order| - 1], sets);
    }
  }

  lemma DeleteKeepsLive(s: Store, op: Op)
    requires Coherent(s) && OnlyLiveCached(s) && op.Delete? && KeepsUp(s, op)
    ensures OnlyLiveCached(Step(s, op))
  {
    var s' := Step(s, op);
    if op.db && Live(s.rows, op.id) {
      var dead := s.rows[op.id].user.email;
      forall email | email in s'.byEmail ensures Live(s'.rows, s'.byEmail[email].id) {
        assert email != dead && EmailEntryLags(s.rows, email, s.byEmail[email]);
      }
    }
  }

  lemma FoundIsLive(rows: map<string, Row>, email: string)
    requires Keyed(rows) && !EmailFree(rows, email)
    ensures LiveWith(rows, FindByEmail(rows, email).id, email)
    ensures rows[FindByEmail(rows, email).id].user == FindByEmail(rows, email)
  {
  }

  lemma CachingKeepsLive(s: Store, u: User, c: Caching)
    requires OnlyLiveCached(s) && Live(s.rows, u.id)
    ensures OnlyLiveCached(Cached(s, u, c))
  {
  }

  lemma ChangesKeepLive(s: Store, id: string, row: Row, del: bool)
    requires OnlyLiveCached(s) && !row.deleted
    ensures OnlyLiveCached(Changed(s, id, row, del))
  {
  }

  lemma InsertKeepsLive(s: Store, id: string, p: Profile, now: Time, c: Caching)
    requires OnlyLiveCached(s)
    ensures OnlyLiveCached(Insert(s, id, p, now, c))
  {
    CachingKeepsLive(s.(rows := s.rows[id := Row(NewUser(id, p, now), false)]), NewUser(id, p, now), c);
  }

  lemma StepCachesLive(s: Store, op: Op)
    requires Coherent(s) && OnlyLiveCached(s) && KeepsUp(s, op)
    requires op.GetBatch? ==> forall id | id in op.ids && id in s.rows :: Live(s.rows, id)
    ensures OnlyLiveCached(Step(s, op))
  {
    match op
    case GetByID(id, _, _, c) => if Live(s.rows, id) { CachingKeepsLive(s, s.rows[id].user, c); }
    case GetByEmail(email, _, _, c) =>
      if !EmailFree(s.rows, email) {
        FoundIsLive(s.rows, email);
        CachingKeepsLive(s, FindByEmail(s.rows, email), c);
      }
    case GetBatch(ids, unread, _, order, sets) => RefillCachesLive(s, Missing(s, ids, unread), order, sets);
    case Create(id, p, now, _, c) => InsertKeepsLive(s, id, p, now, c);
    case CreateWithID(id, p, now, _, c) => InsertKeepsLive(s, id, p, now, c);
    case Update(id, n, now, _, c) =>
      if Live(s.rows, id) {
        var u := Renamed(s.rows[id].user, n, now);
        ChangesKeepLive(s, id, Row(u, false), c.del);
        CachingKeepsLive(DropEmail(Changed(s, id, Row(u, false), c.del), u.email, c.del), u, c);
      }
    case VerifyEmail(id, now, _, c) =>
      if Live(s.rows, id) {
        ChangesKeepLive(s, id, Row(s.rows[id].user.(verified := true, updatedAt := now), false), c.del);
      }
    case Ban(id, reason, now, _, c) =>
      if Live(s.rows, id) {
        ChangesKeepLive(s, id, Row(s.rows[id].user.(banned := true, banReason := reason, updatedAt := now), false),
                        c.del);
      }
    case Delete(_, _, _, _) => DeleteKeepsLive(s, op);
    case ForgetId(_) =>
    case ForgetEmail(_) =>
  }

  lemma {:induction false} RunCachesLive(ops: seq<Op>)
    requires AllKeepUp(ops) && BatchesOfLiveUsers(ops)
    ensures OnlyLiveCached(Run(ops))
  {
    if ops != [] {
      RunCachesLive(ops[..|ops| - 1]);
      RunIsCoherent(ops[..|ops| - 1]);
      StepCachesLive(Run(ops[..|ops| - 1]), ops[|ops| - 1]);
    }
  }

  /** As long as batches ask for users that are not deleted, reads by id equal direct reads of the table, and reads by
      address find the same user, at most with lagging flags. */
  lemma ReadsEqualDatabase(ops: seq<Op>, id: string, email: string)
    requires AllKeepUp(ops) && BatchesOfLiveUsers(ops)
    ensures var s := Run(ops);
            && ReadByID(s, id, true, true) == ReadByID(s, id, false, true)
            && SameOrLagging(ReadByEmail(s, email, true, true), ReadByEmail(s, email, false, true))
  {
    var s := Run(ops);
    RunIsCoherent(ops);
    RunCachesLive(ops);
    if email in s.byEmail {
      var u := s.byEmail[email];
      assert EmailEntryLags(s.rows, email, u);
      assert LiveWith(s.rows, u.id, email);
      FoundIsLive(s.rows, email);
    }
  }

  /** A batch that names a deleted user fills its key again, and `GetByID` finds the user that the table has deleted. */
  lemma DeletedUserReturns(id: string, p: Profile, c: Caching)
    requires id != "" && c == Caching(true, true, true)
    ensures var ops := [Create(id, p, 1, true, c), Delete(id, 2, true, c),
                        GetBatch([id], {}, true, [id], map[id := c])];
            && AllKeepUp(ops)
            && ReadByID(Run(ops), id, false, true) == Err(UserNotFound)
            && ReadByID(Run(ops), id, true, true).Ok?
  {
    var o1, o2, o3 := Create(id, p, 1, true, c), Delete(id, 2, true, c), GetBatch([id], {}, true, [id], map[id := c]);
    var ops := [o1, o2, o3];
    assert ops[..2] == [o1, o2] && [o1, o2][..1] == [o1] && [o1][..0] == [];
    var s1 := Step(Run([]), o1);
    assert AllKeepUp([]) && KeepsUp(Run([]), o1);
    assert Run([o1]) == s1 && AllKeepUp([o1]);
    var s2 := Step(s1, o2);
    assert Run([o1, o2]) == s2 && AllKeepUp([o1, o2]);
    assert id in s2.rows && s2.rows[id].deleted && id !in s2.byId;
    assert [id][..0] == [];
    assert Refill(s2, {id}, [], map[id := c]) == s2;
    assert Missing(s2, [id], {}) == {id};
    assert Run(ops) == Refill(s2, {id}, [id], map[id := c]);
  }

  // ---------------------------------------------------------------- deleted users, exactly

  /** Through the cache `GetByID` finds the user, while the table has deleted it. */
  predicate FindsDeleted(s: Store, id: string) {
    ReadByID(s, id, true, true).Ok? && ReadByID(s, id, false, true) == Err(UserNotFound)
  }

  /** The operation fills the id key of a deleted user, or deletes the user and loses the deletion of the key. */
  predicate BringsBack(s: Store, op: Op, id: string) {
    && id != "" && id in s.rows
    && match op
       case GetBatch(ids, unread, db, order, sets) =>
         db && s.rows[id].deleted && id in Missing(s, ids, unread) && id in order && id in sets && sets[id].setId
       case CreateWithID(i, _, _, db, c) => db && s.rows[id].deleted && i == id && c.setId
       case Delete(i, _, db, c) => db && !s.rows[id].deleted && i == id && id in s.byId && !c.del
       case _ => false
  }

  /** Rows are stored under their own ids, and no id key names a user that was never stored. */
  ghost predicate OwnKeys(s: Store) {
    (forall id | id in s.rows :: s.rows[id].user.id == id) && s.byId.Keys <= s.rows.Keys
  }

  lemma {:induction false} RefillFills(s: Store, missing: set<string>, order: seq<string>, sets: map<string, Caching>,
                                       id: string)
    requires OwnKeys(s)
    ensures var s' := Refill(s, missing, order, sets);
            && s'.rows == s.rows && OwnKeys(s')
            && (id in s'.byId <==>
                  id in s.byId || (id in missing && id in s.rows && id in order && id in sets && sets[id].setId))
  {
    if order != [] {
      RefillFills(s, missing, order[..|order| - 1], sets, id);
      assert order == order[..|order| - 1] + [order[|order| - 1]];
    }
  }

  ghost predicate BringsBackJust(s: Store, op: Op, id: string, s': Store) {
    OwnKeys(s') && (!FindsDeleted(s, id) ==> (FindsDeleted(s', id) <==> BringsBack(s, op, id)))
  }

  /** One operation makes reads find a deleted user exactly when it is such an operation. */
  lemma BringsBackExactly(s: Store, op: Op, id: string)
    requires OwnKeys(s)
    ensures BringsBackJust(s, op, id, Step(s, op))
  {
    match op
    case GetByID(_, _, _, _) => ReadBringsBack(s, op, id);
    case GetByEmail(_, _, _, _) => ReadBringsBack(s, op, id);
    case GetBatch(ids, unread, db, order, sets) => RefillFills(s, Missing(s, ids, unread), order, sets, id);
    case Create(_, _, _, _, _) => InsertBringsBack(s, op, id);
    case CreateWithID(_, _, _, _, _) => InsertBringsBack(s, op, id);
    case Update(_, _, _, _, _) => UpdateBringsBack(s, op, id);
    case ForgetId(_) =>
    case ForgetEmail(_) =>
    case _ => MarkBringsBack(s, op, id);
  }

  lemma ReadBringsBack(s: Store, op: Op, id: string)
    requires OwnKeys(s) && (op.GetByID? || op.GetByEmail?)
    ensures BringsBackJust(s, op, id, Step(s, op))
  {
    if op.GetByEmail? && !EmailFree(s.rows, op.email) {
      var u := FindByEmail(s.rows, op.email);
      var owner :| LiveWith(s.rows, owner, op.email) && u == s.rows[owner].user;
      assert u.id == owner;
    }
  }

  lemma InsertBringsBack(s: Store, op: Op, id: string)
    requires OwnKeys(s) && (op.Create? || op.CreateWithID?)
    ensures BringsBackJust(s, op, id, Step(s, op))
  {
  }

  lemma UpdateBringsBack(s: Store, op: Op, id: string)
    requires OwnKeys(s) && op.Update?
    ensures BringsBackJust(s, op, id, Step(s, op))
  {
  }

  lemma MarkBringsBack(s: Store, op: Op, id: string)
    requires OwnKeys(s) && (op.VerifyEmail? || op.Ban? || op.Delete?)
    ensures BringsBackJust(s, op, id, Step(s, op))
  {
  }

  lemma {:induction false} RunOwnsKeys(ops: seq<Op>)
    ensures OwnKeys(Run(ops))
  {
    if ops != [] {
      RunOwnsKeys(ops[..|ops| - 1]);
      BringsBackExactly(Run(ops[..|ops| - 1]), ops[|ops| - 1], "");
    }
  }

  ghost predicate FoundDeletedAt(ops: seq<Op>, id: string, n: nat) {
    n <= |ops| && FindsDeleted(Run(ops[..n]), id)
  }

  ghost predicate BroughtBackAt(ops: seq<Op>, id: string, n: nat) {
    n < |ops| && BringsBack(Run(ops[..n]), ops[n], id)
  }

  /** In a serial run some read by id finds a deleted user exactly when at some point a batch or a `CreateWithID` fills
      the key of a deleted user, or a deletion loses the command that drops the key. */
  lemma DeletedFoundExactly(ops: seq<Op>, id: string)
    ensures (exists n: nat :: FoundDeletedAt(ops, id, n)) <==> (exists n: nat :: BroughtBackAt(ops, id, n))
  {
    if n: nat :| FoundDeletedAt(ops, id, n) { FoundWasBroughtBack(ops, id, n); }
    if n: nat :| BroughtBackAt(ops, id, n) {
      RunOwnsKeys(ops[..n]);
      NextRun(ops, n);
      BringsBackExactly(Run(ops[..n]), ops[n], id);
      assert FoundDeletedAt(ops, id, n) || FoundDeletedAt(ops, id, n + 1);
    }
  }

  lemma NextRun(ops: seq<Op>, n: nat)
    requires n < |ops|
    ensures Run(ops[..n + 1]) == Step(Run(ops[..n]), ops[n])
  {
    assert ops[..n + 1][..n] == ops[..n];
  }

  lemma {:induction false} FoundWasBroughtBack(ops: seq<Op>, id: string, n: nat)
    requires FoundDeletedAt(ops, id, n)
    ensures exists k: nat :: BroughtBackAt(ops, id, k)
  {
    if n > 0 {
      NextRun(ops, n - 1);
      RunOwnsKeys(ops[..n - 1]);
      BringsBackExactly(Run(ops[..n - 1]), ops[n - 1], id);
      if FoundDeletedAt(ops, id, n - 1) {
        FoundWasBroughtBack(ops, id, n - 1);
      } else {
        assert BroughtBackAt(ops, id, n - 1);
      }
    }
  }

  // ---------------------------------------------------------------- batches

  /** The records found under their id keys, in the order of the request. */
  function Hits(s: Store, ids: seq<string>, unread: set<string>): seq<User> {
    if ids == [] then []
    else
      var n := |ids| - 1;
      Hits(s, ids[..n], unread) + if ids[n] !in unread && ids[n] in s.byId then [s.byId[ids[n]]] else []
  }

  /** An order in which the query may deliver the rows of the missing ids: each stored one once. */
  ghost predicate IsDelivery(s: Store, missing: set<string>, order: seq<string>) {
    && (forall i, j | 0 <= i < j < |order| :: order[i] != order[j])
    && (forall id :: id in order <==> id in missing && id in s.rows)
  }

  function Users(s: Store, order: seq<string>): seq<User>
    requires forall id | id in order :: id in s.rows
  {
    seq(|order|, i requires 0 <= i < |order| => assert order[i] in order; s.rows[order[i]].user)
  }

  ghost predicate RequestedUser(s: Store, ids: seq<string>, u: User) {
    exists id :: id in ids && id in s.rows && u == s.rows[id].user
  }

  lemma {:induction false} HitsAreExact(s: Store, ids: seq<string>, unread: set<string>, u: User)
    requires IdKeysMatch(s)
    ensures u in Hits(s, ids, unread) <==>
        exists id :: id in ids && id !in unread && id in s.byId && u == s.rows[id].user
  {
    if ids != [] {
      var n := |ids| - 1;
      HitsAreExact(s, ids[..n], unread, u);
      assert ids == ids[..n] + [ids[n]];
      if id :| id in ids && id !in unread && id in s.byId && u == s.rows[id].user {
        assert id in ids[..n] || id == ids[n];
      }
    }
  }

  /** Whatever part of the request is cached and in whatever order the rest arrives: a batch holds, as a set, exactly
      the stored users (deleted ones too) among the requested ids. */
  lemma BatchIsExact(s: Store, ids: seq<string>, unread: set<string>, order: seq<string>, u: User)
    requires IdKeysMatch(s) && IsDelivery(s, Missing(s, ids, unread), order)
    ensures u in Hits(s, ids, unread) + Users(s, order) <==> RequestedUser(s, ids, u)
  {
    HitsAreExact(s, ids, unread, u);
    var users := Users(s, order);
    assert u in users <==> exists i :: 0 <= i < |order| && users[i] == u;
    if i :| 0 <= i < |order| && users[i] == u {
      assert order[i] in order && RequestedUser(s, ids, u);
    }
    if RequestedUser(s, ids, u) {
      var id :| id in ids && id in s.rows && u == s.rows[id].user;
      if id in Missing(s, ids, unread) {
        var i :| 0 <= i < |order| && order[i] == id;
        assert users[i] == u;
      }
    }
  }

  lemma BatchesAreExact(s: Store, ids: seq<string>, unread: set<string>, order: seq<string>)
    requires IdKeysMatch(s) && IsDelivery(s, Missing(s, ids, unread), order)
    ensures forall u :: u in Hits(s, ids, unread) + Users(s, order) <==> RequestedUser(s, ids, u)
  {
    forall u ensures u in Hits(s, ids, unread) + Users(s, order) <==> RequestedUser(s, ids, u) {
      BatchIsExact(s, ids, unread, order, u);
    }
  }

  // ---------------------------------------------------------------- batches after any run

  /** A write that reaches the table deletes or sets the id key of its user, or finds it empty. E-mail keys do not
      matter, and overwriting a user by `CreateWithID` is allowed. */
  predicate KeepsIdKey(s: Store, op: Op) {
    match op
    case CreateWithID(id, _, _, db, c) => db ==> c.setId || id !in s.byId
    case Update(id, _, _, db, c) => db ==> c.del || c.setId || id !in s.byId
    case VerifyEmail(id, _, db, c) => db ==> c.del || id !in s.byId
    case Ban(id, _, _, db, c) => db ==> c.del || id !in s.byId
    case Delete(id, _, db, c) => db ==> c.del || id !in s.byId
    case _ => true
  }

  ghost predicate AllKeepIdKeys(ops: seq<Op>) {
    ops == [] || (AllKeepIdKeys(ops[..|ops| - 1]) && KeepsIdKey(Run(ops[..|ops| - 1]), ops[|ops| - 1]))
  }

  ghost predicate IdsRight(s: Store) {
    (forall id | id in s.rows :: s.rows[id].user.id == id) && IdKeysMatch(s)
  }

  lemma CachingKeepsIds(s: Store, id: string, c: Caching)
    requires IdsRight(s) && id in s.rows
    ensures IdsRight(Cached(s, s.rows[id].user, c))
  {
  }

  lemma {:induction false} RefillKeepsIds(s: Store, missing: set<string>, order: seq<string>,
                                          sets: map<string, Caching>)
    requires IdsRight(s)
    ensures IdsRight(Refill(s, missing, order, sets)) && Refill(s, missing, order, sets).rows == s.rows
  {
    if order != [] {
      var id := order[|order| - 1];
      RefillKeepsIds(s, missing, order[..|order| - 1], sets);
      if id in missing && id in s.rows && id in sets {
        CachingKeepsIds(Refill(s, missing, order[..|order| - 1], sets), id, sets[id]);
      }
    }
  }

  lemma PutKeepsIds(s: Store, id: string, row: Row, c: Caching)
    requires IdsRight(s) && row.user.id == id && (c.setId || id !in s.byId)
    ensures IdsRight(Cached(s.(rows := s.rows[id := row]), row.user, c))
  {
  }

  lemma ChangeKeepsIds(s: Store, id: string, row: Row, del: bool)
    requires IdsRight(s) && row.user.id == id && (del || id !in s.byId)
    ensures IdsRight(Changed(s, id, row, del))
  {
  }

  lemma UpdateKeepsIds(s: Store, id: string, n: Names, now: Time, c: Caching)
    requires IdsRight(s) && Live(s.rows, id) && (c.del || c.setId || id !in s.byId)
    ensures IdsRight(Step(s, Update(id, n, now, true, c)))
  {
    var row := Row(Renamed(s.rows[id].user, n, now), false);
    if c.del || id !in s.byId {
      ChangeKeepsIds(s, id, row, c.del);
      CachingKeepsIds(DropEmail(Changed(s, id, row, c.del), row.user.email, c.del), id, c);
    } else {
      PutKeepsIds(s, id, row, c);
    }
  }

  lemma StepKeepsIds(s: Store, op: Op)
    requires IdsRight(s) && KeepsIdKey(s, op)
    ensures IdsRight(Step(s, op))
  {
    match op
    case GetByID(id, _, _, c) => if id in s.rows { CachingKeepsIds(s, id, c); }
    case GetByEmail(email, _, _, c) =>
      if !EmailFree(s.rows, email) { CachingKeepsIds(s, FindByEmail(s.rows, email).id, c); }
    case GetBatch(ids, unread, _, order, sets) => RefillKeepsIds(s, Missing(s, ids, unread), order, sets);
    case Create(id, p, now, db, c) => if id !in s.rows { PutKeepsIds(s, id, Row(NewUser(id, p, now), false), c); }
    case CreateWithID(id, p, now, db, c) =>
      if db {
        PutKeepsIds(s, id, Row(NewUser(id, p, now), false), c);
        if id in s.rows { PutKeepsIds(s, id, Row(Overwritten(s.rows[id].user, p, now), s.rows[id].deleted), c); }
      }
    case Update(id, n, now, db, c) => if db && Live(s.rows, id) { UpdateKeepsIds(s, id, n, now, c); }
    case VerifyEmail(id, now, db, c) =>
      if db && Live(s.rows, id) {
        ChangeKeepsIds(s, id, Row(s.rows[id].user.(verified := true, updatedAt := now), false), c.del);
      }
    case Ban(id, reason, now, db, c) =>
      if db && Live(s.rows, id) {
        ChangeKeepsIds(s, id, Row(s.rows[id].user.(banned := true, banReason := reason, updatedAt := now), false),
                       c.del);
      }
    case Delete(id, now, db, c) =>
      if db && Live(s.rows, id) { ChangeKeepsIds(s, id, Row(s.rows[id].user.(updatedAt := now), true), c.del); }
    case ForgetId(_) =>
    case ForgetEmail(_) =>
  }

  lemma {:induction false} RunKeepsIds(ops: seq<Op>)
    requires AllKeepIdKeys(ops)
    ensures IdsRight(Run(ops))
  {
    if ops != [] {
      RunKeepsIds(ops[..|ops| - 1]);
      StepKeepsIds(Run(ops[..|ops| - 1]), ops[|ops| - 1]);
    }
  }

  /** Whatever operations filled the cache, as long as no write leaves a filled id key standing: a batch holds, as a
      set, exactly the stored users among the requested ids. */
  lemma BatchAfterRun(ops: seq<Op>, ids: seq<string>, unread: set<string>, order: seq<string>, u: User)
    requires AllKeepIdKeys(ops) && IsDelivery(Run(ops), Missing(Run(ops), ids, unread), order)
    ensures var s := Run(ops); u in Hits(s, ids, unread) + Users(s, order) <==> RequestedUser(s, ids, u)
  {
    RunKeepsIds(ops);
    BatchIsExact(Run(ops), ids, unread, order, u);
  }

  // ---------------------------------------------------------------- exactly when a write leaves a key wrong

  /** `VerifyEmail` on a stored user: the keys stay right exactly when the id key is deleted, was empty, or had nothing
      to lose. */
  lemma VerifyEmailExactly(s: Store, id: string, now: Time, c: Caching)
    requires Coherent(s) && Live(s.rows, id)
    ensures var u := s.rows[id].user;
            Coherent(Step(s, VerifyEmail(id, now, true, c))) <==>
                c.del || id !in s.byId || u == u.(verified := true, updatedAt := now)
  {
    var u := s.rows[id].user;
    var row := Row(u.(verified := true, updatedAt := now), false);
    var s' := Step(s, VerifyEmail(id, now, true, c));
    if c.del || id !in s.byId {
      ChangesKeepCoherent(s, id, row);
      assert s.byId - {id} == s'.byId;
    } else if u == row.user {
      assert s.rows[id := row] == s.rows;
    } else {
      assert s'.byId[id] != s'.rows[id].user;
    }
  }

  predicate RenameShows(u: User, n: Names) {
    u.firstName != n.firstName || u.lastName != n.lastName || u.phone != n.phone
  }

  /** `Update` on a stored user: each of the two keys must be deleted or overwritten, unless it was empty, names
      somebody else or already had what was written. */
  lemma UpdateExactly(s: Store, id: string, n: Names, now: Time, c: Caching)
    requires Coherent(s) && Live(s.rows, id)
    ensures var u := s.rows[id].user;
            Coherent(Step(s, Update(id, n, now, true, c))) <==>
                && (c.del || c.setId || id !in s.byId || u == Renamed(u, n, now))
                   && (c.del || c.setEmail || u.email !in s.byEmail || s.byEmail[u.email].id != id
                       || !RenameShows(u, n))
  {
    var u, s' := s.rows[id].user, Step(s, Update(id, n, now, true, c));
    assert s'.rows == s.rows[id := Row(Renamed(u, n, now), false)];
    RenamingKeepsKeys(s.rows, id, n, now);
    UpdatedIdKey(s, id, n, now, c);
    UpdatedEmailKeys(s, id, n, now, c);
  }

  lemma UpdatedIdKey(s: Store, id: string, n: Names, now: Time, c: Caching)
    requires Coherent(s) && Live(s.rows, id)
    ensures var u := s.rows[id].user;
            IdKeysMatch(Step(s, Update(id, n, now, true, c))) <==>
                c.del || c.setId || id !in s.byId || u == Renamed(u, n, now)
  {
    var s' := Step(s, Update(id, n, now, true, c));
    if !c.del && !c.setId && id in s.byId {
      assert s'.byId[id] == s.rows[id].user && s'.rows[id].user == Renamed(s.rows[id].user, n, now);
    }
  }

  lemma UpdatedEmailKeys(s: Store, id: string, n: Names, now: Time, c: Caching)
    requires Coherent(s) && Live(s.rows, id)
    ensures var u := s.rows[id].user;
            EmailKeysLag(Step(s, Update(id, n, now, true, c))) <==>
                c.del || c.setEmail || u.email !in s.byEmail || s.byEmail[u.email].id != id || !RenameShows(u, n)
  {
    var u, s' := s.rows[id].user, Step(s, Update(id, n, now, true, c));
    forall email | email in s'.byEmail && email != u.email
      ensures EmailEntryLags(s'.rows, email, s'.byEmail[email])
    {
      assert EmailEntryLags(s.rows, email, s.byEmail[email]);
    }
    if u.email in s.byEmail { assert EmailEntryLags(s.rows, u.email, s.byEmail[u.email]); }
    if u.email in s'.byEmail && !c.setEmail {
      assert s'.byEmail[u.email] == s.byEmail[u.email];
      assert EmailEntryLags(s'.rows, u.email, s.byEmail[u.email])
             <==> (s.byEmail[u.email].id == id ==> !RenameShows(u, n));
    }
  }

  predicate ProfileShows(u: User, p: Profile) {
    u.firstName != p.firstName || u.lastName != p.lastName || u.phone != p.phone || u.role != p.role
  }

  /** `CreateWithID` over a stored user deletes no key: the id key must be overwritten, unless it was empty or already
      had what was written; and a key of the old address that names this user is right only if the address stays and
      that key is overwritten or nothing else in it changed. */
  lemma OverwriteExactly(s: Store, id: string, p: Profile, now: Time, c: Caching)
    requires Coherent(s) && id in s.rows && (s.rows[id].deleted || EmailFree(s.rows - {id}, p.email))
    ensures var u := s.rows[id].user;
            Coherent(Step(s, CreateWithID(id, p, now, true, c))) <==>
                && (c.setId || id !in s.byId || u == Overwritten(u, p, now))
                   && (u.email !in s.byEmail || s.byEmail[u.email].id != id
                       || (u.email == p.email && (c.setEmail || !ProfileShows(u, p))))
  {
    var s' := Step(s, CreateWithID(id, p, now, true, c));
    OverwriteKeepsKeys(s, id, p, now);
    OverwrittenIdKeys(s, s', id, p, now, c);
    OverwrittenEmailKeys(s, s', id, p, now, c);
  }

  lemma OverwriteKeepsKeys(s: Store, id: string, p: Profile, now: Time)
    requires Coherent(s) && id in s.rows && (s.rows[id].deleted || EmailFree(s.rows - {id}, p.email))
    ensures Keyed(s.rows[id := Row(Overwritten(s.rows[id].user, p, now), s.rows[id].deleted)])
  {
    var rows := s.rows[id := Row(Overwritten(s.rows[id].user, p, now), s.rows[id].deleted)];
    forall a, b, email | LiveWith(rows, a, email) && LiveWith(rows, b, email) ensures a == b {
      if a != id { assert LiveWith(s.rows, a, email) && LiveWith(s.rows - {id}, a, email); }
      if b != id { assert LiveWith(s.rows, b, email) && LiveWith(s.rows - {id}, b, email); }
    }
  }

  lemma OverwrittenIdKeys(s: Store, s': Store, id: string, p: Profile, now: Time, c: Caching)
    requires Coherent(s) && id in s.rows
    requires var u := Overwritten(s.rows[id].user, p, now);
             s' == Cached(s.(rows := s.rows[id := Row(u, s.rows[id].deleted)]), u, c)
    ensures var u := s.rows[id].user;
            IdKeysMatch(s') <==> c.setId || id !in s.byId || u == Overwritten(u, p, now)
  {
    if !c.setId && id in s.byId { assert s'.byId[id] == s.rows[id].user; }
  }

  lemma OverwrittenEmailKeys(s: Store, s': Store, id: string, p: Profile, now: Time, c: Caching)
    requires Coherent(s) && id in s.rows
    requires var u := Overwritten(s.rows[id].user, p, now);
             s' == Cached(s.(rows := s.rows[id := Row(u, s.rows[id].deleted)]), u, c)
    ensures var was := s.rows[id].user.email;
            EmailKeysLag(s') <==>
                was !in s.byEmail || s.byEmail[was].id != id
                || (was == p.email && (c.setEmail || !ProfileShows(s.rows[id].user, p)))
  {
    var was := s.rows[id].user.email;
    forall email | email in s'.byEmail && (email != p.email || !c.setEmail)
      ensures s'.byEmail[email] == s.byEmail[email] && (s.byEmail[email].id == id ==> email == was)
      ensures EmailEntryLags(s'.rows, email, s'.byEmail[email]) <==>
        s.byEmail[email].id != id || (was == p.email && !ProfileShows(s.rows[id].user, p))
    {
      assert EmailEntryLags(s.rows, email, s.byEmail[email]);
    }
    if c.setEmail { assert EmailEntryLags(s'.rows, p.email, s'.byEmail[p.email]); }
  }
}
