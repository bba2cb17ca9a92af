/** What each write of the user repository makes of the table, field by field, and what a read finds afterwards. */
module UserWrites {
  import opened Basics
  import opened UserStore
  import opened UserReads

  /** The rows of all other users are as they were. */
  predicate OnlyRow(rows: map<string, Row>, rows': map<string, Row>, id: string) {
    rows' - {id} == rows - {id}
  }

  predicate SameFlags(a: User, b: User) {
    a.verified == b.verified && a.banned == b.banned && a.banReason == b.banReason
  }

  predicate SameProfile(a: User, b: User) {
    && a.id == b.id && a.email == b.email && a.firstName == b.firstName && a.lastName == b.lastName
    && a.phone == b.phone && a.role == b.role && a.createdAt == b.createdAt
  }

  predicate HasProfile(u: User, id: string, p: Profile) {
    && u.id == id && u.email == p.email && u.firstName == p.firstName && u.lastName == p.lastName
    && u.phone == p.phone && u.role == p.role
  }

  lemma OtherRowsStay(rows: map<string, Row>, id: string, row: Row)
    ensures OnlyRow(rows, rows[id := row], id)
  {
  }

  /** `Ban` sets the flag, the reason and the time of change of a live user. */
  lemma BanExactly(s: Store, id: string, reason: string, now: Time, db: bool, c: Caching)
    ensures var s' := Step(s, Ban(id, reason, now, db, c));
            && OnlyRow(s.rows, s'.rows, id)
            && (if db && id in s.rows && !s.rows[id].deleted
                then && id in s'.rows && !s'.rows[id].deleted
                     && var u, n := s.rows[id].user, s'.rows[id].user;
                        SameProfile(u, n) && n.verified == u.verified && n.banned && n.banReason == reason
                        && n.updatedAt == now
                else s' == s)
  {
    if id in s.rows { OtherRowsStay(s.rows, id, Step(s, Ban(id, reason, now, db, c)).rows[id]); }
  }

  /** `VerifyEmail` sets the flag and the time of change of a live user. */
  lemma VerifyExactly(s: Store, id: string, now: Time, db: bool, c: Caching)
    ensures var s' := Step(s, VerifyEmail(id, now, db, c));
            && OnlyRow(s.rows, s'.rows, id)
            && (if db && id in s.rows && !s.rows[id].deleted
                then && id in s'.rows && !s'.rows[id].deleted
                     && var u, n := s.rows[id].user, s'.rows[id].user;
                        SameProfile(u, n) && n.verified && n.banned == u.banned && n.banReason == u.banReason
                        && n.updatedAt == now
                else s' == s)
  {
    if id in s.rows { OtherRowsStay(s.rows, id, Step(s, VerifyEmail(id, now, db, c)).rows[id]); }
  }

  /** `Update` sets both names, the phone and the time of change of a live user. */
  lemma UpdateSetsNames(s: Store, id: string, n: Names, now: Time, db: bool, c: Caching)
    ensures var s' := Step(s, Update(id, n, now, db, c));
            && OnlyRow(s.rows, s'.rows, id)
            && (if db && id in s.rows && !s.rows[id].deleted
                then && id in s'.rows && !s'.rows[id].deleted
                     && var u, v := s.rows[id].user, s'.rows[id].user;
                        && v.firstName == n.firstName && v.lastName == n.lastName && v.phone == n.phone
                        && v.id == u.id && v.email == u.email && v.role == u.role && v.createdAt == u.createdAt
                        && SameFlags(u, v) && v.updatedAt == now
                else s' == s)
  {
    if id in s.rows { OtherRowsStay(s.rows, id, Step(s, Update(id, n, now, db, c)).rows[id]); }
  }

  /** `Delete` marks the row of a live user and keeps its data. */
  lemma DeleteExactly(s: Store, id: string, now: Time, db: bool, c: Caching)
    ensures var s' := Step(s, Delete(id, now, db, c));
            && OnlyRow(s.rows, s'.rows, id)
            && (if db && id in s.rows && !s.rows[id].deleted
                then && id in s'.rows && s'.rows[id].deleted
                     && var u, n := s.rows[id].user, s'.rows[id].user;
                        SameProfile(u, n) && SameFlags(u, n) && n.updatedAt == now
                else s' == s)
  {
    if id in s.rows { OtherRowsStay(s.rows, id, Step(s, Delete(id, now, db, c)).rows[id]); }
  }

  /** Some user that is not deleted, other than `id`, has the address. */
  ghost predicate TakenByOther(rows: map<string, Row>, id: string, email: string) {
    exists i :: i in rows && i != id && !rows[i].deleted && rows[i].user.email == email
  }

  /** `Create` and `CreateWithID` on a new id store a fresh user with the given profile, unless a user that is not
      deleted has the address. */
  lemma CreateExactly(s: Store, op: Op)
    requires (op.Create? || op.CreateWithID?) && op.id !in s.rows
    ensures var s' := Step(s, op);
            && OnlyRow(s.rows, s'.rows, op.id)
            && (if op.db && !TakenByOther(s.rows, op.id, op.profile.email)
                then && op.id in s'.rows && !s'.rows[op.id].deleted
                     && var n := s'.rows[op.id].user;
                        && HasProfile(n, op.id, op.profile)
                        && !n.verified && !n.banned && n.banReason == ""
                        && n.createdAt == op.now && n.updatedAt == op.now
                else s' == s)
  {
    FreeExactly(s.rows, op.id, op.profile.email);
    if op.id in Step(s, op).rows { OtherRowsStay(s.rows, op.id, Step(s, op).rows[op.id]); }
  }

  lemma FreeExactly(rows: map<string, Row>, id: string, email: string)
    ensures EmailFree(rows - {id}, email) <==> !TakenByOther(rows, id, email)
    ensures id !in rows ==> (EmailFree(rows, email) <==> !TakenByOther(rows, id, email))
  {
    if TakenByOther(rows, id, email) {
      var i :| i in rows && i != id && !rows[i].deleted && rows[i].user.email == email;
      assert i in rows - {id} && LiveWith(rows - {id}, i, email) && LiveWith(rows, i, email);
    } else {
      forall i | i in rows - {id} ensures !LiveWith(rows - {id}, i, email) {
        assert !(i in rows && i != id && !rows[i].deleted && rows[i].user.email == email);
      }
      if id !in rows {
        forall i | i in rows ensures !LiveWith(rows, i, email) {
          assert !(i in rows && i != id && !rows[i].deleted && rows[i].user.email == email);
        }
      }
    }
  }

  /** `CreateWithID` on a stored id overwrites the profile and keeps flags, time of creation and deletion, unless the
      user is not deleted and another one that is not has the address. */
  lemma OverwriteSetsProfile(s: Store, id: string, p: Profile, now: Time, db: bool, c: Caching)
    requires id in s.rows && s.rows[id].user.id == id
    ensures var s' := Step(s, CreateWithID(id, p, now, db, c));
            && OnlyRow(s.rows, s'.rows, id)
            && (if db && (s.rows[id].deleted || !TakenByOther(s.rows, id, p.email))
                then && id in s'.rows && s'.rows[id].deleted == s.rows[id].deleted
                     && var u, n := s.rows[id].user, s'.rows[id].user;
                        && HasProfile(n, id, p) && SameFlags(u, n) && n.createdAt == u.createdAt && n.updatedAt == now
                else s' == s)
  {
    FreeExactly(s.rows, id, p.email);
    OtherRowsStay(s.rows, id, Step(s, CreateWithID(id, p, now, db, c)).rows[id]);
  }

  /** Reads, clearing of keys and batches leave the table alone. */
  lemma ReadsKeepRows(s: Store, op: Op)
    requires op.GetByID? || op.GetByEmail? || op.GetBatch? || op.ForgetId? || op.ForgetEmail?
    ensures Step(s, op).rows == s.rows
  {
    if op.GetBatch? { RefillKeepsRows(s, Missing(s, op.ids, op.unread), op.order, op.sets); }
  }

  /** The two keys of a user after commands to delete and to set them, each of which may be lost. */
  predicate KeysSet(s: Store, s': Store, u: User, del: bool, c: Caching) {
    && s'.byId == (if c.setId then s.byId[u.id := u] else if del then s.byId - {u.id} else s.byId)
    && s'.byEmail == (if c.setEmail then s.byEmail[u.email := u] else if del then s.byEmail - {u.email} else s.byEmail)
  }

  /** What the writes do to the cache when they reach the table: creating sets both keys of the user, updating deletes
      both and sets both, verifying and banning delete the id key, deleting deletes both; no other key changes. */
  lemma WritesKeepOtherKeys(s: Store, op: Op)
    requires OwnKeys(s) && (op.Create? || op.CreateWithID? || op.Update? || op.VerifyEmail? || op.Ban? || op.Delete?)
    requires Step(s, op) != s
    ensures var s' := Step(s, op);
            && op.id in s'.rows
            && var u := s'.rows[op.id].user;
               && (op.Create? || op.CreateWithID? ==> KeysSet(s, s', u, false, op.c))
               && (op.Update? ==> KeysSet(s, s', u, op.c.del, op.c))
               && (op.VerifyEmail? || op.Ban? ==>
                     s'.byId == (if op.c.del then s.byId - {op.id} else s.byId) && s'.byEmail == s.byEmail)
               && (op.Delete? ==> KeysSet(s, s', u, op.c.del, Caching(op.c.del, false, false)))
  {
    if op.Create? || op.CreateWithID? { InsertSetsKeys(s, op); } else { ChangeSetsKeys(s, op); }
  }

  lemma InsertSetsKeys(s: Store, op: Op)
    requires OwnKeys(s) && (op.Create? || op.CreateWithID?) && Step(s, op) != s
    ensures op.id in Step(s, op).rows && KeysSet(s, Step(s, op), Step(s, op).rows[op.id].user, false, op.c)
  {
  }

  lemma ChangeSetsKeys(s: Store, op: Op)
    requires OwnKeys(s) && (op.Update? || op.VerifyEmail? || op.Ban? || op.Delete?) && Step(s, op) != s
    ensures var s' := Step(s, op);
            && op.id in s'.rows
            && var u := s'.rows[op.id].user;
               && (op.Update? ==> KeysSet(s, s', u, op.c.del, op.c))
               && (op.VerifyEmail? || op.Ban? ==>
                     s'.byId == (if op.c.del then s.byId - {op.id} else s.byId) && s'.byEmail == s.byEmail)
               && (op.Delete? ==> KeysSet(s, s', u, op.c.del, Caching(op.c.del, false, false)))
  {
  }

  /** A read that misses its key and finds the user sets both keys of that user, and a read that does not leaves the
      cache alone. */
  lemma ReadsSetKeys(s: Store, op: Op)
    requires Keyed(s.rows) && (op.GetByID? || op.GetByEmail?)
    ensures var s' := Step(s, op);
            var hit := op.hit && if op.GetByID? then op.id in s.byId else op.email in s.byEmail;
            var r := if op.GetByID? then ReadByID(s, op.id, false, op.db) else ReadByEmail(s, op.email, false, op.db);
            s'.rows == s.rows && if !hit && r.Ok? then KeysSet(s, s', r.value, false, op.c) else s' == s
  {
  }

  /** A batch sets both keys of exactly the users that the query delivers. */
  lemma {:induction false} BatchSetsKeys(s: Store, missing: set<string>, order: seq<string>, sets: map<string, Caching>)
    requires OwnKeys(s)
    ensures var s' := Refill(s, missing, order, sets);
            && (forall id :: id in s'.byId <==>
                  id in s.byId || (id in order && id in missing && id in s.rows && id in sets && sets[id].setId))
            && (forall email :: email in s'.byEmail <==>
                  email in s.byEmail || SetByBatch(s, missing, order, sets, email))
  {
    if order != [] {
      var front, id := order[..|order| - 1], order[|order| - 1];
      BatchSetsKeys(s, missing, front, sets);
      assert order == front + [id];
      forall email ensures SetByBatch(s, missing, order, sets, email) <==>
          SetByBatch(s, missing, front, sets, email) || SetFor(s, missing, sets, id, email)
      {
        if i :| i in front && SetFor(s, missing, sets, i, email) { assert i in order; }
        if SetFor(s, missing, sets, id, email) { assert id in order; }
      }
    }
  }

  predicate SetFor(s: Store, missing: set<string>, sets: map<string, Caching>, id: string, email: string) {
    id in missing && id in s.rows && id in sets && sets[id].setEmail && s.rows[id].user.email == email
  }

  ghost predicate SetByBatch(s: Store, missing: set<string>, order: seq<string>, sets: map<string, Caching>,
                             email: string)
  {
    exists id :: id in order && SetFor(s, missing, sets, id, email)
  }

  /** A key that expires or is cleared is gone, and no other. */
  lemma ForgettingExactly(s: Store, id: string, email: string)
    ensures var s' := Step(s, ForgetId(id));
            s'.rows == s.rows && s'.byEmail == s.byEmail && id !in s'.byId && s'.byId == s.byId - {id}
    ensures var s' := Step(s, ForgetEmail(email));
            s'.rows == s.rows && s'.byId == s.byId && email !in s'.byEmail && s'.byEmail == s.byEmail - {email}
  {
  }

  lemma {:induction false} RefillKeepsRows(s: Store, missing: set<string>, order: seq<string>,
                                           sets: map<string, Caching>)
    ensures Refill(s, missing, order, sets).rows == s.rows
  {
    if order != [] { RefillKeepsRows(s, missing, order[..|order| - 1], sets); }
  }

  /** A read by id that misses the cache, case by case. */
  lemma DirectReadExactly(s: Store, id: string, db: bool)
    ensures var r := ReadByID(s, id, false, db);
            && (r == Err(InvalidInput) <==> id == "")
            && (r == Err(DatabaseError) <==> id != "" && !db)
            && (r == Err(UserNotFound) <==> id != "" && db && !(id in s.rows && !s.rows[id].deleted))
            && (r.Ok? <==> id != "" && db && id in s.rows && !s.rows[id].deleted)
            && (r.Ok? ==> r.value == s.rows[id].user)
  {
  }

  /** A read that finds its key answers the entry, whatever the table holds, and asks no database. */
  lemma CachedReadsExactly(s: Store, id: string, email: string, db: bool)
    ensures id != "" && id in s.byId ==> ReadByID(s, id, true, db) == Ok(s.byId[id])
    ensures id !in s.byId ==> ReadByID(s, id, true, db) == ReadByID(s, id, false, db)
    ensures email != "" && email in s.byEmail ==> ReadByEmail(s, email, true, db) == Ok(s.byEmail[email])
    ensures email !in s.byEmail ==> ReadByEmail(s, email, true, db) == ReadByEmail(s, email, false, db)
  {
  }

  /** A read by address that misses the cache finds the user that is not deleted and has it. */
  lemma DirectReadByEmailExactly(s: Store, email: string, db: bool)
    requires Keyed(s.rows)
    ensures var r := ReadByEmail(s, email, false, db);
            var taken := exists i :: i in s.rows && !s.rows[i].deleted && s.rows[i].user.email == email;
            && (r == Err(InvalidInput) <==> email == "")
            && (r == Err(DatabaseError) <==> email != "" && !db)
            && (r == Err(UserNotFound) <==> email != "" && db && !taken)
            && (r.Ok? <==> email != "" && db && taken)
            && (r.Ok? ==> r.value.id in s.rows && !s.rows[r.value.id].deleted && r.value.email == email
                          && s.rows[r.value.id].user == r.value)
  {
    if i :| i in s.rows && !s.rows[i].deleted && s.rows[i].user.email == email {
      assert LiveWith(s.rows, i, email);
    } else {
      forall i | i in s.rows ensures !LiveWith(s.rows, i, email) {
        assert !(!s.rows[i].deleted && s.rows[i].user.email == email);
      }
    }
    if !EmailFree(s.rows, email) { FoundIsLive(s.rows, email); }
  }

  /** After a ban that reached the table and dropped its key, a read by id finds the user banned for that reason,
      whether or not it uses the cache, and otherwise as the user was. */
  lemma BannedUserIsSeen(s: Store, id: string, reason: string, now: Time, c: Caching, hit: bool)
    requires id != "" && id in s.rows && !s.rows[id].deleted && c.del
    ensures var s' := Step(s, Ban(id, reason, now, true, c));
            var r := ReadByID(s', id, hit, true);
            && r.Ok? && r.value.banned && r.value.banReason == reason
            && r.value.verified == s.rows[id].user.verified && SameProfile(s.rows[id].user, r.value)
  {
    BanExactly(s, id, reason, now, true, c);
  }

  /** The same for a verified address. */
  lemma VerifiedUserIsSeen(s: Store, id: string, now: Time, c: Caching, hit: bool)
    requires id != "" && id in s.rows && !s.rows[id].deleted && c.del
    ensures var s' := Step(s, VerifyEmail(id, now, true, c));
            var r := ReadByID(s', id, hit, true);
            && r.Ok? && r.value.verified && r.value.banned == s.rows[id].user.banned
            && r.value.banReason == s.rows[id].user.banReason && SameProfile(s.rows[id].user, r.value)
  {
    VerifyExactly(s, id, now, true, c);
  }

  /** After a deletion that dropped its key, a read by id finds nobody. */
  lemma DeletedUserIsGone(s: Store, id: string, now: Time, c: Caching, hit: bool)
    requires id != "" && id in s.rows && !s.rows[id].deleted && c.del
    ensures ReadByID(Step(s, Delete(id, now, true, c)), id, hit, true) == Err(UserNotFound)
  {
    DeleteExactly(s, id, now, true, c);
  }

  /** On every serial run whose writes keep the id keys, a read by id finds the stored user, cached or not. */
  lemma WritesAreSeen(ops: seq<Op>, id: string, hit: bool)
    requires AllKeepIdKeys(ops) && id != "" && id in Run(ops).rows && !Run(ops).rows[id].deleted
    ensures ReadByID(Run(ops), id, hit, true) == Ok(Run(ops).rows[id].user)
  {
    RunKeepsIds(ops);
  }
}
