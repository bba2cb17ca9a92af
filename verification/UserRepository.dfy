/** The repository object of services/user-service/internal/repository/user_repository.go, method by method. The replies
    of the database and of the cache, the times and the drawn ids are parameters. */
module UserRepository {
  import opened Basics
  import opened UserStore
  import opened UserReads

  class Repository {
    var rows: map<string, Row>
    var byId: map<string, User>
    var byEmail: map<string, User>

    ghost function View(): Store
      reads this
    {
      Store(rows, byId, byEmail)
    }

    constructor ()
      ensures View() == Run([])
    {
      rows, byId, byEmail := map[], map[], map[];
    }

    method SetCache(u: User, c: Caching)
      modifies this`byId, this`byEmail
      ensures View() == Cached(old(View()), u, c)
    {
      if c.setId {
        byId := byId[u.id := u];
      }
      if c.setEmail {
        byEmail := byEmail[u.email := u];
      }
    }

    method InvalidateCacheByID(id: string, c: Caching)
      modifies this`byId
      ensures byId == if c.del then old(byId) - {id} else old(byId)
    {
      if c.del {
        byId := byId - {id};
      }
    }

    method InvalidateCache(id: string, email: string, c: Caching)
      modifies this`byId, this`byEmail
      ensures byId == if c.del then old(byId) - {id} else old(byId)
      ensures View() == DropEmail(old(View()).(byId := byId), email, c.del)
    {
      if c.del {
        byId := byId - {id};
        byEmail := byEmail - {email};
      }
    }

    method GetByID(id: string, hit: bool, db: bool, c: Caching) returns (r: Result<User, Error>)
      modifies this`byId, this`byEmail
      ensures r == ReadByID(old(View()), id, hit, db)
      ensures View() == Step(old(View()), Op.GetByID(id, hit, db, c))
    {
      if id == "" {
        return Err(InvalidInput);
      }
      if hit && id in byId {
        return Ok(byId[id]);
      }
      if !db {
        return Err(DatabaseError);
      }
      if id !in rows || rows[id].deleted {
        return Err(UserNotFound);
      }
      r := Ok(rows[id].user);
      SetCache(r.value, c);
    }

    method GetByEmail(email: string, hit: bool, db: bool, c: Caching) returns (r: Result<User, Error>)
      requires Keyed(rows)
      modifies this`byId, this`byEmail
      ensures r == ReadByEmail(old(View()), email, hit, db)
      ensures View() == Step(old(View()), Op.GetByEmail(email, hit, db, c))
    {
      if email == "" {
        return Err(InvalidInput);
      }
      if hit && email in byEmail {
        return Ok(byEmail[email]);
      }
      if !db {
        return Err(DatabaseError);
      }
      if EmailFree(rows, email) {
        return Err(UserNotFound);
      }
      var id :| id in rows && LiveWith(rows, id, email);
      FoundIsLive(rows, email);
      assert rows[id].user == FindByEmail(rows, email);
      r := Ok(rows[id].user);
      SetCache(r.value, c);
    }

    /** The first loop of `GetBatch`: what the cache has, and which ids it lacks. */
    method ReadIdKeys(ids: seq<string>, unread: set<string>) returns (hits: seq<User>, missing: seq<string>)
      ensures hits == Hits(View(), ids, unread)
      ensures forall id :: id in missing <==> id in Missing(View(), ids, unread)
    {
      hits, missing := [], [];
      for i := 0 to |ids|
        invariant hits == Hits(View(), ids[..i], unread)
        invariant forall id :: id in missing <==> id in ids[..i] && (id in unread || id !in byId)
      {
        assert ids[..i + 1][..i] == ids[..i] && ids[..i + 1] == ids[..i] + [ids[i]];
        if ids[i] !in unread && ids[i] in byId {
          hits := hits + [byId[ids[i]]];
        } else {
          missing := missing + [ids[i]];
        }
      }
      assert ids[..|ids|] == ids;
    }

    /** The second loop of `GetBatch`: take and cache the rows of the query, in the order in which they come. */
    method FetchRows(ghost missing: set<string>, order: seq<string>, sets: map<string, Caching>)
      returns (users: seq<User>)
      requires forall id | id in order :: id in missing && id in rows
      modifies this`byId, this`byEmail
      ensures users == Users(old(View()), order)
      ensures View() == Refill(old(View()), missing, order, sets)
    {
      users := [];
      assert Users(View(), order)[..0] == [];
      for i := 0 to |order|
        invariant View() == Refill(old(View()), missing, order[..i], sets)
        invariant users == Users(old(View()), order)[..i]
      {
        assert order[..i + 1][..i] == order[..i] && order[i] in order;
        var u := rows[order[i]].user;
        if order[i] in sets {
          SetCache(u, sets[order[i]]);
        }
        users := users + [u];
      }
      assert order[..|order|] == order && Users(old(View()), order)[..|order|] == Users(old(View()), order);
    }

    /** The hits of the cache first, then the rows of the missing ids. When the id keys are right, the result is, as a
        set, what the table holds under the requested ids. When the query breaks off after some rows, these rows are
        cached and the call fails. */
    method GetBatch(ids: seq<string>, unread: set<string>, db: bool, order: seq<string>, complete: bool,
                    sets: map<string, Caching>)
      returns (r: Result<seq<User>, Error>)
      requires forall id | id in order :: id in Missing(View(), ids, unread) && id in rows
      requires complete ==> IsDelivery(View(), Missing(View(), ids, unread), order)
      modifies this`byId, this`byEmail
      ensures r.Err? <==> (!db || !complete) && Missing(old(View()), ids, unread) != {}
      ensures r.Err? ==> r == Err(DatabaseError)
      ensures r.Ok? ==> r.value == Hits(old(View()), ids, unread) + Users(old(View()), order)
      ensures View() == Step(old(View()), Op.GetBatch(ids, unread, db, order, sets))
      ensures IdKeysMatch(old(View())) && r.Ok? ==> forall u :: u in r.value <==> RequestedUser(old(View()), ids, u)
    {
      var hits, missing := ReadIdKeys(ids, unread);
      ghost var absent := Missing(View(), ids, unread);
      if IdKeysMatch(View()) && IsDelivery(View(), absent, order) { BatchesAreExact(View(), ids, unread, order); }
      assert order == [] || (order[0] in order && order[0] in absent);
      if |missing| == 0 {
        assert order == [];
        assert hits == hits + Users(View(), order);
        return Ok(hits);
      }
      assert missing[0] in absent;
      if !db {
        return Err(DatabaseError);
      }
      var users := FetchRows(absent, order, sets);
      if !complete {
        return Err(DatabaseError);
      }
      return Ok(hits + users);
    }

    method Create(id: string, p: Profile, now: Time, db: bool, c: Caching) returns (r: Result<User, Error>)
      requires id !in rows
      modifies this
      ensures View() == Step(old(View()), Op.Create(id, p, now, db, c))
      ensures r == if !db then Err(DatabaseError) else if !EmailFree(old(rows), p.email) then Err(EmailTaken)
                   else Ok(rows[id].user)
    {
      if !db {
        return Err(DatabaseError);
      }
      if !EmailFree(rows, p.email) {
        return Err(EmailTaken);
      }
      var u := NewUser(id, p, now);
      rows := rows[id := Row(u, false)];
      SetCache(u, c);
      return Ok(u);
    }

    /** A violation of the unique index reaches the caller as an ordinary database error. */
    method CreateWithID(id: string, p: Profile, now: Time, db: bool, c: Caching) returns (r: Result<User, Error>)
      modifies this
      ensures View() == Step(old(View()), Op.CreateWithID(id, p, now, db, c))
      ensures r.Ok? ==> id in rows && r.value == rows[id].user
      ensures r.Err? ==> r == Err(DatabaseError) && View() == old(View())
    {
      if !db {
        return Err(DatabaseError);
      }
      var u := NewUser(id, p, now);
      if id in rows {
        u := Overwritten(rows[id].user, p, now);
        if !rows[id].deleted && !EmailFree(rows - {id}, p.email) {
          return Err(DatabaseError);
        }
        rows := rows[id := rows[id].(user := u)];
      } else {
        if !EmailFree(rows, p.email) {
          return Err(DatabaseError);
        }
        rows := rows[id := Row(u, false)];
      }
      SetCache(u, c);
      return Ok(u);
    }

    method Update(id: string, n: Names, now: Time, db: bool, c: Caching) returns (r: Result<User, Error>)
      requires Keyed(rows)
      modifies this
      ensures View() == Step(old(View()), Op.Update(id, n, now, db, c))
      ensures r == if !db then Err(DatabaseError) else if !Live(old(rows), id) then Err(UserNotFound)
                   else Ok(rows[id].user)
    {
      if !db {
        return Err(DatabaseError);
      }
      if !Live(rows, id) {
        return Err(UserNotFound);
      }
      var u := rows[id].user.(firstName := n.firstName, lastName := n.lastName, phone := n.phone, updatedAt := now);
      rows := rows[id := Row(u, false)];
      InvalidateCache(u.id, u.email, c);
      SetCache(u, c);
      return Ok(u);
    }

    method VerifyEmail(id: string, now: Time, db: bool, c: Caching) returns (r: Result<(), Error>)
      modifies this
      ensures View() == Step(old(View()), Op.VerifyEmail(id, now, db, c))
      ensures r == if !db then Err(DatabaseError) else if !Live(old(rows), id) then Err(UserNotFound) else Ok(())
    {
      if !db {
        return Err(DatabaseError);
      }
      if !Live(rows, id) {
        return Err(UserNotFound);
      }
      rows := rows[id := rows[id].(user := rows[id].user.(verified := true, updatedAt := now))];
      InvalidateCacheByID(id, c);
      return Ok(());
    }

    method Ban(id: string, reason: string, now: Time, db: bool, c: Caching) returns (r: Result<(), Error>)
      modifies this
      ensures View() == Step(old(View()), Op.Ban(id, reason, now, db, c))
      ensures r == if !db then Err(DatabaseError) else if !Live(old(rows), id) then Err(UserNotFound) else Ok(())
    {
      if !db {
        return Err(DatabaseError);
      }
      if !Live(rows, id) {
        return Err(UserNotFound);
      }
      rows := rows[id := rows[id].(user := rows[id].user.(banned := true, banReason := reason, updatedAt := now))];
      InvalidateCacheByID(id, c);
      return Ok(());
    }

    method Delete(id: string, now: Time, db: bool, c: Caching) returns (r: Result<(), Error>)
      modifies this
      ensures View() == Step(old(View()), Op.Delete(id, now, db, c))
      ensures r == if !db then Err(DatabaseError) else if !Live(old(rows), id) then Err(UserNotFound) else Ok(())
    {
      if !db {
        return Err(DatabaseError);
      }
      if !Live(rows, id) {
        return Err(UserNotFound);
      }
      var email := rows[id].user.email;
      rows := rows[id := Row(rows[id].user.(updatedAt := now), true)];
      InvalidateCache(id, email, c);
      return Ok(());
    }
  }
}
