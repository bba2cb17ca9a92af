/** The session operations of services/auth-service/internal/service/auth_service.go over the repository of
    internal/repository/auth_repository.go. Clocks, drawn tokens, the outcome of the password check and the replies of
    the database are parameters. */
module AuthService {
  import opened Basics
  import opened RefreshTokens

  /** Go's conversion to a signed 32-bit integer. */
  function Int32(n: int): (r: int)
    ensures -0x8000_0000 <= r < 0x8000_0000
    ensures (r - n) % 0x1_0000_0000 == 0
    ensures n < 0x8000_0000 && n >= 0 ==> r == n
  {
    (n + 0x8000_0000) % 0x1_0000_0000 - 0x8000_0000
  }

  class AuthRepository {
    var rows: Table

    constructor ()
      ensures rows == Run([])
    {
      rows := map[];
    }

    method CreateRefreshToken(user: string, t: Token, expires: Time, insert: CallOutcome) returns (r: Result<(), Error>)
      modifies this
      ensures rows == Inserted(old(rows), user, t, expires, insert)
      ensures r.Ok? <==> t !in old(rows) && insert.Answered?
      ensures r.Err? ==> r == Err(DatabaseError)
    {
      if t in rows || insert.Unreachable? {
        return Err(DatabaseError);
      }
      rows := rows[t := Row(user, expires, false)];
      return if insert.Answered? then Ok(()) else Err(DatabaseError);
    }

    method FindRefreshToken(t: Token, db: bool) returns (r: Result<(string, Time), Error>)
      ensures r == if !db then Err(DatabaseError)
                   else if t !in rows then Err(TokenNotFound)
                   else if rows[t].revoked then Err(Unauthorized)
                   else Ok((rows[t].user, rows[t].expires))
    {
      if !db {
        return Err(DatabaseError);
      }
      if t !in rows {
        return Err(TokenNotFound);
      }
      var row := rows[t];
      if row.revoked {
        return Err(Unauthorized);
      }
      return Ok((row.user, row.expires));
    }

    method RevokeRefreshToken(t: Token, db: bool) returns (r: Result<(), Error>)
      modifies this
      ensures rows == if db then Revoked(old(rows), t) else old(rows)
      ensures r == if db then Ok(()) else Err(DatabaseError)
    {
      if !db {
        return Err(DatabaseError);
      }
      if t in rows && !rows[t].revoked {
        rows := rows[t := rows[t].(revoked := true)];
      }
      return Ok(());
    }

    method RevokeAllRefreshTokens(user: string, db: bool) returns (r: Result<int, Error>)
      modifies this
      ensures rows == if db then RevokedAll(old(rows), user) else old(rows)
      ensures r == if db then Ok(Int32(|LiveOf(old(rows), user)|)) else Err(DatabaseError)
    {
      if !db {
        return Err(DatabaseError);
      }
      var affected := LiveOf(rows, user);
      rows := map t | t in rows :: if t in affected then rows[t].(revoked := true) else rows[t];
      assert rows == RevokedAll(old(rows), user);
      return Ok(Int32(|affected|));
    }
  }

  class AuthService {
    const repo: AuthRepository

    constructor (repo: AuthRepository)
      ensures this.repo == repo
    {
      this.repo := repo;
    }

    /** `account` is the reply of the lookup by address, `passwordOk` the outcome of comparing the password with the
        stored hash. Signing the access token comes before storing the refresh token. */
    method Login(valid: bool, account: Result<string, Error>, passwordOk: bool, signed: bool,
                 t: Token, expires: Time, insert: CallOutcome)
      returns (r: Result<Token, Error>)
      modifies repo
      ensures repo.rows == if !valid || account.Err? then old(repo.rows)
                           else Step(old(repo.rows), Op.Login(account.value, t, expires, passwordOk && signed, insert))
      ensures r.Ok? <==> valid && account.Ok? && passwordOk && signed && t !in old(repo.rows) && insert.Answered?
      ensures r.Ok? ==> r.value == t && LiveOf(repo.rows, account.value) == LiveOf(old(repo.rows), account.value) + {t}
      ensures r.Err? ==> r.error == if !valid then InvalidInput else if account.Err? then account.error
                                    else if !passwordOk then Unauthorized else if !signed then SigningFailed
                                    else DatabaseError
    {
      if !valid {
        return Err(InvalidInput);
      }
      if account.Err? {
        return Err(account.error);
      }
      var user := account.value;
      if !passwordOk {
        return Err(Unauthorized);
      }
      if !signed {
        return Err(SigningFailed);
      }
      var stored := repo.CreateRefreshToken(user, t, expires, insert);
      return if stored.Ok? then Ok(t) else Err(stored.error);
    }

    method RefreshToken(t: Token, now: Time, next: Token, expires: Time, w: Weather) returns (r: Result<Token, Error>)
      modifies repo
      ensures r == Answer(old(repo.rows), t, now, next, w)
      ensures repo.rows == Step(old(repo.rows), Op.Refresh(t, now, next, expires, w))
    {
      var found := repo.FindRefreshToken(t, w.find);
      if found.Err? {
        return Err(found.error);
      }
      var (user, tokenExpires) := found.value;
      if now > tokenExpires {
        return Err(TokenExpired);
      }
      if !w.userFound {
        return Err(UserNotFound);
      }
      var _ := repo.RevokeRefreshToken(t, w.revoke);
      var stored := repo.CreateRefreshToken(user, next, expires, w.insert);
      if stored.Err? {
        return Err(stored.error);
      }
      return if w.signed then Ok(next) else Err(SigningFailed);
    }

    method Logout(t: Token, db: bool) returns (r: Result<(), Error>)
      modifies repo
      ensures repo.rows == Step(old(repo.rows), Op.Logout(t, db))
      ensures r.Ok? ==> !LiveIn(repo.rows, t)
    {
      r := repo.RevokeRefreshToken(t, db);
    }

    /** Reports how many sessions it ended, as long as that number fits, and leaves the user none. */
    method RevokeAllSessions(user: string, db: bool) returns (r: Result<int, Error>)
      modifies repo
      ensures repo.rows == Step(old(repo.rows), Op.RevokeAll(user, db))
      ensures r.Ok? ==> LiveOf(repo.rows, user) == {}
      ensures r.Ok? ==> r.value == Int32(|LiveOf(old(repo.rows), user)|)
      ensures r.Ok? && |LiveOf(old(repo.rows), user)| < 0x8000_0000 ==> r.value == |LiveOf(old(repo.rows), user)|
    {
      r := repo.RevokeAllRefreshTokens(user, db);
      if r.Ok? { RevokeAllClears(old(repo.rows), user, user); }
    }
  }
}
