/** Refresh tokens: services/auth-service/internal/service/auth_service.go over the table of
    internal/repository/auth_repository.go. A token stands for its hash, under which the table is unique. */
module RefreshTokens {
  import opened Basics

  type Token = string

  datatype Row = Row(user: string, expires: Time, revoked: bool)

  type Table = map<Token, Row>

  datatype Error =
    | InvalidInput | TokenNotFound | Unauthorized | TokenExpired | UserNotFound | DatabaseError | SigningFailed

  /** What one refresh meets on its way. A failed revocation is ignored; an insertion whose reply is lost leaves a row
      whose token nobody receives. */
  datatype Weather = Weather(find: bool, userFound: bool, revoke: bool, insert: CallOutcome, signed: bool)

  datatype Op =
    | Login(user: string, token: Token, expires: Time, accepted: bool, insert: CallOutcome)
    | Refresh(token: Token, now: Time, next: Token, expires: Time, w: Weather)
    | Logout(token: Token, db: bool)
    | RevokeAll(user: string, db: bool)

  predicate LiveIn(rows: Table, t: Token) {
    t in rows && !rows[t].revoked
  }

  function LiveOf(rows: Table, user: string): set<Token> {
    set t | t in rows && rows[t].user == user && !rows[t].revoked
  }

  /** INSERT under the unique index: with a token that is taken it fails. */
  function Inserted(rows: Table, user: string, t: Token, expires: Time, insert: CallOutcome): Table {
    if t in rows || insert.Unreachable? then rows else rows[t := Row(user, expires, false)]
  }

  function Revoked(rows: Table, t: Token): Table {
    if t in rows then rows[t := rows[t].(revoked := true)] else rows
  }

  function RevokedAll(rows: Table, user: string): Table {
    map t | t in rows :: if rows[t].user == user then rows[t].(revoked := true) else rows[t]
  }

  /** The checks before anything is written: the owner of a token that is stored, not revoked and not expired. */
  function Admit(rows: Table, t: Token, now: Time, w: Weather): Result<string, Error> {
    if !w.find then Err(DatabaseError)
    else if t !in rows then Err(TokenNotFound)
    else if rows[t].revoked then Err(Unauthorized)
    else if now > rows[t].expires then Err(TokenExpired)
    else if !w.userFound then Err(UserNotFound)
    else Ok(rows[t].user)
  }

  function Rotated(rows: Table, user: string, t: Token, next: Token, expires: Time, w: Weather): Table {
    Inserted(if w.revoke then Revoked(rows, t) else rows, user, next, expires, w.insert)
  }

  function RotationAnswer(rows: Table, next: Token, w: Weather): Result<Token, Error> {
    if next in rows || !w.insert.Answered? then Err(DatabaseError)
    else if !w.signed then Err(SigningFailed)
    else Ok(next)
  }

  function Answer(rows: Table, t: Token, now: Time, next: Token, w: Weather): Result<Token, Error> {
    var owner := Admit(rows, t, now, w);
    if owner.Err? then Err(owner.error) else RotationAnswer(rows, next, w)
  }

  function Step(rows: Table, op: Op): Table {
    match op
    case Login(user, t, expires, accepted, insert) =>
      if accepted then Inserted(rows, user, t, expires, insert) else rows
    case Refresh(t, now, next, expires, w) =>
      var owner := Admit(rows, t, now, w);
      if owner.Ok? then Rotated(rows, owner.value, t, next, expires, w) else rows
    case Logout(t, db) => if db then Revoked(rows, t) else rows
    case RevokeAll(user, db) => if db then RevokedAll(rows, user) else rows
  }

  function Run(ops: seq<Op>): Table {
    if ops == [] then map[] else Step(Run(ops[..|ops| - 1]), ops[|ops| - 1])
  }

  // ---------------------------------------------------------------- revoked for good

  lemma StepKeepsRevoked(rows: Table, op: Op, t: Token)
    requires t in rows && rows[t].revoked
    ensures var rows' := Step(rows, op); t in rows' && rows'[t].revoked && rows'[t].user == rows[t].user
  {
  }

  lemma {:induction false} RevokedForever(ops: seq<Op>, n: nat, t: Token)
    requires n <= |ops| && t in Run(ops[..n]) && Run(ops[..n])[t].revoked
    ensures t in Run(ops) && Run(ops)[t].revoked
    decreases |ops|
  {
    if n < |ops| {
      var before := ops[..|ops| - 1];
      assert before[..n] == ops[..n];
      RevokedForever(before, n, t);
      StepKeepsRevoked(Run(before), ops[|ops| - 1], t);
    } else {
      assert ops[..n] == ops;
    }
  }

  /** A token that was revoked once is never accepted again, whatever happens in between, and asking changes nothing. */
  lemma RevokedIsNeverAccepted(ops: seq<Op>, n: nat, t: Token, now: Time, next: Token, expires: Time, w: Weather)
    requires n <= |ops| && t in Run(ops[..n]) && Run(ops[..n])[t].revoked
    ensures Answer(Run(ops), t, now, next, w) == Err(if w.find then Unauthorized else DatabaseError)
    ensures Step(Run(ops), Refresh(t, now, next, expires, w)) == Run(ops)
  {
    RevokedForever(ops, n, t);
  }

  // ---------------------------------------------------------------- counting

  lemma RotationMovesLive(rows: Table, owner: string, t: Token, next: Token, expires: Time, w: Weather, user: string)
    requires t in rows && rows[t].user == owner && next !in rows && w.insert.Answered?
    ensures LiveOf(Rotated(rows, owner, t, next, expires, w), user)
         == if user == owner then (if w.revoke then LiveOf(rows, user) - {t} else LiveOf(rows, user)) + {next}
            else LiveOf(rows, user)
  {
  }

  /** A refresh that succeeds adds one unrevoked token for the owner, and takes one away exactly when its revocation
      took effect; other users' tokens stay. */
  lemma RefreshCounts(rows: Table, t: Token, now: Time, next: Token, expires: Time, w: Weather, user: string)
    requires Answer(rows, t, now, next, w).Ok?
    ensures var live := |LiveOf(Step(rows, Refresh(t, now, next, expires, w)), user)|;
            live == |LiveOf(rows, user)| + if user == rows[t].user && !w.revoke then 1 else 0
  {
    var live := LiveOf(rows, user);
    RotationMovesLive(rows, rows[t].user, t, next, expires, w, user);
    if user == rows[t].user { assert t in live && next !in live; }
  }

  /** Revoking all sessions leaves the user none and touches nobody else's. */
  lemma RevokeAllClears(rows: Table, user: string, other: string)
    ensures LiveOf(Step(rows, RevokeAll(user, true)), other) == if other == user then {} else LiveOf(rows, other)
  {
  }

  // ---------------------------------------------------------------- families

  /** The tokens from a login to `t`, each obtained by refreshing the one before. */
  function Chain(ops: seq<Op>, t: Token): seq<Token> {
    if ops == [] then []
    else
      var before, op := ops[..|ops| - 1], ops[|ops| - 1];
      if t in Run(before) then Chain(before, t)
      else if op.Refresh? then Chain(before, op.token) + [t]
      else [t]
  }

  /** Every revocation inside a refresh takes effect. */
  predicate RevocationsTake(ops: seq<Op>) {
    forall i | 0 <= i < |ops| :: ops[i].Refresh? ==> ops[i].w.revoke
  }

  /** From one of the logins to `t`, of one user, through tokens that are all revoked by now. */
  predicate IsLineage(rows: Table, logins: set<Token>, chain: seq<Token>, t: Token) {
    && t in rows
    && |chain| > 0 && chain[|chain| - 1] == t && chain[0] in logins
    && (forall i | 0 <= i < |chain| :: chain[i] in rows && rows[chain[i]].user == rows[t].user)
    && (forall i | 0 <= i < |chain| - 1 :: rows[chain[i]].revoked)
  }

  ghost predicate Descends(ops: seq<Op>, t: Token) {
    t in Run(ops) && IsLineage(Run(ops), LoginTokens(ops, Run(ops)[t].user), Chain(ops, t), t)
  }

  /** The tokens that logins of the user have put into the table. */
  function LoginTokens(ops: seq<Op>, user: string): set<Token> {
    if ops == [] then {}
    else
      var before, op := ops[..|ops| - 1], ops[|ops| - 1];
      LoginTokens(before, user)
        + if op.Login? && op.user == user && op.token !in Run(before) && op.token in Run(ops) then {op.token} else {}
  }

  lemma StepKeepsRows(rows: Table, op: Op, t: Token)
    requires t in rows
    ensures var rows' := Step(rows, op);
            && t in rows' && rows'[t].user == rows[t].user
            && (rows[t].revoked ==> rows'[t].revoked)
  {
  }

  lemma NewTokens(rows: Table, op: Op, t: Token)
    requires t !in rows && t in Step(rows, op)
    ensures !Step(rows, op)[t].revoked
    ensures op.Login? || op.Refresh?
    ensures op.Login? ==> t == op.token && Step(rows, op)[t].user == op.user
    ensures op.Refresh? ==> t == op.next && op.token in rows && !rows[op.token].revoked && op.token != t
    ensures op.Refresh? ==> Step(rows, op)[t].user == rows[op.token].user
    ensures op.Refresh? && op.w.revoke ==> Step(rows, op)[op.token].revoked
  {
  }

  lemma LineageStays(rows: Table, op: Op, logins: set<Token>, more: set<Token>, chain: seq<Token>, t: Token)
    requires IsLineage(rows, logins, chain, t) && logins <= more
    ensures IsLineage(Step(rows, op), more, chain, t)
  {
    var rows' := Step(rows, op);
    StepKeepsRows(rows, op, t);
    forall i | 0 <= i < |chain|
      ensures chain[i] in rows' && rows'[chain[i]].user == rows[chain[i]].user
      ensures rows[chain[i]].revoked ==> rows'[chain[i]].revoked
    {
      StepKeepsRows(rows, op, chain[i]);
    }
  }

  /** A refresh whose revocation takes effect prolongs the lineage of the token that it replaces. */
  lemma LineageGrows(rows: Table, op: Op, logins: set<Token>, more: set<Token>, chain: seq<Token>, t: Token)
    requires op.Refresh? && op.w.revoke && t !in rows && t in Step(rows, op)
    requires IsLineage(rows, logins, chain, op.token) && logins <= more
    ensures IsLineage(Step(rows, op), more, chain + [t], t)
  {
    NewTokens(rows, op, t);
    LineageStays(rows, op, logins, more, chain, op.token);
  }

  lemma OldTokenDescends(ops: seq<Op>, t: Token)
    requires ops != [] && Descends(ops[..|ops| - 1], t)
    ensures Descends(ops, t)
  {
    var before, op := ops[..|ops| - 1], ops[|ops| - 1];
    var user := Run(before)[t].user;
    StepKeepsRows(Run(before), op, t);
    LineageStays(Run(before), op, LoginTokens(before, user), LoginTokens(ops, user), Chain(before, t), t);
  }

  lemma RefreshedTokenDescends(ops: seq<Op>, t: Token)
    requires ops != [] && ops[|ops| - 1].Refresh? && ops[|ops| - 1].w.revoke
    requires t in Run(ops) && t !in Run(ops[..|ops| - 1]) && Descends(ops[..|ops| - 1], ops[|ops| - 1].token)
    ensures Descends(ops, t)
  {
    var before, op := ops[..|ops| - 1], ops[|ops| - 1];
    var user := Run(before)[op.token].user;
    NewTokens(Run(before), op, t);
    LineageGrows(Run(before), op, LoginTokens(before, user), LoginTokens(ops, user), Chain(before, op.token), t);
  }

  lemma LoggedInTokenDescends(ops: seq<Op>, t: Token)
    requires ops != [] && t in Run(ops) && t !in Run(ops[..|ops| - 1]) && !ops[|ops| - 1].Refresh?
    ensures Descends(ops, t)
  {
    NewTokens(Run(ops[..|ops| - 1]), ops[|ops| - 1], t);
    assert Chain(ops, t) == [t];
  }

  lemma {:induction false} EveryTokenDescends(ops: seq<Op>, t: Token)
    requires RevocationsTake(ops) && t in Run(ops)
    ensures Descends(ops, t)
  {
    var before, op := ops[..|ops| - 1], ops[|ops| - 1];
    if t in Run(before) {
      EveryTokenDescends(before, t);
      OldTokenDescends(ops, t);
    } else if op.Refresh? {
      NewTokens(Run(before), op, t);
      EveryTokenDescends(before, op.token);
      RefreshedTokenDescends(ops, t);
    } else {
      LoggedInTokenDescends(ops, t);
    }
  }

  /** A family, the tokens that come from one login, has at most one unrevoked token; all earlier links of its chain are
      revoked. */
  lemma {:induction false} OneLiveTokenPerFamily(ops: seq<Op>, t: Token, u: Token)
    requires RevocationsTake(ops) && LiveIn(Run(ops), t) && LiveIn(Run(ops), u)
    ensures Descends(ops, t) && Descends(ops, u)
    ensures Chain(ops, t)[0] == Chain(ops, u)[0] ==> t == u
  {
    EveryTokenDescends(ops, t);
    EveryTokenDescends(ops, u);
    if Chain(ops, t)[0] == Chain(ops, u)[0] { SameRootSameToken(ops, t, u); }
  }

  lemma {:induction false} SameRootSameToken(ops: seq<Op>, t: Token, u: Token)
    requires RevocationsTake(ops) && LiveIn(Run(ops), t) && LiveIn(Run(ops), u)
    requires |Chain(ops, t)| > 0 && |Chain(ops, u)| > 0 && Chain(ops, t)[0] == Chain(ops, u)[0]
    ensures t == u
    decreases |ops|, 1
  {
    var before, op := ops[..|ops| - 1], ops[|ops| - 1];
    if t in Run(before) && u in Run(before) {
      StayedLive(before, op, t);
      StayedLive(before, op, u);
      SameRootSameToken(before, t, u);
    } else if t in Run(before) {
      NewcomerIsAlone(ops, t, u);
    } else if u in Run(before) {
      NewcomerIsAlone(ops, u, t);
    } else {
      NewTokens(Run(before), op, t);
      NewTokens(Run(before), op, u);
    }
  }

  lemma StayedLive(before: seq<Op>, op: Op, t: Token)
    requires t in Run(before) && LiveIn(Step(Run(before), op), t)
    ensures LiveIn(Run(before), t)
  {
  }

  /** A token that the last operation made shares its login with no other unrevoked token. */
  lemma {:induction false} NewcomerIsAlone(ops: seq<Op>, older: Token, t: Token)
    requires ops != [] && RevocationsTake(ops) && LiveIn(Run(ops), older) && LiveIn(Run(ops), t)
    requires older in Run(ops[..|ops| - 1]) && t !in Run(ops[..|ops| - 1])
    ensures |Chain(ops, older)| > 0 && |Chain(ops, t)| > 0
    ensures Chain(ops, older)[0] != Chain(ops, t)[0]
    decreases |ops|, 0
  {
    var before, op := ops[..|ops| - 1], ops[|ops| - 1];
    StayedLive(before, op, older);
    NewTokens(Run(before), op, t);
    EveryTokenDescends(before, older);
    if op.Refresh? {
      EveryTokenDescends(before, op.token);
      if Chain(before, older)[0] == Chain(before, op.token)[0] {
        SameRootSameToken(before, older, op.token);
      }
    }
  }

  /** A user has at most as many unrevoked tokens as it has logged in. */
  lemma LiveTokensBoundedByLogins(ops: seq<Op>, user: string)
    requires RevocationsTake(ops)
    ensures |LiveOf(Run(ops), user)| <= |LoginTokens(ops, user)|
  {
    var live := LiveOf(Run(ops), user);
    forall t | t in live ensures Descends(ops, t) { EveryTokenDescends(ops, t); }
    var root := map t | t in live :: Chain(ops, t)[0];
    var roots := set t | t in live :: root[t];
    forall t, u | t in live && u in live && root[t] == root[u] ensures t == u { SameRootSameToken(ops, t, u); }
    InjectionKeepsSize(live, roots, root);
    assert roots <= LoginTokens(ops, user);
    SubsetSize(roots, LoginTokens(ops, user));
  }

  /** A refresh splits a family exactly when its revocation does not take effect: then the old token and the new one, of
      the same login, are both unrevoked. */
  lemma RefreshSplitsFamilyExactly(ops: seq<Op>, t: Token, now: Time, next: Token, expires: Time, w: Weather)
    requires Answer(Run(ops), t, now, next, w).Ok?
    ensures var after := ops + [Refresh(t, now, next, expires, w)];
            && LiveIn(Run(after), next)
            && Chain(after, next) == Chain(ops, t) + [next]
            && (LiveIn(Run(after), t) <==> !w.revoke)
  {
    var after := ops + [Refresh(t, now, next, expires, w)];
    assert after[..|ops|] == ops;
  }
}
