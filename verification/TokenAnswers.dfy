/** What the session operations of the auth service store and answer, case by case. */
module TokenAnswers {
  import opened Basics
  import opened RefreshTokens
  import Races = RefreshRaces

  /** The token is stored, not revoked and not expired, and can be looked up together with its owner. */
  predicate Usable(rows: Table, t: Token, now: Time, w: Weather) {
    w.find && t in rows && !rows[t].revoked && now <= rows[t].expires && w.userFound
  }

  /** A refresh succeeds exactly when the old token is usable, the new one is not taken, its insertion is answered and
      signing works; each other case has its own error. */
  lemma RefreshAnswersExactly(rows: Table, t: Token, now: Time, next: Token, w: Weather)
    ensures var r := Answer(rows, t, now, next, w);
            && (r.Ok? <==> Usable(rows, t, now, w) && next !in rows && w.insert.Answered? && w.signed)
            && (r.Ok? ==> r.value == next)
            && (r == Err(TokenNotFound) <==> w.find && t !in rows)
            && (r == Err(Unauthorized) <==> w.find && t in rows && rows[t].revoked)
            && (r == Err(TokenExpired) <==> w.find && t in rows && !rows[t].revoked && now > rows[t].expires)
            && (r == Err(UserNotFound) <==>
                  w.find && t in rows && !rows[t].revoked && now <= rows[t].expires && !w.userFound)
            && (r == Err(SigningFailed) <==>
                  Usable(rows, t, now, w) && next !in rows && w.insert.Answered? && !w.signed)
            && (r == Err(DatabaseError) <==>
                  !w.find || (Usable(rows, t, now, w) && (next in rows || !w.insert.Answered?)))
  {
  }

  /** A token that is not usable, an expired one for instance, leaves the table as it is. A usable one is revoked if its
      revocation takes effect, and the new token belongs to its owner, with the given expiry; all other rows stay. */
  lemma RefreshStoresExactly(rows: Table, t: Token, now: Time, next: Token, expires: Time, w: Weather)
    ensures var rows' := Step(rows, Refresh(t, now, next, expires, w));
            var lands := Usable(rows, t, now, w) && next !in rows && !w.insert.Unreachable?;
            && (!Usable(rows, t, now, w) ==> rows' == rows)
            && (forall x :: x in rows' <==> x in rows || (x == next && lands))
            && (lands ==> rows'[next].user == rows[t].user && rows'[next].expires == expires && !rows'[next].revoked)
            && (forall x | x in rows && x != t :: rows'[x] == rows[x])
            && (t in rows ==>
                  && rows'[t].user == rows[t].user && rows'[t].expires == rows[t].expires
                  && (rows'[t].revoked <==> rows[t].revoked || (Usable(rows, t, now, w) && w.revoke)))
  {
  }

  /** A login stores its token for the user, with the given expiry and unrevoked, unless it is refused,
      taken or lost. */
  lemma LoginStoresExactly(rows: Table, user: string, t: Token, expires: Time, accepted: bool, insert: CallOutcome)
    ensures var rows' := Step(rows, Login(user, t, expires, accepted, insert));
            var lands := accepted && t !in rows && !insert.Unreachable?;
            && (forall x :: x in rows' <==> x in rows || (x == t && lands))
            && (lands ==> rows'[t].user == user && rows'[t].expires == expires && !rows'[t].revoked)
            && (forall x | x in rows :: rows'[x] == rows[x])
  {
  }

  /** A logout revokes its token, a revocation of all sessions the tokens of its user, and nothing else is written. */
  lemma RevocationsExactly(rows: Table, op: Op)
    requires op.Logout? || op.RevokeAll?
    ensures var rows' := Step(rows, op);
            && rows'.Keys == rows.Keys
            && forall x | x in rows ::
                 && rows'[x].user == rows[x].user && rows'[x].expires == rows[x].expires
                 && (rows'[x].revoked <==>
                       rows[x].revoked
                       || (op.db && if op.Logout? then x == op.token else rows[x].user == op.user))
  {
  }

  /** In an interleaving the operations of one statement are the serial ones. */
  lemma OneStatementIsSerial(s: Races.State, ev: Races.Event)
    ensures ev.Login? ==>
              Races.Step(s, ev).rows == Step(s.rows, Login(ev.user, ev.token, ev.expires, ev.accepted, ev.insert))
    ensures ev.Logout? ==> Races.Step(s, ev).rows == Step(s.rows, Logout(ev.token, ev.db))
    ensures ev.RevokeAll? ==> Races.Step(s, ev).rows == Step(s.rows, RevokeAll(ev.user, ev.db))
    ensures ev.Login? || ev.Logout? || ev.RevokeAll? ==>
              Races.Step(s, ev).calls == s.calls && Races.Step(s, ev).results == s.results
  {
  }

  /** In every interleaving a refresh gets past its checks exactly when its token is usable at that moment, whatever
      happens to the token later. */
  lemma AdmissionExactly(s: Races.State, ev: Races.Event)
    requires ev.Begin? && ev.call !in s.calls
    ensures var s' := Races.Step(s, ev);
            && s'.rows == s.rows
            && (ev.call in s'.calls <==> Usable(s.rows, ev.token, ev.now, ev.w))
            && (ev.call in s'.calls ==>
                  s'.calls[ev.call].token == ev.token && s'.calls[ev.call].user == s.rows[ev.token].user
                  && s'.calls[ev.call].next == ev.next && s'.calls[ev.call].expires == ev.expires)
            && (ev.call !in s'.calls ==>
                  ev.call in s'.results && s'.results[ev.call] == Answer(s.rows, ev.token, ev.now, ev.next, ev.w))
  {
  }
}
