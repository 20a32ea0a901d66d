/**
 * Token sessions: the `sessions` table with `UNIQUE(session_token)`,
 * creation with a 30-day lifetime, validation that refreshes the last
 * access, and removal of expired sessions. Times are seconds on one clock
 * (the ISO timestamps of the table compare in the same order); the clock and
 * the random token are parameters.
 */
module Session {
  import opened Base
  import Table

  /** `SESSION_LIFETIME_DAYS = 30`, in seconds. */
  const Lifetime: int := 30 * 24 * 60 * 60

  datatype SessionRow = SessionRow(id: nat, token: string, createdAt: int, lastAccess: int, expiresAt: int)

  /** The key of `UNIQUE(session_token)`. */
  function TokenOf(s: SessionRow): string { s.token }

  /** `SELECT * FROM sessions WHERE session_token = ? AND expires_at > now`, behind the `if not token` guard. */
  predicate IsValid(rows: seq<SessionRow>, token: string, now: int) {
    token != [] && Table.Find(rows, TokenOf, token).Some? && Table.Find(rows, TokenOf, token).value.expiresAt > now
  }

  /** A token is valid iff it is non-empty and its session expires strictly after `now`. */
  lemma ValidMeaning(rows: seq<SessionRow>, token: string, now: int)
    requires Table.UniqueKeys(rows, TokenOf)
    ensures token == [] ==> !IsValid(rows, token, now)
    ensures IsValid(rows, token, now) <==> token != [] && exists s :: s in rows && s.token == token && s.expiresAt > now
  {
    if s :| s in rows && s.token == token && s.expiresAt > now {
      Table.FindUnique(rows, TokenOf, s);
    }
  }

  /** `UPDATE sessions SET last_access = now WHERE session_token = ?` */
  function Touch(rows: seq<SessionRow>, token: string, now: int): (r: seq<SessionRow>)
    ensures |r| == |rows|
    ensures forall i :: 0 <= i < |rows| ==>
      r[i] == if rows[i].token == token then rows[i].(lastAccess := now) else rows[i]
  {
    seq(|rows|, i requires 0 <= i < |rows| => if rows[i].token == token then rows[i].(lastAccess := now) else rows[i])
  }

  /** `DELETE FROM sessions WHERE expires_at < now` */
  function Unexpired(rows: seq<SessionRow>, now: int): (r: seq<SessionRow>)
    ensures forall s :: s in r <==> s in rows && s.expiresAt >= now
    decreases |rows|
  {
    if rows == [] then []
    else
      var rest, s := Unexpired(rows[..|rows| - 1], now), rows[|rows| - 1];
      assert forall x :: x in rows <==> x in rows[..|rows| - 1] || x == s;
      if s.expiresAt < now then rest else rest + [s]
  }

  /** Refreshing the last access keeps every token, so the UNIQUE constraint still holds. */
  lemma TouchUnique(rows: seq<SessionRow>, token: string, now: int)
    requires Table.UniqueKeys(rows, TokenOf)
    ensures Table.UniqueKeys(Touch(rows, token, now), TokenOf)
  {
    var r := Touch(rows, token, now);
    assert forall i :: 0 <= i < |rows| ==> r[i].token == rows[i].token;
  }

  /** Removing expired sessions keeps the others in order and the UNIQUE constraint. */
  lemma {:induction false} UnexpiredUnique(rows: seq<SessionRow>, now: int)
    requires Table.UniqueKeys(rows, TokenOf)
    ensures Table.UniqueKeys(Unexpired(rows, now), TokenOf)
    decreases |rows|
  {
    if rows != [] {
      var init, s := rows[..|rows| - 1], rows[|rows| - 1];
      assert Table.UniqueKeys(init, TokenOf);
      UnexpiredUnique(init, now);
      var r0 := Unexpired(init, now);
      if s.expiresAt >= now {
        forall i | 0 <= i < |r0| ensures r0[i].token != s.token {
          assert r0[i] in init;
          var m :| 0 <= m < |init| && init[m] == r0[i];
          assert rows[m] == r0[i];
        }
      }
    }
  }

  /**
   * A session expiring exactly at `now` survives the cleanup, yet its token
   * is already invalid: the cleanup uses `<` and validation `>`.
   */
  lemma CleanupBoundary(rows: seq<SessionRow>, s: SessionRow, now: int)
    requires Table.UniqueKeys(rows, TokenOf)
    requires s in rows && s.expiresAt == now
    ensures s in Unexpired(rows, now)
    ensures !IsValid(Unexpired(rows, now), s.token, now)
  {
    UnexpiredUnique(rows, now);
    Table.FindUnique(Unexpired(rows, now), TokenOf, s);
  }

  class Store {
    var sessions: seq<SessionRow>
    var nextId: nat

    predicate Valid()
      reads this
    {
      Table.UniqueKeys(sessions, TokenOf)
    }

    constructor()
      ensures Valid() && sessions == []
    {
      sessions, nextId := [], 1;
    }

    /**
     * `create_session` with the random token given: created = last access =
     * now and expiry 30 days later; a token already in use violates the
     * UNIQUE constraint and nothing is stored.
     */
    method CreateSession(token: string, now: int) returns (r: Option<string>)
      requires Valid()
      modifies this
      ensures Valid()
      ensures r.None? <==> Table.Find(old(sessions), TokenOf, token).Some?
      ensures r.None? ==> sessions == old(sessions) && nextId == old(nextId)
      ensures r.Some? ==> (r.value == token && nextId == old(nextId) + 1 &&
        sessions == old(sessions) + [SessionRow(old(nextId), token, now, now, now + Lifetime)])
    {
      if Table.Find(sessions, TokenOf, token).Some? {
        return None;
      }
      var row := SessionRow(nextId, token, now, now, now + Lifetime);
      forall i | 0 <= i < |sessions| ensures sessions[i].token != token {
        assert sessions[i] in sessions;
      }
      sessions := sessions + [row];
      nextId := nextId + 1;
      r := Some(token);
    }

    /** `validate_session`: a valid token has its session's last access refreshed, and only that. */
    method ValidateSession(token: string, now: int) returns (ok: bool)
      requires Valid()
      modifies this
      ensures Valid()
      ensures ok == IsValid(old(sessions), token, now)
      ensures sessions == if ok then Touch(old(sessions), token, now) else old(sessions)
      ensures nextId == old(nextId)
    {
      if token == [] {
        return false;
      }
      var row := Table.Find(sessions, TokenOf, token);
      ok := row.Some? && row.value.expiresAt > now;
      if ok {
        TouchUnique(sessions, token, now);
        sessions := Touch(sessions, token, now);
      }
    }

    /**
     * `get_or_create_session`: the given token, its session refreshed, when
     * it validates; otherwise a new session under `newToken`, which fails
     * and stores nothing when that token is already in the table.
     */
    method GetOrCreateSession(token: Option<string>, newToken: string, now: int) returns (r: Option<string>)
      requires Valid()
      modifies this
      ensures Valid()
      ensures token.Some? && IsValid(old(sessions), token.value, now) ==>
        r == token && sessions == Touch(old(sessions), token.value, now) && nextId == old(nextId)
      ensures !(token.Some? && IsValid(old(sessions), token.value, now)) ==>
        (r.None? <==> Table.Find(old(sessions), TokenOf, newToken).Some?)
      ensures !(token.Some? && IsValid(old(sessions), token.value, now)) && r.Some? ==>
        r.value == newToken && nextId == old(nextId) + 1 &&
        sessions == old(sessions) + [SessionRow(old(nextId), newToken, now, now, now + Lifetime)]
      ensures !(token.Some? && IsValid(old(sessions), token.value, now)) && r.None? ==>
        sessions == old(sessions) && nextId == old(nextId)
    {
      if token.Some? && token.value != [] {
        var ok := ValidateSession(token.value, now);
        if ok {
          return token;
        }
      }
      r := CreateSession(newToken, now);
    }

    /** `cleanup_expired_sessions`: exactly the sessions with expiry before `now` go. */
    method CleanupExpiredSessions(now: int)
      requires Valid()
      modifies this
      ensures Valid()
      ensures sessions == Unexpired(old(sessions), now)
      ensures nextId == old(nextId)
    {
      UnexpiredUnique(sessions, now);
      sessions := Unexpired(sessions, now);
    }
  }
}
