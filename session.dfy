/**
 * The session middleware: an in-memory store of session records keyed by id, records that
 * expire four hours after they were created, and the middleware that finds the request's
 * session by its cookie or creates one and sets the cookie. `crypto.randomUUID()` and
 * `Date.now()` are parameters (`freshId`, `now`).
 */
module Session {
  import opened Base
  import opened Text
  import opened Http

  /** The name of the session cookie. */
  const SessionCookie := "sunny_session"

  /** Four hours, in milliseconds. */
  const Ttl := 1000 * 60 * 60 * 4

  /** A record created at `createdAt` has expired at `now` once more than `Ttl` has passed. */
  predicate Expired(createdAt: int, now: int) {
    createdAt + Ttl < now
  }

  /** A record stays usable for exactly `Ttl` milliseconds and, once expired, stays expired. */
  lemma ExpiryWindow(createdAt: int, now: int, later: int)
    requires now <= later
    ensures !Expired(createdAt, now) <==> now <= createdAt + 14400000
    ensures Expired(createdAt, now) ==> Expired(createdAt, later)
  {
  }

  type Sessions = map<string, SessionRecord>

  /** What `getSession(id)` returns at `now`. */
  function Lookup(sessions: Sessions, id: string, now: int): (s: Option<SessionRecord>)
    ensures s.Some? <==> id in sessions && !Expired(sessions[id].createdAt, now)
    ensures s.Some? ==> s.value == sessions[id]
  {
    if id in sessions && !Expired(sessions[id].createdAt, now) then Some(sessions[id]) else None
  }

  /** The store after `getSession(id)` at `now`: an expired record is deleted. */
  function Prune(sessions: Sessions, id: string, now: int): (m: Sessions)
    ensures m.Keys <= sessions.Keys
    ensures forall k :: k in m ==> m[k] == sessions[k]
    ensures forall k :: k in sessions && k !in m ==> k == id && Expired(sessions[k].createdAt, now)
  {
    if id in sessions && Expired(sessions[id].createdAt, now) then sessions - {id} else sessions
  }

  /** Asking again gives the same answer: pruning removes only what the lookup rejects. */
  lemma LookupAfterPrune(sessions: Sessions, id: string, now: int)
    ensures Lookup(Prune(sessions, id, now), id, now) == Lookup(sessions, id, now)
    ensures Prune(Prune(sessions, id, now), id, now) == Prune(sessions, id, now)
  {
    if id in sessions && Expired(sessions[id].createdAt, now) {
      assert id !in Prune(sessions, id, now);
    }
  }

  /** A record just stored is found again until its time is up. */
  lemma LookupStored(sessions: Sessions, id: string, s: SessionRecord, now: int)
    requires s.createdAt <= now <= s.createdAt + Ttl
    ensures Lookup(sessions[id := s], id, now) == Some(s)
  {
  }

  /** `sessionStore`. */
  class SessionStore {
    var sessions: Sessions

    constructor ()
      ensures sessions == map[]
    {
      sessions := map[];
    }

    /** `createSession()`: a new record with an empty history, stored under `id`. */
    method Create(id: string, now: int) returns (s: SessionRecord)
      modifies this
      ensures fresh(s) && s.id == id && s.createdAt == now && s.history == []
      ensures sessions == old(sessions)[id := s]
    {
      s := new SessionRecord(id, now);
      sessions := sessions[id := s];
    }

    /** `getSession(id)`: the record when it has not expired; an expired one is deleted. */
    method Get(id: string, now: int) returns (s: Option<SessionRecord>)
      modifies this
      ensures s == Lookup(old(sessions), id, now)
      ensures sessions == Prune(old(sessions), id, now)
    {
      if id !in sessions {
        return None;
      }
      var record := sessions[id];
      if Expired(record.createdAt, now) {
        sessions := sessions - {id};
        return None;
      }
      return Some(record);
    }
  }

  /** The options the session cookie is set with; `Secure` only in production. */
  function SessionCookieOptions(production: bool): CookieOptions {
    CookieOptions(Ttl, true, "Lax", production, "/")
  }

  lemma DecimalSeconds()
    ensures Decimal(Ttl / 1000) == "14400"
  {
    assert Digits(1) == "1";
    assert Digits(14) == "14";
    assert Digits(144) == "144";
    assert Digits(1440) == "1440";
  }

  /** The session cookie lives as long as the session: four hours, counted in seconds. */
  lemma SessionCookieAttributes(production: bool)
    ensures CookieAttributes(SessionCookieOptions(production))
      == ["Max-Age=14400", "HttpOnly", "SameSite=Lax"] + (if production then ["Secure"] else []) + ["Path=/"]
  {
    DecimalSeconds();
    assert "Max-Age=" + Decimal(Ttl / 1000) == "Max-Age=14400";
    assert "SameSite=" + "Lax" == "SameSite=Lax";
    assert "Path=" + "/" == "Path=/";
  }

  /** The cookie a request holds under `name`; an absent cookie reads as `""` (falsy). */
  function CookieOf(cookies: map<string, string>, name: string): string {
    if name in cookies then cookies[name] else ""
  }

  /** Whether the middleware finds an existing session for a request carrying `cookies`. */
  predicate Hit(sessions: Sessions, cookies: map<string, string>, now: int) {
    var id := CookieOf(cookies, SessionCookie);
    id != "" && Lookup(sessions, id, now).Some?
  }

  /** The store once the middleware has looked the cookie up (before any creation). */
  function Looked(sessions: Sessions, cookies: map<string, string>, now: int): Sessions {
    var id := CookieOf(cookies, SessionCookie);
    if id == "" then sessions else Prune(sessions, id, now)
  }

  /** `sessionMiddleware`. On a hit the request gets the stored record. Otherwise a record is
      created under `freshId` and the cookie is set; when the headers are already out,
      `res.cookie` throws and the request gets no session, though the record stays stored. */
  method Middleware(store: SessionStore, req: Request, res: Response, freshId: string, now: int, production: bool)
    returns (o: Outcome)
    modifies store, req, res
    ensures var id := CookieOf(old(req.cookies), SessionCookie);
      if Hit(old(store.sessions), old(req.cookies), now) then
        o == Advance && req.session == Some(old(store.sessions)[id])
        && store.sessions == old(store.sessions) && res.Value() == old(res.Value())
      else
        freshId in store.sessions
        && var s := store.sessions[freshId];
        fresh(s) && s.id == freshId && s.createdAt == now && s.history == []
        && store.sessions == Looked(old(store.sessions), old(req.cookies), now)[freshId := s]
        && o == (if old(res.headersSent) then Throw(HeadersSent) else Advance)
        && req.session == (if old(res.headersSent) then old(req.session) else Some(s))
        && res.Value() == (if old(res.headersSent) then old(res.Value()) else
             WithHeader(old(res.Value()), "Set-Cookie",
               AppendSetCookie(old(res.Header("Set-Cookie")), CookieString(SessionCookie, freshId, SessionCookieOptions(production)))))
    ensures req.Value() == old(req.Value()) && req.headers == old(req.headers) && req.query == old(req.query)
      && req.cookies == old(req.cookies) && req.body == old(req.body)
  {
    var id := CookieOf(req.cookies, SessionCookie);
    var found: Option<SessionRecord> := None;
    if id != "" {
      found := store.Get(id, now);
    }
    if found.Some? {
      req.session := found;
      o := Advance;
    } else {
      var s := store.Create(freshId, now);
      var ok := res.Cookie(SessionCookie, freshId, SessionCookieOptions(production));
      if ok {
        req.session := Some(s);
        o := Advance;
      } else {
        o := Throw(HeadersSent);
      }
    }
  }
}
