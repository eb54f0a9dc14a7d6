/** Admin sessions: internal/webadmin/auth.go over the session queries of the Postgres store. */
module Sessions {
  import opened Common

  type Token = nat  // the hash of a session cookie
  type KeyId = nat

  datatype Session = Session(key: KeyId, created: int, lastSeen: int, expires: int, absolute: int)

  /** NewHandler insists on 0 < idle <= absolute. */
  datatype Ttl = Ttl(idle: int, absolute: int) {
    predicate Valid() {
      0 < idle <= absolute
    }
  }

  type Rows = map<Token, Session>

  // ---------- the statements ----------

  predicate Found(rows: Rows, keys: set<KeyId>, token: Token, now: int) {
    token in rows && rows[token].expires > now && rows[token].absolute > now && rows[token].key in keys
  }

  function Created(ttl: Ttl, key: KeyId, now: int): Session {
    Session(key, now, now, now + ttl.idle, now + ttl.absolute)
  }

  /** INSERT, with the cleanup of expired rows in the same statement. */
  function Insert(rows: Rows, token: Token, session: Session): Rows {
    var now := session.created;
    (map t | t in rows && rows[t].expires > now && rows[t].absolute > now :: rows[t])[token := session]
  }

  predicate Refreshable(rows: Rows, token: Token, now: int) {
    token in rows && rows[token].expires > now && rows[token].absolute > now
  }

  function Refresh(rows: Rows, token: Token, now: int, expires: int): Rows
    requires Refreshable(rows, token, now)
  {
    rows[token := rows[token].(lastSeen := now, expires := Min(expires, rows[token].absolute))]
  }

  /** A refresh is due in the second half of the idle period. */
  predicate DueForRefresh(ttl: Ttl, session: Session, now: int) {
    session.expires - now <= ttl.idle / 2
  }

  function Extended(ttl: Ttl, session: Session, now: int): int {
    Min(now + ttl.idle, session.absolute)
  }

  // ---------- one request at a time ----------

  /** The rows after authenticating, and the session if it was accepted. */
  function AuthStep(ttl: Ttl, rows: Rows, keys: set<KeyId>, token: Token, now: int): (Rows, Option<Session>) {
    if !Found(rows, keys, token, now) then (rows, None)
    else
      var session := rows[token];
      if !DueForRefresh(ttl, session, now) then (rows, Some(session))
      else
        var expires := Extended(ttl, session, now);
        (Refresh(rows, token, now, expires), Some(session.(lastSeen := now, expires := expires)))
  }

  /** The operations that can fail outright. */
  datatype Fault = KeyQuery | SessionDelete | TokenSource | SessionInsert | SessionQuery | SessionUpdate

  datatype LoginResult = LoggedIn | Rejected | LoginError

  datatype AuthResult = Authenticated(session: Session) | Unauthenticated | AuthError

  class SessionManager {
    const ttl: Ttl
    var rows: Rows
    var keys: set<KeyId>  // enabled API keys

    constructor (ttl: Ttl)
      ensures this.ttl == ttl && rows == map[] && keys == {}
    {
      this.ttl := ttl;
      rows, keys := map[], {};
    }

    /**
     `newToken` is the hash of a new random token; a collision is a failing INSERT.  `fault` is the
     operation, if any, that fails, without effect.
     */
    method Login(key: KeyId, cookie: Option<Token>, newToken: Token, now: int, fault: Option<Fault>)
      returns (result: LoginResult)
      modifies this`rows
      ensures result == Rejected <==> fault != Some(KeyQuery) && key !in keys
      ensures result == LoggedIn <==>
                && key in keys && (newToken !in old(rows) || cookie == Some(newToken))
                && fault !in {Some(KeyQuery), Some(TokenSource), Some(SessionInsert)}
                && (fault == Some(SessionDelete) ==> cookie.None?)
      ensures result == LoggedIn ==>
                newToken in rows && rows[newToken] == Session(key, now, now, now + ttl.idle, now + ttl.absolute)
      ensures result == LoggedIn ==> forall t :: t != newToken ==>
                (t in rows <==> && t in old(rows) && cookie != Some(t)
                                && old(rows)[t].expires > now && old(rows)[t].absolute > now)
      ensures result == LoggedIn ==> forall t :: t in rows && t != newToken ==> rows[t] == old(rows)[t]
      ensures result != LoggedIn ==>
                rows == if key in keys && cookie.Some? && fault !in {Some(KeyQuery), Some(SessionDelete)}
                        then old(rows) - {cookie.value} else old(rows)
    {
      if fault == Some(KeyQuery) {
        return LoginError;
      }
      if key !in keys {
        return Rejected;
      }
      if cookie.Some? {
        if fault == Some(SessionDelete) {
          return LoginError;
        }
        rows := rows - {cookie.value};
      }
      if fault == Some(TokenSource) || fault == Some(SessionInsert) || newToken in rows {
        return LoginError;
      }
      rows := Insert(rows, newToken, Created(ttl, key, now));
      return LoggedIn;
    }

    /** A failing lookup is an error; a failing refresh, like a vanished row, ends the session. */
    method Authenticate(cookie: Option<Token>, now: int, fault: Option<Fault>) returns (result: AuthResult)
      modifies this`rows
      ensures result == AuthError <==> cookie.Some? && fault == Some(SessionQuery)
      ensures result.Authenticated? <==>
                && cookie.Some? && fault != Some(SessionQuery) && cookie.value in old(rows)
                && var s := old(rows)[cookie.value];
                && now < s.expires && now < s.absolute && s.key in keys
                && (fault == Some(SessionUpdate) ==> s.expires - now > ttl.idle / 2)
      ensures result.Authenticated? ==>
                var s := old(rows)[cookie.value];
                if s.expires - now > ttl.idle / 2 then result.session == s && rows == old(rows)
                else
                  && result.session == Session(s.key, s.created, now, Min(now + ttl.idle, s.absolute), s.absolute)
                  && rows == old(rows)[cookie.value := result.session]
      ensures result.Authenticated? ==>
                (rows, Some(result.session)) == AuthStep(ttl, old(rows), keys, cookie.value, now)
      ensures !result.Authenticated? ==> rows == old(rows)
    {
      if cookie.None? {
        return Unauthenticated;
      }
      if fault == Some(SessionQuery) {
        return AuthError;
      }
      if !Found(rows, keys, cookie.value, now) {
        return Unauthenticated;
      }
      var s := rows[cookie.value];
      if s.expires - now <= ttl.idle / 2 {
        var expires := now + ttl.idle;
        if s.absolute < expires {
          expires := s.absolute;
        }
        if fault == Some(SessionUpdate) || !Refreshable(rows, cookie.value, now) {
          return Unauthenticated;
        }
        rows := Refresh(rows, cookie.value, now, expires);
        s := s.(lastSeen := now, expires := expires);
      }
      return Authenticated(s);
    }

    method Logout(cookie: Option<Token>, fault: Option<Fault>) returns (ok: bool)
      modifies this`rows
      ensures ok <==> cookie.None? || fault != Some(SessionDelete)
      ensures rows == if ok && cookie.Some? then old(rows) - {cookie.value} else old(rows)
      ensures ok && cookie.Some? ==> forall now :: !Found(rows, keys, cookie.value, now)
    {
      if cookie.Some? {
        if fault == Some(SessionDelete) {
          return false;
        }
        rows := rows - {cookie.value};
      }
      return true;
    }
  }

  /** Answers to sequential requests of one session at the given times. */
  function Answers(ttl: Ttl, rows: Rows, keys: set<KeyId>, token: Token, times: seq<int>): seq<bool>
    decreases |times|
  {
    if times == [] then []
    else
      var (rows', session) := AuthStep(ttl, rows, keys, token, times[0]);
      [session.Some?] + Answers(ttl, rows', keys, token, times[1..])
  }

  /** Each request comes at most half the idle period after the one before. */
  predicate Paced(ttl: Ttl, last: int, times: seq<int>)
    decreases |times|
  {
    times == [] || (last <= times[0] <= last + ttl.idle / 2 && Paced(ttl, times[0], times[1..]))
  }

  /** Whatever comes within half the idle period, and before the absolute limit, is still accepted. */
  predicate GoodUntilNext(ttl: Ttl, session: Session, last: int) {
    session.expires > Min(last + ttl.idle / 2, session.absolute - 1)
  }

  lemma {:induction false} PacedIsAccepted(ttl: Ttl, rows: Rows, keys: set<KeyId>, token: Token, last: int,
                                           times: seq<int>)
    requires ttl.Valid() && token in rows && rows[token].key in keys && GoodUntilNext(ttl, rows[token], last)
    requires Paced(ttl, last, times) && forall i :: 0 <= i < |times| ==> times[i] < rows[token].absolute
    ensures |Answers(ttl, rows, keys, token, times)| == |times|
    ensures forall i :: 0 <= i < |times| ==> Answers(ttl, rows, keys, token, times)[i]
    decreases |times|
  {
    if times != [] {
      var now := times[0];
      var rows' := AuthStep(ttl, rows, keys, token, now).0;
      assert now < rows[token].absolute;
      assert Found(rows, keys, token, now);
      assert GoodUntilNext(ttl, rows'[token], now);
      PacedIsAccepted(ttl, rows', keys, token, now, times[1..]);
    }
  }

  /**
   A session created at `created` whose key stays enabled, and whose requests come one after another
   with gaps of at most half the idle TTL, is accepted on every request before the absolute limit.
   */
  lemma PacedSessionLives(ttl: Ttl, rows: Rows, keys: set<KeyId>, key: KeyId, token: Token, created: int,
                          times: seq<int>)
    requires ttl.Valid() && key in keys && Paced(ttl, created, times)
    requires forall i :: 0 <= i < |times| ==> times[i] < created + ttl.absolute
    ensures var answers := Answers(ttl, Insert(rows, token, Created(ttl, key, created)), keys, token, times);
            |answers| == |times| && forall i :: 0 <= i < |times| ==> answers[i]
  {
    PacedIsAccepted(ttl, Insert(rows, token, Created(ttl, key, created)), keys, token, created, times);
  }

  // ---------- any interleaving ----------

  /** A request that was found valid: its key and time, the session's creation, and the activity before it. */
  datatype Acceptance = Acceptance(token: Token, key: KeyId, at: int, created: int, lastActivity: int) {
    predicate InTime(ttl: Ttl) {
      at < created + ttl.absolute && at < lastActivity + ttl.idle
    }
  }

  /** A request that has read the clock, and one that still has to write its refresh. */
  datatype Request = Arrived(token: Token, at: int) | Refreshing(accept: Acceptance, expires: int)

  /**
   `activity`: for each session, the latest time at which it was created or a request was found
   valid.  `accepted`: every successful authentication so far.
   */
  datatype State = State(
    now: int,
    rows: Rows,
    keys: set<KeyId>,
    requests: map<nat, Request>,
    activity: map<Token, int>,
    accepted: seq<Acceptance>)

  datatype Event =
    | Advance(elapsed: nat)
    | SetKeys(keys: set<KeyId>)
    | LogIn(token: Token, key: KeyId)
    | LogOut(token: Token)
    | Arrive(r: nat, token: Token)
    | LookUp(r: nat)
    | WriteRefresh(r: nat)

  const INIT: State := State(0, map[], {}, map[], map[], [])

  predicate Enabled(s: State, ev: Event) {
    match ev
    case Advance(_) => true
    case SetKeys(_) => true
    case LogIn(token, key) => key in s.keys && token !in s.activity  // tokens are random: never reused
    case LogOut(_) => true
    case Arrive(r, _) => r !in s.requests
    case LookUp(r) => r in s.requests && s.requests[r].Arrived?
    case WriteRefresh(r) => r in s.requests && s.requests[r].Refreshing?
  }

  function LastActivity(s: State, token: Token): int {
    if token in s.activity then s.activity[token] else s.now
  }

  function Touch(s: State, token: Token, at: int): State {
    s.(activity := s.activity[token := Max(LastActivity(s, token), at)])
  }

  function LookUpStep(ttl: Ttl, s: State, r: nat): State
    requires r in s.requests && s.requests[r].Arrived?
  {
    var Arrived(token, at) := s.requests[r];
    if !Found(s.rows, s.keys, token, at) then s.(requests := s.requests - {r})
    else
      var session := s.rows[token];
      var accept := Acceptance(token, session.key, at, session.created, LastActivity(s, token));
      if DueForRefresh(ttl, session, at)
      then Touch(s, token, at).(requests := s.requests[r := Refreshing(accept, Extended(ttl, session, at))])
      else Touch(s, token, at).(requests := s.requests - {r}, accepted := s.accepted + [accept])
  }

  function WriteStep(s: State, r: nat): State
    requires r in s.requests && s.requests[r].Refreshing?
  {
    var Refreshing(accept, expires) := s.requests[r];
    var s' := s.(requests := s.requests - {r});
    if !Refreshable(s.rows, accept.token, accept.at) then s'
    else s'.(rows := Refresh(s.rows, accept.token, accept.at, expires), accepted := s.accepted + [accept])
  }

  function Apply(ttl: Ttl, s: State, ev: Event): State
    requires Enabled(s, ev)
  {
    match ev
    case Advance(d) => s.(now := s.now + d)
    case SetKeys(keys) => s.(keys := keys)
    case LogIn(token, key) => Touch(s, token, s.now).(rows := Insert(s.rows, token, Created(ttl, key, s.now)))
    case LogOut(token) => s.(rows := s.rows - {token})
    case Arrive(r, token) => s.(requests := s.requests[r := Arrived(token, s.now)])
    case LookUp(r) => LookUpStep(ttl, s, r)
    case WriteRefresh(r) => WriteStep(s, r)
  }

  predicate ValidRun(ttl: Ttl, s: State, evs: seq<Event>)
    decreases |evs|
  {
    evs == [] || (Enabled(s, evs[0]) && ValidRun(ttl, Apply(ttl, s, evs[0]), evs[1..]))
  }

  function Final(ttl: Ttl, s: State, evs: seq<Event>): State
    requires ValidRun(ttl, s, evs)
    decreases |evs|
  {
    if evs == [] then s else Final(ttl, Apply(ttl, s, evs[0]), evs[1..])
  }

  /** A row promises no more than the idle TTL after the last activity, nor past its absolute limit. */
  predicate RowOk(ttl: Ttl, s: State, t: Token)
    requires t in s.rows
  {
    && t in s.activity && s.rows[t].expires <= s.activity[t] + ttl.idle
    && s.rows[t].absolute == s.rows[t].created + ttl.absolute
  }

  predicate RequestOk(ttl: Ttl, s: State, q: Request) {
    q.Refreshing? ==>
      && q.accept.token in s.activity && q.accept.at <= s.activity[q.accept.token]
      && q.expires <= q.accept.at + ttl.idle && q.accept.InTime(ttl)
  }

  predicate Inv(ttl: Ttl, s: State) {
    && (forall t :: t in s.rows ==> RowOk(ttl, s, t))
    && (forall r :: r in s.requests ==> RequestOk(ttl, s, s.requests[r]))
    && (forall i :: 0 <= i < |s.accepted| ==> s.accepted[i].InTime(ttl))
  }

  lemma RowsStep(ttl: Ttl, s: State, ev: Event, t: Token)
    requires Inv(ttl, s) && Enabled(s, ev) && t in Apply(ttl, s, ev).rows
    ensures RowOk(ttl, Apply(ttl, s, ev), t)
  {
    if ev.WriteRefresh? { assert RequestOk(ttl, s, s.requests[ev.r]); }
    if t in s.rows { assert RowOk(ttl, s, t); }
  }

  lemma RequestsStep(ttl: Ttl, s: State, ev: Event, r: nat)
    requires Inv(ttl, s) && Enabled(s, ev) && r in Apply(ttl, s, ev).requests
    ensures RequestOk(ttl, Apply(ttl, s, ev), Apply(ttl, s, ev).requests[r])
  {
    if r in s.requests { assert RequestOk(ttl, s, s.requests[r]); }
    if ev.LookUp? && s.requests[ev.r].token in s.rows { assert RowOk(ttl, s, s.requests[ev.r].token); }
  }

  lemma AcceptedStep(ttl: Ttl, s: State, ev: Event, i: nat)
    requires Inv(ttl, s) && Enabled(s, ev) && i < |Apply(ttl, s, ev).accepted|
    ensures Apply(ttl, s, ev).accepted[i].InTime(ttl)
  {
    if ev.WriteRefresh? { assert RequestOk(ttl, s, s.requests[ev.r]); }
    if ev.LookUp? && s.requests[ev.r].token in s.rows { assert RowOk(ttl, s, s.requests[ev.r].token); }
  }

  lemma InvStep(ttl: Ttl, s: State, ev: Event)
    requires Inv(ttl, s) && Enabled(s, ev)
    ensures Inv(ttl, Apply(ttl, s, ev))
  {
    hide Enabled, Apply, RowOk, RequestOk;
    var s' := Apply(ttl, s, ev);
    forall t | t in s'.rows ensures RowOk(ttl, s', t) { RowsStep(ttl, s, ev, t); }
    forall r | r in s'.requests ensures RequestOk(ttl, s', s'.requests[r]) { RequestsStep(ttl, s, ev, r); }
    forall i | 0 <= i < |s'.accepted| ensures s'.accepted[i].InTime(ttl) { AcceptedStep(ttl, s, ev, i); }
  }

  lemma {:induction false} InvRun(ttl: Ttl, s: State, evs: seq<Event>)
    requires Inv(ttl, s) && ValidRun(ttl, s, evs)
    ensures Inv(ttl, Final(ttl, s, evs))
    decreases |evs|
  {
    hide Inv, Enabled, Apply;
    if evs != [] {
      InvStep(ttl, s, evs[0]);
      InvRun(ttl, Apply(ttl, s, evs[0]), evs[1..]);
    }
  }

  /**
   Under any interleaving of requests, logins, logouts and key changes, every authentication that
   succeeds came before the session's creation plus the absolute TTL, and less than the idle TTL
   after the session's last activity.
   */
  lemma NoAuthenticationTooLate(ttl: Ttl, evs: seq<Event>, i: nat)
    requires ValidRun(ttl, INIT, evs) && i < |Final(ttl, INIT, evs).accepted|
    ensures var a := Final(ttl, INIT, evs).accepted[i];
            a.at < a.created + ttl.absolute && a.at < a.lastActivity + ttl.idle
  {
    InvRun(ttl, INIT, evs);
  }

  // ---------- whose requests are accepted ----------

  /** The state after the first i steps of a run. */
  ghost function StateAt(ttl: Ttl, h: seq<Event>, i: nat): State
    requires ValidRun(ttl, INIT, h) && i <= |h|
  {
    PrefixIsValid(ttl, INIT, h, i);
    Final(ttl, INIT, h[..i])
  }

  lemma {:induction false} PrefixIsValid(ttl: Ttl, s: State, h: seq<Event>, i: nat)
    requires ValidRun(ttl, s, h) && i <= |h|
    ensures ValidRun(ttl, s, h[..i])
    ensures i < |h| ==> Enabled(Final(ttl, s, h[..i]), h[i])
    ensures i < |h| ==>
              ValidRun(ttl, s, h[..i + 1]) && Final(ttl, s, h[..i + 1]) == Apply(ttl, Final(ttl, s, h[..i]), h[i])
    decreases i
  {
    hide Enabled, Apply;
    if i > 0 {
      PrefixIsValid(ttl, Apply(ttl, s, h[0]), h[1..], i - 1);
      assert h[..i][1..] == h[1..][..i - 1];
    }
    if i < |h| {
      assert h[..i + 1][1..] == h[1..][..i];
      assert i == 0 ==> h[1..][..0] == [];
    }
  }

  lemma NextState(ttl: Ttl, h: seq<Event>, i: nat)
    requires ValidRun(ttl, INIT, h) && i < |h|
    ensures Enabled(StateAt(ttl, h, i), h[i]) && StateAt(ttl, h, i + 1) == Apply(ttl, StateAt(ttl, h, i), h[i])
  {
    PrefixIsValid(ttl, INIT, h, i);
  }

  /** Step j issued the token for `key`, and up to step n it has not been logged out. */
  ghost predicate Issued(ttl: Ttl, h: seq<Event>, n: nat, token: Token, key: KeyId, created: int, j: nat)
    requires ValidRun(ttl, INIT, h) && n <= |h|
  {
    && j < n && h[j] == LogIn(token, key) && key in StateAt(ttl, h, j).keys && created == StateAt(ttl, h, j).now
    && (forall k :: j < k < n ==> h[k] != LogOut(token))
  }

  lemma {:induction false} RowsWereIssued(ttl: Ttl, h: seq<Event>, n: nat, token: Token) returns (j: nat)
    requires ValidRun(ttl, INIT, h) && n <= |h| && token in StateAt(ttl, h, n).rows
    ensures var row := StateAt(ttl, h, n).rows[token]; Issued(ttl, h, n, token, row.key, row.created, j)
    decreases n
  {
    hide StateAt, ValidRun;
    if n == 0 {
      StartsEmpty(ttl, h);
    } else {
      NextState(ttl, h, n - 1);
      if h[n - 1].LogIn? && h[n - 1].token == token {
        j := n - 1;
      } else {
        j := RowsWereIssued(ttl, h, n - 1, token);
      }
    }
  }

  lemma StartsEmpty(ttl: Ttl, h: seq<Event>)
    requires ValidRun(ttl, INIT, h)
    ensures StateAt(ttl, h, 0) == INIT
  {
    assert h[..0] == [];
  }

  /** Step l looks the request up, while the key is enabled and its token, issued at step j, stands. */
  ghost predicate Vouched(ttl: Ttl, h: seq<Event>, n: nat, a: Acceptance, j: nat, l: nat)
    requires ValidRun(ttl, INIT, h) && n <= |h|
  {
    && l < n && h[l].LookUp?
    && var s := StateAt(ttl, h, l);
    && h[l].r in s.requests && s.requests[h[l].r] == Arrived(a.token, a.at)
    && a.key in s.keys && Issued(ttl, h, l, a.token, a.key, a.created, j)
  }

  /** Waiting to write its refresh, or accepted. */
  ghost predicate Standing(s: State, a: Acceptance) {
    a in s.accepted || exists r :: r in s.requests && s.requests[r].Refreshing? && s.requests[r].accept == a
  }

  lemma {:induction false} StandingIsVouched(ttl: Ttl, h: seq<Event>, n: nat, a: Acceptance) returns (j: nat, l: nat)
    requires ValidRun(ttl, INIT, h) && n <= |h| && Standing(StateAt(ttl, h, n), a)
    ensures Vouched(ttl, h, n, a, j, l)
    decreases n
  {
    hide StateAt, ValidRun, Issued;
    if n == 0 {
      StartsEmpty(ttl, h);
    } else {
      NextState(ttl, h, n - 1);
      var s, ev := StateAt(ttl, h, n - 1), h[n - 1];
      if Standing(s, a) {
        j, l := StandingIsVouched(ttl, h, n - 1, a);
      } else {
        NewStanding(ttl, s, ev, a);
        j := RowsWereIssued(ttl, h, n - 1, a.token);
        l := n - 1;
      }
    }
  }

  /** Only a lookup that finds the session of an enabled key makes a request stand. */
  lemma NewStanding(ttl: Ttl, s: State, ev: Event, a: Acceptance)
    requires Enabled(s, ev) && !Standing(s, a) && Standing(Apply(ttl, s, ev), a)
    ensures ev.LookUp? && s.requests[ev.r] == Arrived(a.token, a.at) && a.key in s.keys
    ensures a.token in s.rows && s.rows[a.token].key == a.key && s.rows[a.token].created == a.created
  {
    var s' := Apply(ttl, s, ev);
    if a !in s'.accepted {
      var r :| r in s'.requests && s'.requests[r].Refreshing? && s'.requests[r].accept == a;
      assert r in s.requests ==> s'.requests[r] != s.requests[r];
    }
  }

  /**
   Under any interleaving, every request that is accepted carries a token that a login with an
   enabled key issued and that was not logged out before the request was looked up, and that key
   was enabled at the lookup.
   */
  lemma OnlyEnabledKeysAuthenticate(ttl: Ttl, h: seq<Event>, i: nat)
    requires ValidRun(ttl, INIT, h) && i < |Final(ttl, INIT, h).accepted|
    ensures exists j: nat, l: nat :: Vouched(ttl, h, |h|, Final(ttl, INIT, h).accepted[i], j, l)
  {
    assert h[..|h|] == h;
    var j, l := StandingIsVouched(ttl, h, |h|, Final(ttl, INIT, h).accepted[i]);
  }
}
