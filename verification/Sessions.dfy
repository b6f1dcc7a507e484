/**
 Login, refresh, logout and portal revocation over the session table and the
 Redis families, one request at a time (app/services/auth.py,
 app/services/portal.py).  A request that raises rolls its database work back
 (app/dependencies/db.py) but keeps what it did in Redis.
 */
module Sessions {
  import opened Wrappers
  import opened TokenFamily

  /** Seven days, the configured default. */
  const REFRESH_TTL: nat := 7 * 86400

  datatype Session = Session(user: nat, family: nat, hash: Hash, revoked: bool, expiresAt: int)

  type Table = map<nat, Session>

  datatype State = State(sets: Sets, sessions: Table, users: set<nat>)

  datatype Op =
    | Login(user: nat, passwordOk: bool, suspended: bool, family: nat, session: nat, now: nat)
    | Refresh(token: Token, decodes: bool, now: nat)
    | Logout(token: Token, decodes: bool)
    | RevokeSession(session: nat, caller: nat)
    | RevokeAll(caller: nat, keep: Option<nat>)
    | KeyExpires(family: nat)
    | DeleteUser(user: nat)

  // ---- Specification ------------------------------------------------------

  function RevokeWhere(t: Table, ids: set<nat>): Table {
    map id | id in t :: if id in ids then t[id].(revoked := true) else t[id]
  }

  function LiveRows(t: Table, family: nat): set<nat> {
    set id | id in t && t[id].family == family && !t[id].revoked
  }

  function RowsHolding(t: Table, family: nat, h: Hash): set<nat> {
    set id | id in t && t[id].family == family && t[id].hash == h && !t[id].revoked
  }

  function Revocable(t: Table, user: nat, keep: Option<nat>): set<nat> {
    set id | id in t && t[id].user == user && !t[id].revoked && !(keep.Some? && t[id].family == keep.value)
  }

  function Families(t: Table, ids: set<nat>): set<nat> {
    set id | id in ids && id in t :: t[id].family
  }

  /** One more row revoked, one more family dropped. */
  lemma RevokeOneMore(sets: Sets, t: Table, done: set<nat>, id: nat)
    requires id in t && id !in done
    ensures RevokeWhere(t, done)[id := t[id].(revoked := true)] == RevokeWhere(t, done + {id})
    ensures RevokeWhere(t, done)[id] == t[id]
    ensures (sets - Families(t, done)) - {t[id].family} == sets - Families(t, done + {id})
  {
    assert Families(t, done + {id}) == Families(t, done) + {t[id].family};
  }

  lemma NothingRevoked(sets: Sets, t: Table)
    ensures RevokeWhere(t, {}) == t && sets - Families(t, {}) == sets
  {
  }

  function RotateRows(t: Table, ids: set<nat>, h: Hash, now: int): Table {
    map id | id in t :: if id in ids then t[id].(hash := h, expiresAt := now + REFRESH_TTL) else t[id]
  }

  function DoLogin(s: State, op: Op): (State, Result<Token>)
    requires op.Login?
  {
    if op.user !in s.users || !op.passwordOk then (s, Err(Unauthorized))
    else if op.suspended then (s, Err(Forbidden))
    else
      var token := Token(op.user, op.family, op.now);
      var row := Session(op.user, op.family, Hash(token), false, op.now + REFRESH_TTL);
      (State(s.sets[op.family := Members(s.sets, op.family) + {Hash(token)}], s.sessions[op.session := row], s.users),
       Ok(token))
  }

  function DoRefresh(s: State, op: Op): (State, Result<Token>)
    requires op.Refresh?
  {
    if !op.decodes then (s, Err(Unauthorized))
    else
      var o, f := op.token, op.token.family;
      var n := Token(o.user, f, op.now);
      var redisOnly := s.(sets := RotatedSets(s.sets, f, Hash(o), Hash(n)));
      var rows := RowsHolding(s.sessions, f, Hash(o));
      if Hash(o) !in Members(s.sets, f) then (redisOnly, Err(Unauthorized))
      else if |rows| > 1 then (redisOnly, Err(Crash))
      else if o.user !in s.users then (redisOnly, Err(Unauthorized))
      else (redisOnly.(sessions := RotateRows(s.sessions, rows, Hash(n), op.now)), Ok(n))
  }

  function DoLogout(s: State, token: Token): State {
    State(s.sets - {token.family}, RevokeWhere(s.sessions, LiveRows(s.sessions, token.family)), s.users)
  }

  predicate OwnLive(s: State, id: nat, caller: nat) {
    id in s.sessions && s.sessions[id].user == caller && !s.sessions[id].revoked
  }

  /** Revokes the rows and drops their families. */
  function DoRevokeRows(s: State, ids: set<nat>): State {
    State(s.sets - Families(s.sessions, ids), RevokeWhere(s.sessions, ids), s.users)
  }

  function Apply(s: State, op: Op): State {
    match op
    case Login(_, _, _, _, _, _) => DoLogin(s, op).0
    case Refresh(_, _, _) => DoRefresh(s, op).0
    case Logout(token, decodes) => if decodes then DoLogout(s, token) else s
    case RevokeSession(id, caller) => if OwnLive(s, id, caller) then DoRevokeRows(s, {id}) else s
    case RevokeAll(caller, keep) => DoRevokeRows(s, Revocable(s.sessions, caller, keep))
    case KeyExpires(f) => s.(sets := s.sets - {f})
    case DeleteUser(u) => s.(users := s.users - {u})
  }

  function Run(s: State, ops: seq<Op>): State
    decreases |ops|
  {
    if ops == [] then s else Run(Apply(s, ops[0]), ops[1..])
  }

  // ---- The services -------------------------------------------------------

  class AuthService {
    const families: TokenFamilyService
    var sessions: Table
    var users: set<nat>

    constructor (families: TokenFamilyService, users: set<nat>)
      ensures this.families == families && sessions == map[] && this.users == users
    {
      this.families := families;
      this.sessions := map[];
      this.users := users;
    }

    function Current(): State
      reads this, families.redis
    {
      State(families.redis.sets, sessions, users)
    }

    method Login(user: nat, passwordOk: bool, suspended: bool, family: nat, session: nat, now: nat)
      returns (r: Result<Token>)
      modifies this`sessions, families.redis
      ensures (Current(), r) == DoLogin(old(Current()), Op.Login(user, passwordOk, suspended, family, session, now))
    {
      if user !in users || !passwordOk {
        return Err(Unauthorized);
      }
      if suspended {
        return Err(Forbidden);
      }
      var token := Token(user, family, now);
      sessions := sessions[session := Session(user, family, Hash(token), false, now + REFRESH_TTL)];
      families.Register(family, token);
      return Ok(token);
    }

    method Refresh(token: Token, decodes: bool, now: nat) returns (r: Result<Token>)
      modifies this`sessions, families.redis
      ensures (Current(), r) == DoRefresh(old(Current()), Op.Refresh(token, decodes, now))
    {
      if !decodes {
        return Err(Unauthorized);
      }
      var committed := sessions;
      var minted := Token(token.user, token.family, now);
      var valid := families.ValidateAndRotate(token.family, token, minted);
      if !valid {
        RevokeFamilySessions(token.family);
        sessions := committed; // the exception rolls the revocation back
        return Err(Unauthorized);
      }
      var rotated := RotateSession(token, minted, now);
      if !rotated {
        sessions := committed;
        return Err(Crash);
      }
      if token.user !in users {
        sessions := committed;
        return Err(Unauthorized);
      }
      return Ok(minted);
    }

    /** False when more than one row matches, which the ORM reports as an error. */
    method RotateSession(oldToken: Token, newToken: Token, now: int) returns (ok: bool)
      modifies this`sessions
      ensures var rows := RowsHolding(old(sessions), oldToken.family, Hash(oldToken));
              && (ok <==> |rows| <= 1)
              && sessions == if ok then RotateRows(old(sessions), rows, Hash(newToken), now) else old(sessions)
    {
      var rows := RowsHolding(sessions, oldToken.family, Hash(oldToken));
      if |rows| > 1 {
        return false;
      }
      if rows != {} {
        var id :| id in rows;
        assert rows == {id} by {
          assert |rows - {id}| == |rows| - 1;
        }
        sessions := sessions[id := sessions[id].(hash := Hash(newToken), expiresAt := now + REFRESH_TTL)];
      }
      assert sessions == RotateRows(old(sessions), rows, Hash(newToken), now);
      return true;
    }

    method RevokeFamilySessions(family: nat)
      modifies this`sessions
      ensures sessions == RevokeWhere(old(sessions), LiveRows(old(sessions), family))
    {
      var rows := LiveRows(sessions, family);
      var todo := rows;
      while todo != {}
        invariant todo <= rows
        invariant sessions == RevokeWhere(old(sessions), rows - todo)
        decreases todo
      {
        var id :| id in todo;
        RevokeOneMore(families.redis.sets, old(sessions), rows - todo, id);
        assert rows - (todo - {id}) == rows - todo + {id};
        todo := todo - {id};
        sessions := sessions[id := sessions[id].(revoked := true)];
      }
      assert rows - todo == rows;
    }

    method Logout(token: Token, decodes: bool)
      modifies this`sessions, families.redis
      ensures Current() == if decodes then DoLogout(old(Current()), token) else old(Current())
    {
      if decodes {
        families.RevokeFamily(token.family);
        RevokeFamilySessions(token.family);
      }
    }

    /** Marks one row and drops its family. */
    method RevokeRow(id: nat)
      requires id in sessions
      modifies this`sessions, families.redis
      ensures sessions == old(sessions)[id := old(sessions)[id].(revoked := true)]
      ensures families.redis.sets == old(families.redis.sets) - {old(sessions)[id].family}
    {
      sessions := sessions[id := sessions[id].(revoked := true)];
      families.RevokeFamily(sessions[id].family);
    }

    method RevokeSession(session: nat, caller: nat) returns (r: Result<()>)
      modifies this`sessions, families.redis
      ensures r.Ok? <==> OwnLive(old(Current()), session, caller)
      ensures Current() == if r.Ok? then DoRevokeRows(old(Current()), {session}) else old(Current())
    {
      if !OwnLive(Current(), session, caller) {
        return Err(NotFound);
      }
      RevokeRow(session);
      assert sessions == RevokeWhere(old(sessions), {session});
      assert Families(old(sessions), {session}) == {old(sessions)[session].family};
      return Ok(());
    }

    method RevokeAll(caller: nat, keep: Option<nat>) returns (count: nat)
      modifies this`sessions, families.redis
      ensures Current() == DoRevokeRows(old(Current()), Revocable(old(sessions), caller, keep))
      ensures count == |Revocable(old(sessions), caller, keep)|
    {
      var rows := Revocable(sessions, caller, keep);
      ghost var table, sets, done: set<nat> := sessions, families.redis.sets, {};
      var todo := rows;
      count := 0;
      NothingRevoked(sets, table);
      while todo != {}
        invariant todo !! done && todo + done == rows && count == |done|
        invariant sessions == RevokeWhere(table, done) && families.redis.sets == sets - Families(table, done)
        decreases todo
      {
        var id :| id in todo;
        RevokeOneMore(sets, table, done, id);
        todo, done := todo - {id}, done + {id};
        RevokeRow(id);
        count := count + 1;
      }
      assert done == rows;
    }
  }

  // ---- Agreement of Redis and the session table --------------------------

  ghost predicate Holds(s: State, id: nat, family: nat, h: Hash) {
    id in s.sessions && s.sessions[id].family == family && s.sessions[id].hash == h && !s.sessions[id].revoked
  }

  /** Every hash Redis accepts is held by exactly one unrevoked row. */
  ghost predicate Agree(s: State) {
    forall f, h | h in Members(s.sets, f) :: exists id :: RowsHolding(s.sessions, f, h) == {id}
  }

  ghost predicate Inv(s: State) {
    && (forall f, h | h in Members(s.sets, f) :: exists id :: Holds(s, id, f, h))
    && (forall i, j | i in s.sessions && j in s.sessions && s.sessions[i].family == s.sessions[j].family :: i == j)
    && (forall f, h, k | h in Members(s.sets, f) && k in Members(s.sets, f) :: h == k)
    && (forall id | id in s.sessions :: OwnToken(s.sessions[id]))
  }

  /** The row's user and family are those of the token it holds. */
  predicate OwnToken(row: Session) {
    row.hash.token.user == row.user && row.hash.token.family == row.family
  }

  lemma InvAgrees(s: State)
    requires Inv(s)
    ensures Agree(s)
  {
    forall f, h | h in Members(s.sets, f) ensures exists id :: RowsHolding(s.sessions, f, h) == {id} {
      var id: nat :| Holds(s, id, f, h);
      assert RowsHolding(s.sessions, f, h) == {id};
    }
  }

  /** uuid4 never repeats a family or a row id. */
  ghost predicate FreshLogin(s: State, op: Op) {
    op.Login? ==>
      && op.session !in s.sessions && op.family !in s.sets
      && forall id | id in s.sessions :: s.sessions[id].family != op.family
  }

  ghost predicate FreshLogins(s: State, ops: seq<Op>)
    decreases |ops|
  {
    ops == [] || (FreshLogin(s, ops[0]) && FreshLogins(Apply(s, ops[0]), ops[1..]))
  }

  /** A refresh that rotates in Redis, if any, is for an existing user or mints the
      token it consumes. */
  predicate KeepsAgreement(s: State, op: Op) {
    (op.Refresh? && op.decodes && Hash(op.token) in Members(s.sets, op.token.family)) ==>
      op.token.user in s.users || op.now == op.token.issuedAt
  }

  ghost predicate AllKeepAgreement(s: State, ops: seq<Op>)
    decreases |ops|
  {
    ops == [] || (KeepsAgreement(s, ops[0]) && AllKeepAgreement(Apply(s, ops[0]), ops[1..]))
  }

  lemma LoginKeepsInv(s: State, op: Op)
    requires Inv(s) && op.Login? && FreshLogin(s, op)
    ensures Inv(Apply(s, op))
  {
    var t := Apply(s, op);
    forall f, h | h in Members(t.sets, f) ensures exists id :: Holds(t, id, f, h) {
      if h in Members(s.sets, f) {
        var id: nat :| Holds(s, id, f, h);
        assert Holds(t, id, f, h);
      } else {
        assert Holds(t, op.session, f, h);
      }
    }
  }

  /** Dropping families and revoking only rows of dropped families keeps Inv. */
  lemma RevocationKeepsInv(s: State, dropped: set<nat>, ids: set<nat>)
    requires Inv(s)
    requires forall id | id in ids && id in s.sessions :: s.sessions[id].family in dropped
    ensures Inv(State(s.sets - dropped, RevokeWhere(s.sessions, ids), s.users))
  {
    var t := State(s.sets - dropped, RevokeWhere(s.sessions, ids), s.users);
    forall f, h | h in Members(t.sets, f) ensures exists id :: Holds(t, id, f, h) {
      assert h in Members(s.sets, f);
      var id: nat :| Holds(s, id, f, h);
      assert Holds(t, id, f, h);
    }
  }

  lemma RefreshKeepsInv(s: State, op: Op)
    requires Inv(s) && op.Refresh? && KeepsAgreement(s, op)
    ensures Inv(Apply(s, op))
  {
    if op.decodes && Hash(op.token) in Members(s.sets, op.token.family) {
      var t, o, fam := Apply(s, op), Hash(op.token), op.token.family;
      var row: nat :| Holds(s, row, fam, o);
      assert RowsHolding(s.sessions, fam, o) == {row};
      forall f, h | h in Members(t.sets, f) ensures exists id :: Holds(t, id, f, h) {
        if f == fam {
          assert Holds(t, row, f, h);
        } else {
          assert h in Members(s.sets, f);
          var id: nat :| Holds(s, id, f, h);
          assert Holds(t, id, f, h);
        }
      }
    } else if op.decodes {
      RevocationKeepsInv(s, {op.token.family}, {});
      assert RevokeWhere(s.sessions, {}) == s.sessions;
    }
  }

  lemma StepKeepsInv(s: State, op: Op)
    requires Inv(s) && FreshLogin(s, op) && KeepsAgreement(s, op)
    ensures Inv(Apply(s, op))
  {
    match op
    case Login(_, _, _, _, _, _) => LoginKeepsInv(s, op);
    case Refresh(_, _, _) => RefreshKeepsInv(s, op);
    case Logout(token, _) => RevocationKeepsInv(s, {token.family}, LiveRows(s.sessions, token.family));
    case RevokeSession(id, _) =>
      RevocationKeepsInv(s, Families(s.sessions, {id}), {id});
    case RevokeAll(caller, keep) =>
      var ids := Revocable(s.sessions, caller, keep);
      RevocationKeepsInv(s, Families(s.sessions, ids), ids);
    case KeyExpires(f) =>
      RevocationKeepsInv(s, {f}, {});
      assert RevokeWhere(s.sessions, {}) == s.sessions;
    case DeleteUser(u) =>
      forall f, h | h in Members(s.sets, f) ensures exists id :: Holds(Apply(s, op), id, f, h) {
        var id: nat :| Holds(s, id, f, h);
        assert Holds(Apply(s, op), id, f, h);
      }
  }

  lemma {:induction false} RunKeepsInv(s: State, ops: seq<Op>)
    requires Inv(s) && FreshLogins(s, ops) && AllKeepAgreement(s, ops)
    ensures Inv(Run(s, ops))
    decreases |ops|
  {
    if ops != [] {
      StepKeepsInv(s, ops[0]);
      RunKeepsInv(Apply(s, ops[0]), ops[1..]);
    }
  }

  /** The user check comes after the Redis rotation, so a refresh for a deleted
      user breaks the agreement: an accepted refresh keeps it exactly when the
      user exists or the new token equals the old one. */
  lemma RefreshAgreesIff(s: State, op: Op)
    requires Inv(s) && op.Refresh? && op.decodes
    requires Hash(op.token) in Members(s.sets, op.token.family)
    ensures Agree(Apply(s, op)) <==> op.token.user in s.users || op.now == op.token.issuedAt
  {
    if op.token.user in s.users || op.now == op.token.issuedAt {
      RefreshKeepsInv(s, op);
      InvAgrees(Apply(s, op));
    } else {
      var t, fam := Apply(s, op), op.token.family;
      var n := Hash(Token(op.token.user, fam, op.now));
      assert n in Members(t.sets, fam);
      var row: nat :| Holds(s, row, fam, Hash(op.token));
      forall id | id in t.sessions && t.sessions[id].family == fam ensures t.sessions[id].hash != n {
        assert id == row;
      }
      assert RowsHolding(t.sessions, fam, n) == {};
    }
  }

  ghost predicate AgreesThroughout(s: State, ops: seq<Op>)
    decreases |ops|
  {
    Agree(s) && (ops == [] || AgreesThroughout(Apply(s, ops[0]), ops[1..]))
  }

  /** So the agreement holds all along a run exactly when no refresh of the run
      rotates the token of a deleted user in a later second than it was issued. */
  lemma {:induction false} AgreesThroughoutIff(s: State, ops: seq<Op>)
    requires Inv(s) && FreshLogins(s, ops)
    ensures AgreesThroughout(s, ops) <==> AllKeepAgreement(s, ops)
    decreases |ops|
  {
    InvAgrees(s);
    if ops != [] {
      if KeepsAgreement(s, ops[0]) {
        StepKeepsInv(s, ops[0]);
        AgreesThroughoutIff(Apply(s, ops[0]), ops[1..]);
      } else {
        RefreshAgreesIff(s, ops[0]);
      }
    }
  }

  /** Over every run of logins, refreshes, logouts, revocations, key expiry and user
      deletion: each accepted hash is held by exactly one unrevoked row all along
      exactly when no deleted user's token is rotated, and then at the end too. */
  lemma RedisAgreesWithSessions(users: set<nat>, ops: seq<Op>)
    requires FreshLogins(State(map[], map[], users), ops)
    ensures var start := State(map[], map[], users);
      && (AgreesThroughout(start, ops) <==> AllKeepAgreement(start, ops))
      && (AllKeepAgreement(start, ops) ==> Agree(Run(start, ops)))
  {
    var start := State(map[], map[], users);
    AgreesThroughoutIff(start, ops);
    if AllKeepAgreement(start, ops) {
      RunKeepsInv(start, ops);
      InvAgrees(Run(start, ops));
    }
  }

  /** A family that was issued and that Redis no longer knows. */
  ghost predicate Retired(s: State, family: nat) {
    Members(s.sets, family) == {} && exists id :: id in s.sessions && s.sessions[id].family == family
  }

  lemma StepKeepsRetired(s: State, op: Op, family: nat)
    requires Retired(s, family) && FreshLogin(s, op)
    ensures Retired(Apply(s, op), family)
    ensures op.Refresh? && op.token.family == family ==> DoRefresh(s, op).1.Err?
  {
    var id :| id in s.sessions && s.sessions[id].family == family;
    assert id in Apply(s, op).sessions && Apply(s, op).sessions[id].family == family;
  }

  /** Once retired, a family is never refreshed again, whatever tokens are presented
      in the meantime. */
  lemma {:induction false} RetiredForever(s: State, ops: seq<Op>, family: nat, last: Op)
    requires Retired(s, family) && FreshLogins(s, ops)
    requires last.Refresh? && last.token.family == family
    ensures DoRefresh(Run(s, ops), last).1.Err?
    decreases |ops|
  {
    if ops == [] {
      StepKeepsRetired(s, last, family);
    } else {
      StepKeepsRetired(s, ops[0], family);
      RetiredForever(Apply(s, ops[0]), ops[1..], family, last);
    }
  }

  /** Logout, portal revocation and detected reuse all retire the family. */
  lemma RevocationRetires(s: State, op: Op, id: nat)
    requires id in s.sessions
    requires var f := s.sessions[id].family;
      || (op.Logout? && op.decodes && op.token.family == f)
      || (op.RevokeSession? && op.session == id && op.caller == s.sessions[id].user && !s.sessions[id].revoked)
      || (op.RevokeAll? && id in Revocable(s.sessions, op.caller, op.keep))
      || (op.Refresh? && op.decodes && op.token.family == f && Hash(op.token) !in Members(s.sets, f))
    ensures Retired(Apply(s, op), s.sessions[id].family)
  {
    var t := Apply(s, op);
    assert id in t.sessions && t.sessions[id].family == s.sessions[id].family;
  }

  /** The reuse path announces that all sessions are revoked, but the exception
      that says so rolls the revocation back: the table is as before, and its
      unrevoked row can never be refreshed again. */
  lemma ReuseStrandsTheRow(s: State, op: Op, id: nat, ops: seq<Op>, last: Op)
    requires op.Refresh? && op.decodes && Hash(op.token) !in Members(s.sets, op.token.family)
    requires id in s.sessions && s.sessions[id].family == op.token.family && !s.sessions[id].revoked
    requires FreshLogins(Apply(s, op), ops)
    requires last.Refresh? && last.token.family == op.token.family
    ensures Apply(s, op).sessions == s.sessions
    ensures DoRefresh(Run(Apply(s, op), ops), last).1.Err?
  {
    RevocationRetires(s, op, id);
    RetiredForever(Apply(s, op), ops, op.token.family, last);
  }

  // ---- The answers --------------------------------------------------------

  function Answer(s: State, op: Op): Result<Token>
    requires op.Login? || op.Refresh?
  {
    if op.Login? then DoLogin(s, op).1 else DoRefresh(s, op).1
  }

  /** Who is let in, and with what error the others are turned away. */
  lemma LoginAnswersIff(s: State, op: Op)
    requires op.Login?
    ensures Answer(s, op).Ok? <==> op.user in s.users && op.passwordOk && !op.suspended
    ensures Answer(s, op) == Err(Forbidden) <==> op.user in s.users && op.passwordOk && op.suspended
    ensures Answer(s, op).Err? ==> Apply(s, op) == s && Answer(s, op).error in {Unauthorized, Forbidden}
  {
  }

  lemma RefreshAnswersIff(s: State, op: Op)
    requires Inv(s) && op.Refresh?
    ensures Answer(s, op).Ok? <==>
      op.decodes && Hash(op.token) in Members(s.sets, op.token.family) && op.token.user in s.users
    ensures Answer(s, op).Err? ==> Answer(s, op).error == Unauthorized && Apply(s, op).sessions == s.sessions
  {
    if Hash(op.token) in Members(s.sets, op.token.family) {
      var id: nat :| Holds(s, id, op.token.family, Hash(op.token));
      assert RowsHolding(s.sessions, op.token.family, Hash(op.token)) == {id};
    }
  }

  /** With two rows that hold the presented token the rotation raises, keeps what it did
      in Redis and nothing else; reachable states have no such rows. */
  lemma TwoRowsCrash(s: State, op: Op, i: nat, j: nat)
    requires op.Refresh? && op.decodes && Hash(op.token) in Members(s.sets, op.token.family)
    requires i != j && Holds(s, i, op.token.family, Hash(op.token)) && Holds(s, j, op.token.family, Hash(op.token))
    ensures Answer(s, op) == Err(Crash) && Apply(s, op) == s.(sets := Apply(s, op).sets)
    ensures Members(Apply(s, op).sets, op.token.family)
         == Members(s.sets, op.token.family) - {Hash(op.token)} + {Hash(Token(op.token.user, op.token.family, op.now))}
    ensures !Inv(s)
  {
    var rows := RowsHolding(s.sessions, op.token.family, Hash(op.token));
    assert {i, j} <= rows;
    assert |{i, j}| == 2;
    SubsetCount({i, j}, rows);
  }

  lemma SubsetCount(a: set<nat>, b: set<nat>)
    requires a <= b
    ensures |a| <= |b|
  {
    assert b == a + (b - a);
    assert |a + (b - a)| == |a| + |b - a|;
  }

  /** The answered token names its user, family and second, is the only one its
      family accepts, and is held by an unrevoked row with seven days to live. */
  ghost predicate IsCurrent(s: State, t: Token, now: nat) {
    && t.issuedAt == now && Members(s.sets, t.family) == {Hash(t)}
    && exists id :: id in s.sessions && s.sessions[id] == Session(t.user, t.family, Hash(t), false, now + 7 * 24 * 3600)
  }

  lemma LoginAnswersCurrent(s: State, op: Op)
    requires Inv(s) && op.Login? && FreshLogin(s, op) && Answer(s, op).Ok?
    ensures var t := Answer(s, op).value;
      t.user == op.user && t.family == op.family && IsCurrent(Apply(s, op), t, op.now)
  {
    assert op.session in Apply(s, op).sessions;
  }

  lemma RefreshAnswersCurrent(s: State, op: Op)
    requires Inv(s) && op.Refresh? && Answer(s, op).Ok?
    ensures var t := Answer(s, op).value;
      t.user == op.token.user && t.family == op.token.family && IsCurrent(Apply(s, op), t, op.now)
  {
    RefreshAnswersIff(s, op);
    var f, o := op.token.family, Hash(op.token);
    var id: nat :| Holds(s, id, f, o);
    assert RowsHolding(s.sessions, f, o) == {id};
    assert Members(s.sets, f) == {o};
    assert id in Apply(s, op).sessions && OwnToken(s.sessions[id]);
  }

  /** In every reachable state: what a login or a refresh answers is the token to
      present next, and presenting it right away succeeds, whenever that is. */
  lemma AnsweredTokenIsAccepted(users: set<nat>, ops: seq<Op>, op: Op, later: nat)
    requires var s := Run(State(map[], map[], users), ops);
      && FreshLogins(State(map[], map[], users), ops) && AllKeepAgreement(State(map[], map[], users), ops)
      && (op.Login? || op.Refresh?) && FreshLogin(s, op) && Answer(s, op).Ok?
    ensures var s := Run(State(map[], map[], users), ops);
      var t := Answer(s, op).value;
      && t.user == (if op.Login? then op.user else op.token.user)
      && t.family == (if op.Login? then op.family else op.token.family)
      && IsCurrent(Apply(s, op), t, op.now)
      && Answer(Apply(s, op), Refresh(t, true, later)) == Ok(Token(t.user, t.family, later))
  {
    var s := Run(State(map[], map[], users), ops);
    RunKeepsInv(State(map[], map[], users), ops);
    if op.Login? {
      LoginAnswersCurrent(s, op);
      LoginAnswersIff(s, op);
    } else {
      RefreshAnswersCurrent(s, op);
      RefreshAnswersIff(s, op);
    }
    StepKeepsInv(s, op);
    var t := Answer(s, op).value;
    RefreshAnswersIff(Apply(s, op), Refresh(t, true, later));
    RefreshAnswersCurrent(Apply(s, op), Refresh(t, true, later));
  }

  // ---- What a revocation takes and what it spares -------------------------

  /** The rows that an operation revokes. */
  predicate Takes(op: Op, id: nat, row: Session) {
    match op
    case Logout(token, decodes) => decodes && row.family == token.family
    case RevokeSession(session, caller) => id == session && row.user == caller
    case RevokeAll(caller, keep) => row.user == caller && keep != Some(row.family)
    case _ => false
  }

  /** Logout drops the family named, the portal those of the unrevoked rows it takes. */
  ghost predicate Drops(s: State, op: Op, family: nat) {
    if op.Logout? then op.decodes && op.token.family == family
    else exists id :: id in s.sessions && s.sessions[id].family == family && !s.sessions[id].revoked
                      && Takes(op, id, s.sessions[id])
  }

  /** Exactly the rows it takes are revoked, no row changes otherwise, and Redis loses
      exactly the families it drops. */
  lemma RevocationEffect(s: State, op: Op)
    requires op.Logout? || op.RevokeSession? || op.RevokeAll?
    ensures var t := Apply(s, op);
      && t.users == s.users && t.sessions.Keys == s.sessions.Keys
      && (forall id | id in s.sessions ::
            t.sessions[id] == s.sessions[id].(revoked := s.sessions[id].revoked || Takes(op, id, s.sessions[id])))
      && (forall f :: Members(t.sets, f) == if Drops(s, op, f) then {} else Members(s.sets, f))
  {
    if !op.Logout? {
      var ids := if op.RevokeAll? then Revocable(s.sessions, op.caller, op.keep)
                 else if OwnLive(s, op.session, op.caller) then {op.session} else {};
      forall f ensures Drops(s, op, f) <==> f in Families(s.sessions, ids) {
        if Drops(s, op, f) {
          var id: nat :| id in s.sessions && s.sessions[id].family == f && !s.sessions[id].revoked
                         && Takes(op, id, s.sessions[id]);
          assert id in ids;
        }
      }
    }
  }

  /** The two steps of the environment: an expired family accepts nothing, and the
      tokens of a deleted user are answered with an error. */
  lemma ExpiryAndDeletion(s: State, family: nat, op: Op)
    requires Inv(s) && op.Refresh?
    ensures var t := Apply(s, KeyExpires(family));
      && t.sessions == s.sessions && t.users == s.users
      && forall f :: Members(t.sets, f) == if f == family then {} else Members(s.sets, f)
    ensures var t := Apply(s, DeleteUser(op.token.user));
      && t.sessions == s.sessions && t.sets == s.sets && Answer(t, op).Err?
  {
  }
}
