/** User sessions: issue, refresh-token rotation, revocation, access validation and retention. */
module Sessions {
  import opened Wrappers

  /** `derivedTTL` bounds the tokens signed for the holder of an access token; 0 if there are none. */
  datatype Config = Config(accessTTL: int, modelTTL: int, derivedTTL: int, refreshTTL: int, retention: int)

  predicate ValidConfig(cfg: Config) {
    cfg.accessTTL > 0 && cfg.modelTTL > 0 && cfg.derivedTTL >= 0 && cfg.refreshTTL > 0 && cfg.retention >= 0
  }

  datatype Session = Session(user: string, lastSeen: int, revokedAt: Option<int>)
  datatype Token = Token(session: string, expires: int, revokedAt: Option<int>)

  /** The tables; `users` maps a user to whether its status is active. */
  datatype Db = Db(users: map<string, bool>, sessions: map<string, Session>, tokens: map<string, Token>)

  /** Control tokens call the control plane, model tokens the gateway; both name a session. */
  datatype Use = Control | Model

  /** The claims of a signed access token. */
  datatype Access = Access(user: string, session: string, use: Use, issuedAt: int, expires: int)

  /** The two tokens signed with every issue and every rotation. */
  function Pair(cfg: Config, user: string, session: string, now: int): set<Access> {
    {Access(user, session, Control, now, now + cfg.accessTTL), Access(user, session, Model, now, now + cfg.modelTTL)}
  }

  /** A token signed for the bearer of a control token: a model test access or an entitlement. */
  function DerivedToken(cfg: Config, a: Access, lifetime: int, now: int): Access {
    Access(a.user, a.session, Model, now, now + if lifetime < cfg.derivedTTL then lifetime else cfg.derivedTTL)
  }

  datatype Outcome =
    | Issued(session: string, hash: string)
    | Rotated(session: string, hash: string)
    | RefreshInvalid
    | AgentExpired
    | AccessValid
    | AccessInvalid
    | SessionNotFound
    | Done

  // ---------------------------------------------------------------- transactions

  function Keep(at: Option<int>, now: int): Option<int> {
    if at.Some? then at else Some(now)
  }

  function IssueSession(cfg: Config, db: Db, user: string, session: string, hash: string, agentExpired: bool,
                        now: int): (Outcome, Db)
  {
    if agentExpired then (AgentExpired, db)
    else if user !in db.users || session in db.sessions || hash in db.tokens then (Done, db)
    else (Issued(session, hash),
          db.(sessions := db.sessions[session := Session(user, now, None)],
              tokens := db.tokens[hash := Token(session, now + cfg.refreshTTL, None)]))
  }

  /** The joined row of a refresh token passes every check of the rotation. */
  predicate Refreshable(db: Db, hash: string, requested: string, now: int) {
    && hash in db.tokens && db.tokens[hash].session in db.sessions
    && var token := db.tokens[hash];
       var session := db.sessions[token.session];
       && session.user in db.users
       && token.revokedAt.None? && session.revokedAt.None? && now <= token.expires
       && (requested != "" ==> requested == token.session)
       && db.users[session.user]
  }

  function RefreshSession(cfg: Config, db: Db, hash: string, requested: string, newHash: string, agentExpired: bool,
                          now: int): (Outcome, Db)
  {
    if !Refreshable(db, hash, requested, now) then (RefreshInvalid, db)
    else if agentExpired then (AgentExpired, db)
    else if newHash in db.tokens then (Done, db)
    else
      var token := db.tokens[hash];
      (Rotated(token.session, newHash),
       db.(tokens := db.tokens[hash := token.(revokedAt := Some(now))]
                              [newHash := Token(token.session, now + cfg.refreshTTL, None)],
           sessions := db.sessions[token.session := db.sessions[token.session].(lastSeen := now)]))
  }

  function RevokeTokenRow(db: Db, hash: string, session: string, now: int): Db {
    if hash in db.tokens && db.tokens[hash].session == session
    then db.(tokens := db.tokens[hash := db.tokens[hash].(revokedAt := Some(now))]) else db
  }

  function RevokeSessionRow(db: Db, session: string, now: int): Db {
    if session in db.sessions
    then db.(sessions := db.sessions[session := db.sessions[session].(revokedAt := Some(now))]) else db
  }

  function RevokedToken(token: Token, now: int): Token {
    token.(revokedAt := Keep(token.revokedAt, now))
  }

  function RevokedSession(session: Session, now: int): Session {
    session.(revokedAt := Keep(session.revokedAt, now))
  }

  function RevokeById(db: Db, session: string, now: int): Db {
    if session !in db.sessions then db
    else db.(tokens := map h | h in db.tokens ::
               if db.tokens[h].session == session then RevokedToken(db.tokens[h], now) else db.tokens[h],
             sessions := db.sessions[session := RevokedSession(db.sessions[session], now)])
  }

  predicate OfUser(db: Db, session: string, user: string) {
    session in db.sessions && db.sessions[session].user == user
  }

  function RevokeUserTokens(db: Db, user: string, now: int): Db {
    db.(tokens := map h | h in db.tokens ::
          if OfUser(db, db.tokens[h].session, user) then RevokedToken(db.tokens[h], now) else db.tokens[h])
  }

  function RevokeUserSessions(db: Db, user: string, now: int): Db {
    db.(sessions := map s | s in db.sessions ::
          if db.sessions[s].user == user then RevokedSession(db.sessions[s], now) else db.sessions[s])
  }

  predicate AccessSession(db: Db, a: Access) {
    && a.user in db.users && db.users[a.user]
    && OfUser(db, a.session, a.user) && db.sessions[a.session].revokedAt.None?
  }

  // ---------------------------------------------------------------- retention

  predicate TokenSweepable(token: Token, cutoff: int) {
    token.expires < cutoff || (token.revokedAt.Some? && token.revokedAt.value < cutoff)
  }

  function CleanTokens(db: Db, batch: set<string>, cutoff: int): Db {
    db.(tokens := map h | h in db.tokens && !(h in batch && TokenSweepable(db.tokens[h], cutoff)) :: db.tokens[h])
  }

  predicate SessionSweepable(db: Db, session: string, cutoff: int, now: int)
    requires session in db.sessions
  {
    var row := db.sessions[session];
    && row.lastSeen < cutoff && (row.revokedAt.Some? ==> row.revokedAt.value < cutoff)
    && (row.revokedAt.Some? || forall h :: h in db.tokens && db.tokens[h].session == session
                                  ==> db.tokens[h].revokedAt.Some? || db.tokens[h].expires <= now)
  }

  /** Deleting a session cascades to its tokens. */
  function CleanSessions(db: Db, batch: set<string>, cutoff: int, now: int): Db {
    var gone := set s | s in db.sessions && s in batch && SessionSweepable(db, s, cutoff, now);
    db.(sessions := map s | s in db.sessions && s !in gone :: db.sessions[s],
        tokens := map h | h in db.tokens && db.tokens[h].session !in gone :: db.tokens[h])
  }

  function Clean(cfg: Config, db: Db, tokenBatch: set<string>, sessionBatch: set<string>, now: int): Db {
    if cfg.retention <= 0 then db
    else CleanSessions(CleanTokens(db, tokenBatch, now - cfg.retention), sessionBatch, now - cfg.retention, now)
  }

  lemma CleanInTwo(cfg: Config, before: Db, pruned: Db, after: Db, tokenBatch: set<string>, sessionBatch: set<string>,
                   now: int)
    requires cfg.retention > 0 && pruned == CleanTokens(before, tokenBatch, now - cfg.retention)
    requires after == CleanSessions(pruned, sessionBatch, now - cfg.retention, now)
    ensures after == Clean(cfg, before, tokenBatch, sessionBatch, now)
  {
  }

  class SessionStore {
    const cfg: Config
    var users: map<string, bool>
    var sessions: map<string, Session>
    var tokens: map<string, Token>

    constructor (cfg: Config)
      ensures this.cfg == cfg && Contents() == Db(map[], map[], map[])
    {
      this.cfg := cfg;
      users, sessions, tokens := map[], map[], map[];
    }

    ghost function Contents(): Db
      reads this
    {
      Db(users, sessions, tokens)
    }

    method IssueUserSession(user: string, session: string, hash: string, agentExpired: bool, now: int)
      returns (o: Outcome)
      modifies this
      ensures (o, Contents()) == IssueSession(cfg, old(Contents()), user, session, hash, agentExpired, now)
    {
      if agentExpired {
        return AgentExpired;
      }
      if user !in users || session in sessions || hash in tokens {
        return Done;
      }
      sessions := sessions[session := Session(user, now, None)];
      tokens := tokens[hash := Token(session, now + cfg.refreshTTL, None)];
      return Issued(session, hash);
    }

    method RefreshUserSession(hash: string, requested: string, newHash: string, agentExpired: bool, now: int)
      returns (o: Outcome)
      modifies this
      ensures (o, Contents()) == RefreshSession(cfg, old(Contents()), hash, requested, newHash, agentExpired, now)
    {
      if hash !in tokens || tokens[hash].session !in sessions {
        return RefreshInvalid;
      }
      var token := tokens[hash];
      var session := sessions[token.session];
      if session.user !in users || token.revokedAt.Some? || session.revokedAt.Some? || now > token.expires
         || (requested != "" && requested != token.session) {
        return RefreshInvalid;
      }
      if !users[session.user] {
        return RefreshInvalid;
      }
      if agentExpired {
        return AgentExpired;
      }
      if newHash in tokens {
        return Done;
      }
      tokens := tokens[hash := token.(revokedAt := Some(now))];
      tokens := tokens[newHash := Token(token.session, now + cfg.refreshTTL, None)];
      sessions := sessions[token.session := session.(lastSeen := now)];
      return Rotated(token.session, newHash);
    }

    method RevokeUserSession(hash: string, session: string, now: int)
      modifies this
      ensures Contents() == if session == "" then old(Contents())
                            else RevokeSessionRow(RevokeTokenRow(old(Contents()), hash, session, now), session, now)
    {
      if session == "" {
        return;
      }
      if hash in tokens && tokens[hash].session == session {
        tokens := tokens[hash := tokens[hash].(revokedAt := Some(now))];
      }
      if session in sessions {
        sessions := sessions[session := sessions[session].(revokedAt := Some(now))];
      }
    }

    method RevokeUserSessionByID(session: string, now: int) returns (o: Outcome)
      modifies this
      ensures Contents() == RevokeById(old(Contents()), session, now)
      ensures o == if session in old(sessions) then Done else SessionNotFound
    {
      if session !in sessions {
        return SessionNotFound;
      }
      tokens := map h | h in tokens ::
        if tokens[h].session == session then RevokedToken(tokens[h], now) else tokens[h];
      sessions := sessions[session := RevokedSession(sessions[session], now)];
      return Done;
    }

    method RevokeUserSessionSet(user: string, now: int)
      modifies this
      ensures Contents() == RevokeUserSessions(RevokeUserTokens(old(Contents()), user, now), user, now)
    {
      tokens := map h | h in tokens ::
        if tokens[h].session in sessions && sessions[tokens[h].session].user == user
        then RevokedToken(tokens[h], now) else tokens[h];
      sessions := map s | s in sessions ::
        if sessions[s].user == user then RevokedSession(sessions[s], now) else sessions[s];
    }

    method ValidateAccessSession(a: Access) returns (active: bool)
      ensures active <==> AccessSession(Contents(), a)
    {
      active := a.user in users && users[a.user] && a.session in sessions && sessions[a.session].user == a.user
                && sessions[a.session].revokedAt.None?;
    }

    method DeleteTokens(batch: set<string>, cutoff: int)
      modifies this`tokens
      ensures Contents() == CleanTokens(old(Contents()), batch, cutoff)
    {
      tokens := map h | h in tokens && !(h in batch && TokenSweepable(tokens[h], cutoff)) :: tokens[h];
    }

    method DeleteSessions(batch: set<string>, cutoff: int, now: int)
      modifies this`tokens, this`sessions
      ensures Contents() == CleanSessions(old(Contents()), batch, cutoff, now)
    {
      var before := Db(users, sessions, tokens);
      var gone := set s | s in sessions && s in batch && SessionSweepable(before, s, cutoff, now);
      sessions := map s | s in sessions && s !in gone :: sessions[s];
      tokens := map h | h in tokens && tokens[h].session !in gone :: tokens[h];
    }

    method CleanupRetention(tokenBatch: set<string>, sessionBatch: set<string>, now: int)
      modifies this
      ensures Contents() == Clean(cfg, old(Contents()), tokenBatch, sessionBatch, now)
    {
      if cfg.retention <= 0 {
        return;
      }
      ghost var before := Contents();
      DeleteTokens(tokenBatch, now - cfg.retention);
      ghost var pruned := Contents();
      DeleteSessions(sessionBatch, now - cfg.retention, now);
      CleanInTwo(cfg, before, pruned, Contents(), tokenBatch, sessionBatch, now);
    }
  }

  // ---------------------------------------------------------------- whole runs

  /** Committed statements of any interleaving; the two-statement revocations are separate steps. */
  datatype Op =
    | SetUser(user: string, active: bool, now: int)
    | Issue(user: string, session: string, hash: string, agentExpired: bool, now: int)
    | Refresh(hash: string, requested: string, newHash: string, agentExpired: bool, now: int)
    | RevokeToken(hash: string, session: string, now: int)
    | RevokeSession(session: string, now: int)
    | RevokeSessionById(session: string, now: int)
    | RevokeTokensOf(user: string, now: int)
    | RevokeSessionsOf(user: string, now: int)
    | Validate(access: Access, now: int)
    | Derive(access: Access, lifetime: int, now: int)
    | Cleanup(tokenBatch: set<string>, sessionBatch: set<string>, now: int)

  /** The tables with the history of generated identifiers and signed access tokens. */
  datatype World = World(db: Db, sessionIds: set<string>, hashes: set<string>, signed: set<Access>)

  const EMPTY := World(Db(map[], map[], map[]), {}, {}, {})

  /** Generated identifiers are new, and only signed access tokens pass verification. */
  predicate Legal(w: World, op: Op) {
    match op
    case Issue(_, session, hash, _, _) => session !in w.sessionIds && hash !in w.hashes
    case Refresh(_, _, newHash, _, _) => newHash !in w.hashes
    case Validate(access, _) => access in w.signed
    case Derive(access, _, _) => access in w.signed && access.use == Control
    case _ => true
  }

  /** The token is unexpired and its session check succeeds. */
  predicate Admitted(w: World, a: Access, now: int) {
    now < a.expires && AccessSession(w.db, a)
  }

  function OutcomeOf(cfg: Config, w: World, op: Op): Outcome {
    match op
    case Issue(user, session, hash, agentExpired, now) =>
      IssueSession(cfg, w.db, user, session, hash, agentExpired, now).0
    case Refresh(hash, requested, newHash, agentExpired, now) =>
      RefreshSession(cfg, w.db, hash, requested, newHash, agentExpired, now).0
    case RevokeSessionById(session, _) => if session in w.db.sessions then Done else SessionNotFound
    case Validate(a, now) => if Admitted(w, a, now) then AccessValid else AccessInvalid
    case Derive(a, _, now) => if Admitted(w, a, now) then AccessValid else AccessInvalid
    case _ => Done
  }

  function Next(cfg: Config, cleaning: bool, w: World, op: Op): World {
    match op
    case SetUser(user, active, _) => w.(db := w.db.(users := w.db.users[user := active]))
    case Issue(user, session, hash, agentExpired, now) =>
      var (o, db) := IssueSession(cfg, w.db, user, session, hash, agentExpired, now);
      World(db, w.sessionIds + {session}, w.hashes + {hash},
            if o.Issued? then w.signed + Pair(cfg, user, session, now) else w.signed)
    case Refresh(hash, requested, newHash, agentExpired, now) =>
      var (o, db) := RefreshSession(cfg, w.db, hash, requested, newHash, agentExpired, now);
      World(db, w.sessionIds, w.hashes + {newHash},
            if o.Rotated? && o.session in w.db.sessions
            then w.signed + Pair(cfg, w.db.sessions[o.session].user, o.session, now) else w.signed)
    case RevokeToken(hash, session, now) => w.(db := RevokeTokenRow(w.db, hash, session, now))
    case RevokeSession(session, now) => w.(db := RevokeSessionRow(w.db, session, now))
    case RevokeSessionById(session, now) => w.(db := RevokeById(w.db, session, now))
    case RevokeTokensOf(user, now) => w.(db := RevokeUserTokens(w.db, user, now))
    case RevokeSessionsOf(user, now) => w.(db := RevokeUserSessions(w.db, user, now))
    case Validate(_, _) => w
    case Derive(a, lifetime, now) =>
      if Admitted(w, a, now) then w.(signed := w.signed + {DerivedToken(cfg, a, lifetime, now)}) else w
    case Cleanup(tokenBatch, sessionBatch, now) =>
      if cleaning then w.(db := Clean(cfg, w.db, tokenBatch, sessionBatch, now)) else w
  }

  /** The step from one world of a run to the next. */
  ghost predicate Follows(cfg: Config, cleaning: bool, run: seq<Op>, worlds: seq<World>, k: nat)
    requires k < |run| && |worlds| == |run| + 1
  {
    Legal(worlds[k], run[k]) && worlds[k + 1] == Next(cfg, cleaning, worlds[k], run[k])
  }

  /** A legal run from the empty tables, with the worlds it goes through. */
  ghost predicate History(cfg: Config, cleaning: bool, run: seq<Op>, worlds: seq<World>) {
    && |worlds| == |run| + 1 && worlds[0] == EMPTY
    && (forall k: nat :: k < |run| ==> Follows(cfg, cleaning, run, worlds, k))
  }

  // ---------------------------------------------------------------- safety of rotation and revocation

  ghost predicate LiveToken(db: Db, hash: string, session: string) {
    hash in db.tokens && db.tokens[hash].session == session && db.tokens[hash].revokedAt.None?
  }

  ghost predicate Consistent(w: World) {
    && (forall h :: h in w.db.tokens ==> h in w.hashes && w.db.tokens[h].session in w.db.sessions)
    && (forall s :: s in w.db.sessions ==> s in w.sessionIds)
    && (forall g, h, s :: LiveToken(w.db, g, s) && LiveToken(w.db, h, s) ==> g == h)
  }

  lemma StepConsistent(cfg: Config, cleaning: bool, w: World, op: Op)
    requires Consistent(w) && Legal(w, op)
    ensures Consistent(Next(cfg, cleaning, w, op))
  {
    var w' := Next(cfg, cleaning, w, op);
    forall g, h, s | LiveToken(w'.db, g, s) && LiveToken(w'.db, h, s)
      ensures g == h
    {
      if op.Refresh? && OutcomeOf(cfg, w, op).Rotated? {
        assert LiveToken(w.db, op.hash, w.db.tokens[op.hash].session);
        assert g != op.newHash ==> LiveToken(w.db, g, s) && g != op.hash;
        assert h != op.newHash ==> LiveToken(w.db, h, s) && h != op.hash;
      } else if op.Issue? && OutcomeOf(cfg, w, op).Issued? {
        assert g != op.hash ==> LiveToken(w.db, g, s) && s in w.sessionIds;
        assert h != op.hash ==> LiveToken(w.db, h, s) && s in w.sessionIds;
      } else {
        assert LiveToken(w.db, g, s) && LiveToken(w.db, h, s);
      }
    }
  }

  /** Over every run, each session has at most one unrevoked refresh token. */
  lemma {:induction false} AtMostOneLiveToken(cfg: Config, cleaning: bool, run: seq<Op>, worlds: seq<World>, n: nat)
    requires History(cfg, cleaning, run, worlds) && n <= |run|
    ensures Consistent(worlds[n])
  {
    if n > 0 {
      AtMostOneLiveToken(cfg, cleaning, run, worlds, n - 1);
      assert Follows(cfg, cleaning, run, worlds, n - 1);
      StepConsistent(cfg, cleaning, worlds[n - 1], run[n - 1]);
    }
  }

  /** The token was generated and is revoked or deleted. */
  ghost predicate Spent(w: World, hash: string) {
    hash in w.hashes && (hash in w.db.tokens ==> w.db.tokens[hash].revokedAt.Some?)
  }

  /** The session existed and is revoked or deleted. */
  ghost predicate Closed(w: World, session: string) {
    session in w.sessionIds && (session in w.db.sessions ==> w.db.sessions[session].revokedAt.Some?)
  }

  lemma StepKeepsSpent(cfg: Config, cleaning: bool, w: World, op: Op, hash: string)
    requires Legal(w, op) && Spent(w, hash)
    ensures Spent(Next(cfg, cleaning, w, op), hash)
    ensures op.Refresh? && op.hash == hash ==> OutcomeOf(cfg, w, op).RefreshInvalid?
  {
  }

  lemma StepKeepsClosed(cfg: Config, cleaning: bool, w: World, op: Op, session: string)
    requires Legal(w, op) && Closed(w, session)
    ensures Closed(Next(cfg, cleaning, w, op), session)
    ensures !(OutcomeOf(cfg, w, op).Rotated? && OutcomeOf(cfg, w, op).session == session)
    ensures (op.Validate? || op.Derive?) && op.access.session == session ==> OutcomeOf(cfg, w, op) == AccessInvalid
  {
  }

  lemma {:induction false} SpentForever(cfg: Config, cleaning: bool, run: seq<Op>, worlds: seq<World>, i: nat, j: nat,
                                        hash: string)
    requires History(cfg, cleaning, run, worlds) && i <= j <= |run| && Spent(worlds[i], hash)
    ensures Spent(worlds[j], hash)
    decreases j
  {
    if i < j {
      SpentForever(cfg, cleaning, run, worlds, i, j - 1, hash);
      assert Follows(cfg, cleaning, run, worlds, j - 1);
      StepKeepsSpent(cfg, cleaning, worlds[j - 1], run[j - 1], hash);
    }
  }

  lemma {:induction false} ClosedForever(cfg: Config, cleaning: bool, run: seq<Op>, worlds: seq<World>, i: nat,
                                         j: nat, session: string)
    requires History(cfg, cleaning, run, worlds) && i <= j <= |run| && Closed(worlds[i], session)
    ensures Closed(worlds[j], session)
    decreases j
  {
    if i < j {
      ClosedForever(cfg, cleaning, run, worlds, i, j - 1, session);
      assert Follows(cfg, cleaning, run, worlds, j - 1);
      StepKeepsClosed(cfg, cleaning, worlds[j - 1], run[j - 1], session);
    }
  }

  lemma RotationSpends(cfg: Config, cleaning: bool, w: World, op: Op)
    requires Consistent(w) && Legal(w, op) && op.Refresh? && OutcomeOf(cfg, w, op).Rotated?
    ensures Spent(Next(cfg, cleaning, w, op), op.hash)
  {
  }

  /** A refresh token is rotated at most once in any run. */
  lemma RotatedAtMostOnce(cfg: Config, cleaning: bool, run: seq<Op>, worlds: seq<World>, i: nat, j: nat)
    requires History(cfg, cleaning, run, worlds) && i < j < |run|
    requires run[i].Refresh? && OutcomeOf(cfg, worlds[i], run[i]).Rotated?
    requires run[j].Refresh? && OutcomeOf(cfg, worlds[j], run[j]).Rotated?
    ensures run[i].hash != run[j].hash
  {
    AtMostOneLiveToken(cfg, cleaning, run, worlds, i);
    assert Follows(cfg, cleaning, run, worlds, i) && Follows(cfg, cleaning, run, worlds, j);
    RotationSpends(cfg, cleaning, worlds[i], run[i]);
    SpentForever(cfg, cleaning, run, worlds, i + 1, j, run[i].hash);
    StepKeepsSpent(cfg, cleaning, worlds[j], run[j], run[i].hash);
  }

  /** The operation is the last statement of a revocation that covers the session. */
  ghost predicate CompletesRevocation(w: World, op: Op, session: string) {
    && session in w.sessionIds
    && match op
       case RevokeSession(s, _) => s == session
       case RevokeSessionById(s, _) => s == session
       case RevokeSessionsOf(user, _) => session in w.db.sessions ==> w.db.sessions[session].user == user
       case _ => false
  }

  lemma CompletionCloses(cfg: Config, cleaning: bool, w: World, op: Op, session: string)
    requires CompletesRevocation(w, op, session)
    ensures Closed(Next(cfg, cleaning, w, op), session)
  {
  }

  /** After a session or user-wide revocation, no later refresh or access check of the session succeeds. */
  lemma RevokedForGood(cfg: Config, cleaning: bool, run: seq<Op>, worlds: seq<World>, i: nat, j: nat, session: string)
    requires History(cfg, cleaning, run, worlds) && i < j < |run|
    requires CompletesRevocation(worlds[i], run[i], session)
    ensures var o := OutcomeOf(cfg, worlds[j], run[j]); !(o.Rotated? && o.session == session)
    ensures (run[j].Validate? || run[j].Derive?) && run[j].access.session == session ==>
              OutcomeOf(cfg, worlds[j], run[j]) == AccessInvalid
  {
    assert Follows(cfg, cleaning, run, worlds, i) && Follows(cfg, cleaning, run, worlds, j);
    CompletionCloses(cfg, cleaning, worlds[i], run[i], session);
    ClosedForever(cfg, cleaning, run, worlds, i + 1, j, session);
    StepKeepsClosed(cfg, cleaning, worlds[j], run[j], session);
  }

  // ---------------------------------------------------------------- what the transactions achieve

  predicate ActiveUser(db: Db, user: string) {
    user in db.users && db.users[user]
  }

  /** A login opens a session whose token and access work exactly while the user is active. */
  lemma IssueOpensSession(cfg: Config, cleaning: bool, w: World, op: Op, later: int)
    requires Consistent(w) && Legal(w, op) && op.Issue?
    ensures var o, after := OutcomeOf(cfg, w, op), Next(cfg, cleaning, w, op);
            && (o.Issued? <==> op.user in w.db.users && !op.agentExpired)
            && (o.Issued? ==>
                  && (Refreshable(after.db, op.hash, op.session, later)
                      <==> later <= op.now + cfg.refreshTTL && ActiveUser(w.db, op.user))
                  && (forall a :: a in Pair(cfg, op.user, op.session, op.now) ==>
                        && a in after.signed
                        && (Admitted(after, a, later) <==> later < a.expires && ActiveUser(w.db, op.user))))
  {
  }

  /** The exchange happens exactly for a usable token; its successor then is usable for a full lifetime. */
  lemma RotationHandsOver(cfg: Config, cleaning: bool, w: World, op: Op, later: int)
    requires Consistent(w) && Legal(w, op) && op.Refresh?
    ensures var o, after := OutcomeOf(cfg, w, op), Next(cfg, cleaning, w, op);
            && (o.Rotated? <==> Refreshable(w.db, op.hash, op.requested, op.now) && !op.agentExpired)
            && (o.Rotated? ==>
                  && o.hash == op.newHash && o.session == w.db.tokens[op.hash].session
                  && (Refreshable(after.db, op.newHash, o.session, later) <==> later <= op.now + cfg.refreshTTL)
                  && !Refreshable(after.db, op.hash, "", later)
                  && Pair(cfg, w.db.sessions[o.session].user, o.session, op.now) <= after.signed)
            && (!o.Rotated? ==> after.db == w.db)
  {
  }

  /** No other token notices the exchange. */
  lemma RotationIsLocal(cfg: Config, cleaning: bool, w: World, op: Op, other: string, later: int)
    requires Consistent(w) && Legal(w, op) && op.Refresh? && other != op.hash && other != op.newHash
    ensures Refreshable(Next(cfg, cleaning, w, op).db, other, "", later) <==> Refreshable(w.db, other, "", later)
  {
  }

  /** The tokens a revocation statement takes from their bearers. */
  predicate Covers(db: Db, op: Op, hash: string) {
    && hash in db.tokens
    && match op
       case RevokeToken(h, s, _) => hash == h && db.tokens[hash].session == s
       case RevokeSession(s, _) => db.tokens[hash].session == s
       case RevokeSessionById(s, _) => db.tokens[hash].session == s
       case RevokeTokensOf(user, _) => OfUser(db, db.tokens[hash].session, user)
       case RevokeSessionsOf(user, _) => OfUser(db, db.tokens[hash].session, user)
       case _ => false
  }

  /** A revocation takes exactly the tokens it covers. */
  lemma RevocationIsExact(cfg: Config, cleaning: bool, w: World, op: Op, hash: string, requested: string, later: int)
    requires op.RevokeToken? || op.RevokeSession? || op.RevokeSessionById? || op.RevokeTokensOf? || op.RevokeSessionsOf?
    ensures Refreshable(Next(cfg, cleaning, w, op).db, hash, requested, later)
       <==> Refreshable(w.db, hash, requested, later) && !Covers(w.db, op, hash)
  {
  }
}
