/** What session bearers are answered, read off the events of a run alone. */
module SessionEvents {
  import opened Wrappers
  import opened Sessions

  /** The last status an event gave the user. */
  predicate ActiveIn(run: seq<Op>, user: string) {
    run != []
    && var last := run[|run| - 1];
       if last.SetUser? && last.user == user then last.active else ActiveIn(run[..|run| - 1], user)
  }

  /** The statement takes the session from its user. */
  predicate Closes(op: Op, session: string, user: string) {
    match op
    case RevokeSession(s, _) => s == session
    case RevokeSessionById(s, _) => s == session
    case RevokeSessionsOf(u, _) => u == user
    case _ => false
  }

  /** The statement takes the refresh token from its bearer; a rotation of it succeeds with `rotated`. */
  predicate Spends(op: Op, rotated: bool, hash: string, session: string, user: string) {
    match op
    case Refresh(h, _, _, _, _) => h == hash && rotated
    case RevokeToken(h, s, _) => h == hash && s == session
    case RevokeSessionById(s, _) => s == session
    case RevokeTokensOf(u, _) => u == user
    case _ => false
  }

  // ---------------------------------------------------------------- the rows follow the events

  ghost predicate SessionSays(db: Db, session: string, user: string, closed: bool) {
    session in db.sessions && db.sessions[session].user == user && (db.sessions[session].revokedAt.Some? <==> closed)
  }

  ghost predicate TokenSays(db: Db, hash: string, session: string, expires: int, spent: bool) {
    && hash in db.tokens && db.tokens[hash].session == session && db.tokens[hash].expires == expires
    && (db.tokens[hash].revokedAt.Some? <==> spent)
  }

  lemma SessionStep(cfg: Config, w: World, op: Op, session: string, user: string, closed: bool)
    requires Consistent(w) && Legal(w, op) && SessionSays(w.db, session, user, closed)
    ensures SessionSays(Next(cfg, false, w, op).db, session, user, closed || Closes(op, session, user))
  {
  }

  lemma TokenStep(cfg: Config, w: World, op: Op, hash: string, session: string, user: string, expires: int,
                  spent: bool)
    requires Consistent(w) && Legal(w, op) && session in w.db.sessions && w.db.sessions[session].user == user
    requires TokenSays(w.db, hash, session, expires, spent)
    ensures var rotated := OutcomeOf(cfg, w, op).Rotated?;
            TokenSays(Next(cfg, false, w, op).db, hash, session, expires,
                      spent || Spends(op, rotated, hash, session, user))
  {
  }

  predicate SpendsAt(cfg: Config, run: seq<Op>, worlds: seq<World>, k: nat, hash: string, session: string,
                     user: string)
    requires k < |run| < |worlds|
  {
    Spends(run[k], OutcomeOf(cfg, worlds[k], run[k]).Rotated?, hash, session, user)
  }

  /** From its login on, the row of a session says whether an event has closed it. */
  lemma {:induction false} SessionAlong(cfg: Config, run: seq<Op>, worlds: seq<World>, i: nat, n: nat)
    requires History(cfg, false, run, worlds) && i < n <= |run|
    requires run[i].Issue? && OutcomeOf(cfg, worlds[i], run[i]).Issued?
    ensures var session, user := run[i].session, run[i].user;
            SessionSays(worlds[n].db, session, user, exists k :: i < k < n && Closes(run[k], session, user))
    decreases n
  {
    var session, user := run[i].session, run[i].user;
    assert Follows(cfg, false, run, worlds, n - 1);
    AtMostOneLiveToken(cfg, false, run, worlds, n - 1);
    if i < n - 1 {
      SessionAlong(cfg, run, worlds, i, n - 1);
      SessionStep(cfg, worlds[n - 1], run[n - 1], session, user,
                  exists k :: i < k < n - 1 && Closes(run[k], session, user));
    }
  }

  /** The token is generated at step `m`: by the login of its session, or by a rotation within it. */
  predicate Generates(cfg: Config, run: seq<Op>, worlds: seq<World>, m: nat, hash: string, session: string)
    requires m < |run| < |worlds|
  {
    var o := OutcomeOf(cfg, worlds[m], run[m]);
    || (run[m].Issue? && o == Issued(session, hash))
    || (run[m].Refresh? && o == Rotated(session, hash))
  }

  lemma TokenBegins(cfg: Config, run: seq<Op>, worlds: seq<World>, m: nat, hash: string, session: string)
    requires History(cfg, false, run, worlds) && m < |run| && Generates(cfg, run, worlds, m, hash, session)
    ensures TokenSays(worlds[m + 1].db, hash, session, run[m].now + cfg.refreshTTL, false)
  {
    AtMostOneLiveToken(cfg, false, run, worlds, m);
    assert Follows(cfg, false, run, worlds, m);
  }

  ghost predicate SpentBetween(cfg: Config, run: seq<Op>, worlds: seq<World>, m: nat, n: nat, hash: string,
                               session: string, user: string)
    requires n <= |run| < |worlds|
  {
    exists k :: m < k < n && SpendsAt(cfg, run, worlds, k, hash, session, user)
  }

  /** From its generation on, the row of a refresh token says whether an event has spent it. */
  lemma {:induction false} TokenAlong(cfg: Config, run: seq<Op>, worlds: seq<World>, i: nat, m: nat, n: nat,
                                      hash: string)
    requires History(cfg, false, run, worlds) && i <= m < n <= |run|
    requires run[i].Issue? && OutcomeOf(cfg, worlds[i], run[i]).Issued?
    requires Generates(cfg, run, worlds, m, hash, run[i].session)
    ensures var session, user := run[i].session, run[i].user;
            TokenSays(worlds[n].db, hash, session, run[m].now + cfg.refreshTTL,
                      SpentBetween(cfg, run, worlds, m, n, hash, session, user))
    decreases n
  {
    var session, user := run[i].session, run[i].user;
    if m == n - 1 {
      TokenBegins(cfg, run, worlds, m, hash, session);
    } else {
      TokenAlong(cfg, run, worlds, i, m, n - 1, hash);
      TokenOn(cfg, run, worlds, i, m, n, hash);
    }
  }

  lemma TokenOn(cfg: Config, run: seq<Op>, worlds: seq<World>, i: nat, m: nat, n: nat, hash: string)
    requires History(cfg, false, run, worlds) && i <= m < n - 1 < |run|
    requires run[i].Issue? && OutcomeOf(cfg, worlds[i], run[i]).Issued?
    requires var session, user := run[i].session, run[i].user;
             TokenSays(worlds[n - 1].db, hash, session, run[m].now + cfg.refreshTTL,
                       SpentBetween(cfg, run, worlds, m, n - 1, hash, session, user))
    ensures var session, user := run[i].session, run[i].user;
            TokenSays(worlds[n].db, hash, session, run[m].now + cfg.refreshTTL,
                      SpentBetween(cfg, run, worlds, m, n, hash, session, user))
  {
    var session, user := run[i].session, run[i].user;
    assert Follows(cfg, false, run, worlds, n - 1);
    AtMostOneLiveToken(cfg, false, run, worlds, n - 1);
    SessionAlong(cfg, run, worlds, i, n - 1);
    TokenStep(cfg, worlds[n - 1], run[n - 1], hash, session, user, run[m].now + cfg.refreshTTL,
              SpentBetween(cfg, run, worlds, m, n - 1, hash, session, user));
    assert SpentBetween(cfg, run, worlds, m, n, hash, session, user)
      <==> SpentBetween(cfg, run, worlds, m, n - 1, hash, session, user)
           || SpendsAt(cfg, run, worlds, n - 1, hash, session, user);
  }

  lemma {:induction false} UsersFollowEvents(cfg: Config, cleaning: bool, run: seq<Op>, worlds: seq<World>, n: nat,
                                             user: string)
    requires History(cfg, cleaning, run, worlds) && n <= |run|
    ensures user in worlds[n].db.users && worlds[n].db.users[user] <==> ActiveIn(run[..n], user)
  {
    if n > 0 {
      UsersFollowEvents(cfg, cleaning, run, worlds, n - 1, user);
      assert Follows(cfg, cleaning, run, worlds, n - 1);
      assert run[..n][..n - 1] == run[..n - 1];
    }
  }

  // ---------------------------------------------------------------- the answers

  /**
   * In every run without cleanups: a refresh with a token generated at step `m` of the session opened at step
   * `i` succeeds exactly within the token's lifetime, while the user is active and the agent profile lives,
   * naming no other session, and if no event since has closed the session or spent the token.
   */
  lemma RefreshFollowsEvents(cfg: Config, run: seq<Op>, worlds: seq<World>, i: nat, m: nat, j: nat)
    requires History(cfg, false, run, worlds) && i <= m < j < |run|
    requires run[i].Issue? && OutcomeOf(cfg, worlds[i], run[i]).Issued?
    requires run[j].Refresh? && Generates(cfg, run, worlds, m, run[j].hash, run[i].session)
    ensures var session, user := run[i].session, run[i].user;
            OutcomeOf(cfg, worlds[j], run[j]).Rotated? <==>
              && run[j].now <= run[m].now + cfg.refreshTTL
              && ActiveIn(run[..j], user) && !run[j].agentExpired
              && (run[j].requested == "" || run[j].requested == session)
              && (forall k :: i < k < j ==> !Closes(run[k], session, user))
              && (forall k :: m < k < j ==> !SpendsAt(cfg, run, worlds, k, run[j].hash, session, user))
  {
    SessionAlong(cfg, run, worlds, i, j);
    TokenAlong(cfg, run, worlds, i, m, j, run[j].hash);
    UsersFollowEvents(cfg, false, run, worlds, j, run[i].user);
    AtMostOneLiveToken(cfg, false, run, worlds, j);
    assert Follows(cfg, false, run, worlds, j);
  }

  /**
   * In every run without cleanups: an access or derived token of a session passes the session check exactly
   * before it expires, for the session's active user, and if no event has closed the session.
   */
  lemma AccessFollowsEvents(cfg: Config, run: seq<Op>, worlds: seq<World>, i: nat, j: nat)
    requires History(cfg, false, run, worlds) && i < j < |run|
    requires run[i].Issue? && OutcomeOf(cfg, worlds[i], run[i]).Issued?
    requires (run[j].Validate? || run[j].Derive?) && run[j].access.session == run[i].session
    ensures var session, user := run[i].session, run[i].user;
            OutcomeOf(cfg, worlds[j], run[j]) == AccessValid <==>
              && run[j].now < run[j].access.expires && run[j].access.user == user && ActiveIn(run[..j], user)
              && (forall k :: i < k < j ==> !Closes(run[k], session, user))
  {
    SessionAlong(cfg, run, worlds, i, j);
    UsersFollowEvents(cfg, false, run, worlds, j, run[i].user);
  }

  /** A login succeeds exactly for a user some event has named, with a live agent profile. */
  lemma LoginFollowsEvents(cfg: Config, cleaning: bool, run: seq<Op>, worlds: seq<World>, i: nat)
    requires History(cfg, cleaning, run, worlds) && i < |run| && run[i].Issue?
    ensures OutcomeOf(cfg, worlds[i], run[i]).Issued? <==>
              && !run[i].agentExpired && (exists k :: 0 <= k < i && run[k].SetUser? && run[k].user == run[i].user)
  {
    KnownUsers(cfg, cleaning, run, worlds, i, run[i].user);
    AtMostOneLiveToken(cfg, cleaning, run, worlds, i);
    assert Follows(cfg, cleaning, run, worlds, i);
  }

  lemma {:induction false} KnownUsers(cfg: Config, cleaning: bool, run: seq<Op>, worlds: seq<World>, n: nat,
                                      user: string)
    requires History(cfg, cleaning, run, worlds) && n <= |run|
    ensures user in worlds[n].db.users <==> exists k :: 0 <= k < n && run[k].SetUser? && run[k].user == user
  {
    if n > 0 {
      KnownUsers(cfg, cleaning, run, worlds, n - 1, user);
      assert Follows(cfg, cleaning, run, worlds, n - 1);
    }
  }

  /** A refresh that names another session than the token's is refused and changes nothing, in every run. */
  lemma OtherSessionRefused(cfg: Config, cleaning: bool, run: seq<Op>, worlds: seq<World>, i: nat)
    requires History(cfg, cleaning, run, worlds) && i < |run| && run[i].Refresh? && run[i].requested != ""
    requires run[i].hash in worlds[i].db.tokens && worlds[i].db.tokens[run[i].hash].session != run[i].requested
    ensures OutcomeOf(cfg, worlds[i], run[i]) == RefreshInvalid
    ensures worlds[i + 1].db == worlds[i].db && worlds[i + 1].signed == worlds[i].signed
  {
    assert Follows(cfg, cleaning, run, worlds, i);
  }

  /** What a successful rotation writes and signs, row by row. */
  lemma RotationOnFields(cfg: Config, cleaning: bool, run: seq<Op>, worlds: seq<World>, i: nat)
    requires History(cfg, cleaning, run, worlds) && i < |run|
    requires run[i].Refresh? && OutcomeOf(cfg, worlds[i], run[i]).Rotated?
    ensures var before, after, hash, now := worlds[i].db, worlds[i + 1].db, run[i].hash, run[i].now;
            && hash in before.tokens && before.tokens[hash].session in before.sessions
            && var session := before.tokens[hash].session;
               var row := before.sessions[session];
               && after.users == before.users
               && after.sessions == before.sessions[session := Session(row.user, now, None)]
               && after.tokens == before.tokens[hash := Token(session, before.tokens[hash].expires, Some(now))]
                                               [run[i].newHash := Token(session, now + cfg.refreshTTL, None)]
               && worlds[i + 1].signed
                  == worlds[i].signed + {Access(row.user, session, Control, now, now + cfg.accessTTL),
                                         Access(row.user, session, Model, now, now + cfg.modelTTL)}
  {
    assert Follows(cfg, cleaning, run, worlds, i);
  }

  /** What a successful login writes and signs. */
  lemma LoginOnFields(cfg: Config, cleaning: bool, run: seq<Op>, worlds: seq<World>, i: nat)
    requires History(cfg, cleaning, run, worlds) && i < |run|
    requires run[i].Issue? && OutcomeOf(cfg, worlds[i], run[i]).Issued?
    ensures var before, after := worlds[i].db, worlds[i + 1].db;
            var user, session, now := run[i].user, run[i].session, run[i].now;
            && OutcomeOf(cfg, worlds[i], run[i]) == Issued(session, run[i].hash)
            && after.users == before.users && session !in before.sessions && run[i].hash !in before.tokens
            && after.sessions == before.sessions[session := Session(user, now, None)]
            && after.tokens == before.tokens[run[i].hash := Token(session, now + cfg.refreshTTL, None)]
            && worlds[i + 1].signed
               == worlds[i].signed + {Access(user, session, Control, now, now + cfg.accessTTL),
                                      Access(user, session, Model, now, now + cfg.modelTTL)}
  {
    assert Follows(cfg, cleaning, run, worlds, i);
  }

  /** A token derived for an admitted bearer lives as long as asked for, but no longer than configured. */
  lemma DerivedOnFields(cfg: Config, cleaning: bool, run: seq<Op>, worlds: seq<World>, i: nat)
    requires History(cfg, cleaning, run, worlds) && i < |run| && run[i].Derive?
    ensures var a, now := run[i].access, run[i].now;
            var lifetime := if run[i].lifetime < cfg.derivedTTL then run[i].lifetime else cfg.derivedTTL;
            && worlds[i + 1].db == worlds[i].db && a in worlds[i].signed && a.use == Control
            && worlds[i + 1].signed
               == if OutcomeOf(cfg, worlds[i], run[i]) == AccessValid
                  then worlds[i].signed + {Access(a.user, a.session, Model, now, now + lifetime)} else worlds[i].signed
  {
    assert Follows(cfg, cleaning, run, worlds, i);
  }

  // ---------------------------------------------------------------- times of revocation

  /** A revocation by id stamps the unrevoked rows of its session with its own time and leaves revoked ones alone. */
  lemma RevokeByIdStamps(cfg: Config, cleaning: bool, w: World, session: string, now: int)
    requires session in w.db.sessions
    ensures var before, after := w.db, Next(cfg, cleaning, w, RevokeSessionById(session, now)).db;
            && after.sessions
               == before.sessions[session := before.sessions[session].(revokedAt :=
                    if before.sessions[session].revokedAt.Some? then before.sessions[session].revokedAt else Some(now))]
            && after.tokens.Keys == before.tokens.Keys
            && forall h :: h in before.tokens ==>
                 after.tokens[h] == if before.tokens[h].session == session && before.tokens[h].revokedAt.None?
                                    then before.tokens[h].(revokedAt := Some(now)) else before.tokens[h]
  {
  }

  /** In every run the first time of revocation stays, unless the session logs out, which stamps it anew. */
  lemma {:induction false} FirstRevocationStays(
      cfg: Config, cleaning: bool, run: seq<Op>, worlds: seq<World>, i: nat, j: nat, session: string)
    requires History(cfg, cleaning, run, worlds) && i <= j <= |run|
    requires session in worlds[i].db.sessions && worlds[i].db.sessions[session].revokedAt.Some?
    requires forall k :: i <= k < j ==> !(run[k].RevokeSession? && run[k].session == session)
    ensures session in worlds[j].sessionIds
    ensures session in worlds[j].db.sessions ==>
              worlds[j].db.sessions[session].revokedAt == worlds[i].db.sessions[session].revokedAt
    decreases j
  {
    AtMostOneLiveToken(cfg, cleaning, run, worlds, j);
    if i < j {
      FirstRevocationStays(cfg, cleaning, run, worlds, i, j - 1, session);
      assert Follows(cfg, cleaning, run, worlds, j - 1);
    }
  }

  // ---------------------------------------------------------------- what a cleanup takes

  /** A refresh token that could still be used as far as its own row goes. */
  predicate Usable(token: Token, now: int) {
    token.revokedAt.None? && now < token.expires
  }

  /**
   * What a cleanup leaves, batch by batch. A session row in the batch goes exactly if it was last seen before
   * the cutoff, and is revoked before the cutoff or has no usable token; a token row goes with its session, or
   * in the batch exactly if it expired or was revoked before the cutoff. What stays is unchanged.
   */
  lemma CleanupOnFields(cfg: Config, w: World, op: Op)
    requires Consistent(w) && op.Cleanup? && cfg.retention > 0
    ensures var before, after, cutoff := w.db, Next(cfg, true, w, op).db, op.now - cfg.retention;
            && after.users == before.users
            && (forall s :: s in after.sessions ==> s in before.sessions && after.sessions[s] == before.sessions[s])
            && (forall h :: h in after.tokens ==> h in before.tokens && after.tokens[h] == before.tokens[h])
            && (forall s :: s in before.sessions ==>
                  var row := before.sessions[s];
                  s !in after.sessions <==>
                    && s in op.sessionBatch && row.lastSeen < cutoff
                    && (if row.revokedAt.Some? then row.revokedAt.value < cutoff
                        else forall h :: h in before.tokens && before.tokens[h].session == s
                                         ==> !Usable(before.tokens[h], op.now)))
            && (forall h :: h in before.tokens ==>
                  var token := before.tokens[h];
                  h !in after.tokens <==>
                    || token.session !in after.sessions
                    || (h in op.tokenBatch
                        && (token.expires < cutoff || (token.revokedAt.Some? && token.revokedAt.value < cutoff))))
  {
    var cutoff := op.now - cfg.retention;
    var pruned := CleanTokens(w.db, op.tokenBatch, cutoff);
    forall s | s in w.db.sessions && w.db.sessions[s].revokedAt.None?
      ensures (forall h :: h in pruned.tokens && pruned.tokens[h].session == s ==> !Usable(pruned.tokens[h], op.now))
         <==> forall h :: h in w.db.tokens && w.db.tokens[h].session == s ==> !Usable(w.db.tokens[h], op.now)
    {
      assert forall h :: h in w.db.tokens && h !in pruned.tokens ==> !Usable(w.db.tokens[h], op.now);
    }
  }
}
