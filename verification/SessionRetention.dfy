/** Retention cleanup of sessions and refresh tokens is invisible to bearers. */
module SessionRetention {
  import opened Wrappers
  import opened Sessions

  /** Time does not run backwards, and a cleanup is followed by strictly later instants. */
  predicate Timely(run: seq<Op>, floor: int) {
    run == [] || (floor <= run[0].now && Timely(run[1..], After(run[0])))
  }

  function After(op: Op): int {
    if op.Cleanup? then op.now + 1 else op.now
  }

  /** What bearers of tokens see; the admin-only lookup of a session row is not among it. */
  function Seen(cfg: Config, w: World, op: Op): Outcome {
    if op.RevokeSessionById? then Done else OutcomeOf(cfg, w, op)
  }

  function Answers(cfg: Config, cleaning: bool, w: World, run: seq<Op>): seq<Outcome>
    decreases run
  {
    if run == [] then [] else [Seen(cfg, w, run[0])] + Answers(cfg, cleaning, Next(cfg, cleaning, w, run[0]), run[1..])
  }

  predicate LegalFrom(cfg: Config, w: World, run: seq<Op>)
    decreases run
  {
    run == [] || (Legal(w, run[0]) && LegalFrom(cfg, Next(cfg, false, w, run[0]), run[1..]))
  }

  // ---------------------------------------------------------------- simulation

  /** No refresh at or after `floor` can use the token. */
  predicate DeadToken(db: Db, hash: string, floor: int)
    requires hash in db.tokens
  {
    var token := db.tokens[hash];
    || token.revokedAt.Some? || token.expires < floor
    || (token.session in db.sessions && db.sessions[token.session].revokedAt.Some?)
  }

  /** Every access token of the session has expired by `floor`. */
  ghost predicate AccessOver(w: World, session: string, floor: int) {
    forall a :: a in w.signed && a.session == session ==> a.expires <= floor
  }

  ghost predicate DeadSession(cfg: Config, w: World, session: string, floor: int)
    requires session in w.db.sessions
  {
    && (w.db.sessions[session].revokedAt.Some? || AccessOver(w, session, floor))
    && (forall h :: h in w.db.tokens && w.db.tokens[h].session == session ==> DeadToken(w.db, h, floor))
  }

  /** The longest a token may outlive the last exchange of its session: as access token, model token, or
      token derived in the last instant of an access token. */
  function Reach(cfg: Config): int {
    Max(Max(cfg.accessTTL, cfg.modelTTL), cfg.accessTTL - 1 + cfg.derivedTTL)
  }

  function Max(a: int, b: int): int {
    if a < b then b else a
  }

  /** Tokens are signed for known sessions and reach no further than their session was last seen. */
  ghost predicate SignedInTime(cfg: Config, w: World, now: int) {
    forall a :: a in w.signed ==>
      && a.session in w.sessionIds
      && (a.session in w.db.sessions ==> ReachesFrom(cfg, a, w.db.sessions[a.session].lastSeen, now))
  }

  predicate ReachesFrom(cfg: Config, a: Access, seen: int, now: int) {
    seen <= now && a.expires <= seen + Reach(cfg) && (a.use == Control ==> a.expires <= seen + cfg.accessTTL)
  }

  /** `a` is `b` without some dead rows. */
  ghost predicate Thinned(cfg: Config, a: World, b: World, floor: int) {
    && a.db.users == b.db.users && a.sessionIds == b.sessionIds && a.hashes == b.hashes && a.signed == b.signed
    && (forall h :: h in a.db.tokens ==> h in b.db.tokens && a.db.tokens[h] == b.db.tokens[h])
    && (forall s :: s in a.db.sessions ==> s in b.db.sessions && a.db.sessions[s] == b.db.sessions[s])
    && (forall h :: h in b.db.tokens && h !in a.db.tokens ==> DeadToken(b.db, h, floor))
    && (forall s :: s in b.db.sessions && s !in a.db.sessions ==> DeadSession(cfg, b, s, floor))
  }

  ghost predicate Related(cfg: Config, a: World, b: World, floor: int) {
    Thinned(cfg, a, b, floor) && Consistent(a) && Consistent(b) && SignedInTime(cfg, b, floor)
  }

  /** No token outlives a session row that a cleanup may delete. */
  predicate LifetimesFit(cfg: Config) {
    cfg.retention > 0 ==> Reach(cfg) <= cfg.retention + 2
  }

  lemma LaterFloor(cfg: Config, a: World, b: World, floor: int, later: int)
    requires Related(cfg, a, b, floor) && floor <= later
    ensures Related(cfg, a, b, later)
  {
    forall s | s in b.db.sessions && s !in a.db.sessions
      ensures DeadSession(cfg, b, s, later)
    {
      assert DeadSession(cfg, b, s, floor);
    }
  }

  /** A refresh finds the same usable row in both tables. */
  lemma SameRefreshable(cfg: Config, a: World, b: World, hash: string, requested: string, now: int)
    requires Related(cfg, a, b, now)
    ensures Refreshable(a.db, hash, requested, now) <==> Refreshable(b.db, hash, requested, now)
  {
    if hash in b.db.tokens && hash in a.db.tokens {
      assert b.db.tokens[hash].session in a.db.sessions;
    }
  }

  lemma SameAccess(cfg: Config, a: World, b: World, access: Access, now: int)
    requires Related(cfg, a, b, now) && access in b.signed
    ensures Admitted(a, access, now) <==> Admitted(b, access, now)
  {
    if access.session in b.db.sessions && access.session !in a.db.sessions {
      assert DeadSession(cfg, b, access.session, now);
    }
  }

  lemma SameSeen(cfg: Config, a: World, b: World, op: Op)
    requires Related(cfg, a, b, op.now) && Legal(b, op)
    ensures Seen(cfg, a, op) == Seen(cfg, b, op)
  {
    match op
    case Issue(_, _, _, _, _) =>
    case Refresh(hash, requested, newHash, agentExpired, now) => SameRefreshable(cfg, a, b, hash, requested, now);
    case Validate(access, now) => SameAccess(cfg, a, b, access, now);
    case Derive(access, _, now) => SameAccess(cfg, a, b, access, now);
    case _ =>
  }

  /** Steps other than a cleanup keep dead rows dead; here `b'` extends or revokes rows of `b`. */
  ghost predicate OnlyRevokes(b: World, b': World) {
    && b'.sessionIds == b.sessionIds && b'.hashes == b.hashes && b'.signed == b.signed
    && b'.db.tokens.Keys == b.db.tokens.Keys && b'.db.sessions.Keys == b.db.sessions.Keys
    && (forall h :: h in b.db.tokens ==>
          (b'.db.tokens[h].session == b.db.tokens[h].session && b'.db.tokens[h].expires == b.db.tokens[h].expires
           && (b.db.tokens[h].revokedAt.Some? ==> b'.db.tokens[h].revokedAt.Some?)))
    && (forall s :: s in b.db.sessions ==>
          (b'.db.sessions[s].lastSeen == b.db.sessions[s].lastSeen
           && (b.db.sessions[s].revokedAt.Some? ==> b'.db.sessions[s].revokedAt.Some?)))
  }

  predicate IsRevocation(op: Op) {
    op.RevokeToken? || op.RevokeSession? || op.RevokeSessionById? || op.RevokeTokensOf? || op.RevokeSessionsOf?
  }

  lemma RevocationOnlyRevokes(cfg: Config, cleaning: bool, w: World, op: Op)
    requires IsRevocation(op)
    ensures OnlyRevokes(w, Next(cfg, cleaning, w, op))
  {
  }

  lemma StillDead(cfg: Config, b: World, b': World, s: string, floor: int)
    requires OnlyRevokes(b, b') && s in b.db.sessions && DeadSession(cfg, b, s, floor)
    ensures DeadSession(cfg, b', s, floor)
  {
    forall h | h in b'.db.tokens && b'.db.tokens[h].session == s
      ensures DeadToken(b'.db, h, floor)
    {
      assert DeadToken(b.db, h, floor);
    }
  }

  /** The token rows both tables hold are still equal after a revocation. */
  lemma RevocationAgreesOnTokens(cfg: Config, a: World, b: World, op: Op)
    requires IsRevocation(op) && Related(cfg, a, b, op.now)
    ensures var a', b' := Next(cfg, true, a, op).db, Next(cfg, false, b, op).db;
            forall h :: h in a'.tokens ==> h in b'.tokens && a'.tokens[h] == b'.tokens[h]
  {
  }

  lemma RevocationAgreesOnSessions(cfg: Config, a: World, b: World, op: Op)
    requires IsRevocation(op) && Related(cfg, a, b, op.now)
    ensures var a', b' := Next(cfg, true, a, op).db, Next(cfg, false, b, op).db;
            && a'.users == b'.users
            && forall s :: s in a'.sessions ==> s in b'.sessions && a'.sessions[s] == b'.sessions[s]
  {
  }

  lemma RevocationRelated(cfg: Config, a: World, b: World, op: Op)
    requires IsRevocation(op) && Related(cfg, a, b, op.now)
    ensures Related(cfg, Next(cfg, true, a, op), Next(cfg, false, b, op), op.now)
  {
    var a', b' := Next(cfg, true, a, op), Next(cfg, false, b, op);
    RevocationOnlyRevokes(cfg, true, a, op);
    RevocationOnlyRevokes(cfg, false, b, op);
    RevocationAgreesOnTokens(cfg, a, b, op);
    RevocationAgreesOnSessions(cfg, a, b, op);
    StepConsistent(cfg, true, a, op);
    StepConsistent(cfg, false, b, op);
    forall h | h in b'.db.tokens && h !in a'.db.tokens
      ensures DeadToken(b'.db, h, op.now)
    {
      assert DeadToken(b.db, h, op.now);
    }
    forall s | s in b'.db.sessions && s !in a'.db.sessions
      ensures DeadSession(cfg, b', s, op.now)
    {
      StillDead(cfg, b, b', s, op.now);
    }
  }

  /** A new session and token leave the dead rows dead. */
  lemma IssueKeepsDead(cfg: Config, a: World, b: World, op: Op)
    requires op.Issue? && Legal(b, op) && Related(cfg, a, b, op.now)
    ensures var b' := Next(cfg, false, b, op);
            && (forall h :: h in b.db.tokens && h !in a.db.tokens ==> DeadToken(b'.db, h, op.now))
            && (forall s :: s in b.db.sessions && s !in a.db.sessions ==> DeadSession(cfg, b', s, op.now))
  {
    var b' := Next(cfg, false, b, op);
    forall h | h in b.db.tokens && h !in a.db.tokens
      ensures DeadToken(b'.db, h, op.now)
    {
      assert DeadToken(b.db, h, op.now);
    }
    forall s | s in b.db.sessions && s !in a.db.sessions
      ensures DeadSession(cfg, b', s, op.now)
    {
      assert DeadSession(cfg, b, s, op.now);
      forall h | h in b'.db.tokens && b'.db.tokens[h].session == s
        ensures DeadToken(b'.db, h, op.now)
      {
        assert DeadToken(b.db, h, op.now);
      }
    }
  }

  /** Both tables take the same new rows. */
  lemma IssueAgrees(cfg: Config, a: World, b: World, op: Op)
    requires op.Issue? && Legal(b, op) && Related(cfg, a, b, op.now)
    ensures RowsAgree(a, b, Next(cfg, true, a, op), Next(cfg, false, b, op))
  {
  }

  lemma IssueSignsInTime(cfg: Config, a: World, b: World, op: Op)
    requires op.Issue? && Legal(b, op) && Related(cfg, a, b, op.now)
    ensures SignedInTime(cfg, Next(cfg, false, b, op), op.now)
  {
  }

  lemma IssueRelated(cfg: Config, a: World, b: World, op: Op)
    requires op.Issue? && Legal(b, op) && Related(cfg, a, b, op.now)
    ensures Related(cfg, Next(cfg, true, a, op), Next(cfg, false, b, op), op.now)
  {
    StepConsistent(cfg, true, a, op);
    StepConsistent(cfg, false, b, op);
    IssueAgrees(cfg, a, b, op);
    IssueSignsInTime(cfg, a, b, op);
    IssueKeepsDead(cfg, a, b, op);
    ThinnedByKeys(cfg, a, b, Next(cfg, true, a, op), Next(cfg, false, b, op), op.now);
  }

  /** After a step both tables agree on what they share, and rows missing now were missing before. */
  ghost predicate RowsAgree(a: World, b: World, a': World, b': World) {
    && a'.db.users == b'.db.users && a'.sessionIds == b'.sessionIds && a'.hashes == b'.hashes && a'.signed == b'.signed
    && (forall h :: h in a'.db.tokens ==> h in b'.db.tokens && a'.db.tokens[h] == b'.db.tokens[h])
    && (forall s :: s in a'.db.sessions ==> s in b'.db.sessions && a'.db.sessions[s] == b'.db.sessions[s])
    && b'.db.tokens.Keys - a'.db.tokens.Keys <= b.db.tokens.Keys - a.db.tokens.Keys
    && b'.db.sessions.Keys - a'.db.sessions.Keys <= b.db.sessions.Keys - a.db.sessions.Keys
  }

  lemma ThinnedByKeys(cfg: Config, a: World, b: World, a': World, b': World, floor: int)
    requires RowsAgree(a, b, a', b')
    requires forall h :: h in b.db.tokens && h !in a.db.tokens && h in b'.db.tokens ==> DeadToken(b'.db, h, floor)
    requires forall s ::
               s in b.db.sessions && s !in a.db.sessions && s in b'.db.sessions ==> DeadSession(cfg, b', s, floor)
    ensures Thinned(cfg, a', b', floor)
  {
    assert forall h :: h in b'.db.tokens && h !in a'.db.tokens ==> h in b'.db.tokens.Keys - a'.db.tokens.Keys;
    assert forall s :: s in b'.db.sessions && s !in a'.db.sessions ==> s in b'.db.sessions.Keys - a'.db.sessions.Keys;
  }

  /** A rotation exchanges the same token on both sides. */
  lemma RotationAgrees(cfg: Config, a: World, b: World, op: Op)
    requires op.Refresh? && Legal(b, op) && Related(cfg, a, b, op.now) && OutcomeOf(cfg, b, op).Rotated?
    requires Refreshable(a.db, op.hash, op.requested, op.now)
    ensures RowsAgree(a, b, Next(cfg, true, a, op), Next(cfg, false, b, op))
  {
  }

  lemma RotationSignsInTime(cfg: Config, b: World, op: Op)
    requires op.Refresh? && Consistent(b) && SignedInTime(cfg, b, op.now) && OutcomeOf(cfg, b, op).Rotated?
    ensures SignedInTime(cfg, Next(cfg, false, b, op), op.now)
  {
  }

  lemma RefreshRelated(cfg: Config, a: World, b: World, op: Op)
    requires op.Refresh? && Legal(b, op) && Related(cfg, a, b, op.now)
    ensures Related(cfg, Next(cfg, true, a, op), Next(cfg, false, b, op), op.now)
  {
    SameRefreshable(cfg, a, b, op.hash, op.requested, op.now);
    StepConsistent(cfg, true, a, op);
    StepConsistent(cfg, false, b, op);
    if OutcomeOf(cfg, b, op).Rotated? {
      RotationAgrees(cfg, a, b, op);
      RotationSignsInTime(cfg, b, op);
      RotationKeepsDead(cfg, a, b, op);
      ThinnedByKeys(cfg, a, b, Next(cfg, true, a, op), Next(cfg, false, b, op), op.now);
    } else {
      RefusalRelated(cfg, a, b, op);
    }
  }

  /** A refused refresh leaves both tables alone. */
  lemma RefusalRelated(cfg: Config, a: World, b: World, op: Op)
    requires op.Refresh? && Legal(b, op) && Related(cfg, a, b, op.now) && !OutcomeOf(cfg, b, op).Rotated?
    requires Refreshable(a.db, op.hash, op.requested, op.now) <==> Refreshable(b.db, op.hash, op.requested, op.now)
    requires Consistent(Next(cfg, true, a, op)) && Consistent(Next(cfg, false, b, op))
    ensures Related(cfg, Next(cfg, true, a, op), Next(cfg, false, b, op), op.now)
  {
    var a', b' := Next(cfg, true, a, op), Next(cfg, false, b, op);
    assert a'.db == a.db && b'.db == b.db && a'.signed == a.signed && b'.signed == b.signed;
  }

  /** A derived token belongs to a session with a live row on both sides. */
  lemma DeriveRelated(cfg: Config, a: World, b: World, op: Op)
    requires ValidConfig(cfg) && op.Derive? && Legal(b, op) && Related(cfg, a, b, op.now)
    ensures Related(cfg, Next(cfg, true, a, op), Next(cfg, false, b, op), op.now)
  {
    SameAccess(cfg, a, b, op.access, op.now);
    if Admitted(b, op.access, op.now) {
      var b' := Next(cfg, false, b, op);
      forall s | s in b.db.sessions && s !in a.db.sessions
        ensures DeadSession(cfg, b', s, op.now)
      {
        assert DeadSession(cfg, b, s, op.now);
      }
    }
  }

  lemma RotationKeepsDead(cfg: Config, a: World, b: World, op: Op)
    requires op.Refresh? && Legal(b, op) && Related(cfg, a, b, op.now) && OutcomeOf(cfg, b, op).Rotated?
    requires Refreshable(a.db, op.hash, op.requested, op.now)
    ensures var b' := Next(cfg, false, b, op);
            && (forall h :: h in b.db.tokens && h !in a.db.tokens ==> DeadToken(b'.db, h, op.now))
            && (forall s :: s in b.db.sessions && s !in a.db.sessions ==> DeadSession(cfg, b', s, op.now))
  {
    var b' := Next(cfg, false, b, op);
    var session := b.db.tokens[op.hash].session;
    assert session in a.db.sessions;
    forall h | h in b.db.tokens && h !in a.db.tokens
      ensures DeadToken(b'.db, h, op.now)
    {
      assert DeadToken(b.db, h, op.now);
    }
    forall s | s in b.db.sessions && s !in a.db.sessions
      ensures DeadSession(cfg, b', s, op.now)
    {
      assert DeadSession(cfg, b, s, op.now);
      forall h | h in b'.db.tokens && b'.db.tokens[h].session == s
        ensures DeadToken(b'.db, h, op.now)
      {
        assert DeadToken(b.db, h, op.now);
      }
    }
  }

  /** A session row a cleanup deletes is dead from the next instant on. */
  lemma SweptSessionDead(cfg: Config, a: World, b: World, op: Op, s: string)
    requires op.Cleanup? && cfg.retention > 0 && LifetimesFit(cfg) && Related(cfg, a, b, op.now)
    requires var cutoff := op.now - cfg.retention;
             s in a.db.sessions && SessionSweepable(CleanTokens(a.db, op.tokenBatch, cutoff), s, cutoff, op.now)
    ensures DeadSession(cfg, b, s, op.now + 1)
  {
    var mid := CleanTokens(a.db, op.tokenBatch, op.now - cfg.retention);
    if b.db.sessions[s].revokedAt.None? {
      forall h | h in b.db.tokens && b.db.tokens[h].session == s
        ensures DeadToken(b.db, h, op.now + 1)
      {
        if h !in a.db.tokens {
          assert DeadToken(b.db, h, op.now);
        } else if h in mid.tokens {
          assert mid.tokens[h].session == s;
        }
      }
    }
  }

  lemma CleanupRelated(cfg: Config, a: World, b: World, op: Op)
    requires op.Cleanup? && LifetimesFit(cfg) && cfg.retention >= 0 && Related(cfg, a, b, op.now)
    ensures Related(cfg, Next(cfg, true, a, op), Next(cfg, false, b, op), op.now + 1)
  {
    StepConsistent(cfg, true, a, op);
    LaterFloor(cfg, a, b, op.now, op.now + 1);
    if cfg.retention > 0 {
      var cutoff := op.now - cfg.retention;
      var mid := CleanTokens(a.db, op.tokenBatch, cutoff);
      var a' := Next(cfg, true, a, op);
      forall s | s in b.db.sessions && s !in a'.db.sessions
        ensures DeadSession(cfg, b, s, op.now + 1)
      {
        if s in a.db.sessions {
          assert SessionSweepable(mid, s, cutoff, op.now);
          SweptSessionDead(cfg, a, b, op, s);
        }
      }
      forall h | h in b.db.tokens && h !in a'.db.tokens
        ensures DeadToken(b.db, h, op.now + 1)
      {
        if h in mid.tokens {
          var s := mid.tokens[h].session;
          assert s !in a'.db.sessions;
          assert DeadSession(cfg, b, s, op.now + 1);
        }
      }
    }
  }

  lemma StepRelated(cfg: Config, a: World, b: World, op: Op)
    requires ValidConfig(cfg) && LifetimesFit(cfg) && Legal(b, op) && Related(cfg, a, b, op.now)
    ensures Related(cfg, Next(cfg, true, a, op), Next(cfg, false, b, op), After(op))
  {
    StepConsistent(cfg, true, a, op);
    StepConsistent(cfg, false, b, op);
    if IsRevocation(op) {
      RevocationRelated(cfg, a, b, op);
    } else if op.Issue? {
      IssueRelated(cfg, a, b, op);
    } else if op.Refresh? {
      RefreshRelated(cfg, a, b, op);
    } else if op.Derive? {
      DeriveRelated(cfg, a, b, op);
    } else if op.Cleanup? {
      CleanupRelated(cfg, a, b, op);
    }
  }

  lemma {:induction false} RunsAgree(cfg: Config, a: World, b: World, run: seq<Op>, floor: int)
    requires ValidConfig(cfg) && LifetimesFit(cfg)
    requires Related(cfg, a, b, floor) && LegalFrom(cfg, b, run) && Timely(run, floor)
    ensures Answers(cfg, true, a, run) == Answers(cfg, false, b, run)
    decreases run
  {
    if run != [] {
      LaterFloor(cfg, a, b, floor, run[0].now);
      SameSeen(cfg, a, b, run[0]);
      StepRelated(cfg, a, b, run[0]);
      RunsAgree(cfg, Next(cfg, true, a, run[0]), Next(cfg, false, b, run[0]), run[1..], After(run[0]));
    }
  }

  // ---------------------------------------------------------------- exactly when cleanup is invisible

  predicate SameAnswers(cfg: Config, run: seq<Op>) {
    Answers(cfg, true, EMPTY, run) == Answers(cfg, false, EMPTY, run)
  }

  ghost predicate CleanupInvisible(cfg: Config) {
    forall run, floor :: Timely(run, floor) && LegalFrom(cfg, EMPTY, run) ==> SameAnswers(cfg, run)
  }

  /** When the witness derives a token: as late as the access token and the cleanup allow. */
  function DerivedAt(cfg: Config): int {
    if cfg.accessTTL <= cfg.retention + 2 then cfg.accessTTL - 1 else cfg.retention + 1
  }

  function ControlToken(cfg: Config): Access {
    Access("u", "s", Control, 0, cfg.accessTTL)
  }

  /** A logout cut off after its first statement, a cleanup, and a use of one of the session's tokens. */
  function Witness(cfg: Config, token: Access): seq<Op> {
    [SetUser("u", true, 0), Issue("u", "s", "h", false, 0), RevokeToken("h", "s", 0),
     Derive(ControlToken(cfg), cfg.derivedTTL, DerivedAt(cfg)),
     Cleanup({}, {"s"}, cfg.retention + 1), Validate(token, cfg.retention + 2)]
  }

  function WitnessWorld(cfg: Config): World {
    World(Db(map["u" := true], map["s" := Session("u", 0, None)], map["h" := Token("s", cfg.refreshTTL, Some(0))]),
          {"s"}, {"h"}, Pair(cfg, "u", "s", 0) + {DerivedToken(cfg, ControlToken(cfg), cfg.derivedTTL, DerivedAt(cfg))})
  }

  /** One of the three tokens of the session outlives the cleanup. */
  lemma LongToken(cfg: Config) returns (token: Access)
    requires ValidConfig(cfg) && !LifetimesFit(cfg)
    ensures token in WitnessWorld(cfg).signed && token.user == "u" && token.session == "s"
    ensures cfg.retention + 2 < token.expires
  {
    if cfg.accessTTL > cfg.retention + 2 {
      token := ControlToken(cfg);
    } else if cfg.modelTTL > cfg.retention + 2 {
      token := Access("u", "s", Model, 0, cfg.modelTTL);
    } else {
      token := DerivedToken(cfg, ControlToken(cfg), cfg.derivedTTL, DerivedAt(cfg));
    }
  }

  lemma Unfold(cfg: Config, cleaning: bool, w: World, run: seq<Op>, k: nat, floor: int)
    requires k < |run|
    ensures Answers(cfg, cleaning, w, run[k..])
         == [Seen(cfg, w, run[k])] + Answers(cfg, cleaning, Next(cfg, cleaning, w, run[k]), run[k + 1..])
    ensures LegalFrom(cfg, w, run[k..])
       <==> Legal(w, run[k]) && LegalFrom(cfg, Next(cfg, false, w, run[k]), run[k + 1..])
    ensures Timely(run[k..], floor) <==> floor <= run[k].now && Timely(run[k + 1..], After(run[k]))
  {
    assert run[k..][0] == run[k] && run[k..][1..] == run[k + 1..];
  }

  function IssuedWorld(cfg: Config): World {
    World(Db(map["u" := true], map["s" := Session("u", 0, None)], map["h" := Token("s", cfg.refreshTTL, None)]),
          {"s"}, {"h"}, Pair(cfg, "u", "s", 0))
  }

  /** The first two steps log the user in. */
  lemma WitnessLogin(cfg: Config, cleaning: bool, token: Access)
    ensures var run := Witness(cfg, token);
            && Answers(cfg, cleaning, EMPTY, run)
               == [Done, Issued("s", "h")] + Answers(cfg, cleaning, IssuedWorld(cfg), run[2..])
            && (LegalFrom(cfg, EMPTY, run) <==> LegalFrom(cfg, IssuedWorld(cfg), run[2..]))
            && (Timely(run, 0) <==> Timely(run[2..], 0))
  {
    var run := Witness(cfg, token);
    var w1 := Next(cfg, cleaning, EMPTY, run[0]);
    assert Next(cfg, cleaning, w1, run[1]) == IssuedWorld(cfg);
    assert run[0..] == run;
    Unfold(cfg, cleaning, EMPTY, run, 0, 0);
    Unfold(cfg, cleaning, w1, run, 1, 0);
  }

  /** The next two leave a live session row without a live token, and sign another token. */
  lemma WitnessLogout(cfg: Config, cleaning: bool, token: Access)
    requires ValidConfig(cfg)
    ensures var run := Witness(cfg, token);
            && Answers(cfg, cleaning, IssuedWorld(cfg), run[2..])
               == [Done, AccessValid] + Answers(cfg, cleaning, WitnessWorld(cfg), run[4..])
            && (LegalFrom(cfg, IssuedWorld(cfg), run[2..]) <==> LegalFrom(cfg, WitnessWorld(cfg), run[4..]))
            && (Timely(run[2..], 0) <==> Timely(run[4..], DerivedAt(cfg)))
  {
    var run, w2 := Witness(cfg, token), IssuedWorld(cfg);
    var w3 := Next(cfg, cleaning, w2, run[2]);
    assert w3.signed == w2.signed && Admitted(w3, ControlToken(cfg), DerivedAt(cfg));
    assert Next(cfg, cleaning, w3, run[3]) == WitnessWorld(cfg);
    Unfold(cfg, cleaning, w2, run, 2, 0);
    Unfold(cfg, cleaning, w3, run, 3, 0);
  }

  lemma WitnessSuffix(cfg: Config, cleaning: bool, token: Access)
    requires ValidConfig(cfg) && !LifetimesFit(cfg)
    requires token in WitnessWorld(cfg).signed && token.user == "u" && token.session == "s"
    requires cfg.retention + 2 < token.expires
    ensures LegalFrom(cfg, WitnessWorld(cfg), Witness(cfg, token)[4..])
    ensures Timely(Witness(cfg, token)[4..], DerivedAt(cfg))
    ensures Answers(cfg, cleaning, WitnessWorld(cfg), Witness(cfg, token)[4..])
         == [Done, if cleaning then AccessInvalid else AccessValid]
  {
    var run, w := Witness(cfg, token), WitnessWorld(cfg);
    assert SessionSweepable(CleanTokens(w.db, {}, 1), "s", 1, cfg.retention + 1);
    var w' := Next(cfg, cleaning, w, run[4]);
    assert "s" in w'.db.sessions <==> !cleaning;
    Unfold(cfg, cleaning, w, run, 4, DerivedAt(cfg));
    Unfold(cfg, cleaning, w', run, 5, cfg.retention + 2);
    Unfold(cfg, cleaning, w, run, 5, cfg.retention + 2);
    assert run[6..] == [];
  }

  lemma WitnessDiffers(cfg: Config) returns (token: Access)
    requires ValidConfig(cfg) && !LifetimesFit(cfg)
    ensures LegalFrom(cfg, EMPTY, Witness(cfg, token)) && Timely(Witness(cfg, token), 0)
    ensures !SameAnswers(cfg, Witness(cfg, token))
  {
    token := LongToken(cfg);
    WitnessLogin(cfg, true, token);
    WitnessLogin(cfg, false, token);
    WitnessLogout(cfg, true, token);
    WitnessLogout(cfg, false, token);
    WitnessSuffix(cfg, true, token);
    WitnessSuffix(cfg, false, token);
    assert Answers(cfg, true, EMPTY, Witness(cfg, token))[5] == AccessInvalid;
    assert Answers(cfg, false, EMPTY, Witness(cfg, token))[5] == AccessValid;
  }

  /** Cleanup changes no later answer to any bearer exactly when no token reaches further than it may. */
  lemma CleanupInvisibleIff(cfg: Config)
    requires ValidConfig(cfg)
    ensures CleanupInvisible(cfg) <==> LifetimesFit(cfg)
  {
    if LifetimesFit(cfg) {
      forall run, floor | Timely(run, floor) && LegalFrom(cfg, EMPTY, run)
        ensures SameAnswers(cfg, run)
      {
        assert Related(cfg, EMPTY, EMPTY, floor);
        RunsAgree(cfg, EMPTY, EMPTY, run, floor);
      }
    } else {
      var token := WitnessDiffers(cfg);
    }
  }
}
