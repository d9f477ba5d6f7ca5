/** What the login limiter counts and answers, read off the events of a run alone. */
module LoginStreaks {
  import opened Wrappers
  import opened LoginLimiter

  /** One recorded failure of a key, with the limit of the role it had: principal or source. */
  datatype Attempt = Attempt(at: int, limit: int)

  /** What an event adds to the failures of a key; a login that succeeds for it as principal forgets them. */
  function Extended(cfg: Config, failures: seq<Attempt>, e: Event, key: string): seq<Attempt> {
    match e
    case Failure(fp, now) =>
      var first := if fp.principal == key then failures + [Attempt(now, cfg.limit)] else failures;
      if fp.source == key then first + [Attempt(now, cfg.sourceLimit)] else first
    case Success(fp, _) => if fp.principal == key then [] else failures
    case _ => failures
  }

  /** The failures of the key since the last login that succeeded for it as principal. */
  function FailedSince(cfg: Config, es: seq<Event>, key: string): seq<Attempt> {
    if es == [] then [] else Extended(cfg, FailedSince(cfg, es[..|es| - 1], key), es[|es| - 1], key)
  }

  /** How many of the last failures follow each other with no gap above the window. */
  function Streak(failures: seq<Attempt>, window: int): nat {
    var n := |failures|;
    if n == 0 then 0
    else if n > 1 && failures[n - 1].at - failures[n - 2].at <= window then Streak(failures[..n - 1], window) + 1
    else 1
  }

  /** The block `count` failures in a row cause: the base delay at the limit, doubled by each further one. */
  function BlockOf(cfg: Config, count: int, limit: int): int {
    if count < limit then 0
    else
      var doubled := cfg.base * Pow2(count - limit);
      if doubled < cfg.maximum then doubled else cfg.maximum
  }

  function LastOf(failures: seq<Attempt>): Attempt
    requires failures != []
  {
    failures[|failures| - 1]
  }

  /** When the block caused by the last failure ends. */
  function BlockedUntil(cfg: Config, failures: seq<Attempt>): int
    requires failures != []
  {
    LastOf(failures).at + BlockOf(cfg, Streak(failures, cfg.window), LastOf(failures).limit)
  }

  /** How long the failures of a key still block it. */
  function Remaining(cfg: Config, failures: seq<Attempt>, now: int): int {
    if failures == [] || BlockedUntil(cfg, failures) <= now then 0 else BlockedUntil(cfg, failures) - now
  }

  // ---------------------------------------------------------------- the streak is the last stretch without a gap

  /** The gap before failure `i` fits the window. */
  predicate Close(failures: seq<Attempt>, window: int, i: int)
    requires 0 < i < |failures|
  {
    failures[i].at - failures[i - 1].at <= window
  }

  /** The last `count` failures are within a window of each other, and the one before them is not. */
  predicate LastStretch(failures: seq<Attempt>, window: int, count: int)
    requires 0 < count <= |failures|
  {
    && (forall i :: |failures| - count < i < |failures| ==> Close(failures, window, i))
    && (count < |failures| ==> !Close(failures, window, |failures| - count))
  }

  lemma {:induction false} StreakIffLastStretch(failures: seq<Attempt>, window: int, count: int)
    requires 0 < count <= |failures|
    ensures Streak(failures, window) == count <==> LastStretch(failures, window, count)
  {
    var n := |failures|;
    var before := failures[..n - 1];
    assert forall i :: 0 < i < n - 1 ==> (Close(before, window, i) <==> Close(failures, window, i));
    if n > 1 && Close(failures, window, n - 1) {
      StreakPositive(before, window);
      if count > 1 {
        StreakIffLastStretch(before, window, count - 1);
      }
    } else if count > 1 {
      assert !Close(failures, window, n - 1);
    }
  }

  lemma {:induction false} StreakPositive(failures: seq<Attempt>, window: int)
    ensures failures != [] ==> 1 <= Streak(failures, window) <= |failures|
  {
    if |failures| > 1 {
      StreakPositive(failures[..|failures| - 1], window);
    }
  }

  // ---------------------------------------------------------------- the table holds the streaks

  predicate RowSays(cfg: Config, failures: seq<Attempt>, row: Row) {
    && failures != [] && row.failures == Streak(failures, cfg.window) && row.updatedAt == LastOf(failures).at
    && row.blockedUntil == if row.failures < LastOf(failures).limit then None else Some(BlockedUntil(cfg, failures))
  }

  /** No block outlives the in-line sweep, or it is off. */
  predicate SweepsAfterBlocks(cfg: Config, sw: Sweeps) {
    sw.inline ==> cfg.maximum <= 2 * cfg.window + 1
  }

  /** A key without a row has no failures that still count or block at `now`. */
  predicate KeySays(cfg: Config, sw: Sweeps, failures: seq<Attempt>, t: Table, key: string, now: int) {
    if key in t then RowSays(cfg, failures, t[key])
    else failures != [] ==>
           && LastOf(failures).at < now - cfg.window
           && (SweepsAfterBlocks(cfg, sw) ==> BlockedUntil(cfg, failures) <= now)
  }

  lemma BlockBounds(cfg: Config, count: int, limit: int)
    requires ValidConfig(cfg)
    ensures BlockOf(cfg, count, limit) == Backoff(count, limit, cfg.base, cfg.maximum) <= cfg.maximum
    ensures BlockOf(cfg, count, limit) > 0 <==> count >= limit
  {
    if count >= limit {
      Pow2Grows(0, count - limit);
      ProductGrows(cfg.base, 1, Pow2(count - limit));
    }
  }

  /** Recording one failure of a key appends it to what its row says. */
  lemma FailureSays(cfg: Config, sw: Sweeps, failures: seq<Attempt>, t: Table, key: string, limit: int, now: int)
    requires ValidConfig(cfg) && KeySays(cfg, sw, failures, t, key, now)
    ensures var t' := FailKey(cfg, t, key, limit, now);
            key in t' && RowSays(cfg, failures + [Attempt(now, limit)], t'[key])
  {
    var failures' := failures + [Attempt(now, limit)];
    assert failures'[..|failures|] == failures;
    BlockBounds(cfg, Streak(failures', cfg.window), limit);
  }

  /** Both sweeps take only rows without influence. */
  lemma SweepSays(cfg: Config, sw: Sweeps, failures: seq<Attempt>, t: Table, key: string, batch: set<string>, now: int)
    requires ValidConfig(cfg) && KeySays(cfg, sw, failures, t, key, now)
    ensures KeySays(cfg, sw, failures, Retain(cfg, t, batch, now), key, now)
    ensures sw.inline ==> KeySays(cfg, sw, failures, SweepOld(cfg, t, now), key, now)
  {
    if failures != [] {
      BlockBounds(cfg, Streak(failures, cfg.window), LastOf(failures).limit);
    }
  }

  lemma BothFailuresSay(cfg: Config, sw: Sweeps, failures: seq<Attempt>, t: Table, key: string, fp: Fingerprint,
                        now: int)
    requires ValidConfig(cfg) && KeySays(cfg, sw, failures, t, key, now)
    ensures KeySays(cfg, sw, Extended(cfg, failures, Failure(fp, now), key), FailBoth(cfg, t, fp, now), key, now)
  {
    var first := if fp.principal == key then failures + [Attempt(now, cfg.limit)] else failures;
    var t' := FailKey(cfg, t, fp.principal, cfg.limit, now);
    if fp.principal == key {
      FailureSays(cfg, sw, failures, t, key, cfg.limit, now);
    }
    assert KeySays(cfg, sw, first, t', key, now);
    if fp.source == key {
      FailureSays(cfg, sw, first, t', key, cfg.sourceLimit, now);
    }
  }

  lemma StepSays(cfg: Config, sw: Sweeps, failures: seq<Attempt>, t: Table, e: Event, key: string)
    requires ValidConfig(cfg) && KeySays(cfg, sw, failures, t, key, e.now)
    ensures KeySays(cfg, sw, Extended(cfg, failures, e, key), Next(cfg, sw, t, e), key, e.now)
  {
    match e
    case Check(_, _) =>
    case Failure(fp, now) =>
      BothFailuresSay(cfg, sw, failures, t, key, fp, now);
      SweepSays(cfg, sw, Extended(cfg, failures, e, key), FailBoth(cfg, t, fp, now), key, {}, now);
    case Success(_, _) =>
    case Retention(batch, now) => SweepSays(cfg, sw, failures, t, key, batch, now);
  }

  /** After every prefix of every run each row says what the events say. */
  lemma {:induction false} RowsFollowEvents(
      cfg: Config, sw: Sweeps, es: seq<Event>, ts: seq<Table>, n: nat, key: string, now: int)
    requires ValidConfig(cfg) && Clock(es) && LoginLimiter.History(cfg, sw, es, ts) && n <= |es|
    requires forall k :: 0 <= k < n ==> es[k].now <= now
    ensures KeySays(cfg, sw, FailedSince(cfg, es[..n], key), ts[n], key, now)
  {
    if n > 0 {
      var e := es[n - 1];
      RowsFollowEvents(cfg, sw, es, ts, n - 1, key, e.now);
      assert LoginLimiter.Follows(cfg, sw, es, ts, n - 1);
      assert es[..n][..n - 1] == es[..n - 1];
      StepSays(cfg, sw, FailedSince(cfg, es[..n - 1], key), ts[n - 1], e, key);
    }
  }

  // ---------------------------------------------------------------- the answers

  /**
   * In every run, with or without sweeps: a recorded failure leaves both of its keys with a row that counts
   * the last `count` failures exactly if they came within a window of each other and the one before them did
   * not; from the limit on the key is blocked for the base delay, doubled by each further failure.
   */
  lemma FailuresAddUp(cfg: Config, sw: Sweeps, es: seq<Event>, ts: seq<Table>, i: nat, key: string, count: int)
    requires ValidConfig(cfg) && Clock(es) && LoginLimiter.History(cfg, sw, es, ts) && i < |es|
    requires es[i].Failure? && (key == es[i].fp.principal || key == es[i].fp.source)
    requires 0 < count <= |FailedSince(cfg, es[..i + 1], key)|
    ensures key in ts[i + 1]
    ensures var failures, row := FailedSince(cfg, es[..i + 1], key), ts[i + 1][key];
            var limit := if key == es[i].fp.source then cfg.sourceLimit else cfg.limit;
            && (row.failures == count <==> LastStretch(failures, cfg.window, count))
            && (row.failures == count && count < limit ==> row.blockedUntil == None)
            && (row.failures == count && count >= limit ==>
                  var doubled := cfg.base * Pow2(count - limit);
                  row.blockedUntil == Some(es[i].now + if doubled < cfg.maximum then doubled else cfg.maximum))
  {
    var failures := FailedSince(cfg, es[..i + 1], key);
    RowsFollowEvents(cfg, sw, es, ts, i + 1, key, es[i].now);
    LastFailure(cfg, es, i, key);
    StreakIffLastStretch(failures, cfg.window, count);
  }

  /** The newest failure of a key is the event just recorded, in its last role. */
  lemma LastFailure(cfg: Config, es: seq<Event>, i: nat, key: string)
    requires i < |es| && es[i].Failure? && (key == es[i].fp.principal || key == es[i].fp.source)
    ensures var failures := FailedSince(cfg, es[..i + 1], key);
            failures != [] && LastOf(failures)
            == Attempt(es[i].now, if key == es[i].fp.source then cfg.sourceLimit else cfg.limit)
  {
    assert es[..i + 1][..i] == es[..i];
  }

  /** In every run the answer to a failure follows from the events: both counts, and the longer of the two blocks. */
  lemma FailureFollowsEvents(cfg: Config, sw: Sweeps, es: seq<Event>, ts: seq<Table>, i: nat)
    requires ValidConfig(cfg) && Clock(es) && LoginLimiter.History(cfg, sw, es, ts) && i < |es| && es[i].Failure?
    ensures var fp, now := es[i].fp, es[i].now;
            var p := Streak(FailedSince(cfg, es[..i], fp.principal) + [Attempt(now, cfg.limit)], cfg.window);
            var q := Streak(FailedSince(cfg, es[..i + 1], fp.source), cfg.window);
            var x, y := BlockOf(cfg, p, cfg.limit), BlockOf(cfg, q, cfg.sourceLimit);
            Observe(cfg, ts[i], es[i]) == Counted(p, q, if x < y then y else x)
  {
    var fp, now := es[i].fp, es[i].now;
    var t' := FailKey(cfg, ts[i], fp.principal, cfg.limit, now);
    var ofSource := FailedSince(cfg, es[..i], fp.source);
    assert es[..i + 1][..i] == es[..i];
    RowsFollowEvents(cfg, sw, es, ts, i, fp.principal, now);
    RowsFollowEvents(cfg, sw, es, ts, i, fp.source, now);
    FailureSays(cfg, sw, FailedSince(cfg, es[..i], fp.principal), ts[i], fp.principal, cfg.limit, now);
    var first := if fp.principal == fp.source then ofSource + [Attempt(now, cfg.limit)] else ofSource;
    FailureSays(cfg, sw, first, t', fp.source, cfg.sourceLimit, now);
    BlockBounds(cfg, NextCount(cfg, ts[i], fp.principal, now), cfg.limit);
    BlockBounds(cfg, NextCount(cfg, t', fp.source, now), cfg.sourceLimit);
  }

  /** In every run whose in-line sweep spares the blocks, a check answers what the events alone decide. */
  lemma CheckFollowsEvents(cfg: Config, sw: Sweeps, es: seq<Event>, ts: seq<Table>, i: nat)
    requires ValidConfig(cfg) && Clock(es) && LoginLimiter.History(cfg, sw, es, ts) && i < |es| && es[i].Check?
    requires sw.inline ==> cfg.maximum <= 2 * cfg.window + 1
    ensures var principal := Remaining(cfg, FailedSince(cfg, es[..i], es[i].fp.principal), es[i].now);
            var source := Remaining(cfg, FailedSince(cfg, es[..i], es[i].fp.source), es[i].now);
            Observe(cfg, ts[i], es[i]) == Delay(if principal < source then source else principal)
  {
    RemainingInTable(cfg, sw, es, ts, i, es[i].fp.principal);
    RemainingInTable(cfg, sw, es, ts, i, es[i].fp.source);
  }

  lemma RemainingInTable(cfg: Config, sw: Sweeps, es: seq<Event>, ts: seq<Table>, i: nat, key: string)
    requires ValidConfig(cfg) && Clock(es) && LoginLimiter.History(cfg, sw, es, ts) && i < |es|
    requires SweepsAfterBlocks(cfg, sw)
    ensures ThrottleKey(ts[i], key, es[i].now) == Remaining(cfg, FailedSince(cfg, es[..i], key), es[i].now)
  {
    var failures := FailedSince(cfg, es[..i], key);
    RowsFollowEvents(cfg, sw, es, ts, i, key, es[i].now);
    if failures != [] {
      BlockBounds(cfg, Streak(failures, cfg.window), LastOf(failures).limit);
      if key in ts[i] && ts[i][key].blockedUntil.None? {
        LastNotLater(cfg, es, i, key);
      }
    }
  }

  lemma {:induction false} LastNotLater(cfg: Config, es: seq<Event>, i: nat, key: string)
    requires Clock(es) && i < |es| && FailedSince(cfg, es[..i], key) != []
    ensures LastOf(FailedSince(cfg, es[..i], key)).at <= es[i].now
  {
    assert es[..i][..i - 1] == es[..i - 1];
    var failures := FailedSince(cfg, es[..i - 1], key);
    if failures != [] {
      LastNotLater(cfg, es, i - 1, key);
    }
  }
}
