/** The login rate limiter: saturating backoff, a failure window and two sweeps. */
module LoginLimiter {
  import opened Wrappers

  newtype int64 = x: int | -0x8000_0000_0000_0000 <= x < 0x8000_0000_0000_0000

  datatype Config = Config(limit: int, sourceLimit: int, window: int, base: int, maximum: int)

  /** Limits and durations are 64-bit, the counter column is 32-bit. */
  const WIDE := 0x8000_0000_0000_0000
  const MAX_COUNT := 0x7FFF_FFFF

  /** What configuration loading and validation guarantee. */
  predicate ValidConfig(cfg: Config) {
    && 0 < cfg.limit < WIDE && 0 < cfg.sourceLimit < WIDE
    && cfg.window > 0 && 0 < cfg.base <= cfg.maximum < WIDE
  }

  datatype Row = Row(failures: int, blockedUntil: Option<int>, updatedAt: int)
  type Table = map<string, Row>

  /** The two rows a login attempt counts against. */
  datatype Fingerprint = Fingerprint(principal: string, source: string)

  function Max(a: int, b: int): int { if a < b then b else a }
  function Min(a: int, b: int): int { if a < b then a else b }

  // ---------------------------------------------------------------- backoff

  function Pow2(k: nat): int {
    if k == 0 then 1 else 2 * Pow2(k - 1)
  }

  function Backoff(failures: int, limit: int, base: int, maximum: int): int {
    if failures < limit then 0 else Min(maximum, base * Pow2(failures - limit))
  }

  lemma {:induction false} Pow2Grows(a: nat, b: nat)
    requires a <= b
    ensures 1 <= Pow2(a) <= Pow2(b) && b < Pow2(b)
    decreases b
  {
    if b > 0 {
      Pow2Grows(if a < b then a else b - 1, b - 1);
    }
  }

  lemma ProductGrows(base: int, p: int, q: int)
    requires base >= 0 && p <= q
    ensures base * p <= base * q
  {
  }

  /** More failures never shorten the delay, and the delay is bounded by the maximum. */
  lemma BackoffMonotone(f: int, g: int, limit: int, base: int, maximum: int)
    requires f <= g && 0 <= base && 0 <= maximum
    ensures 0 <= Backoff(f, limit, base, maximum) <= Backoff(g, limit, base, maximum) <= maximum
  {
    if f >= limit {
      Pow2Grows(f - limit, g - limit);
      ProductGrows(base, Pow2(f - limit), Pow2(g - limit));
      ProductGrows(base, 0, Pow2(f - limit));
    } else if g >= limit {
      Pow2Grows(0, g - limit);
      ProductGrows(base, 0, Pow2(g - limit));
    }
  }

  /** The doubling loop in 64-bit durations: no product overflows, and it computes the capped power. */
  method LoginBackoff(failures: int64, limit: int64, base: int64, maximum: int64) returns (delay: int64)
    requires 0 <= base && 0 <= maximum
    ensures delay as int == Backoff(failures as int, limit as int, base as int, maximum as int)
  {
    if failures < limit {
      return 0;
    }
    delay := base;
    var step := limit;
    while step < failures
      invariant limit <= step <= failures
      invariant 0 <= delay
      invariant delay as int == base as int * Pow2(step as int - limit as int)
    {
      if delay >= maximum || delay > maximum / 2 {
        Pow2Grows(step as int + 1 - limit as int, failures as int - limit as int);
        ProductGrows(base as int, Pow2(step as int + 1 - limit as int), Pow2(failures as int - limit as int));
        assert base as int * Pow2(step as int + 1 - limit as int) == 2 * delay as int;
        return maximum;
      }
      assert base as int * Pow2(step as int + 1 - limit as int) == 2 * delay as int;
      delay := delay * 2;
      step := step + 1;
    }
    if delay > maximum {
      return maximum;
    }
  }

  // ---------------------------------------------------------------- transactions on the table

  function ThrottleKey(t: Table, key: string, now: int): int {
    if key in t && t[key].blockedUntil.Some? then Max(0, t[key].blockedUntil.value - now) else 0
  }

  function Throttle(t: Table, fp: Fingerprint, now: int): int {
    Max(ThrottleKey(t, fp.principal, now), ThrottleKey(t, fp.source, now))
  }

  function NextCount(cfg: Config, t: Table, key: string, now: int): int {
    if key !in t || t[key].updatedAt < now - cfg.window then 1 else t[key].failures + 1
  }

  function FailKey(cfg: Config, t: Table, key: string, limit: int, now: int): Table {
    var count := NextCount(cfg, t, key, now);
    var delay := Backoff(count, limit, cfg.base, cfg.maximum);
    t[key := Row(count, if delay > 0 then Some(now + delay) else None, now)]
  }

  /** The sweep inside the failure transaction. */
  function SweepOld(cfg: Config, t: Table, now: int): Table {
    map k | k in t && !(t[k].updatedAt < now - 2 * cfg.window) :: t[k]
  }

  /** A retention batch deletes some of the rows older than both the window and the longest backoff. */
  function Retain(cfg: Config, t: Table, batch: set<string>, now: int): Table {
    map k | k in t && !(k in batch && t[k].updatedAt < now - Max(cfg.window, cfg.maximum)) :: t[k]
  }

  /** The next count fits its column. */
  predicate Fits(cfg: Config, t: Table, key: string, now: int) {
    0 <= NextCount(cfg, t, key, now) <= MAX_COUNT
  }

  class LimiterStore {
    const cfg: Config
    var rows: Table

    constructor (cfg: Config)
      ensures this.cfg == cfg && rows == map[]
    {
      this.cfg := cfg;
      rows := map[];
    }

    method LoginThrottle(fp: Fingerprint, now: int) returns (delay: int)
      ensures delay == Throttle(rows, fp, now)
      ensures delay > 0 <==> exists key :: key in {fp.principal, fp.source} && key in rows
                               && rows[key].blockedUntil.Some? && now < rows[key].blockedUntil.value
    {
      var principalDelay := ThrottleKey(rows, fp.principal, now);
      var sourceDelay := ThrottleKey(rows, fp.source, now);
      delay := Max(principalDelay, sourceDelay);
      assert fp.principal in {fp.principal, fp.source} && fp.source in {fp.principal, fp.source};
    }

    method RecordLimitFailure(key: string, limit: int64, now: int) returns (delay: int)
      requires ValidConfig(cfg) && Fits(cfg, rows, key, now)
      modifies this
      ensures rows == FailKey(cfg, old(rows), key, limit as int, now)
      ensures delay == Backoff(NextCount(cfg, old(rows), key, now), limit as int, cfg.base, cfg.maximum)
    {
      var count := if key !in rows then 1
                   else if rows[key].updatedAt < now - cfg.window then 1 else rows[key].failures + 1;
      rows := rows[key := Row(count, None, now)];
      var capped := LoginBackoff(count as int64, limit, cfg.base as int64, cfg.maximum as int64);
      delay := capped as int;
      rows := rows[key := rows[key].(blockedUntil := if delay > 0 then Some(now + delay) else None)];
    }

    method RecordLoginFailure(fp: Fingerprint, now: int) returns (delay: int)
      requires ValidConfig(cfg)
      requires Fits(cfg, rows, fp.principal, now)
      requires Fits(cfg, FailKey(cfg, rows, fp.principal, cfg.limit, now), fp.source, now)
      modifies this
      ensures rows == SweepOld(cfg, FailBoth(cfg, old(rows), fp, now), now)
      ensures forall key :: key in rows <==>
                || key == fp.principal || key == fp.source
                || (key in old(rows) && now - 2 * cfg.window <= old(rows)[key].updatedAt)
      ensures delay == FailureDelay(cfg, old(rows), fp, now)
    {
      var principalDelay := RecordLimitFailure(fp.principal, cfg.limit as int64, now);
      var sourceDelay := RecordLimitFailure(fp.source, cfg.sourceLimit as int64, now);
      delay := Max(principalDelay, sourceDelay);
      rows := map k | k in rows && !(rows[k].updatedAt < now - 2 * cfg.window) :: rows[k];
    }

    method RecordLoginSuccess(fp: Fingerprint)
      modifies this
      ensures rows == old(rows) - {fp.principal}
    {
      rows := rows - {fp.principal};
    }

    method CleanupLoginRateLimits(batch: set<string>, now: int)
      modifies this
      ensures rows == Retain(cfg, old(rows), batch, now)
      ensures forall key :: key in rows <==>
                key in old(rows) && (key in batch ==> now - cfg.window <= old(rows)[key].updatedAt
                                                      || now - cfg.maximum <= old(rows)[key].updatedAt)
    {
      rows := rows - (set k | k in batch && k in rows && rows[k].updatedAt < now - Max(cfg.window, cfg.maximum));
    }
  }

  function FailBoth(cfg: Config, t: Table, fp: Fingerprint, now: int): Table {
    FailKey(cfg, FailKey(cfg, t, fp.principal, cfg.limit, now), fp.source, cfg.sourceLimit, now)
  }

  function FailureDelay(cfg: Config, t: Table, fp: Fingerprint, now: int): int {
    var t' := FailKey(cfg, t, fp.principal, cfg.limit, now);
    Max(Backoff(NextCount(cfg, t, fp.principal, now), cfg.limit, cfg.base, cfg.maximum),
        Backoff(NextCount(cfg, t', fp.source, now), cfg.sourceLimit, cfg.base, cfg.maximum))
  }

  // ---------------------------------------------------------------- whole runs

  /** The steps of any interleaving; a throttle check and a recorded failure are separate steps. */
  datatype Event =
    | Check(fp: Fingerprint, now: int)
    | Failure(fp: Fingerprint, now: int)
    | Success(fp: Fingerprint, now: int)
    | Retention(batch: set<string>, now: int)

  datatype Observation =
    | Delay(delay: int)
    | Counted(principalCount: int, sourceCount: int, delay: int)
    | Silent

  /** Which of the two sweeps a machine performs. */
  datatype Sweeps = Sweeps(inline: bool, retention: bool)

  const NO_SWEEPS := Sweeps(false, false)

  function Next(cfg: Config, sw: Sweeps, t: Table, e: Event): Table {
    match e
    case Check(_, _) => t
    case Failure(fp, now) =>
      var t' := FailBoth(cfg, t, fp, now);
      if sw.inline then SweepOld(cfg, t', now) else t'
    case Success(fp, _) => t - {fp.principal}
    case Retention(batch, now) => if sw.retention then Retain(cfg, t, batch, now) else t
  }

  function Observe(cfg: Config, t: Table, e: Event): Observation {
    match e
    case Check(fp, now) => Delay(Throttle(t, fp, now))
    case Failure(fp, now) =>
      Counted(NextCount(cfg, t, fp.principal, now),
              NextCount(cfg, FailKey(cfg, t, fp.principal, cfg.limit, now), fp.source, now),
              FailureDelay(cfg, t, fp, now))
    case _ => Silent
  }

  ghost predicate Clock(es: seq<Event>) {
    forall i, j :: 0 <= i < j < |es| ==> es[i].now <= es[j].now
  }

  ghost predicate Follows(cfg: Config, sw: Sweeps, es: seq<Event>, ts: seq<Table>, k: nat)
    requires k < |es| && |ts| == |es| + 1
  {
    ts[k + 1] == Next(cfg, sw, ts[k], es[k])
  }

  /** A run from the empty table, with the tables it goes through. */
  ghost predicate History(cfg: Config, sw: Sweeps, es: seq<Event>, ts: seq<Table>) {
    |ts| == |es| + 1 && ts[0] == map[] && forall k: nat :: k < |es| ==> Follows(cfg, sw, es, ts, k)
  }

  predicate SameAt(cfg: Config, es: seq<Event>, ts: seq<Table>, us: seq<Table>, k: nat)
    requires k < |es| && |ts| == |us| == |es| + 1
  {
    Observe(cfg, ts[k], es[k]) == Observe(cfg, us[k], es[k])
  }

  /** Every event is answered alike from both sequences of tables. */
  ghost predicate SameAnswers(cfg: Config, es: seq<Event>, ts: seq<Table>, us: seq<Table>)
    requires |ts| == |us| == |es| + 1
  {
    forall k: nat :: k < |es| ==> SameAt(cfg, es, ts, us, k)
  }

  /** A row without influence at or after `now`: its count restarts and its block is over. */
  predicate Dead(cfg: Config, row: Row, now: int) {
    row.updatedAt < now - cfg.window && (row.blockedUntil.Some? ==> row.blockedUntil.value <= now)
  }

  /** The swept table `a` lacks only dead rows of `b`, whose blocks are no longer than `bound`. */
  ghost predicate Simulates(cfg: Config, bound: int, a: Table, b: Table, now: int) {
    && (forall k :: k in a ==> k in b && a[k] == b[k])
    && (forall k :: k in b && k !in a ==> Dead(cfg, b[k], now))
    && (forall k :: k in b ==> b[k].blockedUntil.Some? ==> b[k].blockedUntil.value <= b[k].updatedAt + bound)
  }

  predicate DelayWithin(cfg: Config, t: Table, e: Event, bound: int) {
    e.Failure? ==> FailureDelay(cfg, t, e.fp, e.now) <= bound
  }

  /** Every failure of the run is answered with a delay within the bound. */
  ghost predicate DelaysWithin(cfg: Config, es: seq<Event>, ts: seq<Table>, bound: int)
    requires |ts| == |es| + 1
  {
    forall k: nat :: k < |es| ==> DelayWithin(cfg, ts[k], es[k], bound)
  }

  /** No block within the bound outlives the sweeps that are performed. */
  predicate SweepsSpare(cfg: Config, sw: Sweeps, bound: int) {
    0 <= bound <= cfg.maximum && (sw.inline ==> bound <= 2 * cfg.window + 1)
  }

  lemma FailKeySimulates(cfg: Config, bound: int, a: Table, b: Table, key: string, limit: int, now: int)
    requires ValidConfig(cfg) && Simulates(cfg, bound, a, b, now)
    requires Backoff(NextCount(cfg, a, key, now), limit, cfg.base, cfg.maximum) <= bound
    ensures NextCount(cfg, a, key, now) == NextCount(cfg, b, key, now)
    ensures Simulates(cfg, bound, FailKey(cfg, a, key, limit, now), FailKey(cfg, b, key, limit, now), now)
  {
  }

  /** Both sweeps take dead rows only. */
  lemma SweepSimulates(cfg: Config, bound: int, a: Table, b: Table, batch: set<string>, now: int)
    requires ValidConfig(cfg) && Simulates(cfg, bound, a, b, now) && bound <= cfg.maximum
    ensures Simulates(cfg, bound, Retain(cfg, a, batch, now), b, now)
    ensures bound <= 2 * cfg.window + 1 ==> Simulates(cfg, bound, SweepOld(cfg, a, now), b, now)
  {
  }

  lemma FailureSimulates(cfg: Config, bound: int, a: Table, b: Table, fp: Fingerprint, now: int)
    requires ValidConfig(cfg) && Simulates(cfg, bound, a, b, now) && FailureDelay(cfg, a, fp, now) <= bound
    ensures Observe(cfg, a, Failure(fp, now)) == Observe(cfg, b, Failure(fp, now))
    ensures Simulates(cfg, bound, FailBoth(cfg, a, fp, now), FailBoth(cfg, b, fp, now), now)
  {
    FailKeySimulates(cfg, bound, a, b, fp.principal, cfg.limit, now);
    var a', b' := FailKey(cfg, a, fp.principal, cfg.limit, now), FailKey(cfg, b, fp.principal, cfg.limit, now);
    FailKeySimulates(cfg, bound, a', b', fp.source, cfg.sourceLimit, now);
  }

  lemma StepSimulates(cfg: Config, sw: Sweeps, bound: int, a: Table, b: Table, e: Event, start: int)
    requires ValidConfig(cfg) && SweepsSpare(cfg, sw, bound)
    requires Simulates(cfg, bound, a, b, start) && start <= e.now
    requires DelayWithin(cfg, a, e, bound)
    ensures Observe(cfg, a, e) == Observe(cfg, b, e)
    ensures Simulates(cfg, bound, Next(cfg, sw, a, e), Next(cfg, NO_SWEEPS, b, e), e.now)
  {
    assert Simulates(cfg, bound, a, b, e.now);
    match e
    case Check(_, _) =>
    case Failure(fp, now) =>
      FailureSimulates(cfg, bound, a, b, fp, now);
      SweepSimulates(cfg, bound, FailBoth(cfg, a, fp, now), FailBoth(cfg, b, fp, now), {}, now);
    case Success(_, _) =>
    case Retention(batch, now) =>
      SweepSimulates(cfg, bound, a, b, batch, now);
  }

  lemma {:induction false} RunSimulates(
      cfg: Config, sw: Sweeps, bound: int, es: seq<Event>, ts: seq<Table>, us: seq<Table>, n: nat, start: int)
    requires ValidConfig(cfg) && SweepsSpare(cfg, sw, bound) && n <= |es| && Clock(es)
    requires History(cfg, sw, es, ts) && History(cfg, NO_SWEEPS, es, us) && DelaysWithin(cfg, es, ts, bound)
    requires forall k: nat :: k < n ==> es[k].now <= start
    ensures Simulates(cfg, bound, ts[n], us[n], start)
    ensures forall k: nat :: k < n ==> SameAt(cfg, es, ts, us, k)
  {
    if n > 0 {
      var e := es[n - 1];
      RunSimulates(cfg, sw, bound, es, ts, us, n - 1, e.now);
      assert Follows(cfg, sw, es, ts, n - 1) && Follows(cfg, NO_SWEEPS, es, us, n - 1);
      assert DelayWithin(cfg, ts[n - 1], e, bound);
      StepSimulates(cfg, sw, bound, ts[n - 1], us[n - 1], e, e.now);
      SimulatesLater(cfg, bound, ts[n], us[n], e.now, start);
    }
  }

  lemma SimulatesLater(cfg: Config, bound: int, a: Table, b: Table, now: int, later: int)
    requires Simulates(cfg, bound, a, b, now) && now <= later
    ensures Simulates(cfg, bound, a, b, later)
  {
  }

  /** If no block outlives the sweeps, no answer differs. */
  lemma SpareIsUnseen(cfg: Config, sw: Sweeps, bound: int, es: seq<Event>, ts: seq<Table>, us: seq<Table>)
    requires ValidConfig(cfg) && SweepsSpare(cfg, sw, bound) && Clock(es)
    requires History(cfg, sw, es, ts) && History(cfg, NO_SWEEPS, es, us) && DelaysWithin(cfg, es, ts, bound)
    ensures SameAnswers(cfg, es, ts, us)
  {
    RunSimulates(cfg, sw, bound, es, ts, us, |es|, if es == [] then 0 else es[|es| - 1].now);
  }

  /** Retention never shows, in any run. */
  lemma RetentionUnobservable(cfg: Config, es: seq<Event>, ts: seq<Table>, us: seq<Table>)
    requires ValidConfig(cfg) && Clock(es)
    requires History(cfg, Sweeps(false, true), es, ts) && History(cfg, NO_SWEEPS, es, us)
    ensures SameAnswers(cfg, es, ts, us)
  {
    forall k: nat | k < |es|
      ensures DelayWithin(cfg, ts[k], es[k], cfg.maximum)
    {
      if es[k].Failure? {
        DelayGrows(cfg, ts[k], es[k].fp, es[k].now);
      }
    }
    SpareIsUnseen(cfg, Sweeps(false, true), cfg.maximum, es, ts, us);
  }

  // ---------------------------------------------------------------- when the in-line sweep is harmless

  /** The counts of a failure fit their column. */
  predicate StepFits(cfg: Config, t: Table, e: Event) {
    e.Failure? ==>
      && Fits(cfg, t, e.fp.principal, e.now)
      && Fits(cfg, FailKey(cfg, t, e.fp.principal, cfg.limit, e.now), e.fp.source, e.now)
  }

  ghost predicate CountsFit(cfg: Config, es: seq<Event>, ts: seq<Table>)
    requires |ts| == |es| + 1
  {
    forall k: nat :: k < |es| ==> StepFits(cfg, ts[k], es[k])
  }

  /** The longest delay `count` failures of one source can cause. */
  function Longest(cfg: Config, count: int): int {
    Max(Backoff(count, cfg.limit, cfg.base, cfg.maximum), Backoff(count, cfg.sourceLimit, cfg.base, cfg.maximum))
  }

  function FirstLimit(cfg: Config): int {
    Min(cfg.limit, cfg.sourceLimit)
  }

  lemma DelayGrows(cfg: Config, t: Table, fp: Fingerprint, now: int)
    requires ValidConfig(cfg)
    ensures FailureDelay(cfg, t, fp, now) <= cfg.maximum
    ensures StepFits(cfg, t, Failure(fp, now)) ==> FailureDelay(cfg, t, fp, now) <= Longest(cfg, MAX_COUNT)
  {
    var t' := FailKey(cfg, t, fp.principal, cfg.limit, now);
    var p, q := NextCount(cfg, t, fp.principal, now), NextCount(cfg, t', fp.source, now);
    BackoffMonotone(p, if p <= MAX_COUNT then MAX_COUNT else p, cfg.limit, cfg.base, cfg.maximum);
    BackoffMonotone(q, if q <= MAX_COUNT then MAX_COUNT else q, cfg.sourceLimit, cfg.base, cfg.maximum);
  }

  /** 63 doublings past the first limit reach every 64-bit maximum. */
  lemma LongestIsMaximum(cfg: Config, count: int)
    requires ValidConfig(cfg) && count >= FirstLimit(cfg) + 63
    ensures Longest(cfg, count) == cfg.maximum
  {
    var limit := FirstLimit(cfg);
    Pow2Grows(63, count - limit);
    Pow2Of63();
    ProductGrows(Pow2(count - limit), 1, cfg.base);
    assert Backoff(count, limit, cfg.base, cfg.maximum) == cfg.maximum;
    BackoffMonotone(count, count, cfg.limit, cfg.base, cfg.maximum);
    BackoffMonotone(count, count, cfg.sourceLimit, cfg.base, cfg.maximum);
  }

  lemma Pow2Of63()
    ensures Pow2(63) == WIDE
  {
    assert Pow2(7) == 128 && Pow2(8) == 256;
    Pow2Sum(8, 8);
    Pow2Sum(16, 16);
    Pow2Sum(32, 16);
    Pow2Sum(48, 8);
    Pow2Sum(56, 7);
  }

  lemma {:induction false} Pow2Sum(a: nat, b: nat)
    ensures Pow2(a + b) == Pow2(a) * Pow2(b)
    decreases b
  {
    if b > 0 {
      Pow2Sum(a, b - 1);
    }
  }

  // ---------------------------------------------------------------- a run that shows the in-line sweep

  function Subject(): Fingerprint {
    Fingerprint("p", "s")
  }

  function BlockAt(cfg: Config, count: int, limit: int, now: int): Option<int> {
    var delay := Backoff(count, limit, cfg.base, cfg.maximum);
    if delay > 0 then Some(now + delay) else None
  }

  /** The table after a burst of `n` failures of the subject at one instant. */
  function BurstTable(cfg: Config, n: nat): Table {
    if n == 0 then map[]
    else map["p" := Row(n, BlockAt(cfg, n, cfg.limit, 0), 0), "s" := Row(n, BlockAt(cfg, n, cfg.sourceLimit, 0), 0)]
  }

  lemma BurstStep(cfg: Config, sw: Sweeps, n: nat)
    requires ValidConfig(cfg)
    ensures Next(cfg, sw, BurstTable(cfg, n), Failure(Subject(), 0)) == BurstTable(cfg, n + 1)
    ensures n < MAX_COUNT ==> StepFits(cfg, BurstTable(cfg, n), Failure(Subject(), 0))
    ensures n < FirstLimit(cfg) ==> Throttle(BurstTable(cfg, n), Subject(), 0) == 0
  {
  }

  /** Just over two windows after the burst another login fails, and then the subject is checked. */
  function Witness(cfg: Config, n: nat): seq<Event> {
    seq(n, _ => Failure(Subject(), 0))
    + [Failure(Fingerprint("q", "r"), 2 * cfg.window + 1), Check(Subject(), 2 * cfg.window + 1)]
  }

  function WitnessTables(cfg: Config, sw: Sweeps, n: nat): seq<Table> {
    var last := Next(cfg, sw, BurstTable(cfg, n), Failure(Fingerprint("q", "r"), 2 * cfg.window + 1));
    seq(n + 1, i requires 0 <= i <= n => BurstTable(cfg, i)) + [last, last]
  }

  lemma WitnessRuns(cfg: Config, sw: Sweeps, n: nat)
    requires ValidConfig(cfg) && 0 < n <= MAX_COUNT
    ensures var es, ts := Witness(cfg, n), WitnessTables(cfg, sw, n);
            && Clock(es) && History(cfg, sw, es, ts) && CountsFit(cfg, es, ts)
            && (n <= FirstLimit(cfg) ==> Serial(cfg, es, ts))
  {
    var es, ts := Witness(cfg, n), WitnessTables(cfg, sw, n);
    forall k: nat | k < |es|
      ensures Follows(cfg, sw, es, ts, k) && StepFits(cfg, ts[k], es[k])
      ensures (n <= FirstLimit(cfg) ==> Unblocked(ts[k], es[k]))
    {
      if k < n {
        BurstStep(cfg, sw, k);
      }
    }
  }

  /** The last check finds the block of the subject exactly if no in-line sweep took its rows. */
  lemma LastCheck(cfg: Config, sw: Sweeps, n: nat)
    requires ValidConfig(cfg) && n > 0 && Longest(cfg, n) > 2 * cfg.window + 1
    ensures var o := Observe(cfg, WitnessTables(cfg, sw, n)[n + 1], Witness(cfg, n)[n + 1]);
            o.Delay? && (sw.inline <==> o.delay == 0)
  {
    var t, t' := BurstTable(cfg, n), WitnessTables(cfg, sw, n)[n + 1];
    assert sw.inline ==> "p" !in t' && "s" !in t';
    assert !sw.inline ==> t'["p"] == t["p"] && t'["s"] == t["s"];
  }

  /** If `n` failures cause a block longer than two windows, the last check of the witness tells the machines apart. */
  lemma WitnessDiffers(cfg: Config, sw: Sweeps, n: nat)
    requires ValidConfig(cfg) && sw.inline && 0 < n <= MAX_COUNT && Longest(cfg, n) > 2 * cfg.window + 1
    ensures !SameAnswers(cfg, Witness(cfg, n), WitnessTables(cfg, sw, n), WitnessTables(cfg, NO_SWEEPS, n))
  {
    LastCheck(cfg, sw, n);
    LastCheck(cfg, NO_SWEEPS, n);
    assert !SameAt(cfg, Witness(cfg, n), WitnessTables(cfg, sw, n), WitnessTables(cfg, NO_SWEEPS, n), n + 1);
  }

  /** The sweeps show in no run whose counts fit their column. */
  ghost predicate Unobservable(cfg: Config, sw: Sweeps) {
    forall es, ts, us ::
      Clock(es) && History(cfg, sw, es, ts) && History(cfg, NO_SWEEPS, es, us) && CountsFit(cfg, es, ts)
      ==> SameAnswers(cfg, es, ts, us)
  }

  lemma FittingRunsAgree(cfg: Config, sw: Sweeps, es: seq<Event>, ts: seq<Table>, us: seq<Table>)
    requires ValidConfig(cfg) && Longest(cfg, MAX_COUNT) <= 2 * cfg.window + 1
    requires Clock(es) && History(cfg, sw, es, ts) && History(cfg, NO_SWEEPS, es, us) && CountsFit(cfg, es, ts)
    ensures SameAnswers(cfg, es, ts, us)
  {
    BackoffMonotone(MAX_COUNT, MAX_COUNT, cfg.limit, cfg.base, cfg.maximum);
    BackoffMonotone(MAX_COUNT, MAX_COUNT, cfg.sourceLimit, cfg.base, cfg.maximum);
    forall k: nat | k < |es|
      ensures DelayWithin(cfg, ts[k], es[k], Longest(cfg, MAX_COUNT))
    {
      if es[k].Failure? {
        DelayGrows(cfg, ts[k], es[k].fp, es[k].now);
      }
    }
    SpareIsUnseen(cfg, sw, Longest(cfg, MAX_COUNT), es, ts, us);
  }

  /**
   * The in-line two-window sweep is unobservable exactly when no count that fits causes a longer block.
   * With a limit of at most 2^31 - 64 that is the configured maximum, which 63 failures past the limit reach.
   */
  lemma InlineSweepUnobservableIff(cfg: Config, retention: bool)
    requires ValidConfig(cfg)
    ensures Unobservable(cfg, Sweeps(true, retention)) <==> Longest(cfg, MAX_COUNT) <= 2 * cfg.window + 1
    ensures FirstLimit(cfg) + 63 <= MAX_COUNT ==>
              (Unobservable(cfg, Sweeps(true, retention)) <==> cfg.maximum <= 2 * cfg.window + 1)
  {
    var sw := Sweeps(true, retention);
    var n := if FirstLimit(cfg) + 63 <= MAX_COUNT then FirstLimit(cfg) + 63 else MAX_COUNT;
    LongestIsMaximum(cfg, FirstLimit(cfg) + 63);
    if n < MAX_COUNT {
      LongestIsMaximum(cfg, MAX_COUNT);
    }
    if Longest(cfg, MAX_COUNT) <= 2 * cfg.window + 1 {
      forall es, ts, us | Clock(es) && History(cfg, sw, es, ts) && History(cfg, NO_SWEEPS, es, us)
                          && CountsFit(cfg, es, ts)
        ensures SameAnswers(cfg, es, ts, us)
      {
        FittingRunsAgree(cfg, sw, es, ts, us);
      }
    } else {
      WitnessRuns(cfg, sw, n);
      WitnessRuns(cfg, NO_SWEEPS, n);
      WitnessDiffers(cfg, sw, n);
    }
  }

  // ---------------------------------------------------------------- attempts that do not overlap

  /** A failure is recorded only while neither of its rows blocks. */
  predicate Unblocked(t: Table, e: Event) {
    e.Failure? ==> Throttle(t, e.fp, e.now) == 0
  }

  ghost predicate Serial(cfg: Config, es: seq<Event>, ts: seq<Table>)
    requires |ts| == |es| + 1
  {
    forall k: nat :: k < |es| ==> Unblocked(ts[k], es[k])
  }

  /** Principal and source keys are hashes of different texts. */
  predicate RolesApart(es: seq<Event>, sources: set<string>) {
    forall i :: 0 <= i < |es| && es[i].Failure? ==> es[i].fp.principal !in sources && es[i].fp.source in sources
  }

  function LimitOf(cfg: Config, sources: set<string>, key: string): int {
    if key in sources then cfg.sourceLimit else cfg.limit
  }

  predicate BlockFits(cfg: Config, limit: int, row: Row) {
    row.failures >= 1 && row.blockedUntil == BlockAt(cfg, row.failures, limit, row.updatedAt)
  }

  /** Every block is the one its count causes. */
  ghost predicate BlocksFit(cfg: Config, sources: set<string>, t: Table) {
    forall k :: k in t ==> BlockFits(cfg, LimitOf(cfg, sources, k), t[k])
  }

  function SerialBound(cfg: Config): int {
    Min(cfg.maximum, Max(cfg.base, 2 * cfg.window))
  }

  /** One more failure at most doubles the delay, and the first one at a limit causes the base delay. */
  lemma BackoffDoubles(count: int, limit: int, base: int, maximum: int)
    requires 0 < base <= maximum
    ensures Backoff(count, limit, base, maximum) <= Max(base, 2 * Backoff(count - 1, limit, base, maximum))
    ensures count >= limit ==> Backoff(count, limit, base, maximum) > 0
  {
    if count >= limit {
      Pow2Grows(0, count - limit);
      ProductGrows(base, 1, Pow2(count - limit));
    }
    if count > limit {
      var k := count - 1 - limit;
      assert base * Pow2(k + 1) == 2 * (base * Pow2(k));
    }
  }

  /** An unblocked row that is still counting had a block of at most one window. */
  lemma LastBlockWasShort(cfg: Config, sources: set<string>, t: Table, key: string, now: int)
    requires ValidConfig(cfg) && BlocksFit(cfg, sources, t) && ThrottleKey(t, key, now) == 0
    requires NextCount(cfg, t, key, now) > 1
    ensures Backoff(NextCount(cfg, t, key, now) - 1, LimitOf(cfg, sources, key), cfg.base, cfg.maximum) <= cfg.window
  {
    var row, limit := t[key], LimitOf(cfg, sources, key);
    assert BlockFits(cfg, limit, row);
    BackoffMonotone(row.failures, row.failures, limit, cfg.base, cfg.maximum);
  }

  /** A failure after the last block of its row is answered with at most the base delay or two windows. */
  lemma SerialDelay(cfg: Config, sources: set<string>, t: Table, key: string, now: int)
    requires ValidConfig(cfg) && BlocksFit(cfg, sources, t) && ThrottleKey(t, key, now) == 0
    ensures var limit := LimitOf(cfg, sources, key);
            && Backoff(NextCount(cfg, t, key, now), limit, cfg.base, cfg.maximum) <= SerialBound(cfg)
            && BlocksFit(cfg, sources, FailKey(cfg, t, key, limit, now))
  {
    var limit, count := LimitOf(cfg, sources, key), NextCount(cfg, t, key, now);
    BackoffMonotone(count, count, limit, cfg.base, cfg.maximum);
    BackoffDoubles(count, limit, cfg.base, cfg.maximum);
    assert key in t ==> BlockFits(cfg, limit, t[key]);
    if count > 1 {
      LastBlockWasShort(cfg, sources, t, key, now);
    } else {
      assert Backoff(0, limit, cfg.base, cfg.maximum) == 0;
    }
  }

  lemma SerialStep(cfg: Config, sw: Sweeps, sources: set<string>, t: Table, e: Event)
    requires ValidConfig(cfg) && BlocksFit(cfg, sources, t) && Unblocked(t, e)
    requires e.Failure? ==> e.fp.principal !in sources && e.fp.source in sources
    ensures DelayWithin(cfg, t, e, SerialBound(cfg)) && BlocksFit(cfg, sources, Next(cfg, sw, t, e))
  {
    if e.Failure? {
      SerialDelay(cfg, sources, t, e.fp.principal, e.now);
      SerialDelay(cfg, sources, FailKey(cfg, t, e.fp.principal, cfg.limit, e.now), e.fp.source, e.now);
    }
  }

  lemma {:induction false} SerialDelays(cfg: Config, sw: Sweeps, sources: set<string>, es: seq<Event>, ts: seq<Table>,
                                        n: nat)
    requires ValidConfig(cfg) && History(cfg, sw, es, ts) && Serial(cfg, es, ts) && RolesApart(es, sources) && n <= |es|
    ensures BlocksFit(cfg, sources, ts[n])
    ensures forall k: nat :: k < n ==> DelayWithin(cfg, ts[k], es[k], SerialBound(cfg))
  {
    if n > 0 {
      SerialDelays(cfg, sw, sources, es, ts, n - 1);
      assert Follows(cfg, sw, es, ts, n - 1) && Unblocked(ts[n - 1], es[n - 1]);
      SerialStep(cfg, sw, sources, ts[n - 1], es[n - 1]);
    }
  }

  /** The sweeps show in no run of attempts that do not overlap. */
  ghost predicate SeriallyUnobservable(cfg: Config, sw: Sweeps) {
    forall es, ts, us, sources ::
      Clock(es) && History(cfg, sw, es, ts) && History(cfg, NO_SWEEPS, es, us) && CountsFit(cfg, es, ts)
      && Serial(cfg, es, ts) && RolesApart(es, sources)
      ==> SameAnswers(cfg, es, ts, us)
  }

  /** Without overlapping attempts the in-line sweep shows exactly when a first block already outlives two windows. */
  lemma SerialInlineSweepIff(cfg: Config, retention: bool)
    requires ValidConfig(cfg) && FirstLimit(cfg) <= MAX_COUNT
    ensures SeriallyUnobservable(cfg, Sweeps(true, retention)) <==> cfg.base <= 2 * cfg.window + 1
  {
    var sw := Sweeps(true, retention);
    if cfg.base <= 2 * cfg.window + 1 {
      forall es, ts, us, sources | Clock(es) && History(cfg, sw, es, ts) && History(cfg, NO_SWEEPS, es, us)
                                   && CountsFit(cfg, es, ts) && Serial(cfg, es, ts) && RolesApart(es, sources)
        ensures SameAnswers(cfg, es, ts, us)
      {
        SerialDelays(cfg, sw, sources, es, ts, |es|);
        SpareIsUnseen(cfg, sw, SerialBound(cfg), es, ts, us);
      }
    } else {
      var n := FirstLimit(cfg);
      assert Backoff(n, n, cfg.base, cfg.maximum) == cfg.base;
      WitnessRuns(cfg, sw, n);
      WitnessRuns(cfg, NO_SWEEPS, n);
      WitnessDiffers(cfg, sw, n);
      assert RolesApart(Witness(cfg, n), {"s", "r"});
    }
  }
}
