/** The process-local limiter of repeated failing administrative writes. */
module AuditLimiter {

  type Seen = map<string, int>

  datatype Limits = Limits(window: int, maxKeys: nat)

  datatype Attempt = Attempt(fingerprint: string, now: int)

  /** Admitted attempts are remembered, unless the table is saturated or the limiter is off. */
  datatype Verdict = Suppressed | Remembered | Forgotten

  function Live(seen: Seen, window: int, now: int): Seen {
    map k | k in seen && !(now - seen[k] >= window) :: seen[k]
  }

  function Evict(l: Limits, seen: Seen, now: int): Seen {
    if |seen| >= l.maxKeys then Live(seen, l.window, now) else seen
  }

  function Decide(l: Limits, seen: Seen, a: Attempt): (Verdict, Seen) {
    if l.window <= 0 then (Forgotten, seen)
    else if a.fingerprint in seen && a.now - seen[a.fingerprint] < l.window then (Suppressed, seen)
    else
      var kept := Evict(l, seen, a.now);
      if |kept| >= l.maxKeys then (Forgotten, kept) else (Remembered, kept[a.fingerprint := a.now])
  }

  class AuditFailureLimiter {
    const limits: Limits
    var seen: Seen

    constructor (limits: Limits)
      ensures this.limits == limits && seen == map[]
    {
      this.limits := limits;
      seen := map[];
    }

    method Allow(fingerprint: string, now: int) returns (admitted: bool)
      modifies this
      ensures (if admitted then Decide(limits, old(seen), Attempt(fingerprint, now)).0 != Suppressed
               else Decide(limits, old(seen), Attempt(fingerprint, now)).0 == Suppressed)
      ensures seen == Decide(limits, old(seen), Attempt(fingerprint, now)).1
    {
      if limits.window <= 0 {
        return true;
      }
      if fingerprint in seen && now - seen[fingerprint] < limits.window {
        return false;
      }
      if |seen| >= limits.maxKeys {
        var todo := seen.Keys;
        while todo != {}
          invariant todo <= old(seen).Keys
          invariant seen == map k |
                              k in old(seen) && (k in todo || !(now - old(seen)[k] >= limits.window)) :: old(seen)[k]
        {
          var candidate :| candidate in todo;
          if now - seen[candidate] >= limits.window {
            seen := seen - {candidate};
          }
          todo := todo - {candidate};
        }
        assert seen == Live(old(seen), limits.window, now);
        if |seen| >= limits.maxKeys {
          return true;
        }
      }
      seen := seen[fingerprint := now];
      return true;
    }
  }

  // ---------------------------------------------------------------- whole runs

  function SeenAt(l: Limits, run: seq<Attempt>, n: nat): Seen
    requires n <= |run|
  {
    if n == 0 then map[] else Decide(l, SeenAt(l, run, n - 1), run[n - 1]).1
  }

  function VerdictAt(l: Limits, run: seq<Attempt>, i: nat): Verdict
    requires i < |run|
  {
    Decide(l, SeenAt(l, run, i), run[i]).0
  }

  ghost predicate ClockRuns(run: seq<Attempt>) {
    forall i, j :: 0 <= i < j < |run| ==> run[i].now <= run[j].now
  }

  /** Attempt `j` was remembered for this fingerprint less than one window before `now`. */
  ghost predicate Recalls(l: Limits, run: seq<Attempt>, j: nat, fingerprint: string, now: int)
    requires j < |run|
  {
    VerdictAt(l, run, j) == Remembered && run[j].fingerprint == fingerprint && now - run[j].now < l.window
  }

  /** One decision keeps or refreshes entries, adds at most its own, and drops only stale ones. */
  lemma DecideEntries(l: Limits, seen: Seen, a: Attempt)
    requires l.window > 0
    ensures var (verdict, after) := Decide(l, seen, a);
            && (verdict == Remembered ==> a.fingerprint in after && after[a.fingerprint] == a.now)
            && (forall k ::
                  k in after && (k != a.fingerprint || verdict != Remembered) ==> k in seen && after[k] == seen[k])
            && (forall k :: k in seen && k !in after ==> seen[k] + l.window <= a.now)
  {
  }

  ghost predicate Stems(l: Limits, run: seq<Attempt>, j: nat, k: string, at: int)
    requires j < |run|
  {
    VerdictAt(l, run, j) == Remembered && run[j].fingerprint == k && run[j].now == at
  }

  /** Every entry stems from a remembered attempt. */
  lemma {:induction false} EntryStems(l: Limits, run: seq<Attempt>, n: nat, k: string) returns (j: nat)
    requires n <= |run| && l.window > 0 && k in SeenAt(l, run, n)
    ensures j < n && Stems(l, run, j, k, SeenAt(l, run, n)[k])
  {
    DecideEntries(l, SeenAt(l, run, n - 1), run[n - 1]);
    if k == run[n - 1].fingerprint && VerdictAt(l, run, n - 1) == Remembered {
      j := n - 1;
    } else {
      j := EntryStems(l, run, n - 1, k);
    }
  }

  /** A remembered attempt stays in the table, possibly refreshed, until it is a window old. */
  lemma {:induction false} EntryStays(l: Limits, run: seq<Attempt>, n: nat, j: nat)
    requires j < n <= |run| && ClockRuns(run) && l.window > 0 && VerdictAt(l, run, j) == Remembered
    ensures var seen, k := SeenAt(l, run, n), run[j].fingerprint;
            (k in seen && run[j].now <= seen[k]) || run[j].now + l.window <= run[n - 1].now
  {
    DecideEntries(l, SeenAt(l, run, n - 1), run[n - 1]);
    if j < n - 1 {
      EntryStays(l, run, n - 1, j);
      assert run[j].now <= run[n - 2].now <= run[n - 1].now;
    }
  }

  /** The memory bound holds after every attempt of every run. */
  lemma {:induction false} NeverExceedsMaxKeys(l: Limits, run: seq<Attempt>, n: nat)
    requires n <= |run|
    ensures |SeenAt(l, run, n)| <= l.maxKeys
  {
    if n > 0 {
      NeverExceedsMaxKeys(l, run, n - 1);
      var before, now := SeenAt(l, run, n - 1), run[n - 1].now;
      KeepsSize(before, Live(before, l.window, now));
    }
  }

  lemma {:induction false} KeepsSize(m: Seen, s: Seen)
    requires s.Keys <= m.Keys
    ensures |s| <= |m|
  {
    assert m.Keys == s.Keys + (m.Keys - s.Keys);
    assert |m.Keys| == |s.Keys| + |m.Keys - s.Keys|;
  }

  /** An attempt is suppressed exactly when an identical one was remembered less than a window earlier. */
  lemma SuppressedIff(l: Limits, run: seq<Attempt>, i: nat)
    requires i < |run| && ClockRuns(run)
    ensures VerdictAt(l, run, i) == Suppressed
       <==> exists j: nat :: j < i && Recalls(l, run, j, run[i].fingerprint, run[i].now)
  {
    var seen, k, now := SeenAt(l, run, i), run[i].fingerprint, run[i].now;
    if VerdictAt(l, run, i) == Suppressed {
      var j := EntryStems(l, run, i, k);
      assert Recalls(l, run, j, k, now);
    }
    if j: nat :| j < i && Recalls(l, run, j, k, now) {
      if l.window > 0 {
        EntryStays(l, run, i, j);
        assert run[i - 1].now <= now;
      }
    }
  }

  /** The fingerprints remembered less than a window before attempt `i`. */
  ghost predicate LiveBefore(l: Limits, run: seq<Attempt>, i: nat, k: string)
    requires i < |run|
  {
    exists j: nat :: j < i && Recalls(l, run, j, k, run[i].now)
  }

  /**
   * A repeat inside the window is admitted only if every earlier identical admission found the
   * table full of at least `maxKeys` other fingerprints that were still live.
   */
  lemma RepeatAdmittedOnlyIfSaturated(l: Limits, run: seq<Attempt>, j: nat, i: nat)
      returns (live: set<string>)
    requires j < i < |run| && ClockRuns(run) && l.window > 0
    requires run[j].fingerprint == run[i].fingerprint && run[i].now - run[j].now < l.window
    requires VerdictAt(l, run, j) != Suppressed && VerdictAt(l, run, i) != Suppressed
    ensures VerdictAt(l, run, j) == Forgotten
    ensures |live| >= l.maxKeys && forall k :: k in live ==> LiveBefore(l, run, j, k)
  {
    SuppressedIff(l, run, i);
    assert !Recalls(l, run, j, run[i].fingerprint, run[i].now);
    var seen := SeenAt(l, run, j);
    var kept := Live(seen, l.window, run[j].now);
    live := kept.Keys;
    KeepsSize(seen, kept);
    NeverExceedsMaxKeys(l, run, j);
    forall k | k in live
      ensures LiveBefore(l, run, j, k)
    {
      var m := EntryStems(l, run, j, k);
      assert Recalls(l, run, m, k, run[j].now);
    }
  }
}
