/** The agent's in-memory credential cache with shared resolutions, cut at its awaits. */
module CredentialCache {
  import opened Wrappers

  /** The server's expiry of resolved material. */
  datatype Expiry = Never | At(time: int) | Unparsable

  datatype Cached = Cached(revision: string, promise: nat, expiresAt: int)
  datatype Pending = Pending(revision: string, promise: nat)

  datatype Manager = Manager(
    metadata: map<string, string>, cache: map<string, Cached>, resolutions: map<string, Pending>)

  /** A resolution request: for which id and revision, when it started, and how it ended. */
  datatype Request = Request(id: string, revision: string, startedAt: int, ended: bool, expiry: Expiry)

  datatype Use = Unavailable | Hit(promise: nat) | Joined(promise: nat) | Started(promise: nat)

  // ---------------------------------------------------------------- segments

  function Listed(m: Manager, list: map<string, string>): Manager {
    m.(cache := map id | id in m.cache && id in list && list[id] == m.cache[id].revision :: m.cache[id],
       metadata := list)
  }

  predicate Usable(m: Manager, id: string, now: int) {
    id in m.metadata && id in m.cache && m.cache[id].revision == m.metadata[id] && m.cache[id].expiresAt > now
  }

  /** `use` after its synchronization: hit, join, or start the resolution numbered `number`. */
  function Material(m: Manager, id: string, now: int, number: nat): (Use, Manager) {
    if id !in m.metadata then (Unavailable, m)
    else if Usable(m, id, now) then (Hit(m.cache[id].promise), m)
    else
      var m' := m.(cache := m.cache - {id});
      if id in m.resolutions && m.resolutions[id].revision == m.metadata[id]
      then (Joined(m.resolutions[id].promise), m')
      else (Started(number), m'.(resolutions := m.resolutions[id := Pending(m.metadata[id], number)]))
  }

  function ExpiresAt(startedAt: int, maxCache: int, expiry: Expiry): Option<int> {
    match expiry
    case Never => Some(startedAt + maxCache)
    case At(time) => Some(if time < startedAt + maxCache then time else startedAt + maxCache)
    case Unparsable => None
  }

  /** The starter's continuation; None is a failed resolution. */
  function Resolved(m: Manager, r: Request, promise: nat, expiry: Option<Expiry>, maxCache: int): Manager {
    var at := if expiry.Some? then ExpiresAt(r.startedAt, maxCache, expiry.value) else None;
    var cache := if at.Some? && at.value > r.startedAt
                 then m.cache[r.id := Cached(r.revision, promise, at.value)] else m.cache;
    var resolutions := if r.id in m.resolutions && m.resolutions[r.id].promise == promise
                       then m.resolutions - {r.id} else m.resolutions;
    m.(cache := cache, resolutions := resolutions)
  }

  class CredentialManager {
    const maxCache: int
    var metadata: map<string, string>
    var cache: map<string, Cached>
    var resolutions: map<string, Pending>

    ghost function State(): Manager
      reads this
    {
      Manager(metadata, cache, resolutions)
    }

    constructor (maxCache: int)
      requires maxCache > 0
      ensures this.maxCache == maxCache && State() == Manager(map[], map[], map[])
    {
      this.maxCache := maxCache;
      metadata, cache, resolutions := map[], map[], map[];
    }

    method OnListed(list: map<string, string>)
      modifies this
      ensures State() == Listed(old(State()), list)
    {
      var todo := cache.Keys;
      while todo != {}
        invariant todo <= old(cache).Keys && metadata == old(metadata) && resolutions == old(resolutions)
        invariant cache == map id |
                             id in old(cache) && (id in todo || (id in list && list[id] == old(cache)[id].revision))
                             :: old(cache)[id]
      {
        var id :| id in todo;
        if id !in list || list[id] != cache[id].revision {
          cache := cache - {id};
        }
        todo := todo - {id};
      }
      metadata := list;
    }

    method UseMaterial(id: string, now: int, number: nat) returns (use: Use)
      modifies this
      ensures (use, State()) == Material(old(State()), id, now, number)
    {
      if id !in metadata {
        return Unavailable;
      }
      var revision := metadata[id];
      if id in cache && cache[id].revision == revision && cache[id].expiresAt > now {
        return Hit(cache[id].promise);
      }
      cache := cache - {id};
      if id in resolutions && resolutions[id].revision == revision {
        return Joined(resolutions[id].promise);
      }
      resolutions := resolutions[id := Pending(revision, number)];
      return Started(number);
    }

    method OnResolved(r: Request, promise: nat, expiry: Option<Expiry>)
      modifies this
      ensures State() == Resolved(old(State()), r, promise, expiry, maxCache)
    {
      if expiry.Some? {
        var at := ExpiresAt(r.startedAt, maxCache, expiry.value);
        if at.Some? && at.value > r.startedAt {
          cache := cache[r.id := Cached(r.revision, promise, at.value)];
        }
      }
      if r.id in resolutions && resolutions[r.id].promise == promise {
        resolutions := resolutions - {r.id};
      }
    }

    method Clear()
      modifies this
      ensures State() == Manager(map[], map[], map[])
    {
      cache, metadata, resolutions := map[], map[], map[];
    }
  }

  // ---------------------------------------------------------------- interleavings

  datatype Step =
    | List(list: map<string, string>)
    | UseCredential(id: string, now: int)
    | Resolve(promise: nat, expiry: Option<Expiry>)
    | ClearAll

  /** All requests ever made, the last listed revision of each id, and the revisions replaced by later ones. */
  datatype World = World(
    manager: Manager, requests: seq<Request>, last: map<string, string>, retired: set<(string, string)>)

  const EMPTY := World(Manager(map[], map[], map[]), [], map[], {})

  function Do(maxCache: int, w: World, s: Step): World {
    match s
    case List(list) =>
      w.(manager := Listed(w.manager, list), last := w.last + list,
         retired := w.retired + set id | id in list && id in w.last && w.last[id] != list[id] :: (id, w.last[id]))
    case UseCredential(id, now) =>
      var (use, m) := Material(w.manager, id, now, |w.requests|);
      w.(manager := m,
         requests := if use.Started? then w.requests + [Request(id, w.manager.metadata[id], now, false, Never)]
                     else w.requests)
    case Resolve(p, expiry) =>
      if p >= |w.requests| || w.requests[p].ended then w
      else
        var r := w.requests[p];
        w.(manager := Resolved(w.manager, r, p, expiry, maxCache),
           requests := w.requests[p := r.(ended := true, expiry := if expiry.Some? then expiry.value else Unparsable)])
    case ClearAll => w.(manager := Manager(map[], map[], map[]))
  }

  function UseOf(w: World, id: string, now: int): Use {
    Material(w.manager, id, now, |w.requests|).0
  }

  ghost predicate Follows(maxCache: int, run: seq<Step>, worlds: seq<World>, k: nat)
    requires k < |run| && |worlds| == |run| + 1
  {
    worlds[k + 1] == Do(maxCache, worlds[k], run[k])
  }

  /** An interleaving from the empty manager, with the worlds it goes through. */
  ghost predicate History(maxCache: int, run: seq<Step>, worlds: seq<World>) {
    |worlds| == |run| + 1 && worlds[0] == EMPTY && forall k: nat :: k < |run| ==> Follows(maxCache, run, worlds, k)
  }

  // ---------------------------------------------------------------- hits

  /** A cached entry stems from an ended request for its id and revision and respects both limits. */
  ghost predicate EntryFits(maxCache: int, requests: seq<Request>, id: string, c: Cached) {
    && c.promise < |requests|
    && var r := requests[c.promise];
       && r.ended && r.id == id && r.revision == c.revision
       && c.expiresAt <= r.startedAt + maxCache
       && (r.expiry.At? ==> c.expiresAt <= r.expiry.time) && !r.expiry.Unparsable?
  }

  ghost predicate CacheFits(maxCache: int, w: World) {
    forall id :: id in w.manager.cache ==> EntryFits(maxCache, w.requests, id, w.manager.cache[id])
  }

  /** A step keeps the entries of ended requests; only a resolution adds one, for the request it ends. */
  lemma StepCacheFits(maxCache: int, w: World, s: Step)
    requires CacheFits(maxCache, w)
    ensures CacheFits(maxCache, Do(maxCache, w, s))
  {
    var w' := Do(maxCache, w, s);
    forall id | id in w'.manager.cache
      ensures EntryFits(maxCache, w'.requests, id, w'.manager.cache[id])
    {
      if id in w.manager.cache && w'.manager.cache[id] == w.manager.cache[id] {
        assert EntryFits(maxCache, w.requests, id, w.manager.cache[id]);
      } else {
        assert s.Resolve? && w'.manager.cache[id].promise == s.promise;
      }
    }
  }

  lemma {:induction false} CacheAlwaysFits(maxCache: int, run: seq<Step>, worlds: seq<World>, n: nat)
    requires History(maxCache, run, worlds) && n <= |run|
    ensures CacheFits(maxCache, worlds[n])
  {
    if n > 0 {
      CacheAlwaysFits(maxCache, run, worlds, n - 1);
      assert Follows(maxCache, run, worlds, n - 1);
      StepCacheFits(maxCache, worlds[n - 1], run[n - 1]);
    }
  }

  /**
   * In every interleaving a hit returns material resolved for the revision listed right now, requested
   * less than `maxCache` ago, and not expired at the server.
   */
  lemma HitIsCurrent(maxCache: int, run: seq<Step>, worlds: seq<World>, n: nat, id: string, now: int)
    requires History(maxCache, run, worlds) && n <= |run| && UseOf(worlds[n], id, now).Hit?
    ensures var w := worlds[n];
            var p := UseOf(w, id, now).promise;
            && p < |w.requests| && id in w.manager.metadata
            && var r := w.requests[p];
               r.id == id && r.revision == w.manager.metadata[id] && now < r.startedAt + maxCache
               && (r.expiry.At? ==> now < r.expiry.time)
  {
    CacheAlwaysFits(maxCache, run, worlds, n);
  }

  /** What takes the entry of an answered request: its id is listed differently or no more, everything is
      cleared, or another outstanding request for the id is answered with cacheable material. */
  predicate Disturbs(maxCache: int, w: World, s: Step, id: string, revision: string) {
    match s
    case List(list) => !(id in list && list[id] == revision)
    case UseCredential(_, _) => false
    case Resolve(q, expiry) =>
      Outstanding(w, q) && w.requests[q].id == id && Cacheable(maxCache, w.requests[q].startedAt, expiry)
    case ClearAll => true
  }

  predicate Cacheable(maxCache: int, startedAt: int, expiry: Option<Expiry>) {
    expiry.Some? && ExpiresAt(startedAt, maxCache, expiry.value).Some?
    && ExpiresAt(startedAt, maxCache, expiry.value).value > startedAt
  }

  /** Until when the answer may serve: the earlier of the two limits. */
  predicate Live(maxCache: int, startedAt: int, expiry: Expiry, now: int) {
    !expiry.Unparsable? && now < startedAt + maxCache && (expiry.At? ==> now < expiry.time)
  }

  /** The entry of request `p` is cached under the listed revision. */
  ghost predicate Serves(maxCache: int, w: World, p: nat, r: Request, expiry: Expiry) {
    && p < |w.requests| && w.requests[p].ended
    && r.id in w.manager.metadata && w.manager.metadata[r.id] == r.revision
    && ExpiresAt(r.startedAt, maxCache, expiry).Some? && r.id in w.manager.cache
    && w.manager.cache[r.id] == Cached(r.revision, p, ExpiresAt(r.startedAt, maxCache, expiry).value)
  }

  /** The request is answered and nothing holds its entry; that is final. */
  ghost predicate Gone(w: World, p: nat) {
    p < |w.requests| && w.requests[p].ended && forall id :: id in w.manager.cache ==> w.manager.cache[id].promise != p
  }

  lemma StepServes(maxCache: int, w: World, s: Step, p: nat, r: Request, expiry: Expiry, now: int)
    requires Serves(maxCache, w, p, r, expiry) && Live(maxCache, r.startedAt, expiry, now)
    requires s.UseCredential? ==> s.now <= now
    requires forall id :: id in w.manager.cache && w.manager.cache[id].promise == p ==> id == r.id
    ensures var w' := Do(maxCache, w, s);
            && (!Disturbs(maxCache, w, s, r.id, r.revision) ==> Serves(maxCache, w', p, r, expiry))
            && (Disturbs(maxCache, w, s, r.id, r.revision) ==> Gone(w', p))
            && (forall id :: id in w'.manager.cache && w'.manager.cache[id].promise == p ==> id == r.id)
  {
  }

  lemma StepGone(maxCache: int, w: World, s: Step, p: nat)
    requires Gone(w, p)
    ensures Gone(Do(maxCache, w, s), p)
  {
  }

  /** The answer of request `p` at step `i`, for the revision listed then, and a use at `now` after step `j - 1`. */
  ghost predicate AnsweredAndUsed(
      maxCache: int, run: seq<Step>, worlds: seq<World>, i: nat, j: nat, p: nat, expiry: Expiry, now: int)
  {
    && History(maxCache, run, worlds) && i < j <= |run|
    && run[i] == Resolve(p, Some(expiry)) && Outstanding(worlds[i], p)
    && var r := worlds[i].requests[p];
       && r.startedAt <= now && r.id in worlds[i].manager.metadata && worlds[i].manager.metadata[r.id] == r.revision
       && (forall k :: i < k < j && run[k].UseCredential? ==> run[k].now <= now)
  }

  predicate DisturbedAt(maxCache: int, run: seq<Step>, worlds: seq<World>, k: nat, r: Request)
    requires k < |run| && |worlds| == |run| + 1
  {
    Disturbs(maxCache, worlds[k], run[k], r.id, r.revision)
  }

  /** Along the run the entry serves until it is disturbed, and is gone ever after. */
  lemma {:induction false} AnswerAlong(
      maxCache: int, run: seq<Step>, worlds: seq<World>, i: nat, j: nat, p: nat, expiry: Expiry, now: int)
    requires AnsweredAndUsed(maxCache, run, worlds, i, j, p, expiry, now)
    requires Live(maxCache, worlds[i].requests[p].startedAt, expiry, now)
    ensures var r := worlds[i].requests[p];
            && (forall id :: id in worlds[j].manager.cache && worlds[j].manager.cache[id].promise == p ==> id == r.id)
            && (if exists k: nat :: i < k < j && DisturbedAt(maxCache, run, worlds, k, r)
                then Gone(worlds[j], p) else Serves(maxCache, worlds[j], p, r, expiry))
    decreases j
  {
    var r := worlds[i].requests[p];
    if j == i + 1 {
      CacheAlwaysFits(maxCache, run, worlds, i);
      assert Follows(maxCache, run, worlds, i);
      AnswerEnters(maxCache, worlds[i], p, expiry, now);
    } else {
      AnswerAlong(maxCache, run, worlds, i, j - 1, p, expiry, now);
      assert Follows(maxCache, run, worlds, j - 1);
      if exists k: nat :: i < k < j - 1 && DisturbedAt(maxCache, run, worlds, k, r) {
        StepGone(maxCache, worlds[j - 1], run[j - 1], p);
      } else {
        StepServes(maxCache, worlds[j - 1], run[j - 1], p, r, expiry, now);
        assert DisturbedAt(maxCache, run, worlds, j - 1, r)
          <==> exists k: nat :: i < k < j && DisturbedAt(maxCache, run, worlds, k, r);
      }
    }
  }

  /** An answer for the listed revision enters the cache, under its own id only. */
  lemma AnswerEnters(maxCache: int, w: World, p: nat, expiry: Expiry, now: int)
    requires Outstanding(w, p) && CacheFits(maxCache, w)
    requires var r := w.requests[p];
             && r.startedAt <= now && Live(maxCache, r.startedAt, expiry, now)
             && r.id in w.manager.metadata && w.manager.metadata[r.id] == r.revision
    ensures var w', r := Do(maxCache, w, Resolve(p, Some(expiry))), w.requests[p];
            && Serves(maxCache, w', p, r, expiry)
            && (forall id :: id in w'.manager.cache && w'.manager.cache[id].promise == p ==> id == r.id)
  {
    forall id | id in w.manager.cache
      ensures w.manager.cache[id].promise != p
    {
      assert EntryFits(maxCache, w.requests, id, w.manager.cache[id]);
    }
  }

  /** A request keeps its id and start, and once ended its answer. */
  lemma {:induction false} RequestStays(maxCache: int, run: seq<Step>, worlds: seq<World>, i: nat, j: nat, p: nat)
    requires History(maxCache, run, worlds) && i <= j <= |run|
    requires p < |worlds[i].requests| && worlds[i].requests[p].ended
    ensures p < |worlds[j].requests| && worlds[j].requests[p] == worlds[i].requests[p]
    decreases j
  {
    if i < j {
      RequestStays(maxCache, run, worlds, i, j - 1, p);
      assert Follows(maxCache, run, worlds, j - 1);
    }
  }

  /**
   * In every interleaving: an answer for the listed revision serves a later use exactly if the use comes
   * before the earlier of the two limits and nothing disturbed the entry in between.
   */
  lemma AnswerServesIff(
      maxCache: int, run: seq<Step>, worlds: seq<World>, i: nat, j: nat, p: nat, expiry: Expiry, now: int)
    requires AnsweredAndUsed(maxCache, run, worlds, i, j, p, expiry, now)
    ensures var r := worlds[i].requests[p];
            UseOf(worlds[j], r.id, now) == Hit(p)
            <==> Live(maxCache, r.startedAt, expiry, now)
                 && !exists k: nat :: i < k < j && DisturbedAt(maxCache, run, worlds, k, r)
  {
    var r := worlds[i].requests[p];
    if Live(maxCache, r.startedAt, expiry, now) {
      AnswerAlong(maxCache, run, worlds, i, j, p, expiry, now);
    } else {
      assert Follows(maxCache, run, worlds, i);
      RequestStays(maxCache, run, worlds, i + 1, j, p);
      CacheAlwaysFits(maxCache, run, worlds, j);
      if UseOf(worlds[j], r.id, now) == Hit(p) {
        HitIsCurrent(maxCache, run, worlds, j, r.id, now);
      }
    }
  }

  // ---------------------------------------------------------------- what a use gets

  /** A pending entry is for an outstanding request of its own id and revision. */
  ghost predicate PendingFits(w: World) {
    forall id :: id in w.manager.resolutions ==>
      var pending := w.manager.resolutions[id];
      && pending.promise < |w.requests| && !w.requests[pending.promise].ended
      && w.requests[pending.promise].id == id && w.requests[pending.promise].revision == pending.revision
  }

  lemma StepPendingFits(maxCache: int, w: World, s: Step)
    requires PendingFits(w)
    ensures PendingFits(Do(maxCache, w, s))
  {
    var w' := Do(maxCache, w, s);
    forall id | id in w'.manager.resolutions
      ensures var pending := w'.manager.resolutions[id];
              && pending.promise < |w'.requests| && !w'.requests[pending.promise].ended
              && w'.requests[pending.promise].id == id && w'.requests[pending.promise].revision == pending.revision
    {
      assert || (id in w.manager.resolutions && w'.manager.resolutions[id] == w.manager.resolutions[id])
             || (s.UseCredential? && s.id == id && w'.manager.resolutions[id].promise == |w.requests|);
    }
  }

  lemma {:induction false} PendingAlwaysFits(maxCache: int, run: seq<Step>, worlds: seq<World>, n: nat)
    requires History(maxCache, run, worlds) && n <= |run|
    ensures PendingFits(worlds[n])
  {
    if n > 0 {
      PendingAlwaysFits(maxCache, run, worlds, n - 1);
      assert Follows(maxCache, run, worlds, n - 1);
      StepPendingFits(maxCache, worlds[n - 1], run[n - 1]);
    }
  }

  /** What the last listing since the last clear names; nothing before the first. */
  function ListedBy(run: seq<Step>): map<string, string> {
    if run == [] then map[]
    else match run[|run| - 1]
      case List(list) => list
      case ClearAll => map[]
      case _ => ListedBy(run[..|run| - 1])
  }

  lemma {:induction false} MetadataIsListing(maxCache: int, run: seq<Step>, worlds: seq<World>, n: nat)
    requires History(maxCache, run, worlds) && n <= |run|
    ensures worlds[n].manager.metadata == ListedBy(run[..n])
  {
    if n > 0 {
      MetadataIsListing(maxCache, run, worlds, n - 1);
      assert Follows(maxCache, run, worlds, n - 1);
      assert run[..n][..n - 1] == run[..n - 1];
    }
  }

  /**
   * In every interleaving a joined request is outstanding, and like a hit or a new request it is for the very
   * id that is used and the revision listed for it now: no consumer gets the material of another credential.
   */
  lemma UseGetsOwnMaterial(maxCache: int, run: seq<Step>, worlds: seq<World>, n: nat, id: string, now: int)
    requires History(maxCache, run, worlds) && n <= |run| && !UseOf(worlds[n], id, now).Unavailable?
    ensures id in ListedBy(run[..n])
    ensures var use, after := UseOf(worlds[n], id, now), Do(maxCache, worlds[n], UseCredential(id, now));
            && use.promise < |after.requests|
            && after.requests[use.promise].id == id && after.requests[use.promise].revision == ListedBy(run[..n])[id]
            && (use.Hit? <==> after.requests[use.promise].ended)
            && (use.Started? <==> use.promise == |worlds[n].requests|)
            && (if use.Started? then after.requests[..|after.requests| - 1] == worlds[n].requests
                                     && after.requests[use.promise].startedAt == now
                else after.requests == worlds[n].requests)
  {
    PendingAlwaysFits(maxCache, run, worlds, n);
    MetadataIsListing(maxCache, run, worlds, n);
    CacheAlwaysFits(maxCache, run, worlds, n);
  }

  /** Which of its four answers a use gives, in every interleaving. */
  lemma UseIsDecided(maxCache: int, run: seq<Step>, worlds: seq<World>, n: nat, id: string, now: int)
    requires History(maxCache, run, worlds) && n <= |run|
    ensures var use, m, listed := UseOf(worlds[n], id, now), worlds[n].manager, ListedBy(run[..n]);
            var serves := id in listed && id in m.cache && m.cache[id].revision == listed[id]
                          && now < m.cache[id].expiresAt;
            var pends := id in listed && id in m.resolutions && m.resolutions[id].revision == listed[id];
            && (use.Unavailable? <==> id !in listed)
            && (use.Hit? <==> serves)
            && (use.Joined? <==> !serves && pends)
            && (use.Started? <==> id in listed && !serves && !pends)
  {
    MetadataIsListing(maxCache, run, worlds, n);
  }

  // ---------------------------------------------------------------- shared resolutions

  predicate Outstanding(w: World, p: nat) {
    p < |w.requests| && !w.requests[p].ended
  }

  predicate SameSubject(w: World, p: nat, q: nat)
    requires p < |w.requests| && q < |w.requests|
  {
    w.requests[p].id == w.requests[q].id && w.requests[p].revision == w.requests[q].revision
  }

  /** A replaced revision is not listed again, and nothing is cleared while a request is outstanding. */
  ghost predicate Orderly(w: World, s: Step) {
    match s
    case List(list) => forall id :: id in list ==> (id, list[id]) !in w.retired
    case ClearAll => forall p :: !Outstanding(w, p)
    case _ => true
  }

  ghost predicate OrderlyRun(run: seq<Step>, worlds: seq<World>)
    requires |worlds| == |run| + 1
  {
    forall k: nat :: k < |run| ==> Orderly(worlds[k], run[k])
  }

  /** The request is for a replaced revision, or later uses will join it. */
  predicate Joinable(w: World, p: nat)
    requires p < |w.requests|
  {
    var r := w.requests[p];
    || (r.id, r.revision) in w.retired
    || (r.id in w.last && w.last[r.id] == r.revision
        && r.id in w.manager.resolutions && w.manager.resolutions[r.id] == Pending(r.revision, p))
  }

  ghost predicate ListingFits(w: World) {
    && (forall id :: id in w.manager.metadata ==> id in w.last && w.last[id] == w.manager.metadata[id])
    && (forall id :: id in w.last ==> (id, w.last[id]) !in w.retired)
  }

  ghost predicate Shared(w: World) {
    && ListingFits(w)
    && (forall p :: Outstanding(w, p) ==> Joinable(w, p))
    && (forall p, q :: Outstanding(w, p) && Outstanding(w, q) && SameSubject(w, p, q) ==> p == q)
  }

  lemma ListShared(maxCache: int, w: World, s: Step)
    requires s.List? && Shared(w) && Orderly(w, s)
    ensures Shared(Do(maxCache, w, s))
  {
    var w' := Do(maxCache, w, s);
    forall p: nat | Outstanding(w', p)
      ensures Joinable(w', p)
    {
      assert Outstanding(w, p) && Joinable(w, p);
    }
    assert forall p :: Outstanding(w', p) ==> Outstanding(w, p);
  }

  lemma UseShared(maxCache: int, w: World, s: Step)
    requires s.UseCredential? && Shared(w)
    ensures Shared(Do(maxCache, w, s))
  {
    var w' := Do(maxCache, w, s);
    if UseOf(w, s.id, s.now).Started? {
      var n, revision := |w.requests|, w.manager.metadata[s.id];
      assert w'.requests[n] == Request(s.id, revision, s.now, false, Never) && Joinable(w', n);
      assert forall p: nat :: Outstanding(w', p) && p != n ==> Outstanding(w, p) && w'.requests[p] == w.requests[p];
      forall p: nat | Outstanding(w, p)
        ensures Joinable(w', p) && !SameSubject(w', p, n)
      {
        assert Joinable(w, p);
      }
    } else {
      assert w'.requests == w.requests && w'.manager.resolutions == w.manager.resolutions;
      forall p: nat | Outstanding(w', p)
        ensures Outstanding(w, p) && Joinable(w', p)
      {
        assert Outstanding(w, p) && Joinable(w, p);
      }
    }
  }

  lemma ResolveShared(maxCache: int, w: World, s: Step)
    requires s.Resolve? && Shared(w)
    ensures Shared(Do(maxCache, w, s))
  {
    var w' := Do(maxCache, w, s);
    forall p: nat | Outstanding(w', p)
      ensures Outstanding(w, p) && w'.requests[p] == w.requests[p] && Joinable(w', p)
    {
      assert Outstanding(w, p) && Joinable(w, p);
    }
  }

  lemma StepShared(maxCache: int, w: World, s: Step)
    requires Shared(w) && Orderly(w, s)
    ensures Shared(Do(maxCache, w, s))
  {
    match s
    case List(_) => ListShared(maxCache, w, s);
    case UseCredential(_, _) => UseShared(maxCache, w, s);
    case Resolve(_, _) => ResolveShared(maxCache, w, s);
    case ClearAll => assert forall p :: Outstanding(Do(maxCache, w, s), p) ==> Outstanding(w, p);
  }

  /** In every orderly interleaving at most one request per id and revision is outstanding. */
  lemma {:induction false} AtMostOneResolution(maxCache: int, run: seq<Step>, worlds: seq<World>, n: nat)
    requires History(maxCache, run, worlds) && OrderlyRun(run, worlds) && n <= |run|
    ensures Shared(worlds[n])
  {
    if n > 0 {
      AtMostOneResolution(maxCache, run, worlds, n - 1);
      assert Follows(maxCache, run, worlds, n - 1) && Orderly(worlds[n - 1], run[n - 1]);
      StepShared(maxCache, worlds[n - 1], run[n - 1]);
    }
  }

  /** Listing a revision that nothing cached or pending serves, and using it, makes one more request. */
  lemma ListThenUse(maxCache: int, w: World, id: string, revision: string, now: int)
    requires id !in w.manager.cache
    requires id in w.manager.resolutions ==> w.manager.resolutions[id].revision != revision
    ensures var w' := Do(maxCache, Do(maxCache, w, List(map[id := revision])), UseCredential(id, now));
            && w'.requests == w.requests + [Request(id, revision, now, false, Never)] && id !in w'.manager.cache
            && id in w'.manager.resolutions && w'.manager.resolutions[id] == Pending(revision, |w.requests|)
  {
  }

  /** Two requests for the same id and revision are outstanding after the run. */
  ghost predicate Duplicates(maxCache: int, run: seq<Step>, worlds: seq<World>) {
    History(maxCache, run, worlds) && exists p, q :: SameAndOutstanding(worlds[|run|], p, q)
  }

  predicate SameAndOutstanding(w: World, p: nat, q: nat) {
    p != q && Outstanding(w, p) && Outstanding(w, q) && SameSubject(w, p, q)
  }

  function ListAndUse(id: string, revision: string, now: int): seq<Step> {
    [List(map[id := revision]), UseCredential(id, now)]
  }

  /** Listing a replaced revision again duplicates a request that is still outstanding. */
  lemma RecurrenceDuplicates(maxCache: int, id: string, a: string, b: string, now: int) returns (worlds: seq<World>)
    requires a != b
    ensures Duplicates(maxCache, ListAndUse(id, a, now) + ListAndUse(id, b, now) + ListAndUse(id, a, now), worlds)
  {
    var run := ListAndUse(id, a, now) + ListAndUse(id, b, now) + ListAndUse(id, a, now);
    var w1 := Do(maxCache, EMPTY, run[0]);
    var w2 := Do(maxCache, w1, run[1]);
    ListThenUse(maxCache, EMPTY, id, a, now);
    var w3 := Do(maxCache, w2, run[2]);
    var w4 := Do(maxCache, w3, run[3]);
    ListThenUse(maxCache, w2, id, b, now);
    var w5 := Do(maxCache, w4, run[4]);
    var w6 := Do(maxCache, w5, run[5]);
    ListThenUse(maxCache, w4, id, a, now);
    worlds := [EMPTY, w1, w2, w3, w4, w5, w6];
    assert SameAndOutstanding(worlds[6], 0, 2);
  }

  /** Clearing while a request is outstanding lets the next use duplicate it. */
  lemma ClearDuplicates(maxCache: int, id: string, a: string, now: int) returns (worlds: seq<World>)
    ensures Duplicates(maxCache, ListAndUse(id, a, now) + [ClearAll] + ListAndUse(id, a, now), worlds)
  {
    var run := ListAndUse(id, a, now) + [ClearAll] + ListAndUse(id, a, now);
    var w1 := Do(maxCache, EMPTY, run[0]);
    var w2 := Do(maxCache, w1, run[1]);
    ListThenUse(maxCache, EMPTY, id, a, now);
    var w3 := Do(maxCache, w2, run[2]);
    var w4 := Do(maxCache, w3, run[3]);
    var w5 := Do(maxCache, w4, run[4]);
    ListThenUse(maxCache, w3, id, a, now);
    worlds := [EMPTY, w1, w2, w3, w4, w5];
    assert SameAndOutstanding(worlds[5], 0, 1);
  }

  /** Requests 0 and 1 are outstanding, for a replaced and for the listed revision. */
  function TwoPending(id: string, a: string, b: string, now: int): World {
    World(Manager(map[id := b], map[], map[id := Pending(b, 1)]),
          [Request(id, a, now, false, Never), Request(id, b, now, false, Never)], map[id := b], {(id, a)})
  }

  function OnePending(id: string, a: string, now: int): World {
    World(Manager(map[id := a], map[], map[id := Pending(a, 0)]), [Request(id, a, now, false, Never)], map[id := a], {})
  }

  lemma FirstUse(maxCache: int, id: string, a: string, now: int)
    ensures Do(maxCache, Do(maxCache, EMPTY, List(map[id := a])), UseCredential(id, now)) == OnePending(id, a, now)
  {
    ListThenUse(maxCache, EMPTY, id, a, now);
  }

  lemma SecondUse(maxCache: int, id: string, a: string, b: string, now: int)
    requires a != b
    ensures Do(maxCache, Do(maxCache, OnePending(id, a, now), List(map[id := b])), UseCredential(id, now))
         == TwoPending(id, a, b, now)
  {
    ListThenUse(maxCache, OnePending(id, a, now), id, b, now);
  }

  lemma ReachTwoPending(maxCache: int, id: string, a: string, b: string, now: int) returns (worlds: seq<World>)
    requires a != b
    ensures var run := ListAndUse(id, a, now) + ListAndUse(id, b, now);
            History(maxCache, run, worlds) && OrderlyRun(run, worlds) && worlds[4] == TwoPending(id, a, b, now)
  {
    var w2 := OnePending(id, a, now);
    FirstUse(maxCache, id, a, now);
    SecondUse(maxCache, id, a, b, now);
    worlds := [EMPTY, Do(maxCache, EMPTY, List(map[id := a])), w2, Do(maxCache, w2, List(map[id := b])),
               TwoPending(id, a, b, now)];
  }

  lemma AnswersOutOfOrder(maxCache: int, id: string, a: string, b: string, now: int)
    requires a != b && maxCache > 0
    ensures var w := Do(maxCache, TwoPending(id, a, b, now), Resolve(1, Some(Never)));
            && UseOf(w, id, now) == Hit(1)
            && UseOf(Do(maxCache, w, Resolve(0, Some(Never))), id, now) == Started(2)
  {
  }

  /** A late answer for a replaced revision takes the entry of the listed one: the next use asks again. */
  lemma LateAnswerEvicts(maxCache: int, id: string, a: string, b: string, now: int) returns (worlds: seq<World>)
    requires a != b && maxCache > 0
    ensures var run := ListAndUse(id, a, now) + ListAndUse(id, b, now)
                       + [Resolve(1, Some(Never)), Resolve(0, Some(Never))];
            && History(maxCache, run, worlds) && OrderlyRun(run, worlds)
            && UseOf(worlds[5], id, now) == Hit(1) && UseOf(worlds[6], id, now) == Started(2)
  {
    var start := ListAndUse(id, a, now) + ListAndUse(id, b, now);
    var run := start + [Resolve(1, Some(Never)), Resolve(0, Some(Never))];
    var first := ReachTwoPending(maxCache, id, a, b, now);
    var w5 := Do(maxCache, first[4], Resolve(1, Some(Never)));
    worlds := first + [w5, Do(maxCache, w5, Resolve(0, Some(Never)))];
    AnswersOutOfOrder(maxCache, id, a, b, now);
    forall k: nat | k < |run|
      ensures Follows(maxCache, run, worlds, k) && Orderly(worlds[k], run[k])
    {
      if k < 4 {
        assert Follows(maxCache, start, first, k) && Orderly(first[k], start[k]);
      }
    }
  }
}
