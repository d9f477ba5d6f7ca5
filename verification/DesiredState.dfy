/** The canonical desired state: normalization, its hash on both sides, and rendering order. */
module DesiredState {
  import opened Sorting
  import opened Wrappers

  datatype SecretRef = SecretRef(name: string, key: string, namespace: Option<string>)

  datatype Route = Route(
    modelId: string, enabled: bool, endpoint: string, upstreamModel: string,
    protocol: string, providerType: string, credentialRef: Option<SecretRef>)

  datatype State = State(revision: string, routes: seq<Route>)

  function RouteKey(r: Route): Key {
    (r.modelId, "")
  }

  // ---------------------------------------------------------------- text

  /** Unicode white space. */
  predicate IsSpace(c: char) {
    || c in "\t\n\U{0B}\U{0C}\r \U{85}\U{A0}\U{1680}\U{2028}\U{2029}\U{202F}\U{205F}\U{3000}"
    || '\U{2000}' <= c <= '\U{200A}'
  }

  /** Nothing is left after trimming. */
  predicate Blank(s: string) {
    forall i :: 0 <= i < |s| ==> IsSpace(s[i])
  }

  /** The length in UTF-8 bytes. */
  function ByteLength(s: string): nat {
    if s == "" then 0
    else
      ByteLength(s[1..])
      + (if s[0] < '\U{80}' then 1 else if s[0] < '\U{800}' then 2 else if s[0] < '\U{10000}' then 3 else 4)
  }

  // ---------------------------------------------------------------- normalization

  const REVISION_BYTES := 200
  const ROUTE_BOUND := 500

  predicate ValidRevision(revision: string) {
    !Blank(revision) && ByteLength(revision) <= REVISION_BYTES
  }

  /** One route; `absolute` is the absolute http(s) URL test. */
  function NormalizeRoute(r: Route, absolute: string -> bool): Option<Route> {
    if Blank(r.modelId) || Blank(r.endpoint) || Blank(r.upstreamModel) then None
    else if r.protocol != "openai-compatible" && r.protocol != "anthropic" then None
    else if r.protocol == "anthropic" && (r.providerType != "" || !absolute(r.endpoint)) then None
    else
      var provider := if r.protocol != "anthropic" && r.providerType == "" then "openai" else r.providerType;
      if r.protocol != "anthropic" && provider != "openai" && provider != "deepseek" then None
      else if r.credentialRef.Some? && (Blank(r.credentialRef.value.name) || Blank(r.credentialRef.value.key)) then None
      else
        var reference := if r.credentialRef.Some? then Some(r.credentialRef.value.(namespace := None)) else None;
        Some(r.(providerType := provider, credentialRef := reference))
  }

  ghost predicate AllValid(routes: seq<Route>, absolute: string -> bool) {
    forall i :: 0 <= i < |routes| ==> NormalizeRoute(routes[i], absolute).Some?
  }

  predicate DistinctIds(routes: seq<Route>) {
    forall i, j :: 0 <= i < j < |routes| ==> routes[i].modelId != routes[j].modelId
  }

  /** What the publication endpoint accepts. */
  ghost predicate Acceptable(s: State, absolute: string -> bool) {
    ValidRevision(s.revision) && |s.routes| <= ROUTE_BOUND && AllValid(s.routes, absolute) && DistinctIds(s.routes)
  }

  function Normalized(routes: seq<Route>, absolute: string -> bool): seq<Route>
    requires AllValid(routes, absolute)
  {
    seq(|routes|, i requires 0 <= i < |routes| => NormalizeRoute(routes[i], absolute).value)
  }

  /** A state in canonical form. */
  ghost predicate NormalForm(s: State, absolute: string -> bool) {
    && ValidRevision(s.revision) && |s.routes| <= ROUTE_BOUND && StrictlySorted(s.routes, RouteKey)
    && (forall i :: 0 <= i < |s.routes| ==> NormalizeRoute(s.routes[i], absolute) == Some(s.routes[i]))
  }

  /** The canonical form of an acceptable state: the same routes normalized, in id order. */
  ghost predicate CanonicalOf(s: State, n: State, absolute: string -> bool) {
    && Acceptable(s, absolute) && NormalForm(n, absolute)
    && n.revision == s.revision && multiset(n.routes) == multiset(Normalized(s.routes, absolute))
  }

  lemma RouteNormalizationIdempotent(r: Route, absolute: string -> bool)
    requires NormalizeRoute(r, absolute).Some?
    ensures var n := NormalizeRoute(r, absolute).value; NormalizeRoute(n, absolute) == Some(n) && n.modelId == r.modelId
  {
  }

  /** Some character is not white space. */
  predicate Says(s: string) {
    exists i :: 0 <= i < |s| && !IsSpace(s[i])
  }

  /** The routes the endpoint accepts, in their fields. */
  ghost predicate AcceptedRoute(r: Route, absolute: string -> bool) {
    && Says(r.modelId) && Says(r.endpoint) && Says(r.upstreamModel)
    && (|| (r.protocol == "anthropic" && r.providerType == "" && absolute(r.endpoint))
        || (r.protocol == "openai-compatible"
            && (r.providerType == "" || r.providerType == "openai" || r.providerType == "deepseek")))
    && (r.credentialRef.Some? ==> Says(r.credentialRef.value.name) && Says(r.credentialRef.value.key))
  }

  /** The provider of an OpenAI-compatible route defaults to "openai", and a credential loses its namespace. */
  lemma NormalFormOnFields(r: Route, absolute: string -> bool)
    ensures NormalizeRoute(r, absolute).Some? <==> AcceptedRoute(r, absolute)
    ensures NormalizeRoute(r, absolute).Some? ==>
              var n := NormalizeRoute(r, absolute).value;
              && n.modelId == r.modelId && n.enabled == r.enabled && n.endpoint == r.endpoint
              && n.upstreamModel == r.upstreamModel && n.protocol == r.protocol
              && n.providerType == (if r.protocol == "openai-compatible" && r.providerType == "" then "openai"
                                    else r.providerType)
              && (r.credentialRef.None? <==> n.credentialRef.None?)
              && (r.credentialRef.Some? ==>
                    n.credentialRef.value
                    == SecretRef(r.credentialRef.value.name, r.credentialRef.value.key, None))
  {
    BlankSaysNothing(r.modelId);
    BlankSaysNothing(r.endpoint);
    BlankSaysNothing(r.upstreamModel);
    if r.credentialRef.Some? {
      BlankSaysNothing(r.credentialRef.value.name);
      BlankSaysNothing(r.credentialRef.value.key);
    }
  }

  lemma BlankSaysNothing(s: string)
    ensures Blank(s) <==> !Says(s)
  {
  }

  /** The states the endpoint accepts, in their fields. */
  lemma AcceptableOnFields(s: State, absolute: string -> bool)
    ensures Acceptable(s, absolute) <==>
              && Says(s.revision) && ByteLength(s.revision) <= 200 && |s.routes| <= 500
              && (forall r :: r in s.routes ==> AcceptedRoute(r, absolute))
              && (forall i, j :: 0 <= i < j < |s.routes| ==> s.routes[i].modelId != s.routes[j].modelId)
  {
    BlankSaysNothing(s.revision);
    forall r: Route
      ensures NormalizeRoute(r, absolute).Some? <==> AcceptedRoute(r, absolute)
    {
      NormalFormOnFields(r, absolute);
    }
  }

  lemma AdjacentDistinct(routes: seq<Route>)
    requires Sorted(routes, RouteKey)
    requires forall i :: 0 < i < |routes| ==> routes[i - 1].modelId != routes[i].modelId
    ensures StrictlySorted(routes, RouteKey)
  {
    forall i, j | 0 <= i < j < |routes|
      ensures Below(RouteKey(routes[i]), RouteKey(routes[j]))
    {
      AdjacentChain(routes, i, j);
    }
  }

  lemma {:induction false} AdjacentChain(routes: seq<Route>, i: nat, j: nat)
    requires Sorted(routes, RouteKey) && i < j < |routes|
    requires forall k :: 0 < k < |routes| ==> routes[k - 1].modelId != routes[k].modelId
    ensures Below(RouteKey(routes[i]), RouteKey(routes[j]))
    decreases j
  {
    BelowTotal(RouteKey(routes[j - 1]), RouteKey(routes[j]));
    assert routes[j - 1].modelId != routes[j].modelId;
    if i < j - 1 {
      AdjacentChain(routes, i, j - 1);
      BelowTransitive(RouteKey(routes[i]), RouteKey(routes[j - 1]), RouteKey(routes[j]));
    }
  }

  lemma StrictIsDistinct(routes: seq<Route>)
    requires StrictlySorted(routes, RouteKey)
    ensures DistinctIds(routes) && Sorted(routes, RouteKey)
  {
    forall i, j | 0 <= i < j < |routes|
      ensures routes[i].modelId != routes[j].modelId && !Below(RouteKey(routes[j]), RouteKey(routes[i]))
    {
      assert Below(RouteKey(routes[i]), RouteKey(routes[j]));
      BelowTotal(RouteKey(routes[i]), RouteKey(routes[j]));
      BelowTotal(RouteKey(routes[i]), RouteKey(routes[i]));
    }
  }

  /** Distinctness of ids does not depend on the order. */
  lemma DistinctPermutes(a: seq<Route>, b: seq<Route>)
    requires multiset(a) == multiset(b) && DistinctIds(a)
    ensures DistinctIds(b)
  {
    forall i, j | 0 <= i < j < |b|
      ensures b[i].modelId != b[j].modelId
    {
      if b[i].modelId == b[j].modelId {
        assert b[i] in multiset(a) && b[j] in multiset(a);
        var x :| 0 <= x < |a| && a[x] == b[i];
        var y :| 0 <= y < |a| && a[y] == b[j];
        assert x == y;
        TwiceInMultiset(b, i, j);
        OnceInMultiset(a, x);
      }
    }
  }

  /** Each route is edited in place, until one is rejected. */
  method NormalizeInPlace(routes: array<Route>, absolute: string -> bool) returns (ok: bool)
    modifies routes
    ensures ok <==> AllValid(old(routes[..]), absolute)
    ensures ok ==> routes[..] == Normalized(old(routes[..]), absolute)
  {
    ghost var input := routes[..];
    for index := 0 to routes.Length
      invariant forall i :: 0 <= i < index ==> NormalizeRoute(input[i], absolute) == Some(routes[i])
      invariant forall i :: index <= i < routes.Length ==> routes[i] == input[i]
    {
      var normalized := NormalizeRoute(routes[index], absolute);
      if normalized.None? {
        assert NormalizeRoute(input[index], absolute).None?;
        return false;
      }
      routes[index] := normalized.value;
    }
    ok := true;
  }

  /** The copy is sorted and scanned for equal neighbours; the sort may return equal ids in any order. */
  method SortDistinct(routes: seq<Route>) returns (out: Option<seq<Route>>)
    ensures out.Some? <==> DistinctIds(routes)
    ensures out.Some? ==> SortOf(routes, out.value, RouteKey) && StrictlySorted(out.value, RouteKey)
  {
    var sorted := LibrarySort(routes, RouteKey);
    if DistinctIds(routes) {
      DistinctPermutes(routes, sorted);
    }
    var i := 1;
    while i < |sorted|
      invariant 1 <= i && forall k :: 0 < k < i && k < |sorted| ==> sorted[k - 1].modelId != sorted[k].modelId
    {
      if sorted[i - 1].modelId == sorted[i].modelId {
        return None;
      }
      i := i + 1;
    }
    AdjacentDistinct(sorted);
    StrictIsDistinct(sorted);
    DistinctPermutes(sorted, routes);
    return Some(sorted);
  }

  /** The endpoint's normalization. */
  method NormalizeDataPlaneState(revision: string, routes: array<Route>, absolute: string -> bool)
    returns (out: Option<State>)
    modifies routes
    ensures out.Some? <==> Acceptable(State(revision, old(routes[..])), absolute)
    ensures out.Some? ==> CanonicalOf(State(revision, old(routes[..])), out.value, absolute)
    ensures out.Some? ==> routes[..] == Normalized(old(routes[..]), absolute)
  {
    ghost var input := routes[..];
    if Blank(revision) || ByteLength(revision) > REVISION_BYTES || routes.Length > ROUTE_BOUND {
      return None;
    }
    var ok := NormalizeInPlace(routes, absolute);
    if !ok {
      return None;
    }
    var copied := routes[..];
    var sorted := SortDistinct(copied);
    if sorted.None? {
      NormalizedKeepsIds(input, absolute);
      return None;
    }
    NormalizedDistinct(input, absolute, sorted.value);
    StrictIsDistinct(sorted.value);
    return Some(State(revision, sorted.value));
  }

  lemma NormalizedKeepsIds(input: seq<Route>, absolute: string -> bool)
    requires AllValid(input, absolute)
    ensures DistinctIds(input) <==> DistinctIds(Normalized(input, absolute))
    ensures var all := Normalized(input, absolute);
            forall i :: 0 <= i < |input| ==> NormalizeRoute(all[i], absolute) == Some(all[i])
  {
    var all := Normalized(input, absolute);
    forall i | 0 <= i < |input|
      ensures all[i].modelId == input[i].modelId && NormalizeRoute(all[i], absolute) == Some(all[i])
    {
      RouteNormalizationIdempotent(input[i], absolute);
    }
  }

  lemma NormalizedDistinct(input: seq<Route>, absolute: string -> bool, arranged: seq<Route>)
    requires AllValid(input, absolute) && SortOf(Normalized(input, absolute), arranged, RouteKey)
    ensures DistinctIds(input) <==> DistinctIds(arranged)
    ensures forall i :: 0 <= i < |arranged| ==> NormalizeRoute(arranged[i], absolute) == Some(arranged[i])
    ensures |arranged| == |input|
  {
    var all := Normalized(input, absolute);
    NormalizedKeepsIds(input, absolute);
    if DistinctIds(all) {
      DistinctPermutes(all, arranged);
    }
    if DistinctIds(arranged) {
      DistinctPermutes(arranged, all);
    }
    assert |arranged| == |multiset(arranged)| == |all|;
    forall i | 0 <= i < |arranged|
      ensures NormalizeRoute(arranged[i], absolute) == Some(arranged[i])
    {
      assert arranged[i] in multiset(all);
    }
  }

  // ---------------------------------------------------------------- unique normal form

  lemma CanonicalElements(s: State, n: State, absolute: string -> bool, x: Route)
    requires CanonicalOf(s, n, absolute)
    ensures x in n.routes <==> exists r :: r in s.routes && NormalizeRoute(r, absolute) == Some(x)
  {
    var all := Normalized(s.routes, absolute);
    assert x in n.routes <==> x in multiset(n.routes);
    assert x in all <==> x in multiset(all);
    if r :| r in s.routes && NormalizeRoute(r, absolute) == Some(x) {
      var i :| 0 <= i < |s.routes| && s.routes[i] == r;
      assert all[i] == x;
    }
    if x in all {
      var i :| 0 <= i < |all| && all[i] == x;
      assert s.routes[i] in s.routes;
    }
  }

  /** The order of the submitted routes never shows: one state has one canonical form. */
  lemma CanonicalIgnoresOrder(a: State, b: State, n: State, m: State, absolute: string -> bool)
    requires CanonicalOf(a, n, absolute) && CanonicalOf(b, m, absolute)
    requires a.revision == b.revision && forall r :: r in a.routes <==> r in b.routes
    ensures n == m
  {
    forall x
      ensures x in n.routes <==> x in m.routes
    {
      CanonicalElements(a, n, absolute, x);
      CanonicalElements(b, m, absolute, x);
    }
    SameElements(n.routes, m.routes, RouteKey);
  }

  /** Normalizing a canonical form changes nothing. */
  lemma CanonicalIsFixed(n: State, absolute: string -> bool)
    requires NormalForm(n, absolute)
    ensures CanonicalOf(n, n, absolute) && Normalized(n.routes, absolute) == n.routes
  {
    StrictIsDistinct(n.routes);
    assert AllValid(n.routes, absolute);
    assert Normalized(n.routes, absolute) == n.routes;
  }

  // ---------------------------------------------------------------- hashes

  /** JSON documents; objects keep their field order. */
  datatype Json = Null | Bool(b: bool) | Str(s: string) | Arr(items: seq<Json>) | Obj(fields: seq<(string, Json)>)

  /** The control plane's encoding of a route: provider type and credential are omitted when empty. */
  function ControlRouteJson(r: Route): Json {
    Obj([("modelId", Str(r.modelId)), ("enabled", Bool(r.enabled)), ("endpoint", Str(r.endpoint)),
         ("upstreamModel", Str(r.upstreamModel)), ("protocol", Str(r.protocol))]
        + (if r.providerType == "" then [] else [("providerType", Str(r.providerType))])
        + (if r.credentialRef.None? then [] else [("credentialRef", ControlSecretJson(r.credentialRef.value))]))
  }

  function ControlSecretJson(s: SecretRef): Json {
    Obj([("name", Str(s.name)), ("key", Str(s.key)),
         ("namespace", if s.namespace.None? then Null else Str(s.namespace.value))])
  }

  /** What the endpoint hashes: the route slice is never nil. */
  function ControlJson(s: State): Json {
    Obj([("revision", Str(s.revision)),
         ("routes", Arr(seq(|s.routes|, i requires 0 <= i < |s.routes| => ControlRouteJson(s.routes[i]))))])
  }

  /** The render layer's route type, decoded from the stored document. */
  datatype RenderRoute = RenderRoute(
    modelId: string, enabled: bool, endpoint: string, upstreamModel: string,
    protocol: string, providerType: string, credentialRef: Option<SecretRef>)

  function Decoded(r: Route): RenderRoute {
    RenderRoute(r.modelId, r.enabled, r.endpoint, r.upstreamModel, r.protocol, r.providerType, r.credentialRef)
  }

  function RenderKey(r: RenderRoute): Key {
    (r.modelId, "")
  }

  function RenderRouteJson(r: RenderRoute): Json {
    Obj([("modelId", Str(r.modelId)), ("enabled", Bool(r.enabled)), ("endpoint", Str(r.endpoint)),
         ("upstreamModel", Str(r.upstreamModel)), ("protocol", Str(r.protocol))]
        + (if r.providerType == "" then [] else [("providerType", Str(r.providerType))])
        + (match r.credentialRef
           case None => []
           case Some(s) =>
             [("credentialRef", Obj([("name", Str(s.name)), ("key", Str(s.key)),
                                     ("namespace", if s.namespace.None? then Null else Str(s.namespace.value))]))]))
  }

  /** What `CanonicalHash` hashes: the copied slice is nil, hence null, for no routes. */
  function CanonicalJson(revision: string, sorted: seq<RenderRoute>): Json {
    Obj([("revision", Str(revision)),
         ("routes", if sorted == [] then Null
                    else Arr(seq(|sorted|, i requires 0 <= i < |sorted| => RenderRouteJson(sorted[i]))))])
  }

  /** `CanonicalHash` over routes in any order; the sort may arrange equal ids either way. */
  method CanonicalHash(revision: string, routes: seq<RenderRoute>, hash: Json -> string) returns (digest: string)
    ensures exists sorted :: SortOf(routes, sorted, RenderKey) && digest == hash(CanonicalJson(revision, sorted))
  {
    var sorted := LibrarySort(routes, RenderKey);
    digest := hash(CanonicalJson(revision, sorted));
  }

  function DecodedAll(routes: seq<Route>): seq<RenderRoute> {
    seq(|routes|, i requires 0 <= i < |routes| => Decoded(routes[i]))
  }

  lemma SortedDecoded(n: State, absolute: string -> bool, received: seq<RenderRoute>, sorted: seq<RenderRoute>)
    requires NormalForm(n, absolute)
    requires multiset(received) == multiset(DecodedAll(n.routes)) && SortOf(received, sorted, RenderKey)
    ensures sorted == DecodedAll(n.routes)
  {
    var expected := DecodedAll(n.routes);
    StrictIsDistinct(n.routes);
    assert forall i :: 0 <= i < |expected| ==> RenderKey(expected[i]) == RouteKey(n.routes[i]);
    ArrangementUnique(expected, sorted, RenderKey);
  }

  lemma SameRouteJson(r: Route)
    ensures ControlRouteJson(r) == RenderRouteJson(Decoded(r))
  {
  }

  /** Different routes have different encodings: nothing of a route is left out of the hash. */
  lemma RouteJsonInjective(a: Route, b: Route)
    requires ControlRouteJson(a) == ControlRouteJson(b)
    ensures a == b
  {
    var x, y := ControlRouteJson(a).fields, ControlRouteJson(b).fields;
    assert x[0] == y[0] && x[1] == y[1] && x[2] == y[2] && x[3] == y[3] && x[4] == y[4];
    assert |x| > 5 ==> x[5] == y[5];
    assert x[|x| - 1] == y[|y| - 1];
    if a.credentialRef.Some? && b.credentialRef.Some? {
      SecretJsonInjective(a.credentialRef.value, b.credentialRef.value);
    }
  }

  lemma SecretJsonInjective(a: SecretRef, b: SecretRef)
    requires ControlSecretJson(a) == ControlSecretJson(b)
    ensures a == b
  {
    var x, y := ControlSecretJson(a).fields, ControlSecretJson(b).fields;
    assert x[0] == y[0] && x[1] == y[1] && x[2] == y[2];
  }

  /** Published states with one hash are equal, if the hash does not collide on their two texts. */
  lemma HashIdentifiesState(a: State, b: State, hash: Json -> string)
    requires hash(ControlJson(a)) == hash(ControlJson(b)) ==> ControlJson(a) == ControlJson(b)
    ensures hash(ControlJson(a)) == hash(ControlJson(b)) <==> a == b
  {
    if ControlJson(a) == ControlJson(b) {
      var x, y := ControlJson(a).fields, ControlJson(b).fields;
      assert x[0] == y[0] && x[1] == y[1];
      var s, t := x[1].1.items, y[1].1.items;
      assert |s| == |a.routes| && |t| == |b.routes|;
      forall i | 0 <= i < |a.routes|
        ensures a.routes[i] == b.routes[i]
      {
        assert s[i] == t[i];
        RouteJsonInjective(a.routes[i], b.routes[i]);
      }
      assert a.routes == b.routes;
    }
  }

  /**
   * The reconciler's hash of a published state, received in any order, equals the published hash
   * exactly when the state has a route.
   */
  lemma HashesAgreeIff(n: State, absolute: string -> bool, received: seq<RenderRoute>, sorted: seq<RenderRoute>,
                       hash: Json -> string)
    requires NormalForm(n, absolute)
    requires multiset(received) == multiset(DecodedAll(n.routes)) && SortOf(received, sorted, RenderKey)
    requires var l, r := CanonicalJson(n.revision, []), ControlJson(State(n.revision, []));
             hash(l) == hash(r) ==> l == r
    ensures hash(CanonicalJson(n.revision, sorted)) == hash(ControlJson(n)) <==> n.routes != []
  {
    SortedDecoded(n, absolute, received, sorted);
    var left, right := CanonicalJson(n.revision, sorted), ControlJson(n);
    if n.routes != [] {
      forall i | 0 <= i < |n.routes|
        ensures ControlRouteJson(n.routes[i]) == RenderRouteJson(sorted[i])
      {
        SameRouteJson(n.routes[i]);
      }
      assert right.fields[1].1.items == left.fields[1].1.items;
      assert left.fields == right.fields;
    } else {
      assert n == State(n.revision, []);
      assert left.fields[1].1 == Null && right.fields[1].1 == Arr([]);
    }
  }
}
