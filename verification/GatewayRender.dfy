/** Rendering: routes in id order, classified by protocol, with one owner per Anthropic path slug. */
module GatewayRender {
  import opened Sorting
  import opened Wrappers
  import opened DesiredState

  datatype Input = Input(deployment: string, revision: string, routes: seq<RenderRoute>)

  /** The text functions rendering relies on: URL parsing and the path slug of a model id. */
  datatype Tools = Tools(parse: string -> Option<string>, slug: string -> string)

  datatype RenderError =
    | RevisionRequired
    | DeploymentRequired
    | UnsupportedProvider(model: string)
    | UnsupportedProtocol(model: string)
    | BadEndpoint(model: string)
    | SlugTaken(owner: string, model: string)

  /** A route with the parsed endpoint the render pass attaches. */
  datatype Bound = Bound(route: RenderRoute, endpoint: Option<string>)

  /** One rendered document; its text is a function of these arguments. */
  datatype Resource =
    | OpenAIIngress(deployment: string, bound: Bound)
    | OpenAIUpstream(deployment: string, bound: Bound)
    | AnthropicIngress(bound: Bound)
    | AnthropicUpstream(bound: Bound, credentials: map<string, string>)
    | AiProxy(deployment: string, openAI: seq<Bound>, credentials: map<string, string>)
    | AiStatistics(deployment: string, openAI: seq<Bound>, anthropic: seq<Bound>)

  datatype Rendering = Rendered(resources: seq<Resource>) | Rejected(error: RenderError)

  predicate IsAnthropic(r: RenderRoute) {
    r.protocol == "anthropic"
  }

  function TrimStart(s: string): string {
    if s != "" && IsSpace(s[0]) then TrimStart(s[1..]) else s
  }

  /** The error a route causes on its own, from its protocol strategy and endpoint. */
  function OwnError(r: RenderRoute, t: Tools): Option<RenderError> {
    if IsAnthropic(r) then
      if r.providerType != "" then Some(UnsupportedProvider(r.modelId))
      else if t.parse(r.endpoint).None? then Some(BadEndpoint(r.modelId)) else None
    else if r.protocol != "openai-compatible" && r.protocol != "" then Some(UnsupportedProtocol(r.modelId))
    else if r.providerType !in {"", "openai", "deepseek"} then Some(UnsupportedProvider(r.modelId))
    else
      var raw := TrimStart(r.endpoint);
      if |raw| >= 2 && raw[..2] == "//" then Some(BadEndpoint(r.modelId))
      else if raw == "" || raw[0] == '/' then None
      else if t.parse(r.endpoint).None? then Some(BadEndpoint(r.modelId)) else None
  }

  /** The endpoint that becomes an upstream cluster; a relative OpenAI endpoint has none. */
  function Upstream(r: RenderRoute, t: Tools): Option<string> {
    var raw := TrimStart(r.endpoint);
    if !IsAnthropic(r) && (raw == "" || raw[0] == '/') then None else t.parse(r.endpoint)
  }

  function BoundRoute(r: RenderRoute, t: Tools): Bound {
    Bound(if !IsAnthropic(r) && r.providerType == "" then r.(providerType := "openai") else r, Upstream(r, t))
  }

  // ---------------------------------------------------------------- declarative result

  /** An earlier Anthropic route, enabled or not, has the same slug. */
  predicate SlugOwnedBy(routes: seq<RenderRoute>, j: int, i: int, t: Tools)
    requires 0 <= j < |routes| && 0 <= i < |routes|
  {
    j < i && IsAnthropic(routes[j]) && IsAnthropic(routes[i]) && t.slug(routes[j].modelId) == t.slug(routes[i].modelId)
  }

  ghost predicate GoodAt(routes: seq<RenderRoute>, i: int, t: Tools)
    requires 0 <= i < |routes|
  {
    OwnError(routes[i], t).None? && forall j :: 0 <= j < |routes| ==> !SlugOwnedBy(routes, j, i, t)
  }

  /** The error of route `i` names the owner `j` of its slug. */
  predicate TakesSlugOf(routes: seq<RenderRoute>, j: int, i: int, t: Tools, e: RenderError)
    requires 0 <= j < |routes| && 0 <= i < |routes|
  {
    SlugOwnedBy(routes, j, i, t) && e == SlugTaken(routes[j].modelId, routes[i].modelId)
  }

  ghost predicate ErrorAt(routes: seq<RenderRoute>, i: int, t: Tools, e: RenderError)
    requires 0 <= i < |routes|
  {
    match OwnError(routes[i], t)
    case Some(own) => e == own
    case None => exists j :: 0 <= j < |routes| && TakesSlugOf(routes, j, i, t, e)
  }

  /** The enabled routes of one protocol, in order. */
  function Selected(routes: seq<RenderRoute>, anthropic: bool, t: Tools): seq<Bound> {
    if routes == [] then []
    else
      var last := routes[|routes| - 1];
      Selected(routes[..|routes| - 1], anthropic, t)
      + (if last.enabled && IsAnthropic(last) == anthropic then [BoundRoute(last, t)] else [])
  }

  function OpenAIResources(deployment: string, bounds: seq<Bound>): seq<Resource> {
    if bounds == [] then []
    else
      var b := bounds[|bounds| - 1];
      OpenAIResources(deployment, bounds[..|bounds| - 1])
      + [OpenAIIngress(deployment, b)] + (if b.endpoint.Some? then [OpenAIUpstream(deployment, b)] else [])
  }

  function AnthropicResources(bounds: seq<Bound>, credentials: map<string, string>): seq<Resource> {
    if bounds == [] then []
    else
      var b := bounds[|bounds| - 1];
      AnthropicResources(bounds[..|bounds| - 1], credentials) + [AnthropicIngress(b), AnthropicUpstream(b, credentials)]
  }

  function Documents(deployment: string, routes: seq<RenderRoute>, credentials: map<string, string>, t: Tools)
    : seq<Resource>
  {
    var openAI, anthropic := Selected(routes, false, t), Selected(routes, true, t);
    OpenAIResources(deployment, openAI) + AnthropicResources(anthropic, credentials)
    + [AiProxy(deployment, openAI, credentials), AiStatistics(deployment, openAI, anthropic)]
  }

  /** What rendering the routes in this order yields. */
  ghost predicate RenderingOf(input: Input, sorted: seq<RenderRoute>, credentials: map<string, string>, t: Tools,
                              r: Rendering)
  {
    if input.revision == "" then r == Rejected(RevisionRequired)
    else if Blank(input.deployment) then r == Rejected(DeploymentRequired)
    else match r
      case Rendered(resources) =>
        && (forall i :: 0 <= i < |sorted| ==> GoodAt(sorted, i, t))
        && resources == Documents(input.deployment, sorted, credentials, t)
      case Rejected(e) =>
        FailsWith(sorted, t, e)
  }

  ghost predicate FirstBad(routes: seq<RenderRoute>, i: int, t: Tools)
    requires 0 <= i < |routes|
  {
    !GoodAt(routes, i, t) && forall k :: 0 <= k < i ==> GoodAt(routes, k, t)
  }

  // ---------------------------------------------------------------- Render

  /** The slug owners after the first `i` routes. */
  ghost predicate OwnersFit(owners: map<string, string>, routes: seq<RenderRoute>, i: nat, t: Tools)
    requires i <= |routes|
  {
    && (forall s :: s in owners ==> exists j :: 0 <= j < i && Holds(routes, j, s, t) && owners[s] == routes[j].modelId)
    && (forall j :: 0 <= j < i && IsAnthropic(routes[j]) ==> t.slug(routes[j].modelId) in owners)
  }

  predicate Holds(routes: seq<RenderRoute>, j: int, slug: string, t: Tools)
    requires 0 <= j < |routes|
  {
    IsAnthropic(routes[j]) && t.slug(routes[j].modelId) == slug
  }

  lemma SelectedGrows(routes: seq<RenderRoute>, i: nat, anthropic: bool, t: Tools)
    requires i < |routes|
    ensures Selected(routes[..i + 1], anthropic, t)
         == Selected(routes[..i], anthropic, t)
            + (if routes[i].enabled && IsAnthropic(routes[i]) == anthropic then [BoundRoute(routes[i], t)] else [])
  {
    assert routes[..i + 1][..i] == routes[..i];
  }

  lemma OwnersGrow(owners: map<string, string>, routes: seq<RenderRoute>, i: nat, t: Tools)
    requires i < |routes| && OwnersFit(owners, routes, i, t)
    ensures !IsAnthropic(routes[i]) ==> OwnersFit(owners, routes, i + 1, t)
    ensures IsAnthropic(routes[i]) && t.slug(routes[i].modelId) !in owners
            ==> OwnersFit(owners[t.slug(routes[i].modelId) := routes[i].modelId], routes, i + 1, t)
  {
    var slug := t.slug(routes[i].modelId);
    var grown := owners[slug := routes[i].modelId];
    if IsAnthropic(routes[i]) && slug !in owners {
      forall s | s in grown
        ensures exists j :: 0 <= j < i + 1 && Holds(routes, j, s, t) && grown[s] == routes[j].modelId
      {
        if s == slug {
          assert Holds(routes, i, s, t);
        } else {
          var j :| 0 <= j < i && Holds(routes, j, s, t) && owners[s] == routes[j].modelId;
          assert Holds(routes, j, s, t);
        }
      }
    }
  }

  /** With the owners of the first routes known, route `i` is good exactly if it has no error and no owned slug. */
  lemma GoodByOwners(owners: map<string, string>, routes: seq<RenderRoute>, i: nat, t: Tools)
    requires i < |routes| && OwnersFit(owners, routes, i, t)
    ensures GoodAt(routes, i, t)
       <==> OwnError(routes[i], t).None? && (IsAnthropic(routes[i]) ==> t.slug(routes[i].modelId) !in owners)
    ensures OwnError(routes[i], t).None? && IsAnthropic(routes[i]) && t.slug(routes[i].modelId) in owners
            ==> ErrorAt(routes, i, t, SlugTaken(owners[t.slug(routes[i].modelId)], routes[i].modelId))
  {
    var slug := t.slug(routes[i].modelId);
    if IsAnthropic(routes[i]) && slug in owners {
      var j :| 0 <= j < i && Holds(routes, j, slug, t) && owners[slug] == routes[j].modelId;
      assert TakesSlugOf(routes, j, i, t, SlugTaken(owners[slug], routes[i].modelId));
    }
  }

  ghost predicate FailsWith(routes: seq<RenderRoute>, t: Tools, e: RenderError) {
    exists i :: 0 <= i < |routes| && FirstBad(routes, i, t) && ErrorAt(routes, i, t, e)
  }

  /** One route against the slugs owned so far. */
  method CheckRoute(routes: seq<RenderRoute>, i: nat, owners: map<string, string>, t: Tools)
    returns (error: Option<RenderError>, grown: map<string, string>)
    requires i < |routes| && OwnersFit(owners, routes, i, t)
    ensures error.None? ==> GoodAt(routes, i, t) && OwnersFit(grown, routes, i + 1, t)
    ensures error.Some? ==> !GoodAt(routes, i, t) && ErrorAt(routes, i, t, error.value)
  {
    var route := routes[i];
    GoodByOwners(owners, routes, i, t);
    OwnersGrow(owners, routes, i, t);
    grown := owners;
    error := OwnError(route, t);
    if error.None? && IsAnthropic(route) {
      var slug := t.slug(route.modelId);
      if slug in owners {
        return Some(SlugTaken(owners[slug], route.modelId)), owners;
      }
      grown := owners[slug := route.modelId];
    }
  }

  /** The classification loop of the render pass. */
  method Classify(routes: seq<RenderRoute>, t: Tools)
    returns (openAI: seq<Bound>, anthropic: seq<Bound>, error: Option<RenderError>)
    ensures error.None? ==> forall i :: 0 <= i < |routes| ==> GoodAt(routes, i, t)
    ensures error.None? ==> openAI == Selected(routes, false, t) && anthropic == Selected(routes, true, t)
    ensures error.Some? ==> FailsWith(routes, t, error.value)
  {
    openAI, anthropic, error := [], [], None;
    var owners: map<string, string> := map[];
    for i := 0 to |routes|
      invariant error.None? && forall k :: 0 <= k < i ==> GoodAt(routes, k, t)
      invariant openAI == Selected(routes[..i], false, t) && anthropic == Selected(routes[..i], true, t)
      invariant OwnersFit(owners, routes, i, t)
    {
      error, owners := CheckRoute(routes, i, owners, t);
      if error.Some? {
        assert FirstBad(routes, i, t) && ErrorAt(routes, i, t, error.value);
        return;
      }
      var route := routes[i];
      SelectedGrows(routes, i, false, t);
      SelectedGrows(routes, i, true, t);
      if IsAnthropic(route) {
        if route.enabled {
          anthropic := anthropic + [BoundRoute(route, t)];
        }
      } else if route.enabled {
        openAI := openAI + [BoundRoute(route, t)];
      }
    }
    assert routes[..|routes|] == routes;
  }

  /** The render pass; the sort may arrange equal ids either way. */
  method Render(input: Input, credentials: map<string, string>, t: Tools) returns (r: Rendering)
    ensures exists sorted :: SortOf(input.routes, sorted, RenderKey) && RenderingOf(input, sorted, credentials, t, r)
  {
    var sorted := LibrarySort(input.routes, RenderKey);
    if input.revision == "" {
      r := Rejected(RevisionRequired);
    } else if Blank(input.deployment) {
      r := Rejected(DeploymentRequired);
    } else {
      var openAI, anthropic, error := Classify(sorted, t);
      if error.Some? {
        r := Rejected(error.value);
      } else {
        var resources := OpenAIPart(input.deployment, openAI);
        var rest := AnthropicPart(anthropic, credentials);
        var shared := [AiProxy(input.deployment, openAI, credentials),
                       AiStatistics(input.deployment, openAI, anthropic)];
        r := Rendered(resources + rest + shared);
      }
    }
    assert RenderingOf(input, sorted, credentials, t, r);
  }

  method OpenAIPart(deployment: string, bounds: seq<Bound>) returns (out: seq<Resource>)
    ensures out == OpenAIResources(deployment, bounds)
  {
    out := [];
    for i := 0 to |bounds|
      invariant out == OpenAIResources(deployment, bounds[..i])
    {
      assert bounds[..i + 1][..i] == bounds[..i];
      out := out + [OpenAIIngress(deployment, bounds[i])];
      if bounds[i].endpoint.Some? {
        out := out + [OpenAIUpstream(deployment, bounds[i])];
      }
    }
    assert bounds[..|bounds|] == bounds;
  }

  method AnthropicPart(bounds: seq<Bound>, credentials: map<string, string>) returns (out: seq<Resource>)
    ensures out == AnthropicResources(bounds, credentials)
  {
    out := [];
    for i := 0 to |bounds|
      invariant out == AnthropicResources(bounds[..i], credentials)
    {
      assert bounds[..i + 1][..i] == bounds[..i];
      out := out + [AnthropicIngress(bounds[i]), AnthropicUpstream(bounds[i], credentials)];
    }
    assert bounds[..|bounds|] == bounds;
  }

  // ---------------------------------------------------------------- order independence

  /** One order of the routes admits one rendering. */
  lemma RenderingUnique(input: Input, sorted: seq<RenderRoute>, credentials: map<string, string>, t: Tools,
                        r: Rendering, u: Rendering)
    requires RenderingOf(input, sorted, credentials, t, r) && RenderingOf(input, sorted, credentials, t, u)
    ensures r == u
  {
    if input.revision != "" && !Blank(input.deployment) && r.Rejected? && u.Rejected? {
      var i :| 0 <= i < |sorted| && FirstBad(sorted, i, t) && ErrorAt(sorted, i, t, r.error);
      var k :| 0 <= k < |sorted| && FirstBad(sorted, k, t) && ErrorAt(sorted, k, t, u.error);
      assert i == k;
      OneOwner(sorted, i, t, r.error, u.error);
    }
  }

  lemma OneOwner(routes: seq<RenderRoute>, i: nat, t: Tools, e: RenderError, f: RenderError)
    requires i < |routes| && FirstBad(routes, i, t) && ErrorAt(routes, i, t, e) && ErrorAt(routes, i, t, f)
    ensures e == f
  {
    if OwnError(routes[i], t).None? {
      var j :| 0 <= j < |routes| && TakesSlugOf(routes, j, i, t, e);
      var k :| 0 <= k < |routes| && TakesSlugOf(routes, k, i, t, f);
      assert GoodAt(routes, j, t) && GoodAt(routes, k, t);
      assert j < k ==> SlugOwnedBy(routes, j, k, t);
      assert k < j ==> SlugOwnedBy(routes, k, j, t);
    }
  }

  /** With distinct model ids, the outcome, document or error, is the same for every order of the routes. */
  lemma RenderIgnoresOrder(a: Input, b: Input, credentials: map<string, string>, t: Tools, r: Rendering, u: Rendering,
                           x: seq<RenderRoute>, y: seq<RenderRoute>)
    requires b == a.(routes := b.routes) && multiset(a.routes) == multiset(b.routes) && Faithful(a.routes, RenderKey)
    requires SortOf(a.routes, x, RenderKey) && RenderingOf(a, x, credentials, t, r)
    requires SortOf(b.routes, y, RenderKey) && RenderingOf(b, y, credentials, t, u)
    ensures r == u
  {
    FaithfulPermutes(a.routes, x, RenderKey);
    ArrangementUnique(x, y, RenderKey);
    RenderingUnique(a, x, credentials, t, r, u);
  }

  /** Two Anthropic routes, enabled or not, that would live under one path prefix. */
  predicate ShareSlug(a: RenderRoute, b: RenderRoute, t: Tools) {
    IsAnthropic(a) && IsAnthropic(b) && t.slug(a.modelId) == t.slug(b.modelId)
  }

  predicate SlugsApart(routes: seq<RenderRoute>, t: Tools) {
    forall i, j :: 0 <= i < j < |routes| ==> !ShareSlug(routes[i], routes[j], t)
  }

  /** Whether slugs are shared does not depend on the order of the routes. */
  lemma SlugsApartPermutes(a: seq<RenderRoute>, b: seq<RenderRoute>, t: Tools)
    requires multiset(a) == multiset(b) && SlugsApart(a, t)
    ensures SlugsApart(b, t)
  {
    forall i, j | 0 <= i < j < |b|
      ensures !ShareSlug(b[i], b[j], t)
    {
      if ShareSlug(b[i], b[j], t) {
        assert b[i] in multiset(a) && b[j] in multiset(a);
        var x :| 0 <= x < |a| && a[x] == b[i];
        var y :| 0 <= y < |a| && a[y] == b[j];
        assert x == y;
        TwiceInMultiset(b, i, j);
        assert forall k :: 0 <= k < |a| && k != x ==> !ShareSlug(a[k], a[x], t) && a[k] != a[x];
        OnceInMultiset(a, x);
      }
    }
  }

  lemma SlugsApartIsUnowned(routes: seq<RenderRoute>, t: Tools)
    ensures SlugsApart(routes, t)
       <==> forall i, j :: 0 <= i < |routes| && 0 <= j < |routes| ==> !SlugOwnedBy(routes, j, i, t)
  {
    if SlugsApart(routes, t) {
      forall i, j | 0 <= i < |routes| && 0 <= j < |routes|
        ensures !SlugOwnedBy(routes, j, i, t)
      {
        assert j < i ==> !ShareSlug(routes[j], routes[i], t);
      }
    } else {
      var j, i :| 0 <= j < i < |routes| && ShareSlug(routes[j], routes[i], t);
      assert SlugOwnedBy(routes, j, i, t);
    }
  }

  lemma GoodEverywhereIff(routes: seq<RenderRoute>, t: Tools)
    ensures (forall i :: 0 <= i < |routes| ==> GoodAt(routes, i, t))
       <==> (forall route :: route in routes ==> OwnError(route, t).None?) && SlugsApart(routes, t)
  {
    SlugsApartIsUnowned(routes, t);
    if forall i :: 0 <= i < |routes| ==> GoodAt(routes, i, t) {
      forall route | route in routes
        ensures OwnError(route, t).None?
      {
        var i :| 0 <= i < |routes| && routes[i] == route;
        assert GoodAt(routes, i, t);
      }
      forall i, j | 0 <= i < |routes| && 0 <= j < |routes|
        ensures !SlugOwnedBy(routes, j, i, t)
      {
        assert GoodAt(routes, i, t);
      }
    }
  }

  // ---------------------------------------------------------------- the same in the fields of the routes

  /** A path on the gateway itself: nothing, or a single slash in front. */
  predicate RelativePath(s: string) {
    TrimStart(s) == "" || (TrimStart(s)[0] == '/' && (|TrimStart(s)| == 1 || TrimStart(s)[1] != '/'))
  }

  /** The routes the render layer accepts on their own. */
  predicate Renderable(r: RenderRoute, t: Tools) {
    if r.protocol == "anthropic" then r.providerType == "" && t.parse(r.endpoint).Some?
    else
      && (r.protocol == "" || r.protocol == "openai-compatible")
      && (r.providerType == "" || r.providerType == "openai" || r.providerType == "deepseek")
      && (RelativePath(r.endpoint) || (TrimStart(r.endpoint)[0] != '/' && t.parse(r.endpoint).Some?))
  }

  /** Which error a route causes on its own, if any. */
  lemma OwnErrorOnFields(r: RenderRoute, t: Tools)
    ensures OwnError(r, t).None? <==> Renderable(r, t)
    ensures !Renderable(r, t) ==>
              OwnError(r, t).value ==
              if r.protocol != "anthropic" && r.protocol != "" && r.protocol != "openai-compatible"
              then UnsupportedProtocol(r.modelId)
              else if r.providerType != ""
                      && (r.protocol == "anthropic" || (r.providerType != "openai" && r.providerType != "deepseek"))
              then UnsupportedProvider(r.modelId)
              else BadEndpoint(r.modelId)
  {
    var raw := TrimStart(r.endpoint);
    assert |raw| >= 2 && raw[..2] == "//" <==> |raw| >= 2 && raw[0] == '/' && raw[1] == '/';
  }

  /** The route the documents are made of: an OpenAI route has the provider "openai" unless it names one, and
      only an absolute endpoint becomes an upstream. */
  predicate Shown(b: Bound, r: RenderRoute, t: Tools) {
    && r.enabled
    && (if r.protocol != "anthropic" && r.providerType == ""
        then b.route == RenderRoute(r.modelId, true, r.endpoint, r.upstreamModel, r.protocol, "openai", r.credentialRef)
        else b.route == r)
    && b.endpoint == if r.protocol != "anthropic" && RelativePath(r.endpoint) then None else t.parse(r.endpoint)
  }

  lemma {:induction false} SelectedShows(routes: seq<RenderRoute>, anthropic: bool, t: Tools, b: Bound)
    requires forall r :: r in routes ==> Renderable(r, t)
    ensures b in Selected(routes, anthropic, t)
       <==> exists r :: r in routes && (r.protocol == "anthropic" <==> anthropic) && Shown(b, r, t)
  {
    if routes != [] {
      var before, last := routes[..|routes| - 1], routes[|routes| - 1];
      SelectedShows(before, anthropic, t, b);
      assert routes == before + [last];
      assert forall r :: r in routes <==> r in before || r == last;
      BoundShows(last, t, b);
    }
  }

  lemma BoundShows(r: RenderRoute, t: Tools, b: Bound)
    requires Renderable(r, t)
    ensures r.enabled && b == BoundRoute(r, t) <==> Shown(b, r, t)
  {
  }

  lemma {:induction false} OpenAIDocuments(deployment: string, bounds: seq<Bound>, doc: Resource)
    ensures doc in OpenAIResources(deployment, bounds)
       <==> exists b :: b in bounds && (doc == OpenAIIngress(deployment, b)
                                        || (b.endpoint.Some? && doc == OpenAIUpstream(deployment, b)))
  {
    if bounds != [] {
      var before, last := bounds[..|bounds| - 1], bounds[|bounds| - 1];
      OpenAIDocuments(deployment, before, doc);
      assert bounds == before + [last];
      assert forall b :: b in bounds <==> b in before || b == last;
    }
  }

  lemma {:induction false} AnthropicDocuments(bounds: seq<Bound>, credentials: map<string, string>, doc: Resource)
    ensures doc in AnthropicResources(bounds, credentials)
       <==> exists b :: b in bounds && (doc == AnthropicIngress(b) || doc == AnthropicUpstream(b, credentials))
  {
    if bounds != [] {
      var before, last := bounds[..|bounds| - 1], bounds[|bounds| - 1];
      AnthropicDocuments(before, credentials, doc);
      assert bounds == before + [last];
      assert forall b :: b in bounds <==> b in before || b == last;
    }
  }

  /** The document shows the enabled route. */
  predicate DocumentOf(doc: Resource, deployment: string, credentials: map<string, string>, b: Bound,
                       route: RenderRoute, t: Tools)
  {
    && Shown(b, route, t)
    && if route.protocol == "anthropic" then doc == AnthropicIngress(b) || doc == AnthropicUpstream(b, credentials)
       else doc == OpenAIIngress(deployment, b) || (b.endpoint.Some? && doc == OpenAIUpstream(deployment, b))
  }

  /** Some route of the protocol is shown by the document. */
  ghost predicate HasDocument(routes: seq<RenderRoute>, anthropic: bool, deployment: string,
                              credentials: map<string, string>, t: Tools, doc: Resource)
  {
    exists route, b ::
      route in routes && (route.protocol == "anthropic" <==> anthropic)
      && DocumentOf(doc, deployment, credentials, b, route, t)
  }

  lemma OpenAIHasDocument(deployment: string, sorted: seq<RenderRoute>, credentials: map<string, string>, t: Tools,
                          doc: Resource)
    requires forall route :: route in sorted ==> Renderable(route, t)
    ensures doc in OpenAIResources(deployment, Selected(sorted, false, t))
       <==> HasDocument(sorted, false, deployment, credentials, t, doc)
  {
    var bounds := Selected(sorted, false, t);
    OpenAIDocuments(deployment, bounds, doc);
    if doc in OpenAIResources(deployment, bounds) {
      var b :| b in bounds && (doc == OpenAIIngress(deployment, b)
                               || (b.endpoint.Some? && doc == OpenAIUpstream(deployment, b)));
      SelectedShows(sorted, false, t, b);
      var route :| route in sorted && route.protocol != "anthropic" && Shown(b, route, t);
      assert DocumentOf(doc, deployment, credentials, b, route, t);
    }
    if HasDocument(sorted, false, deployment, credentials, t, doc) {
      var route, b :| route in sorted && route.protocol != "anthropic"
                      && DocumentOf(doc, deployment, credentials, b, route, t);
      SelectedShows(sorted, false, t, b);
    }
  }

  lemma AnthropicHasDocument(deployment: string, sorted: seq<RenderRoute>, credentials: map<string, string>, t: Tools,
                             doc: Resource)
    requires forall route :: route in sorted ==> Renderable(route, t)
    ensures doc in AnthropicResources(Selected(sorted, true, t), credentials)
       <==> HasDocument(sorted, true, deployment, credentials, t, doc)
  {
    var bounds := Selected(sorted, true, t);
    AnthropicDocuments(bounds, credentials, doc);
    if doc in AnthropicResources(bounds, credentials) {
      var b :| b in bounds && (doc == AnthropicIngress(b) || doc == AnthropicUpstream(b, credentials));
      SelectedShows(sorted, true, t, b);
      var route :| route in sorted && route.protocol == "anthropic" && Shown(b, route, t);
      assert DocumentOf(doc, deployment, credentials, b, route, t);
    }
    if HasDocument(sorted, true, deployment, credentials, t, doc) {
      var route, b :| route in sorted && route.protocol == "anthropic"
                      && DocumentOf(doc, deployment, credentials, b, route, t);
      SelectedShows(sorted, true, t, b);
    }
  }

  lemma SameDocuments(a: seq<RenderRoute>, b: seq<RenderRoute>, anthropic: bool, deployment: string,
                      credentials: map<string, string>, t: Tools, doc: Resource)
    requires forall route :: route in a <==> route in b
    ensures HasDocument(a, anthropic, deployment, credentials, t, doc)
       <==> HasDocument(b, anthropic, deployment, credentials, t, doc)
  {
  }

  /** The documents of a rendering, besides the two shared ones: exactly those of the enabled routes. */
  lemma DocumentsOnFields(input: Input, sorted: seq<RenderRoute>, credentials: map<string, string>, t: Tools,
                          r: Rendering, doc: Resource)
    requires SortOf(input.routes, sorted, RenderKey) && RenderingOf(input, sorted, credentials, t, r) && r.Rendered?
    requires !doc.AiProxy? && !doc.AiStatistics?
    ensures doc in r.resources <==>
              || HasDocument(input.routes, false, input.deployment, credentials, t, doc)
              || HasDocument(input.routes, true, input.deployment, credentials, t, doc)
  {
    AllRenderable(input, sorted, credentials, t, r);
    OpenAIHasDocument(input.deployment, sorted, credentials, t, doc);
    AnthropicHasDocument(input.deployment, sorted, credentials, t, doc);
    SameDocuments(sorted, input.routes, false, input.deployment, credentials, t, doc);
    SameDocuments(sorted, input.routes, true, input.deployment, credentials, t, doc);
  }

  lemma AllRenderable(input: Input, sorted: seq<RenderRoute>, credentials: map<string, string>, t: Tools, r: Rendering)
    requires SortOf(input.routes, sorted, RenderKey) && RenderingOf(input, sorted, credentials, t, r) && r.Rendered?
    ensures forall route :: route in sorted <==> route in input.routes
    ensures forall route :: route in sorted ==> Renderable(route, t)
  {
    assert forall route :: route in sorted <==> route in multiset(sorted);
    assert forall route :: route in input.routes <==> route in multiset(input.routes);
    forall route | route in sorted
      ensures Renderable(route, t)
    {
      var i :| 0 <= i < |sorted| && sorted[i] == route;
      assert GoodAt(sorted, i, t);
      OwnErrorOnFields(route, t);
    }
  }

  predicate ById(bounds: seq<Bound>) {
    forall i, j :: 0 <= i < j < |bounds| ==> !Less(bounds[j].route.modelId, bounds[i].route.modelId)
  }

  /** The route with the id stands before position `n`. */
  ghost predicate IdBefore(routes: seq<RenderRoute>, n: nat, id: string)
    requires n <= |routes|
  {
    exists i :: 0 <= i < n && routes[i].modelId == id
  }

  lemma BoundKeepsId(r: RenderRoute, t: Tools)
    ensures BoundRoute(r, t).route.modelId == r.modelId
  {
  }

  lemma {:induction false} SelectedFrom(routes: seq<RenderRoute>, anthropic: bool, t: Tools, n: nat, b: Bound)
    requires n <= |routes| && b in Selected(routes[..n], anthropic, t)
    ensures IdBefore(routes, n, b.route.modelId)
    decreases n
  {
    if n > 0 {
      SelectedGrows(routes, n - 1, anthropic, t);
      if b in Selected(routes[..n - 1], anthropic, t) {
        SelectedFrom(routes, anthropic, t, n - 1, b);
      } else {
        assert b == BoundRoute(routes[n - 1], t);
        BoundKeepsId(routes[n - 1], t);
      }
    }
  }

  /** No id before a position of sorted routes is above the one there. */
  lemma IdsBeforeAreNotAbove(routes: seq<RenderRoute>, n: nat, id: string)
    requires Sorted(routes, RenderKey) && n < |routes| && IdBefore(routes, n, id)
    ensures !Less(routes[n].modelId, id)
  {
    var i :| 0 <= i < n && routes[i].modelId == id;
    assert !Below(RenderKey(routes[n]), RenderKey(routes[i]));
  }

  lemma ByIdGrows(bounds: seq<Bound>, b: Bound)
    requires ById(bounds) && forall x :: x in bounds ==> !Less(b.route.modelId, x.route.modelId)
    ensures ById(bounds + [b])
  {
  }

  /** The enabled routes keep the order of the routes. */
  lemma {:induction false} SelectedById(routes: seq<RenderRoute>, anthropic: bool, t: Tools, n: nat)
    requires Sorted(routes, RenderKey) && n <= |routes|
    ensures ById(Selected(routes[..n], anthropic, t))
    decreases n
  {
    if n > 0 {
      SelectedById(routes, anthropic, t, n - 1);
      SelectedGrows(routes, n - 1, anthropic, t);
      BoundKeepsId(routes[n - 1], t);
      forall b | b in Selected(routes[..n - 1], anthropic, t)
        ensures !Less(routes[n - 1].modelId, b.route.modelId)
      {
        SelectedFrom(routes, anthropic, t, n - 1, b);
        IdsBeforeAreNotAbove(routes, n - 1, b.route.modelId);
      }
      ByIdGrows(Selected(routes[..n - 1], anthropic, t), BoundRoute(routes[n - 1], t));
    }
  }

  /** The bounds are those of the enabled routes of one protocol, by id. */
  ghost predicate Shows(bounds: seq<Bound>, routes: seq<RenderRoute>, anthropic: bool, t: Tools) {
    && ById(bounds)
    && forall b :: b in bounds <==>
         exists route :: route in routes && (route.protocol == "anthropic" <==> anthropic) && Shown(b, route, t)
  }

  lemma SelectedShowsAll(sorted: seq<RenderRoute>, routes: seq<RenderRoute>, anthropic: bool, t: Tools)
    requires Sorted(sorted, RenderKey) && forall route :: route in sorted <==> route in routes
    requires forall route :: route in sorted ==> Renderable(route, t)
    ensures Shows(Selected(sorted, anthropic, t), routes, anthropic, t)
  {
    assert sorted[..|sorted|] == sorted;
    SelectedById(sorted, anthropic, t, |sorted|);
    forall b: Bound
      ensures b in Selected(sorted, anthropic, t) <==>
                exists route :: route in routes && (route.protocol == "anthropic" <==> anthropic) && Shown(b, route, t)
    {
      SelectedShows(sorted, anthropic, t, b);
    }
  }

  lemma LastDocuments(deployment: string, routes: seq<RenderRoute>, credentials: map<string, string>, t: Tools)
    ensures var docs := Documents(deployment, routes, credentials, t);
            var n, openAI, anthropic := |docs|, Selected(routes, false, t), Selected(routes, true, t);
            && n >= 2 && docs[n - 2] == AiProxy(deployment, openAI, credentials)
            && docs[n - 1] == AiStatistics(deployment, openAI, anthropic)
  {
  }

  /** The two shared documents close the list, and each shows exactly the enabled routes of its protocols, by id. */
  lemma SharedDocumentsOnFields(input: Input, sorted: seq<RenderRoute>, credentials: map<string, string>, t: Tools,
                                r: Rendering)
      returns (openAI: seq<Bound>, anthropic: seq<Bound>)
    requires SortOf(input.routes, sorted, RenderKey) && RenderingOf(input, sorted, credentials, t, r) && r.Rendered?
    ensures |r.resources| >= 2
    ensures r.resources[|r.resources| - 2] == AiProxy(input.deployment, openAI, credentials)
    ensures r.resources[|r.resources| - 1] == AiStatistics(input.deployment, openAI, anthropic)
    ensures Shows(openAI, input.routes, false, t) && Shows(anthropic, input.routes, true, t)
  {
    openAI, anthropic := Selected(sorted, false, t), Selected(sorted, true, t);
    AllRenderable(input, sorted, credentials, t, r);
    SelectedShowsAll(sorted, input.routes, false, t);
    SelectedShowsAll(sorted, input.routes, true, t);
    LastDocuments(input.deployment, sorted, credentials, t);
  }

  /** Rendering succeeds exactly for a named revision and deployment, valid routes, and unshared slugs. */
  lemma RenderSucceedsIff(input: Input, sorted: seq<RenderRoute>, credentials: map<string, string>, t: Tools,
                          r: Rendering)
    requires SortOf(input.routes, sorted, RenderKey) && RenderingOf(input, sorted, credentials, t, r)
    ensures r.Rendered? <==>
              && input.revision != "" && !Blank(input.deployment)
              && (forall route :: route in input.routes ==> Renderable(route, t))
              && SlugsApart(input.routes, t)
  {
    GoodEverywhereIff(sorted, t);
    assert forall route :: route in input.routes <==> route in multiset(sorted);
    forall route: RenderRoute
      ensures OwnError(route, t).None? <==> Renderable(route, t)
    {
      OwnErrorOnFields(route, t);
    }
    if SlugsApart(sorted, t) {
      SlugsApartPermutes(sorted, input.routes, t);
    }
    if SlugsApart(input.routes, t) {
      SlugsApartPermutes(input.routes, sorted, t);
    }
    if r.Rejected? && input.revision != "" && !Blank(input.deployment) {
      var i :| 0 <= i < |sorted| && FirstBad(sorted, i, t) && ErrorAt(sorted, i, t, r.error);
      assert !GoodAt(sorted, i, t);
    }
  }
}
