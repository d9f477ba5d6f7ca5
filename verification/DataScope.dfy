/** Data-scope evaluation: subtree closure over parent links, rule layers, default-deny decision. */
module DataScope {
  import opened Sorting
  import opened Wrappers

  datatype TeamNode = TeamNode(id: string, parent: string, path: string)
  type Teams = map<string, TeamNode>

  datatype ScopeRule = ScopeRule(
    id: string, ruleKind: string, subjectType: string, subjectId: string,
    resourceKind: string, resourceId: string, startsAt: Option<int>, expiresAt: Option<int>)

  datatype ResourceRef = ResourceRef(kind: string, id: string)

  datatype RetrievalContext = RetrievalContext(
    principalId: string, deploymentId: string, orgScope: seq<string>, ownTeamIds: seq<string>,
    roleScope: seq<string>, allowed: seq<ResourceRef>, denied: seq<ResourceRef>, reason: string)

  /** What a rule set is evaluated for. */
  datatype Subject = Subject(deploymentId: string, userId: string, roles: seq<string>, ownTeams: seq<string>)

  // ---------------------------------------------------------------- parent links

  /** `x` reaches `t` by following exactly `n` parent links. */
  ghost predicate Climbs(teams: Teams, x: string, t: string, n: nat)
    decreases n
  {
    if n == 0 then x == t else x in teams && Climbs(teams, teams[x].parent, t, n - 1)
  }

  /** `t` is `x` or one of its ancestors. */
  ghost predicate Under(teams: Teams, x: string, t: string) {
    exists n: nat :: Climbs(teams, x, t, n)
  }

  /** No node below `t` is its own proper ancestor. */
  ghost predicate AcyclicUnder(teams: Teams, t: string) {
    forall x, n: nat :: n > 0 && Under(teams, x, t) ==> !Climbs(teams, x, x, n)
  }

  /** The breadth-first walk from `t` has run dry after `n` levels. */
  ghost predicate LevelEmpty(teams: Teams, t: string, n: nat) {
    forall x :: !Climbs(teams, x, t, n)
  }

  lemma {:induction false} ClimbsCompose(teams: Teams, x: string, y: string, t: string, m: nat, n: nat)
    requires Climbs(teams, x, y, m) && Climbs(teams, y, t, n)
    ensures Climbs(teams, x, t, m + n)
    decreases m
  {
    if m > 0 {
      ClimbsCompose(teams, teams[x].parent, y, t, m - 1, n);
    }
  }

  lemma {:induction false} ClimbsThrough(teams: Teams, x: string, t: string, n: nat, k: nat) returns (y: string)
    requires Climbs(teams, x, t, n) && k <= n
    ensures Climbs(teams, y, t, k) && Climbs(teams, x, y, n - k)
    decreases n
  {
    if k == n {
      y := x;
    } else {
      y := ClimbsThrough(teams, teams[x].parent, t, n - 1, k);
    }
  }

  /** The nodes a chain of `n` links leaves. */
  ghost function Passed(teams: Teams, x: string, n: nat): set<string>
    decreases n
  {
    if n == 0 || x !in teams then {} else {x} + Passed(teams, teams[x].parent, n - 1)
  }

  lemma {:induction false} PassedIsOnChain(teams: Teams, x: string, n: nat, y: string) returns (k: nat)
    requires y in Passed(teams, x, n)
    ensures Climbs(teams, x, y, k) && k < n
    decreases n
  {
    if y == x {
      k := 0;
    } else {
      k := PassedIsOnChain(teams, teams[x].parent, n - 1, y);
      k := k + 1;
    }
  }

  lemma {:induction false} ChainBound(teams: Teams, x: string, t: string, n: nat)
    requires AcyclicUnder(teams, t) && Climbs(teams, x, t, n)
    ensures Passed(teams, x, n) <= teams.Keys && |Passed(teams, x, n)| == n
    decreases n
  {
    if n > 0 {
      var up := teams[x].parent;
      ChainBound(teams, up, t, n - 1);
      assert Under(teams, x, t);
      if x in Passed(teams, up, n - 1) {
        var k := PassedIsOnChain(teams, up, n - 1, x);
        assert Climbs(teams, x, x, k + 1);
      }
    }
  }

  lemma SubsetSize(a: set<string>, b: set<string>)
    requires a <= b
    ensures |a| <= |b|
  {
    assert |b| == |a| + |b - a| by { assert b == a + (b - a); }
  }

  lemma ChainsAreShort(teams: Teams, t: string)
    requires AcyclicUnder(teams, t)
    ensures LevelEmpty(teams, t, |teams| + 1)
  {
    var bound := |teams| + 1;
    forall x
      ensures !Climbs(teams, x, t, bound)
    {
      if Climbs(teams, x, t, bound) {
        ChainBound(teams, x, t, bound);
        SubsetSize(Passed(teams, x, bound), teams.Keys);
      }
    }
  }

  lemma {:induction false} CycleRepeats(teams: Teams, x: string, n: nat, k: nat)
    requires n > 0 && Climbs(teams, x, x, n)
    ensures Climbs(teams, x, x, k * n)
  {
    if k > 0 {
      CycleRepeats(teams, x, n, k - 1);
      ClimbsCompose(teams, x, x, x, n, (k - 1) * n);
      assert n + (k - 1) * n == k * n;
    }
  }

  /** The walk from `t` ends exactly when no cycle lies below `t`. */
  lemma WalkEndsIff(teams: Teams, t: string)
    ensures AcyclicUnder(teams, t) <==> exists n: nat :: LevelEmpty(teams, t, n)
  {
    if AcyclicUnder(teams, t) {
      ChainsAreShort(teams, t);
    }
    if n: nat :| LevelEmpty(teams, t, n) {
      forall x, m: nat | m > 0 && Under(teams, x, t)
        ensures !Climbs(teams, x, x, m)
      {
        if Climbs(teams, x, x, m) {
          var d: nat :| Climbs(teams, x, t, d);
          CycleRepeats(teams, x, m, n);
          assert n * m >= n;
          ClimbsCompose(teams, x, x, t, n * m, d);
          var y := ClimbsThrough(teams, x, t, n * m + d, n);
        }
      }
    }
  }

  lemma BelowEmptyLevel(teams: Teams, x: string, t: string, n: nat, level: nat)
    requires LevelEmpty(teams, t, level) && Climbs(teams, x, t, n)
    ensures n < level
  {
    if n >= level {
      var y := ClimbsThrough(teams, x, t, n, level);
    }
  }

  // ---------------------------------------------------------------- subtreeIDs, uniqueSorted

  method UniqueSorted(values: seq<string>) returns (r: seq<string>)
    ensures StrictlySorted(r, StringKey)
    ensures forall x :: x in r <==> x in values && x != ""
  {
    var seen: set<string> := {};
    var kept: seq<string> := [];
    for i := 0 to |values|
      invariant forall x :: x in kept <==> x in values[..i] && x != ""
      invariant forall x :: x in seen <==> x in kept
      invariant forall a, b :: 0 <= a < b < |kept| ==> kept[a] != kept[b]
    {
      if values[i] == "" || values[i] in seen {
        continue;
      }
      seen := seen + {values[i]};
      kept := kept + [values[i]];
    }
    r := LibrarySort(kept, StringKey);
    SortKeepsDistinct(kept, r);
    assert forall x :: x in r <==> x in multiset(r);
    assert forall x :: x in kept <==> x in multiset(kept);
    assert values[..|values|] == values;
  }

  lemma {:induction false} DistinctCount<T>(s: seq<T>)
    ensures (forall x :: multiset(s)[x] <= 1) <==> forall a, b :: 0 <= a < b < |s| ==> s[a] != s[b]
  {
    if s != [] {
      var rest := s[1..];
      DistinctCount(rest);
      assert s == [s[0]] + rest;
      assert multiset(s) == multiset{s[0]} + multiset(rest);
      if forall x :: multiset(s)[x] <= 1 {
        assert multiset(s)[s[0]] <= 1;
        assert s[0] !in rest by { assert s[0] !in multiset(rest); }
        forall x
          ensures multiset(rest)[x] <= 1
        {
          assert multiset(s)[x] <= 1;
        }
        assert forall a, b :: 0 <= a < b < |rest| ==> rest[a] != rest[b];
        forall a, b | 0 <= a < b < |s|
          ensures s[a] != s[b]
        {
          assert s[b] == rest[b - 1];
          if a > 0 {
            assert s[a] == rest[a - 1];
          }
        }
      }
      if forall a, b :: 0 <= a < b < |s| ==> s[a] != s[b] {
        assert forall a, b :: 0 <= a < b < |rest| ==> rest[a] == s[a + 1] && rest[b] == s[b + 1];
        assert s[0] !in rest by {
          assert forall b :: 0 <= b < |rest| ==> rest[b] == s[b + 1];
        }
        assert s[0] !in multiset(rest);
      }
    }
  }

  lemma SortKeepsDistinct(s: seq<string>, r: seq<string>)
    requires SortOf(s, r, StringKey)
    requires forall a, b :: 0 <= a < b < |s| ==> s[a] != s[b]
    ensures StrictlySorted(r, StringKey)
  {
    DistinctCount(s);
    DistinctCount(r);
    SortedDistinct(r, StringKey);
  }

  /** Children grouped by parent; map iteration order is arbitrary. */
  method ChildrenOf(teams: Teams) returns (children: map<string, seq<string>>)
    ensures forall p, x :: p in children && x in children[p] <==> x in teams && teams[x].parent == p
  {
    children := map[];
    var todo := teams.Keys;
    while todo != {}
      invariant todo <= teams.Keys
      invariant forall p, x :: p in children && x in children[p] <==> x in teams && x !in todo && teams[x].parent == p
    {
      var id :| id in todo;
      todo := todo - {id};
      var p := teams[id].parent;
      children := children[p := (if p in children then children[p] else []) + [id]];
    }
  }

  method NextLevel(frontier: seq<string>, children: map<string, seq<string>>) returns (next: seq<string>)
    ensures forall x :: x in next <==> exists p :: p in frontier && p in children && x in children[p]
  {
    next := [];
    for i := 0 to |frontier|
      invariant forall x :: x in next <==> exists p :: p in frontier[..i] && p in children && x in children[p]
    {
      assert frontier[..i + 1] == frontier[..i] + [frontier[i]];
      if frontier[i] in children {
        next := next + children[frontier[i]];
      }
    }
    assert frontier[..|frontier|] == frontier;
  }

  method SubtreeIDs(teamID: string, teams: Teams) returns (r: seq<string>)
    requires AcyclicUnder(teams, teamID)
    ensures StrictlySorted(r, StringKey)
    ensures forall x :: x in r <==> x != "" && Under(teams, x, teamID)
  {
    var children := ChildrenOf(teams);
    var result: seq<string> := [];
    var frontier := [teamID];
    ghost var level: nat := 0;
    ChainsAreShort(teams, teamID);
    while |frontier| > 0
      invariant forall x :: x in frontier <==> Climbs(teams, x, teamID, level)
      invariant forall x :: x in result <==> exists n: nat :: n < level && Climbs(teams, x, teamID, n)
      invariant level <= |teams| + 1
      decreases |teams| + 1 - level
    {
      assert Climbs(teams, frontier[0], teamID, level);
      assert level != |teams| + 1;
      var next := NextLevel(frontier, children);
      forall x
        ensures x in next <==> Climbs(teams, x, teamID, level + 1)
      {
        assert x in teams && teams[x].parent in frontier ==> teams[x].parent in children;
      }
      result := result + frontier;
      frontier := next;
      level := level + 1;
    }
    forall x
      ensures x in result <==> Under(teams, x, teamID)
    {
      if n: nat :| Climbs(teams, x, teamID, n) {
        BelowEmptyLevel(teams, x, teamID, n, level);
      }
    }
    r := UniqueSorted(result);
  }

  // ---------------------------------------------------------------- rules

  predicate RuleApplies(rule: ScopeRule, s: Subject) {
    match rule.subjectType
    case "user" => rule.subjectId == s.userId
    case "role" => rule.subjectId in s.roles
    case "team" => rule.subjectId in s.ownTeams
    case _ => false
  }

  predicate RuleInWindow(rule: ScopeRule, now: int) {
    && (rule.startsAt.Some? ==> rule.startsAt.value <= now)
    && (rule.expiresAt.Some? ==> now < rule.expiresAt.value)
  }

  predicate Effective(rule: ScopeRule, s: Subject, now: int) {
    RuleApplies(rule, s) && RuleInWindow(rule, now)
  }

  predicate IsGrant(rule: ScopeRule) {
    rule.ruleKind == "management_scope" || rule.ruleKind == "exception_grant"
  }

  function Ref(rule: ScopeRule): ResourceRef {
    ResourceRef(rule.resourceKind, rule.resourceId)
  }

  function RefKey(r: ResourceRef): Key {
    (r.kind, r.id)
  }

  predicate Named(r: ResourceRef) {
    r.kind != "" && r.id != ""
  }

  /** An effective grant that extends the department scope by a team. */
  predicate Expands(rule: ScopeRule, s: Subject, now: int) {
    IsGrant(rule) && Effective(rule, s, now) && rule.resourceKind == "team"
  }

  predicate GrantsOther(rule: ScopeRule, s: Subject, now: int) {
    IsGrant(rule) && Effective(rule, s, now) && rule.resourceKind != "team"
  }

  predicate Denies(rule: ScopeRule, s: Subject, now: int) {
    rule.ruleKind == "explicit_deny" && Effective(rule, s, now)
  }

  // ---------------------------------------------------------------- declarative specification

  /** Some own or granted team is `x` or an ancestor of `x`. */
  ghost predicate InOrgScope(x: string, s: Subject, teams: Teams, rules: seq<ScopeRule>, now: int) {
    || (exists t :: t in s.ownTeams && Under(teams, x, t))
    || (exists rule :: rule in rules && Expands(rule, s, now) && Under(teams, x, rule.resourceId))
  }

  ghost predicate Denied(r: ResourceRef, s: Subject, rules: seq<ScopeRule>, now: int) {
    exists rule :: rule in rules && Denies(rule, s, now) && Ref(rule) == r
  }

  ghost predicate Granted(r: ResourceRef, s: Subject, rules: seq<ScopeRule>, now: int) {
    exists rule :: rule in rules && GrantsOther(rule, s, now) && Ref(rule) == r
  }

  /** The filter of the stored-rule query: the subject and the window of a rule, spelled out. */
  predicate SelectedByQuery(rule: ScopeRule, s: Subject, now: int) {
    && (rule.startsAt.None? || rule.startsAt.value <= now)
    && (rule.expiresAt.None? || rule.expiresAt.value > now)
    && ((rule.subjectType == "user" && rule.subjectId == s.userId)
        || (rule.subjectType == "role" && rule.subjectId in s.roles)
        || (rule.subjectType == "team" && rule.subjectId in s.ownTeams))
  }

  /**
   * The policy decision, in the fields of the rules and without any of the predicates and lists the code uses:
   * no deny of the subject names the resource, and a grant names it or, for a team, it or an ancestor is
   * granted or the subject's own.
   */
  ghost predicate Authorized(r: ResourceRef, s: Subject, teams: Teams, rules: seq<ScopeRule>, now: int) {
    && r.kind != "" && r.id != ""
    && (forall rule :: rule in rules && SelectedByQuery(rule, s, now) && rule.ruleKind == "explicit_deny"
                       ==> rule.resourceKind != r.kind || rule.resourceId != r.id)
    && (|| (r.kind == "team" && exists t :: t in s.ownTeams && Under(teams, r.id, t))
        || (exists rule :: rule in rules && SelectedByQuery(rule, s, now) && rule.resourceKind == r.kind
              && (rule.ruleKind == "management_scope" || rule.ruleKind == "exception_grant")
              && (if r.kind == "team" then Under(teams, r.id, rule.resourceId) else rule.resourceId == r.id)))
  }

  /** Every subtree the evaluation walks is free of cycles, which is exactly when its walks end (WalkEndsIff). */
  ghost predicate Walkable(s: Subject, teams: Teams, rules: seq<ScopeRule>, now: int) {
    && (forall t :: t in s.ownTeams ==> AcyclicUnder(teams, t))
    && (forall rule :: rule in rules && Expands(rule, s, now) ==> AcyclicUnder(teams, rule.resourceId))
  }

  /** The two grant kinds, each at most once. */
  predicate KindList(kinds: seq<string>) {
    var m, e := "management_scope", "exception_grant";
    kinds == [] || kinds == [m] || kinds == [e] || kinds == [m, e] || kinds == [e, m]
  }

  /** The kinds of the scope-expanding rules, each once, in order of first appearance. */
  function ExpansionKinds(s: Subject, rules: seq<ScopeRule>, now: int): (kinds: seq<string>)
    ensures KindList(kinds)
  {
    if rules == [] then []
    else
      var before := ExpansionKinds(s, rules[..|rules| - 1], now);
      var last := rules[|rules| - 1];
      if Expands(last, s, now) && last.ruleKind !in before then before + [last.ruleKind] else before
  }

  function Joined(kinds: seq<string>): string {
    if kinds == [] then "" else if |kinds| == 1 then kinds[0]
    else Joined(kinds[..|kinds| - 1]) + "," + kinds[|kinds| - 1]
  }

  ghost predicate ContextFor(c: RetrievalContext, s: Subject, teams: Teams, rules: seq<ScopeRule>, now: int) {
    && c.principalId == s.userId && c.deploymentId == s.deploymentId
    && StrictlySorted(c.orgScope, StringKey)
    && (forall x :: x in c.orgScope <==> x != "" && InOrgScope(x, s, teams, rules, now))
    && StrictlySorted(c.ownTeamIds, StringKey) && (forall x :: x in c.ownTeamIds <==> x in s.ownTeams && x != "")
    && StrictlySorted(c.roleScope, StringKey) && (forall x :: x in c.roleScope <==> x in s.roles && x != "")
    && StrictlySorted(c.allowed, RefKey)
    && (forall r :: r in c.allowed <==> Named(r) && Granted(r, s, rules, now))
    && StrictlySorted(c.denied, RefKey)
    && (forall r :: r in c.denied <==> Named(r) && Denied(r, s, rules, now))
    && c.reason == Joined(ExpansionKinds(s, rules, now))
  }

  // ---------------------------------------------------------------- BuildRetrievalContext

  method UniqueResourceRefs(values: seq<ResourceRef>) returns (r: seq<ResourceRef>)
    ensures StrictlySorted(r, RefKey)
    ensures forall x :: x in r <==> x in values && Named(x)
  {
    var seen: set<ResourceRef> := {};
    var kept: seq<ResourceRef> := [];
    for i := 0 to |values|
      invariant forall x :: x in kept <==> x in values[..i] && Named(x)
      invariant forall x :: x in seen <==> x in kept
      invariant forall a, b :: 0 <= a < b < |kept| ==> kept[a] != kept[b]
    {
      if !Named(values[i]) || values[i] in seen {
        continue;
      }
      seen := seen + {values[i]};
      kept := kept + [values[i]];
    }
    r := LibrarySort(kept, RefKey);
    DistinctCount(kept);
    DistinctCount(r);
    assert forall a, b :: RefKey(a) == RefKey(b) ==> a == b;
    SortedDistinct(r, RefKey);
    assert forall x :: x in r <==> x in multiset(r);
    assert forall x :: x in kept <==> x in multiset(kept);
    assert values[..|values|] == values;
  }

  /** Substring test. */
  predicate Contains(s: string, part: string) {
    |part| <= |s| && (s[..|part|] == part || (s != [] && Contains(s[1..], part)))
  }

  lemma {:induction false} ContainsSuffix(before: string, part: string)
    ensures Contains(before + part, part)
  {
    if before == [] {
      assert before + part == part;
    } else {
      ContainsSuffix(before[1..], part);
      assert (before + part)[1..] == before[1..] + part;
    }
  }

  lemma KindsDoNotOverlap()
    ensures !Contains("management_scope", "exception_grant")
    ensures !Contains("exception_grant", "management_scope")
  {
    var s := "management_scope";
    assert s[..15][0] != "exception_grant"[0];
    assert s[1..][..15][0] != "exception_grant"[0];
    assert |s[1..][1..]| == 14;
  }

  /** The substring test on the joined text decides membership among the kinds. */
  lemma ReasonContains(s: Subject, rules: seq<ScopeRule>, now: int, kind: string)
    requires kind == "management_scope" || kind == "exception_grant"
    ensures var kinds := ExpansionKinds(s, rules, now);
            var text := Joined(kinds);
            (text == "" <==> kinds == []) && (text != "" ==> (Contains(text, kind) <==> kind in kinds))
  {
    JoinedContains(ExpansionKinds(s, rules, now), kind);
  }

  lemma JoinedContains(kinds: seq<string>, kind: string)
    requires KindList(kinds)
    requires kind == "management_scope" || kind == "exception_grant"
    ensures Joined(kinds) == "" <==> kinds == []
    ensures kinds != [] ==> (Contains(Joined(kinds), kind) <==> kind in kinds)
  {
    KindsDoNotOverlap();
    if |kinds| == 1 {
      assert kinds == [kinds[0]] && Joined(kinds) == kinds[0];
      assert Contains(kinds[0], kinds[0]);
    } else if |kinds| == 2 {
      assert kinds[..1] == [kinds[0]] && Joined([kinds[0]]) == kinds[0];
      var text := kinds[0] + "," + kinds[1];
      assert Joined(kinds) == text;
      assert text[..|kinds[0]|] == kinds[0];
      ContainsSuffix(kinds[0] + ",", kinds[1]);
      assert kind == kinds[0] || kind == kinds[1];
    }
  }

  ghost predicate Expanded(t: string, s: Subject, rules: seq<ScopeRule>, now: int) {
    exists rule :: rule in rules && Expands(rule, s, now) && rule.resourceId == t
  }

  /** What one more rule adds to the grant layer. */
  lemma OneMoreRule(s: Subject, rules: seq<ScopeRule>, rule: ScopeRule, now: int)
    ensures forall t :: Expanded(t, s, rules + [rule], now)
                   <==> Expanded(t, s, rules, now) || (Expands(rule, s, now) && rule.resourceId == t)
    ensures forall r :: Granted(r, s, rules + [rule], now)
                   <==> Granted(r, s, rules, now) || (GrantsOther(rule, s, now) && Ref(rule) == r)
    ensures var before := ExpansionKinds(s, rules, now);
            ExpansionKinds(s, rules + [rule], now)
            == if Expands(rule, s, now) && rule.ruleKind !in before then before + [rule.ruleKind] else before
  {
    var all := rules + [rule];
    assert all[..|all| - 1] == rules && all[|all| - 1] == rule;
  }

  lemma JoinedGrows(kinds: seq<string>, kind: string)
    ensures Joined(kinds + [kind]) == if kinds == [] then kind else Joined(kinds) + "," + kind
  {
    assert (kinds + [kind])[..|kinds|] == kinds;
  }

  /** The reason names each kind once; the substring test stands for membership. */
  method ExtendReason(reason: string, kind: string, ghost kinds: seq<string>) returns (r: string)
    requires KindList(kinds) && reason == Joined(kinds)
    requires kind == "management_scope" || kind == "exception_grant"
    ensures r == Joined(if kind in kinds then kinds else kinds + [kind])
  {
    JoinedContains(kinds, kind);
    JoinedGrows(kinds, kind);
    if reason == "" || !Contains(reason, kind) {
      return if reason == "" then kind else reason + "," + kind;
    }
    return reason;
  }

  method GrantLayer(s: Subject, rules: seq<ScopeRule>, now: int)
    returns (expansions: set<string>, allowed: seq<ResourceRef>, reason: string)
    ensures forall t :: t in expansions <==> Expanded(t, s, rules, now)
    ensures forall r :: r in allowed <==> Granted(r, s, rules, now)
    ensures reason == Joined(ExpansionKinds(s, rules, now))
  {
    expansions, allowed, reason := {}, [], "";
    for i := 0 to |rules|
      invariant forall t :: t in expansions <==> Expanded(t, s, rules[..i], now)
      invariant forall r :: r in allowed <==> Granted(r, s, rules[..i], now)
      invariant reason == Joined(ExpansionKinds(s, rules[..i], now))
    {
      var rule := rules[i];
      assert rules[..i + 1] == rules[..i] + [rule];
      OneMoreRule(s, rules[..i], rule, now);
      if !IsGrant(rule) || !Effective(rule, s, now) {
        continue;
      }
      if rule.resourceKind == "team" {
        expansions := expansions + {rule.resourceId};
        reason := ExtendReason(reason, rule.ruleKind, ExpansionKinds(s, rules[..i], now));
      } else {
        allowed := allowed + [Ref(rule)];
      }
    }
    assert rules[..|rules|] == rules;
  }

  method DenyLayer(s: Subject, rules: seq<ScopeRule>, now: int) returns (denied: seq<ResourceRef>)
    ensures forall r :: r in denied <==> Denied(r, s, rules, now)
  {
    denied := [];
    for i := 0 to |rules|
      invariant forall r :: r in denied <==> Denied(r, s, rules[..i], now)
    {
      assert rules[..i + 1] == rules[..i] + [rules[i]];
      if Denies(rules[i], s, now) {
        denied := denied + [Ref(rules[i])];
      }
    }
    assert rules[..|rules|] == rules;
  }

  /** The union of the subtrees of `roots`, taken in any order. */
  method AddSubtrees(start: seq<string>, roots: set<string>, teams: Teams) returns (scope: seq<string>)
    requires StrictlySorted(start, StringKey) && "" !in start
    requires forall t :: t in roots ==> AcyclicUnder(teams, t)
    ensures StrictlySorted(scope, StringKey)
    ensures forall x :: x in scope <==> x in start || (x != "" && exists t :: t in roots && Under(teams, x, t))
  {
    scope := start;
    var todo := roots;
    while todo != {}
      invariant todo <= roots && StrictlySorted(scope, StringKey)
      invariant forall x ::
                  x in scope <==> x in start || (x != "" && exists t :: t in roots - todo && Under(teams, x, t))
    {
      var t :| t in todo;
      var tree := SubtreeIDs(t, teams);
      ghost var before := scope;
      scope := UniqueSorted(scope + tree);
      assert roots - (todo - {t}) == (roots - todo) + {t};
      todo := todo - {t};
    }
    assert roots - {} == roots;
  }

  method OwnScope(ownTeams: seq<string>, teams: Teams) returns (scope: seq<string>)
    requires forall t :: t in ownTeams ==> AcyclicUnder(teams, t)
    ensures StrictlySorted(scope, StringKey)
    ensures forall x :: x in scope <==> x != "" && exists t :: t in ownTeams && Under(teams, x, t)
  {
    var all: seq<string> := [];
    for i := 0 to |ownTeams|
      invariant forall x :: x in all <==> x != "" && exists t :: t in ownTeams[..i] && Under(teams, x, t)
    {
      var tree := SubtreeIDs(ownTeams[i], teams);
      assert ownTeams[..i + 1] == ownTeams[..i] + [ownTeams[i]];
      all := all + tree;
    }
    assert ownTeams[..|ownTeams|] == ownTeams;
    scope := UniqueSorted(all);
  }

  /** The own subtrees with the granted ones are the department scope. */
  lemma ScopesAddUp(base: seq<string>, scope: seq<string>, expansions: set<string>,
                    s: Subject, teams: Teams, rules: seq<ScopeRule>, now: int, x: string)
    requires x in base <==> x != "" && exists t :: t in s.ownTeams && Under(teams, x, t)
    requires x in scope <==> x in base || (x != "" && exists t :: t in expansions && Under(teams, x, t))
    requires forall t :: t in expansions <==> Expanded(t, s, rules, now)
    ensures x in scope <==> x != "" && InOrgScope(x, s, teams, rules, now)
  {
    if rule :| rule in rules && Expands(rule, s, now) && Under(teams, x, rule.resourceId) {
      assert Expanded(rule.resourceId, s, rules, now);
    }
  }

  lemma ExpansionsWalkable(expansions: set<string>, s: Subject, teams: Teams, rules: seq<ScopeRule>, now: int)
    requires Walkable(s, teams, rules, now) && forall t :: t in expansions <==> Expanded(t, s, rules, now)
    ensures forall t :: t in expansions ==> AcyclicUnder(teams, t)
  {
    forall t | t in expansions
      ensures AcyclicUnder(teams, t)
    {
      assert Expanded(t, s, rules, now);
    }
  }

  /** The scope the two layers of teams give together. */
  method OrgScope(s: Subject, teams: Teams, rules: seq<ScopeRule>, now: int, expansions: set<string>)
    returns (scope: seq<string>)
    requires Walkable(s, teams, rules, now) && forall t :: t in expansions <==> Expanded(t, s, rules, now)
    ensures StrictlySorted(scope, StringKey)
    ensures forall x :: x in scope <==> x != "" && InOrgScope(x, s, teams, rules, now)
  {
    var base := OwnScope(s.ownTeams, teams);
    ExpansionsWalkable(expansions, s, teams, rules, now);
    scope := AddSubtrees(base, expansions, teams);
    forall x
      ensures x in scope <==> x != "" && InOrgScope(x, s, teams, rules, now)
    {
      ScopesAddUp(base, scope, expansions, s, teams, rules, now, x);
    }
  }

  method BuildRetrievalContext(s: Subject, teams: Teams, rules: seq<ScopeRule>, now: int)
    returns (c: RetrievalContext)
    requires Walkable(s, teams, rules, now)
    ensures ContextFor(c, s, teams, rules, now)
    ensures forall r :: Allows(c, r) <==> Authorized(r, s, teams, rules, now)
  {
    var own := UniqueSorted(s.ownTeams);
    var roles := UniqueSorted(s.roles);
    var expansions, grants, reason := GrantLayer(s, rules, now);
    var scope := OrgScope(s, teams, rules, now, expansions);
    var denies := DenyLayer(s, rules, now);
    var allowed := UniqueResourceRefs(grants);
    var denied := UniqueResourceRefs(denies);
    c := RetrievalContext(s.userId, s.deploymentId, scope, own, roles, allowed, denied, reason);
    forall r
      ensures Allows(c, r) <==> Authorized(r, s, teams, rules, now)
    {
      AllowsIffAuthorized(c, r, s, teams, rules, now);
    }
  }

  // ---------------------------------------------------------------- the decision

  predicate Allows(c: RetrievalContext, r: ResourceRef) {
    && r !in c.denied
    && ((r.kind == "team" && r.id in c.orgScope) || r in c.allowed)
  }

  lemma DeniedOnFields(r: ResourceRef, s: Subject, rules: seq<ScopeRule>, now: int)
    ensures Denied(r, s, rules, now)
       <==> exists rule :: rule in rules && SelectedByQuery(rule, s, now) && rule.ruleKind == "explicit_deny"
              && rule.resourceKind == r.kind && rule.resourceId == r.id
  {
  }

  lemma GrantedOnFields(r: ResourceRef, s: Subject, teams: Teams, rules: seq<ScopeRule>, now: int)
    ensures (if r.kind == "team" then InOrgScope(r.id, s, teams, rules, now) else Granted(r, s, rules, now))
       <==> || (r.kind == "team" && exists t :: t in s.ownTeams && Under(teams, r.id, t))
            || (exists rule :: rule in rules && SelectedByQuery(rule, s, now) && rule.resourceKind == r.kind
                  && (rule.ruleKind == "management_scope" || rule.ruleKind == "exception_grant")
                  && (if r.kind == "team" then Under(teams, r.id, rule.resourceId) else rule.resourceId == r.id))
  {
    assert forall rule :: Effective(rule, s, now) <==> SelectedByQuery(rule, s, now);
  }

  /** The decision on the built context is the policy's, whatever the kind of the resource. */
  lemma AllowsIffAuthorized(c: RetrievalContext, r: ResourceRef, s: Subject, teams: Teams, rules: seq<ScopeRule>,
                            now: int)
    requires ContextFor(c, s, teams, rules, now)
    ensures Allows(c, r) <==> Authorized(r, s, teams, rules, now)
  {
    DeniedOnFields(r, s, rules, now);
    GrantedOnFields(r, s, teams, rules, now);
    if r.kind == "team" {
      forall rule | rule in rules && GrantsOther(rule, s, now)
        ensures Ref(rule) != r
      {
        assert Ref(rule).kind == rule.resourceKind;
      }
    }
  }

  /** The rule of one of the grant kinds on a team, for this subject and now. */
  predicate GrantsTeam(rule: ScopeRule, kind: string, s: Subject, now: int) {
    rule.ruleKind == kind && rule.resourceKind == "team" && SelectedByQuery(rule, s, now)
  }

  ghost predicate SomeGrantsTeam(rules: seq<ScopeRule>, kind: string, s: Subject, now: int) {
    exists rule :: rule in rules && GrantsTeam(rule, kind, s, now)
  }

  lemma OneMoreGrant(rules: seq<ScopeRule>, last: ScopeRule, kind: string, s: Subject, now: int)
    ensures SomeGrantsTeam(rules + [last], kind, s, now)
       <==> SomeGrantsTeam(rules, kind, s, now) || GrantsTeam(last, kind, s, now)
  {
    assert last in rules + [last];
  }

  lemma {:induction false} KindListedIff(s: Subject, rules: seq<ScopeRule>, now: int, kind: string)
    requires kind == "management_scope" || kind == "exception_grant"
    ensures kind in ExpansionKinds(s, rules, now) <==> SomeGrantsTeam(rules, kind, s, now)
  {
    if rules != [] {
      var before, last := rules[..|rules| - 1], rules[|rules| - 1];
      KindListedIff(s, before, now, kind);
      assert rules == before + [last];
      OneMoreGrant(before, last, kind, s, now);
      assert Expands(last, s, now) && last.ruleKind == kind <==> GrantsTeam(last, kind, s, now);
    }
  }

  /** The reason begins with the kind of the first grant on a team. */
  lemma {:induction false} FirstKind(s: Subject, rules: seq<ScopeRule>, now: int, i: nat)
    requires i < |rules| && Expands(rules[i], s, now) && forall k :: 0 <= k < i ==> !Expands(rules[k], s, now)
    ensures var kinds := ExpansionKinds(s, rules, now); kinds != [] && kinds[0] == rules[i].ruleKind
    decreases |rules|
  {
    var before := rules[..|rules| - 1];
    if i < |rules| - 1 {
      FirstKind(s, before, now, i);
    } else {
      KindListedIff(s, before, now, "management_scope");
      KindListedIff(s, before, now, "exception_grant");
      NoKinds(ExpansionKinds(s, before, now));
    }
  }

  lemma NoKinds(kinds: seq<string>)
    requires KindList(kinds) && "management_scope" !in kinds && "exception_grant" !in kinds
    ensures kinds == []
  {
  }

  lemma JoinedText(kinds: seq<string>)
    requires KindList(kinds)
    ensures Joined(kinds) == if kinds == [] then "" else if |kinds| == 1 then kinds[0] else kinds[0] + "," + kinds[1]
  {
    if |kinds| == 2 {
      assert kinds[..1] == [kinds[0]] && Joined([kinds[0]]) == kinds[0];
    }
  }

  /** The text of the reason, from the grants on teams alone. */
  lemma ReasonOnFields(c: RetrievalContext, s: Subject, teams: Teams, rules: seq<ScopeRule>, now: int)
    requires ContextFor(c, s, teams, rules, now)
    ensures var managed := SomeGrantsTeam(rules, "management_scope", s, now);
            var excepted := SomeGrantsTeam(rules, "exception_grant", s, now);
            && (!managed && !excepted ==> c.reason == "")
            && (managed && !excepted ==> c.reason == "management_scope")
            && (!managed && excepted ==> c.reason == "exception_grant")
            && (managed && excepted ==>
                  || c.reason == "management_scope" + "," + "exception_grant"
                  || c.reason == "exception_grant" + "," + "management_scope")
  {
    KindListedIff(s, rules, now, "management_scope");
    KindListedIff(s, rules, now, "exception_grant");
    JoinedText(ExpansionKinds(s, rules, now));
  }

  /** With both kinds present, the one of the earlier rule comes first. */
  lemma ReasonInOrder(c: RetrievalContext, s: Subject, teams: Teams, rules: seq<ScopeRule>, now: int, i: nat)
    requires ContextFor(c, s, teams, rules, now)
    requires i < |rules| && GrantsTeam(rules[i], rules[i].ruleKind, s, now)
    requires rules[i].ruleKind == "management_scope" || rules[i].ruleKind == "exception_grant"
    requires forall k :: 0 <= k < i ==>
               !GrantsTeam(rules[k], "management_scope", s, now) && !GrantsTeam(rules[k], "exception_grant", s, now)
    ensures rules[i].ruleKind <= c.reason
  {
    FirstKind(s, rules, now, i);
    JoinedText(ExpansionKinds(s, rules, now));
  }

  /** A deny on a team is exact: a descendant it does not name keeps its answer. */
  lemma DenyIsNotInherited(s: Subject, teams: Teams, rules: seq<ScopeRule>, deny: ScopeRule, now: int, x: string)
    requires deny.ruleKind == "explicit_deny" && (deny.resourceKind != "team" || deny.resourceId != x)
    ensures Authorized(ResourceRef("team", x), s, teams, rules + [deny], now)
         <==> Authorized(ResourceRef("team", x), s, teams, rules, now)
  {
    assert forall rule :: rule in rules + [deny] <==> rule in rules || rule == deny;
  }

  /**
   * Contexts built from the same rules in any order, with any multiplicity, and with any
   * rules the query filters out, agree on everything but the order-dependent reason.
   */
  lemma ContextIgnoresOrderAndFilter(
      c: RetrievalContext, d: RetrievalContext, s: Subject, teams: Teams,
      rules: seq<ScopeRule>, stored: seq<ScopeRule>, now: int)
    requires ContextFor(c, s, teams, rules, now) && ContextFor(d, s, teams, stored, now)
    requires forall rule :: SelectedByQuery(rule, s, now) ==> (rule in rules <==> rule in stored)
    ensures c.(reason := "") == d.(reason := "")
  {
    assert forall rule :: Effective(rule, s, now) <==> SelectedByQuery(rule, s, now);
    assert forall x :: InOrgScope(x, s, teams, rules, now) <==> InOrgScope(x, s, teams, stored, now);
    assert forall r :: Granted(r, s, rules, now) <==> Granted(r, s, stored, now);
    assert forall r :: Denied(r, s, rules, now) <==> Denied(r, s, stored, now);
    SameElements(c.orgScope, d.orgScope, StringKey);
    SameElements(c.ownTeamIds, d.ownTeamIds, StringKey);
    SameElements(c.roleScope, d.roleScope, StringKey);
    SameElements(c.allowed, d.allowed, RefKey);
    SameElements(c.denied, d.denied, RefKey);
  }
}
