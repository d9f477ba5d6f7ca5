/** Limit headers: an injective subject key, hashed, present exactly for the matching subjects. */
module Base64Url {
  import opened Wrappers

  type byte = b: int | 0 <= b < 256
  type Bytes = seq<byte>

  function Digit(v: int): char
    requires 0 <= v < 64
  {
    if v < 26 then 'A' + v as char
    else if v < 52 then 'a' + (v - 26) as char
    else if v < 62 then '0' + (v - 52) as char
    else if v == 62 then '-' else '_'
  }

  function Value(c: char): Option<int> {
    if 'A' <= c <= 'Z' then Some(c as int - 'A' as int)
    else if 'a' <= c <= 'z' then Some(c as int - 'a' as int + 26)
    else if '0' <= c <= '9' then Some(c as int - '0' as int + 52)
    else if c == '-' then Some(62)
    else if c == '_' then Some(63)
    else None
  }

  lemma DigitValue(v: int)
    requires 0 <= v < 64
    ensures Value(Digit(v)) == Some(v) && Digit(v) != '.'
  {
  }

  /** Base64url without padding, section 5 of RFC 4648. */
  function Encode(b: Bytes): string {
    if |b| == 0 then ""
    else if |b| == 1 then [Digit(b[0] / 4), Digit(b[0] % 4 * 16)]
    else if |b| == 2 then [Digit(b[0] / 4), Digit(b[0] % 4 * 16 + b[1] / 16), Digit(b[1] % 16 * 4)]
    else [Digit(b[0] / 4), Digit(b[0] % 4 * 16 + b[1] / 16), Digit(b[1] % 16 * 4 + b[2] / 64), Digit(b[2] % 64)]
         + Encode(b[3..])
  }

  function Sextets(s: string): Option<seq<int>> {
    if s == "" then Some([])
    else match (Value(s[0]), Sextets(s[1..]))
      case (Some(v), Some(rest)) => Some([v] + rest)
      case _ => None
  }

  function Octets(v: seq<int>): Option<seq<int>> {
    if |v| == 0 then Some([])
    else if |v| == 1 then None
    else if |v| == 2 then Some([v[0] * 4 + v[1] / 16])
    else if |v| == 3 then Some([v[0] * 4 + v[1] / 16, v[1] % 16 * 16 + v[2] / 4])
    else match Octets(v[4..])
      case Some(rest) => Some([v[0] * 4 + v[1] / 16, v[1] % 16 * 16 + v[2] / 4, v[2] % 4 * 64 + v[3]] + rest)
      case None => None
  }

  function Decode(s: string): Option<seq<int>> {
    match Sextets(s)
    case Some(v) => Octets(v)
    case None => None
  }

  function Split(b: Bytes): seq<int> {
    if |b| == 0 then []
    else if |b| == 1 then [b[0] / 4, b[0] % 4 * 16]
    else if |b| == 2 then [b[0] / 4, b[0] % 4 * 16 + b[1] / 16, b[1] % 16 * 4]
    else [b[0] / 4, b[0] % 4 * 16 + b[1] / 16, b[1] % 16 * 4 + b[2] / 64, b[2] % 64] + Split(b[3..])
  }

  lemma {:induction false} SextetsOfDigits(v: seq<int>, s: string)
    requires |s| == |v|
    requires forall i :: 0 <= i < |v| ==> 0 <= v[i] < 64 && s[i] == Digit(v[i])
    ensures Sextets(s) == Some(v) && '.' !in s
  {
    if v != [] {
      DigitValue(v[0]);
      SextetsOfDigits(v[1..], s[1..]);
      assert s == [s[0]] + s[1..] && v == [v[0]] + v[1..];
    }
  }

  lemma {:induction false} EncodeIsSplit(b: Bytes)
    ensures |Encode(b)| == |Split(b)|
    ensures forall i :: 0 <= i < |Split(b)| ==> 0 <= Split(b)[i] < 64 && Encode(b)[i] == Digit(Split(b)[i])
  {
    if |b| > 2 {
      EncodeIsSplit(b[3..]);
    }
  }

  lemma Repack(x: byte, y: byte, z: byte)
    ensures var u, v := x % 4 * 16 + y / 16, y % 16 * 4 + z / 64;
            x / 4 * 4 + u / 16 == x && u % 16 * 16 + v / 4 == y && v % 4 * 64 + z % 64 == z
  {
    var a, r := y / 16, y % 16;
    var c, d := z / 64, z % 64;
    assert (x % 4 * 16 + a) / 16 == x % 4 && (x % 4 * 16 + a) % 16 == a;
    assert (r * 4 + c) / 4 == r && (r * 4 + c) % 4 == c;
  }

  lemma {:induction false} OctetsOfSplit(b: Bytes)
    ensures Octets(Split(b)) == Some(b)
  {
    if |b| == 1 {
      Repack(b[0], 0, 0);
      assert b == [b[0]];
    } else if |b| == 2 {
      Repack(b[0], b[1], 0);
      assert b == [b[0], b[1]];
    } else if |b| > 2 {
      Repack(b[0], b[1], b[2]);
      OctetsOfSplit(b[3..]);
      assert Split(b)[4..] == Split(b[3..]);
      assert b == [b[0], b[1], b[2]] + b[3..];
    }
  }

  /** Decoding undoes encoding, and no encoding contains the separator. */
  lemma RoundTrip(b: Bytes)
    ensures Decode(Encode(b)) == Some(b) && '.' !in Encode(b)
  {
    EncodeIsSplit(b);
    SextetsOfDigits(Split(b), Encode(b));
    OctetsOfSplit(b);
  }

  /** The test vectors of section 10 of RFC 4648 without padding, and one with the two URL-safe digits. */
  lemma TestVectors()
    ensures Encode([0x66]) == "Zg" && Encode([0x66, 0x6F]) == "Zm8" && Encode([0x66, 0x6F, 0x6F]) == "Zm9v"
    ensures Encode([0x66, 0x6F, 0x6F, 0x62, 0x61, 0x72]) == "Zm9vYmFy"
    ensures Encode([0xFB, 0xFF]) == "-_8"
  {
    var foobar: Bytes := [0x66, 0x6F, 0x6F, 0x62, 0x61, 0x72];
    assert foobar[3..] == [0x62, 0x61, 0x72];
    assert Encode([0x62, 0x61, 0x72]) == "YmFy";
  }
}

module GatewayPolicy {
  import opened Wrappers
  import opened Base64Url

  datatype Configuration = Configuration(
    kind: string, scopeType: string, scopeId: Option<Bytes>, modelId: Option<Bytes>,
    maximum: int, interval: string, enabled: bool, expectedVersion: int)

  /** The length of the white-space character a UTF-8 text starts with, 0 for any other start. */
  function SpaceWidth(s: Bytes): (width: nat)
    ensures width <= |s|
  {
    if |s| >= 1 && (s[0] == 32 || 9 <= s[0] <= 13) then 1
    else if |s| >= 2 && s[0] == 0xC2 && s[1] in {0x85, 0xA0} then 2
    else if |s| >= 3 && ((s[0] == 0xE1 && s[1] == 0x9A && s[2] == 0x80)
                         || (s[0] == 0xE2 && s[1] == 0x80 && (0x80 <= s[2] <= 0x8A || s[2] in {0xA8, 0xA9, 0xAF}))
                         || (s[0] == 0xE2 && s[1] == 0x81 && s[2] == 0x9F)
                         || (s[0] == 0xE3 && s[1] == 0x80 && s[2] == 0x80)) then 3
    else 0
  }

  /** Trimming Unicode white space leaves nothing. */
  predicate Blank(s: Bytes) {
    s == [] || (SpaceWidth(s) > 0 && Blank(s[SpaceWidth(s)..]))
  }

  predicate Valid(c: Configuration) {
    && c.kind in {"requests", "tokens"}
    && 1 <= c.maximum <= 1_000_000_000_000 && c.expectedVersion >= 0
    && c.interval in {"second", "minute", "hour", "day"}
    && (c.modelId.Some? ==> !Blank(c.modelId.value) && |c.modelId.value| <= 256)
    && (if c.scopeType == "global" then c.scopeId.None?
        else
          && c.scopeType in {"model", "user", "team", "role"}
          && c.scopeId.Some? && !Blank(c.scopeId.value) && |c.scopeId.value| <= 256
          && (c.scopeType == "model" ==> c.modelId.None? || c.modelId == c.scopeId))
  }

  // ---------------------------------------------------------------- keys

  /** A counted subject: what a header stands for before it is encoded. */
  datatype Subject = Subject(kind: string, id: Bytes, model: Bytes)

  function ModelPart(model: Bytes): string {
    if model == [] then "all" else "m." + Encode(model)
  }

  function KeyText(s: Subject): string {
    s.kind + "." + Encode(s.id) + "." + ModelPart(s.model)
  }

  lemma {:induction false} FirstDot(a: string, b: string, x: string, y: string)
    requires '.' !in a && '.' !in b && a + "." + x == b + "." + y
    ensures a == b && x == y
  {
    assert (a + "." + x)[0] == (b + "." + y)[0];
    assert (a + "." + x)[1..] == (b + "." + y)[1..];
    if a != "" && b != "" {
      assert (a + "." + x)[1..] == a[1..] + "." + x && (b + "." + y)[1..] == b[1..] + "." + y;
      FirstDot(a[1..], b[1..], x, y);
      assert a == [a[0]] + a[1..] && b == [b[0]] + b[1..];
    } else {
      assert a == "" ==> (a + "." + x)[1..] == x;
      assert b == "" ==> (b + "." + y)[1..] == y;
    }
  }

  lemma ModelPartInjective(m: Bytes, n: Bytes)
    requires ModelPart(m) == ModelPart(n)
    ensures m == n
  {
    assert ModelPart(m)[0] == ModelPart(n)[0];
    if m != [] {
      assert ModelPart(m)[2..] == Encode(m) && ModelPart(n)[2..] == Encode(n);
      RoundTrip(m);
      RoundTrip(n);
    }
  }

  lemma PartsUnique(a: string, b: string, c: string, x: string, y: string, z: string)
    requires '.' !in a && '.' !in b && '.' !in x && '.' !in y
    requires a + "." + b + "." + c == x + "." + y + "." + z
    ensures a == x && b == y && c == z
  {
    var tail, tail' := b + "." + c, y + "." + z;
    assert a + "." + b + "." + c == a + "." + tail;
    assert x + "." + y + "." + z == x + "." + tail';
    FirstDot(a, x, tail, tail');
    FirstDot(b, y, c, z);
  }

  /** Different subjects have different key texts. */
  lemma KeyTextInjective(s: Subject, t: Subject)
    requires '.' !in s.kind && '.' !in t.kind && KeyText(s) == KeyText(t)
    ensures s == t
  {
    RoundTrip(s.id);
    RoundTrip(t.id);
    PartsUnique(s.kind, Encode(s.id), ModelPart(s.model), t.kind, Encode(t.id), ModelPart(t.model));
    ModelPartInjective(s.model, t.model);
  }

  // ---------------------------------------------------------------- headers

  /** SHA-256 in hexadecimal: any function that does not collide on the key texts in play. */
  ghost predicate CollisionFree(hash: string -> string, subjects: set<Subject>) {
    forall s, t :: s in subjects && t in subjects && hash(KeyText(s)) == hash(KeyText(t)) ==> KeyText(s) == KeyText(t)
  }

  function SubjectHeader(hash: string -> string, s: Subject): string {
    "x-aep-limit-" + hash(KeyText(s))
  }

  function OrEmpty(o: Option<Bytes>): Bytes {
    if o.Some? then o.value else []
  }

  /** The subject a limit counts: a model limit is a global one for that model. */
  function Counted(c: Configuration): Subject {
    if c.scopeType == "model" then Subject("global", [], OrEmpty(c.scopeId))
    else Subject(c.scopeType, OrEmpty(c.scopeId), OrEmpty(c.modelId))
  }

  function Header(hash: string -> string, c: Configuration): string {
    SubjectHeader(hash, Counted(c))
  }

  /** The text of a valid limit's header: a model limit is a global one for its model. */
  lemma HeaderOnFields(hash: string -> string, c: Configuration)
    requires Valid(c)
    ensures Header(hash, c) == "x-aep-limit-" + hash(
              if c.scopeType == "model" then "global" + "." + "" + "." + ("m." + Encode(c.scopeId.value))
              else
                c.scopeType + "." + (if c.scopeType == "global" then "" else Encode(c.scopeId.value))
                + "." + (if c.modelId.None? then "all" else "m." + Encode(c.modelId.value)))
  {
    assert Blank([]) && Encode([]) == "";
    if c.scopeType == "model" {
      assert c.scopeId.value != [];
    }
  }

  datatype Request = Request(model: Bytes, user: Bytes, teams: seq<Bytes>, roles: seq<Bytes>)

  /** Each membership of a kind counts once without and once with the model. */
  function OfKind(kind: string, ids: seq<Bytes>, model: Bytes): set<Subject> {
    (set id | id in ids :: Subject(kind, id, [])) + (set id | id in ids :: Subject(kind, id, model))
  }

  function Subjects(q: Request): set<Subject> {
    OfKind("global", [[]], q.model) + OfKind("user", [q.user], q.model)
    + OfKind("team", q.teams, q.model) + OfKind("role", q.roles, q.model)
  }

  type Naming = Subject -> string

  function HeaderOf(hash: string -> string): Naming {
    (s: Subject) => SubjectHeader(hash, s)
  }

  function Names(name: Naming, subjects: set<Subject>): set<string> {
    set s | s in subjects :: name(s)
  }

  const HEADER_BOUND := 80

  lemma NamesOfUnion(name: Naming, a: set<Subject>, b: set<Subject>)
    ensures Names(name, a + b) == Names(name, a) + Names(name, b)
  {
  }

  lemma OfKindGrows(kind: string, ids: seq<Bytes>, i: nat, model: Bytes)
    requires i < |ids|
    ensures OfKind(kind, ids[..i + 1], model)
         == OfKind(kind, ids[..i], model) + {Subject(kind, ids[i], []), Subject(kind, ids[i], model)}
  {
    assert ids[..i + 1] == ids[..i] + [ids[i]];
    assert forall id :: id in ids[..i + 1] <==> id in ids[..i] || id == ids[i];
  }

  lemma NamesOfPair(name: Naming, s: Subject, t: Subject)
    ensures Names(name, {s, t}) == {name(s), name(t)}
  {
  }

  method AddAll(headers: set<string>, name: Naming, kind: string, ids: seq<Bytes>, model: Bytes)
    returns (out: set<string>)
    ensures out == headers + Names(name, OfKind(kind, ids, model))
  {
    out := headers;
    ghost var done: set<Subject> := {};
    for i := 0 to |ids|
      invariant done == OfKind(kind, ids[..i], model)
      invariant out == headers + Names(name, done)
    {
      var all, one := Subject(kind, ids[i], []), Subject(kind, ids[i], model);
      OfKindGrows(kind, ids, i, model);
      NamesOfUnion(name, done, {all, one});
      NamesOfPair(name, all, one);
      out := out + {name(all)};
      out := out + {name(one)};
      done := done + {all, one};
    }
    assert ids[..|ids|] == ids;
  }

  lemma NamesOfSubjects(name: Naming, q: Request)
    ensures Names(name, Subjects(q))
         == Names(name, OfKind("global", [[]], q.model)) + Names(name, OfKind("user", [q.user], q.model))
            + Names(name, OfKind("team", q.teams, q.model)) + Names(name, OfKind("role", q.roles, q.model))
  {
    var g, u := OfKind("global", [[]], q.model), OfKind("user", [q.user], q.model);
    var t, r := OfKind("team", q.teams, q.model), OfKind("role", q.roles, q.model);
    NamesOfUnion(name, g, u);
    NamesOfUnion(name, g + u, t);
    NamesOfUnion(name, g + u + t, r);
  }

  /** The header names of a request, or None past the bound; teams and roles come in either order. */
  method Headers(hash: string -> string, q: Request) returns (result: Option<set<string>>)
    ensures var names := Names(HeaderOf(hash), Subjects(q));
            result == if |names| > HEADER_BOUND then None else Some(names)
  {
    var name := HeaderOf(hash);
    var headers := AddAll({}, name, "global", [[]], q.model);
    headers := AddAll(headers, name, "user", [q.user], q.model);
    var rolesFirst: bool :| true;
    if rolesFirst {
      headers := AddAll(headers, name, "role", q.roles, q.model);
      headers := AddAll(headers, name, "team", q.teams, q.model);
    } else {
      headers := AddAll(headers, name, "team", q.teams, q.model);
      headers := AddAll(headers, name, "role", q.roles, q.model);
    }
    NamesOfSubjects(name, q);
    assert headers == Names(name, Subjects(q));
    if |headers| > HEADER_BOUND {
      return None;
    }
    return Some(headers);
  }

  // ---------------------------------------------------------------- what the header set means

  /** The limit applies to the request: its scope and its optional model match. */
  predicate Matches(c: Configuration, q: Request) {
    && (match c.scopeType
        case "global" => true
        case "model" => OrEmpty(c.scopeId) == q.model
        case "user" => OrEmpty(c.scopeId) == q.user
        case "team" => OrEmpty(c.scopeId) in q.teams
        case _ => OrEmpty(c.scopeId) in q.roles)
    && (c.modelId.Some? ==> c.modelId.value == q.model)
  }

  predicate DotFree(subjects: set<Subject>) {
    forall s :: s in subjects ==> '.' !in s.kind
  }

  /** No two of the subjects share a name. */
  ghost predicate NamesApart(name: Naming, subjects: set<Subject>) {
    forall s, t :: s in subjects && t in subjects && name(s) == name(t) ==> s == t
  }

  lemma CollisionFreeNames(hash: string -> string, subjects: set<Subject>)
    requires DotFree(subjects) && CollisionFree(hash, subjects)
    ensures NamesApart(HeaderOf(hash), subjects)
  {
    forall s, t | s in subjects && t in subjects && HeaderOf(hash)(s) == HeaderOf(hash)(t)
      ensures s == t
    {
      assert hash(KeyText(s)) == SubjectHeader(hash, s)[12..] == SubjectHeader(hash, t)[12..] == hash(KeyText(t));
      KeyTextInjective(s, t);
    }
  }

  lemma SubjectsDotFree(q: Request)
    ensures DotFree(Subjects(q))
  {
    assert '.' !in "global" && '.' !in "user" && '.' !in "team" && '.' !in "role";
  }

  lemma InSubjectsIff(c: Configuration, q: Request)
    requires Valid(c)
    ensures Counted(c) in Subjects(q) <==> Matches(c, q)
  {
    assert Blank([]);
    SubjectsAreGrants(q, Counted(c));
    GrantsByKind(q, Counted(c).kind, Counted(c).id);
  }

  /** A valid limit's header is among the request's headers exactly when the limit applies. */
  lemma HeaderPresentIff(hash: string -> string, c: Configuration, q: Request)
    requires Valid(c) && CollisionFree(hash, Subjects(q) + {Counted(c)})
    ensures Header(hash, c) in Names(HeaderOf(hash), Subjects(q)) <==> Matches(c, q)
  {
    var name, s, all := HeaderOf(hash), Counted(c), Subjects(q) + {Counted(c)};
    SubjectsDotFree(q);
    assert '.' !in s.kind;
    CollisionFreeNames(hash, all);
    InSubjectsIff(c, q);
    assert Header(hash, c) == name(s);
    if name(s) in Names(name, Subjects(q)) {
      var t :| t in Subjects(q) && name(t) == name(s);
      assert t in all && s in all;
    }
  }

  function Distinct(ids: seq<Bytes>): set<Bytes> {
    set id | id in ids
  }

  lemma {:induction false} NamesCount(name: Naming, subjects: set<Subject>)
    requires NamesApart(name, subjects)
    ensures |Names(name, subjects)| == |subjects|
    decreases |subjects|
  {
    if subjects != {} {
      var s :| s in subjects;
      var rest := subjects - {s};
      NamesCount(name, rest);
      assert Names(name, subjects) == Names(name, rest) + {name(s)};
    }
  }

  function Tagged(kind: string, ids: set<Bytes>, model: Bytes): set<Subject> {
    set id | id in ids :: Subject(kind, id, model)
  }

  lemma {:induction false} TaggedCount(kind: string, ids: set<Bytes>, model: Bytes)
    ensures |Tagged(kind, ids, model)| == |ids|
    decreases |ids|
  {
    if ids != {} {
      var x :| x in ids;
      TaggedCount(kind, ids - {x}, model);
      assert Tagged(kind, ids, model) == Tagged(kind, ids - {x}, model) + {Subject(kind, x, model)};
    }
  }

  lemma UnionCount(a: set<Subject>, b: set<Subject>)
    requires a !! b
    ensures |a + b| == |a| + |b|
  {
  }

  lemma OfKindCount(kind: string, ids: seq<Bytes>, model: Bytes)
    ensures |OfKind(kind, ids, model)| == (if model == [] then 1 else 2) * |Distinct(ids)|
    ensures forall s :: s in OfKind(kind, ids, model) ==> s.kind == kind
  {
    var plain, tagged := Tagged(kind, Distinct(ids), []), Tagged(kind, Distinct(ids), model);
    TaggedCount(kind, Distinct(ids), []);
    TaggedCount(kind, Distinct(ids), model);
    assert OfKind(kind, ids, model) == plain + tagged;
    if model == [] {
      assert plain + tagged == plain;
    } else {
      UnionCount(plain, tagged);
    }
  }

  lemma FourKindsCount(g: set<Subject>, u: set<Subject>, t: set<Subject>, r: set<Subject>)
    requires forall s :: s in g ==> s.kind == "global"
    requires forall s :: s in u ==> s.kind == "user"
    requires forall s :: s in t ==> s.kind == "team"
    requires forall s :: s in r ==> s.kind == "role"
    ensures |g + u + t + r| == |g| + |u| + |t| + |r|
  {
    UnionCount(g, u);
    UnionCount(g + u, t);
    UnionCount(g + u + t, r);
  }

  lemma DistinctOne(id: Bytes)
    ensures |Distinct([id])| == 1
  {
    assert Distinct([id]) == {id};
  }

  lemma SubjectsAddUp(q: Request)
    ensures |Subjects(q)| == |OfKind("global", [[]], q.model)| + |OfKind("user", [q.user], q.model)|
                             + |OfKind("team", q.teams, q.model)| + |OfKind("role", q.roles, q.model)|
  {
    OfKindCount("global", [[]], q.model);
    OfKindCount("user", [q.user], q.model);
    OfKindCount("team", q.teams, q.model);
    OfKindCount("role", q.roles, q.model);
    FourKindsCount(OfKind("global", [[]], q.model), OfKind("user", [q.user], q.model),
                   OfKind("team", q.teams, q.model), OfKind("role", q.roles, q.model));
  }

  lemma SubjectsCount(q: Request)
    ensures |Subjects(q)| == (if q.model == [] then 1 else 2) * (2 + |Distinct(q.teams)| + |Distinct(q.roles)|)
  {
    SubjectsAddUp(q);
    OfKindCounts(q);
  }

  lemma OfKindCounts(q: Request)
    ensures var f := if q.model == [] then 1 else 2;
            && |OfKind("global", [[]], q.model)| == f && |OfKind("user", [q.user], q.model)| == f
            && |OfKind("team", q.teams, q.model)| == f * |Distinct(q.teams)|
            && |OfKind("role", q.roles, q.model)| == f * |Distinct(q.roles)|
  {
    OfKindCount("global", [[]], q.model);
    DistinctOne([]);
    OfKindCount("user", [q.user], q.model);
    DistinctOne(q.user);
    OfKindCount("team", q.teams, q.model);
    OfKindCount("role", q.roles, q.model);
  }

  /** The bound is exceeded exactly by too many distinct memberships. */
  lemma HeadersFailIff(hash: string -> string, q: Request)
    requires CollisionFree(hash, Subjects(q))
    ensures |Names(HeaderOf(hash), Subjects(q))| > HEADER_BOUND
       <==> 2 + |Distinct(q.teams)| + |Distinct(q.roles)| > (if q.model == [] then 80 else 40)
  {
    SubjectsDotFree(q);
    CollisionFreeNames(hash, Subjects(q));
    NamesCount(HeaderOf(hash), Subjects(q));
    SubjectsCount(q);
  }

  // ---------------------------------------------------------------- the OPA rules

  function RegoAllKey(kind: string, id: Bytes): string {
    kind + "." + Encode(id) + "." + "all"
  }

  /** The key the second rule builds: the model part is never "all". */
  function RegoModelKey(kind: string, id: Bytes, model: Bytes): string {
    kind + "." + Encode(id) + "." + ("m." + Encode(model))
  }

  /** The rules define `h` over (kind, id) grants; without a requested model the second one defines nothing. */
  ghost predicate PolicyHeader(hash: string -> string, grants: set<(string, Bytes)>, requested: Option<Bytes>,
                               h: string)
  {
    || (exists g :: g in grants && h == "x-aep-limit-" + hash(RegoAllKey(g.0, g.1)))
    || (requested.Some?
        && exists g :: g in grants && h == "x-aep-limit-" + hash(RegoModelKey(g.0, g.1, requested.value)))
  }

  function Grants(q: Request): set<(string, Bytes)> {
    {("global", []), ("user", q.user)} + (set t | t in q.teams :: ("team", t)) + (set r | r in q.roles :: ("role", r))
  }

  lemma GrantsByKind(q: Request, kind: string, id: Bytes)
    ensures (kind, id) in Grants(q) <==>
              (kind == "global" && id == []) || (kind == "user" && id == q.user)
              || (kind == "team" && id in q.teams) || (kind == "role" && id in q.roles)
  {
  }

  lemma SubjectsAreGrants(q: Request, s: Subject)
    ensures s in Subjects(q) <==> (s.model == [] || s.model == q.model) && (s.kind, s.id) in Grants(q)
  {
  }

  /** The request both sides see: a body without a model is an empty model to the Go code. */
  predicate SameModel(q: Request, requested: Option<Bytes>) {
    q.model == OrEmpty(requested)
  }

  lemma RegoAgrees(hash: string -> string, q: Request, requested: Option<Bytes>, h: string)
    requires SameModel(q, requested) && requested != Some([])
    ensures PolicyHeader(hash, Grants(q), requested, h) <==> h in Names(HeaderOf(hash), Subjects(q))
  {
    var name := HeaderOf(hash);
    if g :| g in Grants(q) && h == "x-aep-limit-" + hash(RegoAllKey(g.0, g.1)) {
      SubjectsAreGrants(q, Subject(g.0, g.1, []));
      assert name(Subject(g.0, g.1, [])) == h;
    }
    if requested.Some? {
      if g :| g in Grants(q) && h == "x-aep-limit-" + hash(RegoModelKey(g.0, g.1, q.model)) {
        SubjectsAreGrants(q, Subject(g.0, g.1, q.model));
        assert name(Subject(g.0, g.1, q.model)) == h;
      }
    }
    if s :| s in Subjects(q) && name(s) == h {
      SubjectsAreGrants(q, s);
      var g := (s.kind, s.id);
      assert KeyText(s) == if s.model == [] then RegoAllKey(g.0, g.1) else RegoModelKey(g.0, g.1, q.model);
    }
  }

  /** For an empty model the second rule still emits a key, which ends unlike every key of the Go code. */
  lemma RegoModelKeyIsNew(s: Subject, g: (string, Bytes))
    requires s.model == []
    ensures KeyText(s) != RegoModelKey(g.0, g.1, [])
  {
    var x, y := KeyText(s), RegoModelKey(g.0, g.1, []);
    assert x[|x| - 1] == 'l' && y[|y| - 1] == '.';
  }

  /** The hash keeps the key of an empty model apart from the keys of the Go code. */
  ghost predicate NewKeyApart(hash: string -> string, q: Request) {
    forall s :: s in Subjects(q) && hash(KeyText(s)) == hash(RegoModelKey("global", [], []))
                ==> KeyText(s) == RegoModelKey("global", [], [])
  }

  lemma RegoDiffersForEmptyModel(hash: string -> string, q: Request) returns (h: string)
    requires q.model == [] && NewKeyApart(hash, q)
    ensures PolicyHeader(hash, Grants(q), Some([]), h) && h !in Names(HeaderOf(hash), Subjects(q))
  {
    var g := ("global", []);
    var text := RegoModelKey("global", [], []);
    h := "x-aep-limit-" + hash(text);
    assert g in Grants(q) && RegoModelKey(g.0, g.1, q.model) == text;
    forall s | s in Subjects(q)
      ensures HeaderOf(hash)(s) != h
    {
      SubjectsAreGrants(q, s);
      RegoModelKeyIsNew(s, g);
      assert SubjectHeader(hash, s)[12..] == hash(KeyText(s)) && h[12..] == hash(text);
    }
  }

  /** The rules and the Go code define the same header set exactly unless the body names an empty model. */
  lemma RegoAgreesIff(hash: string -> string, q: Request, requested: Option<Bytes>)
    requires SameModel(q, requested) && NewKeyApart(hash, q)
    ensures requested != Some([])
       <==> forall h :: PolicyHeader(hash, Grants(q), requested, h) <==> h in Names(HeaderOf(hash), Subjects(q))
  {
    if requested != Some([]) {
      forall h
        ensures PolicyHeader(hash, Grants(q), requested, h) <==> h in Names(HeaderOf(hash), Subjects(q))
      {
        RegoAgrees(hash, q, requested, h);
      }
    } else {
      var h := RegoDiffersForEmptyModel(hash, q);
    }
  }
}
