/** The level-triggered publisher of credential Secrets, under concurrent foreign writers. */
module CredentialPublisher {
  import opened Sorting
  import opened Wrappers

  const PREFIX := "aep-credential-"
  const KEY := "api-key"
  const MANAGER := "aep-credential-publisher"
  const MANAGER_LABEL := "app.kubernetes.io/managed-by"
  const DEPLOYMENT_LABEL := "credentials.aep.zhiyuan.io/deployment"
  const DEPLOYMENT_ANNOTATION := "credentials.aep.zhiyuan.io/deployment-id"
  const CREDENTIAL_ANNOTATION := "credentials.aep.zhiyuan.io/credential-id"
  const OPAQUE := "Opaque"
  const PAGE_SIZE: nat := 100

  datatype Error = ErrSource | ErrDecrypt | ErrTarget | ErrOwnership | ErrIdentity

  datatype Secret = Secret(
    uid: nat, version: nat, labels: map<string, string>, annotations: map<string, string>,
    owners: nat, finalizers: nat, deleting: bool, immutable: bool, kind: string, data: map<string, string>)

  /** The API server: every write takes the next number as its version. */
  datatype Cluster = Cluster(secrets: map<string, Secret>, next: nat)

  ghost predicate Versioned(c: Cluster) {
    forall n :: n in c.secrets ==> c.secrets[n].version < c.next
  }

  /** A write of another client: a creation, update or replacement, or a removal. */
  datatype Write = Put(name: string, secret: Secret) | Remove(name: string)

  function ApplyWrite(c: Cluster, w: Write): Cluster {
    match w
    case Put(name, secret) => Cluster(c.secrets[name := secret.(version := c.next)], c.next + 1)
    case Remove(name) => c.(secrets := c.secrets - {name})
  }

  function Apply(c: Cluster, ws: seq<Write>): Cluster
    decreases ws
  {
    if ws == [] then c else Apply(ApplyWrite(c, ws[0]), ws[1..])
  }

  /** The publisher's configuration; `open` is the authenticated decryption of an envelope for an id, and
      `admits` says which contents the API server stores, by their size. */
  datatype Config = Config(
    deployment: string, hash: string, validName: string -> bool, open: (string, string) -> Option<string>,
    admits: string -> bool)

  function Look(m: map<string, string>, k: string): string {
    if k in m then m[k] else ""
  }

  predicate Owns(p: Config, name: string, s: Secret, id: string) {
    && id != "" && name == PREFIX + id
    && Look(s.labels, MANAGER_LABEL) == MANAGER && Look(s.labels, DEPLOYMENT_LABEL) == p.hash
    && Look(s.annotations, DEPLOYMENT_ANNOTATION) == p.deployment && Look(s.annotations, CREDENTIAL_ANNOTATION) == id
    && s.owners == 0 && !s.deleting
  }

  datatype Reading = ReadFailed | Absent | Found(envelope: string)

  /** A write may be refused, or be carried out although the reply is lost. */
  datatype Fault = NoFault | Refused | ReplyLost

  /** What happens around one `syncOne`: the source's answer, foreign writes before the Get and between
      the Get and the write, and failures of the API. */
  datatype Turn = Turn(read: Reading, getFails: bool, before: seq<Write>, between: seq<Write>, fault: Fault)

  function Content(plaintext: string): map<string, string> {
    map[KEY := plaintext]
  }

  predicate Holds(s: Secret, plaintext: string) {
    s.kind == OPAQUE && s.data == Content(plaintext)
  }

  /** The API server never changes the type of a Secret, nor the data of an immutable one. */
  predicate Writable(s: Secret) {
    !s.immutable && s.kind == OPAQUE
  }

  function Fresh(p: Config, c: Cluster, id: string, plaintext: string): Secret {
    Secret(c.next, c.next, map[MANAGER_LABEL := MANAGER, DEPLOYMENT_LABEL := p.hash],
           map[DEPLOYMENT_ANNOTATION := p.deployment, CREDENTIAL_ANNOTATION := id],
           0, 0, false, false, OPAQUE, Content(plaintext))
  }

  function Commit(before: Cluster, after: Cluster, fault: Fault): (Cluster, Option<Error>) {
    match fault
    case NoFault => (after, None)
    case Refused => (before, Some(ErrTarget))
    case ReplyLost => (after, Some(ErrTarget))
  }

  predicate SameVersion(c: Cluster, name: string, seen: Secret) {
    name in c.secrets && c.secrets[name].uid == seen.uid && c.secrets[name].version == seen.version
  }

  /** A Secret with finalizers is only marked; it goes when their owners are done. */
  function DeleteSeen(c: Cluster, name: string, seen: Secret, fault: Fault): (Cluster, Option<Error>) {
    if name !in c.secrets then (c, if fault.NoFault? then None else Some(ErrTarget))
    else if !SameVersion(c, name, seen) then (c, Some(ErrTarget))
    else if seen.finalizers > 0 then
      Commit(c, Cluster(c.secrets[name := seen.(deleting := true, version := c.next)], c.next + 1), fault)
    else Commit(c, c.(secrets := c.secrets - {name}), fault)
  }

  function UpdateSeen(p: Config, c: Cluster, name: string, seen: Secret, plaintext: string, fault: Fault)
    : (Cluster, Option<Error>)
  {
    if !SameVersion(c, name, seen) || !Writable(seen) || !p.admits(plaintext) then (c, Some(ErrTarget))
    else
      var updated := seen.(kind := OPAQUE, data := Content(plaintext), version := c.next);
      Commit(c, Cluster(c.secrets[name := updated], c.next + 1), fault)
  }

  function CreateNew(p: Config, c: Cluster, id: string, plaintext: string, fault: Fault): (Cluster, Option<Error>) {
    if PREFIX + id in c.secrets || !p.admits(plaintext) then (c, Some(ErrTarget))
    else Commit(c, Cluster(c.secrets[PREFIX + id := Fresh(p, c, id, plaintext)], c.next + 1), fault)
  }

  /** The clusters at the Get and at the write of one turn. */
  function AtGet(c: Cluster, t: Turn): Cluster { Apply(c, t.before) }
  function AtWrite(c: Cluster, t: Turn): Cluster { Apply(AtGet(c, t), t.between) }

  /** The outcome of one turn, and whether it got as far as writing. */
  function TurnResult(p: Config, c: Cluster, id: string, t: Turn): (Cluster, Option<Error>) {
    var name := PREFIX + id;
    var got := AtGet(c, t);
    var now := AtWrite(c, t);
    if !p.validName(name) then (now, Some(ErrIdentity))
    else if t.read.ReadFailed? then (now, Some(ErrSource))
    else if t.getFails then (now, Some(ErrTarget))
    else if name in got.secrets && !Owns(p, name, got.secrets[name], id) then (now, Some(ErrOwnership))
    else if t.read.Absent? then
      if name !in got.secrets then (now, None) else DeleteSeen(now, name, got.secrets[name], t.fault)
    else
      var plaintext := p.open(t.read.envelope, id);
      if plaintext.None? || plaintext.value == "" then (now, Some(ErrDecrypt))
      else if name !in got.secrets then CreateNew(p, now, id, plaintext.value, t.fault)
      else if Holds(got.secrets[name], plaintext.value) then (now, None)
      else UpdateSeen(p, now, name, got.secrets[name], plaintext.value, t.fault)
  }

  // ---------------------------------------------------------------- safety under interference

  /** Versions identify objects: foreign writes can only leave an object alone or renumber it. */
  lemma {:induction false} SameVersionSameObject(c: Cluster, ws: seq<Write>, name: string)
    requires Versioned(c)
    ensures Versioned(Apply(c, ws)) && c.next <= Apply(c, ws).next
    ensures name in Apply(c, ws).secrets ==>
              || Apply(c, ws).secrets[name].version >= c.next
              || (name in c.secrets && Apply(c, ws).secrets[name] == c.secrets[name])
    decreases ws
  {
    if ws != [] {
      SameVersionSameObject(ApplyWrite(c, ws[0]), ws[1..], name);
    }
  }

  /** `after` differs from `now` at most in the object `name`. */
  ghost predicate OnlyAt(now: Cluster, after: Cluster, name: string) {
    forall n :: n != name ==>
      (n in after.secrets <==> n in now.secrets) && (n in now.secrets ==> after.secrets[n] == now.secrets[n])
  }

  predicate Changed(now: Cluster, after: Cluster, name: string) {
    name in now.secrets && (name !in after.secrets || after.secrets[name] != now.secrets[name])
  }

  /** The Secret is gone, or newly marked to go. */
  predicate Withdrawn(now: Cluster, after: Cluster, name: string) {
    name in now.secrets && (name !in after.secrets || (after.secrets[name].deleting && !now.secrets[name].deleting))
  }

  /** The three writes of the API, with any fault. */
  lemma WritesAreConditional(p: Config, now: Cluster, id: string, seen: Secret, plaintext: string, fault: Fault,
                             after: Cluster)
    requires Versioned(now)
    requires || after == DeleteSeen(now, PREFIX + id, seen, fault).0
             || after == UpdateSeen(p, now, PREFIX + id, seen, plaintext, fault).0
             || after == CreateNew(p, now, id, plaintext, fault).0
    ensures Versioned(after) && OnlyAt(now, after, PREFIX + id)
    ensures Changed(now, after, PREFIX + id) ==> SameVersion(now, PREFIX + id, seen)
  {
  }

  /** The Secret a turn read under its name. */
  function Got(c: Cluster, id: string, t: Turn): Option<Secret> {
    if PREFIX + id in AtGet(c, t).secrets then Some(AtGet(c, t).secrets[PREFIX + id]) else None
  }

  /** A turn writes nothing, or performs one conditional write on what it read and owns. */
  lemma TurnWrites(p: Config, c: Cluster, id: string, t: Turn)
    ensures var now, after, got := AtWrite(c, t), TurnResult(p, c, id, t).0, Got(c, id, t);
            || after == now
            || (got.Some? && Owns(p, PREFIX + id, got.value, id) && t.read.Absent?
                && after == DeleteSeen(now, PREFIX + id, got.value, t.fault).0)
            || (got.Some? && Owns(p, PREFIX + id, got.value, id) && t.read.Found?
                && exists plaintext :: after == UpdateSeen(p, now, PREFIX + id, got.value, plaintext, t.fault).0)
            || (got.None? && t.read.Found? && exists plaintext :: after == CreateNew(p, now, id, plaintext, t.fault).0)
  {
  }

  /**
   * Whatever other writers do around the turn, the publisher leaves every other name alone, and if it
   * changes a Secret then that is the very object version it read and found to be its own. A removal, or
   * a mark for removal, happens only when the source answered that the credential is absent.
   */
  lemma TurnTouchesOnlyOwnVersion(p: Config, c: Cluster, id: string, t: Turn)
    requires Versioned(c)
    ensures var name, now, after, got := PREFIX + id, AtWrite(c, t), TurnResult(p, c, id, t).0, Got(c, id, t);
            && Versioned(after) && OnlyAt(now, after, name)
            && (Changed(now, after, name) ==> got == Some(now.secrets[name]) && Owns(p, name, now.secrets[name], id))
            && (Withdrawn(now, after, name) ==> t.read == Absent)
  {
    var name, now, after, got := PREFIX + id, AtWrite(c, t), TurnResult(p, c, id, t).0, Got(c, id, t);
    SameVersionSameObject(c, t.before, name);
    SameVersionSameObject(AtGet(c, t), t.between, name);
    TurnWrites(p, c, id, t);
    if after != now {
      var seen := if got.Some? then got.value else Fresh(p, now, id, "");
      if plaintext :| || after == UpdateSeen(p, now, name, seen, plaintext, t.fault).0
                      || after == CreateNew(p, now, id, plaintext, t.fault).0 {
        WritesAreConditional(p, now, id, seen, plaintext, t.fault, after);
      } else {
        WritesAreConditional(p, now, id, seen, "", t.fault, after);
      }
    }
  }

  /** Whole runs of turns: the ids and everything around them are arbitrary. */
  function ClusterAt(p: Config, c: Cluster, run: seq<(string, Turn)>, n: nat): Cluster
    requires n <= |run|
    decreases n
  {
    if n == 0 then c else TurnResult(p, ClusterAt(p, c, run, n - 1), run[n - 1].0, run[n - 1].1).0
  }

  lemma {:induction false} RunVersioned(p: Config, c: Cluster, run: seq<(string, Turn)>, n: nat)
    requires Versioned(c) && n <= |run|
    ensures Versioned(ClusterAt(p, c, run, n))
  {
    if n > 0 {
      RunVersioned(p, c, run, n - 1);
      TurnTouchesOnlyOwnVersion(p, ClusterAt(p, c, run, n - 1), run[n - 1].0, run[n - 1].1);
    }
  }

  /** In every run, a Secret that is not the publisher's own at the instant of a write survives that write unchanged. */
  lemma ForeignSecretsSurvive(p: Config, c: Cluster, run: seq<(string, Turn)>, i: nat, name: string)
    requires Versioned(c) && i < |run|
    requires var now := AtWrite(ClusterAt(p, c, run, i), run[i].1);
             name in now.secrets && !Owns(p, name, now.secrets[name], run[i].0)
    ensures var now := AtWrite(ClusterAt(p, c, run, i), run[i].1);
            var after := ClusterAt(p, c, run, i + 1);
            name in after.secrets && after.secrets[name] == now.secrets[name]
  {
    RunVersioned(p, c, run, i);
    TurnTouchesOnlyOwnVersion(p, ClusterAt(p, c, run, i), run[i].0, run[i].1);
  }

  // ---------------------------------------------------------------- the source

  /** The eligible credentials in id order. */
  datatype Source = Source(ids: seq<string>, envelopes: map<string, string>)

  ghost predicate ValidSource(s: Source) {
    && StrictlySorted(s.ids, StringKey) && (forall i :: 0 <= i < |s.ids| ==> s.ids[i] != "" && s.ids[i] in s.envelopes)
    && (forall id :: id in s.envelopes ==> id in s.ids)
  }

  function AfterCursor(ids: seq<string>, cursor: string): seq<string> {
    if ids == [] then [] else (if Less(cursor, ids[0]) then [ids[0]] else []) + AfterCursor(ids[1..], cursor)
  }

  /** One keyset page: the first `limit` ids above the cursor, in order. */
  function Page(s: Source, cursor: string, limit: nat): seq<string> {
    var rest := AfterCursor(s.ids, cursor);
    if |rest| <= limit then rest else rest[..limit]
  }

  function Read(s: Source, id: string): Reading {
    if id in s.envelopes then Found(s.envelopes[id]) else Absent
  }

  lemma {:induction false} AllAfter(ids: seq<string>, cursor: string)
    requires forall i :: 0 <= i < |ids| ==> Less(cursor, ids[i])
    ensures AfterCursor(ids, cursor) == ids
  {
    if ids != [] {
      AllAfter(ids[1..], cursor);
    }
  }

  lemma {:induction false} AfterPosition(ids: seq<string>, pos: nat)
    requires StrictlySorted(ids, StringKey) && pos <= |ids| && forall i :: 0 <= i < |ids| ==> ids[i] != ""
    ensures AfterCursor(ids, if pos == 0 then "" else ids[pos - 1]) == ids[pos..]
    decreases |ids|
  {
    var cursor := if pos == 0 then "" else ids[pos - 1];
    if pos == 0 {
      AllAfter(ids, "");
    } else {
      LessTotal(ids[0], cursor);
      assert pos > 1 ==> Below(StringKey(ids[0]), StringKey(cursor));
      assert !Less(cursor, ids[0]);
      if pos == 1 {
        assert forall i :: 0 < i < |ids| ==> Below(StringKey(ids[0]), StringKey(ids[i]));
        AllAfter(ids[1..], cursor);
      } else {
        AfterPosition(ids[1..], pos - 1);
        assert ids[1..][pos - 1..] == ids[pos..];
      }
    }
  }

  // ---------------------------------------------------------------- a pass over a stable source and cluster

  function Plain(p: Config, s: Source, id: string): string {
    if id in s.envelopes && p.open(s.envelopes[id], id).Some? then p.open(s.envelopes[id], id).value else ""
  }

  /** The Secret of an eligible credential has the right owner, type and plaintext. */
  ghost predicate Delivered(p: Config, s: Source, c: Cluster, id: string) {
    && Plain(p, s, id) != "" && PREFIX + id in c.secrets
    && Owns(p, PREFIX + id, c.secrets[PREFIX + id], id) && Holds(c.secrets[PREFIX + id], Plain(p, s, id))
    && p.validName(PREFIX + id)
  }

  /** What the inventory list selects. */
  predicate Labelled(p: Config, s: Secret) {
    Look(s.labels, MANAGER_LABEL) == MANAGER && Look(s.labels, DEPLOYMENT_LABEL) == p.hash
  }

  function Listing(p: Config, c: Cluster): set<string> {
    set n | n in c.secrets && Labelled(p, c.secrets[n])
  }

  /** The labelled Secrets that are not on their way out. */
  function Inventory(p: Config, c: Cluster): set<string> {
    set n | n in c.secrets && Labelled(p, c.secrets[n]) && !c.secrets[n].deleting
  }

  function Names(ids: seq<string>): set<string> {
    set id | id in ids :: PREFIX + id
  }

  function Ids(ids: seq<string>): set<string> {
    set id | id in ids
  }

  /** The eligible credentials whose Secrets are right. */
  ghost function Settled(p: Config, s: Source, c: Cluster): set<string> {
    set id | id in s.ids && Delivered(p, s, c, id)
  }

  /** The labelled inventory is exactly the eligible credentials, each delivered. */
  ghost predicate Converged(p: Config, s: Source, c: Cluster) {
    Settled(p, s, c) == Ids(s.ids) && Inventory(p, c) == Names(s.ids)
  }

  /** Without foreign writes the turn only meets failures of the source and of the API. */
  predicate Quiet(s: Source, id: string, t: Turn) {
    t.before == [] && t.between == [] && (t.read.ReadFailed? || t.read == Read(s, id))
  }

  lemma PrefixInjective(a: string, b: string)
    requires PREFIX + a == PREFIX + b
    ensures a == b
  {
    assert a == (PREFIX + a)[|PREFIX|..] && b == (PREFIX + b)[|PREFIX|..];
  }

  /** One quiet turn changes only its own name. */
  lemma QuietTurnIsLocal(p: Config, s: Source, c: Cluster, id: string, t: Turn)
    requires Versioned(c) && Quiet(s, id, t)
    ensures Versioned(TurnResult(p, c, id, t).0) && OnlyAt(c, TurnResult(p, c, id, t).0, PREFIX + id)
  {
    assert AtWrite(c, t) == c;
    TurnTouchesOnlyOwnVersion(p, c, id, t);
  }

  /** A successful quiet turn settles its credential. */
  lemma QuietTurnSettles(p: Config, s: Source, c: Cluster, id: string, t: Turn)
    requires ValidSource(s) && Quiet(s, id, t) && TurnResult(p, c, id, t).1.None?
    ensures id in s.envelopes ==> Delivered(p, s, TurnResult(p, c, id, t).0, id)
    ensures id !in s.envelopes ==>
              var after := TurnResult(p, c, id, t).0;
              PREFIX + id in after.secrets ==> after.secrets[PREFIX + id].deleting
  {
    assert AtGet(c, t) == c && AtWrite(c, t) == c;
  }

  /** A settled credential is not written, whatever fails. */
  lemma QuietTurnIdles(p: Config, s: Source, c: Cluster, id: string, t: Turn)
    requires Quiet(s, id, t) && id in s.envelopes && Delivered(p, s, c, id)
    ensures TurnResult(p, c, id, t).0 == c
  {
    assert AtGet(c, t) == c && AtWrite(c, t) == c;
  }

  /** A quiet turn never undoes a delivery, and moves the inventory only at its own name. */
  lemma QuietTurnKeeps(p: Config, s: Source, c: Cluster, id: string, t: Turn)
    requires ValidSource(s) && Versioned(c) && Quiet(s, id, t)
    ensures var (after, err) := TurnResult(p, c, id, t);
            && Settled(p, s, c) <= Settled(p, s, after)
            && Inventory(p, after) <= Inventory(p, c) + {PREFIX + id}
            && (err.None? && id !in s.envelopes ==> Inventory(p, after) <= Inventory(p, c) - {PREFIX + id})
  {
    var (after, err) := TurnResult(p, c, id, t);
    QuietTurnIsLocal(p, s, c, id, t);
    if err.None? {
      QuietTurnSettles(p, s, c, id, t);
    }
    forall other | other in s.ids && Delivered(p, s, c, other)
      ensures Delivered(p, s, after, other)
    {
      if other == id {
        QuietTurnIdles(p, s, c, id, t);
      } else if PREFIX + other == PREFIX + id {
        PrefixInjective(other, id);
      }
    }
  }

  // ---------------------------------------------------------------- when a pass succeeds

  /** The turn meets no failure of the source or of the API. */
  predicate Calm(t: Turn) {
    !t.read.ReadFailed? && !t.getFails && t.fault.NoFault?
  }

  /** Nothing about the credential or its name makes a calm turn fail. */
  ghost predicate ItemOk(p: Config, s: Source, c: Cluster, id: string) {
    && p.validName(PREFIX + id)
    && (PREFIX + id in c.secrets ==> Owns(p, PREFIX + id, c.secrets[PREFIX + id], id))
    && (id in s.envelopes ==> Plain(p, s, id) != "" && Storable(p, c, PREFIX + id, Plain(p, s, id)))
  }

  /** The Secret holds the plaintext, or the API server will write it. */
  predicate Storable(p: Config, c: Cluster, name: string, plaintext: string) {
    || (name in c.secrets && Holds(c.secrets[name], plaintext))
    || (p.admits(plaintext) && (name in c.secrets ==> Writable(c.secrets[name])))
  }

  /** Nothing about a labelled Secret makes its visit fail. */
  ghost predicate ListedOk(p: Config, s: Source, c: Cluster, name: string)
    requires name in c.secrets
  {
    var id := Look(c.secrets[name].annotations, CREDENTIAL_ANNOTATION);
    Owns(p, name, c.secrets[name], id) && ItemOk(p, s, c, id)
  }

  /**
   * Every eligible credential has a valid name and an envelope that opens to nonempty text, which its
   * Secret holds or the API server will write to it, and every eligible or labelled name that is taken is
   * taken by the publisher's own Secret.
   */
  ghost predicate Deliverable(p: Config, s: Source, c: Cluster) {
    && (forall id :: id in s.ids ==> ItemOk(p, s, c, id))
    && (forall name :: name in Listing(p, c) ==> ListedOk(p, s, c, name))
  }

  /** A calm quiet turn fails exactly for a bad item. */
  lemma CalmTurnSucceedsIff(p: Config, s: Source, c: Cluster, id: string, t: Turn)
    requires Versioned(c) && Quiet(s, id, t) && Calm(t)
    ensures TurnResult(p, c, id, t).1.None? <==> ItemOk(p, s, c, id)
  {
    assert AtGet(c, t) == c && AtWrite(c, t) == c;
  }

  lemma ElsewhereKeepsItem(p: Config, s: Source, a: Cluster, b: Cluster, name: string, other: string)
    requires OnlyAt(a, b, name) && PREFIX + other != name
    ensures ItemOk(p, s, b, other) <==> ItemOk(p, s, a, other)
  {
  }

  /** The turn of an eligible credential leaves it as good or bad as it was. */
  lemma OwnTurnKeepsItem(p: Config, s: Source, c: Cluster, id: string, t: Turn)
    requires Versioned(c) && Quiet(s, id, t) && id != "" && id in s.envelopes
    ensures ItemOk(p, s, TurnResult(p, c, id, t).0, id) <==> ItemOk(p, s, c, id)
  {
    assert AtGet(c, t) == c && AtWrite(c, t) == c;
  }

  /** No quiet turn makes an item good or bad, but a withdrawal may leave its own name taken for a while. */
  lemma QuietTurnKeepsItems(p: Config, s: Source, c: Cluster, id: string, t: Turn, other: string)
    requires Versioned(c) && Quiet(s, id, t) && id != "" && (other != id || id in s.envelopes)
    ensures ItemOk(p, s, TurnResult(p, c, id, t).0, other) <==> ItemOk(p, s, c, other)
  {
    if other == id {
      OwnTurnKeepsItem(p, s, c, id, t);
    } else {
      if PREFIX + other == PREFIX + id {
        PrefixInjective(other, id);
      }
      QuietTurnIsLocal(p, s, c, id, t);
      ElsewhereKeepsItem(p, s, c, TurnResult(p, c, id, t).0, PREFIX + id, other);
    }
  }

  /** The same items are good in both clusters, besides those of the given names. */
  ghost predicate SameItems(p: Config, s: Source, a: Cluster, b: Cluster, besides: set<string>) {
    forall id :: PREFIX + id !in besides ==> (ItemOk(p, s, a, id) <==> ItemOk(p, s, b, id))
  }

  /** The name whose item a turn may spoil: a withdrawn one. */
  function Spoiled(s: Source, id: string): set<string> {
    if id in s.ids then {} else {PREFIX + id}
  }

  /** What a turn for an eligible credential writes is the publisher's own Secret, before and after. */
  lemma OwnWriteStaysOwned(p: Config, s: Source, c: Cluster, id: string, t: Turn)
    requires ValidSource(s) && Versioned(c) && Quiet(s, id, t) && id in s.ids
    ensures var name, after := PREFIX + id, TurnResult(p, c, id, t).0;
            || after == c
            || (&& name in after.secrets && Owns(p, name, after.secrets[name], id)
                && (name in c.secrets ==> Owns(p, name, c.secrets[name], id)))
  {
    var name, after := PREFIX + id, TurnResult(p, c, id, t).0;
    assert AtGet(c, t) == c && AtWrite(c, t) == c;
    TurnWrites(p, c, id, t);
    if after != c {
      if name in c.secrets {
        var plaintext :| after == UpdateSeen(p, c, name, c.secrets[name], plaintext, t.fault).0;
        UpdateKeepsOwner(p, c, id, plaintext, t.fault);
      } else {
        var plaintext :| after == CreateNew(p, c, id, plaintext, t.fault).0;
        CreateIsOwned(p, c, id, plaintext, t.fault);
      }
    }
  }

  lemma UpdateKeepsOwner(p: Config, c: Cluster, id: string, plaintext: string, fault: Fault)
    requires PREFIX + id in c.secrets && Owns(p, PREFIX + id, c.secrets[PREFIX + id], id)
    ensures var name, after := PREFIX + id, UpdateSeen(p, c, PREFIX + id, c.secrets[PREFIX + id], plaintext, fault).0;
            name in after.secrets && Owns(p, name, after.secrets[name], id)
  {
  }

  lemma CreateIsOwned(p: Config, c: Cluster, id: string, plaintext: string, fault: Fault)
    requires id != "" && PREFIX + id !in c.secrets
    ensures var name, after := PREFIX + id, CreateNew(p, c, id, plaintext, fault).0;
            after == c || (name in after.secrets && Owns(p, name, after.secrets[name], id))
  {
  }

  /** No quiet turn for an eligible credential makes the whole deliverable or undeliverable. */
  lemma QuietTurnKeepsDeliverable(p: Config, s: Source, c: Cluster, id: string, t: Turn)
    requires ValidSource(s) && Versioned(c) && Quiet(s, id, t) && id in s.ids
    requires SameItems(p, s, TurnResult(p, c, id, t).0, c, {})
    ensures Deliverable(p, s, TurnResult(p, c, id, t).0) <==> Deliverable(p, s, c)
  {
    var after := TurnResult(p, c, id, t).0;
    QuietTurnIsLocal(p, s, c, id, t);
    OwnWriteStaysOwned(p, s, c, id, t);
    if Deliverable(p, s, c) {
      forall name | name in Listing(p, after)
        ensures ListedOk(p, s, after, name)
      {
        assert name != PREFIX + id ==> name in Listing(p, c);
      }
    }
    if Deliverable(p, s, after) {
      forall name | name in Listing(p, c)
        ensures ListedOk(p, s, c, name)
      {
        assert name != PREFIX + id ==> name in Listing(p, after);
      }
    }
  }

  /** What a quiet turn means for the good and bad items. */
  lemma QuietTurnItems(p: Config, s: Source, c: Cluster, id: string, t: Turn)
    requires ValidSource(s) && Versioned(c) && Quiet(s, id, t) && id != ""
    ensures Calm(t) ==> (TurnResult(p, c, id, t).1.None? <==> ItemOk(p, s, c, id))
    ensures SameItems(p, s, TurnResult(p, c, id, t).0, c, Spoiled(s, id))
    ensures id in s.ids ==> (Deliverable(p, s, TurnResult(p, c, id, t).0) <==> Deliverable(p, s, c))
  {
    if Calm(t) {
      CalmTurnSucceedsIff(p, s, c, id, t);
    }
    forall other | PREFIX + other !in Spoiled(s, id)
      ensures ItemOk(p, s, TurnResult(p, c, id, t).0, other) <==> ItemOk(p, s, c, other)
    {
      QuietTurnKeepsItems(p, s, c, id, t, other);
    }
    if id in s.ids {
      QuietTurnKeepsDeliverable(p, s, c, id, t);
    }
  }

  // ---------------------------------------------------------------- the same in the fields of the Secrets

  /** The labels by which the inventory finds a Secret. */
  ghost predicate Marked(p: Config, s: Secret) {
    && "app.kubernetes.io/managed-by" in s.labels
    && s.labels["app.kubernetes.io/managed-by"] == "aep-credential-publisher"
    && (if "credentials.aep.zhiyuan.io/deployment" in s.labels
        then s.labels["credentials.aep.zhiyuan.io/deployment"] == p.hash else p.hash == "")
  }

  /** Labels and annotations name the publisher, the deployment and the credential, no other object owns the
      Secret, and it is not on its way out. */
  ghost predicate Claimed(p: Config, s: Secret, id: string) {
    && Marked(p, s)
    && (if "credentials.aep.zhiyuan.io/deployment-id" in s.annotations
        then s.annotations["credentials.aep.zhiyuan.io/deployment-id"] == p.deployment else p.deployment == "")
    && "credentials.aep.zhiyuan.io/credential-id" in s.annotations
    && s.annotations["credentials.aep.zhiyuan.io/credential-id"] == id && id != ""
    && s.owners == 0 && !s.deleting
  }

  /** Every eligible credential has an Opaque Secret of the publisher with the text of its envelope under
      "api-key" and nothing else in it, and what is marked and not on its way out is such a Secret. */
  ghost predicate Serves(p: Config, s: Source, c: Cluster)
    requires ValidSource(s)
  {
    && (forall id :: id in s.ids ==>
          var name, text := "aep-credential-" + id, p.open(s.envelopes[id], id);
          && text.Some? && text.value != "" && name in c.secrets && Claimed(p, c.secrets[name], id)
          && c.secrets[name].kind == "Opaque" && c.secrets[name].data == map["api-key" := text.value])
    && (forall name :: name in c.secrets && Marked(p, c.secrets[name]) ==>
          c.secrets[name].deleting || exists id :: id in s.ids && name == "aep-credential-" + id)
  }

  lemma ConvergedServes(p: Config, s: Source, c: Cluster)
    requires ValidSource(s) && Converged(p, s, c)
    ensures Serves(p, s, c)
  {
    forall id | id in s.ids
      ensures Delivered(p, s, c, id) && id in s.envelopes
    {
      assert id in Settled(p, s, c);
    }
    forall name | name in c.secrets && Marked(p, c.secrets[name]) && !c.secrets[name].deleting
      ensures exists id :: id in s.ids && name == "aep-credential-" + id
    {
      assert name in Names(s.ids);
    }
  }

  /**
   * The rotation law, after any foreign writes: a turn that succeeds for a credential whose envelope opens to
   * a text leaves exactly that text in its Secret. An existing Secret keeps everything else, and its version
   * moves exactly if it held something else.
   */
  lemma RotationReaches(p: Config, c: Cluster, id: string, t: Turn)
    requires id != "" && t.read.Found? && t.between == [] && TurnResult(p, c, id, t).1.None?
    ensures var name, text := "aep-credential-" + id, p.open(t.read.envelope, id);
            var got, after := Apply(c, t.before), TurnResult(p, c, id, t).0;
            && text.Some? && text.value != "" && name in after.secrets && Claimed(p, after.secrets[name], id)
            && after.secrets[name].kind == "Opaque" && after.secrets[name].data == map["api-key" := text.value]
            && (name in got.secrets ==>
                  && after.secrets[name] == got.secrets[name].(data := map["api-key" := text.value],
                                                               version := after.secrets[name].version)
                  && after.secrets[name].version
                     == (if got.secrets[name].data == map["api-key" := text.value]
                         then got.secrets[name].version else got.next))
            && (name !in got.secrets ==> after.secrets[name].finalizers == 0 && !after.secrets[name].immutable)
  {
    assert AtWrite(c, t) == AtGet(c, t) == Apply(c, t.before);
  }

  /** The withdrawal law: the Secret of an absent credential is gone, or marked until its finalizers are done. */
  lemma WithdrawalReaches(p: Config, c: Cluster, id: string, t: Turn)
    requires t.read.Absent? && t.between == [] && TurnResult(p, c, id, t).1.None?
    ensures var name, got, after := "aep-credential-" + id, Apply(c, t.before), TurnResult(p, c, id, t).0;
            && (name in got.secrets ==> Claimed(p, got.secrets[name], id))
            && (name in after.secrets ==>
                  && name in got.secrets && got.secrets[name].finalizers > 0
                  && after.secrets[name] == got.secrets[name].(deleting := true, version := got.next))
  {
    assert AtWrite(c, t) == AtGet(c, t) == Apply(c, t.before);
  }

  /** In every run a Secret that is not claimed for the credential of the turn survives it unchanged. */
  lemma UnclaimedSecretSurvives(p: Config, c: Cluster, run: seq<(string, Turn)>, i: nat, name: string)
    requires Versioned(c) && i < |run| && name in AtWrite(ClusterAt(p, c, run, i), run[i].1).secrets
    requires var secret := AtWrite(ClusterAt(p, c, run, i), run[i].1).secrets[name];
             name != "aep-credential-" + run[i].0 || !Claimed(p, secret, run[i].0)
    ensures var now, after := AtWrite(ClusterAt(p, c, run, i), run[i].1), ClusterAt(p, c, run, i + 1);
            name in after.secrets && after.secrets[name] == now.secrets[name]
  {
    ForeignSecretsSurvive(p, c, run, i, name);
  }

  /** When a calm turn on its own succeeds, in the fields of what it finds. */
  lemma CalmTurnOnFields(p: Config, c: Cluster, id: string, t: Turn)
    requires Versioned(c) && Calm(t) && t.between == []
    ensures var name, got := "aep-credential-" + id, Apply(c, t.before);
            TurnResult(p, c, id, t).1.None? <==>
              && p.validName(name)
              && (name in got.secrets ==> Claimed(p, got.secrets[name], id))
              && (t.read.Found? ==>
                    var text := p.open(t.read.envelope, id);
                    text.Some? && text.value != "" && Servable(p, got, name, text.value))
  {
    assert AtWrite(c, t) == AtGet(c, t) == Apply(c, t.before);
  }

  /** The API server holds the text under the key of the Secret, or will write it there. */
  ghost predicate Servable(p: Config, c: Cluster, name: string, text: string) {
    if name in c.secrets && (c.secrets[name].immutable || c.secrets[name].kind != "Opaque")
    then c.secrets[name].kind == "Opaque" && c.secrets[name].data == map["api-key" := text]
    else p.admits(text) || (name in c.secrets && c.secrets[name].data == map["api-key" := text])
  }

  lemma ItemOnFields(p: Config, s: Source, c: Cluster, id: string)
    requires id != ""
    ensures ItemOk(p, s, c, id) <==>
              && p.validName("aep-credential-" + id)
              && ("aep-credential-" + id in c.secrets ==> Claimed(p, c.secrets["aep-credential-" + id], id))
              && (id in s.envelopes ==>
                    var text := p.open(s.envelopes[id], id);
                    text.Some? && text.value != "" && Servable(p, c, "aep-credential-" + id, text.value))
  {
  }

  lemma ListedOnFields(p: Config, s: Source, c: Cluster, name: string)
    requires name in Listing(p, c)
    ensures ListedOk(p, s, c, name) <==>
              exists id :: name == "aep-credential-" + id && Claimed(p, c.secrets[name], id) && ItemOk(p, s, c, id)
  {
    forall id | name == "aep-credential-" + id && Claimed(p, c.secrets[name], id)
      ensures id == Look(c.secrets[name].annotations, CREDENTIAL_ANNOTATION)
    {
    }
  }

  /** When everything can be delivered, in the fields of the cluster. */
  lemma DeliverableOnFields(p: Config, s: Source, c: Cluster)
    requires ValidSource(s)
    ensures Deliverable(p, s, c) <==>
              && (forall id :: id in s.ids ==>
                    var name, text := "aep-credential-" + id, p.open(s.envelopes[id], id);
                    && p.validName(name) && text.Some? && text.value != "" && Servable(p, c, name, text.value)
                    && (name in c.secrets ==> Claimed(p, c.secrets[name], id)))
              && (forall name :: name in c.secrets && Marked(p, c.secrets[name]) ==>
                    p.validName(name) && exists id :: name == "aep-credential-" + id && Claimed(p, c.secrets[name], id))
  {
    assert forall name :: name in Listing(p, c) <==> name in c.secrets && Marked(p, c.secrets[name]);
    forall id | id in s.ids
      ensures id in s.envelopes && id != ""
    {
    }
    forall id: string | id != ""
      ensures ItemOk(p, s, c, id) <==>
                && p.validName("aep-credential-" + id)
                && ("aep-credential-" + id in c.secrets ==> Claimed(p, c.secrets["aep-credential-" + id], id))
                && (id in s.envelopes ==>
                      var text := p.open(s.envelopes[id], id);
                      text.Some? && text.value != "" && Servable(p, c, "aep-credential-" + id, text.value))
    {
      ItemOnFields(p, s, c, id);
    }
    forall name | name in Listing(p, c)
      ensures ListedOk(p, s, c, name) <==>
                exists id :: name == "aep-credential-" + id && Claimed(p, c.secrets[name], id) && ItemOk(p, s, c, id)
    {
      ListedOnFields(p, s, c, name);
    }
  }

  class Publisher {
    const p: Config
    var cluster: Cluster
    var ready: bool
    /** The source or the API has failed. */
    ghost var faulted: bool

    constructor (p: Config, cluster: Cluster)
      ensures this.p == p && this.cluster == cluster && !ready && !faulted
    {
      this.p, this.cluster, ready, faulted := p, cluster, false, false;
    }

    /** One `syncOne`; the foreign writes of the turn land around the Get. */
    method SyncOne(id: string, t: Turn) returns (err: Option<Error>)
      modifies this`cluster
      ensures (cluster, err) == TurnResult(p, old(cluster), id, t)
    {
      var name := PREFIX + id;
      cluster := Apply(cluster, t.before);
      var present := name in cluster.secrets;
      var current := if present then Some(cluster.secrets[name]) else None;
      cluster := Apply(cluster, t.between);
      if !p.validName(name) {
        return Some(ErrIdentity);
      }
      if t.read.ReadFailed? {
        return Some(ErrSource);
      }
      if t.getFails {
        return Some(ErrTarget);
      }
      if present && !Owns(p, name, current.value, id) {
        return Some(ErrOwnership);
      }
      if t.read.Absent? {
        if !present {
          return None;
        }
        var deleted := DeleteSeen(cluster, name, current.value, t.fault);
        cluster := deleted.0;
        return deleted.1;
      }
      var plaintext := p.open(t.read.envelope, id);
      if plaintext.None? || plaintext.value == "" {
        return Some(ErrDecrypt);
      }
      if !present {
        var created := CreateNew(p, cluster, id, plaintext.value, t.fault);
        cluster, err := created.0, created.1;
      } else if !Holds(current.value, plaintext.value) {
        var updated := UpdateSeen(p, cluster, name, current.value, plaintext.value, t.fault);
        cluster, err := updated.0, updated.1;
      } else {
        err := None;
      }
    }

    /** One turn without foreign writes; the source may fail and the API may fail in any way. */
    method QuietSync(s: Source, id: string) returns (err: Option<Error>)
      requires ValidSource(s) && Versioned(cluster) && id != ""
      modifies this
      ensures Versioned(cluster) && ready == (old(ready) && err.None?)
      ensures old(Settled(p, s, cluster)) <= Settled(p, s, cluster)
      ensures err.None? && id in s.ids ==> id in Settled(p, s, cluster)
      ensures id in old(Settled(p, s, cluster)) ==> cluster == old(cluster)
      ensures Inventory(p, cluster) <= old(Inventory(p, cluster)) + {PREFIX + id}
      ensures err.None? && id !in s.ids ==> Inventory(p, cluster) <= old(Inventory(p, cluster)) - {PREFIX + id}
      ensures (old(faulted) ==> faulted) && (!faulted ==> (err.None? <==> ItemOk(p, s, old(cluster), id)))
      ensures SameItems(p, s, cluster, old(cluster), Spoiled(s, id))
      ensures id in s.ids ==> (Deliverable(p, s, cluster) <==> Deliverable(p, s, old(cluster)))
    {
      assert Quiet(s, id, Turn(ReadFailed, false, [], [], NoFault));
      var t: Turn :| Quiet(s, id, t);
      QuietTurnIsLocal(p, s, cluster, id, t);
      QuietTurnKeeps(p, s, cluster, id, t);
      if TurnResult(p, cluster, id, t).1.None? {
        QuietTurnSettles(p, s, cluster, id, t);
      }
      if id in Settled(p, s, cluster) {
        QuietTurnIdles(p, s, cluster, id, t);
      }
      QuietTurnItems(p, s, cluster, id, t);
      err := SyncOne(id, t);
      faulted := faulted || !Calm(t);
      if err.Some? {
        ready := false;
      }
    }

    /** The visited ids are delivered unless they failed, and nothing delivered was undone. */
    ghost predicate Progressed(s: Source, before: Cluster, visited: seq<string>, failed: set<string>)
      reads this
    {
      && Versioned(cluster) && Ids(visited) - failed <= Settled(p, s, cluster)
      && Settled(p, s, before) <= Settled(p, s, cluster)
      && (Settled(p, s, before) == Ids(s.ids) ==> cluster == before)
    }

    /** The visits made no item good or bad; without a fault they all succeeded exactly if all items are good. */
    ghost predicate Judged(s: Source, before: Cluster, faultedBefore: bool, visited: seq<string>, clean: bool)
      reads this
    {
      && SameItems(p, s, cluster, before, {}) && (Deliverable(p, s, cluster) <==> Deliverable(p, s, before))
      && (faultedBefore ==> faulted)
      && (!faulted ==> (clean <==> forall id :: id in visited ==> ItemOk(p, s, before, id)))
    }

    /** One eligible id; `done` and `bad` are the ids visited and failed so far. */
    method SyncItem(
        s: Source, id: string, ghost before: Cluster, ghost faultedBefore: bool, ghost done: seq<string>,
        ghost bad: set<string>, ghost clean: bool)
      returns (err: Option<Error>, ghost failed: set<string>)
      requires ValidSource(s) && id in s.ids
      requires Progressed(s, before, done, bad) && Judged(s, before, faultedBefore, done, clean)
      modifies this
      ensures ready == (old(ready) && err.None?) && failed == bad + (if err.Some? then {id} else {})
      ensures Progressed(s, before, done + [id], failed)
      ensures Judged(s, before, faultedBefore, done + [id], clean && err.None?)
    {
      assert id in Ids(s.ids);
      IdsOfConcat(done, [id]);
      err := QuietSync(s, id);
      failed := bad + if err.Some? then {id} else {};
    }

    /** The items of one page, in order; an item that fails does not stop the others. */
    method SyncPage(s: Source, ids: seq<string>, start: string)
      returns (result: Option<Error>, disordered: bool, cursor: string, ghost failed: set<string>)
      requires ValidSource(s) && Versioned(cluster) && Ids(ids) <= Ids(s.ids)
      modifies this
      ensures Versioned(cluster) && ready == (old(ready) && result.None?) && (result.None? ==> failed == {})
      ensures (Ascending(start, ids) ==> !disordered) && (disordered ==> result == Some(ErrIdentity))
      ensures !disordered ==> cursor == Last(start, ids)
      ensures !disordered ==>
                Progressed(s, old(cluster), ids, failed) && Judged(s, old(cluster), old(faulted), ids, result.None?)
    {
      result, disordered, cursor, failed := None, false, start, {};
      for i := 0 to |ids|
        invariant cursor == Last(start, ids[..i]) && ready == (old(ready) && result.None?)
        invariant result.None? ==> failed == {}
        invariant Progressed(s, old(cluster), ids[..i], failed)
        invariant Judged(s, old(cluster), old(faulted), ids[..i], result.None?)
      {
        assert ids[..i + 1] == ids[..i] + [ids[i]] && ids[i] in Ids(ids);
        if !Less(cursor, ids[i]) {
          ready := false;
          return Some(ErrIdentity), true, cursor, failed;
        }
        cursor := ids[i];
        var err;
        err, failed := SyncItem(s, cursor, old(cluster), old(faulted), ids[..i], failed, result.None?);
        result := if err.Some? then err else result;
      }
      assert ids[..|ids|] == ids;
    }

    /** The page after the visited ids. */
    method SyncNextPage(
        s: Source, cursor: string, ghost before: Cluster, ghost faultedBefore: bool, ghost visited: seq<string>,
        ghost bad: set<string>, ghost clean: bool)
      returns (err: Option<Error>, last: string, full: bool, ghost done: seq<string>, ghost failed: set<string>)
      requires ValidSource(s) && visited <= s.ids && cursor == Last("", visited)
      requires Progressed(s, before, visited, bad) && Judged(s, before, faultedBefore, visited, clean)
      modifies this
      ensures visited <= done <= s.ids && last == Last("", done) && (full ==> |visited| < |done|)
      ensures !full ==> done == s.ids
      ensures Progressed(s, before, done, failed) && Judged(s, before, faultedBefore, done, clean && err.None?)
      ensures ready == (old(ready) && err.None?) && (bad == {} && err.None? ==> failed == {})
    {
      var ids := Page(s, cursor, PAGE_SIZE);
      PageFollows(s, visited, PAGE_SIZE);
      PageAscends(s, visited, PAGE_SIZE);
      ghost var disordered: bool;
      ghost var pageFailed: set<string>;
      err, disordered, last, pageFailed := SyncPage(s, ids, cursor);
      done, failed, full := visited + ids, bad + pageFailed, |ids| >= PAGE_SIZE;
      JudgedOn(s, before, old(cluster), visited, ids, clean, err.None?);
    }

    /** The paged walk over the eligible ids: each is visited once, in increasing order. */
    method SyncEligible(s: Source)
      returns (result: Option<Error>, aborted: bool, ghost visited: seq<string>, ghost failed: set<string>)
      requires ValidSource(s) && Versioned(cluster)
      modifies this
      ensures visited <= s.ids && (!aborted ==> visited == s.ids) && (aborted ==> result.Some?)
      ensures ready == (old(ready) && result.None?) && (result.None? ==> failed == {})
      ensures Progressed(s, old(cluster), visited, failed)
      ensures !faulted ==> !aborted && Judged(s, old(cluster), old(faulted), s.ids, result.None?)
      ensures old(faulted) ==> faulted
    {
      result, aborted, visited, failed := None, false, [], {};
      var cursor := "";
      var more := true;
      while more
        invariant visited <= s.ids && cursor == Last("", visited)
        invariant ready == (old(ready) && result.None?) && (result.None? ==> failed == {})
        invariant Progressed(s, old(cluster), visited, failed)
        invariant Judged(s, old(cluster), old(faulted), visited, result.None?)
        invariant !more ==> visited == s.ids
        decreases |s.ids| - |visited|, more
      {
        var idsFail: bool := *;
        if idsFail {
          ready, faulted := false, true;
          return Some(ErrSource), true, visited, failed;
        }
        var err;
        err, cursor, more, visited, failed :=
          SyncNextPage(s, cursor, old(cluster), old(faulted), visited, failed, result.None?);
        result := if err.Some? then err else result;
      }
    }

    /** The judgements of two stretches of visits add up. */
    lemma JudgedOn(s: Source, before: Cluster, middle: Cluster, done: seq<string>, ids: seq<string>, clean: bool,
                   cleanNow: bool)
      requires SameItems(p, s, middle, before, {}) && SameItems(p, s, cluster, middle, {})
      ensures SameItems(p, s, cluster, before, {})
      ensures (clean <==> forall id :: id in done ==> ItemOk(p, s, before, id))
              && (cleanNow <==> forall id :: id in ids ==> ItemOk(p, s, middle, id))
              ==> (clean && cleanNow <==> forall id :: id in done + ids ==> ItemOk(p, s, before, id))
    {
    }

    /** One listed Secret, re-read rather than trusted. */
    method SyncListed(s: Source, name: string, item: Secret) returns (err: Option<Error>)
      requires ValidSource(s) && Versioned(cluster)
      modifies this
      ensures Versioned(cluster) && ready == (old(ready) && err.None?)
      ensures old(Settled(p, s, cluster)) <= Settled(p, s, cluster)
      ensures SameItems(p, s, cluster, old(cluster), {name})
      ensures Inventory(p, cluster) <= old(Inventory(p, cluster)) + {name}
      ensures err.None? ==> Inventory(p, cluster) <= old(Inventory(p, cluster)) - {name} + Names(s.ids)
      ensures var id := Look(item.annotations, CREDENTIAL_ANNOTATION);
              && ((Owns(p, name, item, id) ==> id in old(Settled(p, s, cluster))) ==> cluster == old(cluster))
              && (!faulted ==> (err.None? <==> Owns(p, name, item, id) && ItemOk(p, s, old(cluster), id)))
      ensures old(faulted) ==> faulted
    {
      var id := Look(item.annotations, CREDENTIAL_ANNOTATION);
      if !Owns(p, name, item, id) {
        ready := false;
        return Some(ErrOwnership);
      }
      assert id in s.ids ==> name in Names(s.ids);
      err := QuietSync(s, id);
    }

    /** The walk has `todo` left of the inventory it started from; `stuck` are the names that failed. */
    ghost predicate Swept(s: Source, before: Cluster, todo: set<string>, stuck: set<string>, clean: bool)
      requires todo <= Listing(p, before)
      reads this
    {
      && Versioned(cluster) && SameItems(p, s, cluster, before, Listing(p, before) - todo)
      && Settled(p, s, before) <= Settled(p, s, cluster)
      && Inventory(p, cluster) <= Names(s.ids) + todo + stuck
      && (Converged(p, s, before) ==> cluster == before)
      && (!faulted ==> (clean <==> AllListedOk(p, s, before, Listing(p, before) - todo)))
    }

    method SweepOne(
        s: Source, name: string, item: Secret, ghost before: Cluster, ghost todo: set<string>, ghost bad: set<string>,
        ghost clean: bool)
      returns (err: Option<Error>, ghost stuck: set<string>)
      requires ValidSource(s) && name in todo && todo <= Listing(p, before) && item == before.secrets[name]
      requires Swept(s, before, todo, bad, clean)
      modifies this
      ensures Swept(s, before, todo - {name}, stuck, clean && err.None?)
      ensures ready == (old(ready) && err.None?) && stuck == bad + (if err.Some? then {name} else {})
      ensures old(faulted) ==> faulted
    {
      ListedWhenConverged(p, s, before, name);
      JudgedWhenListed(p, s, before, cluster, Listing(p, before) - todo, name);
      err := SyncListed(s, name, item);
      stuck := bad + if err.Some? then {name} else {};
      OneMoreListed(p, s, before, Listing(p, before) - todo, name);
      SameItemsOn(p, s, cluster, old(cluster), before, Listing(p, before) - todo, name);
      assert Listing(p, before) - (todo - {name}) == Listing(p, before) - todo + {name};
    }

    /**
     * The walk over the labelled inventory, in whatever order the server lists it. Unless a listing fails,
     * what is left beyond the eligible credentials are the items whose own turn failed.
     */
    method SyncInventory(s: Source) returns (result: Option<Error>, aborted: bool, ghost stuck: set<string>)
      requires ValidSource(s) && Versioned(cluster)
      modifies this
      ensures Versioned(cluster) && ready == (old(ready) && result.None?)
      ensures old(Settled(p, s, cluster)) <= Settled(p, s, cluster)
      ensures !aborted ==> Inventory(p, cluster) <= Names(s.ids) + stuck
      ensures result.None? ==> stuck == {} && !aborted
      ensures old(Converged(p, s, cluster)) ==> cluster == old(cluster)
      ensures (old(faulted) ==> faulted) && (!faulted ==> !aborted)
      ensures !faulted ==> (result.None? <==> AllListedOk(p, s, old(cluster), Listing(p, old(cluster))))
    {
      result, aborted, stuck := None, false, {};
      var listFails: bool := *;
      if listFails {
        ready, faulted := false, true;
        return Some(ErrTarget), true, stuck;
      }
      var listed := cluster.secrets;
      var todo := Listing(p, cluster);
      while todo != {}
        invariant todo <= Listing(p, old(cluster)) && Swept(s, old(cluster), todo, stuck, result.None?)
        invariant ready == (old(ready) && result.None?) && (result.None? ==> stuck == {})
        invariant old(faulted) ==> faulted
      {
        var name :| name in todo;
        var err;
        err, stuck := SweepOne(s, name, listed[name], old(cluster), todo, stuck, result.None?);
        result := if err.Some? then err else result;
        todo := todo - {name};
        listFails := *;
        if listFails {
          ready, faulted := false, true;
          return Some(ErrTarget), true, stuck;
        }
      }
      assert Listing(p, old(cluster)) - {} == Listing(p, old(cluster));
    }

    /**
     * A full pass. Success means convergence; otherwise, unless listing itself failed, only the items whose
     * own turn failed are wrong. A pass over a converged cluster writes nothing whatever fails, readiness
     * survives only a pass without any error, and a pass without faults succeeds exactly if all can be delivered.
     */
    method Sync(s: Source)
      returns (result: Option<Error>, aborted: bool,
               ghost visited: seq<string>, ghost failed: set<string>, ghost stuck: set<string>)
      requires ValidSource(s) && Versioned(cluster)
      modifies this
      ensures Versioned(cluster) && ready == (old(ready) && result.None?)
      ensures visited <= s.ids && Ids(visited) - failed <= Settled(p, s, cluster)
      ensures !aborted ==> visited == s.ids && Inventory(p, cluster) <= Names(s.ids) + stuck
      ensures result.None? ==> !aborted && failed == {} && stuck == {} && Converged(p, s, cluster)
      ensures old(Converged(p, s, cluster)) ==> cluster == old(cluster)
      ensures (old(faulted) ==> faulted) && (!faulted ==> (result.None? <==> Deliverable(p, s, old(cluster))))
      ensures result.None? ==> Serves(p, s, cluster)
    {
      result, aborted, visited, failed := SyncEligible(s);
      stuck := {};
      if aborted {
        return;
      }
      var err: Option<Error>;
      err, aborted, stuck := SyncInventory(s);
      result := if err.Some? then err else result;
      if result.None? {
        forall name | name in Names(s.ids)
          ensures name in Inventory(p, cluster)
        {
          var id :| id in s.ids && PREFIX + id == name;
          assert id in Ids(visited) && id in Settled(p, s, cluster);
        }
        ConvergedServes(p, s, cluster);
      }
    }

    /** One turn of the `Start` loop. */
    method Pass(s: Source) returns (err: Option<Error>)
      requires ValidSource(s) && Versioned(cluster)
      modifies this
      ensures Versioned(cluster) && (ready <==> err.None?) && (ready ==> Converged(p, s, cluster))
      ensures (old(faulted) ==> faulted) && (!faulted ==> (ready <==> Deliverable(p, s, old(cluster))))
      ensures ready ==> Serves(p, s, cluster)
    {
      var aborted;
      ghost var visited, failed, stuck;
      err, aborted, visited, failed, stuck := Sync(s);
      ready := err.None?;
    }

    /** The loop of `Start`: a pass per interval, with other writers in between; cancelled, it is no longer ready. */
    method Start(sources: seq<Source>)
      requires Versioned(cluster) && forall s :: s in sources ==> ValidSource(s)
      modifies this
      ensures Versioned(cluster) && !ready
    {
      for i := 0 to |sources|
        invariant Versioned(cluster)
      {
        assert sources[i] in sources;
        var err := Pass(sources[i]);
        var others: seq<Write> := *;
        SameVersionSameObject(cluster, others, "");
        cluster := Apply(cluster, others);
      }
      ready := false;
    }
  }

  ghost predicate AllListedOk(p: Config, s: Source, c: Cluster, names: set<string>)
    requires names <= c.secrets.Keys
  {
    forall name :: name in names ==> ListedOk(p, s, c, name)
  }

  /** A name not visited yet is judged as it was when the walk began. */
  lemma JudgedWhenListed(p: Config, s: Source, before: Cluster, now: Cluster, visited: set<string>, name: string)
    requires SameItems(p, s, now, before, visited) && name !in visited && name in before.secrets
    ensures var item := before.secrets[name];
            var id := Look(item.annotations, CREDENTIAL_ANNOTATION);
            ListedOk(p, s, before, name) <==> Owns(p, name, item, id) && ItemOk(p, s, now, id)
  {
  }

  lemma SameItemsOn(
      p: Config, s: Source, after: Cluster, now: Cluster, before: Cluster, visited: set<string>, name: string)
    requires SameItems(p, s, after, now, {name}) && SameItems(p, s, now, before, visited)
    ensures SameItems(p, s, after, before, visited + {name})
  {
  }

  lemma OneMoreListed(p: Config, s: Source, c: Cluster, names: set<string>, name: string)
    requires names <= c.secrets.Keys && name in c.secrets
    ensures AllListedOk(p, s, c, names + {name}) <==> AllListedOk(p, s, c, names) && ListedOk(p, s, c, name)
  {
  }

  function Last(start: string, ids: seq<string>): string {
    if ids == [] then start else ids[|ids| - 1]
  }

  predicate Ascending(start: string, ids: seq<string>) {
    forall i :: 0 <= i < |ids| ==> Less(Last(start, ids[..i]), ids[i])
  }

  lemma PageIsNext(s: Source, visited: seq<string>, limit: nat)
    requires ValidSource(s) && visited <= s.ids
    ensures var n := |visited|;
            Page(s, Last("", visited), limit) == if |s.ids| - n <= limit then s.ids[n..] else s.ids[n..n + limit]
  {
    AfterPosition(s.ids, |visited|);
  }

  lemma IdsOfConcat(a: seq<string>, b: seq<string>)
    ensures Ids(a + b) == Ids(a) + Ids(b)
  {
  }

  /** The page after a visited prefix continues it, and is short only at the end. */
  lemma PageFollows(s: Source, visited: seq<string>, limit: nat)
    requires ValidSource(s) && visited <= s.ids && limit > 0
    ensures var ids := Page(s, Last("", visited), limit);
            && visited + ids <= s.ids && (|ids| < limit ==> visited + ids == s.ids)
            && (|visited| < |s.ids| ==> ids != []) && Ids(ids) <= Ids(s.ids)
            && Ids(visited + ids) == Ids(visited) + Ids(ids) && Last(Last("", visited), ids) == Last("", visited + ids)
  {
    PageIsNext(s, visited, limit);
    NextSlice(s.ids, visited, Page(s, Last("", visited), limit), limit);
  }

  lemma NextSlice(all: seq<string>, visited: seq<string>, ids: seq<string>, limit: nat)
    requires visited <= all && limit > 0
    requires ids == if |all| - |visited| <= limit then all[|visited|..] else all[|visited|..|visited| + limit]
    ensures visited + ids <= all && (|ids| < limit ==> visited + ids == all) && (|visited| < |all| ==> ids != [])
    ensures Ids(ids) <= Ids(all) && Ids(visited + ids) == Ids(visited) + Ids(ids)
    ensures Last(Last("", visited), ids) == Last("", visited + ids)
  {
    var n := |visited| + |ids|;
    assert visited + ids == all[..n];
    IdsOfConcat(visited, ids);
    IdsOfPrefix(all, n);
  }

  lemma IdsOfPrefix(all: seq<string>, n: nat)
    requires n <= |all|
    ensures Ids(all[..n]) <= Ids(all)
  {
    forall id | id in all[..n]
      ensures id in all
    {
    }
  }

  /** The id after a prefix of the page lies above everything before it. */
  lemma NextAscends(s: Source, visited: seq<string>, ids: seq<string>, i: nat)
    requires ValidSource(s) && visited + ids <= s.ids && i < |ids|
    ensures Less(Last(Last("", visited), ids[..i]), ids[i])
  {
    var pos := |visited| + i;
    assert (visited + ids)[pos] == ids[i];
    if i > 0 {
      assert (visited + ids)[pos - 1] == ids[i - 1] == ids[..i][i - 1];
    } else if visited != [] {
      assert (visited + ids)[pos - 1] == visited[|visited| - 1];
    }
    InOrder(s, pos);
  }

  lemma PageAscends(s: Source, visited: seq<string>, limit: nat)
    requires ValidSource(s) && visited <= s.ids && limit > 0
    ensures Ascending(Last("", visited), Page(s, Last("", visited), limit))
  {
    var ids := Page(s, Last("", visited), limit);
    PageFollows(s, visited, limit);
    forall i | 0 <= i < |ids|
      ensures Less(Last(Last("", visited), ids[..i]), ids[i])
    {
      NextAscends(s, visited, ids, i);
    }
  }

  lemma ListedWhenConverged(p: Config, s: Source, c: Cluster, name: string)
    requires name in Listing(p, c)
    ensures Converged(p, s, c) ==> var id := Look(c.secrets[name].annotations, CREDENTIAL_ANNOTATION);
              Owns(p, name, c.secrets[name], id) ==> id in Settled(p, s, c)
  {
    if Converged(p, s, c) && !c.secrets[name].deleting {
      assert name in Inventory(p, c);
      var id :| id in s.ids && PREFIX + id == name;
      assert id in Settled(p, s, c);
    }
  }

  lemma InOrder(s: Source, pos: nat)
    requires ValidSource(s) && pos < |s.ids|
    ensures Less(if pos == 0 then "" else s.ids[pos - 1], s.ids[pos])
    ensures s.ids[pos] in s.envelopes
  {
    if pos > 0 {
      assert Below(StringKey(s.ids[pos - 1]), StringKey(s.ids[pos]));
    }
  }
}
