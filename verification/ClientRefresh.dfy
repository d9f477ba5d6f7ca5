/** The SDK client's single-flight refresh, composed with the session server. */
module ClientRefresh {
  import opened Wrappers
  import opened Sessions

  /** The token pairs of one response are named by their refresh token. */
  type Tokens = string

  /** One run of the refresh body, cut at its awaits. */
  datatype Flight =
    | Captured(tokens: Option<Tokens>)                 // the store was read, the request not yet made
    | Sent(token: Tokens)                              // presented, not yet seen by the server
    | Answered(token: Tokens, reply: Option<Tokens>)   // processed by the server, reply not yet applied
    | Applied(result: Option<Tokens>)                  // store set or cleared, promise still pending
    | Settled(result: Option<Tokens>)

  /** One call of `#request` or `refreshSession`, cut at its awaits. */
  datatype Task =
    | Loaded(used: Option<Tokens>)
    | Requested(used: Option<Tokens>)
    | Rejected(used: Option<Tokens>)
    | Reread(used: Option<Tokens>, tokens: Option<Tokens>)
    | Waiting(flight: nat, owner: bool)
    | Retried(bearer: Tokens)
    | Finished

  datatype Client = Client(
    store: Option<Tokens>, promise: Option<nat>, flights: map<nat, Flight>, tasks: map<nat, Task>, nextFlight: nat)

  // ---------------------------------------------------------------- client segments between awaits

  /** The synchronous head of `#refresh`: join the pending promise or start a flight that reads the store. */
  function EnterRefresh(c: Client, task: nat): Client {
    if c.promise.Some? then c.(tasks := c.tasks[task := Waiting(c.promise.value, false)])
    else c.(promise := Some(c.nextFlight), flights := c.flights[c.nextFlight := Captured(c.store)],
            tasks := c.tasks[task := Waiting(c.nextFlight, true)], nextFlight := c.nextFlight + 1)
  }

  function Begin(c: Client, task: nat): Client {
    if task in c.tasks then c else c.(tasks := c.tasks[task := Loaded(c.store)])
  }

  function BeginRefresh(c: Client, task: nat): Client {
    if task in c.tasks then c else EnterRefresh(c, task)
  }

  /** Response `unauthorized` is a 401; anything else ends the call. */
  function Proceed(c: Client, task: nat, unauthorized: bool): Client {
    if task !in c.tasks then c
    else match c.tasks[task]
      case Loaded(used) => c.(tasks := c.tasks[task := Requested(used)])
      case Requested(used) => c.(tasks := c.tasks[task := if unauthorized then Rejected(used) else Finished])
      case Rejected(used) => c.(tasks := c.tasks[task := Reread(used, c.store)])
      case Reread(used, tokens) =>
        if tokens.None? then c.(tasks := c.tasks[task := Finished])
        else if tokens != used then c.(tasks := c.tasks[task := Retried(tokens.value)])
        else EnterRefresh(c, task)
      case Waiting(flight, owner) =>
        if flight !in c.flights || !c.flights[flight].Settled? then c
        else
          var result := c.flights[flight].result;
          var c' := c.(tasks := c.tasks[task := if result.Some? then Retried(result.value) else Finished]);
          if owner then c'.(promise := None) else c'
      case Retried(_) => c.(tasks := c.tasks[task := Finished])
      case Finished => c
  }

  function Fly(c: Client, flight: nat): Client {
    if flight !in c.flights then c
    else match c.flights[flight]
      case Captured(tokens) =>
        c.(flights := c.flights[flight := if tokens.Some? then Sent(tokens.value) else Settled(None)])
      case Sent(_) => c
      case Answered(_, reply) => c.(flights := c.flights[flight := Applied(reply)], store := reply)
      case Applied(result) => c.(flights := c.flights[flight := Settled(result)])
      case Settled(_) => c
  }

  class AepSessionClient {
    var tokenStore: Option<Tokens>
    var refreshPromise: Option<nat>
    var flights: map<nat, Flight>
    var tasks: map<nat, Task>
    var nextFlight: nat

    ghost function State(): Client
      reads this
    {
      Client(tokenStore, refreshPromise, flights, tasks, nextFlight)
    }

    constructor (initial: Option<Tokens>)
      ensures State() == Client(initial, None, map[], map[], 0)
    {
      tokenStore, refreshPromise, flights, tasks, nextFlight := initial, None, map[], map[], 0;
    }

    method Refresh(task: nat)
      modifies this
      ensures State() == EnterRefresh(old(State()), task)
    {
      if refreshPromise.Some? {
        tasks := tasks[task := Waiting(refreshPromise.value, false)];
        return;
      }
      refreshPromise := Some(nextFlight);
      flights := flights[nextFlight := Captured(tokenStore)];
      tasks := tasks[task := Waiting(nextFlight, true)];
      nextFlight := nextFlight + 1;
    }

    /** `#request` up to its first await: the store is read. */
    method Request(task: nat)
      modifies this
      ensures State() == Begin(old(State()), task)
    {
      if task !in tasks {
        tasks := tasks[task := Loaded(tokenStore)];
      }
    }

    method RefreshSession(task: nat)
      modifies this
      ensures State() == BeginRefresh(old(State()), task)
    {
      if task !in tasks {
        Refresh(task);
      }
    }

    /** A call runs from one await to the next. */
    method Resume(task: nat, unauthorized: bool)
      requires task in tasks
      modifies this
      ensures State() == Proceed(old(State()), task, unauthorized)
    {
      match tasks[task]
      case Loaded(used) => tasks := tasks[task := Requested(used)];
      case Requested(used) =>
        if unauthorized {
          tasks := tasks[task := Rejected(used)];
        } else {
          tasks := tasks[task := Finished];
        }
      case Rejected(used) => tasks := tasks[task := Reread(used, tokenStore)];
      case Reread(used, tokens) =>
        if tokens.None? {
          tasks := tasks[task := Finished];
        } else if tokens == used {
          Refresh(task);
        } else {
          tasks := tasks[task := Retried(tokens.value)];
        }
      case Waiting(flight, owner) =>
        if flight in flights && flights[flight].Settled? {
          var result := flights[flight].result;
          tasks := tasks[task := if result.Some? then Retried(result.value) else Finished];
          if owner {
            refreshPromise := None;
          }
        }
      case Retried(_) => tasks := tasks[task := Finished];
      case Finished =>
    }

    /** The refresh body runs from one await to the next. */
    method ResumeFlight(flight: nat)
      requires flight in flights
      modifies this
      ensures State() == Fly(old(State()), flight)
    {
      match flights[flight]
      case Captured(tokens) =>
        flights := flights[flight := if tokens.Some? then Sent(tokens.value) else Settled(None)];
      case Sent(_) =>
      case Answered(_, reply) =>
        tokenStore := reply;
        flights := flights[flight := Applied(reply)];
      case Applied(result) => flights := flights[flight := Settled(result)];
      case Settled(_) =>
    }
  }

  // ---------------------------------------------------------------- composition with the server

  /** `rotated` are the refresh tokens the server has exchanged; `mine` those this client was given. */
  datatype System = System(client: Client, world: World, rotated: set<string>, mine: set<string>)

  datatype Action =
    | BeginTask(task: nat)
    | BeginRefreshTask(task: nat)
    | Continue(task: nat, unauthorized: bool)
    | Advance(flight: nat)
    | ServeRefresh(flight: nat, requested: string, newHash: string, agentExpired: bool, now: int)
    | Other(op: Op)

  /** The server transaction an action commits, if any. */
  function Committed(s: System, a: Action): Option<Op> {
    match a
    case ServeRefresh(f, requested, newHash, agentExpired, now) =>
      if f in s.client.flights && s.client.flights[f].Sent?
      then Some(Refresh(s.client.flights[f].token, requested, newHash, agentExpired, now)) else None
    case Other(op) => Some(op)
    case _ => None
  }

  /** Other parties do not hold this client's refresh tokens. */
  predicate Permitted(s: System, a: Action) {
    && (Committed(s, a).Some? ==> Legal(s.world, Committed(s, a).value))
    && (a.Other? && a.op.Refresh? ==> a.op.hash !in s.mine)
  }

  function Do(cfg: Config, s: System, a: Action): System {
    match a
    case BeginTask(task) => s.(client := Begin(s.client, task))
    case BeginRefreshTask(task) => s.(client := BeginRefresh(s.client, task))
    case Continue(task, unauthorized) => s.(client := Proceed(s.client, task, unauthorized))
    case Advance(flight) => s.(client := Fly(s.client, flight))
    case ServeRefresh(flight, _, newHash, _, _) =>
      if Committed(s, a).None? then s
      else
        var op := Committed(s, a).value;
        var done := OutcomeOf(cfg, s.world, op).Rotated?;
        var answer := Answered(op.hash, if done then Some(newHash) else None);
        System(s.client.(flights := s.client.flights[flight := answer]),
               Next(cfg, true, s.world, op),
               if done then s.rotated + {op.hash} else s.rotated,
               if done then s.mine + {newHash} else s.mine)
    case Other(op) =>
      s.(world := Next(cfg, true, s.world, op),
         rotated := if op.Refresh? && OutcomeOf(cfg, s.world, op).Rotated? then s.rotated + {op.hash} else s.rotated)
  }

  predicate Active(f: Flight) {
    !f.Settled?
  }

  /** The call whose `finally` will release the promise. */
  ghost predicate Owns(c: Client, t: nat) {
    t in c.tasks && c.tasks[t].Waiting? && c.tasks[t].owner
  }

  /** Every unsettled flight is the pending promise, and exactly one call owns it and will release it. */
  ghost predicate FlightsFit(c: Client) {
    && (forall f :: f in c.flights ==> f < c.nextFlight && (Active(c.flights[f]) ==> c.promise == Some(f)))
    && (c.promise.Some? ==> c.promise.value in c.flights)
    && (forall t :: t in c.tasks && c.tasks[t].Waiting? ==> c.tasks[t].flight in c.flights)
    && (forall t :: Owns(c, t) ==> c.promise == Some(c.tasks[t].flight))
    && (forall t, u :: Owns(c, t) && Owns(c, u) ==> t == u)
    && (c.promise.Some? ==> exists t :: Owns(c, t))
  }

  predicate FlightFits(f: Flight, c: Client, rotated: set<string>, mine: set<string>) {
    match f
    case Captured(tokens) => tokens == c.store
    case Sent(token) => c.store == Some(token)
    case Answered(_, reply) => reply.Some? ==> reply.value in mine && reply.value !in rotated
    case _ => true
  }

  /** The stored token is unexchanged, except between the server's answer and its application. */
  ghost predicate TokensFit(c: Client, rotated: set<string>, mine: set<string>) {
    && (c.store.Some? ==> c.store.value in mine)
    && (c.store.Some? && c.store.value in rotated ==>
          c.promise.Some? && c.promise.value in c.flights && c.flights[c.promise.value].Answered?)
    && (forall f :: f in c.flights ==> FlightFits(c.flights[f], c, rotated, mine))
  }

  ghost predicate ServerFits(w: World, rotated: set<string>, mine: set<string>) {
    Consistent(w) && mine <= w.hashes && rotated <= w.hashes
  }

  ghost predicate Inv(s: System) {
    FlightsFit(s.client) && TokensFit(s.client, s.rotated, s.mine) && ServerFits(s.world, s.rotated, s.mine)
  }

  /** A system at start: no calls yet, and the stored token has not been exchanged. */
  ghost predicate Initial(s: System) {
    && ServerFits(s.world, s.rotated, s.mine)
    && s.client.promise.None? && s.client.flights == map[] && s.client.tasks == map[]
    && (s.client.store.Some? ==> s.client.store.value in s.mine && s.client.store.value !in s.rotated)
  }

  /** Entering a refresh keeps the invariant; the entering call owned nothing before. */
  lemma EnterFits(c: Client, task: nat, rotated: set<string>, mine: set<string>)
    requires FlightsFit(c) && TokensFit(c, rotated, mine) && !Owns(c, task)
    ensures FlightsFit(EnterRefresh(c, task)) && TokensFit(EnterRefresh(c, task), rotated, mine)
  {
    var c' := EnterRefresh(c, task);
    assert forall t :: t != task ==> (Owns(c', t) <==> Owns(c, t));
    if c.promise.Some? {
      var owner :| Owns(c, owner);
      assert Owns(c', owner);
    } else {
      assert Owns(c', task);
    }
  }

  /** Moving a call that owns no flight to a point where it awaits none. */
  lemma MoveFits(c: Client, task: nat, to: Task, rotated: set<string>, mine: set<string>)
    requires FlightsFit(c) && TokensFit(c, rotated, mine) && !Owns(c, task) && !to.Waiting?
    ensures var c' := c.(tasks := c.tasks[task := to]); FlightsFit(c') && TokensFit(c', rotated, mine)
  {
    var c' := c.(tasks := c.tasks[task := to]);
    assert forall t :: Owns(c', t) <==> Owns(c, t) && t != task;
  }

  /** The owner's `finally` releases the promise of its settled flight. */
  lemma ReleaseFits(c: Client, task: nat, to: Task, rotated: set<string>, mine: set<string>)
    requires FlightsFit(c) && TokensFit(c, rotated, mine) && Owns(c, task) && !to.Waiting?
    requires c.flights[c.tasks[task].flight].Settled?
    ensures var c' := c.(tasks := c.tasks[task := to], promise := None); FlightsFit(c') && TokensFit(c', rotated, mine)
  {
    var c' := c.(tasks := c.tasks[task := to], promise := None);
    assert c.promise == Some(c.tasks[task].flight);
    assert forall t :: !Owns(c', t) by {
      assert forall t :: Owns(c', t) ==> Owns(c, t) && t != task;
    }
  }

  lemma ProceedFits(c: Client, task: nat, unauthorized: bool, rotated: set<string>, mine: set<string>)
    requires FlightsFit(c) && TokensFit(c, rotated, mine)
    ensures FlightsFit(Proceed(c, task, unauthorized)) && TokensFit(Proceed(c, task, unauthorized), rotated, mine)
  {
    if task in c.tasks {
      var c' := Proceed(c, task, unauthorized);
      match c.tasks[task]
      case Waiting(flight, owner) =>
        if c.flights[flight].Settled? {
          if owner {
            ReleaseFits(c, task, c'.tasks[task], rotated, mine);
          } else {
            MoveFits(c, task, c'.tasks[task], rotated, mine);
          }
        }
      case Reread(used, tokens) =>
        if tokens.Some? && tokens == used {
          EnterFits(c, task, rotated, mine);
        } else {
          MoveFits(c, task, c'.tasks[task], rotated, mine);
        }
      case Finished =>
      case _ => MoveFits(c, task, c'.tasks[task], rotated, mine);
    }
  }

  lemma FlyFits(c: Client, flight: nat, rotated: set<string>, mine: set<string>)
    requires FlightsFit(c) && TokensFit(c, rotated, mine)
    ensures FlightsFit(Fly(c, flight)) && TokensFit(Fly(c, flight), rotated, mine)
  {
    var c' := Fly(c, flight);
    assert forall t :: Owns(c', t) <==> Owns(c, t);
  }

  lemma ServeFits(cfg: Config, s: System, a: Action)
    requires a.ServeRefresh? && Inv(s) && Permitted(s, a)
    ensures Inv(Do(cfg, s, a))
  {
    if Committed(s, a).Some? {
      StepConsistent(cfg, true, s.world, Committed(s, a).value);
      var c, c' := s.client, Do(cfg, s, a).client;
      assert forall t :: Owns(c', t) <==> Owns(c, t);
    }
  }

  lemma OtherFits(cfg: Config, s: System, a: Action)
    requires a.Other? && Inv(s) && Permitted(s, a)
    ensures Inv(Do(cfg, s, a))
  {
    StepConsistent(cfg, true, s.world, a.op);
  }

  lemma StepInv(cfg: Config, s: System, a: Action)
    requires Inv(s) && Permitted(s, a)
    ensures Inv(Do(cfg, s, a))
  {
    match a
    case BeginTask(task) => assert forall t :: Owns(Begin(s.client, task), t) <==> Owns(s.client, t);
    case BeginRefreshTask(task) =>
      if task !in s.client.tasks {
        EnterFits(s.client, task, s.rotated, s.mine);
      }
    case Continue(task, unauthorized) => ProceedFits(s.client, task, unauthorized, s.rotated, s.mine);
    case Advance(flight) => FlyFits(s.client, flight, s.rotated, s.mine);
    case ServeRefresh(_, _, _, _, _) => ServeFits(cfg, s, a);
    case Other(_) => OtherFits(cfg, s, a);
  }

  // ---------------------------------------------------------------- whole runs

  ghost predicate Follows(cfg: Config, run: seq<Action>, systems: seq<System>, k: nat)
    requires k < |run| && |systems| == |run| + 1
  {
    Permitted(systems[k], run[k]) && systems[k + 1] == Do(cfg, systems[k], run[k])
  }

  /** A permitted interleaving from an initial system, with the systems it goes through. */
  ghost predicate History(cfg: Config, run: seq<Action>, systems: seq<System>) {
    && |systems| == |run| + 1 && Initial(systems[0])
    && (forall k: nat :: k < |run| ==> Follows(cfg, run, systems, k))
  }

  lemma {:induction false} RunInv(cfg: Config, run: seq<Action>, systems: seq<System>, n: nat)
    requires History(cfg, run, systems) && n <= |run|
    ensures Inv(systems[n])
  {
    if n > 0 {
      RunInv(cfg, run, systems, n - 1);
      assert Follows(cfg, run, systems, n - 1);
      StepInv(cfg, systems[n - 1], run[n - 1]);
    }
  }

  /** In every interleaving at most one refresh is in flight. */
  lemma SingleFlight(cfg: Config, run: seq<Action>, systems: seq<System>, n: nat, f: nat, g: nat)
    requires History(cfg, run, systems) && n <= |run|
    requires var flights := systems[n].client.flights;
             f in flights && g in flights && Active(flights[f]) && Active(flights[g])
    ensures f == g
  {
    RunInv(cfg, run, systems, n);
  }

  /** No promise is stale: in every interleaving a pending promise has an owner who, once it settles, releases it. */
  lemma PromiseHasOwner(cfg: Config, run: seq<Action>, systems: seq<System>, n: nat, unauthorized: bool)
      returns (owner: nat)
    requires History(cfg, run, systems) && n <= |run| && systems[n].client.promise.Some?
    ensures var c := systems[n].client;
            && Owns(c, owner) && c.tasks[owner].flight == c.promise.value && c.promise.value in c.flights
            && (Proceed(c, owner, unauthorized).promise == None <==> c.flights[c.promise.value].Settled?)
  {
    RunInv(cfg, run, systems, n);
    owner :| Owns(systems[n].client, owner);
  }

  /** In every interleaving a refresh token on its way to the server has not been exchanged before. */
  lemma NeverPresentsRotatedToken(cfg: Config, run: seq<Action>, systems: seq<System>, n: nat, f: nat)
    requires History(cfg, run, systems) && n <= |run|
    requires f in systems[n].client.flights && systems[n].client.flights[f].Sent?
    ensures systems[n].client.flights[f].token !in systems[n].rotated
  {
    RunInv(cfg, run, systems, n);
  }

  /** The server never turns the client away because its token was already exchanged. */
  lemma RefusalIsNotReuse(cfg: Config, run: seq<Action>, systems: seq<System>, i: nat)
    requires History(cfg, run, systems) && i < |run| && run[i].ServeRefresh?
    requires var c := systems[i].client; run[i].flight in c.flights && c.flights[run[i].flight].Sent?
    ensures var before := systems[i];
            var token := before.client.flights[run[i].flight].token;
            && token !in before.rotated && before.client.store == Some(token)
            && (forall f :: f in before.client.flights && before.client.flights[f].Sent? ==> f == run[i].flight)
  {
    RunInv(cfg, run, systems, i);
  }

  /** The reply the server gives to the request of a flight. */
  function ReplyTo(cfg: Config, s: System, a: Action): Option<Tokens>
    requires a.ServeRefresh?
  {
    var op := Committed(s, a);
    if op.Some? && OutcomeOf(cfg, s.world, op.value).Rotated? then Some(a.newHash) else None
  }

  /** An answered refresh ends with its reply in the store: the successor token, or no token after a refusal. */
  lemma AnswerReachesStore(cfg: Config, s: System, a: Action)
    requires a.ServeRefresh? && Inv(s) && Permitted(s, a) && a.flight in s.client.flights
    requires s.client.flights[a.flight].Sent?
    ensures var after := Do(cfg, Do(cfg, Do(cfg, s, a), Advance(a.flight)), Advance(a.flight));
            && after.client.store == ReplyTo(cfg, s, a) && after.client.flights[a.flight] == Settled(ReplyTo(cfg, s, a))
            && (ReplyTo(cfg, s, a).Some? ==> a.newHash !in after.rotated && a.newHash in after.mine)
  {
    StepInv(cfg, s, a);
  }

  // ---------------------------------------------------------------- what becomes of a call, over whole runs

  predicate Resumes(a: Action, task: nat) {
    a.Continue? && a.task == task
  }

  /** A call stands still until it is resumed, whatever happens in between. */
  lemma {:induction false} CallStays(cfg: Config, run: seq<Action>, systems: seq<System>, i: nat, j: nat, task: nat)
    requires History(cfg, run, systems) && i <= j <= |run| && task in systems[i].client.tasks
    requires forall k :: i <= k < j ==> !Resumes(run[k], task)
    ensures task in systems[j].client.tasks && systems[j].client.tasks[task] == systems[i].client.tasks[task]
    decreases j
  {
    if i < j {
      CallStays(cfg, run, systems, i, j - 1, task);
      assert Follows(cfg, run, systems, j - 1);
    }
  }

  /** `i` and `j` are successive turns of the call. */
  predicate NextTurn(run: seq<Action>, i: nat, j: nat, task: nat) {
    i < j < |run| && Resumes(run[j], task) && forall k :: i < k < j ==> !Resumes(run[k], task)
  }

  /** A new call carries the tokens that were stored when it began. */
  lemma CallCarriesStored(cfg: Config, run: seq<Action>, systems: seq<System>, i: nat, j: nat, task: nat)
    requires History(cfg, run, systems) && NextTurn(run, i, j, task)
    requires run[i] == BeginTask(task) && task !in systems[i].client.tasks
    ensures var before, after := systems[j].client, systems[j + 1].client;
            after == before.(tasks := before.tasks[task := Requested(systems[i].client.store)])
  {
    assert Follows(cfg, run, systems, i) && Follows(cfg, run, systems, j);
    CallStays(cfg, run, systems, i + 1, j, task);
  }

  /** A response other than a 401 ends the call, and store, promise and flights stay as they are. */
  lemma OtherResponseEnds(cfg: Config, run: seq<Action>, systems: seq<System>, i: nat, task: nat)
    requires History(cfg, run, systems) && i < |run| && task in systems[i].client.tasks
    requires run[i].Continue? && run[i].task == task
    requires || (systems[i].client.tasks[task].Requested? && !run[i].unauthorized)
             || systems[i].client.tasks[task].Retried?
    ensures var before, after := systems[i].client, systems[i + 1].client;
            after == before.(tasks := before.tasks[task := Finished])
  {
    assert Follows(cfg, run, systems, i);
  }

  /**
   * A 401, then the store re-read at turn `j`, then turn `k`, with anything in between. Without stored tokens
   * the call ends; with other tokens than it used it retries with those; with the very tokens it used it waits
   * on the pending flight, which it starts and owns exactly if there is none.
   */
  lemma RejectedCall(cfg: Config, run: seq<Action>, systems: seq<System>, i: nat, j: nat, k: nat, task: nat)
    requires History(cfg, run, systems) && NextTurn(run, i, j, task) && NextTurn(run, j, k, task)
    requires Resumes(run[i], task) && run[i].unauthorized
    requires task in systems[i].client.tasks && systems[i].client.tasks[task].Requested?
    ensures var used, stored := systems[i].client.tasks[task].used, systems[j].client.store;
            var before, after := systems[k].client, systems[k + 1].client;
            && (stored == None ==> after == before.(tasks := before.tasks[task := Finished]))
            && (stored.Some? && stored != used ==>
                  after == before.(tasks := before.tasks[task := Retried(stored.value)]))
            && (stored.Some? && stored == used ==>
                  && after.store == before.store && after.promise.Some? && after.promise.value in after.flights
                  && after.tasks == before.tasks[task := Waiting(after.promise.value, before.promise.None?)]
                  && (before.promise.Some? ==> after.promise == before.promise && after.flights == before.flights)
                  && (before.promise.None? ==>
                        && after.promise.value !in before.flights
                        && after.flights == before.flights[after.promise.value := Captured(before.store)]))
  {
    var used := systems[i].client.tasks[task].used;
    assert Follows(cfg, run, systems, i);
    assert systems[i + 1].client.tasks[task] == Rejected(used);
    CallStays(cfg, run, systems, i + 1, j, task);
    assert Follows(cfg, run, systems, j);
    assert systems[j + 1].client.tasks[task] == Reread(used, systems[j].client.store);
    CallStays(cfg, run, systems, j + 1, k, task);
    assert Follows(cfg, run, systems, k);
    RunInv(cfg, run, systems, k);
  }

  /** An explicit refresh waits on the pending flight, and starts and owns one exactly if there is none. */
  lemma ExplicitRefresh(cfg: Config, run: seq<Action>, systems: seq<System>, i: nat, task: nat)
    requires History(cfg, run, systems) && i < |run| && run[i] == BeginRefreshTask(task)
    requires task !in systems[i].client.tasks
    ensures var before, after := systems[i].client, systems[i + 1].client;
            && after.store == before.store && after.promise.Some? && after.promise.value in after.flights
            && after.tasks == before.tasks[task := Waiting(after.promise.value, before.promise.None?)]
            && (before.promise.Some? ==> after.promise == before.promise && after.flights == before.flights)
            && (before.promise.None? ==>
                  && after.promise.value !in before.flights
                  && after.flights == before.flights[after.promise.value := Captured(before.store)])
  {
    assert Follows(cfg, run, systems, i);
    RunInv(cfg, run, systems, i);
  }

  /** What a flight can be after it captured the stored tokens: only those are ever presented. */
  predicate Carries(f: Flight, stored: Option<Tokens>) {
    match f
    case Captured(tokens) => tokens == stored
    case Sent(token) => stored == Some(token)
    case Answered(token, _) => stored == Some(token)
    case Applied(_) => stored.Some?
    case Settled(result) => result.Some? ==> stored.Some?
  }

  /** One step leaves a flight as it is or takes it to its next await. */
  predicate FlightMoves(x: Flight, y: Flight) {
    || y == x
    || (match x
        case Captured(tokens) => y == if tokens.Some? then Sent(tokens.value) else Settled(None)
        case Sent(token) => y.Answered? && y.token == token
        case Answered(_, reply) => y == Applied(reply)
        case Applied(result) => y == Settled(result)
        case Settled(_) => false)
  }

  lemma FlightStep(cfg: Config, s: System, a: Action, f: nat)
    requires f in s.client.flights && FlightsFit(s.client)
    ensures f in Do(cfg, s, a).client.flights && FlightMoves(s.client.flights[f], Do(cfg, s, a).client.flights[f])
    ensures a == Advance(f) && s.client.flights[f].Captured? ==>
              var stored := s.client.flights[f].tokens;
              Do(cfg, s, a).client.flights[f] == if stored.Some? then Sent(stored.value) else Settled(None)
  {
    assert f < s.client.nextFlight;
  }

  /** A flight presents exactly the tokens that were stored when it started; without any it settles at once. */
  lemma {:induction false} FlightCarriesStored(
      cfg: Config, run: seq<Action>, systems: seq<System>, i: nat, n: nat, f: nat)
    requires History(cfg, run, systems) && i <= n < |run|
    requires f in systems[i].client.flights && systems[i].client.flights[f].Captured?
    ensures var stored := systems[i].client.flights[f].tokens;
            && f in systems[n].client.flights && Carries(systems[n].client.flights[f], stored)
            && f in systems[n + 1].client.flights && Carries(systems[n + 1].client.flights[f], stored)
            && (run[n] == Advance(f) && systems[n].client.flights[f].Captured? ==>
                  systems[n + 1].client.flights[f] == if stored.Some? then Sent(stored.value) else Settled(None))
    decreases n
  {
    if i < n {
      FlightCarriesStored(cfg, run, systems, i, n - 1, f);
    }
    assert Follows(cfg, run, systems, n);
    RunInv(cfg, run, systems, n);
    FlightStep(cfg, systems[n], run[n], f);
  }

  /** The flight has this reply, applied or not. */
  predicate HasReply(f: Flight, reply: Option<Tokens>) {
    match f
    case Answered(_, r) => r == reply
    case Applied(r) => r == reply
    case Settled(r) => r == reply
    case _ => false
  }

  lemma {:induction false} ReplyStays(cfg: Config, run: seq<Action>, systems: seq<System>, m: nat, n: nat, f: nat,
                                      reply: Option<Tokens>)
    requires History(cfg, run, systems) && m <= n <= |run|
    requires f in systems[m].client.flights && HasReply(systems[m].client.flights[f], reply)
    ensures f in systems[n].client.flights && HasReply(systems[n].client.flights[f], reply)
    decreases n
  {
    if m < n {
      ReplyStays(cfg, run, systems, m, n - 1, f, reply);
      assert Follows(cfg, run, systems, n - 1);
      RunInv(cfg, run, systems, n - 1);
      FlightStep(cfg, systems[n - 1], run[n - 1], f);
    }
  }

  /**
   * A waiting call, its owner or one that joined, goes on exactly when the flight has settled: if the server
   * rotated, it is retried with the successor token, and otherwise it ends; the owner releases the promise.
   */
  lemma WaitingCall(cfg: Config, run: seq<Action>, systems: seq<System>, m: nat, n: nat, task: nat, owner: bool)
    requires History(cfg, run, systems) && m < n < |run| && run[m].ServeRefresh? && Resumes(run[n], task)
    requires run[m].flight in systems[m].client.flights && systems[m].client.flights[run[m].flight].Sent?
    requires task in systems[n].client.tasks && systems[n].client.tasks[task] == Waiting(run[m].flight, owner)
    ensures var f, token := run[m].flight, systems[m].client.flights[run[m].flight].token;
            var request := Refresh(token, run[m].requested, run[m].newHash, run[m].agentExpired, run[m].now);
            var rotated := OutcomeOf(cfg, systems[m].world, request).Rotated?;
            var before, after := systems[n].client, systems[n + 1].client;
            && f in before.flights
            && (before.flights[f].Settled? ==>
                  && after.tasks == before.tasks[task := if rotated then Retried(run[m].newHash) else Finished]
                  && after.promise == (if owner then None else before.promise)
                  && after.store == before.store && after.flights == before.flights)
            && (!before.flights[f].Settled? ==> after == before)
  {
    assert Follows(cfg, run, systems, m) && Follows(cfg, run, systems, n);
    var answered := systems[m + 1].client.flights[run[m].flight];
    ReplyStays(cfg, run, systems, m + 1, n, run[m].flight, answered.reply);
  }

  /** How far a call has come. */
  function Stage(t: Task): nat {
    match t
    case Loaded(_) => 0
    case Requested(_) => 1
    case Rejected(_) => 2
    case Reread(_, _) => 3
    case Waiting(_, _) => 4
    case Retried(_) => 5
    case Finished => 6
  }

  lemma CallStep(cfg: Config, s: System, a: Action, task: nat)
    requires task in s.client.tasks
    ensures var before, after := s.client.tasks[task], Do(cfg, s, a).client.tasks;
            task in after && (after[task] == before || Stage(before) < Stage(after[task]))
  {
  }

  /** No call ever goes back: it sends its request once and retries at most once. */
  lemma {:induction false} CallMovesOn(cfg: Config, run: seq<Action>, systems: seq<System>, i: nat, j: nat, task: nat)
    requires History(cfg, run, systems) && i <= j <= |run| && task in systems[i].client.tasks
    ensures var before := systems[i].client.tasks[task];
            && task in systems[j].client.tasks
            && var after := systems[j].client.tasks[task];
               after == before || Stage(before) < Stage(after)
    decreases j
  {
    if i < j {
      CallMovesOn(cfg, run, systems, i, j - 1, task);
      assert Follows(cfg, run, systems, j - 1);
      CallStep(cfg, systems[j - 1], run[j - 1], task);
    }
  }
}
