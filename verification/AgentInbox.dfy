/** The reference agent's durable inbox and outbox, over runs with crashes between any two steps. */
module AgentInbox {
  datatype ItemState = Received | Running | Succeeded | Failed

  type Inbox = map<string, ItemState>

  // ---------------------------------------------------------------- local tables

  function Persist(inbox: Inbox, delivery: string): Inbox {
    if delivery in inbox then inbox else inbox[delivery := Received]
  }

  function Mark(inbox: Inbox, delivery: string, state: ItemState): Inbox {
    if delivery in inbox then inbox[delivery := state] else inbox
  }

  function PendingIds(inbox: Inbox): set<string> {
    set d | d in inbox && inbox[d] != Succeeded
  }

  /** The elements of a set, each once, in some order. */
  method Listing(ids: set<string>) returns (items: seq<string>)
    ensures IsListing(items, ids)
  {
    items := [];
    var todo := ids;
    while todo != {}
      invariant todo <= ids && IsListing(items, ids - todo)
    {
      var d :| d in todo;
      todo := todo - {d};
      items := items + [d];
    }
  }

  class AgentState {
    var inbox: Inbox
    var outbox: set<string>

    constructor ()
      ensures inbox == map[] && outbox == {}
    {
      inbox, outbox := map[], {};
    }

    method PersistInbox(delivery: string)
      modifies this`inbox
      ensures inbox == Persist(old(inbox), delivery)
    {
      if delivery !in inbox {
        inbox := inbox[delivery := Received];
      }
    }

    method SetInboxState(delivery: string, state: ItemState)
      modifies this`inbox
      ensures inbox == Mark(old(inbox), delivery, state)
    {
      if delivery in inbox {
        inbox := inbox[delivery := state];
      }
    }

    /** The pending deliveries, each once. */
    method ListPendingInbox() returns (items: seq<string>)
      ensures IsListing(items, PendingIds(inbox))
      ensures forall d :: d in items <==>
                d in inbox && (inbox[d] == Received || inbox[d] == Running || inbox[d] == Failed)
    {
      items := Listing(PendingIds(inbox));
    }

    method EnqueueTelemetry(event: string)
      modifies this`outbox
      ensures outbox == old(outbox) + {event}
    {
      outbox := outbox + {event};
    }

    method RemoveTelemetry(events: seq<string>)
      modifies this`outbox
      ensures forall e :: e in outbox <==> e in old(outbox) && e !in events
    {
      for i := 0 to |events|
        invariant forall e :: e in outbox <==> e in old(outbox) && e !in events[..i]
      {
        assert events[..i + 1] == events[..i] + [events[i]];
        outbox := outbox - {events[i]};
      }
      assert events[..|events|] == events;
    }
  }

  ghost predicate IsListing(items: seq<string>, ids: set<string>) {
    && (forall d :: d in items <==> d in ids)
    && (forall i, j :: 0 <= i < j < |items| ==> items[i] != items[j])
  }

  // ---------------------------------------------------------------- the agent with its server

  /** Where the single control flow stands; it is lost in a crash. */
  datatype Pc =
    | Idle
    | Receiving(page: seq<string>)
    | Acknowledging(page: seq<string>)
    | Resuming(todo: seq<string>)
    | Reacknowledged(todo: seq<string>)
    | Started(todo: seq<string>)
    | Executing(todo: seq<string>)
    | Reporting(todo: seq<string>, success: bool)
    | Marking(todo: seq<string>, success: bool)
    | Queueing(todo: seq<string>, success: bool)
    | Flushing(batch: set<string>)

  /** `acked`, `told` and `accepted` belong to the server; `executed` and `enqueued` are history. */
  datatype Agent = Agent(
    pc: Pc, inbox: Inbox, outbox: set<string>,
    acked: set<string>, told: set<string>, accepted: set<string>, executed: seq<string>, enqueued: set<string>)

  datatype Act =
    | Receive(page: seq<string>)
    | Resume(todo: seq<string>)
    | Flush(batch: set<string>)
    /** Other code of the process queues an event. */
    | Enqueue(event: string)
    /** The next step succeeds; `ok` is the outcome of the work or of reporting its success. */
    | Proceed(ok: bool, event: string, received: set<string>, confirmed: set<string>)
    /** The request reaches the server but its response is lost. */
    | LoseResponse(received: set<string>)
    /** A crash, or an error that leaves the run. */
    | Stop

  /** A resume starts from a listing of the pending items, a flush from queued events, and the
      server confirms only events it has durably accepted. */
  ghost predicate Possible(s: Agent, a: Act) {
    match a
    case Resume(todo) => IsListing(todo, PendingIds(s.inbox))
    case Flush(batch) => batch <= s.outbox
    case Proceed(_, _, received, confirmed) => s.pc.Flushing? ==> confirmed <= s.accepted + s.pc.batch * received
    case _ => true
  }

  function Ack(s: Agent, delivery: string): Agent {
    s.(acked := s.acked + {delivery})
  }

  function Advance(s: Agent, a: Act): Agent
    requires a.Proceed?
  {
    match s.pc
    case Idle => s
    case Receiving(page) =>
      if page == [] then s.(pc := Idle) else s.(inbox := Persist(s.inbox, page[0]), pc := Acknowledging(page))
    case Acknowledging(page) => if page == [] then s.(pc := Idle) else Ack(s, page[0]).(pc := Receiving(page[1..]))
    case Resuming(todo) => if todo == [] then s.(pc := Idle) else Ack(s, todo[0]).(pc := Reacknowledged(todo))
    case Reacknowledged(todo) =>
      if todo == [] then s.(pc := Idle) else s.(inbox := Mark(s.inbox, todo[0], Running), pc := Started(todo))
    case Started(todo) => s.(pc := Executing(todo))
    case Executing(todo) =>
      if todo == [] then s.(pc := Idle) else s.(executed := s.executed + [todo[0]], pc := Reporting(todo, a.ok))
    case Reporting(todo, success) =>
      if todo == [] then s.(pc := Idle)
      else if success && !a.ok then s.(pc := Reporting(todo, false))
      else s.(told := if success then s.told + {todo[0]} else s.told, pc := Marking(todo, success))
    case Marking(todo, success) =>
      if todo == [] then s.(pc := Idle)
      else s.(inbox := Mark(s.inbox, todo[0], if success then Succeeded else Failed), pc := Queueing(todo, success))
    case Queueing(todo, _) =>
      if todo == [] then s.(pc := Idle)
      else s.(outbox := s.outbox + {a.event}, enqueued := s.enqueued + {a.event}, pc := Resuming(todo[1..]))
    case Flushing(batch) =>
      s.(accepted := s.accepted + batch * a.received, outbox := s.outbox - a.confirmed, pc := Idle)
  }

  function Do(s: Agent, a: Act): Agent {
    match a
    case Receive(page) => if s.pc.Idle? then s.(pc := Receiving(page)) else s
    case Resume(todo) => if s.pc.Idle? then s.(pc := Resuming(todo)) else s
    case Flush(batch) => if s.pc.Idle? then s.(pc := Flushing(batch)) else s
    case Enqueue(event) => s.(outbox := s.outbox + {event}, enqueued := s.enqueued + {event})
    case Proceed(_, _, _, _) => Advance(s, a)
    case LoseResponse(received) =>
      (match s.pc
       case Acknowledging(page) => if page == [] then s.(pc := Idle) else Ack(s, page[0]).(pc := Idle)
       case Resuming(todo) => if todo == [] then s.(pc := Idle) else Ack(s, todo[0]).(pc := Idle)
       case Reporting(todo, success) =>
         if todo == [] then s.(pc := Idle)
         else if success then s.(told := s.told + {todo[0]}, pc := Reporting(todo, false)) else s.(pc := Idle)
       case Flushing(batch) => s.(accepted := s.accepted + batch * received, pc := Idle)
       case _ => s.(pc := Idle))
    case Stop => s.(pc := Idle)
  }

  const START := Agent(Idle, map[], {}, {}, {}, {}, [], {})

  ghost predicate Follows(run: seq<Act>, states: seq<Agent>, k: nat)
    requires k < |run| && |states| == |run| + 1
  {
    Possible(states[k], run[k]) && states[k + 1] == Do(states[k], run[k])
  }

  /** A possible run from the first start, with the states it goes through. */
  ghost predicate History(run: seq<Act>, states: seq<Agent>) {
    |states| == |run| + 1 && states[0] == START && forall k: nat :: k < |run| ==> Follows(run, states, k)
  }

  // ---------------------------------------------------------------- invariant

  /** The step runs the work of the delivery. */
  predicate Executes(s: Agent, a: Act, delivery: string) {
    s.pc.Executing? && a.Proceed? && s.pc.todo != [] && s.pc.todo[0] == delivery
  }

  predicate OnItem(pc: Pc) {
    pc.Resuming? || pc.Reacknowledged? || pc.Started? || pc.Executing? || pc.Reporting? || pc.Marking? || pc.Queueing?
  }

  /** The snapshot being resumed holds distinct inbox items; those still to run have not succeeded. */
  ghost predicate SnapshotFits(pc: Pc, inbox: Inbox) {
    OnItem(pc) ==>
      && (forall i, j :: 0 <= i < j < |pc.todo| ==> pc.todo[i] != pc.todo[j])
      && (forall i :: 0 <= i < |pc.todo| ==> pc.todo[i] in inbox)
      && (forall i :: (if pc.Queueing? then 1 else 0) <= i < |pc.todo| ==> inbox[pc.todo[i]] != Succeeded)
  }

  ghost predicate Inv(s: Agent) {
    && s.acked <= s.inbox.Keys
    && (s.pc.Acknowledging? && s.pc.page != [] ==> s.pc.page[0] in s.inbox)
    && SnapshotFits(s.pc, s.inbox)
    && s.enqueued <= s.outbox + s.accepted
  }

  lemma SnapshotStep(s: Agent, a: Act)
    requires SnapshotFits(s.pc, s.inbox) && Possible(s, a)
    ensures SnapshotFits(Do(s, a).pc, Do(s, a).inbox)
  {
    var s' := Do(s, a);
    if a.Resume? && s.pc.Idle? {
      assert forall i :: 0 <= i < |a.todo| ==> a.todo[i] in a.todo;
    } else if OnItem(s.pc) && OnItem(s'.pc) && s' != s && !a.Enqueue? {
      assert s'.pc.todo == s.pc.todo || (s.pc.Queueing? && s'.pc.todo == s.pc.todo[1..]);
      forall i | (if s'.pc.Queueing? then 1 else 0) <= i < |s'.pc.todo|
        ensures s'.pc.todo[i] in s'.inbox && s'.inbox[s'.pc.todo[i]] != Succeeded
      {
        if s.pc.Queueing? {
          assert s'.pc.todo[i] == s.pc.todo[i + 1];
        } else {
          assert s'.pc.todo[i] == s.pc.todo[i];
          assert i > 0 ==> s.pc.todo[0] != s.pc.todo[i];
        }
      }
    }
  }

  /** The executions since `s` do not include the delivery. */
  ghost predicate NotRunBetween(s: Agent, later: Agent, d: string) {
    s.executed <= later.executed && d !in later.executed[|s.executed|..]
  }

  /** A local success is never undone, and its work is never run again. */
  lemma StepKeepsSuccess(s: Agent, a: Act, d: string)
    requires SnapshotFits(s.pc, s.inbox) && Done(s, d)
    ensures Done(Do(s, a), d) && !Executes(s, a, d) && NotRunBetween(s, Do(s, a), d)
  {
    if OnItem(s.pc) && s.pc.todo != [] && !s.pc.Queueing? {
      assert s.inbox[s.pc.todo[0]] != Succeeded;
    }
  }

  lemma StepInv(s: Agent, a: Act)
    requires Inv(s) && Possible(s, a)
    ensures Inv(Do(s, a))
  {
    SnapshotStep(s, a);
    if s.pc.Resuming? && s.pc.todo != [] {
      assert s.pc.todo[0] in s.inbox;
    }
  }

  // ---------------------------------------------------------------- whole runs

  lemma {:induction false} HistoryInv(run: seq<Act>, states: seq<Agent>, n: nat)
    requires History(run, states) && n <= |run|
    ensures Inv(states[n])
  {
    if n > 0 {
      HistoryInv(run, states, n - 1);
      assert Follows(run, states, n - 1);
      StepInv(states[n - 1], run[n - 1]);
    }
  }

  /** At every instant, whatever the server has seen acknowledged is in the durable inbox. */
  lemma AcknowledgedIsDurable(run: seq<Act>, states: seq<Agent>, n: nat)
    requires History(run, states) && n <= |run|
    ensures states[n].acked <= states[n].inbox.Keys
  {
    HistoryInv(run, states, n);
  }

  /** Every event ever enqueued is still in the outbox or was accepted by the server. */
  lemma TelemetryIsConserved(run: seq<Act>, states: seq<Agent>, n: nat)
    requires History(run, states) && n <= |run|
    ensures states[n].enqueued <= states[n].outbox + states[n].accepted
  {
    HistoryInv(run, states, n);
  }

  predicate Done(s: Agent, d: string) {
    d in s.inbox && s.inbox[d] == Succeeded
  }

  lemma {:induction false} SuccessStays(run: seq<Act>, states: seq<Agent>, i: nat, j: nat, d: string)
    requires History(run, states) && i <= j <= |run| && Done(states[i], d)
    ensures Done(states[j], d) && NotRunBetween(states[i], states[j], d)
    decreases j
  {
    if i < j {
      SuccessStays(run, states, i, j - 1, d);
      HistoryInv(run, states, j - 1);
      assert Follows(run, states, j - 1);
      StepKeepsSuccess(states[j - 1], run[j - 1], d);
    }
  }

  lemma HistoryKeepsSuccess(run: seq<Act>, states: seq<Agent>, i: nat)
    requires History(run, states) && i <= |run|
    ensures forall d :: Done(states[i], d) ==> Done(states[|run|], d) && NotRunBetween(states[i], states[|run|], d)
  {
    forall d | Done(states[i], d)
      ensures Done(states[|run|], d) && NotRunBetween(states[i], states[|run|], d)
    {
      SuccessStays(run, states, i, |run|, d);
    }
  }

  /** Local success is absorbing: across crashes and redeliveries the work never runs again. */
  lemma NeverRunsAgain(run: seq<Act>, states: seq<Agent>, i: nat, j: nat, d: string)
    requires History(run, states) && i <= j < |run| && Done(states[i], d)
    ensures Done(states[j], d) && !Executes(states[j], run[j], d)
  {
    SuccessStays(run, states, i, j, d);
    HistoryInv(run, states, j);
    assert Follows(run, states, j);
    StepKeepsSuccess(states[j], run[j], d);
  }

  // ---------------------------------------------------------------- success is earned

  /** What is marked or reported successful was run before, and what is marked was reported before. */
  ghost predicate Earned(s: Agent) {
    && (forall d :: Done(s, d) ==> d in s.executed && d in s.told)
    && (forall d :: d in s.told ==> d in s.executed)
    && ((s.pc.Reporting? || s.pc.Marking?) && s.pc.todo != [] ==> s.pc.todo[0] in s.executed)
    && (s.pc.Marking? && s.pc.success && s.pc.todo != [] ==> s.pc.todo[0] in s.told)
  }

  lemma EarnedStep(s: Agent, a: Act)
    requires Earned(s)
    ensures Earned(Do(s, a))
  {
    var s' := Do(s, a);
    assert || s'.executed == s.executed
           || (s.pc.Executing? && s.pc.todo != [] && s'.executed == s.executed + [s.pc.todo[0]]);
    forall d | Done(s', d)
      ensures d in s'.executed && d in s'.told
    {
      assert Done(s, d) || (s.pc.Marking? && s.pc.todo != [] && s.pc.success && d == s.pc.todo[0]);
    }
  }

  /** In every run a locally succeeded delivery was run and reported, and the server knows only of work that was run. */
  lemma {:induction false} SuccessIsEarned(run: seq<Act>, states: seq<Agent>, n: nat)
    requires History(run, states) && n <= |run|
    ensures Earned(states[n])
  {
    if n > 0 {
      SuccessIsEarned(run, states, n - 1);
      assert Follows(run, states, n - 1);
      EarnedStep(states[n - 1], run[n - 1]);
    }
  }

  /** In every run an acknowledged delivery has been run, or waits in the inbox for the next resume. */
  lemma AcknowledgedIsRunOrPending(run: seq<Act>, states: seq<Agent>, n: nat, d: string)
    requires History(run, states) && n <= |run| && d in states[n].acked && d !in states[n].executed
    ensures d in states[n].inbox
    ensures states[n].inbox[d] == Received || states[n].inbox[d] == Running || states[n].inbox[d] == Failed
    ensures forall todo :: Possible(states[n], Resume(todo)) ==> d in todo
  {
    HistoryInv(run, states, n);
    SuccessIsEarned(run, states, n);
    assert d in PendingIds(states[n].inbox);
  }

  // ---------------------------------------------------------------- why only local success absorbs

  const GO := Proceed(true, "e", {}, {})

  /** From the idle agent to running the first pending task. */
  function StartFirst(s: Agent, todo: seq<string>): Agent {
    Do(Do(Do(Do(s, Resume(todo)), GO), GO), GO)
  }

  /** The work runs, its success is reported, and the agent crashes before marking it. */
  function ReportThenCrash(s: Agent): Agent {
    Do(Do(Do(s, GO), GO), Stop)
  }

  lemma StartFirstSteps(s: Agent, todo: seq<string>)
    requires s.pc.Idle? && todo != [] && todo[0] in s.inbox
    ensures StartFirst(s, todo)
         == s.(pc := Executing(todo), inbox := s.inbox[todo[0] := Running], acked := s.acked + {todo[0]})
  {
  }

  lemma ReportThenCrashSteps(s: Agent)
    requires s.pc.Executing? && s.pc.todo != []
    ensures ReportThenCrash(s)
         == s.(pc := Idle, executed := s.executed + [s.pc.todo[0]], told := s.told + {s.pc.todo[0]})
  {
  }

  /** From every idle state with a pending delivery: the server can be told of success and the work still run again. */
  lemma ToldButRunAgain(s: Agent, todo: seq<string>)
    requires s.pc.Idle? && todo != [] && IsListing(todo, PendingIds(s.inbox))
    ensures var crashed := ReportThenCrash(StartFirst(s, todo));
            && todo[0] in crashed.told && IsListing(todo, PendingIds(crashed.inbox))
            && Executes(StartFirst(crashed, todo), GO, todo[0])
  {
    assert todo[0] in PendingIds(s.inbox);
    StartFirstSteps(s, todo);
    ReportThenCrashSteps(StartFirst(s, todo));
    var crashed := ReportThenCrash(StartFirst(s, todo));
    assert PendingIds(crashed.inbox) == PendingIds(s.inbox);
    StartFirstSteps(crashed, todo);
  }

  /** Stored deliveries keep their state, and new ones are received but not run. */
  ghost predicate OnlyAdds(before: Inbox, after: Inbox) {
    && (forall d :: d in before ==> d in after && after[d] == before[d])
    && (forall d :: d in after && d !in before ==> after[d] == Received)
  }

  /** Only the entry of one delivery may have moved. */
  ghost predicate OnlyMoves(before: Inbox, after: Inbox, d: string) {
    before.Keys == after.Keys && forall other :: other in before && other != d ==> after[other] == before[other]
  }

  /** The delivery succeeded, which the server was told, or it failed. */
  predicate Ended(inbox: Inbox, told: set<string>, d: string)
    requires d in inbox
  {
    (inbox[d] == Succeeded && d in told) || inbox[d] == Failed
  }

  // ---------------------------------------------------------------- the agent's methods

  /** How a request ends for its sender. */
  datatype Reply = Answer | Lost | Undelivered

  /** The agent with what its server knows; `run` and `states` are the history of its steps. */
  class ExampleAgent {
    const state: AgentState
    ghost var acked: set<string>
    ghost var told: set<string>
    var accepted: set<string>
    ghost var executed: seq<string>
    ghost var enqueued: set<string>
    ghost var run: seq<Act>
    ghost var states: seq<Agent>
    ghost var now: Agent

    ghost predicate Recorded()
      reads this
    {
      History(run, states) && states[|run|] == now
    }

    /** The objects' state is where the recorded history leads, with the control flow at `pc`. */
    ghost predicate At(pc: Pc)
      reads this, state
    {
      && Recorded()
      && now == Agent(pc, state.inbox, state.outbox, acked, told, accepted, executed, enqueued)
    }

    constructor ()
      ensures At(Idle) && fresh(state)
    {
      state := new AgentState();
      acked, told, accepted, executed, enqueued, run, states, now := {}, {}, {}, [], {}, [], [START], START;
    }

    ghost method Log(a: Act)
      requires Recorded() && Possible(now, a)
      modifies this`run, this`states, this`now
      ensures Recorded() && now == Do(old(now), a)
      ensures old(run) <= run && old(states) <= states
    {
      now := Do(now, a);
      run, states := run + [a], states + [now];
      forall k: nat | k < |run|
        ensures Follows(run, states, k)
      {
        assert k < |old(run)| ==> Follows(old(run), old(states), k);
      }
    }

    /** Earlier parts of the history stay, and the server's knowledge only grows. */
    twostate predicate Later()
      reads this
    {
      old(run) <= run && old(states) <= states && old(acked) <= acked && old(told) <= told && old(accepted) <= accepted
      && old(executed) <= executed
    }

    method StoreAndAcknowledge(page: seq<string>) returns (ok: bool)
      requires page != [] && At(Receiving(page))
      modifies this, state
      ensures At(if ok then Receiving(page[1..]) else Idle) && Later()
      ensures ok ==> page[0] in state.inbox && page[0] in acked
      ensures old(state.inbox.Keys) <= state.inbox.Keys && OnlyAdds(old(state.inbox), state.inbox)
    {
      state.PersistInbox(page[0]);
      Log(GO);
      var reply: Reply := *;
      if reply.Undelivered? {
        Log(Stop);
        return false;
      }
      acked := acked + {page[0]};
      if reply.Lost? {
        Log(LoseResponse({}));
        return false;
      }
      Log(GO);
      return true;
    }

    /** One page of control events: each is stored before it is acknowledged. */
    method ReceivePage(page: seq<string>) returns (ok: bool)
      requires At(Idle)
      modifies this, state
      ensures At(Idle) && Later()
      ensures ok ==> forall d :: d in page ==> d in state.inbox && d in acked
      ensures OnlyAdds(old(state.inbox), state.inbox)
    {
      Log(Receive(page));
      assert page[0..] == page;
      for i := 0 to |page|
        invariant At(Receiving(page[i..])) && Later()
        invariant forall d :: d in page[..i] ==> d in state.inbox && d in acked
        invariant OnlyAdds(old(state.inbox), state.inbox)
      {
        assert page[i..][1..] == page[i + 1..] && page[..i + 1] == page[..i] + [page[i]];
        ok := StoreAndAcknowledge(page[i..]);
        if !ok {
          return false;
        }
      }
      assert page[|page|..] == [] && page[..|page|] == page;
      Log(GO);
      return true;
    }

    /** The pages of control events; fetching any of them may fail. */
    method ReceiveControlEvents(pages: seq<seq<string>>) returns (ok: bool)
      requires At(Idle)
      modifies this, state
      ensures At(Idle) && Later()
      ensures ok ==> forall page, d :: page in pages && d in page ==> d in acked
    {
      for i := 0 to |pages|
        invariant At(Idle) && Later()
        invariant forall page, d :: page in pages[..i] && d in page ==> d in acked
      {
        assert pages[..i + 1] == pages[..i] + [pages[i]];
        var fetched: bool := *;
        if !fetched {
          return false;
        }
        ok := ReceivePage(pages[i]);
        if !ok {
          return false;
        }
      }
      assert pages[..|pages|] == pages;
      return true;
    }

    method StartTask(todo: seq<string>) returns (ok: bool)
      requires todo != [] && At(Reacknowledged(todo))
      modifies this, state
      ensures At(if ok then Executing(todo) else Idle) && Later() && executed == old(executed)
      ensures OnlyMoves(old(state.inbox), state.inbox, todo[0])
    {
      state.SetInboxState(todo[0], Running);
      Log(GO);
      var reply: Reply := *;
      Log(if reply.Answer? then GO else Stop);
      return reply.Answer?;
    }

    method ReportSuccess(todo: seq<string>) returns (reported: bool)
      requires todo != [] && At(Reporting(todo, true))
      modifies this
      ensures At(if reported then Marking(todo, true) else Reporting(todo, false)) && Later()
      ensures executed == old(executed)
      ensures reported ==> todo[0] in told
    {
      var reply: Reply := *;
      if reply.Undelivered? {
        Log(Proceed(false, "", {}, {}));
        return false;
      }
      told := told + {todo[0]};
      if reply.Lost? {
        Log(LoseResponse({}));
        return false;
      }
      Log(GO);
      return true;
    }

    method ReportFailure(todo: seq<string>) returns (reported: bool)
      requires todo != [] && At(Reporting(todo, false))
      modifies this
      ensures At(if reported then Marking(todo, false) else Idle) && Later() && executed == old(executed)
    {
      var reply: Reply := *;
      if !reply.Answer? {
        Log(Stop);
        return false;
      }
      Log(GO);
      return true;
    }

    /** A success that cannot be reported is reported as a failure. */
    method RunTask(todo: seq<string>) returns (ok: bool, success: bool)
      requires todo != [] && At(Executing(todo))
      modifies this
      ensures At(if ok then Marking(todo, success) else Idle) && Later() && executed == old(executed) + [todo[0]]
      ensures ok && success ==> todo[0] in told
    {
      success := *;
      executed := executed + [todo[0]];
      Log(Proceed(success, "", {}, {}));
      if success {
        success := ReportSuccess(todo);
        if success {
          return true, true;
        }
      }
      ok := ReportFailure(todo);
    }

    method FinishTask(todo: seq<string>, success: bool)
      requires todo != [] && At(Marking(todo, success))
      modifies this, state
      ensures At(Resuming(todo[1..])) && Later() && executed == old(executed)
      ensures todo[0] in old(state.inbox)
        ==> todo[0] in state.inbox && state.inbox[todo[0]] == if success then Succeeded else Failed
      ensures exists event :: event in enqueued && state.outbox == old(state.outbox) + {event}
      ensures OnlyMoves(old(state.inbox), state.inbox, todo[0])
    {
      state.SetInboxState(todo[0], if success then Succeeded else Failed);
      Log(GO);
      var event: string := *;
      state.EnqueueTelemetry(event);
      enqueued := enqueued + {event};
      Log(Proceed(true, event, {}, {}));
    }

    method Execute(todo: seq<string>) returns (ok: bool)
      requires todo != [] && At(Reacknowledged(todo))
      modifies this, state
      ensures At(if ok then Resuming(todo[1..]) else Idle) && Later()
      ensures ok ==> executed == old(executed) + [todo[0]]
      ensures OnlyMoves(old(state.inbox), state.inbox, todo[0])
      ensures ok && todo[0] in state.inbox ==> Ended(state.inbox, told, todo[0])
    {
      ok := StartTask(todo);
      if !ok {
        return false;
      }
      var success;
      ok, success := RunTask(todo);
      if !ok {
        return false;
      }
      FinishTask(todo, success);
      return true;
    }

    method AcknowledgeAgain(todo: seq<string>) returns (ok: bool)
      requires todo != [] && At(Resuming(todo))
      modifies this
      ensures At(if ok then Reacknowledged(todo) else Idle) && Later() && executed == old(executed)
      ensures ok ==> todo[0] in acked
    {
      var reply: Reply := *;
      if !reply.Undelivered? {
        acked := acked + {todo[0]};
      }
      Log(match reply case Answer => GO case Lost => LoseResponse({}) case Undelivered => Stop);
      return reply.Answer?;
    }

    method ResumeOne(todo: seq<string>) returns (ok: bool)
      requires todo != [] && At(Resuming(todo))
      modifies this, state
      ensures At(if ok then Resuming(todo[1..]) else Idle) && Later()
      ensures ok ==> executed == old(executed) + [todo[0]]
      ensures OnlyMoves(old(state.inbox), state.inbox, todo[0])
      ensures ok && todo[0] in state.inbox ==> Ended(state.inbox, told, todo[0])
    {
      ok := AcknowledgeAgain(todo);
      if ok {
        ok := Execute(todo);
      }
    }

    /** Every delivery pending at the start is acknowledged again and run exactly once. */
    method ResumeInbox() returns (ok: bool)
      requires At(Idle)
      modifies this, state
      ensures At(Idle) && Later()
      ensures ok ==> exists items :: IsListing(items, PendingIds(old(state.inbox))) && executed == old(executed) + items
      ensures ok ==> forall d :: d in executed[|old(executed)|..] <==>
                d in old(state.inbox) && (|| old(state.inbox)[d] == Received || old(state.inbox)[d] == Running
                                          || old(state.inbox)[d] == Failed)
      ensures ok ==> forall d :: d in executed[|old(executed)|..] ==> d in state.inbox && Ended(state.inbox, told, d)
    {
      var items := state.ListPendingInbox();
      Log(Resume(items));
      assert items[0..] == items;
      for i := 0 to |items|
        invariant At(Resuming(items[i..])) && Later()
        invariant executed == old(executed) + items[..i]
        invariant old(state.inbox.Keys) <= state.inbox.Keys
        invariant forall k :: 0 <= k < i ==> items[k] in state.inbox && Ended(state.inbox, told, items[k])
      {
        assert items[i..][1..] == items[i + 1..] && items[..i + 1] == items[..i] + [items[i]];
        ok := ResumeOne(items[i..]);
        if !ok {
          return false;
        }
      }
      assert items[|items|..] == [] && items[..|items|] == items;
      Log(GO);
      return true;
    }

    method FlushTelemetry() returns (ok: bool)
      requires At(Idle)
      modifies this, state
      ensures At(Idle) && Later()
      ensures state.inbox == old(state.inbox) && executed == old(executed)
      ensures state.outbox <= old(state.outbox) <= state.outbox + accepted
    {
      assert {} <= state.outbox;
      var batch :| batch <= state.outbox;
      if batch == {} {
        return true;
      }
      Log(Flush(batch));
      var reply: Reply := *;
      if reply.Undelivered? {
        Log(Stop);
        return false;
      }
      var received: set<string> := *;
      accepted := accepted + batch * received;
      if reply.Lost? {
        Log(LoseResponse(received));
        return false;
      }
      assert {} <= accepted;
      var confirmed :| confirmed <= accepted;
      var events := Listing(confirmed);
      state.RemoveTelemetry(events);
      assert state.outbox == old(state.outbox) - confirmed;
      Log(Proceed(true, "", received, confirmed));
      return true;
    }

    /** The phases of a run; the first that fails ends it. */
    method Phases(pages: seq<seq<string>>) returns (ok: bool)
      requires At(Idle)
      modifies this, state
      ensures At(Idle) && Later()
    {
      ok := FlushTelemetry();
      if ok {
        ok := ResumeInbox();
      }
      if ok {
        ok := *;
      }
      if ok {
        var pending: bool := *;
        if pending {
          ok := ReceiveControlEvents(pages);
        }
      }
      if ok {
        ok := ResumeInbox();
      }
      if ok {
        ok := FlushTelemetry();
      }
    }

    /**
     * One run. Whatever fails on the way, the inbox holds every acknowledged delivery, no successful
     * delivery is executed again, and no queued event is lost.
     */
    method RunOnce(pages: seq<seq<string>>) returns (ok: bool)
      requires At(Idle)
      modifies this, state
      ensures At(Idle) && Later()
      ensures acked <= state.inbox.Keys && enqueued <= state.outbox + accepted
      ensures forall d :: d in old(state.inbox) && old(state.inbox)[d] == Succeeded ==>
                d in state.inbox && state.inbox[d] == Succeeded && d !in executed[|old(executed)|..]
    {
      ok := Phases(pages);
      HistoryInv(run, states, |run|);
      HistoryKeepsSuccess(run, states, |old(run)|);
      assert states[|old(run)|] == old(now);
      assert forall d :: d in old(state.inbox) && old(state.inbox)[d] == Succeeded ==> Done(old(now), d);
    }
  }
}
