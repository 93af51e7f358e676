/** What a CREATE that finds the server's table full does to its client and to the clients of the same node. */
module FailedCreates {
  import opened Messages
  import L = LocalIds
  import opened Routing
  import opened Node
  import opened Connection
  import opened Pipeline
  import opened System
  import opened SystemInvariant
  import opened ServerSteps
  import opened Safety

  /** The event fails a CREATE of a client of node `n`. */
  predicate FailsFor(st: State, e: Event, n: int) {
    CreateFails(st, e) && st.servers[e.server].phase.request.node == n
  }

  /** How many CREATEs of node `n` failed in the first `i` events. */
  ghost function Fails(states: seq<State>, events: seq<Event>, i: nat, n: int): nat
    requires i <= |events| < |states|
  {
    if i == 0 then 0
    else Fails(states, events, i - 1, n) + if FailsFor(states[i - 1], events[i - 1], n) then 1 else 0
  }

  lemma {:induction false} FailsMeaning(states: seq<State>, events: seq<Event>, i: nat, n: int)
    requires i <= |events| < |states|
    ensures Fails(states, events, i, n) == 0 <==> forall j | 0 <= j < i :: !FailsFor(states[j], events[j], n)
  {
    if i > 0 { FailsMeaning(states, events, i - 1, n); }
  }

  predicate SamePlaces(st: State, next: State) {
    && |next.nodes| == |st.nodes| && |next.servers| == |st.servers|
    && (forall n | 0 <= n < |st.nodes| :: next.nodes[n].server == st.nodes[n].server)
  }

  predicate SameFailures(st: State, next: State) {
    |next.servers| == |st.servers| && forall s | 0 <= s < |st.servers| :: next.servers[s].failed == st.servers[s].failed
  }

  lemma StartAddsNoFailure(sv: Server, files: Db.Files, id: int)
    requires sv.workerQueue != []
    ensures Start(sv, files, id).0.failed == sv.failed
  {
  }

  lemma HandlersStay(b: Broker)
    ensures b.requests != [] ==> HandleRequest(b).server == b.server
    ensures b.down != [] ==> HandleReply(b).server == b.server
  {
  }

  /** The wiring never changes. */
  lemma StepKeepsPlaces(st: State, e: Event)
    requires Enabled(st, e)
    ensures SamePlaces(st, After(st, e))
  {
    if e.NodeHandlesRequest? || e.NodeHandlesReply? { HandlersStay(st.nodes[e.node]); }
  }

  lemma StepKeepsFailures(st: State, e: Event)
    requires Enabled(st, e) && !e.WorkerFinishes?
    ensures SameFailures(st, After(st, e))
  {
    if e.WorkerStarts? { StartAddsNoFailure(st.servers[e.server], st.files, e.id); }
  }

  /** A server's list of failures grows by the failing event only. */
  lemma StepFailures(st: State, e: Event, n: nat)
    requires Inv(st) && Enabled(st, e) && n < |st.nodes|
    ensures SamePlaces(st, After(st, e)) && Wired(After(st, e))
    ensures |OfNode(ServerOf(After(st, e), n).failed, n)|
            == |OfNode(ServerOf(st, n).failed, n)| + if FailsFor(st, e, n) then 1 else 0
  {
    StepKeepsPlaces(st, e);
    if e.WorkerFinishes? {
      FinishFailures(st, e.server, n);
    } else {
      StepKeepsFailures(st, e);
    }
  }

  lemma FinishFailures(st: State, s: nat, n: nat)
    requires Inv(st) && Enabled(st, WorkerFinishes(s)) && n < |st.nodes|
    ensures |OfNode(ServerOf(After(st, WorkerFinishes(s)), n).failed, n)|
         == |OfNode(ServerOf(st, n).failed, n)| + if FailsFor(st, WorkerFinishes(s), n) then 1 else 0
  {
    var sv := st.servers[s];
    assert ServerInv(st.nodes, s, sv);
    if CreateFails(st, WorkerFinishes(s)) {
      OfNodeAppend(sv.failed, sv.phase.request.(msg := CreateReply(sv.table, sv.phase.request.msg, sv.phase.id)), n);
    }
  }

  lemma {:induction false} NodesStay(states: seq<State>, events: seq<Event>, i: nat)
    requires IsRun(states, events) && i < |states|
    ensures |states[i].nodes| == |states[0].nodes|
  {
    if i > 0 {
      NodesStay(states, events, i - 1);
      StepKeepsPlaces(states[i - 1], events[i - 1]);
    }
  }

  lemma {:induction false} FailuresAreCounted(states: seq<State>, events: seq<Event>, i: nat, n: nat)
    requires IsRun(states, events) && i < |states| && n < |states[0].nodes|
    ensures Wired(states[i]) && |states[i].nodes| == |states[0].nodes|
    ensures |OfNode(ServerOf(states[i], n).failed, n)| == Fails(states, events, i, n)
  {
    if i > 0 {
      FailuresAreCounted(states, events, i - 1, n);
      RunsAreSafe(states, events, i - 1);
      StepFailures(states[i - 1], events[i - 1], n);
    }
  }

  /** The worker is about to answer a CREATE. */
  predicate AnswersCreate(st: State, e: Event) {
    e.WorkerFinishes? && e.server < |st.servers| && st.servers[e.server].phase.Creating?
  }

  /** Ids are acknowledged in the order in which the node registered its clients, so an answer goes to the client that
      was registered as many places before the one that asked as CREATEs of the node have failed. */
  lemma AnswersAreShifted(states: seq<State>, events: seq<Event>, i: nat)
    requires IsRun(states, events) && i < |events| && AnswersCreate(states[i], events[i])
    ensures var sv := states[i].servers[events[i].server]; var n := sv.phase.request.node;
            && 0 <= n < |states[i].nodes|
            && var (registered, k, failures) := (states[i].nodes[n].registered, |OfNode(sv.acked, n)|,
                                                 Fails(states, events, i, n));
               && k + failures < |registered|
               && registered[k + failures] == sv.phase.request.client
               && OwnerOf(states[i].nodes, sv) == registered[k]
  {
    RunsAreSafe(states, events, i);
    var st, s := states[i], events[i].server;
    var sv := st.servers[s];
    RequestInHand(st, s);
    var n := sv.phase.request.node;
    assert ServerInv(st.nodes, s, sv) && NodeInv(st, n);
    NodesStay(states, events, i);
    FailuresAreCounted(states, events, i, n);
    var v := ViewFor(st.nodes[n], n, sv);
    HeadCreator(v);
    assert v.registered == v.acked + (Stuck(v) + Creators(v.up));
  }

  /** An acknowledgement returns to the client that asked if and only if no earlier CREATE of its node failed;
      in any case it is addressed to the owner. */
  lemma AcknowledgementReturnsIffNoneFailed(states: seq<State>, events: seq<Event>, i: nat)
    requires IsRun(states, events) && i < |events| && AnswersCreate(states[i], events[i])
    requires !CreateFails(states[i], events[i])
    ensures var (sv, after) := (states[i].servers[events[i].server], states[i + 1].servers[events[i].server]);
            var (t, owner) := (sv.phase.request, OwnerOf(states[i].nodes, sv));
            && (owner == t.client <==> forall j | 0 <= j < i :: !FailsFor(states[j], events[j], t.node))
            && after.respQueue
               == Push(sv.respQueue, t.msg.mtype,
                       Tagged(t.msg.(globalId := sv.phase.id, kind := ACK_CREATE), t.node, owner))
  {
    RunsAreSafe(states, events, i);
    var st, s := states[i], events[i].server;
    var sv := st.servers[s];
    RequestInHand(st, s);
    var n := sv.phase.request.node;
    assert ServerInv(st.nodes, s, sv) && NodeInv(st, n);
    NodesStay(states, events, i);
    FailuresAreCounted(states, events, i, n);
    FailsMeaning(states, events, i, n);
    OwnerIsSenderIffNoneStuck(ViewFor(st.nodes[n], n, sv));
  }

  /** The worker's error reply, tagged with nobody. */
  function Failure(sv: Server): Tagged
    requires sv.phase.Creating?
  {
    var t := sv.phase.request;
    Tagged(t.msg.(globalId := sv.phase.id, kind := ACK_ERROR), t.node, NOBODY)
  }

  /** The client waits, is stuck, and nothing is under way for it. */
  ghost predicate LeftWaiting(st: State, n: int, c: int) {
    && Wired(st) && 0 <= n < |st.nodes|
    && c in StuckClients(st, n) && c in st.nodes[n].waiting
    && InFlight(ViewFor(st.nodes[n], n, ServerOf(st, n)), c) == 0
  }

  lemma FailureSticks(st: State, s: nat)
    requires Inv(st) && Enabled(st, WorkerFinishes(s)) && CreateFails(st, WorkerFinishes(s))
    requires Inv(After(st, WorkerFinishes(s)))
    ensures var t := st.servers[s].phase.request;
            LeftWaiting(After(st, WorkerFinishes(s)), t.node, t.client)
  {
    var (sv, next) := (st.servers[s], After(st, WorkerFinishes(s)));
    RequestInHand(st, s);
    var t := sv.phase.request;
    var n := t.node;
    assert ServerInv(st.nodes, s, sv) && NodeInv(st, n) && NodeInv(next, n);
    var v := ViewFor(st.nodes[n], n, sv);
    FinishCreateView(st.nodes[n], n, sv, OwnerOf(st.nodes, sv));
    FailedKeeps(v, Leave(Failure(sv)), t.(msg := Failure(sv).msg));
    assert t.client in Stuck(v) + [v.up[0].client];
  }

  lemma FailureIsQueued(st: State, s: nat)
    requires Inv(st) && Enabled(st, WorkerFinishes(s)) && CreateFails(st, WorkerFinishes(s))
    ensures var sv := st.servers[s];
            After(st, WorkerFinishes(s)).servers[s].respQueue
            == Push(sv.respQueue, sv.phase.request.msg.mtype, Failure(sv))
  {
    RequestInHand(st, s);
    assert ServerInv(st.nodes, s, st.servers[s]);
  }

  /** The error reply of a failed CREATE is for nobody: its client goes on waiting and nothing is under way for it. */
  lemma FailedClientIsStuck(states: seq<State>, events: seq<Event>, i: nat)
    requires IsRun(states, events) && i < |events| && CreateFails(states[i], events[i])
    ensures var (sv, next) := (states[i].servers[events[i].server], states[i + 1]);
            && next.servers[events[i].server].respQueue
               == Push(sv.respQueue, sv.phase.request.msg.mtype, Failure(sv))
            && LeftWaiting(next, sv.phase.request.node, sv.phase.request.client)
  {
    RunsAreSafe(states, events, i);
    RunsAreSafe(states, events, i + 1);
    FailureIsQueued(states[i], events[i].server);
    FailureSticks(states[i], events[i].server);
  }

  /** Of two clients whose ids are pending at a node, 7 before 8, the next id is given to 7,
      whoever it was created for. */
  lemma OldestPendingGetsTheId(ack: Msg)
    requires ack.kind == ACK_CREATE && ack.mtype == 3
    ensures var ids := [L.Entry(7, L.PENDING), L.Entry(8, L.PENDING)];
            Respond(ids, ack) == ([L.Entry(7, 3), L.Entry(8, L.PENDING)], ack.(mtype := 7))
  {
    var ids := [L.Entry(7, L.PENDING), L.Entry(8, L.PENDING)];
    L.GlobalIndexIs(ids, L.PENDING, 0);
    assert L.LocalOf(ids, L.PENDING) == 7;
    assert L.Assign(ids, 3) == [L.Entry(7, 3), L.Entry(8, L.PENDING)];
  }
}
