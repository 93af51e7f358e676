/** A run in which a CREATE finds the table full and the id of a later one goes to the wrong client. */
module FullTable {
  import opened Messages
  import L = LocalIds
  import G = GlobalIds
  import opened Db
  import opened Routing
  import opened Node
  import opened Connection
  import opened Pipeline
  import opened System
  import opened SystemInvariant
  import opened ServerSteps
  import opened Safety
  import opened FailedCreates

  // ---- Building a run ----

  /** The events lead from one state to another. */
  ghost predicate Path(st: State, events: seq<Event>, last: State)
    decreases events
  {
    if events == [] then st == last else Enabled(st, events[0]) && Path(After(st, events[0]), events[1..], last)
  }

  ghost function Trace(st: State, events: seq<Event>, last: State): (states: seq<State>)
    requires Path(st, events, last)
    ensures |states| == |events| + 1 && states[0] == st
    decreases events
  {
    if events == [] then [st] else [st] + Trace(After(st, events[0]), events[1..], last)
  }

  lemma {:induction false} PathAppend(st: State, events: seq<Event>, last: State, e: Event)
    requires Path(st, events, last) && Enabled(last, e)
    ensures Path(st, events + [e], After(last, e))
    decreases events
  {
    if events == [] {
      assert [] + [e] == [e] && [e][1..] == [];
    } else {
      assert (events + [e])[1..] == events[1..] + [e];
      PathAppend(After(st, events[0]), events[1..], last, e);
    }
  }

  /** A path that starts with another one passes through where that one ends. */
  lemma {:induction false} TraceAt(st: State, events: seq<Event>, last: State, start: seq<Event>, mid: State)
    requires Path(st, events, last) && Path(st, start, mid) && start <= events
    ensures Trace(st, events, last)[|start|] == mid
    decreases events
  {
    if start != [] {
      assert start[0] == events[0] && start[1..] <= events[1..];
      TraceAt(After(st, events[0]), events[1..], last, start[1..], mid);
    }
  }

  lemma {:induction false} TraceSteps(st: State, events: seq<Event>, last: State, i: nat)
    requires Path(st, events, last) && i < |events|
    ensures var states := Trace(st, events, last);
            Enabled(states[i], events[i]) && states[i + 1] == After(states[i], events[i])
    decreases events
  {
    if i > 0 { TraceSteps(After(st, events[0]), events[1..], last, i - 1); }
  }

  lemma PathIsRun(st: State, events: seq<Event>, last: State)
    requires Path(st, events, last) && Init(st)
    ensures IsRun(Trace(st, events, last), events)
  {
    var states := Trace(st, events, last);
    forall i | 0 <= i < |events| ensures Enabled(states[i], events[i]) && states[i + 1] == After(states[i], events[i]) {
      TraceSteps(st, events, last, i);
    }
  }

  function Ask(kind: Kind, n: int, c: int): Tagged {
    Tagged(Msg(c, 0, kind, "a", "", 0), n, c)
  }

  /** The state once the client's request is in the worker's queue. */
  function Asked(st: State, n: nat, t: Tagged, ids: seq<L.Entry>, request: Msg): State
    requires Wired(st) && n < |st.nodes|
  {
    var (b, sv) := (st.nodes[n], ServerOf(st, n));
    WithServer(WithNode(st, n, b.(ids := ids, waiting := b.waiting + {t.client},
                                  registered := if t.msg.kind == CREATE then b.registered + [t.client]
                                                else b.registered)),
               b.server, sv.(workerQueue := sv.workerQueue + [Arrive(t.(msg := request), b.pid)]))
  }

  function Asking(n: nat, t: Tagged): seq<Event> {
    [ClientSends(n, t)] + [NodeHandlesRequest(n)] + [RequestArrives(n)]
  }

  /** The client may send, and its node takes the request up. */
  ghost predicate MayAsk(st: State, n: nat, t: Tagged, ids: seq<L.Entry>, request: Msg) {
    && Wired(st) && n < |st.nodes| && st.nodes[n].requests == [] && st.nodes[n].up == []
    && FromClient(t) && t.node == n && t.client !in st.nodes[n].waiting
    && (forall inbox :: Request(st.nodes[n].ids, inbox, t.msg) == Forward(ids, request))
    && Acceptable(Arrive(t.(msg := request), st.nodes[n].pid).msg)
  }

  lemma AskingSteps(st: State, n: nat, t: Tagged, ids: seq<L.Entry>, request: Msg) returns (sent: State, handled: State)
    requires MayAsk(st, n, t, ids, request)
    ensures Enabled(st, ClientSends(n, t)) && After(st, ClientSends(n, t)) == sent
    ensures Enabled(sent, NodeHandlesRequest(n)) && After(sent, NodeHandlesRequest(n)) == handled
    ensures Enabled(handled, RequestArrives(n)) && After(handled, RequestArrives(n)) == Asked(st, n, t, ids, request)
  {
    sent := After(st, ClientSends(n, t));
    assert sent.nodes[n].requests == [t] && [t][1..] == [];
    handled := After(sent, NodeHandlesRequest(n));
    var up := t.(msg := request);
    assert handled.nodes[n].up == [up] && [up][1..] == [];
    ArrivedIsAsked(st, n, t, ids, request, handled);
  }

  lemma ArrivedIsAsked(st: State, n: nat, t: Tagged, ids: seq<L.Entry>, request: Msg, handled: State)
    requires Wired(st) && n < |st.nodes| && st.nodes[n].requests == [] && st.nodes[n].up == []
    requires Acceptable(Arrive(t.(msg := request), st.nodes[n].pid).msg)
    requires var b := st.nodes[n];
             handled == WithNode(st, n, b.(ids := ids, waiting := b.waiting + {t.client}, up := [t.(msg := request)],
                                           registered := if t.msg.kind == CREATE then b.registered + [t.client]
                                                         else b.registered))
    ensures Enabled(handled, RequestArrives(n)) && After(handled, RequestArrives(n)) == Asked(st, n, t, ids, request)
  {
    assert [t.(msg := request)][1..] == [];
    var arrived := After(handled, RequestArrives(n));
    assert arrived.nodes[n] == Asked(st, n, t, ids, request).nodes[n];
    assert arrived.nodes == Asked(st, n, t, ids, request).nodes;
  }

  lemma RequestGoesUp(begin: State, events: seq<Event>, st: State, n: nat, t: Tagged, ids: seq<L.Entry>, request: Msg)
    requires Path(begin, events, st) && MayAsk(st, n, t, ids, request)
    ensures Path(begin, events + Asking(n, t), Asked(st, n, t, ids, request))
  {
    var sent, handled := AskingSteps(st, n, t, ids, request);
    PathAppend(begin, events, st, ClientSends(n, t));
    PathAppend(begin, events + [ClientSends(n, t)], sent, NodeHandlesRequest(n));
    PathAppend(begin, events + [ClientSends(n, t)] + [NodeHandlesRequest(n)], handled, RequestArrives(n));
    assert events + [ClientSends(n, t)] + [NodeHandlesRequest(n)] + [RequestArrives(n)] == events + Asking(n, t);
  }

  // ---- The worker ----

  /** The worker has a CREATE in hand. */
  function InHandOf(st: State, id: int): State
    requires |st.servers| == 1 && st.servers[0].workerQueue != [] && st.servers[0].workerQueue[0].msg.kind == CREATE
  {
    var (sv, files) := Start(st.servers[0], st.files, id);
    State(st.nodes, [sv], files)
  }

  function Answered(st: State): State
    requires |st.servers| == 1 && CanFinish(st.servers[0].phase)
  {
    st.(servers := [Finish(st.servers[0], OwnerOf(st.nodes, st.servers[0]))])
  }

  /** The worker takes the next CREATE and answers it. */
  lemma CreateIsServed(begin: State, events: seq<Event>, st: State, id: int)
    requires Path(begin, events, st) && Wired(st) && |st.servers| == 1
    requires st.servers[0].phase.Idle? && st.servers[0].workerQueue != []
    requires st.servers[0].workerQueue[0].msg.kind == CREATE && IsNextId(st.files.users.Keys, id)
    ensures Path(begin, events + [WorkerStarts(0, id)], InHandOf(st, id))
    ensures Enabled(InHandOf(st, id), WorkerFinishes(0))
    ensures Path(begin, events + [WorkerStarts(0, id)] + [WorkerFinishes(0)], Answered(InHandOf(st, id)))
  {
    var started := InHandOf(st, id);
    assert After(st, WorkerStarts(0, id)) == started;
    PathAppend(begin, events, st, WorkerStarts(0, id));
    assert After(started, WorkerFinishes(0)) == Answered(started);
    PathAppend(begin, events + [WorkerStarts(0, id)], started, WorkerFinishes(0));
  }

  /** The worker takes the next DESTROY and answers it. */
  lemma DestroyIsServed(begin: State, events: seq<Event>, st: State) returns (next: State)
    requires Path(begin, events, st) && Wired(st) && |st.servers| == 1
    requires st.servers[0].phase.Idle? && st.servers[0].workerQueue != []
    requires var m := st.servers[0].workerQueue[0].msg;
             m.kind == DESTROY && m.mtype in st.files.users && G.Has(st.servers[0].table, m.mtype)
    ensures Path(begin, events + [WorkerStarts(0, 1)] + [WorkerFinishes(0)], next)
    ensures |next.servers| == 1 && next.nodes == st.nodes
    ensures var (sv, m, after) := (st.servers[0], st.servers[0].workerQueue[0].msg, next.servers[0]);
            && next.files == Deleted(st.files, m.mtype)
            && after.phase.Idle? && after.workerQueue == sv.workerQueue[1..] && |after.table| == |sv.table| - 1
  {
    var m := st.servers[0].workerQueue[0].msg;
    var started := After(st, WorkerStarts(0, 1));
    PathAppend(begin, events, st, WorkerStarts(0, 1));
    next := After(started, WorkerFinishes(0));
    PathAppend(begin, events + [WorkerStarts(0, 1)], started, WorkerFinishes(0));
    G.HasIndex(st.servers[0].table, m.mtype);
    G.WithoutShifts(st.servers[0].table, m.mtype);
  }

  // ---- Filling the table ----

  /** How many of the first `k` clients are at node `j`, ten at each. */
  function ClientsAt(k: nat, j: nat): nat {
    if k <= 10 * j then 0 else if k >= 10 * j + 10 then 10 else k - 10 * j
  }

  /** The node is idle and has registered its share of the first `k` clients. */
  ghost predicate NodeFilled(b: Broker, k: nat, j: nat) {
    && b.server == 0 && b.pid == j + 1 && b.requests == [] && b.up == [] && |b.ids| == ClientsAt(k, j)
    && |b.registered| == ClientsAt(k, j)
    && (forall i | 0 <= i < |b.ids| :: b.ids[i].local <= k) && (forall c | c in b.waiting :: c <= k)
  }

  ghost predicate ServerFilled(sv: Server, files: Files, k: nat) {
    && sv.phase.Idle? && sv.workerQueue == [] && |sv.table| == k
    && (forall g :: g in files.users <==> 1 <= g <= k)
  }

  /** Client 1 knows that it has been registered with id 1, and has nothing to wait for. */
  ghost predicate FirstIsFree(b: Broker, sv: Server) {
    && b.ids != [] && b.ids[0] == L.Entry(1, 1) && 1 !in b.waiting
    && sv.table != [] && sv.table[0].globalId == 1
  }

  ghost predicate Filled(st: State, k: nat) {
    && |st.servers| == 1 && |st.nodes| == 6 && (forall j | 0 <= j < 6 :: NodeFilled(st.nodes[j], k, j))
    && ServerFilled(st.servers[0], st.files, k) && FirstIsFree(st.nodes[0], st.servers[0])
  }

  /** The CREATE of client `k + 1` is in the worker's queue. */
  ghost predicate HalfFilled(st: State, k: nat) {
    && Wired(st) && |st.servers| == 1 && |st.nodes| == 6
    && (forall j | 0 <= j < 6 :: NodeFilled(st.nodes[j], k + 1, j))
    && st.servers[0].workerQueue == [Arrive(Ask(CREATE, k / 10, k + 1), k / 10 + 1)]
    && ServerFilled(st.servers[0].(workerQueue := []), st.files, k) && FirstIsFree(st.nodes[0], st.servers[0])
  }

  lemma NextIsAsked(st: State, k: nat) returns (asked: State)
    requires Filled(st, k) && 1 <= k < MAX_CLIENTS
    ensures var (n, t) := (k / 10, Ask(CREATE, k / 10, k + 1));
            && MayAsk(st, n, t, st.nodes[n].ids + [L.Entry(k + 1, L.PENDING)], t.msg)
            && asked == Asked(st, n, t, st.nodes[n].ids + [L.Entry(k + 1, L.PENDING)], t.msg)
    ensures HalfFilled(asked, k)
  {
    var (n, t) := (k / 10, Ask(CREATE, k / 10, k + 1));
    assert NodeFilled(st.nodes[n], k, n) && |st.nodes[n].ids| < MAX_LOCAL_CLIENTS;
    asked := Asked(st, n, t, st.nodes[n].ids + [L.Entry(k + 1, L.PENDING)], t.msg);
    assert [] + [Arrive(t, n + 1)] == [Arrive(t, n + 1)];
    forall j | 0 <= j < 6 ensures NodeFilled(asked.nodes[j], k + 1, j) {
      assert NodeFilled(st.nodes[j], k, j);
    }
  }

  lemma NextAsks(begin: State, events: seq<Event>, st: State, k: nat) returns (events': seq<Event>, asked: State)
    requires Path(begin, events, st) && Filled(st, k) && 1 <= k < MAX_CLIENTS
    ensures Path(begin, events', asked) && HalfFilled(asked, k)
  {
    var (n, t) := (k / 10, Ask(CREATE, k / 10, k + 1));
    asked := NextIsAsked(st, k);
    RequestGoesUp(begin, events, st, n, t, st.nodes[n].ids + [L.Entry(k + 1, L.PENDING)], t.msg);
    events' := events + Asking(n, t);
  }

  lemma ServedIsFilled(asked: State, k: nat)
    requires HalfFilled(asked, k) && 1 <= k < MAX_CLIENTS
    ensures asked.servers[0].phase.Idle? && IsNextId(asked.files.users.Keys, k + 1)
    ensures Filled(Answered(InHandOf(asked, k + 1)), k + 1)
  {
  }

  lemma FillOne(begin: State, events: seq<Event>, st: State, k: nat) returns (events': seq<Event>, next: State)
    requires Path(begin, events, st) && Filled(st, k) && 1 <= k < MAX_CLIENTS
    ensures Path(begin, events', next) && Filled(next, k + 1)
  {
    var asked;
    events', asked := NextAsks(begin, events, st, k);
    ServedIsFilled(asked, k);
    CreateIsServed(begin, events', asked, k + 1);
    next := Answered(InHandOf(asked, k + 1));
    events' := events' + [WorkerStarts(0, k + 1)] + [WorkerFinishes(0)];
  }

  /** Six nodes at one server, before anything has happened. */
  function Beginning(): State {
    State(seq(6, j => Broker(0, j + 1, [], [], [], [], map[], map[], {}, {}, [])),
          [Server(1, 9, [], map[], [], [], [], map[], [], Idle)], Files(map[], map[]))
  }

  lemma BeginningIsInit()
    ensures Init(Beginning()) && Path(Beginning(), [], Beginning())
  {
  }

  /** The node takes in the acknowledgement of its only client, which receives it. */
  lemma AcknowledgementComesDown(begin: State, events: seq<Event>, st: State, ack: Tagged)
    returns (events': seq<Event>, next: State)
    requires Path(begin, events, st) && Wired(st) && |st.nodes| > 0 && |st.servers| == 1
    requires st.nodes[0].ids == [L.Entry(1, L.PENDING)] && st.nodes[0].down == [] && st.nodes[0].replies == map[]
    requires QueueOf(st.servers[0].respQueue, st.nodes[0].pid) == [ack]
    requires ack.msg.kind == ACK_CREATE && ack.msg.globalId == 1
    ensures Path(begin, events', next) && Wired(next)
    ensures |next.nodes| == |st.nodes| && forall j | 1 <= j < |st.nodes| :: next.nodes[j] == st.nodes[j]
    ensures |next.servers| == 1 && next.files == st.files
    ensures next.servers[0] == st.servers[0].(respQueue := next.servers[0].respQueue)
    ensures var (b, after) := (st.nodes[0], next.nodes[0]);
            after == b.(ids := [L.Entry(1, 1)], replies := after.replies, waiting := b.waiting - {1})
  {
    var left := After(st, ReplyLeaves(0));
    PathAppend(begin, events, st, ReplyLeaves(0));
    assert left.nodes[0].down == [Leave(ack)] && [Leave(ack)][1..] == [];
    L.GlobalIndexIs([L.Entry(1, L.PENDING)], L.PENDING, 0);
    assert L.Assign([L.Entry(1, L.PENDING)], 1) == [L.Entry(1, 1)];
    assert Respond(left.nodes[0].ids, Leave(ack).msg).1.mtype == 1;
    var handled := After(left, NodeHandlesReply(0));
    events' := events + [ReplyLeaves(0)];
    PathAppend(begin, events', left, NodeHandlesReply(0));
    next := After(handled, ClientReceives(0, 1));
    events' := events' + [NodeHandlesReply(0)];
    PathAppend(begin, events', handled, ClientReceives(0, 1));
    events' := events' + [ClientReceives(0, 1)];
  }

  /** The first CREATE in the worker's queue. */
  function FirstAsked(): State {
    var t := Ask(CREATE, 0, 1);
    Asked(Beginning(), 0, t, [L.Entry(1, L.PENDING)], t.msg)
  }

  lemma FirstAsks() returns (events: seq<Event>)
    ensures Path(Beginning(), events, FirstAsked())
    ensures FirstAsked().servers[0].workerQueue == [Arrive(Ask(CREATE, 0, 1), 1)]
  {
    var t := Ask(CREATE, 0, 1);
    BeginningIsInit();
    assert [] + [L.Entry(1, L.PENDING)] == [L.Entry(1, L.PENDING)];
    RequestGoesUp(Beginning(), [], Beginning(), 0, t, [L.Entry(1, L.PENDING)], t.msg);
    events := [] + Asking(0, t);
  }

  lemma FirstClient() returns (events: seq<Event>, st: State)
    ensures Path(Beginning(), events, st) && Filled(st, 1)
  {
    events := FirstAsks();
    CreateIsServed(Beginning(), events, FirstAsked(), 1);
    var served := Answered(InHandOf(FirstAsked(), 1));
    events := events + [WorkerStarts(0, 1)] + [WorkerFinishes(0)];
    var reply := CreateReply([], Arrive(Ask(CREATE, 0, 1), 1).msg, 1);
    var ack := Tagged(reply, 0, OwnerOf(FirstAsked().nodes, InHandOf(FirstAsked(), 1).servers[0]));
    assert QueueOf(served.servers[0].respQueue, 1) == [] + [ack];
    events, st := AcknowledgementComesDown(Beginning(), events, served, ack);
    forall j | 0 <= j < 6 ensures NodeFilled(st.nodes[j], 1, j) {
      assert j > 0 ==> st.nodes[j] == Beginning().nodes[j];
    }
  }

  lemma TableFills() returns (events: seq<Event>, st: State)
    ensures Path(Beginning(), events, st) && Filled(st, 50)
  {
    events, st := FirstClient();
    for k := 1 to MAX_CLIENTS
      invariant Path(Beginning(), events, st) && Filled(st, k)
    {
      events, st := FillOne(Beginning(), events, st, k);
    }
  }

  // ---- One place too few ----

  /** A full table, a CREATE of client 51 that the worker will take first, a DESTROY of client 1 that will make room,
      and a CREATE of client 52 at the node of 51. */
  ghost predicate Waiting(st: State) {
    && Wired(st) && |st.servers| == 1 && |st.nodes| == 6
    && var sv := st.servers[0];
       && sv.phase.Idle? && |sv.table| == MAX_CLIENTS && G.Has(sv.table, 1)
       && sv.workerQueue == [Arrive(Ask(CREATE, 5, 51), 6), Ask(DESTROY, 0, 1), Arrive(Ask(CREATE, 5, 52), 6)]
       && st.nodes[5].registered == [51, 52] && (forall g :: g in st.files.users <==> 1 <= g <= MAX_CLIENTS)
  }

  ghost predicate TwoWaiting(st: State) {
    && Wired(st) && |st.servers| == 1 && |st.nodes| == 6
    && var (sv, b) := (st.servers[0], st.nodes[5]);
       && sv.phase.Idle? && |sv.table| == MAX_CLIENTS && G.Has(sv.table, 1)
       && sv.workerQueue == [Arrive(Ask(CREATE, 5, 51), 6), Ask(DESTROY, 0, 1)]
       && b.server == 0 && b.pid == 6 && b.requests == [] && b.up == [] && |b.ids| == 1 && 52 !in b.waiting
       && b.registered == [51] && (forall g :: g in st.files.users <==> 1 <= g <= MAX_CLIENTS)
  }

  lemma TwoRequests() returns (events: seq<Event>, st: State)
    ensures Path(Beginning(), events, st) && TwoWaiting(st)
  {
    var filled;
    events, filled := TableFills();
    assert NodeFilled(filled.nodes[5], MAX_CLIENTS, 5) && NodeFilled(filled.nodes[0], MAX_CLIENTS, 0);
    var t, d := Ask(CREATE, 5, 51), Ask(DESTROY, 0, 1);
    RequestGoesUp(Beginning(), events, filled, 5, t, [L.Entry(51, L.PENDING)], t.msg);
    var one := Asked(filled, 5, t, [L.Entry(51, L.PENDING)], t.msg);
    L.LocalIndexIs(one.nodes[0].ids, 1, 0);
    events := events + Asking(5, t);
    RequestGoesUp(Beginning(), events, one, 0, d, one.nodes[0].ids, d.msg);
    st := Asked(one, 0, d, one.nodes[0].ids, d.msg);
    events := events + Asking(0, d);
    assert st.servers[0].table[0].globalId == 1;
  }

  lemma ThreeRequests() returns (events: seq<Event>, st: State)
    ensures Path(Beginning(), events, st) && Waiting(st)
  {
    var two;
    events, two := TwoRequests();
    var t := Ask(CREATE, 5, 52);
    RequestGoesUp(Beginning(), events, two, 5, t, two.nodes[5].ids + [L.Entry(52, L.PENDING)], t.msg);
    st := Asked(two, 5, t, two.nodes[5].ids + [L.Entry(52, L.PENDING)], t.msg);
    events := events + Asking(5, t);
  }

  /** The worker is about to fail the CREATE of 51. */
  ghost predicate Failing(failing: State) {
    && Wired(failing) && |failing.servers| == 1 && |failing.nodes| == 6
    && Enabled(failing, WorkerFinishes(0)) && FailsFor(failing, WorkerFinishes(0), 5)
    && failing.servers[0].phase.request.client == 51 && G.Has(failing.servers[0].table, 1)
    && failing.servers[0].workerQueue == [Ask(DESTROY, 0, 1), Arrive(Ask(CREATE, 5, 52), 6)]
    && failing.nodes[5].registered == [51, 52] && |failing.servers[0].table| == MAX_CLIENTS
    && (forall g :: g in failing.files.users <==> 1 <= g <= MAX_CLIENTS + 1)
  }

  /** The worker is about to answer the CREATE of 52, and there is room. */
  ghost predicate Answering(answering: State) {
    && Enabled(answering, WorkerFinishes(0)) && AnswersCreate(answering, WorkerFinishes(0))
    && !CreateFails(answering, WorkerFinishes(0))
    && answering.servers[0].phase.request == Arrive(Ask(CREATE, 5, 52), 6)
    && |answering.nodes| == 6 && answering.nodes[5].registered == [51, 52]
  }

  lemma Failure() returns (events: seq<Event>, failing: State)
    ensures Path(Beginning(), events, failing) && Failing(failing)
  {
    var asked;
    events, asked := ThreeRequests();
    CreateIsServed(Beginning(), events, asked, 51);
    events, failing := events + [WorkerStarts(0, 51)], InHandOf(asked, 51);
  }

  lemma FailedState(failing: State) returns (failed: State)
    requires Failing(failing)
    ensures failed == After(failing, WorkerFinishes(0))
    ensures failed.nodes == failing.nodes && failed.files == failing.files && |failed.servers| == 1
    ensures var (sv, after) := (failing.servers[0], failed.servers[0]);
            after.phase.Idle? && after.workerQueue == sv.workerQueue && after.table == sv.table
  {
    failed := After(failing, WorkerFinishes(0));
  }

  /** The worker fails the CREATE of 51, takes client 1 out of the table, and takes up the CREATE of 52. */
  lemma FailureAndRoom() returns (before: seq<Event>, failing: State, events: seq<Event>, answering: State)
    ensures Path(Beginning(), before, failing) && Path(Beginning(), events, answering) && before < events
    ensures events[|before|] == WorkerFinishes(0) && Failing(failing) && Answering(answering)
  {
    before, failing := Failure();
    var failed := FailedState(failing);
    PathAppend(Beginning(), before, failing, WorkerFinishes(0));
    events := before + [WorkerFinishes(0)];
    var freed := DestroyIsServed(Beginning(), events, failed);
    events := events + [WorkerStarts(0, 1)] + [WorkerFinishes(0)];
    CreateIsServed(Beginning(), events, freed, 52);
    events, answering := events + [WorkerStarts(0, 52)], InHandOf(freed, 52);
  }

  lemma IdGoesToTheFirst(states: seq<State>, events: seq<Event>, j: nat, i: nat)
    requires IsRun(states, events) && j < i < |events| && FailsFor(states[j], events[j], 5)
    requires AnswersCreate(states[i], events[i]) && !CreateFails(states[i], events[i])
    requires var t := states[i].servers[events[i].server].phase.request;
             t.node == 5 < |states[i].nodes| && t.client == 52 && states[i].nodes[5].registered == [51, 52]
    ensures OwnerOf(states[i].nodes, states[i].servers[events[i].server]) == 51
  {
    AcknowledgementReturnsIffNoneFailed(states, events, i);
    AnswersAreShifted(states, events, i);
  }

  /** A run in which the CREATE of client 51 fails because the table is full, and the id that is later created
      for client 52 of the same node is acknowledged to 51. */
  lemma FailedCreateMisroutes() returns (states: seq<State>, events: seq<Event>, j: nat, i: nat)
    ensures IsRun(states, events) && j < i < |events|
    ensures CreateFails(states[j], events[j])
    ensures states[j].servers[events[j].server].phase.request.client == 51
    ensures AnswersCreate(states[i], events[i]) && !CreateFails(states[i], events[i])
    ensures var sv := states[i].servers[events[i].server];
            && sv.phase.request.node == states[j].servers[events[j].server].phase.request.node
            && sv.phase.request.client == 52 && OwnerOf(states[i].nodes, sv) == 51
  {
    var before, failing, start, answering := FailureAndRoom();
    BeginningIsInit();
    events := start + [WorkerFinishes(0)];
    var last := After(answering, WorkerFinishes(0));
    PathAppend(Beginning(), start, answering, WorkerFinishes(0));
    PathIsRun(Beginning(), events, last);
    states, j, i := Trace(Beginning(), events, last), |before|, |start|;
    TraceAt(Beginning(), events, last, before, failing);
    TraceAt(Beginning(), events, last, start, answering);
    IdGoesToTheFirst(states, events, j, i);
  }
}
