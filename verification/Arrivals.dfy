/** From the copies that workers queue to the messages that wait for clients: copies are neither lost nor made
    on the way. */
module Arrivals {
  import opened Messages
  import L = LocalIds
  import G = GlobalIds
  import opened Routing
  import opened Node
  import opened Connection
  import opened Pipeline
  import opened System
  import opened SystemInvariant
  import opened ServerSteps
  import opened NodeSteps
  import opened Safety
  import opened Relays
  import opened Delivery
  import Ring

  /** Copies for user `u` among the messages on their way down to a node. */
  function CopiesIn(down: seq<Tagged>, u: int): nat {
    if down == [] then 0
    else (if down[0].msg.kind == PUBLISH && down[0].msg.mtype == u then 1 else 0) + CopiesIn(down[1..], u)
  }

  lemma {:induction false} CopiesInAppend(down: seq<Tagged>, t: Tagged, u: int)
    ensures CopiesIn(down + [t], u) == CopiesIn(down, u) + if t.msg.kind == PUBLISH && t.msg.mtype == u then 1 else 0
  {
    if down == [] {
      assert [] + [t] == [t] && [t][1..] == [];
    } else {
      assert (down + [t])[1..] == down[1..] + [t];
      CopiesInAppend(down[1..], t, u);
    }
  }

  function OnTheWay(nodes: seq<Broker>, servers: seq<Server>, n: nat, u: int): nat
    requires n < |nodes| && nodes[n].server < |servers|
  {
    CopiesIn(DownOf(nodes[n], servers[nodes[n].server]), u)
  }

  function OnEachWay(st: State, u: int): seq<nat>
    requires Wired(st)
  {
    seq(|st.nodes|, n requires 0 <= n < |st.nodes| => OnTheWay(st.nodes, st.servers, n, u))
  }

  /** The copies for `u` that are queued at a server or on a socket, and not yet handled by a node. */
  function InTransit(st: State, u: int): nat
    requires Wired(st)
  {
    Added(OnEachWay(st, u))
  }

  /** One if a node takes in a copy for `u`. */
  function ArrivalOf(st: State, e: Event, u: int): nat {
    if e.NodeHandlesReply? && e.node < |st.nodes| && st.nodes[e.node].down != []
       && st.nodes[e.node].down[0].msg.kind == PUBLISH && st.nodes[e.node].down[0].msg.mtype == u
    then 1 else 0
  }

  // ---- What each event does to the copies on their way to one node ----

  lemma EnqueuedOnTheWay(b: Broker, n: int, sv: Server, m: Msg, node: int, client: int, u: int)
    ensures CopiesIn(DownOf(b, Enqueue(sv, m, node, client)), u)
         == CopiesIn(DownOf(b, sv), u) + if m.mtype == b.pid > 0 && m.kind == PUBLISH && m.globalId == u then 1 else 0
  {
    EnqueueView(b, n, sv, m, node, client);
    CopiesInAppend(DownOf(b, sv), Leave(Tagged(m, node, client)), u);
    assert ViewFor(b, n, sv).down == DownOf(b, sv);
    assert ViewFor(b, n, Enqueue(sv, m, node, client)).down == DownOf(b, Enqueue(sv, m, node, client));
  }

  /** Answers are no copies. */
  lemma StartedOnTheWay(b: Broker, n: int, sv: Server, files: Db.Files, id: int, u: int)
    requires sv.workerQueue != []
    ensures CopiesIn(DownOf(b, Start(sv, files, id).0), u) == CopiesIn(DownOf(b, sv), u)
  {
    var t := sv.workerQueue[0];
    var took := sv.(workerQueue := sv.workerQueue[1..]);
    if t.msg.kind == SUBSCRIBE {
      EnqueuedOnTheWay(b, n, took, LookedReply(sv.table, files.users.Keys, t.msg, ACK_OK), t.node, t.client, u);
    } else if t.msg.kind != CREATE && t.msg.kind != DESTROY && t.msg.kind != PUBLISH {
      EnqueuedOnTheWay(b, n, took, t.msg.(kind := ACK_ERROR), t.node, t.client, u);
    }
  }

  lemma FinishedOnTheWay(b: Broker, n: int, sv: Server, owner: int, u: int)
    requires CanFinish(sv.phase)
    requires sv.phase.Destroying? ==> sv.phase.reply.kind != PUBLISH
    ensures CopiesIn(DownOf(b, Finish(sv, owner)), u) == CopiesIn(DownOf(b, sv), u)
  {
    var done := sv.(phase := Idle);
    match sv.phase
    case Creating(t, id) =>
      var reply := CreateReply(sv.table, t.msg, id);
      EnqueuedOnTheWay(b, n, done, reply, t.node, if reply.kind == ACK_CREATE then owner else NOBODY, u);
    case Destroying(t, reply) => EnqueuedOnTheWay(b, n, done, reply, t.node, t.client, u);
    case Sending(t, m, _, _, ok) =>
      EnqueuedOnTheWay(b, n, done, m.(kind := if ok then ACK_OK else ACK_ERROR), t.node, t.client, u);
  }

  /** The node to which a round of the send loop queues a copy. */
  lemma SentOnTheWay(st: State, s: nat, n: nat, u: int)
    requires Inv(st) && Enabled(st, WorkerSends(s)) && n < |st.nodes| && st.nodes[n].server == s && u > 0
    ensures var (sv, b) := (st.servers[s], st.nodes[n]);
            CopiesIn(DownOf(b, Send(sv)), u)
            == CopiesIn(DownOf(b, sv), u)
               + if CopyFor(st, WorkerSends(s), u) == 1 && u in sv.holders && sv.holders[u].node == n then 1 else 0
  {
    var (sv, b) := (st.servers[s], st.nodes[n]);
    var (p, sub) := (sv.phase, sv.phase.subs[0]);
    assert ServerInv(st.nodes, s, sv);
    match RouteOf(sv.table, sub, p.relayed)
    case Copy(pid) =>
      HasIsRegistered(st.nodes, s, sv, sub);
      PidTellsNode(st, n, sv.holders[sub].node);
      EnqueuedOnTheWay(b, n, sv, p.looked.(globalId := sub, mtype := pid),
                       sv.holders[sub].node, sv.holders[sub].client, u);
    case Relay(pid) =>
      G.HasIndex(sv.table, NEXT_SERVER_GLOBAL_ID);
      assert ServerOf(st, n).nextPid != b.pid;
      EnqueuedOnTheWay(b, n, sv, p.looked.(globalId := sub, mtype := pid), RELAY, 0, u);
    case Skip =>
    case Fail =>
  }

  // ---- Every event ----

  lemma SameWays(st: State, next: State, u: int)
    requires Wired(st) && Wired(next) && |next.nodes| == |st.nodes|
    requires forall n | 0 <= n < |st.nodes| ::
               OnTheWay(next.nodes, next.servers, n, u) == OnTheWay(st.nodes, st.servers, n, u)
    ensures InTransit(next, u) == InTransit(st, u)
  {
    assert OnEachWay(next, u) == OnEachWay(st, u);
  }

  lemma OneWayChanges(st: State, next: State, n: nat, u: int)
    requires Wired(st) && Wired(next) && |next.nodes| == |st.nodes| && n < |st.nodes|
    requires forall m | 0 <= m < |st.nodes| && m != n ::
               OnTheWay(next.nodes, next.servers, m, u) == OnTheWay(st.nodes, st.servers, m, u)
    ensures InTransit(next, u) + OnTheWay(st.nodes, st.servers, n, u)
         == InTransit(st, u) + OnTheWay(next.nodes, next.servers, n, u)
  {
    var x := OnTheWay(next.nodes, next.servers, n, u);
    assert OnEachWay(next, u) == OnEachWay(st, u)[n := x];
    AddedChange(OnEachWay(st, u), n, x);
  }

  /** A worker that starts or finishes queues no copy. */
  lemma WorkerKeepsTransit(st: State, e: Event, u: int)
    requires Inv(st) && Enabled(st, e) && (e.WorkerStarts? || e.WorkerFinishes?)
    ensures Wired(After(st, e)) && InTransit(After(st, e), u) == InTransit(st, u)
  {
    var (next, s, sv) := (After(st, e), e.server, st.servers[e.server]);
    assert ServerInv(st.nodes, s, sv);
    forall n | 0 <= n < |st.nodes|
      ensures OnTheWay(next.nodes, next.servers, n, u) == OnTheWay(st.nodes, st.servers, n, u)
    {
      if st.nodes[n].server == s {
        if e.WorkerStarts? {
          StartedOnTheWay(st.nodes[n], n, sv, st.files, e.id, u);
        } else {
          FinishedOnTheWay(st.nodes[n], n, sv, OwnerOf(st.nodes, sv), u);
        }
      }
    }
    SameWays(st, next, u);
  }

  lemma SendTransit(st: State, s: nat, u: int)
    requires Inv(st) && Enabled(st, WorkerSends(s)) && u > 0
    ensures Wired(After(st, WorkerSends(s)))
    ensures InTransit(After(st, WorkerSends(s)), u) == InTransit(st, u) + CopyFor(st, WorkerSends(s), u)
  {
    var (next, sv) := (After(st, WorkerSends(s)), st.servers[s]);
    assert ServerInv(st.nodes, s, sv);
    forall n | 0 <= n < |st.nodes| && st.nodes[n].server == s
      ensures OnTheWay(next.nodes, next.servers, n, u) == OnTheWay(st.nodes, st.servers, n, u)
              + if CopyFor(st, WorkerSends(s), u) == 1 && u in sv.holders && sv.holders[u].node == n then 1 else 0
    {
      SentOnTheWay(st, s, n, u);
    }
    if CopyFor(st, WorkerSends(s), u) == 1 {
      HasIsRegistered(st.nodes, s, sv, u);
      OneWayChanges(st, next, sv.holders[u].node, u);
    } else {
      SameWays(st, next, u);
    }
  }

  lemma LeaveTransit(st: State, n: nat, u: int)
    requires Inv(st) && Enabled(st, ReplyLeaves(n))
    ensures Wired(After(st, ReplyLeaves(n))) && InTransit(After(st, ReplyLeaves(n)), u) == InTransit(st, u)
  {
    var (next, b, sv) := (After(st, ReplyLeaves(n)), st.nodes[n], ServerOf(st, n));
    WaitingReply(st, n);
    LeftView(b, n, sv);
    var q := QueueOf(sv.respQueue, b.pid);
    assert ViewFor(next.nodes[n], n, next.servers[b.server]).down == ViewFor(b, n, sv).down;
    forall m | 0 <= m < |st.nodes|
      ensures OnTheWay(next.nodes, next.servers, m, u) == OnTheWay(st.nodes, st.servers, m, u)
    {
      if m != n && st.nodes[m].server == b.server { assert st.nodes[m].pid != b.pid; }
    }
    SameWays(st, next, u);
  }

  lemma HandledOnTheWay(b: Broker, sv: Server, u: int)
    requires b.down != []
    ensures HandleReply(b).server == b.server
    ensures CopiesIn(DownOf(b, sv), u)
         == CopiesIn(DownOf(HandleReply(b), sv), u)
            + if b.down[0].msg.kind == PUBLISH && b.down[0].msg.mtype == u then 1 else 0
  {
    assert DownOf(b, sv)[0] == b.down[0] && DownOf(HandleReply(b), sv) == DownOf(b, sv)[1..];
  }

  lemma HandleTransit(st: State, n: nat, u: int)
    requires Inv(st) && Enabled(st, NodeHandlesReply(n))
    ensures Wired(After(st, NodeHandlesReply(n)))
    ensures InTransit(After(st, NodeHandlesReply(n)), u) + ArrivalOf(st, NodeHandlesReply(n), u) == InTransit(st, u)
  {
    HandledOnTheWay(st.nodes[n], ServerOf(st, n), u);
    OneWayChanges(st, After(st, NodeHandlesReply(n)), n, u);
  }

  lemma RelayKeepsTransit(st: State, s: nat, u: int)
    requires Inv(st) && Enabled(st, RelayLeaves(s))
    ensures Wired(After(st, RelayLeaves(s))) && InTransit(After(st, RelayLeaves(s)), u) == InTransit(st, u)
  {
    var next := After(st, RelayLeaves(s));
    forall n | 0 <= n < |st.nodes|
      ensures OnTheWay(next.nodes, next.servers, n, u) == OnTheWay(st.nodes, st.servers, n, u)
    {
      assert ServerOf(st, n).nextPid != st.nodes[n].pid;
    }
    SameWays(st, next, u);
  }

  lemma OthersKeepTransit(st: State, e: Event, u: int)
    requires Enabled(st, e)
    requires e.ClientSends? || e.NodeHandlesRequest? || e.RequestArrives? || e.RelayArrives? || e.ClientReceives?
    ensures Wired(After(st, e)) && InTransit(After(st, e), u) == InTransit(st, u)
  {
    var next := After(st, e);
    if e.NodeHandlesRequest? { assert HandleRequest(st.nodes[e.node]).server == st.nodes[e.node].server; }
    forall n | 0 <= n < |st.nodes|
      ensures OnTheWay(next.nodes, next.servers, n, u) == OnTheWay(st.nodes, st.servers, n, u)
    {
      assert DownOf(next.nodes[n], ServerOf(next, n)) == DownOf(st.nodes[n], ServerOf(st, n));
    }
    SameWays(st, next, u);
  }

  /** A copy that is queued is on its way, and stays so until the node takes it in. */
  lemma StepTransit(st: State, e: Event, u: int)
    requires Inv(st) && Enabled(st, e) && u > 0
    ensures Wired(After(st, e))
    ensures ArrivalOf(st, e, u) + InTransit(After(st, e), u) == InTransit(st, u) + CopyFor(st, e, u)
  {
    if e.WorkerStarts? || e.WorkerFinishes? {
      WorkerKeepsTransit(st, e, u);
    } else if e.WorkerSends? {
      SendTransit(st, e.server, u);
    } else if e.ReplyLeaves? {
      LeaveTransit(st, e.node, u);
    } else if e.NodeHandlesReply? {
      HandleTransit(st, e.node, u);
    } else if e.RelayLeaves? {
      RelayKeepsTransit(st, e.server, u);
    } else {
      OthersKeepTransit(st, e, u);
    }
  }

  // ---- Runs ----

  /** The copies for `u` that nodes take in from state `i` to state `j`. */
  function CopiesArrived(states: seq<State>, events: seq<Event>, i: nat, j: nat, u: int): nat
    requires i <= j <= |events| < |states|
  {
    if j == i then 0 else CopiesArrived(states, events, i, j - 1, u) + ArrivalOf(states[j - 1], events[j - 1], u)
  }

  ghost predicate Carried(states: seq<State>, events: seq<Event>, k: nat, u: int)
    requires k < |events| < |states|
  {
    && Wired(states[k]) && Wired(states[k + 1])
    && ArrivalOf(states[k], events[k], u) + InTransit(states[k + 1], u)
       == InTransit(states[k], u) + CopyFor(states[k], events[k], u)
  }

  lemma EventCarries(states: seq<State>, events: seq<Event>, k: nat, u: int)
    requires IsRun(states, events) && k < |events| && u > 0
    ensures Carried(states, events, k, u)
  {
    RunsAreSafe(states, events, k);
    StepTransit(states[k], events[k], u);
  }

  lemma {:induction false} CarriesAddUp(states: seq<State>, events: seq<Event>, i: nat, j: nat, u: int)
    requires i <= j <= |events| < |states| && Wired(states[i]) && Wired(states[j])
    requires forall k | i <= k < j :: Carried(states, events, k, u)
    ensures CopiesArrived(states, events, i, j, u) + InTransit(states[j], u)
         == InTransit(states[i], u) + CopiesQueued(states, events, i, j, u)
  {
    if i < j {
      assert Carried(states, events, j - 1, u);
      CarriesAddUp(states, events, i, j - 1, u);
    }
  }

  /** In every run, whatever happens to tables and files, each copy that a worker queues is taken in once by a node,
      or still on its way. */
  lemma CopiesAreConserved(states: seq<State>, events: seq<Event>, i: nat, j: nat, u: int)
    requires IsRun(states, events) && i <= j <= |events| && u > 0
    ensures Wired(states[i]) && Wired(states[j])
    ensures CopiesArrived(states, events, i, j, u) + InTransit(states[j], u)
         == InTransit(states[i], u) + CopiesQueued(states, events, i, j, u)
  {
    RunsAreSafe(states, events, i);
    RunsAreSafe(states, events, j);
    forall k | i <= k < j ensures Carried(states, events, k, u) {
      EventCarries(states, events, k, u);
    }
    CarriesAddUp(states, events, i, j, u);
  }

  /** A copy for `u` is put at the end of the messages that wait for the client that has the id `u` at its node. */
  lemma ArrivalIsAtOwner(states: seq<State>, events: seq<Event>, i: nat, u: int)
    requires IsRun(states, events) && i < |events| && ArrivalOf(states[i], events[i], u) == 1
    ensures var (b, after) := (states[i].nodes[events[i].node], states[i + 1].nodes[events[i].node]);
            var (t, owner) := (b.down[0], L.LocalOf(b.ids, u));
            && t.client == owner > 0
            && after.incoming == Push(b.incoming, owner, t.(msg := t.msg.(mtype := owner)))
  {
    EverythingReachesItsClient(states, events, i);
  }

  /** From a quiet state with nothing for `u` on its way to another, tables and files unchanged, the owner of `u` gets
      exactly the copies due. */
  lemma ArrivalsAreExact(states: seq<State>, events: seq<Event>, i: nat, j: nat, u: int)
    requires IsRun(states, events) && i <= j <= |events| && u > 0
    requires Frozen(states, i, j) && Ring.IsRing(RingOf(states[i].servers))
    requires Quiet(states[i].servers) && Quiet(states[j].servers)
    requires Wired(states[i]) && Wired(states[j]) && InTransit(states[i], u) == 0 == InTransit(states[j], u)
    ensures CopiesArrived(states, events, i, j, u) == CopiesDue(states, events, i, j, u)
    ensures CopiesArrived(states, events, i, j, u) == CopiesListed(states, events, i, j, u)
            <==> forall k | i <= k < j :: GetsAll(states[k], events[k], u)
  {
    CopiesAreConserved(states, events, i, j, u);
    QuietRunsDeliverExactly(states, events, i, j, u);
    DuesAddUp(states, events, i, j, u);
  }
}
