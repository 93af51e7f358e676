/** Counting what travels around the ring in runs of the whole system: every message under way between servers
    is given a weight, and each event changes the total weight in a known way. */
module Relays {
  import opened Messages
  import G = GlobalIds
  import opened Db
  import opened DbHandler
  import opened Routing
  import opened Node
  import opened Connection
  import opened System
  import opened SystemInvariant
  import opened ServerSteps
  import opened NodeSteps
  import opened Safety
  import Ring

  /** The weight of a relay that a server is about to read. */
  type Weight = (nat, Msg) -> nat

  // ---- The weight of everything under way ----

  function RingLoad(w: Weight, s: nat, ts: seq<Tagged>): nat {
    if ts == [] then 0 else w(s, ts[0].msg) + RingLoad(w, s, ts[1..])
  }

  function WorkLoad(w: Weight, s: nat, ts: seq<Tagged>): nat {
    if ts == [] then 0 else (if IsRelay(ts[0]) then w(s, ts[0].msg) else 0) + WorkLoad(w, s, ts[1..])
  }

  /** Messages that still have to make the hop to server `next`. */
  function OutLoad(w: Weight, hop: nat, next: nat, ms: seq<Msg>): nat {
    if ms == [] then 0 else hop + w(next, ms[0].(mtype := ms[0].globalId)) + OutLoad(w, hop, next, ms[1..])
  }

  /** What the remaining rounds of the send loop will queue for the next server. */
  function StillToRelay(sv: Server): seq<Msg> {
    if sv.phase.Sending?
    then Ring.To(Copies(sv.table, sv.phase.subs, sv.phase.relayed, sv.phase.looked), sv.nextPid)
    else []
  }

  function QueuedLoad(w: Weight, hop: nat, n: nat, s: nat, sv: Server): nat {
    OutLoad(w, hop, Ring.Next(s, n), MsgsOf(QueueOf(sv.respQueue, sv.nextPid)))
    + RingLoad(w, s, sv.ring) + WorkLoad(w, s, sv.workerQueue)
  }

  function ServerLoad(w: Weight, hop: nat, n: nat, s: nat, sv: Server): nat {
    QueuedLoad(w, hop, n, s, sv) + OutLoad(w, hop, Ring.Next(s, n), StillToRelay(sv))
  }

  function Loads(w: Weight, hop: nat, servers: seq<Server>): seq<nat> {
    seq(|servers|, s requires 0 <= s < |servers| => ServerLoad(w, hop, |servers|, s, servers[s]))
  }

  function Added(xs: seq<nat>): nat {
    if xs == [] then 0 else xs[0] + Added(xs[1..])
  }

  /** The weight under way in the whole ring. */
  function Total(w: Weight, hop: nat, servers: seq<Server>): nat {
    Added(Loads(w, hop, servers))
  }

  lemma {:induction false} AddedChange(xs: seq<nat>, i: nat, x: nat)
    requires i < |xs|
    ensures Added(xs[i := x]) + xs[i] == Added(xs) + x
    ensures xs[i] <= Added(xs)
  {
    if i > 0 {
      assert xs[i := x][1..] == xs[1..][i - 1 := x];
      AddedChange(xs[1..], i - 1, x);
    } else {
      assert xs[i := x][1..] == xs[1..];
    }
  }

  lemma TotalChange(w: Weight, hop: nat, servers: seq<Server>, s: nat, sv: Server)
    requires s < |servers|
    ensures Total(w, hop, servers[s := sv]) + ServerLoad(w, hop, |servers|, s, servers[s])
         == Total(w, hop, servers) + ServerLoad(w, hop, |servers|, s, sv)
    ensures ServerLoad(w, hop, |servers|, s, servers[s]) <= Total(w, hop, servers)
  {
    var load := ServerLoad(w, hop, |servers|, s, sv);
    assert Loads(w, hop, servers[s := sv]) == Loads(w, hop, servers)[s := load];
    AddedChange(Loads(w, hop, servers), s, load);
  }

  lemma {:induction false} RingLoadAppend(w: Weight, s: nat, ts: seq<Tagged>, t: Tagged)
    ensures RingLoad(w, s, ts + [t]) == RingLoad(w, s, ts) + w(s, t.msg)
  {
    if ts == [] {
      assert [t][1..] == [];
    } else {
      assert (ts + [t])[1..] == ts[1..] + [t];
      RingLoadAppend(w, s, ts[1..], t);
    }
  }

  lemma {:induction false} WorkLoadAppend(w: Weight, s: nat, ts: seq<Tagged>, t: Tagged)
    ensures WorkLoad(w, s, ts + [t]) == WorkLoad(w, s, ts) + if IsRelay(t) then w(s, t.msg) else 0
  {
    if ts == [] {
      assert [t][1..] == [];
    } else {
      assert (ts + [t])[1..] == ts[1..] + [t];
      WorkLoadAppend(w, s, ts[1..], t);
    }
  }

  lemma {:induction false} OutLoadAppend(w: Weight, hop: nat, next: nat, ms: seq<Msg>, m: Msg)
    ensures OutLoad(w, hop, next, ms + [m]) == OutLoad(w, hop, next, ms) + hop + w(next, m.(mtype := m.globalId))
  {
    if ms == [] {
      assert [m][1..] == [];
    } else {
      assert (ms + [m])[1..] == ms[1..] + [m];
      OutLoadAppend(w, hop, next, ms[1..], m);
    }
  }

  // ---- What each event does to it ----

  /** Queueing a message for anyone but the next server is not counted; for the next server it is. */
  lemma EnqueueLoad(w: Weight, hop: nat, n: nat, s: nat, sv: Server, m: Msg, node: int, client: int)
    requires sv.nextPid > 0
    ensures QueuedLoad(w, hop, n, s, Enqueue(sv, m, node, client))
         == QueuedLoad(w, hop, n, s, sv)
            + if m.mtype == sv.nextPid then hop + w(Ring.Next(s, n), m.(mtype := m.globalId)) else 0
  {
    if m.mtype == sv.nextPid {
      var q := QueueOf(sv.respQueue, sv.nextPid);
      assert MsgsOf(q + [Tagged(m, node, client)]) == MsgsOf(q) + [m];
      OutLoadAppend(w, hop, Ring.Next(s, n), MsgsOf(q), m);
    }
  }

  /** One round of the send loop takes what it queues for the next server off what is still to be relayed. */
  lemma RoundRelays(nodes: seq<Broker>, s: int, sv: Server)
    requires ServerInv(nodes, s, sv) && sv.phase.Sending? && sv.phase.subs != []
    requires forall n | FromNode(nodes, s, n) :: nodes[n].pid != sv.nextPid
    ensures var p := sv.phase;
            match RouteOf(sv.table, p.subs[0], p.relayed)
            case Relay(pid) =>
              pid == sv.nextPid && p.subs[0] > 0
              && StillToRelay(sv) == [p.looked.(globalId := p.subs[0], mtype := pid)] + StillToRelay(Send(sv))
            case Copy(pid) => pid != sv.nextPid && StillToRelay(sv) == StillToRelay(Send(sv))
            case _ => StillToRelay(sv) == StillToRelay(Send(sv))
  {
    var p := sv.phase;
    match RouteOf(sv.table, p.subs[0], p.relayed)
    case Copy(pid) => HasIsRegistered(nodes, s, sv, p.subs[0]);
    case Relay(pid) => G.HasIndex(sv.table, NEXT_SERVER_GLOBAL_ID);
    case Skip =>
    case Fail =>
  }

  lemma SendKeepsLoad(w: Weight, hop: nat, n: nat, nodes: seq<Broker>, s: nat, sv: Server)
    requires ServerInv(nodes, s, sv) && sv.phase.Sending? && sv.phase.subs != []
    requires forall m | FromNode(nodes, s, m) :: nodes[m].pid != sv.nextPid
    ensures ServerLoad(w, hop, n, s, Send(sv)) == ServerLoad(w, hop, n, s, sv)
  {
    RoundRelays(nodes, s, sv);
    var p, sub := sv.phase, sv.phase.subs[0];
    match RouteOf(sv.table, sub, p.relayed)
    case Copy(pid) =>
      var holder := if sub in sv.holders then sv.holders[sub] else Holder(RELAY, 0);
      EnqueueLoad(w, hop, n, s, sv, p.looked.(globalId := sub, mtype := pid), holder.node, holder.client);
    case Relay(pid) =>
      EnqueueLoad(w, hop, n, s, sv, p.looked.(globalId := sub, mtype := pid), RELAY, 0);
    case Skip =>
    case Fail =>
  }

  lemma FinishCreateKeepsLoad(w: Weight, hop: nat, n: nat, nodes: seq<Broker>, s: nat, sv: Server, owner: int)
    requires ServerInv(nodes, s, sv) && sv.phase.Creating?
    requires forall m | FromNode(nodes, s, m) :: nodes[m].pid != sv.nextPid
    ensures QueuedLoad(w, hop, n, s, Finish(sv, owner)) == QueuedLoad(w, hop, n, s, sv)
  {
    var reply := CreateReply(sv.table, sv.phase.request.msg, sv.phase.id);
    EnqueueLoad(w, hop, n, s, sv, reply, sv.phase.request.node, if reply.kind == ACK_CREATE then owner else NOBODY);
  }

  lemma FinishKeepsLoad(w: Weight, hop: nat, n: nat, nodes: seq<Broker>, s: nat, sv: Server, owner: int)
    requires ServerInv(nodes, s, sv) && CanFinish(sv.phase)
    requires forall m | FromNode(nodes, s, m) :: nodes[m].pid != sv.nextPid
    ensures ServerLoad(w, hop, n, s, Finish(sv, owner)) == ServerLoad(w, hop, n, s, sv)
  {
    assert StillToRelay(sv) == [] == StillToRelay(Finish(sv, owner));
    var done := sv.(phase := Idle);
    match sv.phase
    case Creating(t, id) => FinishCreateKeepsLoad(w, hop, n, nodes, s, sv, owner);
    case Destroying(t, reply) => EnqueueLoad(w, hop, n, s, done, reply, t.node, t.client);
    case Sending(t, m, _, _, ok) =>
      if t.msg.brokerId == 0 {
        EnqueueLoad(w, hop, n, s, done, m.(kind := if ok then ACK_OK else ACK_ERROR), t.node, t.client);
      }
  }

  /** The weight that the worker takes off its queue. */
  function TakenLoad(w: Weight, s: nat, t: Tagged): nat {
    if IsRelay(t) then w(s, t.msg) else 0
  }

  lemma StartLoad(w: Weight, hop: nat, n: nat, st: State, s: nat, id: int)
    requires Inv(st) && Enabled(st, WorkerStarts(s, id))
    ensures var (sv, started) := (st.servers[s], Start(st.servers[s], st.files, id).0);
            ServerLoad(w, hop, n, s, started) + TakenLoad(w, s, sv.workerQueue[0])
            == ServerLoad(w, hop, n, s, sv) + OutLoad(w, hop, Ring.Next(s, n), StillToRelay(started))
  {
    var sv := st.servers[s];
    var t, took := sv.workerQueue[0], sv.(workerQueue := sv.workerQueue[1..]);
    assert ServerInv(st.nodes, s, sv);
    if !IsRelay(t) {
      NextRequest(st, s);
      assert st.nodes[t.node].pid != ServerOf(st, t.node).nextPid;
      if t.msg.kind == SUBSCRIBE {
        EnqueueLoad(w, hop, n, s, took, LookedReply(sv.table, st.files.users.Keys, t.msg, ACK_OK), t.node, t.client);
      }
    }
  }

  lemma ReplyLeavesKeepsLoad(w: Weight, hop: nat, n: nat, s: nat, sv: Server, pid: int, q: seq<Tagged>)
    requires pid != sv.nextPid
    ensures ServerLoad(w, hop, n, s, sv.(respQueue := sv.respQueue[pid := q])) == ServerLoad(w, hop, n, s, sv)
  {
  }

  /** A relay taken off the queue for the next server: the weight that it will have there, and the hop, are gone. */
  lemma RelayOffLoad(w: Weight, hop: nat, n: nat, s: nat, sv: Server)
    requires QueueOf(sv.respQueue, sv.nextPid) != []
    ensures var q := QueueOf(sv.respQueue, sv.nextPid);
            ServerLoad(w, hop, n, s, sv)
            == ServerLoad(w, hop, n, s, sv.(respQueue := sv.respQueue[sv.nextPid := q[1..]]))
               + hop + w(Ring.Next(s, n), Leave(q[0]).msg)
  {
    var q := QueueOf(sv.respQueue, sv.nextPid);
    assert MsgsOf(q)[0] == q[0].msg && MsgsOf(q)[1..] == MsgsOf(q[1..]);
  }

  lemma RelayLeavesLoad(w: Weight, hop: nat, st: State, s: nat)
    requires Inv(st) && Enabled(st, RelayLeaves(s))
    ensures Total(w, hop, After(st, RelayLeaves(s)).servers) + hop == Total(w, hop, st.servers)
  {
    var sv, n := st.servers[s], |st.servers|;
    var next := Ring.Next(s, n);
    assert ServerInv(st.nodes, s, sv);
    var q := QueueOf(sv.respQueue, sv.nextPid);
    var sv' := sv.(respQueue := sv.respQueue[sv.nextPid := q[1..]]);
    RelayOffLoad(w, hop, n, s, sv);
    TotalChange(w, hop, st.servers, s, sv');
    var sent := st.servers[s := sv'];
    var rest := sent[next].(ring := sent[next].ring + [Leave(q[0])]);
    RingLoadAppend(w, next, sent[next].ring, Leave(q[0]));
    TotalChange(w, hop, sent, next, rest);
    assert After(st, RelayLeaves(s)).servers == sent[next := rest];
  }

  lemma RelayArrivesLoad(w: Weight, hop: nat, n: nat, nodes: seq<Broker>, s: nat, sv: Server)
    requires ServerInv(nodes, s, sv) && sv.ring != []
    ensures Acceptable(sv.ring[0].msg)
    ensures ServerLoad(w, hop, n, s, sv.(ring := sv.ring[1..], workerQueue := sv.workerQueue + [sv.ring[0]]))
         == ServerLoad(w, hop, n, s, sv)
  {
    WorkLoadAppend(w, s, sv.workerQueue, sv.ring[0]);
  }

  lemma WorkerKeepsLoad(w: Weight, hop: nat, st: State, e: Event)
    requires Inv(st) && Enabled(st, e) && (e.WorkerSends? || e.WorkerFinishes?)
    ensures Total(w, hop, After(st, e).servers) == Total(w, hop, st.servers)
  {
    var (n, s, sv) := (|st.servers|, e.server, st.servers[e.server]);
    NextPidIsNoNode(st, s);
    if e.WorkerSends? {
      SendKeepsLoad(w, hop, n, st.nodes, s, sv);
      TotalChange(w, hop, st.servers, s, Send(sv));
    } else {
      FinishKeepsLoad(w, hop, n, st.nodes, s, sv, OwnerOf(st.nodes, sv));
      TotalChange(w, hop, st.servers, s, Finished(st, s));
    }
  }

  lemma RelayTakenLoad(w: Weight, hop: nat, st: State, s: nat)
    requires Inv(st) && Enabled(st, RelayArrives(s))
    ensures Total(w, hop, After(st, RelayArrives(s)).servers) == Total(w, hop, st.servers)
  {
    var sv := st.servers[s];
    assert ServerInv(st.nodes, s, sv);
    RelayArrivesLoad(w, hop, |st.servers|, st.nodes, s, sv);
    TotalChange(w, hop, st.servers, s, sv.(ring := sv.ring[1..], workerQueue := sv.workerQueue + [sv.ring[0]]));
  }

  lemma ReplyTakenLoad(w: Weight, hop: nat, st: State, m: nat)
    requires Inv(st) && Enabled(st, ReplyLeaves(m))
    ensures Total(w, hop, After(st, ReplyLeaves(m)).servers) == Total(w, hop, st.servers)
  {
    var b, sv := st.nodes[m], ServerOf(st, m);
    var q := QueueOf(sv.respQueue, b.pid);
    NextPidIsNoNode(st, b.server);
    ReplyLeavesKeepsLoad(w, hop, |st.servers|, b.server, sv, b.pid, q[1..]);
    TotalChange(w, hop, st.servers, b.server, sv.(respQueue := sv.respQueue[b.pid := q[1..]]));
  }

  lemma NodeEventsKeepServers(st: State, e: Event)
    requires Enabled(st, e)
    requires e.ClientSends? || e.NodeHandlesRequest? || e.NodeHandlesReply? || e.ClientReceives?
    ensures After(st, e).servers == st.servers
  {
  }

  lemma ServersStay(st: State, e: Event)
    requires Enabled(st, e)
    ensures |After(st, e).servers| == |st.servers|
  {
  }

  /** No event but two changes the weight under way: a relay that leaves for the next server loses the hop,
      and a worker that starts exchanges the weight of what it reads for that of what it will relay. */
  lemma StepLoad(w: Weight, hop: nat, st: State, e: Event)
    requires Inv(st) && Enabled(st, e)
    ensures |After(st, e).servers| == |st.servers|
    ensures e.WorkerStarts? ==>
              Total(w, hop, After(st, e).servers) + TakenLoad(w, e.server, st.servers[e.server].workerQueue[0])
              == Total(w, hop, st.servers)
                 + OutLoad(w, hop, Ring.Next(e.server, |st.servers|),
                           StillToRelay(Start(st.servers[e.server], st.files, e.id).0))
    ensures e.RelayLeaves? ==> Total(w, hop, After(st, e).servers) + hop == Total(w, hop, st.servers)
    ensures !e.WorkerStarts? && !e.RelayLeaves? ==> Total(w, hop, After(st, e).servers) == Total(w, hop, st.servers)
  {
    ServersStay(st, e);
    match e
    case WorkerStarts(s, id) =>
      StartLoad(w, hop, |st.servers|, st, s, id);
      TotalChange(w, hop, st.servers, s, Start(st.servers[s], st.files, id).0);
    case WorkerSends(s) => WorkerKeepsLoad(w, hop, st, e);
    case WorkerFinishes(s) => WorkerKeepsLoad(w, hop, st, e);
    case RelayLeaves(s) => RelayLeavesLoad(w, hop, st, s);
    case RelayArrives(s) => RelayTakenLoad(w, hop, st, s);
    case RequestArrives(m) => RequestArrivesLoad(w, hop, st, m);
    case ReplyLeaves(m) => ReplyTakenLoad(w, hop, st, m);
    case _ => NodeEventsKeepServers(st, e);
  }

  lemma RequestArrivesLoad(w: Weight, hop: nat, st: State, m: nat)
    requires Inv(st) && Enabled(st, RequestArrives(m))
    ensures Total(w, hop, After(st, RequestArrives(m)).servers) == Total(w, hop, st.servers)
  {
    var b, sv := st.nodes[m], ServerOf(st, m);
    var t := Arrive(b.up[0], b.pid);
    SentRequest(st, m);
    WorkLoadAppend(w, b.server, sv.workerQueue, t);
    TotalChange(w, hop, st.servers, b.server, sv.(workerQueue := sv.workerQueue + [t]));
  }

  lemma NextPidIsNoNode(st: State, s: nat)
    requires Inv(st) && s < |st.servers|
    ensures ServerInv(st.nodes, s, st.servers[s])
    ensures forall n | FromNode(st.nodes, s, n) :: st.nodes[n].pid != st.servers[s].nextPid
  {
    forall n | FromNode(st.nodes, s, n) ensures st.nodes[n].pid != st.servers[s].nextPid {
      assert st.nodes[n].pid != ServerOf(st, n).nextPid;
    }
  }
}
