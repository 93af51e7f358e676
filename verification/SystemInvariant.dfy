/** What holds in every state of every run. */
module SystemInvariant {
  import opened Messages
  import L = LocalIds
  import G = GlobalIds
  import opened Db
  import opened DbHandler
  import opened Routing
  import opened Node
  import opened Connection
  import opened Pipeline
  import opened System
  import Ring

  // ---- The pipeline of one node, read off the state ----

  function HeldBy(holders: map<int, Holder>, n: int): map<int, int> {
    map g | g in holders && holders[g].node == n :: holders[g].client
  }

  function ViewFor(b: Broker, n: int, sv: Server): View {
    View(b.pid, b.ids, b.requests, UpOf(b, n, sv), DownOf(b, sv), b.replies, b.waiting, b.dropped,
         HeldBy(sv.holders, n), b.registered, ClientsOf(OfNode(sv.acked, n)), OfNode(sv.failed, n))
  }

  lemma {:induction false} OfNodeAppend(ts: seq<Tagged>, t: Tagged, n: int)
    ensures OfNode(ts + [t], n) == OfNode(ts, n) + if t.node == n then [t] else []
  {
    if ts == [] {
      assert ts + [t] == [t];
      assert [t][1..] == [];
    } else {
      assert (ts + [t])[1..] == ts[1..] + [t];
      OfNodeAppend(ts[1..], t, n);
    }
  }

  /** Queueing a message for another pid is not visible to a connection; for its own pid it arrives last. */
  lemma EnqueueView(b: Broker, n: int, sv: Server, m: Msg, node: int, client: int)
    ensures ViewFor(b, n, Enqueue(sv, m, node, client))
            == if m.mtype == b.pid > 0 then Copied(ViewFor(b, n, sv), Leave(Tagged(m, node, client)))
               else ViewFor(b, n, sv)
  {
    if m.mtype == b.pid > 0 {
      var q := QueueOf(sv.respQueue, b.pid);
      var t := Tagged(m, node, client);
      assert LeaveAll(q + [t]) == LeaveAll(q) + [Leave(t)];
      assert b.down + (LeaveAll(q) + [Leave(t)]) == b.down + LeaveAll(q) + [Leave(t)];
    }
  }

  // ---- Servers ----

  ghost predicate FromNode(nodes: seq<Broker>, s: int, n: int) {
    0 <= n < |nodes| && nodes[n].server == s
  }

  /** A message for the next server; it carries the id of a subscriber. */
  predicate IsRelay(t: Tagged) {
    t.node == RELAY && t.msg.kind == PUBLISH && t.msg.brokerId != 0 && t.msg.globalId > 0
  }

  /** A relay once it is on its way, addressed by the id that it carries. */
  predicate IsRelayed(t: Tagged) {
    IsRelay(t) && t.msg.mtype == t.msg.globalId
  }

  /** The table maps the id of every holder to the connection of its node, and 0 to the next server. */
  ghost predicate TableInv(nodes: seq<Broker>, s: int, sv: Server) {
    && G.Injective(sv.table) && G.Routable(sv.table)
    && (G.Has(sv.table, NEXT_SERVER_GLOBAL_ID) ==> G.MtypeOf(sv.table, NEXT_SERVER_GLOBAL_ID) == sv.nextPid)
    && (forall g :: g in sv.holders <==> g != NEXT_SERVER_GLOBAL_ID && G.Has(sv.table, g))
    && (forall g | g in sv.holders ::
          && g > 0 && FromNode(nodes, s, sv.holders[g].node)
          && G.MtypeOf(sv.table, g) == nodes[sv.holders[g].node].pid)
  }

  ghost predicate QueueInv(nodes: seq<Broker>, s: int, sv: Server) {
    && (forall i | 0 <= i < |sv.workerQueue| ::
          IsRelayed(sv.workerQueue[i]) || FromNode(nodes, s, sv.workerQueue[i].node))
    && (forall i | 0 <= i < |sv.ring| :: IsRelayed(sv.ring[i]))
    && (forall i | 0 <= i < |QueueOf(sv.respQueue, sv.nextPid)| :: IsRelay(QueueOf(sv.respQueue, sv.nextPid)[i]))
  }

  ghost predicate PhaseInv(nodes: seq<Broker>, s: int, sv: Server) {
    match sv.phase
    case Idle => true
    case Creating(t, id) =>
      && FromNode(nodes, s, t.node) && t.msg.kind == CREATE && t.msg.mtype == nodes[t.node].pid
      && id > 0 && id !in sv.holders
    case Destroying(t, reply) =>
      && FromNode(nodes, s, t.node) && t.msg.kind == DESTROY
      && reply == t.msg.(globalId := t.msg.mtype, mtype := nodes[t.node].pid, kind := ACK_DESTROY)
    case Sending(t, m, subs, _, _) =>
      && t.msg.kind == PUBLISH && Ring.AllPositive(subs)
      && m.kind == PUBLISH && m.brokerId != 0
      && (IsRelay(t) || (&& FromNode(nodes, s, t.node) && t.msg.brokerId == 0
                         && m.globalId == t.msg.mtype && m.mtype == nodes[t.node].pid))
  }

  ghost predicate ServerInv(nodes: seq<Broker>, s: int, sv: Server) {
    && sv.brokerId != 0 && sv.nextPid > 0
    && TableInv(nodes, s, sv) && QueueInv(nodes, s, sv) && PhaseInv(nodes, s, sv)
  }

  /** The ids that a server is entitled to: registered, or being created, and not being given up. */
  function Claimed(sv: Server): set<int> {
    if sv.phase.Creating? then sv.holders.Keys + {sv.phase.id}
    else if sv.phase.Destroying? then sv.holders.Keys - {sv.phase.request.msg.mtype}
    else sv.holders.Keys
  }

  /** Claimed ids are live users and no two servers claim the same one. */
  ghost predicate ClaimsInv(st: State) {
    && Linked(st.files)
    && (forall s, g | 0 <= s < |st.servers| && g in Claimed(st.servers[s]) :: g in st.files.users)
    && (forall s, r, g | 0 <= s < r < |st.servers| && g in Claimed(st.servers[s]) :: g !in Claimed(st.servers[r]))
  }

  /** Response handlers have pids of their own. */
  ghost predicate PidsDistinct(st: State) {
    && Wired(st)
    && (forall n | 0 <= n < |st.nodes| :: st.nodes[n].pid > 0 && st.nodes[n].pid != ServerOf(st, n).nextPid)
    && (forall n, m | 0 <= n < m < |st.nodes| && st.nodes[n].server == st.nodes[m].server ::
          st.nodes[n].pid != st.nodes[m].pid)
  }

  predicate AllFrom(ts: seq<Tagged>, n: int) {
    forall i | 0 <= i < |ts| :: ts[i].node == n
  }

  /** The pipeline is in order, and published messages wait for the client whose id they were sent to. */
  ghost predicate NodeInv(st: State, n: nat)
    requires Wired(st) && n < |st.nodes|
  {
    && ViewOk(ViewFor(st.nodes[n], n, ServerOf(st, n)))
    && AllFrom(st.nodes[n].requests, n) && AllFrom(st.nodes[n].up, n)
    && RepliesOk(st.nodes[n].incoming)
  }

  ghost predicate Inv(st: State) {
    && PidsDistinct(st) && ClaimsInv(st)
    && (forall n | 0 <= n < |st.nodes| :: NodeInv(st, n))
    && (forall s | 0 <= s < |st.servers| :: ServerInv(st.nodes, s, st.servers[s]))
  }

  // ---- Server steps seen from one connection ----

  /** The sender of a request at the head of the pipeline is registered at the server, under its own connection. */
  lemma SenderRegistered(nodes: seq<Broker>, s: int, n: nat, sv: Server)
    requires FromNode(nodes, s, n) && TableInv(nodes, s, sv)
    requires ViewOk(ViewFor(nodes[n], n, sv))
    requires UpOf(nodes[n], n, sv) != [] && UpOf(nodes[n], n, sv)[0].msg.kind != CREATE
    ensures var t := UpOf(nodes[n], n, sv)[0];
            && t.msg.mtype > 0 && t.msg.mtype in sv.holders
            && sv.holders[t.msg.mtype] == Holder(n, t.client)
            && G.MtypeOf(sv.table, t.msg.mtype) == nodes[n].pid
  {
    SenderIsHeld(ViewFor(nodes[n], n, sv));
  }

  lemma HeadOfQueue(b: Broker, n: int, sv: Server)
    requires sv.phase.Idle? && sv.workerQueue != [] && sv.workerQueue[0].node == n
    ensures UpOf(b, n, sv) == [sv.workerQueue[0]] + OfNode(sv.workerQueue[1..], n) + ArriveAll(b.up, b.pid)
    ensures UpOf(b, n, sv)[1..] == UpOf(b, n, sv.(workerQueue := sv.workerQueue[1..]))
  {
    var rest := OfNode(sv.workerQueue[1..], n) + ArriveAll(b.up, b.pid);
    assert UpOf(b, n, sv) == [sv.workerQueue[0]] + rest;
    assert UpOf(b, n, sv.(workerQueue := sv.workerQueue[1..])) == rest;
  }
}
