/** The whole middleware as a transition system: clients, broker nodes, broker servers in a ring, one database.
    Every process step that another process can observe is an event of its own. */
module System {
  import opened Messages
  import L = LocalIds
  import G = GlobalIds
  import opened Db
  import opened DbHandler
  import opened Routing
  import opened Node
  import opened Connection
  import opened Pipeline
  import Ring

  /** The client, and its node, to which the acknowledgement of an id goes. */
  datatype Holder = Holder(node: int, client: int)

  const RELAY := -1  // the node tag of messages between servers

  /** What the worker is doing. CREATE and DESTROY change the database first and the table later;
      a PUBLISH reads the subscribers once and then sends one copy at a time. */
  datatype Phase =
    | Idle
    | Creating(request: Tagged, id: int)
    | Destroying(request: Tagged, reply: Msg)
    | Sending(request: Tagged, looked: Msg, subs: seq<int>, relayed: bool, ok: bool)

  /** `holders` and the answers to CREATEs so far, `acked` and `failed`, are specification only. */
  datatype Server = Server(brokerId: int, nextPid: int,
                           table: seq<G.Entry>, holders: map<int, Holder>, acked: seq<Tagged>, failed: seq<Tagged>,
                           workerQueue: seq<Tagged>, respQueue: map<int, seq<Tagged>>, ring: seq<Tagged>,
                           phase: Phase)

  /** `registered`, the clients that were entered into the table so far, is specification only. */
  datatype Broker = Broker(server: nat, pid: int, ids: seq<L.Entry>,
                           requests: seq<Tagged>, up: seq<Tagged>, down: seq<Tagged>,
                           replies: map<int, seq<Tagged>>, incoming: map<int, seq<Tagged>>,
                           waiting: set<int>, dropped: set<int>, registered: seq<int>)

  datatype State = State(nodes: seq<Broker>, servers: seq<Server>, files: Files)

  // ---- Server steps ----

  /** The request handler of a connection puts the response handler's pid on a CREATE. */
  function Arrive(t: Tagged, pid: int): Tagged {
    if t.msg.kind == CREATE then t.(msg := t.msg.(mtype := pid)) else t
  }

  /** What the request handler puts on the worker's queue, which takes positive addresses only. */
  predicate Acceptable(m: Msg) {
    !m.kind.IsAck() && m.kind != RECEIVE && m.mtype > 0
  }

  /** The response handler puts the global id back in the address. */
  function Leave(t: Tagged): Tagged {
    t.(msg := t.msg.(mtype := t.msg.globalId))
  }

  predicate Sendable(k: Kind) {
    k == ACK_OK || k == ACK_ERROR || k == ACK_CREATE || k == ACK_DESTROY || k == PUBLISH
  }

  function Enqueue(sv: Server, m: Msg, node: int, client: int): Server {
    if m.mtype > 0 then sv.(respQueue := Push(sv.respQueue, m.mtype, Tagged(m, node, client))) else sv
  }

  /** The worker takes the next request. SUBSCRIBE is finished at once. */
  function Start(sv: Server, files: Files, id: int): (Server, Files)
    requires sv.workerQueue != []
  {
    var t := sv.workerQueue[0];
    var took := sv.(workerQueue := sv.workerQueue[1..]);
    match t.msg.kind
    case CREATE => (took.(phase := Creating(t, id)), Db.Created(files, id))
    case SUBSCRIBE =>
      var reply := LookedReply(sv.table, files.users.Keys, t.msg, ACK_OK);
      (Enqueue(took, reply, t.node, t.client),
       if reply.kind == ACK_OK then Db.Subscribed(files, t.msg.mtype, t.msg.topic) else files)
    case DESTROY =>
      (took.(phase := Destroying(t, LookedReply(sv.table, files.users.Keys, t.msg, ACK_DESTROY))),
       if t.msg.mtype in files.users then Db.Deleted(files, t.msg.mtype) else files)
    case PUBLISH =>
      var m := Looked(sv.brokerId, sv.table, t.msg);
      if t.msg.brokerId == sv.brokerId || m.mtype < 0 then (took, files)
      else (took.(phase := Sending(t, m, FirstClients(LinesOf(files, t.msg.topic)), false, true)), files)
    case _ => (Enqueue(took, t.msg.(kind := ACK_ERROR), t.node, t.client), files)
  }

  /** One round of the send loop. The copy is tagged with the client that the id was created for. */
  function Send(sv: Server): Server
    requires sv.phase.Sending? && sv.phase.subs != []
  {
    var p := sv.phase;
    var sub := p.subs[0];
    match RouteOf(sv.table, sub, p.relayed)
    case Copy(pid) =>
      var holder := if sub in sv.holders then sv.holders[sub] else Holder(RELAY, 0);
      Enqueue(sv, p.looked.(globalId := sub, mtype := pid), holder.node, holder.client)
      .(phase := p.(subs := p.subs[1..]))
    case Relay(pid) =>
      Enqueue(sv, p.looked.(globalId := sub, mtype := pid), RELAY, 0)
      .(phase := p.(subs := p.subs[1..], relayed := true))
    case Skip => sv.(phase := p.(subs := p.subs[1..]))
    case Fail => sv.(phase := p.(subs := [], ok := false))
  }

  predicate CanFinish(p: Phase) {
    p.Creating? || p.Destroying? || (p.Sending? && p.subs == [])
  }

  /** The acknowledgement of a CREATE is tagged with its `owner`, the client that the node will take it to be for. */
  function Finish(sv: Server, owner: int): Server
    requires CanFinish(sv.phase)
  {
    var done := sv.(phase := Idle);
    match sv.phase
    case Creating(t, id) =>
      var reply := CreateReply(sv.table, t.msg, id);
      if reply.kind == ACK_CREATE then
        var added := done.(table := sv.table + [G.Entry(t.msg.mtype, id)],
                           holders := sv.holders[id := Holder(t.node, owner)],
                           acked := sv.acked + [Tagged(reply, t.node, owner)]);
        Enqueue(added, reply, t.node, owner)
      else
        Enqueue(done.(failed := sv.failed + [t.(msg := reply)]), reply, t.node, NOBODY)
    case Destroying(t, reply) =>
      Enqueue(done.(table := G.Without(sv.table, reply.globalId), holders := sv.holders - {reply.globalId}),
              reply, t.node, t.client)
    case Sending(t, m, _, _, ok) =>
      if t.msg.brokerId == 0
      then Enqueue(done, m.(kind := if ok then ACK_OK else ACK_ERROR), t.node, t.client)
      else done
  }

  // ---- Node steps ----

  function MsgsOf(ts: seq<Tagged>): seq<Msg> {
    seq(|ts|, i requires 0 <= i < |ts| => ts[i].msg)
  }

  /** What the request handler does with the oldest request; it goes by the sender's address in the message. */
  function Handling(b: Broker): Action
    requires b.requests != []
  {
    Request(b.ids, MsgsOf(QueueOf(b.incoming, b.requests[0].msg.mtype)), b.requests[0].msg)
  }

  function HandleRequest(b: Broker): Broker
    requires b.requests != []
  {
    var t := b.requests[0];
    var took := b.(requests := b.requests[1..]);
    match Handling(b)
    case Ignore => took.(dropped := b.dropped + {t.client})
    case Answer(reply, _) =>
      took.(replies := Push(b.replies, reply.mtype, t.(msg := reply)),
            incoming := var inbox := QueueOf(b.incoming, t.msg.mtype);
                        if inbox == [] then b.incoming else b.incoming[t.msg.mtype := inbox[1..]])
    case Forward(ids, request) =>
      took.(ids := ids, up := b.up + [t.(msg := request)],
            registered := if t.msg.kind == CREATE then b.registered + [t.client] else b.registered)
    case Hang => b
  }

  function HandleReply(b: Broker): Broker
    requires b.down != []
  {
    var t := b.down[0];
    var (ids, m) := Respond(b.ids, t.msg);
    var took := b.(down := b.down[1..], ids := ids);
    if m.mtype <= 0 then took
    else if m.kind == PUBLISH then took.(incoming := Push(b.incoming, m.mtype, t.(msg := m)))
    else took.(replies := Push(b.replies, m.mtype, t.(msg := m)))
  }

  // ---- What is under way between a node and its server ----

  function InHand(p: Phase, n: int): seq<Tagged> {
    if p.Idle? || p.request.node != n then [] else [p.request]
  }

  function OfNode(ts: seq<Tagged>, n: int): seq<Tagged> {
    if ts == [] then []
    else if ts[0].node == n then [ts[0]] + OfNode(ts[1..], n)
    else OfNode(ts[1..], n)
  }

  function ArriveAll(ts: seq<Tagged>, pid: int): seq<Tagged> {
    seq(|ts|, i requires 0 <= i < |ts| => Arrive(ts[i], pid))
  }

  function LeaveAll(ts: seq<Tagged>): seq<Tagged> {
    seq(|ts|, i requires 0 <= i < |ts| => Leave(ts[i]))
  }

  function UpOf(b: Broker, n: int, sv: Server): seq<Tagged> {
    InHand(sv.phase, n) + OfNode(sv.workerQueue, n) + ArriveAll(b.up, b.pid)
  }

  function DownOf(b: Broker, sv: Server): seq<Tagged> {
    b.down + LeaveAll(QueueOf(sv.respQueue, b.pid))
  }

  function ClientsOf(ts: seq<Tagged>): seq<int> {
    seq(|ts|, i requires 0 <= i < |ts| => ts[i].client)
  }

  /** The clients whose id will still be pending once the node has handled everything on its way down, oldest first. */
  function StillPending(b: Broker, sv: Server): seq<int> {
    L.Pending(Replay(b.ids, DownOf(b, sv)))
  }

  /** The client to which the node will give the id that server `s` has created. */
  function OwnerOf(nodes: seq<Broker>, sv: Server): int {
    if sv.phase.Creating? && 0 <= sv.phase.request.node < |nodes|
       && StillPending(nodes[sv.phase.request.node], sv) != []
    then StillPending(nodes[sv.phase.request.node], sv)[0] else NOBODY
  }

  // ---- Events ----

  datatype Event =
    | ClientSends(node: nat, request: Tagged)
    | NodeHandlesRequest(node: nat)
    | RequestArrives(node: nat)
    | WorkerStarts(server: nat, id: int)
    | WorkerSends(server: nat)
    | WorkerFinishes(server: nat)
    | ReplyLeaves(node: nat)
    | RelayLeaves(server: nat)
    | RelayArrives(server: nat)
    | NodeHandlesReply(node: nat)
    | ClientReceives(node: nat, client: int)

  /** Every node names one of the servers. */
  predicate Wired(st: State) {
    forall n | 0 <= n < |st.nodes| :: st.nodes[n].server < |st.servers|
  }

  function ServerOf(st: State, n: nat): Server
    requires Wired(st) && n < |st.nodes|
  {
    st.servers[st.nodes[n].server]
  }

  /** A client sends only when it is not waiting. A node whose table is full does not get past a CREATE. */
  ghost predicate Enabled(st: State, e: Event) {
    Wired(st) &&
    match e
    case ClientSends(n, t) =>
      n < |st.nodes| && FromClient(t) && t.node == n && t.client !in st.nodes[n].waiting
    case NodeHandlesRequest(n) =>
      n < |st.nodes| && st.nodes[n].requests != [] && !Handling(st.nodes[n]).Hang?
    case RequestArrives(n) => n < |st.nodes| && st.nodes[n].up != []
    case WorkerStarts(s, id) =>
      && s < |st.servers| && st.servers[s].phase.Idle? && st.servers[s].workerQueue != []
      && (st.servers[s].workerQueue[0].msg.kind == CREATE ==> IsNextId(st.files.users.Keys, id))
    case WorkerSends(s) => s < |st.servers| && st.servers[s].phase.Sending? && st.servers[s].phase.subs != []
    case WorkerFinishes(s) => s < |st.servers| && CanFinish(st.servers[s].phase)
    case ReplyLeaves(n) => n < |st.nodes| && QueueOf(ServerOf(st, n).respQueue, st.nodes[n].pid) != []
    case RelayLeaves(s) => s < |st.servers| && QueueOf(st.servers[s].respQueue, st.servers[s].nextPid) != []
    case RelayArrives(s) => s < |st.servers| && st.servers[s].ring != []
    case NodeHandlesReply(n) => n < |st.nodes| && st.nodes[n].down != []
    case ClientReceives(n, c) => n < |st.nodes| && QueueOf(st.nodes[n].replies, c) != []
  }

  function WithNode(st: State, n: nat, b: Broker): State
    requires n < |st.nodes|
  {
    st.(nodes := st.nodes[n := b])
  }

  function WithServer(st: State, s: nat, sv: Server): State
    requires s < |st.servers|
  {
    st.(servers := st.servers[s := sv])
  }

  function Finished(st: State, s: nat): Server
    requires s < |st.servers| && CanFinish(st.servers[s].phase)
  {
    Finish(st.servers[s], OwnerOf(st.nodes, st.servers[s]))
  }

  ghost function After(st: State, e: Event): State
    requires Enabled(st, e)
  {
    match e
    case ClientSends(n, t) =>
      var b := st.nodes[n];
      WithNode(st, n, b.(requests := b.requests + [t], waiting := b.waiting + {t.client}))
    case NodeHandlesRequest(n) => WithNode(st, n, HandleRequest(st.nodes[n]))
    case RequestArrives(n) =>
      var b, sv := st.nodes[n], ServerOf(st, n);
      var t := Arrive(b.up[0], b.pid);
      WithServer(WithNode(st, n, b.(up := b.up[1..])), b.server,
                 if Acceptable(t.msg) then sv.(workerQueue := sv.workerQueue + [t]) else sv)
    case WorkerStarts(s, id) =>
      var (sv, files) := Start(st.servers[s], st.files, id);
      WithServer(st, s, sv).(files := files)
    case WorkerSends(s) => WithServer(st, s, Send(st.servers[s]))
    case WorkerFinishes(s) => WithServer(st, s, Finished(st, s))
    case ReplyLeaves(n) =>
      var b, sv := st.nodes[n], ServerOf(st, n);
      var q := QueueOf(sv.respQueue, b.pid);
      WithServer(WithNode(st, n, if Sendable(q[0].msg.kind) then b.(down := b.down + [Leave(q[0])]) else b), b.server,
                 sv.(respQueue := sv.respQueue[b.pid := q[1..]]))
    case RelayLeaves(s) =>
      var sv, next := st.servers[s], Ring.Next(s, |st.servers|);
      var q := QueueOf(sv.respQueue, sv.nextPid);
      var sent := WithServer(st, s, sv.(respQueue := sv.respQueue[sv.nextPid := q[1..]]));
      var rest := sent.servers[next];
      WithServer(sent, next, if Sendable(q[0].msg.kind) then rest.(ring := rest.ring + [Leave(q[0])]) else rest)
    case RelayArrives(s) =>
      var sv := st.servers[s];
      var took := sv.(ring := sv.ring[1..]);
      WithServer(st, s, if Acceptable(sv.ring[0].msg)
                        then took.(workerQueue := took.workerQueue + [sv.ring[0]])
                        else took)
    case NodeHandlesReply(n) => WithNode(st, n, HandleReply(st.nodes[n]))
    case ClientReceives(n, c) =>
      var b := st.nodes[n];
      WithNode(st, n, b.(replies := b.replies[c := QueueOf(b.replies, c)[1..]], waiting := b.waiting - {c}))
  }

  /** The one event that fails a CREATE: the server's table is full. */
  predicate CreateFails(st: State, e: Event) {
    && e.WorkerFinishes? && e.server < |st.servers|
    && st.servers[e.server].phase.Creating? && |st.servers[e.server].table| >= MAX_CLIENTS
  }
}
