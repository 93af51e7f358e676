/** The invariant holds throughout every run, and what it means for clients and servers. */
module Safety {
  import opened Messages
  import L = LocalIds
  import G = GlobalIds
  import opened Db
  import opened Node
  import opened Connection
  import opened Pipeline
  import opened System
  import opened SystemInvariant
  import opened ServerSteps
  import opened NodeSteps
  import Ring

  // ---- Putting the steps together ----

  lemma SameWiring(nodes: seq<Broker>, n: nat, b: Broker, s: int, sv: Server)
    requires n < |nodes| && b.server == nodes[n].server && b.pid == nodes[n].pid
    requires ServerInv(nodes, s, sv)
    ensures ServerInv(nodes[n := b], s, sv)
  {
    var after := nodes[n := b];
    forall m ensures FromNode(after, s, m) <==> FromNode(nodes, s, m) {
    }
    assert forall m | 0 <= m < |nodes| :: after[m].pid == nodes[m].pid;
  }

  lemma NodeChanges(st: State, n: nat, b: Broker)
    requires Inv(st) && n < |st.nodes| && b.server == st.nodes[n].server && b.pid == st.nodes[n].pid
    requires NodeInv(WithNode(st, n, b), n)
    ensures Inv(WithNode(st, n, b))
  {
    var after := WithNode(st, n, b);
    forall m | 0 <= m < |after.nodes| ensures NodeInv(after, m) {
      if m != n { assert NodeInv(st, m); }
    }
    forall s | 0 <= s < |after.servers| ensures ServerInv(after.nodes, s, after.servers[s]) {
      SameWiring(st.nodes, n, b, s, st.servers[s]);
    }
  }

  lemma ServerChanges(st: State, s: nat, sv: Server, files: Files)
    requires Inv(st) && s < |st.servers| && ServerInv(st.nodes, s, sv) && sv.nextPid == st.servers[s].nextPid
    requires ClaimsInv(WithServer(st, s, sv).(files := files))
    requires forall n | 0 <= n < |st.nodes| && st.nodes[n].server == s :: ViewOk(ViewFor(st.nodes[n], n, sv))
    ensures Inv(WithServer(st, s, sv).(files := files))
  {
    var after := WithServer(st, s, sv).(files := files);
    forall n | 0 <= n < |after.nodes| ensures NodeInv(after, n) {
      assert NodeInv(st, n);
    }
  }

  lemma BothChange(st: State, n: nat, b: Broker, sv: Server)
    requires Inv(st) && n < |st.nodes| && b.server == st.nodes[n].server && b.pid == st.nodes[n].pid
    requires ServerInv(st.nodes, b.server, sv) && sv.nextPid == ServerOf(st, n).nextPid
    requires Claimed(sv) == Claimed(ServerOf(st, n))
    requires forall m | 0 <= m < |st.nodes| :: NodeInv(WithServer(WithNode(st, n, b), b.server, sv), m)
    ensures Inv(WithServer(WithNode(st, n, b), b.server, sv))
  {
    var after := WithServer(WithNode(st, n, b), b.server, sv);
    forall s | 0 <= s < |after.servers| ensures ServerInv(after.nodes, s, after.servers[s]) {
      SameWiring(st.nodes, n, b, s, after.servers[s]);
    }
    FewerClaims(st, b.server, sv);
  }

  lemma MoreWork(nodes: seq<Broker>, s: int, sv: Server, t: Tagged)
    requires ServerInv(nodes, s, sv) && (IsRelayed(t) || FromNode(nodes, s, t.node))
    ensures ServerInv(nodes, s, sv.(workerQueue := sv.workerQueue + [t]))
  {
  }

  lemma OtherQueue(nodes: seq<Broker>, s: int, sv: Server, pid: int, q: seq<Tagged>)
    requires ServerInv(nodes, s, sv)
    requires pid == sv.nextPid ==> forall i | 0 <= i < |q| :: IsRelay(q[i])
    ensures ServerInv(nodes, s, sv.(respQueue := sv.respQueue[pid := q]))
  {
    assert QueueOf(sv.respQueue[pid := q], sv.nextPid)
        == if pid == sv.nextPid then q else QueueOf(sv.respQueue, sv.nextPid);
  }

  lemma RequestArrivesKeeps(st: State, n: nat)
    requires Inv(st) && Enabled(st, RequestArrives(n))
    ensures Inv(After(st, RequestArrives(n)))
  {
    var b, sv := st.nodes[n], ServerOf(st, n);
    var t := Arrive(b.up[0], b.pid);
    var b', sv' := b.(up := b.up[1..]), sv.(workerQueue := sv.workerQueue + [t]);
    SentRequest(st, n);
    assert ServerInv(st.nodes, b.server, sv);
    MoreWork(st.nodes, b.server, sv, t);
    assert After(st, RequestArrives(n)) == WithServer(WithNode(st, n, b'), b.server, sv');
    forall m | 0 <= m < |st.nodes| ensures NodeInv(WithServer(WithNode(st, n, b'), b.server, sv'), m) {
      ArrivesKeepsNode(st, n, m);
    }
    BothChange(st, n, b', sv');
  }

  lemma ReplyLeavesKeeps(st: State, n: nat)
    requires Inv(st) && Enabled(st, ReplyLeaves(n))
    ensures Inv(After(st, ReplyLeaves(n)))
  {
    var b, sv := st.nodes[n], ServerOf(st, n);
    var q := QueueOf(sv.respQueue, b.pid);
    WaitingReply(st, n);
    var b', sv' := b.(down := b.down + [Leave(q[0])]), sv.(respQueue := sv.respQueue[b.pid := q[1..]]);
    assert ServerInv(st.nodes, b.server, sv);
    OtherQueue(st.nodes, b.server, sv, b.pid, q[1..]);
    assert After(st, ReplyLeaves(n)) == WithServer(WithNode(st, n, b'), b.server, sv');
    forall m | 0 <= m < |st.nodes| ensures NodeInv(WithServer(WithNode(st, n, b'), b.server, sv'), m) {
      LeavesKeepsNode(st, n, m);
    }
    BothChange(st, n, b', sv');
  }

  /** A change of a server that no connection can see. */
  lemma UnseenChange(st: State, s: nat, sv: Server)
    requires Inv(st) && s < |st.servers| && ServerInv(st.nodes, s, sv) && sv.nextPid == st.servers[s].nextPid
    requires Claimed(sv) <= Claimed(st.servers[s])
    requires forall n | 0 <= n < |st.nodes| && st.nodes[n].server == s ::
               ViewFor(st.nodes[n], n, sv) == ViewFor(st.nodes[n], n, st.servers[s])
    ensures Inv(WithServer(st, s, sv))
  {
    FewerClaims(st, s, sv);
    forall n | 0 <= n < |st.nodes| && st.nodes[n].server == s ensures ViewOk(ViewFor(st.nodes[n], n, sv)) {
      assert NodeInv(st, n);
    }
    ServerChanges(st, s, sv, st.files);
    assert WithServer(st, s, sv).(files := st.files) == WithServer(st, s, sv);
  }

  lemma RelayLeavesKeeps(st: State, s: nat)
    requires Inv(st) && Enabled(st, RelayLeaves(s))
    ensures Inv(After(st, RelayLeaves(s)))
  {
    var sv, next := st.servers[s], Ring.Next(s, |st.servers|);
    var q := QueueOf(sv.respQueue, sv.nextPid);
    var sv' := sv.(respQueue := sv.respQueue[sv.nextPid := q[1..]]);
    assert ServerInv(st.nodes, s, sv);
    assert IsRelay(q[0]);
    OtherQueue(st.nodes, s, sv, sv.nextPid, q[1..]);
    forall n | 0 <= n < |st.nodes| && st.nodes[n].server == s
      ensures ViewFor(st.nodes[n], n, sv') == ViewFor(st.nodes[n], n, sv)
    {
      assert ServerOf(st, n).nextPid != st.nodes[n].pid;
      ForeignReplyView(st.nodes[n], n, sv, sv.nextPid, q[1..]);
    }
    UnseenChange(st, s, sv');
    var sent := WithServer(st, s, sv');
    var rest := sent.servers[next];
    var rest' := rest.(ring := rest.ring + [Leave(q[0])]);
    assert ServerInv(sent.nodes, next, rest);
    assert ServerInv(sent.nodes, next, rest');
    UnseenChange(sent, next, rest');
  }

  lemma RelayTaken(st: State, s: nat)
    requires Inv(st) && s < |st.servers| && st.servers[s].ring != []
    ensures IsRelayed(st.servers[s].ring[0])
    ensures Inv(WithServer(st, s, st.servers[s].(ring := st.servers[s].ring[1..])))
  {
    var sv := st.servers[s];
    assert ServerInv(st.nodes, s, sv);
    assert ServerInv(st.nodes, s, sv.(ring := sv.ring[1..]));
    UnseenChange(st, s, sv.(ring := sv.ring[1..]));
  }

  lemma RelayQueued(st: State, s: nat, t: Tagged)
    requires Inv(st) && s < |st.servers| && IsRelayed(t)
    ensures Inv(WithServer(st, s, st.servers[s].(workerQueue := st.servers[s].workerQueue + [t])))
  {
    var sv := st.servers[s];
    assert ServerInv(st.nodes, s, sv);
    MoreWork(st.nodes, s, sv, t);
    forall n | 0 <= n < |st.nodes| && st.nodes[n].server == s
      ensures ViewFor(st.nodes[n], n, sv.(workerQueue := sv.workerQueue + [t])) == ViewFor(st.nodes[n], n, sv)
    {
      ForeignRequestView(st.nodes[n], n, sv, t);
    }
    UnseenChange(st, s, sv.(workerQueue := sv.workerQueue + [t]));
  }

  lemma RelayArrivesKeeps(st: State, s: nat)
    requires Inv(st) && Enabled(st, RelayArrives(s))
    ensures Inv(After(st, RelayArrives(s)))
  {
    var sv := st.servers[s];
    RelayTaken(st, s);
    var read := WithServer(st, s, sv.(ring := sv.ring[1..]));
    if Acceptable(sv.ring[0].msg) {
      RelayQueued(read, s, sv.ring[0]);
      assert After(st, RelayArrives(s))
          == WithServer(read, s, read.servers[s].(workerQueue := sv.workerQueue + [sv.ring[0]]));
    }
  }

  lemma StartKeepsPid(sv: Server, files: Files, id: int)
    requires sv.workerQueue != []
    ensures Start(sv, files, id).0.nextPid == sv.nextPid
  {
  }

  lemma WorkerStartsKeeps(st: State, s: nat, id: int)
    requires Inv(st) && Enabled(st, WorkerStarts(s, id))
    ensures Inv(After(st, WorkerStarts(s, id)))
  {
    var (sv, files) := Start(st.servers[s], st.files, id);
    StartKeepsServer(st, s, id);
    StartKeepsClaims(st, s, id);
    StartKeepsPid(st.servers[s], st.files, id);
    forall n | 0 <= n < |st.nodes| && st.nodes[n].server == s ensures ViewOk(ViewFor(st.nodes[n], n, sv)) {
      StartKeepsNode(st, s, id, n);
    }
    ServerChanges(st, s, sv, files);
  }

  /** A worker step that leaves the database alone. */
  lemma ServerOnlyChanges(st: State, s: nat, sv: Server)
    requires Inv(st) && s < |st.servers| && ServerInv(st.nodes, s, sv) && sv.nextPid == st.servers[s].nextPid
    requires Claimed(sv) <= Claimed(st.servers[s])
    requires forall n | 0 <= n < |st.nodes| && st.nodes[n].server == s :: ViewOk(ViewFor(st.nodes[n], n, sv))
    ensures Inv(WithServer(st, s, sv))
  {
    FewerClaims(st, s, sv);
    assert WithServer(st, s, sv).(files := st.files) == WithServer(st, s, sv);
    ServerChanges(st, s, sv, st.files);
  }

  lemma WorkerSendsKeeps(st: State, s: nat)
    requires Inv(st) && Enabled(st, WorkerSends(s))
    ensures Inv(After(st, WorkerSends(s)))
  {
    SendKeepsServer(st, s);
    forall n | 0 <= n < |st.nodes| && st.nodes[n].server == s
      ensures ViewOk(ViewFor(st.nodes[n], n, Send(st.servers[s])))
    {
      SendKeepsNode(st, s, n);
    }
    ServerOnlyChanges(st, s, Send(st.servers[s]));
  }

  lemma WorkerFinishesKeeps(st: State, s: nat)
    requires Inv(st) && Enabled(st, WorkerFinishes(s))
    ensures Inv(After(st, WorkerFinishes(s)))
  {
    FinishKeepsServer(st, s);
    FinishKeepsClaims(st, s);
    forall n | 0 <= n < |st.nodes| && st.nodes[n].server == s
      ensures ViewOk(ViewFor(st.nodes[n], n, Finished(st, s)))
    {
      FinishKeepsNode(st, s, n);
    }
    ServerOnlyChanges(st, s, Finished(st, s));
  }

  lemma SendsKeeps(st: State, n: nat, t: Tagged)
    requires Inv(st) && Enabled(st, ClientSends(n, t))
    ensures Inv(After(st, ClientSends(n, t)))
  {
    SendsKeepsNode(st, n, t);
    NodeChanges(st, n, After(st, ClientSends(n, t)).nodes[n]);
  }

  lemma HandlesRequestKeeps(st: State, n: nat)
    requires Inv(st) && Enabled(st, NodeHandlesRequest(n))
    ensures Inv(After(st, NodeHandlesRequest(n)))
  {
    HandlesRequestKeepsNode(st, n);
    NodeChanges(st, n, HandleRequest(st.nodes[n]));
  }

  lemma HandlesReplyKeeps(st: State, n: nat)
    requires Inv(st) && Enabled(st, NodeHandlesReply(n))
    ensures Inv(After(st, NodeHandlesReply(n)))
  {
    HandlesReplyKeepsNode(st, n);
    NodeChanges(st, n, HandleReply(st.nodes[n]));
  }

  lemma ReceivesKeeps(st: State, n: nat, c: int)
    requires Inv(st) && Enabled(st, ClientReceives(n, c))
    ensures Inv(After(st, ClientReceives(n, c)))
  {
    ReceivesKeepsNode(st, n, c);
    NodeChanges(st, n, After(st, ClientReceives(n, c)).nodes[n]);
  }

  /** Every event keeps the invariant. */
  lemma StepKeepsInv(st: State, e: Event)
    requires Inv(st) && Enabled(st, e)
    ensures Inv(After(st, e))
  {
    match e
    case RequestArrives(n) => RequestArrivesKeeps(st, n);
    case WorkerStarts(s, id) => WorkerStartsKeeps(st, s, id);
    case WorkerSends(s) => WorkerSendsKeeps(st, s);
    case WorkerFinishes(s) => WorkerFinishesKeeps(st, s);
    case ReplyLeaves(n) => ReplyLeavesKeeps(st, n);
    case RelayLeaves(s) => RelayLeavesKeeps(st, s);
    case RelayArrives(s) => RelayArrivesKeeps(st, s);
    case ClientSends(n, t) => SendsKeeps(st, n, t);
    case NodeHandlesRequest(n) => HandlesRequestKeeps(st, n);
    case NodeHandlesReply(n) => HandlesReplyKeeps(st, n);
    case ClientReceives(n, c) => ReceivesKeeps(st, n, c);
  }

  // ---- Runs ----

  /** No process has done anything yet; the database may hold users from earlier runs. */
  ghost predicate Init(st: State) {
    && PidsDistinct(st) && Linked(st.files)
    && (forall n | 0 <= n < |st.nodes| ::
          var b := st.nodes[n];
          b == Broker(b.server, b.pid, [], [], [], [], map[], map[], {}, {}, []))
    && (forall s | 0 <= s < |st.servers| ::
          var sv := st.servers[s];
          && sv.brokerId != 0 && sv.nextPid > 0
          && (sv.table == [] || sv.table == [G.Entry(sv.nextPid, NEXT_SERVER_GLOBAL_ID)])
          && sv == Server(sv.brokerId, sv.nextPid, sv.table, map[], [], [], [], map[], [], Idle))
  }

  ghost predicate IsRun(states: seq<State>, events: seq<Event>) {
    && |states| == |events| + 1 && Init(states[0])
    && forall i | 0 <= i < |events| ::
         Enabled(states[i], events[i]) && states[i + 1] == After(states[i], events[i])
  }

  lemma InitServer(nodes: seq<Broker>, s: int, sv: Server)
    requires sv.brokerId != 0 && sv.nextPid > 0
    requires sv.table == [] || sv.table == [G.Entry(sv.nextPid, NEXT_SERVER_GLOBAL_ID)]
    requires sv == Server(sv.brokerId, sv.nextPid, sv.table, map[], [], [], [], map[], [], Idle)
    ensures ServerInv(nodes, s, sv)
  {
    G.LookupFindsEntry([G.Entry(sv.nextPid, NEXT_SERVER_GLOBAL_ID)], 0);
  }

  lemma InitNode(b: Broker, n: int, sv: Server)
    requires b == Broker(b.server, b.pid, [], [], [], [], map[], map[], {}, {}, [])
    requires sv == Server(sv.brokerId, sv.nextPid, sv.table, map[], [], [], [], map[], [], Idle)
    ensures ViewOk(ViewFor(b, n, sv)) && RepliesOk(b.incoming)
  {
    var v := ViewFor(b, n, sv);
    assert v.up == [] && v.down == [] && v.held == map[] && v.acked == [] && v.lost == [];
    EmptyViewIsOk(v);
  }

  lemma EmptyViewIsOk(v: View)
    requires v == View(v.pid, [], [], [], [], map[], {}, {}, map[], [], [], [])
    ensures ViewOk(v)
  {
    assert Final(v) == [] && L.Pending(Final(v)) == [] && Stuck(v) == [];
    assert TableOk(v) && HeldOk(v);
    assert CountOk(v, []) && StuckOk([], {}, {});
  }

  lemma InitIsFine(st: State)
    requires Init(st)
    ensures Inv(st)
  {
    forall n | 0 <= n < |st.nodes| ensures NodeInv(st, n) {
      InitNode(st.nodes[n], n, ServerOf(st, n));
    }
    forall s | 0 <= s < |st.servers| ensures ServerInv(st.nodes, s, st.servers[s]) {
      InitServer(st.nodes, s, st.servers[s]);
    }
  }

  lemma {:induction false} RunsAreSafe(states: seq<State>, events: seq<Event>, i: nat)
    requires IsRun(states, events) && i < |states|
    ensures Inv(states[i])
  {
    if i == 0 {
      InitIsFine(states[0]);
    } else {
      RunsAreSafe(states, events, i - 1);
      StepKeepsInv(states[i - 1], events[i - 1]);
    }
  }

  // ---- What the invariant means ----

  /** The clients of a node whose CREATE failed, or whose acknowledgement went to such a client instead. */
  function StuckClients(st: State, n: nat): seq<int>
    requires Wired(st) && n < |st.nodes|
  {
    Stuck(ViewFor(st.nodes[n], n, ServerOf(st, n)))
  }

  lemma TableInOrder(st: State, n: nat)
    requires Inv(st) && n < |st.nodes|
    ensures var b, sv := st.nodes[n], ServerOf(st, n);
            && L.Injective(b.ids)
            && L.Pending(b.ids) == Acked(DownOf(b, sv)) + StuckClients(st, n) + Creators(UpOf(b, n, sv))
  {
    assert NodeInv(st, n);
    PendingInOrder(ViewFor(st.nodes[n], n, ServerOf(st, n)));
  }

  /** Although the database reuses ids, no node ever has one id for two of its clients. Its pending entries are,
      in order, the clients of the CREATE acknowledgements on their way down, the stuck clients, and the clients
      of the CREATE requests on their way up. */
  lemma NodeTablesAreInjective(states: seq<State>, events: seq<Event>, i: nat, n: nat)
    requires IsRun(states, events) && i < |states| && Wired(states[i]) && n < |states[i].nodes|
    ensures var b, sv := states[i].nodes[n], ServerOf(states[i], n);
            && L.Injective(b.ids)
            && L.Pending(b.ids) == Acked(DownOf(b, sv)) + StuckClients(states[i], n) + Creators(UpOf(b, n, sv))
  {
    RunsAreSafe(states, events, i);
    TableInOrder(states[i], n);
  }

  /** Whatever a node receives goes to the client it belongs to: a reply to the client that asked,
      an acknowledged CREATE to the owner of the id, a published message to the client that owned the id
      that the worker sent it to, even if the id has been given up, or given to somebody else, in the meantime.
      Only the error reply of a failed CREATE goes to nobody, and then nothing changes. */
  lemma EverythingReachesItsClient(states: seq<State>, events: seq<Event>, i: nat)
    requires IsRun(states, events) && i < |events| && events[i].NodeHandlesReply?
    ensures var b := states[i].nodes[events[i].node]; var t := b.down[0];
            var m := Respond(b.ids, t.msg).1; var b' := states[i + 1].nodes[events[i].node];
            if t.client == NOBODY then
              t.msg.kind == ACK_ERROR && b'.ids == b.ids && b'.replies == b.replies && b'.incoming == b.incoming
            else
              && m.mtype == t.client > 0
              && (t.msg.kind == PUBLISH ==>
                    b'.incoming == Push(b.incoming, t.client, t.(msg := m)) && b'.replies == b.replies)
              && (t.msg.kind != PUBLISH ==>
                    b'.replies == Push(b.replies, t.client, t.(msg := m)) && b'.incoming == b.incoming)
  {
    RunsAreSafe(states, events, i);
    HeadGoesToItsClient(states[i], events[i].node);
  }

  lemma HeadGoesToItsClient(st: State, n: nat)
    requires Inv(st) && n < |st.nodes| && st.nodes[n].down != []
    ensures var t := st.nodes[n].down[0];
            && Respond(st.nodes[n].ids, t.msg).1.mtype == (if t.client == NOBODY then -1 else t.client)
            && (t.client == NOBODY || t.client > 0) && (t.client == NOBODY ==> t.msg.kind == ACK_ERROR)
  {
    assert NodeInv(st, n);
    var v := ViewFor(st.nodes[n], n, ServerOf(st, n));
    assert v.down[0] == st.nodes[n].down[0];
    assert Ready(v.ids, v.down[0]);
    DeliveredKeeps(v);
  }

  /** The copy that the send loop queues belongs to the client that owns the id by then. */
  lemma CopiesAreForTheHolder(states: seq<State>, events: seq<Event>, i: nat)
    requires IsRun(states, events) && i < |events| && events[i].WorkerSends?
    ensures var sv, sv' := states[i].servers[events[i].server], states[i + 1].servers[events[i].server];
            var sub := sv.phase.subs[0];
            sub in sv.holders ==>
              var h := sv.holders[sub];
              && 0 <= h.node < |states[i].nodes| && states[i].nodes[h.node].server == events[i].server
              && var pid := states[i].nodes[h.node].pid;
                 sv'.respQueue == Push(sv.respQueue, pid,
                                       Tagged(sv.phase.looked.(globalId := sub, mtype := pid), h.node, h.client))
  {
    RunsAreSafe(states, events, i);
    var sv := states[i].servers[events[i].server];
    assert ServerInv(states[i].nodes, events[i].server, sv);
    var sub := sv.phase.subs[0];
    if sub in sv.holders {
      G.MtypeIffHas(sv.table, sub);
    }
  }

  /** A client that waits for an answer has exactly one request or reply in the whole system, and one that does not wait
      has none; the exceptions are clients whose request was ignored and stuck clients. */
  lemma ExactlyOneAnswer(states: seq<State>, events: seq<Event>, i: nat, n: nat, c: int)
    requires IsRun(states, events) && i < |states| && Wired(states[i]) && n < |states[i].nodes| && c > 0
    ensures var b, sv := states[i].nodes[n], ServerOf(states[i], n);
            Mine(b.requests, c) + Mine(UpOf(b, n, sv), c) + Answers(DownOf(b, sv), c) + |QueueOf(b.replies, c)|
            == if c in b.waiting && c !in b.dropped && c !in StuckClients(states[i], n) then 1 else 0
  {
    RunsAreSafe(states, events, i);
    assert NodeInv(states[i], n);
    assert InFlight(ViewFor(states[i].nodes[n], n, ServerOf(states[i], n)), c)
        == if c in states[i].nodes[n].waiting && c !in states[i].nodes[n].dropped && c !in StuckClients(states[i], n)
           then 1 else 0;
  }

  lemma RequestIsFromClient(st: State, n: nat)
    requires Inv(st) && n < |st.nodes| && st.nodes[n].requests != []
    ensures FromClient(st.nodes[n].requests[0])
  {
    assert NodeInv(st, n);
    assert ViewFor(st.nodes[n], n, ServerOf(st, n)).requests[0] == st.nodes[n].requests[0];
  }

  /** A request is ignored only if its client is not registered at the node, and then it is not a CREATE. */
  lemma OnlyStrangersAreIgnored(states: seq<State>, events: seq<Event>, i: nat)
    requires IsRun(states, events) && i < |events| && events[i].NodeHandlesRequest?
    ensures var b := states[i].nodes[events[i].node]; var t := b.requests[0];
            Handling(b).Ignore? <==> !L.HasLocal(b.ids, t.client) && t.msg.kind != CREATE
  {
    RunsAreSafe(states, events, i);
    RequestIsFromClient(states[i], events[i].node);
  }

  /** The id that a worker is taking out of the database but has not yet taken out of its table. */
  predicate GivingUp(sv: Server, g: int) {
    sv.phase.Destroying? && sv.phase.request.msg.mtype == g
  }

  /** An id registered at a server is a live user and is registered nowhere else,
      except while one of the servers is giving it up. */
  lemma ServerTablesAreDisjoint(states: seq<State>, events: seq<Event>, i: nat, s: nat, r: nat, g: int)
    requires IsRun(states, events) && i < |states|
    requires s < |states[i].servers| && r < |states[i].servers| && s != r
    requires g != NEXT_SERVER_GLOBAL_ID && G.Has(states[i].servers[s].table, g) && !GivingUp(states[i].servers[s], g)
    ensures g > 0 && g in states[i].files.users
    ensures G.Has(states[i].servers[r].table, g) ==> GivingUp(states[i].servers[r], g)
  {
    RunsAreSafe(states, events, i);
    var st := states[i];
    assert ServerInv(st.nodes, s, st.servers[s]) && ServerInv(st.nodes, r, st.servers[r]);
    assert g in Claimed(st.servers[s]);
    assert g in Claimed(st.servers[if s < r then r else s]) ==> g !in Claimed(st.servers[if s < r then s else r]);
  }

  function TablesOf(servers: seq<Server>): seq<seq<G.Entry>> {
    seq(|servers|, s requires 0 <= s < |servers| => servers[s].table)
  }

  function BrokerIdsOf(servers: seq<Server>): seq<int> {
    seq(|servers|, s requires 0 <= s < |servers| => servers[s].brokerId)
  }

  lemma TableIsConnected(nodes: seq<Broker>, s: int, sv: Server)
    requires ServerInv(nodes, s, sv) && G.Has(sv.table, NEXT_SERVER_GLOBAL_ID)
    requires forall n | FromNode(nodes, s, n) :: nodes[n].pid != sv.nextPid
    ensures Ring.Connected(sv.table)
  {
    forall k | 0 <= k < |sv.table| && sv.table[k].globalId != NEXT_SERVER_GLOBAL_ID
      ensures sv.table[k].mtype != Ring.NextPid(sv.table)
    {
      G.LookupFindsEntry(sv.table, k);
      assert sv.table[k].globalId in sv.holders;
    }
  }

  lemma {:induction false} AllTablesConnected(tables: seq<seq<G.Entry>>)
    requires forall i | 0 <= i < |tables| :: Ring.Connected(tables[i])
    ensures Ring.AllConnected(tables)
  {
    if tables != [] {
      assert forall i | 0 <= i < |tables[1..]| :: tables[1..][i] == tables[i + 1];
      AllTablesConnected(tables[1..]);
    }
  }

  /** Whenever the servers have distinct broker ids, are connected in a ring and none is giving up an id,
      their tables are those of a ring and topic files hold positive ids, which is what exact delivery assumes. */
  lemma ReachableServersFormARing(states: seq<State>, events: seq<Event>, i: nat, topic: Topic)
    requires IsRun(states, events) && i < |states| && |states[i].servers| > 0
    requires Ring.DistinctNonzero(BrokerIdsOf(states[i].servers))
    requires forall s | 0 <= s < |states[i].servers| ::
               && G.Has(states[i].servers[s].table, NEXT_SERVER_GLOBAL_ID)
               && !states[i].servers[s].phase.Destroying?
    ensures Ring.IsRing(Ring.Servers(BrokerIdsOf(states[i].servers), TablesOf(states[i].servers)))
    ensures Ring.AllPositive(LinesOf(states[i].files, topic))
  {
    RunsAreSafe(states, events, i);
    var st := states[i];
    var tables := TablesOf(st.servers);
    forall s | 0 <= s < |tables| ensures Ring.Connected(tables[s]) {
      assert ServerInv(st.nodes, s, st.servers[s]);
      forall n | FromNode(st.nodes, s, n) ensures st.nodes[n].pid != st.servers[s].nextPid {
        assert st.nodes[n].pid != ServerOf(st, n).nextPid;
      }
      TableIsConnected(st.nodes, s, st.servers[s]);
    }
    AllTablesConnected(tables);
    forall s, r, g | 0 <= s < r < |tables| && g != NEXT_SERVER_GLOBAL_ID
      ensures !(G.Has(tables[s], g) && G.Has(tables[r], g))
    {
      if G.Has(tables[s], g) { ServerTablesAreDisjoint(states, events, i, s, r, g); }
    }
    forall k | 0 <= k < |LinesOf(st.files, topic)| ensures LinesOf(st.files, topic)[k] > 0 {
      ListedUserIsLive(st.files, topic, LinesOf(st.files, topic)[k]);
    }
  }
}
