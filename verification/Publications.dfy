/** Published messages keep their topic and text on every way they take. */
module Publications {
  import opened Messages
  import L = LocalIds
  import opened Db
  import opened DbHandler
  import opened Routing
  import opened Node
  import opened Connection
  import opened Pipeline
  import opened System
  import opened SystemInvariant
  import opened ServerSteps
  import opened Safety
  import opened Journal
  import Ring

  datatype Content = Content(topic: Topic, text: string)

  function ContentOf(m: Msg): Content {
    Content(m.topic, m.text)
  }

  function Publishing(published: set<Content>, e: Event): set<Content> {
    if e.ClientSends? && e.request.msg.kind == PUBLISH then published + {ContentOf(e.request.msg)} else published
  }

  /** What clients have published. */
  function PublishedIn(events: seq<Event>, i: nat): set<Content>
    requires i <= |events|
  {
    if i == 0 then {} else Publishing(PublishedIn(events, i - 1), events[i - 1])
  }

  /** The published messages among these were published by clients. */
  predicate Genuine(published: set<Content>, ts: seq<Tagged>) {
    forall k | 0 <= k < |ts| :: ts[k].msg.kind == PUBLISH ==> ContentOf(ts[k].msg) in published
  }

  ghost predicate QueuesGenuine(published: set<Content>, queues: map<int, seq<Tagged>>) {
    forall k :: Genuine(published, QueueOf(queues, k))
  }

  predicate PhaseGenuine(published: set<Content>, p: Phase) {
    p.Sending? ==>
      && p.request.msg.kind == PUBLISH == p.looked.kind
      && ContentOf(p.looked) == ContentOf(p.request.msg) && ContentOf(p.looked) in published
  }

  ghost predicate ServerGenuine(published: set<Content>, sv: Server) {
    && Genuine(published, sv.workerQueue) && Genuine(published, sv.ring)
    && QueuesGenuine(published, sv.respQueue) && PhaseGenuine(published, sv.phase)
  }

  ghost predicate NodeGenuine(published: set<Content>, b: Broker) {
    && Genuine(published, b.requests) && Genuine(published, b.up) && Genuine(published, b.down)
    && QueuesGenuine(published, b.incoming)
  }

  ghost predicate AllGenuine(published: set<Content>, st: State) {
    && (forall n | 0 <= n < |st.nodes| :: NodeGenuine(published, st.nodes[n]))
    && (forall s | 0 <= s < |st.servers| :: ServerGenuine(published, st.servers[s]))
  }

  // ---- Queues ----

  lemma PushedGenuine(published: set<Content>, queues: map<int, seq<Tagged>>, k: int, t: Tagged)
    requires QueuesGenuine(published, queues) && (t.msg.kind == PUBLISH ==> ContentOf(t.msg) in published)
    ensures QueuesGenuine(published, Push(queues, k, t))
  {
    forall d ensures Genuine(published, QueueOf(Push(queues, k, t), d)) {
      assert Genuine(published, QueueOf(queues, d));
    }
  }

  lemma PoppedGenuine(published: set<Content>, queues: map<int, seq<Tagged>>, k: int)
    requires QueuesGenuine(published, queues) && QueueOf(queues, k) != []
    ensures QueuesGenuine(published, queues[k := QueueOf(queues, k)[1..]])
  {
    var rest := queues[k := QueueOf(queues, k)[1..]];
    forall d ensures Genuine(published, QueueOf(rest, d)) {
      assert Genuine(published, QueueOf(queues, d));
    }
  }

  lemma EnqueuedGenuine(published: set<Content>, sv: Server, m: Msg, node: int, client: int)
    requires QueuesGenuine(published, sv.respQueue) && (m.kind == PUBLISH ==> ContentOf(m) in published)
    ensures QueuesGenuine(published, Enqueue(sv, m, node, client).respQueue)
  {
    PushedGenuine(published, sv.respQueue, m.mtype, Tagged(m, node, client));
  }

  // ---- Events ----

  lemma StartGenuine(published: set<Content>, sv: Server, files: Files, id: int)
    requires ServerGenuine(published, sv) && sv.workerQueue != []
    ensures ServerGenuine(published, Start(sv, files, id).0)
  {
    var (t, took) := (sv.workerQueue[0], sv.(workerQueue := sv.workerQueue[1..]));
    match t.msg.kind
    case SUBSCRIBE =>
      EnqueuedGenuine(published, took, LookedReply(sv.table, files.users.Keys, t.msg, ACK_OK), t.node, t.client);
    case CREATE =>
    case DESTROY =>
    case PUBLISH =>
    case _ => EnqueuedGenuine(published, took, t.msg.(kind := ACK_ERROR), t.node, t.client);
  }

  lemma SendGenuine(published: set<Content>, sv: Server)
    requires ServerGenuine(published, sv) && sv.phase.Sending? && sv.phase.subs != []
    ensures ServerGenuine(published, Send(sv))
  {
    var (p, sub) := (sv.phase, sv.phase.subs[0]);
    match RouteOf(sv.table, sub, p.relayed)
    case Copy(pid) =>
      var holder := if sub in sv.holders then sv.holders[sub] else Holder(RELAY, 0);
      EnqueuedGenuine(published, sv, p.looked.(globalId := sub, mtype := pid), holder.node, holder.client);
    case Relay(pid) => EnqueuedGenuine(published, sv, p.looked.(globalId := sub, mtype := pid), RELAY, 0);
    case Skip =>
    case Fail =>
  }

  lemma FinishGenuine(published: set<Content>, nodes: seq<Broker>, s: int, sv: Server, owner: int)
    requires ServerInv(nodes, s, sv) && ServerGenuine(published, sv) && CanFinish(sv.phase)
    ensures ServerGenuine(published, Finish(sv, owner))
  {
    match sv.phase
    case Creating(t, id) =>
      var reply := CreateReply(sv.table, t.msg, id);
      EnqueuedGenuine(published, sv, reply, t.node, if reply.kind == ACK_CREATE then owner else NOBODY);
    case Destroying(t, reply) => EnqueuedGenuine(published, sv, reply, t.node, t.client);
    case Sending(t, _, _, _, _) => EnqueuedGenuine(published, sv, SendAck(sv.phase), t.node, t.client);
  }

  lemma HandledGenuine(published: set<Content>, b: Broker)
    requires NodeGenuine(published, b) && b.requests != []
    ensures NodeGenuine(published, HandleRequest(b))
  {
    var t := b.requests[0];
    if QueueOf(b.incoming, t.msg.mtype) != [] { PoppedGenuine(published, b.incoming, t.msg.mtype); }
  }

  lemma RespondedGenuine(published: set<Content>, b: Broker)
    requires NodeGenuine(published, b) && b.down != []
    ensures NodeGenuine(published, HandleReply(b))
  {
    var t := b.down[0];
    var m := Respond(b.ids, t.msg).1;
    PushedGenuine(published, b.incoming, m.mtype, t.(msg := m));
  }

  lemma MoreGenuine(published: set<Content>, more: set<Content>, st: State)
    requires AllGenuine(published, st) && published <= more
    ensures AllGenuine(more, st)
  {
    forall n | 0 <= n < |st.nodes| ensures NodeGenuine(more, st.nodes[n]) {
      assert NodeGenuine(published, st.nodes[n]);
      forall k ensures Genuine(more, QueueOf(st.nodes[n].incoming, k)) {
        assert Genuine(published, QueueOf(st.nodes[n].incoming, k));
      }
    }
    forall s | 0 <= s < |st.servers| ensures ServerGenuine(more, st.servers[s]) {
      assert ServerGenuine(published, st.servers[s]);
      forall k ensures Genuine(more, QueueOf(st.servers[s].respQueue, k)) {
        assert Genuine(published, QueueOf(st.servers[s].respQueue, k));
      }
    }
  }

  lemma WorkingGenuine(published: set<Content>, st: State, e: Event)
    requires Inv(st) && Enabled(st, e) && (e.WorkerStarts? || e.WorkerSends? || e.WorkerFinishes?)
    requires AllGenuine(published, st)
    ensures AllGenuine(published, After(st, e))
  {
    var sv := st.servers[e.server];
    assert ServerInv(st.nodes, e.server, sv) && ServerGenuine(published, sv);
    match e
    case WorkerStarts(s, id) => StartGenuine(published, sv, st.files, id);
    case WorkerSends(s) => SendGenuine(published, sv);
    case WorkerFinishes(s) => FinishGenuine(published, st.nodes, s, sv, OwnerOf(st.nodes, sv));
  }

  lemma NodeWorkGenuine(published: set<Content>, st: State, e: Event)
    requires Enabled(st, e) && (e.NodeHandlesRequest? || e.NodeHandlesReply? || e.ClientReceives?)
    requires AllGenuine(published, st)
    ensures AllGenuine(published, After(st, e))
  {
    var b := st.nodes[e.node];
    assert NodeGenuine(published, b);
    if e.NodeHandlesRequest? {
      HandledGenuine(published, b);
    } else if e.NodeHandlesReply? {
      RespondedGenuine(published, b);
    }
  }

  lemma MovingGenuine(published: set<Content>, st: State, e: Event)
    requires Enabled(st, e) && (e.RequestArrives? || e.ReplyLeaves? || e.RelayArrives?)
    requires AllGenuine(published, st)
    ensures AllGenuine(published, After(st, e))
  {
    if e.RelayArrives? {
      assert ServerGenuine(published, st.servers[e.server]);
    } else {
      var (b, sv) := (st.nodes[e.node], ServerOf(st, e.node));
      assert NodeGenuine(published, b) && ServerGenuine(published, sv);
      if e.ReplyLeaves? {
        assert Genuine(published, QueueOf(sv.respQueue, b.pid));
        PoppedGenuine(published, sv.respQueue, b.pid);
      }
    }
  }

  lemma RelayLeavesGenuine(published: set<Content>, st: State, s: nat)
    requires Enabled(st, RelayLeaves(s)) && AllGenuine(published, st)
    ensures AllGenuine(published, After(st, RelayLeaves(s)))
  {
    var sv := st.servers[s];
    assert ServerGenuine(published, sv) && ServerGenuine(published, st.servers[Ring.Next(s, |st.servers|)]);
    assert Genuine(published, QueueOf(sv.respQueue, sv.nextPid));
    PoppedGenuine(published, sv.respQueue, sv.nextPid);
  }

  lemma SendingGenuine(published: set<Content>, st: State, e: Event)
    requires Enabled(st, e) && e.ClientSends? && AllGenuine(published, st)
    ensures AllGenuine(Publishing(published, e), After(st, e))
  {
    var more := Publishing(published, e);
    MoreGenuine(published, more, st);
    assert NodeGenuine(more, st.nodes[e.node]);
  }

  lemma StepGenuine(published: set<Content>, st: State, e: Event)
    requires Inv(st) && Enabled(st, e) && AllGenuine(published, st)
    ensures AllGenuine(Publishing(published, e), After(st, e))
  {
    match e
    case ClientSends(_, _) => SendingGenuine(published, st, e);
    case WorkerStarts(_, _) => WorkingGenuine(published, st, e);
    case WorkerSends(_) => WorkingGenuine(published, st, e);
    case WorkerFinishes(_) => WorkingGenuine(published, st, e);
    case RelayLeaves(s) => RelayLeavesGenuine(published, st, s);
    case RequestArrives(_) => MovingGenuine(published, st, e);
    case ReplyLeaves(_) => MovingGenuine(published, st, e);
    case RelayArrives(_) => MovingGenuine(published, st, e);
    case NodeHandlesRequest(_) => NodeWorkGenuine(published, st, e);
    case NodeHandlesReply(_) => NodeWorkGenuine(published, st, e);
    case ClientReceives(_, _) => NodeWorkGenuine(published, st, e);
  }

  lemma InitGenuine(st: State)
    requires Init(st)
    ensures AllGenuine({}, st)
  {
    forall n | 0 <= n < |st.nodes| ensures NodeGenuine({}, st.nodes[n]) {
      assert st.nodes[n].incoming == map[];
    }
    forall s | 0 <= s < |st.servers| ensures ServerGenuine({}, st.servers[s]) {
      assert st.servers[s].respQueue == map[];
    }
  }

  /** In every run, each published message, on whatever queue, socket or inbox, has the topic and text of one that a
      client published before. */
  lemma {:induction false} NothingIsMadeUp(states: seq<State>, events: seq<Event>, i: nat)
    requires IsRun(states, events) && i < |states|
    ensures AllGenuine(PublishedIn(events, i), states[i])
  {
    if i == 0 {
      InitGenuine(states[0]);
    } else {
      NothingIsMadeUp(states, events, i - 1);
      RunsAreSafe(states, events, i - 1);
      StepGenuine(PublishedIn(events, i - 1), states[i - 1], events[i - 1]);
    }
  }

  /** The queue is as before, or one message with this content has joined it. */
  predicate GainsAtMost(before: seq<Tagged>, after: seq<Tagged>, content: Content) {
    after == before
    || (&& |after| == |before| + 1 && after[..|before|] == before
        && after[|before|].msg.kind == PUBLISH && ContentOf(after[|before|].msg) == content)
  }

  lemma RoundGains(sv: Server, pid: int)
    requires sv.phase.Sending? && sv.phase.subs != [] && sv.phase.looked.kind == PUBLISH
    ensures GainsAtMost(QueueOf(sv.respQueue, pid), QueueOf(Send(sv).respQueue, pid), ContentOf(sv.phase.looked))
  {
  }

  /** What a round of the send loop queues for a client's PUBLISH, copy or relay, has the topic and text that this
      client published. */
  lemma CopiesAreAsPublished(states: seq<State>, events: seq<Event>, i: nat, pid: int)
    requires IsRun(states, events) && i < |events| && events[i].WorkerSends?
    requires states[i].servers[events[i].server].phase.request.node != RELAY
    ensures var (sv, after) := (states[i].servers[events[i].server], states[i + 1].servers[events[i].server]);
            var (h, asked) := (Holder(sv.phase.request.node, sv.phase.request.client), AskedIn(events, i));
            && h in asked && asked[h].kind == PUBLISH
            && GainsAtMost(QueueOf(sv.respQueue, pid), QueueOf(after.respQueue, pid), ContentOf(asked[h]))
  {
    var (st, s) := (states[i], events[i].server);
    NothingIsMadeUp(states, events, i);
    RunsAreSafe(states, events, i);
    var sv := st.servers[s];
    assert ServerInv(st.nodes, s, sv) && ServerGenuine(PublishedIn(events, i), sv);
    RequestsAreAsAsked(states, events, i, sv.phase.request.node, sv.phase.request);
    RoundGains(sv, pid);
  }
}
