/** The events of clients, nodes and handlers keep the invariant. */
module NodeSteps {
  import opened Messages
  import L = LocalIds
  import opened Routing
  import opened Node
  import opened Connection
  import opened Pipeline
  import opened System
  import opened SystemInvariant

  lemma ArriveAppend(ts: seq<Tagged>, t: Tagged, pid: int)
    ensures ArriveAll(ts + [t], pid) == ArriveAll(ts, pid) + [Arrive(t, pid)]
  {
  }

  lemma SendsKeepsNode(st: State, n: nat, t: Tagged)
    requires Inv(st) && Enabled(st, ClientSends(n, t))
    ensures NodeInv(After(st, ClientSends(n, t)), n)
  {
    assert NodeInv(st, n);
    var after := After(st, ClientSends(n, t));
    assert ViewFor(after.nodes[n], n, ServerOf(st, n)) == Sent(ViewFor(st.nodes[n], n, ServerOf(st, n)), t);
    SentKeeps(ViewFor(st.nodes[n], n, ServerOf(st, n)), t);
  }

  /** The three ways a request is handled, as steps of the pipeline. */
  lemma HandledView(b: Broker, n: int, sv: Server)
    requires b.requests != [] && FromClient(b.requests[0])
    ensures var t := b.requests[0]; var v := ViewFor(b, n, sv);
            match Handling(b)
            case Ignore => ViewFor(HandleRequest(b), n, sv) == Ignored(v)
            case Answer(reply, _) => ViewFor(HandleRequest(b), n, sv) == Received(v, t.(msg := reply))
            case Forward(ids, request) =>
              ViewFor(HandleRequest(b), n, sv)
              == v.(ids := ids, requests := v.requests[1..], up := v.up + [Arrive(t.(msg := request), b.pid)],
                    registered := if t.msg.kind == CREATE then v.registered + [t.client] else v.registered)
            case Hang => true
  {
    var t := b.requests[0];
    match Handling(b)
    case Forward(_, request) =>
      var sent := t.(msg := request);
      ArriveAppend(b.up, sent, b.pid);
      assert UpOf(b, n, sv) + [Arrive(sent, b.pid)]
          == InHand(sv.phase, n) + OfNode(sv.workerQueue, n) + (ArriveAll(b.up, b.pid) + [Arrive(sent, b.pid)]);
    case _ =>
  }

  /** The queues that the pipeline does not show. */
  lemma HandledQueues(b: Broker, n: int)
    requires b.requests != [] && AllFrom(b.requests, n) && AllFrom(b.up, n) && RepliesOk(b.incoming)
    ensures var after := HandleRequest(b);
            && AllFrom(after.requests, n) && AllFrom(after.up, n) && RepliesOk(after.incoming)
            && after.server == b.server
  {
    var c := b.requests[0].msg.mtype;
    if QueueOf(b.incoming, c) != [] { Popped(b.incoming, c); }
  }

  lemma HandledKeepsView(b: Broker, n: int, sv: Server)
    requires b.requests != [] && ViewOk(ViewFor(b, n, sv))
    requires !Handling(b).Hang?
    ensures ViewOk(ViewFor(HandleRequest(b), n, sv))
  {
    var t, v := b.requests[0], ViewFor(b, n, sv);
    assert FromClient(v.requests[0]);
    HandledView(b, n, sv);
    match Handling(b)
    case Ignore => IgnoredKeeps(v);
    case Answer(reply, _) => ReceivedKeeps(v, t.(msg := reply));
    case Forward(ids, request) =>
      var sent := Arrive(t.(msg := request), b.pid);
      if t.msg.kind == CREATE {
        RegisteredKeeps(v, sent);
      } else {
        ForwardedKeeps(v, sent);
      }
    case Hang =>
  }

  lemma NodeReplaced(st: State, n: nat, b: Broker)
    requires Wired(st) && n < |st.nodes| && b.server == st.nodes[n].server
    requires ViewOk(ViewFor(b, n, ServerOf(st, n)))
    requires AllFrom(b.requests, n) && AllFrom(b.up, n) && RepliesOk(b.incoming)
    ensures Wired(WithNode(st, n, b)) && NodeInv(WithNode(st, n, b), n)
  {
    assert WithNode(st, n, b).nodes[n] == b;
  }

  lemma HandlesRequestKeepsNode(st: State, n: nat)
    requires Inv(st) && Enabled(st, NodeHandlesRequest(n))
    ensures NodeInv(After(st, NodeHandlesRequest(n)), n)
  {
    assert NodeInv(st, n);
    var b := st.nodes[n];
    HandledQueues(b, n);
    HandledKeepsView(b, n, ServerOf(st, n));
    NodeReplaced(st, n, HandleRequest(b));
  }

  /** Whatever a node has sent up is a request that the server accepts. */
  lemma SentRequest(st: State, n: nat)
    requires Inv(st) && n < |st.nodes| && st.nodes[n].up != []
    ensures Acceptable(Arrive(st.nodes[n].up[0], st.nodes[n].pid).msg) && st.nodes[n].up[0].node == n
  {
    assert NodeInv(st, n);
    var b, sv := st.nodes[n], ServerOf(st, n);
    var v := ViewFor(b, n, sv);
    var k := |InHand(sv.phase, n) + OfNode(sv.workerQueue, n)|;
    assert v.up[k] == ArriveAll(b.up, b.pid)[0] == Arrive(b.up[0], b.pid);
    assert RequestOk(v.pid, Final(v), v.up[k]);
  }

  lemma ArrivedView(b: Broker, n: int, sv: Server)
    requires b.up != [] && b.up[0].node == n
    ensures ViewFor(b.(up := b.up[1..]), n, sv.(workerQueue := sv.workerQueue + [Arrive(b.up[0], b.pid)]))
            == ViewFor(b, n, sv)
  {
    var t := Arrive(b.up[0], b.pid);
    OfNodeAppend(sv.workerQueue, t, n);
    assert ArriveAll(b.up, b.pid) == [t] + ArriveAll(b.up[1..], b.pid);
    var before := InHand(sv.phase, n) + OfNode(sv.workerQueue, n);
    assert InHand(sv.phase, n) + (OfNode(sv.workerQueue, n) + [t]) == before + [t];
    assert before + [t] + ArriveAll(b.up[1..], b.pid) == before + ArriveAll(b.up, b.pid);
  }

  lemma ForeignRequestView(b: Broker, n: int, sv: Server, t: Tagged)
    requires t.node != n
    ensures ViewFor(b, n, sv.(workerQueue := sv.workerQueue + [t])) == ViewFor(b, n, sv)
  {
    OfNodeAppend(sv.workerQueue, t, n);
  }

  lemma ArrivesKeepsOwn(st: State, n: nat)
    requires Inv(st) && Enabled(st, RequestArrives(n))
    ensures NodeInv(After(st, RequestArrives(n)), n)
  {
    assert NodeInv(st, n);
    SentRequest(st, n);
    ArrivedView(st.nodes[n], n, ServerOf(st, n));
  }

  lemma ArrivesKeepsNode(st: State, n: nat, m: nat)
    requires Inv(st) && Enabled(st, RequestArrives(n)) && m < |st.nodes|
    ensures NodeInv(After(st, RequestArrives(n)), m)
  {
    if m == n {
      ArrivesKeepsOwn(st, n);
    } else {
      assert NodeInv(st, m);
      SentRequest(st, n);
      ForeignRequestView(st.nodes[m], m, ServerOf(st, m), Arrive(st.nodes[n].up[0], st.nodes[n].pid));
    }
  }

  lemma {:induction false} GoodIsSendable(ids: seq<L.Entry>, down: seq<Tagged>, i: nat)
    requires Good(ids, down) && i < |down|
    ensures Sendable(down[i].msg.kind)
    decreases i
  {
    if i > 0 { GoodIsSendable(Apply(ids, down[0]), down[1..], i - 1); }
  }

  /** The server's last-but-one stop: what waits for this connection may be put on its socket. */
  lemma WaitingReply(st: State, n: nat)
    requires Inv(st) && n < |st.nodes| && QueueOf(ServerOf(st, n).respQueue, st.nodes[n].pid) != []
    ensures Sendable(QueueOf(ServerOf(st, n).respQueue, st.nodes[n].pid)[0].msg.kind)
  {
    assert NodeInv(st, n);
    var b, sv := st.nodes[n], ServerOf(st, n);
    assert DownOf(b, sv)[|b.down|] == Leave(QueueOf(sv.respQueue, b.pid)[0]);
    GoodIsSendable(b.ids, DownOf(b, sv), |b.down|);
  }

  lemma LeftView(b: Broker, n: int, sv: Server)
    requires QueueOf(sv.respQueue, b.pid) != []
    ensures var q := QueueOf(sv.respQueue, b.pid);
            ViewFor(b.(down := b.down + [Leave(q[0])]), n, sv.(respQueue := sv.respQueue[b.pid := q[1..]]))
            == ViewFor(b, n, sv)
  {
    var q := QueueOf(sv.respQueue, b.pid);
    assert LeaveAll(q) == [Leave(q[0])] + LeaveAll(q[1..]);
    assert b.down + [Leave(q[0])] + LeaveAll(q[1..]) == b.down + LeaveAll(q);
  }

  lemma ForeignReplyView(b: Broker, n: int, sv: Server, pid: int, q: seq<Tagged>)
    requires pid != b.pid
    ensures ViewFor(b, n, sv.(respQueue := sv.respQueue[pid := q])) == ViewFor(b, n, sv)
  {
  }

  lemma LeavesKeepsNode(st: State, n: nat, m: nat)
    requires Inv(st) && Enabled(st, ReplyLeaves(n)) && m < |st.nodes|
    ensures NodeInv(After(st, ReplyLeaves(n)), m)
  {
    assert NodeInv(st, m);
    WaitingReply(st, n);
    LeftView(st.nodes[n], n, ServerOf(st, n));
    if m != n && st.nodes[m].server == st.nodes[n].server {
      var q := QueueOf(ServerOf(st, n).respQueue, st.nodes[n].pid);
      assert st.nodes[m].pid != st.nodes[n].pid;
      ForeignReplyView(st.nodes[m], m, ServerOf(st, m), st.nodes[n].pid, q[1..]);
    }
  }

  lemma DeliveredView(b: Broker, n: int, sv: Server)
    requires b.down != []
    ensures ViewFor(HandleReply(b), n, sv) == Delivered(ViewFor(b, n, sv))
  {
    var v := ViewFor(b, n, sv);
    assert v.down[0] == b.down[0];
    assert DownOf(HandleReply(b), sv) == v.down[1..];
  }

  lemma DeliveredQueues(b: Broker, n: int, sv: Server)
    requires b.down != [] && AllFrom(b.requests, n) && AllFrom(b.up, n) && RepliesOk(b.incoming)
    requires ViewOk(ViewFor(b, n, sv))
    ensures var after := HandleReply(b);
            && AllFrom(after.requests, n) && AllFrom(after.up, n) && RepliesOk(after.incoming)
            && after.server == b.server && after.pid == b.pid
            && ViewOk(ViewFor(after, n, sv))
  {
    DeliveredView(b, n, sv);
    DeliveredKeeps(ViewFor(b, n, sv));
    assert ViewFor(b, n, sv).down[0] == b.down[0];
    if b.down[0].client > 0 {
      Pushed(b.incoming, b.down[0].(msg := Respond(b.ids, b.down[0].msg).1));
    }
  }

  lemma HandlesReplyKeepsNode(st: State, n: nat)
    requires Inv(st) && Enabled(st, NodeHandlesReply(n))
    ensures NodeInv(After(st, NodeHandlesReply(n)), n)
    ensures HandleReply(st.nodes[n]).server == st.nodes[n].server && HandleReply(st.nodes[n]).pid == st.nodes[n].pid
  {
    assert NodeInv(st, n);
    var b := st.nodes[n];
    DeliveredQueues(b, n, ServerOf(st, n));
    NodeReplaced(st, n, HandleReply(b));
  }

  lemma ReceivesKeepsNode(st: State, n: nat, c: int)
    requires Inv(st) && Enabled(st, ClientReceives(n, c))
    ensures NodeInv(After(st, ClientReceives(n, c)), n)
  {
    assert NodeInv(st, n);
    var b, sv := st.nodes[n], ServerOf(st, n);
    var after := After(st, ClientReceives(n, c));
    assert ViewFor(after.nodes[n], n, sv) == Collected(ViewFor(b, n, sv), c);
    CollectedKeeps(ViewFor(b, n, sv), c);
  }
}
