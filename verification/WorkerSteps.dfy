/** The worker's events in the transition system, taken one after the other without interruption,
    are the one step that the worker's code is proved to make. */
module WorkerSteps {
  import opened Messages
  import G = GlobalIds
  import opened Db
  import opened DbHandler
  import opened Routing
  import opened Node
  import opened Connection
  import opened System
  import opened WorkerProcess
  import Ring

  /** The send loop run to its end. */
  function SendAll(sv: Server): (r: Server)
    requires sv.phase.Sending?
    ensures r.phase.Sending? && r.phase.subs == []
    decreases |sv.phase.subs|
  {
    if sv.phase.subs == [] then sv else SendAll(Send(sv))
  }

  /** A request from start to finish. */
  function Serve(sv: Server, files: Files, id: int, owner: int): (Server, Files)
    requires sv.phase.Idle? && sv.workerQueue != []
  {
    var (started, after) := Start(sv, files, id);
    if started.phase.Idle? then (started, after)
    else if started.phase.Sending? then (Finish(SendAll(started), owner), after)
    else (Finish(started, owner), after)
  }

  /** The response queue after the messages have been put on it in this order. */
  function Deposit(queue: map<int, seq<Tagged>>, out: seq<Tagged>): map<int, seq<Tagged>>
    decreases |out|
  {
    if out == [] then queue else Deposit(Push(queue, out[0].msg.mtype, out[0]), out[1..])
  }

  predicate Addressed(out: seq<Tagged>) {
    forall i | 0 <= i < |out| :: out[i].msg.mtype > 0
  }

  lemma {:induction false} DepositConcat(queue: map<int, seq<Tagged>>, a: seq<Tagged>, b: seq<Tagged>)
    ensures Deposit(queue, a + b) == Deposit(Deposit(queue, a), b)
    decreases |a|
  {
    if a == [] {
      assert a + b == b;
    } else {
      assert (a + b)[1..] == a[1..] + b;
      DepositConcat(Push(queue, a[0].msg.mtype, a[0]), a[1..], b);
    }
  }

  /** Each response handler finds the messages addressed to it, in the order in which they were queued. */
  lemma {:induction false} DepositFor(queue: map<int, seq<Tagged>>, out: seq<Tagged>, pid: int)
    ensures MsgsOf(QueueOf(Deposit(queue, out), pid)) == MsgsOf(QueueOf(queue, pid)) + Ring.To(MsgsOf(out), pid)
    decreases |out|
  {
    if out != [] {
      var t := out[0];
      DepositFor(Push(queue, t.msg.mtype, t), out[1..], pid);
      assert MsgsOf(out)[0] == t.msg && MsgsOf(out)[1..] == MsgsOf(out[1..]);
      assert MsgsOf(QueueOf(queue, pid) + [t]) == MsgsOf(QueueOf(queue, pid)) + [t.msg];
    } else {
      assert MsgsOf(out) == [];
    }
  }

  /** What one enqueued message amounts to. */
  lemma EnqueueDeposits(sv: Server, m: Msg, node: int, client: int) returns (out: seq<Tagged>)
    ensures Addressed(out) && MsgsOf(out) == Queued(m)
    ensures Enqueue(sv, m, node, client) == sv.(respQueue := Deposit(sv.respQueue, out))
  {
    if m.mtype > 0 {
      var t := Tagged(m, node, client);
      out := [t];
      assert out[1..] == [];
    } else {
      out := [];
    }
  }

  lemma MsgsConcat(a: seq<Tagged>, b: seq<Tagged>)
    ensures MsgsOf(a + b) == MsgsOf(a) + MsgsOf(b)
    ensures Addressed(a) && Addressed(b) ==> Addressed(a + b)
  {
  }

  /** One round of the send loop queues at most one message, the next one that the routing function lists. */
  lemma OneRound(sv: Server) returns (out: seq<Tagged>)
    requires sv.phase.Sending? && sv.phase.subs != []
    ensures Addressed(out)
    ensures Send(sv) == sv.(respQueue := Deposit(sv.respQueue, out), phase := Send(sv).phase)
    ensures var (p, q) := (sv.phase, Send(sv).phase);
            && q.Sending? && |q.subs| < |p.subs| && q == p.(subs := q.subs, relayed := q.relayed, ok := q.ok)
            && MsgsOf(out) + Copies(sv.table, q.subs, q.relayed, p.looked)
               == Copies(sv.table, p.subs, p.relayed, p.looked)
            && (q.ok && Completes(sv.table, q.subs, q.relayed)) == (p.ok && Completes(sv.table, p.subs, p.relayed))
  {
    var p := sv.phase;
    var sub := p.subs[0];
    match RouteOf(sv.table, sub, p.relayed)
    case Copy(pid) =>
      var holder := if sub in sv.holders then sv.holders[sub] else Holder(RELAY, 0);
      out := EnqueueDeposits(sv, p.looked.(globalId := sub, mtype := pid), holder.node, holder.client);
    case Relay(pid) =>
      out := EnqueueDeposits(sv, p.looked.(globalId := sub, mtype := pid), RELAY, 0);
    case Skip =>
      out := [];
    case Fail =>
      out := [];
  }

  /** The rounds of the send loop queue the copies that the routing function lists. */
  lemma {:induction false} SendAllMeaning(sv: Server) returns (out: seq<Tagged>)
    requires sv.phase.Sending?
    ensures Addressed(out) && MsgsOf(out) == Copies(sv.table, sv.phase.subs, sv.phase.relayed, sv.phase.looked)
    ensures var (p, all) := (sv.phase, SendAll(sv));
            && all == sv.(respQueue := Deposit(sv.respQueue, out), phase := all.phase)
            && all.phase == p.(subs := [], relayed := all.phase.relayed, ok := all.phase.ok)
            && all.phase.ok == (p.ok && Completes(sv.table, p.subs, p.relayed))
    decreases |sv.phase.subs|
  {
    if sv.phase.subs == [] {
      out := [];
    } else {
      var first := OneRound(sv);
      var rest := SendAllMeaning(Send(sv));
      DepositConcat(sv.respQueue, first, rest);
      MsgsConcat(first, rest);
      out := first + rest;
    }
  }

  /** Serving a request in the transition system is one step of the worker's code on its table, the files
      and the response queue, for every kind of request, and in every state of the server. */
  lemma ServeIsHandled(sv: Server, files: Files, id: int, owner: int) returns (out: seq<Tagged>)
    requires sv.phase.Idle? && sv.workerQueue != []
    requires sv.workerQueue[0].msg.kind == CREATE ==> IsNextId(files.users.Keys, id)
    ensures var (sv', files') := Serve(sv, files, id, owner);
            && sv'.phase.Idle? && sv'.workerQueue == sv.workerQueue[1..]
            && Addressed(out) && sv'.respQueue == Deposit(sv.respQueue, out)
            && Handled(sv.brokerId, sv.table, files, sv.workerQueue[0].msg, sv'.table, files', MsgsOf(out))
  {
    var t, took := sv.workerQueue[0], sv.(workerQueue := sv.workerQueue[1..]);
    var (started, after) := Start(sv, files, id);
    match t.msg.kind
    case CREATE =>
      var reply := CreateReply(sv.table, t.msg, id);
      out := EnqueueDeposits(took, reply, t.node, if reply.kind == ACK_CREATE then owner else NOBODY);
    case SUBSCRIBE =>
      out := EnqueueDeposits(took, LookedReply(sv.table, files.users.Keys, t.msg, ACK_OK), t.node, t.client);
    case DESTROY =>
      out := EnqueueDeposits(took, LookedReply(sv.table, files.users.Keys, t.msg, ACK_DESTROY), t.node, t.client);
    case PUBLISH => out := PublishIsHandled(sv, files, id, owner);
    case _ => out := EnqueueDeposits(took, t.msg.(kind := ACK_ERROR), t.node, t.client);
  }

  lemma PublishIsHandled(sv: Server, files: Files, id: int, owner: int) returns (out: seq<Tagged>)
    requires sv.phase.Idle? && sv.workerQueue != [] && sv.workerQueue[0].msg.kind == PUBLISH
    ensures var (sv', files') := Serve(sv, files, id, owner);
            var msg := sv.workerQueue[0].msg;
            && sv'.phase.Idle? && sv'.workerQueue == sv.workerQueue[1..]
            && Addressed(out) && sv'.respQueue == Deposit(sv.respQueue, out)
            && sv'.table == sv.table && files' == files
            && MsgsOf(out) == Published(sv.brokerId, sv.table, FirstClients(LinesOf(files, msg.topic)), msg)
  {
    var (started, after) := Start(sv, files, id);
    if started.phase.Idle? {
      out := [];
    } else {
      out := LoopIsPublished(started, owner);
    }
  }

  /** The rounds and the acknowledgement after them. */
  lemma LoopIsPublished(started: Server, owner: int) returns (out: seq<Tagged>)
    requires started.phase.Sending? && !started.phase.relayed && started.phase.ok
    ensures var (p, done) := (started.phase, Finish(SendAll(started), owner));
            var ack := p.looked.(kind := if Completes(started.table, p.subs, false) then ACK_OK else ACK_ERROR);
            && Addressed(out) && done == started.(respQueue := Deposit(started.respQueue, out), phase := Idle)
            && MsgsOf(out) == Copies(started.table, p.subs, false, p.looked)
                              + (if p.request.msg.brokerId == 0 then Queued(ack) else [])
  {
    var t := started.phase.request;
    var copies := SendAllMeaning(started);
    var sent := SendAll(started);
    if t.msg.brokerId == 0 {
      var ack := sent.phase.looked.(kind := if sent.phase.ok then ACK_OK else ACK_ERROR);
      var answer := EnqueueDeposits(sent.(phase := Idle), ack, t.node, t.client);
      DepositConcat(started.respQueue, copies, answer);
      MsgsConcat(copies, answer);
      out := copies + answer;
    } else {
      out := copies;
    }
  }
}
