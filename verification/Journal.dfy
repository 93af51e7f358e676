/** What clients ask for is what servers do and what answers are about, in every run. */
module Journal {
  import opened Messages
  import L = LocalIds
  import opened Db
  import opened Routing
  import opened Node
  import opened Connection
  import opened Pipeline
  import opened System
  import opened SystemInvariant
  import opened ServerSteps
  import opened NodeSteps
  import opened Safety

  /** The clients' last messages, after one more event. */
  function Noting(asked: map<Holder, Msg>, e: Event): map<Holder, Msg> {
    if e.ClientSends? then asked[Holder(e.node, e.request.client) := e.request.msg] else asked
  }

  /** The message that each client sent last. */
  function AskedIn(events: seq<Event>, i: nat): map<Holder, Msg>
    requires i <= |events|
  {
    if i == 0 then map[] else Noting(AskedIn(events, i - 1), events[i - 1])
  }

  /** The message is the one that the client sent last, except for the address. */
  predicate IsAsked(asked: map<Holder, Msg>, n: int, t: Tagged) {
    var h := Holder(n, t.client);
    h in asked && t.msg == asked[h].(mtype := t.msg.mtype)
  }

  predicate AskedFor(asked: map<Holder, Msg>, n: int, c: int, kind: Kind) {
    Holder(n, c) in asked && asked[Holder(n, c)].kind == kind
  }

  /** The answers that there are to a request. */
  predicate IsAnswerTo(request: Kind, answer: Kind) {
    match request
    case CREATE => answer == ACK_CREATE
    case SUBSCRIBE => answer == ACK_OK
    case PUBLISH => answer == ACK_OK || answer == ACK_ERROR
    case RECEIVE => answer == ACK_OK || answer == ACK_NO_MSG
    case DESTROY => answer == ACK_DESTROY
    case _ => false
  }

  predicate Answering(asked: map<Holder, Msg>, n: int, t: Tagged) {
    Holder(n, t.client) in asked && IsAnswerTo(asked[Holder(n, t.client)].kind, t.msg.kind)
  }

  /** What a server sends for a client is a copy, or answers what the client asked the server for. */
  predicate AnsweringFromServer(asked: map<Holder, Msg>, n: int, t: Tagged) {
    t.msg.kind == PUBLISH || t.client == NOBODY
    || (Answering(asked, n, t) && !AskedFor(asked, n, t.client, RECEIVE))
  }

  // ---- One connection ----

  predicate AllAsked(asked: map<Holder, Msg>, n: int, ts: seq<Tagged>) {
    forall i | 0 <= i < |ts| :: IsAsked(asked, n, ts[i])
  }

  predicate AllAnswering(asked: map<Holder, Msg>, n: int, ts: seq<Tagged>) {
    forall i | 0 <= i < |ts| :: AnsweringFromServer(asked, n, ts[i])
  }

  ghost predicate RepliesAnswer(asked: map<Holder, Msg>, n: int, replies: map<int, seq<Tagged>>) {
    forall c, i | 0 <= i < |QueueOf(replies, c)| :: Answering(asked, n, QueueOf(replies, c)[i])
  }

  predicate AllCreators(asked: map<Holder, Msg>, n: int, clients: seq<int>) {
    forall i | 0 <= i < |clients| :: AskedFor(asked, n, clients[i], CREATE)
  }

  /** Every request is the last message of its client, every answer answers it, and stuck clients asked for an id. */
  ghost predicate ViewAsked(asked: map<Holder, Msg>, n: int, v: View) {
    && AllAsked(asked, n, v.requests) && AllAsked(asked, n, v.up)
    && AllAnswering(asked, n, v.down) && RepliesAnswer(asked, n, v.replies)
    && AllCreators(asked, n, Stuck(v))
  }

  /** A client that sends has nothing under way. */
  lemma SentAsked(asked: map<Holder, Msg>, n: int, v: View, t: Tagged)
    requires ViewOk(v) && ViewAsked(asked, n, v) && FromClient(t) && t.client !in v.waiting
    ensures ViewAsked(asked[Holder(n, t.client) := t.msg], n, Sent(v, t))
  {
    var after := asked[Holder(n, t.client) := t.msg];
    assert InFlight(v, t.client) == 0;
    forall i | 0 <= i < |v.requests| ensures IsAsked(after, n, v.requests[i]) { MineAt(v.requests, i); }
    forall i | 0 <= i < |v.up| ensures IsAsked(after, n, v.up[i]) { MineAt(v.up, i); }
    forall i | 0 <= i < |v.down| ensures AnsweringFromServer(after, n, v.down[i]) {
      if v.down[i].msg.kind != PUBLISH { AnswersAt(v.down, i); }
    }
    forall c, i | 0 <= i < |QueueOf(v.replies, c)| ensures Answering(after, n, QueueOf(v.replies, c)[i]) {
      assert QueueOf(v.replies, c)[i].client == c;
    }
    forall i | 0 <= i < |Stuck(v)| ensures AskedFor(after, n, Stuck(v)[i], CREATE) {
      assert Stuck(v)[i] in Stuck(v);
    }
  }

  lemma {:induction false} AnswersAt(ts: seq<Tagged>, i: nat)
    requires i < |ts| && ts[i].msg.kind != PUBLISH
    ensures Answers(ts, ts[i].client) > 0
  {
    if i > 0 { AnswersAt(ts[1..], i - 1); }
  }

  lemma ReceivedAsked(asked: map<Holder, Msg>, n: int, v: View, reply: Tagged)
    requires ViewAsked(asked, n, v) && v.requests != []
    requires reply.client == v.requests[0].client && IsAnswerTo(v.requests[0].msg.kind, reply.msg.kind)
    ensures ViewAsked(asked, n, Received(v, reply))
  {
    var w := Received(v, reply);
    assert IsAsked(asked, n, v.requests[0]);
    PushedAnswers(asked, n, v.replies, reply.client, reply);
    assert Stuck(w) == Stuck(v);
  }

  lemma PushedAnswers(asked: map<Holder, Msg>, n: int, replies: map<int, seq<Tagged>>, c: int, t: Tagged)
    requires RepliesAnswer(asked, n, replies) && Answering(asked, n, t)
    ensures RepliesAnswer(asked, n, Push(replies, c, t))
  {
    forall d, i | 0 <= i < |QueueOf(Push(replies, c, t), d)|
      ensures Answering(asked, n, QueueOf(Push(replies, c, t), d)[i])
    {
      if i < |QueueOf(replies, d)| { assert QueueOf(Push(replies, c, t), d)[i] == QueueOf(replies, d)[i]; }
    }
  }

  /** What the node passes on is what the client sent, under another address. */
  lemma PassedOnAsked(asked: map<Holder, Msg>, n: int, v: View, w: View, t: Tagged)
    requires ViewAsked(asked, n, v) && v.requests != []
    requires w.requests == v.requests[1..] && w.up == v.up + [t] && w.down == v.down && w.replies == v.replies
    requires t.client == v.requests[0].client && t.msg == v.requests[0].msg.(mtype := t.msg.mtype)
    requires Stuck(w) == Stuck(v)
    ensures ViewAsked(asked, n, w)
  {
    assert IsAsked(asked, n, v.requests[0]);
  }

  lemma CopiedAsked(asked: map<Holder, Msg>, n: int, v: View, t: Tagged)
    requires TableOk(v) && ViewAsked(asked, n, v) && t.msg.kind == PUBLISH
    ensures ViewAsked(asked, n, Copied(v, t))
  {
    GoodAppend(v.ids, v.down, t);
    assert Final(Copied(v, t)) == Final(v);
  }

  lemma AnsweredAsked(asked: map<Holder, Msg>, n: int, v: View, w: View, t: Tagged)
    requires ViewAsked(asked, n, v) && v.up != []
    requires w.requests == v.requests && w.up == v.up[1..] && w.down == v.down + [t] && w.replies == v.replies
    requires AnsweringFromServer(asked, n, t) && AllCreators(asked, n, Stuck(w))
    ensures ViewAsked(asked, n, w)
  {
  }

  lemma DeliveredAsked(asked: map<Holder, Msg>, n: int, v: View)
    requires ViewOk(v) && v.down != [] && ViewAsked(asked, n, v)
    ensures ViewAsked(asked, n, Delivered(v))
  {
    var (t, w) := (v.down[0], Delivered(v));
    DeliveredKeeps(v);
    assert Final(w) == Final(v) && Stuck(w) == Stuck(v);
    assert AnsweringFromServer(asked, n, t);
    if t.msg.kind != PUBLISH && t.client != NOBODY {
      PushedAnswers(asked, n, v.replies, t.client, t.(msg := Respond(v.ids, t.msg).1));
    }
  }

  lemma CollectedAsked(asked: map<Holder, Msg>, n: int, v: View, c: int)
    requires ViewAsked(asked, n, v) && QueueOf(v.replies, c) != []
    ensures ViewAsked(asked, n, Collected(v, c))
  {
    var w := Collected(v, c);
    forall d, i | 0 <= i < |QueueOf(w.replies, d)| ensures Answering(asked, n, QueueOf(w.replies, d)[i]) {
      assert QueueOf(w.replies, d)[i] == QueueOf(v.replies, d)[if d == c then i + 1 else i];
    }
    assert Stuck(w) == Stuck(v);
  }

  // ---- Events ----

  function ViewAt(st: State, n: nat): View
    requires Wired(st) && n < |st.nodes|
  {
    ViewFor(st.nodes[n], n, ServerOf(st, n))
  }

  lemma ViewIsOk(st: State, n: nat)
    requires Inv(st) && n < |st.nodes|
    ensures ViewOk(ViewAt(st, n))
  {
    assert NodeInv(st, n);
  }

  /** The journal holds for a connection. */
  ghost predicate Agrees(asked: map<Holder, Msg>, st: State, n: nat) {
    Wired(st) && n < |st.nodes| && ViewAsked(asked, n, ViewAt(st, n))
  }

  lemma ElsewhereAsked(asked: map<Holder, Msg>, h: Holder, msg: Msg, n: nat, v: View)
    requires ViewAsked(asked, n, v) && h.node != n
    ensures ViewAsked(asked[h := msg], n, v)
  {
    var after := asked[h := msg];
    assert forall c :: Holder(n, c) in asked ==> Holder(n, c) in after && after[Holder(n, c)] == asked[Holder(n, c)];
    forall c, i | 0 <= i < |QueueOf(v.replies, c)| ensures Answering(after, n, QueueOf(v.replies, c)[i]) {
      assert Answering(asked, n, QueueOf(v.replies, c)[i]);
    }
  }

  lemma SendingView(st: State, m: nat, t: Tagged, n: nat)
    requires Inv(st) && Enabled(st, ClientSends(m, t)) && n < |st.nodes|
    ensures Wired(After(st, ClientSends(m, t)))
    ensures ViewAt(After(st, ClientSends(m, t)), n) == if m == n then Sent(ViewAt(st, n), t) else ViewAt(st, n)
  {
  }

  lemma SendingAgrees(asked: map<Holder, Msg>, st: State, m: nat, t: Tagged, n: nat)
    requires Inv(st) && Enabled(st, ClientSends(m, t)) && Agrees(asked, st, n)
    ensures Agrees(asked[Holder(m, t.client) := t.msg], After(st, ClientSends(m, t)), n)
  {
    SendingView(st, m, t, n);
    if m == n {
      ViewIsOk(st, n);
      SentAsked(asked, n, ViewAt(st, n), t);
    } else {
      ElsewhereAsked(asked, Holder(m, t.client), t.msg, n, ViewAt(st, n));
    }
  }

  lemma StuckUnlessRegistered(v: View, c: int)
    requires ViewOk(v) && c > 0
    ensures Stuck(v.(ids := v.ids + [L.Entry(c, L.PENDING)])) == Stuck(v)
  {
    RegisteredFinal(v, c);
    assert (L.Pending(Final(v)) + [c])[..|v.lost|] == L.Pending(Final(v))[..|v.lost|];
  }

  lemma HandlingAgrees(asked: map<Holder, Msg>, st: State, n: nat)
    requires Inv(st) && Enabled(st, NodeHandlesRequest(n)) && Agrees(asked, st, n)
    ensures Agrees(asked, After(st, NodeHandlesRequest(n)), n)
  {
    ViewIsOk(st, n);
    HandlingView(st, n);
    HandledAsked(asked, st.nodes[n], n, ServerOf(st, n));
  }

  lemma HandlingView(st: State, n: nat)
    requires Enabled(st, NodeHandlesRequest(n))
    ensures Wired(After(st, NodeHandlesRequest(n)))
    ensures ViewAt(After(st, NodeHandlesRequest(n)), n) == ViewFor(HandleRequest(st.nodes[n]), n, ServerOf(st, n))
  {
    assert HandleRequest(st.nodes[n]).server == st.nodes[n].server;
  }

  lemma HandledAsked(asked: map<Holder, Msg>, b: Broker, n: nat, sv: Server)
    requires b.requests != [] && !Handling(b).Hang?
    requires ViewOk(ViewFor(b, n, sv)) && ViewAsked(asked, n, ViewFor(b, n, sv))
    ensures ViewAsked(asked, n, ViewFor(HandleRequest(b), n, sv))
  {
    var (t, v, w) := (b.requests[0], ViewFor(b, n, sv), ViewFor(HandleRequest(b), n, sv));
    assert FromClient(v.requests[0]);
    HandledView(b, n, sv);
    match Handling(b)
    case Ignore =>
      assert Stuck(w) == Stuck(v);
    case Answer(reply, _) => ReceivedAsked(asked, n, v, t.(msg := reply));
    case Forward(ids, request) =>
      if t.msg.kind == CREATE {
        StuckUnlessRegistered(v, t.client);
        assert Stuck(w) == Stuck(v.(ids := w.ids));
      } else {
        assert Stuck(w) == Stuck(v);
      }
      PassedOnAsked(asked, n, v, w, Arrive(t.(msg := request), b.pid));
    case Hang =>
  }

  lemma RoundAgrees(asked: map<Holder, Msg>, st: State, s: nat, n: nat)
    requires Inv(st) && Enabled(st, WorkerSends(s)) && Agrees(asked, st, n) && st.nodes[n].server == s
    ensures Agrees(asked, After(st, WorkerSends(s)), n)
  {
    var (sv, sub) := (st.servers[s], st.servers[s].phase.subs[0]);
    var (v, w) := (ViewAt(st, n), ViewAt(After(st, WorkerSends(s)), n));
    assert NodeInv(st, n) && ServerInv(st.nodes, s, sv);
    RoundView(st, s, n);
    if w != v {
      CopiedAsked(asked, n, v, Tagged(sv.phase.looked.(globalId := sub, mtype := sub), n, sv.holders[sub].client));
    }
  }

  /** The acknowledgement of a CREATE goes to a client that asked for an id, the sender or a stuck one. */
  lemma CreatedAsked(asked: map<Holder, Msg>, n: int, v: View, t: Tagged)
    requires ViewOk(v) && ViewAsked(asked, n, v) && v.up != [] && v.up[0].msg.kind == CREATE
    requires t.msg.kind == ACK_CREATE && L.Pending(Final(v)) != [] && t.client == L.Pending(Final(v))[0]
    requires t.msg.mtype > 0 && t.msg.mtype !in v.held
    ensures ViewAsked(asked, n, Pipeline.Created(v, t))
  {
    var w, all := Pipeline.Created(v, t), Stuck(v) + [v.up[0].client];
    HeadCreator(v);
    CreatedTable(v, t);
    assert IsAsked(asked, n, v.up[0]);
    assert AllCreators(asked, n, all) && t.client == all[0];
    assert AllCreators(asked, n, all[1..]);
    AnsweredAsked(asked, n, v, w, t);
  }

  lemma FailedAsked(asked: map<Holder, Msg>, n: int, v: View, t: Tagged, request: Tagged)
    requires ViewOk(v) && ViewAsked(asked, n, v) && v.up != [] && v.up[0].msg.kind == CREATE
    requires t.msg.kind == ACK_ERROR && t.client == NOBODY && t.msg.mtype > 0 && t.msg.mtype !in v.held
    ensures ViewAsked(asked, n, Failed(v, t, request))
  {
    var w := Failed(v, t, request);
    FailedKeeps(v, t, request);
    assert IsAsked(asked, n, v.up[0]);
    AnsweredAsked(asked, n, v, w, t);
  }

  lemma CreatingAgrees(asked: map<Holder, Msg>, st: State, s: nat, n: nat)
    requires Inv(st) && Enabled(st, WorkerFinishes(s)) && st.servers[s].phase.Creating?
    requires Agrees(asked, st, n) && st.nodes[n].server == s
    ensures Agrees(asked, After(st, WorkerFinishes(s)), n)
  {
    var (sv, v) := (st.servers[s], ViewAt(st, n));
    var t, owner := sv.phase.request, OwnerOf(st.nodes, sv);
    ViewIsOk(st, n);
    CreatingView(st, s, n);
    if t.node == n {
      var reply := CreateReply(sv.table, t.msg, sv.phase.id);
      if reply.kind == ACK_CREATE {
        OwnerIsSenderIffNoneStuck(v);
        CreatedAsked(asked, n, v, Leave(Tagged(reply, n, owner)));
      } else {
        FailedAsked(asked, n, v, Leave(Tagged(reply, n, NOBODY)), t.(msg := reply));
      }
    }
  }

  lemma CreatingView(st: State, s: nat, n: nat)
    requires Inv(st) && Enabled(st, WorkerFinishes(s)) && st.servers[s].phase.Creating?
    requires n < |st.nodes| && st.nodes[n].server == s
    ensures Wired(After(st, WorkerFinishes(s)))
    ensures var (sv, owner, v) := (st.servers[s], OwnerOf(st.nodes, st.servers[s]), ViewAt(st, n));
            var (t, w) := (sv.phase.request, ViewAt(After(st, WorkerFinishes(s)), n));
            var reply := CreateReply(sv.table, t.msg, sv.phase.id);
            if t.node != n then w == v
            else
              && v.up != [] && v.up[0] == t && t.msg.kind == CREATE && sv.phase.id > 0 && sv.phase.id !in v.held
              && owner == (if StillPending(st.nodes[n], sv) != [] then StillPending(st.nodes[n], sv)[0] else NOBODY)
              && w == (if reply.kind == ACK_CREATE then Pipeline.Created(v, Leave(Tagged(reply, n, owner)))
                       else Failed(v, Leave(Tagged(reply, n, NOBODY)), t.(msg := reply)))
  {
    var (sv, t) := (st.servers[s], st.servers[s].phase.request);
    assert ServerInv(st.nodes, s, sv);
    RequestInHand(st, s);
    PidTellsNode(st, n, t.node);
    FinishCreateView(st.nodes[n], n, sv, OwnerOf(st.nodes, sv));
  }

  lemma DestroyedAsked(asked: map<Holder, Msg>, n: int, v: View, t: Tagged)
    requires ViewOk(v) && ViewAsked(asked, n, v) && v.up != [] && v.up[0].msg.kind == DESTROY
    requires t.msg.kind == ACK_DESTROY && t.client == v.up[0].client && t.msg.mtype == v.up[0].msg.mtype
    ensures ViewAsked(asked, n, Destroyed(v, t))
  {
    var w := Destroyed(v, t);
    SenderIsHeld(v);
    HeldClient(v, t.msg.mtype);
    ReplaySound(v.ids, v.down);
    GoodAppend(v.ids, v.down, t);
    L.RemoveEffect(Final(v), t.client);
    assert Stuck(w) == Stuck(v);
    assert IsAsked(asked, n, v.up[0]);
    AnsweredAsked(asked, n, v, w, t);
  }

  /** The answer to a SUBSCRIBE or a PUBLISH. */
  lemma AcknowledgedAsked(asked: map<Holder, Msg>, n: int, v: View, t: Tagged)
    requires ViewOk(v) && ViewAsked(asked, n, v) && v.up != [] && v.up[0].msg.kind in {SUBSCRIBE, PUBLISH}
    requires t.client == v.up[0].client && t.msg.mtype == v.up[0].msg.mtype
    requires t.msg.kind == ACK_OK || (t.msg.kind == ACK_ERROR && v.up[0].msg.kind == PUBLISH)
    ensures ViewAsked(asked, n, Pipeline.Answered(v, t))
  {
    var w := Pipeline.Answered(v, t);
    GoodAppend(v.ids, v.down, t);
    assert Final(w) == Final(v) && Stuck(w) == Stuck(v);
    assert IsAsked(asked, n, v.up[0]);
    AnsweredAsked(asked, n, v, w, t);
  }

  lemma StartingView(st: State, s: nat, id: int, n: nat)
    requires Inv(st) && Enabled(st, WorkerStarts(s, id)) && n < |st.nodes| && st.nodes[n].server == s
    ensures Wired(After(st, WorkerStarts(s, id)))
    ensures var (sv, t) := (st.servers[s], st.servers[s].workerQueue[0]);
            var (v, w) := (ViewAt(st, n), ViewAt(After(st, WorkerStarts(s, id)), n));
            w == v || exists m: Msg :: m.kind == ACK_OK && m.mtype == t.msg.mtype && t.msg.kind == SUBSCRIBE
                                 && v.up != [] && v.up[0] == t && w == Pipeline.Answered(v, Tagged(m, n, t.client))
  {
    var (sv, t) := (st.servers[s], st.servers[s].workerQueue[0]);
    StartedView(st, s, id, n);
    var answer := Leave(Tagged(LookedReply(sv.table, st.files.users.Keys, t.msg, ACK_OK), n, t.client));
    assert answer == Tagged(answer.msg, n, t.client);
  }

  lemma StartingAgrees(asked: map<Holder, Msg>, st: State, s: nat, id: int, n: nat)
    requires Inv(st) && Enabled(st, WorkerStarts(s, id)) && Agrees(asked, st, n) && st.nodes[n].server == s
    ensures Agrees(asked, After(st, WorkerStarts(s, id)), n)
  {
    var (t, v, w) := (st.servers[s].workerQueue[0], ViewAt(st, n), ViewAt(After(st, WorkerStarts(s, id)), n));
    ViewIsOk(st, n);
    StartingView(st, s, id, n);
    if w != v {
      var m: Msg :| m.kind == ACK_OK && m.mtype == t.msg.mtype && t.msg.kind == SUBSCRIBE
                    && v.up != [] && v.up[0] == t && w == Pipeline.Answered(v, Tagged(m, n, t.client));
      AcknowledgedAsked(asked, n, v, Tagged(m, n, t.client));
    }
  }

  lemma FinishingAgrees(asked: map<Holder, Msg>, st: State, s: nat, n: nat)
    requires Inv(st) && Enabled(st, WorkerFinishes(s)) && !st.servers[s].phase.Creating?
    requires Agrees(asked, st, n) && st.nodes[n].server == s
    ensures Agrees(asked, After(st, WorkerFinishes(s)), n)
  {
    var (sv, v, t) := (st.servers[s], ViewAt(st, n), st.servers[s].phase.request);
    FinishingView(st, s, n);
    ViewIsOk(st, n);
    if t.node == n {
      if sv.phase.Destroying? {
        DestroyedAsked(asked, n, v, Leave(Tagged(sv.phase.reply, n, t.client)));
      } else {
        AcknowledgedAsked(asked, n, v, Leave(Tagged(SendAck(sv.phase), n, t.client)));
      }
    }
  }

  lemma FinishingView(st: State, s: nat, n: nat)
    requires Inv(st) && Enabled(st, WorkerFinishes(s)) && !st.servers[s].phase.Creating?
    requires n < |st.nodes| && st.nodes[n].server == s
    ensures Wired(After(st, WorkerFinishes(s)))
    ensures var (sv, t, v) := (st.servers[s], st.servers[s].phase.request, ViewAt(st, n));
            var (p, w) := (sv.phase, ViewAt(After(st, WorkerFinishes(s)), n));
            if t.node != n then w == v
            else
              && v.up != [] && v.up[0] == t && t.msg.kind == (if p.Destroying? then DESTROY else PUBLISH)
              && if p.Destroying?
                 then p.reply.kind == ACK_DESTROY && p.reply.globalId == t.msg.mtype
                      && w == Destroyed(v, Leave(Tagged(p.reply, n, t.client)))
                 else p.looked.globalId == t.msg.mtype
                      && w == Pipeline.Answered(v, Leave(Tagged(SendAck(p), n, t.client)))
  {
    assert ServerInv(st.nodes, s, st.servers[s]);
    FinishedOtherView(st, s, n);
  }

  lemma ArrivingUnseen(st: State, m: nat, n: nat)
    requires Inv(st) && Enabled(st, RequestArrives(m)) && n < |st.nodes|
    ensures Wired(After(st, RequestArrives(m))) && ViewAt(After(st, RequestArrives(m)), n) == ViewAt(st, n)
  {
    SentRequest(st, m);
    if m == n {
      ArrivedView(st.nodes[n], n, ServerOf(st, n));
    } else if st.nodes[m].server == st.nodes[n].server {
      ForeignRequestView(st.nodes[n], n, ServerOf(st, n), Arrive(st.nodes[m].up[0], st.nodes[m].pid));
    }
  }

  lemma LeavingUnseen(st: State, m: nat, n: nat)
    requires Inv(st) && Enabled(st, ReplyLeaves(m)) && n < |st.nodes|
    ensures Wired(After(st, ReplyLeaves(m))) && ViewAt(After(st, ReplyLeaves(m)), n) == ViewAt(st, n)
  {
    var q := QueueOf(ServerOf(st, m).respQueue, st.nodes[m].pid);
    WaitingReply(st, m);
    LeftView(st.nodes[m], m, ServerOf(st, m));
    if m != n && st.nodes[m].server == st.nodes[n].server {
      PidTellsNode(st, n, m);
      ForeignReplyView(st.nodes[n], n, ServerOf(st, n), st.nodes[m].pid, q[1..]);
    }
  }

  lemma RelayLeavesUnseen(st: State, s: nat, n: nat)
    requires Inv(st) && Enabled(st, RelayLeaves(s)) && n < |st.nodes|
    ensures Wired(After(st, RelayLeaves(s))) && ViewAt(After(st, RelayLeaves(s)), n) == ViewAt(st, n)
  {
    if st.nodes[n].server == s {
      var sv := st.servers[s];
      assert ServerOf(st, n).nextPid != st.nodes[n].pid;
      ForeignReplyView(st.nodes[n], n, sv, sv.nextPid, QueueOf(sv.respQueue, sv.nextPid)[1..]);
    }
  }

  lemma RelayArrivesUnseen(st: State, s: nat, n: nat)
    requires Inv(st) && Enabled(st, RelayArrives(s)) && n < |st.nodes|
    ensures Wired(After(st, RelayArrives(s))) && ViewAt(After(st, RelayArrives(s)), n) == ViewAt(st, n)
  {
    var sv := st.servers[s];
    assert ServerInv(st.nodes, s, sv);
    ForeignRequestView(st.nodes[n], n, sv, sv.ring[0]);
  }

  lemma RespondingView(st: State, m: nat, n: nat)
    requires Inv(st) && Enabled(st, NodeHandlesReply(m)) && n < |st.nodes|
    ensures Wired(After(st, NodeHandlesReply(m)))
    ensures m == n ==> ViewAt(st, n).down != []
    ensures ViewAt(After(st, NodeHandlesReply(m)), n) == if m == n then Delivered(ViewAt(st, n)) else ViewAt(st, n)
  {
    HandlesReplyKeepsNode(st, m);
    if m == n {
      DeliveredView(st.nodes[n], n, ServerOf(st, n));
      assert ViewAt(st, n).down[0] == st.nodes[n].down[0];
    }
  }

  lemma RespondingAgrees(asked: map<Holder, Msg>, st: State, m: nat, n: nat)
    requires Inv(st) && Enabled(st, NodeHandlesReply(m)) && Agrees(asked, st, n)
    ensures Agrees(asked, After(st, NodeHandlesReply(m)), n)
  {
    RespondingView(st, m, n);
    if m == n {
      ViewIsOk(st, n);
      DeliveredAsked(asked, n, ViewAt(st, n));
    }
  }

  lemma CollectingAgrees(asked: map<Holder, Msg>, st: State, m: nat, c: int, n: nat)
    requires Inv(st) && Enabled(st, ClientReceives(m, c)) && Agrees(asked, st, n)
    ensures Agrees(asked, After(st, ClientReceives(m, c)), n)
  {
    if m == n {
      assert ViewAt(After(st, ClientReceives(m, c)), n) == Collected(ViewAt(st, n), c);
      CollectedAsked(asked, n, ViewAt(st, n), c);
    }
  }

  lemma WorkingAgrees(asked: map<Holder, Msg>, st: State, e: Event, n: nat)
    requires Inv(st) && Enabled(st, e) && (e.WorkerStarts? || e.WorkerSends? || e.WorkerFinishes?)
    requires Agrees(asked, st, n)
    ensures Agrees(asked, After(st, e), n)
  {
    if st.nodes[n].server == e.server {
      match e
      case WorkerStarts(s, id) => StartingAgrees(asked, st, s, id, n);
      case WorkerSends(s) => RoundAgrees(asked, st, s, n);
      case WorkerFinishes(s) =>
        if st.servers[s].phase.Creating? { CreatingAgrees(asked, st, s, n); } else { FinishingAgrees(asked, st, s, n); }
    }
  }

  lemma MovingAgrees(asked: map<Holder, Msg>, st: State, e: Event, n: nat)
    requires Inv(st) && Enabled(st, e) && Agrees(asked, st, n)
    requires e.RequestArrives? || e.ReplyLeaves? || e.RelayLeaves? || e.RelayArrives?
    ensures Agrees(asked, After(st, e), n)
  {
    match e
    case RequestArrives(m) => ArrivingUnseen(st, m, n);
    case ReplyLeaves(m) => LeavingUnseen(st, m, n);
    case RelayLeaves(s) => RelayLeavesUnseen(st, s, n);
    case RelayArrives(s) => RelayArrivesUnseen(st, s, n);
  }

  lemma NodeAgrees(asked: map<Holder, Msg>, st: State, e: Event, n: nat)
    requires Inv(st) && Enabled(st, e) && Agrees(asked, st, n)
    requires e.NodeHandlesRequest? || e.NodeHandlesReply? || e.ClientReceives?
    ensures Agrees(asked, After(st, e), n)
  {
    match e
    case NodeHandlesRequest(m) =>
      if m == n {
        HandlingAgrees(asked, st, n);
      } else {
        assert HandleRequest(st.nodes[m]).server == st.nodes[m].server;
      }
    case NodeHandlesReply(m) => RespondingAgrees(asked, st, m, n);
    case ClientReceives(m, c) => CollectingAgrees(asked, st, m, c, n);
  }

  lemma StepAgrees(asked: map<Holder, Msg>, st: State, e: Event, n: nat)
    requires Inv(st) && Enabled(st, e) && Agrees(asked, st, n)
    ensures Agrees(Noting(asked, e), After(st, e), n)
  {
    match e
    case ClientSends(m, t) => SendingAgrees(asked, st, m, t, n);
    case WorkerStarts(_, _) => WorkingAgrees(asked, st, e, n);
    case WorkerSends(_) => WorkingAgrees(asked, st, e, n);
    case WorkerFinishes(_) => WorkingAgrees(asked, st, e, n);
    case RequestArrives(_) => MovingAgrees(asked, st, e, n);
    case ReplyLeaves(_) => MovingAgrees(asked, st, e, n);
    case RelayLeaves(_) => MovingAgrees(asked, st, e, n);
    case RelayArrives(_) => MovingAgrees(asked, st, e, n);
    case _ => NodeAgrees(asked, st, e, n);
  }

  // ---- Runs ----

  lemma InitAgrees(st: State, n: nat)
    requires Init(st) && n < |st.nodes|
    ensures Agrees(map[], st, n)
  {
    InitIsFine(st);
    var v := ViewAt(st, n);
    assert v.requests == [] && v.up == [] && v.down == [] && v.replies == map[] && v.registered == [];
    assert Stuck(v) == [];
  }

  lemma {:induction false} RunsAgree(states: seq<State>, events: seq<Event>, i: nat, n: nat)
    requires IsRun(states, events) && i < |states| && n < |states[i].nodes|
    ensures Agrees(AskedIn(events, i), states[i], n)
  {
    if i == 0 {
      InitAgrees(states[0], n);
    } else {
      SameNodes(states[i - 1], events[i - 1]);
      RunsAgree(states, events, i - 1, n);
      RunsAreSafe(states, events, i - 1);
      StepAgrees(AskedIn(events, i - 1), states[i - 1], events[i - 1], n);
    }
  }

  lemma SameNodes(st: State, e: Event)
    requires Enabled(st, e)
    ensures |After(st, e).nodes| == |st.nodes|
  {
  }

  /** The node, its connection or the worker has the request. */
  predicate UnderWay(b: Broker, n: int, sv: Server, t: Tagged) {
    t in b.requests || t in b.up || (t.node == n && (t in sv.workerQueue || (!sv.phase.Idle? && t == sv.phase.request)))
  }

  lemma {:induction false} OfNodeHas(ts: seq<Tagged>, t: Tagged)
    requires t in ts
    ensures t in OfNode(ts, t.node)
  {
    if t != ts[0] { OfNodeHas(ts[1..], t); }
  }

  /** Wherever a request is on its way, and when the worker has it in hand, it is the message that the client sent
      last: kind, topic, text and all the rest but the address. */
  lemma RequestsAreAsAsked(states: seq<State>, events: seq<Event>, i: nat, n: nat, t: Tagged)
    requires IsRun(states, events) && i < |states| && Wired(states[i]) && n < |states[i].nodes|
    requires UnderWay(states[i].nodes[n], n, ServerOf(states[i], n), t)
    ensures var asked := AskedIn(events, i);
            && Holder(n, t.client) in asked
            && t.msg == asked[Holder(n, t.client)].(mtype := t.msg.mtype)
  {
    RunsAgree(states, events, i, n);
    var (b, sv, v) := (states[i].nodes[n], ServerOf(states[i], n), ViewAt(states[i], n));
    assert v.up == InHand(sv.phase, n) + OfNode(sv.workerQueue, n) + ArriveAll(b.up, b.pid);
    if t in b.requests {
      assert t in v.requests;
    } else if t in b.up {
      var k :| 0 <= k < |b.up| && b.up[k] == t;
      assert ArriveAll(b.up, b.pid)[k] in v.up;
    } else if t in sv.workerQueue {
      OfNodeHas(sv.workerQueue, t);
      assert t in v.up;
    } else {
      assert InHand(sv.phase, n)[0] in v.up;
    }
  }

  /** What a client receives is the answer to the message it sent last. */
  lemma AnswersAreToTheRequest(states: seq<State>, events: seq<Event>, i: nat)
    requires IsRun(states, events) && i < |events| && events[i].ClientReceives?
    ensures var (n, c, asked) := (events[i].node, events[i].client, AskedIn(events, i));
            && Holder(n, c) in asked
            && IsAnswerTo(asked[Holder(n, c)].kind, QueueOf(states[i].nodes[n].replies, c)[0].msg.kind)
  {
    var (n, c) := (events[i].node, events[i].client);
    RunsAgree(states, events, i, n);
    RunsAreSafe(states, events, i);
    ViewIsOk(states[i], n);
    assert Answering(AskedIn(events, i), n, QueueOf(ViewAt(states[i], n).replies, c)[0]);
  }

  /** A SUBSCRIBE that is taken up adds one line to the file of the topic that its client asked for, the id of that
      client, and one line to the client's own file; no other line comes or goes. */
  lemma SubscriptionIsAsAsked(states: seq<State>, events: seq<Event>, i: nat, topic: Topic, u: int)
    requires IsRun(states, events) && i < |events| && events[i].WorkerStarts?
    requires states[i].servers[events[i].server].workerQueue[0].msg.kind == SUBSCRIBE
    ensures var (sv, asked) := (states[i].servers[events[i].server], AskedIn(events, i));
            var t := sv.workerQueue[0];
            var (h, g) := (Holder(t.node, t.client), t.msg.mtype);
            && h in asked && asked[h].kind == SUBSCRIBE && g in sv.holders && sv.holders[g] == h
            && LinesOf(states[i + 1].files, topic)
               == LinesOf(states[i].files, topic) + (if topic == asked[h].topic then [g] else [])
            && TopicsOf(states[i + 1].files, u)
               == TopicsOf(states[i].files, u) + if u == g then [asked[h].topic] else []
  {
    var (st, s) := (states[i], events[i].server);
    RunsAreSafe(states, events, i);
    assert ServerInv(st.nodes, s, st.servers[s]);
    NextRequest(st, s);
    var t := st.servers[s].workerQueue[0];
    RequestsAreAsAsked(states, events, i, t.node, t);
  }
}
