/** The worker's events keep the invariant, connection by connection. */
module ServerSteps {
  import opened Messages
  import G = GlobalIds
  import opened Db
  import opened DbHandler
  import opened Routing
  import opened Node
  import opened Connection
  import opened Pipeline
  import opened System
  import opened SystemInvariant
  import Ring

  /** Two nodes of one server are told apart by the pids of their response handlers. */
  lemma PidTellsNode(st: State, n: int, m: int)
    requires PidsDistinct(st) && 0 <= n < |st.nodes| && 0 <= m < |st.nodes|
    requires st.nodes[n].server == st.nodes[m].server
    ensures n == m <==> st.nodes[n].pid == st.nodes[m].pid
  {
  }

  /** The request that the worker is about to take, unless it is a relay. */
  lemma NextRequest(st: State, s: nat)
    requires Inv(st) && s < |st.servers| && st.servers[s].phase.Idle? && st.servers[s].workerQueue != []
    requires !IsRelay(st.servers[s].workerQueue[0])
    ensures var sv := st.servers[s]; var t := sv.workerQueue[0];
            && FromNode(st.nodes, s, t.node)
            && UpOf(st.nodes[t.node], t.node, sv) != [] && UpOf(st.nodes[t.node], t.node, sv)[0] == t
            && t.client > 0 && t.msg.kind in {CREATE, SUBSCRIBE, PUBLISH, DESTROY}
            && (t.msg.kind == PUBLISH ==> t.msg.brokerId == 0)
            && (t.msg.kind == CREATE ==> t.msg.mtype == st.nodes[t.node].pid)
            && (t.msg.kind != CREATE ==>
                  && t.msg.mtype > 0 && t.msg.mtype in sv.holders
                  && sv.holders[t.msg.mtype] == Holder(t.node, t.client)
                  && G.MtypeOf(sv.table, t.msg.mtype) == st.nodes[t.node].pid > 0
                  && t.msg.mtype in st.files.users)
  {
    var sv := st.servers[s];
    var t := sv.workerQueue[0];
    var n := t.node;
    assert NodeInv(st, n);
    var v := ViewFor(st.nodes[n], n, sv);
    HeadOfQueue(st.nodes[n], n, sv);
    assert RequestOk(v.pid, Final(v), v.up[0]);
    if t.msg.kind != CREATE {
      SenderRegistered(st.nodes, s, n, sv);
      assert t.msg.mtype in Claimed(sv);
    }
  }

  /** What a connection sees when the worker takes the next request: the answer to its SUBSCRIBE, or nothing. */
  lemma StartedView(st: State, s: nat, id: int, n: nat)
    requires Inv(st) && Enabled(st, WorkerStarts(s, id)) && n < |st.nodes| && st.nodes[n].server == s
    ensures var (sv, t) := (st.servers[s], st.servers[s].workerQueue[0]);
            var (v, w) := (ViewFor(st.nodes[n], n, sv), ViewFor(st.nodes[n], n, Start(sv, st.files, id).0));
            var reply := LookedReply(sv.table, st.files.users.Keys, t.msg, ACK_OK);
            if t.node == n && t.msg.kind == SUBSCRIBE then
              && reply.kind == ACK_OK && v.up != [] && v.up[0] == t
              && w == Answered(v, Leave(Tagged(reply, n, t.client)))
            else w == v
  {
    var sv := st.servers[s];
    var t := sv.workerQueue[0];
    var took := sv.(workerQueue := sv.workerQueue[1..]);
    if !IsRelay(t) {
      NextRequest(st, s);
      PidTellsNode(st, n, t.node);
    }
    var reply := LookedReply(sv.table, st.files.users.Keys, t.msg, ACK_OK);
    if t.node == n { HeadOfQueue(st.nodes[n], n, sv); }
    if t.msg.kind == SUBSCRIBE { EnqueueView(st.nodes[n], n, took, reply, t.node, t.client); }
  }

  lemma StartKeepsNode(st: State, s: nat, id: int, n: nat)
    requires Inv(st) && Enabled(st, WorkerStarts(s, id)) && n < |st.nodes| && st.nodes[n].server == s
    ensures ViewOk(ViewFor(st.nodes[n], n, Start(st.servers[s], st.files, id).0))
  {
    var (sv, t) := (st.servers[s], st.servers[s].workerQueue[0]);
    assert NodeInv(st, n);
    StartedView(st, s, id, n);
    if t.node == n && t.msg.kind == SUBSCRIBE {
      var reply := LookedReply(sv.table, st.files.users.Keys, t.msg, ACK_OK);
      AnsweredKeeps(ViewFor(st.nodes[n], n, sv), Leave(Tagged(reply, n, t.client)));
    }
  }

  lemma EnqueueKeepsServer(nodes: seq<Broker>, s: int, sv: Server, m: Msg, node: int, client: int)
    requires ServerInv(nodes, s, sv)
    requires m.mtype == sv.nextPid ==> IsRelay(Tagged(m, node, client))
    ensures ServerInv(nodes, s, Enqueue(sv, m, node, client))
  {
    var w := Enqueue(sv, m, node, client);
    if m.mtype > 0 {
      assert QueueOf(w.respQueue, sv.nextPid)
          == if m.mtype == sv.nextPid then QueueOf(sv.respQueue, sv.nextPid) + [Tagged(m, node, client)]
             else QueueOf(sv.respQueue, sv.nextPid);
    }
  }

  lemma SubscribersPositive(files: Files, t: Topic)
    requires Linked(files)
    ensures Ring.AllPositive(FirstClients(LinesOf(files, t)))
  {
    var lines := LinesOf(files, t);
    forall k | 0 <= k < |lines| ensures lines[k] > 0 {
      ListedUserIsLive(files, t, lines[k]);
    }
  }

  lemma StartKeepsServer(st: State, s: nat, id: int)
    requires Inv(st) && Enabled(st, WorkerStarts(s, id))
    ensures ServerInv(st.nodes, s, Start(st.servers[s], st.files, id).0)
  {
    var sv := st.servers[s];
    assert ServerInv(st.nodes, s, sv);
    var t := sv.workerQueue[0];
    var took := sv.(workerQueue := sv.workerQueue[1..]);
    assert QueueInv(st.nodes, s, took);
    SubscribersPositive(st.files, t.msg.topic);
    if !IsRelay(t) {
      NextRequest(st, s);
    }
    match t.msg.kind
    case CREATE =>
      NewIdIsClean(st.files, id);
      assert id in sv.holders ==> id in Claimed(sv);
    case SUBSCRIBE =>
      EnqueueKeepsServer(st.nodes, s, took, LookedReply(sv.table, st.files.users.Keys, t.msg, ACK_OK),
                         t.node, t.client);
    case _ =>
  }

  lemma CopyView(st: State, s: nat, n: nat)
    requires Inv(st) && Enabled(st, WorkerSends(s)) && n < |st.nodes| && st.nodes[n].server == s
    requires RouteOf(st.servers[s].table, st.servers[s].phase.subs[0], st.servers[s].phase.relayed).Copy?
    ensures RoundSeen(st, s, n)
  {
    var sv := st.servers[s];
    var (p, sub) := (sv.phase, sv.phase.subs[0]);
    assert ServerInv(st.nodes, s, sv);
    HasIsRegistered(st.nodes, s, sv, sub);
    var holder := sv.holders[sub];
    PidTellsNode(st, n, holder.node);
    var copy := p.looked.(globalId := sub, mtype := G.MtypeOf(sv.table, sub));
    EnqueueView(st.nodes[n], n, sv, copy, holder.node, holder.client);
    SamePhaseView(st.nodes[n], n, Enqueue(sv, copy, holder.node, holder.client), p.(subs := p.subs[1..]));
  }

  /** What a connection sees of a round of the send loop: the copy for one of its ids, or nothing. */
  ghost predicate RoundSeen(st: State, s: nat, n: nat)
    requires Enabled(st, WorkerSends(s)) && n < |st.nodes|
  {
    var (sv, sub) := (st.servers[s], st.servers[s].phase.subs[0]);
    var (v, w) := (ViewFor(st.nodes[n], n, sv), ViewFor(st.nodes[n], n, Send(sv)));
    w == v || (&& sub in sv.holders && sv.holders[sub].node == n
               && w == Copied(v, Tagged(sv.phase.looked.(globalId := sub, mtype := sub), n, sv.holders[sub].client)))
  }

  lemma RoundView(st: State, s: nat, n: nat)
    requires Inv(st) && Enabled(st, WorkerSends(s)) && n < |st.nodes| && st.nodes[n].server == s
    ensures RoundSeen(st, s, n)
  {
    var sv := st.servers[s];
    assert ServerInv(st.nodes, s, sv);
    var p := sv.phase;
    var sub := p.subs[0];
    match RouteOf(sv.table, sub, p.relayed)
    case Copy(pid) => CopyView(st, s, n);
    case Relay(pid) =>
      var copy := p.looked.(globalId := sub, mtype := pid);
      EnqueueView(st.nodes[n], n, sv, copy, RELAY, 0);
      SamePhaseView(st.nodes[n], n, Enqueue(sv, copy, RELAY, 0), p.(subs := p.subs[1..], relayed := true));
      G.HasIndex(sv.table, NEXT_SERVER_GLOBAL_ID);
    case Skip => SamePhaseView(st.nodes[n], n, sv, p.(subs := p.subs[1..]));
    case Fail => SamePhaseView(st.nodes[n], n, sv, p.(subs := [], ok := false));
  }

  lemma SendKeepsNode(st: State, s: nat, n: nat)
    requires Inv(st) && Enabled(st, WorkerSends(s)) && n < |st.nodes| && st.nodes[n].server == s
    ensures ViewOk(ViewFor(st.nodes[n], n, Send(st.servers[s])))
  {
    var (sv, sub) := (st.servers[s], st.servers[s].phase.subs[0]);
    var (v, w) := (ViewFor(st.nodes[n], n, sv), ViewFor(st.nodes[n], n, Send(sv)));
    assert NodeInv(st, n) && ServerInv(st.nodes, s, sv);
    RoundView(st, s, n);
    if w != v {
      CopiedKeeps(v, Tagged(sv.phase.looked.(globalId := sub, mtype := sub), n, sv.holders[sub].client));
    }
  }

  lemma SamePhaseView(b: Broker, n: int, sv: Server, p: Phase)
    requires !sv.phase.Idle? && !p.Idle? && p.request == sv.phase.request
    ensures ViewFor(b, n, sv.(phase := p)) == ViewFor(b, n, sv)
  {
  }

  lemma HasIsRegistered(nodes: seq<Broker>, s: int, sv: Server, g: int)
    requires TableInv(nodes, s, sv) && g > 0 && G.MtypeOf(sv.table, g) != NO_MTYPE_FOUND
    ensures g in sv.holders && FromNode(nodes, s, sv.holders[g].node)
    ensures G.MtypeOf(sv.table, g) == nodes[sv.holders[g].node].pid
  {
    G.HasIndex(sv.table, g);
  }

  lemma SendKeepsServer(st: State, s: nat)
    requires Inv(st) && Enabled(st, WorkerSends(s))
    ensures ServerInv(st.nodes, s, Send(st.servers[s]))
  {
    var sv := st.servers[s];
    assert ServerInv(st.nodes, s, sv);
    var p := sv.phase;
    var sub := p.subs[0];
    match RouteOf(sv.table, sub, p.relayed)
    case Copy(pid) =>
      HasIsRegistered(st.nodes, s, sv, sub);
      var holder := sv.holders[sub];
      assert st.nodes[holder.node].pid != ServerOf(st, holder.node).nextPid;
      EnqueueKeepsServer(st.nodes, s, sv, p.looked.(globalId := sub, mtype := pid), holder.node, holder.client);
    case Relay(pid) =>
      EnqueueKeepsServer(st.nodes, s, sv, p.looked.(globalId := sub, mtype := pid), RELAY, 0);
    case Skip =>
    case Fail =>
  }

  /** The request that the worker is about to finish, unless it is a relay. */
  lemma RequestInHand(st: State, s: nat)
    requires Inv(st) && s < |st.servers| && !st.servers[s].phase.Idle? && !IsRelay(st.servers[s].phase.request)
    ensures var sv := st.servers[s]; var t := sv.phase.request;
            && FromNode(st.nodes, s, t.node)
            && UpOf(st.nodes[t.node], t.node, sv) != [] && UpOf(st.nodes[t.node], t.node, sv)[0] == t
            && t.client > 0
            && (t.msg.kind != CREATE ==>
                  && t.msg.mtype > 0 && t.msg.mtype in sv.holders
                  && sv.holders[t.msg.mtype] == Holder(t.node, t.client)
                  && G.MtypeOf(sv.table, t.msg.mtype) == st.nodes[t.node].pid > 0)
  {
    var sv := st.servers[s];
    assert ServerInv(st.nodes, s, sv);
    var n := sv.phase.request.node;
    assert NodeInv(st, n);
    var v := ViewFor(st.nodes[n], n, sv);
    assert UpOf(st.nodes[n], n, sv)[0] == sv.phase.request;
    assert RequestOk(v.pid, Final(v), v.up[0]);
    if sv.phase.request.msg.kind != CREATE {
      SenderRegistered(st.nodes, s, n, sv);
    }
  }

  lemma FinishedView(b: Broker, n: int, sv: Server)
    requires !sv.phase.Idle?
    ensures sv.phase.request.node != n ==> ViewFor(b, n, sv.(phase := Idle)) == ViewFor(b, n, sv)
    ensures sv.phase.request.node == n ==>
              && UpOf(b, n, sv) != [] && UpOf(b, n, sv)[0] == sv.phase.request
              && ViewFor(b, n, sv.(phase := Idle)) == ViewFor(b, n, sv).(up := UpOf(b, n, sv)[1..])
  {
    if sv.phase.request.node == n {
      assert UpOf(b, n, sv) == [sv.phase.request] + UpOf(b, n, sv.(phase := Idle));
    }
  }

  lemma HeldByAdd(holders: map<int, Holder>, g: int, h: Holder, n: int)
    requires g !in holders
    ensures HeldBy(holders[g := h], n) == if h.node == n then HeldBy(holders, n)[g := h.client] else HeldBy(holders, n)
  {
  }

  lemma HeldByRemove(holders: map<int, Holder>, g: int, n: int)
    requires g in holders
    ensures HeldBy(holders - {g}, n) == if holders[g].node == n then HeldBy(holders, n) - {g} else HeldBy(holders, n)
  {
  }

  /** The answer to a finished PUBLISH or DESTROY is seen by the connection that it came from only. */
  lemma FinishedOtherView(st: State, s: nat, n: nat)
    requires Inv(st) && Enabled(st, WorkerFinishes(s)) && !st.servers[s].phase.Creating?
    requires n < |st.nodes| && st.nodes[n].server == s
    ensures var (sv, t) := (st.servers[s], st.servers[s].phase.request);
            var (v, w) := (ViewFor(st.nodes[n], n, sv), ViewFor(st.nodes[n], n, Finished(st, s)));
            if t.node != n then w == v
            else
              && v.up != [] && v.up[0] == t
              && w == (if sv.phase.Destroying? then Destroyed(v, Leave(Tagged(sv.phase.reply, n, t.client)))
                       else Answered(v, Leave(Tagged(SendAck(sv.phase), n, t.client))))
  {
    var (sv, t) := (st.servers[s], st.servers[s].phase.request);
    assert ServerInv(st.nodes, s, sv);
    FinishedView(st.nodes[n], n, sv);
    if !IsRelay(t) {
      RequestInHand(st, s);
      PidTellsNode(st, n, t.node);
    }
    if sv.phase.Destroying? {
      var reply := sv.phase.reply;
      HeldByRemove(sv.holders, reply.globalId, n);
      EnqueueView(st.nodes[n], n, sv.(phase := Idle, table := G.Without(sv.table, reply.globalId),
                                      holders := sv.holders - {reply.globalId}), reply, t.node, t.client);
    } else {
      EnqueueView(st.nodes[n], n, sv.(phase := Idle), SendAck(sv.phase), t.node, t.client);
    }
  }

  /** The acknowledgement of a PUBLISH. */
  function SendAck(p: Phase): Msg
    requires p.Sending?
  {
    p.looked.(kind := if p.ok then ACK_OK else ACK_ERROR)
  }

  lemma FinishKeepsNode(st: State, s: nat, n: nat)
    requires Inv(st) && Enabled(st, WorkerFinishes(s))
    requires n < |st.nodes| && st.nodes[n].server == s
    ensures ViewOk(ViewFor(st.nodes[n], n, Finished(st, s)))
  {
    var (sv, t, v) := (st.servers[s], st.servers[s].phase.request, ViewFor(st.nodes[n], n, st.servers[s]));
    assert NodeInv(st, n) && ServerInv(st.nodes, s, sv);
    if sv.phase.Creating? {
      FinishCreate(st, s, n);
    } else {
      FinishedOtherView(st, s, n);
      if t.node == n {
        if sv.phase.Destroying? {
          DestroyedKeeps(v, Leave(Tagged(sv.phase.reply, n, t.client)));
        } else {
          AnsweredKeeps(v, Leave(Tagged(SendAck(sv.phase), n, t.client)));
        }
      }
    }
  }

  lemma ClientsAppend(ts: seq<Tagged>, t: Tagged)
    ensures ClientsOf(ts + [t]) == ClientsOf(ts) + [t.client]
  {
  }

  /** Finishing a CREATE is seen by the connection that it came from only. */
  lemma FinishCreateView(b: Broker, n: int, sv: Server, owner: int)
    requires sv.phase.Creating? && sv.phase.id !in sv.holders
    requires sv.phase.request.node == n <==> b.pid == sv.phase.request.msg.mtype
    requires sv.phase.request.msg.mtype > 0
    ensures var t := sv.phase.request; var (v, w) := (ViewFor(b, n, sv), ViewFor(b, n, Finish(sv, owner)));
            var reply := CreateReply(sv.table, t.msg, sv.phase.id);
            if t.node != n then w == v
            else if reply.kind == ACK_CREATE then v.up != [] && w == Pipeline.Created(v, Leave(Tagged(reply, n, owner)))
            else v.up != [] && w == Failed(v, Leave(Tagged(reply, n, NOBODY)), t.(msg := reply))
  {
    var t, id := sv.phase.request, sv.phase.id;
    var reply := CreateReply(sv.table, t.msg, id);
    FinishedView(b, n, sv);
    if reply.kind == ACK_CREATE {
      HeldByAdd(sv.holders, id, Holder(t.node, owner), n);
      EnqueueView(b, n, sv.(phase := Idle, table := sv.table + [G.Entry(t.msg.mtype, id)],
                            holders := sv.holders[id := Holder(t.node, owner)],
                            acked := sv.acked + [Tagged(reply, t.node, owner)]), reply, t.node, owner);
      OfNodeAppend(sv.acked, Tagged(reply, t.node, owner), n);
      ClientsAppend(OfNode(sv.acked, n), Tagged(reply, t.node, owner));
    } else {
      OfNodeAppend(sv.failed, t.(msg := reply), n);
      EnqueueView(b, n, sv.(phase := Idle, failed := sv.failed + [t.(msg := reply)]), reply, t.node, NOBODY);
    }
  }

  lemma FinishCreate(st: State, s: nat, n: nat)
    requires Inv(st) && Enabled(st, WorkerFinishes(s)) && st.servers[s].phase.Creating?
    requires n < |st.nodes| && st.nodes[n].server == s
    ensures ViewOk(ViewFor(st.nodes[n], n, Finished(st, s)))
  {
    var sv := st.servers[s];
    assert NodeInv(st, n) && ServerInv(st.nodes, s, sv);
    var t, owner := sv.phase.request, OwnerOf(st.nodes, sv);
    var b, v := st.nodes[n], ViewFor(st.nodes[n], n, sv);
    RequestInHand(st, s);
    PidTellsNode(st, n, t.node);
    FinishCreateView(b, n, sv, owner);
    if t.node == n {
      var reply := CreateReply(sv.table, t.msg, sv.phase.id);
      if reply.kind == ACK_CREATE {
        OwnerIsSenderIffNoneStuck(v);
        CreatedKeeps(v, Leave(Tagged(reply, n, owner)));
      } else {
        FailedKeeps(v, Leave(Tagged(reply, n, NOBODY)), t.(msg := reply));
      }
    }
  }

  lemma CreateKeepsServer(nodes: seq<Broker>, s: int, sv: Server, owner: int)
    requires ServerInv(nodes, s, sv) && sv.phase.Creating?
    requires FromNode(nodes, s, sv.phase.request.node) && sv.nextPid != nodes[sv.phase.request.node].pid > 0
    ensures ServerInv(nodes, s, Finish(sv, owner))
  {
    var t, id := sv.phase.request, sv.phase.id;
    var reply := CreateReply(sv.table, t.msg, id);
    if reply.kind == ACK_CREATE {
      AddKeepsTable(nodes, s, sv, id, Holder(t.node, owner));
      var added := sv.(phase := Idle, table := sv.table + [G.Entry(t.msg.mtype, id)],
                       holders := sv.holders[id := Holder(t.node, owner)],
                       acked := sv.acked + [Tagged(reply, t.node, owner)]);
      EnqueueKeepsServer(nodes, s, added, reply, t.node, owner);
    } else {
      var failed := sv.(phase := Idle, failed := sv.failed + [t.(msg := reply)]);
      EnqueueKeepsServer(nodes, s, failed, reply, t.node, NOBODY);
    }
  }

  lemma FinishKeepsServer(st: State, s: nat)
    requires Inv(st) && Enabled(st, WorkerFinishes(s))
    ensures ServerInv(st.nodes, s, Finished(st, s))
  {
    var sv := st.servers[s];
    assert ServerInv(st.nodes, s, sv);
    var t := sv.phase.request;
    if !IsRelay(t) {
      RequestInHand(st, s);
      assert st.nodes[t.node].pid != ServerOf(st, t.node).nextPid;
    }
    match sv.phase
    case Creating(_, _) => CreateKeepsServer(st.nodes, s, sv, OwnerOf(st.nodes, sv));
    case Destroying(_, reply) =>
      RemoveKeepsTable(st.nodes, s, sv, reply.globalId);
      var removed := sv.(phase := Idle, table := G.Without(sv.table, reply.globalId),
                         holders := sv.holders - {reply.globalId});
      EnqueueKeepsServer(st.nodes, s, removed, reply, t.node, t.client);
    case Sending(_, m, _, _, ok) =>
      if t.msg.brokerId == 0 {
        EnqueueKeepsServer(st.nodes, s, sv.(phase := Idle), m.(kind := if ok then ACK_OK else ACK_ERROR),
                           t.node, t.client);
      }
  }

  lemma AddKeepsTable(nodes: seq<Broker>, s: int, sv: Server, id: int, h: Holder)
    requires TableInv(nodes, s, sv) && id > 0 && id !in sv.holders && FromNode(nodes, s, h.node)
    requires nodes[h.node].pid > 0
    ensures TableInv(nodes, s, sv.(table := sv.table + [G.Entry(nodes[h.node].pid, id)],
                                   holders := sv.holders[id := h]))
  {
    var e := G.Entry(nodes[h.node].pid, id);
    assert !G.Has(sv.table, id);
    forall g
      ensures G.MtypeOf(sv.table + [e], g) == if g == id then e.mtype else G.MtypeOf(sv.table, g)
      ensures G.Has(sv.table + [e], g) <==> g == id || G.Has(sv.table, g)
    {
      G.AppendLookup(sv.table, e, g);
    }
    G.AppendLookup(sv.table, e, id);
  }

  lemma RemoveKeepsTable(nodes: seq<Broker>, s: int, sv: Server, id: int)
    requires TableInv(nodes, s, sv) && id in sv.holders
    ensures TableInv(nodes, s, sv.(table := G.Without(sv.table, id), holders := sv.holders - {id}))
  {
    G.RemoveKeepsInjective(sv.table, id);
    forall g
      ensures g != id ==> G.MtypeOf(G.Without(sv.table, id), g) == G.MtypeOf(sv.table, g)
      ensures G.Has(G.Without(sv.table, id), g) <==> g != id && G.Has(sv.table, g)
    {
      G.RemoveLookup(sv.table, id, g);
    }
  }

  // ---- Who may use which id ----

  /** A server may stop claiming, or claim users that are new, as long as no one else's users disappear. */
  lemma ClaimsChange(st: State, s: nat, sv: Server, files: Files)
    requires ClaimsInv(st) && s < |st.servers| && Linked(files)
    requires forall g | g in Claimed(sv) :: g in files.users
    requires forall g | g in Claimed(sv) :: g in Claimed(st.servers[s]) || g !in st.files.users
    requires forall g | g in st.files.users && g !in files.users :: g in Claimed(st.servers[s])
    ensures ClaimsInv(WithServer(st, s, sv).(files := files))
  {
    var servers := WithServer(st, s, sv).servers;
    forall i, j, g | 0 <= i < j < |servers| && g in Claimed(servers[i]) ensures g !in Claimed(servers[j]) {
      assert g in Claimed(st.servers[i]) || g !in st.files.users;
    }
  }

  /** Starting a CREATE claims an unused id, and starting a DESTROY gives one up, together with the database. */
  lemma StartChangesClaims(st: State, s: nat, id: int)
    requires ClaimsInv(st) && Enabled(st, WorkerStarts(s, id))
    requires var sv := st.servers[s]; var t := sv.workerQueue[0];
             t.msg.kind in {SUBSCRIBE, DESTROY} ==> t.msg.mtype in sv.holders
    ensures ClaimsInv(After(st, WorkerStarts(s, id)))
  {
    var sv := st.servers[s];
    var t := sv.workerQueue[0];
    var (sv', files') := Start(sv, st.files, id);
    assert Claimed(sv) == sv.holders.Keys;
    match t.msg.kind
    case CREATE =>
      NewIdIsClean(st.files, id);
      ClaimsChange(st, s, sv', files');
    case SUBSCRIBE =>
      assert t.msg.mtype in Claimed(sv);
      SubscribeKeepsIndex(st.files, t.msg.mtype, t.msg.topic);
      ClaimsChange(st, s, sv', files');
    case DESTROY =>
      assert t.msg.mtype in Claimed(sv);
      DeleteKeepsIndex(st.files, t.msg.mtype);
      ClaimsChange(st, s, sv', files');
    case _ => ClaimsChange(st, s, sv', files');
  }

  lemma StartKeepsClaims(st: State, s: nat, id: int)
    requires Inv(st) && Enabled(st, WorkerStarts(s, id))
    ensures ClaimsInv(After(st, WorkerStarts(s, id)))
  {
    if !IsRelay(st.servers[s].workerQueue[0]) {
      NextRequest(st, s);
    }
    StartChangesClaims(st, s, id);
  }

  lemma FewerClaims(st: State, s: nat, sv: Server)
    requires ClaimsInv(st) && s < |st.servers| && Claimed(sv) <= Claimed(st.servers[s])
    ensures ClaimsInv(WithServer(st, s, sv))
  {
  }

  /** A failed CREATE gives up its id; otherwise finishing changes no claim. */
  lemma FinishKeepsClaims(st: State, s: nat)
    requires Inv(st) && Enabled(st, WorkerFinishes(s))
    ensures Claimed(Finished(st, s)) <= Claimed(st.servers[s])
    ensures !CreateFails(st, WorkerFinishes(s)) ==> Claimed(Finished(st, s)) == Claimed(st.servers[s])
  {
    assert ServerInv(st.nodes, s, st.servers[s]);
  }
}
