/** What kind of answer a request gets, in every run in which the database does not fail. */
module Replies {
  import opened Messages
  import G = GlobalIds
  import opened Routing
  import opened Node
  import opened Connection
  import opened System
  import opened SystemInvariant
  import opened ServerSteps
  import opened Safety

  /** The kind of the answer that clients wait for; only a CREATE can fail. */
  function AnswerKind(request: Kind, fails: bool): Kind {
    match request
    case CREATE => if fails then ACK_ERROR else ACK_CREATE
    case DESTROY => ACK_DESTROY
    case _ => ACK_OK
  }

  /** The event queues this answer for node `n`, and nothing else. */
  predicate Queues(st: State, next: State, s: nat, n: int, answer: Tagged) {
    && s < |st.servers| == |next.servers| && 0 <= n < |st.nodes|
    && next.servers[s].respQueue == Push(st.servers[s].respQueue, st.nodes[n].pid, answer)
  }

  // ---- A connected server stays connected, and its sends do not fail ----

  predicate SendsFine(sv: Server) {
    G.Has(sv.table, NEXT_SERVER_GLOBAL_ID) && (sv.phase.Sending? ==> sv.phase.ok)
  }

  lemma RoundSendsFine(nodes: seq<Broker>, s: int, sv: Server)
    requires ServerInv(nodes, s, sv) && SendsFine(sv) && sv.phase.Sending? && sv.phase.subs != []
    ensures SendsFine(Send(sv))
  {
    G.MtypeIffHas(sv.table, NEXT_SERVER_GLOBAL_ID);
    G.MtypeIffHas(sv.table, sv.phase.subs[0]);
  }

  lemma FinishSendsFine(st: State, s: nat)
    requires Inv(st) && Enabled(st, WorkerFinishes(s)) && SendsFine(st.servers[s])
    ensures SendsFine(Finished(st, s))
  {
    var (sv, after) := (st.servers[s], Finished(st, s));
    assert ServerInv(st.nodes, s, sv);
    if sv.phase.Destroying? {
      RequestInHand(st, s);
      G.RemoveLookup(sv.table, sv.phase.reply.globalId, NEXT_SERVER_GLOBAL_ID);
    } else {
      var k :| 0 <= k < |sv.table| && sv.table[k].globalId == NEXT_SERVER_GLOBAL_ID;
      assert after.table[k] == sv.table[k];
    }
  }

  lemma OtherEventsSendFine(st: State, e: Event, s: nat)
    requires Enabled(st, e) && s < |st.servers| && !e.WorkerSends? && !e.WorkerFinishes?
    requires SendsFine(st.servers[s])
    ensures |After(st, e).servers| == |st.servers| && SendsFine(After(st, e).servers[s])
  {
  }

  lemma StepSendsFine(st: State, e: Event, s: nat)
    requires Inv(st) && Enabled(st, e) && s < |st.servers| && SendsFine(st.servers[s])
    ensures |After(st, e).servers| == |st.servers| && SendsFine(After(st, e).servers[s])
  {
    assert ServerInv(st.nodes, s, st.servers[s]);
    if e.WorkerSends? {
      if e.server == s { RoundSendsFine(st.nodes, s, st.servers[s]); }
    } else if e.WorkerFinishes? {
      if e.server == s { FinishSendsFine(st, s); }
    } else {
      OtherEventsSendFine(st, e, s);
    }
  }

  /** A server that was connected to the next one from the start stays so, and no send of its worker ever fails. */
  lemma {:induction false} ConnectedServersSendFine(states: seq<State>, events: seq<Event>, i: nat, s: nat)
    requires IsRun(states, events) && i < |states| && s < |states[0].servers|
    requires G.Has(states[0].servers[s].table, NEXT_SERVER_GLOBAL_ID)
    ensures |states[i].servers| == |states[0].servers| && SendsFine(states[i].servers[s])
  {
    if i > 0 {
      ConnectedServersSendFine(states, events, i - 1, s);
      RunsAreSafe(states, events, i - 1);
      StepSendsFine(states[i - 1], events[i - 1], s);
    }
  }

  // ---- Answers ----

  lemma StartAnswers(st: State, s: nat, id: int)
    requires Inv(st) && Enabled(st, WorkerStarts(s, id)) && st.servers[s].workerQueue[0].msg.kind == SUBSCRIBE
    ensures var t := st.servers[s].workerQueue[0];
            exists m: Msg :: m.kind == ACK_OK && m.globalId == t.msg.mtype
                        && Queues(st, After(st, WorkerStarts(s, id)), s, t.node, Tagged(m, t.node, t.client))
  {
    var (sv, t) := (st.servers[s], st.servers[s].workerQueue[0]);
    NextRequest(st, s);
    var m := LookedReply(sv.table, st.files.users.Keys, t.msg, ACK_OK);
    assert Queues(st, After(st, WorkerStarts(s, id)), s, t.node, Tagged(m, t.node, t.client));
  }

  /** A SUBSCRIBE is acknowledged as soon as it is taken up. */
  lemma SubscribeIsAcknowledged(states: seq<State>, events: seq<Event>, i: nat)
    requires IsRun(states, events) && i < |events| && events[i].WorkerStarts?
    requires states[i].servers[events[i].server].workerQueue[0].msg.kind == SUBSCRIBE
    ensures var (st, s) := (states[i], events[i].server);
            var t := st.servers[s].workerQueue[0];
            exists m: Msg :: m.kind == ACK_OK && m.globalId == t.msg.mtype
                        && Queues(st, states[i + 1], s, t.node, Tagged(m, t.node, t.client))
  {
    RunsAreSafe(states, events, i);
    StartAnswers(states[i], events[i].server, events[i].id);
  }

  lemma FinishAnswers(st: State, s: nat)
    requires Inv(st) && Enabled(st, WorkerFinishes(s)) && !IsRelay(st.servers[s].phase.request)
    requires SendsFine(st.servers[s])
    ensures var t := st.servers[s].phase.request;
            exists m: Msg, c: int :: m.kind == AnswerKind(t.msg.kind, CreateFails(st, WorkerFinishes(s)))
                           && (t.msg.kind != CREATE ==> c == t.client)
                           && Queues(st, After(st, WorkerFinishes(s)), s, t.node, Tagged(m, t.node, c))
  {
    var (sv, next) := (st.servers[s], After(st, WorkerFinishes(s)));
    assert ServerInv(st.nodes, s, sv);
    var t := sv.phase.request;
    if sv.phase.Creating? {
      var m := CreateReply(sv.table, t.msg, sv.phase.id);
      var c := if m.kind == ACK_CREATE then OwnerOf(st.nodes, sv) else NOBODY;
      assert Queues(st, next, s, t.node, Tagged(m, t.node, c));
    } else if sv.phase.Destroying? {
      assert Queues(st, next, s, t.node, Tagged(sv.phase.reply, t.node, t.client));
    } else {
      assert Queues(st, next, s, t.node, Tagged(sv.phase.looked.(kind := ACK_OK), t.node, t.client));
    }
  }

  /** A connected server acknowledges every CREATE, PUBLISH and DESTROY of a client with success,
      unless it is a CREATE that finds the table full. */
  lemma RequestsAreAcknowledged(states: seq<State>, events: seq<Event>, i: nat)
    requires IsRun(states, events) && i < |events| && events[i].WorkerFinishes?
    requires events[i].server < |states[0].servers|
    requires G.Has(states[0].servers[events[i].server].table, NEXT_SERVER_GLOBAL_ID)
    requires !IsRelay(states[i].servers[events[i].server].phase.request)
    ensures var (st, s) := (states[i], events[i].server);
            var t := st.servers[s].phase.request;
            exists m: Msg, c: int :: m.kind == AnswerKind(t.msg.kind, CreateFails(st, events[i]))
                           && (t.msg.kind != CREATE ==> c == t.client)
                           && Queues(st, states[i + 1], s, t.node, Tagged(m, t.node, c))
  {
    RunsAreSafe(states, events, i);
    ConnectedServersSendFine(states, events, i, events[i].server);
    FinishAnswers(states[i], events[i].server);
  }
}
