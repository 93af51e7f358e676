/** The messages that wait for a client: whatever is put in is handed out once, in order. */
module Inbox {
  import opened Messages
  import L = LocalIds
  import opened Node
  import opened Connection
  import opened Pipeline
  import opened System
  import opened SystemInvariant
  import opened NodeSteps
  import opened Safety
  import opened Journal
  import opened Publications

  /** A published message as its client gets to see it. */
  function AsShown(m: Msg, c: int): Msg {
    m.(mtype := c, kind := ACK_OK)
  }

  function AllShown(inbox: seq<Tagged>, c: int): seq<Msg> {
    seq(|inbox|, k requires 0 <= k < |inbox| => AsShown(inbox[k].msg, c))
  }

  /** The published message that a node takes in for its client `c`, the owner of the id it is addressed to. */
  function PutInBy(st: State, e: Event, n: nat, c: int): seq<Msg> {
    if e == NodeHandlesReply(n) && n < |st.nodes| && st.nodes[n].down != [] then
      var m := st.nodes[n].down[0].msg;
      if m.kind == PUBLISH && L.LocalOf(st.nodes[n].ids, m.mtype) == c then [AsShown(m, c)] else []
    else []
  }

  /** The published message that client `c` gets in answer to a RECEIVE. */
  function GotBy(asked: map<Holder, Msg>, st: State, e: Event, n: nat, c: int): seq<Msg> {
    if e == ClientReceives(n, c) && n < |st.nodes| then HandedOut(asked, st.nodes[n], n, c) else []
  }

  /** The answer to a RECEIVE that the client has not read yet, if it holds a message. */
  function HandedOut(asked: map<Holder, Msg>, b: Broker, n: int, c: int): seq<Msg> {
    var q := QueueOf(b.replies, c);
    if q != [] && AskedFor(asked, n, c, RECEIVE) && q[0].msg.kind == ACK_OK then [q[0].msg] else []
  }

  /** What is still to come for client `c` of node `n`. */
  function Due(asked: map<Holder, Msg>, b: Broker, n: int, c: int): seq<Msg> {
    HandedOut(asked, b, n, c) + AllShown(QueueOf(b.incoming, c), c)
  }

  /** The event takes from the front of what is due and adds at its end. */
  ghost predicate Passes(asked: map<Holder, Msg>, st: State, e: Event, n: nat, c: int)
    requires Enabled(st, e) && n < |st.nodes|
  {
    && n < |After(st, e).nodes|
    && GotBy(asked, st, e, n, c) + Due(Noting(asked, e), After(st, e).nodes[n], n, c)
       == Due(asked, st.nodes[n], n, c) + PutInBy(st, e, n, c)
  }

  // ---- Events ----

  /** A client with a request on its way has no reply waiting, and one that reads a reply has no other. */
  lemma OneReply(st: State, n: nat, c: int)
    requires Inv(st) && n < |st.nodes| && c > 0
    ensures |QueueOf(st.nodes[n].replies, c)| <= 1
    ensures c !in st.nodes[n].waiting ==> QueueOf(st.nodes[n].replies, c) == []
    ensures (exists k :: 0 <= k < |st.nodes[n].requests| && st.nodes[n].requests[k].client == c)
            ==> QueueOf(st.nodes[n].replies, c) == []
  {
    ViewIsOk(st, n);
    var (b, v) := (st.nodes[n], ViewAt(st, n));
    assert InFlight(v, c) <= 1;
    if k :| 0 <= k < |b.requests| && b.requests[k].client == c { MineAt(v.requests, k); }
  }

  /** Nothing changes for a client whose queues stay as they are. */
  lemma UntouchedPasses(asked: map<Holder, Msg>, st: State, e: Event, n: nat, c: int)
    requires Enabled(st, e) && n < |st.nodes| && n < |After(st, e).nodes|
    requires GotBy(asked, st, e, n, c) == [] && PutInBy(st, e, n, c) == []
    requires Due(Noting(asked, e), After(st, e).nodes[n], n, c) == Due(asked, st.nodes[n], n, c)
    ensures Passes(asked, st, e, n, c)
  {
    var due := Due(asked, st.nodes[n], n, c);
    assert [] + due == due + [];
  }

  lemma SameDue(asked: map<Holder, Msg>, e: Event, b: Broker, after: Broker, n: nat, c: int)
    requires QueueOf(after.replies, c) == QueueOf(b.replies, c) && QueueOf(after.incoming, c) == QueueOf(b.incoming, c)
    requires e.ClientSends? && e.node == n && e.request.client == c ==> QueueOf(b.replies, c) == []
    ensures Due(Noting(asked, e), after, n, c) == Due(asked, b, n, c)
  {
  }

  lemma SendingPasses(asked: map<Holder, Msg>, st: State, m: nat, t: Tagged, n: nat, c: int)
    requires Inv(st) && Enabled(st, ClientSends(m, t)) && n < |st.nodes| && c > 0
    ensures Passes(asked, st, ClientSends(m, t), n, c)
  {
    if m == n && t.client == c { OneReply(st, n, c); }
    SameDue(asked, ClientSends(m, t), st.nodes[n], After(st, ClientSends(m, t)).nodes[n], n, c);
    UntouchedPasses(asked, st, ClientSends(m, t), n, c);
  }

  /** A RECEIVE moves the oldest message from the inbox into the answer. */
  lemma ReceivedDue(asked: map<Holder, Msg>, b: Broker, n: int, c: int)
    requires b.requests != [] && b.requests[0].msg.mtype == b.requests[0].client == c
    requires Handling(b).Answer? && AskedFor(asked, n, c, RECEIVE) && QueueOf(b.replies, c) == []
    ensures Due(asked, HandleRequest(b), n, c) == Due(asked, b, n, c)
  {
    var (before, after) := (QueueOf(b.incoming, c), QueueOf(HandleRequest(b).incoming, c));
    if before != [] {
      assert after == before[1..];
      assert HandedOut(asked, HandleRequest(b), n, c) == [AsShown(before[0].msg, c)];
      assert AllShown(before, c) == [AsShown(before[0].msg, c)] + AllShown(after, c);
    }
  }

  lemma HandledDue(asked: map<Holder, Msg>, b: Broker, n: int, c: int)
    requires b.requests != [] && b.requests[0].msg.mtype == b.requests[0].client
    requires IsAsked(asked, n, b.requests[0]) && QueueOf(b.replies, b.requests[0].client) == []
    ensures Due(asked, HandleRequest(b), n, c) == Due(asked, b, n, c)
  {
    if Handling(b).Answer? && b.requests[0].client == c {
      ReceivedDue(asked, b, n, c);
    } else {
      var after := HandleRequest(b);
      assert QueueOf(after.replies, c) == QueueOf(b.replies, c) && QueueOf(after.incoming, c) == QueueOf(b.incoming, c);
    }
  }

  lemma HandlingPasses(asked: map<Holder, Msg>, st: State, n: nat, c: int)
    requires Inv(st) && Enabled(st, NodeHandlesRequest(n)) && Agrees(asked, st, n) && c > 0
    ensures Passes(asked, st, NodeHandlesRequest(n), n, c)
  {
    var t := st.nodes[n].requests[0];
    RequestIsFromClient(st, n);
    assert ViewAt(st, n).requests[0] == t && IsAsked(asked, n, t);
    OneReply(st, n, t.client);
    HandledDue(asked, st.nodes[n], n, c);
    assert Due(asked, st.nodes[n], n, c) + [] == Due(asked, st.nodes[n], n, c);
  }

  /** A published message joins the inbox of the owner of its id. */
  lemma ArrivedDue(asked: map<Holder, Msg>, b: Broker, n: int, c: int)
    requires b.down != [] && b.down[0].msg.kind == PUBLISH && c > 0
    requires L.LocalOf(b.ids, b.down[0].msg.mtype) == c
    ensures Due(asked, HandleReply(b), n, c) == Due(asked, b, n, c) + [AsShown(b.down[0].msg, c)]
  {
    var (t, before, after) := (b.down[0], QueueOf(b.incoming, c), HandleReply(b));
    assert after.replies == b.replies;
    assert QueueOf(after.incoming, c) == before + [t.(msg := Respond(b.ids, t.msg).1)];
    assert AllShown(QueueOf(after.incoming, c), c) == AllShown(before, c) + [AsShown(t.msg, c)];
  }

  /** An answer from the server is not for a RECEIVE. */
  lemma RespondedDue(asked: map<Holder, Msg>, b: Broker, n: int, c: int)
    requires b.down != []
    requires var (t, m) := (b.down[0].msg, Respond(b.ids, b.down[0].msg).1);
             m.mtype == c ==> t.kind != PUBLISH && !AskedFor(asked, n, c, RECEIVE)
    ensures Due(asked, HandleReply(b), n, c) == Due(asked, b, n, c)
  {
    var after := HandleReply(b);
    assert QueueOf(after.incoming, c) == QueueOf(b.incoming, c);
    if Respond(b.ids, b.down[0].msg).1.mtype != c { assert QueueOf(after.replies, c) == QueueOf(b.replies, c); }
  }

  /** The node readdresses a message from the server to its client, which is not waiting for a RECEIVE. */
  lemma NextFromServer(asked: map<Holder, Msg>, st: State, n: nat, c: int)
    requires Inv(st) && n < |st.nodes| && st.nodes[n].down != [] && Agrees(asked, st, n) && c > 0
    ensures var (t, m) := (st.nodes[n].down[0], Respond(st.nodes[n].ids, st.nodes[n].down[0].msg).1);
            m.mtype == c ==> t.client == c && (t.msg.kind == PUBLISH || !AskedFor(asked, n, c, RECEIVE))
  {
    var t := st.nodes[n].down[0];
    assert ViewAt(st, n).down[0] == t;
    assert AnsweringFromServer(asked, n, t);
    HeadGoesToItsClient(st, n);
  }

  lemma RespondingPasses(asked: map<Holder, Msg>, st: State, n: nat, c: int)
    requires Inv(st) && Enabled(st, NodeHandlesReply(n)) && Agrees(asked, st, n) && c > 0
    ensures Passes(asked, st, NodeHandlesReply(n), n, c)
  {
    NextFromServer(asked, st, n, c);
    TakenInPasses(asked, st, n, c);
  }

  lemma TakenInPasses(asked: map<Holder, Msg>, st: State, n: nat, c: int)
    requires Enabled(st, NodeHandlesReply(n)) && c > 0
    requires var (t, m) := (st.nodes[n].down[0], Respond(st.nodes[n].ids, st.nodes[n].down[0].msg).1);
             m.mtype == c ==> t.msg.kind == PUBLISH || !AskedFor(asked, n, c, RECEIVE)
    ensures Passes(asked, st, NodeHandlesReply(n), n, c)
  {
    var (b, t) := (st.nodes[n], st.nodes[n].down[0]);
    if t.msg.kind == PUBLISH && L.LocalOf(b.ids, t.msg.mtype) == c {
      ArrivedDue(asked, b, n, c);
    } else {
      RespondedDue(asked, b, n, c);
      UntouchedPasses(asked, st, NodeHandlesReply(n), n, c);
    }
  }

  lemma CollectedDue(asked: map<Holder, Msg>, b: Broker, after: Broker, n: int, c: int)
    requires |QueueOf(b.replies, c)| == 1 && QueueOf(after.replies, c) == [] && after.incoming == b.incoming
    ensures HandedOut(asked, b, n, c) + Due(asked, after, n, c) == Due(asked, b, n, c)
  {
    assert HandedOut(asked, after, n, c) == [];
  }

  lemma CollectingPasses(asked: map<Holder, Msg>, st: State, m: nat, d: int, n: nat, c: int)
    requires Inv(st) && Enabled(st, ClientReceives(m, d)) && n < |st.nodes| && c > 0
    ensures Passes(asked, st, ClientReceives(m, d), n, c)
  {
    var (b, after) := (st.nodes[n], After(st, ClientReceives(m, d)).nodes[n]);
    if m == n && d == c {
      OneReply(st, n, c);
      CollectedDue(asked, b, after, n, c);
    } else {
      assert QueueOf(after.replies, c) == QueueOf(b.replies, c) && after.incoming == b.incoming;
    }
    assert Due(asked, b, n, c) + [] == Due(asked, b, n, c);
  }

  lemma OthersPass(asked: map<Holder, Msg>, st: State, e: Event, n: nat, c: int)
    requires Enabled(st, e) && n < |st.nodes|
    requires !e.ClientSends? && !e.ClientReceives?
    requires (e.NodeHandlesRequest? || e.NodeHandlesReply?) ==> e.node != n
    ensures Passes(asked, st, e, n, c)
  {
    SameDue(asked, e, st.nodes[n], After(st, e).nodes[n], n, c);
    UntouchedPasses(asked, st, e, n, c);
  }

  lemma StepPasses(asked: map<Holder, Msg>, st: State, e: Event, n: nat, c: int)
    requires Inv(st) && Enabled(st, e) && Agrees(asked, st, n) && c > 0
    ensures Passes(asked, st, e, n, c)
  {
    match e
    case ClientSends(m, t) => SendingPasses(asked, st, m, t, n, c);
    case ClientReceives(m, d) => CollectingPasses(asked, st, m, d, n, c);
    case NodeHandlesRequest(m) =>
      if m == n { HandlingPasses(asked, st, n, c); } else { OthersPass(asked, st, e, n, c); }
    case NodeHandlesReply(m) =>
      if m == n { RespondingPasses(asked, st, n, c); } else { OthersPass(asked, st, e, n, c); }
    case _ => OthersPass(asked, st, e, n, c);
  }

  // ---- Runs ----

  /** The messages put in for client `c` of node `n` by the first `j` events, in order. */
  function PutIn(states: seq<State>, events: seq<Event>, j: nat, n: nat, c: int): seq<Msg>
    requires j <= |events| < |states|
  {
    if j == 0 then [] else PutIn(states, events, j - 1, n, c) + PutInBy(states[j - 1], events[j - 1], n, c)
  }

  /** The messages that client `c` of node `n` has got for its RECEIVEs, in order. */
  function Got(states: seq<State>, events: seq<Event>, j: nat, n: nat, c: int): seq<Msg>
    requires j <= |events| < |states|
  {
    if j == 0 then []
    else Got(states, events, j - 1, n, c) + GotBy(AskedIn(events, j - 1), states[j - 1], events[j - 1], n, c)
  }

  lemma {:induction false} PassesAddUp(states: seq<State>, events: seq<Event>, j: nat, n: nat, c: int)
    requires j <= |events| < |states| && (forall i | 0 <= i <= j :: n < |states[i].nodes|)
    requires forall i | 0 <= i < j ::
               && Enabled(states[i], events[i]) && states[i + 1] == After(states[i], events[i])
               && Passes(AskedIn(events, i), states[i], events[i], n, c)
    requires Due(AskedIn(events, 0), states[0].nodes[n], n, c) == []
    ensures PutIn(states, events, j, n, c)
         == Got(states, events, j, n, c) + Due(AskedIn(events, j), states[j].nodes[n], n, c)
  {
    if j > 0 {
      PassesAddUp(states, events, j - 1, n, c);
      assert Passes(AskedIn(events, j - 1), states[j - 1], events[j - 1], n, c);
      Shifted(Got(states, events, j - 1, n, c), Due(AskedIn(events, j - 1), states[j - 1].nodes[n], n, c),
              PutInBy(states[j - 1], events[j - 1], n, c),
              GotBy(AskedIn(events, j - 1), states[j - 1], events[j - 1], n, c),
              Due(AskedIn(events, j), states[j].nodes[n], n, c));
    }
  }

  lemma Shifted<T>(got: seq<T>, due: seq<T>, put: seq<T>, more: seq<T>, next: seq<T>)
    requires more + next == due + put
    ensures (got + due) + put == (got + more) + next
  {
    assert (got + due) + put == got + (due + put);
    assert (got + more) + next == got + (more + next);
  }

  lemma EventPasses(states: seq<State>, events: seq<Event>, i: nat, n: nat, c: int)
    requires IsRun(states, events) && i < |events| && n < |states[i].nodes| && c > 0
    ensures Passes(AskedIn(events, i), states[i], events[i], n, c)
  {
    RunsAreSafe(states, events, i);
    RunsAgree(states, events, i, n);
    StepPasses(AskedIn(events, i), states[i], events[i], n, c);
  }

  lemma {:induction false} NodesStay(states: seq<State>, events: seq<Event>, j: nat)
    requires IsRun(states, events) && j <= |events|
    ensures forall i | 0 <= i <= j :: |states[i].nodes| == |states[j].nodes|
  {
    if j > 0 {
      SameNodes(states[j - 1], events[j - 1]);
      NodesStay(states, events, j - 1);
    }
  }

  /** In every run, the messages put in for a client are those it has got, the one in an answer that it has not read
      yet, and those in its inbox, in this order: each is handed out once and none is skipped. */
  lemma EachIsHandedOutOnce(states: seq<State>, events: seq<Event>, j: nat, n: nat, c: int)
    requires IsRun(states, events) && j <= |events| && n < |states[j].nodes| && c > 0
    ensures PutIn(states, events, j, n, c)
         == Got(states, events, j, n, c) + (HandedOut(AskedIn(events, j), states[j].nodes[n], n, c)
                                            + AllShown(QueueOf(states[j].nodes[n].incoming, c), c))
  {
    NodesStay(states, events, j);
    assert states[0].nodes[n].replies == map[] && states[0].nodes[n].incoming == map[];
    forall i | 0 <= i < j ensures Passes(AskedIn(events, i), states[i], events[i], n, c) {
      EventPasses(states, events, i, n, c);
    }
    PassesAddUp(states, events, j, n, c);
  }

  predicate AllPublished(messages: seq<Msg>, published: set<Content>) {
    forall k | 0 <= k < |messages| :: ContentOf(messages[k]) in published
  }

  /** Every message that a client gets has the topic and text of one that a client published. */
  lemma WhatIsGotWasPublished(states: seq<State>, events: seq<Event>, j: nat, n: nat, c: int)
    requires IsRun(states, events) && j <= |events| && n < |states[j].nodes| && c > 0
    ensures AllPublished(Got(states, events, j, n, c), PublishedIn(events, j))
  {
    EachIsHandedOutOnce(states, events, j, n, c);
    PutInWasPublished(states, events, j, n, c);
    var (put, got) := (PutIn(states, events, j, n, c), Got(states, events, j, n, c));
    assert forall k | 0 <= k < |got| :: got[k] == put[k];
  }

  lemma {:induction false} PutInWasPublished(states: seq<State>, events: seq<Event>, j: nat, n: nat, c: int)
    requires IsRun(states, events) && j <= |events|
    ensures AllPublished(PutIn(states, events, j, n, c), PublishedIn(events, j))
  {
    if j > 0 {
      PutInWasPublished(states, events, j - 1, n, c);
      NothingIsMadeUp(states, events, j - 1);
      TakenInIsGenuine(PublishedIn(events, j - 1), states[j - 1], events[j - 1], n, c);
    }
  }

  lemma TakenInIsGenuine(published: set<Content>, st: State, e: Event, n: nat, c: int)
    requires AllGenuine(published, st)
    ensures AllPublished(PutInBy(st, e, n, c), published)
  {
    if n < |st.nodes| { assert NodeGenuine(published, st.nodes[n]); }
  }

  /** A registered client's RECEIVE is answered at once: with the oldest message in its inbox, which is taken out, or
      with the news that there is none, if and only if the inbox is empty. No other inbox changes. */
  lemma ReceiveTakesTheOldest(states: seq<State>, events: seq<Event>, i: nat, d: int)
    requires IsRun(states, events) && i < |events| && events[i].NodeHandlesRequest?
    requires var b := states[i].nodes[events[i].node];
             b.requests[0].msg.kind == RECEIVE && L.HasLocal(b.ids, b.requests[0].client)
    ensures var (b, after) := (states[i].nodes[events[i].node], states[i + 1].nodes[events[i].node]);
            var c := b.requests[0].client;
            var inbox := QueueOf(b.incoming, c);
            && |QueueOf(after.replies, c)| == 1
            && var answer := QueueOf(after.replies, c)[0];
               && answer.client == c
               && (inbox == [] <==> answer.msg.kind == ACK_NO_MSG)
               && (inbox != [] ==> answer.msg == AsShown(inbox[0].msg, c))
               && QueueOf(after.incoming, d) == if d == c && inbox != [] then inbox[1..] else QueueOf(b.incoming, d)
  {
    var (st, n) := (states[i], events[i].node);
    RunsAreSafe(states, events, i);
    RequestIsFromClient(st, n);
    OneReply(st, n, st.nodes[n].requests[0].client);
  }
}
