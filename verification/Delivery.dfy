/** Exact delivery in runs of the whole system: while tables and files stay as they are, the copies that the workers
    queue for a user are those of the closed form, whatever else happens in between. */
module Delivery {
  import opened Options
  import opened Messages
  import G = GlobalIds
  import opened Db
  import opened DbHandler
  import opened Routing
  import opened Node
  import opened Connection
  import opened System
  import opened SystemInvariant
  import opened ServerSteps
  import opened Safety
  import opened Relays
  import opened RelayBound
  import opened Registrations
  import opened Listings
  import Ring

  function RingOf(servers: seq<Server>): Ring.Servers {
    Ring.Servers(BrokerIdsOf(servers), TablesOf(servers))
  }

  function SubscribersOf(files: Files, topic: Topic): seq<int> {
    FirstClients(LinesOf(files, topic))
  }

  // ---- Copies that are still to come ----

  /** The copies for `u` that a relay will give rise to, with as many hops as it has left. */
  function Promised(r: Ring.Servers, files: Files, u: int): Weight {
    (s: nat, m: Msg) =>
      if s < |r.ids| == |r.tables| && m.brokerId in r.ids
      then Ring.Deliveries(r, SubscribersOf(files, m.topic), s, m, u, HopsTo(s, Place(r.ids, m.brokerId), |r.ids|))
      else 0
  }

  /** The copies for `u` in the remaining rounds of a send loop. */
  function InLoop(sv: Server, u: int): nat {
    if sv.phase.Sending?
    then Ring.CopiesFor(Copies(sv.table, sv.phase.subs, sv.phase.relayed, sv.phase.looked), sv.nextPid, u)
    else 0
  }

  function InLoops(servers: seq<Server>, u: int): seq<nat> {
    seq(|servers|, s requires 0 <= s < |servers| => InLoop(servers[s], u))
  }

  function Outstanding(st: State, u: int): nat {
    Total(Promised(RingOf(st.servers), st.files, u), 0, st.servers) + Added(InLoops(st.servers, u))
  }

  /** One if the event queues a copy for `u`. */
  function CopyFor(st: State, e: Event, u: int): nat {
    if e.WorkerSends? && e.server < |st.servers| && st.servers[e.server].phase.Sending?
       && st.servers[e.server].phase.subs != [] && st.servers[e.server].phase.subs[0] == u
       && RouteOf(st.servers[e.server].table, u, st.servers[e.server].phase.relayed).Copy?
    then 1 else 0
  }

  lemma InLoopChange(servers: seq<Server>, s: nat, sv: Server, u: int)
    requires s < |servers|
    ensures Added(InLoops(servers[s := sv], u)) + InLoop(servers[s], u) == Added(InLoops(servers, u)) + InLoop(sv, u)
  {
    assert InLoops(servers[s := sv], u) == InLoops(servers, u)[s := InLoop(sv, u)];
    AddedChange(InLoops(servers, u), s, InLoop(sv, u));
  }

  // ---- A worker that takes up a PUBLISH ----

  /** What the worker is going to send is one step of the closed form. */
  lemma StartIsStep(st: State, s: nat, id: int, u: int) returns (step: Ring.Outcome)
    requires Inv(st) && Enabled(st, WorkerStarts(s, id)) && G.Has(st.servers[s].table, NEXT_SERVER_GLOBAL_ID)
    requires st.servers[s].workerQueue[0].msg.kind == PUBLISH
    ensures var (sv, m) := (st.servers[s], st.servers[s].workerQueue[0].msg);
            var started := Start(sv, st.files, id).0; var out := StillToRelay(started);
            && step == Ring.Step(RingOf(st.servers), SubscribersOf(st.files, m.topic), s, m, u)
            && step
               == Ring.Outcome(InLoop(started, u), if out == [] then None else Some(out[0].(mtype := out[0].globalId)))
  {
    var sv := st.servers[s];
    var (m, r) := (sv.workerQueue[0].msg, RingOf(st.servers));
    step := Ring.Step(r, SubscribersOf(st.files, m.topic), s, m, u);
    assert ServerInv(st.nodes, s, sv);
    assert r.tables[s] == sv.table && r.ids[s] == sv.brokerId;
    assert Ring.NextPid(sv.table) == sv.nextPid;
    if m.brokerId != sv.brokerId && G.MtypeOf(sv.table, m.mtype) >= 0 {
      if m.brokerId == 0 {
        NextRequest(st, s);
        NextPidIsNoNode(st, s);
      }
      Ring.StepIsCopies(r, SubscribersOf(st.files, m.topic), s, m, u);
    }
  }

  lemma OthersSendNothing(st: State, s: nat, id: int, u: int)
    requires Enabled(st, WorkerStarts(s, id)) && st.servers[s].workerQueue[0].msg.kind != PUBLISH
    ensures var started := Start(st.servers[s], st.files, id).0; InLoop(started, u) == 0 && StillToRelay(started) == []
  {
  }

  /** The copies that a PUBLISH of a client calls for, if the event takes one up. */
  function Called(st: State, e: Event, u: int): nat {
    if StartsFresh(st, e) then
      var m := st.servers[e.server].workerQueue[0].msg;
      Ring.Deliveries(RingOf(st.servers), SubscribersOf(st.files, m.topic), e.server, m, u, |st.servers|)
    else 0
  }

  lemma PromiseOf(r: Ring.Servers, files: Files, s: nat, m: Msg, o: nat, u: int)
    requires |r.tables| == |r.ids| && Ring.DistinctNonzero(r.ids)
    requires s < |r.ids| && o < |r.ids| && m.brokerId == r.ids[o]
    ensures Promised(r, files, u)(s, m)
         == Ring.Deliveries(r, SubscribersOf(files, m.topic), s, m, u, HopsTo(s, o, |r.ids|))
  {
    PlaceOfStamp(r.ids, o);
  }

  /** What the next server gets promised by the relay of a message that has `hops` to go, or a whole round. */
  lemma NextPromise(r: Ring.Servers, files: Files, s: nat, o: nat, hops: nat, relay: Msg, u: int)
    requires |r.tables| == |r.ids| && Ring.DistinctNonzero(r.ids) && s < |r.ids| && o < |r.ids|
    requires hops == if s == o then |r.ids| else HopsTo(s, o, |r.ids|)
    requires relay.brokerId == r.ids[o]
    ensures hops > 0
    ensures Promised(r, files, u)(Ring.Next(s, |r.ids|), relay)
         == Ring.Deliveries(r, SubscribersOf(files, relay.topic), Ring.Next(s, |r.ids|), relay, u, hops - 1)
  {
    HopsAdvance(s, o, |r.ids|);
    PromiseOf(r, files, Ring.Next(s, |r.ids|), relay, o, u);
  }

  lemma StampIsKnown(st: State, s: nat) returns (o: nat)
    requires s < |st.servers| && st.servers[s].workerQueue != [] && IsRelay(st.servers[s].workerQueue[0])
    requires StampsKnown(st.servers)
    ensures o < |st.servers| && BrokerIdsOf(st.servers)[o] == st.servers[s].workerQueue[0].msg.brokerId
  {
    var ids := BrokerIdsOf(st.servers);
    TakenIsUnderWay(Stranger(ids), 0, st, s);
    o :| 0 <= o < |ids| && ids[o] == st.servers[s].workerQueue[0].msg.brokerId;
  }

  /** What the worker takes off its queue, or is called for, is what it will send itself and what it passes on. */
  predicate StartBalanced(w: Weight, s: nat, n: nat, sv: Server, started: Server, called: nat, u: int)
    requires sv.workerQueue != []
  {
    OutLoad(w, 0, Ring.Next(s, n), StillToRelay(started)) + InLoop(started, u)
    == TakenLoad(w, s, sv.workerQueue[0]) + called
  }

  lemma StartDelivers(st: State, s: nat, id: int, u: int)
    requires s < |st.servers| && st.servers[s].workerQueue != [] && Enabled(st, WorkerStarts(s, id))
    requires Inv(st) && StampsKnown(st.servers)
    requires Ring.DistinctNonzero(BrokerIdsOf(st.servers)) && G.Has(st.servers[s].table, NEXT_SERVER_GLOBAL_ID)
    ensures StartBalanced(Promised(RingOf(st.servers), st.files, u), s, |st.servers|, st.servers[s],
                          Start(st.servers[s], st.files, id).0, Called(st, WorkerStarts(s, id), u), u)
  {
    var (r, t) := (RingOf(st.servers), st.servers[s].workerQueue[0]);
    StartRelays(st, s, id);
    OutLoadOfOne(Promised(r, st.files, u), 0, Ring.Next(s, |r.ids|),
                 StillToRelay(Start(st.servers[s], st.files, id).0));
    assert r.ids[s] == st.servers[s].brokerId;
    if t.msg.kind != PUBLISH {
      OthersSendNothing(st, s, id, u);
    } else {
      var step := StartIsStep(st, s, id, u);
      var o := s;
      if IsRelay(t) {
        o := StampIsKnown(st, s);
        PromiseOf(r, st.files, s, t.msg, o, u);
      } else {
        NextRequest(st, s);
      }
      var hops := if IsRelay(t) then HopsTo(s, o, |r.ids|) else |r.ids|;
      Ring.DeliveriesAtOnce(r, SubscribersOf(st.files, t.msg.topic), s, t.msg, u, hops, step);
      if step.relay.Some? { NextPromise(r, st.files, s, o, hops, step.relay.value, u); }
    }
  }

  // ---- Every event ----

  predicate SameTables(st: State, next: State) {
    next.files == st.files && RingOf(next.servers) == RingOf(st.servers)
  }

  lemma RoundSends(nodes: seq<Broker>, s: int, sv: Server, u: int)
    requires ServerInv(nodes, s, sv) && sv.phase.Sending? && sv.phase.subs != [] && u > 0
    requires forall n | FromNode(nodes, s, n) :: nodes[n].pid != sv.nextPid
    ensures InLoop(sv, u) == InLoop(Send(sv), u)
            + if sv.phase.subs[0] == u && RouteOf(sv.table, u, sv.phase.relayed).Copy? then 1 else 0
  {
    var p := sv.phase;
    match RouteOf(sv.table, p.subs[0], p.relayed)
    case Copy(pid) => HasIsRegistered(nodes, s, sv, p.subs[0]);
    case Relay(pid) => G.HasIndex(sv.table, NEXT_SERVER_GLOBAL_ID);
    case Skip =>
    case Fail =>
  }

  lemma FinishedSendsNothing(sv: Server, owner: int, u: int)
    requires CanFinish(sv.phase)
    ensures InLoop(sv, u) == 0 == InLoop(Finish(sv, owner), u)
  {
  }

  lemma OtherEventsKeepLoops(st: State, e: Event, u: int)
    requires Enabled(st, e) && !e.WorkerStarts? && !e.WorkerSends? && !e.WorkerFinishes?
    ensures InLoops(After(st, e).servers, u) == InLoops(st.servers, u)
  {
    var after := After(st, e).servers;
    assert |after| == |st.servers|;
    forall s | 0 <= s < |after| ensures InLoop(after[s], u) == InLoop(st.servers[s], u) {
    }
  }

  /** The loops give up one copy for each that is queued. */
  lemma StepLoops(st: State, e: Event, u: int)
    requires Inv(st) && Enabled(st, e) && u > 0
    ensures CopyFor(st, e, u) + Added(InLoops(After(st, e).servers, u))
            == Added(InLoops(st.servers, u))
               + if e.WorkerStarts? then InLoop(Start(st.servers[e.server], st.files, e.id).0, u) else 0
  {
    if e.WorkerStarts? {
      InLoopChange(st.servers, e.server, Start(st.servers[e.server], st.files, e.id).0, u);
    } else if e.WorkerSends? {
      NextPidIsNoNode(st, e.server);
      RoundSends(st.nodes, e.server, st.servers[e.server], u);
      InLoopChange(st.servers, e.server, Send(st.servers[e.server]), u);
    } else if e.WorkerFinishes? {
      FinishedSendsNothing(st.servers[e.server], OwnerOf(st.nodes, st.servers[e.server]), u);
      InLoopChange(st.servers, e.server, Finished(st, e.server), u);
    } else {
      OtherEventsKeepLoops(st, e, u);
    }
  }

  /** A copy that is queued was still to come before, and only a PUBLISH of a client calls for new ones. */
  lemma StepDelivers(st: State, e: Event, u: int)
    requires Inv(st) && Enabled(st, e) && StampsKnown(st.servers) && u > 0
    requires Ring.DistinctNonzero(BrokerIdsOf(st.servers))
    requires forall s | 0 <= s < |st.servers| :: G.Has(st.servers[s].table, NEXT_SERVER_GLOBAL_ID)
    requires SameTables(st, After(st, e))
    ensures CopyFor(st, e, u) + Outstanding(After(st, e), u) == Outstanding(st, u) + Called(st, e, u)
  {
    StepLoad(Promised(RingOf(st.servers), st.files, u), 0, st, e);
    StepLoops(st, e, u);
    if e.WorkerStarts? { StartDelivers(st, e.server, e.id, u); }
  }

  // ---- Runs ----

  /** The tables and the files stay as they are from state `i` to state `j`. */
  ghost predicate Frozen(states: seq<State>, i: nat, j: nat)
    requires i <= j < |states|
  {
    forall k | i <= k <= j :: SameTables(states[i], states[k])
  }

  /** The copies queued for `u` from state `i` to state `j`. */
  function CopiesQueued(states: seq<State>, events: seq<Event>, i: nat, j: nat, u: int): nat
    requires i <= j <= |events| < |states|
  {
    if j == i then 0 else CopiesQueued(states, events, i, j - 1, u) + CopyFor(states[j - 1], events[j - 1], u)
  }

  /** What one event adds to the copies due to `u`: a PUBLISH reaches `u` as often as the lines that the server reads,
      the first fifty, list it, or not at all. */
  ghost function Due(st: State, e: Event, u: int): nat {
    if StartsFresh(st, e) then
      var subs := SubscribersOf(st.files, st.servers[e.server].workerQueue[0].msg.topic);
      if Ring.ServedFrom(RingOf(st.servers), subs, e.server, 0, u) then Times(subs, u) else 0
    else 0
  }

  ghost function CopiesDue(states: seq<State>, events: seq<Event>, i: nat, j: nat, u: int): nat
    requires i <= j <= |events| < |states|
  {
    if j == i then 0 else CopiesDue(states, events, i, j - 1, u) + Due(states[j - 1], events[j - 1], u)
  }

  lemma CalledIsDue(st: State, e: Event, u: int)
    requires Inv(st) && Enabled(st, e) && Ring.IsRing(RingOf(st.servers)) && u > 0
    ensures Called(st, e, u) == Due(st, e, u)
  {
    if StartsFresh(st, e) {
      var m := st.servers[e.server].workerQueue[0].msg;
      NextRequest(st, e.server);
      TopicIdsPositive(st, m.topic);
      G.MtypeIffHas(st.servers[e.server].table, m.mtype);
      Ring.ExactDelivery(RingOf(st.servers), SubscribersOf(st.files, m.topic), e.server, m, u, |st.servers|);
    }
  }

  lemma EventDelivers(states: seq<State>, events: seq<Event>, i: nat, u: int)
    requires IsRun(states, events) && i < |events| && u > 0
    requires Ring.IsRing(RingOf(states[i].servers)) && SameTables(states[i], states[i + 1])
    ensures CopyFor(states[i], events[i], u) + Outstanding(states[i + 1], u)
            == Outstanding(states[i], u) + Due(states[i], events[i], u)
  {
    var (st, e) := (states[i], events[i]);
    RunsAreSafe(states, events, i);
    StampsAreKnown(states, events, i);
    forall s | 0 <= s < |st.servers| ensures G.Has(st.servers[s].table, NEXT_SERVER_GLOBAL_ID) {
      Ring.ConnectedAt(RingOf(st.servers).tables, s);
    }
    StepDelivers(st, e, u);
    CalledIsDue(st, e, u);
  }

  /** Event `k` moves copies from those still to come to those queued. */
  ghost predicate Balanced(states: seq<State>, events: seq<Event>, k: nat, u: int)
    requires k < |events| < |states|
  {
    CopyFor(states[k], events[k], u) + Outstanding(states[k + 1], u)
    == Outstanding(states[k], u) + Due(states[k], events[k], u)
  }

  lemma {:induction false} BalancesAddUp(states: seq<State>, events: seq<Event>, i: nat, j: nat, u: int)
    requires i <= j <= |events| < |states| && forall k | i <= k < j :: Balanced(states, events, k, u)
    ensures CopiesQueued(states, events, i, j, u) + Outstanding(states[j], u)
            == Outstanding(states[i], u) + CopiesDue(states, events, i, j, u)
  {
    if i < j {
      BalancesAddUp(states, events, i, j - 1, u);
      assert Balanced(states, events, j - 1, u);
    }
  }

  lemma FrozenEvent(states: seq<State>, events: seq<Event>, i: nat, j: nat, k: nat, u: int)
    requires IsRun(states, events) && i <= k < j <= |events| && u > 0
    requires Frozen(states, i, j) && Ring.IsRing(RingOf(states[i].servers))
    ensures Balanced(states, events, k, u)
  {
    assert SameTables(states[i], states[k]) && SameTables(states[i], states[k + 1]);
    EventDelivers(states, events, k, u);
  }

  /** While the tables and the files stay as they are, the copies queued for a user and those still to come are exactly
      the copies due for the PUBLISHes taken up and those that were still to come before. */
  lemma DeliveryIsExact(states: seq<State>, events: seq<Event>, i: nat, j: nat, u: int)
    requires IsRun(states, events) && i <= j <= |events| && u > 0
    requires Frozen(states, i, j) && Ring.IsRing(RingOf(states[i].servers))
    ensures CopiesQueued(states, events, i, j, u) + Outstanding(states[j], u)
            == Outstanding(states[i], u) + CopiesDue(states, events, i, j, u)
  {
    forall k | i <= k < j ensures Balanced(states, events, k, u) {
      FrozenEvent(states, events, i, j, k, u);
    }
    BalancesAddUp(states, events, i, j, u);
  }

  /** No published message is being sent, or travels between servers. */
  predicate Quiet(servers: seq<Server>) {
    forall s | 0 <= s < |servers| ::
      && !servers[s].phase.Sending? && servers[s].ring == [] && QueueOf(servers[s].respQueue, servers[s].nextPid) == []
      && forall k | 0 <= k < |servers[s].workerQueue| :: !IsRelay(servers[s].workerQueue[k])
  }

  lemma {:induction false} NoRelaysNoLoad(w: Weight, s: nat, ts: seq<Tagged>)
    requires forall k | 0 <= k < |ts| :: !IsRelay(ts[k])
    ensures WorkLoad(w, s, ts) == 0
  {
    if ts != [] { NoRelaysNoLoad(w, s, ts[1..]); }
  }

  lemma QuietOwesNothing(st: State, u: int)
    requires Quiet(st.servers)
    ensures Outstanding(st, u) == 0
  {
    var w := Promised(RingOf(st.servers), st.files, u);
    forall s | 0 <= s < |st.servers| ensures ServerLoad(w, 0, |st.servers|, s, st.servers[s]) == 0 {
      NoRelaysNoLoad(w, s, st.servers[s].workerQueue);
      assert MsgsOf(QueueOf(st.servers[s].respQueue, st.servers[s].nextPid)) == [];
    }
    NothingUnderWay(Loads(w, 0, st.servers));
    NothingUnderWay(InLoops(st.servers, u));
  }

  /** From one quiet state to another, a user gets exactly the copies due. */
  lemma QuietRunsDeliverExactly(states: seq<State>, events: seq<Event>, i: nat, j: nat, u: int)
    requires IsRun(states, events) && i <= j <= |events| && u > 0
    requires Frozen(states, i, j) && Ring.IsRing(RingOf(states[i].servers))
    requires Quiet(states[i].servers) && Quiet(states[j].servers)
    ensures CopiesQueued(states, events, i, j, u) == CopiesDue(states, events, i, j, u)
  {
    DeliveryIsExact(states, events, i, j, u);
    QuietOwesNothing(states[i], u);
    QuietOwesNothing(states[j], u);
  }

  // ---- Copies due and copies listed ----

  /** What one event adds to the copies that topic files list for `u`: a PUBLISH counts as often as its topic
      lists it. */
  function Listing(st: State, e: Event, u: int): nat {
    if StartsFresh(st, e) then Listed(st.files, st.servers[e.server].workerQueue[0].msg.topic, u) else 0
  }

  function CopiesListed(states: seq<State>, events: seq<Event>, i: nat, j: nat, u: int): nat
    requires i <= j <= |events| < |states|
  {
    if j == i then 0 else CopiesListed(states, events, i, j - 1, u) + Listing(states[j - 1], events[j - 1], u)
  }

  /** If the event takes up a PUBLISH, its topic does not list `u`, or it lists `u` on the first fifty lines only
      and relays reach the server of `u`. */
  ghost predicate GetsAll(st: State, e: Event, u: int) {
    StartsFresh(st, e) ==>
      var lines := LinesOf(st.files, st.servers[e.server].workerQueue[0].msg.topic);
      u !in lines || (Ring.ServedFrom(RingOf(st.servers), FirstClients(lines), e.server, 0, u) && u !in Unread(lines))
  }

  /** The event takes up a PUBLISH whose topic lists `u` past the first fifty lines. */
  predicate PastFifty(st: State, e: Event, u: int) {
    StartsFresh(st, e) && u in Unread(LinesOf(st.files, st.servers[e.server].workerQueue[0].msg.topic))
  }

  lemma DueIsListedIff(st: State, e: Event, u: int)
    ensures Due(st, e, u) <= Listing(st, e, u)
    ensures Due(st, e, u) == Listing(st, e, u) <==> GetsAll(st, e, u)
  {
    if StartsFresh(st, e) { ListingsSplit(LinesOf(st.files, st.servers[e.server].workerQueue[0].msg.topic), u); }
  }

  lemma {:induction false} DuesAddUp(states: seq<State>, events: seq<Event>, i: nat, j: nat, u: int)
    requires i <= j <= |events| < |states|
    ensures CopiesDue(states, events, i, j, u) <= CopiesListed(states, events, i, j, u)
    ensures CopiesDue(states, events, i, j, u) == CopiesListed(states, events, i, j, u)
            <==> forall k | i <= k < j :: GetsAll(states[k], events[k], u)
  {
    if i < j {
      DuesAddUp(states, events, i, j - 1, u);
      DueIsListedIff(states[j - 1], events[j - 1], u);
    }
  }

  /** From one quiet state to another, a user gets a copy for each time that a published topic lists it if and only if
      each topic lists it on its first fifty lines only, and relays reach its server, or does not list it at all. */
  lemma QuietRunsDeliverAllIff(states: seq<State>, events: seq<Event>, i: nat, j: nat, u: int)
    requires IsRun(states, events) && i <= j <= |events| && u > 0
    requires Frozen(states, i, j) && Ring.IsRing(RingOf(states[i].servers))
    requires Quiet(states[i].servers) && Quiet(states[j].servers)
    ensures CopiesQueued(states, events, i, j, u) <= CopiesListed(states, events, i, j, u)
    ensures CopiesQueued(states, events, i, j, u) == CopiesListed(states, events, i, j, u)
            <==> forall k | i <= k < j :: GetsAll(states[k], events[k], u)
  {
    QuietRunsDeliverExactly(states, events, i, j, u);
    DuesAddUp(states, events, i, j, u);
  }

  // ---- Two servers ----

  /** What one event adds to the copies that are never sent, because the lines are not read. */
  function Missed(st: State, e: Event, u: int): nat {
    if StartsFresh(st, e)
    then Times(Unread(LinesOf(st.files, st.servers[e.server].workerQueue[0].msg.topic)), u) else 0
  }

  function CopiesMissed(states: seq<State>, events: seq<Event>, i: nat, j: nat, u: int): nat
    requires i <= j <= |events| < |states|
  {
    if j == i then 0 else CopiesMissed(states, events, i, j - 1, u) + Missed(states[j - 1], events[j - 1], u)
  }

  /** Two servers whose tables hold every listed id serve everybody whom they read. */
  lemma PairServesWhomItReads(st: State, e: Event, u: int)
    requires Inv(st) && ListedInv(st) && Enabled(st, e) && u > 0
    requires Ring.IsRing(RingOf(st.servers)) && |st.servers| == 2
    ensures Due(st, e, u) + Missed(st, e, u) == Listing(st, e, u)
    ensures Missed(st, e, u) == 0 <==> !PastFifty(st, e, u)
  {
    CalledIsDue(st, e, u);
    if StartsFresh(st, e) {
      var (r, m) := (RingOf(st.servers), st.servers[e.server].workerQueue[0].msg);
      NextRequest(st, e.server);
      TopicIdsPositive(st, m.topic);
      G.MtypeIffHas(st.servers[e.server].table, m.mtype);
      ReadIdsAreInTables(st, m.topic);
      assert r.tables[0] == st.servers[0].table && r.tables[1] == st.servers[1].table;
      Ring.RingOfTwoDeliversToAll(r, SubscribersOf(st.files, m.topic), e.server, m, u, |st.servers|);
      ListingsSplit(LinesOf(st.files, m.topic), u);
    }
  }

  ghost predicate PairServed(st: State, e: Event, u: int) {
    && Due(st, e, u) + Missed(st, e, u) == Listing(st, e, u)
    && (Missed(st, e, u) == 0 <==> !PastFifty(st, e, u))
  }

  lemma PairIsServed(states: seq<State>, events: seq<Event>, i: nat, j: nat, k: nat, u: int)
    requires IsRun(states, events) && i <= k < j <= |events| && u > 0
    requires forall t: Topic :: LinesOf(states[0].files, t) == []
    requires Frozen(states, i, j) && Ring.IsRing(RingOf(states[i].servers)) && |states[i].servers| == 2
    ensures PairServed(states[k], events[k], u)
  {
    assert SameTables(states[i], states[k]);
    RunsAreSafe(states, events, k);
    ListedIdsAreRegistered(states, events, k);
    assert |RingOf(states[k].servers).ids| == |states[k].servers|;
    assert |RingOf(states[i].servers).ids| == |states[i].servers|;
    PairServesWhomItReads(states[k], events[k], u);
  }

  lemma {:induction false} PairAddsUp(states: seq<State>, events: seq<Event>, i: nat, j: nat, u: int)
    requires i <= j <= |events| < |states|
    requires forall k | i <= k < j :: PairServed(states[k], events[k], u)
    ensures CopiesDue(states, events, i, j, u) + CopiesMissed(states, events, i, j, u)
            == CopiesListed(states, events, i, j, u)
    ensures CopiesMissed(states, events, i, j, u) == 0 <==> forall k | i <= k < j :: !PastFifty(states[k], events[k], u)
  {
    if i < j {
      PairAddsUp(states, events, i, j - 1, u);
      assert PairServed(states[j - 1], events[j - 1], u);
    }
  }

  /** With two servers, after a run from empty topic files, a user misses the copies of the lines past the fiftieth
      and no others: from one quiet state to another it gets a copy for each time that a published topic lists it
      if and only if no PUBLISH taken up has it past line fifty. */
  lemma TwoServersDeliverIffRead(states: seq<State>, events: seq<Event>, i: nat, j: nat, u: int)
    requires IsRun(states, events) && i <= j <= |events| && u > 0
    requires forall t: Topic :: LinesOf(states[0].files, t) == []
    requires Frozen(states, i, j) && Ring.IsRing(RingOf(states[i].servers)) && |states[i].servers| == 2
    requires Quiet(states[i].servers) && Quiet(states[j].servers)
    ensures CopiesQueued(states, events, i, j, u) + CopiesMissed(states, events, i, j, u)
            == CopiesListed(states, events, i, j, u)
    ensures CopiesQueued(states, events, i, j, u) == CopiesListed(states, events, i, j, u)
            <==> forall k | i <= k < j :: !PastFifty(states[k], events[k], u)
  {
    QuietRunsDeliverExactly(states, events, i, j, u);
    forall k | i <= k < j ensures PairServed(states[k], events[k], u) {
      PairIsServed(states, events, i, j, k, u);
    }
    PairAddsUp(states, events, i, j, u);
  }
}
