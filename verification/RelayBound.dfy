/** Relays do not circulate: in every run they leave servers at most once per server and published message. */
module RelayBound {
  import opened Messages
  import G = GlobalIds
  import opened Db
  import opened DbHandler
  import opened Routing
  import opened Connection
  import opened System
  import opened SystemInvariant
  import opened ServerSteps
  import opened Safety
  import opened Relays
  import Ring

  // ---- Stamps ----

  function Place(ids: seq<int>, b: int): nat {
    if ids == [] || ids[0] == b then 0 else 1 + Place(ids[1..], b)
  }

  lemma {:induction false} PlaceOfStamp(ids: seq<int>, o: nat)
    requires Ring.DistinctNonzero(ids) && o < |ids|
    ensures Place(ids, ids[o]) == o
  {
    if o > 0 {
      assert ids[0] != ids[o] && ids[1..][o - 1] == ids[o];
      assert Ring.DistinctNonzero(ids[1..]);
      PlaceOfStamp(ids[1..], o - 1);
    }
  }

  /** How many hops take a message from server `s` to server `o`. */
  function HopsTo(s: nat, o: nat, n: nat): nat {
    if s <= o then o - s else if s <= o + n then o + n - s else 0
  }

  lemma HopsAdvance(s: nat, o: nat, n: nat)
    requires s < n && o < n
    ensures s == o ==> HopsTo(s, o, n) == 0 && HopsTo(Ring.Next(s, n), o, n) == n - 1
    ensures s != o ==> HopsTo(s, o, n) == 1 + HopsTo(Ring.Next(s, n), o, n)
  {
  }

  function Stranger(ids: seq<int>): Weight {
    (s: nat, m: Msg) => if m.brokerId in ids then 0 else 1
  }

  /** The hops that a relay can still make before it is back where it was stamped. */
  function HopsLeft(ids: seq<int>): Weight {
    (s: nat, m: Msg) => if m.brokerId in ids then HopsTo(s, Place(ids, m.brokerId), |ids|) else 0
  }

  // ---- What a worker that starts will relay ----

  predicate NoClientAt(table: seq<G.Entry>, pid: int) {
    forall k | 0 <= k < |table| && table[k].globalId != NEXT_SERVER_GLOBAL_ID :: table[k].mtype != pid
  }

  lemma NextPidIsNoClient(st: State, s: nat)
    requires Inv(st) && s < |st.servers|
    ensures NoClientAt(st.servers[s].table, st.servers[s].nextPid)
  {
    var sv := st.servers[s];
    NextPidIsNoNode(st, s);
    forall k | 0 <= k < |sv.table| && sv.table[k].globalId != NEXT_SERVER_GLOBAL_ID
      ensures sv.table[k].mtype != sv.nextPid
    {
      G.LookupFindsEntry(sv.table, k);
      assert sv.table[k].globalId in sv.holders;
    }
  }

  lemma CopyIsNotForNext(table: seq<G.Entry>, next: int, g: int)
    requires NoClientAt(table, next) && g != NEXT_SERVER_GLOBAL_ID && G.MtypeOf(table, g) > 0
    ensures G.MtypeOf(table, g) != next
  {
    assert table[G.IndexOf(table, g)].globalId == g;
  }

  lemma {:induction false} AtMostOneRelay(table: seq<G.Entry>, subs: seq<int>, relayed: bool, m: Msg, next: int)
    requires NoClientAt(table, next) && Ring.AllPositive(subs)
    ensures var out := Ring.To(Copies(table, subs, relayed, m), next);
            && |out| <= (if relayed then 0 else 1)
            && forall x | x in out :: x == m.(globalId := x.globalId, mtype := x.mtype)
  {
    if subs != [] {
      match RouteOf(table, subs[0], relayed)
      case Copy(pid) =>
        CopyIsNotForNext(table, next, subs[0]);
        AtMostOneRelay(table, subs[1..], relayed, m, next);
      case Relay(pid) => AtMostOneRelay(table, subs[1..], true, m, next);
      case Skip => AtMostOneRelay(table, subs[1..], relayed, m, next);
      case Fail =>
    }
  }

  /** The worker is about to take a PUBLISH that comes from a client, not from a server. */
  predicate StartsFresh(st: State, e: Event) {
    && e.WorkerStarts? && e.server < |st.servers| && st.servers[e.server].workerQueue != []
    && st.servers[e.server].workerQueue[0].msg.kind == PUBLISH
    && st.servers[e.server].workerQueue[0].msg.brokerId == 0
  }

  lemma StartRelays(st: State, s: nat, id: int)
    requires Inv(st) && Enabled(st, WorkerStarts(s, id))
    ensures var (sv, m) := (st.servers[s], st.servers[s].workerQueue[0].msg);
            var out := StillToRelay(Start(sv, st.files, id).0);
            && |out| <= 1
            && (out != [] ==>
                  && m.kind == PUBLISH && m.brokerId != sv.brokerId
                  && out[0].brokerId == (if m.brokerId == 0 then sv.brokerId else m.brokerId)
                  && out[0].topic == m.topic)
  {
    var sv := st.servers[s];
    var m := sv.workerQueue[0].msg;
    NextPidIsNoClient(st, s);
    assert ServerInv(st.nodes, s, sv);
    if m.kind == PUBLISH {
      var subs := FirstClients(LinesOf(st.files, m.topic));
      TopicIdsPositive(st, m.topic);
      AtMostOneRelay(sv.table, subs, false, Looked(sv.brokerId, sv.table, m), sv.nextPid);
    }
  }

  lemma TopicIdsPositive(st: State, topic: Topic)
    requires Linked(st.files)
    ensures Ring.AllPositive(FirstClients(LinesOf(st.files, topic)))
  {
    var lines := LinesOf(st.files, topic);
    forall k | 0 <= k < |FirstClients(lines)| ensures FirstClients(lines)[k] > 0 {
      ListedUserIsLive(st.files, topic, lines[k]);
    }
  }

  // ---- What each event does to the hops left ----

  lemma TakenIsUnderWay(w: Weight, hop: nat, st: State, s: nat)
    requires s < |st.servers| && st.servers[s].workerQueue != []
    ensures TakenLoad(w, s, st.servers[s].workerQueue[0]) <= Total(w, hop, st.servers)
  {
    TotalChange(w, hop, st.servers, s, st.servers[s]);
  }

  lemma OutLoadOfOne(w: Weight, hop: nat, next: nat, ms: seq<Msg>)
    requires |ms| <= 1
    ensures OutLoad(w, hop, next, ms) == if ms == [] then 0 else hop + w(next, ms[0].(mtype := ms[0].globalId))
  {
  }

  lemma StepKeepsIds(st: State, e: Event)
    requires Enabled(st, e)
    ensures BrokerIdsOf(After(st, e).servers) == BrokerIdsOf(st.servers)
  {
    if e.WorkerStarts? { StartKeepsPid(st.servers[e.server], st.files, e.id); }
    assert |After(st, e).servers| == |st.servers|;
    assert forall s | 0 <= s < |st.servers| :: After(st, e).servers[s].brokerId == st.servers[s].brokerId;
  }

  /** Every relay under way was stamped by a server of the ring. */
  ghost predicate StampsKnown(servers: seq<Server>) {
    Total(Stranger(BrokerIdsOf(servers)), 0, servers) == 0
  }

  lemma StepKeepsStamps(st: State, e: Event)
    requires Inv(st) && Enabled(st, e) && StampsKnown(st.servers)
    ensures StampsKnown(After(st, e).servers)
  {
    var ids := BrokerIdsOf(st.servers);
    StepKeepsIds(st, e);
    StepLoad(Stranger(ids), 0, st, e);
    if e.WorkerStarts? {
      var s := e.server;
      var out := StillToRelay(Start(st.servers[s], st.files, e.id).0);
      StartRelays(st, s, e.id);
      TakenIsUnderWay(Stranger(ids), 0, st, s);
      OutLoadOfOne(Stranger(ids), 0, Ring.Next(s, |st.servers|), out);
      assert ids[s] == st.servers[s].brokerId;
      if !IsRelay(st.servers[s].workerQueue[0]) { NextRequest(st, s); }
    }
  }

  /** A relay that leaves uses up a hop, and a fresh PUBLISH brings a whole round of them. */
  lemma StepHops(st: State, e: Event)
    requires Inv(st) && Enabled(st, e) && StampsKnown(st.servers)
    requires Ring.DistinctNonzero(BrokerIdsOf(st.servers))
    ensures var w := HopsLeft(BrokerIdsOf(st.servers));
            Total(w, 1, After(st, e).servers) + (if e.RelayLeaves? then 1 else 0)
            <= Total(w, 1, st.servers) + if StartsFresh(st, e) then |st.servers| else 0
  {
    var ids := BrokerIdsOf(st.servers);
    StepLoad(HopsLeft(ids), 1, st, e);
    if e.WorkerStarts? { StartHops(st, e.server, e.id); }
  }

  lemma StartHops(st: State, s: nat, id: int)
    requires Inv(st) && Enabled(st, WorkerStarts(s, id)) && StampsKnown(st.servers)
    requires Ring.DistinctNonzero(BrokerIdsOf(st.servers))
    ensures var (w, n) := (HopsLeft(BrokerIdsOf(st.servers)), |st.servers|);
            OutLoad(w, 1, Ring.Next(s, n), StillToRelay(Start(st.servers[s], st.files, id).0))
            <= TakenLoad(w, s, st.servers[s].workerQueue[0]) + if StartsFresh(st, WorkerStarts(s, id)) then n else 0
  {
    var (ids, n) := (BrokerIdsOf(st.servers), |st.servers|);
    var (sv, t) := (st.servers[s], st.servers[s].workerQueue[0]);
    var out := StillToRelay(Start(sv, st.files, id).0);
    StartRelays(st, s, id);
    OutLoadOfOne(HopsLeft(ids), 1, Ring.Next(s, n), out);
    assert ids[s] == sv.brokerId;
    if out != [] {
      if IsRelay(t) {
        TakenIsUnderWay(Stranger(ids), 0, st, s);
        assert t.msg.brokerId in ids;
        var o :| 0 <= o < |ids| && ids[o] == t.msg.brokerId;
        PlaceOfStamp(ids, o);
        HopsAdvance(s, o, n);
      } else {
        NextRequest(st, s);
        PlaceOfStamp(ids, s);
        HopsAdvance(s, s, n);
      }
    }
  }

  // ---- Runs ----

  /** How many relays left a server in the first `i` events. */
  function RelaysSent(events: seq<Event>, i: nat): nat
    requires i <= |events|
  {
    if i == 0 then 0 else RelaysSent(events, i - 1) + if events[i - 1].RelayLeaves? then 1 else 0
  }

  /** How many PUBLISHes of clients a worker took up in the first `i` events. */
  function FreshPublishes(states: seq<State>, events: seq<Event>, i: nat): nat
    requires i <= |events| < |states|
  {
    if i == 0 then 0
    else FreshPublishes(states, events, i - 1) + if StartsFresh(states[i - 1], events[i - 1]) then 1 else 0
  }

  lemma {:induction false} NothingUnderWay(xs: seq<nat>)
    requires forall i | 0 <= i < |xs| :: xs[i] == 0
    ensures Added(xs) == 0
  {
    if xs != [] { NothingUnderWay(xs[1..]); }
  }

  lemma InitTotal(w: Weight, hop: nat, st: State)
    requires Init(st)
    ensures Total(w, hop, st.servers) == 0
  {
    forall s | 0 <= s < |st.servers| ensures ServerLoad(w, hop, |st.servers|, s, st.servers[s]) == 0 {
      assert st.servers[s].respQueue == map[];
    }
    NothingUnderWay(Loads(w, hop, st.servers));
  }

  lemma EventKeepsStamps(states: seq<State>, events: seq<Event>, i: nat)
    requires IsRun(states, events) && i < |events| && StampsKnown(states[i].servers)
    ensures BrokerIdsOf(states[i + 1].servers) == BrokerIdsOf(states[i].servers)
    ensures StampsKnown(states[i + 1].servers)
  {
    RunsAreSafe(states, events, i);
    StepKeepsIds(states[i], events[i]);
    StepKeepsStamps(states[i], events[i]);
  }

  lemma {:induction false} StampsAreKnown(states: seq<State>, events: seq<Event>, i: nat)
    requires IsRun(states, events) && i < |states|
    ensures BrokerIdsOf(states[i].servers) == BrokerIdsOf(states[0].servers)
    ensures StampsKnown(states[i].servers)
  {
    if i == 0 {
      InitTotal(Stranger(BrokerIdsOf(states[0].servers)), 0, states[0]);
    } else {
      StampsAreKnown(states, events, i - 1);
      EventKeepsStamps(states, events, i - 1);
    }
  }

  lemma OneMoreEvent(n: nat, sent: nat, left: nat, asked: nat, leaves: bool, starts: bool, after: nat)
    requires sent + left <= n * asked
    requires after + (if leaves then 1 else 0) <= left + if starts then n else 0
    ensures sent + (if leaves then 1 else 0) + after <= n * (asked + if starts then 1 else 0)
  {
    assert n * (asked + 1) == n * asked + n;
  }

  /** Event `k` takes the hop that it uses off those that are left. */
  predicate Paid(states: seq<State>, events: seq<Event>, k: nat, w: Weight, n: nat)
    requires k < |events| < |states|
  {
    Total(w, 1, states[k + 1].servers) + (if events[k].RelayLeaves? then 1 else 0)
    <= Total(w, 1, states[k].servers) + if StartsFresh(states[k], events[k]) then n else 0
  }

  lemma EventIsPaid(states: seq<State>, events: seq<Event>, k: nat)
    requires IsRun(states, events) && k < |events|
    requires Ring.DistinctNonzero(BrokerIdsOf(states[0].servers))
    ensures Paid(states, events, k, HopsLeft(BrokerIdsOf(states[0].servers)), |states[0].servers|)
  {
    RunsAreSafe(states, events, k);
    StampsAreKnown(states, events, k);
    StepHops(states[k], events[k]);
    assert |states[k].servers| == |BrokerIdsOf(states[k].servers)| == |states[0].servers|;
  }

  lemma {:induction false} PaymentsAddUp(states: seq<State>, events: seq<Event>, i: nat, w: Weight, n: nat)
    requires i <= |events| < |states| && Total(w, 1, states[0].servers) == 0
    requires forall k | 0 <= k < i :: Paid(states, events, k, w, n)
    ensures RelaysSent(events, i) + Total(w, 1, states[i].servers) <= n * FreshPublishes(states, events, i)
  {
    if i > 0 {
      PaymentsAddUp(states, events, i - 1, w, n);
      assert Paid(states, events, i - 1, w, n);
      OneMoreEvent(n, RelaysSent(events, i - 1), Total(w, 1, states[i - 1].servers),
                   FreshPublishes(states, events, i - 1), events[i - 1].RelayLeaves?,
                   StartsFresh(states[i - 1], events[i - 1]), Total(w, 1, states[i].servers));
    }
  }

  /** With distinct broker ids, the relays that have left a server and those that can still do so are
      at most as many as there are servers for each PUBLISH taken up. */
  lemma RelaysAreBounded(states: seq<State>, events: seq<Event>, i: nat)
    requires IsRun(states, events) && i < |states|
    requires Ring.DistinctNonzero(BrokerIdsOf(states[0].servers))
    ensures RelaysSent(events, i) + Total(HopsLeft(BrokerIdsOf(states[0].servers)), 1, states[i].servers)
            <= |states[0].servers| * FreshPublishes(states, events, i)
  {
    var w := HopsLeft(BrokerIdsOf(states[0].servers));
    InitTotal(w, 1, states[0]);
    forall k | 0 <= k < i ensures Paid(states, events, k, w, |states[0].servers|) {
      EventIsPaid(states, events, k);
    }
    PaymentsAddUp(states, events, i, w, |states[0].servers|);
  }
}
