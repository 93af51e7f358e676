/** A published message travelling around the ring of broker servers. */
module Ring {
  import opened Options
  import opened Messages
  import opened GlobalIds
  import opened Routing
  import Db

  function Next(i: nat, n: nat): nat {
    if i + 1 < n then i + 1 else 0
  }

  /** The server `j` places after `o`. */
  function At(o: nat, j: nat, n: nat): nat {
    if o + j < n then o + j else o + j - n
  }

  ghost predicate DistinctNonzero(ids: seq<int>) {
    && (forall i | 0 <= i < |ids| :: ids[i] != 0)
    && (forall i, j | 0 <= i < j < |ids| :: ids[i] != ids[j])
  }

  // ---- Termination, whatever the tables and the database hold at each server ----

  /** One worker step on a PUBLISH, with the table and subscribers found at that moment. */
  datatype Visit = Visit(at: nat, table: seq<Entry>, subs: seq<int>, msg: Msg)

  /** `w` handles a message that `v` queued, after a response handler put the global id in `mtype`.
      Any queued copy is allowed to go on, not only the one addressed to the next server. */
  ghost predicate Forwards(ids: seq<int>, v: Visit, w: Visit) {
    && v.at < |ids| && w.at == Next(v.at, |ids|)
    && exists m | m in Published(ids[v.at], v.table, v.subs, v.msg) ::
      m.kind == PUBLISH && w.msg == m.(mtype := m.globalId)
  }

  ghost predicate IsRun(ids: seq<int>, run: seq<Visit>) {
    forall k | 0 <= k < |run| - 1 :: Forwards(ids, run[k], run[k + 1])
  }

  /** Copies carry the stamp and the kind of the message they are copied from. */
  lemma {:induction false} CopiesKeepStamp(table: seq<Entry>, subs: seq<int>, relayed: bool, msg: Msg, m: Msg)
    requires m in Copies(table, subs, relayed, msg)
    ensures m == msg.(globalId := m.globalId, mtype := m.mtype)
    ensures m.globalId in subs
  {
    match RouteOf(table, subs[0], relayed)
    case Copy(pid) =>
      if m in Copies(table, subs[1..], relayed, msg) { CopiesKeepStamp(table, subs[1..], relayed, msg, m); }
    case Relay(pid) =>
      if m in Copies(table, subs[1..], true, msg) { CopiesKeepStamp(table, subs[1..], true, msg, m); }
    case Skip => CopiesKeepStamp(table, subs[1..], relayed, msg, m);
  }

  /** A relayed message is never acknowledged, and the origin answers its own message with nothing at all. */
  lemma RelaysAreNotAcknowledged(brokerId: int, table: seq<Entry>, subs: seq<int>, msg: Msg, m: Msg)
    requires msg.kind == PUBLISH && msg.brokerId != 0 && m in Published(brokerId, table, subs, msg)
    ensures m.kind == PUBLISH && m.brokerId == msg.brokerId != brokerId
  {
    CopiesKeepStamp(table, subs, false, Looked(brokerId, table, msg), m);
  }

  /** A message stamped by server `o` that has come `j` places is stamped the same one place further. */
  lemma StampSurvives(ids: seq<int>, v: Visit, w: Visit)
    requires DistinctNonzero(ids) && Forwards(ids, v, w)
    ensures v.msg.brokerId != ids[v.at]
    ensures w.msg.brokerId == if v.msg.brokerId == 0 then ids[v.at] else v.msg.brokerId
  {
    var m :| m in Published(ids[v.at], v.table, v.subs, v.msg) && m.kind == PUBLISH && w.msg == m.(mtype := m.globalId);
    CopiesKeepStamp(v.table, v.subs, false, Looked(ids[v.at], v.table, v.msg), m);
  }

  /** A fresh publish is handled by the servers in ring order from its origin, each forwarding at most once,
      so it is forwarded at most once per server; if it comes all the way round, the origin queues nothing. */
  lemma {:induction false} RunsTerminate(ids: seq<int>, run: seq<Visit>)
    requires DistinctNonzero(ids) && |run| > 0 && IsRun(ids, run)
    requires run[0].at < |ids| && run[0].msg.brokerId == 0
    ensures |run| <= |ids| + 1
    ensures forall k | 0 <= k < |run| :: run[k].at == At(run[0].at, k, |ids|)
    ensures forall k | 1 <= k < |run| :: run[k].msg.brokerId == ids[run[0].at]
    ensures forall j, k | 0 <= j < k < |run| && k < |ids| :: run[j].at != run[k].at
    ensures |run| == |ids| + 1 ==>
              Published(ids[run[0].at], run[|ids|].table, run[|ids|].subs, run[|ids|].msg) == []
  {
    if |run| > 1 {
      var init := run[..|run| - 1];
      RunPrefix(ids, run);
      RunsTerminate(ids, init);
      StampSurvives(ids, run[|run| - 2], run[|run| - 1]);
      forall k | 0 <= k < |run|
        ensures run[k].at == At(run[0].at, k, |ids|)
        ensures k >= 1 ==> run[k].msg.brokerId == ids[run[0].at]
      {
        assert k < |init| ==> run[k] == init[k];
      }
    }
  }

  lemma RunPrefix(ids: seq<int>, run: seq<Visit>)
    requires IsRun(ids, run) && |run| > 1
    ensures IsRun(ids, run[..|run| - 1])
    ensures Forwards(ids, run[|run| - 2], run[|run| - 1])
    ensures run[..|run| - 1][|run| - 2] == run[|run| - 2]
  {
    var init := run[..|run| - 1];
    forall k | 0 <= k < |init| - 1 ensures Forwards(ids, init[k], init[k + 1]) {
      assert init[k] == run[k] && init[k + 1] == run[k + 1];
    }
  }

  /** A message that is already stamped by a server of the ring is forwarded at most until it gets there. */
  lemma {:induction false} StampedRunsTerminate(ids: seq<int>, run: seq<Visit>, o: nat, j: nat)
    requires DistinctNonzero(ids) && |run| > 0 && IsRun(ids, run) && o < |ids| && 1 <= j <= |ids|
    requires run[0].at == At(o, j, |ids|) && run[0].msg.brokerId == ids[o]
    ensures |run| <= |ids| - j + 1
    decreases |ids| - j
  {
    if |run| > 1 {
      assert Forwards(ids, run[0], run[1]);
      StampSurvives(ids, run[0], run[1]);
      assert IsRun(ids, run[1..]) by {
        forall k | 0 <= k < |run[1..]| - 1 ensures Forwards(ids, run[1..][k], run[1..][k + 1]) {
          assert Forwards(ids, run[k + 1], run[k + 2]);
        }
      }
      StampedRunsTerminate(ids, run[1..], o, j + 1);
    }
  }

  // ---- Exact delivery while the tables and the topic file do not change ----

  datatype Servers = Servers(ids: seq<int>, tables: seq<seq<Entry>>)

  function NextPid(table: seq<Entry>): int {
    MtypeOf(table, NEXT_SERVER_GLOBAL_ID)
  }

  /** The table of a server whose ring connection is up. */
  predicate Connected(table: seq<Entry>) {
    && Injective(table) && Routable(table) && Has(table, NEXT_SERVER_GLOBAL_ID)
    && forall i | 0 <= i < |table| && table[i].globalId != NEXT_SERVER_GLOBAL_ID :: table[i].mtype != NextPid(table)
  }

  predicate AllConnected(tables: seq<seq<Entry>>) {
    tables == [] || (Connected(tables[0]) && AllConnected(tables[1..]))
  }

  lemma {:induction false} ConnectedAt(tables: seq<seq<Entry>>, i: nat)
    requires AllConnected(tables) && i < |tables|
    ensures Connected(tables[i])
  {
    if i > 0 { ConnectedAt(tables[1..], i - 1); }
  }

  /** Every client id is registered at one server at most. */
  ghost predicate IsRing(r: Servers) {
    && |r.tables| == |r.ids| > 0 && DistinctNonzero(r.ids)
    && AllConnected(r.tables)
    && (forall i, j, g | 0 <= i < j < |r.ids| && g != NEXT_SERVER_GLOBAL_ID ::
          !(Has(r.tables[i], g) && Has(r.tables[j], g)))
  }

  /** Topic files hold positive ids only. */
  predicate AllPositive(subs: seq<int>) {
    forall k | 0 <= k < |subs| :: subs[k] > 0
  }

  /** What the response handler with this pid receives. */
  function To(out: seq<Msg>, pid: int): seq<Msg> {
    if out == [] then []
    else if out[0].mtype == pid then [out[0]] + To(out[1..], pid)
    else To(out[1..], pid)
  }

  /** How many copies for user `u` go to client connections. */
  function CopiesFor(out: seq<Msg>, nextPid: int, u: int): nat {
    if out == [] then 0
    else (if out[0].kind == PUBLISH && out[0].mtype != nextPid && out[0].globalId == u then 1 else 0)
         + CopiesFor(out[1..], nextPid, u)
  }

  /** The first subscriber that is not registered at the server: the id a relay carries. */
  function Carried(table: seq<Entry>, subs: seq<int>): Option<int> {
    if subs == [] then None
    else if !Has(table, subs[0]) then Some(subs[0])
    else Carried(table, subs[1..])
  }

  /** What one worker step contributes for user `u`, and the message the next server gets. */
  datatype Outcome = Outcome(copies: nat, relay: Option<Msg>)

  function Step(r: Servers, subs: seq<int>, i: nat, msg: Msg, u: int): Outcome
    requires i < |r.ids| == |r.tables|
  {
    var out := Published(r.ids[i], r.tables[i], subs, msg);
    var relays := To(out, NextPid(r.tables[i]));
    Outcome(CopiesFor(out, NextPid(r.tables[i]), u),
            if relays == [] then None else Some(relays[0].(mtype := relays[0].globalId)))
  }

  /** The copies for `u` that a message at server `i` gives rise to, there and further along the ring. */
  function Deliveries(r: Servers, subs: seq<int>, i: nat, msg: Msg, u: int, hops: nat): nat
    requires i < |r.ids| == |r.tables|
    decreases hops
  {
    var step := Step(r, subs, i, msg, u);
    step.copies
    + if step.relay.None? || hops == 0 then 0
      else Deliveries(r, subs, Next(i, |r.ids|), step.relay.value, u, hops - 1)
  }

  lemma {:induction false} Concatenated(a: seq<Msg>, b: seq<Msg>, pid: int, u: int)
    ensures To(a + b, pid) == To(a, pid) + To(b, pid)
    ensures CopiesFor(a + b, pid, u) == CopiesFor(a, pid, u) + CopiesFor(b, pid, u)
  {
    if a == [] {
      assert a + b == b;
    } else {
      assert (a + b)[1..] == a[1..] + b;
      Concatenated(a[1..], b, pid, u);
    }
  }

  lemma DeliveriesAtOnce(r: Servers, subs: seq<int>, i: nat, msg: Msg, u: int, hops: nat, step: Outcome)
    requires i < |r.ids| == |r.tables| && step == Step(r, subs, i, msg, u)
    ensures Deliveries(r, subs, i, msg, u, hops)
            == step.copies + if step.relay.None? || hops == 0 then 0
                             else Deliveries(r, subs, Next(i, |r.ids|), step.relay.value, u, hops - 1)
  {
  }

  /** The acknowledgement is no part of the outcome if it does not go to the next server. */
  lemma StepIsCopies(r: Servers, subs: seq<int>, i: nat, msg: Msg, u: int)
    requires i < |r.ids| == |r.tables| && msg.brokerId != r.ids[i] && MtypeOf(r.tables[i], msg.mtype) >= 0
    requires msg.brokerId == 0 ==> MtypeOf(r.tables[i], msg.mtype) != NextPid(r.tables[i])
    ensures var table := r.tables[i];
            var out := Copies(table, subs, false, Looked(r.ids[i], table, msg)); var relays := To(out, NextPid(table));
            Step(r, subs, i, msg, u)
            == Outcome(CopiesFor(out, NextPid(table), u),
                       if relays == [] then None else Some(relays[0].(mtype := relays[0].globalId)))
  {
    var m := Looked(r.ids[i], r.tables[i], msg);
    var ack := m.(kind := if Completes(r.tables[i], subs, false) then ACK_OK else ACK_ERROR);
    Concatenated(Copies(r.tables[i], subs, false, m), if msg.brokerId == 0 && m.mtype > 0 then [ack] else [],
                 NextPid(r.tables[i]), u);
  }

  lemma ClientPidIsNotNext(table: seq<Entry>, g: int)
    requires Connected(table) && Has(table, g) && g != NEXT_SERVER_GLOBAL_ID
    ensures MtypeOf(table, g) > 0 && MtypeOf(table, g) != NextPid(table)
  {
    MtypeIffHas(table, g);
    assert table[IndexOf(table, g)].globalId == g;
  }

  /** With a ring connection no send fails, local subscribers get a copy per line,
      and the next server gets one message carrying the first absent subscriber. */
  lemma {:induction false} SendLoopMeaning(table: seq<Entry>, subs: seq<int>, relayed: bool, msg: Msg, u: int)
    requires Connected(table) && u > 0 && msg.kind == PUBLISH
    requires AllPositive(subs)
    ensures Completes(table, subs, relayed)
    ensures CopiesFor(Copies(table, subs, relayed, msg), NextPid(table), u)
            == if Has(table, u) then Db.Times(subs, u) else 0
    ensures To(Copies(table, subs, relayed, msg), NextPid(table))
            == match Carried(table, subs)
               case Some(x) => if relayed then [] else [msg.(globalId := x, mtype := NextPid(table))]
               case None => []
  {
    MtypeIffHas(table, NEXT_SERVER_GLOBAL_ID);
    if subs != [] {
      MtypeIffHas(table, subs[0]);
      assert subs == [subs[0]] + subs[1..];
      if Has(table, subs[0]) { ClientPidIsNotNext(table, subs[0]); }
      SendLoopMeaning(table, subs[1..], relayed, msg, u);
      SendLoopMeaning(table, subs[1..], true, msg, u);
    }
  }

  /** The message gets as far as `j` places after `o`: each relay carries an id the receiver knows. */
  predicate Reaches(r: Servers, subs: seq<int>, o: nat, j: nat)
    requires o < |r.ids| == |r.tables|
  {
    j == 0 ||
    (&& j < |r.ids| && Reaches(r, subs, o, j - 1)
     && match Carried(r.tables[At(o, j - 1, |r.ids|)], subs)
        case Some(x) => Has(r.tables[At(o, j, |r.ids|)], x)
        case None => false)
  }

  lemma {:induction false} ReachesPrefix(r: Servers, subs: seq<int>, o: nat, j: nat, k: nat)
    requires o < |r.ids| == |r.tables| && j <= k && Reaches(r, subs, o, k)
    ensures Reaches(r, subs, o, j)
    decreases k
  {
    if j < k { ReachesPrefix(r, subs, o, j, k - 1); }
  }

  ghost predicate ServedFrom(r: Servers, subs: seq<int>, o: nat, j: nat, u: int)
    requires o < |r.ids| == |r.tables|
  {
    exists k | j <= k < |r.ids| :: Reaches(r, subs, o, k) && Has(r.tables[At(o, k, |r.ids|)], u)
  }

  /** The message as the next server gets it. */
  function RelayedMsg(brokerId: int, msg: Msg, carried: int): Msg {
    msg.(brokerId := if msg.brokerId == 0 then brokerId else msg.brokerId, globalId := carried, mtype := carried)
  }

  /** The same step in terms of which ids the server knows. */
  function Meaning(r: Servers, subs: seq<int>, i: nat, msg: Msg, u: int): Outcome
    requires i < |r.ids| == |r.tables|
  {
    if msg.brokerId == r.ids[i] || !Has(r.tables[i], msg.mtype) then Outcome(0, None)
    else
      Outcome(if Has(r.tables[i], u) then Db.Times(subs, u) else 0,
              match Carried(r.tables[i], subs)
              case Some(x) => Some(RelayedMsg(r.ids[i], msg, x))
              case None => None)
  }

  lemma StepMeaning(r: Servers, subs: seq<int>, i: nat, msg: Msg, u: int)
    requires i < |r.ids| == |r.tables| && AllConnected(r.tables) && u > 0
    requires AllPositive(subs)
    requires msg.kind == PUBLISH && msg.mtype != NEXT_SERVER_GLOBAL_ID
    ensures Step(r, subs, i, msg, u) == Meaning(r, subs, i, msg, u)
  {
    var table := r.tables[i];
    ConnectedAt(r.tables, i);
    MtypeIffHas(table, msg.mtype);
    if msg.brokerId != r.ids[i] && Has(table, msg.mtype) {
      var m := Looked(r.ids[i], table, msg);
      var out := Copies(table, subs, false, m);
      var ack := if msg.brokerId == 0 then [m.(kind := ACK_OK)] else [];
      ClientPidIsNotNext(table, msg.mtype);
      SendLoopMeaning(table, subs, false, m, u);
      Concatenated(out, ack, NextPid(table), u);
      assert Published(r.ids[i], table, subs, msg) == out + ack;
    }
  }

  function Summed(r: Servers, subs: seq<int>, i: nat, msg: Msg, u: int, hops: nat): nat
    requires i < |r.ids| == |r.tables|
    decreases hops
  {
    var step := Meaning(r, subs, i, msg, u);
    step.copies
    + if step.relay.None? || hops == 0 then 0
      else Summed(r, subs, Next(i, |r.ids|), step.relay.value, u, hops - 1)
  }

  lemma {:induction false} DeliveriesSummed(r: Servers, subs: seq<int>, i: nat, msg: Msg, u: int, hops: nat)
    requires i < |r.ids| == |r.tables| && AllConnected(r.tables) && u > 0
    requires AllPositive(subs)
    requires msg.kind == PUBLISH && msg.mtype != NEXT_SERVER_GLOBAL_ID
    ensures Deliveries(r, subs, i, msg, u, hops) == Summed(r, subs, i, msg, u, hops)
    decreases hops
  {
    StepMeaning(r, subs, i, msg, u);
    var step := Meaning(r, subs, i, msg, u);
    if step.relay.Some? && hops > 0 {
      CarriedIsAbsent(r.tables[i], subs);
      DeliveriesSummed(r, subs, Next(i, |r.ids|), step.relay.value, u, hops - 1);
    }
  }

  /** The copies for `u` summed over the servers reached from `j` places after `o` on. */
  function Expected(r: Servers, subs: seq<int>, o: nat, j: nat, u: int): nat
    requires o < |r.ids| == |r.tables|
    decreases |r.ids| - j
  {
    if j >= |r.ids| || !Reaches(r, subs, o, j) then 0
    else (if Has(r.tables[At(o, j, |r.ids|)], u) then Db.Times(subs, u) else 0) + Expected(r, subs, o, j + 1, u)
  }

  /** A message stamped by `o` that has been relayed `j` places. */
  lemma {:induction false} RelayedDeliveries(r: Servers, subs: seq<int>, o: nat, j: nat, msg: Msg, u: int, hops: nat)
    requires |r.ids| == |r.tables| && DistinctNonzero(r.ids)
    requires o < |r.ids| && 1 <= j <= |r.ids| && hops >= |r.ids| - j
    requires msg.brokerId == r.ids[o]
    requires Reaches(r, subs, o, j - 1) && Carried(r.tables[At(o, j - 1, |r.ids|)], subs) == Some(msg.mtype)
    ensures Summed(r, subs, At(o, j, |r.ids|), msg, u, hops) == Expected(r, subs, o, j, u)
    decreases |r.ids| - j
  {
    var p := At(o, j, |r.ids|);
    if j < |r.ids| && Has(r.tables[p], msg.mtype) {
      assert Reaches(r, subs, o, j);
      match Carried(r.tables[p], subs)
      case Some(x) => RelayedDeliveries(r, subs, o, j + 1, RelayedMsg(r.ids[p], msg, x), u, hops - 1);
      case None => assert !Reaches(r, subs, o, j + 1);
    }
  }

  /** Since a user is registered at one server only, at most one term of the sum is not zero. */
  lemma {:induction false} ExpectedIsOneServer(r: Servers, subs: seq<int>, o: nat, j: nat, u: int)
    requires IsRing(r) && o < |r.ids| && u > 0 && j <= |r.ids|
    ensures Expected(r, subs, o, j, u) == if ServedFrom(r, subs, o, j, u) then Db.Times(subs, u) else 0
    decreases |r.ids| - j
  {
    if j < |r.ids| {
      if Reaches(r, subs, o, j) {
        ExpectedIsOneServer(r, subs, o, j + 1, u);
        AloneServes(r, subs, o, j, u);
      } else {
        NothingBeyond(r, subs, o, j, u);
      }
    }
  }

  lemma NothingBeyond(r: Servers, subs: seq<int>, o: nat, j: nat, u: int)
    requires o < |r.ids| == |r.tables| && !Reaches(r, subs, o, j)
    ensures !ServedFrom(r, subs, o, j, u)
  {
    forall k: nat | j <= k ensures !Reaches(r, subs, o, k) {
      if Reaches(r, subs, o, k) { ReachesPrefix(r, subs, o, j, k); }
    }
  }

  /** A subscriber registered where the message is cannot be served again further along. */
  lemma AloneServes(r: Servers, subs: seq<int>, o: nat, j: nat, u: int)
    requires IsRing(r) && o < |r.ids| && j < |r.ids| && u > 0 && Reaches(r, subs, o, j)
    ensures ServedFrom(r, subs, o, j, u) <==> Has(r.tables[At(o, j, |r.ids|)], u) || ServedFrom(r, subs, o, j + 1, u)
    ensures !(Has(r.tables[At(o, j, |r.ids|)], u) && ServedFrom(r, subs, o, j + 1, u))
  {
  }

  /** A client of server `o` publishes: every user gets one copy for each time that the list read has it
      if its server is reached, and otherwise nothing; `hops` only has to be large enough. */
  lemma ExactDelivery(r: Servers, subs: seq<int>, o: nat, msg: Msg, u: int, hops: nat)
    requires IsRing(r) && o < |r.ids| && hops >= |r.ids| && u > 0
    requires AllPositive(subs)
    requires msg.kind == PUBLISH && msg.brokerId == 0
    requires msg.mtype != NEXT_SERVER_GLOBAL_ID && Has(r.tables[o], msg.mtype)
    ensures Deliveries(r, subs, o, msg, u, hops)
            == if ServedFrom(r, subs, o, 0, u) then Db.Times(subs, u) else 0
  {
    assert At(o, 0, |r.ids|) == o;
    DeliveriesSummed(r, subs, o, msg, u, hops);
    match Carried(r.tables[o], subs) {
      case Some(x) => RelayedDeliveries(r, subs, o, 1, RelayedMsg(r.ids[o], msg, x), u, hops - 1);
      case None => assert !Reaches(r, subs, o, 1);
    }
    ExpectedIsOneServer(r, subs, o, 0, u);
  }

  // ---- How far a message can get ----

  lemma CarriedIsAbsent(table: seq<Entry>, subs: seq<int>)
    ensures Carried(table, subs).Some? ==> !Has(table, Carried(table, subs).value) && Carried(table, subs).value in subs
    ensures Carried(table, subs).None? <==> forall x | x in subs :: Has(table, x)
  {
  }

  /** In a ring of any size a message gets at most two servers past its origin. It gets two past it
      exactly when the first line of the topic file names a client of the server after the origin
      and the first subscriber absent there is registered at the one after that. */
  lemma AtMostThreeServers(r: Servers, subs: seq<int>, o: nat)
    requires IsRing(r) && o < |r.ids|
    requires AllPositive(subs)
    ensures forall j | 3 <= j :: !Reaches(r, subs, o, j)
    ensures Reaches(r, subs, o, 2) <==>
              && |r.ids| >= 3 && subs != []
              && Has(r.tables[At(o, 1, |r.ids|)], subs[0])
              && match Carried(r.tables[At(o, 1, |r.ids|)], subs)
                 case Some(x) => Has(r.tables[At(o, 2, |r.ids|)], x)
                 case None => false
  {
    var n := |r.ids|;
    forall j: nat | 3 <= j ensures !Reaches(r, subs, o, j) {
      if Reaches(r, subs, o, j) {
        ReachesPrefix(r, subs, o, 3, j);
        ThirdPlaceUnreachable(r, subs, o);
      }
    }
    assert Reaches(r, subs, o, 0);
    assert Reaches(r, subs, o, 2) ==> Reaches(r, subs, o, 1);
    if n >= 3 && subs != [] {
      OnlyOneServer(r, At(o, 0, n), At(o, 1, n), subs[0]);
      OnlyOneServer(r, At(o, 0, n), At(o, 2, n), subs[0]);
    }
  }

  lemma OnlyOneServer(r: Servers, i: nat, j: nat, g: int)
    requires IsRing(r) && i < |r.ids| && j < |r.ids| && i != j && g != NEXT_SERVER_GLOBAL_ID
    ensures !(Has(r.tables[i], g) && Has(r.tables[j], g))
  {
  }

  lemma ThirdPlaceUnreachable(r: Servers, subs: seq<int>, o: nat)
    requires IsRing(r) && o < |r.ids|
    requires AllPositive(subs)
    ensures !Reaches(r, subs, o, 3)
  {
    var n := |r.ids|;
    if n >= 4 && subs != [] {
      OnlyOneServer(r, At(o, 0, n), At(o, 1, n), subs[0]);
      OnlyOneServer(r, At(o, 0, n), At(o, 2, n), subs[0]);
      OnlyOneServer(r, At(o, 1, n), At(o, 2, n), subs[0]);
      OnlyOneServer(r, At(o, 1, n), At(o, 3, n), subs[0]);
      if Reaches(r, subs, o, 3) { ReachesPrefix(r, subs, o, 1, 3); }
    }
  }

  /** In a ring of two, a client of the other server that is on the list read gets its copies if and only if the first
      listed id that the origin does not know is registered at the other server; otherwise it gets nothing. */
  lemma RingOfTwoServesIff(r: Servers, subs: seq<int>, o: nat, msg: Msg, u: int, hops: nat)
    requires IsRing(r) && |r.ids| == 2 && o < 2 && hops >= 2
    requires AllPositive(subs) && u in subs && Has(r.tables[At(o, 1, 2)], u)
    requires msg.kind == PUBLISH && msg.brokerId == 0
    requires msg.mtype != NEXT_SERVER_GLOBAL_ID && Has(r.tables[o], msg.mtype)
    ensures Carried(r.tables[o], subs).Some?
    ensures var known := Has(r.tables[At(o, 1, 2)], Carried(r.tables[o], subs).value);
            && (Deliveries(r, subs, o, msg, u, hops) == Db.Times(subs, u) <==> known)
            && (!known ==> Deliveries(r, subs, o, msg, u, hops) == 0)
  {
    PositiveMember(subs, u);
    ExactDelivery(r, subs, o, msg, u, hops);
    CarriedIsAbsent(r.tables[o], subs);
    OnlyOneServer(r, o, At(o, 1, 2), u);
    assert Reaches(r, subs, o, 0);
    if Has(r.tables[At(o, 1, 2)], Carried(r.tables[o], subs).value) {
      assert Reaches(r, subs, o, 1);
    } else {
      assert !Reaches(r, subs, o, 1);
    }
  }

  lemma PositiveMember(subs: seq<int>, u: int)
    requires AllPositive(subs) && u in subs
    ensures u > 0 && Db.Times(subs, u) > 0
  {
  }

  /** In a ring of two in which every id on the list read is registered, every user gets a copy for each time
      that the list has it. */
  lemma RingOfTwoDeliversToAll(r: Servers, subs: seq<int>, o: nat, msg: Msg, u: int, hops: nat)
    requires IsRing(r) && |r.ids| == 2 && o < 2 && hops >= 2
    requires AllPositive(subs) && forall x | x in subs :: Has(r.tables[0], x) || Has(r.tables[1], x)
    requires msg.kind == PUBLISH && msg.brokerId == 0
    requires msg.mtype != NEXT_SERVER_GLOBAL_ID && Has(r.tables[o], msg.mtype)
    requires u > 0
    ensures Deliveries(r, subs, o, msg, u, hops) == Db.Times(subs, u)
  {
    ExactDelivery(r, subs, o, msg, u, hops);
    CarriedIsAbsent(r.tables[o], subs);
    if u in subs {
      assert Reaches(r, subs, o, 0);
      if Has(r.tables[o], u) {
        assert At(o, 0, 2) == o;
      } else {
        assert Has(r.tables[At(o, 1, 2)], u);
        assert Reaches(r, subs, o, 1);
      }
    }
  }

  /** Two servers with clients 3 and 5. */
  function PairOfServers(): Servers {
    Servers([1, 2], [[Entry(70, 0), Entry(71, 3)], [Entry(80, 0), Entry(81, 5)]])
  }

  lemma PairIsRing()
    ensures IsRing(PairOfServers())
    ensures forall h :: Has(PairOfServers().tables[0], h) <==> h == 0 || h == 3
    ensures forall h :: Has(PairOfServers().tables[1], h) <==> h == 0 || h == 5
  {
    var tables := PairOfServers().tables;
    TwoEntries(70, 71, 3);
    TwoEntries(80, 81, 5);
    assert tables[1..] == [tables[1]] && tables[1..][1..] == [];
    assert AllConnected(tables[1..]);
  }

  /** Two servers with clients 3 and 5. The topic file lists 9, left over from an earlier run, before 5:
      the relay of what 3 publishes carries 9, so 5 gets nothing. */
  lemma StaleIdStarves(msg: Msg)
    requires msg.kind == PUBLISH && msg.brokerId == 0 && msg.mtype == 3
    ensures var r := PairOfServers();
            IsRing(r) && Has(r.tables[0], 3) && Has(r.tables[1], 5) && Deliveries(r, [9, 5], 0, msg, 5, 2) == 0
  {
    PairIsRing();
    RingOfTwoServesIff(PairOfServers(), [9, 5], 0, msg, 5, 2);
  }

  /** A server with a ring connection and one client. */
  lemma TwoEntries(next: int, pid: int, g: int)
    requires next > 0 && pid > 0 && next != pid && g > 0
    ensures var table := [Entry(next, 0), Entry(pid, g)];
            Connected(table) && forall h :: Has(table, h) <==> h == 0 || h == g
  {
    var table := [Entry(next, 0), Entry(pid, g)];
    IndexIs(table, 0, 0);
    IndexIs(table, g, 1);
  }

  lemma OneEntry(next: int)
    requires next > 0
    ensures Connected([Entry(next, 0)]) && forall h :: Has([Entry(next, 0)], h) <==> h == 0
  {
    IndexIs([Entry(next, 0)], 0, 0);
  }

  /** Three servers, the second without clients: what client 3 of the first publishes never gets to
      client 5 of the third, the only subscriber. */
  lemma TwoPlacesOnStarves(msg: Msg)
    requires msg.kind == PUBLISH && msg.brokerId == 0 && msg.mtype == 3
    ensures var r := Servers([1, 2, 3], [[Entry(70, 0), Entry(71, 3)], [Entry(80, 0)], [Entry(90, 0), Entry(91, 5)]]);
            IsRing(r) && Has(r.tables[0], 3) && Has(r.tables[2], 5) && Deliveries(r, [5], 0, msg, 5, 3) == 0
  {
    var a, b, c := [Entry(70, 0), Entry(71, 3)], [Entry(80, 0)], [Entry(90, 0), Entry(91, 5)];
    var r := Servers([1, 2, 3], [a, b, c]);
    TwoEntries(70, 71, 3);
    OneEntry(80);
    TwoEntries(90, 91, 5);
    assert r.tables[1..] == [b, c] && [b, c][1..] == [c] && [c][1..] == [];
    assert AllConnected([c]) && AllConnected([b, c]);
    assert IsRing(r);
    ExactDelivery(r, [5], 0, msg, 5, 3);
    assert Carried(a, [5]) == Some(5);
    assert !Reaches(r, [5], 0, 1);
    NothingBeyond(r, [5], 0, 1, 5);
  }

  /** A subscriber registered three or more places after the origin never gets anything. */
  lemma FarSubscribersGetNothing(r: Servers, subs: seq<int>, o: nat, j: nat, msg: Msg, u: int, hops: nat)
    requires IsRing(r) && o < |r.ids| && 3 <= j < |r.ids| && hops >= |r.ids| && u > 0
    requires AllPositive(subs)
    requires msg.kind == PUBLISH && msg.brokerId == 0
    requires msg.mtype != NEXT_SERVER_GLOBAL_ID && Has(r.tables[o], msg.mtype)
    requires Has(r.tables[At(o, j, |r.ids|)], u)
    ensures Deliveries(r, subs, o, msg, u, hops) == 0
  {
    ExactDelivery(r, subs, o, msg, u, hops);
    AtMostThreeServers(r, subs, o);
    forall k | 0 <= k < |r.ids| && Reaches(r, subs, o, k) ensures !Has(r.tables[At(o, k, |r.ids|)], u) {
      assert k != j;
    }
  }
}
