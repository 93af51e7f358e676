/** Who the ids in the database belong to, in every run that starts with an empty database. */
module Registrations {
  import opened Messages
  import G = GlobalIds
  import opened Db
  import opened DbHandler
  import opened Routing
  import opened Connection
  import opened System
  import opened SystemInvariant
  import opened ServerSteps
  import opened Safety
  import opened Listings
  import Ring

  /** The server has the id in its table and is not giving it up. */
  predicate Registered(sv: Server, g: int) {
    g in sv.holders && !GivingUp(sv, g)
  }

  ghost predicate RegisteredSomewhere(servers: seq<Server>, g: int) {
    exists s :: 0 <= s < |servers| && Registered(servers[s], g)
  }

  /** Every id in a topic file is registered at some server. */
  ghost predicate ListedInv(st: State) {
    forall t: Topic, u | u in LinesOf(st.files, t) :: RegisteredSomewhere(st.servers, u)
  }

  ghost predicate KeepsRegistrations(before: seq<Server>, after: seq<Server>, except: int) {
    && |before| == |after|
    && forall s, g | 0 <= s < |before| && g != except && Registered(before[s], g) :: Registered(after[s], g)
  }

  lemma StillRegistered(before: seq<Server>, after: seq<Server>, except: int, g: int)
    requires KeepsRegistrations(before, after, except) && g != except && RegisteredSomewhere(before, g)
    ensures RegisteredSomewhere(after, g)
  {
    var s :| 0 <= s < |before| && Registered(before[s], g);
    assert Registered(after[s], g);
  }

  lemma OtherEventsKeepRegistrations(st: State, e: Event)
    requires Enabled(st, e) && !e.WorkerStarts? && !e.WorkerFinishes?
    ensures After(st, e).files == st.files
    ensures |After(st, e).servers| == |st.servers|
    ensures forall s, g | 0 <= s < |st.servers| ::
              Registered(st.servers[s], g) <==> Registered(After(st, e).servers[s], g)
  {
  }

  lemma FinishedStaysRegistered(nodes: seq<Broker>, s: int, sv: Server, owner: int, g: int)
    requires ServerInv(nodes, s, sv) && CanFinish(sv.phase) && Registered(sv, g)
    ensures Registered(Finish(sv, owner), g)
  {
  }

  lemma FinishKeepsRegistrations(st: State, s: nat)
    requires Inv(st) && Enabled(st, WorkerFinishes(s))
    ensures After(st, WorkerFinishes(s)).files == st.files
    ensures |After(st, WorkerFinishes(s)).servers| == |st.servers|
    ensures forall r, g | 0 <= r < |st.servers| && Registered(st.servers[r], g) ::
              Registered(After(st, WorkerFinishes(s)).servers[r], g)
  {
    forall g | Registered(st.servers[s], g) ensures Registered(Finished(st, s), g) {
      FinishedStaysRegistered(st.nodes, s, st.servers[s], OwnerOf(st.nodes, st.servers[s]), g);
    }
  }

  /** Starting a SUBSCRIBE lists a registered id; starting a DESTROY gives its id up, and no file lists it any more. */
  lemma StartKeepsListed(st: State, s: nat, id: int)
    requires Inv(st) && ListedInv(st) && Enabled(st, WorkerStarts(s, id))
    ensures ListedInv(After(st, WorkerStarts(s, id)))
  {
    var sv, next := st.servers[s], After(st, WorkerStarts(s, id));
    var t := sv.workerQueue[0];
    if !IsRelay(t) { NextRequest(st, s); }
    var gone := if t.msg.kind == DESTROY then t.msg.mtype else NEXT_SERVER_GLOBAL_ID;
    StartRegistrations(sv, st.files, id);
    assert KeepsRegistrations(st.servers, next.servers, gone);
    forall topic: Topic, u | u in LinesOf(next.files, topic)
      ensures RegisteredSomewhere(next.servers, u)
    {
      StartedLines(sv, st.files, id, topic, u);
      if u in LinesOf(st.files, topic) {
        ListedUserIsLive(st.files, topic, u);
        StillRegistered(st.servers, next.servers, gone, u);
      } else {
        assert Registered(next.servers[s], u);
      }
    }
  }

  lemma StartRegistrations(sv: Server, files: Files, id: int)
    requires sv.phase.Idle? && sv.workerQueue != []
    ensures var (t, started) := (sv.workerQueue[0], Start(sv, files, id).0);
            forall g :: Registered(started, g) <==> Registered(sv, g) && !(t.msg.kind == DESTROY && g == t.msg.mtype)
  {
  }

  /** A line of a topic file was there before, and is not of a user being deleted,
      or it is the subscription taken up. */
  lemma StartedLines(sv: Server, files: Files, id: int, topic: Topic, u: int)
    requires sv.workerQueue != [] && u in LinesOf(Start(sv, files, id).1, topic)
    ensures var t := sv.workerQueue[0];
            || (u in LinesOf(files, topic)
                && !(t.msg.kind == DESTROY && t.msg.mtype in files.users && u == t.msg.mtype))
            || (t.msg.kind == SUBSCRIBE && u == t.msg.mtype)
  {
    var t := sv.workerQueue[0];
    if t.msg.kind == DESTROY && t.msg.mtype in files.users { DeletedLines(files, t.msg.mtype, topic, u); }
  }

  lemma DeletedLines(f: Files, id: int, t: Topic, u: int)
    requires u in LinesOf(Deleted(f, id), t)
    ensures u != id && u in LinesOf(f, t)
  {
    WithoutTimes(f.topics[t], id, u);
  }

  lemma StepKeepsListed(st: State, e: Event)
    requires Inv(st) && ListedInv(st) && Enabled(st, e)
    ensures ListedInv(After(st, e))
  {
    if e.WorkerStarts? {
      StartKeepsListed(st, e.server, e.id);
    } else {
      if e.WorkerFinishes? { FinishKeepsRegistrations(st, e.server); } else { OtherEventsKeepRegistrations(st, e); }
      var next := After(st, e);
      assert KeepsRegistrations(st.servers, next.servers, NEXT_SERVER_GLOBAL_ID);
      forall t: Topic, u | u in LinesOf(next.files, t) ensures RegisteredSomewhere(next.servers, u) {
        ListedUserIsLive(st.files, t, u);
        StillRegistered(st.servers, next.servers, NEXT_SERVER_GLOBAL_ID, u);
      }
    }
  }

  /** In a run that starts with empty topic files, every id in a topic file is registered at some server
      that is not giving it up. */
  lemma {:induction false} ListedIdsAreRegistered(states: seq<State>, events: seq<Event>, i: nat)
    requires IsRun(states, events) && i < |states|
    requires forall t: Topic :: LinesOf(states[0].files, t) == []
    ensures ListedInv(states[i])
  {
    if i > 0 {
      ListedIdsAreRegistered(states, events, i - 1);
      RunsAreSafe(states, events, i - 1);
      StepKeepsListed(states[i - 1], events[i - 1]);
    }
  }

  lemma StartKeepsBalance(sv: Server, files: Files, id: int)
    requires sv.workerQueue != [] && Balanced(files)
    requires sv.workerQueue[0].msg.kind == CREATE ==> IsNextId(files.users.Keys, id)
    ensures Balanced(Start(sv, files, id).1)
  {
    var t := sv.workerQueue[0];
    match t.msg.kind
    case CREATE => NewIdIsClean(files, id);
    case SUBSCRIBE => if t.msg.mtype in files.users { SubscribeKeepsIndex(files, t.msg.mtype, t.msg.topic); }
    case DESTROY => DeleteKeepsIndex(files, t.msg.mtype);
    case _ =>
  }

  lemma StepKeepsBalance(st: State, e: Event)
    requires Enabled(st, e) && Balanced(st.files)
    ensures Balanced(After(st, e).files)
  {
    if e.WorkerStarts? {
      StartKeepsBalance(st.servers[e.server], st.files, e.id);
    } else {
      SameFiles(st, e);
    }
  }

  lemma SameFiles(st: State, e: Event)
    requires Enabled(st, e) && !e.WorkerStarts?
    ensures After(st, e).files == st.files
  {
  }

  /** In every run from a database whose two sides agree, every user file has each topic as often as the topic file
      lists the user. */
  lemma {:induction false} FilesStayBalanced(states: seq<State>, events: seq<Event>, i: nat)
    requires IsRun(states, events) && i < |states| && Balanced(states[0].files)
    ensures Balanced(states[i].files)
  {
    if i > 0 {
      FilesStayBalanced(states, events, i - 1);
      StepKeepsBalance(states[i - 1], events[i - 1]);
    }
  }

  lemma ListedIsInTable(st: State, t: Topic, u: int) returns (s: nat)
    requires Inv(st) && ListedInv(st) && u in LinesOf(st.files, t)
    ensures s < |st.servers| && G.Has(st.servers[s].table, u)
  {
    assert RegisteredSomewhere(st.servers, u);
    s :| 0 <= s < |st.servers| && Registered(st.servers[s], u);
    assert ServerInv(st.nodes, s, st.servers[s]);
  }

  /** With two servers, each id that is read of a topic file is in one of the two tables. */
  lemma ReadIdsAreInTables(st: State, topic: Topic)
    requires Inv(st) && ListedInv(st) && |st.servers| == 2
    ensures forall x | x in FirstClients(LinesOf(st.files, topic)) ::
              G.Has(st.servers[0].table, x) || G.Has(st.servers[1].table, x)
  {
    forall x | x in FirstClients(LinesOf(st.files, topic))
      ensures G.Has(st.servers[0].table, x) || G.Has(st.servers[1].table, x)
    {
      var s := ListedIsInTable(st, topic, x);
    }
  }

  /** Two connected servers, neither of them giving up an id, after a run from empty topic files: what a client of
      either one publishes reaches every user as often as the first fifty lines of the topic list it, hence as often
      as the topic lists it if and only if none of its lines comes later. */
  lemma TwoServersServeIffRead(states: seq<State>, events: seq<Event>, i: nat, o: nat, msg: Msg, u: int)
    requires IsRun(states, events) && i < |states| && |states[i].servers| == 2 && o < 2
    requires forall t: Topic :: LinesOf(states[0].files, t) == []
    requires Ring.DistinctNonzero(BrokerIdsOf(states[i].servers))
    requires forall s | 0 <= s < 2 ::
               && G.Has(states[i].servers[s].table, NEXT_SERVER_GLOBAL_ID)
               && !states[i].servers[s].phase.Destroying?
    requires msg.kind == PUBLISH && msg.brokerId == 0 && u > 0
    requires msg.mtype != NEXT_SERVER_GLOBAL_ID && G.Has(states[i].servers[o].table, msg.mtype)
    ensures var r := Ring.Servers(BrokerIdsOf(states[i].servers), TablesOf(states[i].servers));
            var lines := LinesOf(states[i].files, msg.topic);
            var delivered := Ring.Deliveries(r, FirstClients(lines), o, msg, u, 2);
            && delivered == Times(FirstClients(lines), u)
            && (delivered == Times(lines, u) <==> u !in Unread(lines))
  {
    var st := states[i];
    var r := Ring.Servers(BrokerIdsOf(st.servers), TablesOf(st.servers));
    var lines := LinesOf(st.files, msg.topic);
    RunsAreSafe(states, events, i);
    ReachableServersFormARing(states, events, i, msg.topic);
    ListedIdsAreRegistered(states, events, i);
    ReadIdsAreInTables(st, msg.topic);
    assert r.tables[0] == st.servers[0].table && r.tables[1] == st.servers[1].table;
    Ring.RingOfTwoDeliversToAll(r, FirstClients(lines), o, msg, u, 2);
    ListingsSplit(lines, u);
  }

  // ---- Users ----

  /** The id was created for a CREATE that then found the table full. */
  predicate Orphan(sv: Server, g: int) {
    exists k | 0 <= k < |sv.failed| :: sv.failed[k].msg.globalId == g
  }

  ghost predicate Accounted(servers: seq<Server>, g: int) {
    exists s :: 0 <= s < |servers| && (g in Claimed(servers[s]) || Orphan(servers[s], g))
  }

  ghost predicate UsersInv(st: State) {
    forall g | g in st.files.users :: Accounted(st.servers, g)
  }

  ghost predicate KeepsAccounts(before: seq<Server>, after: seq<Server>, except: set<int>) {
    && |before| == |after|
    && forall s, g | 0 <= s < |before| && g !in except && (g in Claimed(before[s]) || Orphan(before[s], g)) ::
         g in Claimed(after[s]) || Orphan(after[s], g)
  }

  lemma StillAccounted(before: seq<Server>, after: seq<Server>, except: set<int>, g: int)
    requires KeepsAccounts(before, after, except) && g !in except && Accounted(before, g)
    ensures Accounted(after, g)
  {
    var s :| 0 <= s < |before| && (g in Claimed(before[s]) || Orphan(before[s], g));
    assert g in Claimed(after[s]) || Orphan(after[s], g);
  }

  lemma OtherEventsKeepAccounts(st: State, e: Event)
    requires Enabled(st, e) && !e.WorkerStarts? && !e.WorkerFinishes?
    ensures After(st, e).files == st.files && KeepsAccounts(st.servers, After(st, e).servers, {})
  {
    assert |After(st, e).servers| == |st.servers|;
    forall s | 0 <= s < |st.servers|
      ensures Claimed(After(st, e).servers[s]) == Claimed(st.servers[s])
      ensures After(st, e).servers[s].failed == st.servers[s].failed
    {
    }
  }

  lemma FinishedStaysAccounted(nodes: seq<Broker>, s: int, sv: Server, owner: int, g: int)
    requires ServerInv(nodes, s, sv) && CanFinish(sv.phase) && (g in Claimed(sv) || Orphan(sv, g))
    ensures g in Claimed(Finish(sv, owner)) || Orphan(Finish(sv, owner), g)
  {
    var after := Finish(sv, owner);
    assert sv.failed <= after.failed;
    if Orphan(sv, g) {
      var k :| 0 <= k < |sv.failed| && sv.failed[k].msg.globalId == g;
      assert after.failed[k].msg.globalId == g;
    } else if sv.phase.Creating? && g == sv.phase.id && |sv.table| >= MAX_CLIENTS {
      assert after.failed[|sv.failed|].msg.globalId == g;
    }
  }

  lemma FinishKeepsAccounts(st: State, s: nat)
    requires Inv(st) && Enabled(st, WorkerFinishes(s))
    ensures After(st, WorkerFinishes(s)).files == st.files
    ensures KeepsAccounts(st.servers, After(st, WorkerFinishes(s)).servers, {})
  {
    var sv, after := st.servers[s], Finished(st, s);
    forall g | g in Claimed(sv) || Orphan(sv, g) ensures g in Claimed(after) || Orphan(after, g) {
      FinishedStaysAccounted(st.nodes, s, sv, OwnerOf(st.nodes, sv), g);
    }
  }

  lemma StartedAccounts(sv: Server, files: Files, id: int)
    requires sv.phase.Idle? && sv.workerQueue != []
    ensures var (t, started, after) := (sv.workerQueue[0], Start(sv, files, id).0, Start(sv, files, id).1);
            && started.failed == sv.failed
            && Claimed(started) == (if t.msg.kind == CREATE then Claimed(sv) + {id}
                                    else if t.msg.kind == DESTROY then Claimed(sv) - {t.msg.mtype} else Claimed(sv))
            && after.users.Keys == (if t.msg.kind == CREATE then files.users.Keys + {id}
                                    else if t.msg.kind == DESTROY then files.users.Keys - {t.msg.mtype}
                                    else files.users.Keys)
  {
  }

  lemma StartKeepsAccounts(st: State, s: nat, id: int)
    requires Inv(st) && UsersInv(st) && Enabled(st, WorkerStarts(s, id))
    ensures UsersInv(After(st, WorkerStarts(s, id)))
  {
    var sv, next := st.servers[s], After(st, WorkerStarts(s, id));
    var t := sv.workerQueue[0];
    StartedAccounts(sv, st.files, id);
    var gone := if t.msg.kind == DESTROY then {t.msg.mtype} else {};
    assert KeepsAccounts(st.servers, next.servers, gone);
    forall g | g in next.files.users ensures Accounted(next.servers, g) {
      if g in st.files.users {
        StillAccounted(st.servers, next.servers, gone, g);
      } else {
        assert g in Claimed(next.servers[s]);
      }
    }
  }

  lemma StepKeepsAccounts(st: State, e: Event)
    requires Inv(st) && UsersInv(st) && Enabled(st, e)
    ensures UsersInv(After(st, e))
  {
    if e.WorkerStarts? {
      StartKeepsAccounts(st, e.server, e.id);
    } else {
      if e.WorkerFinishes? { FinishKeepsAccounts(st, e.server); } else { OtherEventsKeepAccounts(st, e); }
      forall g | g in After(st, e).files.users ensures Accounted(After(st, e).servers, g) {
        StillAccounted(st.servers, After(st, e).servers, {}, g);
      }
    }
  }

  /** In a run that starts without users, every user is claimed by a server, or was left behind by a failed CREATE. */
  lemma {:induction false} EveryUserIsAccountedFor(states: seq<State>, events: seq<Event>, i: nat)
    requires IsRun(states, events) && i < |states| && states[0].files.users == map[]
    ensures UsersInv(states[i])
  {
    if i > 0 {
      EveryUserIsAccountedFor(states, events, i - 1);
      RunsAreSafe(states, events, i - 1);
      StepKeepsAccounts(states[i - 1], events[i - 1]);
    }
  }
}
