/** How often a topic file lists a user, compared with what the servers read of it. */
module Listings {
  import opened Messages
  import opened GlobalIds
  import opened Db
  import opened DbHandler
  import Ring

  /** The lines that the database handler leaves out of its reply. */
  function Unread(lines: seq<int>): seq<int> {
    if |lines| <= MAX_CLIENTS then [] else lines[MAX_CLIENTS..]
  }

  lemma ListingsSplit(lines: seq<int>, u: int)
    ensures lines == FirstClients(lines) + Unread(lines)
    ensures |lines| <= 50 <==> Unread(lines) == []
    ensures Times(lines, u) == Times(FirstClients(lines), u) + Times(Unread(lines), u)
    ensures u in Unread(lines) <==> Times(Unread(lines), u) > 0
  {
    assert lines == FirstClients(lines) + Unread(lines);
  }

  /** A user gets a copy for each line that lists it if and only if there is no such line, or its server is reached
      and none of its lines is past the first fifty; it never gets more. */
  lemma DeliversAllListedIff(r: Ring.Servers, lines: seq<int>, o: nat, msg: Msg, u: int, hops: nat)
    requires Ring.IsRing(r) && o < |r.ids| && hops >= |r.ids| && u > 0
    requires Ring.AllPositive(FirstClients(lines))
    requires msg.kind == PUBLISH && msg.brokerId == 0
    requires msg.mtype != NEXT_SERVER_GLOBAL_ID && Has(r.tables[o], msg.mtype)
    ensures Ring.Deliveries(r, FirstClients(lines), o, msg, u, hops) <= Times(lines, u)
    ensures Ring.Deliveries(r, FirstClients(lines), o, msg, u, hops) == Times(lines, u)
            <==> u !in lines || (Ring.ServedFrom(r, FirstClients(lines), o, 0, u) && u !in Unread(lines))
  {
    ListingsSplit(lines, u);
    Ring.ExactDelivery(r, FirstClients(lines), o, msg, u, hops);
  }

  // ---- A subscriber past the first fifty lines ----

  function Often(k: nat, u: int): seq<int> {
    seq(k, _ => u)
  }

  /** What `k` subscriptions of one user to one topic make of the files. */
  function SubscribedOften(f: Files, k: nat, id: int, t: Topic): (after: Files)
    requires id in f.users
    ensures after.users.Keys == f.users.Keys && LinesOf(after, t) == LinesOf(f, t) + Often(k, id)
  {
    if k == 0 then f else Subscribed(SubscribedOften(f, k - 1, id, t), id, t)
  }

  lemma OneMoreSubscriber(f: Files, k: nat, id: int, other: int, t: Topic) returns (lines: seq<int>)
    requires id in f.users && other in f.users && LinesOf(f, t) == []
    ensures lines == LinesOf(Subscribed(SubscribedOften(f, k, id, t), other, t), t)
    ensures |lines| == k + 1 && lines[k] == other && forall j | 0 <= j < k :: lines[j] == id
  {
    lines := LinesOf(f, t) + Often(k, id) + [other];
  }

  lemma LaterLineStarves(lines: seq<int>, msg: Msg)
    requires |lines| == MAX_CLIENTS + 1 && lines[MAX_CLIENTS] == 5
    requires forall k | 0 <= k < MAX_CLIENTS :: lines[k] == 3
    requires msg.kind == PUBLISH && msg.brokerId == 0 && msg.mtype == 3
    ensures Times(lines, 5) == 1 && Ring.Deliveries(Ring.PairOfServers(), FirstClients(lines), 0, msg, 5, 2) == 0
  {
    ListingsSplit(lines, 5);
    assert Unread(lines) == [5] && 5 !in FirstClients(lines);
    Ring.PairIsRing();
    Ring.ExactDelivery(Ring.PairOfServers(), FirstClients(lines), 0, msg, 5, 2);
  }

  /** Two servers with clients 3 and 5, and no id that is not registered. Client 3 subscribes fifty times to the topic,
      then client 5 once: what 3 publishes never gets to 5, although the topic lists it. */
  lemma FiftyFirstLineStarves(f: Files, msg: Msg)
    requires 3 in f.users && 5 in f.users && LinesOf(f, msg.topic) == []
    requires msg.kind == PUBLISH && msg.brokerId == 0 && msg.mtype == 3
    ensures var lines := LinesOf(Subscribed(SubscribedOften(f, 50, 3, msg.topic), 5, msg.topic), msg.topic);
            var r := Ring.PairOfServers();
            && Ring.IsRing(r) && (forall x | x in lines :: Has(r.tables[0], x) || Has(r.tables[1], x))
            && Times(lines, 5) == 1 && Ring.Deliveries(r, FirstClients(lines), 0, msg, 5, 2) == 0
  {
    var lines := OneMoreSubscriber(f, MAX_CLIENTS, 3, 5, msg.topic);
    Ring.PairIsRing();
    LaterLineStarves(lines, msg);
  }
}
