/** What every step keeps about one connection between a broker node and its server. */
module Pipeline {
  import opened Messages
  import opened LocalIds
  import opened Node
  import opened Connection

  /** Everything that concerns one connection.
      `requests` are still to be read by the node; `up` are those on their way to the server, the one the worker
      is busy with first; `down` is what is on its way back; `held` maps the ids that the server has registered
      for this connection to the clients that own them. `registered` are the clients entered into the table so far,
      `acked` the owners of the ids acknowledged so far, `lost` the error replies of failed CREATEs. */
  datatype View = View(pid: int, ids: seq<Entry>,
                       requests: seq<Tagged>, up: seq<Tagged>, down: seq<Tagged>, replies: map<int, seq<Tagged>>,
                       waiting: set<int>, dropped: set<int>, held: map<int, int>,
                       registered: seq<int>, acked: seq<int>, lost: seq<Tagged>)

  function Final(v: View): seq<Entry> {
    Replay(v.ids, v.down)
  }

  /** Every message on its way down will find its client. Of the entries that remain pending, the last are those of
      the CREATE requests on their way up, in the same order; the others, one for each failed CREATE, are stuck.
      Ids are acknowledged in the order in which the clients were registered. */
  ghost predicate TableOk(v: View) {
    && Sound(v.ids) && Good(v.ids, v.down)
    && |Pending(Final(v))| >= |v.lost| && Pending(Final(v))[|v.lost|..] == Creators(v.up)
    && v.registered == v.acked + Pending(Final(v))
  }

  function Stuck(v: View): seq<int> {
    var pending := Pending(Final(v));
    if |v.lost| <= |pending| then pending[..|v.lost|] else pending
  }

  /** The node, once it has caught up, knows exactly the ids that the server has registered for it. */
  ghost predicate HeldOk(v: View) {
    && (forall g | g in v.held :: g > 0)
    && (forall g | g > 0 :: HasGlobal(Final(v), g) <==> g in v.held)
    && (forall g | g in v.held :: LocalOf(Final(v), g) == v.held[g])
  }

  /** A request on its way up carries the id of its client. */
  predicate RequestOk(pid: int, final: seq<Entry>, t: Tagged) {
    && t.client > 0
    && match t.msg.kind
       case CREATE => t.msg.mtype == pid
       case SUBSCRIBE => t.msg.mtype > 0 && GlobalOf(final, t.client) == t.msg.mtype
       case PUBLISH => t.msg.mtype > 0 && GlobalOf(final, t.client) == t.msg.mtype && t.msg.brokerId == 0
       case DESTROY => t.msg.mtype > 0 && GlobalOf(final, t.client) == t.msg.mtype
       case _ => false
  }

  ghost predicate UpOk(v: View) {
    forall i | 0 <= i < |v.up| :: RequestOk(v.pid, Final(v), v.up[i])
  }

  /** What client processes write: their own pid and a fresh request. */
  predicate FromClient(t: Tagged) {
    && t.msg.mtype == t.client > 0
    && !t.msg.kind.IsAck()
    && (t.msg.kind == PUBLISH ==> t.msg.brokerId == 0)
  }

  ghost predicate RequestsOk(v: View) {
    forall i | 0 <= i < |v.requests| :: FromClient(v.requests[i])
  }

  function InFlight(v: View, c: int): nat {
    Mine(v.requests, c) + Mine(v.up, c) + Answers(v.down, c) + |QueueOf(v.replies, c)|
  }

  /** A stuck client waits, once, for an answer that is not under way. */
  ghost predicate StuckOk(stuck: seq<int>, waiting: set<int>, dropped: set<int>) {
    && (forall i, j | 0 <= i < j < |stuck| :: stuck[i] != stuck[j])
    && (forall c | c in stuck :: c in waiting && c !in dropped)
  }

  /** A client that waits has one request or reply in the pipeline, unless its request was ignored or it is stuck. */
  ghost predicate CountOk(v: View, stuck: seq<int>) {
    && v.dropped <= v.waiting
    && forall c | c > 0 :: InFlight(v, c) == if c in v.waiting && c !in v.dropped && c !in stuck then 1 else 0
  }

  /** Every reply waits under the address of the client it belongs to. */
  ghost predicate RepliesOk(replies: map<int, seq<Tagged>>) {
    forall c, i | 0 <= i < |QueueOf(replies, c)| :: QueueOf(replies, c)[i].client == c > 0
  }

  ghost predicate ViewOk(v: View) {
    && TableOk(v) && HeldOk(v) && UpOk(v) && RequestsOk(v) && RepliesOk(v.replies)
    && StuckOk(Stuck(v), v.waiting, v.dropped) && CountOk(v, Stuck(v))
  }

  // ---- The steps ----

  function Sent(v: View, t: Tagged): View {
    v.(requests := v.requests + [t], waiting := v.waiting + {t.client})
  }

  function Ignored(v: View): View
    requires v.requests != []
  {
    v.(requests := v.requests[1..], dropped := v.dropped + {v.requests[0].client})
  }

  function Received(v: View, reply: Tagged): View
    requires v.requests != []
  {
    v.(requests := v.requests[1..], replies := Push(v.replies, reply.client, reply))
  }

  function Registered(v: View, t: Tagged): View
    requires v.requests != []
  {
    v.(requests := v.requests[1..], up := v.up + [t], ids := v.ids + [Entry(t.client, PENDING)],
       registered := v.registered + [t.client])
  }

  function Forwarded(v: View, t: Tagged): View
    requires v.requests != []
  {
    v.(requests := v.requests[1..], up := v.up + [t])
  }

  function Copied(v: View, t: Tagged): View {
    v.(down := v.down + [t])
  }

  function Answered(v: View, t: Tagged): View
    requires v.up != []
  {
    v.(up := v.up[1..], down := v.down + [t])
  }

  function Failed(v: View, t: Tagged, request: Tagged): View
    requires v.up != []
  {
    Answered(v, t).(lost := v.lost + [request])
  }

  function Created(v: View, t: Tagged): View
    requires v.up != []
  {
    Answered(v, t).(held := v.held[t.msg.mtype := t.client], acked := v.acked + [t.client])
  }

  function Destroyed(v: View, t: Tagged): View
    requires v.up != []
  {
    Answered(v, t).(held := v.held - {t.msg.mtype})
  }

  /** The node handles the oldest message from the server; copies go to the incoming queue. */
  function Delivered(v: View): View
    requires v.down != []
  {
    var t := v.down[0];
    var (ids, m) := Respond(v.ids, t.msg);
    v.(down := v.down[1..], ids := ids,
       replies := if m.kind == PUBLISH || m.mtype <= 0 then v.replies else Push(v.replies, m.mtype, t.(msg := m)))
  }

  function Collected(v: View, c: int): View
    requires QueueOf(v.replies, c) != []
  {
    v.(replies := v.replies[c := QueueOf(v.replies, c)[1..]], waiting := v.waiting - {c})
  }

  // ---- Counting ----

  lemma {:induction false} Appended(a: seq<Tagged>, t: Tagged, c: int)
    ensures Mine(a + [t], c) == Mine(a, c) + if t.client == c then 1 else 0
    ensures Answers(a + [t], c) == Answers(a, c) + if t.client == c && t.msg.kind != PUBLISH then 1 else 0
    ensures Creators(a + [t]) == Creators(a) + if t.msg.kind == CREATE then [t.client] else []
    ensures Acked(a + [t]) == Acked(a) + if t.msg.kind == ACK_CREATE then [t.client] else []
  {
    if a == [] {
      assert a + [t] == [t];
      assert [t][1..] == [];
    } else {
      assert (a + [t])[1..] == a[1..] + [t];
      Appended(a[1..], t, c);
    }
  }

  lemma {:induction false} CreatorIsMine(up: seq<Tagged>, c: int)
    requires c in Creators(up)
    ensures Mine(up, c) > 0
  {
    if !(up[0].msg.kind == CREATE && up[0].client == c) { CreatorIsMine(up[1..], c); }
  }

  lemma {:induction false} AckedIsAnswer(down: seq<Tagged>, c: int)
    requires c in Acked(down)
    ensures Answers(down, c) > 0
  {
    if !(down[0].msg.kind == ACK_CREATE && down[0].client == c) { AckedIsAnswer(down[1..], c); }
  }

  lemma {:induction false} MineAt(ts: seq<Tagged>, i: nat)
    requires i < |ts|
    ensures Mine(ts, ts[i].client) > 0
  {
    if i > 0 { MineAt(ts[1..], i - 1); }
  }

  lemma Pushed(replies: map<int, seq<Tagged>>, t: Tagged)
    requires RepliesOk(replies) && t.client > 0
    ensures RepliesOk(Push(replies, t.client, t))
    ensures forall d ::
              |QueueOf(Push(replies, t.client, t), d)| == |QueueOf(replies, d)| + if d == t.client then 1 else 0
  {
    forall d
      ensures QueueOf(Push(replies, t.client, t), d)
              == if d == t.client then QueueOf(replies, d) + [t] else QueueOf(replies, d)
    {
    }
  }

  lemma Popped(replies: map<int, seq<Tagged>>, c: int)
    requires RepliesOk(replies) && QueueOf(replies, c) != []
    ensures RepliesOk(replies[c := QueueOf(replies, c)[1..]])
    ensures forall d :: |QueueOf(replies[c := QueueOf(replies, c)[1..]], d)|
                        == |QueueOf(replies, d)| - if d == c then 1 else 0
  {
    var rest := replies[c := QueueOf(replies, c)[1..]];
    forall d ensures QueueOf(rest, d) == if d == c then QueueOf(replies, d)[1..] else QueueOf(replies, d) {
    }
    forall d, i | 0 <= i < |QueueOf(rest, d)| ensures QueueOf(rest, d)[i].client == d > 0 {
      assert QueueOf(rest, d)[i] == QueueOf(replies, d)[if d == c then i + 1 else i];
    }
  }

  // ---- Every step keeps the invariant ----

  lemma SentKeeps(v: View, t: Tagged)
    requires ViewOk(v) && FromClient(t) && t.client !in v.waiting
    ensures ViewOk(Sent(v, t))
  {
    forall c ensures InFlight(Sent(v, t), c) == InFlight(v, c) + if c == t.client then 1 else 0 {
      Appended(v.requests, t, c);
    }
  }

  lemma IgnoredKeeps(v: View)
    requires ViewOk(v) && v.requests != []
    ensures ViewOk(Ignored(v))
  {
    var c := v.requests[0].client;
    assert InFlight(v, c) > 0;
    forall d ensures InFlight(Ignored(v), d) == InFlight(v, d) - if d == c then 1 else 0 {
    }
  }

  lemma ReceivedKeeps(v: View, reply: Tagged)
    requires ViewOk(v) && v.requests != [] && reply.client == v.requests[0].client
    ensures ViewOk(Received(v, reply))
  {
    Pushed(v.replies, reply);
    forall d ensures InFlight(Received(v, reply), d) == InFlight(v, d) {
    }
  }

  lemma RegisteredKeeps(v: View, t: Tagged)
    requires ViewOk(v) && v.requests != [] && v.requests[0].msg.kind == CREATE
    requires t.client == v.requests[0].client && t.msg.kind == CREATE && t.msg.mtype == v.pid
    ensures ViewOk(Registered(v, t))
  {
    var w := Registered(v, t);
    assert FromClient(v.requests[0]);
    RegisteredFinal(v, t.client);
    Appended(v.up, t, t.client);
    assert TableOk(w) && Stuck(w) == Stuck(v) by {
      var pending, k := Pending(Final(v)), |v.lost|;
      assert v.registered + [t.client] == v.acked + (pending + [t.client]);
      assert (pending + [t.client])[k..] == pending[k..] + [t.client] && (pending + [t.client])[..k] == pending[..k];
    }
    forall i | 0 <= i < |w.up| ensures RequestOk(w.pid, Final(w), w.up[i]) {
      if i < |v.up| { AppendLookup(Final(v), t.client, 1, v.up[i].client); }
    }
    forall d ensures InFlight(w, d) == InFlight(v, d) {
      Appended(v.up, t, d);
    }
  }

  lemma RegisteredFinal(v: View, c: int)
    requires TableOk(v) && HeldOk(v) && c > 0
    ensures var w := v.(ids := v.ids + [Entry(c, PENDING)]);
            && HeldOk(w) && Sound(w.ids) && Good(w.ids, w.down)
            && Pending(Final(w)) == Pending(Final(v)) + [c]
            && Final(w) == Final(v) + [Entry(c, PENDING)]
  {
    ReplaySound(v.ids, v.down);
    ReplayAppends(v.ids, v.down, c);
    AppendEffect(v.ids, c);
    AppendEffect(Final(v), c);
    forall g | g > 0
      ensures HasGlobal(Final(v) + [Entry(c, PENDING)], g) <==> HasGlobal(Final(v), g)
      ensures LocalOf(Final(v) + [Entry(c, PENDING)], g) == LocalOf(Final(v), g)
    {
      AppendLookup(Final(v), c, g, c);
    }
  }

  /** A client that asks for anything else than to be registered has been given its id. */
  lemma SenderHasId(v: View)
    requires ViewOk(v) && v.requests != [] && HasLocal(v.ids, v.requests[0].client)
    ensures GlobalOf(v.ids, v.requests[0].client) > 0
    ensures Answers(v.down, v.requests[0].client) == 0
  {
    var c := v.requests[0].client;
    PendingSplit(v.ids, v.down);
    PendingMembers(v.ids, c);
    assert InFlight(v, c) <= 1;
    if c in Acked(v.down) { AckedIsAnswer(v.down, c); }
    if c in Creators(v.up) { CreatorIsMine(v.up, c); }
  }

  lemma ForwardedKeeps(v: View, t: Tagged)
    requires ViewOk(v) && v.requests != [] && HasLocal(v.ids, v.requests[0].client)
    requires v.requests[0].msg.kind in {SUBSCRIBE, PUBLISH, DESTROY}
    requires t.client == v.requests[0].client && t.msg == v.requests[0].msg.(mtype := GlobalOf(v.ids, t.client))
    ensures ViewOk(Forwarded(v, t))
  {
    var w := Forwarded(v, t);
    assert FromClient(v.requests[0]);
    SenderHasId(v);
    ReplayKeepsFirst(v.ids, v.down, t.client);
    assert Final(w) == Final(v);
    assert RequestOk(v.pid, Final(v), t);
    Appended(v.up, t, t.client);
    forall d ensures InFlight(w, d) == InFlight(v, d) {
      Appended(v.up, t, d);
    }
  }

  lemma HeldClient(v: View, g: int)
    requires ViewOk(v) && g in v.held
    ensures HasGlobal(Final(v), g) && LocalOf(Final(v), g) == v.held[g] > 0
  {
    ReplaySound(v.ids, v.down);
  }

  /** A published message for an id that the server has registered will find the client that created the id. */
  lemma CopiedKeeps(v: View, t: Tagged)
    requires ViewOk(v) && t.msg.kind == PUBLISH && t.msg.mtype in v.held && t.client == v.held[t.msg.mtype]
    ensures ViewOk(Copied(v, t))
  {
    HeldClient(v, t.msg.mtype);
    GoodAppend(v.ids, v.down, t);
    forall d ensures InFlight(Copied(v, t), d) == InFlight(v, d) {
      Appended(v.down, t, d);
    }
  }

  lemma SenderIsHeld(v: View)
    requires ViewOk(v) && v.up != [] && v.up[0].msg.kind != CREATE
    ensures v.up[0].msg.mtype in v.held && v.held[v.up[0].msg.mtype] == v.up[0].client
    ensures GlobalOf(Final(v), v.up[0].client) == v.up[0].msg.mtype > 0
  {
    ReplaySound(v.ids, v.down);
    assert RequestOk(v.pid, Final(v), v.up[0]);
    RoundTrip(Final(v), v.up[0].client);
  }

  lemma AnswerCounts(v: View, t: Tagged, d: int)
    requires v.up != [] && t.client == v.up[0].client && t.msg.kind != PUBLISH
    ensures InFlight(Answered(v, t), d) == InFlight(v, d)
  {
    Appended(v.down, t, d);
  }

  lemma AnsweredKeeps(v: View, t: Tagged)
    requires ViewOk(v) && v.up != [] && v.up[0].msg.kind in {SUBSCRIBE, PUBLISH}
    requires t.msg.kind in {ACK_OK, ACK_ERROR} && t.client == v.up[0].client && t.msg.mtype == v.up[0].msg.mtype
    ensures ViewOk(Answered(v, t))
  {
    var w := Answered(v, t);
    SenderIsHeld(v);
    HeldClient(v, t.msg.mtype);
    GoodAppend(v.ids, v.down, t);
    assert Final(w) == Final(v) && Stuck(w) == Stuck(v);
    assert Creators(w.up) == Creators(v.up);
    forall d ensures InFlight(w, d) == InFlight(v, d) {
      AnswerCounts(v, t, d);
    }
  }

  /** Pending are the clients of the acknowledgements on their way down, the stuck ones, and those of the CREATEs
      on their way up, in this order. */
  lemma PendingInOrder(v: View)
    requires TableOk(v)
    ensures Injective(v.ids) && Pending(v.ids) == Acked(v.down) + Stuck(v) + Creators(v.up)
  {
    PendingSplit(v.ids, v.down);
    var pending := Pending(Final(v));
    assert pending == pending[..|v.lost|] + pending[|v.lost|..];
  }

  lemma PendingExists(es: seq<Entry>)
    requires Pending(es) != []
    ensures HasGlobal(es, PENDING)
  {
    if !HasGlobal(es, PENDING) { NoPending(es); }
  }

  /** The client at the head of the CREATEs is neither stuck nor ignored. */
  lemma HeadCreator(v: View)
    requires ViewOk(v) && v.up != [] && v.up[0].msg.kind == CREATE
    ensures Pending(Final(v)) == Stuck(v) + Creators(v.up) && Creators(v.up)[0] == v.up[0].client > 0
    ensures v.up[0].client in v.waiting && v.up[0].client !in v.dropped && v.up[0].client !in Stuck(v)
  {
    assert RequestOk(v.pid, Final(v), v.up[0]);
    assert InFlight(v, v.up[0].client) > 0;
  }

  /** An acknowledgement goes to the oldest client that is pending by then. It is the client that asked
      if and only if none is stuck. */
  lemma OwnerIsSenderIffNoneStuck(v: View)
    requires ViewOk(v) && v.up != [] && v.up[0].msg.kind == CREATE
    ensures Pending(Final(v)) != []
    ensures Pending(Final(v))[0] == v.up[0].client <==> v.lost == []
    ensures v.lost != [] ==> Pending(Final(v))[0] == Stuck(v)[0]
  {
    HeadCreator(v);
    if v.lost != [] {
      assert Stuck(v)[0] in Stuck(v);
    }
  }

  lemma CreatedCounts(v: View, t: Tagged, d: int)
    requires v.up != [] && t.msg.kind != PUBLISH
    ensures InFlight(Answered(v, t), d)
         == InFlight(v, d) - (if d == v.up[0].client then 1 else 0) + if d == t.client then 1 else 0
  {
    Appended(v.down, t, d);
  }

  lemma OneAcknowledged(pending: seq<int>, k: nat, creators: seq<int>, acked: seq<int>)
    requires k < |pending| && pending[k..] == creators
    ensures |pending[1..]| >= k && pending[1..][k..] == creators[1..]
    ensures pending[1..][..k] == (pending[..k] + [creators[0]])[1..]
    ensures acked + pending == acked + [pending[0]] + pending[1..]
  {
  }

  lemma CreatedTable(v: View, t: Tagged)
    requires ViewOk(v) && v.up != [] && v.up[0].msg.kind == CREATE
    requires t.msg.kind == ACK_CREATE && Pending(Final(v)) != [] && t.client == Pending(Final(v))[0]
    requires t.msg.mtype > 0 && t.msg.mtype !in v.held
    ensures var w := Created(v, t);
            && TableOk(w) && Final(w) == Assign(Final(v), t.msg.mtype)
            && Pending(Final(v)) == [t.client] + Pending(Final(w))
            && Stuck(w) == (Stuck(v) + [v.up[0].client])[1..]
  {
    var w, pending := Created(v, t), Pending(Final(v));
    ReplaySound(v.ids, v.down);
    PendingExists(Final(v));
    AssignEffect(Final(v), t.msg.mtype);
    GoodAppend(v.ids, v.down, t);
    assert Final(w) == Assign(Final(v), t.msg.mtype);
    assert Pending(Final(w)) == pending[1..];
    assert Creators(v.up) == [v.up[0].client] + Creators(w.up);
    OneAcknowledged(pending, |v.lost|, Creators(v.up), v.acked);
  }

  lemma CreatedHeld(v: View, t: Tagged)
    requires HeldOk(v) && UpOk(v) && v.up != []
    requires Sound(Final(v)) && HasGlobal(Final(v), PENDING) && t.client == LocalOf(Final(v), PENDING)
    requires t.msg.mtype > 0 && t.msg.mtype !in v.held
    requires Final(Created(v, t)) == Assign(Final(v), t.msg.mtype)
    ensures HeldOk(Created(v, t)) && UpOk(Created(v, t))
  {
    var w, final, g := Created(v, t), Final(v), t.msg.mtype;
    forall h | h > 0
      ensures HasGlobal(Final(w), h) <==> h in w.held
      ensures h in w.held ==> LocalOf(Final(w), h) == w.held[h]
    {
      AssignLookup(final, g, h, t.client);
    }
    forall i | 0 <= i < |w.up| ensures RequestOk(w.pid, Final(w), w.up[i]) {
      assert w.up[i] == v.up[i + 1];
      AssignLookup(final, g, g, w.up[i].client);
    }
  }

  /** The acknowledgement of a CREATE will find its owner, whose place among the stuck the sender takes. */
  lemma CreatedKeeps(v: View, t: Tagged)
    requires ViewOk(v) && v.up != [] && v.up[0].msg.kind == CREATE
    requires t.msg.kind == ACK_CREATE && Pending(Final(v)) != [] && t.client == Pending(Final(v))[0]
    requires t.msg.mtype > 0 && t.msg.mtype !in v.held
    ensures ViewOk(Created(v, t))
    ensures Pending(Final(v)) == [t.client] + Pending(Final(Created(v, t)))
  {
    var w, stuck, sender := Created(v, t), Stuck(v), v.up[0].client;
    CreatedTable(v, t);
    ReplaySound(v.ids, v.down);
    PendingExists(Final(v));
    AssignEffect(Final(v), t.msg.mtype);
    CreatedHeld(v, t);
    HeadCreator(v);
    ShiftedStuck(stuck, sender, v.waiting, v.dropped);
    forall d | d > 0
      ensures InFlight(w, d) == if d in w.waiting && d !in w.dropped && d !in Stuck(w) then 1 else 0
    {
      CreatedCounts(v, t, d);
    }
  }

  lemma ShiftedStuck(stuck: seq<int>, sender: int, waiting: set<int>, dropped: set<int>)
    requires StuckOk(stuck, waiting, dropped) && sender in waiting && sender !in dropped && sender !in stuck
    ensures StuckOk(stuck + [sender], waiting, dropped) && StuckOk((stuck + [sender])[1..], waiting, dropped)
    ensures forall d :: d in (stuck + [sender])[1..] <==> (d in stuck || d == sender) && d != (stuck + [sender])[0]
  {
    var all := stuck + [sender];
    assert forall i, j | 0 <= i < j < |all| :: all[i] != all[j];
    forall d ensures d in all[1..] <==> (d in stuck || d == sender) && d != all[0] {
      assert d in all <==> d in stuck || d == sender;
      if d in all {
        var k :| 0 <= k < |all| && all[k] == d;
        if k > 0 { assert all[1..][k - 1] == d; }
      }
      if d in all[1..] {
        var k :| 0 <= k < |all| - 1 && all[1..][k] == d;
        assert all[k + 1] == d;
      }
    }
  }

  /** The error reply of a failed CREATE goes to nobody, and the client is stuck. */
  lemma FailedKeeps(v: View, t: Tagged, request: Tagged)
    requires ViewOk(v) && v.up != [] && v.up[0].msg.kind == CREATE
    requires t.msg.kind == ACK_ERROR && t.client == NOBODY && t.msg.mtype > 0 && t.msg.mtype !in v.held
    ensures ViewOk(Failed(v, t, request))
    ensures Stuck(Failed(v, t, request)) == Stuck(v) + [v.up[0].client]
  {
    var w := Failed(v, t, request);
    HeadCreator(v);
    GoodAppend(v.ids, v.down, t);
    assert Final(w) == Final(v);
    forall d ensures InFlight(w, d)
                  == InFlight(v, d) - (if d == v.up[0].client then 1 else 0) + if d == NOBODY then 1 else 0 {
      CreatedCounts(v, t, d);
    }
  }

  /** Giving up an id leaves everybody else's alone. */
  lemma DestroyedKeeps(v: View, t: Tagged)
    requires ViewOk(v) && v.up != [] && v.up[0].msg.kind == DESTROY
    requires t.msg.kind == ACK_DESTROY && t.client == v.up[0].client && t.msg.mtype == v.up[0].msg.mtype
    ensures ViewOk(Destroyed(v, t))
  {
    var w, final, g := Destroyed(v, t), Final(v), t.msg.mtype;
    SenderIsHeld(v);
    HeldClient(v, g);
    ReplaySound(v.ids, v.down);
    GoodAppend(v.ids, v.down, t);
    assert Final(w) == Remove(final, t.client);
    RemoveEffect(final, t.client);
    forall h | h > 0
      ensures HasGlobal(Final(w), h) <==> h in w.held
      ensures h in w.held ==> LocalOf(Final(w), h) == w.held[h]
    {
      RemoveLookupGlobal(final, t.client, h);
    }
    assert InFlight(v, t.client) <= 1;
    forall i | 0 <= i < |w.up| ensures RequestOk(w.pid, Final(w), w.up[i]) {
      assert w.up[i] == v.up[i + 1] && RequestOk(v.pid, final, v.up[i + 1]);
      MineAt(w.up, i);
      if HasLocal(final, t.client) && w.up[i].client != t.client {
        RemoveLookupLocal(final, t.client, w.up[i].client);
      }
    }
    forall d ensures InFlight(w, d) == InFlight(v, d) {
      AnswerCounts(v, t, d);
    }
  }

  lemma DeliveredKeeps(v: View)
    requires ViewOk(v) && v.down != []
    ensures ViewOk(Delivered(v))
    ensures Respond(v.ids, v.down[0].msg).1.mtype == if v.down[0].client == NOBODY then -1 else v.down[0].client
    ensures v.down[0].client == NOBODY || v.down[0].client > 0
  {
    var w, t := Delivered(v), v.down[0];
    ApplySound(v.ids, t);
    assert Apply(v.ids, t) == w.ids;
    assert Final(w) == Final(v);
    if t.client > 0 {
      Pushed(v.replies, t.(msg := Respond(v.ids, t.msg).1));
    }
    forall d | d > 0 ensures InFlight(w, d) == InFlight(v, d) {
    }
  }

  lemma CollectedKeeps(v: View, c: int)
    requires ViewOk(v) && QueueOf(v.replies, c) != []
    ensures ViewOk(Collected(v, c))
    ensures QueueOf(v.replies, c)[0].client == c
  {
    assert QueueOf(v.replies, c)[0].client == c > 0;
    assert InFlight(v, c) == 1;
    Popped(v.replies, c);
    forall d ensures InFlight(Collected(v, c), d) == InFlight(v, d) - if d == c then 1 else 0 {
    }
  }
}
