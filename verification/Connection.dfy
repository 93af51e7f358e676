/** One broker node and its two-way connection to a broker server, seen as a pipeline:
    requests on their way up, replies and copies on their way down, and the node's id table. */
module Connection {
  import opened Messages
  import opened LocalIds
  import opened Node

  /** A message with the node and the client it belongs to. The tags record where a message comes from
      (or, for a published copy, whose id it is addressed to); no handler goes by them. */
  datatype Tagged = Tagged(msg: Msg, node: int, client: int)

  /** The tag of a reply that no client will get: the error reply to a CREATE, whose id the node does not know. */
  const NOBODY := 0

  function Apply(ids: seq<Entry>, t: Tagged): seq<Entry> {
    Respond(ids, t.msg).0
  }

  /** The message, handled with this table, goes to the client it belongs to, or to nobody. */
  predicate Ready(ids: seq<Entry>, t: Tagged) {
    var g := t.msg.mtype;
    g > 0 && if t.client == NOBODY then t.msg.kind == ACK_ERROR && !HasGlobal(ids, g) else ReadyFor(ids, t, g)
  }

  predicate ReadyFor(ids: seq<Entry>, t: Tagged, g: int) {
    && t.client > 0
    && match t.msg.kind
       case ACK_CREATE => HasGlobal(ids, PENDING) && LocalOf(ids, PENDING) == t.client && !HasGlobal(ids, g)
       case ACK_DESTROY => HasGlobal(ids, g) && LocalOf(ids, g) == t.client && GlobalOf(ids, t.client) == g
       case PUBLISH => HasGlobal(ids, g) && LocalOf(ids, g) == t.client
       case ACK_OK => HasGlobal(ids, g) && LocalOf(ids, g) == t.client
       case ACK_ERROR => HasGlobal(ids, g) && LocalOf(ids, g) == t.client
       case _ => false
  }

  /** The table once all the messages on their way down have been handled. */
  function Replay(ids: seq<Entry>, down: seq<Tagged>): seq<Entry>
    decreases |down|
  {
    if down == [] then ids else Replay(Apply(ids, down[0]), down[1..])
  }

  predicate Good(ids: seq<Entry>, down: seq<Tagged>)
    decreases |down|
  {
    down == [] || (Ready(ids, down[0]) && Good(Apply(ids, down[0]), down[1..]))
  }

  predicate Sound(ids: seq<Entry>) {
    Injective(ids) && PidsPositive(ids)
  }

  /** The clients whose CREATE is acknowledged by the messages, in order. */
  function Acked(down: seq<Tagged>): seq<int> {
    if down == [] then []
    else if down[0].msg.kind == ACK_CREATE then [down[0].client] + Acked(down[1..])
    else Acked(down[1..])
  }

  /** The clients whose CREATE is among the requests, in order. */
  function Creators(up: seq<Tagged>): seq<int> {
    if up == [] then []
    else if up[0].msg.kind == CREATE then [up[0].client] + Creators(up[1..])
    else Creators(up[1..])
  }

  /** How many of the messages are requests or replies of client `c`; copies of published messages are neither. */
  function Mine(ts: seq<Tagged>, c: int): nat {
    if ts == [] then 0 else (if ts[0].client == c then 1 else 0) + Mine(ts[1..], c)
  }

  function Answers(ts: seq<Tagged>, c: int): nat {
    if ts == [] then 0
    else (if ts[0].client == c && ts[0].msg.kind != PUBLISH then 1 else 0) + Answers(ts[1..], c)
  }

  lemma ApplySound(ids: seq<Entry>, t: Tagged)
    requires Sound(ids) && Ready(ids, t)
    ensures Sound(Apply(ids, t))
    ensures Pending(ids) == Acked([t]) + Pending(Apply(ids, t))
  {
    match t.msg.kind
    case ACK_CREATE =>
      AssignEffect(ids, t.msg.mtype);
      AssignKeepsInjective(ids, t.msg.mtype);
    case ACK_DESTROY => RemoveEffect(ids, t.client);
    case _ =>
  }

  /** Handling a message for one client keeps the id of every other client. */
  lemma ApplyKeepsFirst(ids: seq<Entry>, t: Tagged, c: int)
    requires Sound(ids) && Ready(ids, t) && GlobalOf(ids, c) > 0
    requires t.client == c ==> t.msg.kind != ACK_DESTROY
    ensures GlobalOf(Apply(ids, t), c) == GlobalOf(ids, c)
  {
    match t.msg.kind
    case ACK_CREATE => AssignLookup(ids, t.msg.mtype, t.msg.mtype, c);
    case ACK_DESTROY => RemoveLookupLocal(ids, t.client, c);
    case _ =>
  }

  lemma ReadyAppends(ids: seq<Entry>, t: Tagged, l: int)
    requires Sound(ids) && Ready(ids, t) && l > 0
    ensures Ready(ids + [Entry(l, PENDING)], t)
  {
    AppendLookup(ids, l, t.msg.mtype, t.client);
  }

  lemma ApplyAppends(ids: seq<Entry>, t: Tagged, l: int)
    requires Sound(ids) && Ready(ids, t) && l > 0
    ensures Apply(ids + [Entry(l, PENDING)], t) == Apply(ids, t) + [Entry(l, PENDING)]
  {
    AppendLookup(ids, l, t.msg.mtype, t.client);
    var more := ids + [Entry(l, PENDING)];
    if t.msg.kind == ACK_CREATE {
      assert Assign(more, t.msg.mtype) == Assign(ids, t.msg.mtype) + [Entry(l, PENDING)];
    } else if t.msg.kind == ACK_DESTROY {
      assert Remove(more, t.client) == Remove(ids, t.client) + [Entry(l, PENDING)];
    }
  }

  lemma {:induction false} ReplaySound(ids: seq<Entry>, down: seq<Tagged>)
    requires Sound(ids) && Good(ids, down)
    ensures Sound(Replay(ids, down))
    decreases |down|
  {
    if down != [] {
      ApplySound(ids, down[0]);
      ReplaySound(Apply(ids, down[0]), down[1..]);
    }
  }

  /** Pending entries, oldest first, are the acknowledgements on their way followed by what stays pending. */
  lemma {:induction false} PendingSplit(ids: seq<Entry>, down: seq<Tagged>)
    requires Sound(ids) && Good(ids, down)
    ensures Pending(ids) == Acked(down) + Pending(Replay(ids, down))
    decreases |down|
  {
    if down != [] {
      ApplySound(ids, down[0]);
      PendingSplit(Apply(ids, down[0]), down[1..]);
      AckedHead(down);
      assert Acked([down[0]]) + (Acked(down[1..]) + Pending(Replay(ids, down)))
          == Acked(down) + Pending(Replay(ids, down));
    }
  }

  lemma AckedHead(down: seq<Tagged>)
    requires down != []
    ensures Acked(down) == Acked([down[0]]) + Acked(down[1..])
  {
    assert [down[0]][1..] == [];
  }

  lemma {:induction false} GoodAppend(ids: seq<Entry>, down: seq<Tagged>, t: Tagged)
    ensures Replay(ids, down + [t]) == Apply(Replay(ids, down), t)
    ensures Good(ids, down + [t]) <==> Good(ids, down) && Ready(Replay(ids, down), t)
    decreases |down|
  {
    if down == [] {
      assert down + [t] == [t];
      assert [t][1..] == [];
    } else {
      assert (down + [t])[1..] == down[1..] + [t];
      GoodAppend(Apply(ids, down[0]), down[1..], t);
    }
  }

  /** Registering one more client does not disturb the messages on their way. */
  lemma {:induction false} ReplayAppends(ids: seq<Entry>, down: seq<Tagged>, l: int)
    requires Sound(ids) && Good(ids, down) && l > 0
    ensures Good(ids + [Entry(l, PENDING)], down)
    ensures Replay(ids + [Entry(l, PENDING)], down) == Replay(ids, down) + [Entry(l, PENDING)]
    decreases |down|
  {
    if down != [] {
      ApplySound(ids, down[0]);
      ReadyAppends(ids, down[0], l);
      ApplyAppends(ids, down[0], l);
      ReplayAppends(Apply(ids, down[0]), down[1..], l);
    }
  }

  /** A client without a reply on its way keeps its id. */
  lemma {:induction false} ReplayKeepsFirst(ids: seq<Entry>, down: seq<Tagged>, c: int)
    requires Sound(ids) && Good(ids, down) && GlobalOf(ids, c) > 0 && Answers(down, c) == 0
    ensures GlobalOf(Replay(ids, down), c) == GlobalOf(ids, c)
    decreases |down|
  {
    if down != [] {
      ApplySound(ids, down[0]);
      ApplyKeepsFirst(ids, down[0], c);
      ReplayKeepsFirst(Apply(ids, down[0]), down[1..], c);
    }
  }
}
