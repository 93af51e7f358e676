/** The two processes of a node, one table access or queue operation at a time: whatever they do in between,
    a node goes through the states of the transition system in which it handles a message at once. */
module NodeGrain {
  import opened Options
  import opened Messages
  import opened LocalIds
  import opened Node
  import opened Connection
  import opened Pipeline
  import opened System
  import opened SystemInvariant
  import opened NodeSteps
  import opened Safety

  /** What the request handler has in hand: a request whose sender it has looked up, a request to write on the socket,
      or a reply to put on the response queue. */
  datatype RequestHand =
    | NoRequest | Checked(request: Tagged, known: bool) | ToServer(request: Tagged) | ToClient(reply: Tagged)

  /** What the response handler has in hand: a message whose client it has looked up, or a readdressed message,
      the table being up to date, to put on the response queue. */
  datatype ReplyHand = NoReply | Found(message: Tagged, local: int) | Passing(message: Tagged)

  datatype Hands = Hands(req: RequestHand, rep: ReplyHand)

  /** A node between two accesses. */
  datatype Busy = Busy(b: Broker, h: Hands)

  // ---- The request handler ----

  /** It looks the sender up. */
  function TakeRequest(n: Busy): Busy
    requires n.h.req.NoRequest? && n.b.requests != []
  {
    var t := n.b.requests[0];
    Busy(n.b.(requests := n.b.requests[1..]), n.h.(req := Checked(t, HasLocal(n.b.ids, t.msg.mtype))))
  }

  /** What it does then goes by the outcome of that lookup. */
  function ActionOf(n: Busy): Action
    requires n.h.req.Checked?
  {
    var t := n.h.req.request;
    ActionOn(n.h.req.known, n.b.ids, MsgsOf(QueueOf(n.b.incoming, t.msg.mtype)), t.msg)
  }

  /** It registers the sender or looks its id up, or takes the oldest published message. */
  function ActOnRequest(n: Busy): Busy
    requires n.h.req.Checked?
  {
    var (b, t) := (n.b, n.h.req.request);
    match ActionOf(n)
    case Ignore => Busy(b.(dropped := b.dropped + {t.client}), n.h.(req := NoRequest))
    case Answer(reply, _) =>
      Busy(b.(incoming := var inbox := QueueOf(b.incoming, t.msg.mtype);
                          if inbox == [] then b.incoming else b.incoming[t.msg.mtype := inbox[1..]]),
           n.h.(req := ToClient(t.(msg := reply))))
    case Forward(ids, request) =>
      Busy(b.(ids := ids, registered := if t.msg.kind == CREATE then b.registered + [t.client] else b.registered),
           n.h.(req := ToServer(t.(msg := request))))
    case Hang => n
  }

  function SendRequest(n: Busy): Busy
    requires n.h.req.ToServer? || n.h.req.ToClient?
  {
    var h := n.h.(req := NoRequest);
    match n.h.req
    case ToServer(t) => Busy(n.b.(up := n.b.up + [t]), h)
    case ToClient(t) => Busy(n.b.(replies := Push(n.b.replies, t.msg.mtype, t)), h)
  }

  // ---- The response handler ----

  /** It gives the id to the oldest pending client, or looks the id up. */
  function TakeReply(n: Busy): Busy
    requires n.h.rep.NoReply? && n.b.down != []
  {
    var (b, t) := (n.b.(down := n.b.down[1..]), n.b.down[0]);
    if t.msg.kind == ACK_CREATE then
      Busy(b.(ids := Assign(b.ids, t.msg.mtype)),
           n.h.(rep := Passing(t.(msg := t.msg.(mtype := LocalOf(b.ids, PENDING))))))
    else Busy(b, n.h.(rep := Found(t, LocalOf(b.ids, t.msg.mtype))))
  }

  function PutReply(replies: map<int, seq<Tagged>>, t: Tagged): map<int, seq<Tagged>> {
    if t.msg.mtype > 0 then Push(replies, t.msg.mtype, t) else replies
  }

  /** It takes the client out of the table, or puts the message on one of its queues. */
  function ActOnReply(n: Busy): Busy
    requires n.h.rep.Found?
  {
    var (b, t, l) := (n.b, n.h.rep.message, n.h.rep.local);
    var m := t.(msg := t.msg.(mtype := l));
    if t.msg.kind == ACK_DESTROY then Busy(b.(ids := Remove(b.ids, l)), n.h.(rep := Passing(m)))
    else if t.msg.kind == PUBLISH then
      Busy(b.(incoming := if l > 0 then Push(b.incoming, l, m) else b.incoming), n.h.(rep := NoReply))
    else Busy(b.(replies := PutReply(b.replies, m)), n.h.(rep := NoReply))
  }

  function SendReply(n: Busy): Busy
    requires n.h.rep.Passing?
  {
    Busy(n.b.(replies := PutReply(n.b.replies, n.h.rep.message)), n.h.(rep := NoReply))
  }

  // ---- The node seen as a whole ----

  /** What is in hand before the access that counts is still to be handled; what is in hand after it is already sent. */
  function Whole(n: Busy): Broker {
    var (b, h) := (n.b, n.h);
    var replies := if h.rep.Passing? then PutReply(b.replies, h.rep.message) else b.replies;
    b.(requests := (if h.req.Checked? then [h.req.request] else []) + b.requests,
       up := b.up + (if h.req.ToServer? then [h.req.request] else []),
       down := (if h.rep.Found? then [h.rep.message] else []) + b.down,
       replies := if h.req.ToClient? then Push(replies, h.req.reply.msg.mtype, h.req.reply) else replies)
  }

  /** Lookups are still right. */
  predicate HandsOk(n: Busy) {
    && (n.h.req.Checked? ==> n.h.req.known == HasLocal(n.b.ids, n.h.req.request.msg.mtype))
    && (n.h.rep.Found? ==>
          && n.h.rep.message.msg.kind != ACK_CREATE
          && n.h.rep.local == LocalOf(n.b.ids, n.h.rep.message.msg.mtype))
  }

  ghost predicate BusyOk(n: Busy, id: int, sv: Server) {
    HandsOk(n) && ViewOk(ViewFor(Whole(n), id, sv))
  }

  // ---- Steps of the request handler ----

  lemma TakeRequestRefines(n: Busy)
    requires HandsOk(n) && n.h.req.NoRequest? && n.b.requests != []
    ensures HandsOk(TakeRequest(n)) && Whole(TakeRequest(n)) == Whole(n)
  {
    assert [n.b.requests[0]] + n.b.requests[1..] == [] + n.b.requests;
  }

  /** Registering a client does not change whom a message from the server is for. */
  lemma FoundStays(n: Busy, id: int, sv: Server, c: int)
    requires BusyOk(n, id, sv) && n.h.rep.Found?
    ensures LocalOf(n.b.ids + [Entry(c, PENDING)], n.h.rep.message.msg.mtype) == n.h.rep.local
  {
    assert ViewFor(Whole(n), id, sv).down[0] == n.h.rep.message;
    AppendLookup(n.b.ids, c, n.h.rep.message.msg.mtype, 0);
  }

  lemma WholeHandling(n: Busy)
    requires HandsOk(n) && n.h.req.Checked?
    ensures Whole(n).requests == [n.h.req.request] + n.b.requests && Handling(Whole(n)) == ActionOf(n)
  {
  }

  lemma ActOnRequestWhole(n: Busy)
    requires HandsOk(n) && n.h.req.Checked? && !ActionOf(n).Hang?
    ensures Whole(n).requests != [] && Whole(ActOnRequest(n)) == HandleRequest(Whole(n))
  {
    WholeHandling(n);
    assert ([n.h.req.request] + n.b.requests)[1..] == n.b.requests == [] + n.b.requests;
    assert n.b.up + [] == n.b.up;
  }

  lemma ActOnRequestRefines(n: Busy, id: int, sv: Server)
    requires BusyOk(n, id, sv) && n.h.req.Checked? && !ActionOf(n).Hang?
    ensures Whole(n).requests != [] && !Handling(Whole(n)).Hang?
    ensures Whole(ActOnRequest(n)) == HandleRequest(Whole(n)) && HandsOk(ActOnRequest(n))
  {
    WholeHandling(n);
    ActOnRequestWhole(n);
    if n.h.rep.Found? { FoundStays(n, id, sv, n.h.req.request.msg.mtype); }
  }

  lemma PushCommutes(q: map<int, seq<Tagged>>, k: int, x: Tagged, l: int, y: Tagged)
    requires k != l
    ensures Push(Push(q, k, x), l, y) == Push(Push(q, l, y), k, x)
  {
  }

  /** The client that a reply in hand is for has no other answer under way. */
  lemma NoOtherAnswer(n: Busy, id: int, sv: Server)
    requires BusyOk(n, id, sv) && n.h.req.ToClient?
    ensures var (c, w) := (n.h.req.reply.msg.mtype, Whole(n));
            && (w.down != [] && w.down[0].msg.kind != PUBLISH ==> Respond(w.ids, w.down[0].msg).1.mtype != c)
            && (n.h.rep.Passing? && n.h.rep.message.msg.mtype > 0 ==> n.h.rep.message.msg.mtype != c)
  {
    var (c, w, v) := (n.h.req.reply.msg.mtype, Whole(n), ViewFor(Whole(n), id, sv));
    var q := QueueOf(w.replies, c);
    assert q[|q| - 1] == n.h.req.reply;
    assert c > 0 && InFlight(v, c) <= 1;
    if w.down != [] && w.down[0].msg.kind != PUBLISH {
      assert v.down[0] == w.down[0];
      DeliveredKeeps(v);
    }
  }

  lemma SendRequestRefines(n: Busy, id: int, sv: Server)
    requires BusyOk(n, id, sv) && (n.h.req.ToServer? || n.h.req.ToClient?)
    ensures HandsOk(SendRequest(n)) && Whole(SendRequest(n)) == Whole(n)
  {
    if n.h.req.ToServer? {
      assert n.b.up + [n.h.req.request] + [] == n.b.up + [n.h.req.request];
    } else {
      NoOtherAnswer(n, id, sv);
      if n.h.rep.Passing? && n.h.rep.message.msg.mtype > 0 {
        PushCommutes(n.b.replies, n.h.req.reply.msg.mtype, n.h.req.reply,
                     n.h.rep.message.msg.mtype, n.h.rep.message);
      }
      assert n.b.up + [] == n.b.up;
    }
  }

  // ---- Steps of the response handler ----

  lemma AssignKeepsLocals(es: seq<Entry>, g: int, c: int)
    ensures HasLocal(Assign(es, g), c) <==> HasLocal(es, c)
  {
    var i := IndexOfLocal(es, c);
    if 0 <= i { LocalIndexIs(Assign(es, g), c, i); }
  }

  lemma RemoveKeepsLocals(es: seq<Entry>, l: int, c: int)
    requires c != l
    ensures HasLocal(Remove(es, l), c) <==> HasLocal(es, c)
  {
    if HasLocal(es, l) {
      RemoveShifts(es, l);
      if HasLocal(es, c) {
        var (i, p) := (IndexOfLocal(es, c), IndexOfLocal(es, l));
        LocalIndexIs(Remove(es, l), c, if i < p then i else i - 1);
      }
    }
  }

  /** Putting a message on the response queue commutes with putting the reply in hand there. */
  lemma PutCommutes(n: Busy, id: int, sv: Server, replies: map<int, seq<Tagged>>, m: Tagged)
    requires BusyOk(n, id, sv) && Whole(n).down != [] && Whole(n).down[0].msg.kind != PUBLISH
    requires m.msg.mtype == Respond(Whole(n).ids, Whole(n).down[0].msg).1.mtype
    ensures n.h.req.ToClient? ==>
              PutReply(Push(replies, n.h.req.reply.msg.mtype, n.h.req.reply), m)
              == Push(PutReply(replies, m), n.h.req.reply.msg.mtype, n.h.req.reply)
  {
    if n.h.req.ToClient? && m.msg.mtype > 0 {
      NoOtherAnswer(n, id, sv);
      PushCommutes(replies, n.h.req.reply.msg.mtype, n.h.req.reply, m.msg.mtype, m);
    }
  }

  lemma TakeAcknowledgementRefines(n: Busy, id: int, sv: Server)
    requires BusyOk(n, id, sv) && n.h.rep.NoReply? && n.b.down != [] && n.b.down[0].msg.kind == ACK_CREATE
    ensures HandsOk(TakeReply(n)) && Whole(n).down != [] && Whole(TakeReply(n)) == HandleReply(Whole(n))
  {
    var t := n.b.down[0];
    assert Whole(n).down == n.b.down && Whole(TakeReply(n)).down == n.b.down[1..];
    if n.h.req.Checked? { AssignKeepsLocals(n.b.ids, t.msg.mtype, n.h.req.request.msg.mtype); }
    PutCommutes(n, id, sv, n.b.replies, t.(msg := t.msg.(mtype := LocalOf(n.b.ids, PENDING))));
  }

  lemma TakeOtherRefines(n: Busy)
    requires HandsOk(n) && n.h.rep.NoReply? && n.b.down != [] && n.b.down[0].msg.kind != ACK_CREATE
    ensures HandsOk(TakeReply(n)) && Whole(TakeReply(n)) == Whole(n)
  {
    assert [n.b.down[0]] + n.b.down[1..] == [] + n.b.down;
  }

  /** The client that gives up its id is not the one whose request is in hand. */
  lemma OtherClientChecked(n: Busy, id: int, sv: Server)
    requires BusyOk(n, id, sv) && n.h.req.Checked? && n.h.rep.Found? && n.h.rep.message.msg.kind == ACK_DESTROY
    ensures n.h.rep.local != n.h.req.request.msg.mtype
  {
    var v := ViewFor(Whole(n), id, sv);
    assert v.requests[0] == n.h.req.request && v.down[0] == n.h.rep.message;
    assert FromClient(v.requests[0]);
    DeliveredKeeps(v);
    MineAt(v.requests, 0);
    assert InFlight(v, n.h.req.request.client) <= 1;
  }

  lemma ActOnReplyRefines(n: Busy, id: int, sv: Server)
    requires BusyOk(n, id, sv) && n.h.rep.Found?
    ensures HandsOk(ActOnReply(n)) && Whole(n).down != [] && Whole(ActOnReply(n)) == HandleReply(Whole(n))
  {
    var (t, l) := (n.h.rep.message, n.h.rep.local);
    assert Whole(n).down[0] == t && Whole(n).down[1..] == n.b.down && Whole(ActOnReply(n)).down == n.b.down;
    if t.msg.kind == ACK_DESTROY && n.h.req.Checked? {
      OtherClientChecked(n, id, sv);
      RemoveKeepsLocals(n.b.ids, l, n.h.req.request.msg.mtype);
    }
    if t.msg.kind != PUBLISH { PutCommutes(n, id, sv, n.b.replies, t.(msg := t.msg.(mtype := l))); }
  }

  lemma SendReplyRefines(n: Busy)
    requires HandsOk(n) && n.h.rep.Passing?
    ensures HandsOk(SendReply(n)) && Whole(SendReply(n)) == Whole(n)
  {
  }

  // ---- The whole system ----

  datatype Fine = Fine(st: State, hands: seq<Hands>)

  /** The accesses of the two processes of a node, and the events of everybody else. */
  datatype FineEvent =
    | TakesRequest(node: nat)
    | ActsOnRequest(node: nat)
    | SendsRequest(node: nat)
    | TakesReply(node: nat)
    | ActsOnReply(node: nat)
    | SendsReply(node: nat)
    | Other(event: Event)

  predicate Paired(f: Fine) {
    |f.hands| == |f.st.nodes|
  }

  function BusyAt(f: Fine, n: nat): Busy
    requires Paired(f) && n < |f.st.nodes|
  {
    Busy(f.st.nodes[n], f.hands[n])
  }

  /** The state of the transition system in which nodes handle messages at once. */
  function Abs(f: Fine): State
    requires Paired(f)
  {
    f.st.(nodes := seq(|f.st.nodes|, n requires 0 <= n < |f.st.nodes| => Whole(BusyAt(f, n))))
  }

  function WithBusy(f: Fine, n: nat, x: Busy): Fine
    requires Paired(f) && n < |f.st.nodes|
  {
    Fine(WithNode(f.st, n, x.b), f.hands[n := x.h])
  }

  ghost predicate FineEnabled(f: Fine, e: FineEvent) {
    Paired(f) &&
    match e
    case TakesRequest(n) => n < |f.st.nodes| && f.hands[n].req.NoRequest? && f.st.nodes[n].requests != []
    case ActsOnRequest(n) => n < |f.st.nodes| && f.hands[n].req.Checked? && !ActionOf(BusyAt(f, n)).Hang?
    case SendsRequest(n) => n < |f.st.nodes| && (f.hands[n].req.ToServer? || f.hands[n].req.ToClient?)
    case TakesReply(n) => n < |f.st.nodes| && f.hands[n].rep.NoReply? && f.st.nodes[n].down != []
    case ActsOnReply(n) => n < |f.st.nodes| && f.hands[n].rep.Found?
    case SendsReply(n) => n < |f.st.nodes| && f.hands[n].rep.Passing?
    case Other(o) => !o.NodeHandlesRequest? && !o.NodeHandlesReply? && Enabled(f.st, o)
  }

  /** Only the owner with whom an acknowledgement is tagged is read off the whole nodes. */
  ghost function FineAfter(f: Fine, e: FineEvent): Fine
    requires FineEnabled(f, e)
  {
    match e
    case TakesRequest(n) => WithBusy(f, n, TakeRequest(BusyAt(f, n)))
    case ActsOnRequest(n) => WithBusy(f, n, ActOnRequest(BusyAt(f, n)))
    case SendsRequest(n) => WithBusy(f, n, SendRequest(BusyAt(f, n)))
    case TakesReply(n) => WithBusy(f, n, TakeReply(BusyAt(f, n)))
    case ActsOnReply(n) => WithBusy(f, n, ActOnReply(BusyAt(f, n)))
    case SendsReply(n) => WithBusy(f, n, SendReply(BusyAt(f, n)))
    case Other(o) =>
      f.(st := if o.WorkerFinishes? then WithServer(f.st, o.server, Finished(Abs(f), o.server)) else After(f.st, o))
  }

  /** The access that counts: a request is handled when the table or the queue of published messages is accessed,
      a reply when the table is updated or, if it is not, when the message is put on a queue. */
  function Coarse(f: Fine, e: FineEvent): Option<Event> {
    match e
    case ActsOnRequest(n) => Some(NodeHandlesRequest(n))
    case TakesReply(n) =>
      if n < |f.st.nodes| && f.st.nodes[n].down != [] && f.st.nodes[n].down[0].msg.kind == ACK_CREATE
      then Some(NodeHandlesReply(n)) else None
    case ActsOnReply(n) => Some(NodeHandlesReply(n))
    case Other(o) => Some(o)
    case _ => None
  }

  ghost predicate FineOk(f: Fine) {
    Paired(f) && Inv(Abs(f)) && forall n | 0 <= n < |f.st.nodes| :: HandsOk(BusyAt(f, n))
  }

  lemma NodeIsOk(f: Fine, n: nat)
    requires FineOk(f) && n < |f.st.nodes|
    ensures BusyOk(BusyAt(f, n), n, ServerOf(Abs(f), n))
  {
    assert NodeInv(Abs(f), n);
  }

  lemma AbsWithBusy(f: Fine, n: nat, x: Busy)
    requires Paired(f) && n < |f.st.nodes|
    ensures Paired(WithBusy(f, n, x)) && Abs(WithBusy(f, n, x)) == WithNode(Abs(f), n, Whole(x))
    ensures (forall m | 0 <= m < |f.st.nodes| :: HandsOk(BusyAt(f, m))) && HandsOk(x)
            ==> forall m | 0 <= m < |f.st.nodes| :: HandsOk(BusyAt(WithBusy(f, n, x), m))
  {
    var g := WithBusy(f, n, x);
    assert BusyAt(g, n) == x;
    forall m | 0 <= m < |f.st.nodes| && m != n ensures BusyAt(g, m) == BusyAt(f, m) {
    }
  }

  lemma SameNodes(f: Fine, next: Fine)
    requires Paired(f) && next.st.nodes == f.st.nodes && next.hands == f.hands
    ensures Paired(next) && Abs(next).nodes == Abs(f).nodes
    ensures forall n | 0 <= n < |f.st.nodes| :: BusyAt(next, n) == BusyAt(f, n)
  {
    assert Abs(next).nodes == Abs(f).nodes;
  }

  /** The whole nodes stay as they are, or take the step `c`, and lookups are still right. */
  ghost predicate Amounts(f: Fine, next: Fine, c: Option<Event>)
    requires Paired(f)
  {
    && Paired(next) && (forall n | 0 <= n < |next.st.nodes| :: HandsOk(BusyAt(next, n)))
    && match c
       case None => Abs(next) == Abs(f)
       case Some(o) => Enabled(Abs(f), o) && Abs(next) == After(Abs(f), o)
  }

  ghost predicate Refines(f: Fine, e: FineEvent)
    requires FineEnabled(f, e)
  {
    Amounts(f, FineAfter(f, e), Coarse(f, e))
  }

  lemma AccessIsNoStep(f: Fine, n: nat, y: Busy)
    requires FineOk(f) && n < |f.st.nodes| && HandsOk(y) && Whole(y) == Whole(BusyAt(f, n))
    ensures Amounts(f, WithBusy(f, n, y), None)
  {
    AbsWithBusy(f, n, y);
    assert Abs(f).nodes[n] == Whole(y) && WithNode(Abs(f), n, Whole(y)) == Abs(f);
  }

  lemma AccessIsRequest(f: Fine, n: nat, y: Busy)
    requires FineOk(f) && n < |f.st.nodes| && HandsOk(y)
    requires var b := Whole(BusyAt(f, n)); b.requests != [] && !Handling(b).Hang? && Whole(y) == HandleRequest(b)
    ensures Amounts(f, WithBusy(f, n, y), Some(NodeHandlesRequest(n)))
  {
    AbsWithBusy(f, n, y);
    assert Abs(f).nodes[n] == Whole(BusyAt(f, n));
  }

  lemma AccessIsReply(f: Fine, n: nat, y: Busy)
    requires FineOk(f) && n < |f.st.nodes| && HandsOk(y)
    requires var b := Whole(BusyAt(f, n)); b.down != [] && Whole(y) == HandleReply(b)
    ensures Amounts(f, WithBusy(f, n, y), Some(NodeHandlesReply(n)))
  {
    AbsWithBusy(f, n, y);
    assert Abs(f).nodes[n] == Whole(BusyAt(f, n));
  }

  lemma TakesRequestRefines(f: Fine, n: nat)
    requires FineOk(f) && FineEnabled(f, TakesRequest(n))
    ensures Refines(f, TakesRequest(n))
  {
    TakeRequestRefines(BusyAt(f, n));
    AccessIsNoStep(f, n, TakeRequest(BusyAt(f, n)));
  }

  lemma ActsOnRequestRefines(f: Fine, n: nat)
    requires FineOk(f) && FineEnabled(f, ActsOnRequest(n))
    ensures Refines(f, ActsOnRequest(n))
  {
    NodeIsOk(f, n);
    ActOnRequestRefines(BusyAt(f, n), n, ServerOf(Abs(f), n));
    AccessIsRequest(f, n, ActOnRequest(BusyAt(f, n)));
  }

  lemma SendsRequestRefines(f: Fine, n: nat)
    requires FineOk(f) && FineEnabled(f, SendsRequest(n))
    ensures Refines(f, SendsRequest(n))
  {
    NodeIsOk(f, n);
    SendRequestRefines(BusyAt(f, n), n, ServerOf(Abs(f), n));
    AccessIsNoStep(f, n, SendRequest(BusyAt(f, n)));
  }

  lemma TakesReplyRefines(f: Fine, n: nat)
    requires FineOk(f) && FineEnabled(f, TakesReply(n))
    ensures Refines(f, TakesReply(n))
  {
    var x := BusyAt(f, n);
    NodeIsOk(f, n);
    if x.b.down[0].msg.kind == ACK_CREATE {
      TakeAcknowledgementRefines(x, n, ServerOf(Abs(f), n));
      AccessIsReply(f, n, TakeReply(x));
    } else {
      TakeOtherRefines(x);
      AccessIsNoStep(f, n, TakeReply(x));
    }
  }

  lemma ActsOnReplyRefines(f: Fine, n: nat)
    requires FineOk(f) && FineEnabled(f, ActsOnReply(n))
    ensures Refines(f, ActsOnReply(n))
  {
    NodeIsOk(f, n);
    ActOnReplyRefines(BusyAt(f, n), n, ServerOf(Abs(f), n));
    AccessIsReply(f, n, ActOnReply(BusyAt(f, n)));
  }

  lemma SendsReplyRefines(f: Fine, n: nat)
    requires FineOk(f) && FineEnabled(f, SendsReply(n))
    ensures Refines(f, SendsReply(n))
  {
    SendReplyRefines(BusyAt(f, n));
    AccessIsNoStep(f, n, SendReply(BusyAt(f, n)));
  }

  // ---- What clients, connections and workers do meanwhile ----

  function Pop(replies: map<int, seq<Tagged>>, c: int): map<int, seq<Tagged>>
    requires QueueOf(replies, c) != []
  {
    replies[c := QueueOf(replies, c)[1..]]
  }

  lemma PopCommutes(q: map<int, seq<Tagged>>, k: int, x: Tagged, c: int)
    requires k != c && QueueOf(q, c) != []
    ensures QueueOf(Push(q, k, x), c) != [] && Pop(Push(q, k, x), c) == Push(Pop(q, c), k, x)
  {
  }

  /** A client that has a reply to receive has none in hand. */
  lemma NoneInHand(n: Busy, id: int, sv: Server, c: int)
    requires BusyOk(n, id, sv) && QueueOf(n.b.replies, c) != []
    ensures n.h.req.ToClient? ==> n.h.req.reply.msg.mtype != c
    ensures n.h.rep.Passing? && n.h.rep.message.msg.mtype > 0 ==> n.h.rep.message.msg.mtype != c
  {
    var v := ViewFor(Whole(n), id, sv);
    assert QueueOf(v.replies, c)[0].client == c > 0 && InFlight(v, c) <= 1;
    assert |QueueOf(Whole(n).replies, c)| == 1;
  }

  lemma ReceiveCommutes(n: Busy, id: int, sv: Server, c: int)
    requires BusyOk(n, id, sv) && QueueOf(n.b.replies, c) != []
    ensures var rest := n.b.(replies := Pop(n.b.replies, c), waiting := n.b.waiting - {c});
            && QueueOf(Whole(n).replies, c) != []
            && Whole(Busy(rest, n.h))
               == Whole(n).(replies := Pop(Whole(n).replies, c), waiting := Whole(n).waiting - {c})
  {
    NoneInHand(n, id, sv, c);
    var passed := if n.h.rep.Passing? then PutReply(n.b.replies, n.h.rep.message) else n.b.replies;
    if n.h.rep.Passing? && n.h.rep.message.msg.mtype > 0 {
      PopCommutes(n.b.replies, n.h.rep.message.msg.mtype, n.h.rep.message, c);
    }
    if n.h.req.ToClient? { PopCommutes(passed, n.h.req.reply.msg.mtype, n.h.req.reply, c); }
  }

  /** An event that changes a node otherwise than by its two processes. */
  lemma NodeEventRefines(f: Fine, o: Event, b: Broker)
    requires FineOk(f) && FineEnabled(f, Other(o)) && (o.ClientSends? || o.ClientReceives?)
    requires Enabled(Abs(f), o) && After(f.st, o) == WithNode(f.st, o.node, b) && b.ids == f.st.nodes[o.node].ids
    requires After(Abs(f), o) == WithNode(Abs(f), o.node, Whole(Busy(b, f.hands[o.node])))
    ensures Refines(f, Other(o))
  {
    AbsWithBusy(f, o.node, Busy(b, f.hands[o.node]));
    assert WithBusy(f, o.node, Busy(b, f.hands[o.node])) == FineAfter(f, Other(o));
  }

  lemma SendsRefines(f: Fine, n: nat, t: Tagged)
    requires FineOk(f) && FineEnabled(f, Other(ClientSends(n, t)))
    ensures Refines(f, Other(ClientSends(n, t)))
  {
    var x := BusyAt(f, n);
    var b := x.b.(requests := x.b.requests + [t], waiting := x.b.waiting + {t.client});
    assert Abs(f).nodes[n] == Whole(x);
    assert Whole(Busy(b, x.h)).requests == Whole(x).requests + [t];
    NodeEventRefines(f, ClientSends(n, t), b);
  }

  lemma ReceivesRefines(f: Fine, n: nat, c: int)
    requires FineOk(f) && FineEnabled(f, Other(ClientReceives(n, c)))
    ensures Refines(f, Other(ClientReceives(n, c)))
  {
    var x := BusyAt(f, n);
    NodeIsOk(f, n);
    ReceiveCommutes(x, n, ServerOf(Abs(f), n), c);
    assert Abs(f).nodes[n] == Whole(x);
    NodeEventRefines(f, ClientReceives(n, c), x.b.(replies := Pop(x.b.replies, c), waiting := x.b.waiting - {c}));
  }

  /** An event at the socket changes a node and its server. */
  lemma SocketEventRefines(f: Fine, o: Event, b: Broker, sv: Server)
    requires FineOk(f) && FineEnabled(f, Other(o)) && (o.RequestArrives? || o.ReplyLeaves?)
    requires b.ids == f.st.nodes[o.node].ids && b.server == f.st.nodes[o.node].server
    requires After(f.st, o) == WithServer(WithNode(f.st, o.node, b), b.server, sv) && Enabled(Abs(f), o)
    requires After(Abs(f), o) == WithServer(WithNode(Abs(f), o.node, Whole(Busy(b, f.hands[o.node]))), b.server, sv)
    ensures Refines(f, Other(o))
  {
    var (n, y) := (o.node, Busy(b, f.hands[o.node]));
    AbsWithBusy(f, n, y);
    var (next, moved) := (FineAfter(f, Other(o)), WithBusy(f, n, y));
    SameNodes(moved, next);
  }

  lemma ArrivesRefines(f: Fine, n: nat)
    requires FineOk(f) && FineEnabled(f, Other(RequestArrives(n)))
    ensures Refines(f, Other(RequestArrives(n)))
  {
    var (x, sv) := (BusyAt(f, n), ServerOf(f.st, n));
    var (b, t) := (x.b.(up := x.b.up[1..]), Arrive(x.b.up[0], x.b.pid));
    assert Abs(f).nodes[n] == Whole(x);
    assert Whole(x).up[0] == x.b.up[0] && Whole(x).up[1..] == Whole(Busy(b, x.h)).up;
    SocketEventRefines(f, RequestArrives(n), b,
                       if Acceptable(t.msg) then sv.(workerQueue := sv.workerQueue + [t]) else sv);
  }

  lemma LeavesRefines(f: Fine, n: nat)
    requires FineOk(f) && FineEnabled(f, Other(ReplyLeaves(n)))
    ensures Refines(f, Other(ReplyLeaves(n)))
  {
    var (x, sv) := (BusyAt(f, n), ServerOf(f.st, n));
    var q := QueueOf(sv.respQueue, x.b.pid);
    var b := if Sendable(q[0].msg.kind) then x.b.(down := x.b.down + [Leave(q[0])]) else x.b;
    assert Abs(f).nodes[n] == Whole(x);
    if Sendable(q[0].msg.kind) { assert Whole(Busy(b, x.h)).down == Whole(x).down + [Leave(q[0])]; }
    SocketEventRefines(f, ReplyLeaves(n), b, sv.(respQueue := sv.respQueue[x.b.pid := q[1..]]));
  }

  lemma ServerEventRefines(f: Fine, o: Event)
    requires FineOk(f) && FineEnabled(f, Other(o))
    requires o.WorkerStarts? || o.WorkerSends? || o.WorkerFinishes? || o.RelayLeaves? || o.RelayArrives?
    ensures Refines(f, Other(o))
  {
    SameNodes(f, FineAfter(f, Other(o)));
  }

  lemma OtherRefines(f: Fine, o: Event)
    requires FineOk(f) && FineEnabled(f, Other(o))
    ensures Refines(f, Other(o))
  {
    match o
    case ClientSends(n, t) => SendsRefines(f, n, t);
    case ClientReceives(n, c) => ReceivesRefines(f, n, c);
    case RequestArrives(n) => ArrivesRefines(f, n);
    case ReplyLeaves(n) => LeavesRefines(f, n);
    case NodeHandlesRequest(_) =>
    case NodeHandlesReply(_) =>
    case _ => ServerEventRefines(f, o);
  }

  lemma AccessRefines(f: Fine, e: FineEvent)
    requires FineOk(f) && FineEnabled(f, e)
    ensures Refines(f, e)
  {
    match e
    case Other(o) => OtherRefines(f, o);
    case TakesRequest(n) => TakesRequestRefines(f, n);
    case ActsOnRequest(n) => ActsOnRequestRefines(f, n);
    case SendsRequest(n) => SendsRequestRefines(f, n);
    case TakesReply(n) => TakesReplyRefines(f, n);
    case ActsOnReply(n) => ActsOnReplyRefines(f, n);
    case SendsReply(n) => SendsReplyRefines(f, n);
  }

  lemma RefinedIsOk(f: Fine, e: FineEvent, next: Fine)
    requires FineOk(f) && FineEnabled(f, e) && Refines(f, e) && next == FineAfter(f, e)
    ensures FineOk(next)
  {
    match Coarse(f, e)
    case None =>
    case Some(c) => StepKeepsInv(Abs(f), c);
  }

  /** Every access amounts to a step of the transition system in which nodes handle messages at once, or to none. */
  lemma FineStepRefines(f: Fine, e: FineEvent)
    requires FineOk(f) && FineEnabled(f, e)
    ensures FineOk(FineAfter(f, e)) && Refines(f, e)
  {
    AccessRefines(f, e);
    RefinedIsOk(f, e, FineAfter(f, e));
  }

  // ---- Runs ----

  ghost predicate FineInit(f: Fine) {
    Paired(f) && Init(f.st) && forall n | 0 <= n < |f.hands| :: f.hands[n] == Hands(NoRequest, NoReply)
  }

  ghost predicate IsFineRun(run: seq<Fine>, steps: seq<FineEvent>) {
    && |run| == |steps| + 1 && FineInit(run[0])
    && forall i | 0 <= i < |steps| :: FineEnabled(run[i], steps[i]) && run[i + 1] == FineAfter(run[i], steps[i])
  }

  lemma IdleIsWhole(b: Broker)
    ensures Whole(Busy(b, Hands(NoRequest, NoReply))) == b && HandsOk(Busy(b, Hands(NoRequest, NoReply)))
  {
    assert [] + b.requests == b.requests && b.up + [] == b.up && [] + b.down == b.down;
  }

  lemma IdleNodesAreWhole(f: Fine)
    requires Paired(f) && forall n | 0 <= n < |f.hands| :: f.hands[n] == Hands(NoRequest, NoReply)
    ensures Abs(f) == f.st && forall n | 0 <= n < |f.st.nodes| :: HandsOk(BusyAt(f, n))
  {
    forall n | 0 <= n < |f.st.nodes| ensures Whole(BusyAt(f, n)) == f.st.nodes[n] && HandsOk(BusyAt(f, n)) {
      IdleIsWhole(f.st.nodes[n]);
    }
    assert Abs(f).nodes == f.st.nodes;
  }

  lemma InitIsWhole(f: Fine)
    requires FineInit(f)
    ensures FineOk(f) && Abs(f) == f.st
  {
    IdleNodesAreWhole(f);
    InitIsFine(f.st);
  }

  lemma ExtendRun(states: seq<State>, events: seq<Event>, e: Event)
    requires IsRun(states, events) && Enabled(states[|events|], e)
    ensures IsRun(states + [After(states[|events|], e)], events + [e])
  {
  }

  /** However the accesses of the processes interleave, the whole nodes go through a run of the transition system,
      so everything that holds of its runs holds between any two accesses. */
  lemma {:induction false} FineRunsAreRuns(run: seq<Fine>, steps: seq<FineEvent>, i: nat)
    returns (states: seq<State>, events: seq<Event>)
    requires IsFineRun(run, steps) && i < |run|
    ensures FineOk(run[i]) && IsRun(states, events) && states[|events|] == Abs(run[i])
  {
    if i == 0 {
      InitIsWhole(run[0]);
      return [run[0].st], [];
    }
    states, events := FineRunsAreRuns(run, steps, i - 1);
    var (f, e) := (run[i - 1], steps[i - 1]);
    FineStepRefines(f, e);
    if Coarse(f, e).Some? {
      ExtendRun(states, events, Coarse(f, e).value);
      states, events := states + [Abs(run[i])], events + [Coarse(f, e).value];
    }
  }
}
