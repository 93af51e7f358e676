/** Where a broker server sends a published message: the meaning of the worker's send loop. */
module Routing {
  import opened Messages
  import opened GlobalIds

  /** What happens for one subscriber: a local copy, a relay to the next server, nothing, or a failed send. */
  datatype Route = Copy(pid: int) | Relay(pid: int) | Skip | Fail

  function RouteOf(table: seq<Entry>, sub: int, relayed: bool): Route {
    var mtype := MtypeOf(table, sub);
    if mtype == NO_MTYPE_FOUND then
      if relayed then Skip
      else
        var next := MtypeOf(table, NEXT_SERVER_GLOBAL_ID);
        if next > 0 then Relay(next) else Fail
    else if mtype > 0 then Copy(mtype) else Fail
  }

  /** The messages queued for the subscribers `subs`, up to the first failed send. */
  function Copies(table: seq<Entry>, subs: seq<int>, relayed: bool, msg: Msg): seq<Msg> {
    if subs == [] then []
    else
      match RouteOf(table, subs[0], relayed)
      case Copy(pid) => [msg.(globalId := subs[0], mtype := pid)] + Copies(table, subs[1..], relayed, msg)
      case Relay(pid) => [msg.(globalId := subs[0], mtype := pid)] + Copies(table, subs[1..], true, msg)
      case Skip => Copies(table, subs[1..], relayed, msg)
      case Fail => []
  }

  predicate Completes(table: seq<Entry>, subs: seq<int>, relayed: bool) {
    if subs == [] then true
    else
      match RouteOf(table, subs[0], relayed)
      case Copy(_) => Completes(table, subs[1..], relayed)
      case Relay(_) => Completes(table, subs[1..], true)
      case Skip => Completes(table, subs[1..], relayed)
      case Fail => false
  }

  /** A request as the worker sees it after it looked up the sender. */
  function Looked(brokerId: int, table: seq<Entry>, msg: Msg): Msg {
    msg.(brokerId := if msg.brokerId == 0 then brokerId else msg.brokerId,
         globalId := msg.mtype,
         mtype := MtypeOf(table, msg.mtype))
  }

  /** Everything the worker queues for a PUBLISH when the subscribers read are `subs`:
      the copies, and the acknowledgement if the message came from a client of this server. */
  function Published(brokerId: int, table: seq<Entry>, subs: seq<int>, msg: Msg): seq<Msg> {
    if msg.brokerId == brokerId then []
    else
      var m := Looked(brokerId, table, msg);
      if m.mtype < 0 then []
      else
        var ack := m.(kind := if Completes(table, subs, false) then ACK_OK else ACK_ERROR);
        Copies(table, subs, false, m) + (if msg.brokerId == 0 && m.mtype > 0 then [ack] else [])
  }

  /** The reply to a CREATE for which the database made user `id`. */
  function CreateReply(table: seq<Entry>, msg: Msg, id: int): Msg {
    msg.(globalId := id, kind := if |table| < MAX_CLIENTS then ACK_CREATE else ACK_ERROR)
  }

  /** The replies to SUBSCRIBE and DESTROY, which succeed for a registered sender that is a user. */
  function LookedReply(table: seq<Entry>, users: set<int>, msg: Msg, success: Kind): Msg {
    var mtype := MtypeOf(table, msg.mtype);
    msg.(globalId := msg.mtype,
         mtype := mtype,
         kind := if mtype >= 0 && msg.mtype in users then success else ACK_ERROR)
  }

  /** A send reaches the queue only if the address is positive. */
  function Queued(msg: Msg): seq<Msg> {
    if msg.mtype > 0 then [msg] else []
  }
}
