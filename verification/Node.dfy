/** The broker node of a client machine: it stands between local clients and one broker server. */
module Node {
  import opened Messages
  import opened LocalIds

  /** What the request handler does with a client's message: ignore it, answer it, or pass it to the server. */
  datatype Action =
    | Ignore
    | Answer(reply: Msg, rest: seq<Msg>)
    | Forward(ids: seq<Entry>, request: Msg)
    | Hang

  /** `known` says whether the sender was found in the table, `inbox` holds the messages that arrived for it. */
  function ActionOn(known: bool, ids: seq<Entry>, inbox: seq<Msg>, msg: Msg): (action: Action)
    ensures action.Hang? <==> msg.kind == CREATE && |ids| >= 10
  {
    if msg.kind != CREATE && !(known && msg.mtype >= 0) then Ignore
    else if msg.kind.IsAck() then Ignore
    else if msg.kind == RECEIVE then
      if inbox == [] then Answer(msg.(kind := ACK_NO_MSG), [])
      else Answer(inbox[0].(mtype := msg.mtype, kind := ACK_OK), inbox[1..])
    else if msg.kind == CREATE then
      if |ids| < MAX_LOCAL_CLIENTS then Forward(ids + [Entry(msg.mtype, PENDING)], msg) else Hang
    else Forward(ids, msg.(mtype := GlobalOf(ids, msg.mtype)))
  }

  function Request(ids: seq<Entry>, inbox: seq<Msg>, msg: Msg): Action {
    ActionOn(HasLocal(ids, msg.mtype), ids, inbox, msg)
  }

  /** The table after a message from the server, and the message readdressed to a local client. */
  function Respond(ids: seq<Entry>, msg: Msg): (seq<Entry>, Msg) {
    match msg.kind
    case ACK_CREATE => (Assign(ids, msg.mtype), msg.(mtype := LocalOf(ids, PENDING)))
    case ACK_DESTROY => (Remove(ids, LocalOf(ids, msg.mtype)), msg.(mtype := LocalOf(ids, msg.mtype)))
    case _ => (ids, msg.(mtype := LocalOf(ids, msg.mtype)))
  }

  function QueueOf<T>(queues: map<int, seq<T>>, k: int): seq<T> {
    if k in queues then queues[k] else []
  }

  function Push<T>(queues: map<int, seq<T>>, k: int, x: T): map<int, seq<T>> {
    queues[k := QueueOf(queues, k) + [x]]
  }

  class BrokerNode {
    const table: LocalIdTable
    var toServer: seq<Msg>
    var replies: map<int, seq<Msg>>  // the response queue, by address
    var incoming: map<int, seq<Msg>>  // published messages not yet received, by local client

    constructor (table: LocalIdTable)
      ensures this.table == table && toServer == [] && replies == map[] && incoming == map[]
    {
      this.table := table;
      toServer, replies, incoming := [], map[], map[];
    }

    ghost predicate Valid()
      reads this, table
    {
      && table.Valid() && !table.held
      && forall k | k in incoming :: forall i | 0 <= i < |incoming[k]| :: incoming[k][i].mtype == k
    }

    method SendReply(msg: Msg)
      modifies this`replies
      ensures replies == if msg.mtype > 0 then Push(old(replies), msg.mtype, msg) else old(replies)
    {
      if msg.mtype > 0 {
        replies := Push(replies, msg.mtype, msg);
      }
    }

    /** Non-blocking receive of the oldest published message. */
    method ProcessReceive(msg: Msg)
      requires Valid()
      modifies this`replies, this`incoming
      ensures Valid()
      ensures var inbox := QueueOf(old(incoming), msg.mtype);
              && incoming == (if inbox == [] then old(incoming) else old(incoming)[msg.mtype := inbox[1..]])
              && var reply := if inbox == [] then msg.(kind := ACK_NO_MSG)
                              else inbox[0].(mtype := msg.mtype, kind := ACK_OK);
                 replies == if msg.mtype > 0 then Push(old(replies), msg.mtype, reply) else old(replies)
    {
      var inbox := QueueOf(incoming, msg.mtype);
      if inbox == [] {
        SendReply(msg.(kind := ACK_NO_MSG));
      } else {
        incoming := incoming[msg.mtype := inbox[1..]];
        SendReply(inbox[0].(kind := ACK_OK));
      }
    }

    method ProcessRequest(msg: Msg)
      requires Valid() && msg.mtype > 0
      modifies this, table, table.ids
      ensures table.Valid()
      ensures match Request(old(table.Entries()), QueueOf(old(incoming), msg.mtype), msg)
              case Ignore =>
                table.Entries() == old(table.Entries()) && toServer == old(toServer)
                && replies == old(replies) && incoming == old(incoming) && !table.held
              case Answer(reply, rest) =>
                table.Entries() == old(table.Entries()) && toServer == old(toServer)
                && replies == Push(old(replies), msg.mtype, reply)
                && QueueOf(incoming, msg.mtype) == rest && !table.held
              case Forward(ids, request) =>
                table.Entries() == ids && toServer == old(toServer) + [request]
                && replies == old(replies) && incoming == old(incoming) && !table.held
              case Hang => table.held && toServer == old(toServer)
      ensures forall k | k != msg.mtype :: QueueOf(incoming, k) == QueueOf(old(incoming), k)
    {
      var known := table.LocalIdExists(msg.mtype);
      if msg.kind != CREATE && !known {
        return;
      }
      if msg.kind.IsAck() {
        return;
      }
      if msg.kind == RECEIVE {
        ProcessReceive(msg);
      } else if msg.kind == CREATE {
        var ok := table.AddLocalId(msg.mtype);
        if !ok {
          return;
        }
        toServer := toServer + [msg];
      } else {
        var globalId := table.GetGlobalId(msg.mtype);
        toServer := toServer + [msg.(mtype := globalId)];
      }
    }

    method ProcessResponse(msg: Msg)
      requires Valid()
      modifies this`replies, this`incoming, table, table.ids
      ensures Valid()
      ensures table.Entries() == Respond(old(table.Entries()), msg).0
      ensures var m := Respond(old(table.Entries()), msg).1;
              if m.mtype <= 0 then replies == old(replies) && incoming == old(incoming)
              else if m.kind == PUBLISH then replies == old(replies) && incoming == Push(old(incoming), m.mtype, m)
              else replies == Push(old(replies), m.mtype, m) && incoming == old(incoming)
    {
      var localId;
      if msg.kind == PUBLISH {
        localId := table.GetLocalId(msg.mtype);
        if localId > 0 {
          incoming := Push(incoming, localId, msg.(mtype := localId));
        }
      } else {
        if msg.kind == ACK_CREATE {
          localId := table.SetGlobalId(msg.mtype);
        } else {
          localId := table.GetLocalId(msg.mtype);
          if msg.kind == ACK_DESTROY {
            var _ := table.RemoveId(localId);
          }
        }
        SendReply(msg.(mtype := localId));
      }
    }
  }
}
