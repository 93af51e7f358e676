/** The single worker of a broker server: it rewrites each request into its reply. */
module WorkerProcess {
  import opened Messages
  import opened GlobalIds
  import opened Db
  import opened DbHandler
  import opened Routing

  class Worker {
    const brokerId: int
    const table: GlobalIdTable
    const dbHandler: Handler
    var respQueue: seq<Msg>  // everything put on the response queue so far

    constructor (brokerId: int, table: GlobalIdTable, dbHandler: Handler)
      ensures this.brokerId == brokerId && this.table == table && this.dbHandler == dbHandler
      ensures respQueue == []
    {
      this.brokerId, this.table, this.dbHandler := brokerId, table, dbHandler;
      respQueue := [];
    }

    ghost predicate Valid()
      reads this, table, dbHandler.db
    {
      table.Valid() && dbHandler.db.Valid()
    }

    ghost function Files(): Files
      reads dbHandler.db
    {
      dbHandler.db.Current()
    }

    ghost function Entries(): seq<Entry>
      requires Valid()
      reads this, table, table.ids, dbHandler.db
    {
      table.Entries()
    }

    /** System V queues reject addresses that are not positive. */
    method Send(msg: Msg) returns (ok: bool)
      modifies this`respQueue
      ensures ok <==> msg.mtype > 0
      ensures respQueue == old(respQueue) + if ok then [msg] else []
    {
      if msg.mtype <= 0 {
        return false;
      }
      respQueue := respQueue + [msg];
      return true;
    }

    method ProcessCreate(msg: Msg) returns (reply: Msg)
      requires Valid()
      modifies dbHandler.db, table, table.ids
      ensures Valid() && old(dbHandler.db.trace) <= dbHandler.db.trace
      ensures reply == msg.(globalId := reply.globalId, kind := reply.kind)
      ensures reply.kind == ACK_CREATE || reply.kind == ACK_ERROR
      ensures reply.kind == ACK_CREATE ==>
                && IsNextId(old(Files().users.Keys), reply.globalId)
                && Files() == Created(old(Files()), reply.globalId)
                && Entries() == old(Entries()) + [Entry(msg.mtype, reply.globalId)]
      ensures reply.kind == ACK_ERROR ==> Entries() == old(Entries())
      ensures dbHandler.db.faults == old(dbHandler.db.faults) ==>
                && reply == CreateReply(old(Entries()), msg, reply.globalId)
                && IsNextId(old(Files().users.Keys), reply.globalId)
                && Files() == Created(old(Files()), reply.globalId)
    {
      var dbReply := dbHandler.ProcessCreate(DbMsg(0, DB_CREATE, msg.topic, 0, []));
      if dbReply.kind == DB_ERROR {
        return msg.(globalId := -1, kind := ACK_ERROR);
      }
      var added := table.AddGlobalId(dbReply.globalId, msg.mtype);
      return msg.(globalId := dbReply.globalId, kind := if added < 0 then ACK_ERROR else ACK_CREATE);
    }

    method ProcessSubscribe(msg: Msg) returns (reply: Msg)
      requires Valid()
      modifies dbHandler.db
      ensures Valid() && old(dbHandler.db.trace) <= dbHandler.db.trace
      ensures reply.kind == ACK_OK || reply.kind == ACK_ERROR
      ensures reply == msg.(globalId := msg.mtype, mtype := MtypeOf(Entries(), msg.mtype), kind := reply.kind)
      ensures reply.kind == ACK_OK ==>
                && reply.mtype >= 0 && msg.mtype in old(Files().users)
                && Files() == Subscribed(old(Files()), msg.mtype, msg.topic)
      ensures reply.kind == ACK_ERROR ==> forall t :: LinesOf(Files(), t) == LinesOf(old(Files()), t)
      ensures dbHandler.db.faults == old(dbHandler.db.faults) ==>
                && reply == LookedReply(Entries(), old(Files().users.Keys), msg, ACK_OK)
                && (reply.kind == ACK_ERROR ==> Files() == old(Files()))
    {
      var mtype := table.GetMtype(msg.mtype);
      reply := msg.(globalId := msg.mtype, mtype := mtype);
      if mtype < 0 {
        return reply.(kind := ACK_ERROR);
      }
      var dbReply := dbHandler.ProcessSubscribe(DbMsg(reply.globalId, DB_SUBSCRIBE, msg.topic, 0, []));
      return reply.(kind := if dbReply.kind == DB_ERROR then ACK_ERROR else ACK_OK);
    }

    /** The count in the request is never set; it is taken to be 0, so a topic without subscribers reads as empty. */
    method GetSubscribed(topic: Topic) returns (ok: bool, subscribed: seq<int>)
      requires Valid()
      modifies dbHandler.db`faults
      ensures ok ==> subscribed == FirstClients(LinesOf(Files(), topic))
      ensures dbHandler.db.faults == old(dbHandler.db.faults) ==> ok
    {
      subscribed := [];
      var request := DbMsg(0, DB_GET_SUBSCRIBED, topic, 0, seq(MAX_CLIENTS, _ => 0));
      var dbReply := dbHandler.ProcessGetSubscribed(request);
      if dbReply.kind == DB_ERROR {
        return false, [];
      }
      ReplyIsExactUnlessEmpty(request, LinesOf(Files(), topic));
      var i := 0;
      while i < dbReply.subCount
        invariant 0 <= i && i <= |ReadIds(dbReply).value|
        invariant subscribed == ReadIds(dbReply).value[..i]
      {
        subscribed := subscribed + [dbReply.subIds[i]];
        i := i + 1;
      }
      return true, subscribed;
    }

    /** Queues a copy per local subscriber and at most one relay to the next server. */
    method SendToSubs(msg: Msg) returns (ok: bool)
      requires Valid()
      modifies this`respQueue, dbHandler.db`faults
      ensures dbHandler.db.faults == old(dbHandler.db.faults) ==>
                var subs := FirstClients(LinesOf(Files(), msg.topic));
                && respQueue == old(respQueue) + Copies(Entries(), subs, false, msg)
                && ok == Completes(Entries(), subs, false)
      ensures old(respQueue) <= respQueue
    {
      var readable, subscribed := GetSubscribed(msg.topic);
      if !readable {
        return false;
      }
      ok := SendLoop(subscribed, msg);
    }

    method SendLoop(subscribed: seq<int>, msg: Msg) returns (ok: bool)
      requires Valid()
      modifies this`respQueue
      ensures respQueue == old(respQueue) + Copies(Entries(), subscribed, false, msg)
      ensures ok == Completes(Entries(), subscribed, false)
    {
      ghost var es, sent := Entries(), [];
      var alreadySentToNextServer := false;
      var i := 0;
      while i < |subscribed|
        invariant 0 <= i <= |subscribed|
        invariant respQueue == old(respQueue) + sent
        invariant sent + Copies(es, subscribed[i..], alreadySentToNextServer, msg) == Copies(es, subscribed, false, msg)
        invariant Completes(es, subscribed[i..], alreadySentToNextServer) == Completes(es, subscribed, false)
      {
        var subId := subscribed[i];
        assert subscribed[i..][1..] == subscribed[i + 1..];
        var mtype := table.GetMtype(subId);
        if mtype == NO_MTYPE_FOUND {
          if !alreadySentToNextServer {
            var next := table.GetMtype(NEXT_SERVER_GLOBAL_ID);
            SendStep(es, subscribed[i..], false, msg, sent);
            var delivered := Send(msg.(globalId := subId, mtype := next));
            if !delivered {
              return false;
            }
            sent := sent + [msg.(globalId := subId, mtype := next)];
            alreadySentToNextServer := true;
          }
        } else {
          SendStep(es, subscribed[i..], alreadySentToNextServer, msg, sent);
          var delivered := Send(msg.(globalId := subId, mtype := mtype));
          if !delivered {
            return false;
          }
          sent := sent + [msg.(globalId := subId, mtype := mtype)];
        }
        i := i + 1;
      }
      return true;
    }

    /** Returns the rewritten request and whether it is to be sent back. */
    method ProcessPublish(msg: Msg) returns (reply: Msg, sendAck: bool)
      requires Valid()
      modifies this`respQueue, dbHandler.db`faults
      ensures old(respQueue) <= respQueue
      ensures sendAck ==> msg.brokerId == 0 && brokerId != 0
      ensures dbHandler.db.faults == old(dbHandler.db.faults) ==>
                var subs := FirstClients(LinesOf(Files(), msg.topic));
                respQueue + (if sendAck && reply.mtype > 0 then [reply] else [])
                == old(respQueue) + Published(brokerId, Entries(), subs, msg)
    {
      sendAck := true;
      reply := msg;
      if msg.brokerId == brokerId {
        return msg, false;
      } else if msg.brokerId == 0 {
        reply := reply.(brokerId := brokerId);
      } else {
        sendAck := false;
      }
      var mtype := table.GetMtype(msg.mtype);
      reply := reply.(globalId := msg.mtype, mtype := mtype);
      if mtype < 0 {
        reply := reply.(kind := ACK_ERROR);
        return;
      }
      var ok := SendToSubs(reply);
      reply := reply.(kind := if ok then ACK_OK else ACK_ERROR);
    }

    method ProcessDestroy(msg: Msg) returns (reply: Msg)
      requires Valid()
      modifies dbHandler.db, table, table.ids
      ensures Valid() && old(dbHandler.db.trace) <= dbHandler.db.trace
      ensures reply.kind == ACK_DESTROY || reply.kind == ACK_ERROR
      ensures Entries() == GlobalIds.Without(old(Entries()), msg.mtype)
      ensures reply.kind == ACK_DESTROY ==> Files() == Deleted(old(Files()), msg.mtype)
      ensures dbHandler.db.faults == old(dbHandler.db.faults) ==>
                && reply == LookedReply(old(Entries()), old(Files().users.Keys), msg, ACK_DESTROY)
                && Files() == if msg.mtype in old(Files().users) then Deleted(old(Files()), msg.mtype) else old(Files())
    {
      reply := msg.(kind := ACK_DESTROY);
      var mtype := table.GetMtype(msg.mtype);
      reply := reply.(globalId := msg.mtype, mtype := mtype);
      if mtype < 0 {
        reply := reply.(kind := ACK_ERROR);
      }
      var dbReply := dbHandler.ProcessDelete(DbMsg(reply.globalId, DB_DELETE, msg.topic, 0, []));
      if dbReply.kind == DB_ERROR {
        reply := reply.(kind := ACK_ERROR);
      }
      var pos := table.RemoveGlobalId(reply.globalId);
      if pos < 0 {
        reply := reply.(kind := ACK_ERROR);
      }
    }

    /** With a database that does not fail, the step is `Handled`. */
    method ProcessMsg(msg: Msg)
      requires Valid()
      modifies this`respQueue, dbHandler.db, table, table.ids
      ensures Valid() && old(respQueue) <= respQueue
      ensures old(dbHandler.db.trace) <= dbHandler.db.trace
      ensures dbHandler.db.faults == old(dbHandler.db.faults) ==>
                exists out ::
                  && respQueue == old(respQueue) + out
                  && Handled(brokerId, old(Entries()), old(Files()), msg, Entries(), Files(), out)
    {
      var sendResponse := true;
      var reply := msg;
      if msg.kind == CREATE {
        reply := ProcessCreate(msg);
      } else if msg.kind == SUBSCRIBE {
        reply := ProcessSubscribe(msg);
      } else if msg.kind == PUBLISH {
        reply, sendResponse := ProcessPublish(msg);
      } else if msg.kind == DESTROY {
        reply := ProcessDestroy(msg);
      } else {
        reply := msg.(kind := ACK_ERROR);
      }
      ghost var out := if msg.kind == PUBLISH
        then Published(brokerId, Entries(), FirstClients(LinesOf(Files(), msg.topic)), msg)
        else Queued(reply);
      assert dbHandler.db.faults == old(dbHandler.db.faults) ==>
          Handled(brokerId, old(Entries()), old(Files()), msg, Entries(), Files(), out);
      if sendResponse {
        var _ := Send(reply);
      }
      assert dbHandler.db.faults == old(dbHandler.db.faults) ==> respQueue == old(respQueue) + out;
    }
  }

  /** One round of the send loop, after the messages `sent`. */
  lemma SendStep(table: seq<Entry>, subs: seq<int>, relayed: bool, msg: Msg, sent: seq<Msg>)
    requires subs != []
    requires MtypeOf(table, subs[0]) != NO_MTYPE_FOUND || !relayed
    ensures var local := MtypeOf(table, subs[0]) != NO_MTYPE_FOUND;
            var pid := if local then MtypeOf(table, subs[0]) else MtypeOf(table, NEXT_SERVER_GLOBAL_ID);
            var m := msg.(globalId := subs[0], mtype := pid);
            if pid > 0 then
              && sent + Copies(table, subs, relayed, msg)
                 == sent + [m] + Copies(table, subs[1..], relayed || !local, msg)
              && Completes(table, subs, relayed) == Completes(table, subs[1..], relayed || !local)
            else Copies(table, subs, relayed, msg) == [] && !Completes(table, subs, relayed)
  {
  }

  /** One request: the tables and files before and after, and what is queued for the response handlers. */
  ghost predicate Handled(brokerId: int, table: seq<Entry>, files: Files, msg: Msg,
                          table': seq<Entry>, files': Files, out: seq<Msg>) {
    match msg.kind
    case CREATE =>
      exists id ::
        && IsNextId(files.users.Keys, id)
        && files' == Created(files, id)
        && out == Queued(CreateReply(table, msg, id))
        && table' == if |table| < MAX_CLIENTS then table + [Entry(msg.mtype, id)] else table
    case SUBSCRIBE =>
      var reply := LookedReply(table, files.users.Keys, msg, ACK_OK);
      && table' == table && out == Queued(reply)
      && files' == if reply.kind == ACK_OK then Subscribed(files, msg.mtype, msg.topic) else files
    case PUBLISH =>
      && table' == table && files' == files
      && out == Published(brokerId, table, FirstClients(LinesOf(files, msg.topic)), msg)
    case DESTROY =>
      && table' == GlobalIds.Without(table, msg.mtype)
      && files' == (if msg.mtype in files.users then Deleted(files, msg.mtype) else files)
      && out == Queued(LookedReply(table, files.users.Keys, msg, ACK_DESTROY))
    case _ =>
      table' == table && files' == files && out == Queued(msg.(kind := ACK_ERROR))
  }
}
