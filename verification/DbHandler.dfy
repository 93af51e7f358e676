/** The process that answers one broker server's requests to the database. */
module DbHandler {
  import opened Options
  import opened Messages
  import opened Db

  datatype DbKind = DB_CREATE | DB_SUBSCRIBE | DB_GET_SUBSCRIBED | DB_DELETE | DB_OK | DB_ERROR

  /** Request and reply share one record; `subIds` has room for MAX_CLIENTS ids. */
  datatype DbMsg = DbMsg(globalId: int, kind: DbKind, topic: Topic, subCount: int, subIds: seq<int>)

  function FirstClients(lines: seq<int>): seq<int> {
    if |lines| <= MAX_CLIENTS then lines else lines[..MAX_CLIENTS]
  }

  /** The reply to DB_GET_SUBSCRIBED. With no subscriber the count in the request is sent back untouched. */
  function SubscribedReply(msg: DbMsg, lines: seq<int>): DbMsg
    requires |msg.subIds| == MAX_CLIENTS
  {
    var ids := FirstClients(lines);
    msg.(kind := DB_OK,
         subIds := ids + msg.subIds[|ids|..],
         subCount := if ids == [] then msg.subCount else |ids|)
  }

  /** What the server reads out of the reply: nothing definite when the count takes it past the end of the array. */
  function ReadIds(reply: DbMsg): Option<seq<int>> {
    if reply.subCount <= 0 then Some([])
    else if reply.subCount <= |reply.subIds| then Some(reply.subIds[..reply.subCount])
    else None
  }

  /** Whatever the count left in the request, the server gets the first MAX_CLIENTS subscribers exactly when there is
      a subscriber or that count happened not to be positive. It reads past the array exactly when there is none
      and the count exceeds MAX_CLIENTS. */
  lemma ReplyIsExactUnlessEmpty(msg: DbMsg, lines: seq<int>)
    requires |msg.subIds| == MAX_CLIENTS
    ensures ReadIds(SubscribedReply(msg, lines)) == Some(FirstClients(lines))
            <==> lines != [] || msg.subCount <= 0
    ensures ReadIds(SubscribedReply(msg, lines)) == None <==> lines == [] && msg.subCount > MAX_CLIENTS
  {
    var ids := FirstClients(lines);
    if ids != [] {
      assert (ids + msg.subIds[|ids|..])[..|ids|] == ids;
    }
  }

  /** A request whose unset count reads 2 gets two subscribers of a topic that has none. */
  lemma EmptyTopicMisread(msg: DbMsg)
    requires |msg.subIds| == MAX_CLIENTS && msg.subCount == 2
    ensures ReadIds(SubscribedReply(msg, [])) == Some(msg.subIds[..2])
  {
    assert [] + msg.subIds[0..] == msg.subIds;
  }

  class Handler {
    const db: Database

    constructor (db: Database)
      ensures this.db == db
    {
      this.db := db;
    }

    method ProcessCreate(msg: DbMsg) returns (reply: DbMsg)
      requires db.Valid()
      modifies db
      ensures db.Valid() && old(db.trace) <= db.trace
      ensures db.faults >= old(db.faults) && (old(db.InBalance()) ==> db.InBalance())
      ensures reply.kind == DB_OK || reply.kind == DB_ERROR
      ensures reply.kind == DB_OK ==>
                && IsNextId(old(db.users.Keys), reply.globalId)
                && db.Current() == Created(old(db.Current()), reply.globalId)
      ensures reply.kind == DB_ERROR ==> db.Current() == old(db.Current()) && db.faults > old(db.faults)
    {
      var id := db.AddUser();
      if id < 0 {
        return msg.(kind := DB_ERROR);
      }
      return msg.(kind := DB_OK, globalId := id);
    }

    method ProcessSubscribe(msg: DbMsg) returns (reply: DbMsg)
      requires db.Valid()
      modifies db
      ensures db.Valid() && old(db.trace) <= db.trace
      ensures db.faults >= old(db.faults) && (old(db.InBalance()) ==> db.InBalance())
      ensures reply.kind == DB_OK || reply.kind == DB_ERROR
      ensures reply.kind == DB_OK ==>
                msg.globalId in old(db.users) && db.Current() == Subscribed(old(db.Current()), msg.globalId, msg.topic)
      ensures reply.kind == DB_ERROR ==> forall t :: LinesOf(db.Current(), t) == LinesOf(old(db.Current()), t)
      ensures db.users.Keys == old(db.users.Keys)
      ensures db.faults == old(db.faults) ==>
                if msg.globalId in old(db.users) then reply.kind == DB_OK
                else reply.kind == DB_ERROR && db.Current() == old(db.Current())
    {
      var ok := db.Subscribe(msg.globalId, msg.topic);
      return msg.(kind := if ok then DB_OK else DB_ERROR);
    }

    method ProcessGetSubscribed(msg: DbMsg) returns (reply: DbMsg)
      requires db.Valid() && |msg.subIds| == MAX_CLIENTS
      modifies db`faults
      ensures reply.kind == DB_OK ==> reply == SubscribedReply(msg, LinesOf(db.Current(), msg.topic))
      ensures reply.kind == DB_OK || reply.kind == DB_ERROR
      ensures db.faults == old(db.faults) ==> reply.kind == DB_OK
    {
      var ok, subscribed := db.GetSubscribed(msg.topic);
      if !ok {
        return msg.(kind := DB_ERROR);
      }
      reply := msg;
      var i := 0;
      while i < |subscribed| && i < MAX_CLIENTS
        invariant 0 <= i <= |subscribed| && i <= MAX_CLIENTS
        invariant |reply.subIds| == MAX_CLIENTS
        invariant reply == msg.(subIds := reply.subIds, subCount := if i == 0 then msg.subCount else i)
        invariant forall j | 0 <= j < i :: reply.subIds[j] == subscribed[j]
        invariant forall j | i <= j < MAX_CLIENTS :: reply.subIds[j] == msg.subIds[j]
      {
        reply := reply.(subIds := reply.subIds[i := subscribed[i]], subCount := i + 1);
        i := i + 1;
      }
      assert reply.subIds == FirstClients(subscribed) + msg.subIds[i..];
      reply := reply.(kind := DB_OK);
    }

    method ProcessDelete(msg: DbMsg) returns (reply: DbMsg)
      requires db.Valid()
      modifies db
      ensures db.Valid() && old(db.trace) <= db.trace
      ensures db.faults >= old(db.faults) && (old(db.InBalance()) ==> db.InBalance())
      ensures reply.kind == DB_OK || reply.kind == DB_ERROR
      ensures reply.kind == DB_OK ==>
                msg.globalId in old(db.users) && db.Current() == Deleted(old(db.Current()), msg.globalId)
      ensures reply.kind == DB_ERROR ==> db.users == old(db.users)
      ensures db.faults == old(db.faults) ==>
                if msg.globalId in old(db.users) then reply.kind == DB_OK
                else reply.kind == DB_ERROR && db.Current() == old(db.Current())
    {
      var ok := db.Delete(msg.globalId);
      return msg.(kind := if ok then DB_OK else DB_ERROR);
    }
  }
}
