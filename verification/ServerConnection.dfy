/** The two processes of a server for one connection: one reads requests, one writes replies.
    The tags of a message are specification only. */
module ServerConnection {
  import opened Messages
  import opened Connection
  import opened System

  class Handlers {
    const respHandlerPid: int
    var workerQueue: seq<Msg>
    var socket: seq<Msg>  // everything written to the connection so far

    constructor (respHandlerPid: int)
      ensures this.respHandlerPid == respHandlerPid && workerQueue == [] && socket == []
    {
      this.respHandlerPid := respHandlerPid;
      workerQueue, socket := [], [];
    }

    /** A CREATE gets the response handler's address; what is no request is dropped. */
    method ProcessRequest(msg: Msg, ghost node: int, ghost client: int)
      modifies this`workerQueue
      ensures var t := Arrive(Tagged(msg, node, client), respHandlerPid);
              workerQueue == if Acceptable(t.msg) then old(workerQueue) + [t.msg] else old(workerQueue)
    {
      if msg.kind.IsAck() || msg.kind == RECEIVE {
        return;
      }
      var request := msg;
      if msg.kind == CREATE {
        request := request.(mtype := respHandlerPid);
      }
      if request.mtype > 0 {
        workerQueue := workerQueue + [request];
      }
    }

    /** The global id, which the worker kept in the message, becomes the address. */
    method ProcessReply(msg: Msg, ghost node: int, ghost client: int)
      modifies this`socket
      ensures socket == if Sendable(msg.kind) then old(socket) + [Leave(Tagged(msg, node, client)).msg] else old(socket)
    {
      if msg.kind != ACK_OK && msg.kind != ACK_ERROR && msg.kind != ACK_CREATE && msg.kind != ACK_DESTROY
         && msg.kind != PUBLISH {
        return;
      }
      var reply := msg.(mtype := msg.globalId);
      socket := socket + [reply];
    }
  }
}
