/** The messages that clients, broker nodes and broker servers exchange, and the limits they share. */
module Messages {

  const MAX_TOPIC_LENGTH := 30
  const MAX_CLIENTS := 50
  const MAX_LOCAL_CLIENTS := 10
  const NEXT_SERVER_GLOBAL_ID := 0
  const NO_MTYPE_FOUND := -2

  /** Names that can serve as a topic: the topic is also a file name and a line of a user file. */
  predicate IsTopicName(t: string) {
    && 0 < |t| < MAX_TOPIC_LENGTH
    && (forall c | c in t :: c != '\n' && c != '/' && c != '\0')
    && t != "." && t != ".." && t != "topic_tmp"
  }

  type Topic = t: string | IsTopicName(t) witness "a"

  datatype Kind =
    | CREATE | SUBSCRIBE | PUBLISH | RECEIVE | DESTROY
    | ACK_OK | ACK_CREATE | ACK_NO_MSG | ACK_DESTROY | ACK_ERROR
  {
    predicate IsAck() {
      ACK_OK? || ACK_CREATE? || ACK_NO_MSG? || ACK_DESTROY? || ACK_ERROR?
    }
  }

  /** `mtype` is the address on a queue, or the global id while a message is on a socket. */
  datatype Msg = Msg(mtype: int, globalId: int, kind: Kind, topic: Topic, text: string, brokerId: int)
}
