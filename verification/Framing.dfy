/** Fixed-size messages over a byte stream whose reads and writes may be partial. */
module Framing {

  type Byte = bv8

  /** Both ends at work on one stream: `out` is left to write, `incoming` is the half-read message. */
  datatype Channel = Channel(sent: seq<seq<Byte>>, out: seq<Byte>, wire: seq<Byte>, incoming: seq<Byte>,
                             received: seq<seq<Byte>>)

  /** One call of the sender, one partial write, or one partial read. */
  datatype Step = Send(msg: seq<Byte>) | WriteSome(bytes: nat) | ReadSome(bytes: nat)

  predicate Enabled(c: Channel, step: Step, size: nat) {
    match step
    case Send(msg) => c.out == [] && |msg| == size
    case WriteSome(n) => 0 < n <= |c.out|
    case ReadSome(n) => 0 < n <= |c.wire| && n <= size - |c.incoming|
  }

  function After(c: Channel, step: Step, size: nat): Channel
    requires Enabled(c, step, size)
  {
    match step
    case Send(msg) => c.(sent := c.sent + [msg], out := msg)
    case WriteSome(n) => c.(out := c.out[n..], wire := c.wire + c.out[..n])
    case ReadSome(n) =>
      var incoming := c.incoming + c.wire[..n];
      if |incoming| < size then c.(wire := c.wire[n..], incoming := incoming)
      else c.(wire := c.wire[n..], incoming := [], received := c.received + [incoming])
  }

  /** A run of the channel from state `c`. */
  ghost predicate IsRunFrom(c: Channel, run: seq<Channel>, steps: seq<Step>, size: nat) {
    && |run| == |steps| + 1 && run[0] == c
    && forall i | 0 <= i < |steps| :: Enabled(run[i], steps[i], size) && run[i + 1] == After(run[i], steps[i], size)
  }

  lemma OneMoreStep(c: Channel, run: seq<Channel>, steps: seq<Step>, step: Step, size: nat)
    requires IsRunFrom(c, run, steps, size) && Enabled(run[|steps|], step, size)
    ensures IsRunFrom(c, run + [After(run[|steps|], step, size)], steps + [step], size)
  {
  }

  /** How a read or write call ended: with a positive count, with 0, or with an error. */
  datatype Io = Moved(bytes: nat) | Closed | Failed

  /** One direction of a connection: the bytes written and not yet read. */
  class Stream {
    var wire: seq<Byte>

    constructor ()
      ensures wire == []
    {
      wire := [];
    }

    /** Writes a nonempty prefix of `bytes`, or nothing. */
    method Write(bytes: seq<Byte>) returns (io: Io)
      requires bytes != []
      modifies this
      ensures io.Moved? ==> 0 < io.bytes <= |bytes| && wire == old(wire) + bytes[..io.bytes]
      ensures !io.Moved? ==> wire == old(wire)
    {
      var n: nat, closed: bool := *, *;
      if 0 < n <= |bytes| {
        wire := wire + bytes[..n];
        return Moved(n);
      }
      return if closed then Closed else Failed;
    }

    /** Reads at most the bytes that `buffer` has room for from `start` on, or nothing. */
    method Read(buffer: array<Byte>, start: nat) returns (io: Io)
      requires start < buffer.Length
      modifies this, buffer
      ensures buffer[..start] == old(buffer[..start])
      ensures io.Moved? ==> 0 < io.bytes <= buffer.Length - start
                            && old(wire) == buffer[start..start + io.bytes] + wire
      ensures !io.Moved? ==> wire == old(wire)
    {
      var n: nat, closed: bool := *, *;
      if 0 < n <= buffer.Length - start && n <= |wire| {
        forall i | 0 <= i < n {
          buffer[start + i] := wire[i];
        }
        assert buffer[start..start + n] == wire[..n];
        wire := wire[n..];
        return Moved(n);
      }
      return if closed then Closed else Failed;
    }

    /** Writes the whole message, whatever the sizes of the partial writes; on failure a proper prefix
        is on the wire. Each write is a step of the channel `c`, which is about to write the message. */
    method SocketSend(msg: seq<Byte>, ghost c: Channel)
      returns (res: int, ghost run: seq<Channel>, ghost steps: seq<Step>)
      requires msg != [] && c.out == msg && c.wire == wire
      modifies this
      ensures res == |msg| || res <= 0
      ensures res == |msg| ==> wire == old(wire) + msg
      ensures res <= 0 ==> exists n :: 0 <= n < |msg| && wire == old(wire) + msg[..n]
      ensures IsRunFrom(c, run, steps, |msg|) && forall i | 0 <= i < |steps| :: steps[i].WriteSome?
      ensures run[|steps|] == c.(wire := wire, out := run[|steps|].out) && (res == |msg| <==> run[|steps|].out == [])
    {
      var bytesSent := 0;
      run, steps := [c], [];
      while bytesSent < |msg|
        invariant 0 <= bytesSent <= |msg|
        invariant wire == old(wire) + msg[..bytesSent]
        invariant IsRunFrom(c, run, steps, |msg|) && forall i | 0 <= i < |steps| :: steps[i].WriteSome?
        invariant run[|steps|] == c.(wire := wire, out := msg[bytesSent..])
      {
        var io := Write(msg[bytesSent..]);
        if io.Failed? {
          return -1, run, steps;
        } else if io.Closed? {
          return 0, run, steps;
        }
        assert msg[..bytesSent] + msg[bytesSent..][..io.bytes] == msg[..bytesSent + io.bytes];
        assert msg[bytesSent..][io.bytes..] == msg[bytesSent + io.bytes..];
        OneMoreStep(c, run, steps, WriteSome(io.bytes), |msg|);
        run, steps := run + [After(run[|steps|], WriteSome(io.bytes), |msg|)], steps + [WriteSome(io.bytes)];
        bytesSent := bytesSent + io.bytes;
      }
      return bytesSent, run, steps;
    }

    /** Takes exactly the next `size` bytes off the wire; on failure fewer are lost and no message comes out.
        Each read is a step of the channel `c`, which has no half-read message. */
    method SocketReceive(size: nat, ghost c: Channel)
      returns (res: int, msg: seq<Byte>, ghost run: seq<Channel>, ghost steps: seq<Step>)
      requires size > 0 && c.incoming == [] && c.wire == wire
      modifies this
      ensures res == size || res <= 0
      ensures res == size ==> |msg| == size && old(wire) == msg + wire
      ensures res <= 0 ==> msg == [] && exists n :: 0 <= n < size && n <= |old(wire)| && wire == old(wire)[n..]
      ensures IsRunFrom(c, run, steps, size) && forall i | 0 <= i < |steps| :: steps[i].ReadSome?
      ensures res == size ==> run[|steps|] == c.(wire := wire, received := c.received + [msg])
      ensures res <= 0 ==> run[|steps|] == c.(wire := wire, incoming := run[|steps|].incoming)
    {
      var buffer := new Byte[size];
      var bytesRead := 0;
      run, steps := [c], [];
      while bytesRead < size
        invariant 0 <= bytesRead <= size
        invariant old(wire) == buffer[..bytesRead] + wire
        invariant IsRunFrom(c, run, steps, size) && forall i | 0 <= i < |steps| :: steps[i].ReadSome?
        invariant run[|steps|]
               == if bytesRead < size then c.(wire := wire, incoming := buffer[..bytesRead])
                  else c.(wire := wire, received := c.received + [buffer[..]])
      {
        label before:
        var io := Read(buffer, bytesRead);
        if !io.Moved? {
          assert wire == old(wire)[bytesRead..];
          return if io.Failed? then -1 else 0, [], run, steps;
        }
        assert buffer[..bytesRead + io.bytes]
            == old@before(buffer[..bytesRead]) + buffer[bytesRead..bytesRead + io.bytes];
        assert buffer[..size] == buffer[..];
        OneMoreStep(c, run, steps, ReadSome(io.bytes), size);
        run, steps := run + [After(run[|steps|], ReadSome(io.bytes), size)], steps + [ReadSome(io.bytes)];
        bytesRead := bytesRead + io.bytes;
      }
      return bytesRead, buffer[..], run, steps;
    }
  }

  /** The bytes of the messages, one after the other. */
  function Flatten(frames: seq<seq<Byte>>): seq<Byte> {
    if frames == [] then [] else frames[0] + Flatten(frames[1..])
  }

  predicate AllFrames(frames: seq<seq<Byte>>, size: nat) {
    forall i | 0 <= i < |frames| :: |frames[i]| == size
  }

  lemma {:induction false} FlattenConcat(a: seq<seq<Byte>>, b: seq<seq<Byte>>)
    ensures Flatten(a + b) == Flatten(a) + Flatten(b)
  {
    if a == [] {
      assert a + b == b;
    } else {
      FlattenConcat(a[1..], b);
      assert (a + b)[1..] == a[1..] + b;
    }
  }

  lemma {:induction false} FlattenLength(frames: seq<seq<Byte>>, size: nat)
    requires AllFrames(frames, size)
    ensures |Flatten(frames)| == |frames| * size
  {
    if frames != [] {
      FlattenLength(frames[1..], size);
    }
  }

  /** Fixed-size frames can be read back in one way only. */
  lemma {:induction false} FlattenPrefix(a: seq<seq<Byte>>, rest: seq<Byte>, b: seq<seq<Byte>>, size: nat)
    requires size > 0 && AllFrames(a, size) && AllFrames(b, size)
    requires Flatten(a) + rest == Flatten(b)
    ensures a <= b && rest == Flatten(b[|a|..])
  {
    if a == [] {
      assert b[|a|..] == b;
    } else {
      FlattenLength(a, size);
      FlattenLength(b, size);
      assert b != [] by {
        assert |Flatten(a)| == size + |Flatten(a[1..])|;
      }
      var whole := Flatten(b);
      assert whole[..size] == a[0] && whole[..size] == b[0];
      assert whole[size..] == Flatten(a[1..]) + rest && whole[size..] == Flatten(b[1..]);
      FlattenPrefix(a[1..], rest, b[1..], size);
      assert a == [a[0]] + a[1..] && b == [b[0]] + b[1..];
      assert b[1..][|a[1..]|..] == b[|a|..];
    }
  }

  /** Everything sent is received, in the reader's buffer, on the wire or still to be written, in this order. */
  ghost predicate Inv(c: Channel, size: nat) {
    && AllFrames(c.sent, size) && AllFrames(c.received, size) && |c.incoming| < size
    && Flatten(c.received) + (c.incoming + c.wire + c.out) == Flatten(c.sent)
  }

  lemma SendKeepsInv(c: Channel, msg: seq<Byte>, size: nat)
    requires Inv(c, size) && Enabled(c, Send(msg), size)
    ensures Inv(After(c, Send(msg), size), size)
  {
    FlattenConcat(c.sent, [msg]);
    assert Flatten([msg]) == msg + Flatten([]);
    assert Flatten(c.received) + (c.incoming + c.wire + msg)
        == Flatten(c.received) + (c.incoming + c.wire + c.out) + msg;
  }

  lemma ReadKeepsInv(c: Channel, n: nat, size: nat)
    requires Inv(c, size) && Enabled(c, ReadSome(n), size)
    ensures Inv(After(c, ReadSome(n), size), size)
  {
    var incoming := c.incoming + c.wire[..n];
    assert incoming + c.wire[n..] + c.out == c.incoming + c.wire + c.out;
    if |incoming| == size {
      FlattenConcat(c.received, [incoming]);
      assert Flatten([incoming]) == incoming + Flatten([]);
      assert Flatten(c.received) + incoming + (c.wire[n..] + c.out)
          == Flatten(c.received) + (incoming + c.wire[n..] + c.out);
      assert [] + c.wire[n..] + c.out == c.wire[n..] + c.out;
    }
  }

  lemma StepKeepsInv(c: Channel, step: Step, size: nat)
    requires Inv(c, size) && Enabled(c, step, size)
    ensures Inv(After(c, step, size), size)
  {
    match step
    case Send(msg) => SendKeepsInv(c, msg, size);
    case WriteSome(n) => assert c.incoming + (c.wire + c.out[..n]) + c.out[n..] == c.incoming + c.wire + c.out;
    case ReadSome(n) => ReadKeepsInv(c, n, size);
  }

  ghost predicate IsRun(run: seq<Channel>, steps: seq<Step>, size: nat) {
    IsRunFrom(Channel([], [], [], [], []), run, steps, size)
  }

  lemma {:induction false} RunKeepsInv(run: seq<Channel>, steps: seq<Step>, size: nat, i: nat)
    requires size > 0 && IsRun(run, steps, size) && i < |run|
    ensures Inv(run[i], size)
  {
    if i > 0 {
      RunKeepsInv(run, steps, size, i - 1);
      StepKeepsInv(run[i - 1], steps[i - 1], size);
    }
  }

  /** However the reads and writes are cut, what is received is a prefix of what was sent,
      and the bytes in between are exactly the messages not yet received. */
  lemma ReceivedIsPrefix(run: seq<Channel>, steps: seq<Step>, size: nat, i: nat)
    requires size > 0 && IsRun(run, steps, size) && i < |run|
    ensures run[i].received <= run[i].sent
    ensures run[i].incoming + run[i].wire + run[i].out == Flatten(run[i].sent[|run[i].received|..])
  {
    RunKeepsInv(run, steps, size, i);
    var c := run[i];
    FlattenPrefix(c.received, c.incoming + c.wire + c.out, c.sent, size);
  }

  /** The messages under way, as a queue would hold them. */
  function Queue(c: Channel): seq<seq<Byte>>
    requires c.received <= c.sent
  {
    c.sent[|c.received|..]
  }

  /** The byte stream is a FIFO channel of messages: each step appends the message sent to the queue,
      hands over the queue's first message, or leaves the queue alone. */
  lemma RefinesQueue(run: seq<Channel>, steps: seq<Step>, size: nat, i: nat)
    requires size > 0 && IsRun(run, steps, size) && i < |steps|
    ensures run[i].received <= run[i].sent && run[i + 1].received <= run[i + 1].sent
    ensures steps[i].Send? ==> Queue(run[i + 1]) == Queue(run[i]) + [steps[i].msg]
                               && run[i + 1].received == run[i].received
    ensures steps[i].WriteSome? ==> Queue(run[i + 1]) == Queue(run[i]) && run[i + 1].received == run[i].received
    ensures steps[i].ReadSome? && |run[i].incoming| + steps[i].bytes < size
            ==> Queue(run[i + 1]) == Queue(run[i]) && run[i + 1].received == run[i].received
    ensures steps[i].ReadSome? && |run[i].incoming| + steps[i].bytes == size
            ==> Queue(run[i]) != [] && run[i + 1].received == run[i].received + [Queue(run[i])[0]]
                && Queue(run[i + 1]) == Queue(run[i])[1..]
  {
    ReceivedIsPrefix(run, steps, size, i);
    ReceivedIsPrefix(run, steps, size, i + 1);
  }

  /** Nothing is left to write, on the wire or half read if and only if every message sent has been received. */
  lemma QuietIffAllReceived(run: seq<Channel>, steps: seq<Step>, size: nat, i: nat)
    requires size > 0 && IsRun(run, steps, size) && i < |run|
    ensures run[i].out == run[i].wire == run[i].incoming == [] <==> run[i].received == run[i].sent
  {
    ReceivedIsPrefix(run, steps, size, i);
    RunKeepsInv(run, steps, size, i);
    var rest := run[i].sent[|run[i].received|..];
    FlattenLength(rest, size);
    if run[i].received != run[i].sent {
      assert rest != [];
      assert |Flatten(rest)| == |rest[0]| + |Flatten(rest[1..])|;
    }
  }
}
