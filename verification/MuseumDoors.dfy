/** The bodies of the door loops on shared memory, and that the steps of the museum, uninterrupted, are these bodies. */
module MuseumDoors {
  import opened Museum

  class Memory {
    var cap: int
    var free: bool
    var isOpen: bool

    constructor (cap: int, isOpen: bool)
      ensures Value() == Shared(cap, true, isOpen)
    {
      this.cap, this.isOpen := cap, isOpen;
      free := true;
    }

    function Value(): Shared
      reads this
    {
      Shared(cap, free, isOpen)
    }

    /** Waits for the semaphore, which has to be free for the call to get on. */
    method P()
      requires free
      modifies this`free
      ensures !free
    {
      free := false;
    }

    method V()
      requires !free
      modifies this`free
      ensures free
    {
      free := true;
    }

    /** A visitor is let in exactly if there is a place and the museum is open, and then takes up one place. */
    method ProcessEntrance(msg: Msg) returns (reply: Msg)
      requires free
      modifies this
      ensures reply == msg.(kind := if old(cap) > 0 && isOpen then ACCEPT else REJECT)
      ensures cap == old(cap) - (if reply.kind == ACCEPT then 1 else 0)
      ensures free && isOpen == old(isOpen)
    {
      reply := msg;
      P();
      if cap > 0 && isOpen {
        cap := cap - 1;
        reply := reply.(kind := ACCEPT);
      } else {
        reply := reply.(kind := REJECT);
      }
      V();
    }

    /** A leaving visitor is always let out and gives its place back. */
    method ProcessExit(msg: Msg) returns (reply: Msg)
      requires free
      modifies this
      ensures reply == msg.(kind := ACCEPT)
      ensures cap == old(cap) + 1 && free && isOpen == old(isOpen)
    {
      reply := msg;
      P();
      cap := cap + 1;
      reply := reply.(kind := ACCEPT);
      V();
    }
  }

  /** How many steps a door has before it waits for a request again, at most. */
  function Left(p: Phase): nat {
    match p
    case Idle => 0
    case Released(_) => 1
    case Decided(_) => 2
    case Loaded(_, _) => 3
    case Accepting(_) => 4
    case Checked(_) => 5
    case Locked(_) => 6
    case Got(_) => 7
  }

  /** The entrance door's steps, without another process in between, until its reply is sent. */
  function ServeEntrance(door: Door, sh: Shared): (Door, Shared)
    requires door.phase.Got? ==> sh.free
    decreases Left(door.phase)
  {
    if door.phase.Idle? then (door, sh)
    else
      var (next, after) := EntranceStep(door, sh);
      ServeEntrance(next, after)
  }

  function ServeExit(door: Door, sh: Shared): (Door, Shared)
    requires door.phase.Got? ==> sh.free
    requires !door.phase.Checked? && !door.phase.Accepting?
    decreases Left(door.phase)
  {
    if door.phase.Idle? then (door, sh)
    else
      var (next, after) := ExitStep(door, sh);
      ServeExit(next, after)
  }

  lemma Answers(door: Door, sh: Shared, reply: Msg)
    requires door.phase == Decided(reply)
    ensures ServeEntrance(door, sh)
         == (door.(phase := Idle, replies := door.replies + [reply]), sh.(free := true))
    ensures ServeExit(door, sh) == (door.(phase := Idle, replies := door.replies + [reply]), sh.(free := true))
  {
    var released := door.(phase := Released(reply));
    var idle := door.(phase := Idle, replies := door.replies + [reply]);
    assert EntranceStep(door, sh) == (released, sh.(free := true)) == ExitStep(door, sh);
    assert ServeEntrance(released, sh.(free := true)) == ServeEntrance(idle, sh.(free := true));
    assert ServeExit(released, sh.(free := true)) == ServeExit(idle, sh.(free := true));
  }

  /** Uninterrupted, the entrance door's steps are what `ProcessEntrance` does, and the reply is sent. */
  lemma EntranceUninterrupted(door: Door, sh: Shared)
    requires door.phase.Got? && sh.free
    ensures var accepted := sh.cap > 0 && sh.isOpen;
            var reply := door.phase.msg.(kind := if accepted then ACCEPT else REJECT);
            ServeEntrance(door, sh)
            == (door.(phase := Idle, replies := door.replies + [reply]),
                sh.(cap := if accepted then sh.cap - 1 else sh.cap))
  {
    var msg, held := door.phase.msg, sh.(free := false);
    if sh.cap > 0 && sh.isOpen {
      var stored := (door.(phase := Decided(msg.(kind := ACCEPT))), held.(cap := sh.cap - 1));
      assert ServeEntrance(door.(phase := Loaded(msg, sh.cap)), held) == ServeEntrance(stored.0, stored.1);
      assert ServeEntrance(door.(phase := Checked(msg)), held)
          == ServeEntrance(door.(phase := Loaded(msg, sh.cap)), held);
      assert ServeEntrance(door, sh) == ServeEntrance(door.(phase := Checked(msg)), held);
      Answers(stored.0, stored.1, msg.(kind := ACCEPT));
    } else {
      var decided := door.(phase := Decided(msg.(kind := REJECT)));
      assert ServeEntrance(door.(phase := Locked(msg)), held) == ServeEntrance(decided, held);
      assert ServeEntrance(door, sh) == ServeEntrance(decided, held);
      Answers(decided, held, msg.(kind := REJECT));
    }
  }

  /** Uninterrupted, the exit door's steps are what `ProcessExit` does, and the reply is sent. */
  lemma ExitUninterrupted(door: Door, sh: Shared)
    requires door.phase.Got? && sh.free
    ensures var reply := door.phase.msg.(kind := ACCEPT);
            ServeExit(door, sh)
            == (door.(phase := Idle, replies := door.replies + [reply]), sh.(cap := sh.cap + 1))
  {
    var msg, held := door.phase.msg, sh.(free := false);
    var stored := (door.(phase := Decided(msg.(kind := ACCEPT))), held.(cap := sh.cap + 1));
    assert ServeExit(door.(phase := Loaded(msg, sh.cap)), held) == ServeExit(stored.0, stored.1);
    assert ServeExit(door, sh) == ServeExit(door.(phase := Loaded(msg, sh.cap)), held);
    Answers(stored.0, stored.1, msg.(kind := ACCEPT));
  }
}
