/** The museum: entrance doors, an exit door and visitors around a counter of free places under a semaphore. */
module Museum {

  const MUSEUM_CAP := 20
  const ENTRANCE_DOORS := 3

  datatype Kind = ENTRANCE_REQUEST | EXIT_REQUEST | ACCEPT | REJECT

  /** `pid` is the address of a reply, and the sender of a request. */
  datatype Msg = Msg(pid: int, kind: Kind)

  /** The shared memory: the free places, whether the semaphore over them is free, and the open flag. */
  datatype Shared = Shared(cap: int, free: bool, isOpen: bool)

  /** Where a door is in its loop; from `Locked` to `Decided` it holds the semaphore. */
  datatype Phase =
    | Idle
    | Got(msg: Msg)
    | Locked(msg: Msg)
    | Checked(msg: Msg)
    | Accepting(msg: Msg)
    | Loaded(msg: Msg, seen: int)
    | Decided(msg: Msg)
    | Released(msg: Msg)

  datatype Door = Door(requests: seq<Msg>, replies: seq<Msg>, phase: Phase)

  // ----- The loops of the doors, one access to shared state at a time -----

  predicate CanStep(door: Door, sh: Shared) {
    match door.phase
    case Idle => door.requests != []
    case Got(_) => sh.free
    case _ => true
  }

  function EntranceStep(door: Door, sh: Shared): (Door, Shared)
    requires CanStep(door, sh)
  {
    match door.phase
    case Idle =>
      var msg := door.requests[0];
      (door.(requests := door.requests[1..], phase := if msg.kind == ENTRANCE_REQUEST then Got(msg) else Idle), sh)
    case Got(msg) => (door.(phase := Locked(msg)), sh.(free := false))
    case Locked(msg) => (door.(phase := if sh.cap > 0 then Checked(msg) else Decided(msg.(kind := REJECT))), sh)
    case Checked(msg) => (door.(phase := if sh.isOpen then Accepting(msg) else Decided(msg.(kind := REJECT))), sh)
    case Accepting(msg) => (door.(phase := Loaded(msg, sh.cap)), sh)
    case Loaded(msg, seen) => (door.(phase := Decided(msg.(kind := ACCEPT))), sh.(cap := seen - 1))
    case Decided(msg) => (door.(phase := Released(msg)), sh.(free := true))
    case Released(msg) => (door.(phase := Idle, replies := door.replies + [msg]), sh)
  }

  function ExitStep(door: Door, sh: Shared): (Door, Shared)
    requires CanStep(door, sh) && !door.phase.Checked? && !door.phase.Accepting?
  {
    match door.phase
    case Idle =>
      var msg := door.requests[0];
      (door.(requests := door.requests[1..], phase := if msg.kind == EXIT_REQUEST then Got(msg) else Idle), sh)
    case Got(msg) => (door.(phase := Locked(msg)), sh.(free := false))
    case Locked(msg) => (door.(phase := Loaded(msg, sh.cap)), sh)
    case Loaded(msg, seen) => (door.(phase := Decided(msg.(kind := ACCEPT))), sh.(cap := seen + 1))
    case Decided(msg) => (door.(phase := Released(msg)), sh.(free := true))
    case Released(msg) => (door.(phase := Idle, replies := door.replies + [msg]), sh)
  }

  // ----- The whole museum -----

  /** `waiting` gives the entrance door at which a visitor waits for its reply. */
  datatype State = State(shared: Shared, doors: seq<Door>, exit: Door,
                         waiting: map<int, nat>, inside: set<int>, leaving: set<int>)

  datatype Step =
    | Arrive(pid: int, door: nat)
    | Enter(pid: int)
    | AskToLeave(pid: int)
    | Leave(pid: int)
    | EntranceDoor(door: nat)
    | ExitDoor
    | SetOpen(isOpen: bool)

  function CountPid(queue: seq<Msg>, pid: int): nat {
    if queue == [] then 0 else (if queue[0].pid == pid then 1 else 0) + CountPid(queue[1..], pid)
  }

  function CountAccept(queue: seq<Msg>): nat {
    if queue == [] then 0 else (if queue[0].kind == ACCEPT then 1 else 0) + CountAccept(queue[1..])
  }

  /** The first message for `pid`. */
  function First(queue: seq<Msg>, pid: int): Msg
    requires CountPid(queue, pid) > 0
  {
    if queue[0].pid == pid then queue[0] else First(queue[1..], pid)
  }

  function Without(queue: seq<Msg>, pid: int): seq<Msg>
    requires CountPid(queue, pid) > 0
  {
    if queue[0].pid == pid then queue[1..] else [queue[0]] + Without(queue[1..], pid)
  }

  predicate Enabled(s: State, step: Step) {
    match step
    case Arrive(pid, d) => d < |s.doors| && pid !in s.waiting && pid !in s.inside && pid !in s.leaving
    case Enter(pid) => pid in s.waiting && s.waiting[pid] < |s.doors|
                       && CountPid(s.doors[s.waiting[pid]].replies, pid) > 0
    case AskToLeave(pid) => pid in s.inside
    case Leave(pid) => pid in s.leaving && CountPid(s.exit.replies, pid) > 0
    case EntranceDoor(d) => d < |s.doors| && CanStep(s.doors[d], s.shared)
    case ExitDoor => CanStep(s.exit, s.shared) && !s.exit.phase.Checked? && !s.exit.phase.Accepting?
    case SetOpen(_) => true
  }

  function After(s: State, step: Step): State
    requires Enabled(s, step)
  {
    match step
    case Arrive(pid, d) =>
      var door := s.doors[d];
      s.(waiting := s.waiting[pid := d],
         doors := s.doors[d := door.(requests := door.requests + [Msg(pid, ENTRANCE_REQUEST)])])
    case Enter(pid) =>
      var d := s.waiting[pid];
      var msg := First(s.doors[d].replies, pid);
      s.(waiting := s.waiting - {pid},
         doors := s.doors[d := s.doors[d].(replies := Without(s.doors[d].replies, pid))],
         inside := if msg.kind == ACCEPT then s.inside + {pid} else s.inside)
    case AskToLeave(pid) =>
      s.(inside := s.inside - {pid}, leaving := s.leaving + {pid},
         exit := s.exit.(requests := s.exit.requests + [Msg(pid, EXIT_REQUEST)]))
    case Leave(pid) =>
      s.(leaving := s.leaving - {pid}, exit := s.exit.(replies := Without(s.exit.replies, pid)))
    case EntranceDoor(d) =>
      var (door, shared) := EntranceStep(s.doors[d], s.shared);
      s.(doors := s.doors[d := door], shared := shared)
    case ExitDoor =>
      var (door, shared) := ExitStep(s.exit, s.shared);
      s.(exit := door, shared := shared)
    case SetOpen(isOpen) => s.(shared := s.shared.(isOpen := isOpen))
  }

  // ----- What is counted -----

  function Holds(door: Door): nat {
    if door.phase.Idle? || door.phase.Got? || door.phase.Released? then 0 else 1
  }

  /** The visitors an entrance door has let in that do not know it yet. */
  function Admitted(door: Door): nat {
    CountAccept(door.replies)
    + if (door.phase.Decided? || door.phase.Released?) && door.phase.msg.kind == ACCEPT then 1 else 0
  }

  /** The visitors whose exit the exit door has not counted yet. */
  function Asking(door: Door): nat {
    |door.requests| + if door.phase.Got? || door.phase.Locked? || door.phase.Loaded? then 1 else 0
  }

  /** The messages of a visitor at a door: requested, in hand or answered. */
  function AtDoor(door: Door, pid: int): nat {
    CountPid(door.requests, pid) + CountPid(door.replies, pid)
    + if !door.phase.Idle? && door.phase.msg.pid == pid then 1 else 0
  }

  /** The visitors that take up a place. */
  function Occupancy(s: State): nat
    requires |s.doors| == ENTRANCE_DOORS
  {
    Admitted(s.doors[0]) + Admitted(s.doors[1]) + Admitted(s.doors[2]) + |s.inside| + Asking(s.exit)
  }

  predicate AllKind(queue: seq<Msg>, kind: Kind) {
    forall i | 0 <= i < |queue| :: queue[i].kind == kind
  }

  predicate EntranceOk(door: Door, sh: Shared) {
    && AllKind(door.requests, ENTRANCE_REQUEST)
    && (door.phase.Checked? || door.phase.Accepting? ==> sh.cap > 0)
    && (door.phase.Loaded? ==> door.phase.seen == sh.cap > 0)
  }

  predicate ExitOk(door: Door, sh: Shared) {
    && AllKind(door.requests, EXIT_REQUEST)
    && !door.phase.Checked? && !door.phase.Accepting?
    && (door.phase.Loaded? ==> door.phase.seen == sh.cap)
  }

  predicate SemaphoreOk(s: State)
    requires |s.doors| == ENTRANCE_DOORS
  {
    Holds(s.doors[0]) + Holds(s.doors[1]) + Holds(s.doors[2]) + Holds(s.exit) == if s.shared.free then 0 else 1
  }

  predicate Inv(s: State) {
    && |s.doors| == ENTRANCE_DOORS
    && SemaphoreOk(s)
    && EntranceOk(s.doors[0], s.shared) && EntranceOk(s.doors[1], s.shared) && EntranceOk(s.doors[2], s.shared)
    && ExitOk(s.exit, s.shared)
    && s.waiting.Keys !! s.inside !! s.leaving
    && s.shared.cap >= 0
    && s.shared.cap + Occupancy(s) == MUSEUM_CAP
  }

  // ----- Each step keeps the count -----

  lemma {:induction false} CountAcceptConcat(a: seq<Msg>, b: seq<Msg>)
    ensures CountAccept(a + b) == CountAccept(a) + CountAccept(b)
  {
    if a == [] {
      assert a + b == b;
    } else {
      CountAcceptConcat(a[1..], b);
      assert (a + b)[1..] == a[1..] + b;
    }
  }

  lemma {:induction false} CountPidConcat(a: seq<Msg>, b: seq<Msg>, pid: int)
    ensures CountPid(a + b, pid) == CountPid(a, pid) + CountPid(b, pid)
  {
    if a == [] {
      assert a + b == b;
    } else {
      CountPidConcat(a[1..], b, pid);
      assert (a + b)[1..] == a[1..] + b;
    }
  }

  /** Taking a visitor's first reply takes that message and no other. */
  lemma {:induction false} WithoutEffect(queue: seq<Msg>, pid: int, other: int)
    requires CountPid(queue, pid) > 0
    ensures First(queue, pid).pid == pid
    ensures CountAccept(queue) == CountAccept(Without(queue, pid)) + if First(queue, pid).kind == ACCEPT then 1 else 0
    ensures CountPid(queue, other) == CountPid(Without(queue, pid), other) + if other == pid then 1 else 0
  {
    if queue[0].pid != pid {
      WithoutEffect(queue[1..], pid, other);
    }
  }

  /** An entrance door's step keeps the places and the semaphore in balance, and changes the counter only while
      it holds the semaphore. */
  lemma EntranceStepEffect(door: Door, sh: Shared, pid: int)
    requires CanStep(door, sh) && EntranceOk(door, sh) && sh.cap >= 0
    requires Holds(door) == 1 ==> !sh.free
    ensures var (door', sh') := EntranceStep(door, sh);
            && EntranceOk(door', sh') && sh'.cap >= 0 && sh'.isOpen == sh.isOpen
            && sh'.cap + Admitted(door') == sh.cap + Admitted(door)
            && Holds(door') + (if sh'.free then 1 else 0) == Holds(door) + (if sh.free then 1 else 0)
            && (Holds(door) == 0 ==> sh'.cap == sh.cap)
            && AtDoor(door', pid) == AtDoor(door, pid)
  {
    if door.phase.Released? {
      CountAcceptConcat(door.replies, [door.phase.msg]);
      CountPidConcat(door.replies, [door.phase.msg], pid);
    }
  }

  lemma ExitStepEffect(door: Door, sh: Shared, pid: int)
    requires CanStep(door, sh) && ExitOk(door, sh)
    requires Holds(door) == 1 ==> !sh.free
    ensures var (door', sh') := ExitStep(door, sh);
            && ExitOk(door', sh') && sh'.cap >= sh.cap && sh'.isOpen == sh.isOpen
            && sh'.cap + Asking(door') == sh.cap + Asking(door)
            && Holds(door') + (if sh'.free then 1 else 0) == Holds(door) + (if sh.free then 1 else 0)
            && (Holds(door) == 0 ==> sh'.cap == sh.cap)
            && AtDoor(door', pid) == AtDoor(door, pid)
  {
    if door.phase.Released? {
      CountPidConcat(door.replies, [door.phase.msg], pid);
    }
  }

  /** While one door holds the semaphore no other door depends on the counter. */
  lemma OthersDoNotHold(s: State, d: nat)
    requires Inv(s) && d < ENTRANCE_DOORS && Holds(s.doors[d]) == 1
    ensures !s.shared.free && Holds(s.exit) == 0
    ensures forall e | 0 <= e < ENTRANCE_DOORS && e != d :: Holds(s.doors[e]) == 0
  {
  }

  lemma SteppedDoorKeepsInv(s: State, d: nat, next: State)
    requires Inv(s) && d < ENTRANCE_DOORS == |next.doors| && next == s.(shared := next.shared, doors := next.doors)
    requires next.doors == s.doors[d := next.doors[d]]
    requires EntranceOk(next.doors[d], next.shared) && next.shared.cap >= 0
    requires next.shared.cap + Admitted(next.doors[d]) == s.shared.cap + Admitted(s.doors[d])
    requires Holds(next.doors[d]) + (if next.shared.free then 1 else 0)
          == Holds(s.doors[d]) + (if s.shared.free then 1 else 0)
    requires next.shared.cap != s.shared.cap ==> Holds(s.doors[d]) == 1
    ensures Inv(next)
  {
    if Holds(s.doors[d]) == 1 { OthersDoNotHold(s, d); }
    if d == 0 {
    } else if d == 1 {
    } else {
      assert d == 2;
    }
  }

  lemma EntranceDoorKeepsInv(s: State, d: nat)
    requires Inv(s) && Enabled(s, EntranceDoor(d))
    ensures Inv(After(s, EntranceDoor(d)))
  {
    if Holds(s.doors[d]) == 1 { OthersDoNotHold(s, d); }
    EntranceStepEffect(s.doors[d], s.shared, 0);
    SteppedDoorKeepsInv(s, d, After(s, EntranceDoor(d)));
  }

  lemma ExitDoorKeepsInv(s: State)
    requires Inv(s) && Enabled(s, ExitDoor)
    ensures Inv(After(s, ExitDoor))
  {
    ExitStepEffect(s.exit, s.shared, 0);
    var (door, shared) := ExitStep(s.exit, s.shared);
    assert shared.cap != s.shared.cap ==> Holds(s.exit) == 1;
  }

  /** What a visitor does at an entrance door leaves the semaphore and the counter alone. */
  lemma VisitorAtDoorKeepsInv(s: State, d: nat, next: State)
    requires Inv(s) && d < ENTRANCE_DOORS == |next.doors| && next.doors == s.doors[d := next.doors[d]]
    requires next.shared == s.shared && next.exit == s.exit && next.leaving == s.leaving
    requires next.doors[d].phase == s.doors[d].phase && AllKind(next.doors[d].requests, ENTRANCE_REQUEST)
    requires CountAccept(next.doors[d].replies) + |next.inside| == CountAccept(s.doors[d].replies) + |s.inside|
    requires next.waiting.Keys !! next.inside !! next.leaving
    ensures Inv(next)
  {
    assert Holds(next.doors[d]) == Holds(s.doors[d]);
    assert Admitted(next.doors[d]) + |next.inside| == Admitted(s.doors[d]) + |s.inside|;
    if d == 0 {
    } else if d == 1 {
    } else {
      assert d == 2;
    }
  }

  lemma EnterKeepsInv(s: State, pid: int)
    requires Inv(s) && Enabled(s, Enter(pid))
    ensures Inv(After(s, Enter(pid)))
  {
    var d := s.waiting[pid];
    WithoutEffect(s.doors[d].replies, pid, pid);
    VisitorAtDoorKeepsInv(s, d, After(s, Enter(pid)));
  }

  lemma ArriveKeepsInv(s: State, pid: int, d: nat)
    requires Inv(s) && Enabled(s, Arrive(pid, d))
    ensures Inv(After(s, Arrive(pid, d)))
  {
    VisitorAtDoorKeepsInv(s, d, After(s, Arrive(pid, d)));
  }

  lemma LeavingKeepsInv(s: State, step: Step)
    requires Inv(s) && Enabled(s, step) && (step.AskToLeave? || step.Leave?)
    ensures Inv(After(s, step))
  {
    assert Holds(After(s, step).exit) == Holds(s.exit);
  }

  lemma StepKeepsInv(s: State, step: Step)
    requires Inv(s) && Enabled(s, step)
    ensures Inv(After(s, step))
  {
    match step
    case Arrive(pid, d) => ArriveKeepsInv(s, pid, d);
    case Enter(pid) => EnterKeepsInv(s, pid);
    case EntranceDoor(d) => EntranceDoorKeepsInv(s, d);
    case ExitDoor => ExitDoorKeepsInv(s);
    case SetOpen(_) =>
    case _ => LeavingKeepsInv(s, step);
  }

  // ----- Every visitor has one request or reply under way -----

  ghost predicate OneAtDoor(s: State, d: nat, pid: int)
    requires d < |s.doors|
  {
    AtDoor(s.doors[d], pid) == if pid in s.waiting && s.waiting[pid] == d then 1 else 0
  }

  ghost predicate OneAtExit(s: State, pid: int) {
    AtDoor(s.exit, pid) == if pid in s.leaving then 1 else 0
  }

  lemma StepKeepsOneAtDoor(s: State, step: Step, d: nat, pid: int)
    requires Inv(s) && Enabled(s, step) && d < |s.doors| && OneAtDoor(s, d, pid)
    ensures OneAtDoor(After(s, step), d, pid)
  {
    var door, next := s.doors[d], After(s, step).doors[d];
    match step
    case Arrive(p, e) => if e == d { CountPidConcat(door.requests, [Msg(p, ENTRANCE_REQUEST)], pid); }
    case Enter(p) =>
      if s.waiting[p] == d {
        WithoutEffect(door.replies, p, pid);
        assert AtDoor(door, pid) == AtDoor(next, pid) + if p == pid then 1 else 0;
      }
    case EntranceDoor(e) => if e == d { DoorKeepsMessages(s, d, pid); }
    case _ =>
  }

  lemma DoorKeepsMessages(s: State, d: nat, pid: int)
    requires Inv(s) && d < |s.doors| && CanStep(s.doors[d], s.shared)
    ensures AtDoor(EntranceStep(s.doors[d], s.shared).0, pid) == AtDoor(s.doors[d], pid)
  {
    EntranceStepEffect(s.doors[d], s.shared, pid);
  }

  lemma StepKeepsOneAtExit(s: State, step: Step, pid: int)
    requires Inv(s) && Enabled(s, step) && OneAtExit(s, pid)
    ensures OneAtExit(After(s, step), pid)
  {
    match step
    case AskToLeave(p) => CountPidConcat(s.exit.requests, [Msg(p, EXIT_REQUEST)], pid);
    case Leave(p) => WithoutEffect(s.exit.replies, p, pid);
    case ExitDoor => ExitStepEffect(s.exit, s.shared, pid);
    case _ =>
  }

  // ----- Runs -----

  function Start(): State {
    var door := Door([], [], Idle);
    State(Shared(MUSEUM_CAP, true, true), [door, door, door], door, map[], {}, {})
  }

  ghost predicate IsRun(run: seq<State>, steps: seq<Step>) {
    && |run| == |steps| + 1 && run[0] == Start()
    && forall i | 0 <= i < |steps| :: Enabled(run[i], steps[i]) && run[i + 1] == After(run[i], steps[i])
  }

  lemma {:induction false} RunKeepsInv(run: seq<State>, steps: seq<Step>, i: nat)
    requires IsRun(run, steps) && i < |run|
    ensures Inv(run[i])
  {
    if i > 0 {
      RunKeepsInv(run, steps, i - 1);
      StepKeepsInv(run[i - 1], steps[i - 1]);
    }
  }

  /** In every interleaving the free places and the visitors that take one up are 20, so the counter stays
      within 0 and 20, there are never more than 20 visitors inside, and at most one door holds the semaphore. */
  lemma PlacesAreConserved(run: seq<State>, steps: seq<Step>, i: nat)
    requires IsRun(run, steps) && i < |run|
    ensures var s := run[i];
            && |s.doors| == 3
            && s.shared.cap + Occupancy(s) == 20
            && 0 <= s.shared.cap <= 20
            && |s.inside| <= Occupancy(s) <= 20
            && SemaphoreOk(s)
  {
    RunKeepsInv(run, steps, i);
  }

  /** A waiting visitor's request or reply is at the door it chose, once, and nobody else's message is there. */
  lemma {:induction false} ExactlyOneReply(run: seq<State>, steps: seq<Step>, i: nat, pid: int, d: nat)
    requires IsRun(run, steps) && i < |run| && d < ENTRANCE_DOORS
    ensures |run[i].doors| == ENTRANCE_DOORS && OneAtDoor(run[i], d, pid) && OneAtExit(run[i], pid)
  {
    RunKeepsInv(run, steps, i);
    if i > 0 {
      ExactlyOneReply(run, steps, i - 1, pid, d);
      RunKeepsInv(run, steps, i - 1);
      StepKeepsOneAtDoor(run[i - 1], steps[i - 1], d, pid);
      StepKeepsOneAtExit(run[i - 1], steps[i - 1], pid);
    }
  }
}
