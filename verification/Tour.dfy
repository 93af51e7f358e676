/** Guided tours: visitors register under a semaphore, a guide starts the tours, a timer reminds it. */
module Tour {

  const TOUR_CAP := 5

  /** A visitor on its way through registration; from `Locked` to `Full` it holds the counter's semaphore. */
  datatype Person =
    | Wanting
    | Locked
    | Adding
    | Loaded(seen: int)
    | Counted
    | Sent
    | Registered
    | Full
    | Waiting
    | Done

  /** The guide; from `Entered` to `Finished` it holds the counter's semaphore. `i` is the loop index. */
  datatype Guide =
    | AtStart
    | AtCounter
    | Entered
    | Loop(people: int, i: int)
    | Replying(people: int, i: int, pid: int)
    | Answered(people: int, i: int)
    | Subtracting(people: int, i: int, seen: int)
    | Finished

  datatype Timer = Sleeping | Looking | Looked

  /** `free` and `start` are the values of the semaphores over the counter and for starting a tour. */
  datatype State = State(free: nat, start: nat, count: int, requests: seq<int>, replies: seq<int>,
                         persons: map<int, Person>, guide: Guide, timer: Timer)

  datatype Step = Arrive(pid: int) | PersonStep(pid: int) | GuideStep | TimerStep

  predicate Enabled(s: State, step: Step) {
    match step
    case Arrive(pid) => pid !in s.persons
    case PersonStep(pid) =>
      && pid in s.persons && !s.persons[pid].Done?
      && (s.persons[pid].Wanting? ==> s.free > 0)
      && (s.persons[pid].Waiting? ==> pid in s.replies)
    case GuideStep =>
      && (s.guide.AtStart? ==> s.start > 0)
      && (s.guide.AtCounter? ==> s.free > 0)
      && (s.guide.Loop? && s.guide.i < s.guide.people ==> s.requests != [])
    case TimerStep => s.timer.Sleeping? ==> s.free > 0
  }

  function Without(pids: seq<int>, pid: int): seq<int>
    requires pid in pids
  {
    if pids[0] == pid then pids[1..] else [pids[0]] + Without(pids[1..], pid)
  }

  function AfterPerson(s: State, pid: int): State
    requires Enabled(s, PersonStep(pid))
  {
    match s.persons[pid]
    case Wanting => s.(free := s.free - 1, persons := s.persons[pid := Locked])
    case Locked => s.(persons := s.persons[pid := if s.count < TOUR_CAP then Adding else Full])
    case Adding => s.(persons := s.persons[pid := Loaded(s.count)])
    case Loaded(seen) => s.(count := seen + 1, persons := s.persons[pid := Counted])
    case Counted => s.(requests := s.requests + [pid], persons := s.persons[pid := Sent])
    case Sent => s.(start := if s.count == TOUR_CAP then s.start + 1 else s.start,
                    persons := s.persons[pid := Registered])
    case Registered => s.(free := s.free + 1, persons := s.persons[pid := Waiting])
    case Full => s.(free := s.free + 1, persons := s.persons[pid := Done])
    case Waiting => s.(replies := Without(s.replies, pid), persons := s.persons[pid := Done])
  }

  /** The loop index is read but never advanced. */
  function AfterGuide(s: State): State
    requires Enabled(s, GuideStep)
  {
    match s.guide
    case AtStart => s.(start := s.start - 1, guide := AtCounter)
    case AtCounter => s.(free := s.free - 1, guide := Entered)
    case Entered => s.(guide := Loop(s.count, 0))
    case Loop(people, i) =>
      if i < people then s.(requests := s.requests[1..], guide := Replying(people, i, s.requests[0]))
      else s.(guide := Finished)
    case Replying(people, i, pid) => s.(replies := s.replies + [pid], guide := Answered(people, i))
    case Answered(people, i) => s.(guide := Subtracting(people, i, s.count))
    case Subtracting(people, i, seen) => s.(count := seen - 1, guide := Loop(people, i))
    case Finished => s.(free := s.free + 1, guide := AtStart)
  }

  function AfterTimer(s: State): State
    requires Enabled(s, TimerStep)
  {
    match s.timer
    case Sleeping => s.(free := s.free - 1, timer := Looking)
    case Looking => s.(start := if s.count > 0 then s.start + 1 else s.start, timer := Looked)
    case Looked => s.(free := s.free + 1, timer := Sleeping)
  }

  function After(s: State, step: Step): State
    requires Enabled(s, step)
  {
    match step
    case Arrive(pid) => s.(persons := s.persons[pid := Wanting])
    case PersonStep(pid) => AfterPerson(s, pid)
    case GuideStep => AfterGuide(s)
    case TimerStep => AfterTimer(s)
  }

  // ----- Mutual exclusion and the counter -----

  predicate PersonHolds(s: State, pid: int) {
    pid in s.persons && !s.persons[pid].Wanting? && !s.persons[pid].Waiting? && !s.persons[pid].Done?
  }

  predicate GuideHolds(s: State) {
    !s.guide.AtStart? && !s.guide.AtCounter?
  }

  predicate TimerHolds(s: State) {
    !s.timer.Sleeping?
  }

  /** At most one process holds the semaphore, and none does while it is free. */
  ghost predicate Exclusive(s: State) {
    && s.free <= 1
    && (GuideHolds(s) ==> s.free == 0 && !TimerHolds(s))
    && (TimerHolds(s) ==> s.free == 0)
    && (forall pid | PersonHolds(s, pid) :: s.free == 0 && !GuideHolds(s) && !TimerHolds(s))
    && (forall p, q | PersonHolds(s, p) && PersonHolds(s, q) :: p == q)
  }

  /** A request is counted before it is sent, and uncounted after it is received. */
  ghost predicate Counting(s: State) {
    s.guide.Replying? || s.guide.Answered? || s.guide.Subtracting?
    || exists pid :: pid in s.persons && s.persons[pid].Counted?
  }

  ghost predicate CounterOk(s: State) {
    && 0 <= s.count <= TOUR_CAP
    && s.count == |s.requests| + (if Counting(s) then 1 else 0)
    && (s.guide.Subtracting? ==> s.guide.seen == s.count)
    && (forall pid | pid in s.persons ::
          && (s.persons[pid].Adding? ==> s.count < TOUR_CAP)
          && (s.persons[pid].Loaded? ==> s.persons[pid].seen == s.count < TOUR_CAP))
  }

  ghost predicate Inv(s: State) {
    Exclusive(s) && CounterOk(s)
  }

  lemma PersonKeepsExclusive(s: State, pid: int)
    requires Exclusive(s) && Enabled(s, PersonStep(pid))
    ensures Exclusive(AfterPerson(s, pid))
  {
    var next := AfterPerson(s, pid);
    assert forall p | p != pid :: PersonHolds(next, p) == PersonHolds(s, p);
    if !s.persons[pid].Wanting? && !s.persons[pid].Waiting? {
      assert PersonHolds(s, pid);
    }
  }

  lemma PersonKeepsCounter(s: State, pid: int)
    requires Inv(s) && Enabled(s, PersonStep(pid))
    ensures CounterOk(AfterPerson(s, pid))
  {
    var next := AfterPerson(s, pid);
    assert forall p | p in s.persons && p != pid :: next.persons[p] == s.persons[p];
    if s.persons[pid].Wanting? || s.persons[pid].Waiting? {
      assert Counting(next) <==> Counting(s);
    } else {
      assert PersonHolds(s, pid);
      assert forall p | p in s.persons && p != pid :: !PersonHolds(s, p);
      assert Counting(s) <==> s.persons[pid].Counted?;
      assert Counting(next) <==> next.persons[pid].Counted?;
    }
  }

  lemma OtherStepsKeepInv(s: State, step: Step)
    requires Inv(s) && Enabled(s, step) && !step.PersonStep?
    ensures Inv(After(s, step))
  {
    var next := After(s, step);
    if step.Arrive? {
      assert forall p | p in s.persons :: next.persons[p] == s.persons[p];
      assert forall p :: PersonHolds(next, p) == PersonHolds(s, p);
    } else {
      assert forall p :: PersonHolds(next, p) == PersonHolds(s, p);
      if step.GuideStep? && GuideHolds(s) {
        assert forall p | p in s.persons ::
            s.persons[p].Counted? || s.persons[p].Adding? || s.persons[p].Loaded? ==> PersonHolds(s, p);
      }
    }
  }

  lemma StepKeepsInv(s: State, step: Step)
    requires Inv(s) && Enabled(s, step)
    ensures Inv(After(s, step))
  {
    if step.PersonStep? {
      PersonKeepsExclusive(s, step.pid);
      PersonKeepsCounter(s, step.pid);
    } else {
      OtherStepsKeepInv(s, step);
    }
  }

  // ----- Runs -----

  function Start(): State {
    State(1, 0, 0, [], [], map[], AtStart, Sleeping)
  }

  ghost predicate CanRun(s: State, steps: seq<Step>)
    decreases steps
  {
    steps == [] || (Enabled(s, steps[0]) && CanRun(After(s, steps[0]), steps[1..]))
  }

  ghost function Run(s: State, steps: seq<Step>): State
    requires CanRun(s, steps)
    decreases steps
  {
    if steps == [] then s else Run(After(s, steps[0]), steps[1..])
  }

  lemma {:induction false} RunKeepsInv(s: State, steps: seq<Step>)
    requires Inv(s) && CanRun(s, steps)
    ensures Inv(Run(s, steps))
    decreases steps
  {
    if steps != [] {
      StepKeepsInv(s, steps[0]);
      RunKeepsInv(After(s, steps[0]), steps[1..]);
    }
  }

  /** Whenever the counter's semaphore is free, the counter is the number of queued requests, from 0 to 5. */
  lemma CounterIsQueueLength(steps: seq<Step>)
    requires CanRun(Start(), steps)
    ensures var s := Run(Start(), steps);
            && 0 <= s.count <= 5
            && (s.free > 0 ==> s.free == 1 && s.count == |s.requests|)
  {
    RunKeepsInv(Start(), steps);
    var s := Run(Start(), steps);
    if s.free > 0 {
      assert !Counting(s) by {
        if pid :| pid in s.persons && s.persons[pid].Counted? { assert PersonHolds(s, pid); }
      }
    }
  }

  // ----- The guide that finds people waiting never leaves its loop -----

  predicate InLoop(s: State) {
    match s.guide
    case Entered => s.count > 0
    case Loop(people, i) => i < people
    case Replying(people, i, _) => i < people
    case Answered(people, i) => i < people
    case Subtracting(people, i, _) => i < people
    case _ => false
  }

  lemma InLoopForEver(s: State, step: Step)
    requires Inv(s) && Enabled(s, step) && InLoop(s)
    ensures InLoop(After(s, step)) && s.free == 0 && |After(s, step).requests| <= |s.requests|
  {
    assert GuideHolds(s);
    assert step.PersonStep? ==> !PersonHolds(s, step.pid);
  }

  lemma {:induction false} NeverReleased(s: State, steps: seq<Step>)
    requires Inv(s) && InLoop(s) && CanRun(s, steps)
    ensures Run(s, steps).free == 0 && InLoop(Run(s, steps))
    ensures |Run(s, steps).requests| <= |s.requests|
    decreases steps
  {
    if steps != [] {
      InLoopForEver(s, steps[0]);
      StepKeepsInv(s, steps[0]);
      NeverReleased(After(s, steps[0]), steps[1..]);
    }
  }

  /** With nobody registered the guide skips the loop and releases the semaphore. */
  lemma EmptyTourIsReleased(s: State)
    requires Inv(s) && s.guide.Entered? && s.count == 0
    ensures var steps := [GuideStep, GuideStep, GuideStep]; CanRun(s, steps) && Run(s, steps).free > 0
  {
    var looping := After(s, GuideStep);
    var finished := After(looping, GuideStep);
    var steps := [GuideStep, GuideStep, GuideStep];
    var two, one := steps[1..], steps[1..][1..];
    assert one == [GuideStep] && one[1..] == [];
    assert CanRun(After(finished, GuideStep), one[1..]);
    assert CanRun(finished, one) && Run(finished, one) == After(finished, GuideStep);
    assert CanRun(looping, two) && Run(looping, two) == Run(finished, one);
  }

  /** A guide that has entered releases the semaphore in some run if and only if nobody is registered. */
  lemma GuideReleasesIffNobodyWaits(s: State)
    requires Inv(s) && s.guide.Entered?
    ensures s.count == 0 <==> exists steps :: CanRun(s, steps) && Run(s, steps).free > 0
  {
    if s.count == 0 {
      EmptyTourIsReleased(s);
    } else {
      forall steps | CanRun(s, steps)
        ensures Run(s, steps).free == 0
      {
        NeverReleased(s, steps);
      }
    }
  }

  // ----- One visitor is enough -----

  lemma {:induction false} RunAppend(s: State, steps: seq<Step>, step: Step)
    requires CanRun(s, steps) && Enabled(Run(s, steps), step)
    ensures CanRun(s, steps + [step]) && Run(s, steps + [step]) == After(Run(s, steps), step)
    decreases steps
  {
    if steps == [] {
      assert [] + [step] == [step] && [step][1..] == [];
    } else {
      assert (steps + [step])[1..] == steps[1..] + [step];
      RunAppend(After(s, steps[0]), steps[1..], step);
    }
  }

  function Pids(k: nat): seq<int> {
    seq(k, i => i + 1)
  }

  function AllWaiting(k: nat): (persons: map<int, Person>)
    ensures forall pid :: pid in persons <==> 1 <= pid <= k
    ensures forall pid | pid in persons :: persons[pid] == Waiting
  {
    if k == 0 then map[] else AllWaiting(k - 1)[k := Waiting]
  }

  /** The state once the first `k` visitors have registered; the fifth has woken the guide. */
  function AfterFirst(k: nat): State {
    State(1, if k == 5 then 1 else 0, k, Pids(k), [], AllWaiting(k), AtStart, Sleeping)
  }

  /** Registration of visitor `k + 1`, step by step. */
  function Registering(k: nat, j: nat): State {
    var (s, pid) := (AfterFirst(k), k + 1);
    match j
    case 0 => s.(persons := s.persons[pid := Wanting])
    case 1 => s.(free := 0, persons := s.persons[pid := Locked])
    case 2 => s.(free := 0, persons := s.persons[pid := Adding])
    case 3 => s.(free := 0, persons := s.persons[pid := Loaded(k)])
    case 4 => s.(free := 0, count := k + 1, persons := s.persons[pid := Counted])
    case 5 => s.(free := 0, count := k + 1, requests := Pids(k + 1), persons := s.persons[pid := Sent])
    case 6 =>
      AfterFirst(k + 1).(free := 0, persons := s.persons[pid := Registered])
    case _ => AfterFirst(k + 1)
  }

  lemma VisitorRegisters(before: seq<Step>, k: nat) returns (steps: seq<Step>)
    requires CanRun(Start(), before) && Run(Start(), before) == AfterFirst(k) && k < 5
    ensures CanRun(Start(), steps) && Run(Start(), steps) == AfterFirst(k + 1)
  {
    RunAppend(Start(), before, Arrive(k + 1));
    steps := before + [Arrive(k + 1)];
    for j := 0 to 7
      invariant CanRun(Start(), steps) && Run(Start(), steps) == Registering(k, j)
    {
      RegisteringStep(k, j);
      RunAppend(Start(), steps, PersonStep(k + 1));
      steps := steps + [PersonStep(k + 1)];
    }
  }

  lemma RegisteringStep(k: nat, j: nat)
    requires k < 5 && j < 7
    ensures Enabled(Registering(k, j), PersonStep(k + 1))
    ensures After(Registering(k, j), PersonStep(k + 1)) == Registering(k, j + 1)
  {
    assert After(Registering(k, j), PersonStep(k + 1)).persons == Registering(k, j + 1).persons;
    assert Pids(k) + [k + 1] == Pids(k + 1);
  }

  lemma VisitorsRegister(k: nat) returns (steps: seq<Step>)
    requires k <= 5
    ensures CanRun(Start(), steps) && Run(Start(), steps) == AfterFirst(k)
  {
    steps := [];
    assert AfterFirst(0).persons == map[];
    for i := 0 to k
      invariant CanRun(Start(), steps) && Run(Start(), steps) == AfterFirst(i)
    {
      steps := VisitorRegisters(steps, i);
    }
  }

  /** One visitor registers, the timer reminds the guide, and the guide enters: from then on the semaphore is held
      for ever, and nobody else can register. */
  lemma OneVisitorBlocksTheTour() returns (steps: seq<Step>)
    ensures CanRun(Start(), steps)
    ensures Run(Start(), steps).guide.Entered? && Run(Start(), steps).count == 1
    ensures forall more | CanRun(Run(Start(), steps), more) :: Run(Run(Start(), steps), more).free == 0
  {
    steps := VisitorsRegister(1);
    var rest := [TimerStep, TimerStep, TimerStep, GuideStep, GuideStep];
    for k := 0 to 5
      invariant CanRun(Start(), steps)
      invariant Run(Start(), steps)
             == match k
                case 0 => AfterFirst(1)
                case 1 => AfterFirst(1).(free := 0, timer := Looking)
                case 2 => AfterFirst(1).(free := 0, start := 1, timer := Looked)
                case 3 => AfterFirst(1).(start := 1)
                case 4 => AfterFirst(1).(guide := AtCounter)
                case _ => AfterFirst(1).(free := 0, guide := Entered)
    {
      RunAppend(Start(), steps, rest[k]);
      steps := steps + [rest[k]];
    }
    RunKeepsInv(Start(), steps);
    GuideReleasesIffNobodyWaits(Run(Start(), steps));
  }

  /** Five visitors register, the fifth wakes the guide, and a sixth one leaves without a tour. */
  lemma FiveRegisterTheSixthDoesNot() returns (five: seq<Step>, six: seq<Step>)
    ensures CanRun(Start(), five) && CanRun(Start(), six) && five <= six
    ensures var s := Run(Start(), five);
            && s.count == 5 && s.requests == [1, 2, 3, 4, 5] && s.start == 1
            && forall pid | 1 <= pid <= 5 :: pid in s.persons && s.persons[pid].Waiting?
    ensures var s := Run(Start(), six);
            6 in s.persons && s.persons[6].Done? && s.count == 5 && s.requests == [1, 2, 3, 4, 5] && s.free == 1
  {
    five := VisitorsRegister(5);
    assert Pids(5) == [1, 2, 3, 4, 5];
    six := five;
    var (s, p) := (AfterFirst(5), PersonStep(6));
    var rest := [Arrive(6), p, p, p];
    for k := 0 to 4
      invariant five <= six && CanRun(Start(), six)
      invariant Run(Start(), six)
             == match k
                case 0 => s
                case 1 => s.(persons := s.persons[6 := Wanting])
                case 2 => s.(free := 0, persons := s.persons[6 := Locked])
                case 3 => s.(free := 0, persons := s.persons[6 := Full])
                case _ => s.(persons := s.persons[6 := Done])
    {
      RunAppend(Start(), six, rest[k]);
      six := six + [rest[k]];
    }
  }

  // ----- Who is turned away -----

  /** A visitor that is being turned away has seen the counter at its limit. */
  ghost predicate FullOk(s: State) {
    forall pid | pid in s.persons && s.persons[pid].Full? :: s.count == TOUR_CAP
  }

  lemma StepKeepsFullOk(s: State, step: Step)
    requires Inv(s) && FullOk(s) && Enabled(s, step)
    ensures FullOk(After(s, step))
  {
    var next := After(s, step);
    forall pid | pid in next.persons && next.persons[pid].Full? ensures next.count == TOUR_CAP {
      if !(step.PersonStep? && step.pid == pid) {
        assert PersonHolds(s, pid);
        assert step.PersonStep? ==> !PersonHolds(s, step.pid);
      }
    }
  }

  lemma {:induction false} RunKeepsFullOk(s: State, steps: seq<Step>)
    requires Inv(s) && FullOk(s) && CanRun(s, steps)
    ensures FullOk(Run(s, steps))
    decreases steps
  {
    if steps != [] {
      StepKeepsInv(s, steps[0]);
      StepKeepsFullOk(s, steps[0]);
      RunKeepsFullOk(After(s, steps[0]), steps[1..]);
    }
  }

  /** In every run a visitor at the counter is turned away if and only if five are registered, and otherwise registers;
      and as long as it is being turned away, five are registered. */
  lemma TurnedAwayIffFiveRegistered(steps: seq<Step>, pid: int)
    requires CanRun(Start(), steps) && pid in Run(Start(), steps).persons
    ensures var s := Run(Start(), steps);
            && (s.persons[pid].Locked? ==>
                  After(s, PersonStep(pid)).persons[pid] == if s.count == 5 then Full else Adding)
            && (s.persons[pid].Full? ==> s.count == 5)
  {
    RunKeepsInv(Start(), steps);
    RunKeepsFullOk(Start(), steps);
  }

  /** Each visitor that registers wakes the guide if and only if it is the fifth; the timer does if anybody has
      registered; and nobody else does. */
  lemma GuideIsWokenIff(steps: seq<Step>, step: Step)
    requires CanRun(Start(), steps) && Enabled(Run(Start(), steps), step)
    ensures var s := Run(Start(), steps); var next := After(s, step);
            next.start > s.start
            <==> (step.PersonStep? && s.persons[step.pid].Sent? && s.count == 5)
                 || (step.TimerStep? && s.timer.Looking? && s.count > 0)
  {
  }

  // ----- Messages -----

  function Copies(pids: seq<int>, pid: int): nat {
    if pids == [] then 0 else (if pids[0] == pid then 1 else 0) + Copies(pids[1..], pid)
  }

  lemma {:induction false} CopiesAppend(pids: seq<int>, p: int, pid: int)
    ensures Copies(pids + [p], pid) == Copies(pids, pid) + if p == pid then 1 else 0
  {
    if pids == [] {
      assert [] + [p] == [p] && [p][1..] == [];
    } else {
      assert (pids + [p])[1..] == pids[1..] + [p];
      CopiesAppend(pids[1..], p, pid);
    }
  }

  lemma {:induction false} CopiesWithout(pids: seq<int>, p: int, pid: int)
    requires p in pids
    ensures Copies(pids, pid) == Copies(Without(pids, p), pid) + if p == pid then 1 else 0
  {
    if pids[0] != p { CopiesWithout(pids[1..], p, pid); }
  }

  /** The requests and replies of a visitor: queued, in the guide's hand, or answered. */
  function Messages(s: State, pid: int): nat {
    Copies(s.requests, pid) + Copies(s.replies, pid) + if s.guide.Replying? && s.guide.pid == pid then 1 else 0
  }

  predicate HasAsked(s: State, pid: int) {
    pid in s.persons && (s.persons[pid].Sent? || s.persons[pid].Registered? || s.persons[pid].Waiting?)
  }

  ghost predicate OneMessage(s: State, pid: int) {
    Messages(s, pid) == if HasAsked(s, pid) then 1 else 0
  }

  lemma StepKeepsOneMessage(s: State, step: Step, pid: int)
    requires Enabled(s, step) && OneMessage(s, pid)
    ensures OneMessage(After(s, step), pid)
  {
    match step
    case PersonStep(p) =>
      if s.persons[p].Counted? { CopiesAppend(s.requests, p, pid); }
      if s.persons[p].Waiting? { CopiesWithout(s.replies, p, pid); }
    case GuideStep =>
      if s.guide.Replying? { CopiesAppend(s.replies, s.guide.pid, pid); }
    case _ =>
  }

  /** From the moment it has sent its request until it gets its answer, a visitor has exactly one message in the system;
      before and after it has none. */
  lemma {:induction false} ExactlyOneMessage(s: State, steps: seq<Step>, pid: int)
    requires CanRun(s, steps) && OneMessage(s, pid)
    ensures OneMessage(Run(s, steps), pid) && OneMessage(Start(), pid)
    decreases steps
  {
    if steps != [] {
      StepKeepsOneMessage(s, steps[0], pid);
      ExactlyOneMessage(After(s, steps[0]), steps[1..], pid);
    }
  }

  // ----- A tour that starts never ends -----

  /** The guide is only woken when somebody has registered, and finds somebody when it enters. */
  predicate Woken(s: State) {
    && (s.guide.AtStart? || (s.guide.AtCounter? && s.count > 0) || InLoop(s))
    && (s.guide.AtStart? && s.start > 0 ==> s.count > 0)
  }

  lemma StepKeepsWoken(s: State, step: Step)
    requires Inv(s) && Woken(s) && Enabled(s, step)
    ensures Woken(After(s, step))
  {
    if InLoop(s) { InLoopForEver(s, step); }
  }

  lemma {:induction false} RunKeepsWoken(s: State, steps: seq<Step>)
    requires Inv(s) && Woken(s) && CanRun(s, steps)
    ensures Woken(Run(s, steps))
    decreases steps
  {
    if steps != [] {
      StepKeepsInv(s, steps[0]);
      StepKeepsWoken(s, steps[0]);
      RunKeepsWoken(After(s, steps[0]), steps[1..]);
    }
  }

  /** In every run, once the guide has entered, the tour never ends and the semaphore is never free again. */
  lemma ToursNeverEnd(steps: seq<Step>, more: seq<Step>)
    requires CanRun(Start(), steps) && GuideHolds(Run(Start(), steps)) && CanRun(Run(Start(), steps), more)
    ensures Run(Run(Start(), steps), more).free == 0 && InLoop(Run(Run(Start(), steps), more))
  {
    RunKeepsInv(Start(), steps);
    RunKeepsWoken(Start(), steps);
    NeverReleased(Run(Start(), steps), more);
  }
}
