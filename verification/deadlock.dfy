// Tasks taking locks in rank order, in any interleaving: why nothing stops.
//
// Each lock is a first-in first-out queue (PromiseChains shows that is what a
// promise chain is). A task is a tree of work nested in locks; any step of it may
// throw, and leaving a lock happens however the work inside ended.
module Deadlock {
  import opened LockOrder
  import opened Sums

  // --- Tasks and queues ------------------------------------------------------

  /** The locks a task holds, innermost first, each with what follows it once left. */
  datatype Stack = Bottom | Frame(lock: Lock, rest: Work, below: Stack)

  /** waiting says the lock the work stands at has been asked for. */
  datatype Task = Task(stack: Stack, work: Work, waiting: bool)

  /** queues holds, per lock, who holds it followed by who waits, in order of asking. */
  datatype System = System(tasks: seq<Task>, queues: map<Lock, seq<nat>>)

  function Queue(s: System, l: Lock): seq<nat> {
    if l in s.queues then s.queues[l] else []
  }

  predicate Finished(t: Task) {
    t.stack.Bottom? && t.work.Done?
  }

  predicate Enabled(s: System, t: nat) {
    && t < |s.tasks|
    && !Finished(s.tasks[t])
    && (s.tasks[t].waiting ==>
          s.tasks[t].work.Hold? && Queue(s, s.tasks[t].work.lock) != [] && Queue(s, s.tasks[t].work.lock)[0] == t)
  }

  /** The task after its step; throws says the step, or the work inside the lock it leaves, threw. */
  function Moved(task: Task, throws: bool): Task
    requires !Finished(task) && (task.waiting ==> task.work.Hold?)
  {
    match task.work
    case Step(_, next) => task.(work := if throws then Done else next)
    case Hold(lock, body, next) =>
      if task.waiting then Task(Frame(lock, next, task.stack), body, false) else task.(waiting := true)
    case Done => Task(task.stack.below, if throws then Done else task.stack.rest, false)
  }

  /** Asking joins the end of a queue; leaving a lock takes its holder off the head. */
  function QueuesAfter(s: System, t: nat): map<Lock, seq<nat>>
    requires Enabled(s, t)
  {
    var task := s.tasks[t];
    match task.work
    case Step(_, _) => s.queues
    case Hold(lock, _, _) => if task.waiting then s.queues else s.queues[lock := Queue(s, lock) + [t]]
    case Done =>
      var lock := task.stack.lock;
      if |Queue(s, lock)| <= 1 then s.queues - {lock} else s.queues[lock := Queue(s, lock)[1..]]
  }

  function Next(s: System, t: nat, throws: bool): System
    requires Enabled(s, t)
  {
    System(s.tasks[t := Moved(s.tasks[t], throws)], QueuesAfter(s, t))
  }

  function Floor(stack: Stack): int {
    if stack.Bottom? then -1 else Rank(stack.lock)
  }

  predicate ValidStack(stack: Stack) {
    stack.Frame? ==>
      && ValidLock(stack.lock) && Rank(stack.lock) > Floor(stack.below)
      && Ascending(stack.rest, Floor(stack.below)) && ValidStack(stack.below)
  }

  predicate ValidTask(t: Task) {
    ValidStack(t.stack) && Ascending(t.work, Floor(t.stack)) && (t.waiting ==> t.work.Hold?)
  }

  predicate Holds(stack: Stack, l: Lock) {
    stack.Frame? && (stack.lock == l || Holds(stack.below, l))
  }

  predicate Wants(t: Task, l: Lock) {
    t.waiting && t.work.Hold? && t.work.lock == l
  }

  /** The queue of a lock is its holder, then its waiters, each once and nobody else. */
  predicate ValidQueue(s: System, l: Lock) {
    var q := Queue(s, l);
    && (l in s.queues ==> q != [])
    && Distinct(q)
    && (forall t :: t in q ==> t < |s.tasks| && (Holds(s.tasks[t].stack, l) || Wants(s.tasks[t], l)))
    && (forall t :: 0 <= t < |s.tasks| && Holds(s.tasks[t].stack, l) ==> q != [] && q[0] == t)
    && (forall t :: 0 <= t < |s.tasks| && Wants(s.tasks[t], l) ==> t in q)
  }

  ghost predicate Valid(s: System) {
    && (forall t :: 0 <= t < |s.tasks| ==> ValidTask(s.tasks[t]))
    && (forall l :: ValidQueue(s, l))
  }

  lemma {:induction false} HeldIsBelowFloor(stack: Stack, l: Lock)
    requires ValidStack(stack) && Holds(stack, l)
    ensures Rank(l) <= Floor(stack)
  {
    if stack.lock == l {
    } else {
      HeldIsBelowFloor(stack.below, l);
    }
  }

  /** It cannot be in the queue of the lock it stands at: everything it holds ranks below, and it waits for nothing. */
  lemma NotInLine(s: System, t: nat)
    requires Valid(s) && Enabled(s, t) && s.tasks[t].work.Hold? && !s.tasks[t].waiting
    ensures t !in Queue(s, s.tasks[t].work.lock)
  {
    var task := s.tasks[t];
    var lock := task.work.lock;
    assert ValidTask(task) && ValidQueue(s, lock);
    if Holds(task.stack, lock) {
      HeldIsBelowFloor(task.stack, lock);
    }
  }

  lemma AskKeepsQueue(s: System, t: nat, throws: bool, l: Lock)
    requires Valid(s) && Enabled(s, t) && s.tasks[t].work.Hold? && !s.tasks[t].waiting
    ensures ValidQueue(Next(s, t, throws), l)
  {
    assert ValidQueue(s, l);
    NotInLine(s, t);
    var lock := s.tasks[t].work.lock;
    var v := Next(s, t, throws);
    assert Queue(v, l) == if l == lock then Queue(s, l) + [t] else Queue(s, l);
    assert forall u :: 0 <= u < |s.tasks| ==> v.tasks[u].stack == s.tasks[u].stack;
  }

  predicate Distinct(q: seq<nat>) {
    forall i, j :: 0 <= i < j < |q| ==> q[i] != q[j]
  }

  lemma RestOfDistinct(q: seq<nat>)
    requires q != [] && Distinct(q)
    ensures Distinct(q[1..])
    ensures forall u :: u in q[1..] <==> u in q && u != q[0]
  {
    assert forall u :: u in q ==> u == q[0] || u in q[1..];
  }

  lemma LeaveKeepsQueue(s: System, t: nat, throws: bool, l: Lock)
    requires Valid(s) && Enabled(s, t) && s.tasks[t].work.Done?
    ensures ValidQueue(Next(s, t, throws), l)
  {
    var task := s.tasks[t];
    assert ValidTask(task) && ValidQueue(s, l);
    var lock := task.stack.lock;
    var v := Next(s, t, throws);
    var q := Queue(s, l);
    if l == lock {
      if Holds(task.stack.below, lock) {
        HeldIsBelowFloor(task.stack.below, lock);
        assert false;
      }
      assert Holds(task.stack, l);
      RestOfDistinct(q);
      assert Queue(v, l) == q[1..];
      assert !Holds(v.tasks[t].stack, l) && !Wants(v.tasks[t], l);
    } else {
      assert Queue(v, l) == q;
      assert Holds(v.tasks[t].stack, l) == Holds(task.stack, l);
    }
  }

  lemma NextKeepsQueue(s: System, t: nat, throws: bool, l: Lock)
    requires Valid(s) && Enabled(s, t)
    ensures ValidQueue(Next(s, t, throws), l)
  {
    var task := s.tasks[t];
    assert ValidTask(task) && ValidQueue(s, l);
    match task.work
    case Step(_, _) =>
    case Hold(_, _, _) =>
      if !task.waiting {
        AskKeepsQueue(s, t, throws, l);
      }
    case Done =>
      LeaveKeepsQueue(s, t, throws, l);
  }

  lemma NextKeepsValid(s: System, t: nat, throws: bool)
    requires Valid(s) && Enabled(s, t)
    ensures Valid(Next(s, t, throws))
  {
    assert ValidTask(s.tasks[t]);
    forall l
      ensures ValidQueue(Next(s, t, throws), l)
    {
      NextKeepsQueue(s, t, throws, l);
    }
  }

  // --- Deadlock --------------------------------------------------------------

  /**
   * While any task is unfinished, some task can move. Whoever is blocked waits
   * for a lock whose holder, if blocked too, waits for a lock of higher rank.
   */
  lemma {:induction false} SomebodyMoves(s: System, t: nat) returns (mover: nat)
    requires Valid(s) && t < |s.tasks| && !Finished(s.tasks[t])
    ensures Enabled(s, mover)
    decreases TOP - if s.tasks[t].waiting then Rank(s.tasks[t].work.lock) else TOP
  {
    var task := s.tasks[t];
    if Enabled(s, t) {
      mover := t;
    } else {
      var lock := task.work.lock;
      assert ValidQueue(s, lock) && Wants(task, lock);
      var head := Queue(s, lock)[0];
      assert head in Queue(s, lock);
      if Wants(s.tasks[head], lock) {
        mover := head;
      } else {
        HeldIsBelowFloor(s.tasks[head].stack, lock);
        mover := SomebodyMoves(s, head);
      }
    }
  }

  // --- Whole runs ------------------------------------------------------------

  datatype Move = Move(task: nat, throws: bool)

  predicate Legal(s: System, run: seq<Move>)
    decreases |run|
  {
    run == [] || (Enabled(s, run[0].task) && Legal(Next(s, run[0].task, run[0].throws), run[1..]))
  }

  function Run(s: System, run: seq<Move>): System
    requires Legal(s, run)
    decreases |run|
  {
    if run == [] then s else Run(Next(s, run[0].task, run[0].throws), run[1..])
  }

  function Start(programs: seq<Work>): System {
    System(seq(|programs|, i requires 0 <= i < |programs| => Task(Bottom, programs[i], false)), map[])
  }

  lemma {:induction false} RunKeepsValid(s: System, run: seq<Move>)
    requires Valid(s) && Legal(s, run)
    ensures Valid(Run(s, run))
    decreases |run|
  {
    if run == [] {
    } else {
      NextKeepsValid(s, run[0].task, run[0].throws);
      RunKeepsValid(Next(s, run[0].task, run[0].throws), run[1..]);
    }
  }

  function WorkSize(w: Work): nat {
    match w
    case Done => 0
    case Step(_, next) => 1 + WorkSize(next)
    case Hold(_, body, next) => 3 + WorkSize(body) + WorkSize(next)
  }

  function StackSize(stack: Stack): nat {
    if stack.Bottom? then 0 else 1 + WorkSize(stack.rest) + StackSize(stack.below)
  }

  function TaskSize(): Task -> int {
    (t: Task) => WorkSize(t.work) - (if t.waiting then 1 else 0) + StackSize(t.stack)
  }

  /** How many steps a system still has in it. */
  function StepsLeft(s: System): int {
    Sum(TaskSize(), s.tasks)
  }

  lemma EveryStepCounts(s: System, t: nat, throws: bool)
    requires Valid(s) && Enabled(s, t)
    ensures StepsLeft(Next(s, t, throws)) < StepsLeft(s)
  {
    assert ValidTask(s.tasks[t]);
    SumUpdate(TaskSize(), s.tasks, t, Moved(s.tasks[t], throws));
  }

  lemma StepsLeftNonNegative(s: System)
    requires Valid(s)
    ensures StepsLeft(s) >= 0
  {
    SumNonNegative(TaskSize(), s.tasks);
  }

  lemma {:induction false} RunIsBounded(s: System, run: seq<Move>)
    requires Valid(s) && Legal(s, run)
    ensures |run| <= StepsLeft(s) - StepsLeft(Run(s, run))
    decreases |run|
  {
    if run == [] {
    } else {
      NextKeepsValid(s, run[0].task, run[0].throws);
      EveryStepCounts(s, run[0].task, run[0].throws);
      RunIsBounded(Next(s, run[0].task, run[0].throws), run[1..]);
    }
  }

  lemma StartIsValid(programs: seq<Work>)
    requires forall i :: 0 <= i < |programs| ==> Ascending(programs[i], -1)
    ensures Valid(Start(programs))
  {
  }

  /**
   * No deadlock and no livelock: any run of any programs that take locks in rank
   * order is bounded by their size, whatever throws; it can go on unless everybody
   * has finished; and once they have, no lock has an entry left.
   */
  lemma EverythingFinishes(programs: seq<Work>, run: seq<Move>)
    requires forall i :: 0 <= i < |programs| ==> Ascending(programs[i], -1)
    requires Legal(Start(programs), run)
    ensures |run| <= StepsLeft(Start(programs))
    ensures var end := Run(Start(programs), run);
            || (exists t :: Enabled(end, t))
            || ((forall t :: 0 <= t < |end.tasks| ==> Finished(end.tasks[t])) && end.queues == map[])
  {
    var start := Start(programs);
    StartIsValid(programs);
    RunKeepsValid(start, run);
    RunIsBounded(start, run);
    var end := Run(start, run);
    StepsLeftNonNegative(end);
    if t :| 0 <= t < |end.tasks| && !Finished(end.tasks[t]) {
      var mover := SomebodyMoves(end, t);
    } else {
      NoEntryLeft(end);
    }
  }

  lemma EntryHasUser(s: System, l: Lock) returns (t: nat)
    requires Valid(s) && l in s.queues
    ensures t < |s.tasks| && !Finished(s.tasks[t])
  {
    assert ValidQueue(s, l);
    t := Queue(s, l)[0];
    assert t in Queue(s, l);
  }

  lemma NoEntryLeft(s: System)
    requires Valid(s) && forall t :: 0 <= t < |s.tasks| ==> Finished(s.tasks[t])
    ensures s.queues == map[]
  {
    if l :| l in s.queues {
      var t := EntryHasUser(s, l);
    }
  }

  /** At no time do two tasks hold one lock. */
  lemma OneHolder(programs: seq<Work>, run: seq<Move>, l: Lock, t: nat, u: nat)
    requires forall i :: 0 <= i < |programs| ==> Ascending(programs[i], -1)
    requires Legal(Start(programs), run)
    requires var end := Run(Start(programs), run);
             t < |end.tasks| && u < |end.tasks| && Holds(end.tasks[t].stack, l) && Holds(end.tasks[u].stack, l)
    ensures t == u
  {
    StartIsValid(programs);
    RunKeepsValid(Start(programs), run);
    assert ValidQueue(Run(Start(programs), run), l);
  }

  /**
   * The server: however its requests interleave and whichever steps throw, no run is
   * longer than what the requests have in them, and one that cannot go on has
   * answered them all and left no lock behind.
   */
  lemma ServerFinishes(requests: seq<Request>, run: seq<Move>)
    requires forall i :: 0 <= i < |requests| ==> ValidRequest(requests[i])
    requires Legal(Start(Programs(requests)), run)
    ensures |run| <= StepsLeft(Start(Programs(requests)))
    ensures var end := Run(Start(Programs(requests)), run);
            || (exists t :: Enabled(end, t))
            || ((forall t :: 0 <= t < |end.tasks| ==> Finished(end.tasks[t])) && end.queues == map[])
  {
    forall i | 0 <= i < |requests|
      ensures Ascending(Programs(requests)[i], -1)
    {
      RequestAscends(requests[i]);
    }
    EverythingFinishes(Programs(requests), run);
  }

  function Programs(requests: seq<Request>): seq<Work> {
    seq(|requests|, i requires 0 <= i < |requests| => Program(requests[i]))
  }

  // --- What every request gets done ------------------------------------------

  function LocksOf(stack: Stack): set<Lock> {
    if stack.Bottom? then {} else {stack.lock} + LocksOf(stack.below)
  }

  lemma {:induction false} LocksAreHeld(stack: Stack)
    ensures forall l :: l in LocksOf(stack) <==> Holds(stack, l)
  {
    match stack
    case Bottom =>
    case Frame(_, _, below) => LocksAreHeld(below);
  }

  function StackTrace(stack: Stack): seq<Placed> {
    if stack.Bottom? then [] else Trace(stack.rest, LocksOf(stack.below)) + StackTrace(stack.below)
  }

  /** What a task still has to do, and inside which locks. */
  function Remaining(t: Task): seq<Placed> {
    Trace(t.work, LocksOf(t.stack)) + StackTrace(t.stack)
  }

  /** What a task does with its next step, inside the locks it holds. */
  function DeedOf(t: Task): seq<Placed> {
    if t.work.Step? then [Placed(t.work.deed, LocksOf(t.stack))] else []
  }

  /** A step that does not throw does the first deed there is and leaves all the others; one that throws drops some. */
  lemma MoveDoesItsDeed(t: Task, throws: bool)
    requires !Finished(t) && (t.waiting ==> t.work.Hold?)
    ensures !throws ==> Remaining(t) == DeedOf(t) + Remaining(Moved(t, throws))
    ensures forall p :: p in Remaining(Moved(t, throws)) || p in DeedOf(t) ==> p in Remaining(t)
  {
    var v := Moved(t, throws);
    match t.work
    case Step(deed, next) =>
      assert Trace(t.work, LocksOf(t.stack)) == DeedOf(t) + Trace(next, LocksOf(t.stack));
      if throws { assert Remaining(v) == StackTrace(t.stack); }
    case Hold(lock, body, next) =>
      if t.waiting {
        var inside, after := Trace(body, LocksOf(t.stack) + {lock}), Trace(next, LocksOf(t.stack));
        assert LocksOf(v.stack) == LocksOf(t.stack) + {lock};
        assert Remaining(v) == inside + (after + StackTrace(t.stack));
        assert Remaining(t) == (inside + after) + StackTrace(t.stack);
      }
      assert DeedOf(t) + Remaining(v) == Remaining(v);
    case Done =>
      assert Remaining(t) == StackTrace(t.stack);
      assert DeedOf(t) + Remaining(v) == Remaining(v);
      if throws { assert Remaining(v) == StackTrace(t.stack.below); }
  }

  /** The deeds a task does in a run, each with the locks it held. */
  function DeedsDone(s: System, run: seq<Move>, t: nat): seq<Placed>
    requires Legal(s, run) && t < |s.tasks|
    decreases |run|
  {
    if run == [] then []
    else
      (if run[0].task == t then DeedOf(s.tasks[t]) else [])
      + DeedsDone(Next(s, run[0].task, run[0].throws), run[1..], t)
  }

  predicate NoneThrows(run: seq<Move>) {
    forall i :: 0 <= i < |run| ==> !run[i].throws
  }

  /** Until something throws, a task has done the beginning of its deeds and the rest is still to do. */
  lemma {:induction false} DeedsInOrder(s: System, run: seq<Move>, t: nat)
    requires Valid(s) && Legal(s, run) && t < |s.tasks|
    ensures |Run(s, run).tasks| == |s.tasks|
    ensures NoneThrows(run) ==> Remaining(s.tasks[t]) == DeedsDone(s, run, t) + Remaining(Run(s, run).tasks[t])
    ensures forall p :: p in DeedsDone(s, run, t) || p in Remaining(Run(s, run).tasks[t]) ==> p in Remaining(s.tasks[t])
    decreases |run|
  {
    if run == [] {
      assert [] + Remaining(s.tasks[t]) == Remaining(s.tasks[t]);
    } else {
      var mover, v := run[0].task, Next(s, run[0].task, run[0].throws);
      NextKeepsValid(s, mover, run[0].throws);
      DeedsInOrder(v, run[1..], t);
      assert NoneThrows(run) ==> NoneThrows(run[1..]) && !run[0].throws;
      if mover == t {
        assert ValidTask(s.tasks[t]);
        MoveDoesItsDeed(s.tasks[t], run[0].throws);
        assert DeedOf(s.tasks[t]) + (DeedsDone(v, run[1..], t) + Remaining(Run(s, run).tasks[t]))
            == DeedsDone(s, run, t) + Remaining(Run(s, run).tasks[t]);
      } else {
        assert DeedsDone(s, run, t) == DeedsDone(v, run[1..], t);
      }
    }
  }

  lemma ServerIsValid(requests: seq<Request>)
    requires forall i :: 0 <= i < |requests| ==> ValidRequest(requests[i])
    ensures Valid(Start(Programs(requests)))
  {
    forall i | 0 <= i < |requests|
      ensures Ascending(Programs(requests)[i], -1)
    {
      RequestAscends(requests[i]);
    }
    StartIsValid(Programs(requests));
  }

  /**
   * What a finished request has done. If nothing throws it is every deed of its
   * program, in order; whatever throws, it did nothing else, and nothing outside the
   * locks its program puts around it.
   */
  lemma RequestGetsDone(requests: seq<Request>, run: seq<Move>, t: nat)
    requires forall i :: 0 <= i < |requests| ==> ValidRequest(requests[i])
    requires Legal(Start(Programs(requests)), run) && t < |requests|
    ensures |Run(Start(Programs(requests)), run).tasks| == |requests|
    ensures NoneThrows(run) && Finished(Run(Start(Programs(requests)), run).tasks[t]) ==>
              DeedsDone(Start(Programs(requests)), run, t) == Trace(Program(requests[t]), {})
    ensures forall p :: p in DeedsDone(Start(Programs(requests)), run, t) ==> p in Trace(Program(requests[t]), {})
  {
    ServerIsValid(requests);
    var start := Start(Programs(requests));
    var program := Trace(Program(requests[t]), {});
    DeedsInOrder(start, run, t);
    assert program + [] == program && Remaining(start.tasks[t]) == program;
    var done := DeedsDone(start, run, t);
    assert done + [] == done;
  }

  /** A task about to read, change, write or claim holds every lock that is for it. */
  lemma DeedsStandInLocks(requests: seq<Request>, run: seq<Move>, t: nat)
    requires forall i :: 0 <= i < |requests| ==> ValidRequest(requests[i])
    requires Legal(Start(Programs(requests)), run) && t < |requests|
    ensures var end := Run(Start(Programs(requests)), run);
            && t < |end.tasks|
            && (end.tasks[t].work.Step? ==>
                  forall l :: l in Needs(end.tasks[t].work.deed) ==> Holds(end.tasks[t].stack, l))
  {
    ServerIsValid(requests);
    var start, end := Start(Programs(requests)), Run(Start(Programs(requests)), run);
    DeedsInOrder(start, run, t);
    if end.tasks[t].work.Step? {
      var here := DeedOf(end.tasks[t])[0];
      assert here in Remaining(end.tasks[t]);
      RequestIsGuarded(requests[t]);
      var program := Trace(Program(requests[t]), {});
      assert program + [] == program && Remaining(start.tasks[t]) == program;
      LocksAreHeld(end.tasks[t].stack);
    }
  }

  /** Two deeds that must not meet: two changes, two writes or two reads of one account, or two claims. */
  predicate Clash(d: Deed, e: Deed) {
    match d
    case Read(id) => e == Read(id)
    case Change(ids) => e.Change? && exists id :: id in ids && id in e.ids
    case Write(ids) => e.Write? && exists id :: id in ids && id in e.ids
    case Claim => e.Claim?
  }

  /** At no time do two requests read, change or write one account, nor claim a name or an id, together. */
  lemma NoTwoAtOne(requests: seq<Request>, run: seq<Move>, t: nat, u: nat)
    requires forall i :: 0 <= i < |requests| ==> ValidRequest(requests[i])
    requires Legal(Start(Programs(requests)), run) && t < |requests| && u < |requests| && t != u
    ensures var end := Run(Start(Programs(requests)), run);
            && t < |end.tasks| && u < |end.tasks|
            && (end.tasks[t].work.Step? && end.tasks[u].work.Step? ==>
                  !Clash(end.tasks[t].work.deed, end.tasks[u].work.deed))
  {
    DeedsStandInLocks(requests, run, t);
    DeedsStandInLocks(requests, run, u);
    var end := Run(Start(Programs(requests)), run);
    var one, other := end.tasks[t].work, end.tasks[u].work;
    if one.Step? && other.Step? && Clash(one.deed, other.deed) {
      ServerIsValid(requests);
      RunKeepsValid(Start(Programs(requests)), run);
      HeldByOne(end, one.deed, other.deed, t, u);
    }
  }

  lemma HeldByOne(s: System, d: Deed, e: Deed, t: nat, u: nat)
    requires Valid(s) && t < |s.tasks| && u < |s.tasks| && Clash(d, e)
    requires forall l :: l in Needs(d) ==> Holds(s.tasks[t].stack, l)
    requires forall l :: l in Needs(e) ==> Holds(s.tasks[u].stack, l)
    ensures t == u
  {
    var l := match d
      case Read(id) => Reading(id)
      case Change(ids) => var id :| id in ids && id in e.ids; Account(id)
      case Write(ids) => var id :| id in ids && id in e.ids; WriteChain(id)
      case Claim => Allocation;
    assert l in Needs(d) && l in Needs(e);
    assert ValidQueue(s, l);
  }

  function StackTakings(stack: Stack, l: Lock): nat {
    if stack.Bottom? then 0
    else (if stack.lock == l then 1 else 0) + Takings(stack.rest, l) + StackTakings(stack.below, l)
  }

  /** How often a task holds a lock or has still to take it. */
  function TaskTakings(t: Task, l: Lock): nat {
    Takings(t.work, l) + StackTakings(t.stack, l)
  }

  lemma {:induction false} HeldIsTaken(stack: Stack, l: Lock)
    requires Holds(stack, l)
    ensures StackTakings(stack, l) >= 1
  {
    if stack.lock == l {
    } else {
      HeldIsTaken(stack.below, l);
    }
  }

  /** Letting go of a lock that was held spends one of its takings. */
  lemma MoveTakes(t: Task, throws: bool, l: Lock)
    requires !Finished(t) && (t.waiting ==> t.work.Hold?)
    ensures TaskTakings(Moved(t, throws), l) <= TaskTakings(t, l)
    ensures Holds(t.stack, l) && !Holds(Moved(t, throws).stack, l) ==>
              TaskTakings(Moved(t, throws), l) < TaskTakings(t, l)
  {
  }

  lemma {:induction false} TakingsOnlyFall(s: System, run: seq<Move>, t: nat, l: Lock)
    requires Valid(s) && Legal(s, run) && t < |s.tasks|
    ensures |Run(s, run).tasks| == |s.tasks|
    ensures TaskTakings(Run(s, run).tasks[t], l) <= TaskTakings(s.tasks[t], l)
    ensures Holds(s.tasks[t].stack, l) && !Holds(Run(s, run).tasks[t].stack, l) ==>
              TaskTakings(Run(s, run).tasks[t], l) < TaskTakings(s.tasks[t], l)
    decreases |run|
  {
    if run == [] {
    } else {
      var mover, v := run[0].task, Next(s, run[0].task, run[0].throws);
      NextKeepsValid(s, mover, run[0].throws);
      TakingsOnlyFall(v, run[1..], t, l);
      if mover == t {
        assert ValidTask(s.tasks[t]);
        MoveTakes(s.tasks[t], run[0].throws, l);
      }
    }
  }

  predicate HasLock(s: System, t: nat, l: Lock) {
    t < |s.tasks| && Holds(s.tasks[t].stack, l)
  }

  /**
   * From a request's read of an account under its lock to its save there is no gap: a
   * request that holds an account's lock at two times held it all the time between,
   * and no other request had it.
   */
  lemma HeldThroughout(requests: seq<Request>, before: seq<Move>, first: seq<Move>, second: seq<Move>,
                       t: nat, u: nat, id: nat)
    requires forall i :: 0 <= i < |requests| ==> ValidRequest(requests[i])
    requires t < |requests| && u != t
    requires Legal(Start(Programs(requests)), before)
    requires Legal(Run(Start(Programs(requests)), before), first)
    requires Legal(Run(Run(Start(Programs(requests)), before), first), second)
    requires HasLock(Run(Start(Programs(requests)), before), t, Account(id))
    requires HasLock(Run(Run(Run(Start(Programs(requests)), before), first), second), t, Account(id))
    ensures HasLock(Run(Run(Start(Programs(requests)), before), first), t, Account(id))
    ensures !HasLock(Run(Run(Start(Programs(requests)), before), first), u, Account(id))
  {
    var start := Start(Programs(requests));
    var from, l := Run(start, before), Account(id);
    var mid := Run(from, first);
    ServerIsValid(requests);
    RunKeepsValid(start, before);
    RunKeepsValid(from, first);
    TakingsOnlyFall(start, before, t, l);
    TakenOnce(requests[t], l);
    assert TaskTakings(start.tasks[t], l) <= 1;
    TakingsOnlyFall(from, first, t, l);
    TakingsOnlyFall(mid, second, t, l);
    HeldIsTaken(Run(mid, second).tasks[t].stack, l);
    assert ValidQueue(mid, l);
  }
}
