// One promise chain per key, as `serialise` builds it: every caller waits for the
// tail of the one before it, becomes the tail, and whoever is last out clears the
// key's entry. The state is what the promises are: which tail a call waits for,
// whether its work has begun and ended, and what the map of tails says.
module PromiseChains {
  import opened Options
  import opened Sums

  datatype Phase = Waiting | Running | Worked

  /** previous is the call whose tail it waits for, None for an already resolved promise. */
  datatype Call = Call(key: nat, previous: Option<nat>, phase: Phase, tailSettled: bool, cleaned: bool)

  /** Calls in arrival order; tails maps a key to the call whose tail is in the map. */
  datatype State = State(calls: seq<Call>, tails: map<nat, nat>)

  const EMPTY := State([], map[])

  /** Ended says nothing about how: a work that throws settles its promise just as well. */
  datatype Event = Arrive(key: nat) | Begin(c: nat) | End(c: nat) | SettleTail(c: nat) | Clean(c: nat)

  predicate Enabled(s: State, e: Event) {
    match e
    case Arrive(_) => true
    case Begin(c) =>
      && c < |s.calls| && s.calls[c].phase.Waiting?
      && (s.calls[c].previous.Some? ==>
            s.calls[c].previous.value < |s.calls| && s.calls[s.calls[c].previous.value].tailSettled)
    case End(c) => c < |s.calls| && s.calls[c].phase.Running?
    case SettleTail(c) => c < |s.calls| && s.calls[c].phase.Worked? && !s.calls[c].tailSettled
    case Clean(c) => c < |s.calls| && s.calls[c].phase.Worked? && !s.calls[c].cleaned
  }

  function Next(s: State, e: Event): State {
    if !Enabled(s, e) then s else
    match e
    case Arrive(key) =>
      var previous := if key in s.tails then Some(s.tails[key]) else None;
      State(s.calls + [Call(key, previous, Waiting, false, false)], s.tails[key := |s.calls|])
    case Begin(c) => s.(calls := s.calls[c := s.calls[c].(phase := Running)])
    case End(c) => s.(calls := s.calls[c := s.calls[c].(phase := Worked)])
    case SettleTail(c) => s.(calls := s.calls[c := s.calls[c].(tailSettled := true)])
    case Clean(c) =>
      var key := s.calls[c].key;
      State(s.calls[c := s.calls[c].(cleaned := true)],
            if key in s.tails && s.tails[key] == c then s.tails - {key} else s.tails)
  }

  function Run(s: State, es: seq<Event>): State
    decreases |es|
  {
    if es == [] then s else Run(Next(s, es[0]), es[1..])
  }

  /** Two calls of one key, the first to arrive named first. */
  predicate Rivals(s: State, i: int, j: int) {
    0 <= i < j < |s.calls| && s.calls[i].key == s.calls[j].key
  }

  ghost predicate Valid(s: State) {
    Linked(s) && Ordered(s) && Mapped(s)
  }

  ghost predicate Linked(s: State) {
    forall i :: 0 <= i < |s.calls| ==> ValidCall(s, i)
  }

  /** Nothing of a key begins before everything that came earlier has ended. */
  ghost predicate Ordered(s: State) {
    forall i, j :: Rivals(s, i, j) && !s.calls[j].phase.Waiting? ==> s.calls[i].phase.Worked?
  }

  /** The map names the last call of the key; no entry means nothing is left to wait for. */
  ghost predicate Mapped(s: State) {
    && (forall k :: k in s.tails ==> LastOf(s, k, s.tails[k]))
    && (forall i :: 0 <= i < |s.calls| && s.calls[i].key !in s.tails ==> s.calls[i].phase.Worked?)
  }

  ghost predicate LastOf(s: State, k: nat, c: nat) {
    && c < |s.calls| && s.calls[c].key == k && !s.calls[c].cleaned
    && forall j :: c < j < |s.calls| ==> s.calls[j].key != k
  }

  ghost predicate ValidCall(s: State, i: nat)
    requires i < |s.calls|
  {
    var c := s.calls[i];
    && (c.tailSettled || c.cleaned ==> c.phase.Worked?)
    && match c.previous
       case Some(p) =>
         p < i && s.calls[p].key == c.key && forall j :: p < j < i ==> s.calls[j].key != c.key
       case None =>
         forall j :: Rivals(s, j, i) ==> s.calls[j].phase.Worked?
  }

  lemma ArriveKeepsValid(s: State, key: nat)
    requires Valid(s)
    ensures Valid(Next(s, Arrive(key)))
  {
    var t, n := Next(s, Arrive(key)), |s.calls|;
    forall i | 0 <= i < |t.calls|
      ensures ValidCall(t, i)
    {
      if i < n {
        assert ValidCall(s, i);
        forall j | Rivals(t, j, i) ensures Rivals(s, j, i) {}
      } else if key in s.tails {
        assert LastOf(s, key, s.tails[key]);
      }
    }
    forall i, j | Rivals(t, i, j) && !t.calls[j].phase.Waiting?
      ensures t.calls[i].phase.Worked?
    {
      assert Rivals(s, i, j);
    }
    forall k | k in t.tails
      ensures LastOf(t, k, t.tails[k])
    {
      if k != key { assert LastOf(s, k, s.tails[k]); }
    }
  }

  /** Every other event moves one call forward and adds none. */
  lemma StepKeepsLinks(s: State, e: Event)
    requires Valid(s) && Enabled(s, e) && !e.Arrive?
    ensures Linked(Next(s, e))
  {
    var t := Next(s, e);
    forall i | 0 <= i < |t.calls|
      ensures ValidCall(t, i)
    {
      assert ValidCall(s, i);
      forall j | Rivals(t, j, i) ensures Rivals(s, j, i) {}
    }
  }

  lemma StepKeepsOrder(s: State, e: Event)
    requires Valid(s) && Enabled(s, e) && !e.Arrive?
    ensures Ordered(Next(s, e))
  {
    var t := Next(s, e);
    forall i, j | Rivals(t, i, j) && !t.calls[j].phase.Waiting?
      ensures t.calls[i].phase.Worked?
    {
      assert Rivals(s, i, j);
      if e.Begin? && e.c == j {
        BeginComesAfter(s, i, j);
      }
    }
  }

  lemma StepKeepsMap(s: State, e: Event)
    requires Valid(s) && Enabled(s, e) && !e.Arrive?
    ensures Mapped(Next(s, e))
  {
    var t := Next(s, e);
    forall k | k in t.tails
      ensures LastOf(t, k, t.tails[k])
    {
      assert LastOf(s, k, s.tails[k]);
    }
    forall i | 0 <= i < |t.calls| && t.calls[i].key !in t.tails
      ensures t.calls[i].phase.Worked?
    {
      if s.calls[i].key in s.tails {
        // The entry has just gone, and it named the last call of this key.
        assert LastOf(s, s.calls[i].key, e.c);
        assert i == e.c || Rivals(s, i, e.c);
      }
    }
  }

  lemma NextKeepsValid(s: State, e: Event)
    requires Valid(s)
    ensures Valid(Next(s, e))
  {
    if e.Arrive? {
      ArriveKeepsValid(s, e.key);
    } else if Enabled(s, e) {
      StepKeepsLinks(s, e);
      StepKeepsOrder(s, e);
      StepKeepsMap(s, e);
    }
  }

  /** A call free to begin has nobody of its key before it still at work. */
  lemma BeginComesAfter(s: State, i: nat, j: nat)
    requires Valid(s) && Enabled(s, Begin(j)) && Rivals(s, i, j)
    ensures s.calls[i].phase.Worked?
  {
    assert ValidCall(s, j);
    match s.calls[j].previous
    case None =>
    case Some(p) =>
      assert ValidCall(s, p);
      assert i <= p;
      if i < p {
        assert Rivals(s, i, p);
      }
  }

  lemma {:induction false} Reachable(es: seq<Event>, s: State)
    requires Valid(s)
    ensures Valid(Run(s, es))
    decreases |es|
  {
    if es == [] {
    } else {
      NextKeepsValid(s, es[0]);
      Reachable(es[1..], Next(s, es[0]));
    }
  }

  /** Work on one key never overlaps, in any run. */
  lemma NeverOverlaps(es: seq<Event>, i: nat, j: nat)
    requires var s := Run(EMPTY, es); i < |s.calls| && j < |s.calls| && i != j && s.calls[i].key == s.calls[j].key
    ensures var s := Run(EMPTY, es); !(s.calls[i].phase.Running? && s.calls[j].phase.Running?)
  {
    Reachable(es, EMPTY);
    var s := Run(EMPTY, es);
    assert Rivals(s, i, j) || Rivals(s, j, i);
  }

  /** A key has an entry exactly while some call of it has not been cleaned up after. */
  lemma EntryWhileWanted(es: seq<Event>, key: nat)
    ensures var s := Run(EMPTY, es);
            && (key in s.tails ==> exists i :: 0 <= i < |s.calls| && s.calls[i].key == key && !s.calls[i].cleaned)
            && ((forall i :: 0 <= i < |s.calls| && s.calls[i].key == key ==> s.calls[i].cleaned) ==> key !in s.tails)
            && (key !in s.tails ==>
                  forall i :: 0 <= i < |s.calls| && s.calls[i].key == key ==> s.calls[i].phase.Worked?)
  {
    Reachable(es, EMPTY);
  }

  /** The events of one call that only the event loop has to get round to. */
  predicate Due(s: State, c: nat) {
    Enabled(s, Begin(c)) || Enabled(s, SettleTail(c))
  }

  /** The chain is never wedged: whoever waits has somebody of its key at work, or about to move. */
  lemma {:induction false} NeverWedged(s: State, c: nat) returns (mover: nat)
    requires Valid(s) && c < |s.calls| && s.calls[c].phase.Waiting?
    ensures mover <= c && s.calls[mover].key == s.calls[c].key
    ensures s.calls[mover].phase.Running? || Due(s, mover)
  {
    assert ValidCall(s, c);
    match s.calls[c].previous
    case None => mover := c;
    case Some(p) =>
      match s.calls[p].phase
      case Waiting => mover := NeverWedged(s, p);
      case Running => mover := p;
      case Worked => mover := if s.calls[p].tailSettled then c else p;
  }

  // --- Every call is served --------------------------------------------------

  /** The steps a call still has before it: to begin, to end, to settle its tail, to clean up. */
  function StepsLeft(): Call -> int {
    (c: Call) =>
      (match c.phase case Waiting => 2 case Running => 1 case Worked => 0)
      + (if c.tailSettled then 0 else 1) + if c.cleaned then 0 else 1
  }

  /** Every step but an arrival takes one of a call's four steps; an arrival adds a call with all four. */
  lemma EveryStepServes(s: State, e: Event)
    requires Enabled(s, e)
    ensures Sum(StepsLeft(), Next(s, e).calls) == Sum(StepsLeft(), s.calls) + if e.Arrive? then 4 else -1
  {
    if e.Arrive? {
      SumAppend(StepsLeft(), s.calls, Next(s, e).calls[|s.calls|]);
    } else {
      SumUpdate(StepsLeft(), s.calls, e.c, Next(s, e).calls[e.c]);
    }
  }

  /** Once nothing but an arrival can happen, every call has worked, settled and cleaned up, and no key has an entry. */
  lemma AllServed(es: seq<Event>)
    requires forall e :: Enabled(Run(EMPTY, es), e) ==> e.Arrive?
    ensures var s := Run(EMPTY, es);
            && s.tails == map[]
            && forall i :: 0 <= i < |s.calls| ==>
                 s.calls[i].phase.Worked? && s.calls[i].tailSettled && s.calls[i].cleaned
  {
    Reachable(es, EMPTY);
    var s := Run(EMPTY, es);
    forall i | 0 <= i < |s.calls|
      ensures s.calls[i].phase.Worked? && s.calls[i].tailSettled && s.calls[i].cleaned
    {
      assert !Enabled(s, End(i)) && !Enabled(s, SettleTail(i)) && !Enabled(s, Clean(i));
      if s.calls[i].phase.Waiting? {
        var e := SomeStep(s, i);
      }
    }
    forall k
      ensures k !in s.tails
    {
      EntryWhileWanted(es, k);
    }
  }

  lemma SomeStep(s: State, c: nat) returns (e: Event)
    requires Valid(s) && c < |s.calls| && s.calls[c].phase.Waiting?
    ensures Enabled(s, e) && !e.Arrive?
  {
    var mover := NeverWedged(s, c);
    e := if s.calls[mover].phase.Running? then End(mover)
         else if Enabled(s, Begin(mover)) then Begin(mover) else SettleTail(mover);
  }

  // --- The queue this is -----------------------------------------------------

  /** The calls of a key from position i on that have not ended, in arrival order. */
  function QueueFrom(s: State, key: nat, i: nat): seq<nat>
    requires i <= |s.calls|
    decreases |s.calls| - i
  {
    if i == |s.calls| then []
    else (if s.calls[i].key == key && !s.calls[i].phase.Worked? then [i] else []) + QueueFrom(s, key, i + 1)
  }

  function Queue(s: State, key: nat): seq<nat> {
    QueueFrom(s, key, 0)
  }

  lemma {:induction false} QueueMembers(s: State, key: nat, i: nat)
    requires i <= |s.calls|
    ensures forall c :: c in QueueFrom(s, key, i) <==>
              i <= c < |s.calls| && s.calls[c].key == key && !s.calls[c].phase.Worked?
    ensures QueueFrom(s, key, i) != [] ==> forall c :: c in QueueFrom(s, key, i) ==> QueueFrom(s, key, i)[0] <= c
    decreases |s.calls| - i
  {
    if i == |s.calls| {
    } else {
      QueueMembers(s, key, i + 1);
    }
  }

  lemma {:induction false} QueueOfArrival(s: State, key: nat, e: Event, i: nat)
    requires e.Arrive? && i <= |s.calls|
    ensures QueueFrom(Next(s, e), key, i) == QueueFrom(s, key, i) + if key == e.key then [|s.calls|] else []
    decreases |s.calls| - i
  {
    if i < |s.calls| {
      QueueOfArrival(s, key, e, i + 1);
    } else {
      assert QueueFrom(Next(s, e), key, i + 1) == [];
    }
  }

  lemma {:induction false} QueueUnmoved(s: State, t: State, key: nat, i: nat)
    requires |s.calls| == |t.calls| && i <= |s.calls|
    requires forall c :: i <= c < |s.calls| ==>
               (s.calls[c].key == key && !s.calls[c].phase.Worked?)
               == (t.calls[c].key == key && !t.calls[c].phase.Worked?)
    ensures QueueFrom(t, key, i) == QueueFrom(s, key, i)
    decreases |s.calls| - i
  {
    if i == |s.calls| {
    } else {
      QueueUnmoved(s, t, key, i + 1);
    }
  }

  lemma {:induction false} QueueOfEnd(s: State, c: nat, i: nat)
    requires Valid(s) && Enabled(s, End(c)) && i <= c
    ensures var q := QueueFrom(s, s.calls[c].key, i);
            q != [] && q[0] == c && QueueFrom(Next(s, End(c)), s.calls[c].key, i) == q[1..]
    decreases c - i
  {
    if i < c {
      assert s.calls[i].key == s.calls[c].key ==> Rivals(s, i, c);
      QueueOfEnd(s, c, i + 1);
    } else {
      QueueUnmoved(s, Next(s, End(c)), s.calls[c].key, i + 1);
    }
  }

  /**
   * The promise machinery refines one first-in first-out queue per key: arriving
   * joins the end of its queue, only the head ever begins or ends, ending leaves
   * the queue, and nothing else moves any queue.
   */
  lemma RefinesQueues(s: State, e: Event, key: nat)
    requires Valid(s) && Enabled(s, e)
    ensures var before, after := Queue(s, key), Queue(Next(s, e), key);
            match e
            case Arrive(k) => after == if k == key then before + [|s.calls|] else before
            case Begin(c) => after == before && (s.calls[c].key == key ==> before != [] && before[0] == c)
            case End(c) =>
              if s.calls[c].key == key then before != [] && before[0] == c && after == before[1..] else after == before
            case SettleTail(_) => after == before
            case Clean(_) => after == before
  {
    match e
    case Arrive(k) => QueueOfArrival(s, key, e, 0);
    case Begin(c) =>
      QueueUnmoved(s, Next(s, e), key, 0);
      if s.calls[c].key == key {
        QueueMembers(s, key, 0);
        var h := Queue(s, key)[0];
        if h != c {
          assert Rivals(s, h, c);
          BeginComesAfter(s, h, c);
        }
      }
    case End(c) =>
      if s.calls[c].key == key { QueueOfEnd(s, c, 0); } else { QueueUnmoved(s, Next(s, e), key, 0); }
    case SettleTail(_) => QueueUnmoved(s, Next(s, e), key, 0);
    case Clean(_) => QueueUnmoved(s, Next(s, e), key, 0);
  }
}
