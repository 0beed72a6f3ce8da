// Declarations kept behind memory: a change marks memory dirty, a snapshot is
// queued behind any write in flight, and a flush waits for what is visible now.
// One epoch of one place; a revision number stands for the snapshot taken at it.
module Declarations {

  /** Accounts and the view each declared last. */
  type Views = map<nat, string>

  datatype Save = Save(revision: nat, snapshot: Views)

  datatype State = State(
    declared: Views, revision: nat, attempted: nat, persisted: nat, timer: bool,
    // Snapshots queued, the first one the next to be written.
    queue: seq<Save>,
    // What the place holds, and the revision it was the snapshot of.
    place: Save,
    // Memory as it was at each revision, for speaking about the past.
    history: seq<Views>)

  datatype Event =
    | Declare(id: nat, view: string)
    | Forget(id: nat)    // or declaring the game's own content
    | TimerFires
    | Enqueue            // what a flush does first
    | WriteLands
    | WriteFails

  function Empty(stored: Views): State {
    State(stored, 0, 0, 0, false, [], Save(0, stored), [stored])
  }

  /** saveDeclarations: one more revision, one timer however many changes. */
  function Changed(s: State, declared: Views): State {
    s.(declared := declared, revision := s.revision + 1, timer := true, history := s.history + [declared])
  }

  /** enqueueDeclarationSave: a snapshot of now, unless one of now has been attempted. */
  function Enqueued(s: State): State {
    if s.attempted >= s.revision then s
    else s.(attempted := s.revision, queue := s.queue + [Save(s.revision, s.declared)])
  }

  function Next(s: State, e: Event): State {
    match e
    case Declare(id, view) =>
      if id == 0 || (id in s.declared && s.declared[id] == view) then s else Changed(s, s.declared[id := view])
    case Forget(id) =>
      if id !in s.declared then s else Changed(s, s.declared - {id})
    case TimerFires => if s.timer then Enqueued(s.(timer := false)) else s
    case Enqueue => Enqueued(s.(timer := false))
    case WriteLands =>
      if s.queue == [] then s
      else
        var save := s.queue[0];
        s.(queue := s.queue[1..], place := save,
           persisted := if save.revision > s.persisted then save.revision else s.persisted)
    case WriteFails =>
      if s.queue == [] then s
      else s.(queue := s.queue[1..],
              attempted := if s.attempted == s.queue[0].revision then s.persisted else s.attempted)
  }

  function Run(s: State, es: seq<Event>): State
    decreases |es|
  {
    if es == [] then s else Run(Next(s, es[0]), es[1..])
  }

  /** The module's own variables, changed as the calls, the timer and the settling writes change them. */
  class DeclarationStore {
    var declared: Views
    var revision: nat
    var attempted: nat
    var persisted: nat
    var timer: bool
    var queue: seq<Save>
    var place: Save
    ghost var history: seq<Views>

    constructor (stored: Views)
      ensures Now() == Empty(stored)
    {
      declared, revision, attempted, persisted := stored, 0, 0, 0;
      timer, queue, place, history := false, [], Save(0, stored), [stored];
    }

    ghost function Now(): State
      reads this
    {
      State(declared, revision, attempted, persisted, timer, queue, place, history)
    }

    method SaveDeclarations()
      modifies this`revision, this`timer, this`history
      ensures Now() == Changed(old(Now()), declared)
    {
      revision := revision + 1;
      history := history + [declared];
      if timer { return; }
      timer := true;
    }

    method Declare(id: nat, view: string)
      modifies this
      ensures Now() == Next(old(Now()), Event.Declare(id, view))
    {
      if id == 0 { return; }
      var before := id in declared && declared[id] == view;
      if !before {
        declared := declared[id := view];
        SaveDeclarations();
      }
    }

    method Forget(id: nat)
      modifies this
      ensures Now() == Next(old(Now()), Event.Forget(id))
    {
      if id in declared {
        declared := declared - {id};
        SaveDeclarations();
      }
    }

    method EnqueueSave()
      modifies this`attempted, this`queue
      ensures Now() == Enqueued(old(Now()))
    {
      if attempted >= revision { return; }
      attempted := revision;
      queue := queue + [Save(revision, declared)];
    }

    method OnTimer()
      modifies this`timer, this`attempted, this`queue
      ensures Now() == Next(old(Now()), TimerFires)
    {
      if timer {
        timer := false;
        EnqueueSave();
      }
    }

    /** What a flush does before it waits; answers the revision it waits for. */
    method BeginFlush() returns (target: nat)
      modifies this`timer, this`attempted, this`queue
      ensures Now() == Next(old(Now()), Enqueue) && target == old(revision)
    {
      target := revision;
      timer := false;
      EnqueueSave();
    }

    /** The first queued write settles, one way or the other. */
    method Settle(written: bool)
      requires queue != []
      modifies this`attempted, this`persisted, this`queue, this`place
      ensures Now() == Next(old(Now()), if written then WriteLands else WriteFails)
    {
      var save := queue[0];
      queue := queue[1..];
      if written {
        place := save;
        if save.revision > persisted { persisted := save.revision; }
      } else if attempted == save.revision {
        attempted := persisted;
      }
    }
  }

  predicate Ascending(q: seq<Save>, above: nat) {
    q == [] || (q[0].revision > above && Ascending(q[1..], q[0].revision))
  }

  /** Every save is of memory as it stood at its revision. */
  predicate Faithful(s: State, save: Save) {
    save.revision < |s.history| && s.history[save.revision] == save.snapshot
  }

  predicate Valid(s: State) {
    && s.persisted <= s.attempted <= s.revision
    && |s.history| == s.revision + 1 && s.history[s.revision] == s.declared
    && s.place.revision == s.persisted && Faithful(s, s.place)
    && Ascending(s.queue, s.persisted)
    && (forall save :: save in s.queue ==> Faithful(s, save) && save.revision <= s.attempted)
       // The last snapshot queued is the last attempted; none queued means nothing attempted is missing.
    && s.attempted == (if s.queue == [] then s.persisted else s.queue[|s.queue| - 1].revision)
  }

  lemma {:induction false} AscendingWeaken(q: seq<Save>, above: nat, lower: nat)
    requires Ascending(q, above) && lower <= above
    ensures Ascending(q, lower)
  {
  }

  lemma {:induction false} AscendingAppend(q: seq<Save>, above: nat, save: Save)
    requires Ascending(q, above)
    requires save.revision > if q == [] then above else q[|q| - 1].revision
    ensures Ascending(q + [save], above)
  {
    if q != [] {
      assert (q + [save])[1..] == q[1..] + [save];
      AscendingAppend(q[1..], q[0].revision, save);
    } else {
      assert [save][1..] == [];
    }
  }

  lemma {:induction false} AscendingLast(q: seq<Save>, above: nat, k: nat)
    requires Ascending(q, above) && k < |q|
    ensures above < q[k].revision <= q[|q| - 1].revision
    ensures k < |q| - 1 ==> q[k].revision < q[|q| - 1].revision
  {
    if k > 0 {
      AscendingLast(q[1..], q[0].revision, k - 1);
    } else if |q| > 1 {
      AscendingLast(q[1..], q[0].revision, |q| - 2);
    }
  }

  lemma EnqueuedIsValid(s: State)
    requires Valid(s)
    ensures Valid(Enqueued(s))
  {
    if s.attempted < s.revision {
      AscendingAppend(s.queue, s.persisted, Save(s.revision, s.declared));
    }
  }

  lemma WriteKeepsValid(s: State, e: Event)
    requires Valid(s) && s.queue != [] && (e.WriteLands? || e.WriteFails?)
    ensures Valid(Next(s, e))
  {
    var t := Next(s, e);
    AscendingLast(s.queue, s.persisted, 0);
    assert s.queue[0] in s.queue && forall x :: x in s.queue[1..] ==> x in s.queue;
    forall save | save in t.queue
      ensures Faithful(t, save) && save.revision <= t.attempted
    {
      assert Faithful(s, save);
    }
    AscendingWeaken(s.queue[1..], s.queue[0].revision, s.persisted);
  }

  lemma NextKeepsValid(s: State, e: Event)
    requires Valid(s)
    ensures Valid(Next(s, e))
  {
    match e
    case Declare(_, _) => assert forall save :: Faithful(s, save) ==> Faithful(Next(s, e), save);
    case Forget(_) => assert forall save :: Faithful(s, save) ==> Faithful(Next(s, e), save);
    case TimerFires => EnqueuedIsValid(s.(timer := false));
    case Enqueue => EnqueuedIsValid(s.(timer := false));
    case WriteLands => if s.queue != [] { WriteKeepsValid(s, e); }
    case WriteFails => if s.queue != [] { WriteKeepsValid(s, e); }
  }

  /** t is s later on: the past is the same, and nothing has left the place. */
  predicate Later(s: State, t: State) {
    s.history <= t.history && s.persisted <= t.persisted
  }

  lemma NextIsLater(s: State, e: Event)
    ensures Later(s, Next(s, e))
  {
  }

  lemma LaterStill(s: State, t: State, u: State)
    requires Later(s, t) && Later(t, u)
    ensures Later(s, u)
  {
  }

  lemma {:induction false} RunIsLater(s: State, es: seq<Event>)
    ensures Later(s, Run(s, es))
    decreases |es|
  {
    if es == [] {
    } else {
      NextIsLater(s, es[0]);
      RunIsLater(Next(s, es[0]), es[1..]);
      LaterStill(s, Next(s, es[0]), Run(s, es));
    }
  }

  lemma {:induction false} RunKeepsValid(s: State, es: seq<Event>)
    requires Valid(s)
    ensures Valid(Run(s, es)) && Later(s, Run(s, es))
    decreases |es|
  {
    RunIsLater(s, es);
    if es != [] {
      NextKeepsValid(s, es[0]);
      RunKeepsValid(Next(s, es[0]), es[1..]);
    }
  }

  /** The revisions whose snapshots have reached the place in a run. */
  function Written(s: State, es: seq<Event>): set<nat>
    decreases |es|
  {
    if es == [] then {}
    else
      (if es[0].WriteLands? && s.queue != [] then {s.queue[0].revision} else {}) + Written(Next(s, es[0]), es[1..])
  }

  lemma {:induction false} PlaceIsGreatest(s: State, es: seq<Event>)
    ensures var t := Run(s, es);
            && (t.persisted == s.persisted || t.persisted in Written(s, es))
            && forall r :: r in Written(s, es) ==> r <= t.persisted
    decreases |es|
  {
    if es == [] {
    } else {
      RunIsLater(Next(s, es[0]), es[1..]);
      PlaceIsGreatest(Next(s, es[0]), es[1..]);
    }
  }

  /**
   * Whatever fails and however snapshots queue up: the counters stay in order, and
   * the place holds memory exactly as it stood at the greatest revision written so
   * far, which is never an older one than before.
   */
  lemma PlaceNeverGoesBack(stored: Views, es: seq<Event>, more: seq<Event>)
    ensures var s := Run(Empty(stored), es);
            var t := Run(s, more);
            && s.persisted <= s.attempted <= s.revision
            && s.place.revision == s.persisted <= t.place.revision
            && s.persisted < |s.history| && s.place.snapshot == s.history[s.persisted]
            && (forall r :: r in Written(Empty(stored), es) ==> r <= s.place.revision)
            && (s.place.revision in Written(Empty(stored), es) || s.place == Save(0, stored))
  {
    RunKeepsValid(Empty(stored), es);
    RunKeepsValid(Run(Empty(stored), es), more);
    PlaceIsGreatest(Empty(stored), es);
  }

  // --- What each event does --------------------------------------------------

  /** The view an account is seen with. */
  function ViewOf(views: Views, id: nat): (string, bool) {
    if id in views then (views[id], true) else ("", false)
  }

  /**
   * A declaration is what memory holds for that account afterwards, and a forgotten one
   * is not held; every other account keeps its own. Nothing is queued or written by it.
   */
  lemma DeclaredIsHeld(s: State, id: nat, view: string, other: nat)
    ensures var t := Next(s, Declare(id, view));
            && (id != 0 ==> ViewOf(t.declared, id) == (view, true))
            && (other != id || id == 0 ==> ViewOf(t.declared, other) == ViewOf(s.declared, other))
            && (t.declared == s.declared ==> t == s)
            && (t.declared != s.declared ==> t.revision == s.revision + 1 && t.timer)
            && (t.queue, t.place, t.attempted, t.persisted) == (s.queue, s.place, s.attempted, s.persisted)
    ensures var t := Next(s, Forget(id));
            && !ViewOf(t.declared, id).1
            && (other != id ==> ViewOf(t.declared, other) == ViewOf(s.declared, other))
            && (t.declared == s.declared ==> t == s)
            && (t.declared != s.declared ==> t.revision == s.revision + 1 && t.timer)
            && (t.queue, t.place, t.attempted, t.persisted) == (s.queue, s.place, s.attempted, s.persisted)
  {
    if id in s.declared {
      assert id !in (s.declared - {id});
    }
  }

  /**
   * The timer, and a flush, queue one write of memory as it is when there is anything
   * new since the last attempt. A write that lands is what the place holds then; one
   * that fails leaves the place and is out of the queue.
   */
  lemma WhatWritesDo(s: State)
    ensures var save := if s.attempted < s.revision then [Save(s.revision, s.declared)] else [];
            && (s.timer ==> Next(s, TimerFires).queue == s.queue + save)
            && (!s.timer ==> Next(s, TimerFires) == s)
            && Next(s, Enqueue).queue == s.queue + save
    ensures !Next(s, TimerFires).timer && !Next(s, Enqueue).timer
    ensures s.queue != [] ==>
              && Next(s, WriteLands).place == s.queue[0] && Next(s, WriteLands).queue == s.queue[1..]
              && Next(s, WriteFails).place == s.place && Next(s, WriteFails).queue == s.queue[1..]
    ensures forall e :: Next(s, e).declared != s.declared ==> e.Declare? || e.Forget?
  {
  }

  lemma StepSetsTimer(s: State, e: Event)
    requires Valid(s) && (s.attempted < s.revision ==> s.timer) && !e.WriteFails?
    ensures Next(s, e).attempted < Next(s, e).revision ==> Next(s, e).timer
  {
  }

  /** While no write has failed, a change that is not queued has its timer set. */
  lemma {:induction false} TimerIsSet(s: State, es: seq<Event>)
    requires Valid(s) && (s.attempted < s.revision ==> s.timer) && NoFailure(es)
    ensures var t := Run(s, es); t.attempted < t.revision ==> t.timer
    decreases |es|
  {
    if es == [] {
    } else {
      assert es[0] in es && forall e :: e in es[1..] ==> e in es;
      NextKeepsValid(s, es[0]);
      StepSetsTimer(s, es[0]);
      TimerIsSet(Next(s, es[0]), es[1..]);
    }
  }

  /** So no change is forgotten: once the timer has fired, the last write queued or landed is of memory as it is. */
  lemma TimerLeavesNothing(stored: Views, es: seq<Event>)
    requires NoFailure(es)
    ensures var t := Next(Run(Empty(stored), es), TimerFires);
            (if t.queue == [] then t.place else t.queue[|t.queue| - 1]) == Save(t.revision, t.declared)
  {
    var s := Run(Empty(stored), es);
    RunKeepsValid(Empty(stored), es);
    TimerIsSet(Empty(stored), es);
    NextKeepsValid(s, TimerFires);
    var t := Next(s, TimerFires);
    assert t.attempted == t.revision;
    if t.queue != [] {
      assert t.queue[|t.queue| - 1] in t.queue;
      assert Faithful(t, t.queue[|t.queue| - 1]);
    }
  }

  // --- Flushing --------------------------------------------------------------

  /** What a flush waits for: the writes queued when it looked have all been tried. */
  function Attempts(s: State, es: seq<Event>): nat
    decreases |es|
  {
    if es == [] then 0
    else
      (if (es[0].WriteLands? || es[0].WriteFails?) && s.queue != [] then 1 else 0)
      + Attempts(Next(s, es[0]), es[1..])
  }

  /**
   * A flush at s that answers true after meanwhile has happened: every change
   * visible when it was called is in the place, or undone by one later still.
   */
  lemma FlushAnsweringTrue(stored: Views, before: seq<Event>, meanwhile: seq<Event>)
    ensures var s := Run(Empty(stored), before);
            var t := Run(Next(s, Enqueue), meanwhile);
            t.persisted >= s.revision ==>
              && t.place.revision >= s.revision && t.place.revision < |t.history|
              && t.place.snapshot == t.history[t.place.revision]
              && s.history <= t.history && s.revision < |s.history| && s.history[s.revision] == s.declared
  {
    RunKeepsValid(Empty(stored), before);
    var s := Run(Empty(stored), before);
    NextKeepsValid(s, Enqueue);
    RunKeepsValid(Next(s, Enqueue), meanwhile);
  }

  predicate NoFailure(es: seq<Event>) {
    forall e :: e in es ==> !e.WriteFails?
  }

  /** With no failing write, a flush that waited for the queue it saw answers true. */
  lemma FlushWithoutFailures(s: State, meanwhile: seq<Event>)
    requires Valid(s) && NoFailure(meanwhile)
    requires Attempts(Next(s, Enqueue), meanwhile) >= |Next(s, Enqueue).queue|
    ensures Run(Next(s, Enqueue), meanwhile).persisted >= s.revision
  {
    NextKeepsValid(s, Enqueue);
    var q := Next(s, Enqueue);
    if q.queue == [] {
      RunKeepsValid(q, meanwhile);
    } else {
      QueueDrains(q, meanwhile, |q.queue|);
    }
  }

  /** Landing the first k queued writes persists the k-th. */
  lemma {:induction false} QueueDrains(s: State, es: seq<Event>, k: nat)
    requires NoFailure(es) && 0 < k <= |s.queue|
    requires Attempts(s, es) >= k
    ensures Run(s, es).persisted >= s.queue[k - 1].revision
    decreases |es|
  {
    var t := Next(s, es[0]);
    assert es[0] in es && forall e :: e in es[1..] ==> e in es;
    if es[0].WriteLands? {
      if k == 1 {
        RunIsLater(t, es[1..]);
      } else {
        assert t.queue[k - 2] == s.queue[k - 1];
        QueueDrains(t, es[1..], k - 1);
      }
    } else {
      assert t.queue[k - 1] == s.queue[k - 1];
      QueueDrains(t, es[1..], k);
    }
  }

  /**
   * After a failure a later flush tries again: whenever something is not in the
   * place, either a write that will bring it is already queued, or flushing queues one.
   */
  lemma LaterFlushTriesAgain(stored: Views, es: seq<Event>)
    ensures var s := Run(Empty(stored), es);
            s.persisted < s.revision ==>
              var t := Next(s, Enqueue);
              t.queue != [] && t.queue[|t.queue| - 1] == Save(s.revision, s.declared)
  {
    RunKeepsValid(Empty(stored), es);
    var s := Run(Empty(stored), es);
    if s.persisted < s.revision && s.queue != [] && s.attempted == s.revision {
      assert s.queue[|s.queue| - 1] in s.queue;
      assert Faithful(s, s.queue[|s.queue| - 1]);
    }
  }
}
