// The storage lock: a file naming its owner, contenders that judge the owner and
// move a dead one's file aside, holders that look at the file now and then.
//
// A contender is one attempt to take the lock, with a token of its own: its
// number. Creating the file, moving it aside and a release's read-and-remove are
// single steps. A verdict falls when the watching is over: until then the file was
// the one whose owner is being judged, or the contender has given up or started again.
module ProcessLock {
  import opened Options

  datatype Phase =
    | Trying
    | Judged(owner: nat)   // found the owner dead, about to move its file aside
    | Holding              // believes it holds the lock
    | Lost                 // found the file naming somebody else, and said so
    | Released
    | Refused

  datatype Contender = Contender(phase: Phase, alive: bool, reports: nat)

  datatype World = World(file: FileState, contenders: seq<Contender>)

  datatype FileState = NoFile | Names(owner: nat)

  datatype Event =
    | Create(p: nat) | JudgeDead(p: nat) | JudgeAlive(p: nat) | MoveAside(p: nat)
    | Heartbeat(p: nat) | Release(p: nat) | Crash(p: nat)

  predicate Running(w: World, p: nat) {
    p < |w.contenders| && w.contenders[p].alive
  }

  predicate Believes(w: World, p: nat) {
    Running(w, p) && w.contenders[p].phase.Holding?
  }

  predicate Judging(w: World, p: nat, owner: nat) {
    Running(w, p) && w.contenders[p].phase == Judged(owner)
  }

  predicate Enabled(w: World, e: Event) {
    && Running(w, e.p)
    && var phase := w.contenders[e.p].phase;
       match e
       case Create(_) => phase.Trying? && w.file.NoFile?
       case JudgeDead(_) => phase.Trying? && w.file.Names?
       case JudgeAlive(_) => phase.Trying? && w.file.Names?
       case MoveAside(_) => phase.Judged?
       case Heartbeat(_) => phase.Holding?
       case Release(_) => phase.Holding?
       case Crash(_) => true
  }

  function Next(w: World, e: Event): World {
    if !Enabled(w, e) then w
    else
      var c := w.contenders[e.p];
      match e
      case Create(p) => World(Names(p), w.contenders[p := c.(phase := Holding)])
      case JudgeDead(p) => w.(contenders := w.contenders[p := c.(phase := Judged(w.file.owner))])
      case JudgeAlive(p) => w.(contenders := w.contenders[p := c.(phase := Phase.Refused)])
      case MoveAside(p) => World(NoFile, w.contenders[p := c.(phase := Trying)])
      case Heartbeat(p) =>
        if w.file == Names(p) then w
        else w.(contenders := w.contenders[p := c.(phase := Lost, reports := c.reports + 1)])
      case Release(p) =>
        World(if w.file == Names(p) then NoFile else w.file, w.contenders[p := c.(phase := Released)])
      case Crash(p) => w.(contenders := w.contenders[p := c.(alive := false)])
  }

  function Run(w: World, es: seq<Event>): World
    decreases |es|
  {
    if es == [] then w else Run(Next(w, es[0]), es[1..])
  }

  /** n contenders, none of which has tried anything, on storage a dead one may have left locked. */
  function Start(n: nat, leftover: FileState): World {
    World(leftover, seq(n, i => Contender(Trying, true, 0)))
  }

  // --- Two conditions --------------------------------------------------------

  /** A verdict is right: nobody running believes it is the owner judged dead. */
  predicate RightVerdict(w: World, e: Event) {
    e.JudgeDead? && Enabled(w, e) ==> !Believes(w, w.file.owner)
  }

  /** Nobody judges an owner dead while somebody else is about to move that owner's file aside. */
  predicate Alone(w: World, e: Event) {
    e.JudgeDead? && Enabled(w, e) ==> forall q :: 0 <= q < |w.contenders| ==> !Judging(w, q, w.file.owner)
  }

  predicate RightVerdicts(w: World, es: seq<Event>)
    decreases |es|
  {
    es != [] ==> RightVerdict(w, es[0]) && RightVerdicts(Next(w, es[0]), es[1..])
  }

  predicate AlwaysAlone(w: World, es: seq<Event>)
    decreases |es|
  {
    es != [] ==> Alone(w, es[0]) && AlwaysAlone(Next(w, es[0]), es[1..])
  }

  // --- With both: one believer -----------------------------------------------

  /** Every believer is the one the file names; whoever is about to move a file has the file it judged. */
  predicate Safe(w: World) {
    && (forall p :: 0 <= p < |w.contenders| && Believes(w, p) ==> w.file == Names(p))
    && (forall p :: 0 <= p < |w.contenders| && Running(w, p) && w.contenders[p].phase.Judged? ==>
          w.file == Names(w.contenders[p].phase.owner) && !Believes(w, w.contenders[p].phase.owner))
    && (forall p, q :: 0 <= p < q < |w.contenders| ==>
          !(Running(w, p) && w.contenders[p].phase.Judged? && Running(w, q) && w.contenders[q].phase.Judged?))
  }

  lemma NextIsSafe(w: World, e: Event)
    requires Safe(w) && RightVerdict(w, e) && Alone(w, e)
    ensures Safe(Next(w, e))
  {
    if Enabled(w, e) {
      match e
      case JudgeDead(_) => JudgingIsSafe(w, e);
      case MoveAside(_) => MovingIsSafe(w, e);
      case _ =>
    }
  }

  /** Nobody else is about to move a file. */
  lemma JudgingIsSafe(w: World, e: Event)
    requires Safe(w) && RightVerdict(w, e) && Alone(w, e) && e.JudgeDead? && Enabled(w, e)
    ensures Safe(Next(w, e))
  {
    forall q | 0 <= q < |w.contenders| && Running(w, q)
      ensures !w.contenders[q].phase.Judged?
    {
      assert !Judging(w, q, w.file.owner);
    }
  }

  /** The file moved is the one judged, and nobody believes in it. */
  lemma MovingIsSafe(w: World, e: Event)
    requires Safe(w) && e.MoveAside? && Enabled(w, e)
    ensures Safe(Next(w, e))
  {
    assert forall p :: 0 <= p < |w.contenders| ==> !Believes(w, p);
  }

  lemma {:induction false} RunIsSafe(w: World, es: seq<Event>)
    requires Safe(w) && RightVerdicts(w, es) && AlwaysAlone(w, es)
    ensures Safe(Run(w, es))
    decreases |es|
  {
    if es == [] {
    } else {
      NextIsSafe(w, es[0]);
      RunIsSafe(Next(w, es[0]), es[1..]);
    }
  }

  /** Under both conditions at most one running process ever believes it holds the lock. */
  lemma AtMostOneBeliever(n: nat, leftover: FileState, es: seq<Event>, p: nat, q: nat)
    requires RightVerdicts(Start(n, leftover), es) && AlwaysAlone(Start(n, leftover), es)
    requires Believes(Run(Start(n, leftover), es), p) && Believes(Run(Start(n, leftover), es), q)
    ensures p == q && Run(Start(n, leftover), es).file == Names(p)
  {
    RunIsSafe(Start(n, leftover), es);
  }

  // --- Without the second ----------------------------------------------------

  predicate Exclusive(w: World) {
    forall p :: 0 <= p < |w.contenders| && Believes(w, p) ==> w.file == Names(p)
  }

  /** The file moved aside names a running holder. */
  predicate Robs(w: World, e: Event) {
    e.MoveAside? && Enabled(w, e) && w.file.Names? && Believes(w, w.file.owner)
  }

  /**
   * Exactly one step can cost a believer the file: moving aside a file that names
   * a running holder. The rename takes whatever file is there.
   */
  lemma OnlyAMoveBreaksIt(w: World, e: Event)
    requires Exclusive(w)
    ensures Exclusive(Next(w, e)) <==> !Robs(w, e)
  {
    if Robs(w, e) {
      assert Believes(Next(w, e), w.file.owner);
    }
  }

  predicate AlwaysExclusive(w: World, es: seq<Event>)
    decreases |es|
  {
    Exclusive(w) && (es != [] ==> AlwaysExclusive(Next(w, es[0]), es[1..]))
  }

  predicate NeverRobs(w: World, es: seq<Event>)
    decreases |es|
  {
    es != [] ==> !Robs(w, es[0]) && NeverRobs(Next(w, es[0]), es[1..])
  }

  /** Over a whole run, every believer is the one the file names throughout exactly when nobody is robbed. */
  lemma {:induction false} ExclusiveIffNobodyRobbed(w: World, es: seq<Event>)
    requires Exclusive(w)
    ensures AlwaysExclusive(w, es) <==> NeverRobs(w, es)
    decreases |es|
  {
    if es == [] {
    } else {
      OnlyAMoveBreaksIt(w, es[0]);
      if !Robs(w, es[0]) {
        ExclusiveIffNobodyRobbed(Next(w, es[0]), es[1..]);
      } else {
        assert !Exclusive(Next(w, es[0]));
      }
    }
  }

  /** What a mover could check: the file is gone, or still names the owner it judged. */
  predicate Looks(w: World, e: Event) {
    e.MoveAside? && Enabled(w, e) ==> w.file == NoFile || w.file == Names(w.contenders[e.p].phase.owner)
  }

  predicate AlwaysLooks(w: World, es: seq<Event>)
    decreases |es|
  {
    es != [] ==> Looks(w, es[0]) && AlwaysLooks(Next(w, es[0]), es[1..])
  }

  /** A token that has been in the file: of a process before this run, or of a contender past its attempts. */
  predicate Used(w: World, owner: nat) {
    owner < |w.contenders| ==>
      var phase := w.contenders[owner].phase; phase.Holding? || phase.Lost? || phase.Released?
  }

  /** Tokens are used once, so an owner judged dead stays what it was judged. */
  predicate TokensUsedOnce(w: World) {
    && (w.file.Names? ==> Used(w, w.file.owner))
    && forall p :: 0 <= p < |w.contenders| && w.contenders[p].phase.Judged? ==>
         Used(w, w.contenders[p].phase.owner) && !Believes(w, w.contenders[p].phase.owner)
  }

  lemma NextUsesTokensOnce(w: World, e: Event)
    requires TokensUsedOnce(w) && RightVerdict(w, e)
    ensures TokensUsedOnce(Next(w, e))
  {
  }

  /** With right verdicts, whoever looks before it moves robs nobody, however many judge one owner. */
  lemma {:induction false} LookingRobsNobody(w: World, es: seq<Event>)
    requires TokensUsedOnce(w) && RightVerdicts(w, es) && AlwaysLooks(w, es)
    ensures NeverRobs(w, es)
    decreases |es|
  {
    if es == [] {
    } else {
      NextUsesTokensOnce(w, es[0]);
      LookingRobsNobody(Next(w, es[0]), es[1..]);
    }
  }

  /**
   * So a move that is checked and made in one step needs no other condition: at most
   * one running process believes it holds the lock after any run of right verdicts.
   */
  lemma OneBelieverIfMoversLook(n: nat, leftover: FileState, es: seq<Event>, p: nat, q: nat)
    requires leftover.Names? ==> leftover.owner >= n
    requires RightVerdicts(Start(n, leftover), es) && AlwaysLooks(Start(n, leftover), es)
    requires Believes(Run(Start(n, leftover), es), p) && Believes(Run(Start(n, leftover), es), q)
    ensures p == q && Run(Start(n, leftover), es).file == Names(p)
  {
    LookingRobsNobody(Start(n, leftover), es);
    ExclusiveIffNobodyRobbed(Start(n, leftover), es);
    EndIsExclusive(Start(n, leftover), es);
  }

  lemma {:induction false} EndIsExclusive(w: World, es: seq<Event>)
    requires AlwaysExclusive(w, es)
    ensures Exclusive(Run(w, es))
    decreases |es|
  {
    if es == [] {
    } else {
      EndIsExclusive(Next(w, es[0]), es[1..]);
    }
  }

  /** Two contenders that judged one dead owner: the second moves the first one's new file. */
  lemma TwoJudgesTwoBelievers()
    ensures var es := [JudgeDead(0), JudgeDead(1), MoveAside(0), Create(0), MoveAside(1), Create(1)];
            && RightVerdicts(Start(2, Names(7)), es)
            && Believes(Run(Start(2, Names(7)), es), 0) && Believes(Run(Start(2, Names(7)), es), 1)
  {
    var w0 := Start(2, Names(7));
    var es5 := [Create(1)];
    var es4 := [MoveAside(1)] + es5;
    var es3 := [Create(0)] + es4;
    var es2 := [MoveAside(0)] + es3;
    var es1 := [JudgeDead(1)] + es2;
    var trying, judged := Contender(Trying, true, 0), Contender(Judged(7), true, 0);
    var holding := Contender(Holding, true, 0);
    assert w0 == World(Names(7), [trying, trying]);
    var w1 := RunCons(w0, JudgeDead(0), es1);
    assert w1 == World(Names(7), [judged, trying]);
    var w2 := RunCons(w1, JudgeDead(1), es2);
    assert w2 == World(Names(7), [judged, judged]);
    var w3 := RunCons(w2, MoveAside(0), es3);
    assert w3 == World(NoFile, [trying, judged]);
    var w4 := RunCons(w3, Create(0), es4);
    assert w4 == World(Names(0), [holding, judged]);
    var w5 := RunCons(w4, MoveAside(1), es5);
    assert w5 == World(NoFile, [holding, trying]);
    var w6 := RunCons(w5, Create(1), []);
    assert w6 == World(Names(1), [holding, holding]);
    assert es5 == [Create(1)] + [];
    assert [JudgeDead(0), JudgeDead(1), MoveAside(0), Create(0), MoveAside(1), Create(1)] == [JudgeDead(0)] + es1;
  }

  lemma RunCons(w: World, e: Event, es: seq<Event>) returns (v: World)
    ensures v == Next(w, e) && Run(w, [e] + es) == Run(v, es)
    ensures RightVerdicts(w, [e] + es) <==> RightVerdict(w, e) && RightVerdicts(v, es)
  {
    v := Next(w, e);
    assert ([e] + es)[1..] == es;
  }

  // --- What the heartbeat repairs --------------------------------------------

  /** Told at most once, and told exactly when it stopped. */
  predicate Honest(w: World) {
    forall p :: 0 <= p < |w.contenders| ==>
      w.contenders[p].reports == if w.contenders[p].phase.Lost? then 1 else 0
  }

  lemma {:induction false} LossReportedOnce(w: World, es: seq<Event>)
    requires Honest(w)
    ensures Honest(Run(w, es))
    decreases |es|
  {
    if es == [] {
    } else {
      LossReportedOnce(Next(w, es[0]), es[1..]);
    }
  }

  /** The events of p itself that end its belief. */
  predicate Ends(e: Event, p: nat) {
    e == Heartbeat(p) || e == Release(p) || e == Crash(p)
  }

  /** A file that stopped naming a believer never names it again: its token was used once. */
  lemma {:induction false} NeverRegained(w: World, es: seq<Event>, p: nat)
    requires Believes(w, p) && w.file != Names(p)
    requires forall e :: e in es ==> !Ends(e, p)
    ensures Believes(Run(w, es), p) && Run(w, es).file != Names(p)
    decreases |es|
  {
    if es == [] {
    } else {
      assert es[0] in es && forall e :: e in es[1..] ==> e in es;
      NeverRegained(Next(w, es[0]), es[1..], p);
    }
  }

  /** So its next heartbeat, whatever happens first, ends it — with one report, and for good. */
  lemma StopsAtNextHeartbeat(w: World, es: seq<Event>, more: seq<Event>, p: nat)
    requires Honest(w) && Believes(w, p) && w.file != Names(p)
    requires forall e :: e in es ==> !Ends(e, p)
    ensures var v := Run(Next(Run(w, es), Heartbeat(p)), more);
            p < |v.contenders| && !Believes(v, p) && v.contenders[p].reports == 1
  {
    NeverRegained(w, es, p);
    LossReportedOnce(w, es);
    var u := Next(Run(w, es), Heartbeat(p));
    LostForGood(u, more, p);
  }

  lemma {:induction false} LostForGood(w: World, es: seq<Event>, p: nat)
    requires p < |w.contenders| && w.contenders[p].phase.Lost?
    ensures var v := Run(w, es);
            p < |v.contenders| && v.contenders[p].phase.Lost? && v.contenders[p].reports == w.contenders[p].reports
    decreases |es|
  {
    if es == [] {
    } else {
      LostForGood(Next(w, es[0]), es[1..], p);
    }
  }

  // --- What a step leaves ----------------------------------------------------

  /** The file comes by a creation where there was none, and goes by a move or by its own holder's release. */
  lemma FileComesAndGoes(w: World, e: Event, q: nat)
    ensures w.file != Names(q) && Next(w, e).file == Names(q) <==> e == Create(q) && Enabled(w, e)
    ensures w.file.Names? && Next(w, e).file.NoFile? <==>
              Enabled(w, e) && w.file.Names? && (e.MoveAside? || (e.Release? && w.file == Names(e.p)))
  {
  }

  /** A step is one contender's own: the others stand where they stood, and a crash changes nothing but who runs. */
  lemma StepIsItsOwn(w: World, e: Event, q: nat)
    requires q < |w.contenders|
    ensures |Next(w, e).contenders| == |w.contenders|
    ensures q != e.p ==> Next(w, e).contenders[q] == w.contenders[q]
    ensures Running(w, q) && !Running(Next(w, e), q) <==> e == Crash(q) && Running(w, q)
    ensures e.JudgeDead? && Enabled(w, e) ==> Judging(Next(w, e), e.p, w.file.owner)
    ensures e.JudgeAlive? && Enabled(w, e) ==> Next(w, e).contenders[e.p].phase.Refused?
    ensures e.MoveAside? && Enabled(w, e) ==> Next(w, e).contenders[e.p].phase.Trying?
  {
  }

  /**
   * Once the holder the file names has released, the lock is free: whoever is trying
   * can create the file, and then is the one believer of the two. A release by one the
   * file does not name leaves the file to whom it names.
   */
  lemma ReleaseFreesTheLock(w: World, p: nat, q: nat)
    requires Believes(w, p) && Running(w, q) && w.contenders[q].phase.Trying?
    ensures var v := Next(w, Release(p));
            && !Believes(v, p)
            && (w.file == Names(p) ==>
                  && v.file == NoFile && Enabled(v, Create(q))
                  && Next(v, Create(q)).file == Names(q) && Believes(Next(v, Create(q)), q)
                  && !Believes(Next(v, Create(q)), p))
            && (w.file != Names(p) ==> v.file == w.file)
  {
  }

  // --- The verdict -----------------------------------------------------------

  /** What a lock file says of its writer. Old files record neither boot nor namespace, the oldest no heartbeat. */
  datatype Owner = Owner(
    pid: nat, bootId: Option<nat>, pidNamespace: Option<nat>, processStart: Option<nat>, heartbeat: bool)

  /** What a contender sees from where it is: its own id, boot and namespace, and the processes there. */
  datatype View = View(pid: nat, bootId: Option<nat>, pidNamespace: Option<nat>, started: map<nat, Option<nat>>)

  datatype Verdict = Gone | Alive | Unseen

  predicate Recorded(o: Owner) {
    o.bootId.Some? || o.pidNamespace.Some?
  }

  function OwnerState(o: Owner, v: View): Verdict {
    var sameView :=
      if Recorded(o) then o.bootId == v.bootId && o.pidNamespace == v.pidNamespace
      else o.heartbeat && v.bootId.None? && v.pidNamespace.None?;
    if sameView then
      if o.pid == v.pid then Gone
      else if o.pid !in v.started then Gone
      else
        var startedNow := if o.processStart.Some? then v.started[o.pid] else None;
        if startedNow.Some? && startedNow != o.processStart then Gone else Alive
    else if Recorded(o) || o.heartbeat then Unseen
    else if o.pid == v.pid then Unseen
    else if o.pid in v.started then Alive
    else Gone
  }

  /** The view shows, under the writer's id, a process that may be the writer. */
  predicate MayBeRunning(o: Owner, v: View) {
    o.pid != v.pid && o.pid in v.started
    && (o.processStart.Some? && v.started[o.pid].Some? ==> v.started[o.pid] == o.processStart)
  }

  /**
   * A writer that recorded where it ran is found gone only from that same boot and
   * namespace, and only when no process there can be it; seen from anywhere else
   * it is never judged by its id.
   */
  lemma RecordedWriterJudgedWhereItRan(o: Owner, v: View)
    requires Recorded(o)
    ensures OwnerState(o, v).Gone? <==>
              o.bootId == v.bootId && o.pidNamespace == v.pidNamespace && !MayBeRunning(o, v)
    ensures OwnerState(o, v).Unseen? <==> !(o.bootId == v.bootId && o.pidNamespace == v.pidNamespace)
  {
  }

  /**
   * A writer that recorded neither boot nor namespace. With a heartbeat it is judged
   * only by one that sees neither either, and by the processes there; otherwise it is
   * unseen. The oldest, without a heartbeat, is gone exactly when nothing runs under
   * its id, and unseen exactly when that is the judge's own id.
   */
  lemma UnrecordedWriterJudged(o: Owner, v: View)
    requires !Recorded(o)
    ensures o.heartbeat ==>
              && (OwnerState(o, v).Unseen? <==> v.bootId.Some? || v.pidNamespace.Some?)
              && (OwnerState(o, v).Gone? <==> v.bootId.None? && v.pidNamespace.None? && !MayBeRunning(o, v))
    ensures !o.heartbeat ==>
              && (OwnerState(o, v).Unseen? <==> o.pid == v.pid)
              && (OwnerState(o, v).Gone? <==> o.pid != v.pid && o.pid !in v.started)
  {
  }
}
