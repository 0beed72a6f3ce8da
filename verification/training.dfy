// A hero's experience ladder, the training points it has earned, and the build
// they are spent on.
module Training {
  import opened Options
  import opened Sums

  const STAT_CAP: int := 75
  const STAT_SLOTS: nat := 4

  /** A row of the Leveling table as one hero reads it: its cost, nothing when the row is not the hero's. */
  datatype LevelRow = LevelRow(level: int, cost: nat, statPoints: nat)

  /** A rung: what has been earned by the row's end, and the last experience that reads as it. */
  datatype Rung = Rung(level: int, experience: int, statPoints: nat)

  // --- The ladder ------------------------------------------------------------

  /** The rungs of the rows, on top of what earlier rows added up to. */
  function RungsFrom(rows: seq<LevelRow>, experience: nat, points: nat): seq<Rung> {
    if rows == [] then []
    else if rows[0].cost == 0 then RungsFrom(rows[1..], experience, points)
    else
      var e, p := experience + rows[0].cost, points + rows[0].statPoints;
      [Rung(rows[0].level, e - 1, p)] + RungsFrom(rows[1..], e, p)
  }

  function Ladder(rows: seq<LevelRow>): seq<Rung> {
    RungsFrom(rows, 0, 0)
  }

  method LevelTable(rows: seq<LevelRow>) returns (table: seq<Rung>)
    ensures table == Ladder(rows)
  {
    var experience: nat, statPoints: nat := 0, 0;
    table := [];
    for i := 0 to |rows|
      invariant table + RungsFrom(rows[i..], experience, statPoints) == Ladder(rows)
    {
      assert rows[i..][0] == rows[i] && rows[i..][1..] == rows[i + 1..];
      if rows[i].cost == 0 { continue; }
      experience := experience + rows[i].cost;
      statPoints := statPoints + rows[i].statPoints;
      table := table + [Rung(rows[i].level, experience - 1, statPoints)];
    }
  }

  /** Experience strictly rises along the ladder, points never fall. */
  predicate Climbing(table: seq<Rung>) {
    && (forall i, j :: 0 <= i < j < |table| ==> table[i].experience < table[j].experience)
    && (forall i, j :: 0 <= i <= j < |table| ==> table[i].statPoints <= table[j].statPoints)
    && (forall i :: 0 <= i < |table| ==> table[i].experience >= 0)
  }

  lemma {:induction false} LadderClimbs(rows: seq<LevelRow>, experience: nat, points: nat)
    ensures var table := RungsFrom(rows, experience, points);
            && Climbing(table)
            && forall i :: 0 <= i < |table| ==> table[i].experience >= experience && table[i].statPoints >= points
  {
    if rows == [] {
    } else {
      if rows[0].cost == 0 {
        LadderClimbs(rows[1..], experience, points);
      } else {
        LadderClimbs(rows[1..], experience + rows[0].cost, points + rows[0].statPoints);
      }
    }
  }

  function CostOf(): LevelRow -> int {
    (row: LevelRow) => row.cost
  }

  function PointsOf(): LevelRow -> int {
    (row: LevelRow) => if row.cost == 0 then 0 else row.statPoints
  }

  /**
   * Every row that is the hero's is one more rung, and no other row is: it ends one below
   * what all rows so far cost, and has earned the points of all the hero's rows so far.
   */
  lemma RungIsRunningTotal(rows: seq<LevelRow>, row: LevelRow)
    ensures var table := Ladder(rows + [row]);
            if row.cost == 0 then table == Ladder(rows)
            else
              && table != [] && table[..|table| - 1] == Ladder(rows)
              && var rung := table[|table| - 1];
                 && rung.level == row.level && rung.experience == Sum(CostOf(), rows + [row]) - 1
                 && rung.statPoints == Sum(PointsOf(), rows + [row])
  {
    RungsAppend(rows, row, 0, 0);
    SumAppend(CostOf(), rows, row);
    SumAppend(PointsOf(), rows, row);
  }

  lemma {:induction false} RungsAppend(rows: seq<LevelRow>, row: LevelRow, experience: nat, points: nat)
    ensures var spent := experience + Sum(CostOf(), rows) + row.cost;
            var earned := points + Sum(PointsOf(), rows) + row.statPoints;
            earned >= 0 && RungsFrom(rows + [row], experience, points) == RungsFrom(rows, experience, points)
              + if row.cost == 0 then [] else [Rung(row.level, spent - 1, earned)]
  {
    var all := rows + [row];
    if rows == [] {
      assert all == [row] && [row][1..] == [];
    } else {
      assert all[0] == rows[0] && all[1..] == rows[1..] + [row];
      var first := rows[0];
      if first.cost == 0 {
        RungsAppend(rows[1..], row, experience, points);
      } else {
        RungsAppend(rows[1..], row, experience + first.cost, points + first.statPoints);
        FrontStays(Rung(first.level, experience + first.cost - 1, points + first.statPoints),
                   RungsFrom(rows[1..], experience + first.cost, points + first.statPoints),
                   RungsFrom(rows[1..] + [row], experience + first.cost, points + first.statPoints));
      }
    }
  }

  lemma FrontStays(first: Rung, rest: seq<Rung>, all: seq<Rung>)
    requires rest <= all
    ensures [first] + all == ([first] + rest) + all[|rest|..]
  {
  }

  /** The position of the rung an amount of experience reads as: the first at or above it, else the last. */
  function Position(table: seq<Rung>, experience: int): (i: nat)
    requires table != []
    ensures i < |table|
    ensures forall j :: 0 <= j < i ==> table[j].experience < experience
    ensures table[i].experience >= experience || i == |table| - 1
  {
    if table[0].experience >= experience || |table| == 1 then 0
    else 1 + Position(table[1..], experience)
  }

  function StatPointsEarned(table: seq<Rung>, experience: int): nat {
    if table == [] then 0 else table[Position(table, experience)].statPoints
  }

  function HeroLevel(table: seq<Rung>, experience: int): int {
    if table == [] then 1 else table[Position(table, experience)].level
  }

  function MaxLevel(table: seq<Rung>): int {
    if table == [] then 1 else table[|table| - 1].level
  }

  /** The ladder position a level number is taken for: counted from one, kept on the ladder. */
  function PositionForLevel(table: seq<Rung>, level: int): (i: nat)
    requires table != []
    ensures i < |table|
  {
    (if level < 1 then 1 else if level > |table| then |table| else level) - 1
  }

  function ExperienceForLevel(table: seq<Rung>, level: int): int
    requires table != []
  {
    var index := PositionForLevel(table, level);
    if index == 0 then 0 else table[index - 1].experience + 1
  }

  /** Experience reads as the first rung at or above it, or as the last: its points, its level. */
  lemma ReadAsFirstRung(table: seq<Rung>, experience: int, i: nat)
    requires i < |table| && forall j :: 0 <= j < i ==> table[j].experience < experience
    requires table[i].experience >= experience || i == |table| - 1
    ensures StatPointsEarned(table, experience) == table[i].statPoints
    ensures HeroLevel(table, experience) == table[i].level
  {
  }

  /** More experience never reads as fewer points, for every Leveling table. */
  lemma EarnedIsMonotone(rows: seq<LevelRow>, less: int, more: int)
    requires less <= more
    ensures StatPointsEarned(Ladder(rows), less) <= StatPointsEarned(Ladder(rows), more)
  {
    LadderClimbs(rows, 0, 0);
  }

  lemma PositionAtLeast(table: seq<Rung>, index: nat, held: int)
    requires table != [] && Climbing(table) && index < |table|
    ensures Position(table, held) >= index <==> index == 0 || table[index - 1].experience < held
  {
    var i := Position(table, held);
    if i < index && index - 1 != i {
      assert table[i].experience < table[index - 1].experience;
    }
  }

  lemma PositionIs(table: seq<Rung>, index: nat, held: int)
    requires table != [] && Climbing(table) && index < |table|
    requires (index == 0 || table[index - 1].experience < held) && held <= table[index].experience
    ensures Position(table, held) == index
  {
    PositionAtLeast(table, index, held);
    if index + 1 < |table| {
      PositionAtLeast(table, index + 1, held);
    }
  }

  lemma LeastOnTable(table: seq<Rung>, level: int, held: int)
    requires table != [] && Climbing(table) && held >= 0
    ensures var index, least := PositionForLevel(table, level), ExperienceForLevel(table, level);
            && (Position(table, held) >= index <==> held >= least)
            && least >= 0 && Position(table, least) == index
  {
    var index := PositionForLevel(table, level);
    PositionAtLeast(table, index, held);
    if index > 0 {
      assert table[index - 1].experience < table[index].experience;
    }
    PositionIs(table, index, ExperienceForLevel(table, level));
  }

  /**
   * experienceForLevel is the least experience that reads as its rung: an amount
   * reads as that rung or a higher one exactly when it is at least that much, and
   * that much reads as that rung.
   */
  lemma LeastExperience(rows: seq<LevelRow>, level: int, held: int)
    requires Ladder(rows) != [] && held >= 0
    ensures var table := Ladder(rows);
            var index, least := PositionForLevel(table, level), ExperienceForLevel(table, level);
            && (Position(table, held) >= index <==> held >= least)
            && least >= 0 && Position(table, least) == index
  {
    LadderClimbs(rows, 0, 0);
    LeastOnTable(Ladder(rows), level, held);
  }

  /** Asking for a level and reading it back agrees exactly when the rung at that place carries that number. */
  lemma LevelReadsBackIff(rows: seq<LevelRow>, level: int)
    requires Ladder(rows) != [] && 1 <= level <= |Ladder(rows)|
    ensures var table := Ladder(rows);
            HeroLevel(table, ExperienceForLevel(table, level)) == level <==> table[level - 1].level == level
  {
    LeastExperience(rows, level, 0);
  }

  // --- The build -------------------------------------------------------------

  datatype Avatar = Avatar(experience: int, stats: seq<int>)

  function Id(): int -> int {
    (x: int) => x
  }

  function Spent(stats: seq<int>): int {
    Sum(Id(), stats)
  }

  datatype Refusal = NotWhole | OverCap | Drops | OverBudget | NothingPlaced

  /** Why the claimed stats from k on are refused one by one; None in a claim is not a whole number. */
  function ClaimRefusal(stats: seq<int>, claim: seq<Option<int>>, k: nat): Option<Refusal>
    requires |stats| == |claim| && k <= |claim|
    decreases |claim| - k
  {
    if k == |claim| then None
    else if claim[k].None? || claim[k].value < 0 then Some(NotWhole)
    else if claim[k].value > STAT_CAP then Some(OverCap)
    else if claim[k].value < stats[k] then Some(Drops)
    else ClaimRefusal(stats, claim, k + 1)
  }

  function Values(claim: seq<Option<int>>): seq<int> {
    if claim == [] then [] else [claim[0].GetOr(0)] + Values(claim[1..])
  }

  /** The client's claim of a whole build, checked stat by stat and then against the points earned. */
  function TrainOutcome(table: seq<Rung>, a: Avatar, claim: seq<Option<int>>): Outcome<Avatar, Refusal>
    requires |a.stats| == |claim| == STAT_SLOTS
  {
    var refusal := ClaimRefusal(a.stats, claim, 0);
    if refusal.Some? then Refused(refusal.value)
    else if Spent(Values(claim)) > StatPointsEarned(table, a.experience) then Refused(OverBudget)
    else Done(a.(stats := Values(claim)))
  }

  const CLEARED: seq<int> := [0, 0, 0, 0]

  function RespecOutcome(a: Avatar): Outcome<Avatar, Refusal> {
    if Spent(a.stats) == 0 then Refused(NothingPlaced) else Done(a.(stats := CLEARED))
  }

  /** The one step that can lower experience: a build the hero no longer has the points for is cleared. */
  function LevelSet(table: seq<Rung>, a: Avatar, level: int): Avatar
    requires table != []
  {
    var wanted := if level < MaxLevel(table) then level else MaxLevel(table);
    var experience := ExperienceForLevel(table, wanted);
    Avatar(experience, if Spent(a.stats) > StatPointsEarned(table, experience) then CLEARED else a.stats)
  }

  class LiveAvatar {
    var experience: int
    var stats: seq<int>

    constructor (a: Avatar)
      ensures Row() == a
    {
      experience, stats := a.experience, a.stats;
    }

    function Row(): Avatar
      reads this
    {
      Avatar(experience, stats)
    }

    method Train(table: seq<Rung>, claim: seq<Option<int>>) returns (refusal: Option<Refusal>)
      requires |stats| == |claim| == STAT_SLOTS
      modifies this`stats
      ensures match TrainOutcome(table, old(Row()), claim)
              case Done(a) => refusal == None && Row() == a
              case Refused(why) => refusal == Some(why) && Row() == old(Row())
    {
      var wanted: seq<int> := [];
      for k := 0 to |claim|
        invariant ClaimRefusal(stats, claim, 0) == ClaimRefusal(stats, claim, k)
        invariant wanted + Values(claim[k..]) == Values(claim)
      {
        assert claim[k..][0] == claim[k] && claim[k..][1..] == claim[k + 1..];
        if claim[k].None? || claim[k].value < 0 { return Some(NotWhole); }
        if claim[k].value > STAT_CAP { return Some(OverCap); }
        if claim[k].value < stats[k] { return Some(Drops); }
        var value := claim[k].value;
        assert (wanted + [value]) + Values(claim[k + 1..]) == wanted + ([value] + Values(claim[k + 1..]));
        wanted := wanted + [value];
      }
      assert wanted == Values(claim);
      if Spent(wanted) > StatPointsEarned(table, experience) { return Some(OverBudget); }
      stats := wanted;
      return None;
    }

    method Respec() returns (refusal: Option<Refusal>)
      requires |stats| == STAT_SLOTS
      modifies this`stats
      ensures match RespecOutcome(old(Row()))
              case Done(a) => refusal == None && Row() == a
              case Refused(why) => refusal == Some(why) && Row() == old(Row())
    {
      if Spent(stats) == 0 { return Some(NothingPlaced); }
      for slot := 0 to STAT_SLOTS
        invariant |stats| == STAT_SLOTS && forall i :: 0 <= i < slot ==> stats[i] == 0
      {
        stats := stats[slot := 0];
      }
      return None;
    }

    method SetLevel(table: seq<Rung>, level: int)
      requires table != [] && |stats| == STAT_SLOTS
      modifies this
      ensures Row() == LevelSet(table, old(Row()), level)
    {
      var wanted := if level < MaxLevel(table) then level else MaxLevel(table);
      experience := ExperienceForLevel(table, wanted);
      if Spent(stats) > StatPointsEarned(table, experience) {
        for slot := 0 to STAT_SLOTS
          invariant experience == ExperienceForLevel(table, wanted)
          invariant |stats| == STAT_SLOTS && forall i :: 0 <= i < slot ==> stats[i] == 0
        {
          stats := stats[slot := 0];
        }
      }
    }
  }

  // --- Over a hero's life ----------------------------------------------------

  datatype Event = Train(claim: seq<Option<int>>) | Respec | Gain(experience: nat) | SetLevel(level: int)

  predicate Legal(table: seq<Rung>, a: Avatar) {
    && |a.stats| == STAT_SLOTS
    && (forall i :: 0 <= i < STAT_SLOTS ==> 0 <= a.stats[i] <= STAT_CAP)
    && Spent(a.stats) <= StatPointsEarned(table, a.experience)
  }

  function Next(table: seq<Rung>, a: Avatar, e: Event): Avatar
    requires |a.stats| == STAT_SLOTS
  {
    match e
    case Train(claim) =>
      if |claim| != STAT_SLOTS then a
      else (match TrainOutcome(table, a, claim) case Done(b) => b case Refused(_) => a)
    case Respec => (match RespecOutcome(a) case Done(b) => b case Refused(_) => a)
    case Gain(experience) => a.(experience := a.experience + experience)
    case SetLevel(level) => if table == [] then a else LevelSet(table, a, level)
  }

  lemma {:induction false} ClaimIsInRange(stats: seq<int>, claim: seq<Option<int>>, k: nat)
    requires |stats| == |claim| && k <= |claim| && ClaimRefusal(stats, claim, k).None?
    ensures forall i :: k <= i < |claim| ==> claim[i].Some? && 0 <= claim[i].value <= STAT_CAP
    decreases |claim| - k
  {
    if k == |claim| {
    } else {
      ClaimIsInRange(stats, claim, k + 1);
    }
  }

  lemma {:induction false} ValuesAt(claim: seq<Option<int>>, i: nat)
    requires i < |claim|
    ensures |Values(claim)| == |claim| && Values(claim)[i] == claim[i].GetOr(0)
  {
    if |claim| == 1 {
    } else {
      ValuesAt(claim[1..], if i == 0 then 0 else i - 1);
    }
  }

  lemma NextIsLegal(rows: seq<LevelRow>, a: Avatar, e: Event)
    requires Legal(Ladder(rows), a)
    ensures Legal(Ladder(rows), Next(Ladder(rows), a, e))
  {
    var table := Ladder(rows);
    match e
    case Train(claim) =>
      if |claim| == STAT_SLOTS && TrainOutcome(table, a, claim).Done? {
        ClaimIsInRange(a.stats, claim, 0);
        forall i | 0 <= i < STAT_SLOTS
          ensures |Values(claim)| == STAT_SLOTS && 0 <= Values(claim)[i] <= STAT_CAP
        {
          ValuesAt(claim, i);
        }
        ValuesAt(claim, 0);
      }
    case Respec => NothingSpent();
    case Gain(experience) => EarnedIsMonotone(rows, a.experience, a.experience + experience);
    case SetLevel(_) => NothingSpent();
  }

  lemma NothingSpent()
    ensures Spent(CLEARED) == 0
  {
    assert CLEARED[1..] == [0, 0, 0] && [0, 0, 0][1..] == [0, 0] && [0, 0][1..] == [0] && [0][1..] == [];
  }

  function Run(table: seq<Rung>, a: Avatar, es: seq<Event>): Avatar
    requires |a.stats| == STAT_SLOTS
    decreases |es|
  {
    if es == [] then a
    else
      var b := Next(table, a, es[0]);
      if |b.stats| == STAT_SLOTS then Run(table, b, es[1..]) else b
  }

  /**
   * Whatever a client claims, and however experience rises or is set back: no stat
   * leaves 0..75 and no hero has spent more points than its ladder has earned it.
   */
  lemma {:induction false} BudgetHolds(rows: seq<LevelRow>, a: Avatar, es: seq<Event>)
    requires Legal(Ladder(rows), a)
    ensures Legal(Ladder(rows), Run(Ladder(rows), a, es))
    decreases |es|
  {
    if es == [] {
    } else {
      NextIsLegal(rows, a, es[0]);
      BudgetHolds(rows, Next(Ladder(rows), a, es[0]), es[1..]);
    }
  }

  /** The whole claim is whole numbers in range, no stat falls, and the points are there. */
  predicate FairClaim(table: seq<Rung>, a: Avatar, claim: seq<Option<int>>)
    requires |a.stats| == |claim|
  {
    && (forall i :: 0 <= i < |claim| ==>
          claim[i].Some? && a.stats[i] <= claim[i].value <= STAT_CAP && 0 <= claim[i].value)
    && Spent(Values(claim)) <= StatPointsEarned(table, a.experience)
  }

  /** A claim is refused exactly when it is not fair, and accepted as it stands otherwise. */
  lemma AcceptedIffFair(table: seq<Rung>, a: Avatar, claim: seq<Option<int>>)
    requires |a.stats| == |claim| == STAT_SLOTS
    ensures TrainOutcome(table, a, claim).Done? <==> FairClaim(table, a, claim)
    ensures TrainOutcome(table, a, claim).Done? ==>
              var b := TrainOutcome(table, a, claim).value;
              && b.experience == a.experience && |b.stats| == STAT_SLOTS
              && forall i :: 0 <= i < STAT_SLOTS ==> claim[i] == Some(b.stats[i])
  {
    NothingRefusedIff(a.stats, claim, 0);
    forall i | 0 <= i < STAT_SLOTS
      ensures |Values(claim)| == STAT_SLOTS && Values(claim)[i] == claim[i].GetOr(0)
    {
      ValuesAt(claim, i);
    }
  }

  lemma {:induction false} NothingRefusedIff(stats: seq<int>, claim: seq<Option<int>>, k: nat)
    requires |stats| == |claim| && k <= |claim|
    ensures ClaimRefusal(stats, claim, k).None? <==>
              forall i :: k <= i < |claim| ==>
                claim[i].Some? && stats[i] <= claim[i].value <= STAT_CAP && 0 <= claim[i].value
    decreases |claim| - k
  {
    if k == |claim| {
    } else {
      NothingRefusedIff(stats, claim, k + 1);
    }
  }

  /** Setting a level reads back as that rung, the last at most, and keeps a build that is still paid for. */
  lemma SetLevelReads(rows: seq<LevelRow>, a: Avatar, level: int)
    requires Ladder(rows) != [] && level <= MaxLevel(Ladder(rows))
    ensures var table := Ladder(rows);
            var b := LevelSet(table, a, level);
            && Position(table, b.experience) == PositionForLevel(table, level)
            && (Spent(a.stats) <= StatPointsEarned(table, b.experience) ==> b.stats == a.stats)
  {
    LeastExperience(rows, level, 0);
  }

  /** Every training that is accepted keeps each stat at least where it was: points come back by a retrain only. */
  lemma TrainingNeverLowers(table: seq<Rung>, a: Avatar, claim: seq<Option<int>>, i: nat)
    requires |a.stats| == |claim| == STAT_SLOTS && i < STAT_SLOTS
    requires TrainOutcome(table, a, claim).Done?
    ensures var after := TrainOutcome(table, a, claim).value;
            |after.stats| == STAT_SLOTS && after.stats[i] >= a.stats[i]
  {
    ValuesAt(claim, i);
    NotDropped(a.stats, claim, 0);
  }

  lemma {:induction false} NotDropped(stats: seq<int>, claim: seq<Option<int>>, k: nat)
    requires |stats| == |claim| && k <= |claim| && ClaimRefusal(stats, claim, k).None?
    ensures forall i :: k <= i < |claim| ==> claim[i].Some? && claim[i].value >= stats[i]
    decreases |claim| - k
  {
    if k == |claim| {
    } else {
      NotDropped(stats, claim, k + 1);
    }
  }

  /**
   * What a step does: a fair claim is the build afterwards and any other changes nothing;
   * a retrain leaves nothing spent; experience moves when the hero gains it, by what is
   * gained, or when a level is set, and nothing else moves it.
   */
  lemma StepDoesWhatItSays(table: seq<Rung>, a: Avatar, e: Event, i: nat)
    requires |a.stats| == STAT_SLOTS && i < STAT_SLOTS
    ensures e.Train? ==>
              if |e.claim| == STAT_SLOTS && FairClaim(table, a, e.claim)
              then |Next(table, a, e).stats| == STAT_SLOTS && e.claim[i] == Some(Next(table, a, e).stats[i])
              else Next(table, a, e) == a
    ensures e.Respec? ==> Spent(Next(table, a, e).stats) == 0
    ensures e.Gain? ==> Next(table, a, e) == Avatar(a.experience + e.experience, a.stats)
    ensures e.Train? || e.Respec? ==> Next(table, a, e).experience == a.experience
  {
    NothingSpent();
    if e.Train? && |e.claim| == STAT_SLOTS {
      AcceptedIffFair(table, a, e.claim);
    }
  }

  /** A build is handed back exactly when something is placed: then all of it, and no experience is lost. */
  lemma RespecClears(table: seq<Rung>, a: Avatar)
    requires Legal(table, a)
    ensures RespecOutcome(a).Refused? <==> forall i :: 0 <= i < STAT_SLOTS ==> a.stats[i] == 0
    ensures RespecOutcome(a).Done? ==>
              var b := RespecOutcome(a).value;
              && b.experience == a.experience && |b.stats| == STAT_SLOTS
              && forall i :: 0 <= i < STAT_SLOTS ==> b.stats[i] == 0
  {
    SpentIsSum(a.stats);
  }

  lemma SpentIsSum(stats: seq<int>)
    requires |stats| == STAT_SLOTS
    ensures Spent(stats) == stats[0] + stats[1] + stats[2] + stats[3]
  {
    var two, three := [stats[0], stats[1]], [stats[0], stats[1], stats[2]];
    SumAppend(Id(), [], stats[0]);
    SumAppend(Id(), [stats[0]], stats[1]);
    SumAppend(Id(), two, stats[2]);
    SumAppend(Id(), three, stats[3]);
    assert [] + [stats[0]] == [stats[0]] && [stats[0]] + [stats[1]] == two && two + [stats[2]] == three;
    assert three + [stats[3]] == stats;
  }

  /**
   * A level above the ladder is its last level. Whatever level is set, the build stays
   * as it was exactly when the rung it reads as has the points for it; otherwise every
   * stat is handed back.
   */
  lemma LevelSetKeepsOrClears(rows: seq<LevelRow>, a: Avatar, level: int)
    requires Ladder(rows) != [] && Legal(Ladder(rows), a)
    ensures var table := Ladder(rows);
            var b := LevelSet(table, a, level);
            var rung := PositionForLevel(table, if level < MaxLevel(table) then level else MaxLevel(table));
            && (level > MaxLevel(table) ==> b == LevelSet(table, a, MaxLevel(table)))
            && Position(table, b.experience) == rung
            && |b.stats| == STAT_SLOTS
            && (Spent(a.stats) <= table[rung].statPoints ==> b.stats == a.stats)
            && (Spent(a.stats) > table[rung].statPoints ==> forall i :: 0 <= i < STAT_SLOTS ==> b.stats[i] == 0)
  {
    var table := Ladder(rows);
    var wanted := if level < MaxLevel(table) then level else MaxLevel(table);
    LeastExperience(rows, wanted, 0);
  }
}
