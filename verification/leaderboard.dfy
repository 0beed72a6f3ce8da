// Bests kept beside the run history: one standing per board key and account,
// folded run by run, and what it is of the whole history.
module Leaderboard {
  import opened Options
  import opened Sums

  datatype Metric = Speedrun | HeroExperience | Trophies | Clears

  /** The key a run competes under: speedruns per node, hero and party size, the rest per player. */
  datatype Key = NodeKey(node: int, hero: int, party: int) | PlayerKey(metric: Metric)

  datatype FinishedRun = FinishedRun(
    account: nat, node: int, hero: int, party: int, success: bool, durationMs: int,
    heroXp: int, trophies: int, finishedAt: int, name: string, rankable: bool)

  datatype Standing = Standing(value: int, at: int, name: string, trophies: int, hero: int)

  type Bests = map<Key, map<nat, Standing>>

  /** The boards, in the order they are declared. */
  const BOARDS: seq<Metric> := [Speedrun, HeroExperience, Trophies, Clears]

  predicate SuccessOnly(m: Metric) { m.Speedrun? || m.Clears? }

  predicate LowerIsBetter(m: Metric) { m.Speedrun? }

  function KeyFor(m: Metric, run: FinishedRun): Key {
    if m.Speedrun? then NodeKey(run.node, run.hero, run.party) else PlayerKey(m)
  }

  function ValueFor(m: Metric, run: FinishedRun): int {
    match m
    case Speedrun => run.durationMs
    case HeroExperience => run.heroXp
    case Trophies => run.trophies
    case Clears => 1
  }

  predicate Counts(m: Metric, run: FinishedRun) {
    SuccessOnly(m) ==> run.success
  }

  predicate Better(m: Metric, value: int, standing: int) {
    if LowerIsBetter(m) then value < standing else value > standing
  }

  predicate Beats(m: Metric, value: int, standing: Option<Standing>) {
    standing.None? || Better(m, value, standing.value.value)
  }

  function StandingOf(run: FinishedRun, value: int): Standing {
    Standing(value, run.finishedAt, run.name, run.trophies, run.hero)
  }

  function At(bests: Bests, key: Key, account: nat): Option<Standing> {
    if key in bests && account in bests[key] then Some(bests[key][account]) else None
  }

  function Put(bests: Bests, key: Key, account: nat, s: Standing): Bests {
    bests[key := (if key in bests then bests[key] else map[])[account := s]]
  }

  /** What one run does to the standing of its account on one board. */
  function FoldCell(m: Metric, standing: Option<Standing>, run: FinishedRun): Standing {
    var value := ValueFor(m, run);
    if m.Clears? then StandingOf(run, (if standing.Some? then standing.value.value else 0) + value)
    else if Beats(m, value, standing) then StandingOf(run, value)
    else standing.value
  }

  function FoldMetric(bests: Bests, run: FinishedRun, m: Metric): Bests {
    if !Counts(m, run) then bests
    else
      var key := KeyFor(m, run);
      Put(bests, key, run.account, FoldCell(m, At(bests, key, run.account), run))
  }

  function FoldFrom(bests: Bests, run: FinishedRun, k: nat): Bests
    requires k <= |BOARDS|
    decreases |BOARDS| - k
  {
    if k == |BOARDS| then bests else FoldFrom(FoldMetric(bests, run, BOARDS[k]), run, k + 1)
  }

  function FoldRun(bests: Bests, run: FinishedRun): Bests {
    FoldFrom(bests, run, 0)
  }

  function Fold(bests: Bests, runs: seq<FinishedRun>): Bests {
    if runs == [] then bests else FoldRun(Fold(bests, runs[..|runs| - 1]), runs[|runs| - 1])
  }

  /** The keys one run touches, and by how much: what the table store folds instead. */
  function BoardEntries(run: FinishedRun): set<(Key, int)> {
    set m | m in BOARDS && Counts(m, run) :: (KeyFor(m, run), ValueFor(m, run))
  }

  // --- In place --------------------------------------------------------------

  class Boards {
    var bests: Bests

    constructor (bests: Bests)
      ensures this.bests == bests
    {
      this.bests := bests;
    }

    method FoldOne(run: FinishedRun)
      modifies this
      ensures bests == FoldRun(old(bests), run)
    {
      for k := 0 to |BOARDS|
        invariant FoldFrom(bests, run, k) == FoldRun(old(bests), run)
      {
        FoldBoard(BOARDS[k], run);
      }
    }

    /** One turn of the loop: one board. */
    method FoldBoard(metric: Metric, run: FinishedRun)
      modifies this
      ensures bests == FoldMetric(old(bests), run, metric)
    {
      if SuccessOnly(metric) && !run.success { return; }
      var key := KeyFor(metric, run);
      if key !in bests { bests := bests[key := map[]]; }
      var row := bests[key];
      var value := ValueFor(metric, run);
      var standing := if run.account in row then Some(row[run.account]) else None;
      if metric.Clears? {
        value := value + if standing.Some? then standing.value.value else 0;
        row := row[run.account := StandingOf(run, value)];
        bests := bests[key := row];
      } else if Beats(metric, value, standing) {
        row := row[run.account := StandingOf(run, value)];
        bests := bests[key := row];
      } else {
        assert row[run.account := row[run.account]] == row;
      }
    }

    /** A finished batch: the rankable runs, folded in order; answers how many. */
    method RecordRuns(runs: seq<FinishedRun>) returns (recorded: nat)
      modifies this
      ensures bests == Fold(old(bests), Rankable(runs)) && recorded == |Rankable(runs)|
    {
      var rankable: seq<FinishedRun> := [];
      for i := 0 to |runs|
        invariant rankable == Rankable(runs[..i]) && bests == old(bests)
      {
        assert runs[..i + 1][..i] == runs[..i];
        if runs[i].rankable { rankable := rankable + [runs[i]]; }
      }
      assert runs[..|runs|] == runs;
      for i := 0 to |rankable|
        invariant bests == Fold(old(bests), rankable[..i])
      {
        assert rankable[..i + 1][..i] == rankable[..i];
        FoldOne(rankable[i]);
      }
      assert rankable[..|rankable|] == rankable;
      return |rankable|;
    }

    /** One seeded standing: taken only over nothing, or over something smaller. */
    method Offer(key: Key, account: nat, entry: Standing)
      modifies this
      ensures bests == Seeded(old(bests), key, account, entry)
    {
      if key !in bests { bests := bests[key := map[]]; }
      var row := bests[key];
      if account !in row || entry.value > row[account].value {
        row := row[account := entry];
        bests := bests[key := row];
      }
    }
  }

  function Rankable(runs: seq<FinishedRun>): seq<FinishedRun> {
    if runs == [] then []
    else
      var last := runs[|runs| - 1];
      Rankable(runs[..|runs| - 1]) + if last.rankable then [last] else []
  }

  function Seeded(bests: Bests, key: Key, account: nat, entry: Standing): Bests {
    var row := if key in bests then bests[key] else map[];
    bests[key := if account !in row || entry.value > row[account].value then row[account := entry] else row]
  }

  // --- One cell --------------------------------------------------------------

  /** The board a key belongs to. */
  function MetricOf(key: Key): Metric {
    if key.NodeKey? then Speedrun else key.metric
  }

  /** The run counts towards this account's standing under this key. */
  predicate Relevant(run: FinishedRun, key: Key, account: nat) {
    var m := MetricOf(key);
    run.account == account && Counts(m, run) && KeyFor(m, run) == key
  }

  /** Folding one run moves the cells it is relevant to, each by its own board's rule, and no others. */
  lemma FoldRunAt(bests: Bests, run: FinishedRun, key: Key, account: nat)
    ensures At(FoldRun(bests, run), key, account) ==
              if Relevant(run, key, account) then Some(FoldCell(MetricOf(key), At(bests, key, account), run))
              else At(bests, key, account)
  {
    var b1 := FoldMetric(bests, run, BOARDS[0]);
    var b2 := FoldMetric(b1, run, BOARDS[1]);
    var b3 := FoldMetric(b2, run, BOARDS[2]);
    var b4 := FoldMetric(b3, run, BOARDS[3]);
    assert FoldRun(bests, run) == b4 by {
      assert FoldFrom(b4, run, 4) == b4;
      assert FoldFrom(b3, run, 3) == b4;
      assert FoldFrom(b2, run, 2) == b4;
      assert FoldFrom(b1, run, 1) == b4;
    }
    FoldMetricAt(bests, run, BOARDS[0], key, account);
    FoldMetricAt(b1, run, BOARDS[1], key, account);
    FoldMetricAt(b2, run, BOARDS[2], key, account);
    FoldMetricAt(b3, run, BOARDS[3], key, account);
  }

  lemma FoldMetricAt(bests: Bests, run: FinishedRun, m: Metric, key: Key, account: nat)
    ensures At(FoldMetric(bests, run, m), key, account) ==
              if Counts(m, run) && KeyFor(m, run) == key && run.account == account
              then Some(FoldCell(m, At(bests, key, account), run))
              else At(bests, key, account)
  {
  }

  /** foldRun changes standings only under the keys boardEntriesFor lists, and only its own account's. */
  lemma TouchesItsEntriesOnly(bests: Bests, run: FinishedRun, key: Key, account: nat)
    ensures At(FoldRun(bests, run), key, account) != At(bests, key, account) ==>
              account == run.account && exists v :: (key, v) in BoardEntries(run)
    ensures (exists v :: (key, v) in BoardEntries(run)) ==>
              At(FoldRun(bests, run), key, run.account).Some?
  {
    FoldRunAt(bests, run, key, account);
    FoldRunAt(bests, run, key, run.account);
    var m := MetricOf(key);
    if Relevant(run, key, account) {
      assert m in BOARDS by {
        assert BOARDS[0] == Speedrun && BOARDS[1] == HeroExperience && BOARDS[2] == Trophies && BOARDS[3] == Clears;
      }
      assert (key, ValueFor(m, run)) in BoardEntries(run);
    }
  }

  // --- The aggregate over the history ----------------------------------------

  /** Run i is the first of the history to reach the best value any relevant run has. */
  predicate FirstBest(runs: seq<FinishedRun>, key: Key, account: nat, i: nat) {
    var m := MetricOf(key);
    && i < |runs| && Relevant(runs[i], key, account)
    && (forall j :: 0 <= j < |runs| && Relevant(runs[j], key, account) ==>
          !Better(m, ValueFor(m, runs[j]), ValueFor(m, runs[i])))
    && (forall j :: 0 <= j < i && Relevant(runs[j], key, account) ==>
          ValueFor(m, runs[j]) != ValueFor(m, runs[i]))
  }

  function CountRelevant(runs: seq<FinishedRun>, key: Key, account: nat): nat {
    if runs == [] then 0
    else
      CountRelevant(runs[..|runs| - 1], key, account)
      + if Relevant(runs[|runs| - 1], key, account) then 1 else 0
  }

  /** Run i is the last relevant one. */
  predicate LastRelevant(runs: seq<FinishedRun>, key: Key, account: nat, i: nat) {
    && i < |runs| && Relevant(runs[i], key, account)
    && forall j :: i < j < |runs| ==> !Relevant(runs[j], key, account)
  }

  /** What a standing has to be of the history, whoever computed it. */
  ghost predicate IsAggregate(runs: seq<FinishedRun>, key: Key, account: nat, s: Option<Standing>) {
    match s
    case None => forall j :: 0 <= j < |runs| ==> !Relevant(runs[j], key, account)
    case Some(row) =>
      if MetricOf(key).Clears? then
        && row.value == CountRelevant(runs, key, account)
        && exists i: nat :: LastRelevant(runs, key, account, i) && row == StandingOf(runs[i], row.value)
      else
        exists i: nat ::
          FirstBest(runs, key, account, i) && row == StandingOf(runs[i], ValueFor(MetricOf(key), runs[i]))
  }

  lemma CellKeepsAggregate(runs: seq<FinishedRun>, run: FinishedRun, key: Key, account: nat, s: Option<Standing>)
    requires IsAggregate(runs, key, account, s)
    ensures IsAggregate(runs + [run], key, account,
                        if Relevant(run, key, account) then Some(FoldCell(MetricOf(key), s, run)) else s)
  {
    var all, m, n := runs + [run], MetricOf(key), |runs|;
    assert all[..n] == runs && all[n] == run;
    assert forall j :: 0 <= j < n ==> all[j] == runs[j];
    if s.Some? {
      if m.Clears? {
        var i: nat :| LastRelevant(runs, key, account, i) && s.value == StandingOf(runs[i], s.value.value);
        assert LastRelevant(all, key, account, if Relevant(run, key, account) then n else i);
      } else {
        var i: nat :| FirstBest(runs, key, account, i) && s.value == StandingOf(runs[i], ValueFor(m, runs[i]));
        var takes := Relevant(run, key, account) && Better(m, ValueFor(m, run), ValueFor(m, runs[i]));
        assert FirstBest(all, key, account, if takes then n else i);
      }
    } else if Relevant(run, key, account) {
      NoneCounted(runs, key, account);
      assert LastRelevant(all, key, account, n) && FirstBest(all, key, account, n);
    }
  }

  lemma {:induction false} NoneCounted(runs: seq<FinishedRun>, key: Key, account: nat)
    requires forall j :: 0 <= j < |runs| ==> !Relevant(runs[j], key, account)
    ensures CountRelevant(runs, key, account) == 0
  {
    if runs == [] {
    } else {
      NoneCounted(runs[..|runs| - 1], key, account);
    }
  }

  /**
   * The board a player reads is the aggregate of the history: the least duration
   * among successes per node, hero and party, the greatest experience and trophies,
   * the number of successes; shown with the run that first reached it.
   */
  lemma {:induction false} FoldIsAggregate(runs: seq<FinishedRun>, key: Key, account: nat)
    ensures IsAggregate(runs, key, account, At(Fold(map[], runs), key, account))
  {
    if runs == [] {
    } else {
      var before := runs[..|runs| - 1];
      FoldIsAggregate(before, key, account);
      FoldRunAt(Fold(map[], before), runs[|runs| - 1], key, account);
      CellKeepsAggregate(before, runs[|runs| - 1], key, account, At(Fold(map[], before), key, account));
      assert runs == before + [runs[|runs| - 1]];
    }
  }

  lemma FoldLast(bests: Bests, runs: seq<FinishedRun>, run: FinishedRun)
    ensures Fold(bests, runs + [run]) == FoldRun(Fold(bests, runs), run)
  {
    assert (runs + [run])[..|runs|] == runs;
  }

  /** However the runs were batched, the bests are the same. */
  lemma {:induction false} BatchingDoesNotMatter(bests: Bests, first: seq<FinishedRun>, second: seq<FinishedRun>)
    ensures Fold(Fold(bests, first), second) == Fold(bests, first + second)
  {
    if second == [] {
      assert first + second == first;
    } else {
      var init, last := second[..|second| - 1], second[|second| - 1];
      BatchingDoesNotMatter(bests, first, init);
      FoldLast(Fold(bests, first), init, last);
      FoldLast(bests, first + init, last);
      assert second == init + [last] && first + second == (first + init) + [last];
    }
  }

  lemma {:induction false} CountOfPermutation(a: seq<FinishedRun>, b: seq<FinishedRun>, key: Key, account: nat)
    requires multiset(a) == multiset(b)
    ensures CountRelevant(a, key, account) == CountRelevant(b, key, account)
  {
    if a == [] {
      assert |multiset(a)| == |a| && |multiset(b)| == |b|;
    } else {
      var k := LastOfPermutation(a, b);
      CountOfPermutation(a[..|a| - 1], b[..k] + b[k + 1..], key, account);
      CountWithout(b, k, key, account);
    }
  }

  lemma MultisetInit<T>(s: seq<T>)
    requires s != []
    ensures multiset(s) == multiset(s[..|s| - 1]) + multiset{s[|s| - 1]}
  {
    assert s == s[..|s| - 1] + [s[|s| - 1]];
  }

  /** Where the last of one is in the other, and that the others still match. */
  lemma LastOfPermutation(a: seq<FinishedRun>, b: seq<FinishedRun>) returns (k: nat)
    requires multiset(a) == multiset(b) && a != []
    ensures k < |b| && b[k] == a[|a| - 1]
    ensures multiset(a[..|a| - 1]) == multiset(b[..k] + b[k + 1..])
  {
    MultisetInit(a);
    assert a[|a| - 1] in multiset(b);
    k :| 0 <= k < |b| && b[k] == a[|a| - 1];
    MultisetWithout(b, k);
  }

  lemma {:induction false} CountConcat(a: seq<FinishedRun>, b: seq<FinishedRun>, key: Key, account: nat)
    ensures CountRelevant(a + b, key, account) == CountRelevant(a, key, account) + CountRelevant(b, key, account)
  {
    if b == [] {
      assert a + b == a;
    } else {
      var init := b[..|b| - 1];
      assert (a + b)[..|a + b| - 1] == a + init;
      CountConcat(a, init, key, account);
    }
  }

  lemma CountWithout(b: seq<FinishedRun>, k: nat, key: Key, account: nat)
    requires k < |b|
    ensures CountRelevant(b, key, account) ==
              CountRelevant(b[..k] + b[k + 1..], key, account) + if Relevant(b[k], key, account) then 1 else 0
  {
    var front, back := b[..k], b[k + 1..];
    assert b == (front + [b[k]]) + back;
    CountConcat(front + [b[k]], back, key, account);
    CountConcat(front, back, key, account);
    assert (front + [b[k]])[..k] == front;
  }

  lemma SameBest(a: seq<FinishedRun>, b: seq<FinishedRun>, key: Key, account: nat, i: nat, j: nat)
    requires multiset(a) == multiset(b)
    requires FirstBest(a, key, account, i) && FirstBest(b, key, account, j)
    ensures ValueFor(MetricOf(key), a[i]) == ValueFor(MetricOf(key), b[j])
  {
    assert a[i] in multiset(b) && b[j] in multiset(a);
    var k :| 0 <= k < |b| && b[k] == a[i];
    var l :| 0 <= l < |a| && a[l] == b[j];
  }

  lemma SameRelevance(a: seq<FinishedRun>, b: seq<FinishedRun>, key: Key, account: nat, i: nat)
    requires multiset(a) == multiset(b) && i < |a| && Relevant(a[i], key, account)
    ensures exists k :: 0 <= k < |b| && Relevant(b[k], key, account)
  {
    assert a[i] in multiset(b);
    var k :| 0 <= k < |b| && b[k] == a[i];
  }

  /** Which order runs finish in changes no value on any board. */
  lemma OrderDoesNotMatter(a: seq<FinishedRun>, b: seq<FinishedRun>, key: Key, account: nat)
    requires multiset(a) == multiset(b)
    ensures var x, y := At(Fold(map[], a), key, account), At(Fold(map[], b), key, account);
            x.Some? == y.Some? && (x.Some? ==> x.value.value == y.value.value)
  {
    var x, y := At(Fold(map[], a), key, account), At(Fold(map[], b), key, account);
    FoldIsAggregate(a, key, account);
    FoldIsAggregate(b, key, account);
    if MetricOf(key).Clears? {
      CountOfPermutation(a, b, key, account);
      if x.Some? { var i: nat :| LastRelevant(a, key, account, i); SameRelevance(a, b, key, account, i); }
      if y.Some? { var j: nat :| LastRelevant(b, key, account, j); SameRelevance(b, a, key, account, j); }
    } else {
      if x.Some? { var i: nat :| FirstBest(a, key, account, i); SameRelevance(a, b, key, account, i); }
      if y.Some? { var j: nat :| FirstBest(b, key, account, j); SameRelevance(b, a, key, account, j); }
      if x.Some? && y.Some? {
        var i: nat :| FirstBest(a, key, account, i) && x.value == StandingOf(a[i], ValueFor(MetricOf(key), a[i]));
        var j: nat :| FirstBest(b, key, account, j) && y.value == StandingOf(b[j], ValueFor(MetricOf(key), b[j]));
        SameBest(a, b, key, account, i, j);
      }
    }
  }

  // --- Runs and seeds together -----------------------------------------------

  datatype Update = Finished(run: FinishedRun) | Offered(key: Key, account: nat, entry: Standing)

  function Updated(bests: Bests, u: Update): Bests {
    match u
    case Finished(run) => FoldRun(bests, run)
    case Offered(key, account, entry) => Seeded(bests, key, account, entry)
  }

  function UpdateAll(bests: Bests, us: seq<Update>): Bests {
    if us == [] then bests else Updated(UpdateAll(bests, us[..|us| - 1]), us[|us| - 1])
  }

  /** What an update puts forward for an account on a board: a run's value there, or what is seeded. */
  function PutForward(u: Update, key: Key, account: nat): Option<int> {
    match u
    case Finished(run) => if Relevant(run, key, account) then Some(ValueFor(MetricOf(key), run)) else None
    case Offered(k, a, entry) => if k == key && a == account then Some(entry.value) else None
  }

  predicate Greatest(us: seq<Update>, key: Key, account: nat, best: Option<int>) {
    match best
    case None => forall i :: 0 <= i < |us| ==> PutForward(us[i], key, account).None?
    case Some(value) =>
      && (exists i :: 0 <= i < |us| && PutForward(us[i], key, account) == Some(value))
      && forall i :: 0 <= i < |us| && PutForward(us[i], key, account).Some? ==>
           PutForward(us[i], key, account).value <= value
  }

  function BestAt(bests: Bests, key: Key, account: nat): Option<int> {
    var s := At(bests, key, account); if s.Some? then Some(s.value.value) else None
  }

  /** The boards that are seeded: the greatest counts. */
  predicate SeededBoard(key: Key) {
    key == PlayerKey(HeroExperience) || key == PlayerKey(Trophies)
  }

  lemma UpdateKeepsGreatest(us: seq<Update>, bests: Bests, u: Update, key: Key, account: nat)
    requires SeededBoard(key) && Greatest(us, key, account, BestAt(bests, key, account))
    ensures Greatest(us + [u], key, account, BestAt(Updated(bests, u), key, account))
  {
    var all, n := us + [u], |us|;
    assert all[n] == u && forall i :: 0 <= i < n ==> all[i] == us[i];
    if u.Finished? {
      FoldRunAt(bests, u.run, key, account);
    } else {
      SeedingNeverLowers(bests, u.key, u.account, u.entry, key, account);
    }
    var before := BestAt(bests, key, account);
    if before.Some? {
      var i :| 0 <= i < |us| && PutForward(us[i], key, account) == before;
      assert PutForward(all[i], key, account) == before;
    }
    assert PutForward(all[n], key, account) == PutForward(u, key, account);
  }

  /**
   * On the seeded boards, however runs and seeds are mixed, a standing is the greatest
   * value any run or seed ever put forward, and there is one as soon as anything did.
   */
  lemma {:induction false} MixedIsGreatest(us: seq<Update>, key: Key, account: nat)
    requires SeededBoard(key)
    ensures Greatest(us, key, account, BestAt(UpdateAll(map[], us), key, account))
  {
    if us == [] {
    } else {
      var before := us[..|us| - 1];
      MixedIsGreatest(before, key, account);
      UpdateKeepsGreatest(before, UpdateAll(map[], before), us[|us| - 1], key, account);
      assert us == before + [us[|us| - 1]];
    }
  }

  /** Seeding never lowers a standing, reaches what it offers, and leaves every other cell alone. */
  lemma SeedingNeverLowers(bests: Bests, key: Key, account: nat, entry: Standing, other: Key, someone: nat)
    ensures var before, after := At(bests, other, someone), At(Seeded(bests, key, account, entry), other, someone);
            && (before.Some? ==> after.Some? && after.value.value >= before.value.value)
            && ((other, someone) != (key, account) ==> after == before)
            && ((other, someone) == (key, account) ==>
                  && after.Some? && after.value.value >= entry.value
                  && (after == Some(entry) || after == before))
  {
  }

  // --- The boards in the fields of the runs ----------------------------------

  /** Run i is a success of this account at this node, with this hero and party size. */
  predicate ClearedAs(runs: seq<FinishedRun>, i: nat, account: nat, node: int, hero: int, party: int) {
    && i < |runs| && runs[i].account == account && runs[i].success
    && runs[i].node == node && runs[i].hero == hero && runs[i].party == party
  }

  predicate RanBy(runs: seq<FinishedRun>, i: nat, account: nat) {
    i < |runs| && runs[i].account == account
  }

  predicate WonBy(runs: seq<FinishedRun>, i: nat, account: nat) {
    RanBy(runs, i, account) && runs[i].success
  }

  /** The standing shows the run it comes from: when it finished, under what name, with which trophies and hero. */
  predicate Shows(row: Standing, run: FinishedRun) {
    row == Standing(row.value, run.finishedAt, run.name, run.trophies, run.hero)
  }

  /** A speedrun standing is the least time of the account's successes there, shown with the first run that took it. */
  lemma SpeedrunIsLeastTime(runs: seq<FinishedRun>, account: nat, node: int, hero: int, party: int)
    ensures match At(Fold(map[], runs), NodeKey(node, hero, party), account)
            case None => forall i: nat :: !ClearedAs(runs, i, account, node, hero, party)
            case Some(row) => exists i: nat ::
              && ClearedAs(runs, i, account, node, hero, party)
              && row.value == runs[i].durationMs && Shows(row, runs[i])
              && (forall j: nat :: ClearedAs(runs, j, account, node, hero, party) ==>
                    runs[i].durationMs <= runs[j].durationMs && (j < i ==> runs[i].durationMs < runs[j].durationMs))
  {
    var key := NodeKey(node, hero, party);
    FoldIsAggregate(runs, key, account);
    assert forall i: nat | i < |runs| :: ClearedAs(runs, i, account, node, hero, party)
                                         <==> Relevant(runs[i], key, account);
    var s := At(Fold(map[], runs), key, account);
    if s.Some? {
      var i: nat :| FirstBest(runs, key, account, i) && s.value == StandingOf(runs[i], ValueFor(Speedrun, runs[i]));
      assert ClearedAs(runs, i, account, node, hero, party);
    }
  }

  /** The hero board shows the greatest experience of any run of the account, won or lost, and the first that had it. */
  lemma ExperienceIsGreatest(runs: seq<FinishedRun>, account: nat)
    ensures match At(Fold(map[], runs), PlayerKey(HeroExperience), account)
            case None => forall i: nat :: !RanBy(runs, i, account)
            case Some(row) => exists i: nat ::
              && RanBy(runs, i, account) && row.value == runs[i].heroXp && Shows(row, runs[i])
              && (forall j: nat :: RanBy(runs, j, account) ==>
                    runs[j].heroXp <= runs[i].heroXp && (j < i ==> runs[j].heroXp < runs[i].heroXp))
  {
    var key := PlayerKey(HeroExperience);
    FoldIsAggregate(runs, key, account);
    assert forall i: nat | i < |runs| :: RanBy(runs, i, account) <==> Relevant(runs[i], key, account);
    var s := At(Fold(map[], runs), key, account);
    if s.Some? {
      var i: nat :| FirstBest(runs, key, account, i)
                    && s.value == StandingOf(runs[i], ValueFor(HeroExperience, runs[i]));
      assert RanBy(runs, i, account);
    }
  }

  /** So does the trophy board with trophies. */
  lemma TrophiesAreGreatest(runs: seq<FinishedRun>, account: nat)
    ensures match At(Fold(map[], runs), PlayerKey(Trophies), account)
            case None => forall i: nat :: !RanBy(runs, i, account)
            case Some(row) => exists i: nat ::
              && RanBy(runs, i, account) && row.value == runs[i].trophies && Shows(row, runs[i])
              && (forall j: nat :: RanBy(runs, j, account) ==>
                    runs[j].trophies <= runs[i].trophies && (j < i ==> runs[j].trophies < runs[i].trophies))
  {
    var key := PlayerKey(Trophies);
    FoldIsAggregate(runs, key, account);
    assert forall i: nat | i < |runs| :: RanBy(runs, i, account) <==> Relevant(runs[i], key, account);
    var s := At(Fold(map[], runs), key, account);
    if s.Some? {
      var i: nat :| FirstBest(runs, key, account, i) && s.value == StandingOf(runs[i], ValueFor(Trophies, runs[i]));
      assert RanBy(runs, i, account);
    }
  }

  /** Which runs the account won. */
  function Wins(runs: seq<FinishedRun>, account: nat): set<nat> {
    set i: nat | i < |runs| && WonBy(runs, i, account)
  }

  lemma {:induction false} WinsAreCounted(runs: seq<FinishedRun>, account: nat)
    ensures CountRelevant(runs, PlayerKey(Clears), account) == |Wins(runs, account)|
  {
    if runs == [] {
    } else {
      var n := |runs| - 1;
      WinsAreCounted(runs[..n], account);
      assert forall i: nat | i < n :: runs[..n][i] == runs[i];
      assert Wins(runs, account) == Wins(runs[..n], account) + if WonBy(runs, n, account) then {n} else {};
      assert n !in Wins(runs[..n], account);
    }
  }

  /** The clears board counts the account's successes, and shows the last of them. */
  lemma ClearsAreWins(runs: seq<FinishedRun>, account: nat)
    ensures match At(Fold(map[], runs), PlayerKey(Clears), account)
            case None => forall i: nat :: !WonBy(runs, i, account)
            case Some(row) =>
              && row.value == |Wins(runs, account)|
              && exists i: nat ::
                   WonBy(runs, i, account) && Shows(row, runs[i]) && forall j: nat :: WonBy(runs, j, account) ==> j <= i
  {
    var key := PlayerKey(Clears);
    FoldIsAggregate(runs, key, account);
    WinsAreCounted(runs, account);
    assert forall i: nat | i < |runs| :: WonBy(runs, i, account) <==> Relevant(runs[i], key, account);
    var s := At(Fold(map[], runs), key, account);
    if s.Some? {
      var i: nat :| LastRelevant(runs, key, account, i) && s.value == StandingOf(runs[i], s.value.value);
      assert WonBy(runs, i, account);
    }
  }

  /** What a run puts on which board: a time only if it was won, experience and trophies either way, one more win. */
  lemma EntriesOfARun(run: FinishedRun)
    ensures BoardEntries(run) ==
              {(PlayerKey(HeroExperience), run.heroXp), (PlayerKey(Trophies), run.trophies)}
              + if run.success
                then {(NodeKey(run.node, run.hero, run.party), run.durationMs), (PlayerKey(Clears), 1)} else {}
  {
    assert BOARDS[0] == Speedrun && BOARDS[1] == HeroExperience && BOARDS[2] == Trophies && BOARDS[3] == Clears;
    forall m: Metric
      ensures m in BOARDS && (Counts(m, run) ==> (KeyFor(m, run), ValueFor(m, run)) in BoardEntries(run))
    {
      var at := match m case Speedrun => 0 case HeroExperience => 1 case Trophies => 2 case Clears => 3;
      assert BOARDS[at] == m;
    }
    assert (KeyFor(Speedrun, run), ValueFor(Speedrun, run)) == (NodeKey(run.node, run.hero, run.party), run.durationMs);
    assert (KeyFor(Clears, run), ValueFor(Clears, run)) == (PlayerKey(Clears), 1);
    assert (KeyFor(Trophies, run), ValueFor(Trophies, run)) == (PlayerKey(Trophies), run.trophies);
    assert (KeyFor(HeroExperience, run), ValueFor(HeroExperience, run)) == (PlayerKey(HeroExperience), run.heroXp);
  }

  /** The runs of a batch that are recorded: every rankable one, as often as it is there, and no other. */
  lemma {:induction false} RankableAreRecorded(runs: seq<FinishedRun>, run: FinishedRun)
    ensures multiset(Rankable(runs))[run] == if run.rankable then multiset(runs)[run] else 0
  {
    if runs == [] {
    } else {
      var n := |runs| - 1;
      RankableAreRecorded(runs[..n], run);
      MultisetInit(runs);
    }
  }

  /** They are recorded one after another in the order of the batch; a run that is not rankable changes nothing. */
  lemma RecordingInOrder(runs: seq<FinishedRun>, run: FinishedRun, bests: Bests)
    ensures run.rankable ==> Fold(bests, Rankable(runs + [run])) == FoldRun(Fold(bests, Rankable(runs)), run)
    ensures !run.rankable ==> Fold(bests, Rankable(runs + [run])) == Fold(bests, Rankable(runs))
  {
    RankableLast(runs, run);
    if run.rankable {
      FoldLast(bests, Rankable(runs), run);
    }
  }

  lemma RankableLast(runs: seq<FinishedRun>, run: FinishedRun)
    ensures Rankable(runs + [run]) == if run.rankable then Rankable(runs) + [run] else Rankable(runs)
  {
    assert (runs + [run])[..|runs|] == runs;
  }
}
