// Strikes inside a session, the ladder an account climbs, and the restriction it
// leaves. Times are milliseconds on one clock.
module Sanctions {
  import opened Options

  const HOUR: int := 60 * 60 * 1000
  const SESSION_STRIKES: nat := 3
  const WINDOW: int := 10 * 60 * 1000
  const YEAR_HOURS: nat := 365 * 24
  const LADDER_STEPS: nat := 14
  const DECAY: int := 30 * 24 * HOUR

  // --- Strikes in a session --------------------------------------------------

  datatype Disposition = Observe | RejectOnly | TerminatePattern | OperationalClose

  datatype Answer = Answer(terminate: bool, strikes: nat)

  function InWindow(times: seq<int>, now: int): seq<int> {
    if times == [] then []
    else (if now - times[0] < WINDOW then [times[0]] else []) + InWindow(times[1..], now)
  }

  function StrikesOf(strikes: map<string, seq<int>>, rule: string): seq<int> {
    if rule in strikes then strikes[rule] else []
  }

  /** One violation of a rule that can end a session: what is kept, and whether it ends. */
  function Recorded(kept: seq<int>, now: int): (seq<int>, bool) {
    var recent := InWindow(kept + [now], now);
    if |recent| < SESSION_STRIKES then (recent, false) else ([], true)
  }

  class Session {
    var securityStrikes: map<string, seq<int>>

    constructor ()
      ensures securityStrikes == map[]
    {
      securityStrikes := map[];
    }

    method RecordViolation(disposition: Disposition, rule: string, now: int) returns (answer: Answer)
      modifies this
      ensures !disposition.TerminatePattern? ==> securityStrikes == old(securityStrikes) && answer == Answer(false, 0)
      ensures disposition.TerminatePattern? ==>
                && (StrikesOf(securityStrikes, rule), answer.terminate)
                   == Recorded(StrikesOf(old(securityStrikes), rule), now)
                && answer.strikes == |InWindow(StrikesOf(old(securityStrikes), rule) + [now], now)|
                && forall other :: other != rule ==>
                     StrikesOf(securityStrikes, other) == StrikesOf(old(securityStrikes), other)
    {
      if !disposition.TerminatePattern? { return Answer(false, 0); }
      var recent := InWindow(StrikesOf(securityStrikes, rule) + [now], now);
      if |recent| < SESSION_STRIKES {
        securityStrikes := securityStrikes[rule := recent];
        return Answer(false, |recent|);
      }
      securityStrikes := securityStrikes - {rule};
      return Answer(true, |recent|);
    }
  }

  datatype Violation = Violation(rule: string, at: int)

  /** One rule over a run: what it keeps, and its violations since its last termination. */
  datatype Trace = Trace(kept: seq<int>, since: seq<int>, ended: bool)

  /** Every rule counted by itself: a violation of another leaves this one's count alone. */
  function Follow(t: Trace, rule: string, v: Violation): Trace {
    if v.rule != rule then t.(ended := false)
    else
      var (kept, ends) := Recorded(t.kept, v.at);
      Trace(kept, if ends then [] else t.since + [v.at], ends)
  }

  function FollowAll(rule: string, vs: seq<Violation>): Trace {
    if vs == [] then Trace([], [], false)
    else Follow(FollowAll(rule, vs[..|vs| - 1]), rule, vs[|vs| - 1])
  }

  predicate Forward(vs: seq<Violation>) {
    forall i, j :: 0 <= i < j < |vs| ==> vs[i].at <= vs[j].at
  }

  predicate Sorted(s: seq<int>) {
    forall i, j :: 0 <= i < j < |s| ==> s[i] <= s[j]
  }

  lemma {:induction false} AllInWindow(s: seq<int>, now: int)
    requires forall i :: 0 <= i < |s| ==> now - s[i] < WINDOW
    ensures InWindow(s, now) == s
  {
    if s == [] {
    } else {
      AllInWindow(s[1..], now);
    }
  }

  /** The first k times have left the window, the others are in it. */
  predicate SplitsAt(s: seq<int>, k: nat, now: int) {
    && k <= |s|
    && (forall i :: 0 <= i < k ==> now - s[i] >= WINDOW)
    && (forall i :: k <= i < |s| ==> now - s[i] < WINDOW)
  }

  /** Where times in order split, given that the first lost are known to be out. */
  lemma SplitExists(s: seq<int>, lost: nat, now: int) returns (k: nat)
    requires Sorted(s) && lost <= |s|
    requires forall i :: 0 <= i < lost ==> now - s[i] >= WINDOW
    ensures SplitsAt(s, k, now) && lost <= k
  {
    k := lost;
    while k < |s| && now - s[k] >= WINDOW
      invariant lost <= k <= |s| && forall i :: 0 <= i < k ==> now - s[i] >= WINDOW
    {
      k := k + 1;
    }
  }

  /** Of times in order, the ones in the window are the last ones; what was dropped before stays dropped. */
  lemma {:induction false} WindowIsSuffix(s: seq<int>, lost: nat, k: nat, now: int)
    requires SplitsAt(s, k, now) && lost <= k
    ensures InWindow(s[lost..], now) == s[k..]
    decreases k - lost
  {
    if lost == k {
      AllInWindow(s[k..], now);
    } else {
      assert s[lost..][0] == s[lost] && s[lost..][1..] == s[lost + 1..];
      WindowIsSuffix(s, lost + 1, k, now);
    }
  }

  /** What is kept is all but the first lost of the violations since the last termination, and those are too old. */
  predicate Keeps(t: Trace, lost: nat, now: int) {
    && Sorted(t.since) && (forall i :: 0 <= i < |t.since| ==> t.since[i] <= now)
    && lost <= |t.since| < lost + SESSION_STRIKES
    && t.kept == t.since[lost..]
    && forall i :: 0 <= i < lost ==> now - t.since[i] >= WINDOW
  }

  /** The last three violations since the last termination span under ten minutes. */
  predicate ThreeInWindow(since: seq<int>, now: int) {
    |since| >= 2 && now - since[|since| - 2] < WINDOW
  }

  lemma FollowKeeps(t: Trace, lost: nat, before: int, rule: string, v: Violation) returns (after: nat)
    requires Keeps(t, lost, before) && before <= v.at
    ensures Keeps(Follow(t, rule, v), after, v.at)
    ensures v.rule == rule ==> (Follow(t, rule, v).ended <==> ThreeInWindow(t.since, v.at))
  {
    if v.rule != rule {
      after := lost;
    } else {
      var k := RecordedIsSuffix(t.since, lost, v.at);
      after := if |t.since| + 1 - k < SESSION_STRIKES then k else 0;
    }
  }

  lemma RecordedIsSuffix(since: seq<int>, lost: nat, at: int) returns (k: nat)
    requires Sorted(since) && lost <= |since|
    requires forall i :: 0 <= i < |since| ==> since[i] <= at
    requires forall i :: 0 <= i < lost ==> at - since[i] >= WINDOW
    ensures var all := since + [at];
            && Sorted(all) && SplitsAt(all, k, at)
            && InWindow(since[lost..] + [at], at) == all[k..]
            && (|all| - k >= SESSION_STRIKES <==> ThreeInWindow(since, at))
  {
    var all := since + [at];
    assert forall i :: 0 <= i < |since| ==> all[i] == since[i];
    assert Sorted(all);
    k := SplitExists(all, lost, at);
    assert since[lost..] + [at] == all[lost..];
    WindowIsSuffix(all, lost, k, at);
    SplitIsThird(since, at, k);
  }

  lemma SplitIsThird(since: seq<int>, at: int, k: nat)
    requires Sorted(since) && SplitsAt(since + [at], k, at)
    ensures |since| + 1 - k >= SESSION_STRIKES <==> ThreeInWindow(since, at)
  {
    var all := since + [at];
    assert |since| >= 2 ==> all[|since| - 2] == since[|since| - 2];
  }

  lemma {:induction false} FollowAllKeeps(rule: string, vs: seq<Violation>, now: int) returns (lost: nat)
    requires Forward(vs) && (vs != [] ==> vs[|vs| - 1].at <= now)
    ensures Keeps(FollowAll(rule, vs), lost, now)
  {
    if vs == [] {
      lost := 0;
    } else {
      var last, before := vs[|vs| - 1], vs[..|vs| - 1];
      var mid := FollowAllKeeps(rule, before, last.at);
      lost := FollowKeeps(FollowAll(rule, before), mid, last.at, rule, last);
    }
  }

  /**
   * For times that never go back, whatever other rules are broken in between: a
   * violation ends the session exactly when it and the last two of its rule since
   * that rule's last termination span under ten minutes; and no rule ever keeps
   * more than two times.
   */
  lemma EndsOnThirdInWindow(vs: seq<Violation>, rule: string, at: int)
    requires Forward(vs + [Violation(rule, at)])
    ensures FollowAll(rule, vs + [Violation(rule, at)]).ended <==> ThreeInWindow(FollowAll(rule, vs).since, at)
    ensures |FollowAll(rule, vs + [Violation(rule, at)]).kept| <= 2
  {
    var all := vs + [Violation(rule, at)];
    assert all[..|all| - 1] == vs;
    assert forall i :: 0 <= i < |vs| ==> all[i] == vs[i];
    assert all[|vs|].at == at;
    var lost := FollowAllKeeps(rule, vs, at);
    var _ := FollowKeeps(FollowAll(rule, vs), lost, at, rule, Violation(rule, at));
  }

  // --- The ladder ------------------------------------------------------------

  datatype Sheet = Sheet(step: int, strikes: seq<int>, until: int, lastStrikeAt: int)

  const EMPTY_SHEET := Sheet(0, [], 0, 0)

  function Power2(n: nat): nat {
    if n == 0 then 1 else 2 * Power2(n - 1)
  }

  function LadderHours(step: int): nat {
    var doubled := Power2(if step > 1 then step else 1);
    if doubled < YEAR_HOURS then doubled else YEAR_HOURS
  }

  lemma {:induction false} PowerGrows(m: nat, n: nat)
    requires m <= n
    ensures Power2(m) <= Power2(n)
  {
    if m == n {
    } else {
      PowerGrows(m, n - 1);
    }
  }

  /** The rungs: doubling from two hours, the last of fourteen the first to meet the year. */
  lemma LadderMeetsTheYear(step: int)
    requires 1 <= step
    ensures 2 <= LadderHours(step) <= YEAR_HOURS
    ensures LadderHours(step) == YEAR_HOURS <==> step >= LADDER_STEPS
  {
    assert Power2(3) == 8 && Power2(6) == 64;
    assert Power2(9) == 512;
    assert Power2(12) == 4096;
    assert Power2(13) == 8192 && Power2(14) == 16384;
    PowerGrows(1, step);
    if step >= LADDER_STEPS { PowerGrows(14, step); } else { PowerGrows(step, 13); }
  }

  /** Each rung doubles the hours of the one below, from two, until doubling would pass the year. */
  lemma LadderDoubles(step: int)
    ensures step <= 1 ==> LadderHours(step) == 2
    ensures 1 <= step ==>
              LadderHours(step + 1) == if 2 * LadderHours(step) < YEAR_HOURS then 2 * LadderHours(step) else YEAR_HOURS
  {
    if step <= 1 {
      assert Power2(1) == 2;
    }
  }

  function MaxOf(a: int, b: int): int { if a > b then a else b }

  /** When clean time starts to count: after the last strike and after the suspension it earned. */
  function CleanFrom(sheet: Sheet): int {
    MaxOf(sheet.lastStrikeAt, sheet.until)
  }

  function Decay(sheet: Sheet, now: int): Sheet {
    if sheet.step == 0 then sheet
    else if CleanFrom(sheet) == 0 then sheet
    else
      var clean := (now - CleanFrom(sheet)) / DECAY;
      if clean <= 0 then sheet else sheet.(step := MaxOf(0, sheet.step - clean))
  }

  function Escalated(sheet: Option<Sheet>, now: int): Sheet {
    var decayed := Decay(if sheet.Some? then sheet.value else EMPTY_SHEET, now);
    var step := if decayed.step + 1 < LADDER_STEPS then decayed.step + 1 else LADDER_STEPS;
    Sheet(step, [], now + LadderHours(step) * HOUR, now)
  }

  predicate GoodSheet(sheet: Sheet) {
    0 <= sheet.step <= LADDER_STEPS && (sheet.step > 0 ==> CleanFrom(sheet) > 0)
  }

  /** Clean time starts at the last strike or at the end of the suspension, whichever is later. */
  lemma CleanFromIsLater(sheet: Sheet, now: int)
    ensures now >= CleanFrom(sheet) <==> now >= sheet.lastStrikeAt && now >= sheet.until
  {
  }

  /** How many whole clean periods have passed: none while the suspension is still being served. */
  predicate CleanPeriods(sheet: Sheet, now: int, n: nat) {
    if now < CleanFrom(sheet) then n == 0
    else CleanFrom(sheet) + n * DECAY <= now < CleanFrom(sheet) + (n + 1) * DECAY
  }

  /** Exactly one rung is lost per full clean period, down to none. */
  lemma DecayPerCleanPeriod(sheet: Sheet, now: int, n: nat)
    requires GoodSheet(sheet) && CleanPeriods(sheet, now, n)
    ensures Decay(sheet, now).step == MaxOf(0, sheet.step - n)
  {
    var span := now - CleanFrom(sheet);
    if span >= 0 {
      Quotient(span, n);
    } else {
      assert span / DECAY <= 0;
    }
  }

  lemma Quotient(span: int, n: nat)
    requires n * DECAY <= span < (n + 1) * DECAY
    ensures span / DECAY == n
  {
  }

  /** One rung up from where the clean months left it, within the ladder, and out until that rung ends. */
  lemma EscalateClimbsOne(sheet: Sheet, now: int, n: nat)
    requires GoodSheet(sheet) && CleanPeriods(sheet, now, n) && now > 0
    ensures var after := Escalated(Some(sheet), now);
            && GoodSheet(after) && 1 <= after.step
            && after.step
               == (if MaxOf(0, sheet.step - n) + 1 < LADDER_STEPS then MaxOf(0, sheet.step - n) + 1 else LADDER_STEPS)
            && after.until == now + LadderHours(after.step) * HOUR && after.until > now
            && (now < sheet.until ==> after.step >= sheet.step)
  {
    DecayPerCleanPeriod(sheet, now, n);
    LadderMeetsTheYear(Escalated(Some(sheet), now).step);
  }

  // --- Strikes on the sheet --------------------------------------------------

  datatype Struck = Struck(record: Sheet, suspended: bool)

  /** A strike on the account's own sheet: the same window, and the third one climbs. */
  function Strike(sheet: Sheet, sanctionable: bool, now: int): Struck {
    var decayed := Decay(sheet, now);
    var (recent, tips) := Recorded(decayed.strikes, now);
    if !sanctionable then Struck(sheet, false)
    else if !tips then Struck(decayed.(strikes := recent, lastStrikeAt := now), false)
    else
      var step := if decayed.step + 1 < LADDER_STEPS then decayed.step + 1 else LADDER_STEPS;
      Struck(Sheet(step, [], now + LadderHours(step) * HOUR, now), true)
  }

  /**
   * A strike that is not the third: the clean months since come off the rung, no
   * suspension is added or shortened, and clean time starts again at the strike, which
   * is the last one kept. What is not sanctionable leaves the sheet as it was.
   */
  lemma StrikeBelowThird(sheet: Sheet, now: int, n: nat)
    requires GoodSheet(sheet) && CleanPeriods(sheet, now, n)
    ensures Strike(sheet, false, now) == Struck(sheet, false)
    ensures var s := Strike(sheet, true, now);
            !s.suspended ==>
              && s.record.step == MaxOf(0, sheet.step - n)
              && s.record.until == sheet.until && s.record.lastStrikeAt == now
              && s.record.strikes != [] && s.record.strikes[|s.record.strikes| - 1] == now
              && |s.record.strikes| <= |sheet.strikes| + 1
  {
    DecayPerCleanPeriod(sheet, now, n);
    LastInWindow(sheet.strikes, now);
  }

  lemma {:induction false} LastInWindow(times: seq<int>, now: int)
    ensures InWindow(times + [now], now) != []
    ensures InWindow(times + [now], now)[|InWindow(times + [now], now)| - 1] == now
    ensures |InWindow(times + [now], now)| <= |times| + 1
  {
    if times == [] {
      assert [now][1..] == [];
    } else {
      LastInWindow(times[1..], now);
      assert (times + [now])[1..] == times[1..] + [now];
    }
  }

  function StrikeAll(times: seq<int>): Struck {
    if times == [] then Struck(EMPTY_SHEET, false)
    else Strike(StrikeAll(times[..|times| - 1]).record, true, times[|times| - 1])
  }

  /** The strikes as violations of one rule. */
  function AsViolations(rule: string, times: seq<int>): seq<Violation> {
    seq(|times|, i requires 0 <= i < |times| => Violation(rule, times[i]))
  }

  /** The sheet counts strikes as a session counts violations, decay and suspensions or not. */
  lemma {:induction false} SheetCountsLikeSession(rule: string, times: seq<int>)
    ensures var t := FollowAll(rule, AsViolations(rule, times));
            var s := StrikeAll(times);
            s.record.strikes == t.kept && s.suspended == t.ended
  {
    if times == [] {
    } else {
      var before := times[..|times| - 1];
      SheetCountsLikeSession(rule, before);
      var all := AsViolations(rule, times);
      assert all[..|all| - 1] == AsViolations(rule, before);
    }
  }

  /**
   * A strike suspends exactly when it and the last two since the last suspension
   * span under ten minutes; and it then leaves exactly the sheet escalating does.
   */
  lemma StrikeSuspendsOnThird(rule: string, times: seq<int>, now: int)
    requires Sorted(times + [now])
    ensures var before, after := StrikeAll(times), StrikeAll(times + [now]);
            && (after.suspended <==> ThreeInWindow(FollowAll(rule, AsViolations(rule, times)).since, now))
            && |after.record.strikes| <= 2
            && (after.suspended ==> after.record == Escalated(Some(before.record), now))
  {
    var all := times + [now];
    assert all[..|all| - 1] == times;
    assert AsViolations(rule, all) == AsViolations(rule, times) + [Violation(rule, now)];
    SheetCountsLikeSession(rule, all);
    EndsOnThirdInWindow(AsViolations(rule, times), rule, now);
  }

  // --- Restrictions ----------------------------------------------------------

  datatype Restriction = Restriction(until: Option<int>, reason: string, actor: nat, at: int)

  /** The restriction while it is in force; one without an end lasts. */
  function InForce(r: Option<Restriction>, now: int): Option<Restriction> {
    if r.None? then None
    else if r.value.until.None? then r
    else if r.value.until.value > now then r
    else None
  }

  /** Restricted at a later moment, by what the account carries. */
  predicate RestrictedAt(r: Option<Restriction>, moment: int) {
    InForce(r, moment).Some?
  }

  /** One without an end is in force for good; one with an end, until then and no longer. */
  lemma RestrictedUntil(r: Option<Restriction>, moment: int)
    ensures RestrictedAt(r, moment) <==> r.Some? && (r.value.until.Some? ==> moment < r.value.until.value)
  {
  }

  class Account {
    var sanctions: Option<Sheet>
    var restriction: Option<Restriction>

    constructor ()
      ensures sanctions == None && restriction == None
    {
      sanctions, restriction := None, None;
    }

    /** One rung up, and restricted until it ends unless restricted for longer already. */
    method Sanction(rule: string, now: int) returns (kept: bool)
      modifies this
      ensures sanctions == Some(Escalated(old(sanctions), now))
      ensures restriction == Sanctioned(old(restriction), sanctions.value, rule, now)
      ensures kept <==> Outlasts(old(restriction), sanctions.value, now)
    {
      var record := Escalated(sanctions, now);
      sanctions := Some(record);
      kept := Outlasts(restriction, record, now);
      if !kept {
        restriction := Some(Restriction(Some(record.until), "anti-cheat: " + rule, 0, now));
      }
    }
  }

  predicate Outlasts(r: Option<Restriction>, record: Sheet, now: int) {
    var current := InForce(r, now);
    current.Some? && (current.value.until.None? || current.value.until.value >= record.until)
  }

  function Sanctioned(r: Option<Restriction>, record: Sheet, rule: string, now: int): Option<Restriction> {
    if Outlasts(r, record, now) then r
    else Some(Restriction(Some(record.until), "anti-cheat: " + rule, 0, now))
  }

  /**
   * After a sanction the account is restricted at every moment before the rung ends
   * and at every moment it would have been anyway, and at no others: the sanction
   * never shortens a restriction, and never lengthens one beyond the rung.
   */
  lemma SanctionNeverShortens(r: Option<Restriction>, sheet: Option<Sheet>, rule: string, now: int, moment: int)
    requires sheet.Some? ==> GoodSheet(sheet.value)
    requires now <= moment
    ensures var record := Escalated(sheet, now);
            RestrictedAt(Sanctioned(r, record, rule, now), moment) <==>
              moment < record.until || RestrictedAt(r, moment)
  {
  }
}
