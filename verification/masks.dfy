// Map progress packed one bit a node, and the trophies read off the bits.
module Masks {
  import opened Options

  type Mask = seq<bv8>

  /** Bit i of its byte, counted from the top of the byte. */
  function Flag(i: nat): bv8 {
    (1 as bv8) << (7 - i % 8)
  }

  /** A bit past the end of the mask reads as clear. */
  function GetBit(mask: Mask, i: nat): bool {
    i / 8 < |mask| && mask[i / 8] & Flag(i) != 0
  }

  function Padded(mask: Mask, length: nat): Mask {
    if |mask| >= length then mask else mask + seq(length - |mask|, _ => 0)
  }

  function WithBit(mask: Mask, i: nat): Mask {
    var bytes := Padded(mask, i / 8 + 1);
    bytes[i / 8 := bytes[i / 8] | Flag(i)]
  }

  method SetBit(mask: Mask, i: nat) returns (bytes: Mask)
    ensures bytes == WithBit(mask, i)
  {
    bytes := mask;
    var index := i / 8;
    while |bytes| <= index
      invariant bytes == Padded(mask, |bytes|) && |mask| <= |bytes|
      invariant |bytes| == |mask| || |bytes| <= index + 1
    {
      bytes := bytes + [0];
    }
    bytes := bytes[index := bytes[index] | Flag(i)];
  }

  lemma FlagsApart(b: bv8, i: nat, j: nat)
    ensures Flag(i) & Flag(j) != 0 <==> i % 8 == j % 8
    ensures (b | Flag(i)) & Flag(j) != 0 <==> b & Flag(j) != 0 || i % 8 == j % 8
  {
    FlagIsOne(i);
    FlagIsOne(j);
  }

  lemma FlagIsOne(i: nat)
    ensures Flag(i) == match i % 8
                       case 0 => 0x80 case 1 => 0x40 case 2 => 0x20 case 3 => 0x10
                       case 4 => 8 case 5 => 4 case 6 => 2 case _ => 1
  {
  }

  /** Setting a bit changes that bit alone, in a mask of any length. */
  lemma SetChangesOneBit(mask: Mask, i: nat, j: nat)
    ensures GetBit(WithBit(mask, i), j) <==> j == i || GetBit(mask, j)
  {
    if j / 8 == i / 8 {
      FlagsApart(Padded(mask, i / 8 + 1)[i / 8], i, j);
      ZeroHasNoBit(j);
    } else {
      ZeroHasNoBit(j);
    }
  }

  lemma ZeroHasNoBit(j: nat)
    ensures (0 as bv8) & Flag(j) == 0
  {
  }

  /** Two masks of one length are the same when their bits are: packing loses nothing. */
  lemma BitsDetermineMask(a: Mask, b: Mask)
    requires |a| == |b| && forall i: nat :: GetBit(a, i) <==> GetBit(b, i)
    ensures a == b
  {
    forall k | 0 <= k < |a|
      ensures a[k] == b[k]
    {
      forall n: nat | n < 8
        ensures a[k] & Flag(n) != 0 <==> b[k] & Flag(n) != 0
      {
        assert GetBit(a, 8 * k + n) <==> GetBit(b, 8 * k + n);
        assert Flag(8 * k + n) == Flag(n);
      }
      EightBits(a[k], b[k]);
    }
  }

  lemma EightBits(x: bv8, y: bv8)
    requires forall n: nat :: n < 8 ==> (x & Flag(n) != 0 <==> y & Flag(n) != 0)
    ensures x == y
  {
    FlagIsOne(0); FlagIsOne(1); FlagIsOne(2); FlagIsOne(3);
    FlagIsOne(4); FlagIsOne(5); FlagIsOne(6); FlagIsOne(7);
    assert x & 0x80 != 0 <==> y & 0x80 != 0;
    assert x & 0x40 != 0 <==> y & 0x40 != 0;
    assert x & 0x20 != 0 <==> y & 0x20 != 0;
    assert x & 0x10 != 0 <==> y & 0x10 != 0;
    assert x & 8 != 0 <==> y & 8 != 0;
    assert x & 4 != 0 <==> y & 4 != 0;
    assert x & 2 != 0 <==> y & 2 != 0;
    assert x & 1 != 0 <==> y & 1 != 0;
  }

  // --- The union -------------------------------------------------------------

  function Over(a: Mask, b: Mask): (c: Mask)
    ensures |c| == if |a| < |b| then |b| else |a|
  {
    seq(if |a| < |b| then |b| else |a|,
        k requires 0 <= k => (if k < |a| then a[k] else 0) | (if k < |b| then b[k] else 0))
  }

  /** The masks laid over each other on top of bytes. */
  function UnionFrom(bytes: Mask, masks: seq<Mask>): Mask
    decreases |masks|
  {
    if masks == [] then bytes else UnionFrom(Over(bytes, masks[0]), masks[1..])
  }

  method Union(masks: seq<Mask>) returns (bytes: Mask)
    ensures bytes == UnionFrom([], masks)
  {
    bytes := [];
    for m := 0 to |masks|
      invariant UnionFrom(bytes, masks[m..]) == UnionFrom([], masks)
    {
      assert masks[m..][0] == masks[m] && masks[m..][1..] == masks[m + 1..];
      ghost var before := bytes;
      for index := 0 to |masks[m]|
        invariant |bytes| == if |before| < index then index else |before|
        invariant forall k :: 0 <= k < index ==>
                    bytes[k] == (if k < |before| then before[k] else 0) | masks[m][k]
        invariant forall k :: index <= k < |before| ==> bytes[k] == before[k]
      {
        if index < |bytes| {
          bytes := bytes[index := bytes[index] | masks[m][index]];
        } else {
          bytes := bytes + [0 | masks[m][index]];
        }
      }
      OverIs(before, masks[m], bytes);
    }
  }

  lemma OverIs(a: Mask, b: Mask, c: Mask)
    requires |c| == if |a| < |b| then |b| else |a|
    requires forall k :: 0 <= k < |b| ==> c[k] == (if k < |a| then a[k] else 0) | b[k]
    requires forall k :: |b| <= k < |a| ==> c[k] == a[k]
    ensures c == Over(a, b)
  {
  }

  lemma OverHasEither(a: Mask, b: Mask, i: nat)
    ensures GetBit(Over(a, b), i) <==> GetBit(a, i) || GetBit(b, i)
  {
    var x: bv8, y: bv8 := if i / 8 < |a| then a[i / 8] else 0, if i / 8 < |b| then b[i / 8] else 0;
    assert (x | y) & Flag(i) == (x & Flag(i)) | (y & Flag(i));
    ZeroHasNoBit(i);
  }

  ghost predicate Somewhere(masks: seq<Mask>, i: nat) {
    exists m :: 0 <= m < |masks| && GetBit(masks[m], i)
  }

  /** A bit of the union stands exactly when some mask has it. */
  lemma {:induction false} UnionHasAny(bytes: Mask, masks: seq<Mask>, i: nat)
    ensures GetBit(UnionFrom(bytes, masks), i) <==> GetBit(bytes, i) || Somewhere(masks, i)
    decreases |masks|
  {
    if masks == [] {
    } else {
      OverHasEither(bytes, masks[0], i);
      UnionHasAny(Over(bytes, masks[0]), masks[1..], i);
      assert Somewhere(masks, i) <==> GetBit(masks[0], i) || Somewhere(masks[1..], i) by {
        if m :| 1 <= m < |masks| && GetBit(masks[m], i) {
          assert masks[1..][m - 1] == masks[m];
        }
      }
    }
  }

  // --- Trophies --------------------------------------------------------------

  function Won(mask: Mask, bosses: set<nat>): set<nat> {
    set b | b in bosses && GetBit(mask, b)
  }

  method TrophiesFor(mask: Mask, bosses: set<nat>) returns (total: nat)
    ensures total == |Won(mask, bosses)|
  {
    total := 0;
    var rest := bosses;
    while rest != {}
      invariant rest <= bosses
      invariant total + |Won(mask, rest)| == |Won(mask, bosses)|
    {
      var bit :| bit in rest;
      if GetBit(mask, bit) {
        assert Won(mask, rest) == Won(mask, rest - {bit}) + {bit};
        total := total + 1;
      } else {
        assert Won(mask, rest) == Won(mask, rest - {bit});
      }
      rest := rest - {bit};
    }
    assert Won(mask, {}) == {};
  }

  /** An account: its own mask, its heroes' masks, and the running trophy column. */
  datatype Account = Account(mask: Mask, heroes: seq<Mask>, trophies: int)

  function Trophies(a: Account, bosses: set<nat>): nat {
    |Won(UnionFrom([], [a.mask] + a.heroes), bosses)|
  }

  ghost predicate Earned(a: Account, bit: nat) {
    GetBit(a.mask, bit) || Somewhere(a.heroes, bit)
  }

  /** What clearing a node writes: both masks, and a trophy when the account's own mask lacked a boss's bit. */
  function Cleared(a: Account, hero: Option<nat>, bit: nat, bosses: set<nat>): Account {
    Account(
      WithBit(a.mask, bit),
      if hero.Some? && hero.value < |a.heroes|
      then a.heroes[hero.value := WithBit(a.heroes[hero.value], bit)] else a.heroes,
      a.trophies + if !GetBit(a.mask, bit) && bit in bosses then 1 else 0)
  }

  class LiveAccount {
    var mask: Mask
    var heroes: seq<Mask>
    var trophies: int

    constructor (a: Account)
      ensures Row() == a
    {
      mask, heroes, trophies := a.mask, a.heroes, a.trophies;
    }

    function Row(): Account
      reads this
    {
      Account(mask, heroes, trophies)
    }

    method Clear(hero: Option<nat>, bit: nat, bosses: set<nat>) returns (firstClear: bool)
      modifies this
      ensures firstClear == !GetBit(old(mask), bit)
      ensures Row() == Cleared(old(Row()), hero, bit, bosses)
    {
      firstClear := !GetBit(mask, bit);
      if firstClear && bit in bosses {
        trophies := trophies + 1;
      }
      mask := SetBit(mask, bit);
      if hero.Some? && hero.value < |heroes| {
        var heroMask := SetBit(heroes[hero.value], bit);
        heroes := heroes[hero.value := heroMask];
      }
    }

    /** The load-time repair: the column is what the union says. */
    method RepairTrophyCount(bosses: set<nat>) returns (changed: bool)
      modifies this`trophies
      ensures Row() == old(Row()).(trophies := Trophies(old(Row()), bosses))
      ensures changed <==> Row() != old(Row())
    {
      var union := Union([mask] + heroes);
      var total := TrophiesFor(union, bosses);
      changed := trophies != total;
      trophies := total;
    }
  }

  lemma UnionIsEarned(a: Account, bit: nat)
    ensures GetBit(UnionFrom([], [a.mask] + a.heroes), bit) <==> Earned(a, bit)
  {
    var masks := [a.mask] + a.heroes;
    UnionHasAny([], masks, bit);
    if m :| 0 <= m < |a.heroes| && GetBit(a.heroes[m], bit) {
      assert masks[m + 1] == a.heroes[m];
    }
    assert masks[0] == a.mask;
  }

  lemma ClearEarnsOneBit(a: Account, hero: Option<nat>, bit: nat, bosses: set<nat>, b: nat)
    ensures Earned(Cleared(a, hero, bit, bosses), b) <==> b == bit || Earned(a, b)
  {
    var after := Cleared(a, hero, bit, bosses);
    SetChangesOneBit(a.mask, bit, b);
    forall m | 0 <= m < |a.heroes|
      ensures GetBit(a.heroes[m], b) ==> GetBit(after.heroes[m], b)
      ensures GetBit(after.heroes[m], b) ==> b == bit || GetBit(a.heroes[m], b)
    {
      SetChangesOneBit(a.heroes[m], bit, b);
    }
  }

  ghost predicate Fresh(a: Account, bit: nat, bosses: set<nat>) {
    bit in bosses && !Earned(a, bit)
  }

  /** A boss's first clear by any hero is one trophy more on the union; a repeat, or another node, is none. */
  lemma ClearCountsOnce(a: Account, hero: Option<nat>, bit: nat, bosses: set<nat>)
    ensures Trophies(Cleared(a, hero, bit, bosses), bosses)
         == Trophies(a, bosses) + if Fresh(a, bit, bosses) then 1 else 0
  {
    var after := Cleared(a, hero, bit, bosses);
    var was := Won(UnionFrom([], [a.mask] + a.heroes), bosses);
    var now := Won(UnionFrom([], [after.mask] + after.heroes), bosses);
    forall b | b in bosses
      ensures b in was <==> Earned(a, b)
      ensures b in now <==> b == bit || Earned(a, b)
    {
      UnionIsEarned(a, b);
      UnionIsEarned(after, b);
      ClearEarnsOneBit(a, hero, bit, bosses, b);
    }
    assert now == was + if Fresh(a, bit, bosses) then {bit} else {};
  }

  /**
   * The column is paid off the account's own mask, the count is read off the union.
   * A right column stays right through a clear unless the boss was beaten on a
   * hero's mask and is missing from the account's.
   */
  lemma ColumnStaysRightIff(a: Account, hero: Option<nat>, bit: nat, bosses: set<nat>)
    requires a.trophies == Trophies(a, bosses)
    ensures var after := Cleared(a, hero, bit, bosses);
            after.trophies == Trophies(after, bosses) <==>
              !(bit in bosses && Somewhere(a.heroes, bit) && !GetBit(a.mask, bit))
  {
    ClearCountsOnce(a, hero, bit, bosses);
  }

  /** A magic word opens a node on one hero's mask and on nothing else. */
  function Unlocked(a: Account, hero: nat, bit: nat): Account
    requires hero < |a.heroes|
  {
    a.(heroes := a.heroes[hero := WithBit(a.heroes[hero], bit)])
  }

  function Recounted(a: Account, bosses: set<nat>): Account {
    a.(trophies := Trophies(a, bosses))
  }

  /**
   * A boss unlocked by a magic word is counted at the next load and paid again at the
   * first clear: from an empty account whose column is right to one that is one over.
   */
  lemma PaidForAnUnlockedBoss(boss: nat)
    ensures var a := Account([], [[]], 0);
            var unlocked := Recounted(Unlocked(a, 0, boss), {boss});
            var after := Cleared(unlocked, Some(0), boss, {boss});
            && a == Recounted(a, {boss}) && unlocked.trophies == 1
            && after.trophies == 2 && Trophies(after, {boss}) == 1
  {
    var a := Account([], [[]], 0);
    var mask := WithBit([], boss);
    var unlocked := Unlocked(a, 0, boss);
    SetChangesOneBit([], boss, boss);
    assert unlocked.heroes == [mask] && unlocked.heroes[0] == mask;
    UnionIsEarned(a, boss);
    UnionIsEarned(unlocked, boss);
    assert Won(UnionFrom([], [a.mask] + a.heroes), {boss}) == {};
    assert Won(UnionFrom([], [unlocked.mask] + unlocked.heroes), {boss}) == {boss};
    ClearCountsOnce(Recounted(unlocked, {boss}), Some(0), boss, {boss});
  }

  /** The account's mask has every bit a hero's has. */
  ghost predicate Covers(a: Account) {
    forall b: nat :: Somewhere(a.heroes, b) ==> GetBit(a.mask, b)
  }

  lemma ClearKeepsCover(a: Account, hero: Option<nat>, bit: nat, bosses: set<nat>)
    requires Covers(a)
    ensures Covers(Cleared(a, hero, bit, bosses))
  {
    forall b: nat | Somewhere(Cleared(a, hero, bit, bosses).heroes, b)
      ensures GetBit(WithBit(a.mask, bit), b)
    {
      ClearEarnsOneBit(a, hero, bit, bosses, b);
      SetChangesOneBit(a.mask, bit, b);
    }
  }

  datatype Clearing = Clearing(hero: Option<nat>, bit: nat)

  function Play(a: Account, clears: seq<Clearing>, bosses: set<nat>): Account
    decreases |clears|
  {
    if clears == [] then a else Play(Cleared(a, clears[0].hero, clears[0].bit, bosses), clears[1..], bosses)
  }

  ghost predicate ClearedIn(clears: seq<Clearing>, bit: nat) {
    exists k :: 0 <= k < |clears| && clears[k].bit == bit
  }

  /** Whatever is cleared, by whichever heroes and however often, the column is the count of the union. */
  lemma {:induction false} ColumnIsTheCount(a: Account, clears: seq<Clearing>, bosses: set<nat>)
    requires Covers(a) && a.trophies == Trophies(a, bosses)
    ensures var after := Play(a, clears, bosses);
            Covers(after) && after.trophies == Trophies(after, bosses)
    decreases |clears|
  {
    if clears == [] {
    } else {
      ClearKeepsCover(a, clears[0].hero, clears[0].bit, bosses);
      ColumnStaysRightIff(a, clears[0].hero, clears[0].bit, bosses);
      ColumnIsTheCount(Cleared(a, clears[0].hero, clears[0].bit, bosses), clears[1..], bosses);
    }
  }

  lemma {:induction false} PlayEarns(a: Account, clears: seq<Clearing>, bosses: set<nat>, bit: nat)
    ensures Earned(Play(a, clears, bosses), bit) <==> Earned(a, bit) || ClearedIn(clears, bit)
    decreases |clears|
  {
    if clears == [] {
    } else {
      ClearEarnsOneBit(a, clears[0].hero, clears[0].bit, bosses, bit);
      PlayEarns(Cleared(a, clears[0].hero, clears[0].bit, bosses), clears[1..], bosses, bit);
      if k :| 1 <= k < |clears| && clears[k].bit == bit {
        assert clears[1..][k - 1] == clears[k];
      }
    }
  }

  /** The trophies after a run: the bosses earned before it or beaten in it, whoever beat them and in whatever order. */
  lemma TrophiesAreBossesBeaten(a: Account, clears: seq<Clearing>, bosses: set<nat>)
    ensures Trophies(Play(a, clears, bosses), bosses) == |set b | b in bosses && (Earned(a, b) || ClearedIn(clears, b))|
  {
    var after := Play(a, clears, bosses);
    forall b | b in bosses
      ensures GetBit(UnionFrom([], [after.mask] + after.heroes), b) <==> Earned(a, b) || ClearedIn(clears, b)
    {
      UnionIsEarned(after, b);
      PlayEarns(a, clears, bosses, b);
    }
    assert Won(UnionFrom([], [after.mask] + after.heroes), bosses)
        == set b | b in bosses && (Earned(a, b) || ClearedIn(clears, b));
  }

  /**
   * What clearing writes: the node's bit and no other on the account's mask and on the
   * mask of the hero that cleared it, nothing on the other heroes', and one trophy
   * exactly when the account's own mask did not have that boss yet.
   */
  lemma ClearWritesBoth(a: Account, hero: nat, bit: nat, bosses: set<nat>, h: nat, b: nat)
    requires h < |a.heroes|
    ensures var after := Cleared(a, Some(hero), bit, bosses);
            && (GetBit(after.mask, b) <==> b == bit || GetBit(a.mask, b))
            && |after.heroes| == |a.heroes|
            && (h != hero ==> after.heroes[h] == a.heroes[h])
            && (h == hero ==> (GetBit(after.heroes[h], b) <==> b == bit || GetBit(a.heroes[h], b)))
            && after.trophies - a.trophies == if bit in bosses && !GetBit(a.mask, bit) then 1 else 0
    ensures Cleared(a, None, bit, bosses) == Cleared(a, Some(hero), bit, bosses).(heroes := a.heroes)
    ensures |WithBit(a.mask, bit)| == if |a.mask| <= bit / 8 then bit / 8 + 1 else |a.mask|
  {
    SetChangesOneBit(a.mask, bit, b);
    SetChangesOneBit(a.heroes[h], bit, b);
  }
}
