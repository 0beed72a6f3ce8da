// Powerups carried in a hero's two slots and kept in the bag: settling the carry
// rule, moving a stack to a slot, taking it off. Counts are whole numbers of any
// sign, as stored rows may hold; `Positive` is how the server reads them.
module Consumables {
  import opened Options
  import opened Sums

  /** A bag row. */
  datatype Row = Row(stackId: int, count: int)

  /** One of the hero's powerup slots; stackId 0 is empty. */
  datatype Slot = Slot(stackId: int, count: int)

  /** What one account has of powerups, as far as one hero is concerned. */
  datatype Kit = Kit(first: Slot, second: Slot, bag: seq<Row>)

  /** What a hero may carry of a stack when the item does not say. */
  const CARRY_LIMIT: nat := 9

  function Positive(n: int): nat {
    if n > 0 then n else 0
  }

  /** The authored limit of each stack, or nothing authored. */
  type Limits = int -> int

  function CarryLimit(limits: Limits, stackId: int): (n: nat)
    ensures n > 0
  {
    if limits(stackId) > 0 then limits(stackId) else CARRY_LIMIT
  }

  function RowWeight(stackId: int): Row -> int {
    (r: Row) => if r.stackId == stackId then Positive(r.count) else 0
  }

  function Carried(s: Slot, stackId: int): nat {
    if s.stackId == stackId then Positive(s.count) else 0
  }

  /** Everything of a stack the account has: both slots and every bag row. */
  function Total(k: Kit, stackId: int): int {
    Carried(k.first, stackId) + Carried(k.second, stackId) + Sum(RowWeight(stackId), k.bag)
  }

  // --- The bag ---------------------------------------------------------------

  function OfStack(stackId: int): Row -> bool {
    (r: Row) => r.stackId == stackId
  }

  /** The count the server reads for a stack in the bag: that of its first row. */
  function Bagged(bag: seq<Row>, stackId: int): nat {
    var i := FirstWhere(OfStack(stackId), bag);
    if i < |bag| then Positive(bag[i].count) else 0
  }

  function WithBagged(bag: seq<Row>, stackId: int, count: int): seq<Row> {
    var i := FirstWhere(OfStack(stackId), bag);
    if count <= 0 then if i < |bag| then bag[..i] + bag[i + 1..] else bag
    else if i < |bag| then bag[i := bag[i].(count := count)]
    else bag + [Row(stackId, count)]
  }

  predicate Held(r: Row) { Positive(r.count) > 0 }

  function Swept(bag: seq<Row>): seq<Row> {
    Filter(Held, bag)
  }

  /** Setting what a stack has in the bag moves that stack's total by the difference, and no other's. */
  lemma BaggedMoves(bag: seq<Row>, stackId: int, count: int, x: int)
    ensures Sum(RowWeight(x), WithBagged(bag, stackId, count)) ==
              Sum(RowWeight(x), bag) + if x == stackId then Positive(count) - Bagged(bag, stackId) else 0
  {
    var i := FirstWhere(OfStack(stackId), bag);
    if i < |bag| {
      SumRemove(RowWeight(x), bag, i);
      SumUpdate(RowWeight(x), bag, i, bag[i].(count := count));
    } else {
      SumAppend(RowWeight(x), bag, Row(stackId, count));
    }
  }

  lemma SweepKeeps(bag: seq<Row>, x: int)
    ensures Sum(RowWeight(x), Swept(bag)) == Sum(RowWeight(x), bag)
  {
    SumFilter(RowWeight(x), Held, bag);
  }

  // --- One slot --------------------------------------------------------------

  datatype Settled = Settled(slot: Slot, bag: seq<Row>)

  /** The carry rule for one slot: as much as may be carried, the rest in the bag. */
  function SettleSlot(limits: Limits, s: Slot, bag: seq<Row>): Settled {
    var stackId := Positive(s.stackId);
    if stackId == 0 then Settled(s.(count := 0), bag)
    else
      var total := Positive(s.count) + Bagged(bag, stackId);
      if total == 0 then Settled(Slot(0, 0), WithBagged(bag, stackId, 0))
      else
        var limit := CarryLimit(limits, stackId);
        var carried := if limit < total then limit else total;
        Settled(s.(count := carried), WithBagged(bag, stackId, total - carried))
  }

  /** A slot naming no stack carries nothing of any real one; stack ids are positive. */
  lemma SettleKeeps(limits: Limits, s: Slot, bag: seq<Row>, x: int)
    requires x > 0
    ensures var r := SettleSlot(limits, s, bag);
            && Carried(r.slot, x) + Sum(RowWeight(x), r.bag) == Carried(s, x) + Sum(RowWeight(x), bag)
            && (s.stackId > 0 && r.slot.stackId > 0 ==> 0 < r.slot.count <= CarryLimit(limits, s.stackId))
  {
    var stackId := Positive(s.stackId);
    if stackId != 0 {
      var total := Positive(s.count) + Bagged(bag, stackId);
      BaggedMoves(bag, stackId, 0, x);
      BaggedMoves(bag, stackId, total - SettleSlot(limits, s, bag).slot.count, x);
    }
  }

  // --- The calls -------------------------------------------------------------

  /** Both slots in order, since they draw from one bag, then the empty rows out. */
  function Reconciled(limits: Limits, k: Kit): Kit {
    var one := SettleSlot(limits, k.first, k.bag);
    var two := SettleSlot(limits, k.second, one.bag);
    Kit(one.slot, two.slot, Swept(two.bag))
  }

  /** The target slot is the second for slot 1, the first for anything else. */
  function Target(k: Kit, slot: int): Slot { if slot == 1 then k.second else k.first }

  function Other(k: Kit, slot: int): Slot { if slot == 1 then k.first else k.second }

  function WithSlots(slot: int, target: Slot, other: Slot, bag: seq<Row>): Kit {
    if slot == 1 then Kit(other, target, bag) else Kit(target, other, bag)
  }

  /** The bag once whatever else the target slot held has gone back to it. */
  function WithDisplaced(bag: seq<Row>, target: Slot, id: int): seq<Row> {
    var displaced := Positive(target.stackId);
    if displaced != 0 && displaced != id
    then WithBagged(bag, displaced, Bagged(bag, displaced) + Positive(target.count)) else bag
  }

  /** The stack in its slot, taken out of the other one, before the rule settles the counts. */
  function Placed(k: Kit, id: int, slot: int): Kit {
    var target, other := Target(k, slot), Other(k, slot);
    WithSlots(slot,
              Slot(id, Carried(other, id) + Carried(target, id)),
              if Carried(other, id) > 0 then Slot(0, 0) else other,
              WithDisplaced(k.bag, target, id))
  }

  /** A stack put in a slot from wherever it is; None when the account has none of it. */
  function Moved(limits: Limits, k: Kit, stackId: int, slot: int): Option<Kit> {
    var id := Positive(stackId);
    if id == 0 then None
    else if Bagged(k.bag, id) == 0 && Carried(Other(k, slot), id) == 0 && Carried(Target(k, slot), id) == 0 then None
    else Some(Reconciled(limits, Placed(k, id, slot)))
  }

  /** Taken off: the whole count to the bag as it is stored, whatever its sign. */
  function Unequipped(k: Kit, slot: int): Kit {
    var s := Target(k, slot);
    var i := FirstWhere(OfStack(s.stackId), k.bag);
    var bag := if s.stackId == 0 || s.count == 0 then k.bag
               else if i < |k.bag| then k.bag[i := k.bag[i].(count := k.bag[i].count + s.count)]
               else k.bag + [Row(s.stackId, s.count)];
    WithSlots(slot, Slot(0, 0), Other(k, slot), bag)
  }

  // --- In place --------------------------------------------------------------

  /** The account's bag and the hero's slot fields, by slot number 1 and 2. */
  class Account {
    var slots: map<int, Slot>
    var bag: seq<Row>

    constructor (k: Kit)
      ensures Valid() && Now() == k
    {
      slots, bag := map[1 := k.first, 2 := k.second], k.bag;
    }

    ghost predicate Valid()
      reads this
    {
      1 in slots && 2 in slots
    }

    function Now(): Kit
      requires Valid()
      reads this
    {
      Kit(slots[1], slots[2], bag)
    }

    method SetBagged(stackId: int, count: int)
      modifies this`bag
      ensures bag == WithBagged(old(bag), stackId, count)
    {
      var index := FirstWhere(OfStack(stackId), bag);
      if count <= 0 {
        if index < |bag| { bag := bag[..index] + bag[index + 1..]; }
        return;
      }
      if index < |bag| {
        bag := bag[index := bag[index].(count := count)];
        return;
      }
      bag := bag + [Row(stackId, count)];
    }

    method Reconcile(limits: Limits)
      requires Valid()
      modifies this
      ensures Valid() && Now() == Reconciled(limits, old(Now()))
    {
      ghost var one := SettleSlot(limits, slots[1], bag);
      ghost var two := SettleSlot(limits, slots[2], one.bag);
      for slot := 1 to 3
        invariant Valid()
        invariant slot == 1 ==> slots == old(slots) && bag == old(bag)
        invariant slot == 2 ==> slots[1] == one.slot && slots[2] == old(slots[2]) && bag == one.bag
        invariant slot == 3 ==> slots[1] == one.slot && slots[2] == two.slot && bag == two.bag
      {
        Settle(limits, slot);
      }
      bag := Swept(bag);
    }

    /** One turn of the loop: one slot. */
    method Settle(limits: Limits, slot: int)
      requires slot in slots
      modifies this
      ensures var r := SettleSlot(limits, old(slots[slot]), old(bag));
              slots == old(slots)[slot := r.slot] && bag == r.bag
    {
      var stackId := Positive(slots[slot].stackId);
      if stackId == 0 {
        slots := slots[slot := slots[slot].(count := 0)];
        return;
      }
      var total := Positive(slots[slot].count) + Bagged(bag, stackId);
      if total == 0 {
        slots := slots[slot := Slot(0, 0)];
        SetBagged(stackId, 0);
        return;
      }
      var limit := CarryLimit(limits, stackId);
      var carried := if limit < total then limit else total;
      slots := slots[slot := slots[slot].(count := carried)];
      SetBagged(stackId, total - carried);
    }

    method MoveToSlot(limits: Limits, stackId: int, slot: int) returns (moved: bool)
      requires Valid()
      modifies this
      ensures Valid()
      ensures match Moved(limits, old(Now()), stackId, slot)
              case Some(k) => moved && Now() == k
              case None => !moved && Now() == old(Now())
    {
      var id := Positive(stackId);
      if id == 0 { return false; }
      var target := if slot == 1 then 2 else 1;
      var other := if slot == 1 then 1 else 2;
      var inBag := Bagged(bag, id);
      var inOther := if slots[other].stackId == id then Positive(slots[other].count) else 0;
      var inTarget := if slots[target].stackId == id then Positive(slots[target].count) else 0;
      if inBag == 0 && inOther == 0 && inTarget == 0 { return false; }
      Place(id, slot);
      Reconcile(limits);
      return true;
    }

    /** Puts the stack in its slot, whatever that displaces, counts still to be settled. */
    method Place(id: int, slot: int)
      requires Valid() && id > 0
      modifies this
      ensures Valid() && Now() == Placed(old(Now()), id, slot)
    {
      var target := if slot == 1 then 2 else 1;
      var other := if slot == 1 then 1 else 2;
      var inOther := if slots[other].stackId == id then Positive(slots[other].count) else 0;
      var inTarget := if slots[target].stackId == id then Positive(slots[target].count) else 0;
      var displaced := Positive(slots[target].stackId);
      if displaced != 0 && displaced != id {
        SetBagged(displaced, Bagged(bag, displaced) + Positive(slots[target].count));
      }
      if inOther > 0 {
        slots := slots[other := Slot(0, 0)];
      }
      slots := slots[target := Slot(id, inOther + inTarget)];
      ghost var was := old(Now());
      assert bag == WithDisplaced(was.bag, Target(was, slot), id);
      assert slots[other] == if Carried(Other(was, slot), id) > 0 then Slot(0, 0) else Other(was, slot);
    }

    method Unequip(slot: int)
      requires Valid()
      modifies this
      ensures Valid() && Now() == Unequipped(old(Now()), slot)
    {
      var target := if slot == 1 then 2 else 1;
      var s := slots[target];
      if s.stackId != 0 && s.count != 0 {
        var i := FirstWhere(OfStack(s.stackId), bag);
        if i < |bag| {
          bag := bag[i := bag[i].(count := bag[i].count + s.count)];
        } else {
          bag := bag + [Row(s.stackId, s.count)];
        }
      }
      slots := slots[target := Slot(0, 0)];
    }
  }

  // --- Conservation ----------------------------------------------------------

  predicate NoEmptyRows(bag: seq<Row>) {
    forall r :: r in bag ==> r.count > 0
  }

  predicate WithinLimit(limits: Limits, s: Slot) {
    s.stackId > 0 ==> s.count <= CarryLimit(limits, s.stackId)
  }

  /** The carry rule moves powerups and makes none: also when one stack is in both slots, or in several rows. */
  lemma ReconcileConserves(limits: Limits, k: Kit, x: int)
    requires x > 0
    ensures var r := Reconciled(limits, k);
            && Total(r, x) == Total(k, x)
            && NoEmptyRows(r.bag) && WithinLimit(limits, r.first) && WithinLimit(limits, r.second)
  {
    var one := SettleSlot(limits, k.first, k.bag);
    var two := SettleSlot(limits, k.second, one.bag);
    SettleKeeps(limits, k.first, k.bag, x);
    SettleKeeps(limits, k.second, one.bag, x);
    SweepKeeps(two.bag, x);
    FilterMembers(Held, two.bag);
  }

  lemma PlacedConserves(k: Kit, id: int, slot: int, x: int)
    requires id > 0 && x > 0
    ensures Total(Placed(k, id, slot), x) == Total(k, x)
  {
    var target := Target(k, slot);
    var displaced := Positive(target.stackId);
    BaggedMoves(k.bag, displaced, Bagged(k.bag, displaced) + Positive(target.count), x);
  }

  /** Moving a stack, displacing another if need be, loses and makes nothing of any stack. */
  lemma MoveConserves(limits: Limits, k: Kit, stackId: int, slot: int, x: int)
    requires x > 0 && Moved(limits, k, stackId, slot).Some?
    ensures var r := Moved(limits, k, stackId, slot).value;
            && Total(r, x) == Total(k, x)
            && NoEmptyRows(r.bag) && WithinLimit(limits, r.first) && WithinLimit(limits, r.second)
  {
    PlacedConserves(k, stackId, slot, x);
    ReconcileConserves(limits, Placed(k, stackId, slot), x);
  }

  predicate OppositeSigns(a: int, b: int) {
    (a < 0 < b) || (b < 0 < a)
  }

  /**
   * Taking a stack off adds the stored counts as they are: nothing is lost or made
   * exactly when the slot and the bag row it merges into are not of opposite sign.
   */
  lemma UnequipConservesIff(k: Kit, slot: int)
    ensures (forall x :: x > 0 ==> Total(Unequipped(k, slot), x) == Total(k, x)) <==>
              var s := Target(k, slot);
              var i := FirstWhere(OfStack(s.stackId), k.bag);
              s.stackId > 0 && i < |k.bag| ==> !OppositeSigns(s.count, k.bag[i].count)
    ensures Target(Unequipped(k, slot), slot) == Slot(0, 0) && Other(Unequipped(k, slot), slot) == Other(k, slot)
  {
    var s := Target(k, slot);
    var i := FirstWhere(OfStack(s.stackId), k.bag);
    var r := Unequipped(k, slot);
    forall x | x > 0
      ensures Total(r, x) - Total(k, x) ==
                if x == s.stackId && i < |k.bag|
                then Positive(k.bag[i].count + s.count) - Positive(k.bag[i].count) - Positive(s.count) else 0
    {
      if s.stackId != 0 && s.count != 0 {
        if i < |k.bag| {
          SumUpdate(RowWeight(x), k.bag, i, k.bag[i].(count := k.bag[i].count + s.count));
        } else {
          SumAppend(RowWeight(x), k.bag, Row(s.stackId, s.count));
        }
      }
    }
    if s.stackId > 0 && i < |k.bag| && OppositeSigns(s.count, k.bag[i].count) {
      assert Total(r, s.stackId) != Total(k, s.stackId);
    }
  }

  // --- One row per stack -----------------------------------------------------

  predicate OneRowEach(bag: seq<Row>) {
    forall i, j :: 0 <= i < j < |bag| ==> bag[i].stackId != bag[j].stackId
  }

  lemma {:induction false} BaggedIsAll(bag: seq<Row>, x: int)
    requires OneRowEach(bag)
    ensures Bagged(bag, x) == Sum(RowWeight(x), bag)
  {
    if bag == [] {
    } else {
      if bag[0].stackId == x {
        forall r | r in bag[1..] ensures RowWeight(x)(r) == 0 {}
        SumOfNothing(RowWeight(x), bag[1..]);
      } else {
        BaggedIsAll(bag[1..], x);
      }
    }
  }

  lemma {:induction false} SumOfNothing<T>(f: T -> int, s: seq<T>)
    requires forall x :: x in s ==> f(x) == 0
    ensures Sum(f, s) == 0
  {
    if s == [] {
    } else {
      assert forall x :: x in s[1..] ==> x in s;
      SumOfNothing(f, s[1..]);
    }
  }

  lemma {:induction false} SweptKeepsOneRowEach(bag: seq<Row>)
    requires OneRowEach(bag)
    ensures OneRowEach(Swept(bag))
  {
    if bag == [] {
    } else {
      SweptKeepsOneRowEach(bag[1..]);
      FilterMembers(Held, bag[1..]);
      var rest := Swept(bag[1..]);
      forall j | 0 <= j < |rest|
        ensures rest[j].stackId != bag[0].stackId
      {
        assert rest[j] in rest && rest[j] in bag[1..];
      }
    }
  }

  lemma SettleKeepsOneRowEach(limits: Limits, s: Slot, bag: seq<Row>)
    requires OneRowEach(bag)
    ensures OneRowEach(SettleSlot(limits, s, bag).bag)
  {
  }

  predicate DistinctStacks(k: Kit) {
    k.first.stackId > 0 ==> k.first.stackId != k.second.stackId
  }

  function Min(a: int, b: int): int { if a < b then a else b }

  /** carried = min(limit, total), or the slot is free because there is none of it. */
  predicate CarriesTheRule(limits: Limits, k: Kit, before: Slot, after: Slot) {
    if before.stackId <= 0 then after == before.(count := 0)
    else if Total(k, before.stackId) == 0 then after == Slot(0, 0)
    else after == Slot(before.stackId, Min(CarryLimit(limits, before.stackId), Total(k, before.stackId)))
  }

  /** Settling one stack does not change what is read of another. */
  lemma SettleLeavesOthers(limits: Limits, s: Slot, bag: seq<Row>, x: int)
    requires x > 0 && s.stackId != x
    ensures Sum(RowWeight(x), SettleSlot(limits, s, bag).bag) == Sum(RowWeight(x), bag)
  {
    SettleKeeps(limits, s, bag, x);
  }

  lemma CarryRule(limits: Limits, k: Kit)
    requires OneRowEach(k.bag) && DistinctStacks(k)
    ensures var r := Reconciled(limits, k);
            && CarriesTheRule(limits, k, k.first, r.first) && CarriesTheRule(limits, k, k.second, r.second)
            && OneRowEach(r.bag)
  {
    var one := SettleSlot(limits, k.first, k.bag);
    var two := SettleSlot(limits, k.second, one.bag);
    SettleKeepsOneRowEach(limits, k.first, k.bag);
    SettleKeepsOneRowEach(limits, k.second, one.bag);
    SweptKeepsOneRowEach(two.bag);
    BaggedIsAll(k.bag, k.first.stackId);
    BaggedIsAll(one.bag, k.second.stackId);
    if k.second.stackId > 0 {
      SettleLeavesOthers(limits, k.first, k.bag, k.second.stackId);
    }
  }

  /** A slot that carries what the rule says is left as it is, bag and all. */
  predicate AtRest(limits: Limits, s: Slot, bag: seq<Row>) {
    if s.stackId <= 0 then s.count == 0
    else s.count > 0 && s.count == Min(CarryLimit(limits, s.stackId), s.count + Bagged(bag, s.stackId))
  }

  lemma SettleAgain(limits: Limits, s: Slot, bag: seq<Row>)
    requires NoEmptyRows(bag) && AtRest(limits, s, bag)
    ensures SettleSlot(limits, s, bag) == Settled(s, bag)
  {
    if s.stackId > 0 {
      var i := FirstWhere(OfStack(s.stackId), bag);
      if i < |bag| {
        assert bag[i] in bag;
        assert bag[i := bag[i]] == bag;
      }
    }
  }

  lemma SweepAgain(bag: seq<Row>)
    requires NoEmptyRows(bag)
    ensures Swept(bag) == bag
  {
    FilterAll(Held, bag);
  }

  /** With distinct stacks in the slots and one row per stack, reconciling twice is reconciling once. */
  lemma ReconcileIdempotent(limits: Limits, k: Kit)
    requires OneRowEach(k.bag) && DistinctStacks(k)
    ensures Reconciled(limits, Reconciled(limits, k)) == Reconciled(limits, k)
  {
    TwiceIsOnceIff(limits, k);
  }

  lemma SweptHasNoEmptyRows(limits: Limits, k: Kit)
    ensures NoEmptyRows(Reconciled(limits, k).bag)
  {
    ReconcileConserves(limits, k, 1);
  }

  /** For every kit: reconciling changes nothing exactly when no bag row is empty and both slots carry by the rule. */
  lemma ChangesNothingIff(limits: Limits, k: Kit)
    ensures Reconciled(limits, k) == k <==>
              NoEmptyRows(k.bag) && AtRest(limits, k.first, k.bag) && AtRest(limits, k.second, k.bag)
  {
    if NoEmptyRows(k.bag) {
      SweepAgain(k.bag);
      if AtRest(limits, k.first, k.bag) {
        SettleAgain(limits, k.first, k.bag);
        if AtRest(limits, k.second, k.bag) {
          SettleAgain(limits, k.second, k.bag);
        }
      }
    }
    SweptHasNoEmptyRows(limits, k);
  }

  /** What a reconcile leaves in the bag of a stack, slot by slot. */
  lemma LeftInBag(limits: Limits, k: Kit, x: int)
    requires OneRowEach(k.bag) && x > 0
    ensures var one := SettleSlot(limits, k.first, k.bag);
            var two := SettleSlot(limits, k.second, one.bag);
            var left := if k.first.stackId != x then Bagged(k.bag, x)
                        else Over(CarryLimit(limits, x), Positive(k.first.count) + Bagged(k.bag, x));
            && Bagged(one.bag, x) == left
            && Bagged(Reconciled(limits, k).bag, x)
               == if k.second.stackId != x then left else Over(CarryLimit(limits, x), Positive(k.second.count) + left)
  {
    var one := SettleSlot(limits, k.first, k.bag);
    var two := SettleSlot(limits, k.second, one.bag);
    SettleKeepsOneRowEach(limits, k.first, k.bag);
    SettleKeepsOneRowEach(limits, k.second, one.bag);
    SweptKeepsOneRowEach(two.bag);
    FirstTakes(limits, k.first, k.bag, x);
    FirstTakes(limits, k.second, one.bag, x);
    BaggedIsAll(two.bag, x);
    BaggedIsAll(Swept(two.bag), x);
    SweepKeeps(two.bag, x);
  }

  /** What is over a limit. */
  function Over(limit: nat, total: nat): nat {
    if total > limit then total - limit else 0
  }

  /** One stack is in both slots; slot and bag cannot fill the first, and the second is over the limit. */
  predicate FirstGoesShort(limits: Limits, k: Kit) {
    var id := k.first.stackId;
    && id > 0 && k.second.stackId == id
    && 0 < Positive(k.first.count) + Bagged(k.bag, id) < CarryLimit(limits, id) < k.second.count
  }

  /**
   * With one row per stack, reconciling twice is reconciling once except in exactly
   * one case: what the second slot puts back is what the first one lacked.
   */
  lemma TwiceIsOnceIff(limits: Limits, k: Kit)
    requires OneRowEach(k.bag)
    ensures Reconciled(limits, Reconciled(limits, k)) == Reconciled(limits, k) <==> !FirstGoesShort(limits, k)
  {
    SweptHasNoEmptyRows(limits, k);
    ChangesNothingIff(limits, Reconciled(limits, k));
    FirstRestsIff(limits, k);
    SecondRests(limits, k);
  }

  lemma FirstRestsIff(limits: Limits, k: Kit)
    requires OneRowEach(k.bag)
    ensures var r := Reconciled(limits, k); AtRest(limits, r.first, r.bag) <==> !FirstGoesShort(limits, k)
  {
    if k.first.stackId > 0 {
      LeftInBag(limits, k, k.first.stackId);
    }
  }

  /** The second slot is settled last, and takes what there is. */
  lemma SecondRests(limits: Limits, k: Kit)
    requires OneRowEach(k.bag)
    ensures var r := Reconciled(limits, k); AtRest(limits, r.second, r.bag)
  {
    if k.second.stackId > 0 {
      LeftInBag(limits, k, k.second.stackId);
    }
  }

  /** One stack in both slots: the second time, the first slot helps itself to what the second put back. */
  lemma OneStackTwiceIsNotIdempotent(limits: Limits)
    requires CarryLimit(limits, 7) == CARRY_LIMIT
    ensures var k := Kit(Slot(7, 1), Slot(7, 20), []);
            && FirstGoesShort(limits, k)
            && Reconciled(limits, Reconciled(limits, k)) != Reconciled(limits, k)
            && Reconciled(limits, k) == Kit(Slot(7, 1), Slot(7, 9), [Row(7, 11)])
            && Reconciled(limits, Kit(Slot(7, 1), Slot(7, 9), [Row(7, 11)])) == Kit(Slot(7, 9), Slot(7, 9), [Row(7, 3)])
  {
    var k := Kit(Slot(7, 1), Slot(7, 20), []);
    assert Bagged(k.bag, 7) == 0;
    TwiceIsOnceIff(limits, k);
    FirstReconcile(limits);
    SecondReconcile(limits);
  }

  lemma FirstReconcile(limits: Limits)
    requires CarryLimit(limits, 7) == CARRY_LIMIT
    ensures Reconciled(limits, Kit(Slot(7, 1), Slot(7, 20), [])) == Kit(Slot(7, 1), Slot(7, 9), [Row(7, 11)])
  {
    SettleNoRow(limits, 7, 1);
    SettleNoRow(limits, 7, 20);
    SweepAgain([Row(7, 11)]);
  }

  lemma SettleNoRow(limits: Limits, id: int, count: nat)
    requires id > 0 && count > 0
    ensures var limit := CarryLimit(limits, id);
            SettleSlot(limits, Slot(id, count), [])
            == if count <= limit then Settled(Slot(id, count), [])
               else Settled(Slot(id, limit), [Row(id, count - limit)])
  {
  }

  /** A slot and one bag row of the stack, over the limit between them. */
  lemma SettleOneRow(limits: Limits, id: int, count: nat, n: nat)
    requires id > 0 && n > 0 && count + n > CarryLimit(limits, id)
    ensures var limit := CarryLimit(limits, id);
            SettleSlot(limits, Slot(id, count), [Row(id, n)]) == Settled(Slot(id, limit), [Row(id, count + n - limit)])
  {
    FirstIs(OfStack(id), [Row(id, n)], 0);
  }

  lemma SecondReconcile(limits: Limits)
    requires CarryLimit(limits, 7) == CARRY_LIMIT
    ensures Reconciled(limits, Kit(Slot(7, 1), Slot(7, 9), [Row(7, 11)])) == Kit(Slot(7, 9), Slot(7, 9), [Row(7, 3)])
  {
    SettleOneRow(limits, 7, 1, 11);
    SettleOneRow(limits, 7, 9, 3);
    SweepAgain([Row(7, 3)]);
  }

  // --- Over a run ------------------------------------------------------------

  datatype Event = Reconcile | Move(stackId: int, slot: int) | Unequip(slot: int) | Spend(slot: int)

  /** Drinking one in a dungeon, from the slot that carries it. */
  function Spent(k: Kit, slot: int): Kit {
    var s := Target(k, slot);
    if s.stackId <= 0 || s.count <= 0 then k else WithSlots(slot, s.(count := s.count - 1), Other(k, slot), k.bag)
  }

  function Next(limits: Limits, k: Kit, e: Event): Kit {
    match e
    case Reconcile => Reconciled(limits, k)
    case Move(stackId, slot) => Moved(limits, k, stackId, slot).GetOr(k)
    case Unequip(slot) => Unequipped(k, slot)
    case Spend(slot) => Spent(k, slot)
  }

  function Run(limits: Limits, k: Kit, es: seq<Event>): Kit
    decreases |es|
  {
    if es == [] then k else Run(limits, Next(limits, k, es[0]), es[1..])
  }

  /** How many of a stack a run spends. */
  function SpentIn(limits: Limits, k: Kit, es: seq<Event>, x: int): nat
    decreases |es|
  {
    if es == [] then 0
    else
      (if es[0].Spend? && Carried(Target(k, es[0].slot), x) > 0 then 1 else 0)
      + SpentIn(limits, Next(limits, k, es[0]), es[1..], x)
  }

  predicate NoNegative(k: Kit) {
    k.first.count >= 0 && k.second.count >= 0 && forall r :: r in k.bag ==> r.count >= 0
  }

  lemma ReconcileLeavesNoNegative(limits: Limits, k: Kit)
    ensures NoNegative(Reconciled(limits, k))
  {
    SweptHasNoEmptyRows(limits, k);
  }

  lemma NextLosesNothing(limits: Limits, k: Kit, e: Event, x: int)
    requires NoNegative(k) && x > 0
    ensures NoNegative(Next(limits, k, e))
    ensures Total(Next(limits, k, e), x)
         == Total(k, x) - if e.Spend? && Carried(Target(k, e.slot), x) > 0 then 1 else 0
  {
    match e
    case Reconcile =>
      ReconcileConserves(limits, k, x);
      ReconcileLeavesNoNegative(limits, k);
    case Move(stackId, slot) =>
      if Moved(limits, k, stackId, slot).Some? {
        MoveConserves(limits, k, stackId, slot, x);
        ReconcileLeavesNoNegative(limits, Placed(k, stackId, slot));
      }
    case Unequip(slot) => UnequipConservesIff(k, slot);
    case Spend(_) =>
  }

  /**
   * Nothing here stores a negative count, and from counts that are not negative no run
   * of reconciling, moving and taking off loses or makes anything: only spending does.
   */
  lemma {:induction false} RunLosesNothing(limits: Limits, k: Kit, es: seq<Event>, x: int)
    requires NoNegative(k) && x > 0
    ensures NoNegative(Run(limits, k, es))
    ensures Total(Run(limits, k, es), x) + SpentIn(limits, k, es, x) == Total(k, x)
    decreases |es|
  {
    if es == [] {
    } else {
      NextLosesNothing(limits, k, es[0], x);
      RunLosesNothing(limits, Next(limits, k, es[0]), es[1..], x);
    }
  }

  // --- A move that waits -----------------------------------------------------

  /** What is drunk from the two slots while the move waits for the id of a new bag row. */
  function Drunk(k: Kit, slot: int, fromTarget: nat, fromOther: nat): Kit {
    var target, other := Target(k, slot), Other(k, slot);
    WithSlots(slot, target.(count := target.count - fromTarget), other.(count := other.count - fromOther), k.bag)
  }

  predicate CanDrink(k: Kit, slot: int, fromTarget: nat, fromOther: nat) {
    && (fromTarget > 0 ==> Target(k, slot).stackId > 0 && fromTarget <= Positive(Target(k, slot).count))
    && (fromOther > 0 ==> Other(k, slot).stackId > 0 && fromOther <= Positive(Other(k, slot).count))
  }

  /** The move goes on with the counts it read before it waited; the other slot is looked at only to be cleared. */
  function PlacedLate(k: Kit, d: Kit, id: int, slot: int): Kit {
    WithSlots(slot,
              Target(Placed(k, id, slot), slot),
              if Carried(Other(k, slot), id) > 0 then Slot(0, 0) else Other(d, slot),
              Placed(k, id, slot).bag)
  }

  lemma LateTotal(k: Kit, id: int, slot: int, fromTarget: nat, fromOther: nat, x: int)
    requires id > 0 && x > 0 && CanDrink(k, slot, fromTarget, fromOther)
    ensures var d := Drunk(k, slot, fromTarget, fromOther);
            Total(PlacedLate(k, d, id, slot), x) - Total(d, x)
            == (if Target(k, slot).stackId == x then fromTarget else 0)
               + if Other(k, slot).stackId == x && Carried(Other(k, slot), id) > 0 then fromOther else 0
  {
    PlacedConserves(k, id, slot, x);
    PlacedOther(k, id, slot);
    LateTotalOf(k, Placed(k, id, slot), id, slot, fromTarget, fromOther, x);
  }

  lemma LateTotalOf(k: Kit, p: Kit, id: int, slot: int, fromTarget: nat, fromOther: nat, x: int)
    requires CanDrink(k, slot, fromTarget, fromOther) && Total(p, x) == Total(k, x)
    requires p == WithSlots(slot, Target(p, slot), Other(p, slot), p.bag)
    requires k == WithSlots(slot, Target(k, slot), Other(k, slot), k.bag)
    requires Other(p, slot) == if Carried(Other(k, slot), id) > 0 then Slot(0, 0) else Other(k, slot)
    requires x > 0
    ensures var d := Drunk(k, slot, fromTarget, fromOther);
            var left := if Carried(Other(k, slot), id) > 0 then Slot(0, 0) else Other(d, slot);
            Total(WithSlots(slot, Target(p, slot), left, p.bag), x) - Total(d, x)
            == (if Target(k, slot).stackId == x then fromTarget else 0)
               + if Other(k, slot).stackId == x && Carried(Other(k, slot), id) > 0 then fromOther else 0
  {
    var target, other := Target(k, slot), Other(k, slot);
    var drunkTarget := target.(count := target.count - fromTarget);
    var drunkOther := other.(count := other.count - fromOther);
    TotalBySlots(slot, target, other, k.bag, x);
    TotalBySlots(slot, Target(p, slot), Other(p, slot), p.bag, x);
    TotalBySlots(slot, drunkTarget, drunkOther, k.bag, x);
    TotalBySlots(slot, Target(p, slot), if Carried(other, id) > 0 then Slot(0, 0) else drunkOther, p.bag, x);
    FewerCarried(target, fromTarget, x);
    FewerCarried(other, fromOther, x);
  }

  lemma FewerCarried(s: Slot, fewer: nat, x: int)
    requires fewer > 0 ==> s.stackId > 0 && fewer <= Positive(s.count)
    ensures Carried(s.(count := s.count - fewer), x) == Carried(s, x) - if s.stackId == x then fewer else 0
  {
  }

  lemma PlacedOther(k: Kit, id: int, slot: int)
    ensures var p := Placed(k, id, slot);
            && p == WithSlots(slot, Target(p, slot), Other(p, slot), p.bag)
            && Other(p, slot) == if Carried(Other(k, slot), id) > 0 then Slot(0, 0) else Other(k, slot)
    ensures k == WithSlots(slot, Target(k, slot), Other(k, slot), k.bag)
  {
  }

  lemma TotalBySlots(slot: int, target: Slot, other: Slot, bag: seq<Row>, x: int)
    ensures Total(WithSlots(slot, target, other, bag), x)
         == Carried(target, x) + Carried(other, x) + Sum(RowWeight(x), bag)
  {
  }

  /**
   * What is drunk while a move waits stays drunk exactly when it was not drunk from a
   * slot the move writes: the target, or the other slot when the stack comes from there.
   * Otherwise it is given back.
   */
  lemma DrinkStaysDrunkIff(limits: Limits, k: Kit, id: int, slot: int, fromTarget: nat, fromOther: nat)
    requires id > 0 && CanDrink(k, slot, fromTarget, fromOther)
    ensures var d := Drunk(k, slot, fromTarget, fromOther);
            (forall x :: x > 0 ==> Total(Reconciled(limits, PlacedLate(k, d, id, slot)), x) == Total(d, x)) <==>
              fromTarget == 0 && (fromOther == 0 || Carried(Other(k, slot), id) == 0)
  {
    var d := Drunk(k, slot, fromTarget, fromOther);
    var late := PlacedLate(k, d, id, slot);
    forall x | x > 0
      ensures Total(Reconciled(limits, late), x) - Total(d, x)
              == (if Target(k, slot).stackId == x then fromTarget else 0)
                 + if Other(k, slot).stackId == x && Carried(Other(k, slot), id) > 0 then fromOther else 0
    {
      LateTotal(k, id, slot, fromTarget, fromOther, x);
      ReconcileConserves(limits, late, x);
    }
    if fromTarget > 0 {
      assert Total(Reconciled(limits, late), Target(k, slot).stackId) != Total(d, Target(k, slot).stackId);
    } else if fromOther > 0 && Carried(Other(k, slot), id) > 0 {
      assert Total(Reconciled(limits, late), Other(k, slot).stackId) != Total(d, Other(k, slot).stackId);
    }
  }

  /** With nothing drunk meanwhile, a move that waited is the move. */
  lemma WaitingChangesNothing(limits: Limits, k: Kit, id: int, slot: int)
    requires Moved(limits, k, id, slot).Some?
    ensures Moved(limits, k, id, slot) == Some(Reconciled(limits, PlacedLate(k, Drunk(k, slot, 0, 0), id, slot)))
  {
  }

  /** An imported row of opposite sign: three in the slot and minus two in the bag come off as one. */
  lemma UnequipLosesTwo()
    ensures var k := Kit(Slot(7, 3), Slot(0, 0), [Row(7, -2)]);
            && Unequipped(k, 0) == Kit(Slot(0, 0), Slot(0, 0), [Row(7, 1)])
            && Total(k, 7) == 3 && Total(Unequipped(k, 0), 7) == 1
  {
    var bag, after := [Row(7, -2)], [Row(7, 1)];
    assert bag[1..] == [] && after[1..] == [];
  }

  /**
   * A kit at rest, its carried one drunk in a dungeon, and the one in the bag equipped
   * to the second slot meanwhile: it lands in the first.
   */
  lemma MoveLandsElsewhere()
    ensures var limits := (x: int) => 1;
            var k := Kit(Slot(7, 1), Slot(0, 0), [Row(7, 1)]);
            && Reconciled(limits, k) == k
            && Moved(limits, Spent(k, 0), 7, 1) == Some(Kit(Slot(7, 1), Slot(0, 0), []))
  {
    var limits := (x: int) => 1;
    var k := Kit(Slot(7, 1), Slot(0, 0), [Row(7, 1)]);
    ChangesNothingIff(limits, k);
    var p := Placed(Spent(k, 0), 7, 1);
    assert p == Kit(Slot(7, 0), Slot(7, 0), [Row(7, 1)]);
    LastOneSettles(limits);
  }

  lemma LastOneSettles(limits: Limits)
    requires limits(7) == 1
    ensures SettleSlot(limits, Slot(7, 0), [Row(7, 1)]) == Settled(Slot(7, 1), [])
    ensures SettleSlot(limits, Slot(7, 0), []) == Settled(Slot(0, 0), [])
  {
    FirstIs(OfStack(7), [Row(7, 1)], 0);
  }

  /**
   * A successful move ends with the stack in the slot asked for, except in one
   * case: asked into the second slot while the first still names that stack with
   * none left. The first is settled first, and takes all of a small enough bag.
   */
  lemma MoveLandsIff(limits: Limits, k: Kit, stackId: int, slot: int)
    requires OneRowEach(k.bag) && Moved(limits, k, stackId, slot).Some?
    ensures Target(Moved(limits, k, stackId, slot).value, slot).stackId == stackId <==>
              !(slot == 1 && k.first.stackId == stackId && k.first.count <= 0 && Carried(k.second, stackId) == 0
                && Bagged(k.bag, stackId) <= CarryLimit(limits, stackId))
  {
    var p := Placed(k, stackId, slot);
    PlacedBag(k, stackId, slot);
    if slot == 1 {
      FirstTakes(limits, p.first, p.bag, stackId);
    }
  }

  lemma WithBaggedKeepsOneRowEach(bag: seq<Row>, stackId: int, count: int)
    requires OneRowEach(bag)
    ensures OneRowEach(WithBagged(bag, stackId, count))
  {
  }

  /** Changing one stack's row does not change which row another stack reads. */
  lemma FindAfter(bag: seq<Row>, stackId: int, count: int, x: int)
    requires x != stackId
    ensures var after := WithBagged(bag, stackId, count);
            var i, j := FirstWhere(OfStack(x), bag), FirstWhere(OfStack(x), after);
            (i < |bag| <==> j < |after|) && (i < |bag| ==> after[j] == bag[i])
  {
    var after := WithBagged(bag, stackId, count);
    var i, k := FirstWhere(OfStack(x), bag), FirstWhere(OfStack(stackId), bag);
    if k == |bag| {
      FirstIs(OfStack(x), after, if i < |bag| then i else |after|);
    } else if count > 0 {
      FirstIs(OfStack(x), after, i);
    } else {
      FindAfterRemoval(bag, k, x);
    }
  }

  lemma FindAfterRemoval(bag: seq<Row>, k: nat, x: int)
    requires k < |bag| && bag[k].stackId != x
    ensures var after := bag[..k] + bag[k + 1..];
            var i, j := FirstWhere(OfStack(x), bag), FirstWhere(OfStack(x), after);
            (i < |bag| <==> j < |after|) && (i < |bag| ==> after[j] == bag[i])
  {
    var after := bag[..k] + bag[k + 1..];
    var i := FirstWhere(OfStack(x), bag);
    forall j | 0 <= j < |after|
      ensures after[j] == bag[if j < k then j else j + 1]
    {
    }
    FirstIs(OfStack(x), after, if i < k then i else i - 1);
  }

  /** Whatever went back to the bag was another stack. */
  lemma PlacedBag(k: Kit, id: int, slot: int)
    requires id > 0
    ensures Bagged(Placed(k, id, slot).bag, id) == Bagged(k.bag, id)
    ensures OneRowEach(k.bag) ==> OneRowEach(Placed(k, id, slot).bag)
  {
    var displaced := Positive(Target(k, slot).stackId);
    if displaced != 0 && displaced != id {
      var count := Bagged(k.bag, displaced) + Positive(Target(k, slot).count);
      FindAfter(k.bag, displaced, count, id);
      if OneRowEach(k.bag) { WithBaggedKeepsOneRowEach(k.bag, displaced, count); }
    }
  }

  /** What settling a slot leaves in the bag of a stack it does, or does not, carry. */
  lemma FirstTakes(limits: Limits, s: Slot, bag: seq<Row>, id: int)
    requires OneRowEach(bag) && id > 0
    ensures Bagged(SettleSlot(limits, s, bag).bag, id) ==
              if s.stackId != id then Bagged(bag, id)
              else
                var total := Positive(s.count) + Bagged(bag, id);
                total - Min(CarryLimit(limits, id), total)
  {
    SettleKeepsOneRowEach(limits, s, bag);
    SettleKeeps(limits, s, bag, id);
    BaggedIsAll(bag, id);
    BaggedIsAll(SettleSlot(limits, s, bag).bag, id);
  }

  // --- When a move happens ---------------------------------------------------

  /** A stack is moved exactly when it is a real one and some of it is in the bag or in either slot. */
  lemma MoveHappensIff(limits: Limits, k: Kit, stackId: int, slot: int)
    ensures Moved(limits, k, stackId, slot).Some? <==>
              && stackId > 0
              && (Bagged(k.bag, stackId) > 0 || (k.first.stackId == stackId && k.first.count > 0)
                  || (k.second.stackId == stackId && k.second.count > 0))
  {
  }

  /** What a hero may carry is what the item says when it says a positive number, and nine otherwise. */
  lemma CarryLimitIs(limits: Limits, stackId: int)
    ensures CarryLimit(limits, stackId) == 9 || (CarryLimit(limits, stackId) == limits(stackId) && limits(stackId) > 0)
    ensures limits(stackId) <= 0 ==> CarryLimit(limits, stackId) == 9
    ensures limits(stackId) > 0 ==> CarryLimit(limits, stackId) == limits(stackId)
  {
  }
}
