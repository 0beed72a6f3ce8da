// A two-sided trade: weapons and gold between two accounts, all of it or none.
module Trade {
  import opened Options
  import opened Sums
  import opened Market

  datatype Offer = Offer(gold: int, items: seq<int>)

  /** Why the offered items from position k on cannot be gathered, or None. */
  function ItemsRefusal(items: seq<Item>, ids: seq<int>, k: nat): Option<Reason>
    requires k <= |ids|
    decreases |ids| - k
  {
    if k == |ids| then None
    else if ids[k] in ids[..k] then Some(BadOffer)
    else
      var i := FirstWhere(ItemNumbered(ids[k]), items);
      if i == |items| then Some(NotOwned)
      else if items[i].avatarId != 0 then Some(Equipped)
      else ItemsRefusal(items, ids, k + 1)
  }

  function GatherRefusal(a: AccountRow, offer: Offer): Option<Reason> {
    if offer.gold < 0 then Some(BadOffer)
    else if offer.gold > a.gold then Some(NotEnoughGold)
    else ItemsRefusal(a.items, offer.items, 0)
  }

  /** The id names a weapon of the bag that is in nobody's hand. */
  predicate IsLoose(items: seq<Item>, id: int) {
    var i := FirstWhere(ItemNumbered(id), items);
    i < |items| && items[i].avatarId == 0
  }

  /** An offer is accepted exactly when its gold is there and its ids name distinct loose weapons. */
  lemma GatheredIff(a: AccountRow, offer: Offer)
    ensures GatherRefusal(a, offer).None? <==> 0 <= offer.gold <= a.gold && Loose(a.items, offer.items)
  {
    if GatherRefusal(a, offer).None? {
      GatheredIsLoose(a.items, offer.items, 0);
    }
    if Loose(a.items, offer.items) {
      LooseIsGathered(a.items, offer.items, 0);
    }
  }

  lemma {:induction false} LooseIsGathered(items: seq<Item>, ids: seq<int>, k: nat)
    requires k <= |ids| && Loose(items, ids)
    ensures ItemsRefusal(items, ids, k).None?
    decreases |ids| - k
  {
    if k == |ids| {
    } else {
      assert IsLoose(items, ids[k]);
      LooseIsGathered(items, ids, k + 1);
    }
  }

  /** The row an id names. */
  function RowNamed(items: seq<Item>, id: int): Item
    requires IsLoose(items, id)
  {
    items[FirstWhere(ItemNumbered(id), items)]
  }

  /** The ids name distinct loose weapons of the bag: what a gathered offer guarantees. */
  predicate Loose(items: seq<Item>, ids: seq<int>) {
    && (forall i, j :: 0 <= i < j < |ids| ==> ids[i] != ids[j])
    && forall k :: 0 <= k < |ids| ==> IsLoose(items, ids[k])
  }

  lemma {:induction false} GatheredIsLoose(items: seq<Item>, ids: seq<int>, k: nat)
    requires k <= |ids|
    requires ItemsRefusal(items, ids, k).None?
    requires Loose(items, ids[..k])
    ensures Loose(items, ids)
    decreases |ids| - k
  {
    if k < |ids| {
      assert ids[..k + 1] == ids[..k] + [ids[k]];
      assert forall j :: 0 <= j < k ==> ids[j] == ids[..k][j] && ids[j] in ids[..k];
      GatheredIsLoose(items, ids, k + 1);
    } else {
      assert ids[..k] == ids;
    }
  }

  /** Taking one row out does not change which row any other id names. */
  lemma IndexAfterRemoval(items: seq<Item>, i: nat, id: int)
    requires i < |items| && items[i].id != id
    ensures var rest := items[..i] + items[i + 1..];
            var before, after := FirstWhere(ItemNumbered(id), items), FirstWhere(ItemNumbered(id), rest);
            (before == |items| <==> after == |rest|) && (before < |items| ==> rest[after] == items[before])
  {
    var rest := items[..i] + items[i + 1..];
    var before := FirstWhere(ItemNumbered(id), items);
    forall j | 0 <= j < |rest|
      ensures rest[j] == items[if j < i then j else j + 1]
    {
    }
    FirstIs(ItemNumbered(id), rest, if before < i then before else before - 1);
  }

  /** The bag without the row an id names. */
  function Without(items: seq<Item>, id: int): seq<Item>
    requires IsLoose(items, id)
  {
    var i := FirstWhere(ItemNumbered(id), items);
    items[..i] + items[i + 1..]
  }

  lemma NamedAfterRemoval(items: seq<Item>, id: int, other: int)
    requires IsLoose(items, id) && IsLoose(items, other) && id != other
    ensures IsLoose(Without(items, id), other) && RowNamed(Without(items, id), other) == RowNamed(items, other)
  {
    IndexAfterRemoval(items, FirstWhere(ItemNumbered(id), items), other);
  }

  lemma LooseAfterRemoval(items: seq<Item>, ids: seq<int>)
    requires ids != [] && Loose(items, ids)
    ensures Loose(Without(items, ids[0]), ids[1..])
  {
    forall k | 0 <= k < |ids[1..]|
      ensures IsLoose(Without(items, ids[0]), ids[1..][k])
    {
      assert ids[1..][k] == ids[k + 1] != ids[0];
      NamedAfterRemoval(items, ids[0], ids[k + 1]);
    }
  }

  /** The rows are the ones the ids name, in order. */
  predicate Gathered(items: seq<Item>, ids: seq<int>, rows: seq<Item>) {
    && Loose(items, ids) && |rows| == |ids|
    && forall k :: 0 <= k < |ids| ==> rows[k] == RowNamed(items, ids[k])
  }

  lemma GatheredAfterRemoval(items: seq<Item>, ids: seq<int>, rows: seq<Item>)
    requires ids != [] && Gathered(items, ids, rows)
    ensures rows[0].id == ids[0] && rows[0] == RowNamed(items, ids[0])
    ensures Gathered(Without(items, ids[0]), ids[1..], rows[1..])
  {
    LooseAfterRemoval(items, ids);
    forall k | 0 <= k < |ids[1..]|
      ensures rows[1..][k] == RowNamed(Without(items, ids[0]), ids[1..][k])
    {
      assert ids[1..][k] == ids[k + 1] != ids[0];
      NamedAfterRemoval(items, ids[0], ids[k + 1]);
    }
  }

  /** The weapon as its new owner receives it. */
  function Handed(item: Item, toId: nat): (r: Item)
    ensures ItemWeapon(r) == ItemWeapon(item) && r.avatarId == 0
  {
    item.(accountId := toId, avatarId := 0, avatarSlot := None, isNew := true)
  }

  /** Both bags after the named weapons went from one to the other. */
  function HandItems(from: seq<Item>, to: seq<Item>, ids: seq<int>, toId: nat): (r: (seq<Item>, seq<Item>))
    requires Loose(from, ids)
    decreases |ids|
  {
    if ids == [] then (from, to)
    else
      LooseAfterRemoval(from, ids);
      HandItems(Without(from, ids[0]), to + [Handed(RowNamed(from, ids[0]), toId)], ids[1..], toId)
  }

  function TradeOutcome(a: AccountRow, b: AccountRow, fromA: Offer, fromB: Offer, inPlay: bool)
    : Outcome<(AccountRow, AccountRow), Reason>
  {
    if inPlay then Refused(InDungeon)
    else if GatherRefusal(a, fromA).Some? then Refused(GatherRefusal(a, fromA).value)
    else if GatherRefusal(b, fromB).Some? then Refused(GatherRefusal(b, fromB).value)
    else if OccupiedSlots(a) - |fromA.items| + |fromB.items| > a.weaponBuckets then Refused(NoRoom)
    else if OccupiedSlots(b) - |fromB.items| + |fromA.items| > b.weaponBuckets then Refused(NoRoom)
    else
      GatheredIsLoose(a.items, fromA.items, 0);
      GatheredIsLoose(b.items, fromB.items, 0);
      var there := HandItems(a.items, b.items, fromA.items, b.id);
      HandKeepsReceiverLoose(a.items, b.items, fromA.items, b.id, fromB.items);
      var back := HandItems(there.1, there.0, fromB.items, a.id);
      Done((
        a.(gold := a.gold - fromA.gold + fromB.gold, items := back.1),
        b.(gold := b.gold + fromA.gold - fromB.gold, items := back.0)))
  }

  /** A bag that only grows at its end still names the same rows. */
  lemma IndexAfterAppend(items: seq<Item>, more: seq<Item>, id: int)
    requires FirstWhere(ItemNumbered(id), items) < |items|
    ensures FirstWhere(ItemNumbered(id), items + more) == FirstWhere(ItemNumbered(id), items)
  {
    FirstIs(ItemNumbered(id), items + more, FirstWhere(ItemNumbered(id), items));
  }

  /** The rows as they arrive. */
  function Delivered(rows: seq<Item>, toId: nat): seq<Item> {
    if rows == [] then [] else [Handed(rows[0], toId)] + Delivered(rows[1..], toId)
  }

  /** What a hand-over sends, row by row out of what is left. */
  function Shipment(from: seq<Item>, ids: seq<int>, toId: nat): seq<Item>
    requires Loose(from, ids)
    decreases |ids|
  {
    if ids == [] then []
    else
      LooseAfterRemoval(from, ids);
      [Handed(RowNamed(from, ids[0]), toId)] + Shipment(Without(from, ids[0]), ids[1..], toId)
  }

  lemma {:induction false} HandShips(from: seq<Item>, to: seq<Item>, ids: seq<int>, toId: nat)
    requires Loose(from, ids)
    ensures HandItems(from, to, ids, toId).1 == to + Shipment(from, ids, toId)
    decreases |ids|
  {
    if ids == [] {
    } else {
      LooseAfterRemoval(from, ids);
      var rest, moved := Without(from, ids[0]), Handed(RowNamed(from, ids[0]), toId);
      HandShips(rest, to + [moved], ids[1..], toId);
      var tail := Shipment(rest, ids[1..], toId);
      assert (to + [moved]) + tail == to + ([moved] + tail);
    }
  }

  lemma {:induction false} ShipmentIsGathered(from: seq<Item>, ids: seq<int>, toId: nat, rows: seq<Item>)
    requires Gathered(from, ids, rows)
    ensures Shipment(from, ids, toId) == Delivered(rows, toId)
    decreases |ids|
  {
    if ids == [] {
      assert rows == [];
    } else {
      GatheredAfterRemoval(from, ids, rows);
      ShipmentIsGathered(Without(from, ids[0]), ids[1..], toId, rows[1..]);
    }
  }

  /** The receiver gets exactly the rows that were gathered, in order, behind what it had. */
  lemma HandDelivers(from: seq<Item>, to: seq<Item>, ids: seq<int>, toId: nat, rows: seq<Item>)
    requires Gathered(from, ids, rows)
    ensures HandItems(from, to, ids, toId).1 == to + Delivered(rows, toId)
  {
    HandShips(from, to, ids, toId);
    ShipmentIsGathered(from, ids, toId, rows);
  }

  function RowsNamed(items: seq<Item>, ids: seq<int>): (rows: seq<Item>)
    requires Loose(items, ids)
    ensures Gathered(items, ids, rows)
  {
    seq(|ids|, k requires 0 <= k < |ids| => RowNamed(items, ids[k]))
  }

  /** A trade goes through exactly when nobody is playing, both offers hold and both receivers have room. */
  lemma TradeHappensIff(a: AccountRow, b: AccountRow, fromA: Offer, fromB: Offer, inPlay: bool)
    ensures TradeOutcome(a, b, fromA, fromB, inPlay).Done? <==>
              && !inPlay && 0 <= fromA.gold <= a.gold && 0 <= fromB.gold <= b.gold
              && Loose(a.items, fromA.items) && Loose(b.items, fromB.items)
              && OccupiedSlots(a) - |fromA.items| + |fromB.items| <= a.weaponBuckets
              && OccupiedSlots(b) - |fromB.items| + |fromA.items| <= b.weaponBuckets
  {
    GatheredIff(a, fromA);
    GatheredIff(b, fromB);
  }

  /** What the second party offered is still there after the first party's weapons arrived. */
  lemma HandKeepsReceiverLoose(from: seq<Item>, to: seq<Item>, ids: seq<int>, toId: nat, offered: seq<int>)
    requires Loose(from, ids) && Loose(to, offered)
    ensures Loose(HandItems(from, to, ids, toId).1, offered)
  {
    HandDelivers(from, to, ids, toId, RowsNamed(from, ids));
    var more := Delivered(RowsNamed(from, ids), toId);
    forall k | 0 <= k < |offered|
      ensures IsLoose(to + more, offered[k])
    {
      IndexAfterAppend(to, more, offered[k]);
    }
  }

  lemma HandKeepsGathered(from: seq<Item>, to: seq<Item>, ids: seq<int>, toId: nat, offered: seq<int>, rows: seq<Item>)
    requires Loose(from, ids) && Gathered(to, offered, rows)
    ensures Gathered(HandItems(from, to, ids, toId).1, offered, rows)
  {
    HandKeepsReceiverLoose(from, to, ids, toId, offered);
    HandDelivers(from, to, ids, toId, RowsNamed(from, ids));
    var more := Delivered(RowsNamed(from, ids), toId);
    forall k | 0 <= k < |offered|
      ensures rows[k] == RowNamed(to + more, offered[k])
    {
      IndexAfterAppend(to, more, offered[k]);
    }
  }

  // --- What either party has afterwards --------------------------------------

  /** What is left of a bag once the weapons the ids name are out of it, one after another. */
  function Left(items: seq<Item>, ids: seq<int>): seq<Item>
    requires Loose(items, ids)
    decreases |ids|
  {
    if ids == [] then items
    else
      LooseAfterRemoval(items, ids);
      Left(Without(items, ids[0]), ids[1..])
  }

  function NotOffered(ids: seq<int>): Item -> bool {
    (i: Item) => i.id !in ids
  }

  lemma RemovalIsOne(items: seq<Item>, id: int, ids: seq<int>)
    requires IsLoose(items, id) && id in ids
    ensures multiset(items) == multiset(Without(items, id)) + multiset{RowNamed(items, id)}
    ensures Filter(NotOffered(ids), Without(items, id)) == Filter(NotOffered(ids), items)
  {
    WithoutIsOne(items, id);
    var i := FirstWhere(ItemNumbered(id), items);
    assert items[i].id in ids;
    FilterWithout(NotOffered(ids), items, i);
  }

  lemma WithoutIsOne(items: seq<Item>, id: int)
    requires IsLoose(items, id)
    ensures multiset(items) == multiset(Without(items, id)) + multiset{RowNamed(items, id)}
  {
    MultisetWithout(items, FirstWhere(ItemNumbered(id), items));
  }

  lemma RowsNamedRest(items: seq<Item>, ids: seq<int>)
    requires ids != [] && Loose(items, ids)
    ensures Loose(Without(items, ids[0]), ids[1..])
    ensures RowsNamed(Without(items, ids[0]), ids[1..]) == RowsNamed(items, ids)[1..]
  {
    var rows := RowsNamed(items, ids);
    GatheredAfterRemoval(items, ids, rows);
  }

  lemma RowsNamedStep(items: seq<Item>, ids: seq<int>)
    requires ids != [] && Loose(items, ids)
    ensures Loose(Without(items, ids[0]), ids[1..])
    ensures multiset(RowsNamed(items, ids))
         == multiset(RowsNamed(Without(items, ids[0]), ids[1..])) + multiset{RowNamed(items, ids[0])}
  {
    RowsNamedRest(items, ids);
    MultisetHead(RowsNamed(items, ids));
  }

  /**
   * What is left: the bag is what is left and the weapons named, together, and the rows
   * of every other id are where they were, in their order.
   */
  lemma {:induction false} LeftIsTheRest(items: seq<Item>, ids: seq<int>, offered: seq<int>)
    requires Loose(items, ids) && forall id :: id in ids ==> id in offered
    ensures multiset(items) == multiset(Left(items, ids)) + multiset(RowsNamed(items, ids))
    ensures Filter(NotOffered(offered), Left(items, ids)) == Filter(NotOffered(offered), items)
    decreases |ids|
  {
    if ids == [] {
    } else {
      assert IsLoose(items, ids[0]);
      RemovalIsOne(items, ids[0], offered);
      RowsNamedStep(items, ids);
      LeftIsTheRest(Without(items, ids[0]), ids[1..], offered);
    }
  }

  lemma {:induction false} HandLeaves(from: seq<Item>, to: seq<Item>, ids: seq<int>, toId: nat)
    requires Loose(from, ids)
    ensures HandItems(from, to, ids, toId).0 == Left(from, ids)
    decreases |ids|
  {
    if ids == [] {
    } else {
      LooseAfterRemoval(from, ids);
      HandLeaves(Without(from, ids[0]), to + [Handed(RowNamed(from, ids[0]), toId)], ids[1..], toId);
    }
  }

  lemma WithoutOfAppend(items: seq<Item>, more: seq<Item>, id: int)
    requires IsLoose(items, id)
    ensures IsLoose(items + more, id) && Without(items + more, id) == Without(items, id) + more
  {
    IndexAfterAppend(items, more, id);
  }

  /** What was behind the bag stays behind it. */
  lemma {:induction false} LeftOfAppend(items: seq<Item>, more: seq<Item>, ids: seq<int>)
    requires Loose(items, ids)
    ensures Loose(items + more, ids) && Left(items + more, ids) == Left(items, ids) + more
    decreases |ids|
  {
    forall k | 0 <= k < |ids|
      ensures IsLoose(items + more, ids[k])
    {
      WithoutOfAppend(items, more, ids[k]);
    }
    if ids == [] {
    } else {
      WithoutOfAppend(items, more, ids[0]);
      LooseAfterRemoval(items, ids);
      LeftOfAppend(Without(items, ids[0]), more, ids[1..]);
    }
  }

  /** A delivered row, field by field. */
  lemma {:induction false} DeliveredAt(rows: seq<Item>, toId: nat, k: nat)
    requires k < |rows|
    ensures |Delivered(rows, toId)| == |rows|
    ensures var i := rows[k];
            Delivered(rows, toId)[k] == Item(
              i.id, toId, i.itemId, i.power, 0, None, true, i.requiredLevel, i.rarity,
              i.modifier1, i.modifier2, i.legendaryModifier, i.created)
    decreases |rows|
  {
    if |rows| == 1 {
    } else {
      DeliveredAt(rows[1..], toId, if k == 0 then 0 else k - 1);
    }
  }

  /**
   * After a trade: each purse has lost what its owner offered and gained what the other
   * did; each bag is what was left of it, then the other's weapons in the order offered;
   * and nothing else of either account has changed.
   */
  lemma TradeSettles(a: AccountRow, b: AccountRow, fromA: Offer, fromB: Offer, inPlay: bool)
    requires TradeOutcome(a, b, fromA, fromB, inPlay).Done?
    ensures Loose(a.items, fromA.items) && Loose(b.items, fromB.items)
    ensures var rows := TradeOutcome(a, b, fromA, fromB, inPlay).value;
            && rows.0 == a.(gold := a.gold - fromA.gold + fromB.gold,
                            items := Left(a.items, fromA.items) + Delivered(RowsNamed(b.items, fromB.items), a.id))
            && rows.1 == b.(gold := b.gold - fromB.gold + fromA.gold,
                            items := Left(b.items, fromB.items) + Delivered(RowsNamed(a.items, fromA.items), b.id))
  {
    GatheredIff(a, fromA);
    GatheredIff(b, fromB);
    ItemsChangeHands(a.items, b.items, fromA.items, fromB.items, a.id, b.id);
  }

  lemma ItemsChangeHands(a: seq<Item>, b: seq<Item>, fromA: seq<int>, fromB: seq<int>, aId: nat, bId: nat)
    requires Loose(a, fromA) && Loose(b, fromB)
    ensures var there := HandItems(a, b, fromA, bId);
            && Loose(there.1, fromB)
            && var back := HandItems(there.1, there.0, fromB, aId);
            && back.1 == Left(a, fromA) + Delivered(RowsNamed(b, fromB), aId)
            && back.0 == Left(b, fromB) + Delivered(RowsNamed(a, fromA), bId)
  {
    var sent, returned := RowsNamed(a, fromA), RowsNamed(b, fromB);
    HandLeaves(a, b, fromA, bId);
    HandDelivers(a, b, fromA, bId, sent);
    HandKeepsGathered(a, b, fromA, bId, fromB, returned);
    var there := HandItems(a, b, fromA, bId);
    HandLeaves(there.1, there.0, fromB, aId);
    HandDelivers(there.1, there.0, fromB, aId, returned);
    LeftOfAppend(b, Delivered(sent, bId), fromB);
  }

  // --- In place --------------------------------------------------------------

  /** Checks one side's offer and answers the rows it names; changes nothing. */
  method Gather(account: LiveAccount, offer: Offer) returns (r: Outcome<seq<Item>, Reason>)
    ensures r.Refused? <==> GatherRefusal(account.Row(), offer).Some?
    ensures r.Refused? ==> GatherRefusal(account.Row(), offer) == Some(r.reason)
    ensures r.Done? ==> Gathered(account.items, offer.items, r.value)
  {
    if offer.gold < 0 { return Refused(BadOffer); }
    if offer.gold > account.gold { return Refused(NotEnoughGold); }
    var bag, ids := account.items, offer.items;
    var items: seq<Item> := [];
    var seen: set<int> := {};
    for k := 0 to |ids|
      invariant ItemsRefusal(bag, ids, 0) == ItemsRefusal(bag, ids, k)
      invariant seen == set id | id in ids[..k]
      invariant |items| == k
      invariant forall m :: 0 <= m < k ==> IsLoose(bag, ids[m]) && items[m] == RowNamed(bag, ids[m])
    {
      var id := ids[k];
      assert ids[..k + 1] == ids[..k] + [id];
      if id in seen { return Refused(BadOffer); }
      var i := FirstWhere(ItemNumbered(id), bag);
      if i == |bag| { return Refused(NotOwned); }
      if bag[i].avatarId != 0 { return Refused(Equipped); }
      seen := seen + {id};
      items := items + [bag[i]];
    }
    GatheredIsLoose(bag, ids, 0);
    return Done(items);
  }

  /** Moves gathered gold and weapons from one account to the other, row by row. */
  method Hand(from: LiveAccount, to: LiveAccount, gold: int, taken: seq<Item>, ghost ids: seq<int>)
    requires from != to
    requires Gathered(from.items, ids, taken)
    modifies from`gold, from`items, to`gold, to`items
    ensures from.gold == old(from.gold) - gold && to.gold == old(to.gold) + gold
    ensures (from.items, to.items) == HandItems(old(from.items), old(to.items), ids, to.id)
  {
    from.gold := from.gold - gold;
    to.gold := to.gold + gold;
    ghost var result := HandItems(from.items, to.items, ids, to.id);
    for k := 0 to |taken|
      invariant from.gold == old(from.gold) - gold && to.gold == old(to.gold) + gold
      invariant Gathered(from.items, ids[k..], taken[k..])
      invariant HandItems(from.items, to.items, ids[k..], to.id) == result
    {
      var item := taken[k];
      ghost var bag, left := from.items, ids[k..];
      GatheredAfterRemoval(bag, left, taken[k..]);
      assert left[1..] == ids[k + 1..] && taken[k..][1..] == taken[k + 1..];
      var i := FirstWhere(ItemNumbered(item.id), from.items);
      from.items := from.items[..i] + from.items[i + 1..];
      assert from.items == Without(bag, left[0]);
      to.items := to.items + [Handed(item, to.id)];
    }
  }

  method SettleTrade(first: LiveAccount, second: LiveAccount, fromFirst: Offer, fromSecond: Offer, inPlay: bool)
    returns (refusal: Option<Reason>)
    requires first != second
    modifies first`gold, first`items, second`gold, second`items
    ensures match TradeOutcome(old(first.Row()), old(second.Row()), fromFirst, fromSecond, inPlay)
            case Done(rows) => refusal == None && first.Row() == rows.0 && second.Row() == rows.1
            case Refused(reason) =>
              refusal == Some(reason) && first.Row() == old(first.Row()) && second.Row() == old(second.Row())
  {
    if inPlay { return Some(InDungeon); }
    var givenByFirst := Gather(first, fromFirst);
    if givenByFirst.Refused? { return Some(givenByFirst.reason); }
    var givenBySecond := Gather(second, fromSecond);
    if givenBySecond.Refused? { return Some(givenBySecond.reason); }
    var one, two := givenByFirst.value, givenBySecond.value;
    if OccupiedSlots(first.Row()) - |one| + |two| > first.weaponBuckets { return Some(NoRoom); }
    if OccupiedSlots(second.Row()) - |two| + |one| > second.weaponBuckets { return Some(NoRoom); }
    Hand(first, second, fromFirst.gold, one, fromFirst.items);
    HandKeepsGathered(old(first.items), old(second.items), fromFirst.items, second.id, fromSecond.items, two);
    Hand(second, first, fromSecond.gold, two, fromSecond.items);
    return None;
  }
}
