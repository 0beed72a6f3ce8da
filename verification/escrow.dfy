// Market and trade calls over a whole population, each on the rows it is given, and
// what one of them keeps. EscrowRuns is about which rows those are, and whole runs.
//
// A buy is two steps: a scan outside the locks that remembers which account was
// holding the listing, and the settling inside them, with anything in between.
module Escrow {
  import opened Options
  import opened Sums
  import opened Market
  import opened Trade

  /** A scan that found its seller and has not settled yet. Accounts are positions. */
  datatype PendingBuy = PendingBuy(buyer: nat, seller: nat, listingId: int)

  /** reading holds, per account, what a read under way saw when it opened: readers need no lock. */
  datatype World = World(
    accounts: seq<AccountRow>, playing: set<nat>, reading: map<nat, AccountRow>,
    pending: set<PendingBuy>, taxTaken: int)

  datatype Event =
    | ListWeapon(who: nat, itemId: int, price: int, at: int)
    | Scan(buyer: nat, seller: nat, listingId: int)
    | Settle(buy: PendingBuy, at: int)
    | Cancel(who: nat, listingId: int)
    | Claim(who: nat)
    | Exchange(first: nat, second: nat, fromFirst: Offer, fromSecond: Offer)
      // What else may happen to the accounts meanwhile.
    | Play(who: nat, on: bool)
    | Restrict(who: nat, barred: bool, restricted: bool)
    | Wield(who: nat, row: nat, avatarId: nat)
    | Resize(who: nat, chests: nat, weaponBuckets: int, heroes: nat)
      // A read of an account nobody plays, by a scan or a list, and its end.
    | ReadOpens(who: nat)
    | ReadEnds(who: nat)

  /** One call answered: what it leaves behind, or why it left everything as it was. */
  function Call(rules: Rules, w: World, e: Event): Outcome<World, Reason>
  {
    var n := |w.accounts|;
    match e
    case ListWeapon(who, itemId, price, at) =>
      if who >= n then Refused(Gone) else
      (match ListOutcome(rules, w.accounts[who], who in w.playing, itemId, price, at)
       case Done(row) => Done(w.(accounts := w.accounts[who := row]))
       case Refused(why) => Refused(why))
    case Scan(buyer, seller, listingId) =>
      if buyer >= n || seller >= n then Refused(Gone)
      else if listingId <= 0 then Refused(BadListing)
      else if buyer in w.playing then Refused(InDungeon)
      else
        var listings := w.accounts[seller].listings;
        var i := ListingNamed(listings, listingId);
        if i == |listings| || !IsOpen(listings[i]) then Refused(Gone)
        else if seller == buyer then Refused(OwnListing)
        else Done(w.(pending := w.pending + {PendingBuy(buyer, seller, listingId)}))
    case Settle(buy, at) =>
      if buy !in w.pending || buy.buyer >= n || buy.seller >= n || buy.buyer == buy.seller then Refused(Gone) else
      (match BuyOutcome(rules, w.accounts[buy.seller], w.accounts[buy.buyer], buy.buyer in w.playing, buy.listingId, at)
       case Done(sale) =>
         Done(w.(accounts := w.accounts[buy.seller := sale.seller][buy.buyer := sale.buyer],
                 pending := w.pending - {buy}, taxTaken := w.taxTaken + sale.tax))
       case Refused(why) => Refused(why))
    case Cancel(who, listingId) =>
      if who >= n then Refused(Gone) else
      (match CancelOutcome(w.accounts[who], who in w.playing, listingId)
       case Done(row) => Done(w.(accounts := w.accounts[who := row]))
       case Refused(why) => Refused(why))
    case Claim(who) =>
      if who >= n then Refused(Gone) else
      (match ClaimOutcome(w.accounts[who], who in w.playing)
       case Done(row) => Done(w.(accounts := w.accounts[who := row]))
       case Refused(why) => Refused(why))
    case Exchange(first, second, fromFirst, fromSecond) =>
      if first >= n || second >= n || first == second then Refused(BadOffer) else
      (match TradeOutcome(w.accounts[first], w.accounts[second], fromFirst, fromSecond,
                          first in w.playing || second in w.playing)
       case Done(rows) => Done(w.(accounts := w.accounts[first := rows.0][second := rows.1]))
       case Refused(why) => Refused(why))
    case Play(who, on) =>
      Done(w.(playing := if on then w.playing + {who} else w.playing - {who}))
    case Restrict(who, barred, restricted) =>
      if who >= n then Refused(Gone)
      else Done(w.(accounts := w.accounts[who := w.accounts[who].(barred := barred, restricted := restricted)]))
    case Wield(who, row, avatarId) =>
      if who >= n || row >= |w.accounts[who].items| then Refused(Gone)
      else
        var a := w.accounts[who];
        Done(w.(accounts := w.accounts[who := a.(items := a.items[row := a.items[row].(avatarId := avatarId)])]))
    case Resize(who, chests, weaponBuckets, heroes) =>
      if who >= n then Refused(Gone)
      else Done(w.(accounts :=
        w.accounts[who := w.accounts[who].(chests := chests, weaponBuckets := weaponBuckets, heroes := heroes)]))
    case ReadOpens(who) =>
      if who >= n || who in w.playing || who in w.reading then Refused(Gone)
      else Done(w.(reading := w.reading[who := w.accounts[who]]))
    case ReadEnds(who) => Done(w.(reading := w.reading - {who}))
  }

  // --- Weighing the world ----------------------------------------------------

  function BagWeight(f: Weapon -> int): Item -> int {
    (i: Item) => f(ItemWeapon(i))
  }

  function OpenWeight(f: Weapon -> int): Listing -> int {
    (l: Listing) => if IsOpen(l) then f(ListingWeapon(l)) else 0
  }

  /** The weight of what one account has: its bag and its open listings. */
  function Holds(f: Weapon -> int): AccountRow -> int {
    (a: AccountRow) => Sum(BagWeight(f), a.items) + Sum(OpenWeight(f), a.listings)
  }

  /** The weight of every weapon in the world, each counted where it lies. */
  function WeaponTotal(f: Weapon -> int, w: World): int {
    Sum(Holds(f), w.accounts)
  }

  /** A purse and what sold listings still owe it. */
  function Worth(): AccountRow -> int {
    (a: AccountRow) => a.gold + Sum(OwedBy, a.listings)
  }

  function GoldTotal(w: World): int {
    Sum(Worth(), w.accounts) + w.taxTaken
  }

  // --- One call --------------------------------------------------------------

  lemma ListKeeps(f: Weapon -> int, rules: Rules, a: AccountRow, inPlay: bool, itemId: int, price: int, at: int)
    requires ListOutcome(rules, a, inPlay, itemId, price, at).Done?
    ensures var b := ListOutcome(rules, a, inPlay, itemId, price, at).value;
            && Holds(f)(b) == Holds(f)(a) && Worth()(b) == Worth()(a)
            && |OpenListings(b)| <= SlotsFor(rules, b)
  {
    var i := FirstWhere(ItemNumbered(itemId), a.items);
    var l := AsListing(a.items[i], price, at);
    SumRemove(BagWeight(f), a.items, i);
    SumAppend(OpenWeight(f), a.listings, l);
    SumAppend(OwedBy, a.listings, l);
    FilterConcat(IsOpen, a.listings, [l]);
    assert [l][1..] == [];
  }

  lemma BuyKeeps(f: Weapon -> int, rules: Rules, seller: AccountRow, buyer: AccountRow, inPlay: bool, id: int, at: int)
    requires BuyOutcome(rules, seller, buyer, inPlay, id, at).Done?
    ensures var sale := BuyOutcome(rules, seller, buyer, inPlay, id, at).value;
            && Holds(f)(sale.seller) + Holds(f)(sale.buyer) == Holds(f)(seller) + Holds(f)(buyer)
            && Worth()(sale.seller) + Worth()(sale.buyer) + sale.tax == Worth()(seller) + Worth()(buyer)
            && WithinStorage(sale.buyer) && sale.buyer.gold >= 0
  {
    var sale := BuyOutcome(rules, seller, buyer, inPlay, id, at).value;
    var i := ListingNamed(seller.listings, id);
    var l := seller.listings[i];
    SumUpdate(OpenWeight(f), seller.listings, i, sale.seller.listings[i]);
    SumUpdate(OwedBy, seller.listings, i, sale.seller.listings[i]);
    SumAppend(BagWeight(f), buyer.items, AsItem(l, buyer.id));
    SumAppend(SlotWeight(), buyer.items, AsItem(l, buyer.id));
  }

  lemma CancelKeeps(f: Weapon -> int, a: AccountRow, inPlay: bool, id: int)
    requires CancelOutcome(a, inPlay, id).Done?
    ensures var b := CancelOutcome(a, inPlay, id).value;
            Holds(f)(b) == Holds(f)(a) && Worth()(b) == Worth()(a) && WithinStorage(b)
  {
    var i := ListingNamed(a.listings, id);
    var item := AsItem(a.listings[i], a.id);
    SumRemove(OpenWeight(f), a.listings, i);
    SumRemove(OwedBy, a.listings, i);
    SumAppend(BagWeight(f), a.items, item);
    SumAppend(SlotWeight(), a.items, item);
  }

  lemma ClaimKeeps(f: Weapon -> int, a: AccountRow, inPlay: bool)
    requires ClaimOutcome(a, inPlay).Done?
    ensures var b := ClaimOutcome(a, inPlay).value;
            && Holds(f)(b) == Holds(f)(a) && Worth()(b) == Worth()(a)
            && forall l :: l in b.listings ==> IsOpen(l)
  {
    FilterMembers(IsOpen, a.listings);
    FilterMembers(IsSold, a.listings);
    SumFilter(OpenWeight(f), IsOpen, a.listings);
    NothingOwedOpen(OpenListings(a));
    if Filter(IsSold, a.listings) == [] {
      assert forall l :: l in a.listings ==> !IsSold(l);
    }
  }

  lemma {:induction false} NothingOwedOpen(ls: seq<Listing>)
    requires forall l :: l in ls ==> IsOpen(l)
    ensures Sum(OwedBy, ls) == 0
  {
    if ls == [] {
    } else {
      assert forall l :: l in ls[1..] ==> l in ls;
      NothingOwedOpen(ls[1..]);
    }
  }

  /** Handing weapons over moves exactly their weight, under any weighing of weapons. */
  lemma {:induction false} HandKeeps(f: Weapon -> int, from: seq<Item>, to: seq<Item>, ids: seq<int>, toId: nat)
    requires Loose(from, ids)
    ensures var r := HandItems(from, to, ids, toId);
            && Sum(BagWeight(f), r.0) + Sum(BagWeight(f), r.1) == Sum(BagWeight(f), from) + Sum(BagWeight(f), to)
            && Sum(SlotWeight(), r.0) == Sum(SlotWeight(), from) - |ids|
            && Sum(SlotWeight(), r.1) == Sum(SlotWeight(), to) + |ids|
    decreases |ids|
  {
    if ids == [] {
    } else {
      var i := FirstWhere(ItemNumbered(ids[0]), from);
      var moved := Handed(from[i], toId);
      LooseAfterRemoval(from, ids);
      HandKeeps(f, Without(from, ids[0]), to + [moved], ids[1..], toId);
      assert IsLoose(from, ids[0]);
      SumRemove(BagWeight(f), from, i);
      SumAppend(BagWeight(f), to, moved);
      SumRemove(SlotWeight(), from, i);
      SumAppend(SlotWeight(), to, moved);
    }
  }

  lemma TradeKeeps(f: Weapon -> int, a: AccountRow, b: AccountRow, fromA: Offer, fromB: Offer, inPlay: bool)
    requires TradeOutcome(a, b, fromA, fromB, inPlay).Done?
    ensures var rows := TradeOutcome(a, b, fromA, fromB, inPlay).value;
            && Holds(f)(rows.0) + Holds(f)(rows.1) == Holds(f)(a) + Holds(f)(b)
            && Worth()(rows.0) + Worth()(rows.1) == Worth()(a) + Worth()(b)
            && WithinStorage(rows.0) && WithinStorage(rows.1)
            && (a.gold >= 0 && b.gold >= 0 ==> rows.0.gold >= 0 && rows.1.gold >= 0)
  {
    GatheredIsLoose(a.items, fromA.items, 0);
    GatheredIsLoose(b.items, fromB.items, 0);
    var there := HandItems(a.items, b.items, fromA.items, b.id);
    HandKeepsReceiverLoose(a.items, b.items, fromA.items, b.id, fromB.items);
    HandKeeps(f, a.items, b.items, fromA.items, b.id);
    HandKeeps(f, there.1, there.0, fromB.items, a.id);
  }

  lemma {:induction false} SumTwo<T>(f: T -> int, s: seq<T>, i: nat, j: nat, x: T, y: T)
    requires i < |s| && j < |s| && i != j
    ensures Sum(f, s[i := x][j := y]) == Sum(f, s) - f(s[i]) - f(s[j]) + f(x) + f(y)
  {
    SumUpdate(f, s, i, x);
    SumUpdate(f, s[i := x], j, y);
  }

  lemma OneRowChanges(f: Weapon -> int, w: World, who: nat, row: AccountRow)
    requires who < |w.accounts|
    requires Holds(f)(row) == Holds(f)(w.accounts[who]) && Worth()(row) == Worth()(w.accounts[who])
    ensures var v := w.(accounts := w.accounts[who := row]);
            WeaponTotal(f, v) == WeaponTotal(f, w) && GoldTotal(v) == GoldTotal(w)
  {
    SumUpdate(Holds(f), w.accounts, who, row);
    SumUpdate(Worth(), w.accounts, who, row);
  }

  lemma WieldKeeps(f: Weapon -> int, a: AccountRow, row: nat, avatarId: nat)
    requires row < |a.items|
    ensures var b := a.(items := a.items[row := a.items[row].(avatarId := avatarId)]);
            Holds(f)(b) == Holds(f)(a) && Worth()(b) == Worth()(a)
  {
    var worn := a.items[row].(avatarId := avatarId);
    assert ItemWeapon(worn) == ItemWeapon(a.items[row]);
    SumUpdate(BagWeight(f), a.items, row, worn);
  }

  predicate BetweenTwo(e: Event) { e.Settle? || e.Exchange? }

  lemma PairCallKeepsTotals(f: Weapon -> int, rules: Rules, w: World, e: Event)
    requires BetweenTwo(e) && Call(rules, w, e).Done?
    ensures var v := Call(rules, w, e).value;
            WeaponTotal(f, v) == WeaponTotal(f, w) && GoldTotal(v) == GoldTotal(w)
  {
    match e
    case Settle(buy, at) =>
      var p, q := buy.seller, buy.buyer;
      BuyKeeps(f, rules, w.accounts[p], w.accounts[q], q in w.playing, buy.listingId, at);
      var sale := BuyOutcome(rules, w.accounts[p], w.accounts[q], q in w.playing, buy.listingId, at).value;
      TwoRowsChange(f, w.accounts, p, q, sale.seller, sale.buyer);
    case Exchange(p, q, fromP, fromQ) =>
      var inPlay := p in w.playing || q in w.playing;
      TradeKeeps(f, w.accounts[p], w.accounts[q], fromP, fromQ, inPlay);
      var rows := TradeOutcome(w.accounts[p], w.accounts[q], fromP, fromQ, inPlay).value;
      TwoRowsChange(f, w.accounts, p, q, rows.0, rows.1);
  }

  lemma TwoRowsChange(f: Weapon -> int, accounts: seq<AccountRow>, p: nat, q: nat, x: AccountRow, y: AccountRow)
    requires p < |accounts| && q < |accounts| && p != q
    requires Holds(f)(x) + Holds(f)(y) == Holds(f)(accounts[p]) + Holds(f)(accounts[q])
    ensures var after := accounts[p := x][q := y];
            && Sum(Holds(f), after) == Sum(Holds(f), accounts)
            && Sum(Worth(), after) - Sum(Worth(), accounts)
               == Worth()(x) + Worth()(y) - Worth()(accounts[p]) - Worth()(accounts[q])
  {
    SumTwo(Holds(f), accounts, p, q, x, y);
    SumTwo(Worth(), accounts, p, q, x, y);
  }

  /** No call changes what all weapons weigh, or how much gold there is. */
  lemma CallKeepsTotals(f: Weapon -> int, rules: Rules, w: World, e: Event)
    requires Call(rules, w, e).Done?
    ensures var v := Call(rules, w, e).value;
            WeaponTotal(f, v) == WeaponTotal(f, w) && GoldTotal(v) == GoldTotal(w)
  {
    if BetweenTwo(e) {
      PairCallKeepsTotals(f, rules, w, e);
    } else {
      OwnCallKeepsTotals(f, rules, w, e);
    }
  }

  lemma OwnCallKeepsTotals(f: Weapon -> int, rules: Rules, w: World, e: Event)
    requires !BetweenTwo(e) && Call(rules, w, e).Done?
    ensures var v := Call(rules, w, e).value;
            WeaponTotal(f, v) == WeaponTotal(f, w) && GoldTotal(v) == GoldTotal(w)
  {
    var v := Call(rules, w, e).value;
    match e
    case ListWeapon(who, itemId, price, at) =>
      ListKeeps(f, rules, w.accounts[who], who in w.playing, itemId, price, at);
      OneRowChanges(f, w, who, v.accounts[who]);
    case Cancel(who, id) =>
      CancelKeeps(f, w.accounts[who], who in w.playing, id);
      OneRowChanges(f, w, who, v.accounts[who]);
    case Claim(who) =>
      ClaimKeeps(f, w.accounts[who], who in w.playing);
      OneRowChanges(f, w, who, v.accounts[who]);
    case Restrict(who, _, _) => OneRowChanges(f, w, who, v.accounts[who]);
    case Wield(who, row, avatarId) =>
      WieldKeeps(f, w.accounts[who], row, avatarId);
      OneRowChanges(f, w, who, v.accounts[who]);
    case Resize(who, _, _, _) => OneRowChanges(f, w, who, v.accounts[who]);
    case _ =>
  }

  // --- One weapon, every purse -----------------------------------------------

  /** In how many bags and open listings an id lies. */
  function Named(id: nat): Weapon -> int {
    (x: Weapon) => if x.id == id then 1 else 0
  }

  function Exactly(weapon: Weapon): Weapon -> int {
    (x: Weapon) => if x == weapon then 1 else 0
  }

  function Places(w: World, id: nat): int {
    WeaponTotal(Named(id), w)
  }

  predicate SolventRow(a: AccountRow) {
    a.gold >= 0 && forall l :: l in a.listings && l.proceeds.Some? ==> l.proceeds.value >= 0
  }

  predicate Solvent(w: World) {
    && (forall i :: 0 <= i < |w.accounts| ==> SolventRow(w.accounts[i]))
    && forall i :: i in w.reading ==> SolventRow(w.reading[i])
  }

  lemma BuyKeepsSolvent(rules: Rules, seller: AccountRow, buyer: AccountRow, inPlay: bool, id: int, at: int)
    requires SolventRow(seller) && SolventRow(buyer)
    requires BuyOutcome(rules, seller, buyer, inPlay, id, at).Done?
    ensures var sale := BuyOutcome(rules, seller, buyer, inPlay, id, at).value;
            SolventRow(sale.seller) && SolventRow(sale.buyer)
  {
    ShareIsWithinPrice(rules, seller.listings[ListingNamed(seller.listings, id)].price);
  }

  lemma OwnCallKeepsSolvent(rules: Rules, w: World, e: Event)
    requires Solvent(w) && !BetweenTwo(e) && Call(rules, w, e).Done?
    ensures Solvent(Call(rules, w, e).value)
  {
    match e
    case Claim(who) =>
      var a := w.accounts[who];
      SumNonNegative(OwedBy, a.listings);
      FilterMembers(IsOpen, a.listings);
    case _ =>
  }

  lemma CallKeepsSolvent(rules: Rules, w: World, e: Event)
    requires Solvent(w) && Call(rules, w, e).Done?
    ensures Solvent(Call(rules, w, e).value)
  {
    match e
    case Settle(buy, at) =>
      var seller, buyer := w.accounts[buy.seller], w.accounts[buy.buyer];
      BuyKeepsSolvent(rules, seller, buyer, buy.buyer in w.playing, buy.listingId, at);
    case Exchange(p, q, fromP, fromQ) =>
      TradeKeeps((x: Weapon) => 0, w.accounts[p], w.accounts[q], fromP, fromQ, p in w.playing || q in w.playing);
    case _ => OwnCallKeepsSolvent(rules, w, e);
  }

  /** Whoever receives weapons ends within the storage limit; listings never outgrow the slots. */
  lemma ReceiversHaveRoom(rules: Rules, w: World, e: Event)
    requires Call(rules, w, e).Done?
    ensures var after := Call(rules, w, e).value.accounts;
            match e
            case ListWeapon(who, _, _, _) => |OpenListings(after[who])| <= SlotsFor(rules, after[who])
            case Settle(buy, _) => WithinStorage(after[buy.buyer])
            case Cancel(who, _) => WithinStorage(after[who])
            case Exchange(p, q, _, _) => WithinStorage(after[p]) && WithinStorage(after[q])
            case _ => true
  {
    var f := (x: Weapon) => 0;
    match e
    case ListWeapon(who, itemId, price, at) =>
      ListKeeps(f, rules, w.accounts[who], who in w.playing, itemId, price, at);
    case Settle(buy, at) =>
      BuyKeeps(f, rules, w.accounts[buy.seller], w.accounts[buy.buyer], buy.buyer in w.playing, buy.listingId, at);
    case Cancel(who, id) =>
      CancelKeeps(f, w.accounts[who], who in w.playing, id);
    case Exchange(p, q, fromP, fromQ) =>
      TradeKeeps(f, w.accounts[p], w.accounts[q], fromP, fromQ, p in w.playing || q in w.playing);
    case _ =>
  }

  // --- Sold at most once -----------------------------------------------------

  predicate NotOpenAt(a: AccountRow, id: int) {
    forall l :: l in a.listings && l.id == id ==> !IsOpen(l)
  }

  predicate NowhereOpen(w: World, id: int) {
    forall i :: 0 <= i < |w.accounts| ==> NotOpenAt(w.accounts[i], id)
  }

  predicate ListsId(e: Event, id: int) {
    e.ListWeapon? && e.itemId == id
  }

  lemma StaysDown(rules: Rules, w: World, e: Event, id: int)
    requires NowhereOpen(w, id) && !ListsId(e, id) && Call(rules, w, e).Done?
    ensures NowhereOpen(Call(rules, w, e).value, id)
  {
    match e
    case Claim(who) => FilterMembers(IsOpen, w.accounts[who].listings);
    case Settle(_, _) => PairStaysDown(rules, w, e, id);
    case Exchange(_, _, _, _) => PairStaysDown(rules, w, e, id);
    case _ =>
  }

  lemma PairStaysDown(rules: Rules, w: World, e: Event, id: int)
    requires NowhereOpen(w, id) && BetweenTwo(e) && Call(rules, w, e).Done?
    ensures NowhereOpen(Call(rules, w, e).value, id)
  {
    match e
    case Settle(buy, at) =>
      var seller, buyer := w.accounts[buy.seller], w.accounts[buy.buyer];
      SellerStaysDown(rules, seller, buyer, buy.buyer in w.playing, buy.listingId, at, id);
    case Exchange(p, q, fromP, fromQ) =>
      TradeLeavesListings(w.accounts[p], w.accounts[q], fromP, fromQ, p in w.playing || q in w.playing);
  }

  lemma SellerStaysDown(
      rules: Rules, seller: AccountRow, buyer: AccountRow, inPlay: bool, listingId: int, at: int, id: int)
    requires NotOpenAt(seller, id)
    requires BuyOutcome(rules, seller, buyer, inPlay, listingId, at).Done?
    ensures var sale := BuyOutcome(rules, seller, buyer, inPlay, listingId, at).value;
            NotOpenAt(sale.seller, id) && sale.buyer.listings == buyer.listings
  {
  }

  lemma TradeLeavesListings(a: AccountRow, b: AccountRow, fromA: Offer, fromB: Offer, inPlay: bool)
    requires TradeOutcome(a, b, fromA, fromB, inPlay).Done?
    ensures var rows := TradeOutcome(a, b, fromA, fromB, inPlay).value;
            rows.0.listings == a.listings && rows.1.listings == b.listings
  {
  }

  /** When the id lies in one place, that place being the bag means no open listing carries it. */
  lemma InBagMeansNotListed(w: World, who: nat, id: nat)
    requires Places(w, id) == 1
    requires who < |w.accounts| && exists x :: x in w.accounts[who].items && x.id == id
    ensures NowhereOpen(w, id)
  {
    var f := Named(id);
    var x :| x in w.accounts[who].items && x.id == id;
    var k :| 0 <= k < |w.accounts[who].items| && w.accounts[who].items[k] == x;
    HoldsIsNonNegative(id, w.accounts);
    forall i, l | 0 <= i < |w.accounts| && l in w.accounts[i].listings && l.id == id
      ensures !IsOpen(l)
    {
      if IsOpen(l) {
        var m :| 0 <= m < |w.accounts[i].listings| && w.accounts[i].listings[m] == l;
        SumBounds(BagWeight(f), w.accounts[who].items, k);
        assert Named(id)(ItemWeapon(x)) == 1 && Named(id)(ListingWeapon(l)) == 1;
        assert OpenWeight(f)(l) == 1 && BagWeight(f)(x) == 1;
        SumBounds(OpenWeight(f), w.accounts[i].listings, m);
        SumNonNegative(OpenWeight(f), w.accounts[who].listings);
        SumNonNegative(BagWeight(f), w.accounts[i].items);
        if i == who {
          SumBounds(Holds(f), w.accounts, who);
        } else {
          var rest := w.accounts[..who] + w.accounts[who + 1..];
          SumRemove(Holds(f), w.accounts, who);
          var at := if i < who then i else i - 1;
          assert rest[at] == w.accounts[i];
          assert forall a :: a in rest ==> a in w.accounts;
          SumBounds(Holds(f), rest, at);
        }
        assert false;
      }
    }
  }

  lemma HoldsIsNonNegative(id: nat, accounts: seq<AccountRow>)
    ensures forall a :: a in accounts ==> Holds(Named(id))(a) >= 0
  {
    var f := Named(id);
    forall a | a in accounts
      ensures Holds(f)(a) >= 0
    {
      SumNonNegative(BagWeight(f), a.items);
      SumNonNegative(OpenWeight(f), a.listings);
    }
  }

  /** A sold weapon is in its buyer's bag and on no open listing. */
  lemma SaleTakesDown(rules: Rules, w: World, sale: Event)
    requires sale.Settle? && sale.buy.listingId >= 0
    requires Places(w, sale.buy.listingId) == 1 && Call(rules, w, sale).Done?
    ensures NowhereOpen(Call(rules, w, sale).value, sale.buy.listingId)
  {
    var id := sale.buy.listingId;
    var sold := Call(rules, w, sale).value;
    CallKeepsTotals(Named(id), rules, w, sale);
    var bag := sold.accounts[sale.buy.buyer].items;
    assert bag[|bag| - 1].id == id && bag[|bag| - 1] in bag;
    InBagMeansNotListed(sold, sale.buy.buyer, id);
  }

  /** What is open nowhere cannot be settled. */
  lemma NothingToSettle(rules: Rules, w: World, again: Event)
    requires again.Settle?
    requires again.buy.seller < |w.accounts| ==> NotOpenAt(w.accounts[again.buy.seller], again.buy.listingId)
    ensures Call(rules, w, again).Refused?
  {
    if again.buy.seller < |w.accounts| {
      var ls := w.accounts[again.buy.seller].listings;
      var i := ListingNamed(ls, again.buy.listingId);
      assert i < |ls| ==> ls[i] in ls;
    }
  }

  /** A scan remembers its seller exactly when an open listing of another is found there, and changes nothing else. */
  lemma ScanFindsIff(rules: Rules, w: World, buyer: nat, seller: nat, id: int)
    requires buyer < |w.accounts| && seller < |w.accounts|
    ensures Call(rules, w, Scan(buyer, seller, id)).Done? <==>
              && id > 0 && buyer !in w.playing && buyer != seller
              && exists l :: l in w.accounts[seller].listings && l.id == id && IsOpen(l)
    ensures Call(rules, w, Scan(buyer, seller, id)).Done? ==>
              Call(rules, w, Scan(buyer, seller, id)).value ==
              w.(pending := w.pending + {PendingBuy(buyer, seller, id)})
  {
    var listings := w.accounts[seller].listings;
    var i := ListingNamed(listings, id);
    if i < |listings| {
      assert listings[i] in listings;
    }
  }

  /** A call on one account goes through exactly as its own outcome on that row does, and moves that row alone. */
  lemma OwnCallsHappenIff(rules: Rules, w: World, who: nat, id: int, price: int, at: int)
    requires who < |w.accounts|
    ensures var a, inPlay := w.accounts[who], who in w.playing;
            && (Call(rules, w, ListWeapon(who, id, price, at)).Done? <==>
                  && !inPlay && MayTrade(a) && id > 0 && HasLoose(a, id) && FairPrice(rules, a, id, price)
                  && |OpenListings(a)| < SlotsFor(rules, a))
            && (Call(rules, w, Claim(who)).Done? <==> !inPlay)
            && forall e ::
                 e in [ListWeapon(who, id, price, at), Cancel(who, id), Claim(who)] && Call(rules, w, e).Done? ==>
                 Call(rules, w, e).value == w.(accounts := w.accounts[who := OwnRow(rules, w, e)])
    ensures forall i: nat :: OneOpen(w.accounts[who].listings, id, i) && id > 0 ==>
              (Call(rules, w, Cancel(who, id)).Done? <==> who !in w.playing && HasRoom(w.accounts[who]))
  {
    ListHappensIff(rules, w.accounts[who], who in w.playing, id, price, at);
    ClaimPays(w.accounts[who], who in w.playing);
    forall i: nat | OneOpen(w.accounts[who].listings, id, i) && id > 0
      ensures Call(rules, w, Cancel(who, id)).Done? <==> who !in w.playing && HasRoom(w.accounts[who])
    {
      CancelHappensIff(w.accounts[who], who in w.playing, id, i);
    }
  }

  /** The row a listing, cancel or claim leaves, by its own outcome; the row as it was when there is none. */
  function OwnRow(rules: Rules, w: World, e: Event): AccountRow
    requires (e.ListWeapon? || e.Cancel? || e.Claim?) && e.who < |w.accounts|
  {
    var a, inPlay := w.accounts[e.who], e.who in w.playing;
    var r := match e
      case ListWeapon(_, itemId, price, at) => ListOutcome(rules, a, inPlay, itemId, price, at)
      case Cancel(_, listingId) => CancelOutcome(a, inPlay, listingId)
      case Claim(_) => ClaimOutcome(a, inPlay);
    if r.Done? then r.value else a
  }

  /** A settlement and a trade go through exactly as their outcomes on the two rows do, and move those rows alone. */
  lemma PairCallsHappenIff(
      rules: Rules, w: World, first: nat, second: nat, fromFirst: Offer, fromSecond: Offer, id: int, at: int)
    requires first < |w.accounts| && second < |w.accounts| && first != second
    ensures var a, b, inPlay := w.accounts[first], w.accounts[second], first in w.playing || second in w.playing;
            var buy := PendingBuy(first, second, id);
            var trade, sale := TradeOutcome(a, b, fromFirst, fromSecond, inPlay),
                               BuyOutcome(rules, b, a, first in w.playing, id, at);
            && (Call(rules, w, Exchange(first, second, fromFirst, fromSecond)).Done? <==> trade.Done?)
            && (trade.Done? ==>
                  Call(rules, w, Exchange(first, second, fromFirst, fromSecond)).value ==
                  w.(accounts := w.accounts[first := trade.value.0][second := trade.value.1]))
            && (Call(rules, w, Settle(buy, at)).Done? <==> buy in w.pending && sale.Done?)
            && (buy in w.pending && sale.Done? ==>
                  Call(rules, w, Settle(buy, at)).value ==
                  w.(accounts := w.accounts[first := sale.value.buyer][second := sale.value.seller],
                     pending := w.pending - {buy}, taxTaken := w.taxTaken + sale.value.tax))
  {
    if BuyOutcome(rules, w.accounts[second], w.accounts[first], first in w.playing, id, at).Done? {
      var sale := BuyOutcome(rules, w.accounts[second], w.accounts[first], first in w.playing, id, at).value;
      assert w.accounts[second := sale.seller][first := sale.buyer] ==
             w.accounts[first := sale.buyer][second := sale.seller];
    }
  }
}
