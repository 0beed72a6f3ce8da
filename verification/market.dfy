// The player market: a weapon moves between a bag and a listing of the same
// account, or from a seller's listing into a buyer's bag against gold.
//
// `...Outcome` functions say what one call does to the account rows it locks;
// the class LiveAccount does the same in place, on the object the server shares.
module Market {
  import opened Options
  import opened Sums

  /** A nullable column of a weapon row. */
  type Column = Option<int>

  /** What makes a weapon that weapon, wherever it lies. */
  datatype Weapon = Weapon(
    id: nat, itemId: int, power: Column, requiredLevel: Column, rarity: Column,
    modifier1: Column, modifier2: Column, legendaryModifier: Column, created: Column)

  /** A row of `account_items`. avatarId 0 is "in nobody's hand". */
  datatype Item = Item(
    id: nat, accountId: nat, itemId: int, power: Column, avatarId: nat, avatarSlot: Column, isNew: bool,
    requiredLevel: Column, rarity: Column, modifier1: Column, modifier2: Column,
    legendaryModifier: Column, created: Column)

  const MAX_PRICE: int := 2_000_000_000

  type Price = n: int | 0 <= n <= MAX_PRICE

  /** A row of `market_listings`: open while soldTo is None. */
  datatype Listing = Listing(
    id: nat, itemId: int, price: Price, listedAt: int, soldTo: Option<nat>, soldAt: Option<int>,
    tax: Option<nat>, proceeds: Option<nat>, power: Column, requiredLevel: Column, rarity: Column,
    modifier1: Column, modifier2: Column, legendaryModifier: Column, created: Column)

  datatype AccountRow = AccountRow(
    id: nat, gold: int, items: seq<Item>, listings: seq<Listing>,
    chests: nat, weaponBuckets: int, heroes: nat, barred: bool, restricted: bool)

  /** The settings of this server's market. */
  datatype Settings = Settings(
    taxRate: real, slotsPerHero: nat, delayMs: int, ceiling: Item -> int,
    // What a floating-point product comes out as.
    rounded: real -> real)

  datatype Reason =
    | BadPrice | BadListing | InDungeon | Barred | Restricted | NotOwned | Equipped | NoSlots
    | OverCeiling | OwnListing | Gone | NotEnoughGold | NoRoom | AlreadySold | BadOffer

  function Gold(n: int): real { n as real }

  /** All that is used of rounding: it keeps order, and the whole numbers a price can be. */
  ghost predicate Rounds(rounded: real -> real) {
    && (forall x: real, y: real :: x <= y ==> rounded(x) <= rounded(y))
    && (forall n: nat :: n <= MAX_PRICE ==> rounded(Gold(n)) == Gold(n))
  }

  ghost predicate ValidRules(rules: Settings) {
    0.0 <= rules.taxRate <= 0.9 && Rounds(rules.rounded)
  }

  function AsIs(): real -> real {
    (x: real) => x
  }

  function NoCeiling(): Item -> int {
    (i: Item) => MAX_PRICE
  }

  const PLAIN: Settings := Settings(0.0, 1, 0, NoCeiling(), AsIs())

  /** The configuration lets no others through. */
  type Rules = rules: Settings | ValidRules(rules) witness PLAIN

  function ItemWeapon(i: Item): Weapon {
    Weapon(i.id, i.itemId, i.power, i.requiredLevel, i.rarity, i.modifier1, i.modifier2, i.legendaryModifier, i.created)
  }

  function ListingWeapon(l: Listing): Weapon {
    Weapon(l.id, l.itemId, l.power, l.requiredLevel, l.rarity, l.modifier1, l.modifier2, l.legendaryModifier, l.created)
  }

  predicate IsOpen(l: Listing) { l.soldTo.None? }

  predicate IsSold(l: Listing) { !IsOpen(l) }

  // --- How full, how many, how much -----------------------------------------

  function SlotWeight(): Item -> int {
    (i: Item) => if i.avatarId == 0 then 1 else 0
  }

  function OccupiedSlots(a: AccountRow): int {
    Sum(SlotWeight(), a.items) + a.chests
  }

  predicate WithinStorage(a: AccountRow) {
    OccupiedSlots(a) <= a.weaponBuckets
  }

  function OpenListings(a: AccountRow): seq<Listing> {
    Filter(IsOpen, a.listings)
  }

  function SlotsFor(rules: Rules, a: AccountRow): nat {
    (if a.heroes > 1 then a.heroes else 1) * rules.slotsPerHero
  }

  /** Math.round of the rounded product of a price and the rate. */
  function TaxOf(rules: Rules, price: Price): int {
    (rules.rounded(Part(Gold(price), rules.taxRate)) + 0.5).Floor
  }

  function Part(price: real, rate: real): real { price * rate }

  lemma PartStaysWithin(p: real, r: real)
    requires 0.0 <= p && 0.0 <= r <= 0.9
    ensures 0.0 <= Part(p, r) <= p
  {
    assert p * (1.0 - r) >= 0.0;
    assert p * (1.0 - r) == p - p * r;
  }

  lemma RoundedStaysWithin(rounded: real -> real, price: Price, part: real)
    requires Rounds(rounded) && 0.0 <= part <= Gold(price)
    ensures 0.0 <= rounded(part) <= Gold(price)
  {
    assert rounded(Gold(0)) == Gold(0) && rounded(Gold(price)) == Gold(price);
    assert rounded(Gold(0)) <= rounded(part) <= rounded(Gold(price));
  }

  lemma NearestStaysWithin(price: Price, part: real)
    requires 0.0 <= part <= Gold(price)
    ensures 0 <= (part + 0.5).Floor <= price
  {
    assert 0.0 <= part + 0.5 < Gold(price) + 1.0;
  }

  /** Neither share of a price is negative, for any rate the configuration lets through and however products round. */
  lemma ShareIsWithinPrice(rules: Rules, price: Price)
    ensures 0 <= TaxOf(rules, price) <= price
  {
    var part := Part(Gold(price), rules.taxRate);
    PartStaysWithin(Gold(price), rules.taxRate);
    RoundedStaysWithin(rules.rounded, price, part);
    NearestStaysWithin(price, rules.rounded(part));
  }

  // --- Finding rows ----------------------------------------------------------

  function ItemNumbered(id: int): Item -> bool {
    (i: Item) => i.id == id
  }

  /** A listing with that id, and open if asked for. */
  function ListingNumbered(id: int, openOnly: bool): Listing -> bool {
    (l: Listing) => l.id == id && (openOnly ==> IsOpen(l))
  }

  /** The listing an id names: the open one if there is one, else the first. */
  function ListingNamed(listings: seq<Listing>, id: int): (i: nat)
    ensures i <= |listings|
    ensures i < |listings| ==> listings[i].id == id
    ensures i == |listings| <==> forall l :: l in listings ==> l.id != id
    ensures (exists l :: l in listings && l.id == id && IsOpen(l)) ==> i < |listings| && IsOpen(listings[i])
  {
    var open := FirstWhere(ListingNumbered(id, true), listings);
    if open < |listings| then open else FirstWhere(ListingNumbered(id, false), listings)
  }

  // --- The row builders ------------------------------------------------------

  function AsListing(i: Item, price: Price, now: int): (l: Listing)
    ensures ListingWeapon(l) == ItemWeapon(i) && IsOpen(l)
  {
    Listing(
      id := i.id, itemId := i.itemId, price := price, listedAt := now, soldTo := None, soldAt := None,
      tax := None, proceeds := None, power := i.power, requiredLevel := i.requiredLevel, rarity := i.rarity,
      modifier1 := i.modifier1, modifier2 := i.modifier2, legendaryModifier := i.legendaryModifier,
      created := i.created)
  }

  function AsItem(l: Listing, accountId: nat): (i: Item)
    ensures ItemWeapon(i) == ListingWeapon(l) && i.avatarId == 0
  {
    Item(
      id := l.id, accountId := accountId, itemId := l.itemId, power := l.power, avatarId := 0, avatarSlot := None,
      isNew := true, requiredLevel := l.requiredLevel, rarity := l.rarity, modifier1 := l.modifier1,
      modifier2 := l.modifier2, legendaryModifier := l.legendaryModifier, created := l.created)
  }

  // --- What each call does ---------------------------------------------------

  predicate IsUp(rules: Rules, l: Listing, now: int) {
    l.listedAt + (if rules.delayMs > 0 then rules.delayMs else 0) <= now
  }

  function ListOutcome(rules: Rules, a: AccountRow, inPlay: bool, itemId: int, price: int, now: int)
    : Outcome<AccountRow, Reason>
  {
    if price < 1 || price > MAX_PRICE then Refused(BadPrice)
    else if itemId <= 0 then Refused(BadListing)
    else if inPlay then Refused(InDungeon)
    else if a.barred then Refused(Barred)
    else if a.restricted then Refused(Restricted)
    else
      var i := FirstWhere(ItemNumbered(itemId), a.items);
      if i == |a.items| then Refused(NotOwned)
      else if a.items[i].avatarId != 0 then Refused(Equipped)
      else if |OpenListings(a)| >= SlotsFor(rules, a) then Refused(NoSlots)
      else if price > rules.ceiling(a.items[i]) then Refused(OverCeiling)
      else Done(a.(
        items := a.items[..i] + a.items[i + 1..],
        listings := a.listings + [AsListing(a.items[i], price, now)]))
  }

  /** A settled sale: the seller's row, the buyer's row and the tax that left the economy. */
  datatype Sale = Sale(seller: AccountRow, buyer: AccountRow, tax: nat)

  function BuyOutcome(rules: Rules, seller: AccountRow, buyer: AccountRow, buyerInPlay: bool, listingId: int, now: int)
    : Outcome<Sale, Reason>
  {
    if buyerInPlay then Refused(InDungeon)
    else if buyer.barred then Refused(Barred)
    else if buyer.restricted then Refused(Restricted)
    else if seller.restricted then Refused(Gone)
    else
      var i := ListingNamed(seller.listings, listingId);
      if i == |seller.listings| || !IsOpen(seller.listings[i]) then Refused(Gone)
      else if !IsUp(rules, seller.listings[i], now) then Refused(Gone)
      else
        var l := seller.listings[i];
        if l.price > buyer.gold then Refused(NotEnoughGold)
        else if OccupiedSlots(buyer) + 1 > buyer.weaponBuckets then Refused(NoRoom)
        else
          ShareIsWithinPrice(rules, l.price);
          var tax := TaxOf(rules, l.price);
          var sold := l.(
            soldTo := Some(buyer.id), soldAt := Some(now), tax := Some(tax), proceeds := Some(l.price - tax));
          Done(Sale(
            seller.(listings := seller.listings[i := sold]),
            buyer.(gold := buyer.gold - l.price, items := buyer.items + [AsItem(l, buyer.id)]),
            tax))
  }

  function CancelOutcome(a: AccountRow, inPlay: bool, listingId: int): Outcome<AccountRow, Reason> {
    if listingId <= 0 then Refused(BadListing)
    else if inPlay then Refused(InDungeon)
    else
      var i := ListingNamed(a.listings, listingId);
      if i == |a.listings| then Refused(Gone)
      else if !IsOpen(a.listings[i]) then Refused(AlreadySold)
      else if OccupiedSlots(a) + 1 > a.weaponBuckets then Refused(NoRoom)
      else Done(a.(
        listings := a.listings[..i] + a.listings[i + 1..],
        items := a.items + [AsItem(a.listings[i], a.id)]))
  }

  /** What a sold row still owes its seller; a row from before the tax owes its price. */
  function OwedBy(l: Listing): int {
    if IsOpen(l) then 0 else if l.proceeds.Some? then l.proceeds.value else l.price
  }

  function ClaimOutcome(a: AccountRow, inPlay: bool): Outcome<AccountRow, Reason> {
    if inPlay then Refused(InDungeon)
    else if Filter(IsSold, a.listings) == [] then Done(a)
    else Done(a.(gold := a.gold + Sum(OwedBy, a.listings), listings := OpenListings(a)))
  }

  // --- When a call goes through ----------------------------------------------

  predicate MayTrade(a: AccountRow) { !a.barred && !a.restricted }

  predicate HasRoom(a: AccountRow) { OccupiedSlots(a) < a.weaponBuckets }

  /** The first item under an id is in nobody's hand. */
  predicate HasLoose(a: AccountRow, itemId: int) {
    var i := FirstWhere(ItemNumbered(itemId), a.items);
    i < |a.items| && a.items[i].avatarId == 0
  }

  /** A sum of money the ceiling and the market allow for that weapon. */
  predicate FairPrice(rules: Rules, a: AccountRow, itemId: int, price: int)
    requires HasLoose(a, itemId)
  {
    1 <= price <= MAX_PRICE && price <= rules.ceiling(a.items[FirstWhere(ItemNumbered(itemId), a.items)])
  }

  lemma ListHappensIff(rules: Rules, a: AccountRow, inPlay: bool, itemId: int, price: int, now: int)
    ensures ListOutcome(rules, a, inPlay, itemId, price, now).Done? <==>
              && !inPlay && MayTrade(a) && itemId > 0 && HasLoose(a, itemId) && FairPrice(rules, a, itemId, price)
              && |OpenListings(a)| < SlotsFor(rules, a)
    ensures ListOutcome(rules, a, inPlay, itemId, price, now).Done? ==>
              var b := ListOutcome(rules, a, inPlay, itemId, price, now).value;
              && b.listings != [] && b.listings[|b.listings| - 1].price == price
              && b.listings[|b.listings| - 1].id == itemId && b.listings[..|b.listings| - 1] == a.listings
  {
  }

  /** Exactly one open row carries the id. */
  predicate OneOpen(listings: seq<Listing>, id: int, i: nat) {
    && i < |listings| && listings[i].id == id && IsOpen(listings[i])
    && forall j :: 0 <= j < |listings| && j != i && listings[j].id == id ==> !IsOpen(listings[j])
  }

  /** Whichever sold rows stand before or behind it, the one open row is the one an id names. */
  lemma OpenRowIsNamed(listings: seq<Listing>, id: int, i: nat)
    requires OneOpen(listings, id, i)
    ensures ListingNamed(listings, id) == i
  {
    assert listings[i] in listings;
  }

  /**
   * A purchase goes through exactly when the listing is still open and up, the gold
   * and the room are there, and neither side is kept out; it costs the price, brings
   * the very weapon, and marks that row sold to the buyer with price and tax accounted for.
   */
  lemma BuyHappensIff(rules: Rules, seller: AccountRow, buyer: AccountRow, inPlay: bool, id: int, now: int, i: nat)
    requires OneOpen(seller.listings, id, i)
    ensures var l := seller.listings[i];
            var r := BuyOutcome(rules, seller, buyer, inPlay, id, now);
            && (r.Done? <==> !inPlay && MayTrade(buyer) && !seller.restricted && IsUp(rules, l, now)
                             && l.price <= buyer.gold && HasRoom(buyer))
            && (r.Done? ==>
                  && r.value.buyer.gold + l.price == buyer.gold && r.value.seller.gold == seller.gold
                  && r.value.buyer.items[..|buyer.items|] == buyer.items && |r.value.buyer.items| == |buyer.items| + 1
                  && ItemWeapon(r.value.buyer.items[|buyer.items|]) == ListingWeapon(l)
                  && |r.value.seller.listings| == |seller.listings|
                  && r.value.seller.listings[i].soldTo == Some(buyer.id)
                  && OwedBy(r.value.seller.listings[i]) + r.value.tax == l.price
                  && forall j :: 0 <= j < |seller.listings| && j != i ==>
                       r.value.seller.listings[j] == seller.listings[j])
  {
    OpenRowIsNamed(seller.listings, id, i);
  }

  /** A row comes down exactly when it is open and there is room for its weapon. */
  lemma CancelHappensIff(a: AccountRow, inPlay: bool, id: int, i: nat)
    requires OneOpen(a.listings, id, i) && id > 0
    ensures CancelOutcome(a, inPlay, id).Done? <==> !inPlay && HasRoom(a)
    ensures CancelOutcome(a, inPlay, id).Done? ==>
              var b := CancelOutcome(a, inPlay, id).value;
              && b.items[..|a.items|] == a.items && |b.items| == |a.items| + 1
              && ItemWeapon(b.items[|a.items|]) == ListingWeapon(a.listings[i])
              && forall l :: l in b.listings && l.id == id ==> !IsOpen(l)
  {
    OpenRowIsNamed(a.listings, id, i);
  }

  // --- Field by field --------------------------------------------------------

  /** The tax is the whole number nearest to the rounded product of price and rate, the upper one of two. */
  lemma TaxIsNearest(rules: Rules, price: Price)
    ensures -0.5 < TaxOf(rules, price) as real - rules.rounded(price as real * rules.taxRate) <= 0.5
  {
  }

  /** The listing a weapon becomes, the place it leaves, and nothing else. */
  lemma ListsTheWeapon(rules: Rules, a: AccountRow, inPlay: bool, itemId: int, price: int, now: int) returns (k: nat)
    requires ListOutcome(rules, a, inPlay, itemId, price, now).Done?
    ensures k < |a.items| && a.items[k].id == itemId && a.items[k].avatarId == 0
    ensures forall j :: 0 <= j < k ==> a.items[j].id != itemId
    ensures 1 <= price <= MAX_PRICE && price <= rules.ceiling(a.items[k])
    ensures var i := a.items[k];
            var l := Listing(i.id, i.itemId, price, now, None, None, None, None, i.power, i.requiredLevel, i.rarity,
                             i.modifier1, i.modifier2, i.legendaryModifier, i.created);
            ListOutcome(rules, a, inPlay, itemId, price, now).value
            == a.(items := a.items[..k] + a.items[k + 1..], listings := a.listings + [l])
  {
    k := FirstWhere(ItemNumbered(itemId), a.items);
  }

  /** What a purchase makes of both rows, field by field. */
  lemma BuysTheWeapon(rules: Rules, seller: AccountRow, buyer: AccountRow, inPlay: bool, id: int, now: int, i: nat)
    requires OneOpen(seller.listings, id, i) && BuyOutcome(rules, seller, buyer, inPlay, id, now).Done?
    ensures var sale, l := BuyOutcome(rules, seller, buyer, inPlay, id, now).value, seller.listings[i];
            && 0 <= sale.tax <= l.price
            && sale.seller == seller.(listings := seller.listings[i := l.(
                 soldTo := Some(buyer.id), soldAt := Some(now), tax := Some(sale.tax),
                 proceeds := Some(l.price - sale.tax))])
            && sale.buyer == buyer.(
                 gold := buyer.gold - l.price,
                 items := buyer.items + [Item(
                   l.id, buyer.id, l.itemId, l.power, 0, None, true, l.requiredLevel, l.rarity,
                   l.modifier1, l.modifier2, l.legendaryModifier, l.created)])
  {
    OpenRowIsNamed(seller.listings, id, i);
    ShareIsWithinPrice(rules, seller.listings[i].price);
  }

  /** And the tax a purchase settles, by its value. */
  lemma BuyTaxesThePrice(rules: Rules, seller: AccountRow, buyer: AccountRow, inPlay: bool, id: int, now: int, i: nat)
    requires OneOpen(seller.listings, id, i) && BuyOutcome(rules, seller, buyer, inPlay, id, now).Done?
    ensures var product := rules.rounded(seller.listings[i].price as real * rules.taxRate);
            -0.5 < BuyOutcome(rules, seller, buyer, inPlay, id, now).value.tax as real - product <= 0.5
  {
    OpenRowIsNamed(seller.listings, id, i);
    var price := seller.listings[i].price;
    var tax := BuyOutcome(rules, seller, buyer, inPlay, id, now).value.tax;
    assert tax == TaxOf(rules, price);
    TaxIsNearest(rules, price);
  }

  /** What taking a listing down makes of the row; with no open row of that id it is refused. */
  lemma TakesTheWeaponBack(a: AccountRow, inPlay: bool, id: int)
    ensures CancelOutcome(a, inPlay, id).Done? ==>
              exists i :: 0 <= i < |a.listings| && a.listings[i].id == id && a.listings[i].soldTo.None?
    ensures forall i: nat :: CancelOutcome(a, inPlay, id).Done? && OneOpen(a.listings, id, i) ==>
              var l := a.listings[i];
              CancelOutcome(a, inPlay, id).value
              == a.(listings := a.listings[..i] + a.listings[i + 1..],
                    items := a.items + [Item(
                      l.id, a.id, l.itemId, l.power, 0, None, true, l.requiredLevel, l.rarity,
                      l.modifier1, l.modifier2, l.legendaryModifier, l.created)])
  {
    forall i: nat | OneOpen(a.listings, id, i)
      ensures ListingNamed(a.listings, id) == i
    {
      OpenRowIsNamed(a.listings, id, i);
    }
  }

  /** What one sold row pays: its proceeds, or its price if it was sold before there was a tax. */
  function Paid(): Listing -> int {
    (l: Listing) => if l.soldTo.None? then 0 else if l.proceeds.Some? then l.proceeds.value else l.price
  }

  function StillOpen(): Listing -> bool {
    (l: Listing) => l.soldTo.None?
  }

  /** A claim goes through exactly when the seller is not playing; it pays every sold row and leaves the open ones. */
  lemma ClaimPays(a: AccountRow, inPlay: bool)
    ensures ClaimOutcome(a, inPlay).Done? <==> !inPlay
    ensures ClaimOutcome(a, inPlay).Done? ==>
              ClaimOutcome(a, inPlay).value
              == a.(gold := a.gold + Sum(Paid(), a.listings), listings := Filter(StillOpen(), a.listings))
  {
    SumEqual(OwedBy, Paid(), a.listings);
    FilterEqual(IsOpen, StillOpen(), a.listings);
    if Filter(IsSold, a.listings) == [] {
      NothingSold(a.listings);
    }
  }

  lemma NothingSold(listings: seq<Listing>)
    requires Filter(IsSold, listings) == []
    ensures Sum(Paid(), listings) == 0 && Filter(StillOpen(), listings) == listings
  {
    FilterMembers(IsSold, listings);
    assert forall l :: l in listings ==> !IsSold(l);
    FilterAll(StillOpen(), listings);
    NothingToPay(listings);
  }

  lemma {:induction false} NothingToPay(listings: seq<Listing>)
    requires forall l :: l in listings ==> l.soldTo.None?
    ensures Sum(Paid(), listings) == 0
  {
    if listings == [] {
    } else {
      assert listings[0] in listings && forall l :: l in listings[1..] ==> l in listings;
      NothingToPay(listings[1..]);
    }
  }

  function InNoHand(): Item -> bool {
    (i: Item) => i.avatarId == 0
  }

  lemma {:induction false} SlotsAreLooseWeapons(items: seq<Item>)
    ensures Sum(SlotWeight(), items) == |Filter(InNoHand(), items)|
  {
    if items == [] {
    } else {
      SlotsAreLooseWeapons(items[1..]);
    }
  }

  /** Storage counts loose weapons and chests; a stall grows with the heroes; a listing is up after the delay. */
  lemma RoomSlotsAndDelay(rules: Rules, a: AccountRow, l: Listing, now: int)
    ensures OccupiedSlots(a) == |Filter(InNoHand(), a.items)| + a.chests
    ensures SlotsFor(rules, a) == if a.heroes == 0 then rules.slotsPerHero else a.heroes * rules.slotsPerHero
    ensures |OpenListings(a)| == |Filter(StillOpen(), a.listings)|
    ensures IsUp(rules, l, now) <==> l.listedAt <= now && l.listedAt + rules.delayMs <= now
  {
    SlotsAreLooseWeapons(a.items);
    FilterEqual(IsOpen, StillOpen(), a.listings);
  }

  // --- The account object ----------------------------------------------------

  /** The account as the server holds it: one object, changed in place by every holder. */
  class LiveAccount {
    const id: nat
    var gold: int
    var items: seq<Item>
    var listings: seq<Listing>
    var chests: nat
    var weaponBuckets: int
    var heroes: nat
    var barred: bool
    var restricted: bool

    constructor (row: AccountRow)
      ensures Row() == row
    {
      id, gold, items, listings := row.id, row.gold, row.items, row.listings;
      chests, weaponBuckets, heroes := row.chests, row.weaponBuckets, row.heroes;
      barred, restricted := row.barred, row.restricted;
    }

    function Row(): AccountRow
      reads this
    {
      AccountRow(id, gold, items, listings, chests, weaponBuckets, heroes, barred, restricted)
    }

    method ListForSale(rules: Rules, inPlay: bool, itemId: int, price: int, now: int) returns (refusal: Option<Reason>)
      modifies this`items, this`listings
      ensures match ListOutcome(rules, old(Row()), inPlay, itemId, price, now)
              case Done(row) => refusal == None && Row() == row
              case Refused(reason) => refusal == Some(reason) && Row() == old(Row())
    {
      if price < 1 || price > MAX_PRICE { return Some(BadPrice); }
      if itemId <= 0 { return Some(BadListing); }
      if inPlay { return Some(InDungeon); }
      if barred { return Some(Barred); }
      if restricted { return Some(Restricted); }
      var i := FirstWhere(ItemNumbered(itemId), items);
      if i == |items| { return Some(NotOwned); }
      var item := items[i];
      if item.avatarId != 0 { return Some(Equipped); }
      if |OpenListings(Row())| >= SlotsFor(rules, Row()) { return Some(NoSlots); }
      if price > rules.ceiling(item) { return Some(OverCeiling); }
      items := items[..i] + items[i + 1..];
      listings := listings + [AsListing(item, price, now)];
      return None;
    }

    /** Buys from seller into this account; answers the refusal, or the tax the sale settled. */
    method Buy(rules: Rules, seller: LiveAccount, inPlay: bool, listingId: int, now: int)
      returns (refusal: Option<Reason>, tax: nat)
      requires seller != this
      modifies this`gold, this`items, seller`listings
      ensures match BuyOutcome(rules, old(seller.Row()), old(Row()), inPlay, listingId, now)
              case Done(sale) =>
                refusal == None && tax == sale.tax && seller.Row() == sale.seller && Row() == sale.buyer
              case Refused(reason) =>
                refusal == Some(reason) && tax == 0 && seller.Row() == old(seller.Row()) && Row() == old(Row())
    {
      tax := 0;
      if inPlay { return Some(InDungeon), 0; }
      if barred { return Some(Barred), 0; }
      if restricted { return Some(Restricted), 0; }
      if seller.restricted { return Some(Gone), 0; }
      var i := ListingNamed(seller.listings, listingId);
      if i == |seller.listings| || !IsOpen(seller.listings[i]) { return Some(Gone), 0; }
      var listing := seller.listings[i];
      if !IsUp(rules, listing, now) { return Some(Gone), 0; }
      if listing.price > gold { return Some(NotEnoughGold), 0; }
      if OccupiedSlots(Row()) + 1 > weaponBuckets { return Some(NoRoom), 0; }
      gold := gold - listing.price;
      items := items + [AsItem(listing, id)];
      ShareIsWithinPrice(rules, listing.price);
      tax := TaxOf(rules, listing.price);
      listing := listing.(soldTo := Some(id), soldAt := Some(now));
      listing := listing.(tax := Some(tax), proceeds := Some(listing.price - tax));
      seller.listings := seller.listings[i := listing];
      return None, tax;
    }

    method Cancel(inPlay: bool, listingId: int) returns (refusal: Option<Reason>)
      modifies this`items, this`listings
      ensures match CancelOutcome(old(Row()), inPlay, listingId)
              case Done(row) => refusal == None && Row() == row
              case Refused(reason) => refusal == Some(reason) && Row() == old(Row())
    {
      if listingId <= 0 { return Some(BadListing); }
      if inPlay { return Some(InDungeon); }
      var i := ListingNamed(listings, listingId);
      if i == |listings| { return Some(Gone); }
      var listing := listings[i];
      if !IsOpen(listing) { return Some(AlreadySold); }
      if OccupiedSlots(Row()) + 1 > weaponBuckets { return Some(NoRoom); }
      listings := listings[..i] + listings[i + 1..];
      items := items + [AsItem(listing, id)];
      return None;
    }

    method Claim(inPlay: bool) returns (refusal: Option<Reason>)
      modifies this`gold, this`listings
      ensures match ClaimOutcome(old(Row()), inPlay)
              case Done(row) => refusal == None && Row() == row
              case Refused(reason) => refusal == Some(reason) && Row() == old(Row())
    {
      if inPlay { return Some(InDungeon); }
      if Filter(IsSold, listings) == [] { return None; }
      gold := gold + Sum(OwedBy, listings);
      listings := OpenListings(Row());
      return None;
    }
  }
}
