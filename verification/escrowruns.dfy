// Every interleaving of market and trade calls, and the rows each is given.
//
// A call that loads an account nobody plays is given the read under way, if there is
// one, and readers need no lock. So it may be given a row from before the last save.
// What such calls do to weapons and gold is exactly the difference between the rows
// given and the rows stored; without them nothing is ever lost or doubled.
module EscrowRuns {
  import opened Options
  import opened Sums
  import opened Market
  import opened Trade
  import opened Escrow

  // --- What a call is given --------------------------------------------------

  /** The live object of an account somebody plays; else the read under way; else what is stored. */
  function Given(w: World, who: nat): AccountRow
    requires who < |w.accounts|
  {
    if who !in w.playing && who in w.reading then w.reading[who] else w.accounts[who]
  }

  /** The accounts an event loads. Settings, hands and sizes change under the lock too, and to play is to load. */
  function Loads(e: Event): seq<nat> {
    match e
    case ListWeapon(who, _, _, _) => [who]
    case Scan(_, seller, _) => [seller]
    case Settle(buy, _) => [buy.seller, buy.buyer]
    case Cancel(who, _) => [who]
    case Claim(who) => [who]
    case Exchange(first, second, _, _) => [first, second]
    case Play(who, on) => if on then [who] else []
    case Restrict(who, _, _) => [who]
    case Wield(who, _, _) => [who]
    case Resize(who, _, _, _) => [who]
    case ReadOpens(_) => []
    case ReadEnds(_) => []
  }

  function GivenRows(w: World, loads: seq<nat>): (rows: seq<AccountRow>)
    ensures |rows| == |w.accounts|
    decreases |loads|
  {
    if loads == [] then w.accounts
    else
      var rest := GivenRows(w, loads[1..]);
      if loads[0] < |rest| then rest[loads[0] := Given(w, loads[0])] else rest
  }

  /** The world as the event sees it. */
  function Seen(w: World, e: Event): World {
    w.(accounts := GivenRows(w, Loads(e)))
  }

  /** The event goes through and saves what it loaded: a scan saves nothing, nor does a claim of nothing. */
  predicate Saves(rules: Rules, w: World, e: Event)
  {
    && Call(rules, Seen(w, e), e).Done? && !e.Scan?
    && (e.Claim? ==> Filter(IsSold, Given(w, e.who).listings) != [])
  }

  /** An event, and the accounts it saves that some reader opened while the save was under way. */
  datatype Step = Step(event: Event, reread: set<nat>)

  /** A read that was joined is over; one opened during the save has seen what was stored before it. */
  function StillReading(w: World, s: Step): map<nat, AccountRow> {
    map i | i in w.reading.Keys + s.reread && IsReading(w, s, i) ::
      if i in s.reread && i in Loads(s.event) && i < |w.accounts| && i !in w.playing
      then w.accounts[i] else w.reading[i]
  }

  predicate IsReading(w: World, s: Step, i: nat) {
    if i in w.playing || i !in Loads(s.event) then i in w.reading else i in s.reread && i < |w.accounts|
  }

  function Next(rules: Rules, w: World, s: Step): World
  {
    match Call(rules, Seen(w, s.event), s.event)
    case Refused(_) => w
    case Done(after) =>
      if !Saves(rules, w, s.event) then after.(accounts := w.accounts)
      else if s.event.ReadOpens? || s.event.ReadEnds? then after
      else after.(reading := StillReading(w, s))
  }

  function Run(rules: Rules, w: World, steps: seq<Step>): World
    decreases |steps|
  {
    if steps == [] then w else Run(rules, Next(rules, w, steps[0]), steps[1..])
  }

  // --- What old rows do ------------------------------------------------------

  /** How much more the rows given are than the rows stored. */
  function Drift(g: AccountRow -> int, w: World, loads: seq<nat>): int
    decreases |loads|
  {
    if loads == [] then 0
    else
      (if loads[0] < |w.accounts| then g(Given(w, loads[0])) - g(w.accounts[loads[0]]) else 0)
      + Drift(g, w, loads[1..])
  }

  predicate Different(loads: seq<nat>) {
    forall i, j :: 0 <= i < j < |loads| ==> loads[i] != loads[j]
  }

  lemma {:induction false} GivenElsewhere(w: World, loads: seq<nat>, i: nat)
    requires i < |w.accounts| && i !in loads
    ensures GivenRows(w, loads)[i] == w.accounts[i]
    decreases |loads|
  {
    if loads == [] {
    } else {
      assert loads[0] in loads && forall x :: x in loads[1..] ==> x in loads;
      GivenElsewhere(w, loads[1..], i);
    }
  }

  lemma {:induction false} GivenRowsDrift(g: AccountRow -> int, w: World, loads: seq<nat>)
    requires Different(loads)
    ensures Sum(g, GivenRows(w, loads)) == Sum(g, w.accounts) + Drift(g, w, loads)
    decreases |loads|
  {
    if loads == [] {
    } else {
      GivenRowsDrift(g, w, loads[1..]);
      if loads[0] < |w.accounts| {
        assert forall j :: 0 <= j < |loads[1..]| ==> loads[1..][j] == loads[j + 1] != loads[0];
        GivenElsewhere(w, loads[1..], loads[0]);
        SumUpdate(g, GivenRows(w, loads[1..]), loads[0], Given(w, loads[0]));
      }
    }
  }

  function StepDrift(g: AccountRow -> int, rules: Rules, w: World, e: Event): int
  {
    if Saves(rules, w, e) then Drift(g, w, Loads(e)) else 0
  }

  /**
   * A step changes the weight of all weapons, and the gold there is, by exactly what the
   * rows it was given are more than the rows stored.
   */
  lemma StepMovesByDrift(f: Weapon -> int, rules: Rules, w: World, s: Step)
    ensures var v := Next(rules, w, s);
            && WeaponTotal(f, v) == WeaponTotal(f, w) + StepDrift(Holds(f), rules, w, s.event)
            && GoldTotal(v) == GoldTotal(w) + StepDrift(Worth(), rules, w, s.event)
  {
    var e := s.event;
    StepLeaves(rules, w, s);
    if Saves(rules, w, e) {
      CallKeepsTotals(f, rules, Seen(w, e), e);
      LoadsDiffer(rules, w, e);
      GivenRowsDrift(Holds(f), w, Loads(e));
      GivenRowsDrift(Worth(), w, Loads(e));
    }
  }

  /** What is stored after a step is what the call made of the rows it saw, or what it was. */
  lemma StepLeaves(rules: Rules, w: World, s: Step)
    ensures var v := Next(rules, w, s);
            if Saves(rules, w, s.event) then
              v.accounts == Call(rules, Seen(w, s.event), s.event).value.accounts
              && v.taxTaken == Call(rules, Seen(w, s.event), s.event).value.taxTaken
            else v.accounts == w.accounts && v.taxTaken == w.taxTaken
  {
  }

  lemma LoadsDiffer(rules: Rules, w: World, e: Event)
    requires Call(rules, Seen(w, e), e).Done?
    ensures Different(Loads(e))
  {
  }

  function RunDrift(g: AccountRow -> int, rules: Rules, w: World, steps: seq<Step>): int
    decreases |steps|
  {
    if steps == [] then 0
    else StepDrift(g, rules, w, steps[0].event) + RunDrift(g, rules, Next(rules, w, steps[0]), steps[1..])
  }

  /**
   * Every run, old rows or not: the weight of all weapons under any weighing, and all the
   * gold, end as they began plus what old rows added or took. So they are conserved
   * exactly when that comes to nothing.
   */
  lemma {:induction false} RunMovesByDrift(f: Weapon -> int, rules: Rules, w: World, steps: seq<Step>)
    ensures var v := Run(rules, w, steps);
            && WeaponTotal(f, v) == WeaponTotal(f, w) + RunDrift(Holds(f), rules, w, steps)
            && GoldTotal(v) == GoldTotal(w) + RunDrift(Worth(), rules, w, steps)
    decreases |steps|
  {
    if steps == [] {
    } else {
      StepMovesByDrift(f, rules, w, steps[0]);
      RunMovesByDrift(f, rules, Next(rules, w, steps[0]), steps[1..]);
    }
  }

  // --- Without old rows ------------------------------------------------------

  /** The account is read by somebody who opened it before it last changed, and nobody plays it. */
  predicate ReadIsOld(w: World, who: nat)
    requires who < |w.accounts|
  {
    Given(w, who) != w.accounts[who]
  }

  /** An event that saves is given an old row. */
  predicate GivenOld(w: World, e: Event) {
    !e.Scan? && exists i :: i in Loads(e) && i < |w.accounts| && ReadIsOld(w, i)
  }

  predicate NeverGivenOld(rules: Rules, w: World, steps: seq<Step>)
    decreases |steps|
  {
    steps != [] ==> !GivenOld(w, steps[0].event) && NeverGivenOld(rules, Next(rules, w, steps[0]), steps[1..])
  }

  lemma {:induction false} NoDrift(g: AccountRow -> int, w: World, loads: seq<nat>)
    requires forall i :: i in loads && i < |w.accounts| ==> !ReadIsOld(w, i)
    ensures Drift(g, w, loads) == 0 && GivenRows(w, loads) == w.accounts
    decreases |loads|
  {
    if loads == [] {
    } else {
      assert loads[0] in loads && forall x :: x in loads[1..] ==> x in loads;
      NoDrift(g, w, loads[1..]);
    }
  }

  /** A step given nothing old is a call on what is stored. */
  lemma StepOnStored(g: AccountRow -> int, rules: Rules, w: World, e: Event)
    requires !GivenOld(w, e)
    ensures StepDrift(g, rules, w, e) == 0
    ensures !e.Scan? ==> Seen(w, e) == w
  {
    if !e.Scan? {
      NoDrift(g, w, Loads(e));
    }
  }

  lemma {:induction false} NoRunDrift(g: AccountRow -> int, rules: Rules, w: World, steps: seq<Step>)
    requires NeverGivenOld(rules, w, steps)
    ensures RunDrift(g, rules, w, steps) == 0
    decreases |steps|
  {
    if steps == [] {
    } else {
      StepOnStored(g, rules, w, steps[0].event);
      NoRunDrift(g, rules, Next(rules, w, steps[0]), steps[1..]);
    }
  }

  /**
   * Weapons are conserved. However weapons are weighed (by one id, by one exact set of
   * modifiers, by their power) no run given nothing old changes the total, so no
   * weapon is ever lost, doubled, or turned into a different one.
   */
  lemma WeaponsConserved(f: Weapon -> int, rules: Rules, w: World, steps: seq<Step>)
    requires NeverGivenOld(rules, w, steps)
    ensures WeaponTotal(f, Run(rules, w, steps)) == WeaponTotal(f, w)
  {
    RunMovesByDrift(f, rules, w, steps);
    NoRunDrift(Holds(f), rules, w, steps);
  }

  /** A weapon that begins in one place is always in exactly one, and is always that weapon. */
  lemma OnePlace(rules: Rules, w: World, steps: seq<Step>, weapon: Weapon)
    requires NeverGivenOld(rules, w, steps)
    requires Places(w, weapon.id) == 1 && WeaponTotal(Exactly(weapon), w) == 1
    ensures var v := Run(rules, w, steps);
            Places(v, weapon.id) == 1 && WeaponTotal(Exactly(weapon), v) == 1
  {
    WeaponsConserved(Named(weapon.id), rules, w, steps);
    WeaponsConserved(Exactly(weapon), rules, w, steps);
  }

  /** Gold moves between purses, what sold listings owe, and tax: the total never changes. */
  lemma GoldConserved(rules: Rules, w: World, steps: seq<Step>)
    requires NeverGivenOld(rules, w, steps)
    ensures GoldTotal(Run(rules, w, steps)) == GoldTotal(w)
  {
    RunMovesByDrift((x: Weapon) => 0, rules, w, steps);
    NoRunDrift(Worth(), rules, w, steps);
  }

  // --- Every purse, old rows or not ------------------------------------------

  lemma {:induction false} GivenIsSolvent(w: World, loads: seq<nat>)
    requires Solvent(w)
    ensures Solvent(w.(accounts := GivenRows(w, loads)))
    decreases |loads|
  {
    if loads == [] {
    } else {
      GivenIsSolvent(w, loads[1..]);
    }
  }

  lemma StepKeepsSolvent(rules: Rules, w: World, s: Step)
    requires Solvent(w)
    ensures Solvent(Next(rules, w, s))
  {
    var e := s.event;
    if Call(rules, Seen(w, e), e).Done? {
      GivenIsSolvent(w, Loads(e));
      CallKeepsSolvent(rules, Seen(w, e), e);
    }
  }

  /** No purse ever goes below nothing, whatever a call was given. */
  lemma {:induction false} NobodyInDebt(rules: Rules, w: World, steps: seq<Step>)
    requires Solvent(w)
    ensures Solvent(Run(rules, w, steps))
    decreases |steps|
  {
    if steps == [] {
    } else {
      StepKeepsSolvent(rules, w, steps[0]);
      NobodyInDebt(rules, Next(rules, w, steps[0]), steps[1..]);
    }
  }

  // --- Sold at most once -----------------------------------------------------

  lemma StepStaysDown(rules: Rules, w: World, s: Step, id: int)
    requires NowhereOpen(w, id) && !ListsId(s.event, id) && !GivenOld(w, s.event)
    ensures NowhereOpen(Next(rules, w, s), id)
  {
    var e := s.event;
    if Saves(rules, w, e) {
      StepOnStored(Worth(), rules, w, e);
      StaysDown(rules, w, e, id);
    }
  }

  lemma {:induction false} StaysDownForRun(rules: Rules, w: World, steps: seq<Step>, id: int)
    requires NowhereOpen(w, id) && NeverGivenOld(rules, w, steps)
    requires forall s :: s in steps ==> !ListsId(s.event, id)
    ensures NowhereOpen(Run(rules, w, steps), id)
    decreases |steps|
  {
    if steps == [] {
    } else {
      assert steps[0] in steps && forall s :: s in steps[1..] ==> s in steps;
      StepStaysDown(rules, w, steps[0], id);
      StaysDownForRun(rules, Next(rules, w, steps[0]), steps[1..], id);
    }
  }

  /** What is open nowhere is sold again only from an old row of its seller. */
  lemma SoldAgainFromOldRow(rules: Rules, w: World, again: Event)
    requires again.Settle? && NowhereOpen(w, again.buy.listingId)
    requires Call(rules, Seen(w, again), again).Done?
    ensures again.buy.seller < |w.accounts| && ReadIsOld(w, again.buy.seller) && GivenOld(w, again)
  {
    var seller := again.buy.seller;
    if !ReadIsOld(w, seller) {
      assert GivenRows(w, [seller, again.buy.buyer])[seller] == w.accounts[seller];
      NothingToSettle(rules, Seen(w, again), again);
    }
    assert seller in Loads(again);
  }

  /**
   * An open listing is sold at most once: after a sale of an id lying in one place,
   * with nothing old given meanwhile, a further settling of that id goes through only
   * if it is itself given an old row of the seller. Otherwise it is refused, whatever
   * scan it came from, and changes nothing, until somebody lists the weapon again.
   */
  lemma SoldAtMostOnce(rules: Rules, w: World, sale: Step, steps: seq<Step>, again: Step)
    requires sale.event.Settle? && again.event.Settle?
    requires again.event.buy.listingId == sale.event.buy.listingId >= 0
    requires Places(w, sale.event.buy.listingId) == 1
    requires Call(rules, Seen(w, sale.event), sale.event).Done? && NeverGivenOld(rules, w, [sale] + steps)
    requires forall s :: s in steps ==> !ListsId(s.event, sale.event.buy.listingId)
    ensures var v := Run(rules, Next(rules, w, sale), steps);
            !GivenOld(v, again.event) ==>
              Call(rules, Seen(v, again.event), again.event).Refused? && Next(rules, v, again) == v
  {
    assert ([sale] + steps)[0] == sale && ([sale] + steps)[1..] == steps;
    StepOnStored(Worth(), rules, w, sale.event);
    SaleTakesDown(rules, w, sale.event);
    StaysDownForRun(rules, Next(rules, w, sale), steps, sale.event.buy.listingId);
    var v := Run(rules, Next(rules, w, sale), steps);
    if Call(rules, Seen(v, again.event), again.event).Done? {
      SoldAgainFromOldRow(rules, v, again.event);
    }
  }

  // --- Sold twice ------------------------------------------------------------

  /** Two scanned buyers who can each settle, a seller nobody plays, and no read under way of any of them. */
  predicate BothCanBuy(rules: Rules, w: World, one: PendingBuy, two: PendingBuy, at: int)
  {
    var n := |w.accounts|;
    && one.seller == two.seller < n && one.buyer < n && two.buyer < n
    && one.listingId == two.listingId && one.buyer != two.buyer && one.seller != one.buyer && two.seller != two.buyer
    && one in w.pending && two in w.pending
    && (forall i :: i in {one.seller, one.buyer, two.buyer} ==> i !in w.playing && i !in w.reading)
    && BuyOutcome(rules, w.accounts[one.seller], w.accounts[one.buyer], false, one.listingId, at).Done?
    && BuyOutcome(rules, w.accounts[two.seller], w.accounts[two.buyer], false, two.listingId, at).Done?
  }

  lemma SettlesOnStored(rules: Rules, w: World, buy: PendingBuy, at: int)
    requires buy in w.pending && buy.buyer != buy.seller
    requires buy.seller < |w.accounts| && buy.buyer < |w.accounts|
    requires forall i :: i in {buy.seller, buy.buyer} ==> i !in w.playing && i !in w.reading
    requires BuyOutcome(rules, w.accounts[buy.seller], w.accounts[buy.buyer], false, buy.listingId, at).Done?
    ensures var seller, buyer := w.accounts[buy.seller], w.accounts[buy.buyer];
            var sale := BuyOutcome(rules, seller, buyer, false, buy.listingId, at).value;
            && Saves(rules, w, Settle(buy, at)) && !GivenOld(w, Settle(buy, at))
            && Call(rules, Seen(w, Settle(buy, at)), Settle(buy, at))
               == Done(w.(accounts := w.accounts[buy.seller := sale.seller][buy.buyer := sale.buyer],
                          pending := w.pending - {buy}, taxTaken := w.taxTaken + sale.tax))
  {
    StepOnStored(Worth(), rules, w, Settle(buy, at));
  }

  /** The first purchase settles while somebody's scan opens the seller's file; the second is given that read. */
  lemma FirstSale(rules: Rules, w: World, one: PendingBuy, two: PendingBuy, at: int)
    requires BothCanBuy(rules, w, one, two, at)
    ensures var seller, buyer := w.accounts[one.seller], w.accounts[one.buyer];
            var sale := BuyOutcome(rules, seller, buyer, false, one.listingId, at).value;
            var v := Next(rules, w, Step(Settle(one, at), {one.seller}));
            && v.accounts == w.accounts[one.seller := sale.seller][one.buyer := sale.buyer]
            && v.playing == w.playing && two in v.pending && v.taxTaken == w.taxTaken + sale.tax
            && Given(v, two.seller) == w.accounts[one.seller] && Given(v, two.buyer) == w.accounts[two.buyer]
            && Saves(rules, w, Settle(one, at)) && !GivenOld(w, Settle(one, at))
  {
    SettlesOnStored(rules, w, one, at);
  }

  lemma SecondSale(rules: Rules, w: World, one: PendingBuy, two: PendingBuy, at: int)
    requires BothCanBuy(rules, w, one, two, at)
    ensures var v := Next(rules, w, Step(Settle(one, at), {one.seller}));
            Saves(rules, v, Settle(two, at))
  {
    FirstSale(rules, w, one, two, at);
    var v := Next(rules, w, Step(Settle(one, at), {one.seller}));
    assert GivenRows(v, [two.buyer]) == v.accounts[two.buyer := Given(v, two.buyer)];
    assert Seen(v, Settle(two, at)).accounts[two.seller] == Given(v, two.seller);
    assert Seen(v, Settle(two, at)).accounts[two.buyer] == Given(v, two.buyer);
  }

  /**
   * One listing sold to both: its weapon lies in two bags, and what the first sale owes
   * the seller is owed by nobody.
   */
  lemma SoldTwice(f: Weapon -> int, rules: Rules, w: World, one: PendingBuy, two: PendingBuy, at: int)
    requires BothCanBuy(rules, w, one, two, at)
    ensures var seller := w.accounts[one.seller];
            var l := seller.listings[ListingNamed(seller.listings, one.listingId)];
            var v := Run(rules, w, [Step(Settle(one, at), {one.seller}), Step(Settle(two, at), {})]);
            && WeaponTotal(f, v) == WeaponTotal(f, w) + f(ListingWeapon(l))
            && GoldTotal(v) == GoldTotal(w) - (l.price - TaxOf(rules, l.price))
  {
    var a, b := Step(Settle(one, at), {one.seller}), Step(Settle(two, at), {});
    FirstSale(rules, w, one, two, at);
    SecondSale(rules, w, one, two, at);
    var v := Next(rules, w, a);
    StepOnStored(Holds(f), rules, w, a.event);
    StepOnStored(Worth(), rules, w, a.event);
    StepMovesByDrift(f, rules, w, a);
    StepMovesByDrift(f, rules, v, b);
    OldRowsWorth(f, rules, w, one, two, at);
    assert [a, b][1..] == [b] && [b][1..] == [];
    assert Run(rules, v, [b]) == Next(rules, v, b);
  }

  lemma DriftOfTwo(g: AccountRow -> int, w: World, p: nat, q: nat)
    requires p < |w.accounts| && q < |w.accounts|
    ensures Drift(g, w, [p, q]) == g(Given(w, p)) - g(w.accounts[p]) + g(Given(w, q)) - g(w.accounts[q])
  {
    assert [p, q][1..] == [q] && [q][1..] == [];
    assert Drift(g, w, [q]) == g(Given(w, q)) - g(w.accounts[q]);
  }

  /** What a sale makes of its seller's row. */
  lemma SellerRowMoves(
      f: Weapon -> int, rules: Rules, seller: AccountRow, buyer: AccountRow, id: int, at: int)
    requires BuyOutcome(rules, seller, buyer, false, id, at).Done?
    ensures var after := BuyOutcome(rules, seller, buyer, false, id, at).value.seller;
            var l := seller.listings[ListingNamed(seller.listings, id)];
            && Holds(f)(after) == Holds(f)(seller) - f(ListingWeapon(l))
            && Worth()(after) == Worth()(seller) + l.price - TaxOf(rules, l.price)
  {
    var after := BuyOutcome(rules, seller, buyer, false, id, at).value.seller;
    var i := ListingNamed(seller.listings, id);
    SumUpdate(OpenWeight(f), seller.listings, i, after.listings[i]);
    SumUpdate(OwedBy, seller.listings, i, after.listings[i]);
  }

  lemma OldRowsWorth(f: Weapon -> int, rules: Rules, w: World, one: PendingBuy, two: PendingBuy, at: int)
    requires BothCanBuy(rules, w, one, two, at)
    ensures var seller := w.accounts[one.seller];
            var l := seller.listings[ListingNamed(seller.listings, one.listingId)];
            var v := Next(rules, w, Step(Settle(one, at), {one.seller}));
            && Drift(Holds(f), v, [two.seller, two.buyer]) == f(ListingWeapon(l))
            && Drift(Worth(), v, [two.seller, two.buyer]) == TaxOf(rules, l.price) - l.price
  {
    FirstSale(rules, w, one, two, at);
    var v := Next(rules, w, Step(Settle(one, at), {one.seller}));
    SellerRowMoves(f, rules, w.accounts[one.seller], w.accounts[one.buyer], one.listingId, at);
    DriftOfTwo(Holds(f), v, two.seller, two.buyer);
    DriftOfTwo(Worth(), v, two.seller, two.buyer);
  }

  // --- One such world --------------------------------------------------------

  const WARES: Listing := Listing(
    5, 100, 10, 0, None, None, None, None, None, None, None, None, None, None, None)
  const SELLER: AccountRow := AccountRow(1, 0, [], [WARES], 0, 1, 1, false, false)

  function Buyer(id: nat): AccountRow {
    AccountRow(id, 10, [], [], 0, 1, 1, false, false)
  }

  const ONE: PendingBuy := PendingBuy(1, 0, 5)
  const TWO: PendingBuy := PendingBuy(2, 0, 5)
  const STALL: World := World([SELLER, Buyer(2), Buyer(3)], {}, map[], {ONE, TWO}, 0)

  lemma BothCanBuyAtTheStall()
    ensures BothCanBuy(PLAIN, STALL, ONE, TWO, 0)
  {
    BuyHappensIff(PLAIN, SELLER, Buyer(2), false, 5, 0, 0);
    BuyHappensIff(PLAIN, SELLER, Buyer(3), false, 5, 0, 0);
  }

  /** A seller with one listing and two buyers with the price: the weapon lies in one place, and then in two. */
  lemma SoldTwiceAtTheStall()
    ensures var steps := [Step(Settle(ONE, 0), {0}), Step(Settle(TWO, 0), {})];
            Places(STALL, 5) == 1 && Places(Run(PLAIN, STALL, steps), 5) == 2
  {
    BothCanBuyAtTheStall();
    SoldTwice(Named(5), PLAIN, STALL, ONE, TWO, 0);
    assert OneOpen(SELLER.listings, 5, 0);
    OpenRowIsNamed(SELLER.listings, 5, 0);
    OneWeaponAtTheStall();
  }

  lemma OneWeaponAtTheStall()
    ensures Places(STALL, 5) == 1
  {
    var h := Holds(Named(5));
    SumAppend(OpenWeight(Named(5)), [], WARES);
    assert [] + [WARES] == [WARES] && IsOpen(WARES) && ListingWeapon(WARES).id == 5;
    assert Named(5)(ListingWeapon(WARES)) == 1;
    assert OpenWeight(Named(5))(WARES) == 1;
    assert h(SELLER) == 1 && h(Buyer(2)) == 0 && h(Buyer(3)) == 0;
    SumAppend(h, [SELLER, Buyer(2)], Buyer(3));
    SumAppend(h, [SELLER], Buyer(2));
    SumAppend(h, [], SELLER);
    assert [] + [SELLER] == [SELLER] && [SELLER] + [Buyer(2)] == [SELLER, Buyer(2)];
    assert STALL.accounts == [SELLER, Buyer(2)] + [Buyer(3)];
  }

  // --- Where old rows come from ----------------------------------------------

  /** A call changes no account but those it loads. */
  lemma CallLeavesOthers(rules: Rules, w: World, e: Event, i: nat)
    requires i < |w.accounts| && i !in Loads(e) && Call(rules, w, e).Done?
    ensures var after := Call(rules, w, e).value;
            |after.accounts| == |w.accounts| && after.accounts[i] == w.accounts[i]
  {
    match e
    case ListWeapon(who, _, _, _) => assert who in Loads(e);
    case Settle(buy, _) => assert Loads(e)[0] == buy.seller && Loads(e)[1] == buy.buyer;
    case Cancel(who, _) => assert who in Loads(e);
    case Claim(who) => assert who in Loads(e);
    case Exchange(first, second, _, _) => assert Loads(e)[0] == first && Loads(e)[1] == second;
    case Restrict(who, _, _) => assert who in Loads(e);
    case Wield(who, _, _) => assert who in Loads(e);
    case Resize(who, _, _, _) => assert who in Loads(e);
    case _ =>
  }

  lemma NextLeavesOthers(rules: Rules, w: World, s: Step, i: nat)
    requires i < |w.accounts| && i !in Loads(s.event)
    ensures |Next(rules, w, s).accounts| == |w.accounts| && Next(rules, w, s).accounts[i] == w.accounts[i]
  {
    GivenElsewhere(w, Loads(s.event), i);
    if Call(rules, Seen(w, s.event), s.event).Done? {
      CallLeavesOthers(rules, Seen(w, s.event), s.event, i);
    }
  }

  predicate NothingOld(w: World) {
    forall j :: j in w.reading && j < |w.accounts| ==> w.reading[j] == w.accounts[j]
  }

  /**
   * Where nothing read is old, one step makes only this old: what was read of an account
   * it saves, opened while the save was under way or while the account was being played.
   */
  lemma OldRowsAppear(rules: Rules, w: World, s: Step, i: nat)
    requires NothingOld(w) && i < |w.accounts| && i in Next(rules, w, s).reading
    ensures i < |Next(rules, w, s).accounts|
    ensures Next(rules, w, s).reading[i] != Next(rules, w, s).accounts[i] ==>
              Saves(rules, w, s.event) && i in Loads(s.event) && (i in s.reread || i in w.playing)
  {
    if i !in Loads(s.event) {
      NextLeavesOthers(rules, w, s, i);
    }
  }
}
