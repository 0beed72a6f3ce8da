// Every gift once: sending, giving, accepting and declining over all the piles.
//
// Accepting takes the gift off the pile, waits for the grant, and puts the gift back
// if the grant is refused. The account is locked meanwhile, but a mode may still give
// it something: it changes the live account without the lock.
module GiftRuns {
  import opened Gifts
  import opened Options
  import opened Sums

  /** A gift taken off its pile and not granted yet. */
  datatype Hand = Hand(who: nat, gift: Gift)

  /** granted, declined and lost are the serials of gifts that ended that way. */
  datatype World = World(
    players: seq<Player>, hands: seq<Hand>, made: nat, granted: seq<nat>, declined: seq<nat>, lost: seq<nat>)

  datatype Event =
    | SendEvent(sender: nat, recipient: nat, offerId: int, now: int, requestId: string)
    | Give(recipient: nat, offerId: int, from: nat, requestId: string)   // one the server makes, without the lock
    | Take(who: nat, requestId: string)
    | Settle(hand: nat, fits: bool)                                      // fits: the grant goes through
    | Decline(who: nat, requestId: string)

  /** The server only puts ids on a pile that are free and name its account: what UnusedRequestId answers. */
  predicate FreshFor(p: Player, requestId: string) {
    requestId !in TakenIds(p.gifts) && RequestIdNames(requestId, p.id)
  }

  /** The account is locked by a call that is granting something. */
  predicate Busy(w: World, who: nat) {
    exists h :: 0 <= h < |w.hands| && w.hands[h].who == who
  }

  /** A call that takes requestId off the pile of an account nobody has locked. */
  predicate MayTake(w: World, who: nat, requestId: string) {
    who < |w.players| && !Busy(w, who) && TakenGift(w.players[who], requestId).Some?
  }

  function OnPile(p: Player, requestId: string): bool {
    FirstWhere(WithId(requestId), p.gifts) < |p.gifts|
  }

  function Settled(w: World, h: nat, fits: bool): World
    requires h < |w.hands| && w.hands[h].who < |w.players|
  {
    var who, gift := w.hands[h].who, w.hands[h].gift;
    var left := w.(hands := w.hands[..h] + w.hands[h + 1..]);
    if fits then left.(granted := w.granted + [gift.serial])
    else if OnPile(w.players[who], gift.requestId) then left.(lost := w.lost + [gift.serial])
    else left.(players := w.players[who := AfterReturning(w.players[who], gift)])
  }

  function WithGift(p: Player, gift: Gift): Player {
    p.(gifts := p.gifts + [gift])
  }

  function Next(giftable: set<int>, cooldown: nat, w: World, e: Event): World {
    var n := |w.players|;
    match e
    case SendEvent(sender, recipient, offerId, now, requestId) =>
      if sender >= n || recipient >= n || sender == recipient || Busy(w, sender) || Busy(w, recipient) then w
      else if !FreshFor(w.players[recipient], requestId) then w
      else
        var pair := Pair(w.players[sender], w.players[recipient]);
        (match SendOutcome(pair, giftable, cooldown, offerId, now, requestId, w.made)
         case Done(p) => w.(players := w.players[sender := p.sender][recipient := p.recipient], made := w.made + 1)
         case Refused(_) => w)
    case Give(recipient, offerId, from, requestId) =>
      if recipient >= n || !FreshFor(w.players[recipient], requestId) then w
      else if |w.players[recipient].gifts| >= MAX_PENDING_GIFTS then w
      else
        var gift := Gift(requestId, from, offerId, w.made);
        w.(players := w.players[recipient := WithGift(w.players[recipient], gift)], made := w.made + 1)
    case Take(who, requestId) =>
      if !MayTake(w, who, requestId) then w
      else
        w.(players := w.players[who := AfterTaking(w.players[who], requestId)],
           hands := w.hands + [Hand(who, TakenGift(w.players[who], requestId).value)])
    case Settle(hand, fits) =>
      if hand >= |w.hands| || w.hands[hand].who >= n then w else Settled(w, hand, fits)
    case Decline(who, requestId) =>
      if !MayTake(w, who, requestId) then w
      else
        w.(players := w.players[who := AfterTaking(w.players[who], requestId)],
           declined := w.declined + [TakenGift(w.players[who], requestId).value.serial])
  }

  function Run(giftable: set<int>, cooldown: nat, w: World, es: seq<Event>): World
    decreases |es|
  {
    if es == [] then w else Run(giftable, cooldown, Next(giftable, cooldown, w, es[0]), es[1..])
  }

  // --- The piles -------------------------------------------------------------

  predicate DistinctIds(gifts: seq<Gift>) {
    forall i, j :: 0 <= i < j < |gifts| ==> gifts[i].requestId != gifts[j].requestId
  }

  predicate OneHandEach(hands: seq<Hand>) {
    forall i, j :: 0 <= i < j < |hands| ==> hands[i].who != hands[j].who
  }

  /** Ids on a pile are distinct; it is over its limit by one at most, and not while a gift of it is in hand. */
  predicate GoodPile(w: World, i: nat)
    requires i < |w.players|
  {
    DistinctIds(w.players[i].gifts) && |w.players[i].gifts| <= MAX_PENDING_GIFTS + if Busy(w, i) then 0 else 1
  }

  predicate Good(w: World) {
    && OneHandEach(w.hands)
    && (forall h :: 0 <= h < |w.hands| ==> w.hands[h].who < |w.players|)
    && forall i :: 0 <= i < |w.players| ==> GoodPile(w, i)
  }

  predicate WithinLimit(w: World) {
    forall i :: 0 <= i < |w.players| ==> |w.players[i].gifts| <= MAX_PENDING_GIFTS
  }

  lemma TakingShape(p: Player, requestId: string)
    requires DistinctIds(p.gifts) && TakenGift(p, requestId).Some?
    ensures var i := FirstWhere(WithId(requestId), p.gifts);
            && i < |p.gifts| && TakenGift(p, requestId) == Some(p.gifts[i])
            && AfterTaking(p, requestId) == p.(gifts := p.gifts[..i] + p.gifts[i + 1..])
  {
    FilterOneOut(OtherThan(requestId), p.gifts, FirstWhere(WithId(requestId), p.gifts));
  }

  lemma NotOnPile(p: Player, requestId: string)
    requires forall j :: 0 <= j < |p.gifts| ==> p.gifts[j].requestId != requestId
    ensures !OnPile(p, requestId) && TakenGift(p, requestId).None?
  {
  }

  /** Taking takes one gift off the pile for good, and returning it at once puts just that one back. */
  lemma TakingIsOne(p: Player, requestId: string)
    requires DistinctIds(p.gifts) && TakenGift(p, requestId).Some?
    ensures var i := FirstWhere(WithId(requestId), p.gifts);
            var taken := AfterTaking(p, requestId);
            && i < |p.gifts| && TakenGift(p, requestId) == Some(p.gifts[i])
            && DistinctIds(taken.gifts) && |taken.gifts| == |p.gifts| - 1
            && TakenGift(taken, requestId).None? && !OnPile(taken, requestId)
            && AfterReturning(taken, p.gifts[i]) == taken.(gifts := taken.gifts + [p.gifts[i]])
  {
    TakingShape(p, requestId);
    var i := FirstWhere(WithId(requestId), p.gifts);
    var taken := AfterTaking(p, requestId);
    forall j | 0 <= j < |taken.gifts|
      ensures taken.gifts[j] == p.gifts[if j < i then j else j + 1]
    {
    }
    NotOnPile(taken, requestId);
  }

  lemma OneMoreKeepsDistinct(gifts: seq<Gift>, gift: Gift)
    requires DistinctIds(gifts) && gift.requestId !in TakenIds(gifts)
    ensures DistinctIds(gifts + [gift])
  {
    forall i | 0 <= i < |gifts|
      ensures gifts[i].requestId != gift.requestId
    {
      assert gifts[i] in gifts;
    }
  }

  lemma OffPileIsFree(p: Player, requestId: string)
    requires !OnPile(p, requestId)
    ensures requestId !in TakenIds(p.gifts)
  {
    forall g | g in p.gifts
      ensures g.requestId != requestId
    {
      var i :| 0 <= i < |p.gifts| && p.gifts[i] == g;
    }
  }

  /** Only the pile of one account changes, and it stays distinct; what that does to its limit. */
  lemma PilesStayGood(w: World, v: World, who: nat)
    requires Good(w) && who < |w.players| == |v.players| && OneHandEach(v.hands)
    requires forall h :: 0 <= h < |v.hands| ==> v.hands[h].who < |v.players|
    requires forall i :: 0 <= i < |w.players| && i != who ==>
               v.players[i].gifts == w.players[i].gifts && (Busy(v, i) ==> Busy(w, i))
    requires GoodPile(v, who)
    ensures Good(v)
  {
    forall i | 0 <= i < |v.players|
      ensures GoodPile(v, i)
    {
      assert GoodPile(w, i);
    }
  }

  lemma GivenKeepsGood(giftable: set<int>, cooldown: nat, w: World, e: Event)
    requires Good(w) && (e.SendEvent? || e.Give?)
    ensures Good(Next(giftable, cooldown, w, e))
    ensures WithinLimit(w) ==> WithinLimit(Next(giftable, cooldown, w, e))
  {
    var v := Next(giftable, cooldown, w, e);
    if v != w {
      var from := if e.SendEvent? then w.players[e.sender].id else e.from;
      assert GoodPile(w, e.recipient);
      OneMoreKeepsDistinct(w.players[e.recipient].gifts, Gift(e.requestId, from, e.offerId, w.made));
      assert Busy(v, e.recipient) <==> Busy(w, e.recipient);
      PilesStayGood(w, v, e.recipient);
    }
  }

  lemma TakenKeepsGood(giftable: set<int>, cooldown: nat, w: World, e: Event)
    requires Good(w) && (e.Take? || e.Decline?)
    ensures Good(Next(giftable, cooldown, w, e))
    ensures WithinLimit(w) ==> WithinLimit(Next(giftable, cooldown, w, e))
  {
    var v := Next(giftable, cooldown, w, e);
    if MayTake(w, e.who, e.requestId) {
      assert GoodPile(w, e.who);
      TakingIsOne(w.players[e.who], e.requestId);
      forall i: nat | i != e.who && Busy(v, i)
        ensures Busy(w, i)
      {
        var h :| 0 <= h < |v.hands| && v.hands[h].who == i;
        assert h < |w.hands| && w.hands[h].who == i;
      }
      forall h | 0 <= h < |w.hands|
        ensures w.hands[h].who != e.who
      {
        assert !Busy(w, e.who);
      }
      PilesStayGood(w, v, e.who);
    }
  }

  lemma OneHandFewer(w: World, h: nat)
    requires Good(w) && h < |w.hands|
    ensures var left := w.(hands := w.hands[..h] + w.hands[h + 1..]);
            && OneHandEach(left.hands) && !Busy(left, w.hands[h].who)
            && forall i :: Busy(left, i) ==> Busy(w, i)
  {
    var left := w.(hands := w.hands[..h] + w.hands[h + 1..]);
    forall j | 0 <= j < |left.hands|
      ensures left.hands[j] == w.hands[if j < h then j else j + 1]
    {
    }
    forall i | Busy(left, i)
      ensures Busy(w, i) && i != w.hands[h].who
    {
      var j :| 0 <= j < |left.hands| && left.hands[j].who == i;
      assert w.hands[if j < h then j else j + 1].who == i;
    }
  }

  lemma SettledKeepsGood(w: World, h: nat, fits: bool)
    requires Good(w) && h < |w.hands|
    ensures Good(Settled(w, h, fits))
  {
    var who, gift := w.hands[h].who, w.hands[h].gift;
    OneHandFewer(w, h);
    assert Busy(w, who) && GoodPile(w, who);
    if !fits && !OnPile(w.players[who], gift.requestId) {
      OffPileIsFree(w.players[who], gift.requestId);
      OneMoreKeepsDistinct(w.players[who].gifts, gift);
    }
    var v := Settled(w, h, fits);
    assert v.hands == w.hands[..h] + w.hands[h + 1..];
    forall i: nat | Busy(v, i)
      ensures Busy(w, i)
    {
      assert Busy(w.(hands := v.hands), i);
    }
    PilesStayGood(w, v, who);
  }

  lemma NextKeepsGood(giftable: set<int>, cooldown: nat, w: World, e: Event)
    requires Good(w)
    ensures Good(Next(giftable, cooldown, w, e))
  {
    match e
    case SendEvent(_, _, _, _, _) => GivenKeepsGood(giftable, cooldown, w, e);
    case Give(_, _, _, _) => GivenKeepsGood(giftable, cooldown, w, e);
    case Take(_, _) => TakenKeepsGood(giftable, cooldown, w, e);
    case Decline(_, _) => TakenKeepsGood(giftable, cooldown, w, e);
    case Settle(hand, fits) => if hand < |w.hands| { SettledKeepsGood(w, hand, fits); }
  }

  /** A grant is refused, and the pile it came from has been filled up meanwhile. */
  predicate ReturnsToFullPile(w: World, e: Event) {
    && e.Settle? && !e.fits && e.hand < |w.hands| && w.hands[e.hand].who < |w.players|
    && var p := w.players[w.hands[e.hand].who];
       |p.gifts| >= MAX_PENDING_GIFTS && !OnPile(p, w.hands[e.hand].gift.requestId)
  }

  /** The limit of every pile holds after a step exactly when the step does not put a gift back on a full one. */
  lemma LimitHoldsIff(giftable: set<int>, cooldown: nat, w: World, e: Event)
    requires Good(w) && WithinLimit(w)
    ensures WithinLimit(Next(giftable, cooldown, w, e)) <==> !ReturnsToFullPile(w, e)
  {
    match e
    case SendEvent(_, _, _, _, _) => GivenKeepsGood(giftable, cooldown, w, e);
    case Give(_, _, _, _) => GivenKeepsGood(giftable, cooldown, w, e);
    case Take(_, _) => TakenKeepsGood(giftable, cooldown, w, e);
    case Decline(_, _) => TakenKeepsGood(giftable, cooldown, w, e);
    case Settle(hand, fits) =>
      if ReturnsToFullPile(w, e) {
        var who := w.hands[hand].who;
        assert |Next(giftable, cooldown, w, e).players[who].gifts| == MAX_PENDING_GIFTS + 1;
      }
  }

  /** A full pile, one gift taken off it, another given meanwhile, and the grant refused: one over the limit. */
  lemma FullPileOverflows(giftable: set<int>, cooldown: nat, w: World, who: nat, requestId: string, other: string)
    requires Good(w) && w.hands == [] && who < |w.players| && |w.players[who].gifts| == MAX_PENDING_GIFTS
    requires TakenGift(w.players[who], requestId).Some? && other != requestId && FreshFor(w.players[who], other)
    ensures var taken := Next(giftable, cooldown, w, Take(who, requestId));
            var given := Next(giftable, cooldown, taken, Give(who, 0, 0, other));
            var returned := Next(giftable, cooldown, given, Settle(0, false));
            |returned.players| == |w.players| && |returned.players[who].gifts| == MAX_PENDING_GIFTS + 1
  {
    assert GoodPile(w, who);
    TakenFromFull(giftable, cooldown, w, who, requestId);
    var taken := Next(giftable, cooldown, w, Take(who, requestId));
    GivenMeanwhile(giftable, cooldown, taken, who, other);
    AppendOff(taken.players[who], Gift(other, 0, 0, w.made), requestId);
    ReturnedAtTheEnd(Next(giftable, cooldown, taken, Give(who, 0, 0, other)), 0);
  }

  lemma TakenFromFull(giftable: set<int>, cooldown: nat, w: World, who: nat, requestId: string)
    requires w.hands == [] && who < |w.players| && DistinctIds(w.players[who].gifts)
    requires TakenGift(w.players[who], requestId).Some?
    ensures var v := Next(giftable, cooldown, w, Take(who, requestId));
            && |v.players| == |w.players| && v.made == w.made
            && v.hands == [Hand(who, TakenGift(w.players[who], requestId).value)]
            && v.hands[0].gift.requestId == requestId
            && v.players[who] == AfterTaking(w.players[who], requestId)
            && |v.players[who].gifts| == |w.players[who].gifts| - 1
            && (forall g :: g in v.players[who].gifts ==> g in w.players[who].gifts)
            && !OnPile(v.players[who], requestId)
  {
    TakingIsOne(w.players[who], requestId);
    TakingShape(w.players[who], requestId);
  }

  lemma GivenMeanwhile(giftable: set<int>, cooldown: nat, w: World, who: nat, other: string)
    requires who < |w.players| && FreshFor(w.players[who], other) && |w.players[who].gifts| < MAX_PENDING_GIFTS
    ensures var v := Next(giftable, cooldown, w, Give(who, 0, 0, other));
            && |v.players| == |w.players| && v.hands == w.hands
            && v.players[who] == WithGift(w.players[who], Gift(other, 0, 0, w.made))
  {
  }

  lemma ReturnedAtTheEnd(w: World, h: nat)
    requires h < |w.hands| && w.hands[h].who < |w.players|
    requires !OnPile(w.players[w.hands[h].who], w.hands[h].gift.requestId)
    ensures var v := Settled(w, h, false);
            && |v.players| == |w.players|
            && v.players[w.hands[h].who].gifts == w.players[w.hands[h].who].gifts + [w.hands[h].gift]
  {
  }

  // --- Where every gift is ---------------------------------------------------

  function SerialWeight(f: nat -> int): Gift -> int {
    (g: Gift) => f(g.serial)
  }

  function HandWeight(f: nat -> int): Hand -> int {
    (h: Hand) => f(h.gift.serial)
  }

  function PileWeight(f: nat -> int): Player -> int {
    (p: Player) => Sum(SerialWeight(f), p.gifts)
  }

  /** The weight of every gift wherever it is: waiting, in hand, granted, declined or lost. */
  function Everywhere(f: nat -> int, w: World): int {
    Sum(PileWeight(f), w.players) + Sum(HandWeight(f), w.hands)
    + Sum(f, w.granted) + Sum(f, w.declined) + Sum(f, w.lost)
  }

  function Below(f: nat -> int, n: nat): int {
    if n == 0 then 0 else Below(f, n - 1) + f(n - 1)
  }

  lemma PileGrows(f: nat -> int, p: Player, gift: Gift)
    ensures PileWeight(f)(WithGift(p, gift)) == PileWeight(f)(p) + f(gift.serial)
  {
    SumAppend(SerialWeight(f), p.gifts, gift);
  }

  lemma TakingWeighs(f: nat -> int, p: Player, requestId: string)
    requires DistinctIds(p.gifts) && TakenGift(p, requestId).Some?
    ensures PileWeight(f)(AfterTaking(p, requestId))
         == PileWeight(f)(p) - f(TakenGift(p, requestId).value.serial)
  {
    TakingShape(p, requestId);
    SumRemove(SerialWeight(f), p.gifts, FirstWhere(WithId(requestId), p.gifts));
  }

  lemma SendConserves(f: nat -> int, giftable: set<int>, cooldown: nat, w: World, e: Event)
    requires e.SendEvent?
    ensures var v := Next(giftable, cooldown, w, e);
            Everywhere(f, v) - Below(f, v.made) == Everywhere(f, w) - Below(f, w.made)
  {
    var v := Next(giftable, cooldown, w, e);
    if v != w {
      var s, r := e.sender, e.recipient;
      PileGrows(f, w.players[r], Gift(e.requestId, w.players[s].id, e.offerId, w.made));
      SumUpdate(PileWeight(f), w.players, s, v.players[s]);
      SumUpdate(PileWeight(f), w.players[s := v.players[s]], r, v.players[r]);
      assert PileWeight(f)(v.players[s]) == PileWeight(f)(w.players[s]);
    }
  }

  lemma SettledConserves(f: nat -> int, w: World, h: nat, fits: bool)
    requires h < |w.hands| && w.hands[h].who < |w.players|
    ensures Everywhere(f, Settled(w, h, fits)) == Everywhere(f, w)
  {
    var who, gift := w.hands[h].who, w.hands[h].gift;
    SumRemove(HandWeight(f), w.hands, h);
    SumAppend(f, w.granted, gift.serial);
    SumAppend(f, w.lost, gift.serial);
    PileGrows(f, w.players[who], gift);
    SumUpdate(PileWeight(f), w.players, who, WithGift(w.players[who], gift));
  }

  lemma NextConserves(f: nat -> int, giftable: set<int>, cooldown: nat, w: World, e: Event)
    requires Good(w)
    ensures var v := Next(giftable, cooldown, w, e);
            Everywhere(f, v) - Below(f, v.made) == Everywhere(f, w) - Below(f, w.made)
  {
    var v := Next(giftable, cooldown, w, e);
    match e
    case SendEvent(_, _, _, _, _) => SendConserves(f, giftable, cooldown, w, e);
    case Give(recipient, offerId, from, requestId) =>
      if v != w {
        PileGrows(f, w.players[recipient], Gift(requestId, from, offerId, w.made));
        SumUpdate(PileWeight(f), w.players, recipient, v.players[recipient]);
      }
    case Take(who, requestId) =>
      if MayTake(w, who, requestId) {
        assert GoodPile(w, who);
        TakingWeighs(f, w.players[who], requestId);
        SumUpdate(PileWeight(f), w.players, who, v.players[who]);
        SumAppend(HandWeight(f), w.hands, Hand(who, TakenGift(w.players[who], requestId).value));
      }
    case Settle(hand, fits) => if hand < |w.hands| { SettledConserves(f, w, hand, fits); }
    case Decline(who, requestId) =>
      if MayTake(w, who, requestId) {
        assert GoodPile(w, who);
        TakingWeighs(f, w.players[who], requestId);
        SumUpdate(PileWeight(f), w.players, who, v.players[who]);
        SumAppend(f, w.declined, TakenGift(w.players[who], requestId).value.serial);
      }
  }

  lemma {:induction false} RunConserves(f: nat -> int, giftable: set<int>, cooldown: nat, w: World, es: seq<Event>)
    requires Good(w)
    ensures var v := Run(giftable, cooldown, w, es);
            Good(v) && Everywhere(f, v) - Below(f, v.made) == Everywhere(f, w) - Below(f, w.made)
    decreases |es|
  {
    if es == [] {
    } else {
      NextKeepsGood(giftable, cooldown, w, es[0]);
      NextConserves(f, giftable, cooldown, w, es[0]);
      RunConserves(f, giftable, cooldown, Next(giftable, cooldown, w, es[0]), es[1..]);
    }
  }

  function Is(serial: nat): nat -> int {
    (n: nat) => if n == serial then 1 else 0
  }

  lemma {:induction false} BelowCountsOnce(serial: nat, n: nat)
    ensures Below(Is(serial), n) == if serial < n then 1 else 0
  {
    if n == 0 {
    } else {
      BelowCountsOnce(serial, n - 1);
    }
  }

  predicate NoGiftsYet(w: World) {
    && w.made == 0 && w.hands == [] && w.granted == [] && w.declined == [] && w.lost == []
    && forall i :: 0 <= i < |w.players| ==> w.players[i].gifts == []
  }

  lemma {:induction false} EmptyPilesWeighNothing(f: nat -> int, players: seq<Player>)
    requires forall i :: 0 <= i < |players| ==> players[i].gifts == []
    ensures Sum(PileWeight(f), players) == 0
  {
    if players == [] {
    } else {
      EmptyPilesWeighNothing(f, players[1..]);
    }
  }

  /**
   * Every gift ever made is in exactly one place after any run (on one pile, in one
   * hand, granted, declined or lost, once) however often its id is sent again and
   * whatever is given while a grant is waited for; no pile ever holds two gifts of one
   * id, or is over its limit by more than one.
   */
  lemma EveryGiftOnce(giftable: set<int>, cooldown: nat, w: World, es: seq<Event>, serial: nat)
    requires NoGiftsYet(w)
    ensures var v := Run(giftable, cooldown, w, es);
            && Everywhere(Is(serial), v) == (if serial < v.made then 1 else 0)
            && forall i :: 0 <= i < |v.players| ==>
                 DistinctIds(v.players[i].gifts) && |v.players[i].gifts| <= MAX_PENDING_GIFTS + 1
  {
    EmptyPilesWeighNothing(Is(serial), w.players);
    RunConserves(Is(serial), giftable, cooldown, w, es);
    var v := Run(giftable, cooldown, w, es);
    BelowCountsOnce(serial, v.made);
    forall i | 0 <= i < |v.players|
      ensures DistinctIds(v.players[i].gifts) && |v.players[i].gifts| <= MAX_PENDING_GIFTS + 1
    {
      assert GoodPile(v, i);
    }
  }

  // --- When a gift is lost ---------------------------------------------------

  /** A gift is given under the very id of one its account has in hand. */
  predicate Reminted(w: World, e: Event) {
    e.Give? && exists h ::
      0 <= h < |w.hands| && w.hands[h].who == e.recipient && w.hands[h].gift.requestId == e.requestId
  }

  predicate NeverReminted(giftable: set<int>, cooldown: nat, w: World, es: seq<Event>)
    decreases |es|
  {
    es != [] ==> !Reminted(w, es[0]) && NeverReminted(giftable, cooldown, Next(giftable, cooldown, w, es[0]), es[1..])
  }

  /** A step loses a gift exactly when its grant is refused and its id has been given again meanwhile. */
  lemma LostIff(giftable: set<int>, cooldown: nat, w: World, e: Event)
    requires Good(w)
    ensures Next(giftable, cooldown, w, e).lost != w.lost <==>
              e.Settle? && !e.fits && e.hand < |w.hands|
              && OnPile(w.players[w.hands[e.hand].who], w.hands[e.hand].gift.requestId)
  {
    if e.Settle? && e.hand < |w.hands| {
      assert |w.lost + [w.hands[e.hand].gift.serial]| > |w.lost|;
    }
  }

  /** What is in hand is not on its pile. */
  predicate HandsAreOff(w: World) {
    forall h :: 0 <= h < |w.hands| && w.hands[h].who < |w.players| ==>
      !OnPile(w.players[w.hands[h].who], w.hands[h].gift.requestId)
  }

  lemma AppendOff(p: Player, gift: Gift, requestId: string)
    requires !OnPile(p, requestId) && gift.requestId != requestId
    ensures !OnPile(WithGift(p, gift), requestId)
  {
    NotOnPile(WithGift(p, gift), requestId);
  }

  lemma GivenKeepsOff(giftable: set<int>, cooldown: nat, w: World, e: Event)
    requires HandsAreOff(w) && !Reminted(w, e) && (e.SendEvent? || e.Give?)
    ensures HandsAreOff(Next(giftable, cooldown, w, e))
  {
    var v := Next(giftable, cooldown, w, e);
    if v != w {
      forall h | 0 <= h < |v.hands| && v.hands[h].who < |v.players|
        ensures !OnPile(v.players[v.hands[h].who], v.hands[h].gift.requestId)
      {
        var who := w.hands[h].who;
        assert Busy(w, who);
        if who == e.recipient {
          AppendOff(w.players[who], Gift(e.requestId, e.from, e.offerId, w.made), w.hands[h].gift.requestId);
        }
      }
    }
  }

  lemma TakenKeepsOff(giftable: set<int>, cooldown: nat, w: World, e: Event)
    requires Good(w) && HandsAreOff(w) && (e.Take? || e.Decline?)
    ensures HandsAreOff(Next(giftable, cooldown, w, e))
  {
    if MayTake(w, e.who, e.requestId) {
      assert GoodPile(w, e.who);
      TakingIsOne(w.players[e.who], e.requestId);
      forall h | 0 <= h < |w.hands|
        ensures w.hands[h].who != e.who
      {
        assert Busy(w, w.hands[h].who);
      }
    }
  }

  lemma SettledKeepsOff(w: World, h: nat, fits: bool)
    requires Good(w) && HandsAreOff(w) && h < |w.hands|
    ensures HandsAreOff(Settled(w, h, fits)) && Settled(w, h, fits).lost == w.lost
  {
    var v := Settled(w, h, fits);
    forall j | 0 <= j < |v.hands|
      ensures v.hands[j].who != w.hands[h].who && exists was :: 0 <= was < |w.hands| && w.hands[was] == v.hands[j]
    {
      var was := if j < h then j else j + 1;
      assert w.hands[was] == v.hands[j];
    }
  }

  lemma NextKeepsOff(giftable: set<int>, cooldown: nat, w: World, e: Event)
    requires Good(w) && HandsAreOff(w) && !Reminted(w, e)
    ensures HandsAreOff(Next(giftable, cooldown, w, e)) && Next(giftable, cooldown, w, e).lost == w.lost
  {
    match e
    case SendEvent(_, _, _, _, _) => GivenKeepsOff(giftable, cooldown, w, e);
    case Give(_, _, _, _) => GivenKeepsOff(giftable, cooldown, w, e);
    case Take(_, _) => TakenKeepsOff(giftable, cooldown, w, e);
    case Decline(_, _) => TakenKeepsOff(giftable, cooldown, w, e);
    case Settle(hand, fits) => if hand < |w.hands| { SettledKeepsOff(w, hand, fits); }
  }

  /** While no id is given again to an account that has it in hand, nothing is lost. */
  lemma {:induction false} NothingLost(giftable: set<int>, cooldown: nat, w: World, es: seq<Event>)
    requires Good(w) && HandsAreOff(w) && NeverReminted(giftable, cooldown, w, es)
    ensures Run(giftable, cooldown, w, es).lost == w.lost
    decreases |es|
  {
    if es == [] {
    } else {
      NextKeepsGood(giftable, cooldown, w, es[0]);
      NextKeepsOff(giftable, cooldown, w, es[0]);
      NothingLost(giftable, cooldown, Next(giftable, cooldown, w, es[0]), es[1..]);
    }
  }

  // --- Where a gift goes -----------------------------------------------------

  /** A grant that goes through counts as granted; one that is refused leaves the gift last on its pile again. */
  lemma SettlingPutsIt(w: World, h: nat, fits: bool)
    requires h < |w.hands| && w.hands[h].who < |w.players|
    ensures var who, gift, v := w.hands[h].who, w.hands[h].gift, Settled(w, h, fits);
            && v.hands == w.hands[..h] + w.hands[h + 1..] && v.declined == w.declined && v.made == w.made
            && (fits ==> v.granted == w.granted + [gift.serial] && v.players == w.players && v.lost == w.lost)
            && (!fits && gift.requestId !in TakenIds(w.players[who].gifts) ==>
                  && v.players == w.players[who := WithGift(w.players[who], gift)]
                  && v.granted == w.granted && v.lost == w.lost)
  {
    var p := w.players[w.hands[h].who];
    var i := FirstWhere(WithId(w.hands[h].gift.requestId), p.gifts);
    if i < |p.gifts| {
      assert p.gifts[i] in p.gifts;
    }
  }

  /** Declining ends the gift of that id, taking has it in hand; either leaves every other account alone. */
  lemma TakingPutsItInHand(giftable: set<int>, cooldown: nat, w: World, who: nat, requestId: string)
    requires MayTake(w, who, requestId)
    ensures var gift := TakenGift(w.players[who], requestId).value;
            var rest := w.players[who := AfterTaking(w.players[who], requestId)];
            && Next(giftable, cooldown, w, Take(who, requestId))
               == w.(players := rest, hands := w.hands + [Hand(who, gift)])
            && Next(giftable, cooldown, w, Decline(who, requestId))
               == w.(players := rest, declined := w.declined + [gift.serial])
  {
  }

  /**
   * A gift is put there when nothing is in the way: a send between two accounts nobody
   * has locked, as `SendHappensIff` allows it, and one the server makes where there is
   * room. It is last on the recipient's pile and is the next gift made.
   */
  lemma GivingPutsItThere(giftable: set<int>, cooldown: nat, w: World, e: Event)
    requires (e.SendEvent? || e.Give?) && e.recipient < |w.players| && FreshFor(w.players[e.recipient], e.requestId)
    requires |w.players[e.recipient].gifts| < MAX_PENDING_GIFTS
    requires e.SendEvent? ==>
               && e.sender < |w.players| && e.sender != e.recipient && !Busy(w, e.sender) && !Busy(w, e.recipient)
               && e.offerId in giftable && w.players[e.recipient].id != w.players[e.sender].id
               && w.players[e.recipient].id in w.players[e.sender].friends
               && MaySendAgain(w.players[e.sender].sends, w.players[e.recipient].id, cooldown, e.now)
    ensures var from := if e.SendEvent? then w.players[e.sender].id else e.from;
            var v := Next(giftable, cooldown, w, e);
            && |v.players| == |w.players| && v.made == w.made + 1 && v.hands == w.hands
            && v.players[e.recipient].gifts ==
               w.players[e.recipient].gifts + [Gift(e.requestId, from, e.offerId, w.made)]
  {
    if e.SendEvent? {
      SendHappensIff(Pair(w.players[e.sender], w.players[e.recipient]), giftable, cooldown,
                     e.offerId, e.now, e.requestId, w.made);
    }
  }
}
