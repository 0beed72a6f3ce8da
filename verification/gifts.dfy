// Free gifts between players: a pile per account, a request id per gift that only
// its account may take, and a sender's log that holds the cooldown.
module Gifts {
  import opened Options
  import opened Sums
  import opened Decimals

  const MAX_PENDING_GIFTS: nat := 200
  const MAX_SEND_HISTORY: nat := 512
  const COUNTER: nat := 1000

  /** serial is the gift's number among all ever made: not stored, only for telling gifts apart. */
  datatype Gift = Gift(requestId: string, from: nat, offerId: int, serial: nat)

  datatype Send = Send(to: nat, at: int)

  datatype Player = Player(id: nat, friends: seq<nat>, gifts: seq<Gift>, sends: seq<Send>)

  // --- Request ids -----------------------------------------------------------

  function MintedId(count: nat, now: nat, to: nat): string {
    Decimal(count % COUNTER) + ['_'] + Decimal(now) + ['_'] + Decimal(to)
  }

  predicate EndsWith(s: string, suffix: string) {
    |suffix| <= |s| && s[|s| - |suffix|..] == suffix
  }

  predicate RequestIdNames(requestId: string, account: nat) {
    EndsWith(requestId, ['_'] + Decimal(account))
  }

  /** The last separator of a text that ends in digits. */
  predicate LastSeparator(s: string, p: int) {
    0 <= p < |s| && s[p] == '_' && forall q :: p < q < |s| ==> IsDigit(s[q])
  }

  lemma NamesAtSeparator(s: string, account: nat)
    requires RequestIdNames(s, account)
    ensures LastSeparator(s, |s| - |Decimal(account)| - 1)
    ensures s[|s| - |Decimal(account)|..] == Decimal(account)
  {
    var suffix := ['_'] + Decimal(account);
    var p := |s| - |suffix|;
    assert s[p..][0] == s[p] && s[p..][1..] == s[p + 1..];
    assert suffix[1..] == Decimal(account);
    forall q | p < q < |s|
      ensures IsDigit(s[q])
    {
      assert s[q] == Decimal(account)[q - p - 1];
      assert Decimal(account)[q - p - 1] in Decimal(account);
    }
  }

  /** A request id names one account, the one it was minted for. */
  lemma NamesOneAccount(count: nat, now: nat, to: nat, account: nat)
    ensures RequestIdNames(MintedId(count, now, to), account) <==> account == to
  {
    var s := MintedId(count, now, to);
    var front := Decimal(count % COUNTER) + ['_'] + Decimal(now);
    assert s == front + (['_'] + Decimal(to));
    assert s[|front|..] == ['_'] + Decimal(to);
    assert RequestIdNames(s, to);
    if RequestIdNames(s, account) {
      NamesAtSeparator(s, to);
      NamesAtSeparator(s, account);
      DecimalInjective(account, to);
    }
  }

  lemma MintedInjective(m: nat, n: nat, now: nat, to: nat)
    requires MintedId(m, now, to) == MintedId(n, now, to)
    ensures m % COUNTER == n % COUNTER
  {
    var rest := Decimal(now) + ['_'] + Decimal(to);
    assert MintedId(m, now, to) == Decimal(m % COUNTER) + ['_'] + rest;
    assert MintedId(n, now, to) == Decimal(n % COUNTER) + ['_'] + rest;
    SplitUnique(Decimal(m % COUNTER), rest, Decimal(n % COUNTER), rest, '_');
    DecimalInjective(m % COUNTER, n % COUNTER);
  }

  function TakenIds(gifts: seq<Gift>): set<string> {
    set g | g in gifts :: g.requestId
  }

  lemma {:induction false} FewTaken(gifts: seq<Gift>)
    ensures |TakenIds(gifts)| <= |gifts|
  {
    if gifts == [] {
    } else {
      FewTaken(gifts[1..]);
      assert TakenIds(gifts) == {gifts[0].requestId} + TakenIds(gifts[1..]);
    }
  }

  lemma SubsetIsSmaller<T>(a: set<T>, b: set<T>)
    requires a <= b
    ensures |a| <= |b|
  {
    assert b == a + (b - a);
  }

  // --- What each call does ---------------------------------------------------

  datatype Refusal = NotAGift | ToOneself | NotAFriend | TooSoon | PileFull

  function Recent(cooldown: nat, now: int): Send -> bool {
    (s: Send) => now - s.at < cooldown
  }

  predicate CanGiftTo(sends: seq<Send>, to: nat, cooldown: nat, now: int) {
    forall s :: s in Filter(Recent(cooldown, now), sends) ==> s.to != to
  }

  function LastOf<T>(s: seq<T>, n: nat): seq<T> {
    if |s| > n then s[|s| - n..] else s
  }

  /** The sender's log after one more send. */
  function Logged(sends: seq<Send>, to: nat, cooldown: nat, now: int): seq<Send> {
    LastOf(Filter(Recent(cooldown, now), sends) + [Send(to, now)], MAX_SEND_HISTORY)
  }

  datatype Pair = Pair(sender: Player, recipient: Player)

  function SendOutcome(
      p: Pair, giftable: set<int>, cooldown: nat, offerId: int, now: int, requestId: string, serial: nat)
    : Outcome<Pair, Refusal>
  {
    if offerId !in giftable then Refused(NotAGift)
    else if p.recipient.id == p.sender.id then Refused(ToOneself)
    else if p.recipient.id !in p.sender.friends then Refused(NotAFriend)
    else if !CanGiftTo(p.sender.sends, p.recipient.id, cooldown, now) then Refused(TooSoon)
    else if |p.recipient.gifts| >= MAX_PENDING_GIFTS then Refused(PileFull)
    else Done(Pair(
      p.sender.(sends := Logged(p.sender.sends, p.recipient.id, cooldown, now)),
      p.recipient.(gifts := p.recipient.gifts + [Gift(requestId, p.sender.id, offerId, serial)])))
  }

  function OtherThan(requestId: string): Gift -> bool {
    (g: Gift) => g.requestId != requestId
  }

  function WithId(requestId: string): Gift -> bool {
    (g: Gift) => g.requestId == requestId
  }

  /** The gift an id takes, if it names this account and is on its pile. */
  function TakenGift(p: Player, requestId: string): Option<Gift> {
    if !RequestIdNames(requestId, p.id) then None
    else
      var i := FirstWhere(WithId(requestId), p.gifts);
      if i < |p.gifts| then Some(p.gifts[i]) else None
  }

  function AfterTaking(p: Player, requestId: string): Player {
    if TakenGift(p, requestId).None? then p else p.(gifts := Filter(OtherThan(requestId), p.gifts))
  }

  function AfterReturning(p: Player, gift: Gift): Player {
    if FirstWhere(WithId(gift.requestId), p.gifts) < |p.gifts| then p else p.(gifts := p.gifts + [gift])
  }

  // --- In place --------------------------------------------------------------

  class Account {
    const id: nat
    var friends: seq<nat>
    var gifts: seq<Gift>
    var sends: seq<Send>

    constructor (row: Player)
      ensures Row() == row
    {
      id, friends, gifts, sends := row.id, row.friends, row.gifts, row.sends;
    }

    function Row(): Player
      reads this
    {
      Player(id, friends, gifts, sends)
    }

    method TakeGift(requestId: string) returns (gift: Option<Gift>)
      modifies this`gifts
      ensures gift == TakenGift(old(Row()), requestId) && Row() == AfterTaking(old(Row()), requestId)
    {
      if !RequestIdNames(requestId, id) { return None; }
      var i := FirstWhere(WithId(requestId), gifts);
      if i == |gifts| { return None; }
      gift := Some(gifts[i]);
      gifts := Filter(OtherThan(requestId), gifts);
    }

    method ReturnGift(gift: Gift)
      modifies this`gifts
      ensures Row() == AfterReturning(old(Row()), gift)
    {
      if FirstWhere(WithId(gift.requestId), gifts) == |gifts| {
        gifts := gifts + [gift];
      }
    }
  }

  /** The thread's counter of request ids. */
  class Minter {
    var sequence: nat

    constructor ()
      ensures sequence == 0
    {
      sequence := 0;
    }

    /**
     * An id the recipient is not already holding. The search ends: at one time the
     * counter gives a thousand different ids, and fewer than two hundred are taken.
     */
    method UnusedRequestId(pile: seq<Gift>, to: nat, now: nat) returns (id: string)
      requires |pile| < MAX_PENDING_GIFTS
      modifies this
      ensures id !in TakenIds(pile)
      ensures RequestIdNames(id, to)
      ensures old(sequence) < sequence <= old(sequence) + |pile| + 1
      ensures id == MintedId(sequence - 1, now, to)
    {
      var taken := TakenIds(pile);
      ghost var start, tries := sequence, 0;
      while true
        invariant sequence == start + tries
        invariant Tried(start, tries, now, to) <= taken && tries <= |pile|
        decreases |pile| - tries
      {
        id := MintedId(sequence, now, to);
        sequence := sequence + 1;
        if id !in taken {
          NamesOneAccount(sequence - 1, now, to, to);
          return;
        }
        tries := tries + 1;
        NeverOutOfIds(pile, start, tries, now, to);
      }
    }
  }

  /** The first n ids a counter gives from start on. */
  function Tried(start: nat, n: nat, now: nat, to: nat): set<string> {
    if n == 0 then {} else Tried(start, n - 1, now, to) + {MintedId(start + n - 1, now, to)}
  }

  lemma {:induction false} NotTriedYet(start: nat, n: nat, next: nat, now: nat, to: nat)
    requires start + n <= next < start + COUNTER
    ensures MintedId(next, now, to) !in Tried(start, n, now, to)
  {
    if n == 0 {
    } else {
      NotTriedYet(start, n - 1, next, now, to);
      CloseIdsDiffer(start + n - 1, next, now, to);
    }
  }

  lemma CloseCountsDiffer(m: nat, n: nat)
    requires m < n < m + COUNTER
    ensures m % COUNTER != n % COUNTER
  {
  }

  lemma CloseIdsDiffer(m: nat, n: nat, now: nat, to: nat)
    requires m < n < m + COUNTER
    ensures MintedId(m, now, to) != MintedId(n, now, to)
  {
    CloseCountsDiffer(m, n);
    if MintedId(m, now, to) == MintedId(n, now, to) {
      MintedInjective(m, n, now, to);
    }
  }

  lemma {:induction false} AllTriedDiffer(start: nat, n: nat, now: nat, to: nat)
    requires n <= COUNTER
    ensures |Tried(start, n, now, to)| == n
  {
    if n == 0 {
    } else {
      AllTriedDiffer(start, n - 1, now, to);
      NotTriedYet(start, n - 1, start + n - 1, now, to);
    }
  }

  /** Pigeonhole: ids that were all taken are no more than the pile has gifts. */
  lemma NeverOutOfIds(pile: seq<Gift>, start: nat, n: nat, now: nat, to: nat)
    requires n <= COUNTER && Tried(start, n, now, to) <= TakenIds(pile)
    ensures n <= |pile|
  {
    AllTriedDiffer(start, n, now, to);
    FewTaken(pile);
    SubsetIsSmaller(Tried(start, n, now, to), TakenIds(pile));
  }

  /** Gives one free offer; the minter's id goes on the recipient's pile. A stored gift carries no serial: it is 0. */
  method SendGift(minter: Minter, sender: Account, recipient: Account, giftable: set<int>, cooldown: nat,
                  offerId: int, now: nat)
    returns (refusal: Option<Refusal>, ghost requestId: string)
    requires sender != recipient
    modifies minter, sender`sends, recipient`gifts
    ensures match SendOutcome(old(Pair(sender.Row(), recipient.Row())), giftable, cooldown, offerId, now, requestId, 0)
            case Done(p) => refusal == None && Pair(sender.Row(), recipient.Row()) == p
            case Refused(why) =>
              refusal == Some(why) && Pair(sender.Row(), recipient.Row()) == old(Pair(sender.Row(), recipient.Row()))
    ensures refusal == None ==> requestId !in TakenIds(old(recipient.gifts)) && RequestIdNames(requestId, recipient.id)
  {
    requestId := "";
    if offerId !in giftable { return Some(NotAGift), ""; }
    if recipient.id == sender.id { return Some(ToOneself), ""; }
    if recipient.id !in sender.friends { return Some(NotAFriend), ""; }
    if !CanGiftTo(sender.sends, recipient.id, cooldown, now) { return Some(TooSoon), ""; }
    if |recipient.gifts| >= MAX_PENDING_GIFTS { return Some(PileFull), ""; }
    var id := minter.UnusedRequestId(recipient.gifts, recipient.id, now);
    recipient.gifts := recipient.gifts + [Gift(id, sender.id, offerId, 0)];
    sender.sends := Logged(sender.sends, recipient.id, cooldown, now);
    return None, id;
  }

  /** Nothing of the cooldown is left towards that friend: no send to it within the cooldown is on the log. */
  predicate MaySendAgain(sends: seq<Send>, to: nat, cooldown: nat, now: int) {
    forall s :: s in sends && s.to == to ==> now - s.at >= cooldown
  }

  /**
   * A gift is sent exactly when the offer is one to give, the two are different and the
   * sender has the recipient as a friend, the cooldown towards it is over and its pile
   * has room. Then it is last on the recipient's pile and last on the sender's log, and
   * nothing else of either account changes.
   */
  lemma SendHappensIff(
      p: Pair, giftable: set<int>, cooldown: nat, offerId: int, now: int, requestId: string, serial: nat)
    ensures var r := SendOutcome(p, giftable, cooldown, offerId, now, requestId, serial);
            && (r.Done? <==>
                  && offerId in giftable && p.recipient.id != p.sender.id && p.recipient.id in p.sender.friends
                  && MaySendAgain(p.sender.sends, p.recipient.id, cooldown, now)
                  && |p.recipient.gifts| < MAX_PENDING_GIFTS)
            && (r.Done? ==>
                  && r.value.recipient.gifts == p.recipient.gifts + [Gift(requestId, p.sender.id, offerId, serial)]
                  && r.value.recipient == p.recipient.(gifts := r.value.recipient.gifts)
                  && r.value.sender == p.sender.(sends := r.value.sender.sends)
                  && r.value.sender.sends != []
                  && r.value.sender.sends[|r.value.sender.sends| - 1] == Send(p.recipient.id, now))
  {
    FilterMembers(Recent(cooldown, now), p.sender.sends);
    MayGiftIff(p.sender.sends, p.recipient.id, cooldown, now);
  }

  lemma MayGiftIff(sends: seq<Send>, to: nat, cooldown: nat, now: int)
    ensures CanGiftTo(sends, to, cooldown, now) <==> MaySendAgain(sends, to, cooldown, now)
  {
    FilterMembers(Recent(cooldown, now), sends);
    if s :| s in sends && s.to == to && now - s.at < cooldown {
      assert s in Filter(Recent(cooldown, now), sends);
    }
  }

  /** An id takes a gift exactly when it names this account and is on its pile; it takes that id off, and no other. */
  lemma TakesIffOnPile(p: Player, requestId: string, gift: Gift)
    ensures TakenGift(p, requestId).Some? <==> RequestIdNames(requestId, p.id) && requestId in TakenIds(p.gifts)
    ensures TakenGift(p, requestId).Some? ==>
              TakenGift(p, requestId).value in p.gifts && TakenGift(p, requestId).value.requestId == requestId
    ensures gift in AfterTaking(p, requestId).gifts <==>
              gift in p.gifts && !(gift.requestId == requestId && RequestIdNames(requestId, p.id))
    ensures AfterTaking(p, requestId) == p.(gifts := AfterTaking(p, requestId).gifts)
  {
    FilterMembers(OtherThan(requestId), p.gifts);
    var i := FirstWhere(WithId(requestId), p.gifts);
    if g :| g in p.gifts && g.requestId == requestId {
      var j :| 0 <= j < |p.gifts| && p.gifts[j] == g;
      assert i <= j;
    }
    if i < |p.gifts| {
      assert p.gifts[i] in p.gifts;
    }
  }

  // --- The cooldown ----------------------------------------------------------

  /** The sends of one account, in order: what it has kept, and all there ever were. */
  datatype Log = Log(kept: seq<Send>, all: seq<Send>)

  predicate InOrder(all: seq<Send>) {
    forall i, j :: 0 <= i < j < |all| ==> all[i].at <= all[j].at
  }

  predicate NotAfter(all: seq<Send>, now: int) {
    forall i :: 0 <= i < |all| ==> all[i].at <= now
  }

  /** One attempt: sent and logged if the kept log allows it. */
  function Attempt(log: Log, to: nat, cooldown: nat, now: int): Log {
    if !CanGiftTo(log.kept, to, cooldown, now) then log
    else Log(Logged(log.kept, to, cooldown, now), log.all + [Send(to, now)])
  }

  /** kept is all but the first lost sends, and each lost one is stale now or further back than the limit. */
  predicate Tracks(log: Log, lost: nat, cooldown: nat, now: int) {
    && lost <= |log.all| && log.kept == log.all[lost..]
    && Forgettable(log.all, lost, cooldown, now)
  }

  predicate Forgettable(all: seq<Send>, lost: nat, cooldown: nat, now: int)
    requires lost <= |all|
  {
    forall i :: 0 <= i < lost ==> now - all[i].at >= cooldown || |all| - i > MAX_SEND_HISTORY
  }

  /** Of a log in order, what is recent is its end. */
  lemma {:induction false} RecentIsSuffix(s: seq<Send>, cooldown: nat, now: int) returns (k: nat)
    requires InOrder(s)
    ensures k <= |s| && Filter(Recent(cooldown, now), s) == s[k..]
    ensures forall i :: 0 <= i < k ==> now - s[i].at >= cooldown
  {
    if s == [] {
      k := 0;
    } else if now - s[0].at < cooldown {
      FilterAll(Recent(cooldown, now), s);
      k := 0;
    } else {
      var rest := RecentIsSuffix(s[1..], cooldown, now);
      k := rest + 1;
      assert s[1..][rest..] == s[k..];
    }
  }

  lemma LoggedIsSuffix(all: seq<Send>, lost: nat, to: nat, cooldown: nat, now: int) returns (after: nat)
    requires InOrder(all) && lost <= |all| && Forgettable(all, lost, cooldown, now)
    ensures var longer := all + [Send(to, now)];
            && after <= |longer| && |longer| - after <= MAX_SEND_HISTORY
            && Logged(all[lost..], to, cooldown, now) == longer[after..]
            && Forgettable(longer, after, cooldown, now)
  {
    var longer := all + [Send(to, now)];
    var start := RecentStart(all, lost, to, cooldown, now);
    after := if |longer| - start > MAX_SEND_HISTORY then |longer| - MAX_SEND_HISTORY else start;
    assert longer[start..][after - start..] == longer[after..];
  }

  lemma RecentStart(all: seq<Send>, lost: nat, to: nat, cooldown: nat, now: int) returns (start: nat)
    requires InOrder(all) && lost <= |all| && Forgettable(all, lost, cooldown, now)
    ensures var longer := all + [Send(to, now)];
            && start <= |all| && Forgettable(longer, start, cooldown, now)
            && Filter(Recent(cooldown, now), all[lost..]) + [Send(to, now)] == longer[start..]
  {
    var k := RecentIsSuffix(all[lost..], cooldown, now);
    var longer := all + [Send(to, now)];
    start := lost + k;
    assert all[lost..][k..] + [Send(to, now)] == longer[start..];
    forall i | lost <= i < start
      ensures now - longer[i].at >= cooldown
    {
      assert longer[i] == all[lost..][i - lost];
    }
  }

  lemma AttemptKeepsTrack(log: Log, lost: nat, to: nat, cooldown: nat, now: int) returns (after: nat)
    requires InOrder(log.all) && NotAfter(log.all, now) && Tracks(log, lost, cooldown, now)
    requires |log.kept| <= MAX_SEND_HISTORY
    ensures var next := Attempt(log, to, cooldown, now);
            && InOrder(next.all) && NotAfter(next.all, now) && Tracks(next, after, cooldown, now)
            && |next.kept| <= MAX_SEND_HISTORY
  {
    if CanGiftTo(log.kept, to, cooldown, now) {
      after := LoggedIsSuffix(log.all, lost, to, cooldown, now);
    } else {
      after := lost;
    }
  }

  /** Some recent send to that friend among the last 512 made. */
  predicate SentRecently(all: seq<Send>, to: nat, cooldown: nat, now: int) {
    exists i :: 0 <= i < |all| && |all| - i <= MAX_SEND_HISTORY && all[i].to == to && now - all[i].at < cooldown
  }

  /**
   * A gift is refused for the cooldown exactly when one of the sender's last 512
   * went to the same friend less than a cooldown ago: what the bounded log still
   * knows is neither more nor less than that.
   */
  lemma RefusedIffSentRecently(log: Log, lost: nat, to: nat, cooldown: nat, now: int)
    requires Tracks(log, lost, cooldown, now) && |log.kept| <= MAX_SEND_HISTORY
    ensures CanGiftTo(log.kept, to, cooldown, now) <==> !SentRecently(log.all, to, cooldown, now)
  {
    CanGiftToIff(log.kept, to, cooldown, now);
    if s :| s in log.kept && s.to == to && now - s.at < cooldown {
      var i :| 0 <= i < |log.kept| && log.kept[i] == s;
      assert log.all[lost + i] == s;
      assert SentRecently(log.all, to, cooldown, now);
    }
    if SentRecently(log.all, to, cooldown, now) {
      var i :| 0 <= i < |log.all| && |log.all| - i <= MAX_SEND_HISTORY && log.all[i].to == to
               && now - log.all[i].at < cooldown;
      assert log.kept[i - lost] == log.all[i];
      assert log.all[i] in log.kept;
    }
  }

  lemma CanGiftToIff(sends: seq<Send>, to: nat, cooldown: nat, now: int)
    ensures CanGiftTo(sends, to, cooldown, now) <==> !exists s :: s in sends && s.to == to && now - s.at < cooldown
  {
    FilterMembers(Recent(cooldown, now), sends);
  }

  /** Sending is an attempt on the sender's log, once the offer, the friendship and the pile allow it. */
  lemma SendIsAttempt(
      p: Pair, giftable: set<int>, cooldown: nat, offerId: int, now: int, requestId: string, serial: nat,
      all: seq<Send>)
    requires offerId in giftable && p.recipient.id != p.sender.id && p.recipient.id in p.sender.friends
    requires |p.recipient.gifts| < MAX_PENDING_GIFTS
    ensures var r := SendOutcome(p, giftable, cooldown, offerId, now, requestId, serial);
            var log := Attempt(Log(p.sender.sends, all), p.recipient.id, cooldown, now);
            && log.kept == (if r.Done? then r.value.sender.sends else p.sender.sends)
            && (log.all == all + [Send(p.recipient.id, now)] <==> r.Done?)
            && (r.Done? ==>
                  r.value.recipient.gifts == p.recipient.gifts + [Gift(requestId, p.sender.id, offerId, serial)])
  {
    assert |all + [Send(p.recipient.id, now)]| != |all|;
  }

  /** Attempts at nondecreasing times. */
  datatype Try = Try(to: nat, now: int)

  function RunLog(log: Log, cooldown: nat, tries: seq<Try>): Log
    decreases |tries|
  {
    if tries == [] then log else RunLog(Attempt(log, tries[0].to, cooldown, tries[0].now), cooldown, tries[1..])
  }

  predicate Forward(tries: seq<Try>, from: int) {
    forall i, j :: 0 <= i <= j < |tries| ==> from <= tries[i].now <= tries[j].now
  }

  lemma {:induction false} RunKeepsTrack(log: Log, before: nat, cooldown: nat, tries: seq<Try>, from: int)
    returns (lost: nat, now: int)
    requires InOrder(log.all) && NotAfter(log.all, from) && Tracks(log, before, cooldown, from)
    requires |log.kept| <= MAX_SEND_HISTORY && Forward(tries, from)
    ensures now == if tries == [] then from else tries[|tries| - 1].now
    ensures var after := RunLog(log, cooldown, tries);
            && InOrder(after.all) && NotAfter(after.all, now) && Tracks(after, lost, cooldown, now)
            && |after.kept| <= MAX_SEND_HISTORY
    decreases |tries|
  {
    if tries == [] {
      lost, now := before, from;
    } else {
      var t := tries[0];
      var mid := AttemptKeepsTrack(log, before, t.to, cooldown, t.now);
      RestIsForward(tries, from);
      lost, now := RunKeepsTrack(Attempt(log, t.to, cooldown, t.now), mid, cooldown, tries[1..], t.now);
    }
  }

  lemma RestIsForward(tries: seq<Try>, from: int)
    requires tries != [] && Forward(tries, from)
    ensures Forward(tries[1..], tries[0].now)
  {
  }

  /** How many sends of the whole history are within a cooldown of now. */
  function InWindow(all: seq<Send>, cooldown: nat, now: int): nat {
    |Filter(Recent(cooldown, now), all)|
  }

  /** With at most 512 sends in the window, everything recent is among the last 512. */
  lemma WindowIsKept(all: seq<Send>, to: nat, cooldown: nat, now: int)
    requires InOrder(all) && InWindow(all, cooldown, now) <= MAX_SEND_HISTORY
    ensures SentRecently(all, to, cooldown, now) <==> exists s :: s in all && s.to == to && now - s.at < cooldown
  {
    var k := RecentIsSuffix(all, cooldown, now);
    if SentRecently(all, to, cooldown, now) {
      var i :| 0 <= i < |all| && |all| - i <= MAX_SEND_HISTORY && all[i].to == to && now - all[i].at < cooldown;
      assert all[i] in all;
    }
    if s :| s in all && s.to == to && now - s.at < cooldown {
      var i :| 0 <= i < |all| && all[i] == s;
      assert i >= k;
    }
  }

  /**
   * While a sender has made at most 512 sends in the window, a gift to a friend is
   * let through exactly when none went to that friend within the cooldown — after
   * any attempts at nondecreasing times.
   */
  lemma CooldownHolds(cooldown: nat, tries: seq<Try>, start: int, to: nat, now: int)
    requires Forward(tries, start) && start <= now && (tries != [] ==> tries[|tries| - 1].now <= now)
    requires InWindow(RunLog(Log([], []), cooldown, tries).all, cooldown, now) <= MAX_SEND_HISTORY
    ensures var log := RunLog(Log([], []), cooldown, tries);
            CanGiftTo(log.kept, to, cooldown, now) <==>
              forall s :: s in log.all && s.to == to ==> now - s.at >= cooldown
  {
    var log := RunLog(Log([], []), cooldown, tries);
    var lost, last := RunKeepsTrack(Log([], []), 0, cooldown, tries, start);
    RefusedIffSentRecently(log, lost, to, cooldown, now);
    WindowIsKept(log.all, to, cooldown, now);
  }

  /** Any two sends to one friend are at least a cooldown apart. */
  predicate Spaced(all: seq<Send>, cooldown: nat) {
    forall i, j :: 0 <= i < j < |all| && all[i].to == all[j].to ==> all[j].at - all[i].at >= cooldown
  }

  /** No send was made with more than 512 others in the cooldown before it. */
  predicate NeverOver(all: seq<Send>, cooldown: nat) {
    forall k :: 0 <= k < |all| ==> InWindow(all[..k], cooldown, all[k].at) <= MAX_SEND_HISTORY
  }

  lemma {:induction false} RunOnlyAppends(log: Log, cooldown: nat, tries: seq<Try>)
    ensures log.all <= RunLog(log, cooldown, tries).all
    decreases |tries|
  {
    if tries == [] {
    } else {
      RunOnlyAppends(Attempt(log, tries[0].to, cooldown, tries[0].now), cooldown, tries[1..]);
    }
  }

  lemma AttemptKeepsSpaced(log: Log, lost: nat, to: nat, cooldown: nat, now: int)
    requires InOrder(log.all) && Tracks(log, lost, cooldown, now) && |log.kept| <= MAX_SEND_HISTORY
    requires Spaced(log.all, cooldown)
    requires CanGiftTo(log.kept, to, cooldown, now) ==> InWindow(log.all, cooldown, now) <= MAX_SEND_HISTORY
    ensures Spaced(Attempt(log, to, cooldown, now).all, cooldown)
  {
    if CanGiftTo(log.kept, to, cooldown, now) {
      RefusedIffSentRecently(log, lost, to, cooldown, now);
      WindowIsKept(log.all, to, cooldown, now);
      forall i | 0 <= i < |log.all| && log.all[i].to == to
        ensures now - log.all[i].at >= cooldown
      {
        assert log.all[i] in log.all;
      }
    }
  }

  lemma {:induction false} RunKeepsSpaced(log: Log, lost: nat, cooldown: nat, tries: seq<Try>, from: int)
    requires InOrder(log.all) && NotAfter(log.all, from) && Tracks(log, lost, cooldown, from)
    requires |log.kept| <= MAX_SEND_HISTORY && Forward(tries, from)
    requires Spaced(log.all, cooldown) && NeverOver(RunLog(log, cooldown, tries).all, cooldown)
    ensures Spaced(RunLog(log, cooldown, tries).all, cooldown)
    decreases |tries|
  {
    if tries == [] {
    } else {
      var t := tries[0];
      var next := Attempt(log, t.to, cooldown, t.now);
      RunOnlyAppends(next, cooldown, tries[1..]);
      var all := RunLog(next, cooldown, tries[1..]).all;
      if CanGiftTo(log.kept, t.to, cooldown, t.now) {
        assert all[..|log.all|] == log.all && all[|log.all|] == Send(t.to, t.now);
      }
      AttemptKeepsSpaced(log, lost, t.to, cooldown, t.now);
      var mid := AttemptKeepsTrack(log, lost, t.to, cooldown, t.now);
      RestIsForward(tries, from);
      RunKeepsSpaced(next, mid, cooldown, tries[1..], t.now);
    }
  }

  /**
   * After any attempts at nondecreasing times: while no send had more than 512
   * others in its window, every two gifts to one friend are a cooldown apart.
   */
  lemma GiftsAreSpaced(cooldown: nat, tries: seq<Try>, start: int)
    requires Forward(tries, start)
    requires NeverOver(RunLog(Log([], []), cooldown, tries).all, cooldown)
    ensures Spaced(RunLog(Log([], []), cooldown, tries).all, cooldown)
  {
    RunKeepsSpaced(Log([], []), 0, cooldown, tries, start);
  }
}
