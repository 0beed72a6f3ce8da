// Friends, blocks and waiting requests: what each call does to the two accounts
// it locks, and what every run of calls keeps true of the whole graph.
module Social {
  import opened Options
  import opened Sums

  /** A waiting request on the recipient's account. */
  datatype Request = Request(id: nat, from: nat)

  datatype Person = Person(friends: seq<nat>, ignored: seq<nat>, requests: seq<Request>)

  /** Two accounts held under both their locks. */
  datatype Pair = Pair(one: Person, other: Person)

  function Not(id: nat): nat -> bool {
    (x: nat) => x != id
  }

  function NotFrom(sender: nat): Request -> bool {
    (r: Request) => r.from != sender
  }

  function NotNumbered(id: nat): Request -> bool {
    (r: Request) => r.id != id
  }

  function From(sender: nat): Request -> bool {
    (r: Request) => r.from == sender
  }

  predicate BlockedBetween(a: Person, aId: nat, b: Person, bId: nat) {
    bId in a.ignored || aId in b.ignored
  }

  predicate HasRequestFrom(p: Person, sender: nat) {
    exists i :: 0 <= i < |p.requests| && p.requests[i].from == sender
  }

  predicate HasRequest(p: Person, requestId: nat, sender: nat) {
    exists i :: 0 <= i < |p.requests| && p.requests[i] == Request(requestId, sender)
  }

  function WithFriend(p: Person, id: nat): Person {
    if id in p.friends then p else p.(friends := p.friends + [id])
  }

  function WithoutFriend(p: Person, id: nat): Person {
    p.(friends := Filter(Not(id), p.friends))
  }

  function WithoutRequestsFrom(p: Person, sender: nat): Person {
    p.(requests := Filter(NotFrom(sender), p.requests))
  }

  function WithBlock(p: Person, id: nat): Person {
    if id in p.ignored then p else p.(ignored := p.ignored + [id])
  }

  // --- What each call does ---------------------------------------------------

  function Befriended(p: Pair, oneId: nat, otherId: nat): Pair {
    if BlockedBetween(p.one, oneId, p.other, otherId) then p
    else Pair(WithFriend(p.one, otherId), WithFriend(p.other, oneId))
  }

  /** one asks other, under a request id nobody has had. */
  function Requested(p: Pair, oneId: nat, otherId: nat, requestId: nat): Pair {
    if otherId in p.one.friends then p
    else if BlockedBetween(p.one, oneId, p.other, otherId) then p
    else if HasRequestFrom(p.other, oneId) then p
    else if HasRequestFrom(p.one, otherId) then
      // They asked first: asking them back is saying yes.
      Befriended(p.(one := WithoutFirstFrom(p.one, otherId)), oneId, otherId)
    else p.(other := WithRequest(p.other, Request(requestId, oneId)))
  }

  /** The first request of that sender, used up. */
  function WithoutFirstFrom(p: Person, sender: nat): Person
    requires HasRequestFrom(p, sender)
  {
    var i := FirstWhere(From(sender), p.requests);
    p.(requests := p.requests[..i] + p.requests[i + 1..])
  }

  /** one answers other's request; a request not held changes nothing. */
  function Answered(p: Pair, oneId: nat, otherId: nat, requestId: nat, accept: bool): Pair {
    if !HasRequest(p.one, requestId, otherId) then p
    else
      var used := p.(one := p.one.(requests := Filter(NotNumbered(requestId), p.one.requests)));
      if accept then Befriended(used, oneId, otherId) else used
  }

  function Unfriended(p: Pair, oneId: nat, otherId: nat): Pair {
    if otherId !in p.one.friends then p
    else Pair(WithoutFriend(p.one, otherId), WithoutFriend(p.other, oneId))
  }

  function Blocked(p: Pair, oneId: nat, otherId: nat): Pair {
    Pair(WithoutRequestsFrom(WithoutFriend(WithBlock(p.one, otherId), otherId), otherId),
         WithoutRequestsFrom(WithoutFriend(p.other, oneId), oneId))
  }

  function Unblocked(p: Person, otherId: nat): Person {
    p.(ignored := Filter(Not(otherId), p.ignored))
  }

  // --- In place --------------------------------------------------------------

  class Account {
    const id: nat
    var friends: seq<nat>
    var ignored: seq<nat>
    var requests: seq<Request>

    constructor (id: nat, person: Person)
      ensures this.id == id && Row() == person
    {
      this.id, friends, ignored, requests := id, person.friends, person.ignored, person.requests;
    }

    function Row(): Person
      reads this
    {
      Person(friends, ignored, requests)
    }

    method Befriend(friend: Account) returns (changed: bool)
      requires friend != this
      modifies this`friends, friend`friends
      ensures Pair(Row(), friend.Row()) == Befriended(old(Pair(Row(), friend.Row())), id, friend.id)
      ensures changed <==> Pair(Row(), friend.Row()) != old(Pair(Row(), friend.Row()))
    {
      if friend.id in ignored || id in friend.ignored { return false; }
      changed := false;
      if friend.id !in friends {
        friends := friends + [friend.id];
        assert |friends| > |old(friends)|;
        changed := true;
      }
      if id !in friend.friends {
        friend.friends := friend.friends + [id];
        assert |friend.friends| > |old(friend.friends)|;
        changed := true;
      }
    }

    method AskFriend(recipient: Account, requestId: nat)
      requires recipient != this
      modifies this`friends, this`requests, recipient`friends, recipient`requests
      ensures Pair(Row(), recipient.Row()) == Requested(old(Pair(Row(), recipient.Row())), id, recipient.id, requestId)
    {
      if recipient.id in friends { return; }
      if recipient.id in ignored || id in recipient.ignored { return; }
      if HasRequestFrom(recipient.Row(), id) { return; }
      if HasRequestFrom(Row(), recipient.id) {
        var i := FirstWhere(From(recipient.id), requests);
        requests := requests[..i] + requests[i + 1..];
        var _ := Befriend(recipient);
        return;
      }
      recipient.requests := recipient.requests + [Request(requestId, id)];
    }

    method Answer(requester: Account, requestId: nat, accept: bool)
      requires requester != this
      modifies this`friends, this`requests, requester`friends
      ensures Pair(Row(), requester.Row())
              == Answered(old(Pair(Row(), requester.Row())), id, requester.id, requestId, accept)
    {
      if !HasRequest(Row(), requestId, requester.id) { return; }
      requests := Filter(NotNumbered(requestId), requests);
      if accept {
        var _ := Befriend(requester);
      }
    }

    method DropFriend(other: nat)
      modifies this`friends
      ensures Row() == WithoutFriend(old(Row()), other)
    {
      if other !in friends {
        FilterAll(Not(other), friends);
        return;
      }
      friends := Filter(Not(other), friends);
    }

    method DropRequestsFrom(sender: nat)
      modifies this`requests
      ensures Row() == WithoutRequestsFrom(old(Row()), sender)
    {
      requests := Filter(NotFrom(sender), requests);
    }

    method Unfriend(former: Account)
      requires former != this
      modifies this`friends, former`friends
      ensures Pair(Row(), former.Row()) == Unfriended(old(Pair(Row(), former.Row())), id, former.id)
    {
      if former.id !in friends { return; }
      DropFriend(former.id);
      former.DropFriend(id);
    }

    method Ignore(other: Account) returns (blocked: bool)
      requires other != this
      modifies this, other`friends, other`requests
      ensures Pair(Row(), other.Row()) == Blocked(old(Pair(Row(), other.Row())), id, other.id)
      ensures blocked <==> other.id !in old(ignored)
    {
      blocked := other.id !in ignored;
      if blocked { ignored := ignored + [other.id]; }
      DropFriend(other.id);
      other.DropFriend(id);
      DropRequestsFrom(other.id);
      other.DropRequestsFrom(id);
    }

    method Unignore(otherId: nat) returns (changed: bool)
      modifies this`ignored
      ensures Row() == Unblocked(old(Row()), otherId)
      ensures changed <==> otherId in old(ignored)
    {
      if otherId !in ignored {
        FilterAll(Not(otherId), ignored);
        return false;
      }
      ignored := Filter(Not(otherId), ignored);
      return true;
    }
  }

  // --- The graph -------------------------------------------------------------

  /** Every account, and the next request id the server will hand out. */
  datatype Graph = Graph(people: map<nat, Person>, nextId: nat)

  datatype Event =
    | Ask(who: nat, whom: nat)
    | Answer(who: nat, requestId: nat, requester: nat, accept: bool)
    | Remove(who: nat, friend: nat)
    | Block(who: nat, whom: nat)
    | Unblock(who: nat, whom: nat)

  /** The other account an event names. */
  function Other(e: Event): nat {
    match e
    case Ask(_, whom) => whom
    case Answer(_, _, requester, _) => requester
    case Remove(_, friend) => friend
    case Block(_, whom) => whom
    case Unblock(_, whom) => whom
  }

  /** What an event makes of its two accounts, its own first. */
  function Result(p: Pair, e: Event, nextId: nat): Pair {
    match e
    case Ask(who, whom) => Requested(p, who, whom, nextId)
    case Answer(who, requestId, requester, accept) => Answered(p, who, requester, requestId, accept)
    case Remove(who, friend) => Unfriended(p, who, friend)
    case Block(who, whom) => Blocked(p, who, whom)
    case Unblock(who, whom) => p.(one := Unblocked(p.one, whom))
  }

  /** A call naming an unknown account, or the caller itself, changes nothing. */
  function Next(g: Graph, e: Event): Graph {
    if !Concerns(g, e) then g
    else Put(g, e.who, Other(e), Result(PairOf(g, e), e, g.nextId), NextId(g, e))
  }

  /** Two accounts there are, and not one with itself. */
  predicate Concerns(g: Graph, e: Event) {
    e.who in g.people && Other(e) in g.people && e.who != Other(e)
  }

  function PairOf(g: Graph, e: Event): Pair
    requires Concerns(g, e)
  {
    Pair(g.people[e.who], g.people[Other(e)])
  }

  function NextId(g: Graph, e: Event): nat {
    if e.Ask? then g.nextId + 1 else g.nextId
  }

  function Put(g: Graph, oneId: nat, otherId: nat, p: Pair, nextId: nat): Graph {
    Graph(g.people[oneId := p.one][otherId := p.other], nextId)
  }

  function Run(g: Graph, es: seq<Event>): Graph
    decreases |es|
  {
    if es == [] then g else Run(Next(g, es[0]), es[1..])
  }

  predicate NoRepeats<T(==)>(s: seq<T>) {
    forall i, j :: 0 <= i < j < |s| ==> s[i] != s[j]
  }

  /** One account's own lists. */
  predicate GoodPerson(p: Person, id: nat, nextId: nat) {
    && NoRepeats(p.friends) && id !in p.friends
    && (forall i, j :: 0 <= i < j < |p.requests| ==>
          p.requests[i].id != p.requests[j].id && p.requests[i].from != p.requests[j].from)
    && (forall r :: r in p.requests ==> r.from != id && r.id < nextId)
  }

  /** Two accounts, seen from the first: friends both ways or neither, and nothing across a block. */
  predicate GoodPair(a: Person, aId: nat, b: Person, bId: nat) {
    && (bId in a.friends ==> aId in b.friends && !BlockedBetween(a, aId, b, bId))
    && (HasRequestFrom(a, bId) ==>
          bId !in a.friends && aId !in b.friends && !BlockedBetween(a, aId, b, bId) && !HasRequestFrom(b, aId))
  }

  predicate Good(g: Graph) {
    && (forall a :: a in g.people ==> GoodPerson(g.people[a], a, g.nextId))
    && (forall a, b :: a in g.people && b in g.people && a != b ==> GoodPair(g.people[a], a, g.people[b], b))
    && (forall a :: a in g.people ==> Known(g.people[a], g.people.Keys))
  }

  lemma {:induction false} FilterKeepsOrder<T>(keep: T -> bool, s: seq<T>, i: nat, j: nat) returns (k: nat, l: nat)
    requires i < j < |Filter(keep, s)|
    ensures k < l < |s| && s[k] == Filter(keep, s)[i] && s[l] == Filter(keep, s)[j]
  {
    if keep(s[0]) && i == 0 {
      k := 0;
      assert Filter(keep, s)[j] == Filter(keep, s[1..])[j - 1];
      l := FilterAt(keep, s[1..], j - 1);
      l := l + 1;
    } else {
      var shift := if keep(s[0]) then 1 else 0;
      k, l := FilterKeepsOrder(keep, s[1..], i - shift, j - shift);
      k, l := k + 1, l + 1;
    }
  }

  lemma FilterAt<T>(keep: T -> bool, s: seq<T>, i: nat) returns (k: nat)
    requires i < |Filter(keep, s)|
    ensures k < |s| && s[k] == Filter(keep, s)[i]
  {
    var x := Filter(keep, s)[i];
    FilterMembers(keep, s);
    assert x in Filter(keep, s) && x in s;
    k :| 0 <= k < |s| && s[k] == x;
  }

  /** Fewer requests, fewer friends: an account that only loses rows stays good. */
  lemma FilterKeepsPerson(p: Person, id: nat, nextId: nat, friend: nat -> bool, request: Request -> bool)
    requires GoodPerson(p, id, nextId)
    ensures GoodPerson(p.(friends := Filter(friend, p.friends)), id, nextId)
    ensures GoodPerson(p.(requests := Filter(request, p.requests)), id, nextId)
  {
    FilterMembers(friend, p.friends);
    FilterMembers(request, p.requests);
    forall i: nat, j: nat | i < j < |Filter(friend, p.friends)|
      ensures Filter(friend, p.friends)[i] != Filter(friend, p.friends)[j]
    {
      var k, l := FilterKeepsOrder(friend, p.friends, i, j);
    }
    var rs := Filter(request, p.requests);
    forall i: nat, j: nat | i < j < |rs|
      ensures rs[i].id != rs[j].id && rs[i].from != rs[j].from
    {
      var k, l := FilterKeepsOrder(request, p.requests, i, j);
    }
  }

  /** What the two locked accounts have to satisfy after a call for the graph to stay good. */
  ghost predicate GoodResult(before: Pair, p: Pair, oneId: nat, otherId: nat, nextId: nat) {
    && GoodPerson(p.one, oneId, nextId) && GoodPerson(p.other, otherId, nextId)
    && GoodPair(p.one, oneId, p.other, otherId) && GoodPair(p.other, otherId, p.one, oneId)
    && SameElsewhere(before.one, p.one, otherId) && SameElsewhere(before.other, p.other, oneId)
  }

  /** A call between two accounts leaves what each has to do with anybody else alone. */
  ghost predicate SameElsewhere(before: Person, after: Person, other: nat) {
    && (forall x :: x != other ==> (x in after.friends <==> x in before.friends))
    && (forall x :: x != other ==> (x in after.ignored <==> x in before.ignored))
    && (forall x :: x != other ==> (HasRequestFrom(after, x) <==> HasRequestFrom(before, x)))
  }

  predicate GoodBefore(p: Pair, oneId: nat, otherId: nat, nextId: nat) {
    && oneId != otherId
    && GoodPerson(p.one, oneId, nextId) && GoodPerson(p.other, otherId, nextId)
    && GoodPair(p.one, oneId, p.other, otherId) && GoodPair(p.other, otherId, p.one, oneId)
  }

  /** Which senders are left after filtering requests. */
  lemma SendersAfterFilter(p: Person, keep: Request -> bool, x: nat)
    ensures HasRequestFrom(p.(requests := Filter(keep, p.requests)), x)
            <==> exists i :: 0 <= i < |p.requests| && p.requests[i].from == x && keep(p.requests[i])
  {
    var kept := Filter(keep, p.requests);
    FilterMembers(keep, p.requests);
    if i :| 0 <= i < |kept| && kept[i].from == x {
      assert kept[i] in kept;
    }
    if i :| 0 <= i < |p.requests| && p.requests[i].from == x && keep(p.requests[i]) {
      assert p.requests[i] in kept;
    }
  }

  lemma BefriendedIsGood(p: Pair, oneId: nat, otherId: nat, nextId: nat)
    requires GoodBefore(p, oneId, otherId, nextId)
    requires !HasRequestFrom(p.one, otherId) && !HasRequestFrom(p.other, oneId)
    ensures GoodResult(p, Befriended(p, oneId, otherId), oneId, otherId, nextId)
  {
  }

  /** Using up the only request of a sender leaves everybody else's. */
  lemma UsedUp(p: Person, id: nat, nextId: nat, i: nat)
    requires GoodPerson(p, id, nextId) && i < |p.requests|
    ensures var q := p.(requests := p.requests[..i] + p.requests[i + 1..]);
            && GoodPerson(q, id, nextId) && !HasRequestFrom(q, p.requests[i].from)
            && SameElsewhere(p, q, p.requests[i].from)
            && q.requests == Filter(NotNumbered(p.requests[i].id), p.requests)
  {
    var keep := NotNumbered(p.requests[i].id);
    FilterOneOut(keep, p.requests, i);
    FilterKeepsPerson(p, id, nextId, Not(id), keep);
    forall x
      ensures HasRequestFrom(p.(requests := Filter(keep, p.requests)), x) <==>
              x != p.requests[i].from && HasRequestFrom(p, x)
    {
      SendersAfterFilter(p, keep, x);
    }
  }

  /** A later next id is no matter to anybody. */
  lemma StaysGood(p: Person, id: nat, nextId: nat)
    requires GoodPerson(p, id, nextId)
    ensures GoodPerson(p, id, nextId + 1)
  {
  }

  function WithRequest(p: Person, request: Request): Person {
    p.(requests := p.requests + [request])
  }

  /** One more request at the end, of a sender who had none, under an id nobody has had. */
  lemma RequestWaits(p: Person, id: nat, sender: nat, nextId: nat)
    requires GoodPerson(p, id, nextId) && sender != id && !HasRequestFrom(p, sender)
    ensures GoodPerson(WithRequest(p, Request(nextId, sender)), id, nextId + 1)
    ensures forall x ::
              HasRequestFrom(WithRequest(p, Request(nextId, sender)), x) <==> x == sender || HasRequestFrom(p, x)
  {
    var q := WithRequest(p, Request(nextId, sender));
    assert q.requests[|p.requests|].from == sender;
    forall x
      ensures HasRequestFrom(q, x) <==> x == sender || HasRequestFrom(p, x)
    {
      if k :| 0 <= k < |p.requests| && p.requests[k].from == x {
        assert q.requests[k].from == x;
      }
    }
    forall r | r in p.requests
      ensures r.from != sender
    {
      var k :| 0 <= k < |p.requests| && p.requests[k] == r;
    }
  }

  lemma RequestedIsGood(p: Pair, oneId: nat, otherId: nat, nextId: nat)
    requires GoodBefore(p, oneId, otherId, nextId)
    ensures GoodResult(p, Requested(p, oneId, otherId, nextId), oneId, otherId, nextId + 1)
  {
    if otherId !in p.one.friends && !BlockedBetween(p.one, oneId, p.other, otherId) && !HasRequestFrom(p.other, oneId) {
      if HasRequestFrom(p.one, otherId) {
        var i := FirstWhere(From(otherId), p.one.requests);
        UsedUp(p.one, oneId, nextId, i);
        BefriendedIsGood(p.(one := WithoutFirstFrom(p.one, otherId)), oneId, otherId, nextId);
      } else {
        RequestWaits(p.other, otherId, oneId, nextId);
        StaysGood(p.one, oneId, nextId);
      }
    } else {
      StaysGood(p.one, oneId, nextId);
      StaysGood(p.other, otherId, nextId);
    }
  }

  lemma AnsweredIsGood(p: Pair, oneId: nat, otherId: nat, requestId: nat, accept: bool, nextId: nat)
    requires GoodBefore(p, oneId, otherId, nextId)
    ensures GoodResult(p, Answered(p, oneId, otherId, requestId, accept), oneId, otherId, nextId)
  {
    if HasRequest(p.one, requestId, otherId) {
      var i :| 0 <= i < |p.one.requests| && p.one.requests[i] == Request(requestId, otherId);
      UsedUp(p.one, oneId, nextId, i);
      assert HasRequestFrom(p.one, otherId);
      var used := p.(one := p.one.(requests := Filter(NotNumbered(requestId), p.one.requests)));
      BefriendedIsGood(used, oneId, otherId, nextId);
    }
  }

  lemma UnfriendedIsGood(p: Pair, oneId: nat, otherId: nat, nextId: nat)
    requires GoodBefore(p, oneId, otherId, nextId)
    ensures GoodResult(p, Unfriended(p, oneId, otherId), oneId, otherId, nextId)
  {
    FilterMembers(Not(otherId), p.one.friends);
    FilterMembers(Not(oneId), p.other.friends);
    FilterKeepsPerson(p.one, oneId, nextId, Not(otherId), NotFrom(otherId));
    FilterKeepsPerson(p.other, otherId, nextId, Not(oneId), NotFrom(oneId));
  }

  lemma DroppedIsGood(p: Person, id: nat, other: nat, nextId: nat)
    requires GoodPerson(p, id, nextId)
    ensures var q := WithoutRequestsFrom(WithoutFriend(p, other), other);
            GoodPerson(q, id, nextId) && other !in q.friends && !HasRequestFrom(q, other) && SameElsewhere(p, q, other)
  {
    FilterMembers(Not(other), p.friends);
    FilterKeepsPerson(p, id, nextId, Not(other), NotFrom(other));
    var f := WithoutFriend(p, other);
    FilterKeepsPerson(f, id, nextId, Not(other), NotFrom(other));
    forall x
      ensures HasRequestFrom(WithoutRequestsFrom(f, other), x) <==> x != other && HasRequestFrom(p, x)
    {
      SendersAfterFilter(f, NotFrom(other), x);
    }
  }

  lemma BlockedIsGood(p: Pair, oneId: nat, otherId: nat, nextId: nat)
    requires GoodBefore(p, oneId, otherId, nextId)
    ensures GoodResult(p, Blocked(p, oneId, otherId), oneId, otherId, nextId)
  {
    DroppedIsGood(WithBlock(p.one, otherId), oneId, otherId, nextId);
    DroppedIsGood(p.other, otherId, oneId, nextId);
  }

  lemma PutKeepsPairs(g: Graph, oneId: nat, otherId: nat, p: Pair, nextId: nat, a: nat, b: nat)
    requires Good(g) && oneId in g.people && otherId in g.people && oneId != otherId
    requires GoodResult(Pair(g.people[oneId], g.people[otherId]), p, oneId, otherId, nextId)
    requires a in g.people && b in g.people && a != b
    ensures var h := Put(g, oneId, otherId, p, nextId); GoodPair(h.people[a], a, h.people[b], b)
  {
    assert GoodPair(g.people[a], a, g.people[b], b);
  }

  /** Whom an account lists, or has a request from, exists. */
  predicate Known(p: Person, ids: set<nat>) {
    && (forall f :: f in p.friends ==> f in ids)
    && (forall r :: r in p.requests ==> r.from in ids)
  }

  lemma ResultIsKnown(before: Person, after: Person, other: nat, ids: set<nat>)
    requires Known(before, ids) && SameElsewhere(before, after, other) && other in ids
    ensures Known(after, ids)
  {
    forall r | r in after.requests
      ensures r.from in ids
    {
      var k :| 0 <= k < |after.requests| && after.requests[k] == r;
      assert HasRequestFrom(after, r.from);
      if r.from != other {
        var m :| 0 <= m < |before.requests| && before.requests[m].from == r.from;
        assert before.requests[m] in before.requests;
      }
    }
  }

  lemma PutIsGood(g: Graph, oneId: nat, otherId: nat, p: Pair, nextId: nat)
    requires Good(g) && oneId in g.people && otherId in g.people && oneId != otherId && nextId >= g.nextId
    requires GoodResult(Pair(g.people[oneId], g.people[otherId]), p, oneId, otherId, nextId)
    ensures Good(Put(g, oneId, otherId, p, nextId))
  {
    var h := Put(g, oneId, otherId, p, nextId);
    forall a, b | a in h.people && b in h.people && a != b
      ensures GoodPair(h.people[a], a, h.people[b], b)
    {
      PutKeepsPairs(g, oneId, otherId, p, nextId, a, b);
    }
    PutKeepsPeople(g, oneId, otherId, p, nextId);
  }

  lemma PutKeepsPeople(g: Graph, oneId: nat, otherId: nat, p: Pair, nextId: nat)
    requires Good(g) && oneId in g.people && otherId in g.people && oneId != otherId && nextId >= g.nextId
    requires GoodPerson(p.one, oneId, nextId) && GoodPerson(p.other, otherId, nextId)
    requires SameElsewhere(g.people[oneId], p.one, otherId) && SameElsewhere(g.people[otherId], p.other, oneId)
    ensures var h := Put(g, oneId, otherId, p, nextId);
            forall a :: a in h.people ==> GoodPerson(h.people[a], a, h.nextId) && Known(h.people[a], h.people.Keys)
  {
    var h := Put(g, oneId, otherId, p, nextId);
    ResultIsKnown(g.people[oneId], p.one, otherId, g.people.Keys);
    ResultIsKnown(g.people[otherId], p.other, oneId, g.people.Keys);
    assert h.people.Keys == g.people.Keys;
  }

  lemma ResultIsGood(p: Pair, e: Event, nextId: nat)
    requires GoodBefore(p, e.who, Other(e), nextId)
    ensures GoodResult(p, Result(p, e, nextId), e.who, Other(e), if e.Ask? then nextId + 1 else nextId)
  {
    match e
    case Ask(who, whom) => RequestedIsGood(p, who, whom, nextId);
    case Answer(who, requestId, requester, accept) => AnsweredIsGood(p, who, requester, requestId, accept, nextId);
    case Remove(who, friend) => UnfriendedIsGood(p, who, friend, nextId);
    case Block(who, whom) => BlockedIsGood(p, who, whom, nextId);
    case Unblock(who, whom) => FilterMembers(Not(whom), p.one.ignored);
  }

  lemma PairIsGoodBefore(g: Graph, a: nat, b: nat)
    requires Good(g) && a in g.people && b in g.people && a != b
    ensures GoodBefore(Pair(g.people[a], g.people[b]), a, b, g.nextId)
  {
  }

  lemma NextIsGood(g: Graph, e: Event)
    requires Good(g)
    ensures Good(Next(g, e))
  {
    if Concerns(g, e) {
      PutResultIsGood(g, e);
    }
  }

  lemma PutResultIsGood(g: Graph, e: Event)
    requires Good(g) && Concerns(g, e)
    ensures Good(Put(g, e.who, Other(e), Result(PairOf(g, e), e, g.nextId), NextId(g, e)))
  {
    PairIsGoodBefore(g, e.who, Other(e));
    ResultIsGood(PairOf(g, e), e, g.nextId);
    PutIsGood(g, e.who, Other(e), Result(PairOf(g, e), e, g.nextId), NextId(g, e));
  }

  lemma {:induction false} RunIsGood(g: Graph, es: seq<Event>)
    requires Good(g)
    ensures Good(Run(g, es))
    decreases |es|
  {
    if es == [] {
    } else {
      NextIsGood(g, es[0]);
      RunIsGood(Next(g, es[0]), es[1..]);
    }
  }

  /** Accounts that have met nobody yet. */
  function Strangers(ids: set<nat>): Graph {
    Graph(map id | id in ids :: Person([], [], []), 0)
  }

  /**
   * From an empty graph, after any run of requests, answers, removals, blocks and
   * unblocks, what two accounts are to each other is one of four things: nothing,
   * friends on both lists, one request waiting one way, or a block.
   */
  lemma NeverAcrossABlock(ids: set<nat>, es: seq<Event>, a: nat, b: nat)
    requires a in ids && b in ids && a != b
    ensures var g := Run(Strangers(ids), es);
            && a in g.people && b in g.people
            && var x, y := g.people[a], g.people[b];
            && (b in x.friends <==> a in y.friends)
            && (b in x.friends ==> !BlockedBetween(x, a, y, b) && !HasRequestFrom(x, b) && !HasRequestFrom(y, a))
            && (HasRequestFrom(x, b) ==> !BlockedBetween(x, a, y, b) && !HasRequestFrom(y, a))
            && NoRepeats(x.friends) && a !in x.friends && !HasRequestFrom(x, a)
  {
    RunIsGood(Strangers(ids), es);
    SamePeople(Strangers(ids), es);
    var g := Run(Strangers(ids), es);
    assert GoodPair(g.people[a], a, g.people[b], b) && GoodPair(g.people[b], b, g.people[a], a);
    assert GoodPerson(g.people[a], a, g.nextId);
  }

  lemma {:induction false} SamePeople(g: Graph, es: seq<Event>)
    ensures Run(g, es).people.Keys == g.people.Keys
    decreases |es|
  {
    if es == [] {
    } else {
      SamePeople(Next(g, es[0]), es[1..]);
      assert Next(g, es[0]).people.Keys == g.people.Keys;
    }
  }

  /** Between two accounts that are nothing to each other yet: asking leaves a request, and only that. */
  lemma AskingWaits(p: Pair, a: nat, b: nat, requestId: nat)
    requires !BlockedBetween(p.one, a, p.other, b) && b !in p.one.friends
    requires !HasRequestFrom(p.one, b) && !HasRequestFrom(p.other, a)
    ensures var asked := Requested(p, a, b, requestId);
            && asked.one == p.one && asked.other.friends == p.other.friends
            && HasRequest(asked.other, requestId, a)
  {
    var requests := Requested(p, a, b, requestId).other.requests;
    assert requests[|requests| - 1] == Request(requestId, a);
  }

  /** A block is on the blocker's list, and nothing is left between the two on either side. */
  lemma BlockingSevers(p: Pair, a: nat, b: nat, nextId: nat)
    requires GoodBefore(p, a, b, nextId)
    ensures var after := Blocked(p, a, b);
            && b in after.one.ignored && after.other.ignored == p.other.ignored
            && b !in after.one.friends && a !in after.other.friends
            && !HasRequestFrom(after.one, b) && !HasRequestFrom(after.other, a)
  {
    BlockedIsGood(p, a, b, nextId);
  }

  /** Unblocking lifts the caller's block and no other: asking works again unless the other side blocks too. */
  lemma UnblockingLifts(p: Person, b: nat, x: nat)
    ensures x in Unblocked(p, b).ignored <==> x != b && x in p.ignored
    ensures Unblocked(p, b).friends == p.friends && Unblocked(p, b).requests == p.requests
  {
    FilterMembers(Not(b), p.ignored);
  }

  /** Removing a friend takes it off both lists. */
  lemma RemovingEnds(p: Pair, a: nat, b: nat, nextId: nat)
    requires GoodBefore(p, a, b, nextId) && b in p.one.friends
    ensures var after := Unfriended(p, a, b);
            b !in after.one.friends && a !in after.other.friends
  {
    FilterMembers(Not(b), p.one.friends);
    FilterMembers(Not(a), p.other.friends);
  }

  /** Asking back whoever asked first makes the friendship on both lists, and uses the request up. */
  lemma AskingBackBefriends(p: Pair, a: nat, b: nat, nextId: nat)
    requires GoodBefore(p, a, b, nextId)
    requires !BlockedBetween(p.one, a, p.other, b) && HasRequestFrom(p.one, b)
    ensures var back := Requested(p, a, b, nextId);
            b in back.one.friends && a in back.other.friends && !HasRequestFrom(back.one, b)
  {
    UsedUp(p.one, a, nextId, FirstWhere(From(b), p.one.requests));
  }

  /** Saying yes makes the friendship on both lists, saying no makes none, and either uses the request up. */
  lemma AnsweringDecides(p: Pair, a: nat, b: nat, requestId: nat, accept: bool, nextId: nat)
    requires GoodBefore(p, a, b, nextId) && HasRequest(p.one, requestId, b)
    ensures var done := Answered(p, a, b, requestId, accept);
            && (b in done.one.friends <==> accept) && (a in done.other.friends <==> accept)
            && !HasRequestFrom(done.one, b)
  {
    var i :| 0 <= i < |p.one.requests| && p.one.requests[i] == Request(requestId, b);
    assert HasRequestFrom(p.one, b);
    UsedUp(p.one, a, nextId, i);
  }

  // --- Who consents to what --------------------------------------------------

  /** Asking a friend, across a block or twice leaves the pair as it was; so does answering what is not held. */
  lemma NothingToAnswer(p: Pair, a: nat, b: nat, requestId: nat, accept: bool)
    ensures !HasRequest(p.one, requestId, b) ==> Answered(p, a, b, requestId, accept) == p
    ensures b in p.one.friends || b in p.one.ignored || a in p.other.ignored || HasRequestFrom(p.other, a) ==>
              Requested(p, a, b, requestId) == p
    ensures b !in p.one.friends ==> Unfriended(p, a, b) == p
  {
  }

  /** The caller says yes to a request of the other that is waiting: by answering it, or by asking back. */
  predicate SaysYes(p: Person, e: Event) {
    match e
    case Ask(_, whom) => HasRequestFrom(p, whom)
    case Answer(_, requestId, requester, accept) => accept && HasRequest(p, requestId, requester)
    case _ => false
  }

  /** What the two accounts of a call are to each other afterwards. */
  lemma ResultBetween(p: Pair, e: Event, nextId: nat)
    requires GoodBefore(p, e.who, Other(e), nextId)
    ensures var q := Result(p, e, nextId);
            && (Other(e) in q.one.friends <==>
                  (Other(e) in p.one.friends && !e.Remove? && !e.Block?) || SaysYes(p.one, e))
            && (Other(e) in q.one.ignored <==> e.Block? || (Other(e) in p.one.ignored && !e.Unblock?))
            && (e.who in q.other.ignored <==> e.who in p.other.ignored)
  {
    ResultIsGood(p, e, nextId);
    match e
    case Ask(who, whom) =>
      if HasRequestFrom(p.one, whom) { AskingBackBefriends(p, who, whom, nextId); }
    case Answer(who, requestId, requester, accept) =>
      if HasRequest(p.one, requestId, requester) {
        AnsweringDecides(p, who, requester, requestId, accept, nextId);
        RequestIsFrom(p.one, requestId, requester);
      }
    case Remove(who, friend) =>
      if friend in p.one.friends { RemovingEnds(p, who, friend, nextId); }
    case Block(who, whom) => BlockingSevers(p, who, whom, nextId);
    case Unblock(_, whom) => FilterMembers(Not(whom), p.one.ignored);
  }

  lemma RequestIsFrom(p: Person, requestId: nat, sender: nat)
    requires HasRequest(p, requestId, sender)
    ensures HasRequestFrom(p, sender)
  {
    var i :| 0 <= i < |p.requests| && p.requests[i] == Request(requestId, sender);
    assert p.requests[i].from == sender;
  }

  /** Which of the requests between the two accounts of a call wait afterwards. */
  lemma RequestsBetween(p: Pair, e: Event, nextId: nat)
    requires GoodBefore(p, e.who, Other(e), nextId)
    ensures var q := Result(p, e, nextId);
            && (HasRequestFrom(q.other, e.who) <==>
                  if e.Block? then false
                  else HasRequestFrom(p.other, e.who) || (e.Ask? && Nothing(p, e.who, e.whom)))
            && (HasRequestFrom(q.one, Other(e)) <==>
                  && HasRequestFrom(p.one, Other(e)) && !e.Ask? && !e.Block?
                  && (e.Answer? ==> !HasRequest(p.one, e.requestId, e.requester)))
  {
    ResultIsGood(p, e, nextId);
    match e
    case Ask(who, whom) =>
      if HasRequestFrom(p.one, whom) { AskingBackBefriends(p, who, whom, nextId); }
      else if Nothing(p, who, whom) {
        AskingWaits(p, who, whom, nextId);
        RequestIsFrom(Requested(p, who, whom, nextId).other, nextId, who);
      }
    case Answer(who, requestId, requester, accept) =>
      if HasRequest(p.one, requestId, requester) { AnsweringDecides(p, who, requester, requestId, accept, nextId); }
    case Remove(_, _) =>
    case Block(who, whom) => BlockingSevers(p, who, whom, nextId);
    case Unblock(_, _) =>
  }

  /** Two accounts that are not friends, with no block and no request between them. */
  predicate Nothing(p: Pair, a: nat, b: nat) {
    && b !in p.one.friends && !BlockedBetween(p.one, a, p.other, b)
    && !HasRequestFrom(p.one, b) && !HasRequestFrom(p.other, a)
  }

  predicate Friends(g: Graph, a: nat, b: nat) {
    a in g.people && b in g.people[a].friends
  }

  predicate Waits(g: Graph, from: nat, at: nat) {
    at in g.people && HasRequestFrom(g.people[at], from)
  }

  predicate Between(e: Event, a: nat, b: nat) {
    (e.who == a && Other(e) == b) || (e.who == b && Other(e) == a)
  }

  /** A call touches its two accounts and nobody else, and of those two only what they are to each other. */
  lemma OthersAreLeftAlone(g: Graph, e: Event, a: nat, b: nat)
    requires Good(g) && a in g.people && b in g.people && a != b && !Between(e, a, b)
    ensures Next(g, e).people.Keys == g.people.Keys
    ensures a != e.who && a != Other(e) ==> Next(g, e).people[a] == g.people[a]
    ensures Friends(Next(g, e), a, b) == Friends(g, a, b)
    ensures Waits(Next(g, e), b, a) == Waits(g, b, a)
    ensures b in Next(g, e).people[a].ignored <==> b in g.people[a].ignored
  {
    if Concerns(g, e) {
      PairIsGoodBefore(g, e.who, Other(e));
      ResultIsGood(PairOf(g, e), e, g.nextId);
    }
  }

  /**
   * What one call makes of a friendship, a block and a request: a friendship begins
   * exactly when one of the two says yes to a request of the other it holds, and ends
   * exactly when one of them removes or blocks the other; a block is put and lifted by
   * its owner alone; a request begins when its sender asks somebody it has nothing
   * with, and is gone once its holder answers it or asks back, or either blocks.
   */
  lemma WhatACallDoes(g: Graph, e: Event, a: nat, b: nat)
    requires Good(g) && a in g.people && b in g.people && a != b
    ensures Friends(Next(g, e), a, b) <==>
              || (Between(e, a, b) && SaysYes(g.people[e.who], e))
              || (Friends(g, a, b) && !(Between(e, a, b) && (e.Remove? || e.Block?)))
    ensures a in Next(g, e).people
    ensures b in Next(g, e).people[a].ignored <==>
              e == Block(a, b) || (b in g.people[a].ignored && e != Unblock(a, b))
    ensures Waits(Next(g, e), b, a) <==>
              || (e == Ask(b, a) && Nothing(Pair(g.people[b], g.people[a]), b, a))
              || (&& Waits(g, b, a) && e != Ask(a, b) && !(Between(e, a, b) && e.Block?)
                  && !(e.Answer? && e.who == a && HasRequest(g.people[a], e.requestId, b) && e.requester == b))
  {
    if Between(e, a, b) {
      PairIsGoodBefore(g, e.who, Other(e));
      ResultBetween(PairOf(g, e), e, g.nextId);
      RequestsBetween(PairOf(g, e), e, g.nextId);
      ResultIsGood(PairOf(g, e), e, g.nextId);
      assert GoodPair(g.people[a], a, g.people[b], b) && GoodPair(g.people[b], b, g.people[a], a);
    } else {
      OthersAreLeftAlone(g, e, a, b);
    }
  }

  /** One account has asked another, or said yes to it. */
  predicate Said(e: Event, a: nat, b: nat) {
    e == Ask(a, b) || (e.Answer? && e.who == a && e.requester == b && e.accept)
  }

  ghost predicate HasSaid(es: seq<Event>, a: nat, b: nat) {
    exists i :: 0 <= i < |es| && Said(es[i], a, b)
  }

  lemma {:induction false} RunLast(g: Graph, es: seq<Event>, e: Event)
    ensures Run(g, es + [e]) == Next(Run(g, es), e)
    decreases |es|
  {
    if es == [] {
      assert [e][1..] == [];
    } else {
      RunLast(Next(g, es[0]), es[1..], e);
      assert (es + [e])[1..] == es[1..] + [e];
    }
  }

  /**
   * Nobody is anybody's friend without having said so: after any run from accounts
   * that had met nobody, each of two friends has asked the other or accepted it, and
   * a request that waits was asked.
   */
  lemma {:induction false} NoFriendshipWithoutConsent(ids: set<nat>, es: seq<Event>, a: nat, b: nat)
    requires a in ids && b in ids && a != b
    ensures Friends(Run(Strangers(ids), es), a, b) ==> HasSaid(es, a, b) && HasSaid(es, b, a)
    ensures Waits(Run(Strangers(ids), es), a, b) ==> HasSaid(es, a, b)
    ensures Waits(Run(Strangers(ids), es), b, a) ==> HasSaid(es, b, a)
    decreases |es|
  {
    if es == [] {
    } else {
      var before, e := es[..|es| - 1], es[|es| - 1];
      assert es == before + [e];
      NoFriendshipWithoutConsent(ids, before, a, b);
      RunLast(Strangers(ids), before, e);
      ConsentStep(ids, before, e, a, b);
    }
  }

  lemma SaidStays(es: seq<Event>, e: Event, a: nat, b: nat)
    ensures HasSaid(es + [e], a, b) <==> HasSaid(es, a, b) || Said(e, a, b)
  {
    var all := es + [e];
    assert all[|es|] == e && forall i :: 0 <= i < |es| ==> all[i] == es[i];
  }

  lemma ConsentStep(ids: set<nat>, es: seq<Event>, e: Event, a: nat, b: nat)
    requires a in ids && b in ids && a != b
    requires Friends(Run(Strangers(ids), es), a, b) ==> HasSaid(es, a, b) && HasSaid(es, b, a)
    requires Waits(Run(Strangers(ids), es), a, b) ==> HasSaid(es, a, b)
    requires Waits(Run(Strangers(ids), es), b, a) ==> HasSaid(es, b, a)
    ensures var h := Next(Run(Strangers(ids), es), e);
            && (Friends(h, a, b) ==> HasSaid(es + [e], a, b) && HasSaid(es + [e], b, a))
            && (Waits(h, a, b) ==> HasSaid(es + [e], a, b)) && (Waits(h, b, a) ==> HasSaid(es + [e], b, a))
  {
    var g := Run(Strangers(ids), es);
    RunIsGood(Strangers(ids), es);
    SamePeople(Strangers(ids), es);
    WhatACallDoes(g, e, a, b);
    WhatACallDoes(g, e, b, a);
    SaidStays(es, e, a, b);
    SaidStays(es, e, b, a);
    if Between(e, a, b) && SaysYes(g.people[e.who], e) && e.Answer? {
      RequestIsFrom(g.people[e.who], e.requestId, e.requester);
    }
  }
}
