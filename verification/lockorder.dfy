// The layers of waiting an account operation may go through — the allocation chain,
// account locks, the read under way of an account, write chains — and the order
// every request takes them in. Deadlock shows that nothing built this way can stop.
//
// A read is shared by whoever asks while it is under way; here they go through it
// one after another, which is more waiting, never less.
module LockOrder {
  /** Account ids are unsigned 32-bit integers. */
  const IDS: nat := 0x1_0000_0000
  const READS: nat := 1 + IDS
  const WRITES: nat := READS + IDS
  const TOP: nat := WRITES + IDS

  datatype Lock = Allocation | Account(id: nat) | Reading(id: nat) | WriteChain(id: nat)

  predicate ValidLock(l: Lock) {
    l.Allocation? || l.id < IDS
  }

  /** Allocation first, then accounts by id, then reads, then write chains by id. */
  function Rank(l: Lock): int {
    match l
    case Allocation => 0
    case Account(id) => 1 + id
    case Reading(id) => READS + id
    case WriteChain(id) => WRITES + id
  }

  /** What a step does: read an account, change some, write some to storage, or claim a name or an id. */
  datatype Deed = Read(id: nat) | Change(ids: set<nat>) | Write(ids: set<nat>) | Claim

  /** What a task has left to do. Hold runs body inside the lock and next after it. */
  datatype Work = Done | Step(deed: Deed, next: Work) | Hold(lock: Lock, body: Work, next: Work)

  /** Every lock is taken above all the locks around it. */
  predicate Ascending(w: Work, above: int) {
    match w
    case Done => true
    case Step(_, next) => Ascending(next, above)
    case Hold(lock, body, next) =>
      ValidLock(lock) && Rank(lock) > above && Ascending(body, Rank(lock)) && Ascending(next, above)
  }

  lemma {:induction false} AscendingLower(w: Work, above: int, lower: int)
    requires Ascending(w, above) && lower <= above
    ensures Ascending(w, lower)
  {
    match w
    case Done =>
    case Step(_, next) => AscendingLower(next, above, lower);
    case Hold(_, _, next) => AscendingLower(next, above, lower);
  }

  // --- The programs the server runs ------------------------------------------

  function Insert(id: nat, sorted: seq<nat>): (r: seq<nat>)
    requires StrictlySorted(sorted)
    ensures StrictlySorted(r)
    ensures forall x :: x in r <==> x == id || x in sorted
    ensures sorted != [] && r != [] ==> r[0] == if id < sorted[0] then id else sorted[0]
  {
    if sorted == [] then [id]
    else if id < sorted[0] then [id] + sorted
    else if id == sorted[0] then sorted
    else
      assert forall x :: x in sorted <==> x == sorted[0] || x in sorted[1..];
      [sorted[0]] + Insert(id, sorted[1..])
  }

  predicate StrictlySorted(s: seq<nat>) {
    |s| <= 1 || (s[0] < s[1] && StrictlySorted(s[1..]))
  }

  /** The ids of a save, once each and smallest first. */
  function SortedUnique(ids: seq<nat>): (r: seq<nat>)
    ensures StrictlySorted(r)
    ensures forall x :: x in r <==> x in ids
  {
    if ids == [] then []
    else
      assert forall x :: x in ids <==> x == ids[0] || x in ids[1..];
      Insert(ids[0], SortedUnique(ids[1..]))
  }

  function Nested(ids: seq<nat>, write: Work): Work {
    if ids == [] then write else Hold(WriteChain(ids[0]), Nested(ids[1..], write), Done)
  }

  function Members(ids: seq<nat>): set<nat> {
    set id | id in ids
  }

  /** withWriteChains: every chain a save needs, smallest id first, around one write. */
  function Save(ids: seq<nat>): Work {
    Nested(SortedUnique(ids), Step(Write(Members(ids)), Done))
  }

  /** withTwoAccountLocks: both of them, smallest id first; one lock if they are one account. */
  function TwoAccounts(first: nat, second: nat, body: Work, next: Work): Work {
    if first == second then Hold(Account(first), body, next)
    else if first < second then Hold(Account(first), Hold(Account(second), body, Done), next)
    else Hold(Account(second), Hold(Account(first), body, Done), next)
  }

  /** One piece of work after another. */
  function Then(w: Work, next: Work): Work {
    match w
    case Done => next
    case Step(deed, rest) => Step(deed, Then(rest, next))
    case Hold(lock, body, rest) => Hold(lock, body, Then(rest, next))
  }

  /** readAccount: the read under way of the account, which saves it if it made or repaired it. */
  function Load(id: nat, repairs: bool): Work {
    Hold(Reading(id), Step(Read(id), if repairs then Save([id]) else Done), Done)
  }

  /** The name scan: every account in turn, some of them repaired on the way. */
  function Scan(ids: seq<nat>, repaired: set<nat>): Work {
    if ids == [] then Done else Then(Load(ids[0], ids[0] in repaired), Scan(ids[1..], repaired))
  }

  /** renameAccount: on the allocation chain, under the account's lock, a scan, a read and one save. */
  function Rename(id: nat, population: seq<nat>, repaired: set<nat>): Work {
    var renaming := Step(Claim, Step(Change({id}), Save([id])));
    var body := Then(Scan(population, repaired), Then(Load(id, id in repaired), renaming));
    Hold(Allocation, Hold(Account(id), body, Done), Done)
  }

  /** createNewAccount: on the allocation chain, a scan if a name is asked for, and one save; no account lock. */
  function CreateNew(id: nat, named: bool, population: seq<nat>, repaired: set<nat>): Work {
    Hold(Allocation, Then(if named then Scan(population, repaired) else Done, Step(Claim, Save([id]))), Done)
  }

  /** A handler of one account: its lock, a read, a save. */
  function Handler(id: nat, repairs: bool): Work {
    Hold(Account(id), Then(Load(id, repairs), Step(Change({id}), Save([id]))), Done)
  }

  /** A change of two accounts: both locks, both reads, one save of both. */
  function PairHandler(first: nat, second: nat, repaired: set<nat>): Work {
    var exchange := Step(Change({first, second}), Save([first, second]));
    var rest := Then(Load(second, second in repaired), exchange);
    TwoAccounts(first, second, Then(Load(first, first in repaired), rest), Done)
  }

  lemma {:induction false} NestedAscends(ids: seq<nat>, write: Work, above: int)
    requires StrictlySorted(ids) && forall x :: x in ids ==> x < IDS
    requires ids != [] ==> above < Rank(WriteChain(ids[0]))
    requires Ascending(write, TOP) && above <= TOP
    ensures Ascending(Nested(ids, write), above)
  {
    if ids == [] {
      AscendingLower(write, TOP, above);
    } else {
      assert ids[0] in ids && forall x :: x in ids[1..] ==> x in ids;
      NestedAscends(ids[1..], write, Rank(WriteChain(ids[0])));
    }
  }

  /** A save may stand inside any account locks: its chains rank above every one of them. */
  lemma SaveAscends(ids: seq<nat>, above: int)
    requires forall x :: x in ids ==> x < IDS
    requires above < WRITES
    ensures Ascending(Save(ids), above)
  {
    var sorted := SortedUnique(ids);
    NestedAscends(sorted, Step(Write(Members(ids)), Done), above);
  }

  /** However a pair is named, and whatever saves happen inside it, the order is kept. */
  lemma TwoAccountsAscends(first: nat, second: nat, body: Work, next: Work, above: int)
    requires first < IDS && second < IDS && above < 1
    requires Ascending(body, IDS) && Ascending(next, above)
    ensures Ascending(TwoAccounts(first, second, body, next), above)
  {
    AscendingLower(body, IDS, Rank(Account(first)));
    AscendingLower(body, IDS, Rank(Account(second)));
  }

  lemma {:induction false} ThenAscends(w: Work, next: Work, above: int)
    requires Ascending(w, above) && Ascending(next, above)
    ensures Ascending(Then(w, next), above)
  {
    match w
    case Done =>
    case Step(_, rest) => ThenAscends(rest, next, above);
    case Hold(_, _, rest) => ThenAscends(rest, next, above);
  }

  /** A read may stand inside any account locks, and what it saves stands inside the read. */
  lemma LoadAscends(id: nat, repairs: bool, above: int)
    requires id < IDS && above < READS
    ensures Ascending(Load(id, repairs), above)
  {
    SaveAscends([id], Rank(Reading(id)));
  }

  lemma {:induction false} ScanAscends(ids: seq<nat>, repaired: set<nat>, above: int)
    requires above < READS && forall x :: x in ids ==> x < IDS
    ensures Ascending(Scan(ids, repaired), above)
  {
    if ids == [] {
    } else {
      assert ids[0] in ids && forall x :: x in ids[1..] ==> x in ids;
      LoadAscends(ids[0], ids[0] in repaired, above);
      ScanAscends(ids[1..], repaired, above);
      ThenAscends(Load(ids[0], ids[0] in repaired), Scan(ids[1..], repaired), above);
    }
  }

  lemma LoadThenAscends(id: nat, repairs: bool, next: Work, above: int)
    requires id < IDS && above < READS && Ascending(next, above)
    ensures Ascending(Then(Load(id, repairs), next), above)
  {
    LoadAscends(id, repairs, above);
    ThenAscends(Load(id, repairs), next, above);
  }

  /** Whatever accounts the scan reads, and whichever of them it repairs and saves. */
  lemma RenameAscends(id: nat, population: seq<nat>, repaired: set<nat>)
    requires id < IDS && forall x :: x in population ==> x < IDS
    ensures Ascending(Rename(id, population, repaired), -1)
  {
    var above := Rank(Account(id));
    var renaming := Step(Claim, Step(Change({id}), Save([id])));
    ScanAscends(population, repaired, above);
    SaveAscends([id], above);
    LoadThenAscends(id, id in repaired, renaming, above);
    ThenAscends(Scan(population, repaired), Then(Load(id, id in repaired), renaming), above);
  }

  lemma CreateNewAscends(id: nat, named: bool, population: seq<nat>, repaired: set<nat>)
    requires id < IDS && forall x :: x in population ==> x < IDS
    ensures Ascending(CreateNew(id, named, population, repaired), -1)
  {
    ScanAscends(population, repaired, Rank(Allocation));
    SaveAscends([id], Rank(Allocation));
    ThenAscends(if named then Scan(population, repaired) else Done, Step(Claim, Save([id])), Rank(Allocation));
  }

  lemma HandlersAscend(first: nat, second: nat, repaired: set<nat>)
    requires first < IDS && second < IDS
    ensures Ascending(Handler(first, first in repaired), -1)
    ensures Ascending(PairHandler(first, second, repaired), -1)
  {
    SaveAscends([first], Rank(Account(first)));
    LoadThenAscends(first, first in repaired, Step(Change({first}), Save([first])), Rank(Account(first)));
    var exchange := Step(Change({first, second}), Save([first, second]));
    SaveAscends([first, second], IDS);
    LoadThenAscends(second, second in repaired, exchange, IDS);
    var rest := Then(Load(second, second in repaired), exchange);
    LoadThenAscends(first, first in repaired, rest, IDS);
    TwoAccountsAscends(first, second, Then(Load(first, first in repaired), rest), Done, -1);
  }

  /** What clients and sessions ask of the server, as far as locks go. */
  datatype Request =
    | Renaming(id: nat, population: seq<nat>, repaired: set<nat>)
    | Creating(id: nat, named: bool, population: seq<nat>, repaired: set<nat>)
    | Changing(id: nat, repaired: set<nat>)
    | Exchanging(first: nat, second: nat, repaired: set<nat>)
    | Looking(id: nat, repaired: set<nat>)   // without the account's lock
    | Saving(ids: seq<nat>)                  // a session's own

  predicate ValidIds(ids: seq<nat>) {
    forall x :: x in ids ==> x < IDS
  }

  predicate ValidRequest(r: Request) {
    match r
    case Renaming(id, population, _) => id < IDS && ValidIds(population)
    case Creating(id, _, population, _) => id < IDS && ValidIds(population)
    case Changing(id, _) => id < IDS
    case Exchanging(first, second, _) => first < IDS && second < IDS
    case Looking(id, _) => id < IDS
    case Saving(ids) => ValidIds(ids)
  }

  function Program(r: Request): Work {
    match r
    case Renaming(id, population, repaired) => Rename(id, population, repaired)
    case Creating(id, named, population, repaired) => CreateNew(id, named, population, repaired)
    case Changing(id, repaired) => Handler(id, id in repaired)
    case Exchanging(first, second, repaired) => PairHandler(first, second, repaired)
    case Looking(id, repaired) => Load(id, id in repaired)
    case Saving(ids) => Save(ids)
  }

  /** Every request takes its locks in ascending rank. */
  lemma RequestAscends(r: Request)
    requires ValidRequest(r)
    ensures Ascending(Program(r), -1)
  {
    match r
    case Renaming(id, population, repaired) => RenameAscends(id, population, repaired);
    case Creating(id, named, population, repaired) => CreateNewAscends(id, named, population, repaired);
    case Changing(id, repaired) => HandlersAscend(id, id, repaired);
    case Exchanging(first, second, repaired) => HandlersAscend(first, second, repaired);
    case Looking(id, repaired) => LoadAscends(id, id in repaired, -1);
    case Saving(ids) => SaveAscends(ids, -1);
  }

  // --- What is done, and inside which locks ----------------------------------

  datatype Placed = Placed(deed: Deed, locks: set<Lock>)

  /** The deeds of a piece of work in order, each with every lock it stands in. */
  function Trace(w: Work, held: set<Lock>): seq<Placed> {
    match w
    case Done => []
    case Step(deed, next) => [Placed(deed, held)] + Trace(next, held)
    case Hold(lock, body, next) => Trace(body, held + {lock}) + Trace(next, held)
  }

  /** How often a piece of work takes a lock. */
  function Takings(w: Work, l: Lock): nat {
    match w
    case Done => 0
    case Step(_, next) => Takings(next, l)
    case Hold(lock, body, next) => (if lock == l then 1 else 0) + Takings(body, l) + Takings(next, l)
  }

  function Chains(ids: seq<nat>): set<Lock> {
    set id | id in ids :: WriteChain(id)
  }

  /** One write of all of them, inside the write chain of every one. */
  function SaveTrace(ids: seq<nat>, held: set<Lock>): seq<Placed> {
    [Placed(Write(Members(ids)), held + Chains(ids))]
  }

  function LoadTrace(id: nat, repairs: bool, held: set<Lock>): seq<Placed> {
    [Placed(Read(id), held + {Reading(id)})] + if repairs then SaveTrace([id], held + {Reading(id)}) else []
  }

  function ScanTrace(ids: seq<nat>, repaired: set<nat>, held: set<Lock>): seq<Placed> {
    if ids == [] then []
    else LoadTrace(ids[0], ids[0] in repaired, held) + ScanTrace(ids[1..], repaired, held)
  }

  lemma {:induction false} ThenTrace(w: Work, next: Work, held: set<Lock>)
    ensures Trace(Then(w, next), held) == Trace(w, held) + Trace(next, held)
  {
    match w
    case Done =>
    case Step(_, rest) => ThenTrace(rest, next, held);
    case Hold(_, _, rest) => ThenTrace(rest, next, held);
  }

  lemma {:induction false} NestedTrace(ids: seq<nat>, write: Work, held: set<Lock>)
    ensures Trace(Nested(ids, write), held) == Trace(write, held + Chains(ids))
  {
    if ids == [] {
      assert held + Chains(ids) == held;
    } else {
      NestedTrace(ids[1..], write, held + {WriteChain(ids[0])});
      assert Chains(ids) == {WriteChain(ids[0])} + Chains(ids[1..]);
      assert held + {WriteChain(ids[0])} + Chains(ids[1..]) == held + Chains(ids);
    }
  }

  /** A save writes once, inside the write chain of every account it was asked for. */
  lemma SaveWrites(ids: seq<nat>, held: set<Lock>)
    ensures Trace(Save(ids), held) == [Placed(Write(set id | id in ids), held + Chains(ids))]
  {
    var sorted := SortedUnique(ids);
    assert Chains(sorted) == Chains(ids);
    NestedTrace(sorted, Step(Write(Members(ids)), Done), held);
  }

  /** Work between two accounts is done inside both of their locks. */
  lemma PairStandsInBoth(first: nat, second: nat, body: Work, next: Work, held: set<Lock>)
    ensures Trace(TwoAccounts(first, second, body, next), held)
         == Trace(body, held + {Account(first), Account(second)}) + Trace(next, held)
  {
    if first == second {
      assert held + {Account(first)} == held + {Account(first), Account(second)};
    } else {
      var lower, upper := if first < second then first else second, if first < second then second else first;
      HoldTrace(Account(upper), body, held + {Account(lower)});
      assert held + {Account(lower)} + {Account(upper)} == held + {Account(first), Account(second)};
    }
  }

  lemma HoldTrace(l: Lock, body: Work, held: set<Lock>)
    ensures Trace(Hold(l, body, Done), held) == Trace(body, held + {l})
  {
    var inside := Trace(body, held + {l});
    assert inside + [] == inside;
  }

  lemma LoadReads(id: nat, repairs: bool, held: set<Lock>)
    ensures Trace(Load(id, repairs), held) == LoadTrace(id, repairs, held)
  {
    SaveWrites([id], held + {Reading(id)});
  }

  lemma {:induction false} ScanReads(ids: seq<nat>, repaired: set<nat>, held: set<Lock>)
    ensures Trace(Scan(ids, repaired), held) == ScanTrace(ids, repaired, held)
  {
    if ids == [] {
    } else {
      LoadReads(ids[0], ids[0] in repaired, held);
      ScanReads(ids[1..], repaired, held);
      ThenTrace(Load(ids[0], ids[0] in repaired), Scan(ids[1..], repaired), held);
    }
  }

  /** A scan reads every account it is given, and saves those it repairs, each inside the read of that account. */
  lemma {:induction false} ScanReadsAll(ids: seq<nat>, repaired: set<nat>, held: set<Lock>, id: nat)
    requires id in ids
    ensures Placed(Read(id), held + {Reading(id)}) in ScanTrace(ids, repaired, held)
    ensures id in repaired ==>
              Placed(Write({id}), held + {Reading(id), WriteChain(id)}) in ScanTrace(ids, repaired, held)
  {
    if id == ids[0] {
      var first := LoadTrace(id, id in repaired, held);
      assert first[0] == Placed(Read(id), held + {Reading(id)});
      if id in repaired {
        assert Chains([id]) == {WriteChain(id)} && Members([id]) == {id};
        assert held + {Reading(id)} + {WriteChain(id)} == held + {Reading(id), WriteChain(id)};
        assert first[1] == Placed(Write({id}), held + {Reading(id), WriteChain(id)});
      }
    } else {
      assert id in ids[1..];
      ScanReadsAll(ids[1..], repaired, held, id);
    }
  }

  lemma LoadThenTrace(id: nat, repairs: bool, next: Work, held: set<Lock>)
    ensures Trace(Then(Load(id, repairs), next), held) == LoadTrace(id, repairs, held) + Trace(next, held)
  {
    LoadReads(id, repairs, held);
    ThenTrace(Load(id, repairs), next, held);
  }

  /** A handler reads, changes and writes its account, all of it inside the account's lock. */
  lemma HandlerWorksInside(id: nat, repairs: bool)
    ensures Trace(Handler(id, repairs), {}) == HandlerTrace(id, repairs)
  {
    var held := {Account(id)};
    assert {} + held == held;
    SaveWrites([id], held);
    assert held + Chains([id]) == {Account(id), WriteChain(id)} && Members([id]) == {id};
    LoadThenTrace(id, repairs, Step(Change({id}), Save([id])), held);
  }

  lemma TwoSteps(first: Deed, second: Deed, rest: Work, held: set<Lock>)
    ensures Trace(Step(first, Step(second, rest)), held)
         == [Placed(first, held), Placed(second, held)] + Trace(rest, held)
  {
  }

  function PairTrace(first: nat, second: nat, repaired: set<nat>): seq<Placed> {
    var both := {Account(first), Account(second)};
    LoadTrace(first, first in repaired, both) + (LoadTrace(second, second in repaired, both)
    + [Placed(Change({first, second}), both),
       Placed(Write({first, second}), both + {WriteChain(first), WriteChain(second)})])
  }

  function RenameTrace(id: nat, population: seq<nat>, repaired: set<nat>): seq<Placed> {
    var held := {Allocation, Account(id)};
    ScanTrace(population, repaired, held) + (LoadTrace(id, id in repaired, held)
    + [Placed(Claim, held), Placed(Change({id}), held), Placed(Write({id}), held + {WriteChain(id)})])
  }

  function CreateTrace(id: nat, named: bool, population: seq<nat>, repaired: set<nat>): seq<Placed> {
    (if named then ScanTrace(population, repaired, {Allocation}) else [])
    + [Placed(Claim, {Allocation}), Placed(Write({id}), {Allocation, WriteChain(id)})]
  }

  /** A handler of two reads both, changes both and writes both at once, inside both locks. */
  lemma PairWorksInside(first: nat, second: nat, repaired: set<nat>)
    ensures Trace(PairHandler(first, second, repaired), {}) == PairTrace(first, second, repaired)
  {
    var both := {Account(first), Account(second)};
    assert {} + both == both;
    var exchange := Step(Change({first, second}), Save([first, second]));
    var rest := Then(Load(second, second in repaired), exchange);
    ExchangeTrace(first, second, both);
    LoadThenTrace(second, second in repaired, exchange, both);
    LoadThenTrace(first, first in repaired, rest, both);
    PairStandsInBoth(first, second, Then(Load(first, first in repaired), rest), Done, {});
    var inside := PairTrace(first, second, repaired);
    assert inside + [] == inside;
  }

  lemma ExchangeTrace(first: nat, second: nat, held: set<Lock>)
    ensures Trace(Step(Change({first, second}), Save([first, second])), held)
         == [Placed(Change({first, second}), held),
             Placed(Write({first, second}), held + {WriteChain(first), WriteChain(second)})]
  {
    SaveWrites([first, second], held);
    assert Chains([first, second]) == {WriteChain(first), WriteChain(second)};
    assert Members([first, second]) == {first, second};
  }

  /** A rename scans, reads, claims the name, changes and writes on the allocation chain and in the lock. */
  lemma RenameWorksInside(id: nat, population: seq<nat>, repaired: set<nat>)
    ensures Trace(Rename(id, population, repaired), {}) == RenameTrace(id, population, repaired)
  {
    var held := {Allocation, Account(id)};
    var renaming := Step(Claim, Step(Change({id}), Save([id])));
    RenamingTrace(id, held);
    ScanReads(population, repaired, held);
    LoadThenTrace(id, id in repaired, renaming, held);
    ThenTrace(Scan(population, repaired), Then(Load(id, id in repaired), renaming), held);
    var body := Then(Scan(population, repaired), Then(Load(id, id in repaired), renaming));
    HoldTrace(Account(id), body, {Allocation});
    HoldTrace(Allocation, Hold(Account(id), body, Done), {});
    assert {} + {Allocation} == {Allocation} && {Allocation} + {Account(id)} == held;
  }

  lemma RenamingTrace(id: nat, held: set<Lock>)
    ensures Trace(Step(Claim, Step(Change({id}), Save([id]))), held)
         == [Placed(Claim, held), Placed(Change({id}), held), Placed(Write({id}), held + {WriteChain(id)})]
  {
    SaveWrites([id], held);
    assert Chains([id]) == {WriteChain(id)} && Members([id]) == {id};
    TwoSteps(Claim, Change({id}), Save([id]), held);
  }

  /** A new account is claimed and written on the allocation chain, after the scan if it is named. */
  lemma CreateNewWorksInside(id: nat, named: bool, population: seq<nat>, repaired: set<nat>)
    ensures Trace(CreateNew(id, named, population, repaired), {}) == CreateTrace(id, named, population, repaired)
  {
    var held := {Allocation};
    assert {} + held == held;
    SaveWrites([id], held);
    assert Chains([id]) == {WriteChain(id)} && Members([id]) == {id};
    ScanReads(population, repaired, held);
    var scan := if named then Scan(population, repaired) else Done;
    ThenTrace(scan, Step(Claim, Save([id])), held);
    HoldTrace(Allocation, Then(scan, Step(Claim, Save([id]))), {});
    assert {Allocation} + {WriteChain(id)} == {Allocation, WriteChain(id)};
  }

  /** The locks without which a deed would meet another of its kind. */
  function Needs(d: Deed): set<Lock> {
    match d
    case Read(id) => {Reading(id)}
    case Change(ids) => set id | id in ids :: Account(id)
    case Write(ids) => set id | id in ids :: WriteChain(id)
    case Claim => {Allocation}
  }

  predicate Guarded(trace: seq<Placed>) {
    forall p :: p in trace ==> Needs(p.deed) <= p.locks
  }

  lemma GuardedConcat(first: seq<Placed>, second: seq<Placed>)
    ensures Guarded(first + second) <==> Guarded(first) && Guarded(second)
  {
    assert forall p :: p in first + second <==> p in first || p in second;
  }

  lemma LoadIsGuarded(id: nat, repairs: bool, held: set<Lock>)
    ensures Guarded(LoadTrace(id, repairs, held))
  {
  }

  lemma {:induction false} ScanIsGuarded(ids: seq<nat>, repaired: set<nat>, held: set<Lock>)
    ensures Guarded(ScanTrace(ids, repaired, held))
  {
    if ids == [] {
    } else {
      var first := LoadTrace(ids[0], ids[0] in repaired, held);
      LoadIsGuarded(ids[0], ids[0] in repaired, held);
      ScanIsGuarded(ids[1..], repaired, held);
      GuardedConcat(first, ScanTrace(ids[1..], repaired, held));
    }
  }

  lemma PairIsGuarded(first: nat, second: nat, repaired: set<nat>)
    ensures Guarded(PairTrace(first, second, repaired))
  {
    var both := {Account(first), Account(second)};
    var exchange := [Placed(Change({first, second}), both),
                     Placed(Write({first, second}), both + {WriteChain(first), WriteChain(second)})];
    LoadIsGuarded(first, first in repaired, both);
    LoadIsGuarded(second, second in repaired, both);
    GuardedConcat(LoadTrace(second, second in repaired, both), exchange);
    GuardedConcat(LoadTrace(first, first in repaired, both), LoadTrace(second, second in repaired, both) + exchange);
  }

  lemma RenameIsGuarded(id: nat, population: seq<nat>, repaired: set<nat>)
    ensures Guarded(RenameTrace(id, population, repaired))
  {
    var held := {Allocation, Account(id)};
    var renaming := [Placed(Claim, held), Placed(Change({id}), held), Placed(Write({id}), held + {WriteChain(id)})];
    ScanIsGuarded(population, repaired, held);
    LoadIsGuarded(id, id in repaired, held);
    GuardedConcat(LoadTrace(id, id in repaired, held), renaming);
    GuardedConcat(ScanTrace(population, repaired, held), LoadTrace(id, id in repaired, held) + renaming);
  }

  lemma CreateIsGuarded(id: nat, named: bool, population: seq<nat>, repaired: set<nat>)
    ensures Guarded(CreateTrace(id, named, population, repaired))
  {
    ScanIsGuarded(population, repaired, {Allocation});
    GuardedConcat(if named then ScanTrace(population, repaired, {Allocation}) else [],
                  [Placed(Claim, {Allocation}), Placed(Write({id}), {Allocation, WriteChain(id)})]);
  }

  lemma HandlerIsGuarded(id: nat, repairs: bool)
    ensures Guarded(HandlerTrace(id, repairs))
  {
    LoadIsGuarded(id, repairs, {Account(id)});
    GuardedConcat(LoadTrace(id, repairs, {Account(id)}),
                  [Placed(Change({id}), {Account(id)}), Placed(Write({id}), {Account(id), WriteChain(id)})]);
  }

  function HandlerTrace(id: nat, repairs: bool): seq<Placed> {
    LoadTrace(id, repairs, {Account(id)})
    + [Placed(Change({id}), {Account(id)}), Placed(Write({id}), {Account(id), WriteChain(id)})]
  }

  /** What each request does, in order, and every lock around each deed. */
  lemma RequestTrace(r: Request)
    ensures Trace(Program(r), {}) ==
              match r
              case Renaming(id, population, repaired) => RenameTrace(id, population, repaired)
              case Creating(id, named, population, repaired) => CreateTrace(id, named, population, repaired)
              case Changing(id, repaired) => HandlerTrace(id, id in repaired)
              case Exchanging(first, second, repaired) => PairTrace(first, second, repaired)
              case Looking(id, repaired) => LoadTrace(id, id in repaired, {})
              case Saving(ids) => SaveTrace(ids, {})
  {
    match r
    case Renaming(id, population, repaired) => RenameWorksInside(id, population, repaired);
    case Creating(id, named, population, repaired) => CreateNewWorksInside(id, named, population, repaired);
    case Changing(id, repaired) => HandlerWorksInside(id, id in repaired);
    case Exchanging(first, second, repaired) => PairWorksInside(first, second, repaired);
    case Looking(id, repaired) => LoadReads(id, id in repaired, {});
    case Saving(ids) => SaveWrites(ids, {});
  }

  /** Whatever a request reads, changes, writes or claims, it does inside the locks that are for it. */
  lemma RequestIsGuarded(r: Request)
    ensures Guarded(Trace(Program(r), {}))
  {
    RequestTrace(r);
    match r
    case Renaming(id, population, repaired) => RenameIsGuarded(id, population, repaired);
    case Creating(id, named, population, repaired) => CreateIsGuarded(id, named, population, repaired);
    case Changing(id, repaired) => HandlerIsGuarded(id, id in repaired);
    case Exchanging(first, second, repaired) => PairIsGuarded(first, second, repaired);
    case Looking(id, repaired) => LoadIsGuarded(id, id in repaired, {});
    case Saving(ids) =>
  }

  lemma {:induction false} ThenTakes(w: Work, next: Work, l: Lock)
    ensures Takings(Then(w, next), l) == Takings(w, l) + Takings(next, l)
  {
    match w
    case Done =>
    case Step(_, rest) => ThenTakes(rest, next, l);
    case Hold(_, _, rest) => ThenTakes(rest, next, l);
  }

  lemma {:induction false} NestedTakes(ids: seq<nat>, write: Work, l: Lock)
    requires l.Account? || l.Allocation?
    ensures Takings(Nested(ids, write), l) == Takings(write, l)
  {
    if ids == [] {
    } else {
      NestedTakes(ids[1..], write, l);
    }
  }

  lemma LoadTakes(id: nat, repairs: bool, l: Lock)
    requires l.Account? || l.Allocation?
    ensures Takings(Load(id, repairs), l) == 0
  {
    NestedTakes(SortedUnique([id]), Step(Write(Members([id])), Done), l);
  }

  lemma {:induction false} ScanTakes(ids: seq<nat>, repaired: set<nat>, l: Lock)
    requires l.Account? || l.Allocation?
    ensures Takings(Scan(ids, repaired), l) == 0
  {
    if ids == [] {
    } else {
      LoadTakes(ids[0], ids[0] in repaired, l);
      ScanTakes(ids[1..], repaired, l);
      ThenTakes(Load(ids[0], ids[0] in repaired), Scan(ids[1..], repaired), l);
    }
  }

  lemma LoadThenTakes(id: nat, repairs: bool, next: Work, l: Lock)
    requires l.Account? || l.Allocation?
    ensures Takings(Then(Load(id, repairs), next), l) == Takings(next, l)
  {
    LoadTakes(id, repairs, l);
    ThenTakes(Load(id, repairs), next, l);
  }

  lemma SaveTakes(ids: seq<nat>, l: Lock)
    requires l.Account? || l.Allocation?
    ensures Takings(Save(ids), l) == 0
  {
    NestedTakes(SortedUnique(ids), Step(Write(Members(ids)), Done), l);
  }

  /** The accounts a request locks. */
  function Locked(r: Request): set<nat> {
    match r
    case Renaming(id, _, _) => {id}
    case Changing(id, _) => {id}
    case Exchanging(first, second, _) => {first, second}
    case _ => {}
  }

  /**
   * A request takes the lock of each account it works on once, and of no other, and
   * the allocation chain at most once: what it reads inside one is not let go before
   * it is written.
   */
  lemma TakenOnce(r: Request, l: Lock)
    requires l.Account? || l.Allocation?
    ensures Takings(Program(r), l) ==
              match l
              case Allocation => if r.Renaming? || r.Creating? then 1 else 0
              case Account(id) => if id in Locked(r) then 1 else 0
  {
    match r
    case Renaming(id, population, repaired) =>
      var renaming := Step(Claim, Step(Change({id}), Save([id])));
      ScanTakes(population, repaired, l);
      SaveTakes([id], l);
      LoadThenTakes(id, id in repaired, renaming, l);
      ThenTakes(Scan(population, repaired), Then(Load(id, id in repaired), renaming), l);
    case Creating(id, named, population, repaired) =>
      ScanTakes(population, repaired, l);
      SaveTakes([id], l);
      ThenTakes(if named then Scan(population, repaired) else Done, Step(Claim, Save([id])), l);
    case Changing(id, repaired) =>
      SaveTakes([id], l);
      LoadThenTakes(id, id in repaired, Step(Change({id}), Save([id])), l);
    case Exchanging(first, second, repaired) =>
      var exchange := Step(Change({first, second}), Save([first, second]));
      SaveTakes([first, second], l);
      LoadThenTakes(second, second in repaired, exchange, l);
      LoadThenTakes(first, first in repaired, Then(Load(second, second in repaired), exchange), l);
    case Looking(id, repaired) => LoadTakes(id, id in repaired, l);
    case Saving(ids) => SaveTakes(ids, l);
  }
}
