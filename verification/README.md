# A verified model of the account store

The repository is a game server. What it has to get right is what moves value
and state between accounts: a market and trades, locks and saves underneath
them, a handful of small protocols, and the arithmetic the protocols rest on.
This project models that part in Dafny and proves what its comments promise.

Code that changes objects in place is a class whose methods change fields, each
proved against a function of the old state. Code that awaits in between is a
state machine whose events may come in any order; its theorems are about every
run. `dafny verify dfyconfig.toml` checks everything.

| file | what it models |
|---|---|
| `market.dfy`, `trade.dfy`, `escrow.dfy`, `escrowruns.dfy` | listing, buying, cancelling, claiming and trading on live accounts; then every interleaving of those calls, a purchase being a scan and a later settlement, and the rows each call is given |
| `chains.dfy`, `lockorder.dfy`, `deadlock.dfy` | one promise chain per key refines a queue; the layers of locks and reads built on them cannot deadlock, and every request does its reads, changes and writes inside the locks that are for them |
| `livestore.dfy` | the registry of live objects, and the reads and saves of one account |
| `social.dfy`, `friendcode.dfy` | friends, blocks and requests; the code an account goes by |
| `processlock.dfy` | the storage lock and how its owner is judged |
| `declarations.dfy` | write-behind saving of declarations |
| `leaderboard.dfy` | bests folded run by run against the run history |
| `consumables.dfy` | powerups in slots and bag |
| `auth.dfy`, `decimals.dfy` | signed tokens and revocation generations |
| `gifts.dfy`, `giftruns.dfy` | request ids, piles, and the cooldown; accepting as taking, waiting and settling |
| `sanctions.dfy` | strikes, the ladder, restrictions |
| `training.dfy` | the experience ladder and the training budget |
| `migration.dfy` | moving avatar ids out of the client's range |
| `masks.dfy` | map progress as packed bits, and trophies |
| `sums.dfy`, `options.dfy` | totals over sequences; outcomes |

## Where the code is not what it says

- Reading an account under its lock is said to see every write before it
  (src/accounts.js:640-647). It does not when the read is one that somebody without
  the lock has under way (src/accounts.js:711-720; friend lists, market scans and
  name scans read that way): the call gets what that read saw, and its save takes a
  completed save back. `LiveStore.CompletedSaveIsLost` is the run,
  `LiveStore.JoinIsSafeIff` the exact condition. From first hold to last release no
  read is joined, and `LiveStore.HeldNeverGoesBack` needs no such condition once the
  object is no older than storage, as the first landed save makes it
  (`LiveStore.LandingCatchesUp`).
- Of two buyers the one that gets into the locks first is said to be the only one to
  find the listing unsold (src/market.js:352-357). The same read makes it sell twice:
  `EscrowRuns.SoldTwice` is the run, in any world with two such buyers, and
  `EscrowRuns.RunMovesByDrift` what old rows do to weapons and gold in every run.
  `EscrowRuns.WeaponsConserved`, `OnePlace`, `GoldConserved` and `SoldAtMostOnce` are
  for runs given nothing old.
- The storage lock's comment (src/process-lock.js:122-125) says two replacements
  cannot both delete the new owner's lock. They can: the rename takes whatever
  file is there. `ProcessLock.TwoJudgesTwoBelievers` is the run,
  `ProcessLock.OnlyAMoveBreaksIt` says exactly which step does it, and
  `ProcessLock.AtMostOneBeliever` and `ProcessLock.OneBelieverIfMoversLook` under
  which conditions it does not happen.
- The carry rule is said to be safe to make twice (src/consumables.js:13-16).
  `Consumables.TwiceIsOnceIff` is exactly when it is, and
  `Consumables.OneStackTwiceIsNotIdempotent` an account where it is not.
- Moving a stack to the second slot may end with it in the first
  (`Consumables.MoveLandsIff`). An equip during a dungeon can meet that case, after
  the first slot's last one was drunk (`Consumables.MoveLandsElsewhere`).
- A move that waits for the id of a new bag row goes on with counts it read before:
  `Consumables.DrinkStaysDrunkIff` is exactly when a drink meanwhile is kept.
- A pile's ceiling is said to hold for gifts the server makes (src/gifts.js:206-213). A
  refused gift goes back without asking: `GiftRuns.LimitHoldsIff` and
  `GiftRuns.FullPileOverflows`. A gift given meanwhile under the same id would lose it
  (`GiftRuns.LostIff`); ids carry their millisecond, so that takes two in one.
- A trophy is paid off the account's own mask and counted off every hero's. The
  two part when a hero's mask has a boss the account's lacks
  (`Masks.ColumnStaysRightIff`), as after a magic word
  (`Masks.PaidForAnUnlockedBoss`); the count at the next load puts it right.

Two more conditions concern rows that nothing here writes and only an import can
bring. Unequipping adds stored counts as they are, and loses or makes items exactly
when slot and bag row are of opposite sign (`Consumables.UnequipConservesIff`,
`Consumables.UnequipLosesTwo`); `Consumables.RunLosesNothing` shows no negative count
comes of counts that are not. And a dangling reference that already holds the number
an avatar is moved to comes to name that avatar (`Migration.ReferenceFollowsIff`,
`Migration.DanglingItemIsCaptured`).

The runs of `Social`, `GiftRuns`, `Consumables`, `Training` and `Masks` take each call
as a step on what is stored. `LiveStore.ChangesApplyInOrder` is what allows that,
account by account, and its conditions are theirs: no call joins an old read, no save
fails, and nobody drops what it has not asked to save.

## Model

| member | source | states |
|---|---|---|
| `Market.ListingNamed` | src/market.js:117-122 | an id names the open row if the account has one under it, else the first row, and nothing exactly when no row carries the id |
| `Market.AsListing` | src/market.js:177-191 | the listing carries the same weapon (id, kind, power, level, rarity, modifiers, created) and is open |
| `Market.AsItem` | src/market.js:194-208 | the item carries the same weapon as the listing and is in nobody's hand |
| `Market.ShareIsWithinPrice` | src/market-rules.js:85-88 | for any rate from 0 to 0.9, and whatever correctly rounded number the product comes out as, the tax is between nothing and the price, so neither tax nor proceeds is negative (`TaxIsNearest` is the tax itself) |
| `Market.TaxIsNearest` | src/market-rules.js:85-88 | the tax is the whole number nearest to the rounded product of price and rate, the upper one when two are as near |
| `Market.LiveAccount.ListForSale` | src/market.js:246-297 | the account in place becomes what `ListOutcome` says, or keeps every field and answers the first refusal that applies |
| `Market.LiveAccount.Buy` | src/market.js:326-420 | the part inside the two locks: seller and buyer in place become what `BuyOutcome` says together with its tax (`BuysTheWeapon` and `BuyTaxesThePrice` say what that is), or both stay as they were |
| `Market.LiveAccount.Cancel` | src/market.js:428-452 | only the open row comes down, into the bag, when there is room; every refusal changes nothing |
| `Market.LiveAccount.Claim` | src/market.js:461-496 | everything owed by sold rows is paid at once and exactly the open rows stay |
| `Market.ListHappensIff` | src/market.js:246-297 | a listing goes up exactly when nobody plays, the seller is neither barred nor restricted, the weapon is theirs and loose, the price fair and a slot free; it goes behind the others at that price |
| `Market.OpenRowIsNamed` | src/market.js:109-122 | with one open row under an id, that row is the one named, wherever sold rows of the id stand |
| `Market.BuyHappensIff` | src/market.js:326-383 | a purchase goes through exactly when the row is open and up, gold and room are there and neither side is kept out; it costs the price, brings that weapon, marks that row sold to the buyer, and proceeds plus tax are the price |
| `Market.CancelHappensIff` | src/market.js:428-452 | an open row comes down exactly when the seller is not playing and has room; its weapon is back and no open row of the id is left |
| `Market.BuyTaxesThePrice` | src/market.js:362-383 | the tax of a purchase that goes through is within a half of the rounded product of that listing's price and the rate |
| `Market.BuysTheWeapon` | src/market.js:362-383 | both rows after a purchase, column by column: the listing is sold to the buyer with tax and with price less tax as proceeds, the buyer has paid the price and has the weapon, new and loose, behind its bag; nothing else of either moves |
| `Market.ListsTheWeapon` | src/market.js:246-297 | the first item of that id leaves the bag and is the last listing, column by column, at that price and that moment; nothing else moves |
| `Market.TakesTheWeaponBack` | src/market.js:428-452 | a listing taken down is gone and its weapon last in the bag, column by column; without an open row of the id nothing comes down |
| `Market.ClaimPays` | src/market.js:461-496 | a claim goes through exactly when the seller is not playing: it pays the proceeds of every sold row, or its price where no proceeds were kept, and leaves exactly the open rows in order |
| `Market.RoomSlotsAndDelay` | src/market-rules.js:76-77 | storage counts weapons in nobody's hand and chests, a stall has its slots per hero and for one hero at least, a row is up once the delay has passed |
| `Trade.Handed` | src/trade.js:110-124 | a handed item is the same weapon, loose in its new bag |
| `Trade.Gather` | src/trade.js:47-84 | refuses with the reason of the first failing check and otherwise answers the rows the distinct ids name, all loose; changes nothing |
| `Trade.GatheredIsLoose` | src/trade.js:61-81 | an offer that is not refused names distinct loose weapons of the bag |
| `Trade.GatheredIff` | src/trade.js:47-84 | an offer is accepted exactly when its gold is there and its ids name distinct loose weapons |
| `Trade.HandDelivers` | src/trade.js:110-124 | the receiver gets exactly the gathered rows, in order, behind what it had |
| `Trade.TradeHappensIff` | src/trade.js:140-172 | a trade goes through exactly when nobody plays, both offers hold and both receivers have room after the whole exchange |
| `Trade.TradeSettles` | src/trade.js:106-196 | after a trade each purse is what it was less its offer and plus the other's, each bag what was left of it followed by the other's weapons in the order offered, and nothing else of either account has moved |
| `Trade.LeftIsTheRest` | src/trade.js:110-111 | what is left of a bag and the weapons named are together the bag, and the rows of all other ids are there in their order |
| `Trade.DeliveredAt` | src/trade.js:110-124 | each weapon arrives with every column it had, with its new owner, in nobody's hand and marked new |
| `Trade.IndexAfterRemoval` | src/trade.js:110-111 | taking one row out of a bag leaves every other id naming the same row |
| `Trade.HandKeepsReceiverLoose` | src/trade.js:168-169 | what the second party offered is still loose in its bag after the first party's weapons arrived, so the second hand-over cannot fail |
| `Trade.Hand` | src/trade.js:106-126 | gold and both bags in place are exactly the row-by-row hand-over of the gathered rows |
| `Trade.SettleTrade` | src/trade.js:140-196 | both accounts in place become the settled rows (`TradeSettles` says which), or both are unchanged and the refusal is the first one found |
| `Escrow.CallKeepsTotals` | src/market.js:246-496 | no call changes, on the rows it is given, the total weight of bags and open listings, under any weighing of weapons, or the total of purses, proceeds owed and tax |
| `EscrowRuns.StepMovesByDrift` | src/market.js:332-360 | a step changes the weight of all weapons, and the gold, by exactly what the rows it was given are more than the rows stored |
| `EscrowRuns.RunMovesByDrift` | src/market.js:332-360 | over every run of listings, scans, settlements, cancels, claims and trades weapons and gold end as they began plus what old rows added or took: conserved exactly when that comes to nothing |
| `EscrowRuns.OldRowsAppear` | src/accounts.js:697-720 | where nothing read is old, a step makes old only what was read of an account it saves, opened during that save or kept from before the account was played |
| `Escrow.ScanFindsIff` | src/market.js:308-331 | a buyer's scan goes on exactly when the buyer is not playing and the id names an open row of somebody else; it remembers that and changes nothing |
| `Escrow.OwnCallsHappenIff` | src/market.js:246-496 | among the accounts a listing, cancel or claim goes through exactly when its conditions hold of that account, and moves that account alone |
| `Escrow.PairCallsHappenIff` | src/market.js:332-383 | a settlement goes through exactly when it was scanned and the purchase does on those two rows, a trade exactly when the trade does, and either moves those two alone and the tax |
| `EscrowRuns.WeaponsConserved` | src/market.js:241-244 | over every run given nothing old the weight of all weapons is constant, for every weighing: none lost, doubled or turned into another |
| `EscrowRuns.OnePlace` | src/market.js:109-122 | given nothing old, an id that lies in one bag or open listing at the start lies in exactly one at every later time, and it is still exactly that weapon, however many sold rows carry the id |
| `EscrowRuns.GoldConserved` | src/market.js:362-383 | given nothing old, purses, unclaimed proceeds and tax taken always add up to the same gold |
| `EscrowRuns.NobodyInDebt` | src/market.js:362-368 | no purse goes below nothing in any run, whatever the calls are given |
| `Escrow.ReceiversHaveRoom` | src/market.js:232-237 | after a purchase, cancel or trade every receiver is within its storage; after a listing the open rows are within the slots (on the rows the call is given, which are the ones it saves) |
| `Escrow.HandKeeps` | src/trade.js:106-126 | a hand-over moves exactly the weight of the weapons named, and one slot each |
| `Escrow.InBagMeansNotListed` | src/market.js:170-176 | an id in one place, and that place a bag, is on no open listing of anybody |
| `EscrowRuns.SoldAtMostOnce` | src/market.js:352-357 | after a sale, with nothing old given meanwhile, every further settlement of that id that is not itself given an old row, from whatever earlier scan, is refused and changes nothing until somebody lists the weapon again |
| `EscrowRuns.SoldAgainFromOldRow` | src/market.js:336-357 | what is open nowhere can be settled only by a call given an old row of its seller |
| `EscrowRuns.SoldTwice` | src/market.js:308-357 | in any world where two scanned buyers can each buy: the first settles while a scan opens the seller's file, the second joins that read, and the weapon lies in one place more while the first sale's proceeds are owed by nobody |
| `EscrowRuns.SoldTwiceAtTheStall` | src/market.js:308-357 | there is such a world: a seller with one listing and two buyers, the weapon in one place and then in two |
| `PromiseChains.Reachable` | src/accounts.js:489-506 | in every reachable state calls wait for the call before them, order is arrival order, and the map names the last call of its key |
| `PromiseChains.NeverOverlaps` | src/accounts.js:481-506 | two different calls of one key are never both at work, whatever ended or threw before them |
| `PromiseChains.EntryWhileWanted` | src/accounts.js:503-505 | a key with an entry has a call not yet cleaned up, a key all of whose calls are cleaned up has none, and without an entry nothing is left to wait for |
| `PromiseChains.NeverWedged` | src/accounts.js:494-500 | whoever waits has a call of its own key before it that is at work or can move |
| `PromiseChains.RefinesQueues` | src/accounts.js:489-506 | step by step the promise machinery is one first-in first-out queue per key: only the head begins or ends, arriving joins the end, nothing else moves a queue |
| `PromiseChains.EveryStepServes` | src/accounts.js:489-506 | every step but an arrival takes one of the four steps a call has to make, and an arrival brings four |
| `PromiseChains.AllServed` | src/accounts.js:489-506 | when only new arrivals could happen, every call has done its work and been cleaned up after, and no key has an entry |
| `LockOrder.SortedUnique` | src/accounts.js:763-766 | the ids of a save come out strictly ascending and are exactly the ids given |
| `LockOrder.SaveAscends` | src/accounts.js:763-766 | a save takes its write chains in ascending order, above any account lock it stands in |
| `LockOrder.TwoAccountsAscends` | src/accounts.js:595-599 | however a pair is named, and whatever saves are inside, locks are taken in ascending rank (`PairStandsInBoth`: both of them) |
| `LockOrder.LoadAscends` | src/accounts.js:711-722 | a read of an account, with the save it makes when it creates or repairs one, fits inside any account locks and outside the write chains |
| `LockOrder.ScanAscends` | src/account-names.js:93-115 | so does the name scan, whichever accounts it reads and repairs on the way |
| `LockOrder.RenameAscends` | src/accounts.js:1021-1043 | a rename takes the allocation chain, its account, then whatever reads and saves its scan makes, then its own save: ascending |
| `LockOrder.CreateNewAscends` | src/accounts.js:962-1010 | a registration takes the allocation chain, the reads and saves of a name scan if a name is asked for, then its save: ascending, with no account lock |
| `LockOrder.HandlersAscend` | src/accounts.js:595-599 | so do the handlers of one account and of two: locks, reads, one save |
| `LockOrder.RequestAscends` | src/accounts.js:588-599 | every kind of request takes its locks in ascending rank |
| `LockOrder.PairStandsInBoth` | src/accounts.js:595-599 | whatever is done between two accounts is done inside both their locks, however the pair is named and whatever is held around it |
| `LockOrder.SaveWrites` | src/accounts.js:763-766 | a save is one write of exactly the accounts given, inside the write chain of every one of them |
| `LockOrder.HandlerWorksInside` | src/accounts.js:588-593 | a handler reads, changes and writes its account in that order, all of it inside the account's lock |
| `LockOrder.PairWorksInside` | src/accounts.js:595-599 | a handler of two reads both, changes both and writes both at once, all of it inside both locks |
| `LockOrder.RenameWorksInside` | src/accounts.js:1021-1037 | a rename scans, reads, claims the name, changes and writes, all on the allocation chain and inside the account's lock |
| `LockOrder.CreateNewWorksInside` | src/accounts.js:962-1010 | a registration scans if a name is asked for, claims and writes, all of it on the allocation chain |
| `LockOrder.ScanReadsAll` | src/account-names.js:93-115 | a scan reads every account it is given, and saves those it repairs inside their read |
| `LockOrder.RequestTrace` | src/accounts.js:588-599 | what each kind of request does, in order, with every lock around each deed |
| `LockOrder.RequestIsGuarded` | src/accounts.js:588-599 | no request reads, changes, writes or claims anything outside the lock that is for it |
| `LockOrder.TakenOnce` | src/accounts.js:588-599 | a request takes the lock of each account it changes exactly once, no other account's, and the allocation chain once or not at all |
| `Deadlock.NextKeepsValid` | src/accounts.js:489-506 | every step keeps each queue the holder followed by its waiters, each once and nobody else, whether or not the step throws |
| `Deadlock.SomebodyMoves` | src/accounts.js:588-599 | while any task is unfinished some task can take a step: no reachable state is a deadlock |
| `Deadlock.RunIsBounded` | src/accounts.js:489-506 | every step spends at least one unit of a finite measure |
| `Deadlock.EverythingFinishes` | src/accounts.js:588-599 | any run of programs that lock in rank order is bounded; it can go on or everybody has finished, and then no lock has an entry left |
| `Deadlock.OneHolder` | src/accounts.js:489-506 | no two tasks ever hold one lock |
| `Deadlock.ServerFinishes` | src/accounts.js:588-599 | any interleaving of renames, registrations, one- and two-account changes, reads and saves is bounded, whatever throws; when it cannot go on all of them have finished and no lock has an entry left |
| `Deadlock.RequestGetsDone` | src/accounts.js:588-599 | in any interleaving a finished request has made exactly the deeds of its program, in order and each inside its locks, if nothing threw; whatever throws, it has made no others |
| `Deadlock.DeedsStandInLocks` | src/accounts.js:588-599 | at every time, a request about to read, change, write or claim holds every lock that is for it |
| `Deadlock.NoTwoAtOne` | src/accounts.js:461-486 | at no time do two requests read, change or write one account, nor claim, together |
| `Deadlock.HeldThroughout` | src/accounts.js:461-486 | a request that holds an account's lock at two times held it all the time between, and nobody else did: from its read to its save nobody else changes the account under the lock |
| `LiveStore.AccountRegistry.HoldAccount` | src/account-registry.js:43-54 | the first holder's object is what every later holder gets; one more holder; no other entry moves |
| `LiveStore.AccountRegistry.ReleaseAccount` | src/account-registry.js:57-66 | one holder fewer, the entry gone exactly when that was the last, no other entry moves |
| `LiveStore.OneObject` | src/accounts.js:602-609 | over any interleaving, whatever reads are joined and saves fail: everybody playing an account and the call in its lock have one object, every pending save is of that object, and a save that lands leaves what was there when it was asked for |
| `LiveStore.NextKeepsValid` | src/accounts.js:785-828 | every step that joins no old read keeps the object in memory and what is being written no older than storage |
| `LiveStore.JoinIsSafeIff` | src/accounts.js:697-720 | from a state in order a step is safe, with every continuation that joins no old read, exactly when it does not give the call in the lock a read opened before the last new version landed |
| `LiveStore.JoinedReadIsStorageIff` | src/accounts.js:711-720 | a call given a read already opened holds what is stored exactly when the read was not an old one |
| `LiveStore.CompletedSaveIsLost` | src/accounts.js:640-653 | a run in which two saves under the lock both complete and the first one's change is gone, because the second call was handed the read of a reader without the lock |
| `LiveStore.StoredNeverGoesBack` | src/accounts.js:1076-1112 | while no call joins an old read storage never loses a change it has, over any interleaving |
| `LiveStore.NoLostUpdate` | src/accounts.js:785-828 | while no call joins an old read, a save that completes leaves storage holding at least what was there when it was asked for, from then on |
| `LiveStore.HeldNeverGoesBack` | src/account-registry.js:21-29 | from a live object no older than storage to the last release nothing stored is lost and no condition on reads is needed: none is joined |
| `LiveStore.LandingCatchesUp` | src/accounts.js:1076-1088 | whatever was joined before, the first save to land makes the object in memory no older than storage |
| `LiveStore.QuietMeansStored` | src/accounts.js:1076-1088 | while no call joins an old read: with no write pending and nothing changed or failed since the last request, storage equals the live object |
| `LiveStore.QueuedSaveLands` | src/accounts.js:580-584 | once a queued save and those before it have landed, what it was asked to keep is stored, whatever happens meanwhile |
| `LiveStore.ChangesApplyInOrder` | src/accounts.js:461-486 | while no call joins an old read, no save fails and nobody drops what it has not asked to save: whatever functions of the account the changes are, memory is the stored account with them applied in the order they were made, and so is storage once nothing is pending |
| `LiveStore.SavedChangeLands` | src/accounts.js:860-862 | a change made under the lock and saved by that call, with anything in between before and after, is in storage once the writes queued by then have landed; the call does not leave its lock before |
| `LiveStore.UnheldMeansSettled` | src/account-registry.js:57-66 | once nobody holds the account and no call has it loaded, no write is pending |
| `LiveStore.WhereContentComesFrom` | src/accounts.js:1076-1112 | storage takes what is being written when it lands and nothing else; what is written is the object when the write begins; an object grows by the changes of the call or session that has it; a read makes one of what the file said when opened |
| `LiveStore.WhoHasTheAccount` | src/accounts.js:588-653 | what each step does to lock, read, sessions and queued saves: a load is given the live object or waits for a read, holds and releases count sessions, a lock that is left can be taken |
| `Social.Account.Befriend` | src/social.js:177-195 | both lists in place become the befriended pair, a block makes it nothing, and it answers whether anything changed |
| `Social.Account.AskFriend` | src/rpc-handlers.js:1004-1055 | both accounts in place become what `Requested` says: no request between friends, across a block or twice, and asking back makes the friendship |
| `Social.Account.Answer` | src/rpc-handlers.js:1149-1172 | a request held is used up and an accepted one befriends unless blocked; a request not held changes nothing (`NothingToAnswer`) |
| `Social.Account.DropFriend` | src/social.js:229-234 | exactly that id leaves the friend list |
| `Social.Account.DropRequestsFrom` | src/social.js:236-242 | exactly that sender's requests leave |
| `Social.Account.Unfriend` | src/social.js:251-261 | a listed friend is dropped on both sides; an unlisted one changes nothing |
| `Social.Account.Ignore` | src/social.js:272-289 | blocks, drops the friendship on both sides and every request between the two, and answers whether the block is new |
| `Social.Account.Unignore` | src/social.js:291-297 | exactly that block is lifted |
| `Social.RequestedIsGood` | src/rpc-handlers.js:995-1056 | asking keeps the two accounts' relation one of the four allowed, and what either has to do with anybody else |
| `Social.AnsweredIsGood` | src/rpc-handlers.js:1149-1172 | so does answering, with any request id |
| `Social.UnfriendedIsGood` | src/social.js:251-261 | so does removing a friend |
| `Social.BlockedIsGood` | src/social.js:272-289 | so does blocking |
| `Social.NextIsGood` | src/rpc-handlers.js:995-1172 | every call keeps the whole graph good, including pairs it does not touch |
| `Social.RunIsGood` | src/rpc-handlers.js:995-1172 | so does every run |
| `Social.NeverAcrossABlock` | src/social.js:177-297 | from an empty graph, after any run, any two accounts are nothing, friends on both lists, one request one way, or blocked, with no repeats and nobody to itself |
| `Social.AskingWaits` | src/rpc-handlers.js:1043-1049 | between two accounts that are nothing to each other asking leaves that request and only that |
| `Social.AskingBackBefriends` | src/rpc-handlers.js:1035-1041 | asking back whoever asked first makes the friendship on both lists and uses their request up |
| `Social.AnsweringDecides` | src/rpc-handlers.js:1152-1171 | after an answer the two are friends on both lists exactly when it was yes, and the request is used up |
| `Social.NothingToAnswer` | src/rpc-handlers.js:1154-1160 | answering a request that is not held, asking a friend, across a block or twice, and removing who is no friend leave the pair as it was |
| `Social.WhatACallDoes` | src/rpc-handlers.js:995-1172 | a friendship begins exactly when one says yes to a request of the other that it holds, or asks back while one waits, and ends exactly when one removes or blocks the other; a block is its owner's; a request begins when its sender asks whom it has nothing with and goes when it is answered, asked back or blocked |
| `Social.OthersAreLeftAlone` | src/rpc-handlers.js:995-1172 | a call touches the two accounts it names and nobody else, and of those two only what they are to each other |
| `Social.NoFriendshipWithoutConsent` | src/rpc-handlers.js:1149-1172 | after any run from an empty graph each of two friends has asked the other or said yes to it |
| `Social.BlockingSevers` | src/social.js:264-289 | after a block it is on the blocker's list alone and no friendship or request is left between the two |
| `Social.UnblockingLifts` | src/social.js:291-297 | unblocking lifts exactly that block of the caller and touches nothing else |
| `Social.RemovingEnds` | src/social.js:244-261 | after a removal neither is on the other's list |
| `FriendCode.WriteFriendCode` | src/social.js:57-66 | the loop writes the base-32 code padded to six, or nothing for an id that is not positive |
| `FriendCode.ReadFriendCode` | src/social.js:84-95 | the loop reads what `AccountIdFromCode` says, refusing as early as it does |
| `FriendCode.ReadsIff` | src/social.js:84-95 | a code reads as an id exactly when every character is in the alphabet and the number it spells is positive and safe, and then as that number |
| `FriendCode.CodeRoundTrip` | src/social.js:57-95 | every positive safe id comes back from its own code |
| `FriendCode.CodesDiffer` | src/social.js:57-66 | no two ids share a code |
| `FriendCode.UnsafeReadsAsNothing` | src/social.js:71-79 | the code of an id past the safe range reads as nothing, not as somebody else |
| `FriendCode.LeadingPadsReadTheSame` | src/social.js:80-83 | any number of extra leading pad letters changes nothing, readable or not |
| `FriendCode.SameAccountIff` | src/social.js:68-83 | two readable codes name one account exactly when they differ in leading pads alone |
| `ProcessLock.NextIsSafe` | src/process-lock.js:183-275 | with right verdicts and one judge at a time every step keeps each believer the one the file names and each mover on the file it judged |
| `ProcessLock.AtMostOneBeliever` | src/process-lock.js:122-131 | under both conditions, over any number of contenders and any run, at most one running process believes it holds the lock, and the file names it |
| `ProcessLock.OnlyAMoveBreaksIt` | src/process-lock.js:268-274 | a step costs a believer the file exactly when it moves aside a file naming a running holder |
| `ProcessLock.ExclusiveIffNobodyRobbed` | src/process-lock.js:268-274 | over a whole run every believer is the one the file names throughout exactly when no move takes a running holder's file |
| `ProcessLock.OneBelieverIfMoversLook` | src/process-lock.js:248-274 | had each mover found the file still naming the owner it judged, in one step with its rename, one believer would hold over any run of right verdicts, however many judge one owner |
| `ProcessLock.TwoJudgesTwoBelievers` | src/process-lock.js:122-125 | the second condition is needed: a run of right verdicts in which two contenders judged one dead owner ends with two believers, against the comment that two replacements cannot undo each other |
| `ProcessLock.LossReportedOnce` | src/process-lock.js:204-218 | a contender has reported a loss exactly once if it stopped by losing the lock, never otherwise |
| `ProcessLock.StopsAtNextHeartbeat` | src/process-lock.js:206-218 | a believer the file no longer names stops at its next heartbeat whatever happens before, for good, with one report |
| `ProcessLock.NeverRegained` | src/process-lock.js:146-147 | a file that stopped naming a believer never names it again |
| `ProcessLock.RecordedWriterJudgedWhereItRan` | src/process-lock.js:87-104 | a writer that recorded where it ran is found gone exactly when seen from that boot and namespace with no process there that may be it, and is unseen exactly from anywhere else |
| `ProcessLock.UnrecordedWriterJudged` | src/process-lock.js:87-104 | a writer that recorded neither boot nor namespace: with a heartbeat it is judged by processes only where neither is seen and is unseen elsewhere, without one it is gone exactly when nothing runs under its id and unseen under the judge's own |
| `ProcessLock.ReleaseFreesTheLock` | src/process-lock.js:222-233 | once the holder named has released, whoever is trying can create the file and is the one that believes; a release by another leaves the file |
| `ProcessLock.FileComesAndGoes` | src/process-lock.js:183-275 | the file comes only by a creation where there was none, and goes only by a move aside or its own holder's release |
| `ProcessLock.StepIsItsOwn` | src/process-lock.js:204-275 | a step moves one contender; a judge has the owner the file named, a refused one has given up, a crash changes only who runs |
| `Declarations.DeclarationStore.Declare` | src/content-packs.js:662-670 | a changed view is one revision more and one timer; the same view changes nothing |
| `Declarations.DeclarationStore.Forget` | src/content-packs.js:674-678 | forgetting a kept declaration is a change, forgetting another is none |
| `Declarations.DeclarationStore.SaveDeclarations` | src/content-packs.js:603-616 | one revision more, however many changes share the timer |
| `Declarations.DeclarationStore.EnqueueSave` | src/content-packs.js:555-584 | a snapshot of now joins the queue unless one of now has been attempted |
| `Declarations.DeclarationStore.BeginFlush` | src/content-packs.js:619-626 | the timer is dropped, a snapshot queued, and the revision waited for is the one at the call |
| `Declarations.DeclarationStore.Settle` | src/content-packs.js:566-582 | a landed write moves the place and the persisted revision, a failed one rewinds the attempt only when no newer snapshot is queued |
| `Declarations.NextKeepsValid` | src/content-packs.js:555-627 | every step keeps persisted, attempted and current revision in order, the queue ascending, and each snapshot what memory was at its revision |
| `Declarations.PlaceNeverGoesBack` | src/content-packs.js:547-584 | under any pattern of failures the place holds memory as it was at the greatest revision written, never an older one than before |
| `Declarations.FlushAnsweringTrue` | src/content-packs.js:618-627 | a flush that answers true means every change visible at the call is in the place |
| `Declarations.FlushWithoutFailures` | src/content-packs.js:618-627 | a flush that waited for the queue it saw, with no write failing, answers true |
| `Declarations.LaterFlushTriesAgain` | src/content-packs.js:574-579 | whatever failed, while something is not in the place a flush has a write of the current memory last in the queue |
| `Declarations.DeclaredIsHeld` | src/content-packs.js:662-678 | after a declaration memory holds that view for that account, after forgetting it none, and every other account keeps its own; nothing is queued or written by either |
| `Declarations.WhatWritesDo` | src/content-packs.js:555-584 | timer and flush queue one write of memory as it is when there is anything new; a landed write is what the place holds, a failed one leaves the place; only declaring and forgetting change memory |
| `Declarations.TimerLeavesNothing` | src/content-packs.js:603-616 | without failures no change is forgotten: once the timer has fired, the last write queued or landed is of memory as it is |
| `Leaderboard.Boards.FoldOne` | src/leaderboard.js:255-284 | the bests in place become the fold of the run over every board in order |
| `Leaderboard.Boards.FoldBoard` | src/leaderboard.js:257-281 | one board in place: clears count up, any other standing moves only when beaten |
| `Leaderboard.Boards.RecordRuns` | src/leaderboard.js:446-465 | a batch is its rankable runs folded in order, and it answers how many |
| `Leaderboard.Boards.Offer` | src/leaderboard.js:359-370 | a seeded standing is taken over nothing or over something smaller, and only there |
| `Leaderboard.FoldRunAt` | src/leaderboard.js:255-284 | after a fold each account's standing under each key is moved by its own board's rule if the run counts there, and is otherwise what it was |
| `Leaderboard.TouchesItsEntriesOnly` | src/leaderboard.js:233-240 | a fold changes standings only under the keys `boardEntriesFor` lists, only of its own account, and leaves a standing under each of them |
| `Leaderboard.FoldIsAggregate` | src/leaderboard.js:246-284 | a standing is the aggregate of the history (the next four rows say it in the fields of the runs): least duration of successes per node, hero and party, greatest experience and trophies, number of successes, kept with the first run to reach it |
| `Leaderboard.SpeedrunIsLeastTime` | src/leaderboard.js:53-63 | a speedrun standing is the least time of the account's successes at that node with that hero and party size, shown with the first run that took it, and there is none exactly without such a run |
| `Leaderboard.ExperienceIsGreatest` | src/leaderboard.js:205-284 | the hero board has the greatest hero experience of any run of the account, won or lost, shown with the first that had it |
| `Leaderboard.TrophiesAreGreatest` | src/leaderboard.js:205-284 | the trophy board has the greatest trophies of any run of the account, shown with the first that had them |
| `Leaderboard.ClearsAreWins` | src/leaderboard.js:255-281 | the clears board has the number of the account's successes, shown with the last of them |
| `Leaderboard.EntriesOfARun` | src/leaderboard.js:200-240 | a run is entered with its experience and trophies, and if it was won with its time under node, hero and party size and one clear |
| `Leaderboard.RankableAreRecorded` | src/leaderboard.js:446-465 | of a batch exactly the rankable runs are recorded, each as often as it is there |
| `Leaderboard.RecordingInOrder` | src/leaderboard.js:446-465 | one after another in the order of the batch; a run that is not rankable changes no standing |
| `Leaderboard.BatchingDoesNotMatter` | src/leaderboard.js:421-465 | folding two batches one after the other is folding them as one |
| `Leaderboard.OrderDoesNotMatter` | src/leaderboard.js:242-284 | histories with the same runs in any order give the same values on every board |
| `Leaderboard.SeedingNeverLowers` | src/leaderboard.js:359-370 | seeding lowers no standing, reaches what it offers, and touches no other |
| `Leaderboard.MixedIsGreatest` | src/leaderboard.js:336-346 | on the two seeded boards, however runs and seeds are mixed, a standing is the greatest value any of them put forward |
| `Consumables.Account.SetBagged` | src/consumables.js:55-77 | the bag in place has that count for the stack's first row, the row gone at zero or below, a new one if there was none |
| `Consumables.Account.Reconcile` | src/consumables.js:109-143 | slots and bag in place are the carry rule applied to slot one, then slot two, then the sweep |
| `Consumables.Account.Settle` | src/consumables.js:115-140 | one turn of the loop: that slot carries the lesser of limit and total, the bag the rest, other slots nothing new |
| `Consumables.Account.MoveToSlot` | src/consumables.js:157-190 | slots and bag in place are the stack moved and settled, or nothing changed and it answers so |
| `Consumables.Account.Unequip` | src/rpc-handlers.js:797-848 | the slot is cleared and its stored count merged into the bag as it stands |
| `Consumables.BaggedMoves` | src/consumables.js:55-77 | setting a bagged count moves that stack's total by the difference and no other stack's |
| `Consumables.ReconcileConserves` | src/consumables.js:109-143 | for every stack what is carried and bagged adds up to the same, also with one stack in both slots; no empty row stays and both counts are within the limit |
| `Consumables.MoveConserves` | src/consumables.js:157-190 | so does moving a stack, displacing another or not |
| `Consumables.UnequipConservesIff` | src/rpc-handlers.js:797-848 | unequipping loses and makes nothing exactly when the slot's count and the bag row it merges into are not of opposite sign |
| `Consumables.CarryRule` | src/consumables.js:115-140 | with distinct stacks and one row per stack a slot carries the lesser of limit and total, and is freed when there is none |
| `Consumables.ChangesNothingIff` | src/consumables.js:109-143 | for every kit, rows of one stack repeated or not, a reconcile changes nothing exactly when no bag row is empty and both slots carry by the rule |
| `Consumables.TwiceIsOnceIff` | src/consumables.js:13-16 | with one row per stack a second reconcile changes nothing except exactly when one stack is in both slots, slot and bag cannot fill the first, and the second is over the limit |
| `Consumables.ReconcileIdempotent` | src/consumables.js:13-16 | so with distinct stacks in the slots reconciling twice is reconciling once |
| `Consumables.OneStackTwiceIsNotIdempotent` | src/consumables.js:97-99 | the other case at one account: 1 and 20 of a stack with limit 9 become 1, 9 and 11 in the bag, then 9, 9 and 3 |
| `Consumables.RunLosesNothing` | src/consumables.js:1-16 | from counts that are not negative no run of reconciling, moving and taking off, each in one step, loses or makes anything or stores a negative count; only spending takes |
| `Consumables.DrinkStaysDrunkIff` | src/consumables.js:164-188 | what is drunk while a move waits for the id of a new bag row stays drunk exactly when it came from no slot the move writes; otherwise it is given back |
| `Consumables.WaitingChangesNothing` | src/consumables.js:157-190 | a move that waited and met nothing is the move in one step |
| `Consumables.UnequipLosesTwo` | src/rpc-handlers.js:803-808 | three in the slot and an imported row of minus two come off as one |
| `Consumables.MoveLandsIff` | src/consumables.js:145-190 | a successful move ends in the slot asked for except into the second slot while the first names the same stack with none left and the bag fits the limit |
| `Consumables.MoveLandsElsewhere` | src/consumables.js:157-190 | a kit at rest, its carried one spent in a dungeon, and the bagged one equipped to the second slot meanwhile: it lands in the first |
| `Consumables.MoveHappensIff` | src/consumables.js:157-170 | a stack is moved exactly when its id is a real one and some of it is in the bag or in either slot |
| `Consumables.CarryLimitIs` | src/consumables.js:43-47 | what may be carried is the item's own positive limit, and nine without one |
| `Auth.MessageInjective` | src/auth.js:251-256 | different account, expiry and generation are never signed as one text |
| `Auth.VerifiesIff` | src/auth.js:320-364 | a token verifies exactly for the account and generation it was issued under, before it expires, once generations have been read |
| `Auth.GenerationCache.MergeGenerations` | src/auth.js:190-199 | the loop keeps, per account, the higher of what was held and what was loaded |
| `Auth.GenerationCache.RefreshFromStore` | src/auth.js:201-217 | a read that fails leaves what was read before |
| `Auth.GenerationCache.Revoked` | src/auth.js:290-294 | the store's answer to a revocation is merged the same way |
| `Auth.NeverForgets` | src/auth.js:180-199 | whatever order reads, failures and bumps arrive in, no generation in memory goes down or passes the store's |
| `Auth.RevokedForGood` | src/auth.js:277-294 | once a revocation resolves no token issued under an earlier generation of the account verifies again |
| `Auth.CurrentTokenStands` | src/auth.js:320-364 | an unexpired token issued under the current generation verifies while the store has not moved on |
| `Auth.SigningOutEndsAll` | src/auth.js:277-294 | whatever was issued for the account under any generation its store had before a revocation verifies no more once the revocation has resolved |
| `Auth.BumpIsOne` | src/auth.js:277-294 | a revocation takes its account one generation on in the store and no other; the answer is that generation |
| `Auth.ReadIsLearnt` | src/auth.js:190-217 | a read that came back leaves memory at what it saw or past it, a failed one leaves memory |
| `Auth.RefusedWhy` | src/auth.js:320-364 | a token is refused as expired by its time alone, as unavailable when nothing has been read, as badly signed when it is not the account's now |
| `Decimals.SplitUnique` | src/auth.js:252-254 | a text with a separator that the first part does not contain is taken apart in one way only |
| `Gifts.NamesOneAccount` | src/gifts.js:118-139 | a minted request id names the account it was minted for and no other |
| `Gifts.MintedInjective` | src/gifts.js:118-119 | at one time for one account, ids are equal only when the counters are equal modulo a thousand |
| `Gifts.Minter.UnusedRequestId` | src/gifts.js:130-136 | the search ends, within one try more than the pile has gifts, at an id that is not on the pile and names its account |
| `Gifts.NeverOutOfIds` | src/gifts.js:121-136 | tries that were all taken are no more than the pile has gifts: fewer than two hundred of a thousand |
| `Gifts.SendGift` | src/gifts.js:150-185 | sender and recipient in place become the sent pair with a fresh id, or both stay and the refusal is the first one found |
| `Gifts.SendIsAttempt` | src/gifts.js:150-185 | once offer, friendship and pile allow it, a send goes through exactly when the cooldown does, is logged, and puts that gift on the pile |
| `Gifts.SendHappensIff` | src/gifts.js:150-185 | a gift is sent exactly when the offer is one to give, the two are different friends, no send within the cooldown went to that friend and the pile has room; it is last on the pile and in the log and nothing else moves |
| `Gifts.TakesIffOnPile` | src/gifts.js:195-204 | an id takes a gift exactly when it names this account and is on its pile; that id leaves the pile and no other |
| `Gifts.Account.TakeGift` | src/gifts.js:195-204 | takes the gift the id names off this account's pile, or nothing |
| `Gifts.Account.ReturnGift` | src/gifts.js:283-287 | puts a gift back unless its id is on the pile |
| `GiftRuns.TakingIsOne` | src/gifts.js:187-204 | taking removes one gift, the same id takes nothing after it, and returning at once puts just that one back |
| `GiftRuns.EveryGiftOnce` | src/rpc-handlers.js:1322-1382 | after any run every gift made is in exactly one place (waiting, in hand while its grant is waited for, granted, declined or lost) however often ids are sent again and whatever is given meanwhile; ids on a pile are distinct and it is over its limit by one at most |
| `GiftRuns.LimitHoldsIff` | src/gifts.js:283-287 | a step keeps every pile within its limit exactly when it does not put a refused gift back on a pile filled up meanwhile |
| `GiftRuns.FullPileOverflows` | src/modes/runtime.js:177 | a full pile, one gift taken, another given by a mode during the grant, the grant refused: one over the limit |
| `GiftRuns.LostIff` | src/gifts.js:283-287 | a step loses a gift exactly when its grant is refused and its id has been put on the pile again meanwhile |
| `GiftRuns.NothingLost` | src/rpc-handlers.js:1332-1338 | while no id is given again to an account that has it in hand, no run loses a gift |
| `GiftRuns.GivingPutsItThere` | src/gifts.js:150-213 | a send with nothing in its way, and a gift the server makes where there is room, puts the next gift made last on the recipient's pile |
| `GiftRuns.SettlingPutsIt` | src/rpc-handlers.js:1322-1382 | a grant that goes through counts as granted and leaves every pile; a refused one puts the gift last on its pile again |
| `GiftRuns.TakingPutsItInHand` | src/rpc-handlers.js:1322-1382 | taking has the gift of that id in hand, declining ends it; either moves only that account's pile |
| `Gifts.RefusedIffSentRecently` | src/gifts.js:76-92 | a send is refused for the cooldown exactly when one of the last 512 went to that friend within it |
| `Gifts.CooldownHolds` | src/gifts.js:168-178 | while at most 512 sends are in the window a friend may be sent to exactly when no earlier send to them is within the cooldown |
| `Gifts.GiftsAreSpaced` | src/gifts.js:168-178 | over any run of attempts at nondecreasing times, with at most 512 sends in any one window, two gifts to one friend are a cooldown apart |
| `Sanctions.Session.RecordViolation` | src/sanctions.js:104-126 | only a terminate-pattern rule counts; its kept times and the answer follow the rolling window, other rules' times stay |
| `Sanctions.EndsOnThirdInWindow` | src/sanctions.js:97-126 | a session ends exactly when a violation and the last two of its rule since that rule last ended one span under ten minutes, whatever other rules do; at most two times are kept |
| `Sanctions.LadderMeetsTheYear` | src/sanctions.js:149-152 | each rung is between two hours and a year, and is the year exactly from rung fourteen on |
| `Sanctions.LadderDoubles` | src/sanctions.js:149-152 | a rung has twice the hours of the one below, from two, as long as that stays under the year |
| `Sanctions.DecayPerCleanPeriod` | src/sanctions.js:233-240 | exactly one rung is lost per full clean thirty days after the later of strike and suspension, none while it is served |
| `Sanctions.CleanFromIsLater` | src/sanctions.js:233-240 | clean time starts at the later of the last strike and the end of the suspension |
| `Sanctions.EscalateClimbsOne` | src/sanctions.js:246-251 | escalating is one rung above what decay left, within 1 to 14, until that rung's hours are over, and never down while serving |
| `Sanctions.SheetCountsLikeSession` | src/sanctions.js:203-219 | the account's sheet keeps and tips on the same strikes a session does, with decay and suspensions in between |
| `Sanctions.StrikeSuspendsOnThird` | src/sanctions.js:203-219 | a strike suspends exactly on the third within the window since the last suspension, and then leaves exactly the sheet escalating leaves |
| `Sanctions.StrikeBelowThird` | src/sanctions.js:203-211 | a strike that is not the third takes the clean months off the rung, leaves the suspension as it was and restarts clean time; one that is not sanctionable leaves the sheet |
| `Sanctions.Account.Sanction` | src/restrictions.js:120-138 | sheet and restriction in place are the escalated sheet and the longer restriction; it answers whether the old one stood |
| `Sanctions.SanctionNeverShortens` | src/restrictions.js:112-138 | after a sanction the account is restricted at a later moment exactly when the rung lasts until then or it would have been anyway |
| `Sanctions.RestrictedUntil` | src/restrictions.js:42-52 | a restriction without an end is in force for good, one with an end until then and no longer |
| `Training.LevelTable` | src/progression.js:29-49 | the accumulating loop, rows without a cost skipped, gives the ladder |
| `Training.LadderClimbs` | src/progression.js:36-45 | for every table experience strictly rises along the ladder and points never fall |
| `Training.RungIsRunningTotal` | src/progression.js:29-49 | each of the hero's rows is one more rung, ending one below what all rows so far cost and carrying the points of all of them; other rows add none |
| `Training.ReadAsFirstRung` | src/progression.js:51-64 | experience reads as the points and the level of the first rung at or above it, or of the last |
| `Training.Position` | src/progression.js:51-54 | the rung experience reads as: the first at or above it, else the last |
| `Training.EarnedIsMonotone` | src/progression.js:58-60 | more experience never reads as fewer points, for every leveling table |
| `Training.LeastExperience` | src/progression.js:68-79 | the experience given for a level is the least that reads as that rung: an amount reads as it or higher exactly when it is at least that much |
| `Training.LevelReadsBackIff` | src/progression.js:56-79 | asking for a level and reading it back agrees exactly when the rung in that place carries that number |
| `Training.LiveAvatar.Train` | src/rpc-handlers.js:392-441 | the build in place becomes the claim, or stays and the refusal is the first check that fails, stat by stat and then the budget |
| `Training.LiveAvatar.Respec` | src/store.js:330-339 | clears the four stats, or refuses when nothing is placed |
| `Training.LiveAvatar.SetLevel` | src/grants.js:242-256 | experience becomes the least for the capped level and the build is cleared exactly when it costs more than that earns |
| `Training.NextIsLegal` | src/rpc-handlers.js:392-441 | every step keeps the four stats in 0..75 and their sum within the points earned |
| `Training.BudgetHolds` | src/rpc-handlers.js:383-391 | so does every run of training, retraining, gaining experience and being set to a level |
| `Training.TrainingNeverLowers` | src/rpc-handlers.js:415-420 | an accepted training leaves every stat at least where it was |
| `Training.AcceptedIffFair` | src/rpc-handlers.js:403-435 | a claim is accepted exactly when it is whole numbers up to 75, no stat falls and the points are earned, and then taken as it stands |
| `Training.SetLevelReads` | src/grants.js:234-256 | a level set reads back as the rung for it, and a build still paid for is kept |
| `Training.LevelSetKeepsOrClears` | src/grants.js:234-256 | any level set reads as its rung, one above the ladder as the last; the build stays exactly when that rung has the points for it, and is all handed back otherwise |
| `Training.RespecClears` | src/store.js:330-339 | a build is handed back exactly when something is placed: all of it, and no experience |
| `Training.StepDoesWhatItSays` | src/rpc-handlers.js:392-441 | a fair claim is the build afterwards and any other claim changes nothing; a retrain leaves nothing spent; only gaining experience and setting a level move it, gaining by what is gained |
| `Migration.LiveAccount.MoveAvatars` | src/accounts.js:207-224 | the loop moves ids one by one up to the first that clashes, remembers exactly the moved ones, and never stops for the width of an id |
| `Migration.LiveAccount.Repair` | src/accounts.js:206-237 | the account in place is repaired with the number of ids moved, or the repair throws having moved exactly the avatars before the first clash |
| `Migration.RepairSettles` | src/accounts.js:195-237 | no id is left in the client's local range and a second repair does nothing |
| `Migration.RepairKeepsDistinct` | src/accounts.js:209-224 | when it does not throw, avatar ids are distinct afterwards exactly when they were before |
| `Migration.ReferenceFollowsIff` | src/accounts.js:228-235 | a reference, whatever it holds, names the same avatars before and after exactly when it was not already a number some avatar is moved to |
| `Migration.DanglingItemIsCaptured` | src/accounts.js:228-235 | an item that dangles at the number the only avatar is moved to is that avatar's afterwards |
| `Migration.EveryReferenceFollows` | src/accounts.js:228-235 | with nothing dangling the active avatar, every item and every pet stay with the avatar they had |
| `Migration.OldNumberingIsRepairable` | src/accounts.js:214-220 | an account with distinct ids all below the offset is never refused |
| `Migration.MovesByOffset` | src/accounts.js:195-224 | an avatar id from 1,000,000 to 1,099,999 goes up by 1,100,000,000, every other stays, and so does a reference that names no avatar |
| `Masks.SetBit` | src/map-progress.js:9-15 | the padding loop and the OR give the mask with that bit set |
| `Masks.SetChangesOneBit` | src/map-progress.js:6-15 | after setting bit i exactly bit i changed, in a mask of any length, past its end included |
| `Masks.BitsDetermineMask` | src/map-progress.js:1-7 | two masks of one length with the same bits are the same mask |
| `Masks.Union` | src/map-progress.js:33-43 | the two loops lay the masks over each other |
| `Masks.UnionHasAny` | src/map-progress.js:32-43 | a bit of the union is set exactly when some mask has it |
| `Masks.TrophiesFor` | src/map-progress.js:45-51 | the loop counts the boss bits of the mask |
| `Masks.LiveAccount.Clear` | src/socket/rewards.js:543-553 | both masks get the bit, a boss the account's own mask lacked pays a trophy, and it answers whether it was the first clear |
| `Masks.LiveAccount.RepairTrophyCount` | src/accounts.js:336-342 | the column becomes the count of the union and it answers whether that changed anything |
| `Masks.ClearWritesBoth` | src/socket/rewards.js:543-553 | a clear sets that bit and no other on the account's mask and on its hero's, leaves the other heroes', and pays one trophy exactly for a boss the account's mask lacked |
| `Masks.ClearCountsOnce` | src/map-progress.js:17-24 | a boss's first clear by any hero is one trophy more on the union; a repeat, or another node, none |
| `Masks.ColumnStaysRightIff` | src/socket/rewards.js:470-496 | a right trophy column stays right through a clear unless the boss was beaten on a hero's mask and is missing from the account's |
| `Masks.PaidForAnUnlockedBoss` | src/magic-words.js:63-66 | a boss opened on a hero's mask alone, counted at the next load and cleared afterwards is paid twice: a column of two for a count of one |
| `Masks.ColumnIsTheCount` | src/socket/rewards.js:543-553 | with the account's mask covering its heroes', the column is the count of the union after any run of clears |
| `Masks.TrophiesAreBossesBeaten` | src/map-progress.js:53-61 | the trophies after any run are the number of bosses earned before it or beaten in it, by whichever hero and in whatever order |

## Left out

- Files, directories, fsync, PostgreSQL, JSON text and HTTP: storage is a value, a rename one step, and a save takes effect whole or fails whole.
- A save that fails after a market, trade or gift call has changed the live objects: those calls are modelled up to the change itself, and `LiveStore` says what a failed write leaves.
- Match-worker leases, remote copies and forwarding: the policies are not part of this model; the single-thread policy is.
- Several accounts in one save as one transaction: `LiveStore` follows one account, `LockOrder` the locks of several.
- A session lets go of its account only after its own saves have settled, which `LiveStore` takes for granted; that a failed one is tried again until it lands (src/socket/run-saves.js) is not in the model.
- On PostgreSQL a read is several queries and may see one list before a save and another after it: `LiveStore` and `EscrowRuns` have the file store's read, which sees one version.
- Reads that save: one that repairs or creates an account saves its own copy without the lock (src/accounts.js:432, src/accounts.js:671-697). `LockOrder` has those saves, `LiveStore` and `EscrowRuns` have not.
- A lookup of an account somebody named may read storage by itself rather than share the read (src/accounts.js:629-638): under the lock that is a read begun then, as `LiveStore`'s load with none under way.
- Creating an account and choosing ids and names: only what it waits for and inside which locks it reads, claims and writes, in `LockOrder` and `Deadlock`; a scan of the ids it gets to before it finds the name.
- Changes without the lock: `LockOrder` and `Deadlock` have those of calls that take it; what sessions and modes do to the live object they play is in `LiveStore` and `GiftRuns`.
- Account deletion while others list the account; listings, friendships and restrictions written by older versions; what repairs made while loading do, other than to the avatar ids and the trophy count (`Migration` and `Masks` say what these two do to an account, not when it is saved).
- Weapons that enter or leave by other ways than market and trade (loot, shop sale, gifts of weapons): they are outside `Escrow`'s runs.
- Browsing, stalls, board pages, titles, renaming in standings, purging the old experience board: lookups and sorting.
- The price ceiling is an arbitrary function of the item; a price is at most two thousand million, which is what a listing accepts.
- A reconcile that replaces the bag list while another call waits for a row id is not in the model; the waits inside a reconcile itself are taken as one step.
- Trophies and standings of Infinite Island, and map nodes without a bit number.
- Map masks with characters over 255: every writer keeps them below.
- Trimming and upper-casing a typed friend code; ids that are not whole numbers.
- ProcessLock: creating the file with its content, and a release's read and removal, are one step each; watching an unseen owner's heartbeat is the verdict it ends in; an unreadable file is a refusal.
- Declarations: one epoch of one place; views that still have to be confirmed, and having no place at all, are left out.
- Auth: generations kept in a file, sign-outs of a browser session, and the parsing of a token's text; the keyed hash is an injective function.
- SendGift: a stored gift has no serial, so the method writes 0 and only `GiftRuns` numbers gifts; a grant is one step that goes through or is refused whole.
- Which offers may be given, carry limits, levelling rows, boss nodes and rule dispositions are arbitrary tables.
- Strike: whether a rule is sanctionable is a parameter.
- purchaseOffer, sale values, repairSpentPowerups and other one-pass grants: they would only add easy members.
