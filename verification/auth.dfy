// Tokens signed over an account, an expiry and a generation, and the generations
// kept by a store that is read in the background and bumped by revocations.
module Auth {
  import opened Options
  import opened Decimals

  // --- What is signed --------------------------------------------------------

  /** What follows the account in the signed text; generation zero keeps the form it had before generations existed. */
  function Terms(expiry: nat, generation: nat): string {
    if generation == 0 then Decimal(expiry) else Decimal(expiry) + [':'] + Decimal(generation)
  }

  function Message(account: nat, expiry: nat, generation: nat): string {
    Decimal(account) + [':'] + Terms(expiry, generation)
  }

  lemma TermsShowGeneration(expiry: nat, generation: nat)
    ensures ':' in Terms(expiry, generation) <==> generation != 0
  {
    if generation != 0 {
      assert Terms(expiry, generation)[|Decimal(expiry)|] == ':';
    }
  }

  /** No two choices of account, expiry and generation are signed as one text. */
  lemma MessageInjective(a: nat, e: nat, g: nat, b: nat, f: nat, h: nat)
    requires Message(a, e, g) == Message(b, f, h)
    ensures a == b && e == f && g == h
  {
    SplitUnique(Decimal(a), Terms(e, g), Decimal(b), Terms(f, h), ':');
    DecimalInjective(a, b);
    TermsShowGeneration(e, g);
    TermsShowGeneration(f, h);
    if g == 0 {
      DecimalInjective(e, f);
    } else {
      SplitUnique(Decimal(e), Decimal(g), Decimal(f), Decimal(h), ':');
      DecimalInjective(e, f);
      DecimalInjective(g, h);
    }
  }

  /** The keyed hash, for one secret: as good as injective. */
  type Mac = string -> string

  ghost predicate Injective(mac: Mac) {
    forall s, t :: mac(s) == mac(t) ==> s == t
  }

  datatype Token = Token(expiry: nat, signature: string)

  datatype Problem = Expired | Unavailable | BadSignature

  type Generations = map<nat, nat>

  function GenerationOf(values: Generations, account: nat): nat {
    if account in values then values[account] else 0
  }

  function IssueToken(mac: Mac, account: nat, expiry: nat, generation: nat): Token {
    Token(expiry, mac(Message(account, expiry, generation)))
  }

  /** Why a token is refused, against what this server has read so far. */
  function TokenProblem(mac: Mac, values: Option<Generations>, account: nat, token: Token, now: nat): Option<Problem> {
    if token.expiry <= now then Some(Expired)
    else if values.None? then Some(Unavailable)
    else if token.signature != mac(Message(account, token.expiry, GenerationOf(values.value, account)))
    then Some(BadSignature)
    else None
  }

  /** A token verifies for exactly the account and generation it was issued under, until it expires. */
  lemma VerifiesIff(
      mac: Mac, values: Option<Generations>, account: nat, owner: nat, expiry: nat, generation: nat, now: nat)
    requires Injective(mac)
    ensures TokenProblem(mac, values, account, IssueToken(mac, owner, expiry, generation), now).None? <==>
              && now < expiry && values.Some?
              && account == owner && GenerationOf(values.value, account) == generation
  {
    if values.Some? {
      var current := GenerationOf(values.value, account);
      if mac(Message(owner, expiry, generation)) == mac(Message(account, expiry, current)) {
        MessageInjective(owner, expiry, generation, account, expiry, current);
      }
    }
  }

  // --- Merging ---------------------------------------------------------------

  function Max(a: nat, b: nat): nat { if a > b then a else b }

  /** Whatever a read brings back, the higher of the two is kept. */
  function Merged(values: Generations, loaded: Generations): Generations {
    map id | id in values.Keys + loaded.Keys :: Max(GenerationOf(values, id), GenerationOf(loaded, id))
  }

  function Known(values: Option<Generations>): Generations {
    if values.Some? then values.value else map[]
  }

  class GenerationCache {
    var values: Option<Generations>

    constructor ()
      ensures values == None
    {
      values := None;
    }

    method MergeGenerations(loaded: Generations)
      modifies this
      ensures values == Some(Merged(Known(old(values)), loaded))
    {
      var merged := Known(values);
      var left := loaded.Keys;
      while left != {}
        invariant left <= loaded.Keys
        invariant merged.Keys == Known(old(values)).Keys + (loaded.Keys - left)
        invariant forall id :: id in merged ==>
                    merged[id] == if id in left then GenerationOf(Known(old(values)), id)
                                  else Max(GenerationOf(Known(old(values)), id), GenerationOf(loaded, id))
        decreases left
      {
        var id :| id in left;
        merged := merged[id := Max(GenerationOf(merged, id), loaded[id])];
        left := left - {id};
      }
      assert merged == Merged(Known(old(values)), loaded);
      values := Some(merged);
    }

    /** The background read came back, or it failed and what was read stays. */
    method RefreshFromStore(loaded: Option<Generations>)
      modifies this
      ensures values == if loaded.Some? then Some(Merged(Known(old(values)), loaded.value)) else old(values)
    {
      if loaded.Some? { MergeGenerations(loaded.value); }
    }

    /** The store has bumped the account and answered its new generation. */
    method Revoked(account: nat, generation: nat)
      modifies this
      ensures values == Some(Merged(Known(old(values)), map[account := generation]))
    {
      MergeGenerations(map[account := generation]);
    }
  }

  // --- One server against its store ------------------------------------------

  /** loads and bumps are answers on their way: what a read saw, what a revocation got. */
  datatype State = State(
    store: Generations, values: Option<Generations>, loads: seq<Generations>, bumps: seq<(nat, nat)>)

  datatype Event =
    | ReadStarts                  // sees the store as it is, and answers any time later
    | ReadArrives(i: nat)
    | ReadFails(i: nat)
    | Bump(account: nat)          // the store counts up; the answer is on its way
    | BumpElsewhere(account: nat) // another server's, or one whose answer never comes
    | BumpArrives(i: nat)

  function Bumped(store: Generations, account: nat): Generations {
    store[account := GenerationOf(store, account) + 1]
  }

  function Next(s: State, e: Event): State {
    match e
    case ReadStarts => s.(loads := s.loads + [s.store])
    case ReadArrives(i) =>
      if i >= |s.loads| then s
      else s.(values := Some(Merged(Known(s.values), s.loads[i])), loads := s.loads[..i] + s.loads[i + 1..])
    case ReadFails(i) =>
      if i >= |s.loads| then s else s.(loads := s.loads[..i] + s.loads[i + 1..])
    case Bump(account) =>
      s.(store := Bumped(s.store, account), bumps := s.bumps + [(account, GenerationOf(s.store, account) + 1)])
    case BumpElsewhere(account) => s.(store := Bumped(s.store, account))
    case BumpArrives(i) =>
      if i >= |s.bumps| then s
      else s.(values := Some(Merged(Known(s.values), map[s.bumps[i].0 := s.bumps[i].1])),
              bumps := s.bumps[..i] + s.bumps[i + 1..])
  }

  function Run(s: State, es: seq<Event>): State
    decreases |es|
  {
    if es == [] then s else Run(Next(s, es[0]), es[1..])
  }

  ghost predicate Within(values: Generations, store: Generations) {
    forall id :: GenerationOf(values, id) <= GenerationOf(store, id)
  }

  /** Memory, and every answer on its way, is behind the store or level with it. */
  ghost predicate Valid(s: State) {
    && Within(Known(s.values), s.store)
    && (forall i :: 0 <= i < |s.loads| ==> Within(s.loads[i], s.store))
    && (forall i :: 0 <= i < |s.bumps| ==> s.bumps[i].1 <= GenerationOf(s.store, s.bumps[i].0))
  }

  lemma MergedIs(values: Generations, loaded: Generations, id: nat)
    ensures GenerationOf(Merged(values, loaded), id) == Max(GenerationOf(values, id), GenerationOf(loaded, id))
  {
  }

  lemma MergingStaysWithin(values: Generations, loaded: Generations, store: Generations)
    requires Within(values, store) && Within(loaded, store)
    ensures Within(Merged(values, loaded), store) && Within(values, Merged(values, loaded))
  {
    forall id
      ensures GenerationOf(values, id) <= GenerationOf(Merged(values, loaded), id) <= GenerationOf(store, id)
    {
      MergedIs(values, loaded, id);
    }
  }

  lemma BumpingStaysAhead(values: Generations, store: Generations, account: nat)
    requires Within(values, store)
    ensures Within(values, Bumped(store, account))
  {
    forall id
      ensures GenerationOf(values, id) <= GenerationOf(Bumped(store, account), id)
    {
      assert GenerationOf(values, id) <= GenerationOf(store, id);
    }
  }

  lemma StoreBumpKeepsValid(s: State, account: nat)
    requires Valid(s)
    ensures Valid(s.(store := Bumped(s.store, account))) && Within(s.store, Bumped(s.store, account))
  {
    BumpingStaysAhead(Known(s.values), s.store, account);
    BumpingStaysAhead(s.store, s.store, account);
    forall i | 0 <= i < |s.loads|
      ensures Within(s.loads[i], Bumped(s.store, account))
    {
      BumpingStaysAhead(s.loads[i], s.store, account);
    }
  }

  lemma NextKeepsValid(s: State, e: Event)
    requires Valid(s)
    ensures Valid(Next(s, e)) && Within(s.store, Next(s, e).store)
    ensures Within(Known(s.values), Known(Next(s, e).values)) && (s.values.Some? ==> Next(s, e).values.Some?)
  {
    match e
    case ReadArrives(i) =>
      if i < |s.loads| { MergingStaysWithin(Known(s.values), s.loads[i], s.store); }
    case BumpArrives(i) =>
      if i < |s.bumps| {
        var answer := map[s.bumps[i].0 := s.bumps[i].1];
        assert Within(answer, s.store);
        MergingStaysWithin(Known(s.values), answer, s.store);
      }
    case Bump(account) => StoreBumpKeepsValid(s, account);
    case BumpElsewhere(account) => StoreBumpKeepsValid(s, account);
    case _ =>
  }

  /** The generation held in memory never goes down and never passes the store's, in any order of arrival. */
  lemma {:induction false} NeverForgets(s: State, es: seq<Event>)
    requires Valid(s)
    ensures var t := Run(s, es);
            && Valid(t) && Within(s.store, t.store) && Within(Known(s.values), Known(t.values))
            && (s.values.Some? ==> t.values.Some?)
    decreases |es|
  {
    if es == [] {
    } else {
      NextKeepsValid(s, es[0]);
      NeverForgets(Next(s, es[0]), es[1..]);
    }
  }

  /** A server that has not read anything, beside a store with a past. */
  function Start(store: Generations): State {
    State(store, None, [], [])
  }

  /**
   * Once a revocation has resolved, no token issued under an earlier generation of
   * that account ever verifies again, whatever reads were already under way.
   */
  lemma RevokedForGood(
      mac: Mac, store: Generations, before: seq<Event>, i: nat, after: seq<Event>,
      expiry: nat, generation: nat, now: nat)
    requires Injective(mac)
    requires i < |Run(Start(store), before).bumps| && generation < Run(Start(store), before).bumps[i].1
    ensures var s := Run(Start(store), before);
            var account := s.bumps[i].0;
            var t := Run(Next(s, BumpArrives(i)), after);
            TokenProblem(mac, t.values, account, IssueToken(mac, account, expiry, generation), now).Some?
  {
    var s := Run(Start(store), before);
    NeverForgets(Start(store), before);
    NextKeepsValid(s, BumpArrives(i));
    MergedIs(Known(s.values), map[s.bumps[i].0 := s.bumps[i].1], s.bumps[i].0);
    NeverForgets(Next(s, BumpArrives(i)), after);
    var t := Run(Next(s, BumpArrives(i)), after);
    VerifiesIff(mac, t.values, s.bumps[i].0, s.bumps[i].0, expiry, generation, now);
  }

  /** A token issued under the generation in memory verifies until it expires, while the store has not moved past it. */
  lemma CurrentTokenStands(
      mac: Mac, store: Generations, before: seq<Event>, after: seq<Event>, account: nat, expiry: nat, now: nat)
    requires Injective(mac) && now < expiry
    requires Run(Start(store), before).values.Some?
    requires var s := Run(Start(store), before);
             GenerationOf(Run(s, after).store, account) == GenerationOf(s.values.value, account)
    ensures var s := Run(Start(store), before);
            var token := IssueToken(mac, account, expiry, GenerationOf(s.values.value, account));
            TokenProblem(mac, Run(s, after).values, account, token, now).None?
  {
    var s := Run(Start(store), before);
    NeverForgets(Start(store), before);
    NeverForgets(s, after);
    VerifiesIff(mac, Run(s, after).values, account, account, expiry, GenerationOf(s.values.value, account), now);
  }

  // --- What each answer brings -----------------------------------------------

  /** Why a token is refused: its time first, then nothing read yet, then a signature that is not the account's now. */
  lemma RefusedWhy(mac: Mac, values: Option<Generations>, account: nat, token: Token, now: nat)
    ensures TokenProblem(mac, values, account, token, now) == Some(Expired) <==> token.expiry <= now
    ensures TokenProblem(mac, values, account, token, now) == Some(Unavailable) <==>
              now < token.expiry && values.None?
    ensures TokenProblem(mac, values, account, token, now) == Some(BadSignature) <==>
              && now < token.expiry && values.Some?
              && token.signature != mac(Message(account, token.expiry, GenerationOf(values.value, account)))
  {
  }

  /** A read that has come back has been learnt: memory is at what it saw, or past it. */
  lemma ReadIsLearnt(s: State, i: nat)
    requires i < |s.loads|
    ensures var t := Next(s, ReadArrives(i)); t.values.Some? && Within(s.loads[i], t.values.value)
    ensures Next(s, ReadFails(i)).values == s.values
    ensures Next(s, ReadStarts).loads == s.loads + [s.store] && Next(s, ReadStarts).values == s.values
  {
    forall id
      ensures GenerationOf(s.loads[i], id) <= GenerationOf(Merged(Known(s.values), s.loads[i]), id)
    {
      MergedIs(Known(s.values), s.loads[i], id);
    }
  }

  /** A revocation takes the account one generation on in the store, and no other account; its answer says which. */
  lemma BumpIsOne(s: State, account: nat, other: nat)
    ensures var t := Next(s, Bump(account));
            && GenerationOf(t.store, other) == GenerationOf(s.store, other) + (if other == account then 1 else 0)
            && t.bumps == s.bumps + [(account, GenerationOf(t.store, account))] && t.values == s.values
            && Next(s, BumpElsewhere(account)) == s.(store := t.store)
  {
  }

  /**
   * Signing out everywhere: whatever was issued for the account before, under any
   * generation its store had, verifies no more once the revocation has resolved.
   */
  lemma SigningOutEndsAll(
      mac: Mac, store: Generations, before: seq<Event>, account: nat, after: seq<Event>,
      expiry: nat, generation: nat, now: nat)
    requires Injective(mac) && generation <= GenerationOf(Run(Start(store), before).store, account)
    ensures var s := Next(Run(Start(store), before), Bump(account));
            var t := Run(Next(s, BumpArrives(|s.bumps| - 1)), after);
            && s.bumps != []
            && TokenProblem(mac, t.values, account, IssueToken(mac, account, expiry, generation), now).Some?
  {
    var r := Run(Start(store), before);
    RunLast(Start(store), before, Bump(account));
    RevokedForGood(mac, store, before + [Bump(account)], |r.bumps|, after, expiry, generation, now);
  }

  lemma {:induction false} RunLast(s: State, es: seq<Event>, e: Event)
    ensures Run(s, es + [e]) == Next(Run(s, es), e)
    decreases |es|
  {
    if es == [] {
      assert [e][1..] == [];
    } else {
      RunLast(Next(s, es[0]), es[1..], e);
      assert (es + [e])[1..] == es[1..] + [e];
    }
  }
}
