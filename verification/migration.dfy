// Moving avatar ids out of the range a native client numbers its own objects from.
module Migration {
  import opened Options

  const CLIENT_LOCAL_MIN: int := 1_000_000
  const CLIENT_LOCAL_MAX: int := 1_099_999
  const LEGACY_OFFSET: int := 1_100_000_000
  const MAX_OBJECT_ID: int := 0xffff_ffff

  /** An account's avatar ids, and everything on it that names one. */
  datatype Account = Account(avatars: seq<int>, active: Option<int>, items: seq<Option<int>>, pets: seq<Option<int>>)

  predicate IsLocal(id: int) {
    CLIENT_LOCAL_MIN <= id <= CLIENT_LOCAL_MAX
  }

  function Moved(id: int): int {
    if IsLocal(id) then LEGACY_OFFSET + id else id
  }

  function LocalIds(ids: seq<int>): set<int> {
    set id | id in ids && IsLocal(id)
  }

  function AllMoved(ids: seq<int>): seq<int> {
    seq(|ids|, k requires 0 <= k < |ids| => Moved(ids[k]))
  }

  /** Avatar k cannot be moved: an unmoved avatar has the new id, or an earlier one moved to it. */
  predicate Clash(ids: seq<int>, k: nat)
    requires k < |ids|
  {
    IsLocal(ids[k]) && (LEGACY_OFFSET + ids[k] in ids || ids[k] in ids[..k])
  }

  function FirstClash(ids: seq<int>, k: nat): (first: nat)
    requires k <= |ids|
    ensures k <= first <= |ids|
    ensures forall j :: k <= j < first ==> !Clash(ids, j)
    ensures first < |ids| ==> Clash(ids, first)
    decreases |ids| - k
  {
    if k == |ids| || Clash(ids, k) then k else FirstClash(ids, k + 1)
  }

  /** What a reference becomes: it follows an avatar of the account that was moved, and nothing else. */
  function Remap(ids: seq<int>, v: Option<int>): Option<int> {
    if v.Some? && v.value in ids then Some(Moved(v.value)) else v
  }

  function AllRemapped(ids: seq<int>, vs: seq<Option<int>>): seq<Option<int>> {
    seq(|vs|, k requires 0 <= k < |vs| => Remap(ids, vs[k]))
  }

  function Repaired(a: Account): Account {
    Account(AllMoved(a.avatars), Remap(a.avatars, a.active),
            AllRemapped(a.avatars, a.items), AllRemapped(a.avatars, a.pets))
  }

  /** The ids once the first i have been dealt with. */
  function HalfMoved(ids: seq<int>, i: nat): seq<int>
    requires i <= |ids|
  {
    seq(|ids|, k requires 0 <= k < |ids| => if k < i then Moved(ids[k]) else ids[k])
  }

  /** A repair that throws has already moved the avatars before the one it stopped at. */
  function HalfRepaired(a: Account, stop: nat): Account
    requires stop <= |a.avatars|
  {
    a.(avatars := HalfMoved(a.avatars, stop))
  }

  /** The remembered moves: every local id among the ids, and its new id. */
  ghost predicate Remaps(remapped: map<int, int>, ids: seq<int>) {
    && (forall id :: id in remapped <==> id in ids && IsLocal(id))
    && (forall id :: id in remapped ==> remapped[id] == LEGACY_OFFSET + id)
  }

  lemma RemapsKeys(remapped: map<int, int>, ids: seq<int>)
    requires Remaps(remapped, ids)
    ensures remapped.Keys == LocalIds(ids)
  {
    forall id
      ensures id in remapped.Keys <==> id in LocalIds(ids)
    {
      assert id in remapped <==> id in ids && IsLocal(id);
    }
  }

  /** An id is spoken for once the first i avatars have moved. */
  predicate Taken(ids: seq<int>, i: nat, id: int)
    requires i <= |ids|
  {
    (id in ids && !IsLocal(id)) || (IsLocal(id - LEGACY_OFFSET) && id - LEGACY_OFFSET in ids[..i])
  }

  lemma MoveOne(ids: seq<int>, i: nat)
    requires i < |ids|
    ensures ids[..i + 1] == ids[..i] + [ids[i]]
    ensures HalfMoved(ids, i + 1) == HalfMoved(ids, i)[i := Moved(ids[i])]
    ensures HalfMoved(ids, i)[i] == ids[i]
    ensures HalfMoved(ids, 0) == ids && HalfMoved(ids, |ids|) == AllMoved(ids)
    ensures IsLocal(ids[i]) ==> (Clash(ids, i) <==> Taken(ids, i, LEGACY_OFFSET + ids[i]))
  {
  }

  ghost predicate Occupies(occupied: set<int>, ids: seq<int>, i: nat)
    requires i <= |ids|
  {
    forall id :: id in occupied <==> Taken(ids, i, id)
  }

  lemma OccupiesOneMore(occupied: set<int>, ids: seq<int>, i: nat)
    requires i < |ids| && Occupies(occupied, ids, i)
    ensures Occupies(occupied + (if IsLocal(ids[i]) then {LEGACY_OFFSET + ids[i]} else {}), ids, i + 1)
  {
    assert ids[..i + 1] == ids[..i] + [ids[i]];
  }

  lemma RemapsOneMore(remapped: map<int, int>, ids: seq<int>, id: int)
    requires Remaps(remapped, ids) && IsLocal(id)
    ensures Remaps(remapped[id := LEGACY_OFFSET + id], ids + [id])
  {
  }

  class LiveAccount {
    var avatars: seq<int>
    var active: Option<int>
    var items: seq<Option<int>>
    var pets: seq<Option<int>>

    constructor (a: Account)
      ensures Row() == a
    {
      avatars, active, items, pets := a.avatars, a.active, a.items, a.pets;
    }

    function Row(): Account
      reads this
    {
      Account(avatars, active, items, pets)
    }

    /** Moves the avatar ids; Refused carries the id that could not be moved. */
    method MoveAvatars() returns (remapped: map<int, int>, refused: Option<int>)
      modifies this`avatars
      ensures avatars == HalfMoved(old(avatars), FirstClash(old(avatars), 0))
      ensures var stop := FirstClash(old(avatars), 0);
              refused == if stop < |old(avatars)| then Some(old(avatars)[stop]) else None
      ensures refused.None? ==> Remaps(remapped, old(avatars))
    {
      ghost var before, stop := avatars, FirstClash(avatars, 0);
      remapped := map[];
      var occupied := set id | id in avatars && !IsLocal(id);
      for i := 0 to |avatars|
        invariant |avatars| == |before| && i <= stop
        invariant avatars == HalfMoved(before, i)
        invariant Remaps(remapped, before[..i])
        invariant Occupies(occupied, before, i)
      {
        MoveOne(before, i);
        OccupiesOneMore(occupied, before, i);
        var oldId := avatars[i];
        if IsLocal(oldId) {
          var newId := LEGACY_OFFSET + oldId;
          if newId > MAX_OBJECT_ID || newId in occupied {
            assert Taken(before, i, newId);
            return remapped, Some(oldId);
          }
          RemapsOneMore(remapped, before[..i], oldId);
          remapped := remapped[oldId := newId];
          occupied := occupied + {newId};
          avatars := avatars[i := newId];
        }
      }
      assert before[..|before|] == before;
      return remapped, None;
    }

    method Repair() returns (moved: Option<nat>)
      modifies this
      ensures var stop := FirstClash(old(avatars), 0);
              if stop < |old(avatars)| then moved.None? && Row() == HalfRepaired(old(Row()), stop)
              else moved == Some(|LocalIds(old(avatars))|) && Row() == Repaired(old(Row()))
    {
      ghost var before := Row();
      var remapped, refused := MoveAvatars();
      if refused.Some? { return None; }
      RemapsKeys(remapped, before.avatars);
      if remapped == map[] {
        forall k | 0 <= k < |before.avatars|
          ensures !IsLocal(before.avatars[k])
        {
          assert before.avatars[k] !in remapped;
        }
        NothingToMove(before);
        return Some(0);
      }
      active := RemapOne(remapped, active);
      for k := 0 to |items|
        invariant |items| == |before.items| && pets == before.pets
        invariant avatars == AllMoved(before.avatars) && active == Remap(before.avatars, before.active)
        invariant forall j :: 0 <= j < k ==> items[j] == Remap(before.avatars, before.items[j])
        invariant forall j :: k <= j < |items| ==> items[j] == before.items[j]
      {
        items := items[k := RemapOne(remapped, items[k])];
      }
      for k := 0 to |pets|
        invariant |pets| == |before.pets| && items == AllRemapped(before.avatars, before.items)
        invariant avatars == AllMoved(before.avatars) && active == Remap(before.avatars, before.active)
        invariant forall j :: 0 <= j < k ==> pets[j] == Remap(before.avatars, before.pets[j])
        invariant forall j :: k <= j < |pets| ==> pets[j] == before.pets[j]
      {
        pets := pets[k := RemapOne(remapped, pets[k])];
      }
      return Some(|remapped|);
    }
  }

  function RemapOne(remapped: map<int, int>, v: Option<int>): Option<int> {
    if v.Some? && v.value in remapped then Some(remapped[v.value]) else v
  }

  predicate NoLocal(ids: seq<int>) {
    forall k :: 0 <= k < |ids| ==> !IsLocal(ids[k])
  }

  predicate Distinct(ids: seq<int>) {
    forall i, j :: 0 <= i < j < |ids| ==> ids[i] != ids[j]
  }

  predicate Repairable(a: Account) {
    FirstClash(a.avatars, 0) == |a.avatars|
  }

  /** A reference names the avatar in place k. */
  predicate Names(ids: seq<int>, v: Option<int>, k: nat)
    requires k < |ids|
  {
    v == Some(ids[k])
  }

  lemma NothingToMove(a: Account)
    requires NoLocal(a.avatars)
    ensures Repairable(a) && Repaired(a) == a
  {
  }

  /** No id is left where the client numbers its own objects, and a second repair finds nothing to do. */
  lemma RepairSettles(a: Account)
    ensures NoLocal(Repaired(a).avatars)
    ensures Repairable(Repaired(a)) && Repaired(Repaired(a)) == Repaired(a)
  {
    NothingToMove(Repaired(a));
  }

  /** When it does not throw, ids are distinct afterwards exactly when they were before. */
  lemma RepairKeepsDistinct(a: Account)
    requires Repairable(a)
    ensures Distinct(Repaired(a).avatars) <==> Distinct(a.avatars)
  {
    var ids, after := a.avatars, Repaired(a).avatars;
    forall i, j | 0 <= i < j < |ids|
      ensures ids[i] == ids[j] <==> after[i] == after[j]
    {
      SamePlace(a, ids[i], j);
    }
  }

  /** Avatar k goes by v before exactly when it goes by v's new id after, for v an avatar's id. */
  lemma SamePlace(a: Account, v: int, k: nat)
    requires Repairable(a) && k < |a.avatars| && v in a.avatars
    ensures a.avatars[k] == v <==> Repaired(a).avatars[k] == Moved(v)
  {
    var m :| 0 <= m < |a.avatars| && a.avatars[m] == v;
    assert !Clash(a.avatars, k) && !Clash(a.avatars, m);
  }

  /**
   * A reference names the same avatars before and after, whatever it holds, exactly
   * when it was not already the number some avatar is about to be moved to.
   */
  lemma ReferenceFollowsIff(a: Account, v: Option<int>)
    requires Repairable(a)
    ensures (forall k: nat :: k < |a.avatars| ==>
               (Names(a.avatars, v, k) <==> Names(Repaired(a).avatars, Remap(a.avatars, v), k)))
       <==> !(exists k: nat :: k < |a.avatars| && IsLocal(a.avatars[k]) && v == Some(Moved(a.avatars[k])))
  {
    if k: nat :| k < |a.avatars| && IsLocal(a.avatars[k]) && v == Some(Moved(a.avatars[k])) {
      assert !Clash(a.avatars, k);
      assert !Names(a.avatars, v, k) && Names(Repaired(a).avatars, Remap(a.avatars, v), k);
    } else {
      forall k: nat | k < |a.avatars|
        ensures Names(a.avatars, v, k) <==> Names(Repaired(a).avatars, Remap(a.avatars, v), k)
      {
        if v.Some? && v.value in a.avatars {
          SamePlace(a, v.value, k);
        }
      }
    }
  }

  /** An item that dangles at the number the only avatar is moved to is that avatar's afterwards. */
  lemma DanglingItemIsCaptured()
    ensures var a := Account([1_000_000], Some(1_000_000), [Some(1_101_000_000)], []);
            && Repairable(a) && !Names(a.avatars, a.items[0], 0)
            && Names(Repaired(a).avatars, Repaired(a).items[0], 0)
  {
    var a := Account([1_000_000], Some(1_000_000), [Some(1_101_000_000)], []);
    assert !Clash(a.avatars, 0);
  }

  predicate Dangles(ids: seq<int>, v: Option<int>) {
    v.Some? && v.value !in ids
  }

  /** With nothing dangling, the active avatar, every item and every pet stay with the avatar they had. */
  lemma EveryReferenceFollows(a: Account, k: nat)
    requires Repairable(a) && k < |a.avatars|
    requires !Dangles(a.avatars, a.active)
    requires forall i :: 0 <= i < |a.items| ==> !Dangles(a.avatars, a.items[i])
    requires forall i :: 0 <= i < |a.pets| ==> !Dangles(a.avatars, a.pets[i])
    ensures var b := Repaired(a);
            && (Names(a.avatars, a.active, k) <==> Names(b.avatars, b.active, k))
            && |b.items| == |a.items| && |b.pets| == |a.pets|
            && (forall i :: 0 <= i < |a.items| ==>
                  (Names(a.avatars, a.items[i], k) <==> Names(b.avatars, b.items[i], k)))
            && (forall i :: 0 <= i < |a.pets| ==> (Names(a.avatars, a.pets[i], k) <==> Names(b.avatars, b.pets[i], k)))
  {
    if a.active.Some? {
      SamePlace(a, a.active.value, k);
    }
    forall i | 0 <= i < |a.items| && a.items[i].Some?
      ensures Names(a.avatars, a.items[i], k) <==> Names(Repaired(a).avatars, Repaired(a).items[i], k)
    {
      SamePlace(a, a.items[i].value, k);
    }
    forall i | 0 <= i < |a.pets| && a.pets[i].Some?
      ensures Names(a.avatars, a.pets[i], k) <==> Names(Repaired(a).avatars, Repaired(a).pets[i], k)
    {
      SamePlace(a, a.pets[i].value, k);
    }
  }

  /** Distinct ids below the offset can always be repaired: no account the old numbering made is turned away. */
  lemma OldNumberingIsRepairable(a: Account)
    requires Distinct(a.avatars)
    requires forall k :: 0 <= k < |a.avatars| ==> a.avatars[k] < LEGACY_OFFSET
    ensures Repairable(a)
  {
    forall k | 0 <= k < |a.avatars|
      ensures !Clash(a.avatars, k)
    {
    }
  }

  /** What moves and where: an id the client numbers its own objects by, up by the offset; all other ids stay. */
  lemma MovesByOffset(a: Account, k: nat)
    requires k < |a.avatars|
    ensures var before, after := a.avatars[k], Repaired(a).avatars[k];
            after == if 1_000_000 <= before <= 1_099_999 then before + 1_100_000_000 else before
    ensures |Repaired(a).avatars| == |a.avatars|
    ensures forall i :: 0 <= i < |a.items| && (a.items[i].None? || Dangles(a.avatars, a.items[i])) ==>
              Repaired(a).items[i] == a.items[i]
  {
  }
}
