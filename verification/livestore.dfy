// One account's object between storage, the reads that bring it into memory, the
// sessions playing it and the calls that change it under its lock.
//
// A read of an account nobody holds is shared by everybody who asks while it is
// under way, readers without the lock included. So the call in the lock may be
// handed what an earlier reader's file said, and JoinsOldRead is where that matters.
module LiveStore {
  import opened Options
  import opened Sums

  // --- The registry ----------------------------------------------------------

  /** Account objects are named by number; two holders share one iff the numbers agree. */
  type Obj = nat

  datatype Entry = Entry(obj: Obj, holders: nat)

  /** What holding does to an account's entry: the first arrival's object, one more holder. */
  function Held(entry: Option<Entry>, arriving: Obj): Entry {
    match entry
    case None => Entry(arriving, 1)
    case Some(e) => Entry(e.obj, e.holders + 1)
  }

  function Released(entry: Option<Entry>): Option<Entry> {
    match entry
    case None => None
    case Some(e) => if e.holders > 1 then Some(Entry(e.obj, e.holders - 1)) else None
  }

  class AccountRegistry {
    var held: map<nat, Entry>

    constructor ()
      ensures held == map[]
    {
      held := map[];
    }

    function EntryOf(id: nat): Option<Entry>
      reads this
    {
      if id in held then Some(held[id]) else None
    }

    /** Takes a hold; answers the object every holder of the account shares. */
    method HoldAccount(id: nat, account: Obj) returns (shared: Obj)
      modifies this
      ensures EntryOf(id) == Some(Held(old(EntryOf(id)), account)) && shared == held[id].obj
      ensures forall other :: other != id ==> EntryOf(other) == old(EntryOf(other))
    {
      if id in held {
        var entry := held[id];
        held := held[id := entry.(holders := entry.holders + 1)];
        return entry.obj;
      }
      held := held[id := Entry(account, 1)];
      return account;
    }

    /** Lets go; answers whether that was the last holder. */
    method ReleaseAccount(id: nat) returns (last: bool)
      modifies this
      ensures EntryOf(id) == Released(old(EntryOf(id)))
      ensures last <==> old(EntryOf(id)).Some? && EntryOf(id) == None
      ensures forall other :: other != id ==> EntryOf(other) == old(EntryOf(other))
    {
      if id !in held { return false; }
      var entry := held[id];
      if entry.holders > 1 {
        held := held[id := entry.(holders := entry.holders - 1)];
        return false;
      }
      held := held - {id};
      return true;
    }
  }

  // --- One account over time -------------------------------------------------

  /**
   * What an account is: the changes made to it, in order. A change is any function of the
   * account (see Meaning), so earlier content is a prefix of later content.
   */
  type Content = seq<nat>

  /** A queued save: of which object, for which session (None: the call in the lock), and what was there when asked. */
  datatype Write = Write(obj: Obj, session: Option<nat>, asked: Content)

  datatype Session = Session(obj: Obj, over: bool)

  /** The call holding the account's lock: the object it has loaded, or whether it waits for the read under way. */
  datatype Call = Call(loaded: Option<Obj>, waiting: bool)

  /** The read under way: what the file said once it was opened, and whether something new was stored since. */
  datatype Read = Read(seen: Option<Content>, behind: bool)

  datatype State = State(
    stored: Content, objects: seq<Content>, entry: Option<Entry>, sessions: seq<Session>, lock: Option<Call>,
    reading: Option<Read>, writes: seq<Write>, snapshot: Option<Content>,
    // Something changed, or the last write failed, since a save was last asked for.
    dirty: bool)

  datatype Event =
    | TakeLock | Load | Change(u: nat) | Save | Hold | LeaveLock
    | ReadElsewhere              // a reader without the lock asks for the account
    | ReadOpens | ReadSettles | ReadFails
    | SessionChange(who: nat, u: nat) | SessionSave(who: nat) | SessionRelease(who: nat)
    | WriteBegins | WriteLands | WriteFails

  predicate Playing(s: State, who: nat) {
    who < |s.sessions| && !s.sessions[who].over && s.sessions[who].obj < |s.objects|
  }

  predicate Loaded(s: State) {
    s.lock.Some? && s.lock.value.loaded.Some? && s.lock.value.loaded.value < |s.objects|
  }

  predicate Waiting(s: State) {
    s.lock.Some? && s.lock.value.waiting
  }

  predicate Enabled(s: State, e: Event) {
    match e
    case TakeLock => s.lock.None?
    case Load => s.lock.Some? && s.lock.value.loaded.None? && !s.lock.value.waiting
    case Change(_) => Loaded(s)
    case Save => Loaded(s)
    case Hold => Loaded(s)
      // A call leaves its lock when its own saves have settled.
    case LeaveLock => s.lock.Some? && !s.lock.value.waiting && forall w :: w in s.writes ==> w.session.Some?
    case ReadElsewhere => s.entry.None? && s.reading.None?
    case ReadOpens => s.reading.Some? && s.reading.value.seen.None?
    case ReadSettles => s.reading.Some? && s.reading.value.seen.Some?
    case ReadFails => s.reading.Some?
    case SessionChange(who, _) => Playing(s, who)
    case SessionSave(who) => Playing(s, who)
      // A session lets go when its own saves have settled.
    case SessionRelease(who) => Playing(s, who) && forall w :: w in s.writes ==> w.session != Some(who)
    case WriteBegins => s.writes != [] && s.snapshot.None? && s.writes[0].obj < |s.objects|
    case WriteLands => s.writes != [] && s.snapshot.Some?
    case WriteFails => s.writes != [] && s.snapshot.Some?
  }

  function Add(s: State, obj: Obj, u: nat): State
    requires obj < |s.objects|
  {
    s.(objects := s.objects[obj := s.objects[obj] + [u]], dirty := true)
  }

  /** The live object if there is one; else the read under way, or a new one. */
  function AfterLoad(s: State): State {
    if s.entry.Some? then s.(lock := Some(Call(Some(s.entry.value.obj), false)))
    else s.(lock := Some(Call(None, true)), reading := if s.reading.Some? then s.reading else Some(Read(None, false)))
  }

  /** The object a read makes goes to the call that waits for it; nobody else keeps one. */
  function AfterRead(s: State): State
    requires Enabled(s, ReadSettles)
  {
    var t := s.(reading := None);
    if !Waiting(s) then t
    else t.(objects := s.objects + [s.reading.value.seen.value],
            lock := Some(Call(Some(|s.objects|), false)), dirty := false)
  }

  function AfterLanding(s: State): State
    requires Enabled(s, WriteLands)
  {
    s.(stored := s.snapshot.value, writes := s.writes[1..], snapshot := None,
       reading := if s.reading.Some? && s.reading.value.seen.Some? && s.snapshot.value != s.stored
                  then Some(s.reading.value.(behind := true)) else s.reading)
  }

  function Next(s: State, e: Event): State {
    if !Enabled(s, e) then s else
    match e
    case TakeLock => s.(lock := Some(Call(None, false)))
    case Load => AfterLoad(s)
    case Change(u) => Add(s, s.lock.value.loaded.value, u)
    case Save =>
      var obj := s.lock.value.loaded.value;
      s.(writes := s.writes + [Write(obj, None, s.objects[obj])], dirty := false)
    case Hold =>
      var entry := Held(s.entry, s.lock.value.loaded.value);
      s.(entry := Some(entry), sessions := s.sessions + [Session(entry.obj, false)])
    case LeaveLock => s.(lock := None)
    case ReadElsewhere => s.(reading := Some(Read(None, false)))
    case ReadOpens => s.(reading := Some(Read(Some(s.stored), false)))
    case ReadSettles => AfterRead(s)
    case ReadFails => s.(reading := None, lock := if Waiting(s) then Some(Call(None, false)) else s.lock)
    case SessionChange(who, u) => Add(s, s.sessions[who].obj, u)
    case SessionSave(who) =>
      var obj := s.sessions[who].obj;
      s.(writes := s.writes + [Write(obj, Some(who), s.objects[obj])], dirty := false)
    case SessionRelease(who) =>
      s.(entry := Released(s.entry), sessions := s.sessions[who := s.sessions[who].(over := true)])
    case WriteBegins => s.(snapshot := Some(s.objects[s.writes[0].obj]))
    case WriteLands => AfterLanding(s)
    case WriteFails => s.(writes := s.writes[1..], snapshot := None, dirty := s.dirty || |s.writes| == 1)
  }

  function Run(s: State, es: seq<Event>): State
    decreases |es|
  {
    if es == [] then s else Run(Next(s, es[0]), es[1..])
  }

  function Fresh(stored: Content): State {
    State(stored, [], None, [], None, None, [], None, false)
  }

  // --- What always holds -----------------------------------------------------

  function Live(): Session -> int {
    (x: Session) => if x.over then 0 else 1
  }

  /** The object that is the account just now: the one being played, else the one in the lock. */
  function Current(s: State): Option<Obj> {
    if s.entry.Some? then Some(s.entry.value.obj)
    else if s.lock.Some? then s.lock.value.loaded
    else None
  }

  /** Everybody who has the account has the same object. */
  ghost predicate Shared(s: State) {
    && (s.entry.Some? ==> s.entry.value.obj < |s.objects| && s.entry.value.holders > 0)
    && Sum(Live(), s.sessions) == (if s.entry.Some? then s.entry.value.holders else 0)
    && (forall i :: 0 <= i < |s.sessions| && !s.sessions[i].over ==> Current(s) == Some(s.sessions[i].obj))
    && (s.lock.Some? && s.lock.value.loaded.Some? ==>
          s.lock.value.loaded.value < |s.objects| && Current(s) == s.lock.value.loaded)
    && (Waiting(s) ==> s.reading.Some? && s.entry.None? && s.lock.value.loaded.None?)
  }

  ghost predicate GoodWrite(s: State, w: Write) {
    && Current(s) == Some(w.obj) && w.obj < |s.objects| && w.asked <= s.objects[w.obj]
    && match w.session
       case None => s.lock.Some? && s.lock.value.loaded.Some?
       case Some(who) => who < |s.sessions| && !s.sessions[who].over
  }

  /** Every pending save is of the shared object, and what is being written holds what was asked of it. */
  ghost predicate Pending(s: State) {
    && (forall w :: w in s.writes ==> GoodWrite(s, w))
    && (s.snapshot.Some? ==>
          s.writes != [] && s.writes[0].obj < |s.objects|
          && s.writes[0].asked <= s.snapshot.value <= s.objects[s.writes[0].obj]
          && (!s.dirty && |s.writes| == 1 ==> s.snapshot.value == s.objects[s.writes[0].obj]))
  }

  /** True of every run whatever is joined. */
  ghost predicate Always(s: State) {
    Shared(s) && Pending(s)
  }

  /** The object in memory, and what is being written of it, is storage or later. */
  ghost predicate UpToDate(s: State) {
    && (Current(s).Some? ==> Current(s).value < |s.objects| && s.stored <= s.objects[Current(s).value])
    && (s.snapshot.Some? ==> s.stored <= s.snapshot.value)
    && (Waiting(s) && s.reading.Some? && s.reading.value.seen.Some? ==> s.reading.value.seen.value == s.stored)
    && (!s.dirty && Current(s).Some? && s.writes == [] ==> s.stored == s.objects[Current(s).value])
  }

  /** What a read under way has seen is storage, or an earlier version of it once something new has landed. */
  ghost predicate ReadKnown(s: State) {
    s.reading.Some? ==>
      match s.reading.value.seen
      case None => !s.reading.value.behind
      case Some(seen) => seen <= s.stored && (s.reading.value.behind <==> seen != s.stored)
  }

  ghost predicate Valid(s: State) {
    Always(s) && UpToDate(s) && ReadKnown(s)
  }

  predicate IsSessionEvent(e: Event) {
    e.Hold? || e.SessionRelease?
  }

  /** The steps that open or close a session. */
  lemma SessionStepKeepsShared(s: State, e: Event)
    requires Always(s) && Enabled(s, e) && IsSessionEvent(e)
    ensures Shared(Next(s, e))
  {
    var t := Next(s, e);
    NobodyLeft(t);
    match e
    case Hold =>
      SumAppend(Live(), s.sessions, t.sessions[|s.sessions|]);
    case SessionRelease(who) =>
      SumBounds(Live(), s.sessions, who);
      SumUpdate(Live(), s.sessions, who, t.sessions[who]);
  }

  /** The steps of calls, reads and writes leave the sessions alone. */
  lemma CallStepKeepsShared(s: State, e: Event)
    requires Always(s) && Enabled(s, e) && !IsSessionEvent(e)
    ensures Shared(Next(s, e))
  {
    NobodyLeft(s);
    assert Next(s, e).sessions == s.sessions;
  }

  /** Nobody is playing once the number of live sessions is zero. */
  lemma NobodyLeft(s: State)
    ensures Sum(Live(), s.sessions) == 0 ==> forall i :: 0 <= i < |s.sessions| ==> s.sessions[i].over
  {
    forall i | 0 <= i < |s.sessions|
      ensures Sum(Live(), s.sessions) >= Live()(s.sessions[i])
    {
      SumBounds(Live(), s.sessions, i);
    }
  }

  lemma NextKeepsWrite(s: State, e: Event, w: Write)
    requires Always(s) && Enabled(s, e) && Shared(Next(s, e)) && w in Next(s, e).writes
    ensures GoodWrite(Next(s, e), w)
  {
    if w in s.writes {
      assert GoodWrite(s, w);
      if e.SessionRelease? && w.session.Some? {
        SumBounds(Live(), Next(s, e).sessions, w.session.value);
      }
    }
  }

  lemma NextKeepsAlways(s: State, e: Event)
    requires Always(s)
    ensures Always(Next(s, e))
  {
    if Enabled(s, e) {
      if IsSessionEvent(e) { SessionStepKeepsShared(s, e); } else { CallStepKeepsShared(s, e); }
      forall w | w in Next(s, e).writes
        ensures GoodWrite(Next(s, e), w)
      {
        NextKeepsWrite(s, e, w);
      }
      FirstWriteIsGood(s);
    }
  }

  lemma FirstWriteIsGood(s: State)
    requires Always(s)
    ensures s.writes != [] ==> GoodWrite(s, s.writes[0])
    ensures Current(s).None? ==> s.writes == []
  {
    if s.writes != [] {
      assert s.writes[0] in s.writes;
    }
  }

  lemma {:induction false} AlwaysHolds(s: State, es: seq<Event>)
    requires Always(s)
    ensures Always(Run(s, es))
    decreases |es|
  {
    if es == [] {
    } else {
      NextKeepsAlways(s, es[0]);
      AlwaysHolds(Next(s, es[0]), es[1..]);
    }
  }

  /**
   * Whatever is joined and however saves fail: everybody playing the account and
   * the call in its lock have one object, every pending save is of that object, and
   * a save that lands leaves in storage what was there when it was asked for.
   */
  lemma OneObject(stored: Content, es: seq<Event>, i: nat, j: nat)
    ensures var s := Run(Fresh(stored), es);
            && (i < |s.sessions| && j < |s.sessions| && !s.sessions[i].over && !s.sessions[j].over ==>
                  s.sessions[i].obj == s.sessions[j].obj)
            && (i < |s.sessions| && !s.sessions[i].over && Loaded(s) ==>
                  s.sessions[i].obj == s.lock.value.loaded.value)
            && (forall w :: w in s.writes ==> Current(s) == Some(w.obj))
            && (Enabled(s, WriteLands) ==> s.writes[0].asked <= Next(s, WriteLands).stored)
  {
    AlwaysHolds(Fresh(stored), es);
    var s := Run(Fresh(stored), es);
    forall w | w in s.writes
      ensures Current(s) == Some(w.obj)
    {
      assert GoodWrite(s, w);
    }
  }

  // --- Joining a read --------------------------------------------------------

  /** The call in the lock is given a read that was opened before the last new version was stored. */
  predicate JoinsOldRead(s: State, e: Event) {
    e.Load? && Enabled(s, e) && s.entry.None? && s.reading.Some? && s.reading.value.behind
  }

  predicate NeverJoinsOld(s: State, es: seq<Event>)
    decreases |es|
  {
    es != [] ==> !JoinsOldRead(s, es[0]) && NeverJoinsOld(Next(s, es[0]), es[1..])
  }

  /** A load that may wait is given a read of what is stored now. */
  ghost predicate JoinsFresh(s: State, e: Event) {
    e.Load? && Enabled(s, e) && s.entry.None? && s.reading.Some? && s.reading.value.seen.Some? ==>
      s.reading.value.seen.value == s.stored
  }

  lemma NextKeepsUpToDate(s: State, e: Event)
    requires Always(s) && UpToDate(s) && JoinsFresh(s, e)
    ensures UpToDate(Next(s, e)) && s.stored <= Next(s, e).stored
  {
    if e.WriteBegins? || e.WriteLands? || e.WriteFails? {
      WritingKeepsUpToDate(s, e);
    } else {
      OthersKeepUpToDate(s, e);
    }
  }

  lemma WritingKeepsUpToDate(s: State, e: Event)
    requires Always(s) && UpToDate(s) && (e.WriteBegins? || e.WriteLands? || e.WriteFails?)
    ensures UpToDate(Next(s, e)) && s.stored <= Next(s, e).stored
  {
    FirstWriteIsGood(s);
  }

  lemma OthersKeepUpToDate(s: State, e: Event)
    requires Always(s) && UpToDate(s) && JoinsFresh(s, e)
    requires !e.WriteBegins? && !e.WriteLands? && !e.WriteFails?
    ensures UpToDate(Next(s, e)) && s.stored == Next(s, e).stored
  {
    FirstWriteIsGood(s);
  }

  lemma NextKeepsReadKnown(s: State, e: Event)
    requires Valid(s)
    ensures ReadKnown(Next(s, e))
  {
  }

  lemma NextKeepsValid(s: State, e: Event)
    requires Valid(s) && !JoinsOldRead(s, e)
    ensures Valid(Next(s, e)) && s.stored <= Next(s, e).stored
  {
    NextKeepsAlways(s, e);
    NextKeepsUpToDate(s, e);
    NextKeepsReadKnown(s, e);
  }

  /** While no call joins an old read, storage never loses a change it has. */
  lemma {:induction false} StoredNeverGoesBack(s: State, es: seq<Event>)
    requires Valid(s) && NeverJoinsOld(s, es)
    ensures Valid(Run(s, es)) && s.stored <= Run(s, es).stored
    decreases |es|
  {
    if es == [] {
    } else {
      NextKeepsValid(s, es[0]);
      StoredNeverGoesBack(Next(s, es[0]), es[1..]);
    }
  }

  lemma RunTwo(s: State, a: Event, b: Event)
    ensures Run(s, [a, b]) == Next(Next(s, a), b)
  {
    assert [a, b][1..] == [b] && [b][1..] == [];
    assert Run(Next(s, a), [b]) == Next(Next(s, a), b);
  }

  lemma RunThree(s: State, a: Event, b: Event, c: Event)
    ensures Run(s, [a, b, c]) == Next(Next(Next(s, a), b), c)
  {
    assert [a, b, c][1..] == [b, c];
    RunTwo(Next(s, a), b, c);
  }

  lemma RunFour(s: State, a: Event, b: Event, c: Event, d: Event)
    ensures Run(s, [a, b, c, d]) == Next(Next(Next(Next(s, a), b), c), d)
  {
    assert [a, b, c, d][1..] == [b, c, d];
    RunThree(Next(s, a), b, c, d);
  }

  const SAVES: seq<Event> := [Save, WriteBegins, WriteLands]

  /** A save on an empty queue, with nothing in between: storage becomes the object in the lock. */
  lemma SaveLandsAlone(s: State)
    requires Loaded(s) && s.writes == [] && s.snapshot.None?
    ensures var content := s.objects[s.lock.value.loaded.value];
            Run(s, SAVES) == s.(stored := content, dirty := false,
              reading := if s.reading.Some? && s.reading.value.seen.Some? && content != s.stored
                         then Some(s.reading.value.(behind := true)) else s.reading)
  {
    RunThree(s, Save, WriteBegins, WriteLands);
    var obj := s.lock.value.loaded.value;
    var asked := Next(s, Save);
    assert asked == s.(writes := [Write(obj, None, s.objects[obj])], dirty := false);
    var begun := Next(asked, WriteBegins);
    assert begun == asked.(snapshot := Some(s.objects[obj]));
    assert begun.writes[1..] == s.writes;
    var landed := Next(begun, WriteLands);
    assert landed == AfterLanding(begun);
  }

  /** The next call waits for the read under way, and is given what that read has seen. */
  lemma NextCallJoins(s: State)
    requires s.lock.Some? && !Waiting(s) && s.writes == [] && s.entry.None?
    requires s.reading.Some? && s.reading.value.seen.Some?
    ensures Run(s, [LeaveLock, TakeLock, Load, ReadSettles])
            == s.(objects := s.objects + [s.reading.value.seen.value], reading := None,
                  lock := Some(Call(Some(|s.objects|), false)), dirty := false)
  {
    RunFour(s, LeaveLock, TakeLock, Load, ReadSettles);
    LockIsTakenOver(s);
    CallJoinsRead(s.(lock := Some(Call(None, false))));
  }

  lemma LockIsTakenOver(s: State)
    requires s.lock.Some? && !Waiting(s) && s.writes == []
    ensures Next(Next(s, LeaveLock), TakeLock) == s.(lock := Some(Call(None, false)))
  {
  }

  lemma CallJoinsRead(s: State)
    requires s.lock == Some(Call(None, false)) && s.entry.None?
    requires s.reading.Some? && s.reading.value.seen.Some?
    ensures Next(Next(s, Load), ReadSettles)
            == s.(objects := s.objects + [s.reading.value.seen.value], reading := None,
                  lock := Some(Call(Some(|s.objects|), false)), dirty := false)
  {
    assert Next(s, Load) == s.(lock := Some(Call(None, true)));
  }

  /** What the call in the lock may do with an old read: save, and storage is the old version. */
  lemma OldReadOverwrites(s: State)
    requires Valid(s) && JoinsOldRead(s, Load)
    ensures var es := [ReadSettles] + SAVES;
            NeverJoinsOld(Next(s, Load), es) && !(s.stored <= Run(Next(s, Load), es).stored)
  {
    FirstWriteIsGood(s);
    var es := [ReadSettles] + SAVES;
    assert es[1..] == SAVES && NoLoads(SAVES) && NoLoads(es);
    NoLoadJoinsNothing(Next(s, Load), es);
    CallJoinsRead(s);
    var settled := Next(Next(s, Load), ReadSettles);
    assert settled.objects[|s.objects|] == s.reading.value.seen.value;
    SaveLandsAlone(settled);
  }

  predicate NoLoads(es: seq<Event>) {
    forall e :: e in es ==> !e.Load?
  }

  lemma {:induction false} NoLoadJoinsNothing(s: State, es: seq<Event>)
    requires NoLoads(es)
    ensures NeverJoinsOld(s, es)
    decreases |es|
  {
    if es == [] {
    } else {
      assert es[0] in es && forall e :: e in es[1..] ==> e in es;
      NoLoadJoinsNothing(Next(s, es[0]), es[1..]);
    }
  }

  /**
   * The exact condition. From a state in order, a step is safe (nothing stored is
   * lost by it or by anything after it that joins no old read) exactly when it does
   * not give the call in the lock a read opened before the last new version landed.
   */
  lemma JoinIsSafeIff(s: State, e: Event)
    requires Valid(s)
    ensures (forall es :: NeverJoinsOld(Next(s, e), es) ==> s.stored <= Run(Next(s, e), es).stored)
       <==> !JoinsOldRead(s, e)
  {
    if JoinsOldRead(s, e) {
      OldReadOverwrites(s);
    } else {
      NextKeepsValid(s, e);
      forall es | NeverJoinsOld(Next(s, e), es)
        ensures s.stored <= Run(Next(s, e), es).stored
      {
        StoredNeverGoesBack(Next(s, e), es);
      }
    }
  }

  lemma {:induction false} RunConcat(s: State, es: seq<Event>, more: seq<Event>)
    ensures Run(s, es + more) == Run(Run(s, es), more)
    decreases |es|
  {
    if es == [] {
      assert es + more == more;
    } else {
      assert (es + more)[1..] == es[1..] + more;
      RunConcat(Next(s, es[0]), es[1..], more);
    }
  }

  const LOADS: seq<Event> := [TakeLock, Load, ReadOpens, ReadSettles]
  const READER_OPENS: seq<Event> := [Change(1), ReadElsewhere, ReadOpens]
  const NEXT_CALL_JOINS: seq<Event> := [LeaveLock, TakeLock, Load, ReadSettles]
  const CHANGES: seq<Event> := [Change(2)]

  /** With nobody reading, a call loads what is stored. */
  lemma CallLoadsAlone(s: State)
    requires s.lock.None? && s.entry.None? && s.reading.None?
    ensures Run(s, LOADS)
            == s.(objects := s.objects + [s.stored], lock := Some(Call(Some(|s.objects|), false)), dirty := false)
  {
    RunFour(s, TakeLock, Load, ReadOpens, ReadSettles);
    var taken := Next(s, TakeLock);
    assert taken == s.(lock := Some(Call(None, false)));
    assert Next(taken, Load) == s.(lock := Some(Call(None, true)), reading := Some(Read(None, false)));
  }

  /** The call makes change 1, and a reader without the lock opens the file. */
  lemma ReaderOpensOldFile(s: State)
    requires Loaded(s) && s.entry.None? && s.reading.None?
    ensures var obj := s.lock.value.loaded.value;
            Run(s, READER_OPENS)
            == s.(objects := s.objects[obj := s.objects[obj] + [1]], dirty := true,
                  reading := Some(Read(Some(s.stored), false)))
  {
    RunThree(s, Change(1), ReadElsewhere, ReadOpens);
  }

  /** A call loads, makes change 1 and saves it; meanwhile a reader has opened the file as it was. */
  lemma FirstCallSaves(s: State)
    requires s.lock.None? && s.entry.None? && s.reading.None? && s.writes == [] && s.snapshot.None?
    ensures var t := Run(s, LOADS + READER_OPENS + SAVES);
            && t.stored == s.stored + [1] && t.reading == Some(Read(Some(s.stored), true))
            && t.lock.Some? && !Waiting(t) && t.writes == [] && t.snapshot.None? && t.entry.None?
  {
    RunConcat(s, LOADS + READER_OPENS, SAVES);
    RunConcat(s, LOADS, READER_OPENS);
    CallLoadsAlone(s);
    var loaded := Run(s, LOADS);
    ReaderOpensOldFile(loaded);
    var before := Run(loaded, READER_OPENS);
    SaveLandsAlone(before);
  }

  /** The next call joins the read under way, makes change 2 and saves it. */
  lemma SecondCallSaves(s: State)
    requires s.lock.Some? && !Waiting(s) && s.writes == [] && s.snapshot.None? && s.entry.None?
    requires s.reading.Some? && s.reading.value.seen.Some?
    ensures Run(s, NEXT_CALL_JOINS + CHANGES + SAVES).stored == s.reading.value.seen.value + [2]
  {
    RunConcat(s, NEXT_CALL_JOINS + CHANGES, SAVES);
    RunConcat(s, NEXT_CALL_JOINS, CHANGES);
    NextCallJoins(s);
    var joined := Run(s, NEXT_CALL_JOINS);
    assert CHANGES[1..] == [];
    var changed := Next(joined, Change(2));
    assert Run(joined, CHANGES) == changed;
    SaveLandsAlone(changed);
  }

  /**
   * A call saves change 1 while a reader without the lock has the old file open; the
   * next call joins that reader and saves change 2. Both saves complete, and the first
   * one's change is gone.
   */
  lemma CompletedSaveIsLost(stored: Content)
    ensures var first, second := LOADS + READER_OPENS + SAVES, NEXT_CALL_JOINS + CHANGES + SAVES;
            && Run(Fresh(stored), first).stored == stored + [1]
            && Run(Fresh(stored), first + second).stored == stored + [2]
  {
    FirstCallSaves(Fresh(stored));
    SecondCallSaves(Run(Fresh(stored), LOADS + READER_OPENS + SAVES));
    RunConcat(Fresh(stored), LOADS + READER_OPENS + SAVES, NEXT_CALL_JOINS + CHANGES + SAVES);
  }

  /** A call that waited for a read opened already holds what is stored exactly when that was not an old read. */
  lemma JoinedReadIsStorageIff(s: State)
    requires Valid(s) && Enabled(s, Load) && s.entry.None? && s.reading.Some? && s.reading.value.seen.Some?
    ensures var t := Next(Next(s, Load), ReadSettles);
            && Loaded(t) && t.writes == [] && !t.dirty
            && (t.objects[t.lock.value.loaded.value] == t.stored <==> !JoinsOldRead(s, Load))
  {
    FirstWriteIsGood(s);
  }

  // --- What a player and a call may rely on ----------------------------------

  /**
   * No lost update. From any stored account, under any interleaving of calls, reads,
   * sessions and writes in which no call joins an old read: what a completed save was
   * asked to keep is in storage from then on.
   */
  lemma NoLostUpdate(stored: Content, before: seq<Event>, after: seq<Event>)
    requires NeverJoinsOld(Fresh(stored), before)
    requires NeverJoinsOld(Next(Run(Fresh(stored), before), WriteLands), after)
    ensures var s := Run(Fresh(stored), before);
            && stored <= s.stored
            && (Enabled(s, WriteLands) ==>
                  var later := Run(Next(s, WriteLands), after).stored;
                  s.stored <= later && s.writes[0].asked <= later)
  {
    var s := Run(Fresh(stored), before);
    StoredNeverGoesBack(Fresh(stored), before);
    NextKeepsValid(s, WriteLands);
    StoredNeverGoesBack(Next(s, WriteLands), after);
  }

  /** With no write pending and nothing changed since the last request, storage is the account. */
  lemma QuietMeansStored(stored: Content, es: seq<Event>)
    requires NeverJoinsOld(Fresh(stored), es)
    ensures var s := Run(Fresh(stored), es);
            s.writes == [] && !s.dirty && Current(s).Some? ==>
              Current(s).value < |s.objects| && s.stored == s.objects[Current(s).value]
  {
    StoredNeverGoesBack(Fresh(stored), es);
  }

  /** Somebody plays the account all the way through. */
  predicate StaysHeld(s: State, es: seq<Event>)
    decreases |es|
  {
    s.entry.Some? && (es != [] ==> StaysHeld(Next(s, es[0]), es[1..]))
  }

  /**
   * While somebody plays the account no read is joined, so nothing more is needed:
   * from a live object no older than storage, nothing stored is lost until the last
   * holder lets go, and whenever nothing is pending storage is that object.
   */
  lemma {:induction false} HeldNeverGoesBack(s: State, es: seq<Event>)
    requires Always(s) && UpToDate(s) && StaysHeld(s, es)
    ensures var t := Run(s, es);
            && Always(t) && UpToDate(t) && s.stored <= t.stored
            && t.entry.Some? && t.entry.value.obj == s.entry.value.obj
            && (t.writes == [] && !t.dirty ==> t.stored == t.objects[t.entry.value.obj])
    decreases |es|
  {
    if es == [] {
    } else {
      HeldStep(s, es[0]);
      HeldNeverGoesBack(Next(s, es[0]), es[1..]);
    }
  }

  lemma HeldStep(s: State, e: Event)
    requires Always(s) && UpToDate(s) && s.entry.Some? && Next(s, e).entry.Some?
    ensures var t := Next(s, e);
            Always(t) && UpToDate(t) && s.stored <= t.stored && t.entry.value.obj == s.entry.value.obj
  {
    NextKeepsAlways(s, e);
    NextKeepsUpToDate(s, e);
  }

  /** Whatever was joined before, the first save to land makes the object in memory no older than storage. */
  lemma LandingCatchesUp(s: State)
    requires Always(s) && Enabled(s, WriteLands)
    ensures Always(Next(s, WriteLands)) && UpToDate(Next(s, WriteLands))
  {
    NextKeepsAlways(s, WriteLands);
    FirstWriteIsGood(s);
  }

  /** How many writes land in a run. */
  function Landings(s: State, es: seq<Event>): nat
    decreases |es|
  {
    if es == [] then 0
    else (if es[0].WriteLands? && Enabled(s, es[0]) then 1 else 0) + Landings(Next(s, es[0]), es[1..])
  }

  predicate NoFailure(es: seq<Event>) {
    forall e :: e in es ==> !e.WriteFails?
  }

  /** Once as many writes have landed as stood before it, and one more, what a save was asked to keep is stored. */
  lemma {:induction false} QueuedSaveLands(s: State, es: seq<Event>, k: nat)
    requires Valid(s) && NeverJoinsOld(s, es) && NoFailure(es)
    requires k < |s.writes| && Landings(s, es) > k
    ensures s.writes[k].asked <= Run(s, es).stored
    decreases |es|
  {
    var t := Next(s, es[0]);
    assert es[0] in es && forall e :: e in es[1..] ==> e in es;
    NextKeepsValid(s, es[0]);
    WriteMovesUp(s, es[0], k);
    if es[0].WriteLands? && Enabled(s, es[0]) {
      if k == 0 {
        StoredNeverGoesBack(t, es[1..]);
      } else {
        QueuedSaveLands(t, es[1..], k - 1);
      }
    } else {
      QueuedSaveLands(t, es[1..], k);
    }
  }

  /** A landing takes the first write out of the queue and stores what it was asked for; nothing else takes one out. */
  lemma WriteMovesUp(s: State, e: Event, k: nat)
    requires Always(s) && k < |s.writes| && !e.WriteFails?
    ensures var t := Next(s, e);
            if e.WriteLands? && Enabled(s, e)
            then t.writes == s.writes[1..] && s.writes[0].asked <= t.stored
            else k < |t.writes| && t.writes[k] == s.writes[k]
  {
  }

  /** Objects are added and added to, never replaced. */
  lemma {:induction false} ObjectsOnlyGrow(s: State, es: seq<Event>, obj: Obj)
    requires obj < |s.objects|
    ensures var t := Run(s, es); obj < |t.objects| && s.objects[obj] <= t.objects[obj]
    decreases |es|
  {
    if es == [] {
    } else {
      ObjectsOnlyGrow(Next(s, es[0]), es[1..], obj);
    }
  }

  /**
   * A change made by the call in the lock, anything in between, a save by that call,
   * anything in between again: once the writes queued by then have landed, none having
   * failed, the change is in storage. Before that the call may not leave its lock.
   */
  lemma SavedChangeLands(s: State, u: nat, between: seq<Event>, after: seq<Event>)
    requires Valid(s) && Loaded(s)
    requires NeverJoinsOld(Next(s, Change(u)), between)
    requires var t := Run(Next(s, Change(u)), between);
             Loaded(t) && t.lock.value.loaded == s.lock.value.loaded
    requires var asked := Next(Run(Next(s, Change(u)), between), Save);
             NeverJoinsOld(asked, after) && NoFailure(after) && Landings(asked, after) >= |asked.writes|
    ensures var asked := Next(Run(Next(s, Change(u)), between), Save);
            u in Run(asked, after).stored && !Enabled(asked, LeaveLock)
  {
    var changed := Next(s, Change(u));
    var obj := s.lock.value.loaded.value;
    NextKeepsValid(s, Change(u));
    StoredNeverGoesBack(changed, between);
    ObjectsOnlyGrow(changed, between, obj);
    var t := Run(changed, between);
    var asked := Next(t, Save);
    NextKeepsValid(t, Save);
    var k := |t.writes|;
    assert asked.writes[k] == Write(obj, None, t.objects[obj]) && asked.writes[k] in asked.writes;
    assert u in changed.objects[obj];
    QueuedSaveLands(asked, after, k);
  }

  // --- Changes take effect in order ------------------------------------------

  /** What some content makes of an account, whatever functions of it the changes are. */
  function Meaning<A>(apply: (nat, A) -> A, start: A, content: Content): A {
    if content == [] then start
    else apply(content[|content| - 1], Meaning(apply, start, content[..|content| - 1]))
  }

  lemma {:induction false} MeaningOfConcat<A>(apply: (nat, A) -> A, start: A, first: Content, second: Content)
    ensures Meaning(apply, start, first + second) == Meaning(apply, Meaning(apply, start, first), second)
  {
    if second == [] {
      assert first + second == first;
    } else {
      var all, init := first + second, second[..|second| - 1];
      assert all[..|all| - 1] == first + init && all[|all| - 1] == second[|second| - 1];
      MeaningOfConcat(apply, start, first, init);
    }
  }

  /** The change a step makes: by the call in the lock, or by a session. */
  function MadeBy(s: State, e: Event): Content {
    if !Enabled(s, e) then []
    else match e
         case Change(u) => [u]
         case SessionChange(_, u) => [u]
         case _ => []
  }

  function Made(s: State, es: seq<Event>): Content
    decreases |es|
  {
    if es == [] then [] else MadeBy(s, es[0]) + Made(Next(s, es[0]), es[1..])
  }

  /** The last to have the account lets go of it with something changed since a save was last asked for. */
  predicate Drops(s: State, e: Event) {
    Current(s).Some? && Current(Next(s, e)).None? && s.dirty
  }

  predicate NeverDrops(s: State, es: seq<Event>)
    decreases |es|
  {
    es != [] ==> !Drops(s, es[0]) && NeverDrops(Next(s, es[0]), es[1..])
  }

  /** The account in memory, or storage if nobody has it, is all the changes in the order they were made. */
  ghost predicate InOrder(s: State, all: Content) {
    match Current(s)
    case Some(obj) => obj < |s.objects| && s.objects[obj] == all
    case None => s.stored == all
  }

  lemma NextKeepsOrder(s: State, e: Event, all: Content)
    requires Valid(s) && InOrder(s, all)
    requires !JoinsOldRead(s, e) && !Drops(s, e) && !e.WriteFails?
    ensures InOrder(Next(s, e), all + MadeBy(s, e))
  {
    NextKeepsAlways(s, e);
    FirstWriteIsGood(s);
    FirstWriteIsGood(Next(s, e));
    assert all + [] == all;
  }

  lemma Regroup(a: Content, b: Content, c: Content)
    ensures (a + b) + c == a + (b + c)
  {
  }

  lemma {:induction false} RunKeepsOrder(s: State, es: seq<Event>, all: Content)
    requires Valid(s) && InOrder(s, all)
    requires NeverJoinsOld(s, es) && NeverDrops(s, es) && NoFailure(es)
    ensures Valid(Run(s, es)) && InOrder(Run(s, es), all + Made(s, es))
    decreases |es|
  {
    if es == [] {
      assert all + [] == all;
    } else {
      assert es[0] in es && forall e :: e in es[1..] ==> e in es;
      NextKeepsOrder(s, es[0], all);
      NextKeepsValid(s, es[0]);
      RunKeepsOrder(Next(s, es[0]), es[1..], all + MadeBy(s, es[0]));
      Regroup(all, MadeBy(s, es[0]), Made(Next(s, es[0]), es[1..]));
    }
  }

  /**
   * Calls and sessions may be taken one change after another. While no call joins an
   * old read, no save fails and nobody drops what it has not asked to save: whatever
   * functions of the account the changes are, and however loads, saves and writes
   * interleave, the account in memory is the stored one with the changes applied in
   * the order they were made; and so is storage once no write is pending and nothing
   * has changed since a save was last asked for.
   */
  lemma ChangesApplyInOrder<A>(apply: (nat, A) -> A, start: A, stored: Content, es: seq<Event>)
    requires NeverJoinsOld(Fresh(stored), es) && NeverDrops(Fresh(stored), es) && NoFailure(es)
    ensures var s := Run(Fresh(stored), es);
            var expected := Meaning(apply, Meaning(apply, start, stored), Made(Fresh(stored), es));
            && (Current(s).Some? ==>
                  Current(s).value < |s.objects| && Meaning(apply, start, s.objects[Current(s).value]) == expected)
            && (s.writes == [] && !s.dirty ==> Meaning(apply, start, s.stored) == expected)
  {
    RunKeepsOrder(Fresh(stored), es, stored);
    MeaningOfConcat(apply, start, stored, Made(Fresh(stored), es));
  }

  /** An account nobody plays and no call has loaded has nothing left to write. */
  lemma UnheldMeansSettled(stored: Content, es: seq<Event>)
    ensures var s := Run(Fresh(stored), es);
            Current(s).None? ==> s.writes == [] && forall i :: 0 <= i < |s.sessions| ==> s.sessions[i].over
  {
    AlwaysHolds(Fresh(stored), es);
    var s := Run(Fresh(stored), es);
    NobodyLeft(s);
    FirstWriteIsGood(s);
  }

  // --- Where content comes from ----------------------------------------------

  /**
   * Storage takes what is being written when the write lands, and nothing else; what is
   * written is the object as it is when the write begins. An object gains one change at
   * its end by a call in the lock or a session that has it, and one is made by a read,
   * of what the file said; what the file said is storage when it was opened.
   */
  lemma WhereContentComesFrom(s: State, e: Event, obj: nat)
    requires Enabled(s, e)
    ensures Next(s, e).stored == if e.WriteLands? then s.snapshot.value else s.stored
    ensures Next(s, e).snapshot == if e.WriteBegins? then Some(s.objects[s.writes[0].obj])
                                   else if e.WriteLands? || e.WriteFails? then None else s.snapshot
    ensures |Next(s, e).objects| == |s.objects| + if e.ReadSettles? && Waiting(s) then 1 else 0
    ensures e.ReadSettles? && Waiting(s) ==> Next(s, e).objects[|s.objects|] == s.reading.value.seen.value
    ensures e.ReadOpens? ==> Next(s, e).reading == Some(Read(Some(s.stored), false))
    ensures obj < |s.objects| ==>
              Next(s, e).objects[obj] == s.objects[obj] + match e
                case Change(u) => if s.lock.value.loaded == Some(obj) then [u] else []
                case SessionChange(who, u) => if s.sessions[who].obj == obj then [u] else []
                case _ => []
  {
  }

  /**
   * Who has the account: whoever takes the lock has loaded nothing yet; a load is given
   * the object being played, or waits for a read, and is given what that read makes; a
   * hold is one more session on the shared object, a release one less, the last one
   * freeing it; leaving the lock lets the next call take it.
   */
  lemma WhoHasTheAccount(s: State, e: Event)
    requires Enabled(s, e)
    ensures e.TakeLock? ==> Next(s, e).lock == Some(Call(None, false))
    ensures e.LeaveLock? ==> Next(s, e).lock.None? && Enabled(Next(s, e), TakeLock)
    ensures e.Load? && s.entry.Some? ==> Next(s, e).lock == Some(Call(Some(s.entry.value.obj), false))
    ensures e.Load? && s.entry.None? ==> Waiting(Next(s, e)) && Next(s, e).reading.Some?
    ensures e.ReadSettles? && Waiting(s) ==> Next(s, e).lock == Some(Call(Some(|s.objects|), false))
    ensures e.ReadFails? && Waiting(s) ==> Enabled(Next(s, e), Load)
    ensures e.ReadSettles? || e.ReadFails? ==> Next(s, e).reading.None?
    ensures e.Hold? ==>
              var obj := if s.entry.Some? then s.entry.value.obj else s.lock.value.loaded.value;
              Next(s, e).sessions == s.sessions + [Session(obj, false)]
    ensures e.SessionRelease? ==>
              && !Playing(Next(s, e), e.who)
              && (Next(s, e).entry.None? <==> s.entry.None? || s.entry.value.holders <= 1)
    ensures e.Save? || e.SessionSave? ==>
              var obj := if e.Save? then s.lock.value.loaded.value else s.sessions[e.who].obj;
              Next(s, e).writes ==
              s.writes + [Write(obj, if e.Save? then None else Some(e.who), s.objects[obj])]
    ensures e.WriteLands? || e.WriteFails? ==> Next(s, e).writes == s.writes[1..]
  {
  }
}
