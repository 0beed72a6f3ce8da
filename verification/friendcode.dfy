// The code a player reads out to be added as a friend: the account id in base 32.
module FriendCode {
  import opened Options

  const ALPHABET: string := "ABCDEFGHJKLMNPQRTUVWXY0123456789"
  const PAD: char := ALPHABET[0]
  const MAX_SAFE: nat := 0x1F_FFFF_FFFF_FFFF

  // --- Digits ----------------------------------------------------------------

  function IndexFrom(c: char, k: nat): (d: Option<nat>)
    requires k <= |ALPHABET|
    ensures d.Some? ==> k <= d.value < |ALPHABET| && ALPHABET[d.value] == c
    ensures d.None? ==> forall j :: k <= j < |ALPHABET| ==> ALPHABET[j] != c
    decreases |ALPHABET| - k
  {
    if k == |ALPHABET| then None
    else if ALPHABET[k] == c then Some(k)
    else IndexFrom(c, k + 1)
  }

  function Digit(c: char): (d: Option<nat>)
    ensures d.Some? ==> d.value < 32 && ALPHABET[d.value] == c
  {
    IndexFrom(c, 0)
  }

  /** Letters stand in rising order before the digits, which stand in rising order. */
  lemma AlphabetIsOrdered(i: nat, j: nat)
    requires i < j < 32
    ensures if i < 22 <= j then ALPHABET[j] < ALPHABET[i] else ALPHABET[i] < ALPHABET[j]
  {
  }

  lemma DigitOf(d: nat)
    requires d < 32
    ensures Digit(ALPHABET[d]) == Some(d)
  {
    var e := Digit(ALPHABET[d]).value;
    if e < d {
      AlphabetIsOrdered(e, d);
    } else if d < e {
      AlphabetIsOrdered(d, e);
    }
  }

  // --- Writing a code --------------------------------------------------------

  function Encode(id: nat): string {
    if id == 0 then "" else Encode(id / 32) + [ALPHABET[id % 32]]
  }

  function Pads(n: nat): string {
    if n == 0 then "" else [PAD] + Pads(n - 1)
  }

  function PadStart(code: string): string {
    if |code| >= 6 then code else Pads(6 - |code|) + code
  }

  function FriendCodeOf(id: int): Option<string> {
    if id <= 0 then None
    else
      Some(PadStart(Encode(id)))
  }

  method WriteFriendCode(account: int) returns (code: Option<string>)
    ensures code == FriendCodeOf(account)
  {
    if account <= 0 { return None; }
    var id: nat, text := account, "";
    while id > 0
      invariant Encode(id) + text == Encode(account)
    {
      var letter := ALPHABET[id % 32];
      assert (Encode(id / 32) + [letter]) + text == Encode(id / 32) + ([letter] + text);
      text := [letter] + text;
      id := id / 32;
    }
    assert text == Encode(account);
    return Some(PadStart(text));
  }

  // --- Reading one -----------------------------------------------------------

  /** The number after reading the rest of the text onto id; None when it stops making sense. */
  function ReadOnto(text: string, id: nat): Option<nat>
    decreases |text|
  {
    if text == "" then Some(id)
    else if Digit(text[0]).None? then None
    else
      var next := id * 32 + Digit(text[0]).value;
      if next > MAX_SAFE then None else ReadOnto(text[1..], next)
  }

  function AccountIdFromCode(text: string): Option<nat> {
    if text == "" then None
    else
      var id := ReadOnto(text, 0);
      if id.Some? && id.value > 0 then id else None
  }

  method ReadFriendCode(text: string) returns (account: Option<nat>)
    ensures account == AccountIdFromCode(text)
  {
    if text == "" { return None; }
    var id: nat := 0;
    for k := 0 to |text|
      invariant ReadOnto(text[k..], id) == ReadOnto(text, 0)
    {
      assert text[k..][0] == text[k] && text[k..][1..] == text[k + 1..];
      var digit := Digit(text[k]);
      if digit.None? { return None; }
      id := id * 32 + digit.value;
      if id > MAX_SAFE { return None; }
    }
    return if id > 0 then Some(id) else None;
  }

  // --- What a code means -----------------------------------------------------

  predicate IsCode(text: string) {
    forall k :: 0 <= k < |text| ==> Digit(text[k]).Some?
  }

  /** The number a text spells in base 32, whatever its size. */
  function Value(text: string): nat
    requires IsCode(text)
  {
    if text == "" then 0 else 32 * Value(text[..|text| - 1]) + Digit(text[|text| - 1]).value
  }

  /** A number moved n places to the left. */
  function Place(d: nat, n: nat): (moved: nat)
    ensures moved >= d
  {
    if n == 0 then d else 32 * Place(d, n - 1)
  }

  /** Reading from the front and counting from the back agree. */
  lemma {:induction false} ValueFromFront(text: string)
    requires IsCode(text) && text != ""
    ensures Value(text) == Place(Digit(text[0]).value, |text| - 1) + Value(text[1..])
    decreases |text|
  {
    if |text| == 1 {
    } else {
      var init, rest := text[..|text| - 1], text[1..];
      ValueFromFront(init);
      assert init[1..] == rest[..|text| - 2];
    }
  }

  /** The reader succeeds on letters of the alphabet while the number is safe, and on nothing else. */
  lemma {:induction false} ReadOntoIsValue(text: string, id: nat)
    requires id <= MAX_SAFE
    ensures ReadOnto(text, id).Some? <==> IsCode(text) && Place(id, |text|) + Value(text) <= MAX_SAFE
    ensures ReadOnto(text, id).Some? ==> ReadOnto(text, id).value == Place(id, |text|) + Value(text)
    decreases |text|
  {
    if text == "" {
    } else {
      assert IsCode(text) <==> Digit(text[0]).Some? && IsCode(text[1..]) by {
        assert text == [text[0]] + text[1..];
      }
      if Digit(text[0]).Some? {
        var next := id * 32 + Digit(text[0]).value;
        if IsCode(text[1..]) {
          ValueFromFront(text);
          OneDigitOn(id, Digit(text[0]).value, |text| - 1);
        }
        if next <= MAX_SAFE {
          ReadOntoIsValue(text[1..], next);
        }
      }
    }
  }

  lemma {:induction false} OneDigitOn(id: nat, digit: nat, n: nat)
    ensures Place(id * 32 + digit, n) == Place(id, n + 1) + Place(digit, n)
  {
    if n == 0 {
    } else {
      OneDigitOn(id, digit, n - 1);
    }
  }

  lemma {:induction false} NothingPlaced(n: nat)
    ensures Place(0, n) == 0
  {
    if n == 0 {
    } else {
      NothingPlaced(n - 1);
    }
  }

  /**
   * A code reads as an account exactly when every character is in the alphabet and
   * the number it spells is positive and safe; it reads as that number.
   */
  lemma ReadsIff(text: string, id: nat)
    ensures AccountIdFromCode(text) == Some(id) <==> IsCode(text) && Value(text) == id && 0 < id <= MAX_SAFE
  {
    ReadOntoIsValue(text, 0);
    NothingPlaced(|text|);
  }

  lemma {:induction false} EncodeSpells(id: nat)
    ensures IsCode(Encode(id)) && Value(Encode(id)) == id
  {
    if id == 0 {
    } else {
      EncodeSpells(id / 32);
      DigitOf(id % 32);
      assert Encode(id)[..|Encode(id)| - 1] == Encode(id / 32);
    }
  }

  lemma {:induction false} PadsMeanNothing(n: nat, text: string)
    ensures IsCode(Pads(n) + text) <==> IsCode(text)
    ensures IsCode(text) ==> Value(Pads(n) + text) == Value(text)
  {
    if n == 0 {
      assert Pads(0) + text == text;
    } else {
      PadsMeanNothing(n - 1, text);
      OnePadMeansNothing(Pads(n - 1) + text);
      assert Pads(n) + text == [PAD] + (Pads(n - 1) + text);
    }
  }

  lemma OnePadMeansNothing(text: string)
    ensures IsCode([PAD] + text) <==> IsCode(text)
    ensures IsCode(text) ==> Value([PAD] + text) == Value(text)
  {
    DigitOf(0);
    var padded := [PAD] + text;
    assert padded[1..] == text;
    assert IsCode(padded) ==> IsCode(text) by {
      forall k | 0 <= k < |text|
        ensures text[k] == padded[k + 1]
      {
      }
    }
    if IsCode(text) {
      ValueFromFront(padded);
      NothingPlaced(|text|);
    }
  }

  /** Every positive safe id comes back from its own code. */
  lemma CodeRoundTrip(id: nat)
    requires 0 < id <= MAX_SAFE
    ensures FriendCodeOf(id).Some? && AccountIdFromCode(FriendCodeOf(id).value) == Some(id)
  {
    EncodeSpells(id);
    var code := Encode(id);
    if |code| < 6 {
      PadsMeanNothing(6 - |code|, code);
    }
    ReadsIff(FriendCodeOf(id).value, id);
  }

  /** Past the safe range an id still has a code, and that code reads as nothing rather than as somebody else. */
  lemma UnsafeReadsAsNothing(id: nat)
    requires id > MAX_SAFE
    ensures FriendCodeOf(id).Some? && AccountIdFromCode(FriendCodeOf(id).value) == None
  {
    EncodeSpells(id);
    var code := Encode(id);
    if |code| < 6 {
      PadsMeanNothing(6 - |code|, code);
    }
    if AccountIdFromCode(FriendCodeOf(id).value).Some? {
      ReadsIff(FriendCodeOf(id).value, AccountIdFromCode(FriendCodeOf(id).value).value);
    }
  }

  /** No two accounts share a code, whatever the size of their ids. */
  lemma CodesDiffer(a: nat, b: nat)
    requires 0 < a && 0 < b && a != b
    ensures FriendCodeOf(a) != FriendCodeOf(b)
  {
    CodeSpells(a);
    CodeSpells(b);
  }

  lemma CodeSpells(id: nat)
    requires id > 0
    ensures var code := FriendCodeOf(id); code.Some? && IsCode(code.value) && Value(code.value) == id
  {
    EncodeSpells(id);
    if |Encode(id)| < 6 {
      PadsMeanNothing(6 - |Encode(id)|, Encode(id));
    }
  }

  /** One pad letter too many, or ten, names the same person, or still nobody. */
  lemma LeadingPadsReadTheSame(n: nat, text: string)
    ensures AccountIdFromCode(Pads(n) + text) == AccountIdFromCode(text)
  {
    PadsMeanNothing(n, text);
    ReadOntoIsValue(Pads(n) + text, 0);
    ReadOntoIsValue(text, 0);
    NothingPlaced(|Pads(n) + text|);
    NothingPlaced(|text|);
  }

  function Stripped(text: string): string {
    if text != "" && text[0] == PAD then Stripped(text[1..]) else text
  }

  lemma {:induction false} StrippedSpells(text: string)
    requires IsCode(text)
    ensures IsCode(Stripped(text)) && Value(Stripped(text)) == Value(text)
    ensures Stripped(text) == "" || Stripped(text)[0] != PAD
    decreases |text|
  {
    if text != "" && text[0] == PAD {
      assert text == Pads(1) + text[1..] by {
        assert Pads(0) == "";
      }
      PadsMeanNothing(1, text[1..]);
      StrippedSpells(text[1..]);
    }
  }

  /** A text without leading pads is the only one that spells its number. */
  lemma {:induction false} EncodeOfValue(text: string)
    requires IsCode(text) && (text == "" || text[0] != PAD)
    ensures Encode(Value(text)) == text
    decreases |text|
  {
    if text == "" {
    } else {
      var init, last := text[..|text| - 1], Digit(text[|text| - 1]).value;
      EncodeOfValue(init);
      assert Value(text) / 32 == Value(init) && Value(text) % 32 == last;
      assert init + [text[|text| - 1]] == text;
    }
  }

  /** Two codes name one account exactly when they differ in leading pads alone. */
  lemma SameAccountIff(a: string, b: string)
    requires AccountIdFromCode(a).Some? && AccountIdFromCode(b).Some?
    ensures AccountIdFromCode(a) == AccountIdFromCode(b) <==> Stripped(a) == Stripped(b)
  {
    ReadsIff(a, AccountIdFromCode(a).value);
    ReadsIff(b, AccountIdFromCode(b).value);
    StrippedSpells(a);
    StrippedSpells(b);
    EncodeOfValue(Stripped(a));
    EncodeOfValue(Stripped(b));
  }
}
