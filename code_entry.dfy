/**
 * The six-slot verification code input: a paste distributes characters
 * over the slots, typing edits one slot, Backspace moves focus back, and
 * the form submits itself once every slot is filled.
 */
module CodeEntry {

  import opened Wrappers

  const Slots: nat := 6

  function Min(a: nat, b: nat): nat { if a <= b then a else b }

  /** A character outside the Basic Multilingual Plane takes two UTF-16 code units. */
  predicate InBmp(c: char) { c as int < 0x10000 }

  /** JavaScript's `value.length`: the number of UTF-16 code units. */
  function Utf16Length(s: string): (n: nat)
    ensures n >= |s|
  {
    if s == [] then 0 else (if InBmp(s[0]) then 1 else 2) + Utf16Length(s[1..])
  }

  /** `value.length <= 1` holds exactly for the empty value and for one BMP character. */
  lemma AtMostOneUnit(s: string)
    ensures Utf16Length(s) <= 1 <==> s == [] || (|s| == 1 && InBmp(s[0]))
  {
    if |s| >= 1 {
      assert Utf16Length(s) >= (if InBmp(s[0]) then 1 else 2) + |s[1..]|;
    }
  }

  /** The six slots after pasting `pasted`: one character each, `""` past its end, no filtering. */
  function PastedSlots(pasted: string): seq<string> {
    seq(Slots, i requires 0 <= i < Slots => if i < |pasted| then [pasted[i]] else "")
  }

  /**
   * The `for` loop of `handlePaste`: copies the current slots, then
   * overwrites all six with `pastedData.slice(0, 6).split("")[i] || ""`.
   */
  method DistributePaste(code: seq<string>, pasted: string) returns (newCode: seq<string>)
    requires |code| == Slots
    ensures newCode == PastedSlots(pasted)
  {
    var a := new string[Slots](i => if 0 <= i < |code| then code[i] else "");
    var pastedCode := pasted[..Min(Slots, |pasted|)];
    for i := 0 to Slots
      invariant forall k :: 0 <= k < i ==> a[k] == PastedSlots(pasted)[k]
    {
      a[i] := if i < |pastedCode| then [pastedCode[i]] else "";
    }
    newCode := a[..];
  }

  /** `Array.prototype.findLastIndex(d => d !== "")`: the last non-empty slot, or -1. */
  function LastFilledIndex(code: seq<string>): (r: int)
    ensures -1 <= r < |code|
    ensures r >= 0 ==> code[r] != ""
    ensures forall k :: r < k < |code| ==> code[k] == ""
  {
    if code == [] then -1
    else if code[|code| - 1] != "" then |code| - 1
    else LastFilledIndex(code[..|code| - 1])
  }

  /** The slot focused after a paste: one past the last filled slot, capped at the last slot. */
  function PasteFocus(newCode: seq<string>): (f: nat)
    requires |newCode| == Slots
    ensures f < Slots
  {
    var last := LastFilledIndex(newCode);
    if last < 5 then last + 1 else 5
  }

  /** After a paste, focus lands on the slot after the pasted text: 0 for nothing, at most slot 5. */
  lemma {:induction false} PasteFocusFollowsPaste(pasted: string)
    ensures PasteFocus(PastedSlots(pasted)) == Min(|pasted|, 5)
  {
    var s := PastedSlots(pasted);
    var n: int := Min(Slots, |pasted|);
    assert forall k :: 0 <= k < Slots ==> (s[k] != "" <==> k < n);
    var last := LastFilledIndex(s);
    assert last >= 0 ==> last < n;
    assert n >= 1 ==> s[n - 1] != "";
  }

  /** The focus after a key press in slot `index`: Backspace on an empty slot past the first moves back one. */
  function KeyDownFocus(code: seq<string>, index: nat, key: string, focus: Option<nat>): (f: Option<nat>)
    requires index < |code|
    ensures f != focus ==> key == "Backspace" && code[index] == "" && index > 0 && f == Some(index - 1)
    ensures key == "Backspace" && code[index] == "" && index > 0 ==> f == Some(index - 1)
  {
    if key == "Backspace" && code[index] == "" && index > 0 then Some(index - 1) else focus
  }

  /** `code.join("")` */
  function Join(code: seq<string>): string {
    if code == [] then "" else code[0] + Join(code[1..])
  }

  predicate AllFilled(code: seq<string>) {
    forall i :: 0 <= i < |code| ==> code[i] != ""
  }

  /** The auto-submit effect: fires with the joined code exactly when every slot is non-empty. */
  function AutoSubmit(code: seq<string>): (r: Option<string>)
    ensures r.Some? <==> AllFilled(code)
    ensures r.Some? ==> r.value == Join(code)
  {
    if AllFilled(code) then Some(Join(code)) else None
  }

  /** `disabled={isLoading || code.some((digit) => !digit)}` */
  function SubmitDisabled(isLoading: bool, code: seq<string>): bool {
    isLoading || exists i :: 0 <= i < |code| && code[i] == ""
  }

  /** The button is enabled exactly when not loading and the auto-submit would fire. */
  lemma SubmitEnabledIffAutoSubmit(isLoading: bool, code: seq<string>)
    ensures !SubmitDisabled(isLoading, code) <==> !isLoading && AutoSubmit(code).Some?
  {
  }

  /** Slots of at most one character each, all filled, join to one character per slot. */
  lemma {:induction false} JoinSingleChars(code: seq<string>)
    requires forall i :: 0 <= i < |code| ==> |code[i]| == 1
    ensures |Join(code)| == |code|
    ensures forall i :: 0 <= i < |code| ==> Join(code)[i] == code[i][0]
  {
    if code != [] {
      JoinSingleChars(code[1..]);
      assert forall i :: 1 <= i < |code| ==> Join(code)[i] == Join(code[1..])[i - 1];
    }
  }

  /**
   * Pasting six or more characters auto-submits exactly the first six of
   * them; a shorter paste leaves a slot empty and submits nothing.
   */
  lemma PasteThenSubmit(pasted: string)
    ensures AutoSubmit(PastedSlots(pasted)) == if |pasted| >= Slots then Some(pasted[..Slots]) else None
  {
    var s := PastedSlots(pasted);
    if |pasted| >= Slots {
      JoinSingleChars(s);
      assert Join(s) == pasted[..Slots];
    } else {
      assert s[|pasted|] == "";
    }
  }

  /** The page's state: the six slots, the focused slot, and the paste flag (`isPasting.current`). */
  class CodeEntryPage {
    var code: seq<string>
    var focus: Option<nat>
    var isPasting: bool

    /** Six slots of at most one character each, and focus on one of them. */
    ghost predicate Valid()
      reads this
    {
      |code| == Slots && (focus.Some? ==> focus.value < Slots) &&
      forall i :: 0 <= i < |code| ==> |code[i]| <= 1
    }

    constructor ()
      ensures Valid()
      ensures code == ["", "", "", "", "", ""] && focus == None && !isPasting
    {
      code, focus, isPasting := ["", "", "", "", "", ""], None, false;
    }

    /** `handlePaste`: replaces all six slots and focuses the slot after the pasted text. */
    method HandlePaste(pasted: string)
      requires Valid()
      modifies this
      ensures Valid()
      ensures isPasting
      ensures code == PastedSlots(pasted)
      ensures focus == Some(Min(|pasted|, 5))
    {
      isPasting := true;
      var newCode := DistributePaste(code, pasted);
      code := newCode;
      PasteFocusFollowsPaste(pasted);
      focus := Some(PasteFocus(newCode));
    }

    /**
     * `handleChange`: the change a paste triggers only clears the flag; a
     * value longer than one UTF-16 code unit is ignored; otherwise slot `index`
     * takes the value and focus moves on if it is non-empty and not last.
     */
    method HandleChange(index: nat, value: string)
      requires Valid() && index < Slots
      modifies this
      ensures Valid()
      ensures !isPasting
      ensures old(isPasting) ==> code == old(code) && focus == old(focus)
      ensures !old(isPasting) && Utf16Length(value) > 1 ==> code == old(code) && focus == old(focus)
      ensures !old(isPasting) && Utf16Length(value) <= 1 ==>
                && code == old(code)[index := value]
                && focus == (if value != "" && index < 5 then Some(index + 1) else old(focus))
    {
      if isPasting {
        isPasting := false;
        return;
      }
      if Utf16Length(value) > 1 {
        return;
      }
      code := code[index := value];
      if value != "" && index < 5 {
        focus := Some(index + 1);
      }
    }

    /** `handleKeyDown`: moves focus only; the slots are untouched. */
    method HandleKeyDown(index: nat, key: string)
      requires Valid() && index < Slots
      modifies this
      ensures Valid()
      ensures code == old(code) && isPasting == old(isPasting)
      ensures focus == KeyDownFocus(old(code), index, key, old(focus))
    {
      focus := KeyDownFocus(code, index, key, focus);
    }
  }

  /**
   * Typing one character into each slot in turn auto-submits the typed text.
   * The characters are BMP characters: `handleChange` ignores any other one.
   */
  method TypeSixCharacters(page: CodeEntryPage, c: string)
      returns (submitted: Option<string>)
    requires page.Valid() && !page.isPasting && |c| == Slots
    requires forall k :: 0 <= k < |c| ==> InBmp(c[k])
    modifies page
    ensures submitted == Some(c)
  {
    var i := 0;
    while i < Slots
      invariant 0 <= i <= Slots && page.Valid() && !page.isPasting
      invariant forall k :: 0 <= k < i ==> page.code[k] == [c[k]]
    {
      AtMostOneUnit([c[i]]);
      page.HandleChange(i, [c[i]]);
      i := i + 1;
    }
    submitted := AutoSubmit(page.code);
    JoinSingleChars(page.code);
    assert Join(page.code) == c;
  }
}
