/**
 * frontend/src/pages/VerifyCode.tsx: the six one-character cells of the
 * reset code, typing into a cell, pasting a code, the completeness test that
 * enables the verify button, and the reset after a resend.
 */
module VerifyCodePage {
  import opened Text

  const Cells: nat := 6

  /** `/^\d$/.test(value)`: exactly one ASCII digit. */
  predicate OneDigit(value: string) { |value| == 1 && IsDigit(value[0]) }

  /** What a cell can hold: nothing or one digit. */
  predicate CellValue(v: string) { v == "" || OneDigit(v) }

  predicate WellFormed(code: seq<string>) {
    |code| == Cells && forall i :: 0 <= i < |code| ==> CellValue(code[i])
  }

  /** `['', '', '', '', '', '']` */
  function EmptyCode(): (c: seq<string>)
    ensures WellFormed(c)
    ensures forall i :: 0 <= i < |c| ==> c[i] == ""
  {
    seq(Cells, _ => "")
  }

  /** `code.every(digit => digit !== '')` */
  predicate Complete(code: seq<string>) { forall i :: 0 <= i < |code| ==> code[i] != "" }

  /** `code.join('')` */
  function Joined(code: seq<string>): string {
    if code == [] then "" else code[0] + Joined(code[1..])
  }

  /** A complete code joins into exactly six digits. */
  lemma CompleteCodeIsSixDigits(code: seq<string>)
    requires WellFormed(code) && Complete(code)
    ensures |Joined(code)| == Cells && AllDigits(Joined(code))
  {
    OneCharCells(code);
  }

  lemma {:induction false} OneCharCells(code: seq<string>)
    requires forall i :: 0 <= i < |code| ==> OneDigit(code[i])
    ensures |Joined(code)| == |code| && AllDigits(Joined(code))
    decreases |code|
  {
    if code != [] {
      OneCharCells(code[1..]);
      assert Joined(code) == code[0] + Joined(code[1..]);
    }
  }

  /** The code after `handleCodeChange(index, value)`: unchanged for a value that is neither empty nor one digit. */
  function Typed(code: seq<string>, index: nat, value: string): (r: seq<string>)
    requires index < |code|
    ensures value != "" && !OneDigit(value) ==> r == code
    ensures CellValue(value) ==> r == code[index := value]
  {
    if value != "" && !OneDigit(value) then code else code[index := value]
  }

  /** The focus after typing: the next cell, but only from the first four cells. */
  function FocusAfterTyping(focus: int, index: nat, value: string): (r: int)
    ensures r != focus ==> CellValue(value) && value != "" && index < 4 && r == index + 1
  {
    if value != "" && !OneDigit(value) then focus
    else if value != "" && index < 4 then index + 1
    else focus
  }

  /** Typing keeps every cell empty or one digit. */
  lemma TypingKeepsWellFormed(code: seq<string>, index: nat, value: string)
    requires WellFormed(code) && index < |code|
    ensures WellFormed(Typed(code, index, value))
  {
  }

  /** A digit typed into the fifth cell leaves the focus there: the sixth cell is not reached by typing. */
  lemma FifthCellKeepsFocus()
    ensures FocusAfterTyping(4, 4, "7") == 4
    ensures FocusAfterTyping(3, 3, "7") == 4
  {
  }

  /** The code after pasting `text`: its first six characters, each digit written over the cell at its position. */
  function Pasted(code: seq<string>, text: string): (r: seq<string>)
    ensures |r| == |code|
    ensures forall i :: 0 <= i < |code| ==> r[i] == (if i < |text| && i < Cells && IsDigit(text[i]) then [text[i]] else code[i])
  {
    seq(|code|, i requires 0 <= i < |code| => if i < |text| && i < Cells && IsDigit(text[i]) then [text[i]] else code[i])
  }

  /** `newCode.findIndex(c => !c)` */
  function FirstEmpty(code: seq<string>): (r: int)
    ensures r == -1 <==> Complete(code)
    ensures r != -1 ==> (0 <= r < |code| && code[r] == "" && forall j :: 0 <= j < r ==> code[j] != "")
  {
    if code == [] then -1
    else if code[0] == "" then 0
    else
      var k := FirstEmpty(code[1..]);
      if k == -1 then -1 else k + 1
  }

  /** The focus after a paste: the first empty cell, or the fifth cell when none is empty. */
  function FocusAfterPaste(code: seq<string>): (r: int)
    ensures Complete(code) ==> r == 4
    ensures !Complete(code) ==> 0 <= r < |code| && code[r] == ""
  {
    var k := FirstEmpty(code);
    if k != -1 then k else 4
  }

  /** Pasting keeps every cell empty or one digit. */
  lemma PasteKeepsWellFormed(code: seq<string>, text: string)
    requires WellFormed(code)
    ensures WellFormed(Pasted(code, text))
  {
  }

  /** Pasting six digits fills the code with exactly those digits, whatever was typed before. */
  lemma PasteSixDigits(code: seq<string>, text: string)
    requires WellFormed(code)
    requires |text| >= Cells && AllDigits(text[..Cells])
    ensures Complete(Pasted(code, text))
    ensures Joined(Pasted(code, text)) == text[..Cells]
  {
    var p := Pasted(code, text);
    assert forall i :: 0 <= i < Cells ==> p[i] == [text[i]];
    JoinedSingles(p, text[..Cells]);
  }

  lemma {:induction false} JoinedSingles(cells: seq<string>, s: string)
    requires |cells| == |s|
    requires forall i :: 0 <= i < |s| ==> cells[i] == [s[i]]
    ensures Joined(cells) == s
    decreases |s|
  {
    if s != [] {
      JoinedSingles(cells[1..], s[1..]);
      assert s == [s[0]] + s[1..];
    }
  }

  /** A paste with no digits changes nothing. */
  lemma PasteWithoutDigits(code: seq<string>, text: string)
    requires forall i :: 0 <= i < |text| ==> !IsDigit(text[i])
    ensures Pasted(code, text) == code
  {
  }

  /** The page's cells and the cell that has the focus. */
  class VerifyCodeForm {
    var code: seq<string>
    var focus: int
    var error: string

    predicate Valid()
      reads this
    {
      WellFormed(code)
    }

    /** The initial state: six empty cells, the first one focused. */
    constructor()
      ensures Valid() && code == EmptyCode() && focus == 0 && error == ""
    {
      code := EmptyCode();
      focus := 0;
      error := "";
    }

    /** `handleCodeChange(index, value)`: a copy of the cells with one entry written. */
    method CodeChange(index: nat, value: string)
      requires Valid() && index < |code|
      modifies this
      ensures Valid()
      ensures code == Typed(old(code), index, value)
      ensures focus == FocusAfterTyping(old(focus), index, value)
      ensures error == old(error)
    {
      if value != "" && !OneDigit(value) {
        return;
      }
      var before := code;
      var newCode := new string[|before|](i requires 0 <= i < |before| => before[i]);
      newCode[index] := value;
      code := newCode[..];
      if value != "" && index < 4 {
        focus := index + 1;
      }
    }

    /** `handlePaste`: the first six characters, each digit written into a copy of the cells. */
    method Paste(clipboard: string)
      requires Valid()
      modifies this
      ensures Valid()
      ensures code == Pasted(old(code), clipboard)
      ensures focus == FocusAfterPaste(code)
      ensures error == old(error)
    {
      var pastedData := Take(clipboard, Cells);
      var before := code;
      var newCode := new string[|before|](i requires 0 <= i < |before| => before[i]);
      for i := 0 to |pastedData|
        invariant newCode.Length == |before|
        invariant forall k :: 0 <= k < newCode.Length ==>
          newCode[k] == (if k < i && IsDigit(pastedData[k]) then [pastedData[k]] else before[k])
        invariant code == before && error == old(error)
      {
        if IsDigit(pastedData[i]) {
          newCode[i] := [pastedData[i]];
        }
      }
      code := newCode[..];
      LaterCellsUntouched(old(code), clipboard);
      PasteKeepsWellFormed(old(code), clipboard);
      var next := FirstEmpty(code);
      if next != -1 {
        focus := next;
      } else {
        focus := 4;
      }
    }

    /** `handleKeyDown`: Backspace in an empty cell other than the first moves the focus back. */
    method KeyDown(index: nat, backspace: bool)
      requires Valid() && index < |code|
      modifies this
      ensures code == old(code) && error == old(error)
      ensures focus == (if backspace && code[index] == "" && index > 0 then index - 1 else old(focus))
    {
      if backspace && code[index] == "" && index > 0 {
        focus := index - 1;
      }
    }

    /** `handleResendEmail`: a resend that goes through empties the cells; a failure keeps them and shows the error. */
    method Resend(sent: bool, failure: string)
      requires Valid()
      modifies this
      ensures Valid()
      ensures sent ==> code == EmptyCode() && focus == 0 && error == ""
      ensures !sent ==> code == old(code) && focus == old(focus) && error == failure
    {
      error := "";
      if sent {
        code := EmptyCode();
        focus := 0;
      } else {
        error := failure;
      }
    }
  }

  /** The paste loop visits at most six characters, so one within six cells reads them all. */
  lemma LaterCellsUntouched(code: seq<string>, clipboard: string)
    requires |code| == Cells
    ensures var p := Take(clipboard, Cells);
      forall k :: 0 <= k < |code| ==>
        (k < |p| && IsDigit(p[k])) == (k < |clipboard| && k < Cells && IsDigit(clipboard[k]))
  {
  }
}
