/**
 The speaker rubric (view/planning/RubricController.java): a list of
 speakers that only accepts entries whose code, first name and last name
 are all non-empty, and a code field that only takes single-digit edits.
 */
module Rubric {

  /** RubricController.Speaker. */
  datatype Speaker = Speaker(code: string, firstName: string, lastName: string)

  /**
   `addPerson()`: the entry is appended, after every earlier one, exactly
   when its three fields are non-empty; there is no duplicate check.
   */
  function AddPerson(speakers: seq<Speaker>, code: string, firstName: string, lastName: string): (r: seq<Speaker>)
    ensures |speakers| <= |r| <= |speakers| + 1
    ensures |r| > |speakers| <==> code != "" && firstName != "" && lastName != ""
    ensures r[..|speakers|] == speakers
    ensures |r| > |speakers| ==> r[|speakers|] == Speaker(code, firstName, lastName)
  {
    if code != "" && firstName != "" && lastName != "" then
      var r := speakers + [Speaker(code, firstName, lastName)];
      assert r[..|speakers|] == speakers;
      r
    else
      speakers
  }

  /** A code already in the list is accepted again. */
  lemma AddPersonAcceptsDuplicateCode(speakers: seq<Speaker>, i: int, firstName: string, lastName: string)
    requires 0 <= i < |speakers| && speakers[i].code != ""
    requires firstName != "" && lastName != ""
    ensures AddPerson(speakers, speakers[i].code, firstName, lastName)
         == speakers + [Speaker(speakers[i].code, firstName, lastName)]
  {
  }

  // ---------------------------------------------------------------- code field

  /** A java.util.regex `\d`: an ASCII digit. */
  predicate IsDigit(c: char) {
    '0' <= c <= '9'
  }

  predicate AllDigits(s: string) {
    forall i :: 0 <= i < |s| ==> IsDigit(s[i])
  }

  /**
   A TextFormatter change: the text between `start` and `end` is replaced by
   `text` (an insertion has start == end, a deletion an empty text).
   */
  datatype Change = Change(start: nat, end: nat, text: string)

  predicate Fits(content: string, ch: Change) {
    ch.start <= ch.end <= |content|
  }

  /** The code field's filter: the inserted text must be exactly one digit. */
  function AcceptsChange(ch: Change): (ok: bool)
    ensures ok <==> |ch.text| == 1 && AllDigits(ch.text)
  {
    |ch.text| == 1 && IsDigit(ch.text[0])
  }

  /** The field's content after the change, if the filter lets it through. */
  function Edit(content: string, ch: Change): (r: string)
    requires Fits(content, ch)
    ensures !AcceptsChange(ch) ==> r == content
    ensures AcceptsChange(ch) ==> |r| == |content| - (ch.end - ch.start) + 1
    ensures AllDigits(content) ==> AllDigits(r)
  {
    if AcceptsChange(ch) then
      var r := content[..ch.start] + ch.text + content[ch.end..];
      assert forall i :: 0 <= i < |r| ==> r[i] in content || r[i] == ch.text[0];
      r
    else
      content
  }

  /** A digit typed at the end of the field is appended to it. */
  lemma TypedDigitAppends(content: string, c: char)
    requires IsDigit(c)
    ensures Edit(content, Change(|content|, |content|, [c])) == content + [c]
  {
    assert content[..|content|] == content;
    assert content[|content|..] == [];
  }

  /**
   The field after a history of changes, oldest first. A change whose range
   does not fit is skipped; JavaFX never produces one.
   */
  function TypeInto(content: string, changes: seq<Change>): string
    decreases |changes|
  {
    if changes == [] then content
    else
      var before := TypeInto(content, changes[..|changes| - 1]);
      var ch := changes[|changes| - 1];
      if Fits(before, ch) then Edit(before, ch) else before
  }

  /**
   Whatever the user types or pastes, a code field that starts empty holds
   only digits, and no longer than the number of accepted changes.
   */
  lemma {:induction false} CodeFieldHoldsDigits(changes: seq<Change>)
    ensures AllDigits(TypeInto("", changes))
    ensures |TypeInto("", changes)| <= |changes|
    decreases |changes|
  {
    if changes != [] {
      CodeFieldHoldsDigits(changes[..|changes| - 1]);
    }
  }
}
