/** The capture field shared by the capture bar and the capture input: the
    text typed so far and the `submit` guard that hands a trimmed, non-blank
    text to the screen and clears the field. */
module Capture {
  import opened Wrappers
  import opened Text
  import opened Items

  class CaptureField {
    /** The `text` state. */
    var text: string
    /** Every value passed to `onSubmit`, oldest first. */
    var handedOff: seq<string>

    constructor()
      ensures text == "" && handedOff == []
    {
      text := "";
      handedOff := [];
    }

    /** `onChangeText`. */
    method Type(s: string)
      modifies this
      ensures text == s && handedOff == old(handedOff)
    {
      text := s;
    }

    /** `submit()`: trim; nothing happens for a blank text; otherwise hand
        the trimmed text off once and clear the field. */
    method Submit()
      modifies this
      ensures IsBlank(old(text)) ==> text == old(text) && handedOff == old(handedOff)
      ensures !IsBlank(old(text)) ==> handedOff == old(handedOff) + [Trim(old(text))] && text == ""
      ensures !IsBlank(old(text)) ==> handedOff[|handedOff| - 1] != "" && IsTrimmed(handedOff[|handedOff| - 1])
    {
      TrimTrims(text);
      var v := Trim(text);
      if v == "" {
        return;
      }
      handedOff := handedOff + [v];
      text := "";
    }

    /** Two submits in a row hand off at most once: the first clears the
        field, which makes the second a no-op. */
    method SubmitTwice()
      modifies this
      ensures IsBlank(old(text)) ==> text == old(text) && handedOff == old(handedOff)
      ensures !IsBlank(old(text)) ==> handedOff == old(handedOff) + [Trim(old(text))] && text == ""
    {
      Submit();
      Submit();
    }
  }

  /** The store's own trim keeps a captured title as it was handed off: the
      item is created with exactly that non-empty title. */
  lemma CapturedTitleKept(v: string, meta: ItemPatch, id: string)
    requires v != "" && IsTrimmed(v)
    ensures NewItem(v, meta, id).title == v
    ensures NewItem(v, meta, id).title != ""
  {
    TrimOfTrimmed(v);
  }

  /** A submitted text becomes an item whose title is the text without its
      surrounding whitespace, and never an empty title. */
  lemma SubmittedTextMakesTitledItem(text: string, meta: ItemPatch, id: string)
    requires !IsBlank(text)
    ensures NewItem(Trim(text), meta, id).title == Trim(text) != ""
  {
    TrimTrims(text);
    CapturedTitleKept(Trim(text), meta, id);
  }
}
