/**
 * Digital buttons (main.py, `BUTTON_MASKS`, `is_pressed`, and the
 * button list `BUTTON_CHOICES` the settings window offers).
 */
module Buttons {

  /** `BUTTON_MASKS`: button name to its bit in XInput's `wButtons`. */
  const ButtonMasks: map<string, bv16> := map[
    "None" := 0x0000,
    "A" := 0x1000, "B" := 0x2000, "X" := 0x4000, "Y" := 0x8000,
    "LB" := 0x0100, "RB" := 0x0200,
    "Back" := 0x0020, "Start" := 0x0010,
    "LS" := 0x0040, "RS" := 0x0080,
    "Up" := 0x0001, "Down" := 0x0002, "Left" := 0x0004, "Right" := 0x0008
  ]

  /** `BUTTON_MASKS.get(name, 0)`. */
  function MaskOf(name: string): (m: bv16)
    ensures m == 0 || m & (m - 1) == 0
    ensures name !in ButtonMasks ==> m == 0
    ensures name in ButtonMasks ==> m == ButtonMasks[name]
  {
    if name in ButtonMasks then ButtonMasks[name] else 0
  }

  /** `is_pressed(wButtons, name)`: 1 when the named button's bit is set, else 0. */
  function IsPressed(buttons: bv16, name: string): (r: int)
    ensures 0 <= r <= 1
    ensures r == 1 <==> name in ButtonMasks && ButtonMasks[name] != 0 && buttons & ButtonMasks[name] != 0
  {
    var mask := MaskOf(name);
    if mask != 0 && buttons & mask != 0 then 1 else 0
  }

  /** `"None"` and names outside the table never read as pressed. */
  lemma NeverPressed(buttons: bv16, name: string)
    requires name == "None" || name !in ButtonMasks
    ensures IsPressed(buttons, name) == 0
  {
  }

  /** Every named mask other than `"None"` is a single bit. */
  lemma {:induction false} MasksAreSingleBits(name: string)
    requires name in ButtonMasks && name != "None"
    ensures ButtonMasks[name] != 0 && ButtonMasks[name] & (ButtonMasks[name] - 1) == 0
  {
  }

  /**
   * Buttons do not alias: when exactly one button's bit is set, that button
   * and no other named button reads as pressed.
   */
  lemma {:induction false} ButtonsDoNotAlias(pressed: string, name: string)
    requires pressed in ButtonMasks && pressed != "None"
    ensures IsPressed(ButtonMasks[pressed], name) == 1 <==> name == pressed
  {
  }

  /** Holding more buttons never releases one that was already read as pressed. */
  lemma MorePressedStaysPressed(buttons: bv16, extra: bv16, name: string)
    requires IsPressed(buttons, name) == 1
    ensures IsPressed(buttons | extra, name) == 1
  {
    var mask := MaskOf(name);
    assert (buttons | extra) & mask == (buttons & mask) | (extra & mask);
  }

  /** `BUTTON_CHOICES`: the labels and masks the settings window lists. */
  const ButtonChoices: seq<(string, bv16)> := [
    ("None", 0x0000),
    ("A", 0x1000), ("B", 0x2000), ("X", 0x4000), ("Y", 0x8000),
    ("LB", 0x0100), ("RB", 0x0200),
    ("Back", 0x0020), ("Start", 0x0010),
    ("LS (L3)", 0x0040), ("RS (R3)", 0x0080),
    ("DPad Up", 0x0001), ("DPad Down", 0x0002), ("DPad Left", 0x0004), ("DPad Right", 0x0008)
  ]

  predicate IsBlank(c: char) {
    c == ' ' || c == '\t' || c == '\n' || c == '\r'
  }

  /** The label holds at least one word, so `split()[0]` does not raise `IndexError`. */
  predicate HasWord(s: string) {
    exists i :: 0 <= i < |s| && !IsBlank(s[i])
  }

  /** A label holding a word and starting with a blank still holds one after the blank. */
  lemma HasWordAfterBlank(s: string)
    requires HasWord(s) && IsBlank(s[0])
    ensures HasWord(s[1..])
  {
    var i :| 0 <= i < |s| && !IsBlank(s[i]);
    assert s[1..][i - 1] == s[i];
  }

  /** The longest blank-free prefix of `s`. */
  function TakeWord(s: string): (r: string)
    ensures |r| <= |s| && r == s[..|r|]
    ensures forall i :: 0 <= i < |r| ==> !IsBlank(r[i])
    ensures |r| == |s| || IsBlank(s[|r|])
  {
    if s == [] || IsBlank(s[0]) then [] else [s[0]] + TakeWord(s[1..])
  }

  /**
   * `s.split()[0]` for a label holding at least one word: leading blanks are
   * skipped, and the word runs up to the next blank or the end of the label.
   */
  function FirstWord(s: string): (r: string)
    requires HasWord(s)
    ensures 0 < |r| <= |s|
    ensures forall i :: 0 <= i < |r| ==> !IsBlank(r[i])
    ensures !IsBlank(s[0]) ==> r == s[..|r|] && (|r| == |s| || IsBlank(s[|r|]))
    ensures IsBlank(s[0]) ==> HasWord(s[1..]) && r == FirstWord(s[1..])
  {
    if IsBlank(s[0]) then HasWordAfterBlank(s); FirstWord(s[1..]) else TakeWord(s)
  }

  /** `split()[0]` of each label of `BUTTON_CHOICES`, in order. */
  const AsWrittenValues: seq<string> :=
    ["None", "A", "B", "X", "Y", "LB", "RB", "Back", "Start", "LS", "RS", "DPad", "DPad", "DPad", "DPad"]

  /** The first word of each label is the entry of `AsWrittenValues` at its index. */
  lemma FirstWordsOfChoices()
    ensures forall k :: 0 <= k < |ButtonChoices| ==>
              HasWord(ButtonChoices[k].0) && FirstWord(ButtonChoices[k].0) == AsWrittenValues[k]
  {
    forall k | 0 <= k < |ButtonChoices|
      ensures HasWord(ButtonChoices[k].0) && FirstWord(ButtonChoices[k].0) == AsWrittenValues[k]
    {
      FirstWordOfChoice(k);
    }
  }

  /** `FirstWordsOfChoices` for one label. */
  lemma FirstWordOfChoice(k: int)
    requires 0 <= k < |ButtonChoices|
    ensures HasWord(ButtonChoices[k].0) && FirstWord(ButtonChoices[k].0) == AsWrittenValues[k]
  {
    if k >= 11 {
      WordUpTo(ButtonChoices[k].0, 4);
    } else if k >= 9 {
      WordUpTo(ButtonChoices[k].0, 2);
    } else {
      PlainFirstWord(k);
    }
  }

  /** The labels before the stick buttons are one word each. */
  lemma PlainFirstWord(k: int)
    requires 0 <= k < 9
    ensures HasWord(ButtonChoices[k].0) && FirstWord(ButtonChoices[k].0) == AsWrittenValues[k]
  {
    var caption := ButtonChoices[k].0;
    WordUpTo(caption, |caption|);
    assert caption[..|caption|] == caption;
  }

  /** The values of the settings window's button combobox, as written: the first word of each label. */
  function ComboValues(): (r: seq<string>)
    ensures r == AsWrittenValues
  {
    FirstWordsOfChoices();
    seq(|ButtonChoices|, i requires 0 <= i < |ButtonChoices| => FirstWord(ButtonChoices[i].0))
  }

  /**
   * As written, the four D-pad choices all store `"DPad"`, which is not a key
   * of `BUTTON_MASKS`: a D-pad direction chosen in the settings window never
   * reads as pressed, although its choice lists a nonzero mask.
   */
  lemma DPadChoicesNeverPress(buttons: bv16, k: int)
    requires 11 <= k < |ButtonChoices|
    ensures ComboValues()[k] == "DPad"
    ensures ButtonChoices[k].1 != 0
    ensures IsPressed(buttons, ComboValues()[k]) == 0
  {
    assert ComboValues()[k] == "DPad";
    assert "DPad" !in ButtonMasks;
  }

  /** As written, every choice before the D-pad group stores a key of `BUTTON_MASKS` with the mask listed beside it. */
  lemma OtherChoicesMatchMasks(k: int)
    requires 0 <= k < 11
    ensures ComboValues()[k] in ButtonMasks
    ensures MaskOf(ComboValues()[k]) == ButtonChoices[k].1
  {
    assert ComboValues()[k] == MaskKeys[k];
    MaskKeysMatchChoices(k);
  }

  /** The label prefix that names the D-pad group. */
  const DPadPrefix: string := "DPad "

  /** The combobox value intended for a label: the `BUTTON_MASKS` key of that button. */
  function ChoiceKey(caption: string): (r: string)
    requires HasWord(caption)
    ensures forall i :: 0 <= i < |r| ==> !IsBlank(r[i])
    ensures !(|caption| >= |DPadPrefix| && caption[..|DPadPrefix|] == DPadPrefix) ==> r == FirstWord(caption)
  {
    if |caption| >= |DPadPrefix| && caption[..|DPadPrefix|] == DPadPrefix && HasWord(caption[|DPadPrefix|..])
    then FirstWord(caption[|DPadPrefix|..])
    else FirstWord(caption)
  }

  /** The combobox values with that correction. */
  function CorrectedComboValues(): (r: seq<string>)
    ensures r == MaskKeys
  {
    ChoiceKeysOfChoices();
    seq(|ButtonChoices|, i requires 0 <= i < |ButtonChoices| => ChoiceKey(ButtonChoices[i].0))
  }

  /** The `BUTTON_MASKS` key that each choice of `BUTTON_CHOICES` stands for. */
  const MaskKeys: seq<string> := ["None", "A", "B", "X", "Y", "LB", "RB", "Back", "Start", "LS", "RS", "Up", "Down", "Left", "Right"]

  /** Each of those keys carries the mask listed beside its choice. */
  lemma MaskKeysMatchChoices(k: int)
    requires 0 <= k < |ButtonChoices|
    ensures MaskKeys[k] in ButtonMasks
    ensures MaskOf(MaskKeys[k]) == ButtonChoices[k].1
  {
    if k < 8 {
      MaskKeysMatchFrom(k, 0, 8);
    } else {
      MaskKeysMatchFrom(k, 8, |ButtonChoices|);
    }
  }

  /** `MaskKeysMatchChoices` for the entries from `lo` below `hi`, checked by cases. */
  lemma MaskKeysMatchFrom(k: int, lo: int, hi: int)
    requires (lo == 0 && hi == 8) || (lo == 8 && hi == |ButtonChoices|)
    requires lo <= k < hi
    ensures MaskKeys[k] in ButtonMasks
    ensures MaskOf(MaskKeys[k]) == ButtonChoices[k].1
  {
  }

  /** The corrected combobox value of each choice is its mask key. */
  lemma ChoiceKeyIsMaskKey(k: int)
    requires 0 <= k < |ButtonChoices|
    ensures HasWord(ButtonChoices[k].0) && ChoiceKey(ButtonChoices[k].0) == MaskKeys[k]
  {
    if k >= 11 {
      DPadChoiceKey(k);
    } else {
      OtherChoiceKey(k);
    }
  }

  /** The corrected value of each label is the mask key at its index. */
  lemma ChoiceKeysOfChoices()
    ensures forall k :: 0 <= k < |ButtonChoices| ==>
              HasWord(ButtonChoices[k].0) && ChoiceKey(ButtonChoices[k].0) == MaskKeys[k]
  {
    forall k | 0 <= k < |ButtonChoices|
      ensures HasWord(ButtonChoices[k].0) && ChoiceKey(ButtonChoices[k].0) == MaskKeys[k]
    {
      ChoiceKeyIsMaskKey(k);
    }
  }

  /** With the correction every choice selects exactly the mask listed beside its label. */
  lemma CorrectedChoicesMatchMasks(k: int)
    requires 0 <= k < |ButtonChoices|
    ensures CorrectedComboValues()[k] in ButtonMasks
    ensures MaskOf(CorrectedComboValues()[k]) == ButtonChoices[k].1
  {
    MaskKeysMatchChoices(k);
  }

  /** A D-pad label's corrected value is the direction after the prefix. */
  lemma DPadChoiceKey(k: int)
    requires 11 <= k < |ButtonChoices|
    ensures HasWord(ButtonChoices[k].0) && ChoiceKey(ButtonChoices[k].0) == MaskKeys[k]
  {
    assert ButtonChoices[k].0 == DPadPrefix + MaskKeys[k];
    if k == 11 {
      DPadLabel("Up");
    } else if k == 12 {
      DPadLabel("Down");
    } else if k == 13 {
      DPadLabel("Left");
    } else {
      DPadLabel("Right");
    }
  }

  /** The corrected value of `"DPad "` followed by a direction is that direction. */
  lemma DPadLabel(dir: string)
    requires dir != [] && forall i :: 0 <= i < |dir| ==> !IsBlank(dir[i])
    ensures HasWord(DPadPrefix + dir) && ChoiceKey(DPadPrefix + dir) == dir
  {
    var caption := DPadPrefix + dir;
    assert !IsBlank(caption[0]);
    assert caption[..|DPadPrefix|] == DPadPrefix;
    assert caption[|DPadPrefix|..] == dir;
    WordUpTo(dir, |dir|);
    assert dir[..|dir|] == dir;
  }

  /** Outside the D-pad group the corrected value is the first word. */
  lemma OtherChoiceKey(k: int)
    requires 0 <= k < 11
    ensures HasWord(ButtonChoices[k].0) && ChoiceKey(ButtonChoices[k].0) == MaskKeys[k]
  {
    var caption := ButtonChoices[k].0;
    assert |caption| < |DPadPrefix| || caption[..|DPadPrefix|][0] != DPadPrefix[0];
    FirstWordOfChoice(k);
  }

  /** A label whose first `n` characters are not blank and are followed by a blank or the end has them as its first word. */
  lemma {:induction false} WordUpTo(s: string, n: nat)
    requires n <= |s|
    requires forall i :: 0 <= i < n ==> !IsBlank(s[i])
    requires n == |s| || IsBlank(s[n])
    ensures TakeWord(s) == s[..n]
    ensures n > 0 ==> HasWord(s) && FirstWord(s) == s[..n]
  {
    if n > 0 {
      assert !IsBlank(s[0]);
      WordUpTo(s[1..], n - 1);
      assert TakeWord(s) == [s[0]] + TakeWord(s[1..]);
      assert s[..n] == [s[0]] + s[1..][..n - 1];
    }
  }
}
