/**
 * The accessibility helpers that do not depend on the browser: the validation ARIA
 * attributes, the focus trap's Tab handling and the saved focus, the Enter/Escape dispatch,
 * the `AccessibleInput` ARIA strings, and the hex colour split behind `checkContrast`.
 */
module Accessibility {
  import opened Wrappers
  import opened Text

  /**
   * `getValidationAria`: no attributes without an error message; with one, the field is
   * marked invalid and described by its `<fieldId>-error` element. An absent error is "".
   */
  function GetValidationAria(error: string, fieldId: string): (attrs: map<string, string>)
    ensures error == "" <==> attrs == map[]
    ensures error != "" ==> attrs.Keys == {"aria-invalid", "aria-describedby"}
    ensures error != "" ==> attrs["aria-invalid"] == "true" && attrs["aria-describedby"] == fieldId + "-error"
  {
    if error == "" then map[]
    else
      var attrs := map["aria-invalid" := "true", "aria-describedby" := fieldId + "-error"];
      assert "aria-invalid" in attrs;
      attrs
  }

  // ---------------------------------------------------------------------------------------
  // Focus trap and saved focus

  /**
   * The reaction of the trap's `keydown` handler among `count` focusable elements, focus
   * being at `focused` (None when it is on some other element): the new focus and whether
   * the browser's own move is prevented.
   */
  function TrapReaction(count: nat, focused: Option<nat>, key: string, shift: bool): (r: (Option<nat>, bool))
    ensures r.1 <==> (key == "Tab" && count > 0
                      && ((shift && focused == Some(0)) || (!shift && focused == Some(count - 1))))
    ensures r.1 && shift ==> r.0 == Some(count - 1)
    ensures r.1 && !shift ==> r.0 == Some(0)
    ensures !r.1 ==> r.0 == focused
  {
    if key != "Tab" || count == 0 then (focused, false)
    else if shift then
      if focused == Some(0) then (Some(count - 1), true) else (focused, false)
    else
      if focused == Some(count - 1) then (Some(0), true) else (focused, false)
  }

  /**
   * The browser's own Tab move when the handler does not prevent it, assuming the trap's
   * elements are the page's tab sequence in order: one element on, or back with Shift.
   * Focus that is elsewhere enters at the first (Tab) or the last (Shift+Tab) element.
   */
  function DefaultTab(count: nat, focused: Option<nat>, shift: bool): Option<nat>
  {
    if count == 0 then focused
    else match focused
      case None => if shift then Some(count - 1) else Some(0)
      case Some(i) => if shift then (if i == 0 then None else Some(i - 1))
                      else (if i + 1 >= count then None else Some(i + 1))
  }

  /** Where focus ends after a Tab press inside an active trap: the handler's move, else the browser's. */
  function AfterTab(count: nat, focused: Option<nat>, shift: bool): Option<nat>
  {
    var (moved, prevented) := TrapReaction(count, focused, "Tab", shift);
    if prevented then moved else DefaultTab(count, focused, shift)
  }

  /** With the trap active, Tab and Shift+Tab cycle through the elements and never leave them. */
  lemma TrapKeepsFocusInside(count: nat, i: nat, shift: bool)
    requires i < count
    ensures !shift ==> AfterTab(count, Some(i), shift) == Some((i + 1) % count)
    ensures shift ==> AfterTab(count, Some(i), shift) == Some((i + count - 1) % count)
  {
    if shift {
      TabBackward(count, i);
    } else {
      TabForward(count, i);
    }
  }

  lemma TabForward(count: nat, i: nat)
    requires i < count
    ensures AfterTab(count, Some(i), false) == Some((i + 1) % count)
  {
    var reaction := TrapReaction(count, Some(i), "Tab", false);
    if i + 1 < count {
      assert !reaction.1;
      assert DefaultTab(count, Some(i), false) == Some(i + 1);
      ModBelow(i + 1, count);
    } else {
      assert reaction == (Some(0), true);
      ModSelf(count);
    }
  }

  lemma TabBackward(count: nat, i: nat)
    requires i < count
    ensures AfterTab(count, Some(i), true) == Some((i + count - 1) % count)
  {
    var reaction := TrapReaction(count, Some(i), "Tab", true);
    if i > 0 {
      assert !reaction.1;
      assert DefaultTab(count, Some(i), true) == Some(i - 1);
      ModAboveOnce(i - 1, count);
    } else {
      assert reaction == (Some(count - 1), true);
      ModBelow(count - 1, count);
    }
  }

  lemma ModBelow(a: nat, n: nat)
    requires a < n
    ensures a % n == a
  {
  }

  lemma ModSelf(n: nat)
    requires n > 0
    ensures n % n == 0
  {
  }

  lemma ModAboveOnce(a: nat, n: nat)
    requires a < n
    ensures (a + n) % n == a
  {
  }

  /** Without the trap, Tab from the last element and Shift+Tab from the first leave the elements. */
  lemma WithoutTrapFocusEscapes(count: nat)
    requires count > 0
    ensures DefaultTab(count, Some(count - 1), false).None?
    ensures DefaultTab(count, Some(0), true).None?
  {
  }

  /** The key dispatch of `useKeyboardNavigation`. */
  datatype KeyAction = CallOnEnter | CallOnEscape | NoAction

  /** Enter calls `onEnter` and Escape calls `onEscape`, each only when that handler was given. */
  function Dispatch(key: string, hasOnEnter: bool, hasOnEscape: bool): (a: KeyAction)
    ensures a == CallOnEnter <==> key == "Enter" && hasOnEnter
    ensures a == CallOnEscape <==> key == "Escape" && hasOnEscape
    ensures key != "Enter" && key != "Escape" ==> a == NoAction
  {
    if key == "Enter" then (if hasOnEnter then CallOnEnter else NoAction)
    else if key == "Escape" then (if hasOnEscape then CallOnEscape else NoAction)
    else NoAction
  }

  /**
   * The document's focus as the trap and `manageFocus` see it: `count` focusable elements in
   * document order, the focused one (None when focus is on another element), and the slot
   * `manageFocus._previousFocus`, which is unset until the first `save`.
   */
  class Document {
    const count: nat
    var focused: Option<nat>
    var previousFocus: Option<Option<nat>>

    ghost predicate Valid()
      reads this
    {
      && (focused.Some? ==> focused.value < count)
      && (previousFocus.Some? && previousFocus.value.Some? ==> previousFocus.value.value < count)
    }

    constructor(count: nat)
      ensures this.count == count && focused.None? && previousFocus.None?
      ensures Valid()
    {
      this.count := count;
      focused := None;
      previousFocus := None;
    }

    /** Activating the trap focuses the first element, when there is one. */
    method ActivateTrap()
      requires Valid()
      modifies this
      ensures Valid()
      ensures count > 0 ==> focused == Some(0)
      ensures count == 0 ==> focused == old(focused)
      ensures previousFocus == old(previousFocus)
    {
      if count > 0 {
        focused := Some(0);
      }
    }

    /** `handleTabKey`: wraps focus at either end of the trap and reports whether it prevented the default. */
    method HandleTabKey(key: string, shift: bool) returns (prevented: bool)
      requires Valid()
      modifies this
      ensures Valid()
      ensures (focused, prevented) == TrapReaction(count, old(focused), key, shift)
      ensures previousFocus == old(previousFocus)
    {
      prevented := false;
      if key != "Tab" {
        return;
      }
      if shift {
        if count > 0 && focused == Some(0) {
          focused := Some(count - 1);
          prevented := true;
        }
      } else {
        if count > 0 && focused == Some(count - 1) {
          focused := Some(0);
          prevented := true;
        }
      }
    }

    /** `manageFocus.save`: remembers the focused element. */
    method Save()
      requires Valid()
      modifies this
      ensures Valid()
      ensures previousFocus == Some(focused) && focused == old(focused)
    {
      previousFocus := Some(focused);
    }

    /** `manageFocus.restore`: focuses the remembered element, if `save` ever ran. */
    method Restore()
      requires Valid()
      modifies this
      ensures Valid()
      ensures old(previousFocus).Some? ==> focused == old(previousFocus).value
      ensures old(previousFocus).None? ==> focused == old(focused)
      ensures previousFocus == old(previousFocus)
    {
      if previousFocus.Some? {
        focused := previousFocus.value;
      }
    }
  }

  /** Saving, moving focus with the trap and restoring puts focus back where it was. */
  method SaveTrapRestore(d: Document, key: string, shift: bool) returns (prevented: bool)
    requires d.Valid()
    modifies d
    ensures d.Valid()
    ensures d.focused == old(d.focused)
    ensures prevented == TrapReaction(d.count, old(d.focused), key, shift).1
  {
    d.Save();
    prevented := d.HandleTabKey(key, shift);
    d.Restore();
  }

  // ---------------------------------------------------------------------------------------
  // AccessibleInput

  /** The input's id: the given one, or `input-` and a random suffix when none (or "") is given. */
  function InputId(id: string, randomSuffix: string): (r: string)
    ensures id != "" ==> r == id
    ensures id == "" ==> r == "input-" + randomSuffix
  {
    if id != "" then id else "input-" + randomSuffix
  }

  function ErrorId(inputId: string): string
  {
    inputId + "-error"
  }

  function DescriptionId(inputId: string): string
  {
    inputId + "-description"
  }

  /** `aria-describedby`: the description's id and the error's id, each when present, space-separated and trimmed. */
  function DescribedBy(inputId: string, description: string, error: string): string
  {
    var d := if description != "" then DescriptionId(inputId) else "";
    var e := if error != "" then ErrorId(inputId) else "";
    Trim(d + " " + e)
  }

  /** `aria-invalid`: "true" exactly when there is an error message. */
  function AriaInvalid(error: string): (v: string)
    ensures v == "true" <==> error != ""
    ensures v == "false" <==> error == ""
  {
    if error != "" then "true" else "false"
  }

  /** The id suffixes end in letters, so they add no trailing blank. */
  lemma SuffixedIdIsClean(inputId: string, suffix: string)
    requires NoEdgeWhitespace(inputId) && suffix != [] && suffix[0] == '-'
    requires !IsWhitespace(suffix[|suffix| - 1])
    ensures NoEdgeWhitespace(inputId + suffix)
  {
    var s := inputId + suffix;
    assert s[|s| - 1] == suffix[|suffix| - 1];
    if inputId == [] {
      assert s[0] == '-';
    } else {
      assert s[0] == inputId[0];
    }
  }

  /**
   * The four shapes of `aria-describedby` for an id without surrounding blanks: empty, the
   * description's id, the error's id, or both in that order.
   */
  lemma DescribedByCases(inputId: string, description: string, error: string)
    requires NoEdgeWhitespace(inputId)
    ensures description == "" && error == "" ==> DescribedBy(inputId, description, error) == ""
    ensures description != "" && error == "" ==> DescribedBy(inputId, description, error) == DescriptionId(inputId)
    ensures description == "" && error != "" ==> DescribedBy(inputId, description, error) == ErrorId(inputId)
    ensures description != "" && error != "" ==>
      DescribedBy(inputId, description, error) == DescriptionId(inputId) + " " + ErrorId(inputId)
  {
    if description == "" && error == "" {
      DescribedByNeither(inputId);
    } else if description != "" && error == "" {
      DescribedByDescription(inputId, description);
    } else if description == "" && error != "" {
      DescribedByError(inputId, error);
    } else {
      DescribedByBoth(inputId, description, error);
    }
  }

  lemma DescribedByNeither(inputId: string)
    ensures DescribedBy(inputId, "", "") == ""
  {
    TrimSurrounded("", "", " ");
  }

  lemma DescribedByDescription(inputId: string, description: string)
    requires NoEdgeWhitespace(inputId) && description != ""
    ensures DescribedBy(inputId, description, "") == DescriptionId(inputId)
  {
    var dId := DescriptionId(inputId);
    SuffixedIdIsClean(inputId, "-description");
    assert dId + " " + "" == dId + " ";
    TrimStartOfClean(dId);
    TrimStartAppend(dId, " ");
    TrimEndDropsWhitespace(dId, " ");
    TrimEndOfClean(dId);
  }

  lemma DescribedByError(inputId: string, error: string)
    requires NoEdgeWhitespace(inputId) && error != ""
    ensures DescribedBy(inputId, "", error) == ErrorId(inputId)
  {
    var eId := ErrorId(inputId);
    SuffixedIdIsClean(inputId, "-error");
    assert "" + " " + eId == " " + eId;
    TrimStartDropsWhitespace(" ", eId);
    TrimStartOfClean(eId);
    TrimEndOfClean(eId);
  }

  lemma DescribedByBoth(inputId: string, description: string, error: string)
    requires NoEdgeWhitespace(inputId) && description != "" && error != ""
    ensures DescribedBy(inputId, description, error) == DescriptionId(inputId) + " " + ErrorId(inputId)
  {
    var dId, eId := DescriptionId(inputId), ErrorId(inputId);
    SuffixedIdIsClean(inputId, "-description");
    SuffixedIdIsClean(inputId, "-error");
    assert DescribedBy(inputId, description, error) == Trim(dId + " " + eId);
    var both := dId + " " + eId;
    assert both[0] == dId[0];
    assert both[|both| - 1] == eId[|eId| - 1];
    TrimOfClean(both);
  }

  /** An input with an error and no description carries what `getValidationAria` would give. */
  lemma InputAgreesWithValidationAria(inputId: string, error: string)
    requires NoEdgeWhitespace(inputId) && error != ""
    ensures GetValidationAria(error, inputId)["aria-describedby"] == DescribedBy(inputId, "", error)
    ensures GetValidationAria(error, inputId)["aria-invalid"] == AriaInvalid(error)
  {
    DescribedByCases(inputId, "", error);
  }

  // ---------------------------------------------------------------------------------------
  // The colour split of checkContrast

  function HexDigit(c: char): Option<nat>
  {
    if '0' <= c <= '9' then Some(c as nat - '0' as nat)
    else if 'a' <= c <= 'f' then Some(c as nat - 'a' as nat + 10)
    else if 'A' <= c <= 'F' then Some(c as nat - 'A' as nat + 10)
    else None
  }

  predicate AllHex(s: string)
  {
    forall i :: 0 <= i < |s| ==> HexDigit(s[i]).Some?
  }

  /** The length of the longest prefix of `s` made of hexadecimal digits. */
  function HexRun(s: string): (n: nat)
    ensures n <= |s| && AllHex(s[..n])
    ensures n < |s| ==> HexDigit(s[n]).None?
  {
    if s == [] || HexDigit(s[0]).None? then 0
    else
      var rest := HexRun(s[1..]);
      assert s[..1 + rest] == [s[0]] + s[1..][..rest];
      1 + rest
  }

  function Pow16(k: nat): nat
  {
    if k == 0 then 1 else 16 * Pow16(k - 1)
  }

  /** The value of a string of hexadecimal digits, most significant first. */
  function HexValue(s: string): (v: nat)
    requires AllHex(s)
    ensures v < Pow16(|s|)
  {
    if s == [] then 0
    else
      var last := HexDigit(s[|s| - 1]).value;
      assert HexDigit(s[|s| - 1]).Some?;
      16 * HexValue(s[..|s| - 1]) + last
  }

  /**
   * `parseInt(s, 16)`: leading white space, an optional sign and an optional `0x`/`0X` are
   * skipped, then the longest run of hexadecimal digits is read; no digits gives NaN (None).
   */
  function ParseInt16(s: string): (r: Option<int>)
    ensures AllHex(s) && s != [] ==> r == Some(HexValue(s))
  {
    var t := TrimStart(s);
    var negative := t != [] && t[0] == '-';
    var u := if t != [] && (t[0] == '-' || t[0] == '+') then t[1..] else t;
    var w := if |u| >= 2 && u[0] == '0' && (u[1] == 'x' || u[1] == 'X') then u[2..] else u;
    var n := HexRun(w);
    if AllHex(s) && s != [] then
      AllHexRun(s);
      assert HexDigit(s[0]).Some?;
      TrimStartOfHex(s);
      assert w == s;
      Some(HexValue(s))
    else if n == 0 then None
    else if negative then Some(-(HexValue(w[..n]) as int))
    else Some(HexValue(w[..n]))
  }

  lemma AllHexRun(s: string)
    requires AllHex(s)
    ensures HexRun(s) == |s| && s[..|s|] == s
  {
  }

  lemma TrimStartOfHex(s: string)
    requires AllHex(s) && s != []
    ensures TrimStart(s) == s
  {
    assert HexDigit(s[0]).Some?;
    assert !IsWhitespace(s[0]);
  }

  /** ECMAScript's ToInt32, which `>>` applies to its left operand; NaN becomes 0. */
  function ToInt32(v: Option<int>): (r: int)
    ensures -0x8000_0000 <= r < 0x8000_0000
    ensures v.Some? && -0x8000_0000 <= v.value < 0x8000_0000 ==> r == v.value
    ensures v.Some? ==> (r - v.value) % 0x1_0000_0000 == 0
  {
    match v
    case None => 0
    case Some(n) =>
      var m := n % 0x1_0000_0000;
      if m >= 0x8000_0000 then m - 0x1_0000_0000 else m
  }

  /**
   * The channels `(rgb >> 16) & 0xff`, `(rgb >> 8) & 0xff` and `(rgb >> 0) & 0xff`: the
   * shift is arithmetic on the 32-bit value (floor division) and the mask keeps the low
   * eight bits of the two's complement (the non-negative remainder).
   */
  function Channels(rgb: Option<int>): (c: (int, int, int))
    ensures 0 <= c.0 < 256 && 0 <= c.1 < 256 && 0 <= c.2 < 256
  {
    var x := ToInt32(rgb);
    ((x / 0x1_0000) % 256, (x / 0x100) % 256, x % 256)
  }

  /** Nested division by 256 is division by 65536. */
  lemma DivDiv(v: nat)
    ensures (v / 256) / 256 == v / 0x1_0000
  {
    var q := v / 0x1_0000;
    var r := v % 0x1_0000;
    assert v == 0x1_0000 * q + r && 0 <= r < 0x1_0000;
    assert v == 256 * (256 * q + r / 256) + r % 256;
    assert v / 256 == 256 * q + r / 256;
  }

  /** A 24-bit colour value splits into three channels that recombine to it. */
  lemma ChannelsRecombine(v: nat)
    requires v < 0x100_0000
    ensures var c := Channels(Some(v)); c.0 * 0x1_0000 + c.1 * 0x100 + c.2 == v
  {
    var c := Channels(Some(v));
    assert ToInt32(Some(v)) == v;
    DivDiv(v);
    assert v / 0x1_0000 < 256;
    assert c.0 == v / 0x1_0000;
    assert v == 256 * (v / 256) + v % 256;
    assert v / 256 == 256 * ((v / 256) / 256) + (v / 256) % 256;
  }

  /** A `#rrggbb` colour parses to a 24-bit value, so its channels recombine to it. */
  lemma SixDigitColour(hex: string)
    requires |hex| == 7 && AllHex(hex[1..])
    ensures ParseInt16(hex[1..]) == Some(HexValue(hex[1..]))
    ensures HexValue(hex[1..]) < 0x100_0000
    ensures var c := Channels(ParseInt16(hex[1..])); c.0 * 0x1_0000 + c.1 * 0x100 + c.2 == HexValue(hex[1..])
  {
    assert Pow16(6) == 0x100_0000;
    ChannelsRecombine(HexValue(hex[1..]));
  }

  /** A three-digit colour is read as a number, not expanded: "#fff" has red 0, green 15, blue 255. */
  lemma ShortColourIsNotExpanded()
    ensures ParseInt16("fff") == Some(0xfff)
    ensures Channels(ParseInt16("fff")) == (0, 15, 255)
  {
    ShortColourValue();
    ShortColourChannels();
  }

  lemma ShortColourChannels()
    ensures Channels(Some(0xfff)) == (0, 15, 255)
  {
    assert ToInt32(Some(0xfff)) == 0xfff;
  }

  lemma ShortColourValue()
    ensures AllHex("fff") && HexValue("fff") == 0xfff
  {
    assert "fff"[..2] == "ff" && "ff"[..1] == "f" && "f"[..0] == "";
    assert HexDigit('f') == Some(15);
    assert HexValue("f") == 15;
    assert HexValue("ff") == 255;
  }

  /** The verdicts of `checkContrast` for a given ratio: AA from 4.5, AAA from 7. */
  datatype Contrast = Contrast(ratio: real, AA: bool, AAA: bool)

  function ContrastVerdict(ratio: real): (c: Contrast)
    ensures c.ratio == ratio
    ensures c.AA <==> ratio >= 4.5
    ensures c.AAA <==> ratio >= 7.0
  {
    Contrast(ratio, ratio >= 4.5, ratio >= 7.0)
  }

  /** Passing AAA means passing AA; a ratio between 4.5 and 7 passes AA only. */
  lemma AAAImpliesAA(ratio: real)
    ensures ContrastVerdict(ratio).AAA ==> ContrastVerdict(ratio).AA
    ensures 4.5 <= ratio < 7.0 ==> ContrastVerdict(ratio).AA && !ContrastVerdict(ratio).AAA
  {
  }
}
