/** The custom controls of ui/widgets.py that carry state: the toggle
    switch, the boxed slider (its clamping and its mouse mapping) and the
    drop filter of the video drop area. Painting is not modelled. */
module Widgets {

  import opened Types
  import opened Numeric

  // ---------------------------------------------------------------------
  // ToggleSwitch

  /** The outcome of one mouse press: the new checked state and the
      `toggled` emission, if any (widgets.py:65-74). Only an enabled switch
      hit with the left button flips, and then it announces its new state. */
  function Press(checked: bool, enabled: bool, leftButton: bool): (r: (bool, Option<bool>))
    ensures r.1.Some? <==> enabled && leftButton
    ensures r.1.Some? ==> r.1.value == r.0 && r.0 != checked
    ensures r.1.None? ==> r.0 == checked
  {
    if !enabled then (checked, None)
    else if leftButton then (!checked, Some(!checked))
    else (checked, None)
  }

  /** Two left clicks on an enabled switch bring it back, after announcing
      both states in turn. */
  lemma PressTwiceRestores(checked: bool)
    ensures var first := Press(checked, true, true);
      var second := Press(first.0, true, true);
      second.0 == checked && first.1 == Some(!checked) && second.1 == Some(checked)
  {
  }

  class ToggleSwitch {
    var checked: bool
    var enabled: bool

    /** __init__ (widgets.py:22-30): unchecked; a new widget is enabled. */
    constructor()
      ensures !checked && enabled
    {
      checked := false;
      enabled := true;
    }

    /** mousePressEvent (widgets.py:65-74). */
    method MousePress(leftButton: bool) returns (toggled: Option<bool>)
      modifies this
      ensures (checked, toggled) == Press(old(checked), enabled, leftButton)
      ensures enabled == old(enabled)
    {
      var r := Press(checked, enabled, leftButton);
      checked := r.0;
      toggled := r.1;
    }

    /** setChecked (widgets.py:76-80): programmatic, never emits. */
    method SetChecked(c: bool)
      modifies this
      ensures checked == c && enabled == old(enabled)
    {
      if checked != c {
        checked := c;
      }
    }

    /** QWidget.setEnabled, which the app uses to grey out the toggles. */
    method SetEnabled(e: bool)
      modifies this
      ensures enabled == e && checked == old(checked)
    {
      enabled := e;
    }
  }

  // ---------------------------------------------------------------------
  // ModernBoxedSlider

  /** The defaults of __init__ (widgets.py:97-99). */
  const DefaultMinimum := 10
  const DefaultMaximum := 90
  const DefaultValue := 40

  /** setValue's clamp and emission (widgets.py:106-112): the value is
      forced into range and valueChanged fires only when it changes. */
  function SetValueEffect(minimum: int, maximum: int, current: int, v: int): (r: (int, Option<int>))
    ensures r.0 == Clamp(minimum, maximum, v)
    ensures r.1.Some? <==> r.0 != current
    ensures r.1.Some? ==> r.1.value == r.0
  {
    var c := Max(minimum, Min(maximum, v));
    if current != c then (c, Some(c)) else (current, None)
  }

  /** Setting the same value twice emits at most once. */
  lemma SetValueIdempotent(minimum: int, maximum: int, current: int, v: int)
    ensures var first := SetValueEffect(minimum, maximum, current, v);
      SetValueEffect(minimum, maximum, first.0, v) == (first.0, None)
  {
  }

  /** updateValueFromMouse's mapping (widgets.py:229-233): the mouse's
      share of the width, clamped to [0, 1], scaled to the range and
      truncated on top of the minimum. */
  function MouseValue(x: real, width: real, minimum: int, maximum: int): (r: int)
    requires width > 0.0
    ensures minimum <= maximum ==> minimum <= r <= maximum
    ensures x <= 0.0 ==> r == minimum
    ensures x >= width ==> r == maximum
  {
    var pos := RealMax(0.0, RealMin(1.0, x / width));
    var span := (maximum - minimum) as real;
    ScaledShare(pos, span);
    ShareOfWidth(x, width);
    TruncOfInt(maximum - minimum);
    minimum + Trunc(pos * span)
  }

  lemma ShareOfWidth(x: real, width: real)
    requires width > 0.0
    ensures x >= width ==> x / width >= 1.0
    ensures x <= 0.0 ==> x / width <= 0.0
  {
    assert x / width * width == x;
  }

  lemma TruncOfInt(k: int)
    ensures Trunc(k as real) == k
  {
  }

  lemma ScaledShare(pos: real, span: real)
    requires 0.0 <= pos <= 1.0
    ensures span >= 0.0 ==> 0.0 <= pos * span <= span
  {
    if span >= 0.0 {
      assert pos * span <= 1.0 * span;
    }
  }

  /** Moving the mouse right never lowers the value it maps to. */
  lemma MouseValueMonotone(x1: real, x2: real, width: real, minimum: int, maximum: int)
    requires width > 0.0 && x1 <= x2 && minimum <= maximum
    ensures MouseValue(x1, width, minimum, maximum) <= MouseValue(x2, width, minimum, maximum)
  {
    var p1 := RealMax(0.0, RealMin(1.0, x1 / width));
    var p2 := RealMax(0.0, RealMin(1.0, x2 / width));
    var span := (maximum - minimum) as real;
    assert x1 / width <= x2 / width by {
      assert x1 / width * width <= x2 / width * width;
    }
    assert p1 * span <= p2 * span;
    TruncMonotone(p1 * span, p2 * span);
  }

  lemma TruncMonotone(a: real, b: real)
    requires 0.0 <= a <= b
    ensures Trunc(a) <= Trunc(b)
  {
  }

  class ModernBoxedSlider {
    var minimum: int
    var maximum: int
    var value: int

    /** The value always sits where the clamp puts it: inside the range,
        or at the minimum when the range is empty. */
    predicate Valid()
      reads this
    {
      value == Clamp(minimum, maximum, value)
    }

    /** __init__ (widgets.py:91-104). */
    constructor()
      ensures Valid()
      ensures minimum == DefaultMinimum && maximum == DefaultMaximum && value == DefaultValue
    {
      minimum, maximum, value := DefaultMinimum, DefaultMaximum, DefaultValue;
    }

    /** setValue (widgets.py:106-112). */
    method SetValue(v: int) returns (valueChanged: Option<int>)
      modifies this
      ensures Valid()
      ensures (value, valueChanged) == SetValueEffect(minimum, maximum, old(value), v)
      ensures minimum == old(minimum) && maximum == old(maximum)
    {
      var c := Max(minimum, Min(maximum, v));
      valueChanged := None;
      if value != c {
        value := c;
        valueChanged := Some(c);
      }
    }

    /** setRange (widgets.py:118-123): the value is re-clamped silently. */
    method SetRange(lo: int, hi: int)
      modifies this
      ensures Valid()
      ensures minimum == lo && maximum == hi && value == Clamp(lo, hi, old(value))
    {
      minimum, maximum := lo, hi;
      value := Max(minimum, Min(maximum, value));
    }

    /** updateValueFromMouse (widgets.py:229-234), given the widget's
        width (at least 150 by its minimum size, widgets.py:93). */
    method UpdateValueFromMouse(x: real, width: real) returns (valueChanged: Option<int>)
      requires width > 0.0
      modifies this
      ensures Valid()
      ensures (value, valueChanged) == SetValueEffect(minimum, maximum, old(value), MouseValue(x, width, minimum, maximum))
      ensures minimum == old(minimum) && maximum == old(maximum)
    {
      var v := MouseValue(x, width, minimum, maximum);
      valueChanged := SetValue(v);
    }
  }

  // ---------------------------------------------------------------------
  // DragDropVideoLabel.dropEvent

  /** The accepted suffixes (widgets.py:398). */
  const VideoExtensions: seq<string> := [".mp4", ".avi", ".mov", ".mkv", ".wmv"]

  /** str.lower on ASCII letters. */
  function LowerChar(c: char): char
  {
    if 'A' <= c <= 'Z' then (c as int + 32) as char else c
  }

  function Lower(s: string): (r: string)
    ensures |r| == |s|
    ensures forall i :: 0 <= i < |s| ==> r[i] == LowerChar(s[i])
  {
    if s == [] then [] else [LowerChar(s[0])] + Lower(s[1..])
  }

  predicate EndsWith(s: string, suffix: string)
  {
    |suffix| <= |s| && s[|s| - |suffix|..] == suffix
  }

  /** `any(file_path.lower().endswith(ext) for ext in video_extensions)`. */
  predicate IsVideoPath(path: string)
  {
    exists k :: 0 <= k < |VideoExtensions| && EndsWith(Lower(path), VideoExtensions[k])
  }

  /** dropEvent (widgets.py:388-401): the path handed to load_video_from_path,
      if any. Only the FIRST dropped URL is looked at, and only when the
      drop carries URLs and the label has an app to call. */
  function DroppedVideo(hasUrls: bool, hasParentApp: bool, paths: seq<string>): (r: Option<string>)
    ensures r.Some? <==> hasUrls && hasParentApp && |paths| > 0 && IsVideoPath(paths[0])
    ensures r.Some? ==> r.value == paths[0]
  {
    if hasUrls && hasParentApp && |paths| > 0 && IsVideoPath(paths[0]) then Some(paths[0]) else None
  }

  /** Lowering is idempotent, so the filter ignores case: a path and its
      lower-cased form are accepted together. */
  lemma {:induction false} LowerIdempotent(s: string)
    ensures Lower(Lower(s)) == Lower(s)
  {
    var l := Lower(s);
    assert forall i :: 0 <= i < |s| ==> LowerChar(l[i]) == l[i];
  }

  lemma FilterIgnoresCase(path: string)
    ensures IsVideoPath(path) <==> IsVideoPath(Lower(path))
  {
    LowerIdempotent(path);
  }

  /** URLs after the first never matter. */
  lemma OnlyFirstDropCounts(hasUrls: bool, hasParentApp: bool, first: string, rest: seq<string>, other: seq<string>)
    ensures DroppedVideo(hasUrls, hasParentApp, [first] + rest) == DroppedVideo(hasUrls, hasParentApp, [first] + other)
  {
  }

  /** An upper-case extension is accepted, whatever the stem. */
  lemma UpperCaseExtensionAccepted(stem: string)
    ensures DroppedVideo(true, true, [stem + ".MP4"]) == Some(stem + ".MP4")
  {
    var up := stem + ".MP4";
    var l := Lower(up);
    var n := |stem|;
    assert l[n..] == ".mp4" by {
      assert l[n] == LowerChar(up[n]) == LowerChar('.') == '.';
      assert l[n + 1] == LowerChar(up[n + 1]) == LowerChar('M') == 'm';
      assert l[n + 2] == LowerChar(up[n + 2]) == LowerChar('P') == 'p';
      assert l[n + 3] == LowerChar(up[n + 3]) == LowerChar('4') == '4';
    }
    assert EndsWith(l, VideoExtensions[0]);
  }

  /** A video name with a further suffix is rejected, whatever the stem. */
  lemma FurtherSuffixRejected(stem: string)
    ensures DroppedVideo(true, true, [stem + ".mp4.txt"]) == None
  {
    var txt := stem + ".mp4.txt";
    var l := Lower(txt);
    assert l[|l| - 1] == LowerChar(txt[|txt| - 1]) == LowerChar('t') == 't';
    forall k | 0 <= k < |VideoExtensions|
      ensures !EndsWith(l, VideoExtensions[k])
    {
      LastCharDiffers(l, VideoExtensions[k]);
    }
  }

  /** A suffix whose last character differs from the string's is not a suffix. */
  lemma LastCharDiffers(s: string, suffix: string)
    requires |s| > 0 && |suffix| > 0 && s[|s| - 1] != suffix[|suffix| - 1]
    ensures !EndsWith(s, suffix)
  {
    if |suffix| <= |s| {
      assert s[|s| - |suffix|..][|suffix| - 1] == s[|s| - 1];
    }
  }
}
