/** The clock strings of app.py: the alert-log timestamp built by
    format_time_for_filename ("HHhMMmSSsmmmms"), the running timer of
    update_timer_display ("HH:MM:SS:mmm") and the peak/off-peak time labels
    of update_peak_time_display ("HH:MM:SS"). Each format has a parser
    proved to invert it. */
module TimeFormat {

  import opened Types

  /** A millisecond count split the way the source does it with // and %. */
  datatype Clock = Clock(hours: nat, minutes: nat, seconds: nat, millis: nat)

  function TotalMs(c: Clock): nat
  {
    ClockSeconds(c.hours, c.minutes, c.seconds) * 1000 + c.millis
  }

  /** total_seconds = ms // 1000; hours = total_seconds // 3600;
      minutes = (total_seconds % 3600) // 60; seconds = total_seconds % 60;
      milliseconds = ms % 1000. */
  function SplitClock(ms: nat): (c: Clock)
    ensures c.minutes < 60 && c.seconds < 60 && c.millis < 1000
    ensures ClockSeconds(c.hours, c.minutes, c.seconds) == ms / 1000
    ensures TotalMs(c) == ms
  {
    var total := ms / 1000;
    HoursMinutesSeconds(total);
    Clock(total / 3600, (total % 3600) / 60, total % 60, ms % 1000)
  }

  /** Whole seconds of a clock reading. */
  function ClockSeconds(hours: nat, minutes: nat, seconds: nat): nat
  {
    (hours * 60 + minutes) * 60 + seconds
  }

  /** Hours, minutes and seconds recombine into the seconds they came from. */
  lemma HoursMinutesSeconds(total: nat)
    ensures ClockSeconds(total / 3600, (total % 3600) / 60, total % 60) == total
  {
    var h, r := total / 3600, total % 3600;
    var m, sec := r / 60, r % 60;
    var q := h * 60 + m;
    assert total == h * 3600 + r;
    assert r == m * 60 + sec;
    assert total == q * 60 + sec;
    ModOfSum(total, q, sec, 60);
  }

  /** q * d + rr with 0 <= rr < d leaves remainder rr. */
  lemma ModOfSum(x: int, q: int, rr: int, d: int)
    requires d > 0 && 0 <= rr < d && x == q * d + rr
    ensures x % d == rr
  {
    var t := x / d - q;
    assert x == (x / d) * d + x % d;
    assert t * d == rr - x % d;
  }

  predicate IsDigit(ch: char) { '0' <= ch <= '9' }

  predicate AllDigits(s: string)
  {
    forall i :: 0 <= i < |s| ==> IsDigit(s[i])
  }

  function DigitChar(d: nat): (ch: char)
    requires d < 10
    ensures IsDigit(ch) && ch as int - '0' as int == d
  {
    ('0' as int + d) as char
  }

  /** Decimal notation of n without leading zeros ("0" for zero). */
  function Digits(n: nat): (s: string)
    ensures |s| >= 1 && AllDigits(s)
  {
    if n < 10 then [DigitChar(n)] else Digits(n / 10) + [DigitChar(n % 10)]
  }

  function Zeros(k: nat): (s: string)
    ensures |s| == k && AllDigits(s)
  {
    if k == 0 then [] else Zeros(k - 1) + ['0']
  }

  /** Python's f"{n:0{width}d}" for a non-negative n: zero-padded to at
      least `width` characters, never truncated. */
  function Pad(n: nat, width: nat): (s: string)
    ensures AllDigits(s) && |s| >= width && |s| >= 1
  {
    var d := Digits(n);
    if |d| >= width then d else Zeros(width - |d|) + d
  }

  /** The number a string of digits denotes. */
  function Value(s: string): nat
    requires AllDigits(s)
  {
    if s == [] then 0 else Value(s[..|s| - 1]) * 10 + (s[|s| - 1] as int - '0' as int)
  }

  lemma {:induction false} ValueOfDigits(n: nat)
    ensures Value(Digits(n)) == n
  {
    if n >= 10 {
      var d := Digits(n);
      assert d[..|d| - 1] == Digits(n / 10);
      ValueOfDigits(n / 10);
    }
  }

  lemma {:induction false} ValueOfZeros(k: nat)
    ensures Value(Zeros(k)) == 0
  {
    if k > 0 {
      assert Zeros(k)[..k - 1] == Zeros(k - 1);
      ValueOfZeros(k - 1);
    }
  }

  /** Leading zeros do not change the value. */
  lemma {:induction false} ValueIgnoresLeadingZeros(k: nat, s: string)
    requires AllDigits(s)
    ensures AllDigits(Zeros(k) + s) && Value(Zeros(k) + s) == Value(s)
  {
    var z := Zeros(k) + s;
    if s == [] {
      assert z == Zeros(k);
      ValueOfZeros(k);
    } else {
      assert z[..|z| - 1] == Zeros(k) + s[..|s| - 1];
      ValueIgnoresLeadingZeros(k, s[..|s| - 1]);
    }
  }

  /** Parsing a padded number gives the number back. */
  lemma ValueOfPad(n: nat, width: nat)
    ensures Value(Pad(n, width)) == n
  {
    var d := Digits(n);
    ValueOfDigits(n);
    if |d| < width {
      ValueIgnoresLeadingZeros(width - |d|, d);
    }
  }

  lemma {:induction false} DigitsLength(n: nat, bound: nat, width: nat)
    requires width >= 1 && n < bound && bound == Pow10(width)
    ensures |Digits(n)| <= width
  {
    if n >= 10 {
      assert Pow10(1) == 10;
      assert n / 10 < Pow10(width - 1);
      DigitsLength(n / 10, Pow10(width - 1), width - 1);
    }
  }

  function Pow10(k: nat): nat
  {
    if k == 0 then 1 else 10 * Pow10(k - 1)
  }

  /** A number below 10^width pads to exactly width characters. */
  lemma PadLength(n: nat, width: nat)
    requires width >= 1 && n < Pow10(width)
    ensures |Pad(n, width)| == width
  {
    DigitsLength(n, Pow10(width), width);
  }

  /** format_time_for_filename (app.py:1067-1076). */
  function FilenameStamp(ms: nat): (r: string)
    ensures |r| >= 14
  {
    var c := SplitClock(ms);
    Pad(c.hours, 2) + "h" + Pad(c.minutes, 2) + "m" + Pad(c.seconds, 2) + "s" + Pad(c.millis, 3) + "ms"
  }

  /** update_timer_display's text (app.py:2132-2142). */
  function TimerText(ms: nat): (r: string)
    ensures |r| >= 12
  {
    var c := SplitClock(ms);
    Pad(c.hours, 2) + ":" + Pad(c.minutes, 2) + ":" + Pad(c.seconds, 2) + ":" + Pad(c.millis, 3)
  }

  /** The peak and off-peak time labels (app.py:2187-2194): HH:MM:SS of ms // 1000. */
  function PeakTimeText(ms: nat): (r: string)
    ensures |r| >= 8
  {
    var c := SplitClock(ms);
    Pad(c.hours, 2) + ":" + Pad(c.minutes, 2) + ":" + Pad(c.seconds, 2)
  }

  /** Reads "<hours>h<MM>m<SS>s<mmm>ms" back into milliseconds. */
  function ParseFilenameStamp(s: string): (r: Option<nat>)
  {
    if |s| < 14 then None
    else
      var n := |s| - 12;
      if AllDigits(s[..n]) && s[n] == 'h' && AllDigits(s[n + 1..n + 3]) && s[n + 3] == 'm'
         && AllDigits(s[n + 4..n + 6]) && s[n + 6] == 's' && AllDigits(s[n + 7..n + 10])
         && s[n + 10..] == "ms"
      then Some(TotalMs(Clock(Value(s[..n]), Value(s[n + 1..n + 3]), Value(s[n + 4..n + 6]), Value(s[n + 7..n + 10]))))
      else None
  }

  /** Reads "<hours>:<MM>:<SS>:<mmm>" back into milliseconds. */
  function ParseTimerText(s: string): (r: Option<nat>)
  {
    if |s| < 12 then None
    else
      var n := |s| - 10;
      if AllDigits(s[..n]) && s[n] == ':' && AllDigits(s[n + 1..n + 3]) && s[n + 3] == ':'
         && AllDigits(s[n + 4..n + 6]) && s[n + 6] == ':' && AllDigits(s[n + 7..])
      then Some(TotalMs(Clock(Value(s[..n]), Value(s[n + 1..n + 3]), Value(s[n + 4..n + 6]), Value(s[n + 7..]))))
      else None
  }

  /** Reads "<hours>:<MM>:<SS>" back into whole seconds. */
  function ParsePeakTimeText(s: string): (r: Option<nat>)
  {
    if |s| < 8 then None
    else
      var n := |s| - 6;
      if AllDigits(s[..n]) && s[n] == ':' && AllDigits(s[n + 1..n + 3]) && s[n + 3] == ':'
         && AllDigits(s[n + 4..])
      then Some(ClockSeconds(Value(s[..n]), Value(s[n + 1..n + 3]), Value(s[n + 4..])))
      else None
  }

  /** The alert-log timestamp loses nothing: it parses back to the time. */
  lemma FilenameStampRoundTrip(ms: nat)
    ensures ParseFilenameStamp(FilenameStamp(ms)) == Some(ms)
  {
    var c := SplitClock(ms);
    var a, b, d, e := Pad(c.hours, 2), Pad(c.minutes, 2), Pad(c.seconds, 2), Pad(c.millis, 3);
    PadLength(c.minutes, 2);
    PadLength(c.seconds, 2);
    PadLength(c.millis, 3);
    ValueOfPad(c.hours, 2);
    ValueOfPad(c.minutes, 2);
    ValueOfPad(c.seconds, 2);
    ValueOfPad(c.millis, 3);
    StampFields(a, b, d, e);
  }

  /** Where the fields of "<a>h<b>m<d>s<e>ms" sit. */
  lemma StampFields(a: string, b: string, d: string, e: string)
    requires |b| == 2 && |d| == 2 && |e| == 3
    ensures var s := a + "h" + b + "m" + d + "s" + e + "ms";
      var n := |a|;
      |s| == n + 12 && s[..n] == a && s[n] == 'h' && s[n + 1..n + 3] == b && s[n + 3] == 'm'
      && s[n + 4..n + 6] == d && s[n + 6] == 's' && s[n + 7..n + 10] == e && s[n + 10..] == "ms"
  {
    var s := a + "h" + b + "m" + d + "s" + e + "ms";
    assert s == a + ("h" + b + "m" + d + "s" + e + "ms");
  }

  /** Where the fields of "<a>:<b>:<d>:<e>" sit. */
  lemma TimerTextFields(a: string, b: string, d: string, e: string)
    requires |b| == 2 && |d| == 2 && |e| == 3
    ensures var s := a + ":" + b + ":" + d + ":" + e;
      var n := |a|;
      |s| == n + 10 && s[..n] == a && s[n] == ':' && s[n + 1..n + 3] == b && s[n + 3] == ':'
      && s[n + 4..n + 6] == d && s[n + 6] == ':' && s[n + 7..] == e
  {
    var s := a + ":" + b + ":" + d + ":" + e;
    assert s == a + (":" + b + ":" + d + ":" + e);
  }

  /** The timer text parses back to the time it shows. */
  lemma TimerTextRoundTrip(ms: nat)
    ensures ParseTimerText(TimerText(ms)) == Some(ms)
  {
    var c := SplitClock(ms);
    var a, b, d, e := Pad(c.hours, 2), Pad(c.minutes, 2), Pad(c.seconds, 2), Pad(c.millis, 3);
    PadLength(c.minutes, 2);
    PadLength(c.seconds, 2);
    PadLength(c.millis, 3);
    ValueOfPad(c.hours, 2);
    ValueOfPad(c.minutes, 2);
    ValueOfPad(c.seconds, 2);
    ValueOfPad(c.millis, 3);
    TimerTextFields(a, b, d, e);
  }

  /** The peak time label parses back to the whole seconds of the time. */
  lemma PeakTimeTextRoundTrip(ms: nat)
    ensures ParsePeakTimeText(PeakTimeText(ms)) == Some(ms / 1000)
  {
    var c := SplitClock(ms);
    var a, b, d := Pad(c.hours, 2), Pad(c.minutes, 2), Pad(c.seconds, 2);
    PadLength(c.minutes, 2);
    PadLength(c.seconds, 2);
    ValueOfPad(c.hours, 2);
    ValueOfPad(c.minutes, 2);
    ValueOfPad(c.seconds, 2);
    PeakFields(a, b, d);
  }

  /** Where the fields of "<a>:<b>:<d>" sit. */
  lemma PeakFields(a: string, b: string, d: string)
    requires |b| == 2 && |d| == 2
    ensures var s := a + ":" + b + ":" + d;
      var n := |a|;
      |s| == n + 6 && s[..n] == a && s[n] == ':' && s[n + 1..n + 3] == b && s[n + 3] == ':' && s[n + 4..] == d
  {
    var s := a + ":" + b + ":" + d;
    assert s == a + (":" + b + ":" + d);
  }

  /** Two distinct times never share an alert-log timestamp. */
  lemma FilenameStampInjective(ms1: nat, ms2: nat)
    requires FilenameStamp(ms1) == FilenameStamp(ms2)
    ensures ms1 == ms2
  {
    FilenameStampRoundTrip(ms1);
    FilenameStampRoundTrip(ms2);
  }
}
