/** Session-duration rendering of the statistics view: a second count shown as
    zero-padded HH:MM:SS, with an hour field that never wraps. */
module DurationFormat {

  datatype Option<T> = None | Some(value: T)

  const SecondsPerMinute: nat := 60
  const SecondsPerHour: nat := 3600

  predicate IsDigit(c: char) { '0' <= c <= '9' }

  predicate AllDigits(s: string) { forall i :: 0 <= i < |s| ==> IsDigit(s[i]) }

  function DigitChar(d: nat): (c: char)
    requires d < 10
    ensures IsDigit(c)
  {
    ('0' as int + d) as char
  }

  function DigitValue(c: char): (d: nat)
    requires IsDigit(c)
    ensures d < 10
  {
    c as int - '0' as int
  }

  /** The decimal text of `n`, as Python's `str` renders a non-negative int. */
  function Decimal(n: nat): (r: string)
    ensures 1 <= |r| && AllDigits(r)
    ensures n < 10 <==> |r| == 1
    ensures n < 100 ==> |r| <= 2
    ensures 10 <= n ==> r[0] != '0'
    decreases n
  {
    if n < 10 then [DigitChar(n)] else Decimal(n / 10) + [DigitChar(n % 10)]
  }

  /** The number a string of decimal digits denotes (leading zeros allowed). */
  function ValueOf(s: string): nat
    requires AllDigits(s)
  {
    if s == [] then 0 else ValueOf(s[..|s| - 1]) * 10 + DigitValue(s[|s| - 1])
  }

  lemma {:induction false} ValueOfDecimal(n: nat)
    ensures ValueOf(Decimal(n)) == n
    decreases n
  {
    if n >= 10 {
      var r := Decimal(n);
      assert r[..|r| - 1] == Decimal(n / 10);
      ValueOfDecimal(n / 10);
    }
  }

  lemma {:induction false} ValueOfLeadingZero(s: string)
    requires AllDigits(s)
    ensures AllDigits("0" + s) && ValueOf("0" + s) == ValueOf(s)
    decreases |s|
  {
    var z := "0" + s;
    assert AllDigits(z);
    if s != [] {
      assert z[..|z| - 1] == "0" + s[..|s| - 1];
      ValueOfLeadingZero(s[..|s| - 1]);
    }
  }

  /** Python's `{n:02d}` for a non-negative n: decimal, zero-padded to width two. */
  function Pad2(n: nat): (r: string)
    ensures 2 <= |r| && AllDigits(r)
    ensures n < 100 ==> |r| == 2
    ensures 10 <= n ==> r[0] != '0'
    ensures ValueOf(r) == n
  {
    ValueOfDecimal(n);
    if n < 10 then
      ValueOfLeadingZero(Decimal(n));
      "0" + Decimal(n)
    else Decimal(n)
  }

  /** The count the formatter works on: Python's `max(0, int(seconds))`, and 0
      when `int(seconds)` raised (None). */
  function TotalSeconds(seconds: Option<int>): (total: nat)
    ensures seconds.Some? && seconds.value >= 0 ==> total == seconds.value
    ensures seconds.None? || seconds.value <= 0 ==> total == 0
  {
    match seconds
    case None => 0
    case Some(n) => if n < 0 then 0 else n
  }

  function Hours(total: nat): nat { total / SecondsPerHour }
  function Minutes(total: nat): nat { (total % SecondsPerHour) / SecondsPerMinute }
  function Seconds(total: nat): nat { total % SecondsPerMinute }

  /** The three clock fields recompose the total; minutes and seconds stay in
      [0, 59] and the hour field is not bounded. */
  lemma ClockFieldsRecompose(total: nat)
    ensures Hours(total) * SecondsPerHour + Minutes(total) * SecondsPerMinute + Seconds(total) == total
    ensures Minutes(total) < 60 && Seconds(total) < 60
    ensures Hours(total) == total / 3600
  {
  }

  /** Conversely, any split into hours and in-range minutes and seconds is the
      one the formatter computes. */
  lemma ClockFieldsUnique(total: nat, h: nat, m: nat, s: nat)
    requires m < 60 && s < 60
    requires h * 3600 + m * 60 + s == total
    ensures h == Hours(total) && m == Minutes(total) && s == Seconds(total)
  {
  }

  /** `_format_duration_hhmmss`: "H..:MM:SS", each field padded to two digits. */
  function FormatDuration(seconds: Option<int>): (r: string)
    ensures 8 <= |r|
    ensures r[|r| - 3] == ':' && r[|r| - 6] == ':'
  {
    var total := TotalSeconds(seconds);
    var m := Minutes(total);
    var s := Seconds(total);
    assert m < 60 && s < 60;
    Pad2(Hours(total)) + ":" + Pad2(m) + ":" + Pad2(s)
  }

  /** Reads back a clock string "H..:MM:SS" as a second count; an independent
      reference for what the formatted text means. */
  function ParseClock(r: string): Option<nat>
  {
    if |r| < 8 || r[|r| - 3] != ':' || r[|r| - 6] != ':' then None
    else
      var hh, mm, ss := r[..|r| - 6], r[|r| - 5..|r| - 3], r[|r| - 2..];
      if !AllDigits(hh) || !AllDigits(mm) || !AllDigits(ss) then None
      else if ValueOf(mm) >= 60 || ValueOf(ss) >= 60 then None
      else Some(ValueOf(hh) * 3600 + ValueOf(mm) * 60 + ValueOf(ss))
  }

  /** `r` is "hh:mm:ss" (with an hour field of any width) whose fields, read as
      decimals, are `h`, `m` and `s`. */
  predicate HasClockFields(r: string, h: nat, m: nat, s: nat)
  {
    8 <= |r| && r[|r| - 3] == ':' && r[|r| - 6] == ':' &&
    AllDigits(r[..|r| - 6]) && AllDigits(r[|r| - 5..|r| - 3]) && AllDigits(r[|r| - 2..]) &&
    ValueOf(r[..|r| - 6]) == h && ValueOf(r[|r| - 5..|r| - 3]) == m && ValueOf(r[|r| - 2..]) == s
  }

  /** The three fields of the output, read as decimals, are the hours (not
      wrapped), minutes and seconds of the clamped total; from ten hours on the
      hour field carries no padding zero. */
  lemma FormatDurationFields(seconds: Option<int>)
    ensures var total := TotalSeconds(seconds);
      HasClockFields(FormatDuration(seconds), Hours(total), Minutes(total), Seconds(total))
    ensures TotalSeconds(seconds) >= 36000 ==> FormatDuration(seconds)[0] != '0'
  {
    var total := TotalSeconds(seconds);
    ClockTextParts(Pad2(Hours(total)), Pad2(Minutes(total)), Pad2(Seconds(total)));
  }

  /** The three fields of "hh:mm:ss" can be cut back out of the text by position
      from its end, whatever the width of the hour field. */
  lemma ClockTextParts(hh: string, mm: string, ss: string)
    requires |mm| == 2 && |ss| == 2
    ensures var r := hh + ":" + mm + ":" + ss;
      |r| == |hh| + 6 && r[..|r| - 6] == hh && r[|r| - 5..|r| - 3] == mm && r[|r| - 2..] == ss
  {
    var r := hh + ":" + mm + ":" + ss;
    assert r[..|r| - 6] == hh;
    assert r[|r| - 5..|r| - 3] == mm;
  }

  /** Round trip: parsing the formatted text gives back the clamped second count. */
  lemma ParseFormatDuration(seconds: Option<int>)
    ensures ParseClock(FormatDuration(seconds)) == Some(TotalSeconds(seconds))
  {
    FormatDurationFields(seconds);
    ClockFieldsRecompose(TotalSeconds(seconds));
  }

  /** Different totals never render to the same text. */
  lemma FormatDurationInjective(a: Option<int>, b: Option<int>)
    requires FormatDuration(a) == FormatDuration(b)
    ensures TotalSeconds(a) == TotalSeconds(b)
  {
    ParseFormatDuration(a);
    ParseFormatDuration(b);
  }

  /** A negative count, zero, or one whose integer conversion failed is shown as
      exactly "00:00:00". */
  lemma FormatDurationClampsToZero(seconds: Option<int>)
    requires seconds.None? || seconds.value <= 0
    ensures FormatDuration(seconds) == "00:00:00"
  {
  }

  /** Below 100 hours every field has exactly two digits, so the text has 8
      characters; from 100 hours on the hour field grows instead of wrapping. */
  lemma FormatDurationLength(seconds: Option<int>)
    ensures TotalSeconds(seconds) < 360000 ==> |FormatDuration(seconds)| == 8
    ensures TotalSeconds(seconds) >= 360000 ==> |FormatDuration(seconds)| > 8
  {
  }
}
