/**
 * The timestamp formatter of the video info panel (mediaPlayer.js
 * `formatTime`), and a reader for its output that shows what it encodes.
 */
module Clock {
  import opened Wrappers

  predicate IsDigitChar(c: char)
  {
    '0' <= c <= '9'
  }

  predicate AllDigits(s: string)
  {
    forall i :: 0 <= i < |s| ==> IsDigitChar(s[i])
  }

  function DigitChar(d: nat): (c: char)
    requires d < 10
    ensures IsDigitChar(c)
  {
    ('0' as int + d) as char
  }

  /** The value of a string of decimal digits, most significant first. */
  function DigitsValue(s: string): nat
    requires AllDigits(s)
  {
    if s == [] then 0
    else DigitsValue(s[..|s| - 1]) * 10 + (s[|s| - 1] as int - '0' as int)
  }

  /** `n.toString()` for a whole number: its decimal digits without leading zeros. */
  function NatToString(n: nat): (s: string)
    ensures |s| >= 1 && AllDigits(s)
    ensures n >= 10 ==> s[0] != '0'
    ensures n < 100 ==> |s| <= 2
  {
    if n < 10 then [DigitChar(n)]
    else NatToString(n / 10) + [DigitChar(n % 10)]
  }

  /** `s.padStart(2, '0')`: zeros in front up to a width of two; a longer string is kept whole. */
  function PadStart2(s: string): (r: string)
    ensures |r| == if |s| >= 2 then |s| else 2
  {
    if |s| >= 2 then s else seq(2 - |s|, _ => '0') + s
  }

  /**
   * `formatTime(seconds)`, with `None` for NaN and the whole seconds otherwise:
   * `MM:SS` under an hour, `HH:MM:SS` from an hour on.
   */
  function FormatTime(seconds: Option<nat>): (r: string)
    ensures |r| >= 5 && r[|r| - 3] == ':'
    ensures seconds.None? ==> r == "00:00"
  {
    match seconds
    case None => "00:00"
    case Some(t) =>
      var hours := t / 3600;
      var minutes := (t % 3600) / 60;
      var secs := t % 60;
      if hours > 0 then
        PadStart2(NatToString(hours)) + ":" + PadStart2(NatToString(minutes)) + ":" + PadStart2(NatToString(secs))
      else
        PadStart2(NatToString(minutes)) + ":" + PadStart2(NatToString(secs))
  }

  /**
   * Reads a clock text `MM:SS` or `H…H:MM:SS` back into seconds: two-digit
   * minute and second fields, and an hour field of at least two digits.
   */
  function ParseClock(text: string): Option<nat>
  {
    var n := |text|;
    if n < 5 || text[n - 3] != ':' then None
    else
      var mm, ss := text[n - 5..n - 3], text[n - 2..];
      if !AllDigits(mm) || !AllDigits(ss) then None
      else if n == 5 then Some(DigitsValue(mm) * 60 + DigitsValue(ss))
      else if n >= 8 && text[n - 6] == ':' && AllDigits(text[..n - 6]) then
        Some(DigitsValue(text[..n - 6]) * 3600 + DigitsValue(mm) * 60 + DigitsValue(ss))
      else None
  }

  /** Two fixed-width digits of a number below 100. */
  function TwoDigits(n: nat): (s: string)
    requires n < 100
    ensures |s| == 2 && AllDigits(s)
  {
    [DigitChar(n / 10), DigitChar(n % 10)]
  }

  lemma {:induction false} DigitsValueSnoc(s: string, c: char)
    requires AllDigits(s) && IsDigitChar(c)
    ensures AllDigits(s + [c]) && DigitsValue(s + [c]) == DigitsValue(s) * 10 + (c as int - '0' as int)
  {
    assert (s + [c])[..|s|] == s;
  }

  /** The decimal text of `n` reads back as `n`. */
  lemma {:induction false} NatToStringValue(n: nat)
    ensures DigitsValue(NatToString(n)) == n
  {
    if n < 10 {
      assert NatToString(n)[..0] == [];
    } else {
      NatToStringValue(n / 10);
      DigitsValueSnoc(NatToString(n / 10), DigitChar(n % 10));
    }
  }

  /** One digit below 10, two below 100, three or more from 100 on. */
  lemma {:induction false} NatToStringLength(n: nat)
    ensures n < 10 <==> |NatToString(n)| == 1
    ensures 10 <= n < 100 <==> |NatToString(n)| == 2
    ensures n >= 100 <==> |NatToString(n)| >= 3
  {
    if n >= 10 {
      NatToStringLength(n / 10);
    }
  }

  /** `padStart(2, '0')` keeps the whole text at its end and puts only zeros in front of it. */
  lemma PadStart2Shape(s: string)
    ensures PadStart2(s)[|PadStart2(s)| - |s|..] == s
    ensures forall i :: 0 <= i < |PadStart2(s)| - |s| ==> PadStart2(s)[i] == '0'
  {
  }

  /** Padding a number below 100 to width two gives its fixed-width digits. */
  lemma PadStart2Small(n: nat)
    requires n < 100
    ensures PadStart2(NatToString(n)) == TwoDigits(n)
  {
    NatToStringLength(n);
    if n < 10 {
      assert PadStart2(NatToString(n)) == ['0'] + NatToString(n);
    } else {
      assert NatToString(n / 10) == [DigitChar(n / 10)];
    }
  }

  lemma TwoDigitsValue(n: nat)
    requires n < 100
    ensures DigitsValue(TwoDigits(n)) == n
  {
    var hi, lo := DigitChar(n / 10), DigitChar(n % 10);
    assert [] + [hi] == [hi] && [hi] + [lo] == TwoDigits(n);
    DigitsValueSnoc([], hi);
    DigitsValueSnoc([hi], lo);
  }

  /** Padding keeps the value of a number's digits, and keeps any width of two or more. */
  lemma PadStart2Value(n: nat)
    ensures AllDigits(PadStart2(NatToString(n)))
    ensures DigitsValue(PadStart2(NatToString(n))) == n
    ensures n >= 10 ==> PadStart2(NatToString(n)) == NatToString(n)
  {
    NatToStringLength(n);
    if n < 100 {
      PadStart2Small(n);
      TwoDigitsValue(n);
    } else {
      NatToStringValue(n);
    }
  }

  /** Under an hour the text is `MM:SS`: whole minutes, then the seconds left over, two digits each. */
  lemma FormatTimeShort(t: nat)
    requires t < 3600
    ensures FormatTime(Some(t)) == TwoDigits(t / 60) + ":" + TwoDigits(t % 60)
  {
    PadStart2Small(t / 60);
    PadStart2Small(t % 60);
  }

  /**
   * From an hour on the text is `HH:MM:SS`: the hours padded to at least two
   * digits, then the minute and second fields, both below 60 and two digits wide.
   */
  lemma FormatTimeLong(t: nat)
    requires t >= 3600
    ensures (t % 3600) / 60 < 60 && t % 60 < 60
    ensures FormatTime(Some(t))
         == PadStart2(NatToString(t / 3600)) + ":" + TwoDigits((t % 3600) / 60) + ":" + TwoDigits(t % 60)
  {
    PadStart2Small((t % 3600) / 60);
    PadStart2Small(t % 60);
  }

  /** `padStart` only sets a minimum width: 100 hours or more print with three or more hour digits. */
  lemma FormatTimeWideHours(t: nat)
    requires t >= 3600
    ensures t / 3600 >= 100 <==> |FormatTime(Some(t))| > 8
  {
    FormatTimeLong(t);
    NatToStringLength(t / 3600);
  }

  /** NaN prints like zero seconds. */
  lemma FormatTimeNaN()
    ensures FormatTime(None) == FormatTime(Some(0))
  {
    PadStart2Small(0);
  }

  /** A short clock text reads back as its minutes and seconds. */
  lemma ParseShort(m: nat, s: nat)
    requires m < 100 && s < 100
    ensures ParseClock(TwoDigits(m) + ":" + TwoDigits(s)) == Some(m * 60 + s)
  {
    var text := TwoDigits(m) + ":" + TwoDigits(s);
    assert text[0..2] == TwoDigits(m) && text[3..] == TwoDigits(s);
    TwoDigitsValue(m);
    TwoDigitsValue(s);
  }

  /** Where the fields of `hh:mm:ss` sit, counted from the end. */
  lemma LongLayout(hh: string, mm: string, ss: string)
    requires |mm| == 2 && |ss| == 2
    ensures var text := hh + ":" + mm + ":" + ss; var n := |text|;
      n == |hh| + 6 && text[..n - 6] == hh && text[n - 6] == ':' &&
      text[n - 5..n - 3] == mm && text[n - 3] == ':' && text[n - 2..] == ss
  {
    var text := hh + ":" + mm + ":" + ss;
    assert text == hh + [':', mm[0], mm[1], ':', ss[0], ss[1]];
  }

  /**
   * A long clock text, given by where its fields sit, reads back as the hours,
   * minutes and seconds its digit fields spell.
   */
  lemma ParseLong(text: string, hh: string, mm: string, ss: string, t: nat)
    requires AllDigits(hh) && AllDigits(mm) && AllDigits(ss)
    requires |hh| >= 2 && |mm| == 2 && |ss| == 2
    requires var n := |text|;
      n == |hh| + 6 && text[..n - 6] == hh && text[n - 6] == ':' &&
      text[n - 5..n - 3] == mm && text[n - 3] == ':' && text[n - 2..] == ss
    requires DigitsValue(hh) * 3600 + DigitsValue(mm) * 60 + DigitsValue(ss) == t
    ensures ParseClock(text) == Some(t)
  {
  }

  /** The fields of a long clock text, counted from the end. */
  lemma FormatTimeLongLayout(t: nat)
    requires t >= 3600
    ensures var text, hh := FormatTime(Some(t)), PadStart2(NatToString(t / 3600));
      var mm, ss := TwoDigits((t % 3600) / 60), TwoDigits(t % 60);
      var n := |text|;
      n == |hh| + 6 && text[..n - 6] == hh && text[n - 6] == ':' &&
      text[n - 5..n - 3] == mm && text[n - 3] == ':' && text[n - 2..] == ss
  {
    FormatTimeLong(t);
    LongLayout(PadStart2(NatToString(t / 3600)), TwoDigits((t % 3600) / 60), TwoDigits(t % 60));
  }

  /** Euclidean remainder by 60, identified from one decomposition. */
  lemma Mod60(n: int, k: int, b: int)
    requires 0 <= b < 60 && n == k * 60 + b
    ensures n % 60 == b
  {
  }

  /** Hours, minutes and seconds as `formatTime` computes them add back up to the input. */
  lemma ClockSplit(t: nat)
    ensures t == (t / 3600) * 3600 + ((t % 3600) / 60) * 60 + t % 60
  {
    var q, r := t / 3600, t % 3600;
    var a, b := r / 60, r % 60;
    assert t == (60 * q + a) * 60 + b;
    Mod60(t, 60 * q + a, b);
  }

  /** The three fields `formatTime` prints from an hour on are digits, and their values add back up to the input. */
  lemma LongFieldValues(t: nat)
    requires t >= 3600
    ensures var hh := PadStart2(NatToString(t / 3600));
      var mm, ss := TwoDigits((t % 3600) / 60), TwoDigits(t % 60);
      AllDigits(hh) && |hh| >= 2 &&
      DigitsValue(hh) * 3600 + DigitsValue(mm) * 60 + DigitsValue(ss) == t
  {
    var h, m, s := t / 3600, (t % 3600) / 60, t % 60;
    PadStart2Value(h);
    NatToStringLength(h);
    TwoDigitsValue(m);
    TwoDigitsValue(s);
    ClockSplit(t);
  }

  /** From an hour on, the `HH:MM:SS` text reads back as the seconds it was made from. */
  lemma LongRoundTrip(t: nat)
    requires t >= 3600
    ensures ParseClock(FormatTime(Some(t))) == Some(t)
  {
    FormatTimeLongLayout(t);
    LongFieldValues(t);
    ParseLong(FormatTime(Some(t)), PadStart2(NatToString(t / 3600)), TwoDigits((t % 3600) / 60), TwoDigits(t % 60), t);
  }

  /** The text always reads back as the whole seconds it was made from. */
  lemma FormatTimeRoundTrip(t: nat)
    ensures ParseClock(FormatTime(Some(t))) == Some(t)
  {
    if t < 3600 {
      FormatTimeShort(t);
      ParseShort(t / 60, t % 60);
    } else {
      LongRoundTrip(t);
    }
  }
}
