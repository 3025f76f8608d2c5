/**
 * `formatTime(seconds)` of the extension's entry point: whole seconds as
 * `H:MM:SS` from one hour up and as `M:SS` below, the clock shown in the
 * status bar and in the daily stats message.
 */
module TimeFormat {
  import opened Wrappers
  import opened Js

  /** JavaScript's `%` on integers, whose result takes the sign of the dividend. */
  function JsRem(a: int, b: int): (r: int)
    requires b > 0
    ensures a >= 0 ==> r == a % b
    ensures -b < r < b
  {
    if a >= 0 then a % b else -((-a) % b)
  }

  function Hours(seconds: int): int { seconds / 3600 }

  function Minutes(seconds: int): int { JsRem(seconds, 3600) / 60 }

  function Secs(seconds: int): int { JsRem(seconds, 60) }

  /** `padStart(width, fill)`: the fill characters that bring `s` up to `width`, then `s`. */
  function PadStart(s: string, width: nat, fill: char): (r: string)
    ensures |s| >= width ==> r == s
    ensures |s| < width ==> |r| == width && r[width - |s|..] == s
    ensures |s| < width ==> forall k :: 0 <= k < width - |s| ==> r[k] == fill
    decreases width - |s|
  {
    if |s| >= width then s else PadStart([fill] + s, width, fill)
  }

  /** `n.toString().padStart(2, '0')`. */
  function TwoDigits(n: int): string
  {
    PadStart(IntToString(n), 2, '0')
  }

  /** `formatTime(seconds)`. */
  function FormatTime(seconds: int): string
  {
    var hours := Hours(seconds);
    var minutes := Minutes(seconds);
    var secs := Secs(seconds);
    if hours > 0 then IntToString(hours) + ":" + TwoDigits(minutes) + ":" + TwoDigits(secs)
    else IntToString(minutes) + ":" + TwoDigits(secs)
  }

  // ---------------------------------------------------------------- the components

  /** For a non-negative count, minutes and seconds are clock digits. */
  lemma ComponentsInRange(seconds: int)
    requires seconds >= 0
    ensures Hours(seconds) >= 0
    ensures 0 <= Minutes(seconds) < 60 && 0 <= Secs(seconds) < 60
    ensures Minutes(seconds) == (seconds % 3600) / 60
  {
  }

  /** The components add back up to the count. */
  lemma ComponentsRecombine(seconds: int)
    requires seconds >= 0
    ensures Hours(seconds) * 3600 + Minutes(seconds) * 60 + Secs(seconds) == seconds
  {
    var h, r := seconds / 3600, seconds % 3600;
    assert seconds == h * 3600 + r;
    var m, s := r / 60, r % 60;
    assert r == m * 60 + s;
    assert seconds == (h * 60 + m) * 60 + s;
    RemainderBySixty(h * 60 + m, s, seconds);
  }

  /** The remainder of `q * 60 + r` by sixty, for `r` in `0..59`, is `r`. */
  lemma RemainderBySixty(q: int, r: int, a: int)
    requires 0 <= r < 60 && a == q * 60 + r
    ensures a % 60 == r
  {
  }

  /** Below an hour there are no hour digits. */
  lemma NoHoursBelowAnHour(seconds: int)
    requires 0 <= seconds < 3600
    ensures Hours(seconds) == 0 && Minutes(seconds) == seconds / 60
  {
  }

  /** A single digit gets a leading zero; two digits stay as they are. */
  lemma TwoDigitsShape(n: int)
    requires 0 <= n < 60
    ensures |TwoDigits(n)| == 2 && AllDigits(TwoDigits(n))
    ensures ParseNat(TwoDigits(n)) == n
    ensures n < 10 ==> TwoDigits(n) == ['0', DigitChar(n)]
  {
    ParseNatToString(n);
    var s := NatToString(n);
    if n < 10 {
      assert s == [DigitChar(n)];
      assert PadStart(s, 2, '0') == PadStart(['0'] + s, 2, '0');
      assert TwoDigits(n) == ['0'] + s;
      assert (['0'] + s)[..1] == ['0'];
    } else {
      assert |NatToString(n / 10)| == 1;
    }
  }

  /** `formatTime` shows `H:MM:SS` from one hour up and `M:SS` below it. */
  lemma FormatShape(seconds: int)
    requires seconds >= 0
    ensures seconds >= 3600 ==>
              FormatTime(seconds) == NatToString(Hours(seconds)) + ":" + TwoDigits(Minutes(seconds)) + ":" + TwoDigits(Secs(seconds))
    ensures seconds < 3600 ==>
              FormatTime(seconds) == NatToString(Minutes(seconds)) + ":" + TwoDigits(Secs(seconds))
  {
    ComponentsInRange(seconds);
  }

  /** Ninety minutes and five seconds read `1:30:05`; five seconds read `0:05`. */
  lemma Examples()
    ensures FormatTime(5405) == "1:30:05"
    ensures FormatTime(5) == "0:05"
  {
    assert Hours(5405) == 1 && Minutes(5405) == 30 && Secs(5405) == 5;
    TwoDigitsShape(30);
    TwoDigitsShape(5);
    assert NatToString(30) == "30" by {
      assert NatToString(3) == "3";
    }
    assert TwoDigits(30) == "30";
    assert TwoDigits(5) == "05";
    assert NatToString(1) == "1";
    assert NatToString(0) == "0";
  }

  // ---------------------------------------------------------------- reading a clock back

  /** The pieces of `t` between occurrences of `sep`, as `split(sep)` gives them. */
  function Split(t: string, sep: char): (r: seq<string>)
    ensures |r| >= 1
  {
    if t == [] then [""]
    else
      var rest := Split(t[1..], sep);
      if t[0] == sep then [""] + rest else [[t[0]] + rest[0]] + rest[1..]
  }

  /** A prefix without the separator is glued onto the first piece. */
  lemma {:induction false} SplitPrefix(a: string, b: string, sep: char)
    requires sep !in a
    ensures Split(a + b, sep) == [a + Split(b, sep)[0]] + Split(b, sep)[1..]
  {
    if a != [] {
      assert (a + b)[1..] == a[1..] + b;
      SplitPrefix(a[1..], b, sep);
      assert [a[0]] + (a[1..] + Split(b, sep)[0]) == a + Split(b, sep)[0];
    } else {
      assert a + b == b;
      var r := Split(b, sep);
      assert a + r[0] == r[0];
      assert r == [r[0]] + r[1..];
    }
  }

  /** A piece followed by the separator splits off whole. */
  lemma SplitField(a: string, b: string, sep: char)
    requires sep !in a
    ensures Split(a + [sep] + b, sep) == [a] + Split(b, sep)
  {
    assert a + [sep] + b == a + ([sep] + b);
    SplitPrefix(a, [sep] + b, sep);
    assert ([sep] + b)[1..] == b;
    assert Split([sep] + b, sep) == [""] + Split(b, sep);
    assert a + "" == a;
  }

  lemma SplitWhole(a: string, sep: char)
    requires sep !in a
    ensures Split(a, sep) == [a]
  {
    SplitPrefix(a, "", sep);
    assert a + "" == a;
  }

  /** Reads `H:MM:SS` or `M:SS` back into seconds. */
  function ParseClock(t: string): Option<nat>
  {
    ParseFields(Split(t, ':'))
  }

  /** The seconds a clock's `:`-separated fields stand for. */
  function ParseFields(fields: seq<string>): Option<nat>
  {
    if |fields| == 3 && AllDigits(fields[0]) && AllDigits(fields[1]) && AllDigits(fields[2]) then
      Some(ClockValue(ParseNat(fields[0]), ParseNat(fields[1]), ParseNat(fields[2])))
    else if |fields| == 2 && AllDigits(fields[0]) && AllDigits(fields[1]) then
      Some(ClockValue(0, ParseNat(fields[0]), ParseNat(fields[1])))
    else None
  }

  /** The seconds in `h` hours, `m` minutes and `s` seconds. */
  function ClockValue(h: nat, m: nat, s: nat): nat
  {
    h * 3600 + m * 60 + s
  }

  lemma DigitsHaveNoColon(s: string)
    requires AllDigits(s)
    ensures ':' !in s
  {
  }

  /** `a:b:c`, three numerals, reads back as that many hours, minutes and seconds. */
  lemma ParseThreeNumerals(a: string, b: string, c: string)
    requires AllDigits(a) && AllDigits(b) && AllDigits(c)
    ensures ParseClock(a + ":" + b + ":" + c) == Some(ClockValue(ParseNat(a), ParseNat(b), ParseNat(c)))
  {
    var t := a + ":" + b + ":" + c;
    assert Split(t, ':') == [a, b, c] by {
      DigitsHaveNoColon(a);
      DigitsHaveNoColon(b);
      DigitsHaveNoColon(c);
      SplitThree(a, b, c, ':');
      assert t == a + [':'] + b + [':'] + c;
    }
    var fields := [a, b, c];
    assert |fields| == 3 && fields[0] == a && fields[1] == b && fields[2] == c;
  }

  /** `a:b`, two numerals, reads back as that many minutes and seconds. */
  lemma ParseTwoNumerals(a: string, b: string)
    requires AllDigits(a) && AllDigits(b)
    ensures ParseClock(a + ":" + b) == Some(ClockValue(0, ParseNat(a), ParseNat(b)))
  {
    var t := a + ":" + b;
    assert Split(t, ':') == [a, b] by {
      DigitsHaveNoColon(a);
      DigitsHaveNoColon(b);
      SplitWhole(b, ':');
      SplitField(a, b, ':');
      assert t == a + [':'] + b;
    }
    var fields := [a, b];
    assert |fields| == 2 && fields[0] == a && fields[1] == b;
  }

  lemma SplitThree(a: string, b: string, c: string, sep: char)
    requires sep !in a && sep !in b && sep !in c
    ensures Split(a + [sep] + b + [sep] + c, sep) == [a, b, c]
  {
    SplitWhole(c, sep);
    SplitField(b, c, sep);
    SplitField(a, b + [sep] + c, sep);
    assert a + [sep] + b + [sep] + c == a + [sep] + (b + [sep] + c);
  }

  /** `H:MM:SS` reads back as its hours, minutes and seconds. */
  lemma ParseLongClock(h: nat, m: nat, s: nat)
    requires m < 60 && s < 60
    ensures ParseClock(NatToString(h) + ":" + TwoDigits(m) + ":" + TwoDigits(s)) == Some(ClockValue(h, m, s))
  {
    TwoDigitsShape(m);
    TwoDigitsShape(s);
    ParseNatToString(h);
    ParseThreeNumerals(NatToString(h), TwoDigits(m), TwoDigits(s));
  }

  /** `M:SS` reads back as its minutes and seconds. */
  lemma ParseShortClock(m: nat, s: nat)
    requires s < 60
    ensures ParseClock(NatToString(m) + ":" + TwoDigits(s)) == Some(ClockValue(0, m, s))
  {
    TwoDigitsShape(s);
    ParseNatToString(m);
    ParseTwoNumerals(NatToString(m), TwoDigits(s));
  }

  /** Every non-negative count reads back from its clock. */
  lemma FormatRoundTrip(seconds: int)
    requires seconds >= 0
    ensures ParseClock(FormatTime(seconds)) == Some(seconds)
  {
    ComponentsInRange(seconds);
    ComponentsRecombine(seconds);
    FormatShape(seconds);
    if seconds >= 3600 {
      ParseLongClock(Hours(seconds), Minutes(seconds), Secs(seconds));
    } else {
      ParseShortClock(Minutes(seconds), Secs(seconds));
    }
  }

  /** Two different non-negative counts never show the same clock. */
  lemma FormatInjective(a: int, b: int)
    requires a >= 0 && b >= 0 && FormatTime(a) == FormatTime(b)
    ensures a == b
  {
    FormatRoundTrip(a);
    FormatRoundTrip(b);
  }
}
