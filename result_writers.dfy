/**
 * The result texts written when a game ends (controllers/writers/ResultWriter.java and
 * ResultAndDateWriter.java), with the decimal rendering Java's string concatenation applies
 * to an `int`, and the parsers that read the numbers back.
 */
module ResultWriters {
  import opened Options

  /** The character of the decimal digit `d`. */
  function DigitChar(d: int): (c: char)
    requires 0 <= d < 10
    ensures '0' <= c <= '9'
    ensures c as int - '0' as int == d
  {
    ('0' as int + d) as char
  }

  /** The value of a decimal digit character, or None for any other character. */
  function DigitValue(c: char): (d: Option<int>)
    ensures d.Some? <==> '0' <= c <= '9'
    ensures d.Some? ==> 0 <= d.value < 10 && DigitChar(d.value) == c
  {
    if '0' <= c <= '9' then Some(c as int - '0' as int) else None
  }

  /** The digits of `n` in base ten, most significant first, without leading zeros. */
  function Digits(n: nat): (s: string)
    ensures 1 <= |s|
    ensures forall i :: 0 <= i < |s| ==> '0' <= s[i] <= '9'
    ensures n > 0 ==> s[0] != '0'
  {
    if n < 10 then [DigitChar(n)] else Digits(n / 10) + [DigitChar(n % 10)]
  }

  /** Java's rendering of an `int` in a string concatenation: a minus sign, then the digits. */
  function DecimalString(n: int): (s: string)
    ensures 1 <= |s|
    ensures s[0] == '-' <==> n < 0
    ensures forall i :: 0 < i < |s| ==> '0' <= s[i] <= '9'
    ensures ' ' !in s && '\n' !in s
  {
    if n < 0 then "-" + Digits(-n) else Digits(n)
  }

  /** Reads a non-empty string of decimal digits; None when a character is not a digit. */
  function ParseDigits(s: string): (n: Option<nat>)
    ensures s == [] ==> n == None
  {
    if |s| == 0 then None
    else
      match DigitValue(s[|s| - 1])
      case None => None
      case Some(d) =>
        if |s| == 1 then Some(d)
        else
          match ParseDigits(s[..|s| - 1])
          case None => None
          case Some(m) => Some(10 * m + d)
  }

  /** Reads an optionally negative decimal number. */
  function ParseDecimal(s: string): (n: Option<int>)
    ensures s == [] ==> n == None
  {
    if |s| > 0 && s[0] == '-' then
      match ParseDigits(s[1..])
      case None => None
      case Some(m) => Some(-(m as int))
    else
      match ParseDigits(s)
      case None => None
      case Some(m) => Some(m)
  }

  /** Reading the digits of `n` back gives `n`. */
  lemma {:induction false} DigitsRoundTrip(n: nat)
    ensures ParseDigits(Digits(n)) == Some(n)
  {
    var s := Digits(n);
    if n >= 10 {
      DigitsRoundTrip(n / 10);
      assert s[..|s| - 1] == Digits(n / 10);
      assert s[|s| - 1] == DigitChar(n % 10);
    }
  }

  /** A minus sign in front of digits that read as `m` reads as `-m`. */
  lemma ParseNegative(d: string, m: nat)
    requires ParseDigits(d) == Some(m)
    ensures ParseDecimal("-" + d) == Some(-(m as int))
  {
    assert ("-" + d)[1..] == d;
  }

  /** Digits that read as `m` and do not start with a minus sign read as `m`. */
  lemma ParseNonNegative(d: string, m: nat)
    requires ParseDigits(d) == Some(m) && d[0] != '-'
    ensures ParseDecimal(d) == Some(m)
  {
  }

  /** Reading the rendering of any `int` back gives that `int`. */
  lemma DecimalRoundTrip(n: int)
    ensures ParseDecimal(DecimalString(n)) == Some(n)
  {
    if n < 0 {
      DigitsRoundTrip(-n);
      ParseNegative(Digits(-n), -n);
    } else {
      DigitsRoundTrip(n);
      ParseNonNegative(Digits(n), n);
    }
  }

  /** The rendering is injective: two `int`s with the same text are equal. */
  lemma DecimalInjective(m: int, n: int)
    ensures DecimalString(m) == DecimalString(n) ==> m == n
  {
    DecimalRoundTrip(m);
    DecimalRoundTrip(n);
  }

  const ResultPrefix := "Result: Level "
  const TimeInfix := " Time survived: "
  const ResultSuffix := " seconds"

  /** Each part of a concatenation of three strings can be sliced back out of it. */
  lemma Concat3(a: string, b: string, c: string)
    ensures (a + b + c)[..|a|] == a
    ensures (a + b + c)[|a|..|a| + |b|] == b
    ensures (a + b + c)[|a| + |b|..] == c
  {
  }

  /** A string is its prefix up to `k` followed by the rest. */
  lemma SplitAt(s: string, k: nat)
    requires k <= |s|
    ensures s == s[..k] + s[k..]
  {
  }

  /** The text of ResultWriter for a game that ended at `level` after `time` seconds. */
  function ResultString(level: int, time: int): (r: string)
    ensures |r| == |ResultPrefix| + |DecimalString(level) + TimeInfix + DecimalString(time)| + |ResultSuffix|
    ensures r[..|ResultPrefix|] == ResultPrefix
    ensures r[|ResultPrefix|..|r| - |ResultSuffix|] == DecimalString(level) + TimeInfix + DecimalString(time)
    ensures r[|r| - |ResultSuffix|..] == ResultSuffix
  {
    var middle := DecimalString(level) + TimeInfix + DecimalString(time);
    Concat3(ResultPrefix, middle, ResultSuffix);
    assert ResultPrefix + DecimalString(level) + TimeInfix + DecimalString(time) + ResultSuffix
        == ResultPrefix + middle + ResultSuffix;
    ResultPrefix + DecimalString(level) + TimeInfix + DecimalString(time) + ResultSuffix
  }

  /** The index of the first space in `s`, or |s| when there is none. */
  function FirstSpace(s: string): (i: nat)
    ensures i <= |s|
    ensures forall j :: 0 <= j < i ==> s[j] != ' '
    ensures i < |s| ==> s[i] == ' '
  {
    if |s| == 0 || s[0] == ' ' then 0 else 1 + FirstSpace(s[1..])
  }

  /**
   * Reads the level and the time back from a result text: strips the fixed prefix and suffix,
   * takes the level up to the first space and the time after the fixed infix.
   */
  function ParseResult(s: string): (r: Option<(int, int)>)
  {
    if |s| < |ResultPrefix| + |ResultSuffix|
       || s[..|ResultPrefix|] != ResultPrefix
       || s[|s| - |ResultSuffix|..] != ResultSuffix
    then None
    else
      var body := s[|ResultPrefix|..|s| - |ResultSuffix|];
      var i := FirstSpace(body);
      if |body| - i < |TimeInfix| || body[i..i + |TimeInfix|] != TimeInfix then None
      else
        match (ParseDecimal(body[..i]), ParseDecimal(body[i + |TimeInfix|..]))
        case (Some(level), Some(time)) => Some((level, time))
        case _ => None
  }

  /** Level and time can be read back from the result text. */
  lemma ResultRoundTrip(level: int, time: int)
    ensures ParseResult(ResultString(level, time)) == Some((level, time))
  {
    var l, t := DecimalString(level), DecimalString(time);
    var body := l + TimeInfix + t;
    assert body == l + (TimeInfix + t);
    assert (TimeInfix + t)[0] == ' ';
    SpaceAfterNumber(l, TimeInfix + t);
    Concat3(l, TimeInfix, t);
    DecimalRoundTrip(level);
    DecimalRoundTrip(time);
  }

  /** The first space of a space-free word followed by a text starting with a space ends the word. */
  lemma {:induction false} SpaceAfterNumber(w: string, rest: string)
    requires ' ' !in w && |rest| > 0 && rest[0] == ' '
    ensures FirstSpace(w + rest) == |w|
  {
    if |w| > 0 {
      assert (w + rest)[1..] == w[1..] + rest;
      SpaceAfterNumber(w[1..], rest);
    }
  }

  /** Two games whose results read the same ended at the same level after the same time. */
  lemma ResultInjective(level1: int, time1: int, level2: int, time2: int)
    ensures ResultString(level1, time1) == ResultString(level2, time2) ==> level1 == level2 && time1 == time2
  {
    ResultRoundTrip(level1, time1);
    ResultRoundTrip(level2, time2);
  }

  /** The date with every '-' turned into '_' and every other character kept. */
  function SanitizeDate(date: string): (r: string)
    ensures |r| == |date|
    ensures forall i :: 0 <= i < |date| ==> r[i] == (if date[i] == '-' then '_' else date[i])
  {
    if date == [] then []
    else [if date[0] == '-' then '_' else date[0]] + SanitizeDate(date[1..])
  }

  /** The sanitised date holds no '-', and sanitising it again changes nothing. */
  lemma SanitizeIdempotent(date: string)
    ensures '-' !in SanitizeDate(date)
    ensures SanitizeDate(SanitizeDate(date)) == SanitizeDate(date)
  {
    var r := SanitizeDate(date);
    assert forall i :: 0 <= i < |r| ==> r[i] != '-';
  }

  /** Sanitising a date adds no space to it. */
  lemma SanitizeKeepsSpaceFree(date: string)
    requires ' ' !in date
    ensures ' ' !in SanitizeDate(date)
  {
    var r := SanitizeDate(date);
    assert forall i :: 0 <= i < |r| ==> r[i] != ' ';
  }

  /** The text of ResultAndDateWriter: the sanitised date, a space, then the plain result text. */
  function ResultAndDateString(date: string, level: int, time: int): (r: string)
    ensures |r| == |date| + 1 + |ResultString(level, time)|
    ensures r[..|date|] == SanitizeDate(date)
    ensures r[|date|] == ' '
    ensures r[|date| + 1..] == ResultString(level, time)
  {
    Concat3(SanitizeDate(date), " ", ResultString(level, time));
    SanitizeDate(date) + " " + ResultString(level, time)
  }

  /** For a date without spaces, the date part and the result part can be split apart again. */
  lemma ResultAndDateRoundTrip(date: string, level: int, time: int)
    requires ' ' !in date
    ensures var s := ResultAndDateString(date, level, time);
            FirstSpace(s) == |date|
            && s[..|date|] == SanitizeDate(date)
            && ParseResult(s[|date| + 1..]) == Some((level, time))
  {
    var s := ResultAndDateString(date, level, time);
    var d, rest := s[..|date|], s[|date|..];
    SanitizeKeepsSpaceFree(date);
    assert rest[0] == ' ';
    SplitAt(s, |date|);
    SpaceAfterNumber(d, rest);
    ResultRoundTrip(level, time);
  }

  /** The two writers of the game's menu; the date is today's, supplied by the caller. */
  datatype WriterChoice = PlainResult | ResultAndDate(date: string)

  /** The text the chosen writer builds for a game that ended at `level` after `time` seconds. */
  function WriterText(choice: WriterChoice, level: int, time: int): (text: string)
    ensures choice.PlainResult? ==> ParseResult(text) == Some((level, time))
    ensures choice.ResultAndDate? ==> |text| > |choice.date|
    ensures choice.ResultAndDate? && ' ' !in choice.date ==> ParseResult(text[|choice.date| + 1..]) == Some((level, time))
  {
    match choice
    case PlainResult => ResultRoundTrip(level, time); ResultString(level, time)
    case ResultAndDate(date) =>
      var text := ResultAndDateString(date, level, time);
      assert ' ' !in date ==> ParseResult(text[|date| + 1..]) == Some((level, time)) by {
        if ' ' !in date {
          ResultAndDateRoundTrip(date, level, time);
        }
      }
      text
  }

  /** The line a writer puts in the result file: its text followed by one newline. */
  function ResultLine(choice: WriterChoice, level: int, time: int): (line: string)
    ensures |line| == |WriterText(choice, level, time)| + 1
    ensures line[..|line| - 1] == WriterText(choice, level, time)
    ensures line[|line| - 1] == '\n'
  {
    WriterText(choice, level, time) + "\n"
  }
}
