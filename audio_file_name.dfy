/** The name an uploaded recording gets:
    `<field>_<year>-<MM>-<DD>_<hh>-<mm>-<ss>.wav`, each clock component but
    the year written in decimal and left-padded with '0' to two characters. */
module AudioFileName {

  datatype Option<T> = None | Some(value: T)

  /** The local clock at the moment of the upload, as the date getters
      report it: `month` counts from 0 (January), `day` is the day of the
      month. */
  datatype Clock = Clock(year: nat, month: nat, day: nat, hours: nat, minutes: nat, seconds: nat)

  /** The ranges the date getters keep to. */
  predicate ValidClock(c: Clock)
  {
    c.month < 12 && 1 <= c.day <= 31 && c.hours < 24 && c.minutes < 60 && c.seconds < 60
  }

  predicate IsDigit(ch: char)
  {
    '0' <= ch <= '9'
  }

  predicate AllDigits(s: string)
  {
    forall i :: 0 <= i < |s| ==> IsDigit(s[i])
  }

  function DigitChar(d: nat): (ch: char)
    requires d < 10
    ensures IsDigit(ch) && ch as int - '0' as int == d
  {
    ('0' as int + d) as char
  }

  function DigitValue(ch: char): nat
    requires IsDigit(ch)
  {
    ch as int - '0' as int
  }

  /** A number's decimal text: digits only, no leading zero, one character
      exactly for the numbers below ten. */
  function DecimalString(n: nat): (s: string)
    ensures |s| >= 1 && AllDigits(s)
    ensures |s| > 1 ==> s[0] != '0'
    ensures |s| == 1 <==> n < 10
    ensures n < 100 ==> |s| <= 2
  {
    if n < 10 then [DigitChar(n)] else DecimalString(n / 10) + [DigitChar(n % 10)]
  }

  /** The number a string of digits denotes. */
  function DecimalValue(s: string): nat
    requires AllDigits(s)
  {
    if s == [] then 0 else DecimalValue(s[..|s| - 1]) * 10 + DigitValue(s[|s| - 1])
  }

  /** Reading a number's decimal text gives the number back. */
  lemma {:induction false} DecimalRoundTrip(n: nat)
    ensures DecimalValue(DecimalString(n)) == n
  {
    if n >= 10 {
      DecimalRoundTrip(n / 10);
      var s := DecimalString(n);
      assert s[..|s| - 1] == DecimalString(n / 10);
    }
  }

  /** Left padding to at least `width` characters with one fill character:
      the string is kept whole as the suffix, and only fill characters are
      put before it. */
  function PadStart(s: string, width: nat, fill: char): (r: string)
    ensures |r| == if |s| >= width then |s| else width
    ensures r[|r| - |s|..] == s
    ensures forall i :: 0 <= i < |r| - |s| ==> r[i] == fill
  {
    if |s| >= width then s else seq(width - |s|, _ => fill) + s
  }

  /** A clock component as the file name shows it. */
  function Pad2(n: nat): (s: string)
    ensures AllDigits(s) && |s| >= 2
    ensures n < 100 ==> |s| == 2
    ensures n >= 10 ==> s == DecimalString(n)
  {
    PadStart(DecimalString(n), 2, '0')
  }

  /** Padding does not change the number that the digits denote. */
  lemma Pad2Value(n: nat)
    ensures DecimalValue(Pad2(n)) == n
  {
    DecimalRoundTrip(n);
    if n < 10 {
      var s := Pad2(n);
      assert s == ['0', DigitChar(n)];
      assert s[..1] == ['0'];
    }
  }

  /** `<year>-<MM>-<DD>_<hh>-<mm>-<ss>`, the month counted from 1: the year's
      text comes first, and for a valid clock fifteen characters follow it. */
  function Timestamp(c: Clock): (t: string)
    ensures ValidClock(c) ==> |t| == |DecimalString(c.year)| + 15
  {
    DecimalString(c.year) + "-" + Pad2(c.month + 1) + "-" + Pad2(c.day) + "_" +
    Pad2(c.hours) + "-" + Pad2(c.minutes) + "-" + Pad2(c.seconds)
  }

  /** The upload's file name: it starts with the field name and an
      underscore, ends in ".wav", and for a valid clock has a fixed length
      beside the field name and the year. */
  function FileName(field: string, c: Clock): (name: string)
    ensures |name| >= |field| + 21
    ensures name[..|field| + 1] == field + "_"
    ensures name[|name| - 4..] == ".wav"
    ensures ValidClock(c) ==> |name| == |field| + |DecimalString(c.year)| + 20
  {
    field + "_" + Timestamp(c) + ".wav"
  }

  /** The digits of a two-character field, when it is one. */
  function TwoDigits(s: string): Option<nat>
  {
    if |s| == 2 && AllDigits(s) then Some(DecimalValue(s)) else None
  }

  /** Reads a timestamp back: the year is everything before the last fifteen
      characters, which must be `-MM-DD_hh-mm-ss`. */
  function DecodeTimestamp(t: string): Option<Clock>
  {
    if |t| < 16 then None else DecodeParts(t[..|t| - 15], t[|t| - 15..])
  }

  /** Decodes the year digits and the fifteen characters after them. */
  function DecodeParts(year: string, tail: string): Option<Clock>
    requires |tail| == 15
  {
    if !AllDigits(year) || tail[0] != '-' || tail[3] != '-' || tail[6] != '_' ||
       tail[9] != '-' || tail[12] != '-'
    then None
    else
      var mo, d, h := TwoDigits(tail[1..3]), TwoDigits(tail[4..6]), TwoDigits(tail[7..9]);
      var mi, s := TwoDigits(tail[10..12]), TwoDigits(tail[13..15]);
      if mo.None? || d.None? || h.None? || mi.None? || s.None? || mo.value == 0 then None
      else Some(Clock(DecimalValue(year), mo.value - 1, d.value, h.value, mi.value, s.value))
  }

  /** Reads the clock back out of a file name made for `field`. */
  function DecodeFileName(field: string, name: string): Option<Clock>
  {
    if |name| < |field| + 5 || name[..|field| + 1] != field + "_" || name[|name| - 4..] != ".wav"
    then None
    else DecodeTimestamp(name[|field| + 1..|name| - 4])
  }

  lemma TwoDigitsPad2(n: nat)
    requires n < 100
    ensures TwoDigits(Pad2(n)) == Some(n)
  {
    Pad2Value(n);
  }

  /** The fifteen characters after the year, laid out position by position. */
  lemma TailLayout(mo: string, d: string, h: string, mi: string, s: string)
    requires |mo| == 2 && |d| == 2 && |h| == 2 && |mi| == 2 && |s| == 2
    ensures var tail := "-" + mo + "-" + d + "_" + h + "-" + mi + "-" + s;
            |tail| == 15 && tail[0] == '-' && tail[3] == '-' && tail[6] == '_' &&
            tail[9] == '-' && tail[12] == '-' &&
            tail[1..3] == mo && tail[4..6] == d && tail[7..9] == h &&
            tail[10..12] == mi && tail[13..15] == s
  {
  }

  /** The year and the fifteen characters after it. */
  lemma Regroup(y: string, mo: string, d: string, h: string, mi: string, s: string)
    ensures y + "-" + mo + "-" + d + "_" + h + "-" + mi + "-" + s ==
            y + ("-" + mo + "-" + d + "_" + h + "-" + mi + "-" + s)
  {
  }

  /** The parts of a timestamp decode to the clock their digits denote. */
  lemma DecodePartsOf(y: string, mo: string, d: string, h: string, mi: string, s: string, c: Clock)
    requires AllDigits(y) && DecimalValue(y) == c.year
    requires TwoDigits(mo) == Some(c.month + 1) && TwoDigits(d) == Some(c.day)
    requires TwoDigits(h) == Some(c.hours) && TwoDigits(mi) == Some(c.minutes)
    requires TwoDigits(s) == Some(c.seconds)
    ensures |"-" + mo + "-" + d + "_" + h + "-" + mi + "-" + s| == 15
    ensures DecodeParts(y, "-" + mo + "-" + d + "_" + h + "-" + mi + "-" + s) == Some(c)
  {
    TailLayout(mo, d, h, mi, s);
  }

  /** A timestamp of a valid clock determines the clock. */
  lemma TimestampRoundTrip(c: Clock)
    requires ValidClock(c)
    ensures DecodeTimestamp(Timestamp(c)) == Some(c)
  {
    var y := DecimalString(c.year);
    var mo, d, h, mi, s := Pad2(c.month + 1), Pad2(c.day), Pad2(c.hours), Pad2(c.minutes), Pad2(c.seconds);
    DecimalRoundTrip(c.year);
    TwoDigitsPad2(c.month + 1);
    TwoDigitsPad2(c.day);
    TwoDigitsPad2(c.hours);
    TwoDigitsPad2(c.minutes);
    TwoDigitsPad2(c.seconds);
    DecodePartsOf(y, mo, d, h, mi, s, c);
    var tail := "-" + mo + "-" + d + "_" + h + "-" + mi + "-" + s;
    Regroup(y, mo, d, h, mi, s);
    var t := y + tail;
    assert Timestamp(c) == t;
    assert t[..|t| - 15] == y && t[|t| - 15..] == tail;
  }

  /** The file name of a valid clock determines the clock: two uploads for
      the same field get the same name only when made in the same second. */
  lemma FileNameRoundTrip(field: string, c: Clock)
    requires ValidClock(c)
    ensures DecodeFileName(field, FileName(field, c)) == Some(c)
  {
    var name := FileName(field, c);
    assert name[|field| + 1..|name| - 4] == Timestamp(c);
    TimestampRoundTrip(c);
  }
}
