/**
  Reading and writing the `M:SS` texts the engine exchanges with its users:
  `map(int, text.split(':'))`, `format_pace` and `format_time_difference`.
 */
module TimeText {
  import opened Wrappers
  import opened Text
  import opened Rounding

  // ---------- Reading `M:SS` ----------

  /**
    `m, s = map(int, text.split(':'))`: exactly two colon-separated pieces, each an
    integer; every other text is the `ValueError` case, in particular a text with no colon.
   */
  function ParseMinSec(text: string): (r: Option<(int, int)>)
    ensures ':' !in text ==> r.None?
  {
    var parts := Split(text, ':');
    assert ':' !in text ==> parts == [text] by {
      if ':' !in text { SplitNoSeparator(text, ':'); }
    }
    if |parts| == 2 && ParseInt(parts[0]).Some? && ParseInt(parts[1]).Some? then
      Some((ParseInt(parts[0]).value, ParseInt(parts[1]).value))
    else None
  }

  lemma ParseMinSecOfParts(a: string, b: string)
    requires ':' !in a && ':' !in b
    ensures ParseMinSec(a + ":" + b) ==
      if ParseInt(a).Some? && ParseInt(b).Some? then Some((ParseInt(a).value, ParseInt(b).value)) else None
  {
    SplitTwo(a, ':', b);
  }

  /** A time that parses holds a single colon, with the two integers either side of it. */
  lemma ParseMinSecShape(text: string)
    requires ParseMinSec(text).Some?
    ensures exists i :: && 0 <= i < |text| && text[i] == ':' && ':' !in text[..i] && ':' !in text[i + 1..]
                        && ParseInt(text[..i]) == Some(ParseMinSec(text).value.0)
                        && ParseInt(text[i + 1..]) == Some(ParseMinSec(text).value.1)
  {
    var parts := Split(text, ':');
    var i := |parts[0]|;
    assert parts[1..] == [parts[1]];
    assert Join(parts, ':') == parts[0] + [':'] + Join(parts[1..], ':');
    assert text == parts[0] + [':'] + parts[1];
    assert text[..i] == parts[0] && text[i + 1..] == parts[1];
  }

  /** `m + s / 60`: the minutes a parsed `M:SS` time stands for. */
  function Minutes(ms: (int, int)): real {
    ms.0 as real + ms.1 as real / 60.0
  }

  // ---------- Writing `M:SS` ----------

  /** The seconds field `format_pace` prints: the fractional minute in seconds, rounded. */
  function SecondsField(x: real): int {
    RoundHalfEven((x - Trunc(x) as real) * 60.0)
  }

  /**
    `format_pace`: the truncated minutes, a colon, and the rounded seconds padded to two.
    Reading the text back gives those two fields.
   */
  function FormatPace(x: real): (s: string)
    ensures ParseMinSec(s) == Some((Trunc(x), SecondsField(x)))
  {
    ParseMinSecOfParts(IntToString(Trunc(x)), Pad2(SecondsField(x)));
    IntToString(Trunc(x)) + ":" + Pad2(SecondsField(x))
  }

  /**
    The two fields `format_pace` prints are together the pace rounded to the nearest
    second, so within half a second of it.
   */
  lemma PaceFieldsRound(x: real)
    ensures 60 * Trunc(x) + SecondsField(x) == RoundHalfEven(60.0 * x)
    ensures -0.5 <= (60 * Trunc(x) + SecondsField(x)) as real - 60.0 * x <= 0.5
  {
    assert 60 * Trunc(x) + SecondsField(x) == RoundHalfEven(60.0 * x) by {
      var m := Trunc(x);
      var y, k := (x - m as real) * 60.0, 60 * m;
      assert k % 2 == 0 by { assert k == 2 * (30 * m); }
      assert y + k as real == 60.0 * x;
      RoundHalfEvenShift(y, k);
    }
  }

  /**
    For a non-negative pace the minutes are printed unpadded, the seconds field lies in
    0..60, and it is 60 exactly when the fraction is at least 59.5 seconds.
   */
  lemma FormatPaceNonNegative(x: real)
    requires x >= 0.0
    ensures FormatPace(x) == NatToString(x.Floor) + ":" + Pad2(SecondsField(x))
    ensures 0 <= SecondsField(x) <= 60
    ensures SecondsField(x) == 60 <==> (x - x.Floor as real) * 60.0 >= 59.5
  {
  }

  /** A whole number of minutes prints with a `00` seconds field. */
  lemma FormatPaceWholeMinutes(m: nat)
    ensures FormatPace(m as real) == NatToString(m) + ":00"
  {
    assert Trunc(m as real) == m;
    RoundHalfEvenOfInt(0);
    assert SecondsField(m as real) == 0;
    assert Pad2(0) == "00";
  }

  /** `25:00` reads as 25 minutes and 0 seconds, and 25 minutes print as `25:00`. */
  lemma TwentyFiveMinutes()
    ensures ParseMinSec("25:00") == Some((25, 0))
    ensures FormatPace(25.0) == "25:00"
  {
    assert NatToString(2) == "2" && NatToString(5) == "5";
    assert NatToString(25) == "25";
    assert Pad2(0) == "00";
    assert "25:00" == "25" + ":" + "00";
    ParseMinSecOfParts("25", "00");
    FormatPaceWholeMinutes(25);
  }

  /** `format_pace(4.999)` prints a seconds field of 60. */
  lemma FormatPaceSixtySeconds()
    ensures FormatPace(4.999) == "4:60"
  {
    assert Trunc(4.999) == 4;
    assert SecondsField(4.999) == 60;
    assert NatToString(6) == "6";
    assert NatToString(60) == "6" + "0";
  }

  /** A printed pace is never one of the engine's error strings. */
  lemma FormatPaceHasColon(x: real)
    ensures FormatPace(x) != "Invalid Time" && FormatPace(x) != "Invalid PR"
  {
    var s := FormatPace(x);
    assert s[|IntToString(Trunc(x))|] == ':';
    assert ':' !in "Invalid Time" && ':' !in "Invalid PR";
  }

  /** `format_pace` prints only digits, minus signs and its one colon. */
  lemma FormatPaceChars(x: real)
    ensures forall k :: 0 <= k < |FormatPace(x)| ==>
      FormatPace(x)[k] == ':' || FormatPace(x)[k] == '-' || IsDigit(FormatPace(x)[k])
  {
    var s, a, b := FormatPace(x), IntToString(Trunc(x)), Pad2(SecondsField(x));
    assert s == a + ":" + b;
    forall k | 0 <= k < |s| ensures s[k] == ':' || s[k] == '-' || IsDigit(s[k]) {
      if k < |a| { assert s[k] == a[k]; } else if k > |a| { assert s[k] == b[k - |a| - 1]; }
    }
  }

  /** The total seconds a printed `M:SS` time shows. */
  function ShownSeconds(text: string): Option<int> {
    var ms := ParseMinSec(text);
    if ms.None? then None else Some(60 * ms.value.0 + ms.value.1)
  }
  /** A time read as `m` minutes and `sec` seconds shows `60 * m + sec` seconds. */
  lemma ShownSecondsOfFields(text: string, m: int, sec: int, total: int)
    requires ParseMinSec(text) == Some((m, sec)) && 60 * m + sec == total
    ensures ShownSeconds(text) == Some(total)
  {
  }

  /** What `format_pace` prints reads back as the pace rounded to the nearest second. */
  lemma ShownSecondsOfPace(x: real)
    ensures ShownSeconds(FormatPace(x)) == Some(RoundHalfEven(60.0 * x))
  {
    PaceFieldsRound(x);
    ShownSecondsOfFields(FormatPace(x), Trunc(x), SecondsField(x), RoundHalfEven(60.0 * x));
  }

  // ---------- Signed differences ----------

  function Abs(n: int): nat {
    if n < 0 then -n else n
  }

  /**
    `format_time_difference`: a sign, then whole minutes and seconds of |n|, each padded
    to two. Reading the text back recovers the difference.
   */
  function FormatTimeDifference(seconds: int): (r: string)
    ensures ParseTimeDifference(r) == Some(seconds)
  {
    var m, sec := Abs(seconds) / 60, Abs(seconds) % 60;
    var a, b := Pad2(m), Pad2(sec);
    var sign := if seconds < 0 then '-' else '+';
    var r := [sign] + (a + ":" + b);
    ParseMinSecOfParts(a, b);
    ParseSignedDifference(r, m, sec);
    assert (if sign == '-' then -(60 * m + sec) else 60 * m + sec) == seconds;
    r
  }

  /** The inverse reading of a signed `±MM:SS` difference, in seconds. */
  function ParseTimeDifference(text: string): Option<int> {
    if 0 < |text| && (text[0] == '+' || text[0] == '-') then
      var ms := ParseMinSec(text[1..]);
      if ms.None? then None
      else Some(if text[0] == '-' then -(60 * ms.value.0 + ms.value.1) else 60 * ms.value.0 + ms.value.1)
    else None
  }

  /** A sign followed by a readable `M:SS` reads as that many seconds, negated after a `-`. */
  lemma ParseSignedDifference(text: string, m: int, sec: int)
    requires 0 < |text| && (text[0] == '+' || text[0] == '-')
    requires ParseMinSec(text[1..]) == Some((m, sec))
    ensures ParseTimeDifference(text) == Some(if text[0] == '-' then -(60 * m + sec) else 60 * m + sec)
  {
  }

  /**
    The sign is `-` exactly for negative differences, and the two fields are |n| div 60
    and |n| mod 60 (the latter below 60), each printed in two or more characters.
   */
  lemma FormatTimeDifferenceFields(n: int)
    ensures var r := FormatTimeDifference(n);
            && (r[0] == '-' <==> n < 0)
            && ParseMinSec(r[1..]) == Some((Abs(n) / 60, Abs(n) % 60))
            && Abs(n) % 60 < 60
            && |Split(r[1..], ':')[0]| >= 2 && |Split(r[1..], ':')[1]| >= 2
  {
    var r := FormatTimeDifference(n);
    var a, b := Pad2(Abs(n) / 60), Pad2(Abs(n) % 60);
    assert r == [if n < 0 then '-' else '+'] + (a + ":" + b);
    assert r[1..] == a + ":" + b;
    ParseMinSecOfParts(a, b);
    SplitTwo(a, ':', b);
  }
}
