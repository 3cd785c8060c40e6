/**
  GetHourFromTimestamp of MktData.hpp: the hour of a record whose line
  starts with a timestamp "YYYY-MM-DD HH:MM:SS.mmm". The two characters at
  indices 11 and 12 are converted by std::stoul, whose rules (leading white
  space, an optional sign, decimal digits, a minus that wraps modulo 2^64,
  an exception when there is no digit) are written out here.
*/
module MktData {
  import opened Wrappers

  /** 2^64: unsigned long wraps modulo this. */
  const U64: nat := 0x1_0000_0000_0000_0000

  /** The shortest line GetHourFromTimestamp reads an hour from. */
  const TimestampLength: nat := 19

  predicate IsDigit(c: char) {
    '0' <= c <= '9'
  }

  /** isspace in the "C" locale. */
  predicate IsSpace(c: char) {
    c == ' ' || c == '\t' || c == '\n' || c == '\U{B}' || c == '\U{C}' || c == '\r'
  }

  function DigitValue(c: char): (d: nat)
    requires IsDigit(c)
    ensures d <= 9
  {
    (c as int - '0' as int) as nat
  }

  /** The first index at or after `i` that is not white space. */
  function SkipSpaces(s: seq<char>, i: nat): (j: nat)
    requires i <= |s|
    ensures i <= j <= |s|
    ensures forall k :: i <= k < j ==> IsSpace(s[k])
    ensures j < |s| ==> !IsSpace(s[j])
    decreases |s| - i
  {
    if i < |s| && IsSpace(s[i]) then SkipSpaces(s, i + 1) else i
  }

  /** The end of the run of digits that starts at `i`. */
  function DigitsEnd(s: seq<char>, i: nat): (j: nat)
    requires i <= |s|
    ensures i <= j <= |s|
    ensures forall k :: i <= k < j ==> IsDigit(s[k])
    ensures j < |s| ==> !IsDigit(s[j])
    decreases |s| - i
  {
    if i < |s| && IsDigit(s[i]) then DigitsEnd(s, i + 1) else i
  }

  /** The value of a string of decimal digits, most significant first. */
  function DecimalValue(ds: seq<char>): nat
    requires forall k :: 0 <= k < |ds| ==> IsDigit(ds[k])
  {
    if ds == [] then 0 else 10 * DecimalValue(ds[..|ds| - 1]) + DigitValue(ds[|ds| - 1])
  }

  /**
    std::stoul(s) in base 10: nothing when it throws (no digit to convert:
    invalid_argument; a value past 2^64 - 1: out_of_range), otherwise the
    value, negated modulo 2^64 after a minus sign.
  */
  function Stoul(s: seq<char>): (r: Option<nat>)
    ensures r.Some? ==> r.value < U64
  {
    var i := SkipSpaces(s, 0);
    var negative := i < |s| && s[i] == '-';
    var j := if i < |s| && (s[i] == '+' || s[i] == '-') then i + 1 else i;
    var k := DigitsEnd(s, j);
    if k == j then Option.None
    else
      var v := DecimalValue(s[j..k]);
      if v >= U64 then Option.None
      else Some(if negative then (U64 - v) % U64 else v)
  }

  /**
    GetHourFromTimestamp: 0 for a line shorter than a timestamp, otherwise
    std::stoul of the characters at indices 11 and 12; nothing when stoul
    throws.
  */
  function HourFromTimestamp(timestamp: seq<char>): (hour: Option<nat>)
    ensures |timestamp| < TimestampLength ==> hour == Some(0)
    ensures hour.Some? ==> hour.value < U64
  {
    if |timestamp| < TimestampLength then Some(0)
    else Stoul(timestamp[11..13])
  }

  /**
    What stoul makes of a two-character field, case by case: two digits,
    one digit followed by something else, a digit after white space or a
    sign (a minus wraps modulo 2^64), or no digit where one is needed.
  */
  function TwoCharValue(c0: char, c1: char): Option<nat> {
    if IsDigit(c0) then Some(if IsDigit(c1) then 10 * DigitValue(c0) + DigitValue(c1) else DigitValue(c0))
    else if (IsSpace(c0) || c0 == '+') && IsDigit(c1) then Some(DigitValue(c1))
    else if c0 == '-' && IsDigit(c1) then Some((U64 - DigitValue(c1)) % U64)
    else Option.None
  }

  /** Stoul on a two-character field agrees with the case analysis. */
  lemma StoulOfTwoChars(c0: char, c1: char)
    ensures Stoul([c0, c1]) == TwoCharValue(c0, c1)
  {
    var f := [c0, c1];
    if IsDigit(c0) {
      assert SkipSpaces(f, 0) == 0;
      if IsDigit(c1) {
        assert DigitsEnd(f, 2) == 2;
        assert DigitsEnd(f, 0) == 2;
        assert f[0..2][..1] == [c0];
        assert DecimalValue([c0]) == DigitValue(c0) by {
          assert [c0][..0] == [];
        }
      } else {
        assert DigitsEnd(f, 1) == 1;
        assert DigitsEnd(f, 0) == 1;
        assert f[0..1] == [c0];
        assert [c0][..0] == [];
      }
    } else if IsSpace(c0) || c0 == '+' || c0 == '-' {
      if IsSpace(c0) {
        if IsSpace(c1) {
          assert SkipSpaces(f, 0) == 2;
        } else {
          assert SkipSpaces(f, 0) == 1;
          assert DigitsEnd(f, 2) == 2;
          if IsDigit(c1) {
            assert DigitsEnd(f, 1) == 2;
            assert f[1..2] == [c1];
            assert [c1][..0] == [];
            assert DecimalValue(f[1..2]) == DigitValue(c1);
          }
        }
      } else {
        assert SkipSpaces(f, 0) == 0;
        assert DigitsEnd(f, 2) == 2;
        if IsDigit(c1) {
          assert DigitsEnd(f, 1) == 2;
          assert f[1..2] == [c1];
          assert [c1][..0] == [];
          assert DecimalValue(f[1..2]) == DigitValue(c1);
          assert Stoul(f) == Some(if c0 == '-' then (U64 - DigitValue(c1)) % U64 else DigitValue(c1));
        }
      }
    } else {
      assert SkipSpaces(f, 0) == 0;
      assert DigitsEnd(f, 0) == 0;
    }
  }

  /**
    GetHourFromTimestamp on a line at least as long as a timestamp is the
    case analysis of its hour field, characters 11 and 12.
  */
  lemma HourOfTimestamp(timestamp: seq<char>)
    requires |timestamp| >= TimestampLength
    ensures HourFromTimestamp(timestamp) == TwoCharValue(timestamp[11], timestamp[12])
  {
    assert timestamp[11..13] == [timestamp[11], timestamp[12]];
    StoulOfTwoChars(timestamp[11], timestamp[12]);
  }

  /** A timestamp whose hour field is two digits has that two-digit hour, at most 99. */
  lemma HourOfTwoDigitField(timestamp: seq<char>)
    requires |timestamp| >= TimestampLength
    requires IsDigit(timestamp[11]) && IsDigit(timestamp[12])
    ensures HourFromTimestamp(timestamp) == Some(10 * DigitValue(timestamp[11]) + DigitValue(timestamp[12]))
    ensures HourFromTimestamp(timestamp).value <= 99
  {
    HourOfTimestamp(timestamp);
  }

  /** The documented example "2021-03-05 10:00:00.123" is at hour 10. */
  lemma HourOfDocumentedExample()
    ensures HourFromTimestamp("2021-03-05 10:00:00.123") == Some(10)
  {
    HourOfTwoDigitField("2021-03-05 10:00:00.123");
  }

  /** The hour depends on characters 11 and 12 of the line alone. */
  lemma HourReadsOnlyTheHourField(a: seq<char>, b: seq<char>)
    requires |a| >= TimestampLength && |b| >= TimestampLength
    requires a[11] == b[11] && a[12] == b[12]
    ensures HourFromTimestamp(a) == HourFromTimestamp(b)
  {
    assert a[11..13] == [a[11], a[12]] == b[11..13];
  }

  /**
    The conversion throws exactly when stoul finds no digit: character 11
    is not a digit, and is not white space or a sign followed by a digit.
  */
  lemma HourFailsExactlyWithoutDigit(timestamp: seq<char>)
    requires |timestamp| >= TimestampLength
    ensures var c0, c1 := timestamp[11], timestamp[12];
      HourFromTimestamp(timestamp).None? <==>
        !IsDigit(c0) && !((IsSpace(c0) || c0 == '+' || c0 == '-') && IsDigit(c1))
  {
    HourOfTimestamp(timestamp);
  }

  /** A minus sign before a digit wraps: "-d" is 2^64 - d, and "-0" is 0. */
  lemma NegativeHourWraps(timestamp: seq<char>)
    requires |timestamp| >= TimestampLength
    requires timestamp[11] == '-' && IsDigit(timestamp[12])
    ensures HourFromTimestamp(timestamp) == Some((U64 - DigitValue(timestamp[12])) % U64)
  {
    HourOfTimestamp(timestamp);
  }
}
