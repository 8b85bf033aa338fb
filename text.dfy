/**
 * The string handling the tracker relies on: Python's `str.split` with a
 * one-character separator, `int(...)` on a digit string, `str(...)` of a
 * non-negative integer, the hour slicing of check_if_dark and the HH:MM
 * formatting of write_report.
 */
module Text {
  import opened Wrappers

  /** `s.split(sep)`: the pieces between occurrences of `sep`, in order; never empty. */
  function Split(s: string, sep: char): (parts: seq<string>)
    ensures |parts| >= 1
    decreases |s|
  {
    if |s| == 0 then [""]
    else
      var rest := Split(s[1..], sep);
      if s[0] == sep then [""] + rest
      else [[s[0]] + rest[0]] + rest[1..]
  }

  /** `sep.join(parts)`, the inverse of Split. */
  function Join(parts: seq<string>, sep: char): string
    decreases |parts|
  {
    if |parts| == 0 then ""
    else if |parts| == 1 then parts[0]
    else parts[0] + [sep] + Join(parts[1..], sep)
  }

  /** Split loses nothing: joining the pieces gives back the string, and no piece holds the separator. */
  lemma {:induction false} SplitJoin(s: string, sep: char)
    ensures Join(Split(s, sep), sep) == s
    ensures forall k :: 0 <= k < |Split(s, sep)| ==> sep !in Split(s, sep)[k]
    decreases |s|
  {
    if |s| > 0 {
      SplitJoin(s[1..], sep);
      var rest := Split(s[1..], sep);
      if s[0] == sep {
        assert Split(s, sep) == [""] + rest;
        assert ([""] + rest)[1..] == rest;
      } else {
        var parts := [[s[0]] + rest[0]] + rest[1..];
        assert Split(s, sep) == parts;
        if |rest| > 1 {
          assert parts[1..] == rest[1..];
        }
        forall k | 0 <= k < |parts|
          ensures sep !in parts[k]
        {
          if k == 0 {
            assert sep !in rest[0];
          } else {
            assert parts[k] == rest[k];
          }
        }
      }
      assert s == [s[0]] + s[1..];
    }
  }

  /** A prefix free of the separator becomes the start of the first piece. */
  lemma {:induction false} SplitPrefix(a: string, b: string, sep: char)
    requires sep !in a
    ensures Split(a + b, sep) == [a + Split(b, sep)[0]] + Split(b, sep)[1..]
    decreases |a|
  {
    if |a| == 0 {
      var parts := Split(b, sep);
      assert a == "";
      assert a + b == b && a + parts[0] == parts[0];
      assert parts == [parts[0]] + parts[1..];
    } else {
      SplitPrefix(a[1..], b, sep);
      assert a + b == [a[0]] + (a[1..] + b);
      assert (a + b)[1..] == a[1..] + b;
      assert [a[0]] + (a[1..] + Split(b, sep)[0]) == a + Split(b, sep)[0];
    }
  }

  /** The text before the first separator is the first piece, and splitting resumes after it. */
  lemma SplitAtSeparator(a: string, b: string, sep: char)
    requires sep !in a
    ensures Split(a + [sep] + b, sep) == [a] + Split(b, sep)
  {
    var c := [sep] + b;
    SplitPrefix(a, c, sep);
    assert a + [sep] + b == a + c;
    assert c[0] == sep && c[1..] == b;
    assert Split(c, sep) == [""] + Split(b, sep);
    assert a + "" == a;
  }

  /** A string without the separator splits into itself alone. */
  lemma SplitWithoutSeparator(s: string, sep: char)
    requires sep !in s
    ensures Split(s, sep) == [s]
  {
    SplitPrefix(s, "", sep);
    assert s + "" == s;
  }

  predicate IsDigit(c: char)
  {
    '0' <= c <= '9'
  }

  predicate AllDigits(s: string)
  {
    forall k :: 0 <= k < |s| ==> IsDigit(s[k])
  }

  function DigitValue(c: char): nat
    requires IsDigit(c)
  {
    c as int - '0' as int
  }

  function DigitChar(d: nat): (c: char)
    requires d < 10
    ensures IsDigit(c) && DigitValue(c) == d
  {
    ('0' as int + d) as char
  }

  /** The decimal value of a digit string, most significant digit first. */
  function DigitsValue(s: string): nat
    requires AllDigits(s)
    decreases |s|
  {
    if |s| == 0 then 0 else 10 * DigitsValue(s[..|s| - 1]) + DigitValue(s[|s| - 1])
  }

  /** `int(s)` on the strings this model admits; None stands for the ValueError. */
  function ParseNat(s: string): Option<nat>
  {
    if |s| > 0 && AllDigits(s) then Some(DigitsValue(s)) else None
  }

  /** `str(n)` for a non-negative integer: its decimal digits, no leading zero. */
  function NatToString(n: nat): (s: string)
    ensures |s| >= 1 && AllDigits(s)
    decreases n
  {
    if n < 10 then [DigitChar(n)] else NatToString(n / 10) + [DigitChar(n % 10)]
  }

  /** `int(str(n)) == n`, and `str(n)` starts with '0' only for zero itself. */
  lemma {:induction false} NatToStringRoundTrip(n: nat)
    ensures ParseNat(NatToString(n)) == Some(n)
    ensures NatToString(n)[0] == '0' <==> n == 0
    ensures |NatToString(n)| == 1 <==> n < 10
    decreases n
  {
    var s := NatToString(n);
    if n >= 10 {
      NatToStringRoundTrip(n / 10);
      assert s[..|s| - 1] == NatToString(n / 10);
      assert s[0] == NatToString(n / 10)[0];
    } else {
      assert s[..|s| - 1] == [];
      assert DigitsValue(s) == 10 * DigitsValue([]) + DigitValue(s[0]);
    }
  }

  /** write_report's treatment of an hour or a minute: below ten it gets a leading '0'. */
  function Pad(n: nat): string
  {
    if n < 10 then "0" + NatToString(n) else NatToString(n)
  }

  /** The "Time" field of a report. */
  function FormatTime(hour: nat, minute: nat): string
  {
    Pad(hour) + ":" + Pad(minute)
  }

  /** Reads an "H:M" field back: exactly one ':' between two digit strings. */
  function ParseTime(t: string): Option<(nat, nat)>
  {
    var parts := Split(t, ':');
    if |parts| != 2 then None
    else match (ParseNat(parts[0]), ParseNat(parts[1]))
      case (Some(h), Some(m)) => Some((h, m))
      case _ => None
  }

  /** Every two-digit value is padded to exactly two digits, with '0' in front exactly when it is below ten. */
  lemma PadTwoDigits(n: nat)
    requires n < 100
    ensures |Pad(n)| == 2 && AllDigits(Pad(n))
    ensures Pad(n)[0] == '0' <==> n < 10
    ensures ParseNat(Pad(n)) == Some(n)
  {
    NatToStringRoundTrip(n);
    var s := NatToString(n);
    if n < 10 {
      var p := "0" + s;
      assert p[..1] == "0";
      assert p[..|p| - 1] == "0";
      assert DigitsValue("0") == 10 * DigitsValue("") + 0;
    } else {
      NatToStringRoundTrip(n / 10);
      assert |s| == |NatToString(n / 10)| + 1;
    }
  }

  /**
   * For every hour and minute a clock shows (and any value below 100), the
   * time field is five characters HH:MM and reads back as that hour and
   * minute.
   */
  lemma TimeRoundTrip(hour: nat, minute: nat)
    requires hour < 100 && minute < 100
    ensures |FormatTime(hour, minute)| == 5 && FormatTime(hour, minute)[2] == ':'
    ensures ParseTime(FormatTime(hour, minute)) == Some((hour, minute))
  {
    PadTwoDigits(hour);
    PadTwoDigits(minute);
    var h, m := Pad(hour), Pad(minute);
    assert ':' !in h by {
      forall k | 0 <= k < |h| ensures h[k] != ':' { assert IsDigit(h[k]); }
    }
    assert ':' !in m by {
      forall k | 0 <= k < |m| ensures m[k] != ':' { assert IsDigit(m[k]); }
    }
    SplitAtSeparator(h, m, ':');
    SplitWithoutSeparator(m, ':');
    assert FormatTime(hour, minute) == h + [':'] + m;
  }

  /**
   * check_if_dark's `int(stamp.split("T")[1].split(":")[0])`; None stands
   * for the IndexError of a stamp without 'T' and for the ValueError of a
   * non-numeric hour.
   */
  function ExtractHour(stamp: string): Option<nat>
  {
    var parts := Split(stamp, 'T');
    if |parts| < 2 then None else ParseNat(Split(parts[1], ':')[0])
  }

  /**
   * For `<date>T<HH>:<rest>` with no 'T' in the date, the extracted hour is
   * the value of HH, whatever the minutes, seconds and offset in `rest`.
   */
  lemma HourOfTimestamp(date: string, hh: string, rest: string)
    requires 'T' !in date
    requires |hh| > 0 && AllDigits(hh)
    ensures ExtractHour(date + "T" + hh + ":" + rest) == Some(DigitsValue(hh))
  {
    assert 'T' !in hh && ':' !in hh by {
      forall k | 0 <= k < |hh| ensures hh[k] != 'T' && hh[k] != ':' { assert IsDigit(hh[k]); }
    }
    var x := hh + ":" + rest;
    assert date + "T" + hh + ":" + rest == date + ['T'] + x;
    SplitAtSeparator(date, x, 'T');
    assert hh + ":" + rest == (hh + ":") + rest;
    assert 'T' !in hh + ":";
    SplitPrefix(hh + ":", rest, 'T');
    var second := hh + ":" + Split(rest, 'T')[0];
    assert Split(date + "T" + hh + ":" + rest, 'T')[1] == second;
    SplitAtSeparator(hh, Split(rest, 'T')[0], ':');
    assert second == hh + [':'] + Split(rest, 'T')[0];
  }

  /** A stamp without 'T' has no second piece: the source's indexing fails. */
  lemma HourNeedsSeparator(stamp: string)
    requires 'T' !in stamp
    ensures ExtractHour(stamp) == None
  {
    SplitWithoutSeparator(stamp, 'T');
  }
}
