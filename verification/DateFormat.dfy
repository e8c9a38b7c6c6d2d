/**
 * The "DD-MM-YYYY" to "YYYY-MM-DD" conversion of the DELETE and PATCH handlers
 * of the redirect route (src/app/api/trading/redirect/route.ts): split on "-",
 * convert each part with `Number`, then print the year as is and the month and
 * day padded to two characters with "0".
 */
module DateFormat {
  import opened Js

  predicate IsDigit(c: char) {
    '0' <= c <= '9'
  }

  predicate AllDigits(s: string) {
    forall i :: 0 <= i < |s| ==> IsDigit(s[i])
  }

  function DigitValue(c: char): nat
    requires IsDigit(c)
  {
    c as int - '0' as int
  }

  function DigitChar(d: nat): (c: char)
    requires d < 10
    ensures IsDigit(c) && DigitValue(c) == d
  {
    ('0' as int + d) as char
  }

  /** `s.split(sep)` for a one-character separator. */
  function Split(s: string, sep: char): (parts: seq<string>)
    ensures |parts| >= 1
    ensures forall k :: 0 <= k < |parts| ==> sep !in parts[k]
  {
    if |s| == 0 then [""]
    else
      var rest := Split(s[1..], sep);
      if s[0] == sep then [""] + rest
      else [[s[0]] + rest[0]] + rest[1..]
  }

  /** Joining the parts with the separator gives back the string. */
  lemma {:induction false} SplitJoin(s: string, sep: char)
    ensures Join(Split(s, sep), [sep]) == s
  {
    if |s| > 0 {
      var rest := Split(s[1..], sep);
      SplitJoin(s[1..], sep);
      if s[0] == sep {
        assert Split(s, sep) == [""] + rest;
        assert ([""] + rest)[1..] == rest;
      } else {
        var parts := [[s[0]] + rest[0]] + rest[1..];
        assert Split(s, sep) == parts;
        if |rest| == 1 {
          assert parts == [[s[0]] + rest[0]];
        } else {
          assert parts[1..] == rest[1..];
          assert Join(rest, [sep]) == rest[0] + [sep] + Join(rest[1..], [sep]);
        }
        assert [s[0]] + s[1..] == s;
      }
    }
  }

  /** A part without the separator splits off whole. */
  lemma {:induction false} SplitPrefix(a: string, sep: char, rest: string)
    requires sep !in a
    ensures Split(a + [sep] + rest, sep) == [a] + Split(rest, sep)
  {
    if |a| > 0 {
      SplitPrefix(a[1..], sep, rest);
      assert (a + [sep] + rest)[1..] == a[1..] + [sep] + rest;
      assert [a[0]] + a[1..] == a;
    } else {
      assert a + [sep] + rest == [sep] + rest;
      assert ([sep] + rest)[1..] == rest;
    }
  }

  lemma {:induction false} SplitWhole(a: string, sep: char)
    requires sep !in a
    ensures Split(a, sep) == [a]
  {
    if |a| > 0 {
      SplitWhole(a[1..], sep);
      assert [a[0]] + a[1..] == a;
    }
  }

  /** The value of a digit string, read left to right; "" is 0, as `Number("")` is. */
  function DigitsValue(s: string): nat
    requires AllDigits(s)
  {
    if |s| == 0 then 0 else 10 * DigitsValue(s[..|s| - 1]) + DigitValue(s[|s| - 1])
  }

  /** `String(n)`: the decimal digits of n, without leading zeros. */
  function NatText(n: nat): (t: string)
    ensures |t| >= 1 && AllDigits(t)
    ensures |t| > 1 ==> t[0] != '0'
    ensures n < 10 <==> |t| == 1
  {
    if n < 10 then [DigitChar(n)] else NatText(n / 10) + [DigitChar(n % 10)]
  }

  /** The digits of `String(n)` stand for n. */
  lemma {:induction false} NatTextValue(n: nat)
    ensures DigitsValue(NatText(n)) == n
  {
    if n >= 10 {
      NatTextValue(n / 10);
      var t := NatText(n / 10) + [DigitChar(n % 10)];
      assert t[..|t| - 1] == NatText(n / 10);
    }
  }

  /**
   * `String(Number(part))`: a digit string prints as its value, anything else
   * (within this model) as "NaN".
   */
  function NumberText(part: string): string {
    if AllDigits(part) then NatText(DigitsValue(part)) else "NaN"
  }

  /** `s.padStart(2, "0")` */
  function PadStart2(s: string): (t: string)
    ensures |s| >= 2 ==> t == s
    ensures |s| < 2 ==> |t| == 2 && t[2 - |s|..] == s && forall i :: 0 <= i < 2 - |s| ==> t[i] == '0'
  {
    if |s| == 0 then "00" else if |s| == 1 then "0" + s else s
  }

  /** The text of destructured element k: a missing element prints as "undefined". */
  function Field(parts: seq<string>, k: nat): string {
    if k < |parts| then NumberText(parts[k]) else "undefined"
  }

  /** The conversion: `${year}-${month padded}-${day padded}`. */
  function ReformatDate(date: string): (r: string)
    ensures |r| >= 6
  {
    var parts := Split(date, '-');
    Field(parts, 2) + "-" + PadStart2(Field(parts, 1)) + "-" + PadStart2(Field(parts, 0))
  }

  /** A digit string without leading zeros prints back as itself. */
  lemma {:induction false} NatTextOfDigits(s: string)
    requires AllDigits(s) && |s| >= 1 && (|s| > 1 ==> s[0] != '0')
    ensures NatText(DigitsValue(s)) == s
  {
    var init := s[..|s| - 1];
    var last := DigitValue(s[|s| - 1]);
    if |s| == 1 {
      assert DigitsValue(s) == last;
      assert DigitChar(last) == s[0];
    } else {
      assert init[0] == s[0];
      NatTextOfDigits(init);
      LeadingDigitValue(init);
      var n := DigitsValue(s);
      assert n == 10 * DigitsValue(init) + last;
      assert n / 10 == DigitsValue(init) && n % 10 == last;
      assert DigitChar(last) == s[|s| - 1];
      assert init + [s[|s| - 1]] == s;
    }
  }

  /** A digit string that does not start with 0 has a value of at least 1. */
  lemma {:induction false} LeadingDigitValue(s: string)
    requires AllDigits(s) && |s| >= 1 && s[0] != '0'
    ensures DigitsValue(s) >= 1
  {
    if |s| > 1 {
      LeadingDigitValue(s[..|s| - 1]);
    }
  }

  /** One or two digits come back unchanged once padded. */
  lemma ShortFieldRoundTrip(s: string)
    requires AllDigits(s) && 1 <= |s| <= 2
    ensures PadStart2(NumberText(s)) == PadStart2(s)
  {
    if |s| == 1 || s[0] != '0' {
      NatTextOfDigits(s);
    } else {
      var tail := s[1..];
      assert DigitsValue(s[..1]) == 0;
      assert DigitsValue(s) == DigitValue(s[1]);
      assert NatText(DigitsValue(s)) == [s[1]];
      assert PadStart2([s[1]]) == "0" + [s[1]] == s;
    }
  }

  /** Three parts without "-" joined by "-" split back into those three parts. */
  lemma SplitDate(dd: string, mm: string, yyyy: string)
    requires '-' !in dd && '-' !in mm && '-' !in yyyy
    ensures Split(dd + "-" + mm + "-" + yyyy, '-') == [dd, mm, yyyy]
  {
    assert dd + "-" + mm + "-" + yyyy == dd + ['-'] + (mm + ['-'] + yyyy);
    SplitPrefix(dd, '-', mm + ['-'] + yyyy);
    SplitPrefix(mm, '-', yyyy);
    SplitWhole(yyyy, '-');
  }

  /**
   * A date written DD-MM-YYYY (day and month with one or two digits, the year
   * without leading zeros) comes out as YYYY-MM-DD with day and month padded
   * to two digits.
   */
  lemma ReformatDayMonthYear(dd: string, mm: string, yyyy: string)
    requires AllDigits(dd) && 1 <= |dd| <= 2
    requires AllDigits(mm) && 1 <= |mm| <= 2
    requires AllDigits(yyyy) && |yyyy| >= 1 && (|yyyy| > 1 ==> yyyy[0] != '0')
    ensures ReformatDate(dd + "-" + mm + "-" + yyyy) == yyyy + "-" + PadStart2(mm) + "-" + PadStart2(dd)
  {
    assert '-' !in dd && '-' !in mm && '-' !in yyyy by {
      assert !IsDigit('-');
    }
    SplitDate(dd, mm, yyyy);
    var parts := Split(dd + "-" + mm + "-" + yyyy, '-');
    assert Field(parts, 2) == yyyy by {
      NatTextOfDigits(yyyy);
    }
    assert PadStart2(Field(parts, 1)) == PadStart2(mm) by {
      ShortFieldRoundTrip(mm);
    }
    assert PadStart2(Field(parts, 0)) == PadStart2(dd) by {
      ShortFieldRoundTrip(dd);
    }
  }

  /** A zero-padded day and month come through as written: "14-03-2025" becomes "2025-03-14". */
  lemma ReformatZeroPaddedDate()
    ensures ReformatDate("14" + "-" + "03" + "-" + "2025") == "2025" + "-" + "03" + "-" + "14"
  {
    assert AllDigits("14") && AllDigits("03") && AllDigits("2025");
    ReformatDayMonthYear("14", "03", "2025");
  }

  /** A single-digit day and month are padded: "4-3-2025" becomes "2025-03-04". */
  lemma ReformatPadsDayAndMonth()
    ensures ReformatDate("4" + "-" + "3" + "-" + "2025") == "2025" + "-" + "03" + "-" + "04"
  {
    assert AllDigits("4") && AllDigits("3") && AllDigits("2025");
    ReformatDayMonthYear("4", "3", "2025");
    assert PadStart2("3") == "03" && PadStart2("4") == "04";
  }
}
