/**
 * Text utilities: number recognition, the year/month/day extractors used
 * to find reports by date, ellipsis and clipping, list splitting,
 * Chinese-numeral conversion, Markdown text extraction and text-area
 * measurement. Characters are UTF-16 code units; digits are ASCII digits,
 * as in Java regular expressions without the Unicode flag.
 */
module TextUtilsModel {
  import opened PsychologyTypes
  import opened Strings

  const IntMin: int := -0x8000_0000
  const IntMax: int := 0x7fff_ffff

  function Max(a: int, b: int): int { if a > b then a else b }
  function Min(a: int, b: int): int { if a < b then a else b }

  predicate AllDigits(s: string)
  {
    |s| > 0 && forall i :: 0 <= i < |s| ==> IsDigit(s[i])
  }

  /** The pattern -?\d+(\.\d+)?: an optional minus, digits, and optionally a dot and more digits. */
  predicate IsNumeric(s: string)
  {
    var body := if |s| > 0 && s[0] == '-' then s[1..] else s;
    var dot := IndexOf(body, '.');
    if dot == -1 then AllDigits(body) else AllDigits(body[..dot]) && AllDigits(body[dot + 1..])
  }

  function Pow10(n: nat): (p: nat)
    ensures p >= 1
  {
    if n == 0 then 1 else 10 * Pow10(n - 1)
  }

  /** The decimal value of a digit string. */
  function Value(d: string): (v: nat)
    requires forall i :: 0 <= i < |d| ==> IsDigit(d[i])
    ensures v < Pow10(|d|)
  {
    if d == [] then 0
    else
      var init := d[..|d| - 1];
      var v := Value(init);
      assert v <= Pow10(|init|) - 1;
      assert v * 10 <= Pow10(|d|) - 10;
      v * 10 + DigitValue(d[|d| - 1])
  }

  function DigitValue(c: char): (v: nat)
    requires IsDigit(c)
    ensures v <= 9
  {
    c as int - '0' as int
  }

  lemma {:induction false} ValueAppend(a: string, b: string)
    requires forall i :: 0 <= i < |a| ==> IsDigit(a[i])
    requires forall i :: 0 <= i < |b| ==> IsDigit(b[i])
    ensures Value(a + b) == Value(a) * Pow10(|b|) + Value(b)
  {
    if b != [] {
      var init := b[..|b| - 1];
      var last := DigitValue(b[|b| - 1]);
      assert (a + b)[..|a + b| - 1] == a + init;
      ValueAppend(a, init);
      assert Value(a + b) == Value(a + init) * 10 + last;
      Regroup(Value(a), Pow10(|init|), Value(init), last);
    } else {
      assert a + b == a;
    }
  }

  lemma Regroup(x: int, p: int, y: int, l: int)
    ensures (x * p + y) * 10 + l == x * (10 * p) + (y * 10 + l)
  {
  }

  /**
   * Integer.parseInt over ASCII digits: an optional sign followed by
   * digits, within the 32-bit range; absent where Java throws.
   */
  function ParseInt(s: string): (r: Option<int>)
    ensures r.Some? ==> IntMin <= r.value <= IntMax
    ensures r.Some? ==> '.' !in s
  {
    var signed := |s| > 0 && (s[0] == '-' || s[0] == '+');
    var body := if signed then s[1..] else s;
    if !AllDigits(body) then None
    else
      assert forall i :: 0 <= i < |s| ==> s[i] == '-' || s[i] == '+' || IsDigit(s[i]);
      var v := if |s| > 0 && s[0] == '-' then -(Value(body) as int) else Value(body) as int;
      if IntMin <= v <= IntMax then Some(v) else None
  }

  /** A word the scans for numbers accept: numeric, and parseable as an int. */
  function NumericInt(w: string): (r: Option<int>)
    ensures r.Some? ==> IsNumeric(w) && '.' !in w
  {
    if IsNumeric(w) then ParseInt(w) else None
  }

  /** Digit strings of up to nine digits are always accepted, with their value. */
  lemma ShortDigitsParse(d: string)
    requires AllDigits(d) && |d| <= 9
    ensures NumericInt(d) == Some(Value(d) as int)
  {
    assert '.' !in d by { assert forall i :: 0 <= i < |d| ==> IsDigit(d[i]); }
    IndexOfMeaning(d, '.');
    assert d[0] != '-' && d[0] != '+';
    PowBound(|d|);
  }

  lemma PowBound(n: nat)
    requires n <= 9
    ensures Pow10(n) <= 1_000_000_000
  {
    PowMonotone(n, 9);
    assert Pow10(3) == 1000;
    assert Pow10(6) == 1000 * Pow10(3);
    assert Pow10(9) == 1000 * Pow10(6);
  }

  /** A numeric word with a fractional part is never accepted. */
  lemma FractionRejected(w: string)
    requires IsNumeric(w) && '.' in w
    ensures NumericInt(w).None?
  {
  }

  // ---- Dates -------------------------------------------------------------

  /** The characters other than spaces. */
  function NonSpace(s: string): (r: string)
    ensures |r| <= |s|
  {
    if s == [] then [] else (if s[0] == ' ' then [] else [s[0]]) + NonSpace(s[1..])
  }

  /** The digits of s, in order. */
  function Digits(s: string): (r: string)
    ensures forall i :: 0 <= i < |r| ==> IsDigit(r[i])
  {
    if s == [] then [] else (if IsDigit(s[0]) then [s[0]] else []) + Digits(s[1..])
  }

  /** A digit is never a space, so there are no more digits than non-space characters. */
  lemma {:induction false} DigitsWithinNonSpace(s: string)
    ensures |Digits(s)| <= |NonSpace(s)|
  {
    if s != [] {
      DigitsWithinNonSpace(s[1..]);
    }
  }

  lemma {:induction false} NonSpaceAppend(a: string, b: string)
    ensures NonSpace(a + b) == NonSpace(a) + NonSpace(b)
  {
    if a != [] {
      assert (a + b)[1..] == a[1..] + b;
      NonSpaceAppend(a[1..], b);
    } else {
      assert a + b == b;
    }
  }

  lemma {:induction false} DigitsAppend(a: string, b: string)
    ensures Digits(a + b) == Digits(a) + Digits(b)
  {
    if a != [] {
      assert (a + b)[1..] == a[1..] + b;
      DigitsAppend(a[1..], b);
    } else {
      assert a + b == b;
    }
  }

  lemma NonSpaceOfSpaceFree(s: string)
    requires ' ' !in s
    ensures NonSpace(s) == s
  {
    if s != [] {
      NonSpaceOfSpaceFree(s[1..]);
    }
  }

  function Reverse(s: string): (r: string)
    ensures |r| == |s|
  {
    if s == [] then [] else Reverse(s[1..]) + [s[0]]
  }

  lemma {:induction false} ReverseAppend(a: string, b: string)
    ensures Reverse(a + b) == Reverse(b) + Reverse(a)
  {
    if a != [] {
      assert (a + b)[1..] == a[1..] + b;
      ReverseAppend(a[1..], b);
    } else {
      assert a + b == b;
    }
  }

  lemma {:induction false} ReverseReverse(s: string)
    ensures Reverse(Reverse(s)) == s
  {
    if s != [] {
      ReverseReverse(s[1..]);
      ReverseAppend(Reverse(s[1..]), [s[0]]);
      assert s == [s[0]] + s[1..];
    }
  }

  /**
   * What the backward scan from index finds: nothing when more than limit
   * characters other than spaces precede index, otherwise the digits among
   * them in text order.
   */
  function Preceding(text: string, index: nat, limit: nat): Option<string>
    requires index <= |text|
  {
    if |NonSpace(text[..index])| > limit then None else Some(Digits(text[..index]))
  }

  /** The forward scan from index: the same over the rest of the text. */
  function Following(text: string, index: nat, limit: nat): Option<string>
    requires index <= |text|
  {
    if |NonSpace(text[index..])| > limit then None else Some(Digits(text[index..]))
  }

  /**
   * The backward loop of the extractors: it skips spaces, collects digits
   * last one first, and gives up once a digit or a character count exceeds
   * limit. The collected digits come back in text order.
   */
  method ScanBack(text: string, index: nat, limit: nat) returns (r: Option<string>)
    requires index <= |text|
    ensures r == Preceding(text, index, limit)
  {
    var buf := "";
    var count := 0;
    var i := index;
    // text[i - 1] is the character under inspection
    while i > 0
      invariant 0 <= i <= index
      invariant count == |NonSpace(text[i..index])| <= limit
      invariant buf == Reverse(Digits(text[i..index]))
    {
      var c := text[i - 1];
      assert text[i - 1..index] == [c] + text[i..index];
      BackStep(c, text[i..index]);
      if c != ' ' {
        if IsDigit(c) {
          buf := buf + [c];
        }
        count := count + 1;
        if |buf| > limit || count > limit {
          DigitsWithinNonSpace(text[i - 1..index]);
          TooManyBefore(text, i - 1, index, limit);
          return None;
        }
      }
      i := i - 1;
    }
    assert text[0..index] == text[..index];
    ReverseReverse(Digits(text[..index]));
    r := Some(Reverse(buf));
  }

  lemma TooManyBefore(text: string, i: nat, index: nat, limit: nat)
    requires i <= index <= |text|
    requires |NonSpace(text[i..index])| > limit
    ensures Preceding(text, index, limit).None?
  {
    assert text[..index] == text[..i] + text[i..index];
    NonSpaceAppend(text[..i], text[i..index]);
  }

  lemma BackStep(c: char, rest: string)
    ensures NonSpace([c] + rest) == (if c == ' ' then [] else [c]) + NonSpace(rest)
    ensures Reverse(Digits([c] + rest)) == Reverse(Digits(rest)) + (if IsDigit(c) then [c] else [])
  {
    assert ([c] + rest)[1..] == rest;
    if IsDigit(c) {
      assert ([c] + Digits(rest))[1..] == Digits(rest);
    } else {
      assert Digits([c] + rest) == Digits(rest);
    }
  }

  /** The forward loop of the day extractor, from index to the end of the text. */
  method ScanForward(text: string, index: nat, limit: nat) returns (r: Option<string>)
    requires index <= |text|
    ensures r == Following(text, index, limit)
  {
    var buf := "";
    var count := 0;
    var i := index;
    while i < |text|
      invariant index <= i <= |text|
      invariant count == |NonSpace(text[index..i])| <= limit
      invariant buf == Digits(text[index..i])
    {
      ForwardStep(text, index, i);
      if text[i] != ' ' {
        if IsDigit(text[i]) {
          buf := buf + [text[i]];
        }
        count := count + 1;
        if |buf| > limit || count > limit {
          DigitsWithinNonSpace(text[index..i + 1]);
          TooManyAfter(text, index, i + 1, limit);
          return None;
        }
      }
      i := i + 1;
    }
    assert text[index..i] == text[index..];
    r := Some(buf);
  }

  lemma TooManyAfter(text: string, index: nat, i: nat, limit: nat)
    requires index <= i <= |text|
    requires |NonSpace(text[index..i])| > limit
    ensures Following(text, index, limit).None?
  {
    assert text[index..] == text[index..i] + text[i..];
    NonSpaceAppend(text[index..i], text[i..]);
  }

  lemma ForwardStep(text: string, index: nat, i: nat)
    requires index <= i < |text|
    ensures NonSpace(text[index..i + 1]) == NonSpace(text[index..i]) + (if text[i] == ' ' then [] else [text[i]])
    ensures Digits(text[index..i + 1]) == Digits(text[index..i]) + (if IsDigit(text[i]) then [text[i]] else [])
  {
    var x := text[i];
    assert text[index..i + 1] == text[index..i] + [x];
    NonSpaceAppend(text[index..i], [x]);
    DigitsAppend(text[index..i], [x]);
    assert [x][1..] == [];
  }

  function UpTo(v: nat, bound: nat): (r: nat)
    ensures r <= bound
  {
    if v <= bound then v else 0
  }

  /** The year read from the digits before the first 年; two digits YY mean 20YY. */
  function YearOf(text: string): (y: int)
    ensures 0 <= y <= 9999
  {
    var index := IndexOf(text, '年');
    if index <= 0 then 0
    else
      DigitsWithinNonSpace(text[..index]);
      match Preceding(text, index, 4)
      case None => 0
      case Some(d) =>
        if d == [] then 0 else YearValue(d)
  }

  /** Up to four digits as a year; two digits YY stand for 20YY. */
  function YearValue(d: string): (y: nat)
    requires forall i :: 0 <= i < |d| ==> IsDigit(d[i])
    requires |d| <= 4
    ensures y <= 9999
  {
    PowMonotone(|d|, 4);
    if |d| == 2 then Value("20" + d) else Value(d)
  }

  lemma {:induction false} PowMonotone(m: nat, n: nat)
    requires m <= n
    ensures Pow10(m) <= Pow10(n)
  {
    if m < n {
      PowMonotone(m, n - 1);
    }
  }

  /** A two-digit year lands in 2000..2099. */
  lemma TwoDigitYear(text: string)
    requires IndexOf(text, '年') > 0
    requires Preceding(text, IndexOf(text, '年'), 4).Some?
    requires |Preceding(text, IndexOf(text, '年'), 4).value| == 2
    ensures 2000 <= YearOf(text) <= 2099
  {
    var d := Preceding(text, IndexOf(text, '年'), 4).value;
    ValueAppend("20", d);
    assert Value("20") == 20 by {
      assert "20"[..1] == "2";
      assert Value("2") == 2 by { assert "2"[..0] == ""; }
    }
  }

  method ExtractYear(text: string) returns (year: int)
    ensures year == YearOf(text)
  {
    var index := IndexOf(text, '年');
    if index <= 0 {
      return 0;
    }
    var digits := ScanBack(text, index, 4);
    if digits.None? || |digits.value| == 0 {
      return 0;
    }
    var buf := digits.value;
    if |buf| == 2 {
      buf := "20" + buf;
    }
    year := Value(buf);
  }

  /** The month read from the digits before the first 月; values above 12 give 0. */
  function MonthOf(text: string): (m: int)
    ensures 0 <= m <= 12
  {
    var index := IndexOf(text, '月');
    if index <= 0 then 0
    else
      match Preceding(text, index, 2)
      case None => 0
      case Some(d) => if d == [] then 0 else UpTo(Value(d), 12)
  }

  method ExtractMonth(text: string) returns (month: int)
    ensures month == MonthOf(text)
  {
    var index := IndexOf(text, '月');
    if index <= 0 {
      return 0;
    }
    var digits := ScanBack(text, index, 2);
    if digits.None? || |digits.value| == 0 {
      return 0;
    }
    var result := Value(digits.value);
    if result <= 12 {
      return result;
    }
    return 0;
  }

  /**
   * The day read from the digits before the first 日 (or, when 日 is absent
   * or first, the first 号); failing digits there, from the digits after
   * the first 月; values above 31 give 0.
   */
  function DayOf(text: string): (d: int)
    ensures 0 <= d <= 31
  {
    var at := IndexOf(text, '日');
    var index := if at <= 0 then IndexOf(text, '号') else at;
    match Preceding(text, Max(index, 0), 2)
    case None => 0
    case Some(back) =>
      if back != [] then UpTo(Value(back), 31)
      else
        match Following(text, IndexOf(text, '月') + 1, 2)
        case None => 0
        case Some(fwd) => if fwd == [] then 0 else UpTo(Value(fwd), 31)
  }

  method ExtractDay(text: string) returns (day: int)
    ensures day == DayOf(text)
  {
    var index := IndexOf(text, '日');
    if index <= 0 {
      index := IndexOf(text, '号');
    }
    var back := ScanBack(text, Max(index, 0), 2);
    if back.None? {
      return 0;
    }
    var buf := back.value;
    if |buf| == 0 {
      var month := IndexOf(text, '月');
      var fwd := ScanForward(text, month + 1, 2);
      if fwd.None? {
        return 0;
      }
      buf := fwd.value;
    }
    if |buf| == 0 {
      return 0;
    }
    var result := Value(buf);
    if result <= 31 {
      return result;
    }
    return 0;
  }

  // ---- The intended scans ------------------------------------------------

  /** The digits right before the end of s, skipping spaces and stopping at any other character. */
  function DigitRun(s: string): (r: string)
    ensures forall i :: 0 <= i < |r| ==> IsDigit(r[i])
  {
    if s == [] then []
    else if s[|s| - 1] == ' ' then DigitRun(s[..|s| - 1])
    else if IsDigit(s[|s| - 1]) then DigitRun(s[..|s| - 1]) + [s[|s| - 1]]
    else []
  }

  /** The digits right after the start of s, skipping spaces and stopping at any other character. */
  function DigitRunForward(s: string): (r: string)
    ensures forall i :: 0 <= i < |r| ==> IsDigit(r[i])
  {
    if s == [] then []
    else if s[0] == ' ' then DigitRunForward(s[1..])
    else if IsDigit(s[0]) then [s[0]] + DigitRunForward(s[1..])
    else []
  }

  /** A number written right after a non-digit, non-space character is the run before its end. */
  lemma {:induction false} DigitRunOfNumber(p: string, d: string)
    requires AllDigits(d) || d == []
    requires p == [] || (!IsDigit(p[|p| - 1]) && p[|p| - 1] != ' ')
    ensures DigitRun(p + d) == d
  {
    if d == [] {
      assert p + d == p;
    } else {
      var init := d[..|d| - 1];
      assert (p + d)[..|p + d| - 1] == p + init;
      DigitRunOfNumber(p, init);
    }
  }

  lemma {:induction false} DigitRunForwardOfNumber(d: string, q: string)
    requires AllDigits(d) || d == []
    requires q == [] || (!IsDigit(q[0]) && q[0] != ' ')
    ensures DigitRunForward(d + q) == d
  {
    if d == [] {
      assert d + q == q;
    } else {
      assert (d + q)[1..] == d[1..] + q;
      DigitRunForwardOfNumber(d[1..], q);
    }
  }

  /** The intended backward scan: the digit run before index, nothing when longer than limit. */
  function RunBefore(text: string, index: nat, limit: nat): Option<string>
    requires index <= |text|
  {
    var run := DigitRun(text[..index]);
    if |run| > limit then None else Some(run)
  }

  function RunAfter(text: string, index: nat, limit: nat): Option<string>
    requires index <= |text|
  {
    var run := DigitRunForward(text[index..]);
    if |run| > limit then None else Some(run)
  }

  function CorrectedYearOf(text: string): (y: int)
    ensures 0 <= y <= 9999
  {
    var index := IndexOf(text, '年');
    if index <= 0 then 0
    else
      match RunBefore(text, index, 4)
      case None => 0
      case Some(d) =>
        if d == [] then 0 else YearValue(d)
  }

  function CorrectedMonthOf(text: string): (m: int)
    ensures 0 <= m <= 12
  {
    var index := IndexOf(text, '月');
    if index <= 0 then 0
    else
      match RunBefore(text, index, 2)
      case None => 0
      case Some(d) => if d == [] then 0 else UpTo(Value(d), 12)
  }

  function CorrectedDayOf(text: string): (d: int)
    ensures 0 <= d <= 31
  {
    var at := IndexOf(text, '日');
    var index := if at <= 0 then IndexOf(text, '号') else at;
    match RunBefore(text, Max(index, 0), 2)
    case None => 0
    case Some(back) =>
      if back != [] then UpTo(Value(back), 31)
      else
        match RunAfter(text, IndexOf(text, '月') + 1, 2)
        case None => 0
        case Some(fwd) => if fwd == [] then 0 else UpTo(Value(fwd), 31)
  }

  /** The first occurrence of c in a text whose head is free of c. */
  lemma IndexOfAfter(head: string, c: char, tail: string)
    requires c !in head
    ensures IndexOf(head + [c] + tail, c) == |head|
  {
    var s := head + [c] + tail;
    assert s[|head|] == c;
    assert s[..|head|] == head;
    IndexOfAt(s, c, |head|);
  }

  /**
   * The intended reading: a number of one to limit digits written right
   * before the marker, after a character that is neither a digit nor a
   * space, is what the corrected scan finds, whatever precedes it.
   */
  lemma NumberBeforeMarker(p: string, d: string, c: char, q: string, limit: nat)
    requires AllDigits(d) && |d| <= limit && c !in p + d
    requires p == [] || (!IsDigit(p[|p| - 1]) && p[|p| - 1] != ' ')
    ensures IndexOf(p + d + [c] + q, c) == |p + d|
    ensures RunBefore(p + d + [c] + q, |p + d|, limit) == Some(d)
  {
    IndexOfAfter(p + d, c, q);
    assert (p + d + [c] + q)[..|p + d|] == p + d;
    DigitRunOfNumber(p, d);
  }

  /** As written, the same number is lost once more than limit non-space characters precede the marker. */
  lemma NumberBeforeMarkerLost(p: string, d: string, c: char, q: string, limit: nat)
    requires c !in p + d && |NonSpace(p + d)| > limit
    ensures IndexOf(p + d + [c] + q, c) == |p + d|
    ensures Preceding(p + d + [c] + q, |p + d|, limit).None?
  {
    IndexOfAfter(p + d, c, q);
    assert (p + d + [c] + q)[..|p + d|] == p + d;
  }

  /** As written, the year of "这是来自24年的祝福" is 0: six characters precede 年. */
  lemma YearAsWritten()
    ensures YearOf("这是来自24年的祝福") == 0
  {
    var p, d, q := "这是来自", "24", "的祝福";
    assert "这是来自24年的祝福" == p + d + ['年'] + q;
    NonSpaceOfSpaceFree(p + d);
    NumberBeforeMarkerLost(p, d, '年', q, 4);
  }

  /** As intended, the same text gives 2024. */
  lemma YearCorrected()
    ensures CorrectedYearOf("这是来自24年的祝福") == 2024
  {
    var p, d, q := "这是来自", "24", "的祝福";
    assert "这是来自24年的祝福" == p + d + ['年'] + q;
    CorrectedYearOfNumber(p, d, q);
    TwentyFourIs2024();
  }

  lemma TwentyFourIs2024()
    ensures YearValue("24") == 2024
  {
    assert "20" + "24" == "2024";
    assert "2024"[..3] == "202" && "202"[..2] == "20" && "20"[..1] == "2" && "2"[..0] == "";
    assert Value("20") == 20;
    assert Value("202") == 202;
  }

  /** A number of one to four digits right before the first 年, after a non-digit, non-space character, is the year. */
  lemma CorrectedYearOfNumber(p: string, d: string, q: string)
    requires AllDigits(d) && |d| <= 4 && '年' !in p + d
    requires p == [] || (!IsDigit(p[|p| - 1]) && p[|p| - 1] != ' ')
    ensures CorrectedYearOf(p + d + ['年'] + q) == YearValue(d)
  {
    NumberBeforeMarker(p, d, '年', q, 4);
  }

  /** The same for a month of one or two digits before the first 月. */
  lemma CorrectedMonthOfNumber(p: string, d: string, q: string)
    requires AllDigits(d) && |d| <= 2 && '月' !in p + d
    requires p == [] || (!IsDigit(p[|p| - 1]) && p[|p| - 1] != ' ')
    ensures CorrectedMonthOf(p + d + ['月'] + q) == UpTo(Value(d), 12)
  {
    NumberBeforeMarker(p, d, '月', q, 2);
  }

  /** The same for a day of one or two digits before the first 日. */
  lemma CorrectedDayOfNumber(p: string, d: string, q: string)
    requires AllDigits(d) && |d| <= 2 && '日' !in p + d
    requires p == [] || (!IsDigit(p[|p| - 1]) && p[|p| - 1] != ' ')
    ensures CorrectedDayOf(p + d + ['日'] + q) == UpTo(Value(d), 31)
  {
    NumberBeforeMarker(p, d, '日', q, 2);
  }

  /** As written, the month of "查看2025年4月的" is 0: more than two characters precede 月. */
  lemma MonthAsWritten()
    ensures MonthOf("查看2025年4月的") == 0
  {
    var p, d, q := "查看2025年", "4", "的";
    assert "查看2025年4月的" == p + d + ['月'] + q;
    NonSpaceOfSpaceFree(p + d);
    NumberBeforeMarkerLost(p, d, '月', q, 2);
  }

  /** As intended, the same text gives 4. */
  lemma MonthCorrected()
    ensures CorrectedMonthOf("查看2025年4月的") == 4
  {
    var p, d, q := "查看2025年", "4", "的";
    assert "查看2025年4月的" == p + d + ['月'] + q;
    CorrectedMonthOfNumber(p, d, q);
    assert Value("4") == 4 by { assert "4"[..0] == ""; }
  }

  /** As written, the day of "这是来自10月17日的祝福" is 0: more than two characters precede 日. */
  lemma DayAsWritten()
    ensures DayOf("这是来自10月17日的祝福") == 0
  {
    var p, d, q := "这是来自10月", "17", "的祝福";
    assert "这是来自10月17日的祝福" == p + d + ['日'] + q;
    NonSpaceOfSpaceFree(p + d);
    NumberBeforeMarkerLost(p, d, '日', q, 2);
  }

  /** As intended, the same text gives 17. */
  lemma DayCorrected()
    ensures CorrectedDayOf("这是来自10月17日的祝福") == 17
  {
    var p, d, q := "这是来自10月", "17", "的祝福";
    assert "这是来自10月17日的祝福" == p + d + ['日'] + q;
    CorrectedDayOfNumber(p, d, q);
    assert Value("17") == 17 by { assert "17"[..1] == "1" && "1"[..0] == ""; }
  }

  // ---- Ellipsis, account names, clipping -----------------------------------

  /** text when it fits in limit characters, otherwise its first limit - 1 characters and "...". */
  function Ellipsis(text: string, limit: int): (r: string)
    requires |text| > limit ==> limit >= 1
    ensures |text| <= limit ==> r == text
    ensures |text| > limit ==> |r| == limit + 2 && r == text[..limit - 1] + "..."
  {
    if |text| > limit then text[..limit - 1] + "..." else text
  }

  /** An abbreviated text abbreviates to itself. */
  lemma EllipsisIdempotent(text: string, limit: int)
    requires |text| > limit ==> limit >= 1
    ensures Ellipsis(Ellipsis(text, limit), limit) == Ellipsis(text, limit)
  {
    if |text| > limit {
      var r := Ellipsis(text, limit);
      assert r[..limit - 1] == text[..limit - 1];
    }
  }

  /** The account name of an address: what precedes the first '@' when something does, else the whole text. */
  function AccountName(email: string): (r: string)
    ensures IndexOf(email, '@') > 0 ==> r == email[..IndexOf(email, '@')] && r != [] && '@' !in r
    ensures IndexOf(email, '@') <= 0 ==> r == email
  {
    IndexOfMeaning(email, '@');
    var index := IndexOf(email, '@');
    if index > 0 then email[..index] else email
  }

  /** Taking the account name twice changes nothing. */
  lemma AccountNameIdempotent(email: string)
    ensures AccountName(AccountName(email)) == AccountName(email)
  {
    IndexOfMeaning(AccountName(email), '@');
  }

  /** The address whose name part is name gives name back. */
  lemma AccountNameOfAddress(name: string, domain: string)
    requires name != [] && '@' !in name
    ensures AccountName(name + "@" + domain) == name
  {
    IndexOfAfter(name, '@', domain);
    assert (name + "@" + domain)[..|name|] == name;
  }

  /**
   * The note form of a text: the first ceil(len / 5) characters, at most
   * 20, followed by "..."; only "..." for a missing text or one of at most
   * one character.
   */
  function Clip(content: Option<string>): (r: string)
    ensures |r| >= 3 && r[|r| - 3..] == "..." && |r| <= 23
    ensures content.None? || |content.value| <= 1 ==> r == "..."
    ensures content.Some? && |content.value| > 1 ==>
      var v := r[..|r| - 3];
      |v| < |content.value| && v == content.value[..|v|] &&
      (|v| == 20 || 5 * |v| >= |content.value|) && 5 * |v| < |content.value| + 5
  {
    var value := if content.Some? && |content.value| > 1 then content.value[..Min((|content.value| + 4) / 5, 20)] else "";
    value + "..."
  }

  /** A word starts with an ASCII letter or digit; only its first character is looked at. */
  method IsWord(word: string) returns (result: bool)
    ensures result <==> |word| > 0 && (IsDigit(word[0]) || IsAsciiLetter(word[0]))
  {
    result := false;
    var i := 0;
    while i < |word|
      invariant 0 <= i <= |word|
      invariant i > 0 ==> !(IsDigit(word[0]) || IsAsciiLetter(word[0]))
    {
      var c := word[0];
      if IsDigit(c) || IsAsciiLetter(c) {
        result := true;
        break;
      }
      i := i + 1;
    }
  }

  /** isBlank: a missing text, or one made only of characters up to U+0020, which trim removes. */
  function IsBlank(source: Option<string>): (r: bool)
    ensures r <==> source.None? || forall i :: 0 <= i < |source.value| ==> source.value[i] <= ' '
  {
    if source.None? then true
    else
      var s := source.value;
      var t := TrimStart(s);
      TrimStartMeaning(s);
      TrimEndMeaning(t);
      assert t != [] ==> TrimEnd(t) != [];
      assert (forall i :: 0 <= i < |s| ==> s[i] <= ' ') ==> t == [] by {
        if t != [] {
          assert s[|s| - |t|] == t[0];
        }
      }
      Trim(s) == []
  }

  /**
   * fixChineseBlank: every character is kept except a space right after a
   * Chinese character, which is dropped. isChinese stands for the source's
   * one-character Chinese pattern.
   */
  function Unblanked(s: string, isChinese: char -> bool): string
    decreases |s|
  {
    if s == [] then []
    else if isChinese(s[0]) && |s| >= 2 && s[1] == ' ' then [s[0]] + Unblanked(s[2..], isChinese)
    else [s[0]] + Unblanked(s[1..], isChinese)
  }

  /** Only spaces are dropped: the other characters come out unchanged and in order. */
  lemma {:induction false} UnblankedDropsOnlySpaces(s: string, isChinese: char -> bool)
    ensures NonSpace(Unblanked(s, isChinese)) == NonSpace(s)
    ensures |Unblanked(s, isChinese)| <= |s|
    decreases |s|
  {
    if s != [] {
      if isChinese(s[0]) && |s| >= 2 && s[1] == ' ' {
        UnblankedDropsOnlySpaces(s[2..], isChinese);
        NonSpaceAppend([s[0]], Unblanked(s[2..], isChinese));
        assert s == [s[0]] + [' '] + s[2..];
        NonSpaceAppend([s[0]] + [' '], s[2..]);
        NonSpaceAppend([s[0]], [' ']);
      } else {
        UnblankedDropsOnlySpaces(s[1..], isChinese);
        NonSpaceAppend([s[0]], Unblanked(s[1..], isChinese));
      }
    }
  }

  /** A text without Chinese characters is left as it is. */
  lemma {:induction false} UnblankedWithoutChinese(s: string, isChinese: char -> bool)
    requires forall i :: 0 <= i < |s| ==> !isChinese(s[i])
    ensures Unblanked(s, isChinese) == s
    decreases |s|
  {
    if s != [] {
      UnblankedWithoutChinese(s[1..], isChinese);
    }
  }

  /** A Chinese character followed by one space loses the space. */
  lemma ChineseBlankDropped(isChinese: char -> bool)
    requires isChinese('中') && !isChinese('文')
    ensures Unblanked("中 文", isChinese) == "中文"
  {
    assert "中 文"[2..] == "文";
    assert "文"[1..] == [];
  }

  /** The source's loop: each character is copied, and a space after a Chinese one skipped. */
  method FixChineseBlank(input: string, isChinese: char -> bool) returns (result: string)
    ensures result == Unblanked(input, isChinese)
  {
    result := [];
    var i := 0;
    while i < |input|
      invariant 0 <= i <= |input|
      invariant result + Unblanked(input[i..], isChinese) == Unblanked(input, isChinese)
    {
      var w := input[i];
      var skip := isChinese(w) && i + 1 < |input| && input[i + 1] == ' ';
      UnblankedAt(input, i, isChinese);
      ConcatAssoc(result, [w], Unblanked(input[if skip then i + 2 else i + 1..], isChinese));
      result := result + [w];
      if skip {
        i := i + 1;
      }
      i := i + 1;
    }
  }

  /** One step of the loop: the character at i is kept, and a space after a Chinese one skipped. */
  lemma UnblankedAt(input: string, i: nat, isChinese: char -> bool)
    requires i < |input|
    ensures var next := if isChinese(input[i]) && i + 1 < |input| && input[i + 1] == ' ' then i + 2 else i + 1;
      Unblanked(input[i..], isChinese) == [input[i]] + Unblanked(input[next..], isChinese)
  {
    assert input[i..][1..] == input[i + 1..];
    if i + 1 < |input| {
      assert input[i..][2..] == input[i + 2..];
    }
  }

  /** The list markers "1." to "15.". */
  const NumberSigns: seq<string> :=
    ["1.", "2.", "3.", "4.", "5.", "6.", "7.", "8.", "9.", "10.", "11.", "12.", "13.", "14.", "15."]

  predicate StartsWithNumberSign(text: string)
  {
    exists k :: 0 <= k < |NumberSigns| && StartsWith(text, NumberSigns[k])
  }

  /** The markers are the numbers 1 to 15 followed by a dot. */
  lemma NumberSignsAreNumbers()
    ensures |NumberSigns| == 15
    ensures forall k :: 0 <= k < |NumberSigns| ==> NumberSigns[k] == NatToString(k + 1) + "."
  {
    forall k | 0 <= k < |NumberSigns|
      ensures NumberSigns[k] == NatToString(k + 1) + "."
    {
      if k < 9 {
        OneDigitSign(k);
      } else {
        TwoDigitSign(k);
      }
    }
  }

  lemma OneDigitSign(k: nat)
    requires k < 9
    ensures NumberSigns[k] == NatToString(k + 1) + "."
  {
  }

  lemma TwoDigitSign(k: nat)
    requires 9 <= k < 15
    ensures NumberSigns[k] == NatToString(k + 1) + "."
  {
    assert NatToString(1) == "1";
  }

  /** A numbered text starts with a non-zero digit that a dot follows within two places. */
  lemma NumberSignShape(text: string)
    requires StartsWithNumberSign(text)
    ensures |text| >= 2 && '1' <= text[0] <= '9' && (text[1] == '.' || (|text| >= 3 && text[2] == '.'))
  {
    var k :| 0 <= k < |NumberSigns| && StartsWith(text, NumberSigns[k]);
    assert text[..|NumberSigns[k]|] == NumberSigns[k];
  }

  // ---- Case-insensitive candidates ------------------------------------------

  /** Whether some candidate occurs in the text, both lower-cased. */
  predicate ContainsAny(text: string, candidates: seq<string>)
  {
    exists k :: 0 <= k < |candidates| && Contains(Lower(text), Lower(candidates[k]))
  }

  method ContainsString(text: string, candidates: seq<string>) returns (found: bool)
    ensures found == ContainsAny(text, candidates)
  {
    var lowerText := Lower(text);
    var i := 0;
    while i < |candidates|
      invariant 0 <= i <= |candidates|
      invariant forall k :: 0 <= k < i ==> !Contains(lowerText, Lower(candidates[k]))
    {
      if Contains(lowerText, Lower(candidates[i])) {
        return true;
      }
      i := i + 1;
    }
    return false;
  }

  lemma LowerIdempotent(s: string)
    ensures Lower(Lower(s)) == Lower(s)
  {
  }

  /** The test ignores the case of the text: lower-casing it first changes nothing. */
  lemma ContainsAnyIgnoresCase(text: string, candidates: seq<string>)
    ensures ContainsAny(Lower(text), candidates) == ContainsAny(text, candidates)
  {
    LowerIdempotent(text);
  }

  // ---- Splitting a list by total length --------------------------------------

  /** The splitting loop's state: the closed groups, the open group and its total length. */
  datatype SplitState = SplitState(groups: seq<seq<string>>, current: seq<string>, length: int)

  /** Before adding an item, the open group is closed once its total exceeds limit. */
  function SplitStep(st: SplitState, text: string, limit: int): SplitState
  {
    if st.length > limit then SplitState(st.groups + [st.current], [text], |text|)
    else SplitState(st.groups, st.current + [text], st.length + |text|)
  }

  function SplitRun(list: seq<string>, limit: int): SplitState
  {
    if list == [] then SplitState([], [], 0)
    else SplitStep(SplitRun(list[..|list| - 1], limit), list[|list| - 1], limit)
  }

  /** The groups as written: the closed ones and the open one. */
  function SplitList(list: seq<string>, limit: int): seq<seq<string>>
  {
    var st := SplitRun(list, limit);
    st.groups + [st.current]
  }

  method SplitListLoop(list: seq<string>, limit: int) returns (result: seq<seq<string>>)
    ensures result == SplitList(list, limit)
  {
    result := [];
    var length := 0;
    var tmpList := [];
    for i := 0 to |list|
      invariant SplitState(result, tmpList, length) == SplitRun(list[..i], limit)
    {
      var text := list[i];
      assert list[..i + 1][..i] == list[..i];
      if length > limit {
        result := result + [tmpList];
        tmpList := [];
        length := 0;
      }
      tmpList := tmpList + [text];
      length := length + |text|;
    }
    assert list[..|list|] == list;
    result := result + [tmpList];
  }

  /** What the loop keeps: the groups flatten to the items so far, and the closed ones overflow. */
  ghost predicate SplitInvariant(st: SplitState, list: seq<string>, limit: int)
  {
    && st.length == TotalLength(st.current)
    && Flatten(st.groups) + st.current == list
    && HeadFits(st.current, limit)
    && forall g :: 0 <= g < |st.groups| ==> TotalLength(st.groups[g]) > limit && HeadFits(st.groups[g], limit)
  }

  /** All items but the last fit in limit. */
  ghost predicate HeadFits(group: seq<string>, limit: int)
  {
    |group| >= 2 ==> TotalLength(group[..|group| - 1]) <= limit
  }

  lemma {:induction false} SplitRunInvariant(list: seq<string>, limit: int)
    ensures SplitInvariant(SplitRun(list, limit), list, limit)
  {
    if list != [] {
      var init, text := list[..|list| - 1], list[|list| - 1];
      SplitRunInvariant(init, limit);
      assert list == init + [text];
      SplitStepKeeps(SplitRun(init, limit), init, text, limit);
    }
  }

  lemma SplitStepKeeps(st: SplitState, init: seq<string>, text: string, limit: int)
    requires SplitInvariant(st, init, limit)
    ensures SplitInvariant(SplitStep(st, text, limit), init + [text], limit)
  {
    if st.length > limit {
      FlattenSnoc(st.groups, st.current);
      assert HeadFits([text], limit);
    } else {
      assert (st.current + [text])[..|st.current|] == st.current;
    }
  }

  /**
   * As written: the groups flatten to the list, every group but the last
   * exceeds limit, and within each group all items but the last fit in it.
   */
  lemma SplitListProps(list: seq<string>, limit: int)
    ensures var r := SplitList(list, limit);
      && Flatten(r) == list
      && (forall g :: 0 <= g < |r| - 1 ==> TotalLength(r[g]) > limit)
      && (forall g :: 0 <= g < |r| && |r[g]| >= 2 ==> TotalLength(r[g][..|r[g]| - 1]) <= limit)
  {
    SplitRunInvariant(list, limit);
    ClosedGroupsProps(SplitRun(list, limit), list, limit);
  }

  lemma ClosedGroupsProps(st: SplitState, list: seq<string>, limit: int)
    requires SplitInvariant(st, list, limit)
    ensures var r := st.groups + [st.current];
      && Flatten(r) == list
      && (forall g :: 0 <= g < |r| - 1 ==> TotalLength(r[g]) > limit)
      && (forall g :: 0 <= g < |r| && |r[g]| >= 2 ==> TotalLength(r[g][..|r[g]| - 1]) <= limit)
  {
    FlattenSnoc(st.groups, st.current);
    var r := st.groups + [st.current];
    forall g | 0 <= g < |r| - 1
      ensures TotalLength(r[g]) > limit
    {
      assert r[g] == st.groups[g];
    }
    forall g | 0 <= g < |r| && |r[g]| >= 2
      ensures TotalLength(r[g][..|r[g]| - 1]) <= limit
    {
      if g < |st.groups| {
        assert r[g] == st.groups[g] && HeadFits(st.groups[g], limit);
      } else {
        assert r[g] == st.current;
      }
    }
  }

  /** The closing test sits before the add, so a group of ["a", "b", "c", "d"] totals 3 against a limit of 2. */
  lemma SplitListOverflows()
    ensures SplitList(["a", "b", "c", "d"], 2) == [["a", "b", "c"], ["d"]]
    ensures TotalLength(["a", "b", "c"]) == 3
  {
    SplitFourSingles("a", "b", "c", "d");
  }

  /** Four one-character items against a limit of 2 close after the third. */
  lemma SplitFourSingles(a: string, b: string, c: string, d: string)
    requires |a| == 1 && |b| == 1 && |c| == 1 && |d| == 1
    ensures SplitList([a, b, c, d], 2) == [[a, b, c], [d]]
    ensures TotalLength([a, b, c]) == 3
  {
    var l := [a, b, c, d];
    assert l[..0] == [];
    SplitRunPrefix(l, 0, 2);
    assert [] + [a] == [a];
    assert SplitRun(l[..1], 2) == SplitState([], [a], 1);
    SplitRunPrefix(l, 1, 2);
    assert [a] + [b] == [a, b];
    assert SplitRun(l[..2], 2) == SplitState([], [a, b], 2);
    SplitRunPrefix(l, 2, 2);
    assert [a, b] + [c] == [a, b, c];
    assert SplitRun(l[..3], 2) == SplitState([], [a, b, c], 3);
    SplitRunPrefix(l, 3, 2);
    assert l[..4] == l;
    assert SplitRun(l, 2) == SplitState([[a, b, c]], [d], 1);
    TotalOfThree(a, b, c);
  }

  lemma TotalOfThree(a: string, b: string, c: string)
    ensures TotalLength([a, b, c]) == |a| + |b| + |c|
  {
    assert [a, b, c][..2] == [a, b] && [a, b][..1] == [a] && [a][..0] == [];
    assert TotalLength([a]) == |a|;
    assert TotalLength([a, b]) == |a| + |b|;
  }

  lemma SplitRunPrefix(l: seq<string>, k: int, limit: int)
    requires 0 <= k < |l|
    ensures SplitRun(l[..k + 1], limit) == SplitStep(SplitRun(l[..k], limit), l[k], limit)
  {
    assert l[..k + 1][..k] == l[..k];
  }

  /** The intended step: close the open group when the item would take it past limit. */
  function FitStep(st: SplitState, text: string, limit: int): SplitState
  {
    if st.current != [] && st.length + |text| > limit then SplitState(st.groups + [st.current], [text], |text|)
    else SplitState(st.groups, st.current + [text], st.length + |text|)
  }

  function FitRun(list: seq<string>, limit: int): SplitState
  {
    if list == [] then SplitState([], [], 0)
    else FitStep(FitRun(list[..|list| - 1], limit), list[|list| - 1], limit)
  }

  function CorrectedSplitList(list: seq<string>, limit: int): seq<seq<string>>
  {
    var st := FitRun(list, limit);
    st.groups + [st.current]
  }

  ghost predicate FitInvariant(st: SplitState, list: seq<string>, limit: int)
  {
    && st.length == TotalLength(st.current)
    && Flatten(st.groups) + st.current == list
    && (list != [] ==> Fits(st.current, limit))
    && forall g :: 0 <= g < |st.groups| ==> Fits(st.groups[g], limit)
  }

  /** A non-empty group within limit, or a single item that alone exceeds it. */
  predicate Fits(group: seq<string>, limit: int)
  {
    group != [] && (TotalLength(group) <= limit || |group| == 1)
  }

  lemma {:induction false} FitRunInvariant(list: seq<string>, limit: int)
    ensures FitInvariant(FitRun(list, limit), list, limit)
  {
    if list != [] {
      var init, text := list[..|list| - 1], list[|list| - 1];
      FitRunInvariant(init, limit);
      assert list == init + [text];
      FitStepKeeps(FitRun(init, limit), init, text, limit);
    }
  }

  lemma FitStepKeeps(st: SplitState, init: seq<string>, text: string, limit: int)
    requires FitInvariant(st, init, limit)
    ensures FitInvariant(FitStep(st, text, limit), init + [text], limit)
  {
    if st.current != [] && st.length + |text| > limit {
      FlattenSnoc(st.groups, st.current);
      assert [text][..0] == [];
      assert Fits(st.current, limit);
    } else {
      assert (st.current + [text])[..|st.current|] == st.current;
    }
  }

  /**
   * As intended: the groups flatten to the list, none is empty unless the
   * list is, and each stays within limit unless it is a single item that
   * alone exceeds it.
   */
  lemma CorrectedSplitListProps(list: seq<string>, limit: int)
    ensures var r := CorrectedSplitList(list, limit);
      && Flatten(r) == list
      && (list != [] ==> forall g :: 0 <= g < |r| ==> Fits(r[g], limit))
  {
    FitRunInvariant(list, limit);
    var st := FitRun(list, limit);
    FlattenSnoc(st.groups, st.current);
    var r := st.groups + [st.current];
    assert forall g :: 0 <= g < |st.groups| ==> r[g] == st.groups[g];
  }

  // ---- Chinese numerals --------------------------------------------------------

  /** The replacements in the order applied: 十一 and 十二 first, 十 last. */
  const NumeralPairs: seq<(string, string)> := [
    ("十一", "11"), ("十二", "12"), ("一", "1"), ("二", "2"), ("三", "3"), ("四", "4"),
    ("五", "5"), ("六", "6"), ("七", "7"), ("八", "8"), ("九", "9"), ("零", "0"), ("十", "10")]

  /** Applies each replacement in turn to the whole text. */
  function ReplaceChain(s: string, pairs: seq<(string, string)>): string
    requires forall k :: 0 <= k < |pairs| ==> |pairs[k].0| > 0
  {
    if pairs == [] then s
    else
      var last := pairs[|pairs| - 1];
      ReplaceAll(ReplaceChain(s, pairs[..|pairs| - 1]), last.0, last.1)
  }

  function ConvChineseToArabicNumerals(value: string): string
  {
    ReplaceChain(value, NumeralPairs)
  }

  /** A character replaced on its own at some step, and produced by no step, is gone at the end. */
  lemma {:induction false} ChainRemoves(s: string, pairs: seq<(string, string)>, k: int, c: char)
    requires forall j :: 0 <= j < |pairs| ==> |pairs[j].0| > 0 && c !in pairs[j].1
    requires 0 <= k < |pairs| && pairs[k].0 == [c]
    ensures c !in ReplaceChain(s, pairs)
  {
    var init, last := pairs[..|pairs| - 1], pairs[|pairs| - 1];
    if k == |pairs| - 1 {
      ReplaceAllRemovesChar(ReplaceChain(s, init), c, last.1);
    } else {
      ChainRemoves(s, init, k, c);
      ReplaceAllKeepsAbsent(ReplaceChain(s, init), last.0, last.1, c);
    }
  }

  /** Every replacement removes a non-empty text and puts in only digits. */
  lemma NumeralPairsGiveDigits()
    ensures forall j :: 0 <= j < |NumeralPairs| ==>
      |NumeralPairs[j].0| > 0 && forall ch :: ch in NumeralPairs[j].1 ==> '0' <= ch <= '9'
  {
  }

  /** No Chinese numeral character is left. */
  lemma NoChineseNumeralsLeft(value: string)
    ensures forall c :: c in "一二三四五六七八九零十" ==> c !in ConvChineseToArabicNumerals(value)
  {
    NumeralPairsGiveDigits();
    forall c | c in "一二三四五六七八九零十"
      ensures c !in ConvChineseToArabicNumerals(value)
    {
      assert c > '9';
      var k := if c == '一' then 2 else if c == '二' then 3 else if c == '三' then 4
        else if c == '四' then 5 else if c == '五' then 6 else if c == '六' then 7
        else if c == '七' then 8 else if c == '八' then 9 else if c == '九' then 10
        else if c == '零' then 11 else 12;
      ChainRemoves(value, NumeralPairs, k, c);
    }
  }

  /** Character by character: 二十 becomes 210, not 20. */
  lemma TwentyBecomes210()
    ensures ConvChineseToArabicNumerals("二十") == "210"
  {
    var p := NumeralPairs;
    TwentyAfterTwo();
    TwentyAfterTen();
    ChainStep("二十", p, 12);
    assert ReplaceAll("2十", "十", "10") == "210" by {
      assert "2十"[..1] != "十" && "2十"[1..] == "十";
      assert "十"[..1] == "十" && "十"[1..] == "";
    }
    assert p[..13] == p;
  }

  /** 十一, 十二 and 一 leave 二十 alone; 二 then makes it 2十. */
  lemma TwentyAfterTwo()
    ensures ReplaceChain("二十", NumeralPairs[..4]) == "2十"
  {
    var p := NumeralPairs;
    TwentyHasNoTeen();
    ChainStep("二十", p, 0);
    ChainStep("二十", p, 1);
    ChainStep("二十", p, 2);
    ReplaceAbsent("二十", "一", "1");
    ChainStep("二十", p, 3);
    TwoReplacedInTwenty();
  }

  lemma TwentyHasNoTeen()
    ensures ReplaceAll("二十", "十一", "11") == "二十"
    ensures ReplaceAll("二十", "十二", "12") == "二十"
  {
    assert ReplaceAll("二十", "十一", "11") == "二十" by {
      assert "二十"[..2] != "十一" && "二十"[1..] == "十";
    }
    assert ReplaceAll("二十", "十二", "12") == "二十" by {
      assert "二十"[..2] != "十二" && "二十"[1..] == "十";
    }
  }

  lemma TwoReplacedInTwenty()
    ensures ReplaceAll("二十", "二", "2") == "2十"
  {
    assert ReplaceAll("十", "二", "2") == "十" by {
      assert "十"[..1] == "十" && "十"[1..] == "";
      assert ReplaceAll("", "二", "2") == "";
    }
    assert "二十"[..1] == "二" && "二十"[1..] == "十";
  }

  /** 三 to 零 do not occur in 2十. */
  lemma TwentyAfterTen()
    requires ReplaceChain("二十", NumeralPairs[..4]) == "2十"
    ensures ReplaceChain("二十", NumeralPairs[..12]) == "2十"
  {
    var k := 4;
    while k < 12
      invariant 4 <= k <= 12
      invariant ReplaceChain("二十", NumeralPairs[..k]) == "2十"
    {
      TwentyKept(k);
      k := k + 1;
    }
  }

  lemma TwentyKept(k: int)
    requires 4 <= k < 12 && ReplaceChain("二十", NumeralPairs[..k]) == "2十"
    ensures ReplaceChain("二十", NumeralPairs[..k + 1]) == "2十"
  {
    var p := NumeralPairs;
    ChainStep("二十", p, k);
    ReplaceAbsent("2十", p[k].0, p[k].1);
  }

  lemma ChainStep(s: string, pairs: seq<(string, string)>, k: int)
    requires forall j :: 0 <= j < |pairs| ==> |pairs[j].0| > 0
    requires 0 <= k < |pairs|
    ensures ReplaceChain(s, pairs[..k + 1]) == ReplaceAll(ReplaceChain(s, pairs[..k]), pairs[k].0, pairs[k].1)
  {
    assert pairs[..k + 1][..k] == pairs[..k];
  }

  /** Text without the pattern's first character is left alone. */
  lemma {:induction false} ReplaceAbsent(s: string, pat: string, rep: string)
    requires |pat| > 0 && pat[0] !in s
    ensures ReplaceAll(s, pat, rep) == s
  {
    if |s| >= |pat| {
      assert s[..|pat|][0] == s[0];
      ReplaceAbsent(s[1..], pat, rep);
    }
  }

  // ---- Text areas --------------------------------------------------------------

  /** The length of the longest string of the list, 0 for none. */
  function MaxLength(xs: seq<string>): (m: nat)
    ensures forall i :: 0 <= i < |xs| ==> |xs[i]| <= m
    ensures xs != [] ==> exists i :: 0 <= i < |xs| && |xs[i]| == m
    ensures xs == [] ==> m == 0
  {
    if xs == [] then 0
    else
      var rest := MaxLength(xs[..|xs| - 1]);
      if rest > |xs[|xs| - 1]| then rest else |xs[|xs| - 1]|
  }

  datatype Size = Size(width: int, height: int)

  /**
   * The area a text needs: one character cell per column of its longest
   * line and per line, spacing between neighbouring cells, a cell of
   * padding on every side, each dimension capped at its maximum.
   */
  method MeasureTextAreas(text: string, pointSize: int, wordSpacing: int, lineSpacing: int,
                          maxWidth: int, maxHeight: int) returns (areas: Size)
    ensures var lines := SplitAll(text, '\n');
      var cols, rows := MaxLength(lines), |lines|;
      areas == Size(Min(pointSize * cols + wordSpacing * (cols - 1) + 2 * pointSize, maxWidth),
                    Min(pointSize * rows + lineSpacing * (rows - 1) + 2 * pointSize, maxHeight))
  {
    var row, col := CountRowsAndColumns(text);
    var ps := pointSize;
    var width := ps * col + wordSpacing * (col - 1) + ps + ps;
    var height := ps * row + lineSpacing * (row - 1) + ps + ps;
    if width > maxWidth {
      width := maxWidth;
    }
    if height > maxHeight {
      height := maxHeight;
    }
    areas := Size(width, height);
  }

  /** The scan of the text for its number of lines and the length of its longest line. */
  method CountRowsAndColumns(text: string) returns (row: int, col: int)
    ensures var lines := SplitAll(text, '\n'); row == |lines| && col == MaxLength(lines)
  {
    row, col := 1, 0;
    var numChar := 0;
    for i := 0 to |text|
      invariant LineScan(text[..i], row, col, numChar)
    {
      var c := text[i];
      assert text[..i + 1] == text[..i] + [c];
      if c == '\n' {
        NewlineScanned(text[..i], row, col, numChar);
        row := row + 1;
        if numChar > col {
          col := numChar;
        }
        numChar := 0;
      } else {
        CharScanned(text[..i], c, row, col, numChar);
        numChar := numChar + 1;
      }
    }
    assert text[..|text|] == text;
    if col == 0 || col < numChar {
      col := numChar;
    }
  }

  /** After scanning s: row lines so far, numChar characters on the open one, col the longest closed one. */
  ghost predicate LineScan(s: string, row: int, col: int, numChar: int)
  {
    var lines := SplitAll(s, '\n');
    row == |lines| && numChar == |lines[|lines| - 1]| && col == MaxLength(lines[..|lines| - 1])
  }

  lemma NewlineScanned(s: string, row: int, col: int, numChar: int)
    requires LineScan(s, row, col, numChar)
    ensures LineScan(s + ['\n'], row + 1, if numChar > col then numChar else col, 0)
  {
    var lines := SplitAll(s, '\n');
    SplitAllSnocSeparator(s, '\n');
    assert (lines + [""])[..|lines|] == lines;
  }

  lemma CharScanned(s: string, c: char, row: int, col: int, numChar: int)
    requires c != '\n' && LineScan(s, row, col, numChar)
    ensures LineScan(s + [c], row, col, numChar + 1)
  {
    var lines := SplitAll(s, '\n');
    SplitAllSnocOther(s, '\n', c);
    assert (lines[..|lines| - 1] + [lines[|lines| - 1] + [c]])[..|lines| - 1] == lines[..|lines| - 1];
  }

  /** The text has one line more than it has newlines. */
  lemma RowsCountNewlines(text: string)
    ensures |SplitAll(text, '\n')| == multiset(text)['\n'] + 1
  {
    SplitAllJoin(text, '\n');
    SplitAllFree(text, '\n');
    JoinSeparatorCount(SplitAll(text, '\n'), '\n');
  }

  // ---- Markdown text -----------------------------------------------------------

  /** A heading, bullet or numbered-list marker at the start of a line. */
  predicate HasMarker(content: string)
  {
    StartsWith(content, "#") || StartsWith(content, "*") || StartsWith(content, "-") || StartsWithNumberSign(content)
  }

  /** The text of one Markdown line: trimmed, and past the first space when it starts with a marker. */
  function MarkdownLine(line: string): string
  {
    MarkerBody(Trim(line))
  }

  /** What follows a leading marker and the first space, or the whole content. */
  function MarkerBody(content: string): string
  {
    var index := if HasMarker(content) then IndexOf(content, ' ') + 1 else 0;
    if index > 0 then content[index..] else content
  }

  /**
   * The line's text is a suffix of the trimmed line; without a marker, or
   * without a space to end one, it is the whole trimmed line.
   */
  lemma MarkdownLineIsSuffix(line: string)
    ensures var content, r := Trim(line), MarkdownLine(line);
      |r| <= |content| && r == content[|content| - |r|..] &&
      (!HasMarker(content) || ' ' !in content ==> r == content)
  {
    MarkerBodyIsSuffix(Trim(line));
  }

  lemma MarkerBodyIsSuffix(content: string)
    ensures var r := MarkerBody(content);
      |r| <= |content| && r == content[|content| - |r|..] &&
      (!HasMarker(content) || ' ' !in content ==> r == content)
  {
    IndexOfMeaning(content, ' ');
  }

  /** The marker and the space after it are dropped and the rest kept. */
  lemma MarkerStripped(line: string, marker: string, body: string)
    requires Trim(line) == marker + " " + body
    requires ' ' !in marker && HasMarker(marker + " " + body)
    ensures MarkdownLine(line) == body
  {
    IndexOfAfter(marker, ' ', body);
    assert marker + " " + body == marker + [' '] + body;
    assert (marker + [' '] + body)[|marker| + 1..] == body;
  }

  /** The text of each line, in order. */
  function MarkdownLines(lines: seq<string>): (r: seq<string>)
    ensures |r| == |lines| && forall i :: 0 <= i < |lines| ==> r[i] == MarkdownLine(lines[i])
  {
    if lines == [] then [] else MarkdownLines(lines[..|lines| - 1]) + [MarkdownLine(lines[|lines| - 1])]
  }

  method ExtractMarkdownTextAsList(markdown: string) returns (result: seq<string>)
    ensures result == MarkdownLines(JavaSplit(markdown, '\n'))
  {
    var list := JavaSplit(markdown, '\n');
    result := [];
    for i := 0 to |list|
      invariant result == MarkdownLines(list[..i])
    {
      var content := StripMarker(list[i]);
      MarkdownLinesSnoc(list, i);
      result := result + [content];
    }
    assert list[..|list|] == list;
  }

  lemma MarkdownLinesSnoc(list: seq<string>, i: int)
    requires 0 <= i < |list|
    ensures MarkdownLines(list[..i + 1]) == MarkdownLines(list[..i]) + [MarkdownLine(list[i])]
  {
    assert list[..i + 1][..i] == list[..i];
  }

  /** The body of the line loop. */
  method StripMarker(text: string) returns (content: string)
    ensures content == MarkdownLine(text)
  {
    content := Trim(text);
    var index := MarkerEnd(content);
    if index > 0 {
      content := content[index..];
    }
  }

  /** Where the text starts after a marker and its space, or 0 without a marker. */
  method MarkerEnd(content: string) returns (index: int)
    ensures index == if HasMarker(content) then IndexOf(content, ' ') + 1 else 0
  {
    index := 0;
    if StartsWith(content, "#") || StartsWith(content, "*") || StartsWith(content, "-") {
      index := IndexOf(content, ' ') + 1;
    } else if StartsWithNumberSign(content) {
      index := IndexOf(content, ' ') + 1;
    }
  }

  // ---- Locations -----------------------------------------------------------------

  /** Where the word scan stops: at a 第 that another word follows, or at a word mentioning 最近. */
  function LocationStop(sentences: seq<string>, i: nat): (k: nat)
    requires i <= |sentences|
    ensures i <= k <= |sentences|
    ensures k < |sentences| ==> (sentences[k] == "第" && k + 1 < |sentences|) ||
                                (sentences[k] != "第" && Contains(sentences[k], "最近"))
    decreases |sentences| - i
  {
    if i == |sentences| then i
    else if sentences[i] == "第" && i + 1 < |sentences| then i
    else if sentences[i] != "第" && Contains(sentences[i], "最近") then i
    else LocationStop(sentences, i + 1)
  }

  function ConvAll(xs: seq<string>): (r: seq<string>)
    ensures |r| == |xs| && forall i :: 0 <= i < |xs| ==> r[i] == ConvChineseToArabicNumerals(xs[i])
  {
    if xs == [] then [] else ConvAll(xs[..|xs| - 1]) + [ConvChineseToArabicNumerals(xs[|xs| - 1])]
  }

  lemma ConvAllSnoc(xs: seq<string>, i: int)
    requires 0 <= i < |xs|
    ensures ConvAll(xs[..i + 1]) == ConvAll(xs[..i]) + [ConvChineseToArabicNumerals(xs[i])]
  {
    assert xs[..i + 1][..i] == xs[..i];
  }

  /** The digits after the first 第 of the first text that has some there. */
  function OrdinalDigits(texts: seq<string>): (d: string)
    ensures forall i :: 0 <= i < |d| ==> IsDigit(d[i])
  {
    if texts == [] then ""
    else
      var index := IndexOf(texts[0], '第');
      var d := if index >= 0 then Digits(texts[0][index + 1..]) else "";
      if d != [] then d else OrdinalDigits(texts[1..])
  }

  /**
   * The report position a segmented query names: 1 for a word mentioning
   * 最近; the word after 第; failing that (or when that word is "0"), the
   * digits after 第 in the earlier words with Chinese numerals converted;
   * 0 when nothing parses.
   */
  function LocationOf(sentences: seq<string>): int
  {
    var k := LocationStop(sentences, 0);
    if k < |sentences| && sentences[k] != "第" then 1
    else
      var num := if k < |sentences| then sentences[k + 1] else "0";
      var digits := if num == "0" then OrdinalDigits(ConvAll(sentences[..k])) else num;
      match ParseInt(digits)
      case Some(v) => v
      case None => 0
  }

  method ExtractLocation(sentences: seq<string>) returns (location: int)
    ensures location == LocationOf(sentences)
  {
    var num := "0";
    var tmp: seq<string> := [];
    var i := 0;
    while i < |sentences|
      invariant 0 <= i <= |sentences|
      invariant LocationStop(sentences, 0) == LocationStop(sentences, i)
      invariant tmp == ConvAll(sentences[..i])
    {
      var sentence := sentences[i];
      if sentence == "第" {
        if i + 1 < |sentences| {
          num := sentences[i + 1];
          break;
        }
      } else if Contains(sentence, "最近") {
        return 1;
      }
      ConvAllSnoc(sentences, i);
      tmp := tmp + [ConvChineseToArabicNumerals(sentence)];
      i := i + 1;
    }
    assert i == LocationStop(sentences, 0);
    assert num == if i < |sentences| then sentences[i + 1] else "0";
    if num == "0" {
      num := FirstOrdinalDigits(tmp);
    }
    var parsed := ParseInt(num);
    location := if parsed.Some? then parsed.value else 0;
  }

  /** The second scan: over each text, the digits after its first 第, until some are found. */
  method FirstOrdinalDigits(tmp: seq<string>) returns (buf: string)
    ensures buf == OrdinalDigits(tmp)
  {
    buf := "";
    var j := 0;
    while j < |tmp|
      invariant 0 <= j <= |tmp|
      invariant OrdinalDigits(tmp) == OrdinalDigits(tmp[j..])
      invariant buf == ""
    {
      var text := tmp[j];
      var index := IndexOf(text, '第');
      if index >= 0 {
        buf := DigitsFrom(text, index + 1);
      }
      assert tmp[j..][0] == text && tmp[j..][1..] == tmp[j + 1..];
      if |buf| > 0 {
        return;
      }
      j := j + 1;
    }
  }

  /** The inner scan: the digits of text from position from on. */
  method DigitsFrom(text: string, from: nat) returns (buf: string)
    requires from <= |text|
    ensures buf == Digits(text[from..])
  {
    buf := "";
    for m := from to |text|
      invariant buf == Digits(text[from..m])
    {
      assert text[from..m + 1] == text[from..m] + [text[m]];
      DigitsAppend(text[from..m], [text[m]]);
      if IsDigit(text[m]) {
        buf := buf + [text[m]];
      }
    }
    assert text[from..|text|] == text[from..];
  }

  /** The value of a number's decimal digits is the number. */
  lemma {:induction false} ValueOfNatToString(n: nat)
    ensures Value(NatToString(n)) == n
    decreases n
  {
    var d := ['0', '1', '2', '3', '4', '5', '6', '7', '8', '9'][n % 10];
    assert DigitValue(d) == n % 10;
    if n < 10 {
      assert [d][..0] == [];
    } else {
      ValueOfNatToString(n / 10);
      var s := NatToString(n / 10) + [d];
      assert s[..|s| - 1] == NatToString(n / 10);
    }
  }

  /** A query segmented as 第 and a number names that position. */
  lemma OrdinalWordNamesPosition(n: nat, rest: seq<string>)
    requires n <= IntMax
    ensures LocationOf(["第", NatToString(n)] + rest) == n
  {
    var s := ["第", NatToString(n)] + rest;
    assert s[0] == "第" && s[1] == NatToString(n);
    assert LocationStop(s, 0) == 0;
    ValueOfNatToString(n);
    var t := NatToString(n);
    assert t[0] != '-' && t[0] != '+';
    if t == "0" {
      assert s[..0] == [];
    }
  }

  /** A minus sign in the word after 第 goes through: the position is negative. */
  lemma NegativeOrdinalWord()
    ensures LocationOf(["第", "-2"]) == -2
  {
    var s := ["第", "-2"];
    assert LocationStop(s, 0) == 0;
    assert "-2"[1..] == "2" && "2"[..0] == "";
  }
}
