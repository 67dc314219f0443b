/**
 * String and sequence helpers shared by the models: ASCII case folding,
 * substring search and replacement, splitting and joining, digit tests and
 * duplicate-free lists. Case folding covers ASCII letters only.
 */
module Strings {

  function LowerChar(c: char): (r: char)
    ensures 'A' <= c <= 'Z' ==> r as int == c as int + 32
    ensures !('A' <= c <= 'Z') ==> r == c
  {
    if 'A' <= c <= 'Z' then (c as int + 32) as char else c
  }

  function Lower(s: string): (r: string)
    ensures |r| == |s|
    ensures forall i :: 0 <= i < |s| ==> r[i] == LowerChar(s[i])
  {
    if s == [] then [] else [LowerChar(s[0])] + Lower(s[1..])
  }

  function UpperChar(c: char): (r: char)
    ensures 'a' <= c <= 'z' ==> r as int == c as int - 32
    ensures !('a' <= c <= 'z') ==> r == c
  {
    if 'a' <= c <= 'z' then (c as int - 32) as char else c
  }

  function Upper(s: string): (r: string)
    ensures |r| == |s|
    ensures forall i :: 0 <= i < |s| ==> r[i] == UpperChar(s[i])
  {
    if s == [] then [] else [UpperChar(s[0])] + Upper(s[1..])
  }

  /** Equality ignoring the case of ASCII letters. */
  predicate EqualsIgnoreCase(a: string, b: string)
  {
    |a| == |b| && forall i :: 0 <= i < |a| ==> LowerChar(a[i]) == LowerChar(b[i])
  }

  predicate IsDigit(c: char)
  {
    '0' <= c <= '9'
  }

  predicate IsAsciiLetter(c: char)
  {
    ('a' <= c <= 'z') || ('A' <= c <= 'Z')
  }

  /** Whether pat occurs in s at position i. */
  predicate OccursAt(s: string, pat: string, i: int)
  {
    0 <= i && i + |pat| <= |s| && s[i..i + |pat|] == pat
  }

  predicate Contains(s: string, pat: string)
  {
    exists i :: 0 <= i <= |s| && OccursAt(s, pat, i)
  }

  predicate StartsWith(s: string, pat: string)
  {
    |pat| <= |s| && s[..|pat|] == pat
  }

  /** Replaces every occurrence of a non-empty pattern, scanning left to right. */
  function ReplaceAll(s: string, pat: string, rep: string): (r: string)
    requires |pat| > 0
    decreases |s|
  {
    if |s| < |pat| then s
    else if s[..|pat|] == pat then rep + ReplaceAll(s[|pat|..], pat, rep)
    else [s[0]] + ReplaceAll(s[1..], pat, rep)
  }

  /** Replacing a one-character pattern by text free of c leaves no c. */
  lemma {:induction false} ReplaceAllRemovesChar(s: string, c: char, rep: string)
    requires c !in rep
    ensures c !in ReplaceAll(s, [c], rep)
  {
    if |s| >= 1 {
      ReplaceAllRemovesChar(s[1..], c, rep);
      if s[..1] == [c] {
        assert s[1..] == s[|[c]|..];
      } else {
        assert s[0] != c;
      }
    }
  }

  /** No element occurs twice. */
  predicate Distinct<T(==)>(s: seq<T>)
  {
    forall i, j :: 0 <= i < j < |s| ==> s[i] != s[j]
  }

  /** The first index of c in s, or -1. */
  function IndexOf(s: string, c: char): (r: int)
    ensures -1 <= r < |s|
  {
    if s == [] then -1
    else if s[0] == c then 0
    else var k := IndexOf(s[1..], c); if k == -1 then -1 else k + 1
  }

  /** IndexOf finds the first occurrence of c, and -1 exactly when there is none. */
  lemma {:induction false} IndexOfMeaning(s: string, c: char)
    ensures var r := IndexOf(s, c); (r == -1 <==> c !in s) && (r >= 0 ==> s[r] == c && c !in s[..r])
  {
    if s != [] && s[0] != c {
      IndexOfMeaning(s[1..], c);
      assert s == [s[0]] + s[1..];
      var k := IndexOf(s[1..], c);
      if k >= 0 {
        assert s[..k + 1] == [s[0]] + s[1..][..k];
      }
    }
  }

  /** The sum of the lengths of a list of strings. */
  function TotalLength(xs: seq<string>): nat
  {
    if xs == [] then 0 else TotalLength(xs[..|xs| - 1]) + |xs[|xs| - 1]|
  }

  /** Concatenation of a list of lists. */
  function Flatten<T>(xss: seq<seq<T>>): seq<T>
  {
    if xss == [] then [] else Flatten(xss[..|xss| - 1]) + xss[|xss| - 1]
  }

  lemma FlattenSnoc<T>(xss: seq<seq<T>>, xs: seq<T>)
    ensures Flatten(xss + [xs]) == Flatten(xss) + xs
  {
    assert (xss + [xs])[..|xss|] == xss;
  }

  /** Joins a list of strings with a separator. */
  function Join(xs: seq<string>, sep: string): string
  {
    if xs == [] then ""
    else if |xs| == 1 then xs[0]
    else Join(xs[..|xs| - 1], sep) + sep + xs[|xs| - 1]
  }

  lemma JoinSnoc(xs: seq<string>, x: string, sep: string)
    requires xs != []
    ensures Join(xs + [x], sep) == Join(xs, sep) + sep + x
  {
    assert (xs + [x])[..|xs|] == xs;
  }

  /**
   * Joining n pieces free of c with the one-character separator c yields
   * exactly n - 1 occurrences of c: splitting at c gives the pieces back.
   */
  lemma {:induction false} JoinSeparatorCount(xs: seq<string>, c: char)
    requires xs != []
    requires forall i :: 0 <= i < |xs| ==> c !in xs[i]
    ensures multiset(Join(xs, [c]))[c] == |xs| - 1
  {
    if |xs| == 1 {
      assert c !in xs[0];
    } else {
      var init := xs[..|xs| - 1];
      JoinSeparatorCount(init, c);
      assert c !in xs[|xs| - 1];
      assert Join(xs, [c]) == Join(init, [c]) + [c] + xs[|xs| - 1];
    }
  }

  /** The decimal digits of a natural number. */
  function NatToString(n: nat): (r: string)
    ensures |r| > 0
    ensures forall i :: 0 <= i < |r| ==> IsDigit(r[i])
    decreases n
  {
    var d := ['0', '1', '2', '3', '4', '5', '6', '7', '8', '9'][n % 10];
    if n < 10 then [d] else NatToString(n / 10) + [d]
  }

  /** Joining one more piece at the front. */
  lemma {:induction false} JoinCons(x: string, xs: seq<string>, sep: string)
    requires xs != []
    ensures Join([x] + xs, sep) == x + sep + Join(xs, sep)
    decreases |xs|
  {
    if |xs| > 1 {
      var init := xs[..|xs| - 1];
      assert ([x] + xs)[..|xs|] == [x] + init;
      JoinCons(x, init, sep);
    }
  }

  /** Every piece between occurrences of c, including empty ones at either end. */
  function SplitAll(s: string, c: char): (r: seq<string>)
    ensures r != []
    decreases |s|
  {
    var k := IndexOf(s, c);
    if k == -1 then [s] else [s[..k]] + SplitAll(s[k + 1..], c)
  }

  /** No piece holds the separator. */
  lemma {:induction false} SplitAllFree(s: string, c: char)
    ensures forall i :: 0 <= i < |SplitAll(s, c)| ==> c !in SplitAll(s, c)[i]
    decreases |s|
  {
    IndexOfMeaning(s, c);
    var k := IndexOf(s, c);
    if k != -1 {
      SplitAllFree(s[k + 1..], c);
    }
  }

  /** Joining the pieces with c gives the string back. */
  lemma {:induction false} SplitAllJoin(s: string, c: char)
    ensures Join(SplitAll(s, c), [c]) == s
    decreases |s|
  {
    IndexOfMeaning(s, c);
    var k := IndexOf(s, c);
    if k != -1 {
      SplitAllJoin(s[k + 1..], c);
      JoinCons(s[..k], SplitAll(s[k + 1..], c), [c]);
      AroundIndex(s, k);
    }
  }

  /** Appending a separator opens a new empty piece. */
  lemma {:induction false} SplitAllSnocSeparator(s: string, c: char)
    ensures SplitAll(s + [c], c) == SplitAll(s, c) + [""]
    decreases |s|
  {
    IndexOfMeaning(s, c);
    var k := IndexOf(s, c);
    if k == -1 {
      SplitAllSnocLastPiece(s, c, c);
    } else {
      SplitAllSnocStep(s, c, c, k);
      SplitAllSnocSeparator(s[k + 1..], c);
      ConcatAssoc([s[..k]], SplitAll(s[k + 1..], c), [""]);
    }
  }

  /** Appending any other character extends the last piece. */
  lemma {:induction false} SplitAllSnocOther(s: string, c: char, x: char)
    requires x != c
    ensures var r := SplitAll(s, c); SplitAll(s + [x], c) == r[..|r| - 1] + [r[|r| - 1] + [x]]
    decreases |s|
  {
    IndexOfMeaning(s, c);
    var k := IndexOf(s, c);
    if k == -1 {
      SplitAllSnocLastPiece(s, c, x);
    } else {
      SplitAllSnocOther(s[k + 1..], c, x);
      SplitAllSnocOtherStep(s, c, x, k);
    }
  }

  lemma SplitAllSnocOtherStep(s: string, c: char, x: char, k: nat)
    requires x != c && k == IndexOf(s, c)
    requires var rest := SplitAll(s[k + 1..], c);
      SplitAll(s[k + 1..] + [x], c) == rest[..|rest| - 1] + [rest[|rest| - 1] + [x]]
    ensures var r := SplitAll(s, c); SplitAll(s + [x], c) == r[..|r| - 1] + [r[|r| - 1] + [x]]
  {
    SplitAllSnocStep(s, c, x, k);
    SplitAllAt(s, c, k);
    var rest := SplitAll(s[k + 1..], c);
    var r := [s[..k]] + rest;
    assert SplitAll(s, c) == r;
    InitOfCons(s[..k], rest);
    assert r[|r| - 1] == rest[|rest| - 1];
    ConcatAssoc([s[..k]], rest[..|rest| - 1], [rest[|rest| - 1] + [x]]);
  }

  /** When s has a separator, appending x only changes what follows the first one. */
  lemma SplitAllSnocStep(s: string, c: char, x: char, k: int)
    requires 0 <= k && k == IndexOf(s, c)
    ensures SplitAll(s + [x], c) == [s[..k]] + SplitAll(s[k + 1..] + [x], c)
  {
    var t := s + [x];
    IndexOfMeaning(s, c);
    SnocSlices(s, x, k);
    IndexOfAt(t, c, k);
    SplitAllAt(t, c, k);
  }

  /** SplitAll unfolded once at a known first separator. */
  lemma SplitAllAt(t: string, c: char, k: int)
    requires 0 <= k && k == IndexOf(t, c)
    ensures SplitAll(t, c) == [t[..k]] + SplitAll(t[k + 1..], c)
  {
  }

  /** The first index of c is k when c sits at k and not before. */
  lemma {:induction false} IndexOfAt(t: string, c: char, k: int)
    requires 0 <= k < |t| && t[k] == c && c !in t[..k]
    ensures IndexOf(t, c) == k
  {
    if k > 0 {
      assert t[0] == t[..k][0];
      assert t[1..][..k - 1] == t[..k][1..];
      IndexOfAt(t[1..], c, k - 1);
    }
  }

  lemma SnocSlices<T>(s: seq<T>, x: T, k: int)
    requires 0 <= k < |s|
    ensures (s + [x])[k] == s[k] && (s + [x])[..k] == s[..k] && (s + [x])[k + 1..] == s[k + 1..] + [x]
  {
  }

  lemma AroundIndex<T>(s: seq<T>, k: int)
    requires 0 <= k < |s|
    ensures s[..k] + [s[k]] + s[k + 1..] == s
  {
  }

  /** Concatenation is associative; stated on any element type so that no element is compared. */
  lemma ConcatAssoc<T>(a: seq<T>, b: seq<T>, c: seq<T>)
    ensures a + (b + c) == (a + b) + c
  {
  }

  lemma InitOfCons<T>(h: T, xs: seq<T>)
    requires xs != []
    ensures ([h] + xs)[..|xs|] == [h] + xs[..|xs| - 1]
    ensures ([h] + xs)[|xs|] == xs[|xs| - 1]
  {
  }

  lemma SplitAllSnocLastPiece(s: string, c: char, x: char)
    requires c !in s
    ensures SplitAll(s + [x], c) == if x == c then [s, ""] else [s + [x]]
  {
    var t := s + [x];
    if x == c {
      assert t[|s|] == c && t[..|s|] == s;
      IndexOfAt(t, c, |s|);
      assert t[..|s|] == s && t[|s| + 1..] == "";
      IndexOfMeaning("", c);
      assert SplitAll("", c) == [""];
    } else {
      assert c !in t;
      IndexOfMeaning(t, c);
    }
  }

  /** The list without its trailing empty strings. */
  function DropTrailingEmpty(xs: seq<string>): (r: seq<string>)
    ensures |r| <= |xs| && r == xs[..|r|]
    ensures r == [] || r[|r| - 1] != ""
    ensures forall i :: |r| <= i < |xs| ==> xs[i] == ""
  {
    if xs != [] && xs[|xs| - 1] == "" then DropTrailingEmpty(xs[..|xs| - 1]) else xs
  }

  /** n copies of c. */
  function Repeat(c: char, n: nat): (r: string)
    ensures |r| == n && forall i :: 0 <= i < n ==> r[i] == c
  {
    if n == 0 then [] else Repeat(c, n - 1) + [c]
  }

  /**
   * Java's split on a one-character pattern: the string itself when c does
   * not occur, otherwise every piece with the trailing empty ones removed.
   */
  function JavaSplit(s: string, c: char): (r: seq<string>)
    ensures forall i :: 0 <= i < |r| ==> c !in r[i]
    ensures c !in s ==> r == [s]
  {
    if c !in s then [s] else SplitAllFree(s, c); DropTrailingEmpty(SplitAll(s, c))
  }

  /** Dropping trailing empty pieces drops only separators from the joined string. */
  lemma {:induction false} DropTrailingJoin(xs: seq<string>, c: char)
    requires xs != []
    ensures DropTrailingEmpty(xs) != [] ==>
      Join(xs, [c]) == Join(DropTrailingEmpty(xs), [c]) + Repeat(c, |xs| - |DropTrailingEmpty(xs)|)
    ensures DropTrailingEmpty(xs) == [] ==> Join(xs, [c]) == Repeat(c, |xs| - 1)
  {
    if xs[|xs| - 1] == "" {
      var init := xs[..|xs| - 1];
      if init == [] {
        assert xs == [""];
      } else {
        DropTrailingJoin(init, c);
        assert xs == init + [""];
        JoinSnoc(init, "", [c]);
        assert DropTrailingEmpty(xs) == DropTrailingEmpty(init);
      }
    }
  }

  /**
   * Splitting loses only trailing separators: the joined pieces are a
   * prefix of the string and the rest consists of c alone.
   */
  lemma SplitLosesOnlyTrailingSeparators(s: string, c: char)
    ensures var r := JavaSplit(s, c);
      |Join(r, [c])| <= |s| && Join(r, [c]) == s[..|Join(r, [c])|] && forall i :: |Join(r, [c])| <= i < |s| ==> s[i] == c
  {
    if c in s {
      SplitAllJoin(s, c);
      DropTrailingJoin(SplitAll(s, c), c);
    }
  }

  /** Characters absent from both the text and the replacement stay absent. */
  lemma {:induction false} ReplaceAllKeepsAbsent(s: string, pat: string, rep: string, c: char)
    requires |pat| > 0 && c !in s && c !in rep
    ensures c !in ReplaceAll(s, pat, rep)
    decreases |s|
  {
    if |s| >= |pat| {
      if s[..|pat|] == pat {
        ReplaceAllKeepsAbsent(s[|pat|..], pat, rep, c);
      } else {
        ReplaceAllKeepsAbsent(s[1..], pat, rep, c);
      }
    }
  }

  /**
   * A replaced text can only start with a word free of the replacement's
   * first character if the original started with it.
   */
  lemma {:induction false} ReplacedPrefix(t: string, pat: string, rep: string, w: string)
    requires |pat| > 0 && |rep| > 0 && rep[0] !in w
    ensures StartsWith(ReplaceAll(t, pat, rep), w) ==> StartsWith(t, w)
    decreases |t|
  {
    if w != [] && |t| >= |pat| {
      var out := ReplaceAll(t, pat, rep);
      if t[..|pat|] == pat {
        assert out[0] == rep[0];
      } else {
        ReplacedPrefix(t[1..], pat, rep, w[1..]);
        assert out == [t[0]] + ReplaceAll(t[1..], pat, rep);
        if StartsWith(out, w) {
          assert ReplaceAll(t[1..], pat, rep)[..|w| - 1] == out[1..|w|] == w[1..];
          assert t[..|w|] == [t[0]] + t[1..][..|w| - 1];
        }
      }
    }
  }

  /**
   * Replacing every occurrence leaves none behind, provided the pattern's
   * first character is not in the replacement and the replacement's first
   * character is not in the rest of the pattern.
   */
  lemma {:induction false} ReplaceAllLeavesNone(s: string, pat: string, rep: string, i: int)
    requires |pat| > 0 && |rep| > 0 && pat[0] !in rep && rep[0] !in pat[1..]
    ensures !OccursAt(ReplaceAll(s, pat, rep), pat, i)
    decreases |s|
  {
    if |s| >= |pat| {
      if s[..|pat|] == pat {
        var rest := ReplaceAll(s[|pat|..], pat, rep);
        if i >= |rep| {
          ReplaceAllLeavesNone(s[|pat|..], pat, rep, i - |rep|);
          OccursInSuffix(rep, rest, pat, i);
        } else if 0 <= i {
          OccursAtMismatch(rep, rest, pat, i);
        }
      } else {
        var rest := ReplaceAll(s[1..], pat, rep);
        if i >= 1 {
          ReplaceAllLeavesNone(s[1..], pat, rep, i - 1);
          OccursInSuffix([s[0]], rest, pat, i);
        } else if i == 0 {
          ReplacedPrefix(s[1..], pat, rep, pat[1..]);
          OccursAtCons(s[0], rest, pat);
          OccursAtCons(s[0], s[1..], pat);
          AroundIndex(s, 0);
          StartsWithOfPrefix(s, pat);
        }
      }
    }
  }

  /** Past a prefix a, an occurrence in a + b is one in b. */
  lemma OccursInSuffix(a: string, b: string, q: string, i: int)
    requires i >= |a|
    ensures OccursAt(a + b, q, i) <==> OccursAt(b, q, i - |a|)
  {
    if i + |q| <= |a + b| {
      assert (a + b)[i..i + |q|] == b[i - |a|..i - |a| + |q|];
    }
  }

  /** Nothing starting with q occurs at an index of a that holds another character. */
  lemma OccursAtMismatch(a: string, b: string, q: string, i: int)
    requires 0 <= i < |a| && |q| > 0 && q[0] != a[i]
    ensures !OccursAt(a + b, q, i)
  {
    if i + |q| <= |a + b| {
      assert (a + b)[i..i + |q|][0] == a[i];
    }
  }

  /** q occurs at the head of [x] + r exactly when x is its first character and r starts with the rest. */
  lemma OccursAtCons(x: char, r: string, q: string)
    requires |q| > 0
    ensures OccursAt([x] + r, q, 0) <==> x == q[0] && StartsWith(r, q[1..])
  {
    if |q| <= |[x] + r| {
      assert ([x] + r)[..|q|] == [x] + r[..|q| - 1];
      assert q == [q[0]] + q[1..];
    }
  }

  lemma StartsWithOfPrefix(s: string, q: string)
    ensures OccursAt(s, q, 0) <==> StartsWith(s, q)
  {
  }

  /** The pattern does not occur anywhere in the replaced text. */
  lemma ReplaceAllRemovesPattern(s: string, pat: string, rep: string)
    requires |pat| > 0 && |rep| > 0 && pat[0] !in rep && rep[0] !in pat[1..]
    ensures !Contains(ReplaceAll(s, pat, rep), pat)
  {
    forall i | 0 <= i <= |ReplaceAll(s, pat, rep)|
      ensures !OccursAt(ReplaceAll(s, pat, rep), pat, i)
    {
      ReplaceAllLeavesNone(s, pat, rep, i);
    }
  }

  /** A word absent from a string is absent from its suffixes. */
  lemma AbsentFromSuffix(s: string, q: string, n: nat)
    requires n <= |s| && !Contains(s, q)
    ensures !Contains(s[n..], q)
  {
    forall k | 0 <= k <= |s[n..]| && OccursAt(s[n..], q, k)
      ensures OccursAt(s, q, k + n)
    {
      assert s[n..][k..k + |q|] == s[k + n..k + n + |q|];
    }
  }

  /**
   * A second replacement keeps a word q absent when q's first character is
   * not in the replacement and the replacement's first character is not in
   * the rest of q.
   */
  lemma {:induction false} ReplaceAllKeepsWordAbsent(s: string, pat: string, rep: string, q: string, i: int)
    requires |pat| > 0 && |rep| > 0 && |q| > 0 && q[0] !in rep && rep[0] !in q[1..]
    requires !Contains(s, q)
    ensures !OccursAt(ReplaceAll(s, pat, rep), q, i)
    decreases |s|
  {
    if |s| < |pat| {
      assert !OccursAt(s, q, i);
    } else if s[..|pat|] == pat {
      var rest := ReplaceAll(s[|pat|..], pat, rep);
      if i >= |rep| {
        AbsentFromSuffix(s, q, |pat|);
        ReplaceAllKeepsWordAbsent(s[|pat|..], pat, rep, q, i - |rep|);
        OccursInSuffix(rep, rest, q, i);
      } else if 0 <= i {
        OccursAtMismatch(rep, rest, q, i);
      }
    } else {
      var rest := ReplaceAll(s[1..], pat, rep);
      if i >= 1 {
        AbsentFromSuffix(s, q, 1);
        ReplaceAllKeepsWordAbsent(s[1..], pat, rep, q, i - 1);
        OccursInSuffix([s[0]], rest, q, i);
      } else if i == 0 {
        ReplacedPrefix(s[1..], pat, rep, q[1..]);
        OccursAtCons(s[0], rest, q);
        OccursAtCons(s[0], s[1..], q);
        AroundIndex(s, 0);
        assert !OccursAt(s, q, 0);
      }
    }
  }

  /** Java's trim: drops leading and trailing characters up to U+0020. */
  function TrimStart(s: string): string
  {
    if s != [] && s[0] <= ' ' then TrimStart(s[1..]) else s
  }

  /** TrimStart keeps a suffix that starts above U+0020, and drops only characters up to it. */
  lemma {:induction false} TrimStartMeaning(s: string)
    ensures var r := TrimStart(s);
      && |r| <= |s| && r == s[|s| - |r|..]
      && (r == [] || r[0] > ' ')
      && forall i :: 0 <= i < |s| - |r| ==> s[i] <= ' '
  {
    if s != [] && s[0] <= ' ' {
      TrimStartMeaning(s[1..]);
    }
  }

  function TrimEnd(s: string): string
  {
    if s != [] && s[|s| - 1] <= ' ' then TrimEnd(s[..|s| - 1]) else s
  }

  /** TrimEnd keeps a prefix that ends above U+0020, and drops only characters up to it. */
  lemma {:induction false} TrimEndMeaning(s: string)
    ensures var r := TrimEnd(s);
      && |r| <= |s| && r == s[..|r|]
      && (r == [] || r[|r| - 1] > ' ')
      && forall i :: |r| <= i < |s| ==> s[i] <= ' '
  {
    if s != [] && s[|s| - 1] <= ' ' {
      TrimEndMeaning(s[..|s| - 1]);
    }
  }

  /** The middle part of s that starts and ends above U+0020. */
  function Trim(s: string): string
  {
    TrimEnd(TrimStart(s))
  }
}
