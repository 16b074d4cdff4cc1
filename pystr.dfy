/** The Python `str` operations the retrieval pipeline relies on, over `string == seq<char>`:
    whitespace as `str.isspace` sees it, `strip`, `split()`, `split(sep)`, `find`, slicing
    with Python's index rules, ASCII lower-casing and decimal rendering of integers. */
module PyStr {
  import opened Wrappers

  /** `c.isspace()`: the characters Python strips with `strip()`, splits on with `split()`
      and matches with the regular-expression class `\s`. */
  predicate IsSpace(c: char) {
    c as int in SpaceCodes
  }

  /** The code points of Python's whitespace class. */
  const SpaceCodes: set<int> := {
    0x09, 0x0A, 0x0B, 0x0C, 0x0D, 0x1C, 0x1D, 0x1E, 0x1F, 0x20, 0x85, 0xA0, 0x1680,
    0x2000, 0x2001, 0x2002, 0x2003, 0x2004, 0x2005, 0x2006, 0x2007, 0x2008, 0x2009, 0x200A,
    0x2028, 0x2029, 0x202F, 0x205F, 0x3000}

  /** An ASCII decimal digit. */
  predicate IsDigit(c: char) {
    '0' <= c <= '9'
  }

  predicate NoSpace(s: string) {
    forall i :: 0 <= i < |s| ==> !IsSpace(s[i])
  }

  /** `s.strip()`: whitespace is removed from both ends until neither end is whitespace. */
  function Strip(s: string): (r: string)
    decreases |s|
    ensures |r| <= |s|
  {
    if s != [] && IsSpace(s[0]) then Strip(s[1..])
    else if s != [] && IsSpace(s[|s| - 1]) then Strip(s[..|s| - 1])
    else s
  }

  /** `strip()` removes a block of whitespace at each end and nothing else: what is left is
      the infix `s[p..p + |Strip(s)|]`, it neither starts nor ends with whitespace, and every
      character outside it is whitespace. */
  lemma {:induction false} StripIsInfix(s: string) returns (p: nat)
    decreases |s|
    ensures p + |Strip(s)| <= |s|
    ensures Strip(s) == s[p..p + |Strip(s)|]
    ensures Strip(s) != [] ==> !IsSpace(Strip(s)[0]) && !IsSpace(Strip(s)[|Strip(s)| - 1])
    ensures forall i :: 0 <= i < p ==> IsSpace(s[i])
    ensures forall i :: p + |Strip(s)| <= i < |s| ==> IsSpace(s[i])
  {
    StripEnds(s);
    if s != [] && IsSpace(s[0]) {
      var q := StripIsInfix(s[1..]);
      InfixAfterFront(s, q, Strip(s[1..]));
      p := q + 1;
    } else if s != [] && IsSpace(s[|s| - 1]) {
      p := StripIsInfix(s[..|s| - 1]);
      InfixBeforeBack(s, p, Strip(s[..|s| - 1]));
    } else {
      p := 0;
    }
  }

  /** Two characters that are not whitespace both survive `strip()`, which starts at the first
      non-whitespace character. */
  lemma StripKeepsBetween(s: string, i: nat, k: nat) returns (p: nat)
    requires i <= k < |s| && !IsSpace(s[i]) && !IsSpace(s[k])
    ensures p <= i && k < p + |Strip(s)| <= |s| && Strip(s) == s[p..p + |Strip(s)|]
    ensures !IsSpace(s[p]) && forall j :: 0 <= j < p ==> IsSpace(s[j])
  {
    p := StripIsInfix(s);
    assert Strip(s)[0] == s[p];
  }

  /** An infix that is preceded only by whitespace and neither starts nor ends with whitespace
      is where `strip()` starts, and it is kept whole. */
  lemma StripKeepsInfix(s: string, q: nat, t: string)
    requires t != [] && q + |t| <= |s| && s[q..q + |t|] == t
    requires forall j :: 0 <= j < q ==> IsSpace(s[j])
    requires !IsSpace(t[0]) && !IsSpace(t[|t| - 1])
    ensures |t| <= |Strip(s)| && Strip(s)[..|t|] == t
  {
    assert s[q] == t[0] && s[q + |t| - 1] == t[|t| - 1];
    var p := StripKeepsBetween(s, q, q + |t| - 1);
    assert p == q;
    assert Strip(s)[..|t|] == s[q..q + |t|];
  }

  /** `r` sits at `q` in `t` with only whitespace around it. */
  ghost predicate SpaceAround(t: string, q: nat, r: string) {
    && q + |r| <= |t|
    && r == t[q..q + |r|]
    && (forall i :: 0 <= i < q ==> IsSpace(t[i]))
    && (forall i :: q + |r| <= i < |t| ==> IsSpace(t[i]))
  }

  lemma InfixAfterFront(s: string, q: nat, r: string)
    requires s != [] && IsSpace(s[0]) && SpaceAround(s[1..], q, r)
    ensures SpaceAround(s, q + 1, r)
  {
    var t := s[1..];
    assert t[q..q + |r|] == s[q + 1..q + 1 + |r|];
    forall i | 0 <= i < q + 1 ensures IsSpace(s[i]) {
      if i > 0 {
        assert s[i] == t[i - 1];
      }
    }
    forall i | q + 1 + |r| <= i < |s| ensures IsSpace(s[i]) {
      assert s[i] == t[i - 1];
    }
  }

  lemma InfixBeforeBack(s: string, q: nat, r: string)
    requires s != [] && IsSpace(s[|s| - 1]) && SpaceAround(s[..|s| - 1], q, r)
    ensures SpaceAround(s, q, r)
  {
    var t := s[..|s| - 1];
    assert t[q..q + |r|] == s[q..q + |r|];
    forall i | 0 <= i < q ensures IsSpace(s[i]) {
      assert s[i] == t[i];
    }
    forall i | q + |r| <= i < |s| ensures IsSpace(s[i]) {
      if i < |t| {
        assert s[i] == t[i];
      }
    }
  }

  lemma {:induction false} StripEnds(s: string)
    decreases |s|
    ensures Strip(s) != [] ==> !IsSpace(Strip(s)[0]) && !IsSpace(Strip(s)[|Strip(s)| - 1])
  {
    if s != [] && IsSpace(s[0]) {
      StripEnds(s[1..]);
    } else if s != [] && IsSpace(s[|s| - 1]) {
      StripEnds(s[..|s| - 1]);
    }
  }

  /** A string with no whitespace at either end is its own `strip()`. */
  lemma StripUnchanged(s: string)
    requires s == [] || (!IsSpace(s[0]) && !IsSpace(s[|s| - 1]))
    ensures Strip(s) == s
  {
  }

  /** Stripping twice is stripping once. */
  lemma StripIdempotent(s: string)
    ensures Strip(Strip(s)) == Strip(s)
  {
    var _ := StripIsInfix(s);
    StripUnchanged(Strip(s));
  }

  function LowerChar(c: char): char {
    if 'A' <= c <= 'Z' then (c as int + 32) as char else c
  }

  /** `s.lower()` for the ASCII letters. */
  function Lower(s: string): (r: string)
    ensures |r| == |s|
    ensures forall i :: 0 <= i < |r| ==> !('A' <= r[i] <= 'Z')
    ensures forall i :: 0 <= i < |r| ==> (IsSpace(r[i]) <==> IsSpace(s[i]))
  {
    seq(|s|, i requires 0 <= i < |s| => LowerChar(s[i]))
  }

  /** Lower-casing works character by character, so it distributes over concatenation. */
  lemma LowerAppend(a: string, b: string)
    ensures Lower(a + b) == Lower(a) + Lower(b)
  {
    assert forall i :: 0 <= i < |a + b| ==> Lower(a + b)[i] == (Lower(a) + Lower(b))[i];
  }

  /** A string without capitals is its own lower case. */
  lemma LowerOfLower(s: string)
    requires NoUpper(s)
    ensures Lower(s) == s
  {
  }

  /** Each string of the list lower-cased. */
  function LowerAll(ws: seq<string>): (r: seq<string>)
    ensures |r| == |ws| && forall i :: 0 <= i < |ws| ==> r[i] == Lower(ws[i])
  {
    seq(|ws|, i requires 0 <= i < |ws| => Lower(ws[i]))
  }

  /** Lower-casing a joined list is joining the lower-cased list. */
  lemma {:induction false} LowerJoin(ws: seq<string>, sep: string)
    requires NoUpper(sep)
    decreases |ws|
    ensures Lower(Join(ws, sep)) == Join(LowerAll(ws), sep)
  {
    if |ws| > 1 {
      LowerJoin(ws[1..], sep);
      LowerAppend(ws[0] + sep, Join(ws[1..], sep));
      LowerAppend(ws[0], sep);
      LowerOfLower(sep);
      assert LowerAll(ws)[1..] == LowerAll(ws[1..]);
    }
  }

  /** `min(x, y)`. */
  function Min(x: int, y: int): int {
    if x <= y then x else y
  }

  /** `max(x, y)`. */
  function Max(x: int, y: int): int {
    if x >= y then x else y
  }

  /** Python's reading of a slice bound `n` on a sequence of length `len`: a negative bound
      counts from the end, and the result is clamped to `0..len`. */
  function PyIndex(n: int, len: nat): (r: nat)
    ensures r <= len
    ensures 0 <= n <= len ==> r == n
    ensures n > len ==> r == len
    ensures n < 0 ==> r == if len + n > 0 then len + n else 0
  {
    if n < 0 then (if len + n > 0 then len + n else 0) else if n > len then len else n
  }

  /** `s[:n]`. */
  function PyTake<T>(s: seq<T>, n: int): (r: seq<T>)
    ensures r == s[..PyIndex(n, |s|)]
  {
    s[..PyIndex(n, |s|)]
  }

  /** `s[i:j]`: empty when the clamped bounds cross. */
  function PySlice<T>(s: seq<T>, i: int, j: int): (r: seq<T>)
    ensures PyIndex(i, |s|) < PyIndex(j, |s|) ==> r == s[PyIndex(i, |s|)..PyIndex(j, |s|)]
    ensures PyIndex(j, |s|) <= PyIndex(i, |s|) ==> r == []
  {
    var a, b := PyIndex(i, |s|), PyIndex(j, |s|);
    if a < b then s[a..b] else []
  }

  predicate OccursAt(s: string, pat: string, k: int) {
    0 <= k && k + |pat| <= |s| && s[k..k + |pat|] == pat
  }

  /** `s.find(pat, from)`: the first occurrence at or after `from`; None stands for -1. */
  function FindFrom(s: string, pat: string, from: nat): (r: Option<nat>)
    decreases |s| - from
    ensures r.Some? ==> from <= r.value && OccursAt(s, pat, r.value)
    ensures r.Some? ==> forall m :: from <= m < r.value ==> !OccursAt(s, pat, m)
    ensures r.None? ==> forall m :: from <= m ==> !OccursAt(s, pat, m)
  {
    if from + |pat| > |s| then None
    else if s[from..from + |pat|] == pat then Some(from)
    else FindFrom(s, pat, from + 1)
  }

  /** `s.find(pat)`. */
  function Find(s: string, pat: string): Option<nat> {
    FindFrom(s, pat, 0)
  }

  /** `pat in s`. */
  predicate Contains(s: string, pat: string) {
    Find(s, pat).Some?
  }

  /** The length of the leading run of non-whitespace characters. */
  function WordLen(s: string): (n: nat)
    ensures n <= |s|
    ensures forall i :: 0 <= i < n ==> !IsSpace(s[i])
    ensures n < |s| ==> IsSpace(s[n])
  {
    if s == [] || IsSpace(s[0]) then 0 else 1 + WordLen(s[1..])
  }

  /** `s.split()` with no separator: the maximal runs of non-whitespace, in order. */
  function Words(s: string): (r: seq<string>)
    decreases |s|
    ensures forall w :: w in r ==> w != [] && NoSpace(w)
  {
    if s == [] then []
    else if IsSpace(s[0]) then Words(s[1..])
    else
      var n := WordLen(s);
      [s[..n]] + Words(s[n..])
  }

  /** The number of word starts in `s`: non-whitespace characters at the front or after
      whitespace; `after` says whether what came before `s` was whitespace. */
  function WordStarts(s: string, after: bool): nat {
    if s == [] then 0
    else (if after && !IsSpace(s[0]) then 1 else 0) + WordStarts(s[1..], IsSpace(s[0]))
  }

  /** `len(s.split())`, counted without building the words. */
  function WordCount(s: string): nat {
    WordStarts(s, true)
  }

  /** Inside a word nothing is counted until the word ends. */
  lemma {:induction false} WordStartsSkip(t: string)
    decreases |t|
    ensures WordStarts(t, false) == WordStarts(t[WordLen(t)..], true)
  {
    if t != [] && !IsSpace(t[0]) {
      WordStartsSkip(t[1..]);
      assert t[1..][WordLen(t[1..])..] == t[WordLen(t)..];
    }
  }

  /** The count is the number of words `split()` returns. */
  lemma {:induction false} WordCountWords(s: string)
    decreases |s|
    ensures WordCount(s) == |Words(s)|
  {
    if s != [] {
      if IsSpace(s[0]) {
        WordCountWords(s[1..]);
      } else {
        var n := WordLen(s);
        WordStartsSkip(s[1..]);
        assert s[1..][WordLen(s[1..])..] == s[n..];
        WordCountWords(s[n..]);
      }
    }
  }

  /** The first index of `c` in `s`. */
  function IndexOf(s: string, c: char): (k: nat)
    requires c in s
    ensures k < |s| && s[k] == c && c !in s[..k]
  {
    if s[0] == c then 0 else 1 + IndexOf(s[1..], c)
  }

  /** `s.split(sep)` for a one-character separator: the pieces between the separators,
      empty pieces included. */
  function SplitOn(s: string, sep: char): (r: seq<string>)
    decreases |s|
    ensures |r| >= 1
    ensures forall piece :: piece in r ==> sep !in piece
  {
    if sep !in s then [s]
    else
      var k := IndexOf(s, sep);
      [s[..k]] + SplitOn(s[k + 1..], sep)
  }

  /** `sep.join(parts)`. */
  function Join(parts: seq<string>, sep: string): string {
    if |parts| == 0 then []
    else if |parts| == 1 then parts[0]
    else parts[0] + sep + Join(parts[1..], sep)
  }

  /** Splitting on a separator and joining with it again gives the original string back. */
  lemma {:induction false} JoinSplitOn(s: string, sep: char)
    decreases |s|
    ensures Join(SplitOn(s, sep), [sep]) == s
  {
    if sep in s {
      var k := IndexOf(s, sep);
      var tail := s[k + 1..];
      var rest := SplitOn(tail, sep);
      JoinSplitOn(tail, sep);
      var parts := SplitOn(s, sep);
      assert parts == [s[..k]] + rest;
      assert |parts| >= 2 && parts[0] == s[..k] && parts[1..] == rest;
      assert Join(parts, [sep]) == s[..k] + [sep] + Join(rest, [sep]);
      assert s == s[..k] + [sep] + tail;
    }
  }

  function DigitChar(d: nat): (c: char)
    requires d < 10
    ensures IsDigit(c)
  {
    ('0' as int + d) as char
  }

  predicate AllDigits(s: string) {
    forall i :: 0 <= i < |s| ==> IsDigit(s[i])
  }

  /** `str(n)` / `f"{n}"` for a non-negative integer. */
  function Decimal(n: nat): (r: string)
    ensures r != [] && AllDigits(r)
  {
    if n < 10 then [DigitChar(n)] else Decimal(n / 10) + [DigitChar(n % 10)]
  }

  /** `int(s)` for a string of decimal digits. */
  function ParseDecimal(s: string): nat
    requires AllDigits(s)
  {
    if s == [] then 0 else ParseDecimal(s[..|s| - 1]) * 10 + (s[|s| - 1] as int - '0' as int)
  }

  /** Reading back a rendered number gives the number. */
  lemma {:induction false} DecimalRoundTrip(n: nat)
    ensures ParseDecimal(Decimal(n)) == n
  {
    if n >= 10 {
      var d := Decimal(n);
      DecimalRoundTrip(n / 10);
      assert d[..|d| - 1] == Decimal(n / 10);
    }
  }

  /** Distinct numbers render differently. */
  lemma DecimalInjective(m: nat, n: nat)
    requires Decimal(m) == Decimal(n)
    ensures m == n
  {
    DecimalRoundTrip(m);
    DecimalRoundTrip(n);
  }

  /** `[x] * n`. */
  function Repeat<T>(x: T, n: nat): (r: seq<T>)
    ensures |r| == n && forall i :: 0 <= i < n ==> r[i] == x
  {
    seq(n, _ => x)
  }

  /** `str(n)` for any integer: a minus sign before the digits of a negative number. */
  function IntStr(n: int): (r: string)
    ensures r != []
  {
    if n >= 0 then Decimal(n) else "-" + Decimal(-n)
  }

  /** `s.rpartition(sep)` for a one-character separator: the text before and after the last
      occurrence, or None when `sep` does not occur. */
  function SplitLast(s: string, sep: char): (r: Option<(string, string)>)
    decreases |s|
  {
    if s == [] then None
    else if s[|s| - 1] == sep then Some((s[..|s| - 1], []))
    else
      match SplitLast(s[..|s| - 1], sep)
      case None => None
      case Some((x, y)) => Some((x, y + [s[|s| - 1]]))
  }

  /** Cutting at the last separator finds the one before a separator-free tail. */
  lemma {:induction false} SplitLastAppend(x: string, sep: char, y: string)
    requires sep !in y
    decreases |y|
    ensures SplitLast(x + [sep] + y, sep) == Some((x, y))
  {
    var s := x + [sep] + y;
    if y != [] {
      var y' := y[..|y| - 1];
      assert s[..|s| - 1] == x + [sep] + y';
      SplitLastAppend(x, sep, y');
      assert y' + [y[|y| - 1]] == y;
    } else {
      assert s[..|s| - 1] == x;
    }
  }

  /** No digit is a separator. */
  lemma DigitsExclude(s: string, c: char)
    requires AllDigits(s) && !IsDigit(c)
    ensures c !in s
  {
  }

  /** No ASCII capital letter. */
  predicate NoUpper(s: string) {
    forall i :: 0 <= i < |s| ==> !('A' <= s[i] <= 'Z')
  }

  /** A string that starts with a non-space keeps its first character under `strip()`. */
  lemma StripKeepsHead(s: string)
    requires s != [] && !IsSpace(s[0])
    ensures Strip(s) != [] && Strip(s)[0] == s[0]
  {
    var p := StripIsInfix(s);
  }

  lemma {:induction false} WordLenOf(w: string, t: string)
    requires NoSpace(w) && (t == [] || IsSpace(t[0]))
    decreases |w|
    ensures WordLen(w + t) == |w|
  {
    if w != [] {
      assert (w + t)[1..] == w[1..] + t;
      WordLenOf(w[1..], t);
    } else {
      assert w + t == t;
    }
  }

  /** Splitting a space-joined list of words gives the words back. */
  lemma {:induction false} WordsOfJoin(ws: seq<string>)
    requires forall w :: w in ws ==> w != [] && NoSpace(w)
    decreases |ws|
    ensures Words(Join(ws, " ")) == ws
  {
    if |ws| == 1 {
      var w := ws[0];
      WordLenOf(w, []);
      assert w + [] == w;
      assert w[|w|..] == [];
    } else if |ws| > 1 {
      var w := ws[0];
      var rest := Join(ws[1..], " ");
      var s := w + " " + rest;
      assert Join(ws, " ") == s;
      WordLenOf(w, " " + rest);
      assert s == w + (" " + rest);
      assert s[..|w|] == w;
      assert s[|w|..] == " " + rest;
      assert (" " + rest)[1..] == rest;
      assert ws[1..][0] == ws[1];
      assert forall v :: v in ws[1..] ==> v in ws;
      WordsOfJoin(ws[1..]);
      assert ws == [w] + ws[1..];
    }
  }

  /** Every word of a string without capitals is without capitals. */
  lemma {:induction false} WordsNoUpper(s: string)
    requires NoUpper(s)
    decreases |s|
    ensures forall w :: w in Words(s) ==> NoUpper(w)
  {
    if s != [] {
      if IsSpace(s[0]) {
        WordsNoUpper(s[1..]);
      } else {
        var n := WordLen(s);
        WordsNoUpper(s[n..]);
        assert Words(s) == [s[..n]] + Words(s[n..]);
      }
    }
  }

  /** A character in none of the parts and not in the separator is not in their join. */
  lemma {:induction false} JoinLacks(ws: seq<string>, sep: string, c: char)
    requires c !in sep && forall w :: w in ws ==> c !in w
    decreases |ws|
    ensures c !in Join(ws, sep)
  {
    if |ws| > 1 {
      assert ws[0] in ws;
      assert forall w :: w in ws[1..] ==> w in ws;
      JoinLacks(ws[1..], sep, c);
    } else if |ws| == 1 {
      assert ws[0] in ws;
    }
  }

  /** `strip()` of a string padded with whitespace on both sides gives the string back when
      it has no whitespace at its ends. */
  lemma StripPadded(a: string, x: string, b: string)
    requires forall i :: 0 <= i < |a| ==> IsSpace(a[i])
    requires forall i :: 0 <= i < |b| ==> IsSpace(b[i])
    requires x != [] && !IsSpace(x[0]) && !IsSpace(x[|x| - 1])
    ensures Strip(a + x + b) == x
  {
    var s := a + x + b;
    var p := StripIsInfix(s);
    var r := Strip(s);
    assert s[|a|] == x[0];
    assert s[|a| + |x| - 1] == x[|x| - 1];
    assert p <= |a|;
    assert r != [];
    assert s[p] == r[0];
    assert p == |a|;
    assert s[p + |r| - 1] == r[|r| - 1];
    assert p + |r| == |a| + |x|;
    assert s[|a|..|a| + |x|] == x;
  }

  /** The first occurrence of `pat` is right after a prefix without its first character. */
  lemma FindAfter(pre: string, pat: string, rest: string)
    requires pat != [] && pat[0] !in pre
    ensures Find(pre + pat + rest, pat) == Some(|pre|)
  {
    var s := pre + pat + rest;
    assert s[|pre|..|pre| + |pat|] == pat;
    assert OccursAt(s, pat, |pre|);
    forall m | 0 <= m < |pre| ensures !OccursAt(s, pat, m) {
      assert s[m] == pre[m];
      assert m + |pat| <= |s| ==> s[m..m + |pat|][0] == s[m];
    }
  }

  /** The first `sep` is the one right after a prefix without it. */
  lemma {:induction false} IndexOfAfter(a: string, sep: char, b: string)
    requires sep !in a
    decreases |a|
    ensures sep in a + [sep] + b && IndexOf(a + [sep] + b, sep) == |a|
  {
    var s := a + [sep] + b;
    assert s[|a|] == sep;
    if a != [] {
      assert s[1..] == a[1..] + [sep] + b;
      assert a[0] in a;
      IndexOfAfter(a[1..], sep, b);
    }
  }

  /** Splitting a join on its one-character separator gives the parts back, when no part
      contains the separator. */
  lemma {:induction false} SplitOnJoin(ps: seq<string>, sep: char)
    requires |ps| >= 1 && forall p :: p in ps ==> sep !in p
    decreases |ps|
    ensures SplitOn(Join(ps, [sep]), sep) == ps
  {
    assert ps[0] in ps;
    if |ps| > 1 {
      var rest := Join(ps[1..], [sep]);
      var s := ps[0] + [sep] + rest;
      assert Join(ps, [sep]) == s;
      IndexOfAfter(ps[0], sep, rest);
      assert s[..|ps[0]|] == ps[0];
      assert s[|ps[0]| + 1..] == rest;
      assert SplitOn(s, sep) == [ps[0]] + SplitOn(rest, sep);
      assert forall p :: p in ps[1..] ==> p in ps;
      SplitOnJoin(ps[1..], sep);
      assert ps == [ps[0]] + ps[1..];
    }
  }

  /** Joining non-empty words gives a non-empty string unless there are none. */
  lemma JoinNonEmpty(ws: seq<string>, sep: string)
    requires ws != [] && ws[0] != []
    ensures Join(ws, sep) != []
  {
  }
}
