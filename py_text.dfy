/**
 * The Python `str` operations the core relies on: `strip()`, `lower()`,
 * `split(sep)`, the substring test `sub in s`, and `str(n)` for a
 * non-negative integer. Strings are sequences of Unicode scalar values,
 * as Python's `str` is a sequence of code points.
 */
module PyText {

  /** The characters for which Python's `str.isspace()` holds. */
  predicate IsSpace(c: char) {
    || c == ' '
    || ('\t' <= c <= '\r')
    || ('\U{1c}' <= c <= '\U{1f}')
    || c == '\U{85}' || c == '\U{a0}' || c == '\U{1680}'
    || ('\U{2000}' <= c <= '\U{200a}')
    || c == '\U{2028}' || c == '\U{2029}' || c == '\U{202f}'
    || c == '\U{205f}' || c == '\U{3000}'
  }

  predicate AllSpace(s: string) {
    forall i :: 0 <= i < |s| ==> IsSpace(s[i])
  }

  /** The length of the whitespace run at the start of `s`. */
  function LeadingSpaces(s: string): (n: nat)
    ensures n <= |s| && AllSpace(s[..n])
    ensures n < |s| ==> !IsSpace(s[n])
  {
    if s == [] || !IsSpace(s[0]) then 0
    else
      var k := LeadingSpaces(s[1..]);
      assert s[..k + 1] == [s[0]] + s[1..][..k];
      k + 1
  }

  /** The length of the whitespace run at the end of `s`. */
  function TrailingSpaces(s: string): (n: nat)
    ensures n <= |s| && AllSpace(s[|s| - n..])
    ensures n < |s| ==> !IsSpace(s[|s| - n - 1])
  {
    if s == [] || !IsSpace(s[|s| - 1]) then 0
    else
      var init := s[..|s| - 1];
      var k := TrailingSpaces(init);
      assert s[|s| - (k + 1)..] == init[|init| - k..] + [s[|s| - 1]];
      k + 1
  }

  /**
   * Python's `s.strip()`: `s` without its leading and trailing whitespace.
   * The result is the slice of `s` that starts after the leading run, it
   * neither starts nor ends with whitespace, and all of `s` after it is
   * whitespace.
   */
  function Strip(s: string): (r: string)
    ensures |r| <= |s|
    ensures r == [] || (!IsSpace(r[0]) && !IsSpace(r[|r| - 1]))
    ensures LeadingSpaces(s) + |r| <= |s|
    ensures r == s[LeadingSpaces(s)..LeadingSpaces(s) + |r|]
    ensures AllSpace(s[LeadingSpaces(s) + |r|..])
  {
    var lo := LeadingSpaces(s);
    var n := TrailingSpaces(s[lo..]);
    StripSlice(s, lo, n);
    s[lo..|s| - n]
  }

  /** The facts `Strip` promises, about the slice between the two whitespace runs. */
  lemma StripSlice(s: string, lo: nat, n: nat)
    requires lo <= |s| && (lo < |s| ==> !IsSpace(s[lo]))
    requires n <= |s| - lo && AllSpace(s[lo..][|s| - lo - n..])
    requires n < |s| - lo ==> !IsSpace(s[lo..][|s| - lo - n - 1])
    ensures var r := s[lo..|s| - n];
      && |r| <= |s| && lo + |r| <= |s| && r == s[lo..lo + |r|]
      && (r == [] || (!IsSpace(r[0]) && !IsSpace(r[|r| - 1])))
      && AllSpace(s[lo + |r|..])
  {
    var t := s[lo..];
    assert t[|t| - n..] == s[|s| - n..];
    if n < |t| {
      assert t[|t| - n - 1] == s[|s| - n - 1];
    }
  }

  /** `s` neither starts nor ends with whitespace. */
  predicate IsStripped(s: string) {
    s == [] || (!IsSpace(s[0]) && !IsSpace(s[|s| - 1]))
  }

  /** A string is its own `strip()` exactly when it neither starts nor ends with whitespace. */
  lemma StripUnchanged(s: string)
    ensures Strip(s) == s <==> IsStripped(s)
  {
    if s != [] && IsStripped(s) {
      var r := Strip(s);
      assert LeadingSpaces(s) == 0;
    }
  }

  /** `strip()` only removes characters: one absent from `s` is absent from the result. */
  lemma StripKeepsOut(s: string, c: char)
    requires c !in s
    ensures c !in Strip(s)
  {
    var r := Strip(s);
    var lo := LeadingSpaces(s);
    assert forall j :: 0 <= j < |r| ==> r[j] == s[lo + j];
  }

  /** Python's `c.lower()` on the ASCII letters; other characters are kept. */
  function LowerChar(c: char): char {
    if 'A' <= c <= 'Z' then (c as int + 32) as char else c
  }

  predicate IsUpper(c: char) {
    'A' <= c <= 'Z'
  }

  predicate NoUpper(s: string) {
    forall i :: 0 <= i < |s| ==> !IsUpper(s[i])
  }

  /** Python's `s.lower()`, on ASCII letters. */
  function Lower(s: string): (r: string)
    ensures |r| == |s| && NoUpper(r)
    ensures forall i :: 0 <= i < |s| && !IsUpper(s[i]) ==> r[i] == s[i]
    ensures forall i :: 0 <= i < |s| && IsUpper(s[i]) ==> r[i] as int == s[i] as int + 32
  {
    seq(|s|, i requires 0 <= i < |s| => LowerChar(s[i]))
  }

  /** `s` begins with `prefix`: Python's `s.startswith(prefix)`. */
  predicate StartsWith(s: string, prefix: string) {
    |prefix| <= |s| && s[..|prefix|] == prefix
  }

  /** `s` ends with `suffix`: Python's `s.endswith(suffix)`. */
  predicate EndsWith(s: string, suffix: string) {
    |suffix| <= |s| && s[|s| - |suffix|..] == suffix
  }

  /** A string ending with `c` followed by `t` ends with `t`. */
  lemma EndsWithTail(s: string, c: char, t: string)
    requires EndsWith(s, [c] + t)
    ensures EndsWith(s, t)
  {
    assert s[|s| - |t|..] == s[|s| - |t| - 1..][1..];
  }

  /** `sub` occurs in `s` at index `i`. */
  predicate OccursAt(s: string, sub: string, i: int) {
    0 <= i && i + |sub| <= |s| && s[i..i + |sub|] == sub
  }

  /** Python's `sub in s`: `sub` occurs somewhere in `s`. */
  predicate Contains(s: string, sub: string) {
    exists i :: 0 <= i <= |s| - |sub| && OccursAt(s, sub, i)
  }

  lemma StartsWithAppend(a: string, b: string)
    ensures StartsWith(a + b, a)
  {
    assert (a + b)[..|a|] == a;
  }

  lemma EndsWithAppend(a: string, b: string)
    ensures EndsWith(a + b, b)
  {
    assert (a + b)[|a + b| - |b|..] == b;
  }

  lemma OccursAtContains(s: string, sub: string, i: int)
    requires OccursAt(s, sub, i)
    ensures Contains(s, sub)
  {
  }

  lemma ContainsOccurs(s: string, sub: string) returns (i: nat)
    requires Contains(s, sub)
    ensures OccursAt(s, sub, i)
  {
    i :| OccursAt(s, sub, i);
  }

  /** A string contains itself and the empty string. */
  lemma ContainsSelf(s: string)
    ensures Contains(s, s) && Contains(s, [])
  {
    assert OccursAt(s, s, 0);
    assert OccursAt(s, [], 0);
  }

  /** What occurs in a piece of a concatenation occurs in the whole. */
  lemma ContainsInConcat(pre: string, mid: string, post: string, sub: string)
    requires Contains(mid, sub)
    ensures Contains(pre + mid + post, sub)
  {
    var i := ContainsOccurs(mid, sub);
    var s := pre + mid + post;
    assert s[|pre| + i..|pre| + i + |sub|] == mid[i..i + |sub|];
    OccursAtContains(s, sub, |pre| + i);
  }

  lemma ContainsLeft(a: string, b: string, sub: string)
    requires Contains(a, sub)
    ensures Contains(a + b, sub)
  {
    ContainsInConcat([], a, b, sub);
    assert [] + a + b == a + b;
  }

  lemma ContainsRight(a: string, b: string, sub: string)
    requires Contains(b, sub)
    ensures Contains(a + b, sub)
  {
    ContainsInConcat(a, b, [], sub);
    assert a + b + [] == a + b;
  }

  /** Substring containment is transitive. */
  lemma ContainsTransitive(s: string, mid: string, sub: string)
    requires Contains(s, mid) && Contains(mid, sub)
    ensures Contains(s, sub)
  {
    var i := ContainsOccurs(s, mid);
    var j := ContainsOccurs(mid, sub);
    forall k | 0 <= k < |sub| ensures s[i + j + k] == sub[k] {
      assert s[i + j + k] == s[i..i + |mid|][j + k] == mid[j + k];
      assert mid[j + k] == mid[j..j + |sub|][k];
    }
    assert s[i + j..i + j + |sub|] == sub;
    OccursAtContains(s, sub, i + j);
  }

  /**
   * The index of the first `c` in `s`, or `|s|` when there is none:
   * Python's `s.find(c)` with `|s|` in place of -1.
   */
  function Find(s: string, c: char): (i: nat)
    ensures i <= |s|
    ensures i < |s| ==> s[i] == c
    ensures forall j :: 0 <= j < i ==> s[j] != c
  {
    if s == [] then 0
    else if s[0] == c then 0
    else
      var k := Find(s[1..], c);
      assert forall j :: 1 <= j < k + 1 ==> s[j] == s[1..][j - 1];
      k + 1
  }

  /** Python's `sep.join(pieces)` for a one-character separator. */
  function Join(pieces: seq<string>, sep: char): string
    requires |pieces| >= 1
    decreases |pieces|
  {
    if |pieces| == 1 then pieces[0] else pieces[0] + [sep] + Join(pieces[1..], sep)
  }

  /**
   * Python's `s.split(sep)` for a one-character separator: the pieces
   * between successive separators, in order. There is always at least one
   * piece.
   */
  function Split(s: string, sep: char): (r: seq<string>)
    ensures |r| >= 1
    decreases |s|
  {
    var i := Find(s, sep);
    if i == |s| then [s] else [s[..i]] + Split(s[i + 1..], sep)
  }

  /** The text before the first separator holds none. */
  lemma FindPrefixFree(s: string, c: char)
    ensures c !in s[..Find(s, c)]
    ensures Find(s, c) == |s| <==> c !in s
  {
    var i := Find(s, c);
    forall j | 0 <= j < i ensures s[..i][j] != c {
      assert s[..i][j] == s[j];
    }
    if i == |s| {
      assert s[..i] == s;
    }
  }

  /** Unfolding `Split` once at a separator. */
  lemma SplitStep(s: string, sep: char)
    requires Find(s, sep) < |s|
    ensures Split(s, sep) == [s[..Find(s, sep)]] + Split(s[Find(s, sep) + 1..], sep)
  {
  }

  /** No piece of `s.split(sep)` holds the separator. */
  lemma {:induction false} SplitPiecesFree(s: string, sep: char)
    ensures forall k :: 0 <= k < |Split(s, sep)| ==> sep !in Split(s, sep)[k]
    decreases |s|
  {
    var i := Find(s, sep);
    FindPrefixFree(s, sep);
    if i < |s| {
      var t := s[i + 1..];
      var rest := Split(t, sep);
      var r := Split(s, sep);
      SplitStep(s, sep);
      SplitPiecesFree(t, sep);
      forall k | 0 <= k < |r| ensures sep !in r[k] {
        if k > 0 { assert r[k] == rest[k - 1]; }
      }
    }
  }

  /** Joining the pieces of `s.split(sep)` with `sep` gives `s` back. */
  lemma {:induction false} JoinSplit(s: string, sep: char)
    ensures Join(Split(s, sep), sep) == s
    decreases |s|
  {
    var i := Find(s, sep);
    if i < |s| {
      var t := s[i + 1..];
      var r := Split(s, sep);
      SplitStep(s, sep);
      JoinSplit(t, sep);
      assert r[1..] == Split(t, sep);
      assert s == s[..i] + [sep] + t;
    }
  }

  /** Splitting a join of separator-free pieces gives the pieces back. */
  lemma {:induction false} SplitJoin(pieces: seq<string>, sep: char)
    requires |pieces| >= 1
    requires forall k :: 0 <= k < |pieces| ==> sep !in pieces[k]
    ensures Split(Join(pieces, sep), sep) == pieces
    decreases |pieces|
  {
    var s := Join(pieces, sep);
    if |pieces| == 1 {
      FindPrefixFree(s, sep);
    } else {
      var p := pieces[0];
      var t := Join(pieces[1..], sep);
      FindAfterFree(p, t, sep);
      SplitStep(p + [sep] + t, sep);
      SplitJoin(pieces[1..], sep);
      assert [p] + pieces[1..] == pieces;
    }
  }

  /** In `p + [sep] + t` with no separator in `p`, the first separator is the one after `p`. */
  lemma FindAfterFree(p: string, t: string, sep: char)
    requires sep !in p
    ensures var s := p + [sep] + t;
      Find(s, sep) == |p| && s[..|p|] == p && s[|p| + 1..] == t
  {
    var s := p + [sep] + t;
    assert s[..|p|] == p;
    assert s[|p| + 1..] == t;
    FindFirst(s, sep, |p|);
  }

  /** An occurrence with none before it is the first. */
  lemma FindFirst(s: string, c: char, i: int)
    requires 0 <= i < |s| && s[i] == c && c !in s[..i]
    ensures Find(s, c) == i
  {
    assert forall j :: 0 <= j < i ==> s[..i][j] == s[j];
  }

  /** Python's `s.split(sep)[-1]`: the text after the last separator. */
  function LastField(s: string, sep: char): string {
    Split(s, sep)[|Split(s, sep)| - 1]
  }

  /** The last piece of a join follows the last separator. */
  lemma {:induction false} JoinLast(pieces: seq<string>, sep: char)
    requires |pieces| >= 2
    ensures Join(pieces, sep)
      == Join(pieces[..|pieces| - 1], sep) + [sep] + pieces[|pieces| - 1]
    decreases |pieces|
  {
    var p := pieces[0];
    var rest := pieces[1..];
    if |pieces| > 2 {
      JoinLast(rest, sep);
      assert rest[..|rest| - 1] == pieces[..|pieces| - 1][1..];
      var mid := Join(rest[..|rest| - 1], sep);
      var last := pieces[|pieces| - 1];
      AppendAssoc4(p, [sep], mid, [sep] + last);
    } else {
      assert pieces[..1] == [p];
    }
  }

  lemma AppendAssoc4(a: string, b: string, c: string, d: string)
    ensures a + b + (c + d) == (a + b + c) + d
  {
  }

  /**
   * The last piece of `s.split(sep)` holds no separator; it is all of `s`
   * when `sep` does not occur, and otherwise `s` ends with `sep` followed
   * by it: it is the text after the last separator.
   */
  lemma LastFieldShape(s: string, sep: char)
    ensures var r := LastField(s, sep);
      && sep !in r
      && (sep !in s ==> r == s)
      && (sep in s ==> EndsWith(s, [sep] + r))
  {
    JoinSplit(s, sep);
    SplitPiecesFree(s, sep);
    LastPieceShape(Split(s, sep), sep);
  }

  /** The last of separator-free pieces, as it sits at the end of their join. */
  lemma LastPieceShape(pieces: seq<string>, sep: char)
    requires |pieces| >= 1
    requires forall k :: 0 <= k < |pieces| ==> sep !in pieces[k]
    ensures var s := Join(pieces, sep);
      var r := pieces[|pieces| - 1];
      && sep !in r
      && (sep !in s ==> r == s)
      && (sep in s ==> EndsWith(s, [sep] + r))
  {
    if |pieces| > 1 {
      JoinEndsWithLast(pieces, sep);
      JoinHasSeparator(pieces, sep);
    }
  }

  /** A join of two or more pieces ends with the last one after a separator. */
  lemma JoinEndsWithLast(pieces: seq<string>, sep: char)
    requires |pieces| >= 2
    ensures EndsWith(Join(pieces, sep), [sep] + pieces[|pieces| - 1])
  {
    var front := Join(pieces[..|pieces| - 1], sep);
    JoinLast(pieces, sep);
    EndsWithAppend(front, [sep] + pieces[|pieces| - 1]);
  }

  /** A join of two or more pieces holds a separator. */
  lemma JoinHasSeparator(pieces: seq<string>, sep: char)
    requires |pieces| >= 2
    ensures sep in Join(pieces, sep)
  {
    assert Join(pieces, sep)[|pieces[0]|] == sep;
  }

  predicate IsDigit(c: char) {
    '0' <= c <= '9'
  }

  predicate AllDigits(s: string) {
    forall i :: 0 <= i < |s| ==> IsDigit(s[i])
  }

  function DigitChar(d: nat): (c: char)
    requires d < 10
    ensures IsDigit(c) && c as int - '0' as int == d
  {
    ('0' as int + d) as char
  }

  /** Python's `str(n)` for a non-negative integer: its decimal digits. */
  function DecimalString(n: nat): (r: string)
    ensures |r| >= 1 && AllDigits(r)
    ensures |r| > 1 ==> r[0] != '0'
    decreases n
  {
    if n < 10 then [DigitChar(n)] else DecimalString(n / 10) + [DigitChar(n % 10)]
  }

  /** The number a string of decimal digits denotes: Python's `int(s)`. */
  function DecimalValue(s: string): nat
    requires AllDigits(s)
  {
    if s == [] then 0
    else 10 * DecimalValue(s[..|s| - 1]) + (s[|s| - 1] as int - '0' as int)
  }

  /** `int(str(n)) == n`. */
  lemma {:induction false} DecimalRoundTrip(n: nat)
    ensures DecimalValue(DecimalString(n)) == n
    decreases n
  {
    if n >= 10 {
      DecimalRoundTrip(n / 10);
      var r := DecimalString(n);
      assert r[..|r| - 1] == DecimalString(n / 10);
    }
  }
}
