/**
 * The handful of Python `str` operations the bench software relies on:
 * `in` on strings, `startswith`/`endswith`, `split` on one character,
 * `join`, `rstrip`, `upper`, `isnumeric`, `zfill` and `str(int)`.
 * `rstrip` removes every character Python counts as whitespace;
 * `upper` and `isnumeric` are modelled on ASCII characters only.
 */
module Text {

  /** `p` is a prefix of `s` (Python `s.startswith(p)`). */
  predicate StartsWith(s: string, p: string) {
    |p| <= |s| && s[..|p|] == p
  }

  /** `p` is a suffix of `s` (Python `s.endswith(p)`). */
  predicate EndsWith(s: string, p: string) {
    |p| <= |s| && s[|s| - |p|..] == p
  }

  lemma StartsWithAppend(a: string, b: string)
    ensures StartsWith(a + b, a)
  {
    assert (a + b)[..|a|] == a;
  }

  lemma EndsWithAppend(a: string, b: string)
    ensures EndsWith(a + b, b)
  {
    assert (a + b)[|a|..] == b;
  }

  lemma StartsWithTrans(s: string, p: string, q: string)
    requires StartsWith(s, p) && StartsWith(p, q)
    ensures StartsWith(s, q)
  {
    assert s[..|q|] == s[..|p|][..|q|];
  }

  lemma EndsWithTrans(s: string, p: string, q: string)
    requires EndsWith(s, p) && EndsWith(p, q)
    ensures EndsWith(s, q)
  {
    assert s[|s| - |q|..] == s[|s| - |p|..][|p| - |q|..];
  }

  /** Python `sub in s`. */
  predicate Contains(s: string, sub: string)
    decreases |s|
  {
    StartsWith(s, sub) || (s != [] && Contains(s[1..], sub))
  }

  lemma {:induction false} ContainsAt(s: string, sub: string, i: nat)
    requires i + |sub| <= |s| && s[i..i + |sub|] == sub
    ensures Contains(s, sub)
    decreases i
  {
    if i > 0 {
      assert s[1..][i - 1..i - 1 + |sub|] == s[i..i + |sub|];
      ContainsAt(s[1..], sub, i - 1);
    }
  }

  lemma ContainsMiddle(a: string, b: string, c: string)
    ensures Contains(a + b + c, b)
  {
    var s := a + b + c;
    assert s[|a|..|a| + |b|] == b;
    ContainsAt(s, b, |a|);
  }

  /** Position of the first `c` in `s`. */
  function IndexOf(s: string, c: char): (i: nat)
    requires c in s
    ensures i < |s| && s[i] == c && c !in s[..i]
  {
    if s[0] == c then 0 else 1 + IndexOf(s[1..], c)
  }

  lemma {:induction false} IndexOfAfter(a: string, c: char, b: string)
    requires c !in a
    ensures c in a + [c] + b && IndexOf(a + [c] + b, c) == |a|
  {
    var s := a + [c] + b;
    assert s[|a|] == c;
    if a != [] {
      assert s[1..] == a[1..] + [c] + b;
      IndexOfAfter(a[1..], c, b);
    }
  }

  /** Python `s.split(c)` for a one-character separator. */
  function Split(s: string, c: char): (parts: seq<string>)
    ensures |parts| >= 1
    decreases |s|
  {
    if c in s then
      var i := IndexOf(s, c);
      [s[..i]] + Split(s[i + 1..], c)
    else
      [s]
  }

  /** Python `sep.join(parts)`. */
  function Join(parts: seq<string>, sep: string): string {
    if parts == [] then ""
    else if |parts| == 1 then parts[0]
    else parts[0] + sep + Join(parts[1..], sep)
  }

  lemma {:induction false} SplitPartsFree(s: string, c: char)
    ensures forall k :: 0 <= k < |Split(s, c)| ==> c !in Split(s, c)[k]
    decreases |s|
  {
    if c in s {
      var i := IndexOf(s, c);
      SplitPartsFree(s[i + 1..], c);
    }
  }

  /** Splitting on `c` and joining with `c` gives back the string. */
  lemma {:induction false} JoinSplit(s: string, c: char)
    ensures Join(Split(s, c), [c]) == s
    decreases |s|
  {
    if c in s {
      var i := IndexOf(s, c);
      JoinSplit(s[i + 1..], c);
      assert s == s[..i] + [c] + s[i + 1..];
    }
  }

  lemma SplitCount(s: string, c: char)
    ensures c in s <==> |Split(s, c)| >= 2
  {
    if c in s {
      var i := IndexOf(s, c);
      assert |Split(s[i + 1..], c)| >= 1;
    }
  }

  /** Splitting takes off a `c`-free head at its first `c`. */
  lemma SplitAfterHead(h: string, c: char, b: string)
    requires c !in h
    ensures Split(h + [c] + b, c) == [h] + Split(b, c)
  {
    var s := h + [c] + b;
    IndexOfAfter(h, c, b);
    assert s[..|h|] == h && s[|h| + 1..] == b;
  }

  lemma AppendAssoc<T>(a: seq<T>, b: seq<T>, c: seq<T>)
    ensures a + (b + c) == a + b + c
  {
  }

  /** Splitting at a separator splits the two sides independently. */
  lemma {:induction false} SplitConcat(x: string, c: char, y: string)
    ensures Split(x + [c] + y, c) == Split(x, c) + Split(y, c)
    decreases |x|, 1
  {
    if c in x {
      var i := IndexOf(x, c);
      assert x == x[..i] + [c] + x[i + 1..];
      SplitConcatPast(x[..i], x[i + 1..], c, y);
    } else {
      SplitAfterHead(x, c, y);
    }
  }

  /** `SplitConcat` for an `x` made of a `c`-free head, a `c` and the rest: induction on the rest. */
  lemma {:induction false} SplitConcatPast(h: string, rest: string, c: char, y: string)
    requires c !in h
    ensures Split(h + [c] + rest + [c] + y, c) == Split(h + [c] + rest, c) + Split(y, c)
    decreases |h| + 1 + |rest|, 0
  {
    SplitAfterHead(h, c, rest);
    AppendAssoc(h + [c], rest + [c], y);
    AppendAssoc(h, [c], rest + [c]);
    AppendAssoc(h + [c], rest, [c]);
    SplitAfterHead(h, c, rest + [c] + y);
    SplitConcat(rest, c, y);
    AppendAssoc([h], Split(rest, c), Split(y, c));
  }

  /** Splitting after the last `c` puts the `c`-free tail in a part of its own. */
  lemma SplitLast(x: string, c: char, y: string)
    requires c !in y
    ensures Split(x + [c] + y, c) == Split(x, c) + [y]
  {
    SplitConcat(x, c, y);
  }

  /** Joining `c`-free parts with `c` and splitting on `c` gives back the parts. */
  lemma {:induction false} SplitJoin(parts: seq<string>, c: char)
    requires |parts| >= 1
    requires forall k :: 0 <= k < |parts| ==> c !in parts[k]
    ensures Split(Join(parts, [c]), c) == parts
  {
    if |parts| > 1 {
      var rest := Join(parts[1..], [c]);
      assert c !in parts[0];
      SplitAfterHead(parts[0], c, rest);
      SplitJoin(parts[1..], c);
      assert [parts[0]] + parts[1..] == parts;
    }
  }

  /** Joining all but the last part, then the separator and the last part, is the whole join. */
  lemma {:induction false} JoinLast(parts: seq<string>, sep: string)
    requires |parts| >= 2
    ensures Join(parts[..|parts| - 1], sep) + sep + parts[|parts| - 1] == Join(parts, sep)
  {
    if |parts| > 2 {
      JoinLast(parts[1..], sep);
      assert parts[1..][..|parts| - 2] == parts[..|parts| - 1][1..];
    }
  }

  /** Number of occurrences of `c` in `s` (Python `s.count(c)`). */
  function CountChar(s: string, c: char): nat {
    if s == [] then 0 else (if s[0] == c then 1 else 0) + CountChar(s[1..], c)
  }

  lemma {:induction false} CountCharConcat(a: string, b: string, c: char)
    ensures CountChar(a + b, c) == CountChar(a, c) + CountChar(b, c)
  {
    if a != [] {
      assert (a + b)[1..] == a[1..] + b;
      CountCharConcat(a[1..], b, c);
    } else {
      assert a + b == b;
    }
  }

  lemma {:induction false} CountCharAbsent(s: string, c: char)
    requires c !in s
    ensures CountChar(s, c) == 0
  {
    if s != [] {
      CountCharAbsent(s[1..], c);
    }
  }

  /** `s.split(c)` has one more piece than `s` has occurrences of `c`. */
  lemma {:induction false} SplitPieces(s: string, c: char)
    ensures |Split(s, c)| == CountChar(s, c) + 1
    decreases |s|
  {
    if c in s {
      var i := IndexOf(s, c);
      SplitPieces(s[i + 1..], c);
      CountCharAbsent(s[..i], c);
      assert s == s[..i] + [c] + s[i + 1..];
      CountCharConcat(s[..i], [c] + s[i + 1..], c);
      var tail := [c] + s[i + 1..];
      assert tail[0] == c && tail[1..] == s[i + 1..];
      assert CountChar(tail, c) == 1 + CountChar(s[i + 1..], c);
      assert s[..i] + tail == s;
    } else {
      CountCharAbsent(s, c);
    }
  }

  /** Joining `c`-free parts with a separator holding one `c` leaves one `c` per gap. */
  lemma {:induction false} CountCharJoin(parts: seq<string>, sep: string, c: char)
    requires |parts| >= 1 && CountChar(sep, c) == 1
    requires forall k :: 0 <= k < |parts| ==> c !in parts[k]
    ensures CountChar(Join(parts, sep), c) == |parts| - 1
  {
    CountCharAbsent(parts[0], c);
    if |parts| > 1 {
      CountCharJoin(parts[1..], sep, c);
      CountCharConcat(parts[0], sep, c);
      CountCharConcat(parts[0] + sep, Join(parts[1..], sep), c);
    }
  }

  predicate IsDigit(ch: char) { '0' <= ch <= '9' }

  /** Python `s.isnumeric()` restricted to ASCII: non-empty and all decimal digits. */
  predicate IsNumeric(s: string) {
    s != [] && forall k :: 0 <= k < |s| ==> IsDigit(s[k])
  }

  function Pow10(n: nat): (r: nat)
    ensures r >= 1
  {
    if n == 0 then 1 else 10 * Pow10(n - 1)
  }

  /** Python `int(s)` for a string of decimal digits. */
  function DigitsValue(s: string): (v: nat)
    requires forall k :: 0 <= k < |s| ==> IsDigit(s[k])
  {
    if s == [] then 0
    else
      assert IsDigit(s[|s| - 1]);
      10 * DigitsValue(s[..|s| - 1]) + (s[|s| - 1] as int - '0' as int)
  }

  /** A string of n digits denotes a number below 10^n. */
  lemma {:induction false} DigitsValueBound(s: string)
    requires forall k :: 0 <= k < |s| ==> IsDigit(s[k])
    ensures DigitsValue(s) < Pow10(|s|)
  {
    if s != [] {
      DigitsValueBound(s[..|s| - 1]);
    }
  }

  function Repeat(ch: char, n: nat): (r: string)
    ensures |r| == n && forall k :: 0 <= k < n ==> r[k] == ch
  {
    if n == 0 then [] else [ch] + Repeat(ch, n - 1)
  }

  /** Python `s.zfill(width)` for a digit string: left-pad with zeros. */
  function ZFill(s: string, width: nat): (r: string)
    ensures |r| == if |s| < width then width else |s|
    ensures EndsWith(r, s)
  {
    if |s| < width then Repeat('0', width - |s|) + s else s
  }

  /** Python's `str.isspace()` on one character: the characters `rstrip()` removes. */
  predicate IsSpace(ch: char) {
    || '\t' <= ch <= '\r' || '\U{1C}' <= ch <= ' ' || ch == '\U{85}' || ch == '\U{A0}' || ch == '\U{1680}'
    || '\U{2000}' <= ch <= '\U{200A}' || ch == '\U{2028}' || ch == '\U{2029}' || ch == '\U{202F}'
    || ch == '\U{205F}' || ch == '\U{3000}'
  }

  /** Python `s.rstrip()`. */
  function RStrip(s: string): (r: string)
    ensures StartsWith(s, r)
    ensures r == [] || !IsSpace(r[|r| - 1])
    ensures forall k :: |r| <= k < |s| ==> IsSpace(s[k])
  {
    if s != [] && IsSpace(s[|s| - 1]) then RStrip(s[..|s| - 1]) else s
  }

  function UpperChar(ch: char): char {
    if 'a' <= ch <= 'z' then (ch as int - 32) as char else ch
  }

  /** Python `s.upper()` on ASCII letters. */
  function Upper(s: string): (r: string)
    ensures |r| == |s| && forall k :: 0 <= k < |s| ==> r[k] == UpperChar(s[k])
  {
    if s == [] then [] else [UpperChar(s[0])] + Upper(s[1..])
  }

  /** Python `str(n)` for a natural number. */
  function NatToString(n: nat): (r: string)
    ensures r != [] && forall k :: 0 <= k < |r| ==> IsDigit(r[k])
  {
    if n < 10 then [('0' as int + n) as char]
    else NatToString(n / 10) + [('0' as int + n % 10) as char]
  }

  /**
   * A comma-free prefix and suffix around a join of `c`-free parts with a
   * one-`c` separator: splitting on `c` gives one piece per part.
   */
  lemma {:induction false} SplitAroundJoin(pre: string, parts: seq<string>, sep: string, post: string, c: char)
    requires c !in pre && c !in post
    requires |parts| >= 1 && CountChar(sep, c) == 1
    requires forall k :: 0 <= k < |parts| ==> c !in parts[k]
    ensures |Split(pre + Join(parts, sep) + post, c)| == |parts|
  {
    var joined := Join(parts, sep);
    CountCharJoin(parts, sep, c);
    CountCharAbsent(pre, c);
    CountCharAbsent(post, c);
    CountCharConcat(pre, joined, c);
    CountCharConcat(pre + joined, post, c);
    SplitPieces(pre + joined + post, c);
  }

  /** Different numbers print differently. */
  lemma {:induction false} NatToStringInjective(a: nat, b: nat)
    requires NatToString(a) == NatToString(b)
    ensures a == b
  {
    var sa, sb := NatToString(a), NatToString(b);
    if a >= 10 && b >= 10 {
      assert sa[..|sa| - 1] == NatToString(a / 10);
      assert sb[..|sb| - 1] == NatToString(b / 10);
      NatToStringInjective(a / 10, b / 10);
      assert sa[|sa| - 1] == sb[|sb| - 1];
    } else if a < 10 && b < 10 {
      assert sa[0] == sb[0];
    }
  }

  /** Python `str(i)` for an integer. */
  function IntToString(i: int): string {
    if i < 0 then "-" + NatToString(-i) else NatToString(i)
  }

  /**
   * The loop `found = False; for line in lines: if marker in line: found = True`
   * that the status parsers run over command output.
   */
  method AnyLineContains(lines: seq<string>, marker: string) returns (found: bool)
    ensures found <==> exists k :: 0 <= k < |lines| && Contains(lines[k], marker)
  {
    found := false;
    var i := 0;
    while i < |lines|
      invariant 0 <= i <= |lines|
      invariant found <==> exists k :: 0 <= k < i && Contains(lines[k], marker)
    {
      if Contains(lines[i], marker) {
        found := true;
      }
      i := i + 1;
    }
  }

  /** Python `a <= b` on strings: code-point order, a proper prefix first. */
  predicate LexLe(a: string, b: string)
    decreases |a|
  {
    a == [] || (b != [] && (a[0] < b[0] || (a[0] == b[0] && LexLe(a[1..], b[1..]))))
  }

  lemma {:induction false} LexLeRefl(a: string)
    ensures LexLe(a, a)
    decreases |a|
  {
    if a != [] {
      LexLeRefl(a[1..]);
    }
  }

  lemma {:induction false} LexLeTotal(a: string, b: string)
    ensures LexLe(a, b) || LexLe(b, a)
    decreases |a|
  {
    if a != [] && b != [] && a[0] == b[0] {
      LexLeTotal(a[1..], b[1..]);
    }
  }

  lemma {:induction false} LexLeTrans(a: string, b: string, c: string)
    requires LexLe(a, b) && LexLe(b, c)
    ensures LexLe(a, c)
    decreases |a|
  {
    if a != [] && a[0] == b[0] && b[0] == c[0] {
      LexLeTrans(a[1..], b[1..], c[1..]);
    }
  }

  lemma {:induction false} LexLeAntisym(a: string, b: string)
    requires LexLe(a, b) && LexLe(b, a)
    ensures a == b
    decreases |a|
  {
    if a != [] {
      LexLeAntisym(a[1..], b[1..]);
      assert a == [a[0]] + a[1..] && b == [b[0]] + b[1..];
    }
  }

  /** `runs` holds no string greater than `m`. */
  predicate IsGreatest(runs: seq<string>, m: string) {
    m in runs && forall k :: 0 <= k < |runs| ==> LexLe(runs[k], m)
  }

  /** There is only one greatest string in a list. */
  lemma GreatestUnique(runs: seq<string>, m: string, m': string)
    requires IsGreatest(runs, m) && IsGreatest(runs, m')
    ensures m == m'
  {
    LexLeAntisym(m, m');
  }

  lemma {:induction false} GreatestExists(runs: seq<string>)
    requires runs != []
    ensures exists m :: IsGreatest(runs, m)
  {
    if |runs| == 1 {
      LexLeRefl(runs[0]);
      assert IsGreatest(runs, runs[0]);
    } else {
      var init := runs[..|runs| - 1];
      var x := runs[|runs| - 1];
      GreatestExists(init);
      var m :| IsGreatest(init, m);
      assert runs == init + [x];
      LexLeTotal(m, x);
      if LexLe(m, x) {
        LexLeRefl(x);
        forall k | 0 <= k < |runs|
          ensures LexLe(runs[k], x)
        {
          if k < |init| {
            LexLeTrans(runs[k], m, x);
          }
        }
        assert IsGreatest(runs, x);
      } else {
        assert IsGreatest(runs, m);
      }
    }
  }

  /** The last entry of the sorted list: its greatest string. */
  ghost function Greatest(runs: seq<string>): (m: string)
    requires runs != []
    ensures IsGreatest(runs, m)
  {
    GreatestExists(runs);
    var m :| IsGreatest(runs, m); m
  }

  /** `runs.sort(); runs[-1]`: the greatest of a non-empty list of strings. */
  method LastSorted(runs: seq<string>) returns (m: string)
    requires runs != []
    ensures IsGreatest(runs, m) && m == Greatest(runs)
  {
    m := runs[0];
    LexLeRefl(m);
    var i := 1;
    while i < |runs|
      invariant 1 <= i <= |runs|
      invariant m in runs[..i]
      invariant forall k :: 0 <= k < i ==> LexLe(runs[k], m)
    {
      LexLeTotal(runs[i], m);
      if !LexLe(runs[i], m) {
        forall k | 0 <= k < i
          ensures LexLe(runs[k], runs[i])
        {
          LexLeTrans(runs[k], m, runs[i]);
        }
        m := runs[i];
        LexLeRefl(m);
      }
      i := i + 1;
    }
    assert runs[..|runs|] == runs;
    GreatestUnique(runs, m, Greatest(runs));
  }
}
