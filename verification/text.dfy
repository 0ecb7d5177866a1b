/**
 * The pieces of Python's `str` behaviour the pipeline relies on: substring
 * search (`p in s`), ASCII case mapping (`lower()` / `upper()`), `sep.join`,
 * `c * n`, `replace`, `strip` and `split` on one separator character.
 */
module Text {

  /* ---------- substring search: Python's `p in s` ---------- */

  predicate MatchesAt(s: string, p: string, i: nat) {
    i + |p| <= |s| && s[i..i + |p|] == p
  }

  predicate Contains(s: string, p: string) {
    exists i: nat | i <= |s| :: MatchesAt(s, p, i)
  }

  /** A three-part concatenation splits back into its parts at their lengths. */
  lemma ThreeParts(a: string, b: string, c: string)
    ensures var s := a + b + c;
      s[..|a|] == a && s[|a|..|s| - |c|] == b && s[|s| - |c|..] == c
  {
  }

  /** A string contains every one of its infixes. */
  lemma ContainsInfix(a: string, p: string, b: string)
    ensures Contains(a + p + b, p)
  {
    assert (a + p + b)[|a|..|a| + |p|] == p;
    assert MatchesAt(a + p + b, p, |a|);
  }

  /** Containment survives adding text on either side. */
  lemma ContainsWidened(a: string, s: string, b: string, p: string)
    requires Contains(s, p)
    ensures Contains(a + s + b, p)
  {
    var i: nat :| i <= |s| && MatchesAt(s, p, i);
    assert (a + s + b)[|a| + i..|a| + i + |p|] == s[i..i + |p|];
    assert MatchesAt(a + s + b, p, |a| + i);
  }

  /** One differing character rules out a match at `i`. */
  lemma MismatchAt(s: string, p: string, i: nat, m: nat)
    requires m < |p| && i + m < |s| && s[i + m] != p[m]
    ensures !MatchesAt(s, p, i)
  {
    if i + |p| <= |s| {
      assert s[i..i + |p|][m] == s[i + m];
    }
  }

  /** If a character of `p` never occurs in `s`, then `p` does not occur in `s`. */
  lemma AbsentChar(s: string, p: string, j: nat)
    requires j < |p|
    requires p[j] !in s
    ensures !Contains(s, p)
  {
    forall i: nat | i <= |s|
      ensures !MatchesAt(s, p, i)
    {
      if i + |p| <= |s| {
        assert s[i..i + |p|][j] == s[i + j];
      }
    }
  }

  /**
   * If the character `p[j]` occurs in `a + [c] + b` only at the one position
   * between `a` and `b`, the only place `p` could start is `|a| - j`; ruling
   * that out rules out `p`.
   */
  lemma AnchorChar(a: string, c: char, b: string, p: string, j: nat)
    requires j < |p| && p[j] == c
    requires c !in a && c !in b
    requires |a| < j || !MatchesAt(a + [c] + b, p, |a| - j)
    ensures !Contains(a + [c] + b, p)
  {
    var s := a + [c] + b;
    forall i: nat | i <= |s|
      ensures !MatchesAt(s, p, i)
    {
      if i + |p| <= |s| && i + j != |a| {
        assert s[i..i + |p|][j] == s[i + j];
        if i + j < |a| {
          assert s[i + j] == a[i + j];
        } else {
          assert s[i + j] == b[i + j - |a| - 1];
        }
      }
    }
  }

  /* ---------- ASCII case mapping: `lower()` and `upper()` ---------- */

  function LowerChar(c: char): char {
    if 'A' <= c <= 'Z' then (c as int + 32) as char else c
  }

  function UpperChar(c: char): char {
    if 'a' <= c <= 'z' then (c as int - 32) as char else c
  }

  function Lower(s: string): (r: string)
    ensures |r| == |s|
    ensures forall i | 0 <= i < |s| :: r[i] == LowerChar(s[i])
  {
    seq(|s|, i requires 0 <= i < |s| => LowerChar(s[i]))
  }

  function Upper(s: string): (r: string)
    ensures |r| == |s|
    ensures forall i | 0 <= i < |s| :: r[i] == UpperChar(s[i])
  {
    seq(|s|, i requires 0 <= i < |s| => UpperChar(s[i]))
  }

  /** Text without capitals is its own lower case. */
  lemma LowerOfLower(s: string)
    requires IsLower(s)
    ensures Lower(s) == s
  {
  }

  /** A character absent from `s` in both cases is absent from its lower case. */
  lemma LowerAbsent(s: string, c: char)
    requires !('A' <= c <= 'Z')
    requires c !in s
    requires 'a' <= c <= 'z' ==> UpperChar(c) !in s
    ensures c !in Lower(s)
  {
    forall i | 0 <= i < |s|
      ensures Lower(s)[i] != c
    {
      assert s[i] in s;
    }
  }

  /** `LowerAbsent` for text in two pieces, each checked on its own. */
  lemma LowerAbsentAppend(a: string, b: string, c: char)
    requires !('A' <= c <= 'Z')
    requires c !in a && c !in b
    requires 'a' <= c <= 'z' ==> UpperChar(c) !in a && UpperChar(c) !in b
    ensures c !in Lower(a + b)
  {
    LowerAbsent(a + b, c);
  }

  /** Case mapping works character by character. */
  lemma LowerAppend(a: string, b: string)
    ensures Lower(a + b) == Lower(a) + Lower(b)
  {
  }

  /**
   * `AnchorChar` for a lower-cased haystack: if the lower-case letter `c` is
   * in `a + [c] + b` only between `a` and `b` (in either case), and the
   * lower-cased text differs from `p` at offset `m` of the one place `p`
   * could start, then `p` is not in the lower-cased text.
   */
  lemma LowerAnchor(a: string, c: char, b: string, p: string, j: nat, m: nat)
    requires 'a' <= c <= 'z'
    requires c !in a && UpperChar(c) !in a && c !in b && UpperChar(c) !in b
    requires j < |p| && p[j] == c
    requires |a| < j || (m < |p| && |a| - j + m < |a| + 1 + |b| && LowerChar((a + [c] + b)[|a| - j + m]) != p[m])
    ensures !Contains(Lower(a + [c] + b), p)
  {
    LowerAppend(a + [c], b);
    LowerAppend(a, [c]);
    assert Lower([c]) == [c];
    LowerAbsent(a, c);
    LowerAbsent(b, c);
    if |a| >= j {
      MismatchAt(Lower(a + [c] + b), p, |a| - j, m);
    }
    AnchorChar(Lower(a), c, Lower(b), p, j);
  }

  predicate IsLower(s: string) {
    forall i | 0 <= i < |s| :: !('A' <= s[i] <= 'Z')
  }

  /** Lower-casing leaves no capital letter and is idempotent. */
  lemma LowerIsLower(s: string)
    ensures IsLower(Lower(s))
    ensures Lower(Lower(s)) == Lower(s)
  {
  }

  /**
   * Upper-casing leaves no small letter, is idempotent, and loses nothing
   * a lower-cased comparison would see: `s.upper().lower() == s.lower()`.
   */
  lemma UpperIsUpper(s: string)
    ensures forall i | 0 <= i < |Upper(s)| :: !('a' <= Upper(s)[i] <= 'z')
    ensures Upper(Upper(s)) == Upper(s)
    ensures Lower(Upper(s)) == Lower(s)
    ensures Upper(Lower(s)) == Upper(s)
  {
  }

  /**
   * Lower-casing the haystack keeps every occurrence of a pattern that is
   * already lower case: `p in s` implies `p in s.lower()`.
   */
  lemma ContainsLower(s: string, p: string)
    requires IsLower(p)
    requires Contains(s, p)
    ensures Contains(Lower(s), p)
  {
    var i: nat :| i <= |s| && MatchesAt(s, p, i);
    assert Lower(s)[i..i + |p|] == p by {
      forall n | 0 <= n < |p|
        ensures Lower(s)[i + n] == p[n]
      {
        assert s[i..i + |p|][n] == s[i + n];
      }
    }
    assert MatchesAt(Lower(s), p, i);
  }

  /* ---------- `sep.join(parts)` ---------- */

  function Join(sep: string, parts: seq<string>): string
    decreases |parts|
  {
    if |parts| == 0 then ""
    else if |parts| == 1 then parts[0]
    else parts[0] + sep + Join(sep, parts[1..])
  }

  /** Joining a concatenation of two non-empty lists puts one separator between their joins. */
  lemma {:induction false} JoinAppend(sep: string, a: seq<string>, b: seq<string>)
    requires |a| > 0 && |b| > 0
    ensures Join(sep, a + b) == Join(sep, a) + sep + Join(sep, b)
    decreases |a|
  {
    if |a| == 1 {
      assert (a + b)[1..] == b;
    } else {
      assert (a + b)[1..] == a[1..] + b;
      JoinAppend(sep, a[1..], b);
    }
  }

  /** A joined list begins with its first element. */
  lemma {:induction false} JoinStartsWith(sep: string, parts: seq<string>)
    requires |parts| > 0
    ensures |parts[0]| <= |Join(sep, parts)|
    ensures Join(sep, parts)[..|parts[0]|] == parts[0]
  {
  }

  /** Every element of a joined list appears in the joined text. */
  lemma {:induction false} JoinContainsPart(sep: string, parts: seq<string>, k: nat)
    requires k < |parts|
    ensures Contains(Join(sep, parts), parts[k])
    decreases |parts|
  {
    if |parts| == 1 {
      ContainsInfix("", parts[0], "");
      assert "" + parts[0] + "" == parts[0];
    } else if k == 0 {
      ContainsInfix("", parts[0], sep + Join(sep, parts[1..]));
      assert "" + parts[0] + (sep + Join(sep, parts[1..])) == Join(sep, parts);
    } else {
      JoinContainsPart(sep, parts[1..], k - 1);
      ContainsWidened(parts[0] + sep, Join(sep, parts[1..]), "", parts[k]);
      assert parts[0] + sep + Join(sep, parts[1..]) + "" == Join(sep, parts);
    }
  }

  /** The concatenation of a list of lists, in order. */
  function Flatten<T>(groups: seq<seq<T>>): seq<T>
    decreases |groups|
  {
    if |groups| == 0 then [] else groups[0] + Flatten(groups[1..])
  }

  /** Each group joined on its own. */
  function JoinEach(sep: string, groups: seq<seq<string>>): (r: seq<string>)
    ensures |r| == |groups|
    ensures forall i | 0 <= i < |groups| :: r[i] == Join(sep, groups[i])
  {
    seq(|groups|, i requires 0 <= i < |groups| => Join(sep, groups[i]))
  }

  /**
   * Joining the lines of several non-empty groups is joining the groups'
   * own joins: each group's text appears whole, in order, separated by one
   * separator.
   */
  lemma {:induction false} JoinFlatten(sep: string, groups: seq<seq<string>>)
    requires forall i | 0 <= i < |groups| :: |groups[i]| > 0
    ensures Join(sep, Flatten(groups)) == Join(sep, JoinEach(sep, groups))
    decreases |groups|
  {
    if |groups| == 1 {
      assert Flatten(groups) == groups[0] + [];
      assert groups[0] + [] == groups[0];
    } else if |groups| > 1 {
      var rest := groups[1..];
      assert Flatten(rest) == rest[0] + Flatten(rest[1..]);
      JoinAppend(sep, groups[0], Flatten(rest));
      JoinFlatten(sep, rest);
      assert JoinEach(sep, groups)[1..] == JoinEach(sep, rest);
    }
  }

  /* ---------- `c * n` ---------- */

  /** Python's `c * n`: `n` copies, and the empty string for `n <= 0`. */
  function Repeat(c: char, n: int): (r: string)
    ensures |r| == if n <= 0 then 0 else n
    ensures forall i | 0 <= i < |r| :: r[i] == c
    decreases if n <= 0 then 0 else n
  {
    if n <= 0 then "" else [c] + Repeat(c, n - 1)
  }

  /* ---------- `replace` for single characters ---------- */

  /** `s.replace(a, b)` for one-character `a` and `b`. */
  function ReplaceChar(s: string, a: char, b: char): (r: string)
    ensures |r| == |s|
    ensures forall i | 0 <= i < |s| :: r[i] == (if s[i] == a then b else s[i])
  {
    seq(|s|, i requires 0 <= i < |s| => if s[i] == a then b else s[i])
  }

  /**
   * `s.replace(a, b)` for single characters: `a` is gone (unless it is `b`),
   * `b` is present exactly when `a` or `b` was, and every other character
   * is present exactly when it was.
   */
  lemma ReplaceCharMembers(s: string, a: char, b: char)
    ensures a != b ==> a !in ReplaceChar(s, a, b)
    ensures b in ReplaceChar(s, a, b) <==> a in s || b in s
    ensures forall x | x != a && x != b :: x in ReplaceChar(s, a, b) <==> x in s
  {
    var r := ReplaceChar(s, a, b);
    forall x
      ensures x in s ==> (if x == a then b else x) in r
    {
      if x in s {
        var i :| 0 <= i < |s| && s[i] == x;
        assert r[i] == (if x == a then b else x);
      }
    }
    forall x | x in r
      ensures (x in s && x != a) || (x == b && a in s)
    {
      var i :| 0 <= i < |r| && r[i] == x;
      assert s[i] in s;
    }
  }

  /** Number of occurrences of `c` in `s`. */
  function Count(s: string, c: char): (n: nat)
    ensures n <= |s|
    ensures n == 0 <==> c !in s
  {
    if |s| == 0 then 0 else (if s[0] == c then 1 else 0) + Count(s[1..], c)
  }

  /** `s.replace(c, "")`: every occurrence of `c` removed, the rest kept in order. */
  function RemoveChar(s: string, c: char): (r: string)
    ensures c !in r
    ensures |r| == |s| - Count(s, c)
    ensures forall x :: x in r <==> x in s && x != c
  {
    if |s| == 0 then ""
    else if s[0] == c then RemoveChar(s[1..], c)
    else [s[0]] + RemoveChar(s[1..], c)
  }

  /**
   * Removal works piece by piece, so the characters it keeps stay in their
   * order: removing from `s + t` is removing from `s`, then from `t`.
   */
  lemma {:induction false} RemoveCharAppend(s: string, t: string, c: char)
    ensures RemoveChar(s + t, c) == RemoveChar(s, c) + RemoveChar(t, c)
    decreases |s|
  {
    if |s| > 0 {
      assert (s + t)[1..] == s[1..] + t;
      RemoveCharAppend(s[1..], t, c);
    } else {
      assert s + t == t;
    }
  }

  /* ---------- `strip()` ---------- */

  /** Python's `str.isspace()` for one character. */
  predicate IsSpace(c: char) {
    || c == ' ' || '\t' <= c <= '\r' || '\U{001C}' <= c <= '\U{001F}'
    || c == '\U{0085}' || c == '\U{00A0}' || c == '\U{1680}' || '\U{2000}' <= c <= '\U{200A}'
    || c == '\U{2028}' || c == '\U{2029}' || c == '\U{202F}' || c == '\U{205F}' || c == '\U{3000}'
  }

  function TrimStart(s: string): (r: string)
    ensures |r| <= |s| && r == s[|s| - |r|..]
    ensures |r| > 0 ==> !IsSpace(r[0])
    ensures forall i | 0 <= i < |s| - |r| :: IsSpace(s[i])
  {
    if |s| > 0 && IsSpace(s[0]) then TrimStart(s[1..]) else s
  }

  function TrimEnd(s: string): (r: string)
    ensures |r| <= |s| && r == s[..|r|]
    ensures |r| > 0 ==> !IsSpace(r[|r| - 1])
    ensures forall i | |r| <= i < |s| :: IsSpace(s[i])
  {
    if |s| > 0 && IsSpace(s[|s| - 1]) then TrimEnd(s[..|s| - 1]) else s
  }

  /** `s.strip()`: leading and trailing whitespace removed. */
  function Strip(s: string): string {
    TrimEnd(TrimStart(s))
  }

  /** Trimming the front removes only whitespace. */
  lemma TrimStartKeepsNonSpace(s: string, c: char)
    requires !IsSpace(c)
    ensures c in TrimStart(s) <==> c in s
  {
    var t := TrimStart(s);
    if c in s {
      var i :| 0 <= i < |s| && s[i] == c;
      assert t[i - (|s| - |t|)] == c;
    }
  }

  /** Trimming the back removes only whitespace. */
  lemma TrimEndKeepsNonSpace(s: string, c: char)
    requires !IsSpace(c)
    ensures c in TrimEnd(s) <==> c in s
  {
    var r := TrimEnd(s);
    if c in s {
      var i :| 0 <= i < |s| && s[i] == c;
      assert r[i] == c;
    }
  }

  /** Stripping removes only whitespace: every other character of `s` survives it. */
  lemma StripKeepsNonSpace(s: string, c: char)
    requires !IsSpace(c)
    ensures c in Strip(s) <==> c in s
  {
    TrimStartKeepsNonSpace(s, c);
    TrimEndKeepsNonSpace(TrimStart(s), c);
  }

  /* ---------- `split(sep)` for a one-character separator ---------- */

  /** Python's `s.split(c)`: the pieces between separators, including empty ones. */
  function Split(s: string, c: char): (parts: seq<string>)
    ensures |parts| > 0
    decreases |s|
  {
    if |s| == 0 then [""]
    else
      var rest := Split(s[1..], c);
      if s[0] == c then [""] + rest else [[s[0]] + rest[0]] + rest[1..]
  }

  /** `s.split(c)` has one more piece than `s` has separators. */
  lemma {:induction false} SplitLength(s: string, c: char)
    ensures |Split(s, c)| == Count(s, c) + 1
    decreases |s|
  {
    if |s| > 0 {
      SplitLength(s[1..], c);
    }
  }

  /** Joining the pieces of a split with the separator gives the string back. */
  lemma {:induction false} SplitJoin(s: string, c: char)
    ensures Join([c], Split(s, c)) == s
    decreases |s|
  {
    if |s| > 0 {
      var rest := Split(s[1..], c);
      SplitJoin(s[1..], c);
      if s[0] == c {
        assert ([""] + rest)[1..] == rest;
        assert s == [c] + s[1..];
      } else if |rest| == 1 {
        assert s == [s[0]] + s[1..];
      } else {
        var head := [[s[0]] + rest[0]] + rest[1..];
        assert head[1..] == rest[1..];
        assert Join([c], rest) == rest[0] + [c] + Join([c], rest[1..]);
        assert s == [s[0]] + s[1..];
      }
    }
  }

  /* ---------- `s[:n]` ---------- */

  /** Python's `xs[:n]` for `n >= 0`: the first `n` items, or all if there are fewer. */
  function Take<T>(xs: seq<T>, n: nat): (r: seq<T>)
    ensures |r| == if |xs| < n then |xs| else n
    ensures r == xs[..|r|]
  {
    if |xs| <= n then xs else xs[..n]
  }
}
