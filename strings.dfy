/**
  * The few string operations of the JavaScript runtime that the installer
  * relies on: `indexOf`, `replace` with a string pattern, `Array.prototype.join`,
  * the conversion of integers to decimal text, and a splitter used to state
  * what the joined text still contains.
  */
module Strings {

  /** `p` occurs in `s` starting at index `i`. */
  predicate OccursAt(p: string, s: string, i: int) {
    0 <= i && i + |p| <= |s| && s[i..i + |p|] == p
  }

  /** `p` occurs somewhere in `s`. */
  predicate Contains(s: string, p: string) {
    exists i | 0 <= i <= |s| :: OccursAt(p, s, i)
  }

  /** `s.indexOf(p, from)`: the first index at or after `from` where `p` occurs, or -1. */
  function IndexFrom(s: string, p: string, from: nat): (r: int)
    decreases |s| - from
    ensures r == -1 || (from <= r && OccursAt(p, s, r))
    ensures forall j :: from <= j && (r == -1 || j < r) ==> !OccursAt(p, s, j)
  {
    if from + |p| > |s| then -1
    else if s[from..from + |p|] == p then from
    else IndexFrom(s, p, from + 1)
  }

  /** `s.indexOf(p)`. */
  function IndexOf(s: string, p: string): (r: int)
    ensures r == -1 <==> !Contains(s, p)
    ensures r != -1 ==> OccursAt(p, s, r) && forall j :: 0 <= j < r ==> !OccursAt(p, s, j)
  {
    IndexFrom(s, p, 0)
  }

  /** The first occurrence is the only occurrence with no occurrence before it. */
  lemma IndexOfIsFirst(s: string, p: string, k: int)
    requires OccursAt(p, s, k)
    requires forall j :: 0 <= j < k ==> !OccursAt(p, s, j)
    ensures IndexOf(s, p) == k
  {
  }

  /**
    * The replacement text that `String.prototype.replace` inserts for a
    * match (GetSubstitution of the ECMAScript Language Specification, for a
    * string pattern, which has no capture groups): `$$` stands for `$`, `$&`
    * for the matched text, `` $` `` for the text before the match and `$'`
    * for the text after it; every other character, `$` included, stands for
    * itself.
    */
  function Substitution(matched: string, before: string, after: string, r: string): (out: string)
    decreases |r|
    ensures '$' !in r ==> out == r
  {
    if |r| == 0 then ""
    else if r[0] == '$' && |r| >= 2 && r[1] == '$' then "$" + Substitution(matched, before, after, r[2..])
    else if r[0] == '$' && |r| >= 2 && r[1] == '&' then matched + Substitution(matched, before, after, r[2..])
    else if r[0] == '$' && |r| >= 2 && r[1] == '`' then before + Substitution(matched, before, after, r[2..])
    else if r[0] == '$' && |r| >= 2 && r[1] == '\'' then after + Substitution(matched, before, after, r[2..])
    else [r[0]] + Substitution(matched, before, after, r[1..])
  }

  /** A character absent from every input of a substitution is absent from its output. */
  lemma {:induction false} SubstitutionAvoids(c: char, matched: string, before: string, after: string, r: string)
    requires c !in matched && c !in before && c !in after && c !in r
    ensures c !in Substitution(matched, before, after, r)
    decreases |r|
  {
    if |r| == 0 {
    } else if r[0] == '$' && |r| >= 2 && (r[1] == '$' || r[1] == '&' || r[1] == '`' || r[1] == '\'') {
      SubstitutionAvoids(c, matched, before, after, r[2..]);
    } else {
      SubstitutionAvoids(c, matched, before, after, r[1..]);
    }
  }

  /** `s.replace(p, v)` for a string pattern `p`: only the first occurrence is replaced. */
  function ReplaceFirst(s: string, p: string, v: string): string {
    var k := IndexOf(s, p);
    if k < 0 then s
    else s[..k] + Substitution(p, s[..k], s[k + |p|..], v) + s[k + |p|..]
  }

  /** With no occurrence of the pattern, `replace` returns its input. */
  lemma ReplaceFirstAbsent(s: string, p: string, v: string)
    requires forall j :: 0 <= j <= |s| ==> !OccursAt(p, s, j)
    ensures ReplaceFirst(s, p, v) == s
  {
    assert !Contains(s, p);
  }

  /**
    * With a `$`-free replacement, `replace` cuts out the first occurrence
    * and puts the replacement in its place.
    */
  lemma ReplaceFirstAt(s: string, p: string, v: string, k: int)
    requires '$' !in v
    requires OccursAt(p, s, k)
    requires forall j :: 0 <= j < k ==> !OccursAt(p, s, j)
    ensures ReplaceFirst(s, p, v) == s[..k] + v + s[k + |p|..]
  {
    IndexOfIsFirst(s, p, k);
  }

  /** A character absent from the subject and the replacement is absent from the result. */
  lemma ReplaceFirstAvoids(c: char, s: string, p: string, v: string)
    requires c !in s && c !in v
    ensures c !in ReplaceFirst(s, p, v)
  {
    var k := IndexOf(s, p);
    if k >= 0 {
      assert s == s[..k] + s[k..];
      assert s[k..] == s[k..k + |p|] + s[k + |p|..];
      SubstitutionAvoids(c, p, s[..k], s[k + |p|..], v);
    }
  }

  /**
    * Replacing the first occurrence of `p` by `v` taken literally: what
    * `s.replace(p, v)` is meant to do, and does when `v` holds no `$`.
    */
  function ReplaceVerbatim(s: string, p: string, v: string): (r: string)
    ensures !Contains(s, p) ==> r == s
    ensures Contains(s, p) ==> exists k | 0 <= k <= |s| ::
      OccursAt(p, s, k) && (forall j | 0 <= j < k :: !OccursAt(p, s, j)) && r == s[..k] + v + s[k + |p|..]
  {
    var k := IndexOf(s, p);
    if k < 0 then s else s[..k] + v + s[k + |p|..]
  }

  /** Without a `$` in the replacement, `replace` is the verbatim replacement. */
  lemma ReplaceFirstVerbatim(s: string, p: string, v: string)
    requires '$' !in v
    ensures ReplaceFirst(s, p, v) == ReplaceVerbatim(s, p, v)
  {
  }

  /**
    * The replacement `$&` stands for the matched text, so `replace` with it
    * gives its subject back unchanged, whether or not the pattern occurs.
    */
  lemma ReplaceFirstMatchPattern(s: string, p: string)
    ensures ReplaceFirst(s, p, "$&") == s
  {
    var k := IndexOf(s, p);
    if k >= 0 {
      SubstitutionMatched(p, s[..k], s[k + |p|..]);
      assert s == s[..k] + s[k..k + |p|] + s[k + |p|..];
    }
  }

  lemma SubstitutionMatched(matched: string, before: string, after: string)
    ensures Substitution(matched, before, after, "$&") == matched
  {
    var r := "$&";
    assert |r| == 2 && r[0] == '$' && r[1] == '&';
    assert r[2..] == [];
    assert Substitution(matched, before, after, r[2..]) == "";
  }

  /** `parts.join(sep)`. */
  function Join(parts: seq<string>, sep: string): string
    decreases |parts|
  {
    if |parts| == 0 then ""
    else if |parts| == 1 then parts[0]
    else parts[0] + sep + Join(parts[1..], sep)
  }

  /** The pieces of `s` between the occurrences of `c` (`s.split(c)` for a one-character separator). */
  function Split(s: string, c: char): (parts: seq<string>)
    decreases |s|
    ensures |parts| >= 1
  {
    if |s| == 0 then [""]
    else if s[0] == c then [""] + Split(s[1..], c)
    else
      var rest := Split(s[1..], c);
      [[s[0]] + rest[0]] + rest[1..]
  }

  /** Text without the separator splits into itself. */
  lemma {:induction false} SplitNone(s: string, c: char)
    requires c !in s
    ensures Split(s, c) == [s]
    decreases |s|
  {
    if |s| > 0 {
      SplitNone(s[1..], c);
      assert [s[0]] + s[1..] == s;
    }
  }

  /** Splitting at the first separator peels off the text in front of it. */
  lemma {:induction false} SplitAfter(a: string, c: char, b: string)
    requires c !in a
    ensures Split(a + [c] + b, c) == [a] + Split(b, c)
    decreases |a|
  {
    if |a| == 0 {
      assert a + [c] + b == [c] + b;
      assert ([c] + b)[1..] == b;
    } else {
      assert (a + [c] + b)[1..] == a[1..] + [c] + b;
      SplitAfter(a[1..], c, b);
      assert [a[0]] + a[1..] == a;
    }
  }

  /**
    * Joining pieces that do not contain the separator character and
    * splitting the result at that character gives the pieces back.
    */
  lemma {:induction false} SplitJoin(parts: seq<string>, c: char)
    requires |parts| >= 1
    requires forall k | 0 <= k < |parts| :: c !in parts[k]
    ensures Split(Join(parts, [c]), c) == parts
    decreases |parts|
  {
    if |parts| == 1 {
      SplitNone(parts[0], c);
    } else {
      SplitJoin(parts[1..], c);
      SplitAfter(parts[0], c, Join(parts[1..], [c]));
    }
  }

  /** Splitting a join followed by one more separator gives the pieces, then the pieces of what follows. */
  lemma {:induction false} SplitJoinThen(parts: seq<string>, c: char, rest: string)
    requires |parts| >= 1
    requires forall k | 0 <= k < |parts| :: c !in parts[k]
    ensures Split(Join(parts, [c]) + [c] + rest, c) == parts + Split(rest, c)
    decreases |parts|
  {
    if |parts| == 1 {
      SplitAfter(parts[0], c, rest);
    } else {
      var head, tail := parts[0], Join(parts[1..], [c]);
      var after := tail + [c] + rest;
      assert Join(parts, [c]) == head + [c] + tail;
      assert Join(parts, [c]) + [c] + rest == head + [c] + after;
      SplitAfter(head, c, after);
      SplitJoinThen(parts[1..], c, rest);
      var more := Split(rest, c);
      assert [head] + (parts[1..] + more) == [head] + parts[1..] + more;
      assert [head] + parts[1..] == parts;
    }
  }

  /** A character that occurs neither in the pieces nor in the separator does not occur in the join. */
  lemma {:induction false} JoinAvoids(parts: seq<string>, sep: string, c: char)
    requires c !in sep
    requires forall k | 0 <= k < |parts| :: c !in parts[k]
    ensures c !in Join(parts, sep)
    decreases |parts|
  {
    if |parts| > 1 {
      JoinAvoids(parts[1..], sep, c);
    }
  }

  /**
    * An occurrence in a join of a pattern that does not contain the
    * separator lies inside one of the pieces.
    */
  lemma {:induction false} JoinOccurrence(parts: seq<string>, c: char, p: string, i: int)
    requires |parts| >= 1
    requires c !in p
    requires OccursAt(p, Join(parts, [c]), i)
    ensures exists k, j | 0 <= k < |parts| && 0 <= j <= |parts[k]| :: OccursAt(p, parts[k], j)
    decreases |parts|
  {
    if |parts| == 1 {
      assert OccursAt(p, parts[0], i);
    } else {
      var s := Join(parts, [c]);
      var n := |parts[0]|;
      assert s == parts[0] + [c] + Join(parts[1..], [c]);
      SeparatorOutside(p, s, i, n, c);
      if i + |p| <= n {
        assert s[i..i + |p|] == parts[0][i..i + |p|];
        assert OccursAt(p, parts[0], i);
      } else {
        var rest := Join(parts[1..], [c]);
        assert s[i..i + |p|] == rest[i - n - 1..i - n - 1 + |p|];
        JoinOccurrence(parts[1..], c, p, i - n - 1);
        var k, j :| 0 <= k < |parts[1..]| && 0 <= j <= |parts[1..][k]| && OccursAt(p, parts[1..][k], j);
        assert OccursAt(p, parts[k + 1], j);
      }
    }
  }

  /** An occurrence of a pattern that lacks `c` does not cover a position holding `c`. */
  lemma SeparatorOutside(p: string, s: string, i: int, n: int, c: char)
    requires c !in p && OccursAt(p, s, i)
    requires 0 <= n < |s| && s[n] == c
    ensures i + |p| <= n || n < i
  {
    if i <= n < i + |p| {
      CharOfOccurrence(p, s, i, n);
      assert false;
    }
  }

  /** Inside an occurrence, the text and the pattern agree character by character. */
  lemma CharOfOccurrence(p: string, s: string, i: int, n: int)
    requires OccursAt(p, s, i) && i <= n < i + |p|
    ensures p[n - i] == s[n]
  {
    assert s[i..i + |p|][n - i] == s[n];
  }

  /** The decimal digit for `d`. */
  function Digit(d: int): (c: char)
    requires 0 <= d < 10
    ensures '0' <= c <= '9' && DigitValue(c) == d
  {
    ('0' as int + d) as char
  }

  /** The value of a decimal digit. */
  function DigitValue(c: char): int {
    c as int - '0' as int
  }

  /** The number a string of decimal digits denotes, most significant digit first. */
  function DigitsValue(s: string): int
    decreases |s|
  {
    if |s| == 0 then 0 else DigitsValue(s[..|s| - 1]) * 10 + DigitValue(s[|s| - 1])
  }

  /**
    * `String(n)` for a natural number `n`: its decimal numeral, which is
    * `"0"` for zero and otherwise starts with a non-zero digit.
    */
  function DecimalNat(n: nat): (r: string)
    decreases n
    ensures |r| >= 1
    ensures forall k | 0 <= k < |r| :: '0' <= r[k] <= '9'
    ensures n == 0 ==> r == "0"
    ensures n != 0 ==> r[0] != '0'
  {
    if n < 10 then [Digit(n)] else DecimalNat(n / 10) + [Digit(n % 10)]
  }

  /** The numeral of `n` reads back as `n`. */
  lemma {:induction false} DecimalNatValue(n: nat)
    ensures DigitsValue(DecimalNat(n)) == n
    decreases n
  {
    var r := DecimalNat(n);
    if n >= 10 {
      DecimalNatValue(n / 10);
      assert r[..|r| - 1] == DecimalNat(n / 10);
    }
  }

  /** `String(n)` for an integer `n`: its decimal numeral, with a minus sign when negative. */
  function Decimal(n: int): (r: string)
  {
    if n < 0 then "-" + DecimalNat(-n) else DecimalNat(n)
  }
}
