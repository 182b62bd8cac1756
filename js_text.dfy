/** The JavaScript string built-ins the extension relies on, over strings of
    Unicode scalar values: truthiness and `||` defaulting, `trim`, `startsWith`,
    `indexOf`, `replace` with a string pattern, `join`, and the decimal
    rendering of a non-negative integer in a template literal. */
module JsText {
  import opened Wrappers

  // ---------------------------------------------------------------------------
  // Truthiness and `||`
  // ---------------------------------------------------------------------------

  /** A possibly missing string is truthy when it is present and non-empty. */
  predicate Truthy(o: Option<string>)
  {
    o.Some? && o.value != ""
  }

  /** `o || fallback` for a possibly missing string. */
  function Or(o: Option<string>, fallback: string): (r: string)
    ensures Truthy(o) ==> r == o.value
    ensures !Truthy(o) ==> r == fallback
    ensures fallback != "" ==> r != ""
  {
    if Truthy(o) then o.value else fallback
  }

  /** How `${o}` renders a possibly missing string inside a template literal:
      a missing value becomes the text `undefined`, an empty string stays
      empty. */
  function Interpolate(o: Option<string>): (r: string)
    ensures o.Some? ==> r == o.value
    ensures o.None? ==> r == "undefined"
  {
    match o
    case Some(s) => s
    case None => "undefined"
  }

  // ---------------------------------------------------------------------------
  // trim
  // ---------------------------------------------------------------------------

  /** ECMAScript WhiteSpace and LineTerminator code points, the characters
      `String.prototype.trim` removes from both ends: tab, vertical tab, form
      feed, the space separators (category Zs), the byte order mark, line feed,
      carriage return and the line and paragraph separators. */
  const WhiteSpace: set<char> := {
    '\t', '\U{000B}', '\U{000C}', ' ', '\U{00A0}', '\U{FEFF}', '\U{1680}',
    '\U{2000}', '\U{2001}', '\U{2002}', '\U{2003}', '\U{2004}', '\U{2005}',
    '\U{2006}', '\U{2007}', '\U{2008}', '\U{2009}', '\U{200A}',
    '\U{202F}', '\U{205F}', '\U{3000}',
    '\n', '\r', '\U{2028}', '\U{2029}'
  }

  predicate IsWhiteSpace(c: char)
  {
    c in WhiteSpace
  }

  predicate AllWhiteSpace(s: string)
  {
    forall i :: 0 <= i < |s| ==> IsWhiteSpace(s[i])
  }

  /** Neither end of `s` is white space. */
  predicate IsTrimmed(s: string)
  {
    s == [] || (!IsWhiteSpace(s[0]) && !IsWhiteSpace(s[|s| - 1]))
  }

  /** Drops the leading white space: the result is the suffix of `s` that
      starts at its first other character. */
  function TrimStart(s: string): (r: string)
    ensures |r| <= |s| && r == s[|s| - |r|..]
    ensures AllWhiteSpace(s[..|s| - |r|])
    ensures r == [] || !IsWhiteSpace(r[0])
    decreases |s|
  {
    if s == [] || !IsWhiteSpace(s[0]) then s
    else
      var t := s[1..];
      var r := TrimStart(t);
      assert s[|s| - |r|..] == t[|t| - |r|..];
      forall i | 0 <= i < |s| - |r| ensures IsWhiteSpace(s[i]) {
        if i > 0 {
          assert s[i] == t[..|t| - |r|][i - 1];
        }
      }
      r
  }

  /** Drops the trailing white space: the result is the prefix of `s` that
      ends at its last other character. */
  function TrimEnd(s: string): (r: string)
    ensures |r| <= |s| && r == s[..|r|]
    ensures AllWhiteSpace(s[|r|..])
    ensures r == [] || !IsWhiteSpace(r[|r| - 1])
    decreases |s|
  {
    if s == [] || !IsWhiteSpace(s[|s| - 1]) then s
    else
      var r := TrimEnd(s[..|s| - 1]);
      assert s[|r|..] == s[..|s| - 1][|r|..] + [s[|s| - 1]];
      r
  }

  /** `s.trim()`: `s` without the white space at both ends; it is empty
      exactly when `s` is all white space. */
  function Trim(s: string): (r: string)
    ensures IsTrimmed(r)
    ensures r == [] <==> AllWhiteSpace(s)
  {
    var t := TrimStart(s);
    var r := TrimEnd(t);
    if r == [] then
      assert s == s[..|s| - |t|] + t;
      r
    else
      assert r[0] == t[0] == s[|s| - |t|];
      r
  }

  /** What `trim` keeps is one contiguous piece of `s`, and everything it drops
      is white space. */
  lemma TrimKeepsInfix(s: string)
    ensures var r := Trim(s);
            exists i :: 0 <= i <= |s| - |r| && r == s[i..i + |r|]
                        && AllWhiteSpace(s[..i]) && AllWhiteSpace(s[i + |r|..])
  {
    var t := TrimStart(s);
    var r := TrimEnd(t);
    assert r == Trim(s);
    var i := InfixBetweenWhiteSpace(s, t, r);
    assert 0 <= i <= |s| - |r| && r == s[i..i + |r|] && AllWhiteSpace(s[..i]) && AllWhiteSpace(s[i + |r|..]);
  }

  /** A prefix `r` of a suffix `t` of `s`, with white space dropped on both
      sides, is a contiguous piece of `s` between white space. */
  lemma InfixBetweenWhiteSpace(s: string, t: string, r: string) returns (i: nat)
    requires |t| <= |s| && t == s[|s| - |t|..] && AllWhiteSpace(s[..|s| - |t|])
    requires |r| <= |t| && r == t[..|r|] && AllWhiteSpace(t[|r|..])
    ensures i <= |s| - |r| && r == s[i..i + |r|]
    ensures AllWhiteSpace(s[..i]) && AllWhiteSpace(s[i + |r|..])
  {
    i := |s| - |t|;
    assert r == s[i..i + |r|];
    assert s[i + |r|..] == t[|r|..];
  }

  lemma {:induction false} TrimStartDrops(w: string, u: string)
    requires AllWhiteSpace(w)
    requires u == [] || !IsWhiteSpace(u[0])
    ensures TrimStart(w + u) == u
    decreases |w|
  {
    if w != [] {
      assert (w + u)[1..] == w[1..] + u;
      TrimStartDrops(w[1..], u);
    } else {
      assert w + u == u;
    }
  }

  lemma {:induction false} TrimEndDrops(u: string, w: string)
    requires AllWhiteSpace(w)
    requires u == [] || !IsWhiteSpace(u[|u| - 1])
    ensures TrimEnd(u + w) == u
    decreases |w|
  {
    if w != [] {
      assert (u + w)[..|u + w| - 1] == u + w[..|w| - 1];
      TrimEndDrops(u, w[..|w| - 1]);
    } else {
      assert u + w == u;
    }
  }

  /** `trim` removes exactly the white space around a trimmed string. */
  lemma TrimSurrounded(w1: string, t: string, w2: string)
    requires AllWhiteSpace(w1) && AllWhiteSpace(w2) && IsTrimmed(t)
    ensures Trim(w1 + t + w2) == t
  {
    if t == [] {
      assert w1 + t + w2 == w1 + w2;
      assert AllWhiteSpace(w1 + w2);
    } else {
      assert w1 + t + w2 == w1 + (t + w2);
      TrimStartDrops(w1, t + w2);
      TrimEndDrops(t, w2);
    }
  }

  /** Trimming twice is trimming once. */
  lemma TrimIdempotent(s: string)
    ensures Trim(Trim(s)) == Trim(s)
  {
    var t := Trim(s);
    assert TrimStart(t) == t;
    assert TrimEnd(t) == t;
  }

  // ---------------------------------------------------------------------------
  // startsWith, indexOf
  // ---------------------------------------------------------------------------

  /** `s.startsWith(p)`: `s` is `p` followed by the rest of `s`. */
  predicate StartsWith(s: string, p: string)
    ensures StartsWith(s, p) <==> |p| <= |s| && s == p + s[|p|..]
  {
    |p| <= |s| && s[..|p|] == p
  }

  /** `p` occurs in `s` at index `i`. */
  predicate OccursAt(s: string, p: string, i: nat)
  {
    i + |p| <= |s| && s[i..i + |p|] == p
  }

  /** `s.indexOf(p)`, with `None` for -1: the first index at which `p` occurs. */
  function IndexOf(s: string, p: string): (r: Option<nat>)
    ensures r.Some? ==> OccursAt(s, p, r.value)
    ensures r.Some? ==> forall j :: 0 <= j < r.value ==> !OccursAt(s, p, j)
    ensures r.None? ==> forall j: nat :: !OccursAt(s, p, j)
    decreases |s|
  {
    if |s| < |p| then None
    else if s[..|p|] == p then Some(0)
    else
      var rest := IndexOf(s[1..], p);
      assert forall j: nat | 0 < j :: OccursAt(s, p, j) == OccursAt(s[1..], p, j - 1) by {
        forall j: nat | 0 < j ensures OccursAt(s, p, j) == OccursAt(s[1..], p, j - 1) {
          if j + |p| <= |s| {
            assert s[1..][j - 1..j - 1 + |p|] == s[j..j + |p|];
          }
        }
      }
      assert !OccursAt(s, p, 0);
      match rest
      case Some(i) => Some(i + 1)
      case None => None
  }

  /** A pattern whose first character is absent from `s` does not occur in it. */
  lemma AbsentFirstChar(s: string, p: string)
    requires |p| > 0 && p[0] !in s
    ensures forall j: nat :: !OccursAt(s, p, j)
  {
    forall j: nat | j + |p| <= |s| ensures !OccursAt(s, p, j) {
      assert s[j..j + |p|][0] == s[j];
    }
  }

  /** When the first character of `p` does not occur in `a`, the first
      occurrence of `p` in `a + p + z` is right after `a`. */
  lemma FirstOccurrenceAfter(a: string, p: string, z: string)
    requires |p| > 0 && p[0] !in a
    ensures IndexOf(a + p + z, p) == Some(|a|)
  {
    var s := a + p + z;
    assert OccursAt(s, p, |a|) by { assert s[|a|..|a| + |p|] == p; }
    forall j: nat | j < |a| ensures !OccursAt(s, p, j) {
      assert j + |p| <= |s| ==> s[j..j + |p|][0] == a[j];
    }
  }

  /** When `p` starts with a character that `x` lacks, does not occur in `c`,
      and shares no character with the non-empty `y`, the first occurrence of
      `p` in `x + c + y + p + z` is the one right after `y`: no occurrence
      can start in `x` or `y`, lie inside `c`, or run from `c` into `y`. */
  lemma FirstOccurrenceAfterSeparator(x: string, c: string, y: string, p: string, z: string)
    requires |p| > 0 && p[0] !in x
    requires forall j: nat :: !OccursAt(c, p, j)
    requires |y| > 0 && forall k :: 0 <= k < |y| ==> y[k] !in p
    ensures IndexOf(x + c + y + p + z, p) == Some(|x + c + y|)
  {
    var s := x + c + y + p + z;
    var n := |x + c + y|;
    assert OccursAt(s, p, n) by { assert s[n..n + |p|] == p; }
    forall j: nat | j < n ensures !OccursAt(s, p, j) {
      if j + |p| <= |s| {
        var w := s[j..j + |p|];
        if j < |x| {
          assert w[0] == x[j];
        } else if j + |p| <= |x| + |c| {
          assert w == c[j - |x|..j - |x| + |p|];
          assert !OccursAt(c, p, j - |x|);
        } else if j < |x| + |c| {
          assert w[|x| + |c| - j] == y[0];
        } else {
          assert w[0] == y[j - |x| - |c|];
        }
      }
    }
  }

  // ---------------------------------------------------------------------------
  // replace with a string pattern
  // ---------------------------------------------------------------------------

  /** The replacement text `String.prototype.replace` inserts for a match of a
      string pattern (GetSubstitution of ECMA-262 with no captures): `$$`
      stands for `$`, `$&` for the matched text, `` $` `` for the text before
      the match, `$'` for the text after it; every other `$` is literal. */
  function Substitution(replacement: string, matched: string, before: string, after: string): (r: string)
    ensures '$' !in replacement ==> r == replacement
    decreases |replacement|
  {
    if replacement == [] then ""
    else if replacement[0] == '$' && |replacement| >= 2 && replacement[1] in "$&`'" then
      var expansion :=
        match replacement[1]
        case '$' => "$"
        case '&' => matched
        case '`' => before
        case _ => after;
      expansion + Substitution(replacement[2..], matched, before, after)
    else
      assert '$' !in replacement ==> '$' !in replacement[1..];
      [replacement[0]] + Substitution(replacement[1..], matched, before, after)
  }

  /** The replacement text of a concatenation is the concatenation of the
      replacement texts, when the first part does not end in the middle of a
      `$` pattern. */
  lemma {:induction false} SubstitutionAppend(r1: string, r2: string, matched: string, before: string, after: string)
    requires '$' !in r1
    ensures Substitution(r1 + r2, matched, before, after)
            == Substitution(r1, matched, before, after) + Substitution(r2, matched, before, after)
    decreases |r1|
  {
    if r1 != [] {
      assert (r1 + r2)[1..] == r1[1..] + r2;
      assert '$' !in r1[1..];
      SubstitutionAppend(r1[1..], r2, matched, before, after);
    } else {
      assert r1 + r2 == r2;
    }
  }

  /** `s.replace(pattern, replacement)` for a string `pattern`: only the first
      occurrence is replaced, and a string without one is returned as it is. */
  function ReplaceFirst(s: string, pattern: string, replacement: string): (r: string)
    ensures (forall j: nat :: !OccursAt(s, pattern, j)) ==> r == s
  {
    match IndexOf(s, pattern)
    case None => s
    case Some(i) =>
      var before, after := s[..i], s[i + |pattern|..];
      before + Substitution(replacement, pattern, before, after) + after
  }

  /** A `$`-free replacement of the first occurrence, at `i`, leaves the text
      before and after it as it was. */
  lemma ReplaceFirstAt(s: string, pattern: string, replacement: string, i: nat)
    requires OccursAt(s, pattern, i)
    requires forall j :: 0 <= j < i ==> !OccursAt(s, pattern, j)
    requires '$' !in replacement
    ensures ReplaceFirst(s, pattern, replacement) == s[..i] + replacement + s[i + |pattern|..]
  {
    var k := IndexOf(s, pattern);
    assert k == Some(i);
  }

  /** When the first character of `pattern` does not occur in `a`, replacing
      the first occurrence in `a + pattern + z` inserts the replacement text
      between `a` and `z`. */
  lemma ReplaceFirstAfter(a: string, pattern: string, replacement: string, z: string)
    requires |pattern| > 0 && pattern[0] !in a
    ensures ReplaceFirst(a + pattern + z, pattern, replacement)
            == a + Substitution(replacement, pattern, a, z) + z
  {
    var s := a + pattern + z;
    FirstOccurrenceAfter(a, pattern, z);
    assert s[..|a|] == a;
    assert s[|a| + |pattern|..] == z;
  }

  /** The same, for a `$`-free replacement: it is inserted as it is. */
  lemma ReplaceFirstAfterLiteral(a: string, pattern: string, replacement: string, z: string)
    requires |pattern| > 0 && pattern[0] !in a
    requires '$' !in replacement
    ensures ReplaceFirst(a + pattern + z, pattern, replacement) == a + replacement + z
  {
    ReplaceFirstAfter(a, pattern, replacement, z);
  }

  /** Wherever the first occurrence is, a `$`-free replacement takes its
      place and the text around it is kept. */
  lemma ReplaceFirstFound(a: string, pattern: string, replacement: string, z: string)
    requires IndexOf(a + pattern + z, pattern) == Some(|a|)
    requires '$' !in replacement
    ensures ReplaceFirst(a + pattern + z, pattern, replacement) == a + replacement + z
  {
    var s := a + pattern + z;
    assert s[..|a|] == a;
    assert s[|a| + |pattern|..] == z;
  }

  // ---------------------------------------------------------------------------
  // join and its inverse
  // ---------------------------------------------------------------------------

  /** `xs.join(sep)`: empty for no pieces, and otherwise it starts with the
      first piece. */
  function Join(xs: seq<string>, sep: string): (r: string)
    ensures |xs| == 0 ==> r == ""
    ensures |xs| > 0 ==> |xs[0]| <= |r| && r[..|xs[0]|] == xs[0]
  {
    if |xs| == 0 then ""
    else if |xs| == 1 then xs[0]
    else xs[0] + sep + Join(xs[1..], sep)
  }

  /** `s.split(c)` for a one-character separator: the pieces between the
      occurrences of `c`. */
  function Split(s: string, c: char): (parts: seq<string>)
    ensures |parts| >= 1
    decreases |s|
  {
    if s == [] then [""]
    else if s[0] == c then [""] + Split(s[1..], c)
    else
      var rest := Split(s[1..], c);
      [[s[0]] + rest[0]] + rest[1..]
  }

  lemma {:induction false} SplitWithout(a: string, c: char)
    requires c !in a
    ensures Split(a, c) == [a]
    decreases |a|
  {
    if a != [] {
      SplitWithout(a[1..], c);
      assert [a[0]] + a[1..] == a;
    }
  }

  lemma {:induction false} SplitAtFirst(a: string, c: char, b: string)
    requires c !in a
    ensures Split(a + [c] + b, c) == [a] + Split(b, c)
    decreases |a|
  {
    var s := a + [c] + b;
    if a == [] {
      assert s[1..] == b;
    } else {
      assert s[1..] == a[1..] + [c] + b;
      SplitAtFirst(a[1..], c, b);
      assert [a[0]] + a[1..] == a;
    }
  }

  /** Joining with a one-character separator that no piece contains can be
      undone by splitting: the pieces and their order are preserved. */
  lemma {:induction false} SplitJoin(xs: seq<string>, c: char)
    requires |xs| >= 1
    requires forall k :: 0 <= k < |xs| ==> c !in xs[k]
    ensures Split(Join(xs, [c]), c) == xs
    decreases |xs|
  {
    if |xs| == 1 {
      SplitWithout(xs[0], c);
    } else {
      SplitAtFirst(xs[0], c, Join(xs[1..], [c]));
      SplitJoin(xs[1..], c);
      assert [xs[0]] + xs[1..] == xs;
    }
  }

  // ---------------------------------------------------------------------------
  // Decimal rendering of a non-negative integer
  // ---------------------------------------------------------------------------

  predicate IsDigit(c: char)
  {
    '0' <= c <= '9'
  }

  /** `${n}` for a non-negative integer: its decimal digits, without leading zeros. */
  function Decimal(n: nat): (s: string)
    ensures |s| >= 1 && forall i :: 0 <= i < |s| ==> IsDigit(s[i])
    ensures s[0] == '0' ==> n == 0
    decreases n
  {
    var last := (48 + n % 10) as char;
    if n < 10 then [last] else Decimal(n / 10) + [last]
  }

  /** The number a string of decimal digits denotes. */
  function DecimalValue(s: string): nat
    requires forall i :: 0 <= i < |s| ==> IsDigit(s[i])
    decreases |s|
  {
    if s == [] then 0
    else
      var last := s[|s| - 1];
      assert IsDigit(last);
      10 * DecimalValue(s[..|s| - 1]) + (last as int - 48)
  }

  /** The rendered digits read back as the number rendered. */
  lemma {:induction false} DecimalRoundTrip(n: nat)
    ensures DecimalValue(Decimal(n)) == n
    decreases n
  {
    var s := Decimal(n);
    if n >= 10 {
      DecimalRoundTrip(n / 10);
      assert s[..|s| - 1] == Decimal(n / 10);
    }
  }
}
