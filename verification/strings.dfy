/**
 * The JavaScript string operations the modelled code relies on:
 * `startsWith`, `includes`, `join`, `split` on one character, and the
 * decimal rendering of a non-negative integer (`'user-' + Date.now()`).
 * Strings are sequences of characters.
 */
module Strings {

  /** `s.startsWith(p)` */
  predicate StartsWith(s: string, p: string) {
    |p| <= |s| && s[..|p|] == p
  }

  /** `t` occurs in `s` starting at position `i`. */
  predicate OccursAt(s: string, t: string, i: nat) {
    i + |t| <= |s| && s[i..i + |t|] == t
  }

  /** `s.includes(t)`: `t` occurs in `s` at some position. */
  predicate Contains(s: string, t: string) {
    exists i: nat | i <= |s| :: OccursAt(s, t, i)
  }

  /** Whatever contains `t` keeps containing it when text is added on either side. */
  lemma ContainsWithin(a: string, t: string, b: string, u: string)
    requires Contains(t, u)
    ensures Contains(a + t + b, u)
  {
    var i: nat :| i <= |t| && OccursAt(t, u, i);
    var s := a + t + b;
    assert s[|a| + i..|a| + i + |u|] == t[i..i + |u|];
    assert OccursAt(s, u, |a| + i);
  }

  /** A string contains itself. */
  lemma ContainsSelf(t: string)
    ensures Contains(t, t)
  {
    assert OccursAt(t, t, 0);
  }

  /** A string placed between two others is contained in the whole. */
  lemma ContainsMiddle(a: string, t: string, b: string)
    ensures Contains(a + t + b, t)
  {
    ContainsSelf(t);
    ContainsWithin(a, t, b, t);
  }

  /** Containment is transitive. */
  lemma ContainsTrans(s: string, t: string, u: string)
    requires Contains(s, t) && Contains(t, u)
    ensures Contains(s, u)
  {
    var i: nat :| i <= |s| && OccursAt(s, t, i);
    var j: nat :| j <= |t| && OccursAt(t, u, j);
    forall k | 0 <= k < |u| ensures s[i + j + k] == u[k] {
      assert t[j..j + |u|][k] == u[k];
      assert s[i..i + |t|][j + k] == t[j + k];
    }
    assert s[i + j..i + j + |u|] == u;
    assert OccursAt(s, u, i + j);
  }

  /**
   * No occurrence of `u` can straddle the end of `x` and the start of `y`:
   * a character on one side of the boundary is not in `u`, or `x` ends in a
   * character foreign to `u` followed by one that cannot start it.
   */
  predicate Separated(x: string, y: string, u: string) {
    (x != [] && x[|x| - 1] !in u)
    || (y != [] && y[0] !in u)
    || (|x| >= 2 && x[|x| - 2] !in u && u != [] && x[|x| - 1] != u[0])
  }

  /** The characters on both sides of the boundary that an occurrence across it covers. */
  lemma StraddleChars(x: string, y: string, u: string, i: nat)
    requires OccursAt(x + y, u, i) && i < |x| < i + |u|
    ensures u[|x| - 1 - i] == x[|x| - 1] && u[|x| - i] == y[0]
    ensures |x| - 1 - i > 0 ==> u[|x| - 2 - i] == x[|x| - 2]
  {
    var s := x + y;
    assert s[i..i + |u|][|x| - 1 - i] == s[|x| - 1];
    assert s[i..i + |u|][|x| - i] == s[|x|];
    if |x| - 1 - i > 0 {
      assert s[i..i + |u|][|x| - 2 - i] == s[|x| - 2];
    }
  }

  /** An occurrence in a concatenation with no way across the boundary lies in one of the two parts. */
  lemma ContainsAcross(x: string, y: string, u: string)
    requires Separated(x, y, u)
    ensures Contains(x + y, u) ==> Contains(x, u) || Contains(y, u)
  {
    if Contains(x + y, u) {
      var s := x + y;
      var i: nat :| i <= |s| && OccursAt(s, u, i);
      if i + |u| <= |x| {
        assert s[i..i + |u|] == x[i..i + |u|];
        assert OccursAt(x, u, i);
      } else if i >= |x| {
        assert s[i..i + |u|] == y[i - |x|..i - |x| + |u|];
        assert OccursAt(y, u, i - |x|);
      } else {
        StraddleChars(x, y, u, i);
      }
    }
  }

  /** Two texts free of `u`, with no occurrence across their boundary, are free of it together. */
  lemma NotContainsAcross(x: string, y: string, u: string)
    requires !Contains(x, u) && !Contains(y, u)
    requires Separated(x, y, u)
    ensures !Contains(x + y, u)
  {
    ContainsAcross(x, y, u);
  }

  /** `parts.join(sep)` */
  function Join(parts: seq<string>, sep: string): string
    decreases |parts|
  {
    if |parts| == 0 then ""
    else if |parts| == 1 then parts[0]
    else parts[0] + sep + Join(parts[1..], sep)
  }

  /** Seven parts joined without a separator are their concatenation. */
  lemma JoinSeven(a: string, b: string, c: string, d: string, e: string, f: string, g: string)
    ensures Join([a, b, c, d, e, f, g], "") == a + b + c + d + e + f + g
  {
    var ps := [a, b, c, d, e, f, g];
    assert Join(ps[5..], "") == f + g;
    assert Join(ps[3..], "") == d + (e + (f + g)) by {
      assert Join(ps[4..], "") == e + (f + g);
    }
    assert Join(ps[1..], "") == b + (c + (d + (e + (f + g)))) by {
      assert Join(ps[2..], "") == c + (d + (e + (f + g)));
    }
  }

  /** Every part of a joined list occurs in the joined string. */
  lemma {:induction false} JoinContainsParts(parts: seq<string>, sep: string, k: nat)
    requires k < |parts|
    ensures Contains(Join(parts, sep), parts[k])
    decreases |parts|
  {
    if |parts| == 1 {
      ContainsMiddle("", parts[0], "");
      assert "" + parts[0] + "" == parts[0];
    } else if k == 0 {
      ContainsMiddle("", parts[0], sep + Join(parts[1..], sep));
      assert "" + parts[0] + (sep + Join(parts[1..], sep)) == Join(parts, sep);
    } else {
      JoinContainsParts(parts[1..], sep, k - 1);
      ContainsWithin(parts[0] + sep, Join(parts[1..], sep), "", parts[k]);
      assert parts[0] + sep + Join(parts[1..], sep) + "" == Join(parts, sep);
    }
  }

  /** The index of the first `c` in `s`, or -1 (`s.indexOf(c)`). */
  function IndexOfChar(s: string, c: char): (r: int)
    ensures -1 <= r < |s|
    ensures 0 <= r ==> s[r] == c && c !in s[..r]
    ensures r == -1 <==> c !in s
  {
    if s == [] then -1
    else if s[0] == c then 0
    else
      var k := IndexOfChar(s[1..], c);
      if k == -1 then -1
      else
        assert s[..k + 1] == [s[0]] + s[1..][..k];
        k + 1
  }

  /** `s.split(c)` for a one-character separator: the pieces between the occurrences of `c`. */
  function Split(s: string, c: char): (r: seq<string>)
    ensures |r| >= 1
    ensures forall k :: 0 <= k < |r| ==> c !in r[k]
    decreases |s|
  {
    var i := IndexOfChar(s, c);
    if i == -1 then [s] else [s[..i]] + Split(s[i + 1..], c)
  }

  /** A split of a string that does not start with `c`: its first character joins the first piece. */
  lemma SplitCons(s: string, c: char)
    requires s != [] && s[0] != c
    ensures |Split(s, c)[0]| >= 1 && Split(s, c)[0][0] == s[0]
    ensures Split(s, c)[0][1..] == Split(s[1..], c)[0]
    ensures Split(s, c)[1..] == Split(s[1..], c)[1..]
  {
    var i := IndexOfChar(s[1..], c);
    if i != -1 {
      assert IndexOfChar(s, c) == i + 1;
      assert s[1..][i + 1..] == s[i + 2..];
      assert s[..i + 1][1..] == s[1..][..i];
    }
  }

  /** Joining a first part in front of a non-empty list puts one separator between them. */
  lemma JoinCons(first: string, rest: seq<string>, sep: string)
    requires rest != []
    ensures Join([first] + rest, sep) == first + sep + Join(rest, sep)
  {
    var parts := [first] + rest;
    assert |parts| > 1 && parts[0] == first && parts[1..] == rest;
  }

  /** A split at an occurrence of `c`: the piece before it, then the split of what follows. */
  lemma SplitAtFirst(s: string, c: char)
    requires IndexOfChar(s, c) != -1
    ensures var i := IndexOfChar(s, c);
            Split(s, c) == [s[..i]] + Split(s[i + 1..], c)
  {
  }

  /** A string is what comes before position `i`, the character there, and what follows. */
  lemma AroundIndex(s: string, i: nat)
    requires i < |s|
    ensures s == s[..i] + [s[i]] + s[i + 1..]
  {
    assert s[..i] + [s[i]] == s[..i + 1];
  }

  /** Joining the pieces of a split with the separator gives back the string. */
  lemma {:induction false} JoinSplit(s: string, c: char)
    ensures Join(Split(s, c), [c]) == s
    decreases |s|
  {
    var i := IndexOfChar(s, c);
    if i == -1 {
      assert Split(s, c) == [s];
    } else {
      JoinSplit(s[i + 1..], c);
      SplitAtFirst(s, c);
      AroundIndex(s, i);
      JoinCons(s[..i], Split(s[i + 1..], c), [c]);
    }
  }

  /** The digit character of `d`. */
  function DigitChar(d: nat): char
    requires d < 10
  {
    "0123456789"[d]
  }

  /** The decimal rendering of `n`, as `String(n)` gives it for a non-negative integer. */
  function Decimal(n: nat): (r: string)
    ensures |r| >= 1
    ensures forall k :: 0 <= k < |r| ==> '0' <= r[k] <= '9'
  {
    if n < 10 then [DigitChar(n)] else Decimal(n / 10) + [DigitChar(n % 10)]
  }

  /** The value of a string of decimal digits. */
  function DecimalValue(s: string): nat
    requires forall k :: 0 <= k < |s| ==> '0' <= s[k] <= '9'
  {
    if s == [] then 0 else 10 * DecimalValue(s[..|s| - 1]) + (s[|s| - 1] as int - '0' as int)
  }

  /** Distinct clock readings give distinct renderings: the decimal form can be read back. */
  lemma {:induction false} DecimalRoundTrip(n: nat)
    ensures DecimalValue(Decimal(n)) == n
  {
    if n >= 10 {
      DecimalRoundTrip(n / 10);
      var s := Decimal(n);
      assert s[..|s| - 1] == Decimal(n / 10);
    }
  }
}
