/**
 * The string helpers of src/lib/utils.ts: `truncate`, `slugify` and
 * `getInitials`. Case mapping is modelled on ASCII letters only.
 */
module Utils {
  import opened Tables
  import opened Strings

  // ---- truncate

  /**
   * `truncate(str, length)`: the string itself when it is no longer than
   * `length`, else its first `length` characters followed by "...".
   */
  function Truncate(str: string, length: nat): (r: string)
    ensures |str| <= length ==> r == str
    ensures |str| > length ==> |r| == length + 3 && StartsWith(r, str[..length]) && r[length..] == "..."
  {
    if |str| <= length then str else str[..length] + "..."
  }

  /** Truncating again to the same length changes nothing. */
  lemma TruncateIdempotent(str: string, length: nat)
    ensures Truncate(Truncate(str, length), length) == Truncate(str, length)
  {
    if |str| > length {
      var r := Truncate(str, length);
      assert r[..length] == str[..length];
    }
  }

  // ---- slugify

  /** Upper-case ASCII letters mapped to lower case (`toLowerCase` on ASCII). */
  function LowerChar(c: char): char {
    if 'A' <= c <= 'Z' then (c as int - 'A' as int + 'a' as int) as char else c
  }

  function Lower(s: string): (r: string)
    ensures |r| == |s| && forall k :: 0 <= k < |s| ==> r[k] == LowerChar(s[k])
  {
    if s == [] then [] else [LowerChar(s[0])] + Lower(s[1..])
  }

  /** The regular-expression class `\w`: `[A-Za-z0-9_]`. */
  predicate IsWordChar(c: char) {
    'a' <= c <= 'z' || 'A' <= c <= 'Z' || '0' <= c <= '9' || c == '_'
  }

  /** The regular-expression class `\s`, which is also what `trim` removes. */
  predicate IsSpace(c: char) {
    c == ' ' || c == '\t' || c == '\n' || c == '\r' || c == '\U{000B}' || c == '\U{000C}'
    || c == '\U{00A0}' || c == '\U{1680}' || ('\U{2000}' <= c <= '\U{200A}')
    || c == '\U{2028}' || c == '\U{2029}' || c == '\U{202F}' || c == '\U{205F}'
    || c == '\U{3000}' || c == '\U{FEFF}'
  }

  predicate IsDash(c: char) {
    c == '-'
  }

  /** The characters `[^\w\s-]` does NOT match: those the first replacement keeps. */
  predicate SlugAllowed(c: char) {
    IsWordChar(c) || IsSpace(c) || c == '-'
  }

  /** What a slug is made of: `[a-z0-9_-]`. */
  predicate IsSlugChar(c: char) {
    'a' <= c <= 'z' || '0' <= c <= '9' || c == '_' || c == '-'
  }

  /** `s` with its leading characters satisfying `p` removed. */
  function DropWhile(s: string, p: char -> bool): (r: string)
    ensures |r| <= |s| && r == s[|s| - |r|..]
    ensures r == [] || !p(r[0])
    ensures forall k :: 0 <= k < |s| - |r| ==> p(s[k])
  {
    if s == [] || !p(s[0]) then s else DropWhile(s[1..], p)
  }

  /**
   * `s.replace(/x+/g, b)` where `p` is the class `x`: every maximal run of
   * characters satisfying `p` becomes the single character `b`.
   */
  function ReplaceRuns(s: string, p: char -> bool, b: char): (r: string)
    ensures s == [] <==> r == []
    ensures s != [] ==> r[0] == (if p(s[0]) then b else s[0])
    decreases |s|
  {
    if s == [] then []
    else if p(s[0]) then [b] + ReplaceRuns(DropWhile(s[1..], p), p, b)
    else [s[0]] + ReplaceRuns(s[1..], p, b)
  }

  /** Every character of the result is `b` or a character of `s` outside the class. */
  lemma {:induction false} ReplaceRunsChars(s: string, p: char -> bool, b: char)
    ensures forall c :: c in ReplaceRuns(s, p, b) ==> c == b || (c in s && !p(c))
    decreases |s|
  {
    if s != [] {
      var rest := if p(s[0]) then DropWhile(s[1..], p) else s[1..];
      assert forall x :: x in rest ==> x in s;
      ReplaceRunsChars(rest, p, b);
    }
  }

  /** Positions `k` and `k + 1` of `s` both hold class characters. */
  predicate DoubleAt(s: string, p: char -> bool, k: nat) {
    k + 1 < |s| && p(s[k]) && p(s[k + 1])
  }

  /** The result never has two class characters in a row. */
  lemma {:induction false} ReplaceRunsNoDoubles(s: string, p: char -> bool, b: char)
    ensures forall k: nat :: !DoubleAt(ReplaceRuns(s, p, b), p, k)
    decreases |s|
  {
    if s != [] {
      var rest := if p(s[0]) then DropWhile(s[1..], p) else s[1..];
      ReplaceRunsNoDoubles(rest, p, b);
      var r := ReplaceRuns(s, p, b);
      var tail := ReplaceRuns(rest, p, b);
      assert r == [r[0]] + tail;
      forall k: nat ensures !DoubleAt(r, p, k) {
        if k > 0 {
          var j: nat := k - 1;
          assert !DoubleAt(tail, p, j);
          if k + 1 < |r| {
            assert r[k] == tail[j] && r[k + 1] == tail[j + 1];
          }
        } else if p(s[0]) && |r| > 1 {
          assert rest != [] && !p(rest[0]) && tail[0] == rest[0];
          assert r[1] == tail[0];
        }
      }
    }
  }

  /** The last character of the result is `b` if `s` ends inside a run, else the last character of `s`. */
  lemma {:induction false} ReplaceRunsLast(s: string, p: char -> bool, b: char)
    requires s != []
    ensures var r := ReplaceRuns(s, p, b);
            r[|r| - 1] == if p(s[|s| - 1]) then b else s[|s| - 1]
    decreases |s|
  {
    var rest := if p(s[0]) then DropWhile(s[1..], p) else s[1..];
    if rest != [] {
      ReplaceRunsLast(rest, p, b);
      assert rest[|rest| - 1] == s[|s| - 1];
    }
  }

  /** A string with no run of two `p` characters, all of them `b`, is left as it is. */
  lemma {:induction false} ReplaceRunsKeeps(s: string, p: char -> bool, b: char)
    requires forall k :: 0 <= k < |s| && p(s[k]) ==> s[k] == b
    requires forall k :: 0 <= k < |s| - 1 && p(s[k]) ==> !p(s[k + 1])
    ensures ReplaceRuns(s, p, b) == s
    decreases |s|
  {
    if s != [] {
      var tail := s[1..];
      assert forall k :: 0 <= k < |tail| ==> tail[k] == s[k + 1];
      ReplaceRunsKeeps(tail, p, b);
      if p(s[0]) {
        assert s[0] == b;
        assert tail == [] || !p(tail[0]);
        assert DropWhile(tail, p) == tail;
      }
    }
  }

  /** `r` is the slice of `s` at `i`, and everything of `s` before and after it is whitespace. */
  ghost predicate TrimmedAt(s: string, r: string, i: nat) {
    i + |r| <= |s| && r == s[i..i + |r|]
    && (forall k :: 0 <= k < i ==> IsSpace(s[k]))
    && (forall k :: i + |r| <= k < |s| ==> IsSpace(s[k]))
  }

  /** A leading space in front of a trimmed slice shifts it by one. */
  lemma TrimmedAtAfterSpace(s: string, r: string, i: nat)
    requires s != [] && IsSpace(s[0]) && TrimmedAt(s[1..], r, i)
    ensures TrimmedAt(s, r, i + 1)
  {
    assert s[1..][i..i + |r|] == s[i + 1..i + 1 + |r|];
    forall k | 0 <= k < i + 1 ensures IsSpace(s[k]) {
      if k > 0 { assert s[k] == s[1..][k - 1]; }
    }
    forall k | i + 1 + |r| <= k < |s| ensures IsSpace(s[k]) {
      assert s[k] == s[1..][k - 1];
    }
  }

  /** A trailing space behind a trimmed slice leaves it where it is. */
  lemma TrimmedAtBeforeSpace(s: string, r: string, i: nat)
    requires s != [] && IsSpace(s[|s| - 1]) && TrimmedAt(s[..|s| - 1], r, i)
    ensures TrimmedAt(s, r, i)
  {
    assert s[..|s| - 1][i..i + |r|] == s[i..i + |r|];
    forall k | 0 <= k < i ensures IsSpace(s[k]) {
      assert s[k] == s[..|s| - 1][k];
    }
    forall k | i + |r| <= k < |s| ensures IsSpace(s[k]) {
      if k < |s| - 1 { assert s[k] == s[..|s| - 1][k]; }
    }
  }

  /**
   * `s.trim()`: the slice of `s` left when the leading and trailing
   * whitespace is removed; it neither starts nor ends with whitespace.
   */
  function Trim(s: string): (r: string)
    ensures |r| <= |s|
    ensures r == [] || (!IsSpace(r[0]) && !IsSpace(r[|r| - 1]))
    ensures exists i: nat :: TrimmedAt(s, r, i)
    decreases |s|
  {
    if s == [] then
      assert TrimmedAt(s, [], 0);
      []
    else if IsSpace(s[0]) then
      var r := Trim(s[1..]);
      assert exists j: nat :: TrimmedAt(s, r, j) by {
        var i: nat :| TrimmedAt(s[1..], r, i);
        TrimmedAtAfterSpace(s, r, i);
      }
      r
    else if IsSpace(s[|s| - 1]) then
      var r := Trim(s[..|s| - 1]);
      assert exists j: nat :: TrimmedAt(s, r, j) by {
        var i: nat :| TrimmedAt(s[..|s| - 1], r, i);
        TrimmedAtBeforeSpace(s, r, i);
      }
      r
    else
      assert TrimmedAt(s, s, 0);
      s
  }

  /** `slugify(str)`: lower-case, strip `[^\w\s-]`, whitespace runs to '-', dash runs to '-', trim. */
  function Slugify(str: string): string {
    var kept := Filter(Lower(str), SlugAllowed);
    var dashed := ReplaceRuns(kept, IsSpace, '-');
    var collapsed := ReplaceRuns(dashed, IsDash, '-');
    Trim(collapsed)
  }

  /** After the first replacement only `[a-z0-9_]`, whitespace and '-' are left. */
  lemma KeptChars(str: string)
    ensures forall c :: c in Filter(Lower(str), SlugAllowed) ==> SlugAllowed(c) && !('A' <= c <= 'Z')
  {
    var lowered := Lower(str);
    forall c | c in Filter(lowered, SlugAllowed) ensures SlugAllowed(c) && !('A' <= c <= 'Z') {
      var k :| 0 <= k < |lowered| && lowered[k] == c;
    }
  }

  /** Before `trim`, a slug is made of `[a-z0-9_-]` and has no "--". */
  lemma SlugBeforeTrimShape(str: string)
    ensures forall c :: c in SlugBeforeTrim(str) ==> IsSlugChar(c)
    ensures var t := SlugBeforeTrim(str);
            forall k :: 0 <= k < |t| - 1 ==> !(t[k] == '-' && t[k + 1] == '-')
  {
    var kept := Filter(Lower(str), SlugAllowed);
    var dashed := ReplaceRuns(kept, IsSpace, '-');
    KeptChars(str);
    ReplaceRunsChars(kept, IsSpace, '-');
    assert forall c :: c in dashed ==> IsSlugChar(c);
    ReplaceRunsChars(dashed, IsDash, '-');
    ReplaceRunsNoDoubles(dashed, IsDash, '-');
    var t := ReplaceRuns(dashed, IsDash, '-');
    assert SlugBeforeTrim(str) == t;
    forall k | 0 <= k < |t| - 1 ensures !(t[k] == '-' && t[k + 1] == '-') {
      assert !DoubleAt(t, IsDash, k);
    }
  }

  /** A slug is made of `[a-z0-9_-]`: no whitespace, no upper case, no punctuation. */
  lemma SlugifyCharset(str: string)
    ensures forall k :: 0 <= k < |Slugify(str)| ==> IsSlugChar(Slugify(str)[k])
  {
    SlugBeforeTrimShape(str);
    var t := SlugBeforeTrim(str);
    assert forall k :: 0 <= k < |t| ==> t[k] in t;
    SlugifyTrimIsNoOp(str);
  }

  /** A slug has no whitespace and never two '-' in a row. */
  lemma SlugifyShape(str: string)
    ensures forall k :: 0 <= k < |Slugify(str)| ==> !IsSpace(Slugify(str)[k])
    ensures var r := Slugify(str);
            forall k :: 0 <= k < |r| - 1 ==> !(r[k] == '-' && r[k + 1] == '-')
  {
    SlugBeforeTrimShape(str);
    SlugifyCharset(str);
    SlugifyTrimIsNoOp(str);
  }

  /** A string with no whitespace at all is not changed by `trim`. */
  lemma TrimKeepsSpaceless(s: string)
    requires forall k :: 0 <= k < |s| ==> !IsSpace(s[k])
    ensures Trim(s) == s
  {
  }

  /** The steps of `slugify` before `trim`. */
  function SlugBeforeTrim(str: string): string {
    ReplaceRuns(ReplaceRuns(Filter(Lower(str), SlugAllowed), IsSpace, '-'), IsDash, '-')
  }

  /** The final `trim` never has anything to do: no whitespace survives the whitespace replacement. */
  lemma SlugifyTrimIsNoOp(str: string)
    ensures Slugify(str) == SlugBeforeTrim(str)
  {
    var kept := Filter(Lower(str), SlugAllowed);
    var dashed := ReplaceRuns(kept, IsSpace, '-');
    var collapsed := ReplaceRuns(dashed, IsDash, '-');
    ReplaceRunsChars(kept, IsSpace, '-');
    ReplaceRunsChars(dashed, IsDash, '-');
    assert forall k :: 0 <= k < |collapsed| ==> collapsed[k] in collapsed;
    TrimKeepsSpaceless(collapsed);
  }

  /** Leading whitespace is not stripped: it becomes a leading '-'. */
  lemma SlugifyLeadingSpace(str: string)
    requires str != [] && IsSpace(str[0])
    ensures Slugify(str) != [] && Slugify(str)[0] == '-'
  {
    var lowered := Lower(str);
    assert lowered == [lowered[0]] + lowered[1..];
    FilterAppend([lowered[0]], lowered[1..], SlugAllowed);
    FilterSingleton(lowered[0], SlugAllowed);
    SlugifyTrimIsNoOp(str);
  }

  /** Trailing whitespace is not stripped either: it becomes a trailing '-'. */
  lemma SlugifyTrailingSpace(str: string)
    requires str != [] && IsSpace(str[|str| - 1])
    ensures Slugify(str) != [] && Slugify(str)[|Slugify(str)| - 1] == '-'
  {
    var lowered := Lower(str);
    var n := |lowered|;
    assert lowered == lowered[..n - 1] + [lowered[n - 1]];
    FilterAppend(lowered[..n - 1], [lowered[n - 1]], SlugAllowed);
    FilterSingleton(lowered[n - 1], SlugAllowed);
    var kept := Filter(lowered, SlugAllowed);
    ReplaceRunsLast(kept, IsSpace, '-');
    ReplaceRunsLast(ReplaceRuns(kept, IsSpace, '-'), IsDash, '-');
    SlugifyTrimIsNoOp(str);
  }

  /** A string without upper-case letters is its own lower case. */
  lemma LowerKeeps(s: string)
    requires forall k :: 0 <= k < |s| ==> !('A' <= s[k] <= 'Z')
    ensures Lower(s) == s
  {
  }

  /** A slug character is neither whitespace nor upper case, and the first replacement keeps it. */
  lemma SlugCharFacts(c: char)
    requires IsSlugChar(c)
    ensures !IsSpace(c) && !('A' <= c <= 'Z') && SlugAllowed(c)
  {
  }

  /** A string of `[a-z0-9_-]` is not changed by the first three steps of `slugify`. */
  lemma SlugCharsKept(t: string)
    requires forall k :: 0 <= k < |t| ==> IsSlugChar(t[k])
    ensures ReplaceRuns(Filter(Lower(t), SlugAllowed), IsSpace, '-') == t
  {
    forall k | 0 <= k < |t| ensures !IsSpace(t[k]) && !('A' <= t[k] <= 'Z') {
      SlugCharFacts(t[k]);
    }
    LowerKeeps(t);
    forall c | c in t ensures SlugAllowed(c) {
      var k :| 0 <= k < |t| && t[k] == c;
      SlugCharFacts(c);
    }
    FilterKeepsAll(t, SlugAllowed);
    ReplaceRunsKeeps(t, IsSpace, '-');
  }

  /** A string of `[a-z0-9_-]` without "--" is a fixed point of every step of `slugify`. */
  lemma SlugIsFixed(t: string)
    requires forall k :: 0 <= k < |t| ==> IsSlugChar(t[k])
    requires forall k :: 0 <= k < |t| - 1 ==> !(t[k] == '-' && t[k + 1] == '-')
    ensures Slugify(t) == t
  {
    SlugCharsKept(t);
    ReplaceRunsKeeps(t, IsDash, '-');
    forall k | 0 <= k < |t| ensures !IsSpace(t[k]) {
      SlugCharFacts(t[k]);
    }
    TrimKeepsSpaceless(t);
  }

  /** A slug is its own slug. */
  lemma SlugifyIdempotent(str: string)
    ensures Slugify(Slugify(str)) == Slugify(str)
  {
    SlugifyCharset(str);
    SlugifyShape(str);
    SlugIsFixed(Slugify(str));
  }

  // ---- getInitials

  /** Lower-case ASCII letters mapped to upper case (`toUpperCase` on ASCII). */
  function UpperChar(c: char): char {
    if 'a' <= c <= 'z' then (c as int - 'a' as int + 'A' as int) as char else c
  }

  function Upper(s: string): (r: string)
    ensures |r| == |s| && forall k :: 0 <= k < |s| ==> r[k] == UpperChar(s[k])
  {
    if s == [] then [] else [UpperChar(s[0])] + Upper(s[1..])
  }

  /**
   * `words.map(word => word[0]).join('')`: the first character of every
   * word; an empty word contributes `undefined`, which `join` renders as nothing.
   */
  function FirstChars(words: seq<string>): string {
    if words == [] then []
    else (if words[0] == [] then [] else [words[0][0]]) + FirstChars(words[1..])
  }

  /**
   * The characters of `s` that begin a word: not a space, and either first
   * or right after a space. `afterSpace` says whether the previous character
   * was a space (or there was none).
   */
  function WordStarts(s: string, afterSpace: bool): string {
    if s == [] then []
    else if s[0] == ' ' then WordStarts(s[1..], true)
    else (if afterSpace then [s[0]] else []) + WordStarts(s[1..], false)
  }

  /** `getInitials(name)`: the first two upper-cased word initials. */
  function GetInitials(name: string): (r: string)
    ensures |r| <= 2
    ensures |r| <= |WordStarts(name, true)| && r == Upper(WordStarts(name, true))[..|r|]
    ensures |r| == 2 || r == Upper(WordStarts(name, true))
  {
    var letters := Upper(FirstChars(Split(name, ' ')));
    WordStartsSplit(name);
    if |letters| <= 2 then letters else letters[..2]
  }

  /** The step of `WordStartsSplit` for a string that starts with a space. */
  lemma WordStartsSplitSpace(s: string)
    requires s != [] && s[0] == ' '
    requires FirstChars(Split(s[1..], ' ')) == WordStarts(s[1..], true)
    ensures FirstChars(Split(s, ' ')) == WordStarts(s, true)
    ensures FirstChars(Split(s, ' ')[1..]) == WordStarts(s, false)
  {
    assert IndexOfChar(s, ' ') == 0;
    assert Split(s, ' ') == [""] + Split(s[1..], ' ');
    assert Split(s, ' ')[1..] == Split(s[1..], ' ');
  }

  /** The step of `WordStartsSplit` for a string that starts inside a word. */
  lemma WordStartsSplitWord(s: string)
    requires s != [] && s[0] != ' '
    requires FirstChars(Split(s[1..], ' ')[1..]) == WordStarts(s[1..], false)
    ensures FirstChars(Split(s, ' ')) == WordStarts(s, true)
    ensures FirstChars(Split(s, ' ')[1..]) == WordStarts(s, false)
  {
    SplitCons(s, ' ');
    var pieces := Split(s, ' ');
    assert FirstChars(pieces) == [s[0]] + FirstChars(pieces[1..]);
  }

  /**
   * The first characters of the pieces of `split(' ')` are exactly the word
   * starts; and read from inside a word, the word starts are those of the
   * pieces after the first one.
   */
  lemma {:induction false} WordStartsSplit(s: string)
    ensures FirstChars(Split(s, ' ')) == WordStarts(s, true)
    ensures FirstChars(Split(s, ' ')[1..]) == WordStarts(s, false)
    decreases |s|
  {
    if s == [] {
      assert Split(s, ' ') == [""];
    } else {
      WordStartsSplit(s[1..]);
      if s[0] == ' ' {
        WordStartsSplitSpace(s);
      } else {
        WordStartsSplitWord(s);
      }
    }
  }

  /** An empty name has no initials. */
  lemma GetInitialsOfEmpty()
    ensures GetInitials("") == ""
  {
    assert WordStarts("", true) == "";
  }
}
