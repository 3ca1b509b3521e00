/**
 * The few .NET string operations the function relies on: `Char.IsWhiteSpace`,
 * `String.Trim`, `String.Split(char)` and ordinal case-insensitive comparison
 * of ASCII words.
 */
module Text {

  /** `Char.IsWhiteSpace`: the controls U+0009..U+000D, U+0085 and the Unicode
      space, line and paragraph separators. */
  predicate IsWhiteSpace(c: char) {
    || (0x09 <= c as int <= 0x0D)
    || c == ' '
    || c as int == 0x85
    || c as int == 0xA0
    || c as int == 0x1680
    || (0x2000 <= c as int <= 0x200A)
    || c as int == 0x2028
    || c as int == 0x2029
    || c as int == 0x202F
    || c as int == 0x205F
    || c as int == 0x3000
  }

  /** Drops the leading characters that satisfy `drop`. */
  function TrimStart(s: string, drop: char -> bool): (t: string)
    ensures |t| <= |s|
  {
    if s == [] || !drop(s[0]) then s else TrimStart(s[1..], drop)
  }

  /** `TrimStart` keeps a suffix that does not start with a `drop` character,
      and everything it removes satisfies `drop`. */
  lemma {:induction false} TrimStartFacts(s: string, drop: char -> bool)
    ensures var t := TrimStart(s, drop);
            && t == s[|s| - |t|..]
            && (t == [] || !drop(t[0]))
            && (forall k :: 0 <= k < |s| - |t| ==> drop(s[k]))
  {
    if s != [] && drop(s[0]) {
      TrimStartFacts(s[1..], drop);
      var t := TrimStart(s, drop);
      assert s[1..][|s| - 1 - |t|..] == s[|s| - |t|..];
      forall k | 1 <= k < |s| - |t| ensures drop(s[k]) {
        assert s[k] == s[1..][k - 1];
      }
    }
  }

  /** Drops the trailing characters that satisfy `drop`. */
  function TrimEnd(s: string, drop: char -> bool): (t: string)
    ensures |t| <= |s|
  {
    if s == [] || !drop(s[|s| - 1]) then s else TrimEnd(s[..|s| - 1], drop)
  }

  /** `TrimEnd` keeps a prefix that does not end with a `drop` character, and
      everything it removes satisfies `drop`. */
  lemma {:induction false} TrimEndFacts(s: string, drop: char -> bool)
    ensures var t := TrimEnd(s, drop);
            && t == s[..|t|]
            && (t == [] || !drop(t[|t| - 1]))
            && (forall k :: |t| <= k < |s| ==> drop(s[k]))
  {
    if s != [] && drop(s[|s| - 1]) {
      var p := s[..|s| - 1];
      TrimEndFacts(p, drop);
      var t := TrimEnd(s, drop);
      assert p[..|t|] == s[..|t|];
      forall k | |t| <= k < |p| ensures drop(s[k]) {
        assert s[k] == p[k];
      }
    }
  }

  /** Drops the characters satisfying `drop` from both ends. */
  function TrimWhere(s: string, drop: char -> bool): string {
    TrimEnd(TrimStart(s, drop), drop)
  }

  /** `String.Trim()`. */
  function Trim(s: string): string {
    TrimWhere(s, IsWhiteSpace)
  }

  /** `t` is `s[i..j]`, everything outside `i..j` satisfies `drop`, and
      neither end of `t` does: `t` is `s` with a run of `drop` characters
      removed from each end, and cannot be trimmed further. */
  ghost predicate TrimmedBetween(t: string, s: string, drop: char -> bool, i: int, j: int) {
    && 0 <= i <= j <= |s| && t == s[i..j]
    && (forall k :: 0 <= k < i ==> drop(s[k]))
    && (forall k :: j <= k < |s| ==> drop(s[k]))
    && (i < j ==> !drop(s[i]) && !drop(s[j - 1]))
  }

  /** Trimming removes exactly such runs. */
  lemma TrimWhereIsTrimming(s: string, drop: char -> bool)
    ensures var i := |s| - |TrimStart(s, drop)|;
            TrimmedBetween(TrimWhere(s, drop), s, drop, i, i + |TrimWhere(s, drop)|)
  {
    var u := TrimStart(s, drop);
    TrimStartFacts(s, drop);
    TrimEndFacts(u, drop);
    SuffixThenPrefix(s, u, TrimEnd(u, drop), drop);
  }

  /** A `drop`-free-ended prefix `t` of a suffix `u` of `s`, where everything
      cut off on either side satisfies `drop`, is a trimming of `s`. */
  lemma SuffixThenPrefix(s: string, u: string, t: string, drop: char -> bool)
    requires |u| <= |s| && u == s[|s| - |u|..]
    requires forall k :: 0 <= k < |s| - |u| ==> drop(s[k])
    requires u == [] || !drop(u[0])
    requires |t| <= |u| && t == u[..|t|]
    requires t == [] || !drop(t[|t| - 1])
    requires forall k :: |t| <= k < |u| ==> drop(u[k])
    ensures TrimmedBetween(t, s, drop, |s| - |u|, |s| - |u| + |t|)
  {
    var i := |s| - |u|;
    var j := i + |t|;
    assert t == s[i..j];
    forall k | j <= k < |s| ensures drop(s[k]) {
      assert s[k] == u[k - i];
    }
    if i < j {
      assert s[i] == u[0];
      assert s[j - 1] == t[|t| - 1];
    }
  }

  /** Neither end of a trimmed string is droppable. */
  lemma TrimWhereEnds(s: string, drop: char -> bool)
    ensures var t := TrimWhere(s, drop);
            t == [] || (!drop(t[0]) && !drop(t[|t| - 1]))
  {
    var u := TrimStart(s, drop);
    var t := TrimEnd(u, drop);
    TrimStartFacts(s, drop);
    TrimEndFacts(u, drop);
    if t != [] {
      assert t[0] == u[0];
    }
  }

  /** Every character of a trimmed string occurs in the original. */
  lemma TrimKeepsOnlySourceCharacters(s: string, drop: char -> bool)
    ensures forall c :: c in TrimWhere(s, drop) ==> c in s
  {
    var u := TrimStart(s, drop);
    var t := TrimEnd(u, drop);
    TrimStartFacts(s, drop);
    TrimEndFacts(u, drop);
    forall c | c in t ensures c in s {
      var k :| 0 <= k < |t| && t[k] == c;
      assert t[k] == u[k];
      assert u[k] == s[|s| - |u| + k];
    }
  }

  lemma {:induction false} TrimStartAt(s: string, drop: char -> bool, i: nat)
    requires i <= |s|
    requires forall k :: 0 <= k < i ==> drop(s[k])
    requires i < |s| ==> !drop(s[i])
    ensures TrimStart(s, drop) == s[i..]
    decreases i
  {
    TrimStartFacts(s, drop);
    if i > 0 {
      assert drop(s[0]);
      TrimStartAt(s[1..], drop, i - 1);
      assert s[1..][i - 1..] == s[i..];
    }
  }

  lemma {:induction false} TrimEndAt(s: string, drop: char -> bool, j: nat)
    requires j <= |s|
    requires forall k :: j <= k < |s| ==> drop(s[k])
    requires 0 < j ==> !drop(s[j - 1])
    ensures TrimEnd(s, drop) == s[..j]
    decreases |s| - j
  {
    TrimEndFacts(s, drop);
    if j < |s| {
      assert drop(s[|s| - 1]);
      var p := s[..|s| - 1];
      assert forall k :: j <= k < |p| ==> p[k] == s[k];
      TrimEndAt(p, drop, j);
      assert p[..j] == s[..j];
    }
  }

  /** The trimming of a string is unique, so `TrimWhere` is the only function
      meeting `TrimmedBetween`. */
  lemma {:induction false} TrimmingIsUnique(t: string, s: string, drop: char -> bool, i: int, j: int)
    requires TrimmedBetween(t, s, drop, i, j)
    ensures t == TrimWhere(s, drop)
  {
    if i == j {
      assert forall k :: 0 <= k < |s| ==> drop(s[k]);
      TrimStartAt(s, drop, |s|);
    } else {
      TrimStartAt(s, drop, i);
      TrimEndOfSuffix(s, drop, i, j);
    }
  }

  lemma TrimEndOfSuffix(s: string, drop: char -> bool, i: nat, j: nat)
    requires i < j <= |s|
    requires forall k :: j <= k < |s| ==> drop(s[k])
    requires !drop(s[j - 1])
    ensures TrimEnd(s[i..], drop) == s[i..j]
  {
    var u := s[i..];
    assert forall k :: j - i <= k < |u| ==> u[k] == s[k + i];
    assert u[j - i - 1] == s[j - 1];
    TrimEndAt(u, drop, j - i);
    assert u[..j - i] == s[i..j];
  }

  /** Trimming a word padded with droppable characters gives the word. */
  lemma TrimPadded(before: string, w: string, after: string, drop: char -> bool)
    requires forall k :: 0 <= k < |before| ==> drop(before[k])
    requires forall k :: 0 <= k < |after| ==> drop(after[k])
    requires w != [] && !drop(w[0]) && !drop(w[|w| - 1])
    ensures TrimWhere(before + w + after, drop) == w
  {
    var s := before + w + after;
    var i, j := |before|, |before| + |w|;
    assert s[i..j] == w;
    assert forall k :: 0 <= k < i ==> s[k] == before[k];
    assert forall k :: j <= k < |s| ==> s[k] == after[k - j];
    assert s[i] == w[0] && s[j - 1] == w[|w| - 1];
    TrimmingIsUnique(w, s, drop, i, j);
  }

  /** A string whose ends are not white space is its own trimming. */
  lemma TrimKeepsTrimmed(w: string)
    requires w == [] || (!IsWhiteSpace(w[0]) && !IsWhiteSpace(w[|w| - 1]))
    ensures Trim(w) == w
  {
  }

  /** Trimming twice is trimming once. */
  lemma TrimIdempotent(s: string)
    ensures Trim(Trim(s)) == Trim(s)
  {
    TrimWhereEnds(s, IsWhiteSpace);
    TrimKeepsTrimmed(Trim(s));
  }

  /** Number of occurrences of `c` in `s`. */
  function Count(s: string, c: char): nat {
    if s == [] then 0 else (if s[0] == c then 1 else 0) + Count(s[1..], c)
  }

  /** `String.Join(sep, parts)`. */
  function Join(parts: seq<string>, sep: char): string
    requires |parts| >= 1
    decreases |parts|
  {
    if |parts| == 1 then parts[0] else parts[0] + [sep] + Join(parts[1..], sep)
  }

  /** `String.Split(sep)`: empty pieces are kept, so a string with n
      separators always has n + 1 pieces. */
  function Split(s: string, sep: char): (parts: seq<string>)
    ensures |parts| == Count(s, sep) + 1
  {
    if s == [] then [""]
    else
      var rest := Split(s[1..], sep);
      if s[0] == sep then [""] + rest
      else [[s[0]] + rest[0]] + rest[1..]
  }

  /** No piece holds the separator, and the pieces joined back with the
      separator give the string. */
  lemma {:induction false} SplitFacts(s: string, sep: char)
    ensures forall p | p in Split(s, sep) :: sep !in p
    ensures Join(Split(s, sep), sep) == s
  {
    if s != [] {
      SplitFacts(s[1..], sep);
      var rest := Split(s[1..], sep);
      if s[0] == sep {
        assert ([""] + rest)[1..] == rest;
        assert s == [sep] + s[1..];
      } else {
        var parts := [[s[0]] + rest[0]] + rest[1..];
        assert rest[0] in rest;
        assert parts[1..] == rest[1..];
        forall p | p in parts ensures sep !in p {
          if p != parts[0] {
            assert p in rest;
          }
        }
        assert Join(parts, sep) == [s[0]] + Join(rest, sep);
        assert [s[0]] + s[1..] == s;
      }
    }
  }

  lemma {:induction false} SplitWithoutSeparator(a: string, sep: char)
    requires sep !in a
    ensures Split(a, sep) == [a]
  {
    if a != [] {
      SplitWithoutSeparator(a[1..], sep);
      assert [a[0]] + a[1..] == a;
    }
  }

  lemma {:induction false} SplitAtSeparator(a: string, b: string, sep: char)
    requires sep !in a
    ensures Split(a + [sep] + b, sep) == [a] + Split(b, sep)
  {
    if a == [] {
      assert a + [sep] + b == [sep] + b;
      assert ([sep] + b)[1..] == b;
    } else {
      var s := a + [sep] + b;
      assert s[0] == a[0] && s[1..] == a[1..] + [sep] + b;
      SplitAtSeparator(a[1..], b, sep);
      var rest := Split(s[1..], sep);
      assert rest == [a[1..]] + Split(b, sep);
      assert rest[0] == a[1..] && rest[1..] == Split(b, sep);
      assert [a[0]] + a[1..] == a;
      assert Split(s, sep) == [[a[0]] + rest[0]] + rest[1..];
    }
  }

  /** Splitting undoes joining pieces that hold no separator. */
  lemma {:induction false} SplitJoin(parts: seq<string>, sep: char)
    requires |parts| >= 1
    requires forall p | p in parts :: sep !in p
    ensures Split(Join(parts, sep), sep) == parts
  {
    if |parts| == 1 {
      SplitWithoutSeparator(parts[0], sep);
    } else {
      SplitJoin(parts[1..], sep);
      SplitAtSeparator(parts[0], Join(parts[1..], sep), sep);
      assert [parts[0]] + parts[1..] == parts;
    }
  }

  /** ASCII upper-case letters mapped to lower case; every other character
      unchanged. */
  function AsciiLower(s: string): (t: string)
    ensures |t| == |s|
    ensures forall k :: 0 <= k < |t| ==> !('A' <= t[k] <= 'Z')
  {
    seq(|s|, k requires 0 <= k < |s| => if 'A' <= s[k] <= 'Z' then (s[k] as int + 32) as char else s[k])
  }
}
