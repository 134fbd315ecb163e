/**
  The string operations of the Kotlin standard library that the SDK relies on:
  `contains`, `replace`, `split` (with and without `limit = 2`), `trim`,
  `joinToString` and `uppercase`, each as it behaves on the JVM.
 */
module Text {
  import opened Wrappers

  /** `sub` occurs in `s` starting at index `i`. */
  predicate OccursAt(s: string, sub: string, i: nat) {
    i + |sub| <= |s| && s[i..i + |sub|] == sub
  }

  /** Kotlin's `String.contains(other)`. */
  predicate Contains(s: string, sub: string) {
    exists i: nat | i <= |s| :: OccursAt(s, sub, i)
  }

  /** An occurrence that is not at the front of `s` is an occurrence in `s[1..]`. */
  lemma OccursInTail(s: string, sub: string, i: nat)
    requires 0 < i && OccursAt(s, sub, i)
    ensures OccursAt(s[1..], sub, i - 1)
  {
    assert s[1..][i - 1..i - 1 + |sub|] == s[i..i + |sub|];
  }

  /** An occurrence in `s[1..]` is an occurrence in `s`, one place later. */
  lemma OccursInWhole(s: string, sub: string, i: nat)
    requires |s| > 0 && OccursAt(s[1..], sub, i)
    ensures OccursAt(s, sub, i + 1)
  {
    assert s[1..][i..i + |sub|] == s[i + 1..i + 1 + |sub|];
  }

  /**
    Kotlin's `String.replace(oldValue, newValue)`: scans left to right and
    replaces every non-overlapping occurrence of `pat`.  Every call in the SDK
    passes a non-empty literal as `pat`.
   */
  function ReplaceAll(s: string, pat: string, rep: string): (r: string)
    requires pat != []
    ensures !Contains(s, pat) ==> r == s
    decreases |s|
  {
    if |s| < |pat| then s
    else if s[..|pat|] == pat then
      assert OccursAt(s, pat, 0);
      rep + ReplaceAll(s[|pat|..], pat, rep)
    else
      ghost var hasTail := Contains(s[1..], pat);
      assert hasTail ==> Contains(s, pat) by {
        if hasTail {
          var i: nat :| i <= |s[1..]| && OccursAt(s[1..], pat, i);
          OccursInWhole(s, pat, i);
        }
      }
      [s[0]] + ReplaceAll(s[1..], pat, rep)
  }

  /**
    A replacement by something shorter shortens the string exactly when the
    pattern occurs: the single left-to-right pass performs at least one
    replacement whenever there is an occurrence.
   */
  lemma {:induction false} ReplaceAllShrinks(s: string, pat: string, rep: string)
    requires pat != [] && |rep| < |pat|
    ensures |ReplaceAll(s, pat, rep)| <= |s|
    ensures |ReplaceAll(s, pat, rep)| < |s| <==> Contains(s, pat)
    decreases |s|
  {
    if |s| < |pat| {
    } else if s[..|pat|] == pat {
      ReplaceAllShrinks(s[|pat|..], pat, rep);
      assert OccursAt(s, pat, 0);
    } else {
      ReplaceAllShrinks(s[1..], pat, rep);
      if Contains(s, pat) {
        var i: nat :| i <= |s| && OccursAt(s, pat, i);
        assert i != 0;
        OccursInTail(s, pat, i);
        assert Contains(s[1..], pat);
      }
      if Contains(s[1..], pat) {
        var i: nat :| i <= |s[1..]| && OccursAt(s[1..], pat, i);
        OccursInWhole(s, pat, i);
      }
    }
  }

  /** Replaces every `c` in `s` by `rep`, character by character. */
  function Subst(s: string, c: char, rep: string): (r: string)
    ensures c !in s ==> r == s
  {
    if s == [] then []
    else (if s[0] == c then rep else [s[0]]) + Subst(s[1..], c, rep)
  }

  lemma ConcatAssoc<T>(x: seq<T>, y: seq<T>, z: seq<T>)
    ensures x + (y + z) == (x + y) + z
  {
  }

  lemma SubstCons(x: char, s: string, c: char, rep: string)
    ensures Subst([x] + s, c, rep) == (if x == c then rep else [x]) + Subst(s, c, rep)
  {
    assert ([x] + s)[0] == x && ([x] + s)[1..] == s;
  }

  lemma {:induction false} SubstConcat(a: string, b: string, c: char, rep: string)
    ensures Subst(a + b, c, rep) == Subst(a, c, rep) + Subst(b, c, rep)
  {
    if a == [] {
      assert a + b == b;
    } else {
      var x, t := a[0], a[1..];
      assert a == [x] + t && a + b == [x] + (t + b);
      SubstConcat(t, b, c, rep);
      SubstCons(x, t + b, c, rep);
      SubstCons(x, t, c, rep);
      ConcatAssoc(if x == c then rep else [x], Subst(t, c, rep), Subst(b, c, rep));
    }
  }

  /** Replacing a one-character pattern is a character-by-character substitution. */
  lemma {:induction false} ReplaceSingle(s: string, c: char, rep: string)
    ensures ReplaceAll(s, [c], rep) == Subst(s, c, rep)
  {
    if s != [] {
      assert s[..1] == [c] <==> s[0] == c;
      ReplaceSingle(s[1..], c, rep);
    }
  }

  /** Position of the first `c` in `s`, or None. */
  function IndexOf(s: string, c: char): (r: Option<nat>)
    ensures r.None? <==> c !in s
    ensures r.Some? ==> r.value < |s| && s[r.value] == c && c !in s[..r.value]
  {
    if s == [] then None
    else if s[0] == c then Some(0)
    else match IndexOf(s[1..], c)
      case None => None
      case Some(i) => assert s[..i + 1] == [s[0]] + s[1..][..i]; Some(i + 1)
  }

  /**
    Kotlin's `split(sep)` with a one-character delimiter and no limit: every
    occurrence of `sep` cuts, and empty pieces are kept.
   */
  function Split(s: string, sep: char): (parts: seq<string>)
    ensures |parts| >= 1
    ensures forall i :: 0 <= i < |parts| ==> sep !in parts[i]
  {
    if s == [] then [""]
    else
      var rest := Split(s[1..], sep);
      if s[0] == sep then [""] + rest
      else [[s[0]] + rest[0]] + rest[1..]
  }

  /** Kotlin's `joinToString(sep)`: an empty list gives the empty string. */
  function Join(parts: seq<string>, sep: string): string {
    if |parts| == 0 then ""
    else if |parts| == 1 then parts[0]
    else parts[0] + sep + Join(parts[1..], sep)
  }

  lemma {:induction false} SplitNoSep(s: string, sep: char)
    requires sep !in s
    ensures Split(s, sep) == [s]
  {
    if s != [] {
      SplitNoSep(s[1..], sep);
      assert [s[0]] + s[1..] == s;
    }
  }

  lemma {:induction false} SplitAtSep(a: string, b: string, sep: char)
    requires sep !in a
    ensures Split(a + [sep] + b, sep) == [a] + Split(b, sep)
  {
    if a == [] {
      assert a + [sep] + b == [sep] + b;
      assert ([sep] + b)[1..] == b;
    } else {
      var s := a + [sep] + b;
      assert s[0] == a[0] && s[1..] == a[1..] + [sep] + b;
      SplitAtSep(a[1..], b, sep);
      assert [a[0]] + a[1..] == a;
    }
  }

  /** A delimiter between two texts cuts between their pieces. */
  lemma {:induction false} SplitAround(a: string, b: string, sep: char)
    ensures Split(a + [sep] + b, sep) == Split(a, sep) + Split(b, sep)
  {
    if a == [] {
      assert a + [sep] + b == [sep] + b;
      SplitCons(sep, b, sep);
    } else {
      var x, t := a[0], a[1..];
      assert a == [x] + t && a + [sep] + b == [x] + (t + [sep] + b);
      SplitAround(t, b, sep);
      SplitCons(x, t + [sep] + b, sep);
      SplitCons(x, t, sep);
      var st, sb := Split(t, sep), Split(b, sep);
      if x == sep {
        ConcatAssoc([""], st, sb);
      } else {
        DropFirst(st, sb);
        ConcatAssoc([[x] + st[0]], st[1..], sb);
      }
    }
  }

  /** Splitting a string that starts with `x`: a delimiter opens a new piece, anything else joins the first one. */
  lemma SplitCons(x: char, s: string, sep: char)
    ensures Split([x] + s, sep) ==
      if x == sep then [""] + Split(s, sep) else [[x] + Split(s, sep)[0]] + Split(s, sep)[1..]
  {
    assert ([x] + s)[0] == x && ([x] + s)[1..] == s;
  }

  lemma DropFirst<T>(p: seq<T>, q: seq<T>)
    requires |p| >= 1
    ensures (p + q)[0] == p[0] && (p + q)[1..] == p[1..] + q
  {
  }

  /** Joining pieces that do not contain the delimiter, then splitting, gives the pieces back. */
  lemma {:induction false} SplitJoin(parts: seq<string>, sep: char)
    requires |parts| >= 1
    requires forall i :: 0 <= i < |parts| ==> sep !in parts[i]
    ensures Split(Join(parts, [sep]), sep) == parts
  {
    if |parts| == 1 {
      SplitNoSep(parts[0], sep);
    } else {
      SplitJoin(parts[1..], sep);
      SplitAtSep(parts[0], Join(parts[1..], [sep]), sep);
      assert [parts[0]] + parts[1..] == parts;
    }
  }

  /** Splitting and joining back with the same delimiter gives the string back. */
  lemma {:induction false} JoinSplit(s: string, sep: char)
    ensures Join(Split(s, sep), [sep]) == s
  {
    if s != [] {
      JoinSplit(s[1..], sep);
      var rest := Split(s[1..], sep);
      if s[0] != sep {
        var parts := [[s[0]] + rest[0]] + rest[1..];
        assert parts[1..] == rest[1..];
        if |rest| > 1 {
          assert Join(rest, [sep]) == rest[0] + [sep] + Join(rest[1..], [sep]);
        }
      } else {
        var parts := [""] + rest;
        assert parts[1..] == rest;
      }
    }
  }

  /**
    Kotlin's `split(sep, limit = 2)`: the text before the first `sep` and
    the whole remainder after it, or the string alone when `sep` is absent.
   */
  function SplitFirst(s: string, sep: char): (parts: seq<string>)
    ensures 1 <= |parts| <= 2
    ensures |parts| == 1 <==> sep !in s
    ensures sep !in parts[0]
    ensures Join(parts, [sep]) == s
  {
    match IndexOf(s, sep)
    case None => [s]
    case Some(i) =>
      assert s == s[..i] + [sep] + s[i + 1..];
      [s[..i], s[i + 1..]]
  }

  /**
    Kotlin's `Char.isWhitespace()` on the JVM: `Character.isWhitespace` or
    `Character.isSpaceChar`, written out as code points.
   */
  predicate IsWhitespace(c: char) {
    var n := c as int;
    (9 <= n <= 13) || (0x1C <= n <= 0x20) || n == 0xA0 || n == 0x1680
    || (0x2000 <= n <= 0x200A) || n == 0x2028 || n == 0x2029 || n == 0x202F
    || n == 0x205F || n == 0x3000
  }

  /** Number of leading whitespace characters. */
  function LeadingSpace(s: string): (n: nat)
    ensures n <= |s|
    ensures forall i :: 0 <= i < n ==> IsWhitespace(s[i])
    ensures n < |s| ==> !IsWhitespace(s[n])
  {
    if s == [] || !IsWhitespace(s[0]) then 0 else 1 + LeadingSpace(s[1..])
  }

  /** Number of trailing whitespace characters. */
  function TrailingSpace(s: string): (n: nat)
    ensures n <= |s|
    ensures forall i :: |s| - n <= i < |s| ==> IsWhitespace(s[i])
    ensures n < |s| ==> !IsWhitespace(s[|s| - n - 1])
  {
    if s == [] || !IsWhitespace(s[|s| - 1]) then 0 else 1 + TrailingSpace(s[..|s| - 1])
  }

  /**
    Kotlin's `trim()`: the longest middle part of `s` that neither starts nor
    ends with whitespace (`TrimCutsOnlyWhitespace` states what is cut off).
   */
  function Trim(s: string): (r: string)
    ensures |r| <= |s|
    ensures r == [] || (!IsWhitespace(r[0]) && !IsWhitespace(r[|r| - 1]))
    ensures r == [] ==> forall i :: 0 <= i < |s| ==> IsWhitespace(s[i])
    ensures (s == [] || (!IsWhitespace(s[0]) && !IsWhitespace(s[|s| - 1]))) ==> r == s
  {
    var a := LeadingSpace(s);
    var b := TrailingSpace(s[a..]);
    s[a..|s| - b]
  }

  /**
    What `trim()` removes: the result is the slice of `s` that starts after
    the leading whitespace, and everything before and after it is whitespace.
   */
  lemma TrimCutsOnlyWhitespace(s: string)
    ensures LeadingSpace(s) + |Trim(s)| <= |s|
    ensures Trim(s) == s[LeadingSpace(s)..LeadingSpace(s) + |Trim(s)|]
    ensures forall i :: 0 <= i < LeadingSpace(s) ==> IsWhitespace(s[i])
    ensures forall i :: LeadingSpace(s) + |Trim(s)| <= i < |s| ==> IsWhitespace(s[i])
  {
    var a := LeadingSpace(s);
    var b := TrailingSpace(s[a..]);
    assert Trim(s) == s[a..|s| - b];
    TrailingOfSuffix(s, a);
  }

  /** The trailing whitespace of a suffix of `s` is whitespace of `s`. */
  lemma TrailingOfSuffix(s: string, a: nat)
    requires a <= |s|
    ensures forall i :: |s| - TrailingSpace(s[a..]) <= i < |s| ==> IsWhitespace(s[i])
  {
    var t := s[a..];
    forall i | |s| - TrailingSpace(t) <= i < |s| ensures IsWhitespace(s[i]) {
      assert s[i] == t[i - a];
    }
  }

  /** Trimming twice is trimming once. */
  lemma TrimIdempotent(s: string)
    ensures Trim(Trim(s)) == Trim(s)
  {
  }

  /** Kotlin's `uppercase()` on characters in the ASCII range. */
  function UpperChar(c: char): (u: char)
    ensures 'a' <= c <= 'z' ==> u as int == c as int - 32
    ensures !('a' <= c <= 'z') ==> u == c
  {
    if 'a' <= c <= 'z' then (c as int - 32) as char else c
  }

  function Upper(s: string): (r: string)
    ensures |r| == |s|
    ensures forall i :: 0 <= i < |s| ==> r[i] == UpperChar(s[i])
  {
    if s == [] then [] else [UpperChar(s[0])] + Upper(s[1..])
  }
}
