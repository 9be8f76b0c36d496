/**
 * The JavaScript string operations the core relies on: `split` on one
 * character, `trim`, `toLowerCase`, `startsWith` and the whitespace class
 * `\s` of regular expressions.
 */
module Text {

  /** The characters JavaScript's `\s` and `String.prototype.trim` treat as
      white space: WhiteSpace and LineTerminator of ECMAScript. */
  const WHITESPACE: set<char> :=
    {'\t', '\n', '\U{000B}', '\U{000C}', '\r', ' ', '\U{00A0}', '\U{1680}',
     '\U{2000}', '\U{2001}', '\U{2002}', '\U{2003}', '\U{2004}', '\U{2005}',
     '\U{2006}', '\U{2007}', '\U{2008}', '\U{2009}', '\U{200A}',
     '\U{2028}', '\U{2029}', '\U{202F}', '\U{205F}', '\U{3000}', '\U{FEFF}'}

  predicate IsWhitespace(c: char) {
    c in WHITESPACE
  }

  predicate NoWhitespace(s: string) {
    forall i :: 0 <= i < |s| ==> !IsWhitespace(s[i])
  }

  /** Text without white space stays so when joined. */
  lemma NoWhitespaceAppend(a: string, b: string)
    requires NoWhitespace(a) && NoWhitespace(b)
    ensures NoWhitespace(a + b)
  {
    forall i | 0 <= i < |a + b|
      ensures !IsWhitespace((a + b)[i])
    {
      if i < |a| {
        assert (a + b)[i] == a[i];
      } else {
        assert (a + b)[i] == b[i - |a|];
      }
    }
  }

  predicate StartsWith(s: string, prefix: string) {
    |prefix| <= |s| && s[..|prefix|] == prefix
  }

  /** Lower-casing of one character; only the ASCII letters are mapped. */
  function LowerChar(c: char): (r: char)
    ensures 'A' <= c <= 'Z' ==> r as int == c as int + 32
    ensures !('A' <= c <= 'Z') ==> r == c
  {
    if 'A' <= c <= 'Z' then (c as int + 32) as char else c
  }

  function Lower(s: string): (r: string)
    ensures |r| == |s|
    ensures forall i :: 0 <= i < |s| ==> r[i] == LowerChar(s[i])
  {
    if s == [] then [] else [LowerChar(s[0])] + Lower(s[1..])
  }

  /** Case-insensitive equality as `a.toLowerCase() === b.toLowerCase()`. */
  predicate EqualsIgnoreCase(a: string, b: string) {
    Lower(a) == Lower(b)
  }

  /** Drops the white space at the front: what is removed is all white
      space, and what is kept does not start with it. */
  function TrimStart(s: string): (r: string)
    ensures |r| <= |s| && r == s[|s| - |r|..]
    ensures forall i :: 0 <= i < |s| - |r| ==> IsWhitespace(s[i])
    ensures r == [] || !IsWhitespace(r[0])
  {
    if s != [] && IsWhitespace(s[0]) then TrimStart(s[1..]) else s
  }

  /** Drops the white space at the back, the mirror image of `TrimStart`. */
  function TrimEnd(s: string): (r: string)
    ensures |r| <= |s| && r == s[..|r|]
    ensures forall i :: |r| <= i < |s| ==> IsWhitespace(s[i])
    ensures r == [] || !IsWhitespace(r[|r| - 1])
  {
    if s != [] && IsWhitespace(s[|s| - 1]) then TrimEnd(s[..|s| - 1]) else s
  }

  /** `String.prototype.trim`: drop white space at both ends. */
  function Trim(s: string): (r: string)
    ensures r == [] || (!IsWhitespace(r[0]) && !IsWhitespace(r[|r| - 1]))
  {
    var e := TrimEnd(s);
    var r := TrimStart(e);
    LastOfSuffix(e, r);
    r
  }

  /** A non-empty suffix ends where the whole string ends. */
  lemma LastOfSuffix(e: string, r: string)
    requires |r| <= |e| && r == e[|e| - |r|..]
    ensures r != [] ==> r[|r| - 1] == e[|e| - 1]
  {
  }

  /** What `Trim` removes is white space at the two ends and nothing else:
      the result is the slice of `s` between them. Together with the
      contract of `Trim`, this pins the result down. */
  lemma TrimRemovesOnlyWhitespace(s: string)
    ensures exists lo :: TrimmedAt(s, Trim(s), lo)
  {
    TrimmedAtEnds(s, TrimEnd(s), Trim(s));
  }

  /** `r` is the slice of `s` at `lo`, and everything of `s` before and after
      it is white space. */
  predicate TrimmedAt(s: string, r: string, lo: int) {
    0 <= lo <= |s| - |r| && r == s[lo..lo + |r|] &&
    (forall i :: 0 <= i < lo ==> IsWhitespace(s[i])) &&
    (forall i :: lo + |r| <= i < |s| ==> IsWhitespace(s[i]))
  }

  /** Cutting white space off the back of `s`, giving `e`, and then off the
      front of `e`, giving `r`, leaves `r` trimmed within `s`. */
  lemma TrimmedAtEnds(s: string, e: string, r: string)
    requires |e| <= |s| && e == s[..|e|]
    requires forall i :: |e| <= i < |s| ==> IsWhitespace(s[i])
    requires |r| <= |e| && r == e[|e| - |r|..]
    requires forall i :: 0 <= i < |e| - |r| ==> IsWhitespace(e[i])
    ensures TrimmedAt(s, r, |e| - |r|)
  {
    var lo := |e| - |r|;
    assert r == s[lo..lo + |r|];
    forall i | 0 <= i < lo
      ensures IsWhitespace(s[i])
    {
      assert s[i] == e[i];
    }
  }

  /** `s.split(sep)` for a one-character separator: the pieces between the
      separators, so `""` gives `[""]` and `","` gives `["", ""]`. */
  function Split(s: string, sep: char): (parts: seq<string>)
    ensures |parts| >= 1
    ensures forall k :: 0 <= k < |parts| ==> sep !in parts[k]
  {
    if s == [] then [""]
    else
      var rest := Split(s[1..], sep);
      if s[0] == sep then [""] + rest
      else [[s[0]] + rest[0]] + rest[1..]
  }

  /** `parts.join(sep)`, the inverse of `Split`. */
  function Join(parts: seq<string>, sep: char): string {
    if parts == [] then ""
    else if |parts| == 1 then parts[0]
    else parts[0] + [sep] + Join(parts[1..], sep)
  }

  /** Joining the pieces of a split gives back the string. */
  lemma {:induction false} JoinSplit(s: string, sep: char)
    ensures Join(Split(s, sep), sep) == s
  {
    if s != [] {
      var rest := Split(s[1..], sep);
      JoinSplit(s[1..], sep);
      if s[0] == sep {
        assert Split(s, sep) == [""] + rest;
        assert ([""] + rest)[1..] == rest;
      } else {
        var parts := Split(s, sep);
        assert parts == [[s[0]] + rest[0]] + rest[1..];
        if |rest| == 1 {
          assert parts == [[s[0]] + rest[0]];
        } else {
          assert parts[1..] == rest[1..];
          assert Join(rest, sep) == rest[0] + [sep] + Join(rest[1..], sep);
        }
      }
    }
  }

  /** A string without the separator splits into itself. */
  lemma {:induction false} SplitWithoutSeparator(s: string, sep: char)
    requires sep !in s
    ensures Split(s, sep) == [s]
  {
    if s != [] {
      assert sep !in s[1..];
      SplitWithoutSeparator(s[1..], sep);
      assert [s[0]] + s[1..] == s;
    }
  }

  /** A piece without the separator, then the separator: the piece comes
      off the front of the split. */
  lemma {:induction false} SplitAfterPiece(a: string, sep: char, rest: string)
    requires sep !in a
    ensures Split(a + [sep] + rest, sep) == [a] + Split(rest, sep)
  {
    var s := a + [sep] + rest;
    if a == [] {
      assert s == [sep] + rest;
      assert s[1..] == rest;
    } else {
      assert s[0] == a[0] && s[1..] == a[1..] + [sep] + rest;
      assert sep !in a[1..];
      SplitAfterPiece(a[1..], sep, rest);
      assert [a[0]] + a[1..] == a;
    }
  }

  /** Splitting a join of separator-free pieces gives the pieces back. */
  lemma {:induction false} SplitJoin(parts: seq<string>, sep: char)
    requires |parts| >= 1
    requires forall k :: 0 <= k < |parts| ==> sep !in parts[k]
    ensures Split(Join(parts, sep), sep) == parts
  {
    if |parts| == 1 {
      SplitWithoutSeparator(parts[0], sep);
    } else {
      SplitJoin(parts[1..], sep);
      SplitAfterPiece(parts[0], sep, Join(parts[1..], sep));
      assert [parts[0]] + parts[1..] == parts;
    }
  }

  /** `s.replace(/\s+/g, dash)` for a one-character replacement: every
      maximal run of white space becomes a single `dash`. */
  function ReplaceWhitespaceRuns(s: string, dash: char): (r: string)
    requires !IsWhitespace(dash)
    ensures NoWhitespace(r)
    ensures |r| <= |s|
    ensures NoWhitespace(s) ==> r == s
    ensures s != [] && (forall i :: 0 <= i < |s| ==> IsWhitespace(s[i])) ==> r == [dash]
    decreases |s|
  {
    if s == [] then []
    else if IsWhitespace(s[0]) then [dash] + ReplaceWhitespaceRuns(TrimStart(s), dash)
    else [s[0]] + ReplaceWhitespaceRuns(s[1..], dash)
  }

  /** Dropping the white space of `a + b`, where `a` holds a character that
      is not white space at `k`, stops inside `a`. */
  lemma {:induction false} TrimStartAppend(a: string, b: string, k: int)
    requires 0 <= k < |a| && !IsWhitespace(a[k])
    ensures TrimStart(a + b) == TrimStart(a) + b
    decreases |a|
  {
    if IsWhitespace(a[0]) {
      assert (a + b)[1..] == a[1..] + b;
      assert a[1..][k - 1] == a[k];
      TrimStartAppend(a[1..], b, k - 1);
    }
  }

  /** When `a` is all white space, dropping the white space of `a + b`
      drops all of `a`. */
  lemma {:induction false} DropAllWhitespace(a: string, b: string)
    requires forall i :: 0 <= i < |a| ==> IsWhitespace(a[i])
    ensures TrimStart(a + b) == TrimStart(b)
    decreases |a|
  {
    if a != [] {
      assert (a + b)[1..] == a[1..] + b;
      DropAllWhitespace(a[1..], b);
    } else {
      assert a + b == b;
    }
  }

  /** The head and tail of `a + b` for a non-empty `a`. */
  lemma TailOfAppend(a: string, b: string)
    requires a != []
    ensures (a + b)[0] == a[0] && (a + b)[1..] == a[1..] + b
  {
  }

  /** Regrouping a one-character prefix, stated apart so that proofs about
      replaced strings need not reason about their characters. */
  lemma ConsAssoc(c: char, x: string, y: string)
    ensures [c] + (x + y) == ([c] + x) + y
  {
  }

  /** One step of the replacement on a string that starts with a character
      other than white space. */
  lemma KeptHead(s: string, dash: char)
    requires !IsWhitespace(dash)
    requires s != [] && !IsWhitespace(s[0])
    ensures ReplaceWhitespaceRuns(s, dash) == [s[0]] + ReplaceWhitespaceRuns(s[1..], dash)
  {
  }

  /** One step of the replacement on a string that starts with white space. */
  lemma RunHead(s: string, dash: char)
    requires !IsWhitespace(dash)
    requires s != [] && IsWhitespace(s[0])
    ensures ReplaceWhitespaceRuns(s, dash) == [dash] + ReplaceWhitespaceRuns(TrimStart(s), dash)
  {
  }

  /** A run of white space that takes up all of `a`, before a `b` that does
      not start with white space: the run becomes one `dash` either way. */
  lemma {:induction false} AfterWholeRun(a: string, b: string, dash: char)
    requires !IsWhitespace(dash)
    requires a != [] && forall i :: 0 <= i < |a| ==> IsWhitespace(a[i])
    requires b == [] || !IsWhitespace(b[0])
    ensures ReplaceWhitespaceRuns(a + b, dash) == ReplaceWhitespaceRuns(a, dash) + ReplaceWhitespaceRuns(b, dash)
  {
    assert (a + b)[0] == a[0];
    DropAllWhitespace(a, b);
  }

  /** A run of white space at the front of `a` that ends inside `a`: the
      step from the rest of `a` to all of it. */
  lemma {:induction false} AfterInnerRun(a: string, b: string, dash: char)
    requires !IsWhitespace(dash)
    requires a != [] && IsWhitespace(a[0]) && TrimStart(a) != []
    requires ReplaceWhitespaceRuns(TrimStart(a) + b, dash) ==
             ReplaceWhitespaceRuns(TrimStart(a), dash) + ReplaceWhitespaceRuns(b, dash)
    ensures ReplaceWhitespaceRuns(a + b, dash) == ReplaceWhitespaceRuns(a, dash) + ReplaceWhitespaceRuns(b, dash)
  {
    var d := TrimStart(a);
    assert (a + b)[0] == a[0];
    RunHead(a, dash);
    RunHead(a + b, dash);
    TrimStartAppend(a, b, |a| - |d|);
    ConsAssoc(dash, ReplaceWhitespaceRuns(d, dash), ReplaceWhitespaceRuns(b, dash));
  }

  /** A first character that is not white space: the step from the rest of
      `a` to all of it. */
  lemma {:induction false} AfterKept(a: string, b: string, dash: char)
    requires !IsWhitespace(dash)
    requires a != [] && !IsWhitespace(a[0])
    requires ReplaceWhitespaceRuns(a[1..] + b, dash) ==
             ReplaceWhitespaceRuns(a[1..], dash) + ReplaceWhitespaceRuns(b, dash)
    ensures ReplaceWhitespaceRuns(a + b, dash) == ReplaceWhitespaceRuns(a, dash) + ReplaceWhitespaceRuns(b, dash)
  {
    TailOfAppend(a, b);
    KeptHead(a, dash);
    KeptHead(a + b, dash);
    ConsAssoc(a[0], ReplaceWhitespaceRuns(a[1..], dash), ReplaceWhitespaceRuns(b, dash));
  }

  /** The replacement works run by run: cutting a string anywhere except
      inside a run of white space, the two halves are replaced on their own.
      With the two contract clauses on runs and on text without white space,
      this says every maximal run becomes one `dash` and every other
      character is kept, in order. */
  lemma {:induction false} ReplaceAtRunBoundary(a: string, b: string, dash: char)
    requires !IsWhitespace(dash)
    requires a == [] || b == [] || !IsWhitespace(a[|a| - 1]) || !IsWhitespace(b[0])
    ensures ReplaceWhitespaceRuns(a + b, dash) == ReplaceWhitespaceRuns(a, dash) + ReplaceWhitespaceRuns(b, dash)
    decreases |a|
  {
    if a == [] {
      assert a + b == b;
    } else if IsWhitespace(a[0]) {
      var d := TrimStart(a);
      if d == [] {
        AfterWholeRun(a, b, dash);
      } else {
        assert d[|d| - 1] == a[|a| - 1];
        ReplaceAtRunBoundary(d, b, dash);
        AfterInnerRun(a, b, dash);
      }
    } else {
      var t := a[1..];
      assert t != [] ==> t[|t| - 1] == a[|a| - 1];
      ReplaceAtRunBoundary(t, b, dash);
      AfterKept(a, b, dash);
    }
  }

  /** A single run between two words becomes one `dash`. */
  lemma SingleRun(u: string, w: string, v: string, dash: char)
    requires !IsWhitespace(dash)
    requires NoWhitespace(u) && NoWhitespace(v)
    requires w != [] && forall i :: 0 <= i < |w| ==> IsWhitespace(w[i])
    ensures ReplaceWhitespaceRuns(u + w + v, dash) == u + [dash] + v
  {
    ReplaceAtRunBoundary(u, w, dash);
    ReplaceAtRunBoundary(u + w, v, dash);
  }
}
