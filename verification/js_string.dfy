// The JavaScript string operations the editor relies on: `trim()`,
// `split(/\s+/)` after a trim, and `split(',')`. Strings are `seq<char>`.

module JsString {

  /** The characters ECMAScript's `trim` and the regex class `\s` treat as
      white space (WhiteSpace and LineTerminator code points). */
  predicate IsSpace(c: char) {
    c == '\t' || c == '\n' || c == '\U{000B}' || c == '\U{000C}' || c == '\r'
    || c == ' ' || c == '\U{00A0}' || c == '\U{1680}'
    || ('\U{2000}' <= c <= '\U{200A}')
    || c == '\U{2028}' || c == '\U{2029}' || c == '\U{202F}' || c == '\U{205F}'
    || c == '\U{3000}' || c == '\U{FEFF}'
  }

  predicate AllSpace(s: string) {
    forall i :: 0 <= i < |s| ==> IsSpace(s[i])
  }

  predicate NoSpace(s: string) {
    forall i :: 0 <= i < |s| ==> !IsSpace(s[i])
  }

  /** The number of white-space characters `s` starts with. */
  function LeadingSpaces(s: string): (n: nat)
    ensures n <= |s|
    ensures forall i :: 0 <= i < n ==> IsSpace(s[i])
    ensures n < |s| ==> !IsSpace(s[n])
  {
    if s == [] || !IsSpace(s[0]) then 0 else LeadingSpaces(s[1..]) + 1
  }

  /** The number of white-space characters `s` ends with. */
  function TrailingSpaces(s: string): (n: nat)
    ensures n <= |s|
    ensures forall i :: |s| - n <= i < |s| ==> IsSpace(s[i])
    ensures n < |s| ==> !IsSpace(s[|s| - n - 1])
  {
    if s == [] || !IsSpace(s[|s| - 1]) then 0 else TrailingSpaces(s[..|s| - 1]) + 1
  }

  /** Drops leading white space: the result is the suffix of `s` that starts
      at its first non-space character. */
  function TrimStart(s: string): (r: string)
    ensures |r| <= |s| && r == s[|s| - |r|..]
    ensures AllSpace(s[..|s| - |r|])
    ensures r == [] || !IsSpace(r[0])
  {
    s[LeadingSpaces(s)..]
  }

  /** Drops trailing white space: the result is the prefix of `s` that ends
      at its last non-space character. */
  function TrimEnd(s: string): (r: string)
    ensures |r| <= |s| && r == s[..|r|]
    ensures AllSpace(s[|r|..])
    ensures r == [] || !IsSpace(r[|r| - 1])
  {
    s[..|s| - TrailingSpaces(s)]
  }

  /** `s.trim()`: `s` without its leading and its trailing white space
      (that it is the middle part of `s` is `TrimIsInfix`). */
  function Trim(s: string): (r: string)
    ensures |r| <= |s|
    ensures r == [] || (!IsSpace(r[0]) && !IsSpace(r[|r| - 1]))
    ensures r == [] <==> AllSpace(s)
  {
    var t := TrimStart(s);
    var r := TrimEnd(t);
    TrimmedEmpty(s, |s| - |t|, r);
    assert r != [] ==> r[0] == t[0] && t[0] == s[|s| - |t|];
    r
  }

  /** The trimmed text is the run of `s` that starts where the leading
      white space ends, and only white space follows it. */
  lemma TrimIsInfix(s: string)
    ensures var a, r := LeadingSpaces(s), Trim(s);
      && a + |r| <= |s|
      && (forall i :: 0 <= i < |r| ==> r[i] == s[a + i])
      && (forall i :: a + |r| <= i < |s| ==> IsSpace(s[i]))
  {
    var a := LeadingSpaces(s);
    var t := TrimStart(s);
    var r := TrimEnd(t);
    assert Trim(s) == r;
    assert t == s[a..];
    forall i | a + |r| <= i < |s| ensures IsSpace(s[i]) {
      assert s[i] == t[i - a] == t[|r|..][i - a - |r|];
    }
  }

  lemma TrimmedEmpty(s: string, a: nat, r: string)
    requires a <= |s| && AllSpace(s[..a]) && r == TrimEnd(s[a..])
    ensures r == [] ==> AllSpace(s)
  {
    if r == [] {
      forall i | 0 <= i < |s| ensures IsSpace(s[i]) {
        if i < a { assert s[i] == s[..a][i]; } else { assert s[i] == s[a..][i - a]; }
      }
    }
  }

  /** The number of leading non-space characters. */
  function LeadingRun(s: string): (n: nat)
    ensures n <= |s| && NoSpace(s[..n])
    ensures n < |s| ==> IsSpace(s[n])
  {
    if s == [] || IsSpace(s[0]) then 0
    else
      var n := LeadingRun(s[1..]);
      assert s[..n + 1] == [s[0]] + s[1..][..n];
      n + 1
  }

  /** The maximal runs of non-space characters of `s`, in order. */
  function Words(s: string): (ws: seq<string>)
    ensures forall k :: 0 <= k < |ws| ==> ws[k] != [] && NoSpace(ws[k])
    decreases |s|
  {
    if s == [] then []
    else if IsSpace(s[0]) then Words(s[1..])
    else
      var n := LeadingRun(s);
      assert n != 0;
      [s[..n]] + Words(s[n..])
  }

  /** A white-space character splits the words: those of the text before
      it, then those of the text after it. */
  lemma {:induction false} WordsSpaceSplit(a: string, c: char, b: string)
    requires IsSpace(c)
    ensures Words(a + [c] + b) == Words(a) + Words(b)
    decreases |a|
  {
    var s := a + [c] + b;
    if a == [] {
      assert s[1..] == b;
    } else if IsSpace(a[0]) {
      assert s[1..] == a[1..] + [c] + b;
      WordsSpaceSplit(a[1..], c, b);
    } else {
      var n := LeadingRun(a);
      LeadingRunSpaceTail(a, [c] + b);
      assert s == a + ([c] + b);
      assert s[..n] == a[..n];
      assert s[n..] == a[n..] + [c] + b;
      WordsSpaceSplit(a[n..], c, b);
    }
  }

  /** Text that starts with white space does not extend the first run. */
  lemma {:induction false} LeadingRunSpaceTail(a: string, t: string)
    requires t != [] && IsSpace(t[0])
    ensures LeadingRun(a + t) == LeadingRun(a)
    decreases |a|
  {
    if a != [] && !IsSpace(a[0]) {
      assert (a + t)[1..] == a[1..] + t;
      LeadingRunSpaceTail(a[1..], t);
    }
  }

  /** A single word is its own only word. */
  lemma WordsOfWord(w: string)
    requires w != [] && NoSpace(w)
    ensures Words(w) == [w]
  {
    LeadingRunOfWord(w, []);
    assert w + [] == w;
    assert w[|w|..] == [];
  }

  /** White space alone has no words. */
  lemma {:induction false} WordsOfSpace(s: string)
    requires AllSpace(s)
    ensures Words(s) == []
    decreases |s|
  {
    if s != [] {
      WordsOfSpace(s[1..]);
    }
  }

  /** White space before or after the text does not change its words. */
  lemma WordsFramed(pre: string, x: string, post: string)
    requires AllSpace(pre) && AllSpace(post)
    ensures Words(pre + x + post) == Words(x)
  {
    var y := x + post;
    if post != [] {
      var p := post[1..];
      WordsOfSpace(p);
      assert x + post == x + [post[0]] + p;
      WordsSpaceSplit(x, post[0], p);
    } else {
      assert y == x;
    }
    if pre != [] {
      var q := pre[..|pre| - 1];
      WordsOfSpace(q);
      assert pre + x + post == q + [pre[|pre| - 1]] + y;
      WordsSpaceSplit(q, pre[|pre| - 1], y);
    } else {
      assert pre + x + post == y;
    }
  }

  /** `s.trim().split(/\s+/)`: the empty string gives one empty token,
      anything else its white-space separated words. */
  function SplitWhitespace(s: string): (tokens: seq<string>)
    ensures |tokens| >= 1
    ensures AllSpace(s) ==> tokens == [""]
    ensures !AllSpace(s) ==> forall k :: 0 <= k < |tokens| ==> tokens[k] != [] && NoSpace(tokens[k])
  {
    var t := Trim(s);
    if t == [] then [""] else Words(t)
  }

  /** `trim().split(/\s+/)` of text with any non-space character is the
      text's words, whatever white space separates or surrounds them. */
  lemma SplitWhitespaceIsWords(s: string)
    requires !AllSpace(s)
    ensures SplitWhitespace(s) == Words(s)
  {
    var pre, post := TrimFrame(s);
    WordsFramed(pre, Trim(s), post);
  }

  /** `s` is its trimmed text framed by white space on both sides. */
  lemma TrimFrame(s: string) returns (pre: string, post: string)
    ensures AllSpace(pre) && AllSpace(post) && s == pre + Trim(s) + post
  {
    var a, r := LeadingSpaces(s), Trim(s);
    TrimIsInfix(s);
    pre, post := s[..a], s[a + |r|..];
    assert s[a..a + |r|] == r;
    assert s == pre + s[a..a + |r|] + post;
    forall i | 0 <= i < |post| ensures IsSpace(post[i]) {
      assert post[i] == s[a + |r| + i];
    }
  }

  /** `s.split(sep)` for a one-character separator: the (possibly empty)
      fields between separators. */
  function SplitOn(s: string, sep: char): (fields: seq<string>)
    ensures |fields| >= 1
    ensures forall k :: 0 <= k < |fields| ==> sep !in fields[k]
  {
    if s == [] then [[]]
    else
      var rest := SplitOn(s[1..], sep);
      if s[0] == sep then [[]] + rest
      else [[s[0]] + rest[0]] + rest[1..]
  }

  /** `parts.join([sep])`, the reference inverse of both splits. */
  function Join(parts: seq<string>, sep: char): string {
    if |parts| == 0 then []
    else if |parts| == 1 then parts[0]
    else parts[0] + [sep] + Join(parts[1..], sep)
  }

  /** Splitting at every comma and joining again gives the text back. */
  lemma {:induction false} JoinSplitOn(s: string, sep: char)
    ensures Join(SplitOn(s, sep), sep) == s
  {
    if s != [] {
      var rest := SplitOn(s[1..], sep);
      JoinSplitOn(s[1..], sep);
      if s[0] != sep && |rest| >= 2 {
        var fields := [[s[0]] + rest[0]] + rest[1..];
        assert fields[1..] == rest[1..];
        assert Join(rest, sep) == rest[0] + [sep] + Join(rest[1..], sep);
      } else if s[0] == sep {
        assert ([[]] + rest)[1..] == rest;
      }
    }
  }

  /** Joining comma-free fields and splitting again gives the fields back. */
  lemma {:induction false} SplitOnJoin(fields: seq<string>, sep: char)
    requires |fields| >= 1
    requires forall k :: 0 <= k < |fields| ==> sep !in fields[k]
    ensures SplitOn(Join(fields, sep), sep) == fields
    decreases |fields|, |fields[0]|
  {
    var f := fields[0];
    if f == [] {
      if |fields| >= 2 {
        SplitOnJoin(fields[1..], sep);
        assert Join(fields, sep) == [sep] + Join(fields[1..], sep);
      }
    } else {
      var shorter := [f[1..]] + fields[1..];
      assert shorter[1..] == fields[1..];
      SplitOnJoin(shorter, sep);
      if |fields| == 1 {
        assert Join(fields, sep) == [f[0]] + Join(shorter, sep);
      } else {
        assert Join(fields, sep) == [f[0]] + Join(shorter, sep);
      }
      assert [f[0]] + shorter[0] == f;
    }
  }

  lemma LeadingRunOfWord(w: string, tail: string)
    requires NoSpace(w)
    requires tail == [] || IsSpace(tail[0])
    ensures LeadingRun(w + tail) == |w|
    decreases |w|
  {
    if w != [] {
      assert (w + tail)[1..] == w[1..] + tail;
      LeadingRunOfWord(w[1..], tail);
    }
  }

  /** Words separated by single spaces split back into the same words. */
  lemma {:induction false} WordsJoin(ws: seq<string>)
    requires forall k :: 0 <= k < |ws| ==> ws[k] != [] && NoSpace(ws[k])
    ensures Words(Join(ws, ' ')) == ws
  {
    if |ws| == 1 {
      var w := ws[0];
      LeadingRunOfWord(w, []);
      assert w + [] == w;
      assert w[|w|..] == [];
    } else if |ws| >= 2 {
      var w := ws[0];
      var t := [' '] + Join(ws[1..], ' ');
      assert Join(ws, ' ') == w + t;
      LeadingRunOfWord(w, t);
      assert (w + t)[..|w|] == w && (w + t)[|w|..] == t;
      assert t[1..] == Join(ws[1..], ' ');
      WordsJoin(ws[1..]);
      assert [w] + ws[1..] == ws;
    }
  }

  lemma JoinStartsWithFirst(ws: seq<string>)
    requires |ws| >= 1 && ws[0] != []
    ensures Join(ws, ' ') != [] && Join(ws, ' ')[0] == ws[0][0]
  {
  }

  lemma JoinEndsWithLast(ws: seq<string>)
    requires |ws| >= 1 && ws[|ws| - 1] != []
    ensures Join(ws, ' ') != [] && Join(ws, ' ')[|Join(ws, ' ')| - 1] == ws[|ws| - 1][|ws[|ws| - 1]| - 1]
  {
    if |ws| >= 2 {
      JoinEndsWithLast(ws[1..]);
    }
  }

  /** Non-empty words joined by single spaces split back into the same
      words under `trim().split(/\s+/)`. */
  lemma SplitWhitespaceJoin(ws: seq<string>)
    requires |ws| >= 1
    requires forall k :: 0 <= k < |ws| ==> ws[k] != [] && NoSpace(ws[k])
    ensures SplitWhitespace(Join(ws, ' ')) == ws
  {
    var s := Join(ws, ' ');
    JoinStartsWithFirst(ws);
    JoinEndsWithLast(ws);
    assert !IsSpace(ws[0][0]);
    assert !IsSpace(ws[|ws| - 1][|ws[|ws| - 1]| - 1]);
    assert TrimStart(s) == s;
    assert TrimEnd(s) == s;
    WordsJoin(ws);
  }
}
