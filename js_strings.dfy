/** The JavaScript string and array built-ins the chat views are made of
    (`trim`, `includes`, `replace` with a string pattern, `split` on one
    character, `join`, `filter` of blank entries), over `seq<char>`. */
module JsStrings {
  import opened Wrappers

  /** The characters `String.prototype.trim` strips: WhiteSpace and
      LineTerminator of ECMAScript, the Zs category included (tab, line
      feed, vertical tab, form feed and carriage return are U+0009..U+000D). */
  predicate IsWhitespace(c: char) {
    if c <= ' ' then
      c == ' ' || '\t' <= c <= '\r'
    else
      || c == '\U{00A0}' || c == '\U{1680}' || '\U{2000}' <= c <= '\U{200A}'
      || c == '\U{2028}' || c == '\U{2029}' || c == '\U{202F}' || c == '\U{205F}'
      || c == '\U{3000}' || c == '\U{FEFF}'
  }

  /** The same characters listed one by one, as the ECMAScript tables give
      them: five control characters, the no-break spaces, the Zs spaces
      U+2000..U+200A, the two line terminators and the byte order mark. */
  const TrimmedChars: set<char> := {
    '\t', '\n', '\U{000B}', '\U{000C}', '\r', ' ', '\U{00A0}', '\U{1680}',
    '\U{2000}', '\U{2001}', '\U{2002}', '\U{2003}', '\U{2004}', '\U{2005}',
    '\U{2006}', '\U{2007}', '\U{2008}', '\U{2009}', '\U{200A}',
    '\U{2028}', '\U{2029}', '\U{202F}', '\U{205F}', '\U{3000}', '\U{FEFF}'
  }

  /** The range tests of `IsWhitespace` pick out exactly the listed set. */
  lemma WhitespaceIsTrimmedChars(c: char)
    ensures IsWhitespace(c) <==> c in TrimmedChars
  {
  }

  /** Every character of `s` is whitespace (the empty string included). */
  predicate IsBlank(s: string) {
    forall i :: 0 <= i < |s| ==> IsWhitespace(s[i])
  }

  /** Leading whitespace removed: the result is a suffix of `s`, what was cut
      is blank, and the result does not start with whitespace. */
  function TrimStart(s: string): (r: string)
    ensures |r| <= |s| && r == s[|s| - |r|..]
    ensures IsBlank(s[..|s| - |r|])
    ensures r == [] || !IsWhitespace(r[0])
  {
    if s != [] && IsWhitespace(s[0]) then
      var r := TrimStart(s[1..]);
      assert s[..|s| - |r|] == [s[0]] + s[1..][..|s| - 1 - |r|];
      r
    else s
  }

  /** Trailing whitespace removed: the result is a prefix of `s`, what was
      cut is blank, and the result does not end with whitespace. */
  function TrimEnd(s: string): (r: string)
    ensures |r| <= |s| && r == s[..|r|]
    ensures IsBlank(s[|r|..])
    ensures r == [] || !IsWhitespace(r[|r| - 1])
  {
    if s != [] && IsWhitespace(s[|s| - 1]) then
      var r := TrimEnd(s[..|s| - 1]);
      assert s[|r|..] == s[..|s| - 1][|r|..] + [s[|s| - 1]];
      r
    else s
  }

  lemma SuffixSlices(s: string, k: nat, n: nat)
    requires k + n <= |s|
    ensures s[k..k + n] == s[k..][..n] && s[k + n..] == s[k..][n..]
  {
  }

  /** `s.trim()`: `s` is a blank head, the result and a blank tail, and the
      result neither starts nor ends with whitespace. */
  function Trim(s: string): (r: string)
    ensures var k := |s| - |TrimStart(s)|;
      && k + |r| <= |s| && r == s[k..k + |r|]
      && IsBlank(s[..k]) && IsBlank(s[k + |r|..])
    ensures r == [] || (!IsWhitespace(r[0]) && !IsWhitespace(r[|r| - 1]))
  {
    var t := TrimStart(s);
    var r := TrimEnd(t);
    SuffixSlices(s, |s| - |t|, |r|);
    r
  }

  /** `s.trim() === ''` holds exactly for blank strings. */
  lemma TrimEmptyIffBlank(s: string)
    ensures Trim(s) == [] <==> IsBlank(s)
  {
    var k := |s| - |TrimStart(s)|;
    if Trim(s) == [] {
      forall i | 0 <= i < |s| ensures IsWhitespace(s[i]) {
        if i < k {
          assert s[i] == s[..k][i];
        } else {
          assert s[i] == s[k..][i - k];
        }
      }
    } else {
      var r := Trim(s);
      assert r[0] == s[k];
    }
  }

  /** `p` appears in `s` at index `i`. */
  predicate OccursAt(s: string, p: string, i: int) {
    0 <= i && i + |p| <= |s| && s[i..i + |p|] == p
  }

  /** `i` is the leftmost index at which `p` appears in `s`. */
  predicate IsFirstOccurrence(s: string, p: string, i: int) {
    OccursAt(s, p, i) && forall j :: 0 <= j < i ==> !OccursAt(s, p, j)
  }

  lemma OccursAtShift(s: string, p: string, j: int)
    requires |s| > 0 && 0 <= j
    ensures OccursAt(s, p, j + 1) <==> OccursAt(s[1..], p, j)
  {
    if j + 1 + |p| <= |s| {
      assert s[j + 1..j + 1 + |p|] == s[1..][j..j + |p|];
    }
  }

  /** `s.indexOf(p)`: the leftmost occurrence, or none when `p` never appears. */
  function IndexOf(s: string, p: string): (r: Option<nat>)
    ensures r.Some? ==> IsFirstOccurrence(s, p, r.value)
    ensures r.None? ==> forall j :: !OccursAt(s, p, j)
    decreases |s|
  {
    if |s| < |p| then None
    else if s[..|p|] == p then
      assert OccursAt(s, p, 0);
      Some(0)
    else
      assert !OccursAt(s, p, 0);
      match IndexOf(s[1..], p)
      case None =>
        assert forall j :: !OccursAt(s, p, j) by {
          forall j | 1 <= j ensures !OccursAt(s, p, j) { OccursAtShift(s, p, j - 1); }
        }
        None
      case Some(i) =>
        OccursAtShift(s, p, i);
        assert forall j :: 0 <= j < i + 1 ==> !OccursAt(s, p, j) by {
          forall j | 1 <= j < i + 1 ensures !OccursAt(s, p, j) { OccursAtShift(s, p, j - 1); }
        }
        Some(i + 1)
  }

  /** `s.includes(p)`. */
  predicate Contains(s: string, p: string)
    ensures Contains(s, p) <==> exists j :: OccursAt(s, p, j)
  {
    IndexOf(s, p).Some?
  }

  /** An occurrence stays an occurrence when text is added around it. */
  lemma ContainsInContext(a: string, s: string, b: string, p: string)
    requires Contains(s, p)
    ensures Contains(a + s + b, p)
  {
    var j :| OccursAt(s, p, j);
    assert (a + s + b)[|a| + j..|a| + j + |p|] == s[j..j + |p|];
    assert OccursAt(a + s + b, p, |a| + j);
  }

  /** `s.replace(p, rep)` with a string pattern: only the leftmost occurrence
      of `p` is replaced, everything before and after it is kept, and a string
      without `p` comes back unchanged. The replacement is taken literally:
      JavaScript would expand the patterns `$&`, `` $` ``, `$'` and `$$` in
      it, and the one replacement this model makes (`/attachments/`) holds no
      `$`. */
  function ReplaceFirst(s: string, p: string, rep: string): (r: string)
    ensures (forall j :: !OccursAt(s, p, j)) ==> r == s
    ensures forall i :: IsFirstOccurrence(s, p, i) ==> r == s[..i] + rep + s[i + |p|..]
  {
    match IndexOf(s, p)
    case None => s
    case Some(i) => s[..i] + rep + s[i + |p|..]
  }

  /** A string that starts with the pattern has exactly that prefix rewritten. */
  lemma ReplaceFirstOfPrefixed(p: string, rest: string, rep: string)
    ensures ReplaceFirst(p + rest, p, rep) == rep + rest
  {
    var s := p + rest;
    assert s[0..|p|] == p;
    assert IsFirstOccurrence(s, p, 0);
    assert s[|p|..] == rest;
  }

  /** `s.split(sep)` for a one-character separator: at least one piece, and
      no piece contains the separator. */
  function Split(s: string, sep: char): (r: seq<string>)
    ensures |r| >= 1
    ensures forall i :: 0 <= i < |r| ==> sep !in r[i]
  {
    if s == [] then [[]]
    else if s[0] == sep then [[]] + Split(s[1..], sep)
    else
      var rest := Split(s[1..], sep);
      [[s[0]] + rest[0]] + rest[1..]
  }

  /** `parts.join(sep)`. */
  function Join(parts: seq<string>, sep: string): string {
    if |parts| == 0 then []
    else if |parts| == 1 then parts[0]
    else parts[0] + sep + Join(parts[1..], sep)
  }

  lemma JoinConsHead(c: char, parts: seq<string>, sep: string)
    requires |parts| >= 1
    ensures Join([[c] + parts[0]] + parts[1..], sep) == [c] + Join(parts, sep)
  {
    var q := [[c] + parts[0]] + parts[1..];
    if |parts| > 1 {
      assert q[1..] == parts[1..];
    }
  }

  /** Splitting and joining back with the same separator is the identity. */
  lemma {:induction false} JoinSplit(s: string, sep: char)
    ensures Join(Split(s, sep), [sep]) == s
  {
    if s == [] {
    } else if s[0] == sep {
      JoinSplit(s[1..], sep);
      var rest := Split(s[1..], sep);
      assert ([[]] + rest)[1..] == rest;
    } else {
      JoinSplit(s[1..], sep);
      JoinConsHead(s[0], Split(s[1..], sep), [sep]);
    }
  }

  /** Text without the separator is a single piece. */
  lemma {:induction false} SplitWithoutSeparator(s: string, sep: char)
    requires sep !in s
    ensures Split(s, sep) == [s]
  {
    if s != [] {
      SplitWithoutSeparator(s[1..], sep);
      assert [s[0]] + s[1..] == s;
    }
  }

  /** Splitting distributes over a separator: the pieces of `a + [sep] + b`
      are the pieces of `a` followed by the pieces of `b`. */
  lemma {:induction false} SplitAtSeparator(a: string, b: string, sep: char)
    ensures Split(a + [sep] + b, sep) == Split(a, sep) + Split(b, sep)
  {
    var s := a + [sep] + b;
    if a == [] {
      assert s[1..] == b;
    } else {
      assert s[1..] == a[1..] + [sep] + b;
      SplitAtSeparator(a[1..], b, sep);
      if a[0] != sep {
        var ra := Split(a[1..], sep);
        assert (ra + Split(b, sep))[1..] == ra[1..] + Split(b, sep);
      }
    }
  }

  /** `s.replace(/\n/g, '<br>')`: no line break is left, and text without
      line breaks is unchanged. */
  function ReplaceNewlines(s: string): (r: string)
    ensures '\n' !in r
    ensures '\n' !in s ==> r == s
  {
    if s == [] then []
    else (if s[0] == '\n' then "<br>" else [s[0]]) + ReplaceNewlines(s[1..])
  }

  /** The global line-break rewrite is the same as splitting on line breaks
      and joining with `<br>`: every break is replaced, nothing else moves. */
  lemma {:induction false} ReplaceNewlinesIsSplitJoin(s: string)
    ensures ReplaceNewlines(s) == Join(Split(s, '\n'), "<br>")
  {
    if s == [] {
    } else if s[0] == '\n' {
      ReplaceNewlinesIsSplitJoin(s[1..]);
      var rest := Split(s[1..], '\n');
      assert ([[]] + rest)[1..] == rest;
    } else {
      ReplaceNewlinesIsSplitJoin(s[1..]);
      JoinConsHead(s[0], Split(s[1..], '\n'), "<br>");
    }
  }

  /** `xs.filter(x => x.trim() !== '')`, with the test stated as "not
      blank" (the two agree by `TrimEmptyIffBlank`). */
  function DropBlank(xs: seq<string>): (r: seq<string>)
    ensures |r| <= |xs|
    ensures forall i :: 0 <= i < |r| ==> !IsBlank(r[i])
  {
    if xs == [] then []
    else (if !IsBlank(xs[0]) then [xs[0]] else []) + DropBlank(xs[1..])
  }

  /** The filter keeps relative order: filtering a concatenation is the
      concatenation of the filtered parts. */
  lemma {:induction false} DropBlankAppend(a: seq<string>, b: seq<string>)
    ensures DropBlank(a + b) == DropBlank(a) + DropBlank(b)
  {
    if a != [] {
      var head := if !IsBlank(a[0]) then [a[0]] else [];
      assert (a + b)[0] == a[0];
      assert (a + b)[1..] == a[1..] + b;
      DropBlankAppend(a[1..], b);
      assert DropBlank(a + b) == head + DropBlank((a + b)[1..]);
      assert DropBlank(a) == head + DropBlank(a[1..]);
      assert head + (DropBlank(a[1..]) + DropBlank(b)) == (head + DropBlank(a[1..])) + DropBlank(b);
    } else {
      assert a + b == b;
    }
  }

  /** The filter keeps a string exactly when it occurs in the input and is
      not blank. */
  lemma {:induction false} DropBlankMembers(xs: seq<string>, x: string)
    ensures x in DropBlank(xs) <==> x in xs && !IsBlank(x)
  {
    if xs != [] {
      DropBlankMembers(xs[1..], x);
      assert xs == [xs[0]] + xs[1..];
    }
  }
}
