/** ASCII models of the Python string and path operations the pipeline uses:
    `str.strip`, `str.split`, `str.lower`, `str.isdigit`, `str.endswith`,
    `os.path.join` and `os.path.basename`. */
module Text {

  /** The ASCII characters for which `str.isspace()` holds; this is also the
      ASCII part of the regular-expression class `\s`. */
  const Whitespace: set<char> :=
    {' ', '\t', '\n', '\r', '\U{0B}', '\U{0C}', '\U{1C}', '\U{1D}', '\U{1E}', '\U{1F}'}

  predicate IsAsciiDigit(c: char) {
    '0' <= c <= '9'
  }

  function DigitValue(c: char): nat
    requires IsAsciiDigit(c)
  {
    c as int - '0' as int
  }

  function DigitChar(n: nat): (c: char)
    requires n < 10
    ensures IsAsciiDigit(c) && DigitValue(c) == n
  {
    ('0' as int + n) as char
  }

  /** `str.lower()` restricted to ASCII: only 'A'..'Z' change. */
  function LowerAscii(c: char): char {
    if 'A' <= c <= 'Z' then (c as int + 32) as char else c
  }

  /** How many leading characters of `s` belong to `cs`. */
  function LeadCount(s: string, cs: set<char>): (n: nat)
    ensures n <= |s|
    ensures forall i :: 0 <= i < n ==> s[i] in cs
    ensures n < |s| ==> s[n] !in cs
  {
    if s != [] && s[0] in cs then 1 + LeadCount(s[1..], cs) else 0
  }

  /** How many trailing characters of `s` belong to `cs`. */
  function TrailCount(s: string, cs: set<char>): (n: nat)
    ensures n <= |s|
    ensures forall i :: |s| - n <= i < |s| ==> s[i] in cs
    ensures n < |s| ==> s[|s| - n - 1] !in cs
  {
    if s != [] && s[|s| - 1] in cs then 1 + TrailCount(s[..|s| - 1], cs) else 0
  }

  /** Drops every leading character that belongs to `cs`. */
  function TrimStart(s: string, cs: set<char>): (r: string)
    ensures |r| <= |s| && r == s[|s| - |r|..]
    ensures forall i :: 0 <= i < |s| - |r| ==> s[i] in cs
    ensures r != [] ==> r[0] !in cs
  {
    s[LeadCount(s, cs)..]
  }

  /** Drops every trailing character that belongs to `cs`. */
  function TrimEnd(s: string, cs: set<char>): (r: string)
    ensures |r| <= |s| && r == s[..|r|]
    ensures forall i :: |r| <= i < |s| ==> s[i] in cs
    ensures r != [] ==> r[|r| - 1] !in cs
  {
    s[..|s| - TrailCount(s, cs)]
  }

  /** `s.strip(chars)`; StripCharsCut says what it keeps and drops. */
  function StripChars(s: string, cs: set<char>): string {
    TrimEnd(TrimStart(s, cs), cs)
  }

  /** `s.strip(chars)` keeps the infix `s[k..k + |r|]` that neither starts
      nor ends with a character of `cs`; everything cut off belongs to `cs`,
      and the result is empty exactly when all of `s` does. */
  lemma {:induction false} StripCharsCut(s: string, cs: set<char>)
    ensures var r := StripChars(s, cs); var k := |s| - |TrimStart(s, cs)|;
      && k + |r| <= |s|
      && r == s[k..k + |r|]
      && (forall i :: 0 <= i < k ==> s[i] in cs)
      && (forall i :: k + |r| <= i < |s| ==> s[i] in cs)
      && (r != [] ==> r[0] !in cs && r[|r| - 1] !in cs)
      && (r == [] <==> forall i :: 0 <= i < |s| ==> s[i] in cs)
  {
    StripCharsInfix(s, cs);
    StripCharsEmptyIff(s, cs);
  }

  lemma {:induction false} StripCharsInfix(s: string, cs: set<char>)
    ensures var r := StripChars(s, cs); var k := |s| - |TrimStart(s, cs)|;
      && k + |r| <= |s|
      && r == s[k..k + |r|]
      && (forall i :: 0 <= i < k ==> s[i] in cs)
      && (forall i :: k + |r| <= i < |s| ==> s[i] in cs)
      && (r != [] ==> r[0] !in cs && r[|r| - 1] !in cs)
  {
    StripCharsPlace(s, cs);
    StripCharsEnds(s, cs);
  }

  lemma {:induction false} StripCharsPlace(s: string, cs: set<char>)
    ensures var r := StripChars(s, cs); var k := |s| - |TrimStart(s, cs)|;
      && k + |r| <= |s|
      && r == s[k..k + |r|]
      && (forall i :: k + |r| <= i < |s| ==> s[i] in cs)
  {
    var t := TrimStart(s, cs);
    CutBothEnds(s, t, TrimEnd(t, cs), cs);
  }

  lemma {:induction false} StripCharsEnds(s: string, cs: set<char>)
    ensures var r := StripChars(s, cs);
      r != [] ==> r[0] !in cs && r[|r| - 1] !in cs
  {
    var t := TrimStart(s, cs);
    var r := TrimEnd(t, cs);
    if r != [] {
      assert r[0] == t[0];
    }
  }

  /** A prefix `r` of a suffix `t` of `s`, where what each cut drops is in
      `cs`, is an infix of `s` with everything around it in `cs`. */
  lemma CutBothEnds(s: string, t: string, r: string, cs: set<char>)
    requires |t| <= |s| && t == s[|s| - |t|..]
    requires forall i :: 0 <= i < |s| - |t| ==> s[i] in cs
    requires |r| <= |t| && r == t[..|r|]
    requires forall i :: |r| <= i < |t| ==> t[i] in cs
    ensures var k := |s| - |t|;
      && r == s[k..k + |r|]
      && (r != [] ==> r[0] == t[0])
      && forall i :: k + |r| <= i < |s| ==> s[i] in cs
  {
    var k := |s| - |t|;
    assert r == s[k..k + |r|];
    forall i | k + |r| <= i < |s|
      ensures s[i] in cs
    {
      assert s[i] == t[i - k];
    }
  }

  /** Stripping leaves nothing exactly when every character is stripped. */
  lemma {:induction false} StripCharsEmptyIff(s: string, cs: set<char>)
    ensures StripChars(s, cs) == [] <==> forall i :: 0 <= i < |s| ==> s[i] in cs
  {
    var t := TrimStart(s, cs);
    TrimEndKeepsFirst(t, cs);
    if TrimEnd(t, cs) != [] {
      var k := |s| - |t|;
      assert t[0] == s[k] && s[k] !in cs;
    }
  }

  lemma {:induction false} TrimEndKeepsFirst(t: string, cs: set<char>)
    ensures TrimEnd(t, cs) == [] <==> forall i :: 0 <= i < |t| ==> t[i] in cs
  {
    if TrimEnd(t, cs) != [] {
      assert TrimEnd(t, cs)[0] == t[0];
    }
  }

  /** Stripping twice strips nothing more. */
  lemma {:induction false} StripCharsIdempotent(s: string, cs: set<char>)
    ensures StripChars(StripChars(s, cs), cs) == StripChars(s, cs)
  {
    var r := StripChars(s, cs);
    StripCharsCut(s, cs);
    assert TrimStart(r, cs) == r;
    assert TrimEnd(r, cs) == r;
  }

  /** `s.strip()` with no argument: whitespace on both ends removed. */
  function Strip(s: string): string {
    StripChars(s, Whitespace)
  }

  /** `s.split(sep)` for a one-character separator: never empty, and no
      piece holds the separator. */
  function Split(s: string, sep: char): (parts: seq<string>)
    ensures |parts| >= 1
    ensures forall i :: 0 <= i < |parts| ==> sep !in parts[i]
  {
    if s == [] then [[]]
    else
      var tail := Split(s[1..], sep);
      if s[0] == sep then [[]] + tail
      else [[s[0]] + tail[0]] + tail[1..]
  }

  /** Joining the pieces of a split with the separator gives the text back. */
  lemma {:induction false} SplitJoin(s: string, sep: char)
    ensures JoinWith(Split(s, sep), sep) == s
  {
    if s != [] {
      var tail := Split(s[1..], sep);
      SplitJoin(s[1..], sep);
      if s[0] == sep {
        assert JoinWith([[]] + tail, sep) == [sep] + JoinWith(tail, sep);
      } else {
        var parts := [[s[0]] + tail[0]] + tail[1..];
        assert parts[1..] == tail[1..];
        assert JoinWith(parts, sep) == [s[0]] + JoinWith(tail, sep);
      }
    }
  }

  /** `sep.join(parts)`. */
  function JoinWith(parts: seq<string>, sep: char): string
    requires |parts| >= 1
  {
    if |parts| == 1 then parts[0] else parts[0] + [sep] + JoinWith(parts[1..], sep)
  }

  /** `"".join(pieces)`. */
  function Concat(pieces: seq<string>): string {
    if pieces == [] then "" else pieces[0] + Concat(pieces[1..])
  }

  /** Appending is associative (stated once so that callers need not
      re-derive it for long texts). */
  lemma AppendAssoc<T>(a: seq<T>, b: seq<T>, c: seq<T>)
    ensures (a + b) + c == a + (b + c)
  {
  }

  /** `f` applied to every element, in order. */
  function Map<A, B>(xs: seq<A>, f: A -> B): (ys: seq<B>)
    ensures |ys| == |xs|
    ensures forall i :: 0 <= i < |xs| ==> ys[i] == f(xs[i])
  {
    seq(|xs|, i requires 0 <= i < |xs| => f(xs[i]))
  }

  lemma MapSnoc<A, B>(xs: seq<A>, i: nat, f: A -> B)
    requires i < |xs|
    ensures Map(xs[..i + 1], f) == Map(xs[..i], f) + [f(xs[i])]
  {
    var a := Map(xs[..i + 1], f);
    var b := Map(xs[..i], f) + [f(xs[i])];
    forall k | 0 <= k < |a|
      ensures a[k] == b[k]
    {
      assert xs[..i + 1][k] == xs[k];
    }
  }

  lemma MapPrefix<A, B>(xs: seq<A>, k: nat, f: A -> B)
    requires k <= |xs|
    ensures Map(xs, f)[..k] == Map(xs[..k], f)
  {
    var a := Map(xs, f)[..k];
    var b := Map(xs[..k], f);
    forall j | 0 <= j < k
      ensures a[j] == b[j]
    {
      assert xs[..k][j] == xs[j];
    }
  }

  function Last<T>(xs: seq<T>): T
    requires |xs| >= 1
  {
    xs[|xs| - 1]
  }

  /** The last piece that is not empty, or "" when there is none. */
  function LastNonEmpty(parts: seq<string>): string {
    if parts == [] then ""
    else if Last(parts) != "" then Last(parts)
    else LastNonEmpty(parts[..|parts| - 1])
  }

  /** `s.endswith(suffix)`. */
  predicate EndsWith(s: string, suffix: string) {
    |suffix| <= |s| && s[|s| - |suffix|..] == suffix
  }

  /** `posixpath.join(a, b)` for a `b` that does not start with '/'. */
  function PathJoin(a: string, b: string): string {
    if a == [] || a[|a| - 1] == '/' then a + b else a + "/" + b
  }

  /** `posixpath.basename(p)`: the text after the last '/'. */
  function Basename(p: string): string {
    Last(Split(p, '/'))
  }

  /** A name a directory listing can return: not empty, no '/'. */
  predicate IsEntryName(name: string) {
    name != [] && '/' !in name
  }

  // ---------------------------------------------------------------------
  // Lemmas about Split

  /** Splitting around one separator splits each side independently. */
  lemma {:induction false} SplitConcat(a: string, b: string, sep: char)
    ensures Split(a + [sep] + b, sep) == Split(a, sep) + Split(b, sep)
  {
    if a == [] {
      assert a + [sep] + b == [sep] + b;
      assert ([sep] + b)[1..] == b;
    } else {
      assert (a + [sep] + b)[1..] == a[1..] + [sep] + b;
      SplitConcat(a[1..], b, sep);
    }
  }

  /** A string without the separator is a single piece. */
  lemma {:induction false} SplitNoSep(s: string, sep: char)
    requires sep !in s
    ensures Split(s, sep) == [s]
  {
    if s != [] {
      SplitNoSep(s[1..], sep);
      assert [s[0]] + s[1..] == s;
    }
  }

  /** The last piece is what follows the last separator. */
  lemma {:induction false} JoinWithLast(parts: seq<string>, sep: char)
    requires |parts| >= 1
    ensures var j := JoinWith(parts, sep); var l := Last(parts);
      && |l| <= |j| && j[|j| - |l|..] == l
      && (|parts| > 1 ==> |l| < |j| && j[|j| - |l| - 1] == sep)
      && (|parts| == 1 ==> j == l)
  {
    if |parts| > 1 {
      JoinWithLast(parts[1..], sep);
      var rest := JoinWith(parts[1..], sep);
      assert JoinWith(parts, sep) == (parts[0] + [sep]) + rest;
      assert Last(parts[1..]) == Last(parts);
    }
  }

  /** The last piece of a split is what follows the last separator (all
      of the text when there is none). */
  lemma SplitLastIsTail(s: string, sep: char)
    ensures var l := Last(Split(s, sep));
      && |l| <= |s| && s[|s| - |l|..] == l
      && (|l| < |s| ==> s[|s| - |l| - 1] == sep)
  {
    var parts := Split(s, sep);
    SplitJoin(s, sep);
    JoinWithLast(parts, sep);
  }

  /** The last piece of a split is empty only when the string is empty or
      ends with the separator. */
  lemma SplitLastNonEmpty(s: string, sep: char)
    requires s != [] && s[|s| - 1] != sep
    ensures Last(Split(s, sep)) != []
  {
    var parts := Split(s, sep);
    SplitJoin(s, sep);
    JoinWithLast(parts, sep);
  }

  /** The three parts of a concatenation can be cut back out of it. */
  lemma Framing<T>(head: seq<T>, body: seq<T>, foot: seq<T>)
    ensures var d := head + body + foot;
      && |head| + |foot| <= |d|
      && d[..|head|] == head
      && d[|d| - |foot|..] == foot
      && d[|head|..|d| - |foot|] == body
  {
    var d := head + body + foot;
    assert d[..|head|] == head;
    assert d[|d| - |foot|..] == foot;
    assert d[|head|..|d| - |foot|] == body;
  }

  /** The last piece of a split is empty exactly when the text is empty
      or ends with the separator. */
  lemma LastPieceEmptyIff(s: string, sep: char)
    requires s != [] ==> s[|s| - 1] != sep
    ensures Last(Split(s, sep)) == [] <==> s == []
  {
    if s != [] {
      SplitLastNonEmpty(s, sep);
    } else {
      assert Split(s, sep) == [[]];
    }
  }

  /** Basename of a joined path is the name joined on. */
  lemma BasenameOfJoin(a: string, name: string)
    requires IsEntryName(name)
    ensures Basename(PathJoin(a, name)) == name
    ensures |PathJoin(a, name)| > |a|
  {
    SplitNoSep(name, '/');
    if a == [] {
      assert PathJoin(a, name) == name;
    } else if a[|a| - 1] == '/' {
      var pre := a[..|a| - 1];
      assert PathJoin(a, name) == pre + ['/'] + name;
      SplitConcat(pre, name, '/');
    } else {
      assert PathJoin(a, name) == a + ['/'] + name;
      SplitConcat(a, name, '/');
    }
  }

  // ---------------------------------------------------------------------
  // Lemmas about LastNonEmpty

  lemma {:induction false} LastNonEmptyAppendEmpty(parts: seq<string>)
    ensures LastNonEmpty(parts + [""]) == LastNonEmpty(parts)
  {
    assert (parts + [""])[..|parts|] == parts;
  }

  lemma {:induction false} LastNonEmptyPrependEmpty(parts: seq<string>)
    ensures LastNonEmpty([""] + parts) == LastNonEmpty(parts)
  {
    if parts != [] {
      assert Last([""] + parts) == Last(parts);
      if Last(parts) == "" {
        assert ([""] + parts)[..|parts|] == [""] + parts[..|parts| - 1];
        LastNonEmptyPrependEmpty(parts[..|parts| - 1]);
      }
    }
  }
}
