/** The front-matter split of `parse_markdown_file`: the text is cut at the
    first two occurrences of "---" (at most two cuts), the piece before the
    first cut is dropped, and the other two pieces are unpacked into the
    front matter and the body. */
module MarkdownParser {
  import opened Wrappers
  import opened Text

  /** The `ValueError` of a two-name unpacking that gets fewer values: the
      number of values it got. */
  datatype UnpackError = NotEnoughValues(got: nat)

  /** A "---" starts at position `j` of `s`. */
  predicate MarkerAt(s: string, j: int) {
    0 <= j && j + 3 <= |s| && s[j] == '-' && s[j + 1] == '-' && s[j + 2] == '-'
  }

  /** No "---" anywhere in `s`. */
  predicate NoMarkerIn(s: string) {
    forall j :: 0 <= j < |s| ==> !MarkerAt(s, j)
  }

  /** The first "---" starting at or after `from`, as `str.split` finds it. */
  function FindMarker(s: string, from: nat): (r: Option<nat>)
    requires from <= |s|
    ensures r.Some? ==> from <= r.value && MarkerAt(s, r.value)
    ensures r.Some? ==> forall j :: from <= j < r.value ==> !MarkerAt(s, j)
    ensures r.None? ==> forall j :: from <= j < |s| ==> !MarkerAt(s, j)
    decreases |s| - from
  {
    if from + 3 > |s| then None
    else if MarkerAt(s, from) then Some(from)
    else FindMarker(s, from + 1)
  }

  /** `content.split('---', 2)[1:]` unpacked into two names. */
  function SplitFrontMatter(content: string): Result<(string, string), UnpackError> {
    match FindMarker(content, 0)
    case None => Err(NotEnoughValues(0))
    case Some(first) =>
      match FindMarker(content, first + 3)
      case None => Err(NotEnoughValues(1))
      case Some(second) => Ok((content[first + 3..second], content[second + 3..]))
  }

  /** `parse_markdown_file` after the read and before the YAML load: the
      front matter as split off, and the body with surrounding whitespace
      stripped. */
  function ParseMarkdownFile(content: string): Result<(string, string), UnpackError> {
    var (frontMatter, markdownContent) :- SplitFrontMatter(content);
    Ok((frontMatter, Strip(markdownContent)))
  }

  // -----------------------------------------------------------------------
  // Lemmas

  /** What the split returns: the text between the first "---" and the next
      "---" that does not overlap it, and everything after that second
      marker. */
  lemma SplitIsBetweenFirstTwoMarkers(content: string)
    requires SplitFrontMatter(content).Ok?
    ensures exists first, second ::
      && MarkerAt(content, first) && MarkerAt(content, second) && first + 3 <= second
      && (forall j :: 0 <= j < first ==> !MarkerAt(content, j))
      && (forall j :: first + 3 <= j < second ==> !MarkerAt(content, j))
      && SplitFrontMatter(content).value == (content[first + 3..second], content[second + 3..])
  {
    var first := FindMarker(content, 0).value;
    var second := FindMarker(content, first + 3).value;
    assert SplitFrontMatter(content).value == (content[first + 3..second], content[second + 3..]);
  }

  /** Conversely, any text made of a prefix, "---", a front matter, "---"
      and a body, where neither the prefix nor the front matter let a "---"
      start before the marker that follows them, splits into exactly that
      front matter and body, whatever the prefix and whatever the body holds
      (later markers included). */
  lemma SplitOfDecomposition(pre: string, frontMatter: string, body: string)
    requires NoMarkerIn(pre + "--") && NoMarkerIn(frontMatter + "--")
    ensures SplitFrontMatter(pre + "---" + frontMatter + "---" + body) == Ok((frontMatter, body))
  {
    var c := pre + "---" + frontMatter + "---" + body;
    var first := |pre|;
    var second := |pre| + 3 + |frontMatter|;
    assert c[first..first + 3] == "---";
    assert c[second..second + 3] == "---";
    forall j | 0 <= j < first
      ensures !MarkerAt(c, j)
    {
      NoMarkerInWindow(pre, c, j);
    }
    FindMarkerIsFirst(c, 0, first);
    forall j | first + 3 <= j < second
      ensures !MarkerAt(c, j)
    {
      assert c[first + 3..] == frontMatter + "---" + body;
      NoMarkerInWindow(frontMatter, c[first + 3..], j - first - 3);
    }
    FindMarkerIsFirst(c, first + 3, second);
    assert c[first + 3..second] == frontMatter;
    assert c[second + 3..] == body;
  }

  /** A marker-free prefix followed by "---" lets no marker start inside
      the prefix. */
  lemma NoMarkerInWindow(pre: string, c: string, j: nat)
    requires NoMarkerIn(pre + "--")
    requires |pre| + 3 <= |c| && c[..|pre| + 3] == pre + "---"
    requires j < |pre|
    ensures !MarkerAt(c, j)
  {
    var w := pre + "--";
    assert MarkerAt(c, j) ==> MarkerAt(w, j) by {
      if MarkerAt(c, j) {
        assert c[j] == w[j] && c[j + 1] == w[j + 1] && c[j + 2] == w[j + 2];
      }
    }
  }

  /** Scanning from `from` finds the first marker at or after it. */
  lemma {:induction false} FindMarkerIsFirst(s: string, from: nat, at: nat)
    requires from <= at && MarkerAt(s, at)
    requires forall j :: from <= j < at ==> !MarkerAt(s, j)
    ensures FindMarker(s, from) == Some(at)
    decreases at - from
  {
    if from < at {
      FindMarkerIsFirst(s, from + 1, at);
    }
  }

  /** The unpacking fails exactly when the text holds fewer than two
      non-overlapping "---"; with none at all it gets no value, with one it
      gets one. */
  lemma NotEnoughMarkers(content: string)
    ensures SplitFrontMatter(content).Err? <==>
      !exists i, k :: MarkerAt(content, i) && MarkerAt(content, k) && i + 3 <= k
    ensures SplitFrontMatter(content) == Err(NotEnoughValues(0)) <==> NoMarkerIn(content)
  {
    if SplitFrontMatter(content).Err? {
      if FindMarker(content, 0).Some? {
        var first := FindMarker(content, 0).value;
        forall i, k | MarkerAt(content, i) && MarkerAt(content, k) && i + 3 <= k
          ensures false
        {
        }
      }
    } else {
      SplitIsBetweenFirstTwoMarkers(content);
    }
  }

  /** The body handed on carries no surrounding whitespace; the front
      matter is passed on as split off, unstripped. */
  lemma ParsedBodyIsStripped(content: string)
    ensures ParseMarkdownFile(content).Err? <==> SplitFrontMatter(content).Err?
    ensures ParseMarkdownFile(content).Ok? ==>
      && ParseMarkdownFile(content).value.0 == SplitFrontMatter(content).value.0
      && ParseMarkdownFile(content).value.1 == Strip(SplitFrontMatter(content).value.1)
      && Strip(ParseMarkdownFile(content).value.1) == ParseMarkdownFile(content).value.1
  {
    if SplitFrontMatter(content).Ok? {
      StripCharsIdempotent(SplitFrontMatter(content).value.1, Whitespace);
    }
  }

  /** A typical file: the YAML block between two "---" lines, and a body in
      which a later "---" is kept. */
  lemma TypicalFile()
    ensures SplitFrontMatter("---\nt: a\n---\nx---y") == Ok(("\nt: a\n", "\nx---y"))
  {
    NoMarkers("", "\nt: a\n");
    SplitOfDecomposition("", "\nt: a\n", "\nx---y");
    assert "" + "---" + "\nt: a\n" + "---" + "\nx---y" == "---\nt: a\n---\nx---y";
  }

  /** The marker need not start a line, and what precedes it is dropped. */
  lemma MarkerAnywhere()
    ensures SplitFrontMatter("intro---a---b") == Ok(("a", "b"))
  {
    NoMarkers("intro", "a");
    SplitOfDecomposition("intro", "a", "b");
    assert "intro" + "---" + "a" + "---" + "b" == "intro---a---b";
  }

  lemma NoMarkers(pre: string, frontMatter: string)
    requires forall i :: 0 <= i < |pre| ==> pre[i] != '-'
    requires forall i :: 0 <= i < |frontMatter| ==> frontMatter[i] != '-'
    ensures NoMarkerIn(pre + "--") && NoMarkerIn(frontMatter + "--")
  {
    forall j | 0 <= j < |pre + "--"|
      ensures !MarkerAt(pre + "--", j)
    {
    }
    forall j | 0 <= j < |frontMatter + "--"|
      ensures !MarkerAt(frontMatter + "--", j)
    {
    }
  }

  /** Five dashes hold one marker only: the second search starts after the
      first marker, so overlapping occurrences do not count. */
  lemma OverlappingMarkersCountOnce()
    ensures SplitFrontMatter("-----") == Err(NotEnoughValues(1))
  {
    assert MarkerAt("-----", 0);
    assert FindMarker("-----", 0) == Some(0);
    assert FindMarker("-----", 3) == None;
  }
}
