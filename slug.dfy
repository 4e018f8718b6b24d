/** `create_slug_from_url`, the slug derivation shared by the Markdown
    importer, the post payload and the WXR export. */
module Slug {
  import opened Text

  /** Strip every leading and trailing '/', split on '/', keep the last
      piece. `split` never returns an empty list, so the source's `else ""`
      branch is dead. */
  function CreateSlugFromUrl(url: string): (slug: string)
    ensures '/' !in slug
  {
    var parts := Split(StripChars(url, {'/'}), '/');
    if |parts| > 0 then parts[|parts| - 1] else ""
  }

  /** The slug is what follows the last '/' of the URL stripped of its
      leading and trailing '/' (all of it when there is no '/'). */
  lemma SlugIsTailOfStrippedUrl(url: string)
    ensures var core := StripChars(url, {'/'}); var slug := CreateSlugFromUrl(url);
      && |slug| <= |core| && core[|core| - |slug|..] == slug
      && (|slug| < |core| ==> core[|core| - |slug| - 1] == '/')
  {
    SlugIsLastPiece(url);
    SplitLastIsTail(StripChars(url, {'/'}), '/');
  }

  /** The slug is empty exactly when the URL has nothing but slashes. */
  lemma SlugEmptyIffOnlySlashes(url: string)
    ensures CreateSlugFromUrl(url) == "" <==> forall i :: 0 <= i < |url| ==> url[i] == '/'
  {
    OnlySlashesStripToEmpty(url);
    SlugEmptyIffStrippedEmpty(url);
  }

  lemma SlugEmptyIffStrippedEmpty(url: string)
    ensures CreateSlugFromUrl(url) == "" <==> StripChars(url, {'/'}) == []
  {
    var core := StripChars(url, {'/'});
    SlugIsLastPiece(url);
    StrippedEndsWithoutSlash(url);
    LastPieceEmptyIff(core, '/');
  }

  lemma StrippedEndsWithoutSlash(url: string)
    ensures var core := StripChars(url, {'/'}); core != [] ==> core[|core| - 1] != '/'
  {
    StripCharsCut(url, {'/'});
  }

  lemma SlugIsLastPiece(url: string)
    ensures CreateSlugFromUrl(url) == Last(Split(StripChars(url, {'/'}), '/'))
  {
    var parts := Split(StripChars(url, {'/'}), '/');
    assert CreateSlugFromUrl(url) == parts[|parts| - 1];
  }

  lemma OnlySlashesStripToEmpty(url: string)
    ensures StripChars(url, {'/'}) == [] <==> forall i :: 0 <= i < |url| ==> url[i] == '/'
  {
    StripCharsCut(url, {'/'});
  }

  /** Reference definition: the slug is the last non-empty piece of the
      URL split on '/'. */
  lemma SlugIsLastNonEmptySegment(url: string)
    ensures CreateSlugFromUrl(url) == LastNonEmpty(Split(url, '/'))
  {
    var t := TrimStart(url, {'/'});
    var core := TrimEnd(t, {'/'});
    SlugIsLastPiece(url);
    LeadingSlashesAddEmptyPieces(url);
    TrailingSlashesAddEmptyPieces(t);
    LastPieceOfTrimmed(core);
  }

  /** Once no '/' ends the text, its last piece is its last non-empty one. */
  lemma LastPieceOfTrimmed(core: string)
    requires core != [] ==> core[|core| - 1] != '/'
    ensures LastNonEmpty(Split(core, '/')) == Last(Split(core, '/'))
  {
    if core != [] {
      SplitLastNonEmpty(core, '/');
    } else {
      assert Split(core, '/') == [[]];
    }
  }

  lemma {:induction false} LeadingSlashesAddEmptyPieces(s: string)
    ensures LastNonEmpty(Split(s, '/')) == LastNonEmpty(Split(TrimStart(s, {'/'}), '/'))
  {
    if s != [] && s[0] == '/' {
      assert s == [] + ['/'] + s[1..];
      SplitConcat([], s[1..], '/');
      LastNonEmptyPrependEmpty(Split(s[1..], '/'));
      LeadingSlashesAddEmptyPieces(s[1..]);
    }
  }

  lemma {:induction false} TrailingSlashesAddEmptyPieces(s: string)
    ensures LastNonEmpty(Split(s, '/')) == LastNonEmpty(Split(TrimEnd(s, {'/'}), '/'))
  {
    if s != [] && s[|s| - 1] == '/' {
      var pre := s[..|s| - 1];
      assert TrimEnd(s, {'/'}) == TrimEnd(pre, {'/'});
      assert s == pre + ['/'] + [];
      SplitConcat(pre, [], '/');
      LastNonEmptyAppendEmpty(Split(pre, '/'));
      TrailingSlashesAddEmptyPieces(pre);
    } else {
      assert TrimEnd(s, {'/'}) == s;
    }
  }

  /** The URL the Hugo crawl builds for a directory gives back that
      directory's name as its slug. */
  lemma SlugOfDirectoryUrl(build: string, name: string)
    requires IsEntryName(name)
    ensures CreateSlugFromUrl(build + "/" + name + "/") == name
  {
    var url := build + "/" + name + "/";
    var tail := name + ['/'] + [];
    assert url == build + ['/'] + tail;
    SplitConcat(build, tail, '/');
    SplitConcat(name, [], '/');
    SplitNoSep(name, '/');
    assert Split([], '/') == [[]];
    var pre := Split(build, '/') + [name];
    assert Split(url, '/') == pre + [""];
    LastNonEmptyAppendEmpty(pre);
    assert LastNonEmpty(pre) == name;
    SlugIsLastNonEmptySegment(url);
  }
}
