/** The crawl of a Hugo build directory: the walk over its directories, the
    pruning of the first level, the per-page extraction rules and the batch
    of posts handed to the export once the walk is over. */
module Hugo {
  import opened Wrappers
  import opened Text
  import Slug
  import Posts

  /** A `div.post-meta`, reduced to the `title` attribute of its first
      `span` that carries one. */
  datatype PostMeta = PostMeta(dateTitle: Option<string>)

  /** An `index.html`, reduced to what the crawl looks at: whether it opens
      and decodes as UTF-8 (when it does not, the read raises and the other
      fields play no part), the text of the first
      `h1.post-title.entry-hint-parent`, the first `div.post-meta`, the
      serialised first `div.post-content`, and the link texts of the first
      `ul.post-tags` and of the first `div.breadcrumbs`. */
  datatype Page = Page(
    readable: bool,
    title: Option<string>,
    postMeta: Option<PostMeta>,
    content: Option<string>,
    tagLinks: Option<seq<string>>,
    breadcrumbLinks: Option<seq<string>>)

  /** A directory of the build: its name, its `index.html` if it has one,
      and its subdirectories in listing order. */
  datatype Dir = Dir(name: string, index: Option<Page>, subdirs: seq<Dir>)

  /** One directory the walk yields: its path and its page. */
  datatype Visit = Visit(path: string, page: Option<Page>)

  /** A page passed over, with the file named in the printed error. */
  datatype Skip = NoTitle(filePath: string) | NoDate(filePath: string) | NoContent(filePath: string)

  /** What one page gives: a post, a skip, or the exception raised when the
      file cannot be read or has no `div.post-meta` (an `AttributeError`). */
  datatype Extracted = Recorded(post: Posts.Post) | Skipped(skip: Skip) | Raised(filePath: string)

  /** The crawl so far: still collecting, or stopped by the exception. */
  datatype CrawlState = Collecting(posts: seq<Posts.Post>, skips: seq<Skip>) | Crashed(filePath: string)

  // -----------------------------------------------------------------------
  // Pruning of the first level

  /** A first-level directory is kept when its name is four digits (a year)
      or exactly "fa". */
  predicate KeptAtTop(name: string) {
    (|name| == 4 && forall i :: 0 <= i < 4 ==> IsAsciiDigit(name[i])) || name == "fa"
  }

  /** The comprehension assigned to `dirs[:]` at the build directory. */
  function PruneTopLevel(dirs: seq<Dir>): (kept: seq<Dir>)
    ensures |kept| <= |dirs|
  {
    if dirs == [] then []
    else (if KeptAtTop(dirs[0].name) then [dirs[0]] else []) + PruneTopLevel(dirs[1..])
  }

  // -----------------------------------------------------------------------
  // The walk

  /** The directories `os.walk` yields from `path` downwards, top-down and in
      listing order, with the first level pruned when `path` is the build
      directory. */
  function Walk(build: string, path: string, d: Dir): seq<Visit>
    decreases d
  {
    [Visit(path, d.index)] + WalkAll(build, path, d.subdirs, path == build)
  }

  /** The walks of the subdirectories `ds` of `parent`, one after the other;
      with `prune`, a directory the pruning drops is not entered. */
  function WalkAll(build: string, parent: string, ds: seq<Dir>, prune: bool): seq<Visit>
    decreases ds
  {
    if ds == [] then []
    else
      (if prune && !KeptAtTop(ds[0].name) then [] else Walk(build, PathJoin(parent, ds[0].name), ds[0]))
      + WalkAll(build, parent, ds[1..], prune)
  }

  /** Everything the walk yields; a build directory that cannot be listed
      yields nothing. */
  function Visits(build: string, top: Option<Dir>): seq<Visit> {
    if top.None? then [] else Walk(build, build, top.value)
  }

  /** The unpruned walk: the reference for every level below the first. */
  function FullWalk(path: string, d: Dir): seq<Visit>
    decreases d
  {
    [Visit(path, d.index)] + FullWalkAll(path, d.subdirs)
  }

  function FullWalkAll(parent: string, ds: seq<Dir>): seq<Visit>
    decreases ds
  {
    if ds == [] then [] else FullWalk(PathJoin(parent, ds[0].name), ds[0]) + FullWalkAll(parent, ds[1..])
  }

  /** Every directory name in the tree is one a listing can return. */
  predicate WellNamed(d: Dir)
    decreases d
  {
    forall i :: 0 <= i < |d.subdirs| ==> IsEntryName(d.subdirs[i].name) && WellNamed(d.subdirs[i])
  }

  // -----------------------------------------------------------------------
  // Extraction from one page

  /** `extract_tags`: the stripped text of every link, or none without a
      tag list. */
  function TagsOf(tagLinks: Option<seq<string>>): seq<string> {
    match tagLinks
    case None => []
    case Some(links) => seq(|links|, i requires 0 <= i < |links| => Strip(links[i]))
  }

  /** `extract_categories`: the stripped text of the third breadcrumb link,
      when there is one. */
  function CategoriesOf(breadcrumbLinks: Option<seq<string>>): seq<string> {
    if breadcrumbLinks.Some? && |breadcrumbLinks.value| > 2 then [Strip(breadcrumbLinks.value[2])] else []
  }

  /** The loop of `extract_tags`. */
  method ExtractTags(tagLinks: Option<seq<string>>) returns (tags: seq<string>)
    ensures tags == TagsOf(tagLinks)
  {
    tags := [];
    if tagLinks.Some? {
      var links := tagLinks.value;
      var i := 0;
      while i < |links|
        invariant 0 <= i <= |links|
        invariant |tags| == i
        invariant forall j :: 0 <= j < i ==> tags[j] == Strip(links[j])
      {
        tags := tags + [Strip(links[i])];
        i := i + 1;
      }
    }
  }

  /** `extract_categories`. */
  method ExtractCategories(breadcrumbLinks: Option<seq<string>>) returns (categories: seq<string>)
    ensures categories == CategoriesOf(breadcrumbLinks)
  {
    categories := [];
    if breadcrumbLinks.Some? {
      var links := breadcrumbLinks.value;
      if |links| > 2 {
        categories := categories + [Strip(links[2])];
      }
    }
  }

  /** The URL the crawl gives the post of the directory at `path`. */
  function PostUrl(build: string, path: string): string {
    build + "/" + Basename(path) + "/"
  }

  /** The body of the crawl loop for one `index.html`: the file is read,
      then the title, the post-meta container, its date and the content are
      looked up, and the first one missing decides the outcome. */
  function PageOutcome(build: string, path: string, page: Page): Extracted {
    var filePath := PathJoin(path, "index.html");
    if !page.readable then Raised(filePath)
    else if page.title.None? then Skipped(NoTitle(filePath))
    else if page.postMeta.None? then Raised(filePath)
    else if page.postMeta.value.dateTitle.None? then Skipped(NoDate(filePath))
    else if page.content.None? then Skipped(NoContent(filePath))
    else
      var url := PostUrl(build, path);
      Recorded((Posts.Metadata(
        url := Some(url),
        title := Some(Strip(page.title.value)),
        date := page.postMeta.value.dateTitle,
        slug := Some(Slug.CreateSlugFromUrl(url)),
        shortlink := None,
        tags := Some(TagsOf(page.tagLinks)),
        categories := Some(CategoriesOf(page.breadcrumbLinks)),
        lang := Some("en"),
        excerpt := None,
        postId := None), page.content.value))
  }

  /** The crawl after one more directory of the walk. */
  function Step(build: string, st: CrawlState, v: Visit): CrawlState {
    if st.Crashed? || v.page.None? then st
    else match PageOutcome(build, v.path, v.page.value)
      case Recorded(post) => Collecting(st.posts + [post], st.skips)
      case Skipped(skip) => Collecting(st.posts, st.skips + [skip])
      case Raised(filePath) => Crashed(filePath)
  }

  /** The crawl over a sequence of visited directories. */
  function Crawled(build: string, visits: seq<Visit>): CrawlState {
    if visits == [] then Collecting([], [])
    else Step(build, Crawled(build, visits[..|visits| - 1]), visits[|visits| - 1])
  }

  // -----------------------------------------------------------------------
  // The crawl

  /** The walk still owed for the directories on the stack, the top of the
      stack (its last element) first. */
  function Pending(build: string, stack: seq<(string, Dir)>): seq<Visit> {
    if stack == [] then []
    else Walk(build, Last(stack).0, Last(stack).1) + Pending(build, stack[..|stack| - 1])
  }

  /** `crawl_hugo_build` with the walk done as `os.walk` does it: a stack of
      directories still to visit, popped from the end, whose subdirectories
      are pushed in reverse once the caller has pruned them. The result is
      the batch passed to `export_now`, or the exception that stops the
      crawl before it. */
  method CrawlHugoBuild(build: string, top: Option<Dir>) returns (result: CrawlState)
    ensures result == Crawled(build, Visits(build, top))
  {
    if top.None? {
      return Collecting([], []);
    }
    ghost var all := Walk(build, build, top.value);
    var posts: seq<Posts.Post> := [];
    var skips: seq<Skip> := [];
    var stack := [(build, top.value)];
    ghost var visited: seq<Visit> := [];
    while stack != []
      invariant visited + Pending(build, stack) == all
      invariant Crawled(build, visited) == Collecting(posts, skips)
      decreases |all| - |visited|
    {
      var path := Last(stack).0;
      var d := Last(stack).1;
      ghost var before := stack;
      stack := stack[..|stack| - 1];
      var dirs := d.subdirs;
      if path == build {
        dirs := PruneTopLevel(dirs);
      }
      PopStep(build, before, dirs);
      ghost var v := Visit(path, d.index);
      SnocVisit(build, visited, v);
      if d.index.Some? {
        var st := VisitPage(build, path, d.index.value, posts, skips);
        if st.Crashed? {
          CrashIsFinal(build, visited + [v], all);
          return st;
        }
        posts, skips := st.posts, st.skips;
      }
      stack := PushSubdirs(build, stack, path, dirs);
      AppendAssoc(visited, [v], Pending(build, stack));
      visited := visited + [v];
    }
    assert visited == all;
    return Collecting(posts, skips);
  }

  /** The subdirectories of `path` go on the stack last first, so that
      they are popped in listing order. */
  method PushSubdirs(build: string, stack: seq<(string, Dir)>, path: string, dirs: seq<Dir>)
    returns (pushed: seq<(string, Dir)>)
    ensures Pending(build, pushed) == WalkAll(build, path, dirs, false) + Pending(build, stack)
  {
    pushed := stack;
    var k := |dirs|;
    while k > 0
      invariant 0 <= k <= |dirs|
      invariant Pending(build, pushed) == WalkAll(build, path, dirs[k..], false) + Pending(build, stack)
    {
      k := k - 1;
      PushStep(build, pushed, path, dirs, k, Pending(build, stack));
      pushed := pushed + [(PathJoin(path, dirs[k].name), dirs[k])];
    }
    assert dirs[0..] == dirs;
  }

  /** The crawl loop's body for one `index.html`: the title, then the
      post-meta container, then its date, then the content are looked up;
      a missing one is reported and the directory skipped, except the
      container, whose absence raises. */
  method VisitPage(build: string, path: string, page: Page, posts: seq<Posts.Post>, skips: seq<Skip>)
    returns (st: CrawlState)
    ensures st == Step(build, Collecting(posts, skips), Visit(path, Some(page)))
  {
    var filePath := PathJoin(path, "index.html");
    if !page.readable {
      return Crashed(filePath);
    }
    if page.title.None? {
      return Collecting(posts, skips + [NoTitle(filePath)]);
    }
    var title := Strip(page.title.value);
    if page.postMeta.None? {
      return Crashed(filePath);
    }
    if page.postMeta.value.dateTitle.None? {
      return Collecting(posts, skips + [NoDate(filePath)]);
    }
    var date := page.postMeta.value.dateTitle.value;
    if page.content.None? {
      return Collecting(posts, skips + [NoContent(filePath)]);
    }
    var htmlContent := page.content.value;
    var slug := Basename(path);
    var tags := ExtractTags(page.tagLinks);
    var categories := ExtractCategories(page.breadcrumbLinks);
    var url := build + "/" + slug + "/";
    var metadata := Posts.Metadata(
      url := Some(url),
      title := Some(title),
      date := Some(date),
      slug := Some(Slug.CreateSlugFromUrl(url)),
      shortlink := None,
      tags := Some(tags),
      categories := Some(categories),
      lang := Some("en"),
      excerpt := None,
      postId := None);
    return Collecting(posts + [(metadata, htmlContent)], skips);
  }

  /** Popping a directory owes its own visit, then the walks of the
      subdirectories left after pruning. */
  lemma PopStep(build: string, stack: seq<(string, Dir)>, dirs: seq<Dir>)
    requires stack != []
    requires dirs == if Last(stack).0 == build then PruneTopLevel(Last(stack).1.subdirs) else Last(stack).1.subdirs
    ensures Pending(build, stack)
      == [Visit(Last(stack).0, Last(stack).1.index)] + (WalkAll(build, Last(stack).0, dirs, false) + Pending(build, stack[..|stack| - 1]))
  {
    var path := Last(stack).0;
    var d := Last(stack).1;
    if path == build {
      WalkAllPruned(build, path, d.subdirs);
    }
    AppendAssoc([Visit(path, d.index)], WalkAll(build, path, dirs, false), Pending(build, stack[..|stack| - 1]));
  }

  /** Pushing the subdirectory `dirs[k]` puts its walk ahead of those of
      `dirs[k + 1..]`. */
  lemma PushStep(build: string, stack: seq<(string, Dir)>, path: string, dirs: seq<Dir>, k: nat, later: seq<Visit>)
    requires k < |dirs|
    requires Pending(build, stack) == WalkAll(build, path, dirs[k + 1..], false) + later
    ensures Pending(build, stack + [(PathJoin(path, dirs[k].name), dirs[k])]) == WalkAll(build, path, dirs[k..], false) + later
  {
    var next := stack + [(PathJoin(path, dirs[k].name), dirs[k])];
    assert next[..|next| - 1] == stack;
    assert dirs[k..][1..] == dirs[k + 1..];
    AppendAssoc(Walk(build, PathJoin(path, dirs[k].name), dirs[k]), WalkAll(build, path, dirs[k + 1..], false), later);
  }

  lemma SnocVisit(build: string, visited: seq<Visit>, v: Visit)
    ensures Crawled(build, visited + [v]) == Step(build, Crawled(build, visited), v)
  {
    assert (visited + [v])[..|visited|] == visited;
  }

  /** Pruning inside the walk is the same as walking the pruned list. */
  lemma {:induction false} WalkAllPruned(build: string, parent: string, ds: seq<Dir>)
    ensures WalkAll(build, parent, ds, true) == WalkAll(build, parent, PruneTopLevel(ds), false)
  {
    if ds != [] {
      WalkAllPruned(build, parent, ds[1..]);
      if KeptAtTop(ds[0].name) {
        assert PruneTopLevel(ds)[1..] == PruneTopLevel(ds[1..]);
      } else {
        assert PruneTopLevel(ds) == PruneTopLevel(ds[1..]);
      }
    }
  }

  /** Once the exception is raised nothing after it changes the outcome. */
  lemma {:induction false} CrashIsFinal(build: string, prefix: seq<Visit>, visits: seq<Visit>)
    requires |prefix| <= |visits| && visits[..|prefix|] == prefix
    requires Crawled(build, prefix).Crashed?
    ensures Crawled(build, visits) == Crawled(build, prefix)
  {
    if |visits| > |prefix| {
      var init := visits[..|visits| - 1];
      assert init[..|prefix|] == prefix;
      CrashIsFinal(build, prefix, init);
    } else {
      assert visits == prefix;
    }
  }

  // -----------------------------------------------------------------------
  // Properties of the pruning and the walk

  /** A first-level directory survives exactly when its name is kept. */
  lemma {:induction false} PruneKeepsExactlyKept(dirs: seq<Dir>)
    ensures forall d :: d in PruneTopLevel(dirs) <==> d in dirs && KeptAtTop(d.name)
  {
    if dirs != [] {
      PruneKeepsExactlyKept(dirs[1..]);
      assert forall d :: d in dirs <==> d == dirs[0] || d in dirs[1..];
    }
  }

  /** Pruning keeps relative order: it works on each part of a listing
      independently. */
  lemma {:induction false} PruneKeepsOrder(a: seq<Dir>, b: seq<Dir>)
    ensures PruneTopLevel(a + b) == PruneTopLevel(a) + PruneTopLevel(b)
  {
    if a != [] {
      assert (a + b)[1..] == a[1..] + b;
      PruneKeepsOrder(a[1..], b);
      AppendAssoc(if KeptAtTop(a[0].name) then [a[0]] else [], PruneTopLevel(a[1..]), PruneTopLevel(b));
    } else {
      assert a + b == b;
    }
  }

  /** Years and "fa" stay, in their order; other names, three- and
      five-digit names included, go. */
  lemma PruneExample(y2023: Dir, fa: Dir, tags: Dir, short: Dir, long: Dir, y1999: Dir)
    requires y2023.name == "2023" && fa.name == "fa" && tags.name == "tags"
    requires short.name == "202" && long.name == "20234" && y1999.name == "1999"
    ensures PruneTopLevel([y2023, tags, fa, short, long, y1999]) == [y2023, fa, y1999]
  {
    KeptNames();
    var t5: seq<Dir> := [y1999];
    var t4 := [long] + t5;
    var t3 := [short] + t4;
    var t2 := [fa] + t3;
    var t1 := [tags] + t2;
    var t0 := [y2023] + t1;
    PruneCons(y1999, []);
    assert [y1999] + [] == t5;
    PruneCons(long, t5);
    PruneCons(short, t4);
    PruneCons(fa, t3);
    PruneCons(tags, t2);
    PruneCons(y2023, t1);
    assert t0 == [y2023, tags, fa, short, long, y1999];
  }

  lemma KeptNames()
    ensures KeptAtTop("2023") && KeptAtTop("1999") && KeptAtTop("fa")
    ensures !KeptAtTop("tags") && !KeptAtTop("202") && !KeptAtTop("20234")
  {
    assert !IsAsciiDigit("tags"[0]);
  }

  lemma PruneCons(d: Dir, rest: seq<Dir>)
    ensures PruneTopLevel([d] + rest) == (if KeptAtTop(d.name) then [d] else []) + PruneTopLevel(rest)
  {
    assert ([d] + rest)[1..] == rest;
  }

  /** Below the first level nothing is pruned: the walk from a path longer
      than the build directory is the full walk. */
  lemma {:induction false} DeeperLevelsNotPruned(build: string, path: string, d: Dir)
    requires WellNamed(d) && |path| > |build|
    ensures Walk(build, path, d) == FullWalk(path, d)
    decreases d
  {
    DeeperListsNotPruned(build, path, d.subdirs);
  }

  lemma {:induction false} DeeperListsNotPruned(build: string, parent: string, ds: seq<Dir>)
    requires |parent| > |build|
    requires forall i :: 0 <= i < |ds| ==> IsEntryName(ds[i].name) && WellNamed(ds[i])
    ensures WalkAll(build, parent, ds, false) == FullWalkAll(parent, ds)
    decreases ds
  {
    if ds != [] {
      BasenameOfJoin(parent, ds[0].name);
      DeeperLevelsNotPruned(build, PathJoin(parent, ds[0].name), ds[0]);
      DeeperListsNotPruned(build, parent, ds[1..]);
    }
  }

  /** The whole walk of a well-named build: the build directory itself,
      then the full walks of the first-level directories the pruning keeps,
      in listing order. */
  lemma OnlyTheFirstLevelIsPruned(build: string, top: Dir)
    requires WellNamed(top)
    ensures Walk(build, build, top) == [Visit(build, top.index)] + FullWalkAll(build, PruneTopLevel(top.subdirs))
  {
    var kept := PruneTopLevel(top.subdirs);
    WalkAllPruned(build, build, top.subdirs);
    PruneKeepsExactlyKept(top.subdirs);
    forall i | 0 <= i < |kept|
      ensures IsEntryName(kept[i].name) && WellNamed(kept[i])
    {
      assert kept[i] in top.subdirs;
    }
    KeptListsWalkFully(build, kept);
  }

  lemma {:induction false} KeptListsWalkFully(build: string, ds: seq<Dir>)
    requires forall i :: 0 <= i < |ds| ==> IsEntryName(ds[i].name) && WellNamed(ds[i])
    ensures WalkAll(build, build, ds, false) == FullWalkAll(build, ds)
    decreases ds
  {
    if ds != [] {
      BasenameOfJoin(build, ds[0].name);
      DeeperLevelsNotPruned(build, PathJoin(build, ds[0].name), ds[0]);
      KeptListsWalkFully(build, ds[1..]);
    }
  }

  // -----------------------------------------------------------------------
  // Properties of the extraction

  /** One tag per link, in document order, each the link's stripped text
      and so free of surrounding whitespace; no tag list gives no tags. */
  lemma TagsAreStrippedLinks(tagLinks: Option<seq<string>>)
    ensures tagLinks.None? ==> TagsOf(tagLinks) == []
    ensures tagLinks.Some? ==>
      (|TagsOf(tagLinks)| == |tagLinks.value|
       && forall i :: 0 <= i < |tagLinks.value| ==> TagsOf(tagLinks)[i] == Strip(tagLinks.value[i]))
    ensures forall t :: t in TagsOf(tagLinks) ==> Strip(t) == t
  {
    forall t | t in TagsOf(tagLinks)
      ensures Strip(t) == t
    {
      var i :| 0 <= i < |tagLinks.value| && TagsOf(tagLinks)[i] == t;
      StripCharsIdempotent(tagLinks.value[i], Whitespace);
    }
  }

  /** At most one category: the third breadcrumb link's stripped text,
      present exactly when there are more than two links. */
  lemma AtMostOneCategory(breadcrumbLinks: Option<seq<string>>)
    ensures |CategoriesOf(breadcrumbLinks)| <= 1
    ensures CategoriesOf(breadcrumbLinks) != [] <==> breadcrumbLinks.Some? && |breadcrumbLinks.value| > 2
    ensures CategoriesOf(breadcrumbLinks) != [] ==> CategoriesOf(breadcrumbLinks) == [Strip(breadcrumbLinks.value[2])]
  {
  }

  /** A readable page gives a post exactly when title, post-meta, date and
      content are all present; an unreadable file, or a missing post-meta
      container after a title, raises instead of skipping, and each skip
      names the first piece missing. */
  lemma SkipRules(build: string, path: string, page: Page)
    ensures var out := PageOutcome(build, path, page); var filePath := PathJoin(path, "index.html");
      && (out.Recorded? <==>
            page.readable && page.title.Some? && page.postMeta.Some? && page.postMeta.value.dateTitle.Some? && page.content.Some?)
      && (out.Raised? <==> !page.readable || (page.title.Some? && page.postMeta.None?))
      && (out.Raised? ==> out.filePath == filePath)
      && (page.readable && page.title.None? ==> out == Skipped(NoTitle(filePath)))
      && (page.readable && page.title.Some? && page.postMeta.Some? && page.postMeta.value.dateTitle.None?
          ==> out == Skipped(NoDate(filePath)))
      && (page.readable && page.title.Some? && page.postMeta.Some? && page.postMeta.value.dateTitle.Some? && page.content.None?
          ==> out == Skipped(NoContent(filePath)))
  {
  }

  /** The post of a directory: language "en", URL built from the directory
      name, slug derived from that URL, stripped title, the date attribute,
      the extracted tags and categories, and the content as is. */
  lemma RecordFields(build: string, path: string, page: Page)
    requires PageOutcome(build, path, page).Recorded?
    ensures var (m, html) := PageOutcome(build, path, page).post;
      && m.lang == Some("en")
      && m.url == Some(build + "/" + Basename(path) + "/")
      && m.slug == Some(Slug.CreateSlugFromUrl(m.url.value))
      && m.title == Some(Strip(page.title.value))
      && m.date == page.postMeta.value.dateTitle
      && m.tags == Some(TagsOf(page.tagLinks))
      && m.categories == Some(CategoriesOf(page.breadcrumbLinks))
      && html == page.content.value
  {
  }

  /** For a directory reached by joining a name onto its parent, the post's
      slug is that name, and the post always yields a payload whose slug is
      that name too. */
  lemma SlugIsDirectoryName(build: string, parent: string, name: string, page: Page)
    requires IsEntryName(name)
    requires PageOutcome(build, PathJoin(parent, name), page).Recorded?
    ensures PageOutcome(build, PathJoin(parent, name), page).post.0.slug == Some(name)
    ensures Posts.BuildPostData(PageOutcome(build, PathJoin(parent, name), page).post.0,
                                PageOutcome(build, PathJoin(parent, name), page).post.1).Ok?
    ensures Posts.BuildPostData(PageOutcome(build, PathJoin(parent, name), page).post.0,
                                PageOutcome(build, PathJoin(parent, name), page).post.1).value.slug == name
  {
    var path := PathJoin(parent, name);
    var post := PageOutcome(build, path, page).post;
    RecordedUrlAndSlug(build, path, page);
    BasenameOfJoin(parent, name);
    Slug.SlugOfDirectoryUrl(build, name);
    Posts.PayloadSlugFromUrl(post.0, post.1);
  }

  lemma RecordedUrlAndSlug(build: string, path: string, page: Page)
    requires PageOutcome(build, path, page).Recorded?
    ensures var m := PageOutcome(build, path, page).post.0;
      && m.url == Some(PostUrl(build, path))
      && m.slug == Some(Slug.CreateSlugFromUrl(PostUrl(build, path)))
      && m.title.Some? && m.date.Some?
  {
    assert page.readable && page.title.Some? && page.postMeta.Some? && page.postMeta.value.dateTitle.Some? && page.content.Some?;
  }

  // -----------------------------------------------------------------------
  // Properties of the crawl

  /** The post a visit contributes, if any. */
  function RecordOf(build: string, v: Visit): seq<Posts.Post> {
    if v.page.Some? && PageOutcome(build, v.path, v.page.value).Recorded?
    then [PageOutcome(build, v.path, v.page.value).post] else []
  }

  /** Reference definition: the posts of the visits, in visiting order. */
  function RecordsOf(build: string, visits: seq<Visit>): seq<Posts.Post> {
    if visits == [] then [] else RecordsOf(build, visits[..|visits| - 1]) + RecordOf(build, visits[|visits| - 1])
  }

  /** Unless the crawl raised, the batch is the posts of all directories
      visited, in traversal order, at most one per directory. */
  lemma {:induction false} BatchIsTheRecordsInOrder(build: string, visits: seq<Visit>)
    ensures Crawled(build, visits).Collecting? ==> Crawled(build, visits).posts == RecordsOf(build, visits)
    ensures |RecordsOf(build, visits)| <= |visits|
  {
    if visits != [] {
      BatchIsTheRecordsInOrder(build, visits[..|visits| - 1]);
    }
  }

  /** The crawl raises exactly when some visited page cannot be read or has
      a title but no post-meta container, and then it names one such page. */
  lemma {:induction false} CrashIffUnreadableOrNoPostMeta(build: string, visits: seq<Visit>)
    ensures Crawled(build, visits).Crashed? <==>
      exists i :: 0 <= i < |visits| && visits[i].page.Some? && PageOutcome(build, visits[i].path, visits[i].page.value).Raised?
    ensures Crawled(build, visits).Crashed? ==>
      exists i :: 0 <= i < |visits| && visits[i].page.Some?
        && (!visits[i].page.value.readable || (visits[i].page.value.title.Some? && visits[i].page.value.postMeta.None?))
        && Crawled(build, visits).filePath == PathJoin(visits[i].path, "index.html")
  {
    if visits != [] {
      var init := visits[..|visits| - 1];
      CrashIffUnreadableOrNoPostMeta(build, init);
      var last := visits[|visits| - 1];
      if Crawled(build, init).Crashed? {
        var i :| 0 <= i < |init| && init[i].page.Some?
          && (!init[i].page.value.readable || (init[i].page.value.title.Some? && init[i].page.value.postMeta.None?))
          && Crawled(build, init).filePath == PathJoin(init[i].path, "index.html");
        assert visits[i] == init[i];
      } else if last.page.Some? && PageOutcome(build, last.path, last.page.value).Raised? {
        assert visits[|visits| - 1] == last;
      } else {
        forall i | 0 <= i < |visits| && visits[i].page.Some?
          ensures !PageOutcome(build, visits[i].path, visits[i].page.value).Raised?
        {
          if i < |init| {
            assert visits[i] == init[i];
          }
        }
      }
    }
  }

  /** A build directory that cannot be listed hands an empty batch over. */
  lemma NoBuildDirectoryNoPosts(build: string)
    ensures Crawled(build, Visits(build, None)) == Collecting([], [])
  {
  }
}
