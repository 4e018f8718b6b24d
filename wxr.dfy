/** `export_to_wxr`: one WordPress eXtended RSS 1.2 document for a batch of
    posts, built by appending to a text buffer. `DOMAIN` and `USERNAME` are
    parameters; the file write at the end is not modelled. */
module Wxr {
  import opened Wrappers
  import opened Text
  import Slug
  import DateFormat
  import Posts

  /** The exception that stops the export: a missing key or a date that
      `format_date` cannot parse. */
  datatype ExportError = Missing(keyError: Posts.KeyError) | BadDate(dateError: DateFormat.DateError)

  /** The values one `<item>` block substitutes into its template. */
  datatype ItemFields = ItemFields(
    title: string,
    link: string,
    pubDate: string,
    creator: string,
    guid: string,
    content: string,
    excerpt: string,
    postId: string,
    postDate: string,
    postDateGmt: string,
    postModified: string,
    postModifiedGmt: string,
    postName: string,
    categories: seq<string>,
    tags: seq<string>)

  /** The document's opening lines, up to the WXR version element. */
  const Header: string :=
    (
      "<?xml version=\"1.0\" encoding=\"UTF-8\" ?>\n" +
      "<rss version=\"2.0\" xmlns:excerpt=\"http://wordpress.org/export/1.2/excerpt/\"" +
      " xmlns:content=\"http://purl.org/rss/1.0/modules/content/\"" +
      " xmlns:wfw=\"http://wellformedweb.org/CommentAPI/\"" +
      " xmlns:dc=\"http://purl.org/dc/elements/1.1/\"" +
      " xmlns:wp=\"http://wordpress.org/export/1.2/\">\n" +
      "<channel>\n" +
      "    <wp:wxr_version>1.2</wp:wxr_version>")


  const Footer: string :=
    ("\n</channel>" + "\n</rss>")


  /** The block that closes every item. */
  const PostMetaTail: string :=
    (
      "\n        <wp:postmeta>" +
      "\n            <wp:meta_key>_wp_page_template</wp:meta_key>" +
      "\n            <wp:meta_value>default</wp:meta_value>" +
      "\n        </wp:postmeta>" +
      "\n    </item>")


  /** `term.lower().replace(' ', '-')`, character by character. */
  function Nicename(term: string): (n: string)
    ensures |n| == |term|
    ensures forall i :: 0 <= i < |term| ==> n[i] == (if term[i] == ' ' then '-' else LowerAscii(term[i]))
  {
    if term == [] then []
    else [if term[0] == ' ' then '-' else LowerAscii(term[0])] + Nicename(term[1..])
  }

  /** One `<category>` line; `taxonomy` is "category" or "post_tag". */
  function TermLine(taxonomy: string, term: string): string {
    Concat(["\n        <category domain=\"", taxonomy, "\" nicename=\"", Nicename(term),
            "\"><![CDATA[", term, "]]></category>"])
  }

  /** The lines of a list of terms, in list order. */
  function TermLines(taxonomy: string, terms: seq<string>): string {
    if terms == [] then ""
    else TermLines(taxonomy, terms[..|terms| - 1]) + TermLine(taxonomy, terms[|terms| - 1])
  }

  /** The lookups of one loop iteration, in the order the code makes them:
      the slug from `url`, `format_date(date)` twice, then `title` when the
      template is filled in. */
  function ItemOf(p: Posts.Post, domain: Option<string>, username: Option<string>): Result<ItemFields, ExportError> {
    var m := p.0;
    if m.url.None? then Err(Missing(Posts.MissingKey("url")))
    else
      var slug := Slug.CreateSlugFromUrl(m.url.value);
      if m.date.None? then Err(Missing(Posts.MissingKey("date")))
      else
        match DateFormat.FormatDate(m.date.value)
        case Err(e) => Err(BadDate(e))
        case Ok(formattedDate) =>
          var formattedDateGmt := DateFormat.FormatDate(m.date.value).value;
          if m.title.None? then Err(Missing(Posts.MissingKey("title")))
          else Ok(ItemFields(
            title := m.title.value,
            link := Posts.Shown(domain) + "/" + slug + "/",
            pubDate := formattedDate,
            creator := Posts.Shown(username),
            guid := Posts.Shown(domain) + "/" + slug + "/",
            content := p.1,
            excerpt := m.excerpt.GetOr(""),
            postId := m.postId.GetOr(""),
            postDate := formattedDate,
            postDateGmt := formattedDateGmt,
            postModified := formattedDate,
            postModifiedGmt := formattedDateGmt,
            postName := slug,
            categories := m.categories.GetOr([]),
            tags := m.tags.GetOr([])))
  }

  /** An element on a line of its own inside an item: `<tag>value</tag>`. */
  function Element(tag: string, value: string): string {
    "\n        <" + tag + ">" + value + "</" + tag + ">"
  }

  /** An element whose value is wrapped in a CDATA section. */
  function CDataElement(tag: string, value: string): string {
    "\n        <" + tag + "><![CDATA[" + value + "]]></" + tag + ">"
  }

  /** The `<item>` template up to the term lines. */
  function ItemHead(f: ItemFields): string {
    Concat([
      "\n    <item>",
      Element("title", f.title),
      Element("link", f.link),
      Element("pubDate", f.pubDate),
      Element("dc:creator", f.creator),
      "\n        <guid isPermaLink=\"false\">" + f.guid + "</guid>",
      Element("description", ""),
      CDataElement("content:encoded", f.content),
      CDataElement("excerpt:encoded", f.excerpt),
      Element("wp:post_id", f.postId),
      CDataElement("wp:post_date", f.postDate),
      CDataElement("wp:post_date_gmt", f.postDateGmt),
      CDataElement("wp:post_modified", f.postModified),
      CDataElement("wp:post_modified_gmt", f.postModifiedGmt),
      Element("wp:comment_status", "closed"),
      Element("wp:ping_status", "closed"),
      Element("wp:post_name", f.postName),
      Element("wp:status", "publish"),
      Element("wp:post_parent", "0"),
      Element("wp:menu_order", "0"),
      Element("wp:post_type", "post"),
      Element("wp:post_password", ""),
      Element("wp:is_sticky", "0")])
  }

  /** A whole `<item>` block: template, category lines, tag lines, postmeta. */
  function RenderItem(f: ItemFields): string {
    ItemHead(f) + TermLines("category", f.categories) + TermLines("post_tag", f.tags) + PostMetaTail
  }

  /** One post's `<item>` block, or the exception its lookups raise. */
  function ItemText(p: Posts.Post, domain: Option<string>, username: Option<string>): Result<string, ExportError> {
    var f :- ItemOf(p, domain, username);
    Ok(RenderItem(f))
  }

  /** The item of every post, in batch order. */
  function ItemTexts(posts: seq<Posts.Post>, domain: Option<string>, username: Option<string>): seq<Result<string, ExportError>> {
    Map(posts, ItemTextOf(domain, username))
  }

  function ItemTextOf(domain: Option<string>, username: Option<string>): Posts.Post -> Result<string, ExportError> {
    p => ItemText(p, domain, username)
  }

  /** The items joined in order, or the first failing item's error: the
      loop stops at the first exception. */
  function Items(items: seq<Result<string, ExportError>>): Result<string, ExportError> {
    if items == [] then Ok("")
    else
      var before :- Items(items[..|items| - 1]);
      var item :- items[|items| - 1];
      Ok(before + item)
  }

  /** The document `export_to_wxr` writes. */
  function Document(posts: seq<Posts.Post>, domain: Option<string>, username: Option<string>): Result<string, ExportError> {
    Framed(Header, Items(ItemTexts(posts, domain, username)), Footer)
  }

  /** The items between an opening and a closing text, or their error. */
  function Framed(header: string, body: Result<string, ExportError>, footer: string): Result<string, ExportError> {
    var text :- body;
    Ok(header + text + footer)
  }

  /** `export_to_wxr` up to the file write: the loop over posts, appending
      each item to `wxr`, stopping at the first exception. */
  method ExportToWxr(posts: seq<Posts.Post>, domain: Option<string>, username: Option<string>)
    returns (r: Result<string, ExportError>)
    ensures r == Document(posts, domain, username)
  {
    var wxr := Header;
    var body := AppendItems(wxr, posts, domain, username);
    if body.Err? {
      return Err(body.error);
    }
    wxr := body.value + Footer;
    return Ok(wxr);
  }

  /** The loop of `export_to_wxr`: each post's item appended to `wxr` in
      batch order, stopping at the first exception. */
  method AppendItems(start: string, posts: seq<Posts.Post>, domain: Option<string>, username: Option<string>)
    returns (r: Result<string, ExportError>)
    ensures Items(ItemTexts(posts, domain, username)).Err? ==> r == Err(Items(ItemTexts(posts, domain, username)).error)
    ensures Items(ItemTexts(posts, domain, username)).Ok? ==> r == Ok(start + Items(ItemTexts(posts, domain, username)).value)
  {
    var wxr := start;
    var i := 0;
    while i < |posts|
      invariant 0 <= i <= |posts|
      invariant Items(ItemTexts(posts[..i], domain, username)).Ok?
      invariant wxr == start + Items(ItemTexts(posts[..i], domain, username)).value
    {
      var item := ItemOf(posts[i], domain, username);
      NextItem(posts, i, domain, username);
      if item.Err? {
        MapPrefix(posts, i + 1, ItemTextOf(domain, username));
        ErrorStopsTheBatch(ItemTexts(posts, domain, username), i + 1);
        return Err(item.error);
      }
      AppendAssoc(start, Items(ItemTexts(posts[..i], domain, username)).value, RenderItem(item.value));
      wxr := AppendItem(wxr, item.value);
      i := i + 1;
    }
    assert posts[..i] == posts;
    return Ok(wxr);
  }

  /** One loop iteration's appends: the item template, then a line per
      category, then a line per tag, then the postmeta block. */
  method AppendItem(wxr: string, f: ItemFields) returns (out: string)
    ensures out == wxr + RenderItem(f)
  {
    var head := ItemHead(f);
    out := wxr + head;
    out := AppendTerms(out, "category", f.categories);
    AppendAssoc(wxr, head, TermLines("category", f.categories));
    out := AppendTerms(out, "post_tag", f.tags);
    AppendAssoc(wxr, head + TermLines("category", f.categories), TermLines("post_tag", f.tags));
    out := out + PostMetaTail;
    AppendAssoc(wxr, head + TermLines("category", f.categories) + TermLines("post_tag", f.tags), PostMetaTail);
  }

  /** The inner loops of `export_to_wxr`: one `<category>` line per term,
      in list order. */
  method AppendTerms(text: string, taxonomy: string, terms: seq<string>) returns (out: string)
    ensures out == text + TermLines(taxonomy, terms)
  {
    out := text;
    var j := 0;
    while j < |terms|
      invariant 0 <= j <= |terms|
      invariant out == text + TermLines(taxonomy, terms[..j])
    {
      assert terms[..j + 1][..j] == terms[..j];
      var line := TermLine(taxonomy, terms[j]);
      AppendAssoc(text, TermLines(taxonomy, terms[..j]), line);
      out := out + line;
      j := j + 1;
    }
    assert terms[..j] == terms;
  }

  // -----------------------------------------------------------------------
  // Lemmas

  /** One more post either fails the batch with its own error or appends
      its item. */
  lemma NextItem(posts: seq<Posts.Post>, i: nat, domain: Option<string>, username: Option<string>)
    requires i < |posts|
    requires Items(ItemTexts(posts[..i], domain, username)).Ok?
    ensures ItemOf(posts[i], domain, username).Err? ==>
      Items(ItemTexts(posts[..i + 1], domain, username)) == Err(ItemOf(posts[i], domain, username).error)
    ensures ItemOf(posts[i], domain, username).Ok? ==>
      Items(ItemTexts(posts[..i + 1], domain, username))
        == Ok(Items(ItemTexts(posts[..i], domain, username)).value + RenderItem(ItemOf(posts[i], domain, username).value))
  {
    MapSnoc(posts, i, ItemTextOf(domain, username));
    ItemsSnoc(ItemTexts(posts[..i], domain, username), ItemText(posts[i], domain, username));
  }

  lemma ItemsSnoc(before: seq<Result<string, ExportError>>, next: Result<string, ExportError>)
    requires Items(before).Ok?
    ensures next.Ok? ==> Items(before + [next]) == Ok(Items(before).value + next.value)
    ensures next.Err? ==> Items(before + [next]) == Err(next.error)
  {
    assert (before + [next])[..|before|] == before;
  }

  /** Once a prefix of the batch fails, the whole batch fails the same way. */
  lemma {:induction false} ErrorStopsTheBatch(items: seq<Result<string, ExportError>>, k: nat)
    requires k <= |items|
    requires Items(items[..k]).Err?
    ensures Items(items) == Items(items[..k])
  {
    if k < |items| {
      var n := |items|;
      assert items[..n - 1][..k] == items[..k];
      ErrorStopsTheBatch(items[..n - 1], k);
    } else {
      assert items[..k] == items;
    }
  }

  /** With no posts the document is the header followed by the footer. */
  lemma EmptyBatch(domain: Option<string>, username: Option<string>)
    ensures Document([], domain, username) == Ok(Header + Footer)
  {
    assert Header + "" == Header;
  }

  /** Items concatenate in batch order: the items of `a + b` are those of
      `a` followed by those of `b`. */
  lemma {:induction false} ItemsInBatchOrder(a: seq<Result<string, ExportError>>, b: seq<Result<string, ExportError>>)
    requires Items(a).Ok? && Items(b).Ok?
    ensures Items(a + b) == Ok(Items(a).value + Items(b).value)
  {
    if b == [] {
      assert a + b == a;
      assert Items(a).value + "" == Items(a).value;
    } else {
      var n := |b|;
      assert (a + b)[..|a + b| - 1] == a + b[..n - 1];
      assert (a + b)[|a + b| - 1] == b[n - 1];
      ItemsInBatchOrder(a, b[..n - 1]);
      var last := b[n - 1];
      if last.Ok? {
        AppendAssoc(Items(a).value, Items(b[..n - 1]).value, last.value);
      }
    }
  }

  /** A post whose lookups succeed contributes exactly its rendered item. */
  lemma OneItemPerPost(p: Posts.Post, domain: Option<string>, username: Option<string>)
    requires ItemOf(p, domain, username).Ok?
    ensures Items(ItemTexts([p], domain, username)) == Ok(RenderItem(ItemOf(p, domain, username).value))
  {
    var items := ItemTexts([p], domain, username);
    assert items[..0] == [];
    var text := RenderItem(ItemOf(p, domain, username).value);
    assert items[0] == Ok(text);
    assert "" + text == text;
  }

  /** The items exist exactly when every lookup succeeds; otherwise the
      error is that of the first failing lookup. */
  lemma {:induction false} ItemsOkIffEveryItemOk(items: seq<Result<string, ExportError>>)
    ensures Items(items).Ok? <==> forall i :: 0 <= i < |items| ==> items[i].Ok?
    ensures Items(items).Err? ==>
      exists k :: 0 <= k < |items| && (forall i :: 0 <= i < k ==> items[i].Ok?) && items[k] == Err(Items(items).error)
  {
    if items != [] {
      var n := |items|;
      var pre := items[..n - 1];
      ItemsOkIffEveryItemOk(pre);
      assert forall i :: 0 <= i < n - 1 ==> pre[i] == items[i];
      if Items(pre).Err? {
        var k :| 0 <= k < n - 1 && (forall i :: 0 <= i < k ==> pre[i].Ok?) && pre[k] == Err(Items(pre).error);
        assert items[k] == Err(Items(items).error);
      }
    }
  }

  /** The export succeeds exactly when every post's lookups do; otherwise it
      fails with the error of the first failing post. */
  lemma DocumentOkIffEveryItemOk(posts: seq<Posts.Post>, domain: Option<string>, username: Option<string>)
    ensures Document(posts, domain, username).Ok? <==>
      forall i :: 0 <= i < |posts| ==> ItemOf(posts[i], domain, username).Ok?
    ensures Document(posts, domain, username).Err? ==>
      exists k :: 0 <= k < |posts|
        && (forall i :: 0 <= i < k ==> ItemOf(posts[i], domain, username).Ok?)
        && ItemOf(posts[k], domain, username) == Err(Document(posts, domain, username).error)
  {
    var items := ItemTexts(posts, domain, username);
    DocumentIsItems(posts, domain, username);
    ItemsOkIffEveryItemOk(items);
    forall i | 0 <= i < |posts|
      ensures items[i].Ok? == ItemOf(posts[i], domain, username).Ok?
      ensures items[i].Err? ==> items[i].error == ItemOf(posts[i], domain, username).error
    {
      ItemTextFails(posts[i], domain, username);
    }
  }

  /** The document fails exactly when its items do, with their error. */
  lemma DocumentIsItems(posts: seq<Posts.Post>, domain: Option<string>, username: Option<string>)
    ensures Document(posts, domain, username).Ok? == Items(ItemTexts(posts, domain, username)).Ok?
    ensures Document(posts, domain, username).Err? ==>
      Document(posts, domain, username).error == Items(ItemTexts(posts, domain, username)).error
  {
  }

  /** An item fails exactly when its lookups do, with their error. */
  lemma ItemTextFails(p: Posts.Post, domain: Option<string>, username: Option<string>)
    ensures ItemText(p, domain, username).Ok? == ItemOf(p, domain, username).Ok?
    ensures ItemText(p, domain, username).Err? ==> ItemText(p, domain, username).error == ItemOf(p, domain, username).error
  {
  }

  /** A successful export is the header, the items, then the footer. */
  lemma DocumentFrame(posts: seq<Posts.Post>, domain: Option<string>, username: Option<string>)
    requires Document(posts, domain, username).Ok?
    ensures var d := Document(posts, domain, username).value;
      && |Header| + |Footer| <= |d|
      && d[..|Header|] == Header
      && d[|d| - |Footer|..] == Footer
      && d[|Header|..|d| - |Footer|] == Items(ItemTexts(posts, domain, username)).value
  {
    var body := Items(ItemTexts(posts, domain, username)).value;
    assert Document(posts, domain, username).value == Header + body + Footer;
    Framing(Header, body, Footer);
  }

  /** What an item holds: `link` and `guid` are both DOMAIN/slug/, the five
      date fields all hold `format_date(date)`, the content goes into its
      CDATA section unchanged, and the term lists are the metadata's. */
  lemma ItemContents(p: Posts.Post, domain: Option<string>, username: Option<string>)
    requires ItemOf(p, domain, username).Ok?
    ensures var f := ItemOf(p, domain, username).value; var m := p.0;
      && m.url.Some? && m.date.Some? && m.title.Some?
      && var slug := Slug.CreateSlugFromUrl(m.url.value);
      && DateFormat.FormatDate(m.date.value).Ok?
      && f.title == m.title.value
      && f.link == f.guid == Posts.Shown(domain) + "/" + slug + "/"
      && f.postName == slug && '/' !in f.postName
      && f.pubDate == f.postDate == f.postDateGmt == f.postModified == f.postModifiedGmt
         == DateFormat.FormatDate(m.date.value).value
      && f.content == p.1
      && f.categories == m.categories.GetOr([]) && f.tags == m.tags.GetOr([])
  {
  }

  /** Why an item fails, in the order of the lookups. */
  lemma ItemErrors(p: Posts.Post, domain: Option<string>, username: Option<string>)
    ensures var m := p.0;
      && (m.url.None? ==> ItemOf(p, domain, username) == Err(Missing(Posts.MissingKey("url"))))
      && (m.url.Some? && m.date.None? ==> ItemOf(p, domain, username) == Err(Missing(Posts.MissingKey("date"))))
      && (m.url.Some? && m.date.Some? && DateFormat.FormatDate(m.date.value).Err? ==>
            ItemOf(p, domain, username) == Err(BadDate(DateFormat.FormatDate(m.date.value).error)))
      && (m.url.Some? && m.date.Some? && DateFormat.FormatDate(m.date.value).Ok? && m.title.None? ==>
            ItemOf(p, domain, username) == Err(Missing(Posts.MissingKey("title"))))
      && (m.url.Some? && m.date.Some? && DateFormat.FormatDate(m.date.value).Ok? && m.title.Some? ==>
            ItemOf(p, domain, username).Ok?)
  {
  }

  /** Term lines come in list order. */
  lemma {:induction false} TermLinesInOrder(taxonomy: string, a: seq<string>, b: seq<string>)
    ensures TermLines(taxonomy, a + b) == TermLines(taxonomy, a) + TermLines(taxonomy, b)
  {
    if b == [] {
      assert a + b == a;
    } else {
      var n := |b|;
      assert (a + b)[..|a + b| - 1] == a + b[..n - 1];
      assert (a + b)[|a + b| - 1] == b[n - 1];
      TermLinesInOrder(taxonomy, a, b[..n - 1]);
      AppendAssoc(TermLines(taxonomy, a), TermLines(taxonomy, b[..n - 1]), TermLine(taxonomy, b[n - 1]));
    }
  }

  /** A nicename holds no space and no upper-case ASCII letter, and making
      a nicename of it changes nothing. */
  lemma NicenameIsNormal(term: string)
    ensures ' ' !in Nicename(term)
    ensures forall i :: 0 <= i < |term| ==> !('A' <= Nicename(term)[i] <= 'Z')
    ensures Nicename(Nicename(term)) == Nicename(term)
  {
    var n := Nicename(term);
    var nn := Nicename(n);
    forall i | 0 <= i < |n|
      ensures n[i] != ' ' && !('A' <= n[i] <= 'Z') && nn[i] == n[i]
    {
      LowerAsciiIsLower(term[i]);
    }
    assert nn == n;
  }

  lemma LowerAsciiIsLower(c: char)
    ensures !('A' <= LowerAscii(c) <= 'Z')
    ensures LowerAscii(LowerAscii(c)) == LowerAscii(c)
    ensures c != ' ' ==> LowerAscii(c) != ' '
  {
  }

  /** "Web Dev" becomes "web-dev"; punctuation is kept. */
  lemma NicenameExamples()
    ensures Nicename("Web Dev") == "web-dev"
    ensures Nicename("C++ Tips") == "c++-tips"
  {
    NicenameOfWords("Web Dev", "web-dev");
    NicenameOfWords("C++ Tips", "c++-tips");
  }

  lemma NicenameOfWords(term: string, expected: string)
    requires |term| == |expected|
    requires forall i :: 0 <= i < |term| ==> expected[i] == (if term[i] == ' ' then '-' else LowerAscii(term[i]))
    ensures Nicename(term) == expected
  {
  }
}
