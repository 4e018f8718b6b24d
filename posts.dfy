/** The post metadata dictionary and the JSON payload `post_to_wordpress`
    builds from it before the HTTP call. */
module Posts {
  import opened Wrappers
  import opened Text
  import Slug

  /** A metadata dictionary: each field is `None` when its key is absent.
      Values are kept as text (the YAML loader or the Hugo crawl fills them). */
  datatype Metadata = Metadata(
    url: Option<string>,
    title: Option<string>,
    date: Option<string>,
    slug: Option<string>,
    shortlink: Option<string>,
    tags: Option<seq<string>>,
    categories: Option<seq<string>>,
    lang: Option<string>,
    excerpt: Option<string>,
    postId: Option<string>)

  /** A post handed to the export: its metadata and its HTML content. */
  type Post = (Metadata, string)

  /** The `KeyError` raised by `metadata[key]`. */
  datatype KeyError = MissingKey(key: string)

  /** The `post_data` dictionary sent as JSON. */
  datatype PostData = PostData(
    title: string,
    date: string,
    slug: string,
    shortlink: Option<string>,
    tags: seq<string>,
    categories: seq<string>,
    content: string,
    status: string,
    lang: string)

  /** An HTTP POST of a payload to an endpoint. */
  datatype Request = Request(endpoint: string, payload: PostData)

  /** What `post_to_wordpress` does once the payload exists. */
  datatype PostOutcome = NotConfigured | Sent(request: Request)

  /** How an f-string shows an environment variable that may be unset. */
  function Shown(v: Option<string>): string {
    v.GetOr("None")
  }

  /** The payload: the slug is computed from `metadata['url']` first, then
      `title` and `date` are looked up; the rest have defaults. */
  function BuildPostData(m: Metadata, html: string): Result<PostData, KeyError> {
    if m.url.None? then Err(MissingKey("url"))
    else
      var slug := Slug.CreateSlugFromUrl(m.url.value);
      if m.title.None? then Err(MissingKey("title"))
      else if m.date.None? then Err(MissingKey("date"))
      else Ok(PostData(
        title := m.title.value,
        date := m.date.value,
        slug := slug,
        shortlink := m.shortlink,
        tags := m.tags.GetOr([]),
        categories := m.categories.GetOr([]),
        content := html,
        status := "publish",
        lang := m.lang.GetOr("en")))
  }

  /** `post_to_wordpress` as defined next to `export_to_wxr`: nothing is sent
      when `WORDPRESS_URL` is unset or empty. */
  function PostToWordPress(m: Metadata, html: string, wordpressUrl: Option<string>): Result<PostOutcome, KeyError> {
    var payload :- BuildPostData(m, html);
    if wordpressUrl.None? || wordpressUrl.value == "" then Ok(NotConfigured)
    else Ok(Sent(Request(wordpressUrl.value + "/posts", payload)))
  }

  // -----------------------------------------------------------------------
  // Lemmas

  /** The payload exists exactly when `url`, `title` and `date` are all
      present; otherwise the error names the first missing one in the order
      the code looks them up. */
  lemma PayloadKeyErrors(m: Metadata, html: string)
    ensures BuildPostData(m, html).Ok? <==> m.url.Some? && m.title.Some? && m.date.Some?
    ensures m.url.None? ==> BuildPostData(m, html) == Err(MissingKey("url"))
    ensures m.url.Some? && m.title.None? ==> BuildPostData(m, html) == Err(MissingKey("title"))
    ensures m.url.Some? && m.title.Some? && m.date.None? ==> BuildPostData(m, html) == Err(MissingKey("date"))
  {
  }

  /** Status is always "publish"; `lang` falls back to "en", `tags` and
      `categories` to empty lists and `shortlink` to None; everything present
      is copied unchanged, and the content is the HTML given. */
  lemma PayloadDefaults(m: Metadata, html: string)
    requires BuildPostData(m, html).Ok?
    ensures var p := BuildPostData(m, html).value;
      && p.status == "publish"
      && p.content == html
      && p.title == m.title.value && p.date == m.date.value
      && (m.lang.None? ==> p.lang == "en") && (m.lang.Some? ==> p.lang == m.lang.value)
      && (m.tags.None? ==> p.tags == []) && (m.tags.Some? ==> p.tags == m.tags.value)
      && (m.categories.None? ==> p.categories == []) && (m.categories.Some? ==> p.categories == m.categories.value)
      && p.shortlink == m.shortlink
  {
  }

  /** The payload's slug is the last non-empty '/'-piece of the URL and
      holds no '/'; a `slug` key in the metadata is ignored. */
  lemma PayloadSlug(m: Metadata, html: string)
    requires BuildPostData(m, html).Ok?
    ensures var p := BuildPostData(m, html).value;
      && p.slug == LastNonEmpty(Split(m.url.value, '/'))
      && '/' !in p.slug
  {
    var slug := Slug.CreateSlugFromUrl(m.url.value);
    assert BuildPostData(m, html).value.slug == slug;
    Slug.SlugIsLastNonEmptySegment(m.url.value);
  }

  /** With `url`, `title` and `date` present the payload exists, and its
      slug is the one derived from the URL. */
  lemma PayloadSlugFromUrl(m: Metadata, html: string)
    requires m.url.Some? && m.title.Some? && m.date.Some?
    ensures BuildPostData(m, html).Ok?
    ensures BuildPostData(m, html).value.slug == Slug.CreateSlugFromUrl(m.url.value)
  {
  }

  /** A request goes out exactly when the payload can be built and
      `WORDPRESS_URL` is set and non-empty; it carries that payload to
      `WORDPRESS_URL + "/posts"`. */
  lemma PostSentIffConfigured(m: Metadata, html: string, wordpressUrl: Option<string>)
    ensures PostToWordPress(m, html, wordpressUrl).Err? <==> BuildPostData(m, html).Err?
    ensures PostToWordPress(m, html, wordpressUrl).Ok? ==>
      (PostToWordPress(m, html, wordpressUrl).value.Sent? <==> wordpressUrl.Some? && wordpressUrl.value != "")
    ensures PostToWordPress(m, html, wordpressUrl).Ok? && PostToWordPress(m, html, wordpressUrl).value.Sent? ==>
      PostToWordPress(m, html, wordpressUrl).value.request
        == Request(wordpressUrl.value + "/posts", BuildPostData(m, html).value)
  {
  }
}
