# markdown-to-wordpress, modelled in Dafny

markdown-to-wordpress moves blog posts into WordPress. It has two sources:

- a directory of Markdown files with YAML front matter;
- the HTML output of a Hugo build.

Each post becomes a `post_data` payload for the WordPress REST API, or an
`<item>` of one WordPress eXtended RSS (WXR 1.2) export document.

This project models the logic of that pipeline and proves properties of it:

- **Slug derivation.** `create_slug_from_url`, in both copies (`slug.dfy`).
- **Date reformatting.** `format_date`: a `datetime.strptime` parse of
  "Mon DD, YYYY HH:MM AM|PM ZONE", first with a zone name, then with a
  numeric offset, printed as "%Y-%m-%d %H:%M:%S" (`dateformat.dfy`). It
  includes the docstring's date, written in the input format, worked through
  (`dateformat_example.dfy`).
- **The post payload.** The payload `post_to_wordpress` builds, and whether
  it is sent (`posts.dfy`).
- **The WXR serializer.** `export_to_wxr` is a method that grows the
  document string in loops and is proved equal to a specification of the
  whole document (`wxr.dfy`).
- **The Hugo crawl** (`hugo.dfy`):
  - the directory walk, with the first level pruned;
  - `extract_tags` and `extract_categories`;
  - the skip and raise rules for a page and the record it builds.

  `crawl_hugo_build` is a method with an explicit stack, as `os.walk`
  keeps one. It is proved equal to a recursive pre-order walk followed by
  a fold over the visited directories.
- **The front-matter split** `content.split('---', 2)[1:]`
  (`markdownparser.dfy`).
- **The Markdown importer's `main` loop** (`importtowordpress.dfy`). The
  file read, the YAML load, the conversion and the HTTP POST are given
  functions that may fail, and the first failure ends the run.

Shared pieces:

- `text.dfy` holds ASCII models of `str.strip`, `str.split`, `str.lower`,
  `str.isdigit`, `os.path.join` and `os.path.basename`.
- `wrappers.dfy` holds `Option` and `Result`.

Modelling conventions:

- A metadata dictionary is a record of optional fields. A missing key
  raises `KeyError`, which becomes an `Err`.
- An unset environment variable is `None`. Inside an f-string it shows as
  the text "None".
- Exceptions that end a loop become the error of the loop's result.

Where the code and its docstring disagree, the model follows the code.
`format_date` promises "Mon, 12 Jun 2023 20:40:00 +0000" in its docstring
(utils/wordpress.py:47). The code prints "2023-06-12 20:40:00"
(utils/wordpress.py:52), and that is what is modelled and proved.

## Model

| member | source | states |
|---|---|---|
| Slug.CreateSlugFromUrl | utils/wordpress.py:10-13 | The slug never contains '/'. |
| Slug.SlugIsTailOfStrippedUrl | utils/wordpress.py:10-13 | The slug is the part of the URL, stripped of leading and trailing '/', after that text's last '/' (or all of it when there is none). |
| Slug.SlugIsLastNonEmptySegment | import_to_wordpress.py:27-30 | The importer's copy of the slug function returns the last non-empty piece of the URL split on '/'. |
| Slug.SlugEmptyIffOnlySlashes | utils/wordpress.py:12-13 | The slug is empty exactly when the URL is empty or made only of '/'. So the `else ""` branch never decides the result. |
| Slug.SlugOfDirectoryUrl | utils/hugo.py:69-70 | For any build directory and non-empty directory name without '/', the slug of build + "/" + name + "/" is the name. |
| Posts.BuildPostData | utils/wordpress.py:15-30 | The payload dictionary `post_data`. Its contract is stated by PayloadKeyErrors, PayloadDefaults and PayloadSlugFromUrl. |
| Posts.PostToWordPress | utils/wordpress.py:15-40 | The library `post_to_wordpress` up to the request it issues. Its contract is stated by PostSentIffConfigured. |
| Posts.PayloadKeyErrors | utils/wordpress.py:18-22 | The payload exists iff `url`, `title` and `date` are present. Otherwise the KeyError names the first missing one, in the order url, title, date. |
| Posts.PayloadDefaults | utils/wordpress.py:20-30 | Status is always "publish" and content is the HTML given. `lang` defaults to "en", `tags` and `categories` to empty lists, and an absent `shortlink` is None. Present values are copied unchanged. |
| Posts.PayloadSlug | import_to_wordpress.py:60-65 | The payload's slug is the last non-empty '/'-piece of `metadata['url']` and has no '/'. A `slug` key in the metadata is ignored. |
| Posts.PayloadSlugFromUrl | utils/wordpress.py:18-23 | With url, title and date present, the payload exists and its slug is the one derived from the URL. |
| Posts.PostSentIffConfigured | utils/wordpress.py:32-40 | A request goes out iff the payload can be built and WORDPRESS_URL is set and non-empty. It carries that payload to WORDPRESS_URL + "/posts". |
| DateFormat.Month | utils/wordpress.py:49 | `%b` reads a month number from 1 to 12, consumes exactly three characters, and those characters, lower-cased, are that month's abbreviation. |
| DateFormat.MonthOf | utils/wordpress.py:49 | Conversely, the abbreviation of month i written in any letter case, followed by anything, is read as month i. |
| DateFormat.Field | utils/wordpress.py:49 | A numeric strptime field consumes a maximal run of digits of an accepted length, and its value is the decimal value of those digits, inside the field's range. |
| DateFormat.FieldOf | utils/wordpress.py:49 | Conversely, any digit string of an accepted length and value, not followed by a digit, is read as its decimal value. |
| DateFormat.ParseClock | utils/wordpress.py:49 | Everything before the zone parses to a month 1-12, a day 1-31, a year up to 9999, an hour 1-12 and a minute 0-59. Which clock a text denotes is stated by ShowClockRoundTrip. |
| DateFormat.ShowClockRoundTrip | utils/wordpress.py:49-51 | Every clock in range, printed as "Mon DD, YYYY HH:MM AM|PM" and followed by a space and any zone text not led by whitespace, parses back to that clock and leaves the zone text. |
| DateFormat.IsZoneName | utils/wordpress.py:49 | The `%Z` names: "UTC" and "GMT" in any letter case. It is used by FormatDateMeaning. |
| DateFormat.OffsetMinutes | utils/wordpress.py:51 | `%z` reads "Z", "+HHMM" or "+HH:MM" (either sign) as minutes east of UTC, and every value it gives is less than a day either way. |
| DateFormat.OffsetRoundTrip | utils/wordpress.py:51 | Every offset of less than a day, printed with or without the colon, reads back as itself. |
| DateFormat.ParseNamedZone | utils/wordpress.py:49 | The `%Z` parse succeeds only on a date the datetime constructor accepts. |
| DateFormat.ParseOffsetZone | utils/wordpress.py:51 | The `%z` parse succeeds only on a date the datetime constructor accepts. |
| DateFormat.Hour24 | utils/wordpress.py:49 | The `%I`/`%p` rule: 12 AM is hour 0, 12 PM stays 12, any other PM hour gains 12. Its contract is stated by Hour24Bijection. |
| DateFormat.ToStamp | utils/wordpress.py:52 | The printed time has an hour below 24 and every field fits its output width. |
| DateFormat.Pad | utils/wordpress.py:52 | A zero-padded number has exactly the requested width. |
| DateFormat.Hour24Bijection | utils/wordpress.py:49-52 | The 12-to-24-hour rule (12 AM to 0, 12 PM to 12, h PM to h+12, h AM to h) maps onto 0-23. It is inverted by the 24-to-12-hour reading. |
| DateFormat.NumberValueOfPad | utils/wordpress.py:52 | Reading back a zero-padded number gives the number. |
| DateFormat.Render | utils/wordpress.py:52 | `strftime("%Y-%m-%d %H:%M:%S")`. Its contract is stated by RenderRoundTrip. |
| DateFormat.RenderRoundTrip | utils/wordpress.py:52 | The output is 19 characters, "YYYY-MM-DD HH:MM:SS". Parsing it back gives the printed date-time. |
| DateFormat.FormatDateMeaning | utils/wordpress.py:48-52 | The date formats iff the text up to the zone parses, the date is valid, and the zone is a zone name or a numeric offset. Otherwise the error propagates. The output reads back as the input's 24-hour wall-clock time with seconds 00. |
| DateFormat.FormatDate | utils/wordpress.py:46-52 | `format_date`. Its contract is stated by FormatDateMeaning, FormatDateOfShown and ZoneNeverApplied. |
| DateFormat.FormatDateOfShown | utils/wordpress.py:48-52 | For every valid date in range and every accepted zone name or offset, the printed date, a space and the zone format to that date-time on the 24-hour dial with seconds 00. |
| DateFormat.ZoneNeverApplied | utils/wordpress.py:49-52 | Two inputs that agree up to their zone give the same output, whatever the zones say. |
| DateFormatExample.ClockOfExample | utils/wordpress.py:49 | "Jun 12, 2023 08:40 PM " followed by any zone text not led by whitespace parses to 12 June 2023, 8:40 PM, and leaves the zone text. |
| DateFormatExample.RenderExample | utils/wordpress.py:52 | That date-time at 20:40 prints as "2023-06-12 20:40:00". |
| DateFormatExample.ExampleWithZone | utils/wordpress.py:48-52 | With any accepted zone name or offset, the example formats to "2023-06-12 20:40:00". |
| DateFormatExample.ExampleUtc | utils/wordpress.py:49 | "Jun 12, 2023 08:40 PM UTC" formats to "2023-06-12 20:40:00". |
| DateFormatExample.ExampleZeroOffset | utils/wordpress.py:51 | The same time with "+0000" gives the same output. |
| DateFormatExample.ExampleIndianOffset | utils/wordpress.py:51-52 | The same time with "+0530" also gives "2023-06-12 20:40:00": the offset is not applied. |
| DateFormatExample.NotTheDocstringFormat | utils/wordpress.py:47 | The output is not the "Mon, 12 Jun 2023 20:40:00 +0000" form the docstring promises. |
| Wxr.ExportToWxr | utils/wordpress.py:54-109 | The loop that appends to the buffer produces exactly the specified document: the header, one item per post in batch order, and the footer. Otherwise it gives the error of the first post whose lookups fail. |
| Wxr.Document | utils/wordpress.py:54-109 | The document `export_to_wxr` writes, as a specification. Its contract is stated by DocumentFrame, EmptyBatch and DocumentOkIffEveryItemOk. |
| Wxr.ItemOf | utils/wordpress.py:63-69 | The lookups of one iteration. Its contract is stated by ItemErrors and ItemContents. |
| Wxr.RenderItem | utils/wordpress.py:67-105 | One `<item>` block. Its contract is stated by ItemContents and AppendItem. |
| Wxr.AppendItem | utils/wordpress.py:67-105 | One iteration's appends (item template, category lines, tag lines, postmeta block) add exactly the rendered item to the buffer. |
| Wxr.AppendItems | utils/wordpress.py:63-105 | The loop over the posts appends to the buffer exactly the items of the batch, in batch order. If a post's lookups fail, the loop gives that post's error, and that is the batch's first error. |
| Wxr.AppendTerms | utils/wordpress.py:92-98 | Each inner loop appends exactly the term lines of its list, one line per term, in list order. |
| Wxr.ItemTextFails | utils/wordpress.py:64-69 | An item fails exactly when its lookups fail, and with their error. |
| Wxr.Nicename | utils/wordpress.py:94 | A nicename has the term's length. Each character is '-' where the term has a space, otherwise the term's character lower-cased. |
| Wxr.NicenameIsNormal | utils/wordpress.py:98 | A nicename has no space and no upper-case letter, and taking its nicename again changes nothing. |
| Wxr.NicenameExamples | utils/wordpress.py:94 | "Web Dev" gives "web-dev" and "C++ Tips" gives "c++-tips". |
| Wxr.EmptyBatch | utils/wordpress.py:58-61 | With no posts the document is exactly the header followed by the footer. |
| Wxr.DocumentFrame | utils/wordpress.py:58-109 | A successful document starts with the header and ends with the footer, and between them holds exactly the items. |
| Wxr.ItemsInBatchOrder | utils/wordpress.py:63 | The items of two batches in sequence are the first batch's items followed by the second's. |
| Wxr.OneItemPerPost | utils/wordpress.py:67-105 | A post whose lookups succeed contributes exactly its rendered item. |
| Wxr.ErrorStopsTheBatch | utils/wordpress.py:63-66 | Once a prefix of the batch fails, the whole export fails with that error. |
| Wxr.ItemsOkIffEveryItemOk | utils/wordpress.py:63-66 | The items exist iff every item does. Otherwise the error is that of the first failing item. |
| Wxr.DocumentOkIffEveryItemOk | utils/wordpress.py:63-69 | The export succeeds iff every post has url, a formattable date and a title. Otherwise it fails with the first failing post's error. |
| Wxr.ItemContents | utils/wordpress.py:64-81 | The item's title is the metadata's. `link` and `guid` both equal DOMAIN/slug/, and the post name is the slug. The five date fields all hold `format_date(date)`. The HTML goes into its CDATA section unchanged. The term lists are the metadata's (empty when absent). |
| Wxr.ItemErrors | utils/wordpress.py:64-69 | An item fails in lookup order: missing url, then missing date, then an unparsable date, then missing title. With all of them present it succeeds. |
| Wxr.TermLinesInOrder | utils/wordpress.py:92-98 | Term lines follow the list order: the lines of a + b are those of a followed by those of b. |
| Hugo.PruneTopLevel | utils/hugo.py:31 | The pruned list never grows. |
| Hugo.PruneKeepsExactlyKept | utils/hugo.py:31 | A first-level directory survives iff its name is four ASCII digits or exactly "fa". |
| Hugo.PruneKeepsOrder | utils/hugo.py:31 | Pruning keeps relative order: pruning a + b gives the pruned a followed by the pruned b. |
| Hugo.PruneExample | utils/hugo.py:31 | Among 2023, tags, fa, 202, 20234 and 1999, only 2023, fa and 1999 are kept, in that order. |
| Hugo.Walk | utils/hugo.py:28-31 | The pre-order `os.walk` with the first level pruned. Its contract is stated by OnlyTheFirstLevelIsPruned and DeeperLevelsNotPruned. |
| Hugo.OnlyTheFirstLevelIsPruned | utils/hugo.py:28-31 | The walk of a well-named build is the build directory, then the full unpruned walk of each kept first-level directory, in listing order. |
| Hugo.DeeperLevelsNotPruned | utils/hugo.py:30 | From any path longer than the build directory, the walk equals the full unpruned walk. |
| Hugo.ExtractTags | utils/hugo.py:6-13 | The tag loop returns the tags the tag-list specification gives. |
| Hugo.TagsOf | utils/hugo.py:6-13 | The tag list as a specification. Its contract is stated by TagsAreStrippedLinks. |
| Hugo.TagsAreStrippedLinks | utils/hugo.py:6-13 | There is one tag per link, in document order, each the link text stripped, so stripping it again changes nothing. With no tag list there are no tags. |
| Hugo.ExtractCategories | utils/hugo.py:15-23 | The method returns the categories the breadcrumb specification gives. |
| Hugo.CategoriesOf | utils/hugo.py:15-23 | The category list as a specification. Its contract is stated by AtMostOneCategory. |
| Hugo.AtMostOneCategory | utils/hugo.py:15-23 | There is at most one category: the third breadcrumb link's stripped text, present iff there are more than two links. |
| Hugo.VisitPage | utils/hugo.py:34-76 | The loop body for one index.html adds the page's post, records its skip, or raises (an unreadable file, or no post-meta container), exactly as the crawl specification's step does. |
| Hugo.PageOutcome | utils/hugo.py:34-76 | What one index.html gives. Its contract is stated by SkipRules, RecordFields and SlugIsDirectoryName. |
| Hugo.Step | utils/hugo.py:32-76 | The crawl after one more directory. VisitPage is proved to compute it; CrashIsFinal states that a raised exception stays. |
| Hugo.Crawled | utils/hugo.py:28-77 | The crawl over the visited directories. Its contract is stated by BatchIsTheRecordsInOrder and CrashIffUnreadableOrNoPostMeta. |
| Hugo.SkipRules | utils/hugo.py:34-56 | A page yields a post iff the file can be read and title, post-meta container, date and content are all present. An unreadable file, or a missing container after a title, raises instead of skipping, naming the page's index.html. Each skip names the first missing piece, in the order title, date, content. |
| Hugo.RecordFields | utils/hugo.py:59-76 | The record has `lang` "en" and `url` = build + "/" + basename + "/". Its slug is derived from that URL, its title is stripped, and its date is the span's title attribute. It carries the extracted tags and categories and the content as is. |
| Hugo.SlugIsDirectoryName | utils/hugo.py:59-70 | For a directory with a non-empty name, the record's slug and its payload's slug are that name, and the payload can always be built. |
| Hugo.CrawlHugoBuild | utils/hugo.py:25-78 | The stack-driven walk with in-place pruning gives exactly what the recursive pre-order walk, folded over the visited directories, gives. That is the batch handed to `export_now` once, or the exception that stops the crawl first. |
| Hugo.PushSubdirs | utils/hugo.py:28-31 | Pushing a directory's (pruned) subdirectories last first leaves the stack so that they are popped, and their trees walked, in listing order before anything already waiting. |
| Hugo.BatchIsTheRecordsInOrder | utils/hugo.py:28-76 | Unless the crawl raised, the batch is every directory's post in traversal order, at most one per directory. |
| Hugo.CrashIffUnreadableOrNoPostMeta | utils/hugo.py:34-45 | The crawl raises iff some visited page cannot be read, or has a title but no post-meta container. The error names such a page's index.html. |
| Hugo.NoBuildDirectoryNoPosts | utils/hugo.py:28 | A build directory that cannot be listed hands over an empty batch. |
| MarkdownParser.FindMarker | utils/markdown_parser.py:14 | The scan returns the first "---" at or after its start. It finds none only when there is none. |
| MarkdownParser.SplitFrontMatter | utils/markdown_parser.py:14 | `content.split('---', 2)[1:]` unpacked into two names. Its contract is stated by SplitIsBetweenFirstTwoMarkers, SplitOfDecomposition and NotEnoughMarkers. |
| MarkdownParser.ParseMarkdownFile | utils/markdown_parser.py:14-16 | The split and the stripped body. Its contract is stated by ParsedBodyIsStripped. |
| MarkdownParser.SplitIsBetweenFirstTwoMarkers | utils/markdown_parser.py:14 | A successful split returns two things: the text between the first "---" and the next non-overlapping "---", and everything after that second marker. |
| MarkdownParser.SplitOfDecomposition | import_to_wordpress.py:23 | Say a text is prefix + "---" + front matter + "---" + body, where neither prefix nor front matter lets a marker start before the following "---". Then it splits into exactly that front matter and body: the prefix is dropped and later markers stay in the body. |
| MarkdownParser.NotEnoughMarkers | utils/markdown_parser.py:14 | The unpacking fails iff the text holds fewer than two non-overlapping "---". It gets zero values iff there is no marker at all. |
| MarkdownParser.ParsedBodyIsStripped | utils/markdown_parser.py:14-16 | The parse fails iff the split does. The front matter is passed on as split off. The body is the stripped remainder, and stripping it again changes nothing. |
| MarkdownParser.TypicalFile | utils/markdown_parser.py:14 | "---\nt: a\n---\nx---y" splits into "\nt: a\n" and "\nx---y". |
| MarkdownParser.MarkerAnywhere | import_to_wordpress.py:23 | "intro---a---b" splits into "a" and "b": the marker need not start a line. |
| MarkdownParser.OverlappingMarkersCountOnce | utils/markdown_parser.py:14 | Five dashes hold only one marker, so the unpacking gets one value. |
| ImportToWordPress.RunImport | import_to_wordpress.py:84-97 | With no directory nothing is processed. Otherwise the loop gives exactly the fold over the listing: its `.md` entries in order, until the first one fails. |
| ImportToWordPress.ImportFile | import_to_wordpress.py:92-97 | One file is read and split, its front matter loaded, the file converted and the post sent, each step raising before the next, exactly as ProcessFile specifies. |
| ImportToWordPress.ProcessFile | import_to_wordpress.py:92-97 | One file, as a specification. Its contract is stated by ProcessFileSteps. |
| ImportToWordPress.RunWith | import_to_wordpress.py:90-97 | The loop, as a fold over the listing. Its contract is stated by StopIsFinal, OnlyMarkdownEntries and OneRequestPerMarkdownFile. |
| ImportToWordPress.PostRequest | import_to_wordpress.py:57-78 | The request the importer's `post_to_wordpress` issues. Its contract is stated by UnsetUrlTargetsNone and ProcessFileSteps. |
| ImportToWordPress.StopIsFinal | import_to_wordpress.py:90-97 | Once a file fails, later entries change nothing. |
| ImportToWordPress.MarkdownNames | import_to_wordpress.py:91 | Exactly the entries whose names end in ".md" are selected. |
| ImportToWordPress.OnlyMarkdownEntries | import_to_wordpress.py:90-91 | Running over the listing is running over its `.md` entries alone. |
| ImportToWordPress.OneRequestPerMarkdownFile | import_to_wordpress.py:90-97 | The run completes iff every `.md` entry processes. It then has posted one request per `.md` entry, in listing order. |
| ImportToWordPress.ProcessFileSteps | import_to_wordpress.py:19-78 | The first failure in the order read, split, YAML load, conversion, mapping check, key lookups, POST is the error reported, each only once every step before it went through; when all go through the result is the request. A posted request carries the payload built from the loaded front matter and the HTML of the whole file, to WORDPRESS_URL + "/posts". |
| ImportToWordPress.UnsetUrlTargetsNone | import_to_wordpress.py:74-75 | Unlike the library version, the importer builds a request even with WORDPRESS_URL unset, to "None/posts". |
| ImportToWordPress.UnsetUrlPostsNothing | import_to_wordpress.py:74-97 | When the POST refuses "None/posts", as `requests` does for a URL without a scheme, a run with WORDPRESS_URL unset completes iff the listing has no `.md` entry, and posts nothing. |

## Left out

- HTTP: in the importer, `requests.post` is a given function that answers
  or raises; which URLs it refuses is left to that function.
  Authentication and the status-code check are not modelled.
- Posts.PostToWordPress: stops at the request the library version issues.
  A `requests.post` exception (a bad URL, a connection error) is not
  modelled there; that function has no caller in the modelled core.
- Printed messages: only the Hugo skip messages are kept, as the crawl's
  skip log.
- External libraries are not modelled:
  - YAML loading, the Markdown conversion and the `hugo` and `jekyll`
    converters are given functions of the importer.
  - BeautifulSoup is replaced by a page record: whether the file can be
    read, optional title, post-meta container with optional date,
    optional content, and optional tag-link and breadcrumb-link texts.
- File system and environment:
  - `os.walk`, `os.listdir`, `os.path.isdir` and file reads are replaced
    by a directory tree, a listing, an existence flag, a read function
    that may fail (importer) and a readable flag on each page (crawl).
  - Unreadable subdirectories and symbolic links are not modelled.
  - DOMAIN, USERNAME and WORDPRESS_URL are parameters.
  - An unset MARKDOWN_DIRECTORY is not modelled.
- Output: the file write of the WXR document and `os.makedirs` are not
  modelled. The `export_now` dispatch (utils/export_utils.py) is not part
  of this model: the crawl returns the batch it hands over.
- Unicode: `str.strip`, `str.lower`, `str.isdigit` and `\s` are modelled on
  ASCII only. Unicode digits and non-ASCII case mappings are not.
- DateFormat.IsZoneName: accepts only "UTC" and "GMT", in any case. The
  local time-zone names strptime also accepts depend on the host.
- DateFormat.OffsetMinutes: accepts "Z", "+HHMM" and "+HH:MM", either sign.
  The offsets with seconds or microseconds that CPython also accepts are
  not modelled.
- DateFormat.Render: always pads the year to four digits. CPython's
  `strftime("%Y")` does not pad years below 1000 on some platforms.
- Posts.Metadata: values are kept as text and lists of text. YAML values of
  other types (numbers, dates) and keys present with a null value are not
  modelled.
- Hugo.CrawlHugoBuild: the exception is recorded with the file it came
  from. The exact exception message is not modelled.
