/** The Markdown importer: every `.md` entry of the source directory, in
    listing order, is split into front matter and body, its front matter
    loaded, the file converted to HTML, and a post request built and sent.
    The first failure ends the run. */
module ImportToWordPress {
  import opened Wrappers
  import opened Text
  import Posts
  import MarkdownParser

  /** `yaml.safe_load` either raises or returns a value, which is a mapping
      or something else (a scalar, a list, or None for an empty block). */
  datatype Loaded = Mapping(metadata: Posts.Metadata) | NotAMapping
  datatype YamlError = InvalidYaml

  /** The conversion failed (a non-zero exit of the external converter). */
  datatype ConvertError = ConversionFailed(stderr: string)

  /** `open(path, encoding="utf-8").read()` raises: the path is missing or
      is a directory (an entry named like `x.md`), or the bytes are not
      UTF-8. */
  datatype ReadError = CannotOpen | NotUtf8

  /** `requests.post` raises before any response: the endpoint has no
      scheme (as "None/posts") or is otherwise invalid, or the connection
      fails. */
  datatype PostError = InvalidUrl | ConnectionFailed

  /** The foreign pieces the importer calls, as given functions: the file
      read, the YAML loader, the Markdown-to-HTML conversion of a file, and
      the HTTP POST, which answers with a status code (only printed) or
      raises. */
  datatype Tools = Tools(
    read: string -> Result<string, ReadError>,
    load: string -> Result<Loaded, YamlError>,
    convert: string -> Result<string, ConvertError>,
    post: Posts.Request -> Result<nat, PostError>)

  /** The exception that ends a run, in the order the code can raise them. */
  datatype ImportError =
    | Reading(readError: ReadError)
    | Unpacking(unpackError: MarkdownParser.UnpackError)
    | Yaml(yamlError: YamlError)
    | Conversion(convertError: ConvertError)
    | NotSubscriptable
    | Missing(keyError: Posts.KeyError)
    | Posting(postError: PostError)

  /** The run so far: the requests posted (whatever status they got), and
      the error that stopped it. */
  datatype RunState = Running(requests: seq<Posts.Request>) | Stopped(sent: seq<Posts.Request>, error: ImportError)
  {
    /** The requests posted so far, whether or not the run went on. */
    function Posted(): seq<Posts.Request> {
      if Running? then requests else sent
    }
  }

  datatype Outcome = NoDirectory | Ran(state: RunState)

  /** The request `post_to_wordpress` of the importer issues: the payload,
      to `WORDPRESS_URL + "/posts"` whether or not that variable is set. */
  function PostRequest(m: Posts.Metadata, html: string, wordpressUrl: Option<string>): Result<Posts.Request, Posts.KeyError> {
    var payload :- Posts.BuildPostData(m, html);
    Ok(Posts.Request(Posts.Shown(wordpressUrl) + "/posts", payload))
  }

  /** One Markdown file: read and parse, then convert, then post. */
  function ProcessFile(directory: string, name: string, tools: Tools, wordpressUrl: Option<string>)
    : Result<Posts.Request, ImportError>
  {
    var path := PathJoin(directory, name);
    match tools.read(path)
    case Err(e) => Err(Reading(e))
    case Ok(text) =>
    match MarkdownParser.ParseMarkdownFile(text)
    case Err(e) => Err(Unpacking(e))
    case Ok(parsed) =>
      match tools.load(parsed.0)
      case Err(e) => Err(Yaml(e))
      case Ok(loaded) =>
        match tools.convert(path)
        case Err(e) => Err(Conversion(e))
        case Ok(html) =>
          match loaded
          case NotAMapping => Err(NotSubscriptable)
          case Mapping(m) =>
            match PostRequest(m, html, wordpressUrl)
            case Err(e) => Err(Missing(e))
            case Ok(request) =>
              match tools.post(request)
              case Err(e) => Err(Posting(e))
              case Ok(_) => Ok(request)
  }

  /** The loop over the listing, as a fold over its prefix, with each
      `.md` entry handled by `process`. */
  function RunWith(names: seq<string>, process: string -> Result<Posts.Request, ImportError>): RunState {
    if names == [] then Running([])
    else
      var before := RunWith(names[..|names| - 1], process);
      var name := names[|names| - 1];
      if before.Stopped? || !EndsWith(name, ".md") then before
      else match process(name)
        case Ok(request) => Running(before.requests + [request])
        case Err(e) => Stopped(before.requests, e)
  }

  /** The importer's loop over a listing of `directory`. */
  function RunOver(directory: string, names: seq<string>, tools: Tools, wordpressUrl: Option<string>): RunState {
    RunWith(names, Processor(directory, tools, wordpressUrl))
  }

  function Processor(directory: string, tools: Tools, wordpressUrl: Option<string>): string -> Result<Posts.Request, ImportError> {
    name => ProcessFile(directory, name, tools, wordpressUrl)
  }

  /** `main`: nothing happens when the directory does not exist; otherwise
      the listing's `.md` entries are processed in order until one fails. */
  method RunImport(dirExists: bool, directory: string, listing: seq<string>, tools: Tools, wordpressUrl: Option<string>)
    returns (outcome: Outcome)
    ensures !dirExists ==> outcome == NoDirectory
    ensures dirExists ==> outcome == Ran(RunOver(directory, listing, tools, wordpressUrl))
  {
    if !dirExists {
      return NoDirectory;
    }
    ghost var process := Processor(directory, tools, wordpressUrl);
    var requests: seq<Posts.Request> := [];
    var i := 0;
    while i < |listing|
      invariant 0 <= i <= |listing|
      invariant RunWith(listing[..i], process) == Running(requests)
    {
      var fileName := listing[i];
      RunWithSnoc(listing, i, process);
      if EndsWith(fileName, ".md") {
        var result := ImportFile(directory, fileName, tools, wordpressUrl);
        assert result == process(fileName);
        if result.Err? {
          StopIsFinal(listing[..i + 1], listing, process);
          assert listing[..|listing|] == listing;
          return Ran(Stopped(requests, result.error));
        }
        requests := requests + [result.value];
      }
      i := i + 1;
    }
    assert listing[..i] == listing;
    return Ran(Running(requests));
  }

  /** One more entry of the listing, while the run is still going. */
  lemma RunWithSnoc(names: seq<string>, i: int, process: string -> Result<Posts.Request, ImportError>)
    requires 0 <= i < |names|
    ensures var before := RunWith(names[..i], process);
      RunWith(names[..i + 1], process) ==
        if before.Stopped? || !EndsWith(names[i], ".md") then before
        else match process(names[i])
          case Ok(request) => Running(before.requests + [request])
          case Err(e) => Stopped(before.requests, e)
  {
    assert names[..i + 1][..i] == names[..i];
  }

  /** The loop body for one `.md` entry: parse, load the front matter,
      convert, then post; the first exception ends it. */
  method ImportFile(directory: string, fileName: string, tools: Tools, wordpressUrl: Option<string>)
    returns (result: Result<Posts.Request, ImportError>)
    ensures result == ProcessFile(directory, fileName, tools, wordpressUrl)
  {
    var filePath := PathJoin(directory, fileName);
    var content := tools.read(filePath);
    if content.Err? {
      return Err(Reading(content.error));
    }
    var parsed := MarkdownParser.ParseMarkdownFile(content.value);
    if parsed.Err? {
      result := Err(Unpacking(parsed.error));
    } else {
      var metadata := tools.load(parsed.value.0);
      if metadata.Err? {
        result := Err(Yaml(metadata.error));
      } else {
        var htmlContent := tools.convert(filePath);
        if htmlContent.Err? {
          result := Err(Conversion(htmlContent.error));
        } else if metadata.value.NotAMapping? {
          result := Err(NotSubscriptable);
        } else {
          var request := PostRequest(metadata.value.metadata, htmlContent.value, wordpressUrl);
          if request.Err? {
            result := Err(Missing(request.error));
          } else {
            var response := tools.post(request.value);
            if response.Err? {
              result := Err(Posting(response.error));
            } else {
              result := Ok(request.value);
            }
          }
        }
      }
    }
  }

  // -----------------------------------------------------------------------
  // Lemmas

  /** Once a file has failed, later entries change nothing. */
  lemma {:induction false} StopIsFinal(prefix: seq<string>, names: seq<string>, process: string -> Result<Posts.Request, ImportError>)
    requires |prefix| <= |names| && names[..|prefix|] == prefix
    requires RunWith(prefix, process).Stopped?
    ensures RunWith(names, process) == RunWith(prefix, process)
  {
    if |names| > |prefix| {
      var init := names[..|names| - 1];
      assert init[..|prefix|] == prefix;
      StopIsFinal(prefix, init, process);
    } else {
      assert names == prefix;
    }
  }

  /** The `.md` entries of a listing, in listing order. */
  function MarkdownNames(names: seq<string>): (md: seq<string>)
    ensures forall n :: n in md <==> n in names && EndsWith(n, ".md")
  {
    if names == [] then []
    else MarkdownNames(names[..|names| - 1]) + (if EndsWith(names[|names| - 1], ".md") then [names[|names| - 1]] else [])
  }

  /** Entries whose names do not end in ".md" are passed over: the run over
      the listing is the run over its `.md` entries alone. */
  lemma {:induction false} OnlyMarkdownEntries(names: seq<string>, process: string -> Result<Posts.Request, ImportError>)
    ensures RunWith(names, process) == RunWith(MarkdownNames(names), process)
  {
    if names != [] {
      var init := names[..|names| - 1];
      var last := names[|names| - 1];
      OnlyMarkdownEntries(init, process);
      var md := MarkdownNames(names);
      if EndsWith(last, ".md") {
        assert md == MarkdownNames(init) + [last];
        assert md[..|md| - 1] == MarkdownNames(init);
      } else {
        assert md == MarkdownNames(init);
      }
    }
  }

  /** Reference definition: one request per `.md` entry, in listing order. */
  function RequestsOf(names: seq<string>, process: string -> Result<Posts.Request, ImportError>): seq<Posts.Request>
    requires forall n :: n in names && EndsWith(n, ".md") ==> process(n).Ok?
  {
    if names == [] then []
    else
      RequestsOf(names[..|names| - 1], process)
      + (if EndsWith(names[|names| - 1], ".md") then [process(names[|names| - 1]).value] else [])
  }

  /** The run completes exactly when every `.md` entry can be processed,
      and then it has sent one request per `.md` entry, in listing order. */
  lemma {:induction false} OneRequestPerMarkdownFile(names: seq<string>, process: string -> Result<Posts.Request, ImportError>)
    ensures RunWith(names, process).Running? <==> forall n :: n in names && EndsWith(n, ".md") ==> process(n).Ok?
    ensures RunWith(names, process).Running? ==>
      RunWith(names, process).requests == RequestsOf(names, process)
      && |RunWith(names, process).requests| == |MarkdownNames(names)|
  {
    if names != [] {
      var init := names[..|names| - 1];
      var last := names[|names| - 1];
      OneRequestPerMarkdownFile(init, process);
      assert forall n :: n in names <==> n in init || n == last;
    }
  }

  /** What a processed file posts: the payload built from the loaded
      front matter and the HTML of the whole file (the stripped body the
      split returns is not used), to `WORDPRESS_URL + "/posts"`, and only
      once the POST has gone through; the first failure in the order read,
      split, YAML load, conversion, mapping check, key lookups, POST is the
      one reported. */
  lemma ProcessFileSteps(directory: string, name: string, tools: Tools, wordpressUrl: Option<string>)
    ensures var path := PathJoin(directory, name); var r := ProcessFile(directory, name, tools, wordpressUrl);
      && (tools.read(path).Err? ==> r == Err(Reading(tools.read(path).error)))
      && (tools.read(path).Ok? && MarkdownParser.SplitFrontMatter(tools.read(path).value).Err? ==>
            r == Err(Unpacking(MarkdownParser.SplitFrontMatter(tools.read(path).value).error)))
      && (r.Ok? ==>
            && tools.read(path).Ok?
            && var frontMatter := MarkdownParser.SplitFrontMatter(tools.read(path).value).value.0;
            && tools.load(frontMatter).Ok? && tools.load(frontMatter).value.Mapping?
            && tools.convert(path).Ok?
            && r.value.endpoint == Posts.Shown(wordpressUrl) + "/posts"
            && r.value.payload == Posts.BuildPostData(tools.load(frontMatter).value.metadata, tools.convert(path).value).value
            && r.value.payload.content == tools.convert(path).value
            && tools.post(r.value).Ok?)
      && (tools.read(path).Ok? && MarkdownParser.SplitFrontMatter(tools.read(path).value).Ok? ==>
            AfterSplit(directory, name, tools, wordpressUrl, MarkdownParser.SplitFrontMatter(tools.read(path).value).value.0))
  {
    var path := PathJoin(directory, name);
    if tools.read(path).Ok? {
      var text := tools.read(path).value;
      MarkdownParser.ParsedBodyIsStripped(text);
      if ProcessFile(directory, name, tools, wordpressUrl).Ok? {
        ProcessedFile(directory, name, tools, wordpressUrl, text);
      }
      if MarkdownParser.SplitFrontMatter(text).Ok? {
        StepsAfterSplit(directory, name, tools, wordpressUrl, text);
      }
    }
  }

  /** Once the file is read and split with front matter `frontMatter`: a
      failed YAML load, then a failed conversion, then a document that is
      not a mapping, then a missing key, then a refused POST is the error
      reported, each only when all steps before it went through; when all
      of them go through, the result is the request. */
  predicate AfterSplit(directory: string, name: string, tools: Tools, wordpressUrl: Option<string>, frontMatter: string) {
    var path := PathJoin(directory, name);
    var r := ProcessFile(directory, name, tools, wordpressUrl);
    var loaded := tools.load(frontMatter);
    var html := tools.convert(path);
    && (loaded.Err? ==> r == Err(Yaml(loaded.error)))
    && (loaded.Ok? && html.Err? ==> r == Err(Conversion(html.error)))
    && (loaded.Ok? && html.Ok? && loaded.value.NotAMapping? ==> r == Err(NotSubscriptable))
    && (loaded.Ok? && html.Ok? && loaded.value.Mapping? ==>
          var request := PostRequest(loaded.value.metadata, html.value, wordpressUrl);
          && (request.Err? ==> r == Err(Missing(request.error)))
          && (request.Ok? && tools.post(request.value).Err? ==> r == Err(Posting(tools.post(request.value).error)))
          && (request.Ok? && tools.post(request.value).Ok? ==> r == Ok(request.value)))
  }

  lemma StepsAfterSplit(directory: string, name: string, tools: Tools, wordpressUrl: Option<string>, text: string)
    requires tools.read(PathJoin(directory, name)) == Ok(text)
    requires MarkdownParser.SplitFrontMatter(text).Ok?
    ensures AfterSplit(directory, name, tools, wordpressUrl, MarkdownParser.SplitFrontMatter(text).value.0)
  {
    MarkdownParser.ParsedBodyIsStripped(text);
  }

  lemma ProcessedFile(directory: string, name: string, tools: Tools, wordpressUrl: Option<string>, text: string)
    requires tools.read(PathJoin(directory, name)) == Ok(text)
    requires ProcessFile(directory, name, tools, wordpressUrl).Ok?
    ensures var path := PathJoin(directory, name); var r := ProcessFile(directory, name, tools, wordpressUrl);
      && MarkdownParser.SplitFrontMatter(text).Ok?
      && var frontMatter := MarkdownParser.SplitFrontMatter(text).value.0;
      && tools.load(frontMatter).Ok? && tools.load(frontMatter).value.Mapping?
      && tools.convert(path).Ok?
      && r.value.endpoint == Posts.Shown(wordpressUrl) + "/posts"
      && r.value.payload == Posts.BuildPostData(tools.load(frontMatter).value.metadata, tools.convert(path).value).value
      && r.value.payload.content == tools.convert(path).value
      && tools.post(r.value).Ok?
  {
    MarkdownParser.ParsedBodyIsStripped(text);
  }

  /** With `WORDPRESS_URL` unset the importer still builds the request, to
      the endpoint "None/posts"; the library version sends nothing. */
  lemma UnsetUrlTargetsNone(m: Posts.Metadata, html: string)
    requires Posts.BuildPostData(m, html).Ok?
    ensures PostRequest(m, html, None) == Ok(Posts.Request("None/posts", Posts.BuildPostData(m, html).value))
    ensures Posts.PostToWordPress(m, html, None) == Ok(Posts.NotConfigured)
  {
    var payload := Posts.BuildPostData(m, html).value;
    assert PostRequest(m, html, None) == Ok(Posts.Request(Posts.Shown(None) + "/posts", payload));
    UnsetEndpoint();
  }

  lemma UnsetEndpoint()
    ensures Posts.Shown(None) + "/posts" == "None/posts"
  {
  }

  /** `requests` refuses "None/posts" (it has no scheme), so with
      `WORDPRESS_URL` unset no file gets through: the run completes only on
      a listing without `.md` entries, and nothing is ever posted. */
  lemma UnsetUrlPostsNothing(directory: string, names: seq<string>, tools: Tools)
    requires forall r: Posts.Request :: r.endpoint == "None/posts" ==> tools.post(r).Err?
    ensures RunOver(directory, names, tools, None).Running? <==> MarkdownNames(names) == []
    ensures RunOver(directory, names, tools, None).Posted() == []
  {
    var process := Processor(directory, tools, None);
    forall n | EndsWith(n, ".md")
      ensures process(n).Err?
    {
      ProcessFileSteps(directory, n, tools, None);
      UnsetEndpoint();
    }
    OneRequestPerMarkdownFile(names, process);
    if MarkdownNames(names) != [] {
      assert MarkdownNames(names)[0] in names;
    }
    NothingPostedWhenEveryFileFails(names, process);
  }

  /** When every `.md` file fails, the run posts nothing. */
  lemma {:induction false} NothingPostedWhenEveryFileFails(names: seq<string>, process: string -> Result<Posts.Request, ImportError>)
    requires forall n :: EndsWith(n, ".md") ==> process(n).Err?
    ensures RunWith(names, process).Posted() == []
  {
    if names != [] {
      NothingPostedWhenEveryFileFails(names[..|names| - 1], process);
    }
  }
}
