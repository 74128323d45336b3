/**
 * The decisions `main.go` makes around the I/O: which tasks `main` creates
 * from its flags (main.go:109-123), and, for one task, which file
 * `downloadFile` creates and which error it reports (main.go:141-174).
 * Every I/O step is replaced by its outcome, passed in as a parameter.
 */
module Downloader {
  import opened Wrappers
  import opened Strings
  import opened FilePath
  import MimeChunks
  import opened MimeTable

  // ---------------------------------------------------------------------
  // Output file name (main.go:154, 161-163)
  // ---------------------------------------------------------------------

  /**
   * main.go:161-163: keep `name` when it already ends with `kind`, otherwise
   * append `"." + kind`. The suffix test has no leading dot.
   */
  function WithExtension(name: string, kind: string): (filename: string)
    ensures HasSuffix(filename, kind)
    ensures filename == name <==> HasSuffix(name, kind)
    ensures filename != name ==>
              && |filename| == |name| + 1 + |kind|
              && filename[..|name|] == name
              && filename[|name|] == '.'
  {
    if HasSuffix(name, kind) then name else name + "." + kind
  }

  /** The name `downloadFile` gives the file for `url` once the response type resolved to `kind`. */
  function OutputFilename(url: string, kind: string): string {
    WithExtension(Base(url), kind)
  }

  /** The file name always ends with the resolved extension and keeps the base name as its prefix. */
  lemma OutputFilenameShape(url: string, kind: string)
    ensures HasSuffix(OutputFilename(url, kind), kind)
    ensures HasSuffix(Base(url), kind) ==> OutputFilename(url, kind) == Base(url)
    ensures !HasSuffix(Base(url), kind) ==> OutputFilename(url, kind) == Base(url) + "." + kind
  {
  }

  /** Adding an extension without `/` to a name without `/` gives a name without `/`. */
  lemma NoSlashWithExtension(name: string, kind: string)
    requires NoSlash(name) && NoSlash(kind)
    ensures NoSlash(WithExtension(name, kind))
  {
  }

  /** Adding the extension a second time changes nothing. */
  lemma WithExtensionIdempotent(name: string, kind: string)
    ensures WithExtension(WithExtension(name, kind), kind) == WithExtension(name, kind)
  {
  }

  /**
   * The whole derivation is idempotent once its output is fed back as a URL,
   * for the empty URL and for every URL with a character other than `/`.
   */
  lemma {:induction false} OutputFilenameIdempotent(url: string, kind: string)
    requires NoSlash(kind)
    requires url == [] || !AllSlashes(url)
    ensures OutputFilename(OutputFilename(url, kind), kind) == OutputFilename(url, kind)
  {
    var name := Base(url);
    BaseCases(url);
    assert name != [] && NoSlash(name);
    var filename := WithExtension(name, kind);
    NoSlashWithExtension(name, kind);
    BaseOfName(filename);
  }

  /** A name that already ends with the extension is kept. */
  lemma KeepsName()
    ensures OutputFilename("https://example.com/img/logo.png", "png") == "logo.png"
  {
    assert Base("https://example.com/img/logo.png") == "logo.png" by {
      assert "https://example.com/img/logo.png" == "https://example.com/img" + "/" + "logo.png";
      BaseAfterSlash("https://example.com/img", "logo.png");
    }
    assert HasSuffix("logo.png", "png") by {
      assert "logo.png"[5..] == "png";
    }
  }

  /** The suffix test has no leading dot: a name ending in the bare extension is kept as it is. */
  lemma KeepsNameEndingInBareExtension()
    ensures OutputFilename("https://example.com/img/mypng", "png") == "mypng"
  {
    assert Base("https://example.com/img/mypng") == "mypng" by {
      assert "https://example.com/img/mypng" == "https://example.com/img" + "/" + "mypng";
      BaseAfterSlash("https://example.com/img", "mypng");
    }
    assert HasSuffix("mypng", "png") by {
      assert "mypng"[2..] == "png";
    }
  }

  /** Otherwise the extension is appended verbatim, query string and all. */
  lemma AppendsExtension()
    ensures OutputFilename("https://example.com/asset?id=1", "png") == "asset?id=1.png"
  {
    assert Base("https://example.com/asset?id=1") == "asset?id=1" by {
      assert "https://example.com/asset?id=1" == "https://example.com" + "/" + "asset?id=1";
      BaseAfterSlash("https://example.com", "asset?id=1");
    }
    assert WithExtension("asset?id=1", "png") == "asset?id=1.png" by {
      assert "asset?id=1"[7..][2] != "png"[2];
      assert "asset?id=1" + "." + "png" == "asset?id=1.png";
    }
  }

  /** The derivation maps the empty URL, whose base name is `"."`, to `"..png"`. */
  lemma EmptyUrl()
    ensures OutputFilename("", "png") == "..png"
  {
  }

  /** The derivation maps a URL made only of slashes, whose base name is `"/"`, to `"/.png"`. */
  lemma SlashesUrl()
    ensures OutputFilename("//", "png") == "/.png"
  {
    assert Base("//") == "/" by {
      assert AllSlashes("//");
      BaseCases("//");
    }
    assert WithExtension("/", "png") == "/.png" by {
      assert !HasSuffix("/", "png");
      assert "/" + "." + "png" == "/.png";
    }
  }

  /**
   * Feeding `"/.png"` back in gives `".png"`: for a URL made only of slashes
   * a second derivation changes the name.
   */
  lemma SlashesUrlNotIdempotent()
    ensures OutputFilename("/.png", "png") == ".png"
  {
    assert Base("/.png") == ".png" by {
      assert "/.png" == "" + "/" + ".png";
      BaseAfterSlash("", ".png");
    }
    assert HasSuffix(".png", "png") by {
      assert ".png"[1..] == "png";
    }
  }

  // ---------------------------------------------------------------------
  // One download (main.go:141-174)
  // ---------------------------------------------------------------------

  /** What a file-system step reported: `os.MkdirAll`, `os.Create` or `io.Copy`. */
  datatype IoResult = Done | IoError(message: string)

  /**
   * What `httpClient.Get` reported: a response, given by the value of its
   * `Content-Type` header (`""` when the header is absent), or an error.
   */
  datatype HttpResult = Response(contentType: string) | HttpError(message: string)

  /** The outcomes of the I/O steps of one download, in the order they are attempted. */
  datatype Effects = Effects(mkdirAll: IoResult, get: HttpResult, create: IoResult, copy: IoResult)

  /** The error `downloadFile` hands to `check`, by the step that raised it. */
  datatype Failure =
    | MkdirFailed(message: string)
    | GetFailed(message: string)
    | MimeTypeNotMatched
    | CreateFailed(message: string)
    | CopyFailed(message: string)

  /**
   * What one call of `downloadFile` leaves behind: the name of the file it
   * created in the output directory, if any, and the error it reported, if
   * any. A failed copy leaves the created file in place.
   */
  datatype Outcome = Outcome(created: Option<string>, failure: Option<Failure>)

  /** The text of the error, as `check` prints it after `reason: ` (main.go:177). */
  function Reason(f: Failure): string {
    match f
    case MkdirFailed(m) => m
    case GetFailed(m) => m
    case MimeTypeNotMatched => "not match mime type"
    case CreateFailed(m) => m
    case CopyFailed(m) => m
  }

  /** The response's content type resolves to an extension, after the directory and the request succeeded. */
  predicate Resolved(fx: Effects) {
    fx.mkdirAll.Done? && fx.get.Response? && Resolve(fx.get.contentType).Some?
  }

  /**
   * `downloadFile(url, dir)`: create the directory, fetch, resolve the
   * content type, derive the file name, create the file, copy the body;
   * the first step that fails ends the download with its error.
   */
  function DownloadFile(url: string, fx: Effects): (o: Outcome)
    ensures fx.mkdirAll.IoError? ==> o == Outcome(None, Some(MkdirFailed(fx.mkdirAll.message)))
    ensures fx.mkdirAll.Done? && fx.get.HttpError? ==> o == Outcome(None, Some(GetFailed(fx.get.message)))
    ensures fx.mkdirAll.Done? && fx.get.Response? && fx.get.contentType !in MimeTypeSet ==>
              && o == Outcome(None, Some(MimeTypeNotMatched))
              && Reason(o.failure.value) == "not match mime type"
    ensures Resolved(fx) && fx.create.IoError? ==> o == Outcome(None, Some(CreateFailed(fx.create.message)))
    ensures Resolved(fx) && fx.create.Done? && fx.copy.IoError? ==> o.failure == Some(CopyFailed(fx.copy.message))
    ensures o.failure.None? <==> Resolved(fx) && fx.create.Done? && fx.copy.Done?
    ensures o.created.Some? <==> Resolved(fx) && fx.create.Done?
    ensures o.created.Some? ==>
              && HasSuffix(o.created.value, Resolve(fx.get.contentType).value)
              && MimeChunks.IsExtension(Resolve(fx.get.contentType).value)
    ensures o.created.Some? && o.failure.Some? ==> o.failure.value.CopyFailed?
  {
    match fx.mkdirAll
    case IoError(m) => Outcome(None, Some(MkdirFailed(m)))
    case Done =>
      match fx.get
      case HttpError(m) => Outcome(None, Some(GetFailed(m)))
      case Response(contentType) =>
        match Resolve(contentType)
        case None => Outcome(None, Some(MimeTypeNotMatched))
        case Some(kind) =>
          var filename := OutputFilename(url, kind);
          match fx.create
          case IoError(m) => Outcome(None, Some(CreateFailed(m)))
          case Done =>
            match fx.copy
            case IoError(m) => Outcome(Some(filename), Some(CopyFailed(m)))
            case Done => Outcome(Some(filename), None)
  }

  /**
   * A created file is named after the URL: the base name, with the resolved
   * extension appended unless it already ends with it.
   */
  lemma {:induction false} CreatedFileName(url: string, fx: Effects)
    requires DownloadFile(url, fx).created.Some?
    ensures var kind := Resolve(fx.get.contentType).value;
            DownloadFile(url, fx).created.value == if HasSuffix(Base(url), kind) then Base(url) else Base(url) + "." + kind
  {
  }

  /** A PNG response for `.../logo.png` is saved as `logo.png`, not `logo.png.png`. */
  lemma DownloadPngExample()
    ensures DownloadFile("https://example.com/img/logo.png", Effects(Done, Response("image/png"), Done, Done))
         == Outcome(Some("logo.png"), None)
  {
    ResolvePng();
    KeepsName();
  }

  /** A `text/plain` response or one without a `Content-Type` creates no file. */
  lemma DownloadUnlistedTypeExample(url: string)
    ensures DownloadFile(url, Effects(Done, Response("text/plain"), Done, Done))
         == Outcome(None, Some(MimeTypeNotMatched))
    ensures DownloadFile(url, Effects(Done, Response(""), Done, Done))
         == Outcome(None, Some(MimeTypeNotMatched))
  {
    ResolveIsExact();
  }

  // ---------------------------------------------------------------------
  // Input validation and the task list (main.go:109-123)
  // ---------------------------------------------------------------------

  /** One goroutine's work: `downloadFile(file, outDir)` (main.go:127-134). */
  datatype Task = Task(url: string, dir: string)

  const InvalidParam: string := "param is invalid!"

  /** The URLs of `tasks`, in order. */
  function Urls(tasks: seq<Task>): seq<string> {
    seq(|tasks|, i requires 0 <= i < |tasks| => tasks[i].url)
  }

  /** One task per URL, in order, all writing to `dir` (main.go:123-134). */
  function TasksFor(urls: seq<string>, dir: string): (tasks: seq<Task>)
    ensures Urls(tasks) == urls
    ensures |tasks| == |urls|
    ensures forall i :: 0 <= i < |tasks| ==> tasks[i].url == urls[i] && tasks[i].dir == dir
  {
    seq(|urls|, i requires 0 <= i < |urls| => Task(urls[i], dir))
  }

  /**
   * `main` after flag parsing: reject a blank input list or output directory,
   * split the list on `,` and make one task per piece, in input order.
   */
  function PlanTasks(input: string, outDir: string): (r: Result<seq<Task>, string>)
    ensures r.Failure? <==> AllSpace(input) || AllSpace(outDir)
    ensures r.Failure? ==> r.error == InvalidParam
    ensures r.Success? ==> |r.value| == Count(input, ',') + 1
    ensures r.Success? ==> Join(Urls(r.value), ',') == input
    ensures r.Success? ==> forall i :: 0 <= i < |r.value| ==> r.value[i].dir == outDir && ',' !in r.value[i].url
  {
    TrimSpaceEmptyIffAllSpace(input);
    TrimSpaceEmptyIffAllSpace(outDir);
    if TrimSpace(input) == "" || TrimSpace(outDir) == "" then
      Failure(InvalidParam)
    else
      var fileList := Split(input, ',');
      if |fileList| == 0 then
        Failure(InvalidParam)
      else
        JoinSplit(input, ',');
        Success(TasksFor(fileList, outDir))
  }

  /**
   * Conversely, a list written as comma-free pieces joined by `,` yields one
   * task per piece, in order, empty pieces included.
   */
  lemma {:induction false} PlanTasksKeepsPieces(pieces: seq<string>, outDir: string)
    requires |pieces| >= 1 && forall i :: 0 <= i < |pieces| ==> ',' !in pieces[i]
    requires !AllSpace(Join(pieces, ',')) && !AllSpace(outDir)
    ensures PlanTasks(Join(pieces, ','), outDir).Success?
    ensures Urls(PlanTasks(Join(pieces, ','), outDir).value) == pieces
  {
    SplitJoin(pieces, ',');
  }
}
