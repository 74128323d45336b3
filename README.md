# bdfile: naming and input handling, modelled in Dafny

`bdfile` is a small bulk downloader. It takes a comma-separated list of URLs
(`-i`) and an output directory (`-o`). It fetches every URL in its own
goroutine, with at most `-t` running at once. It picks a file extension from
the response's `Content-Type` header and writes the body to a file named
after the URL's last path element.

This project models the logic of `main.go` that decides names and tasks:

- `MimeChunks`, `MimeTable`: the extension resolver. This is the 52-entry
  `mimeTypeSet` table and its exact, case-sensitive lookup by the raw header
  value. A miss is the "not match mime type" error. `MimeTypeSet` is the
  union of seven displays, each named after the source lines it holds
  (`Lines30To34` … `Lines73To81`). The split has no meaning in the program;
  it only keeps each proof obligation about the table small.
- `FilePath`: `filepath.Base` with `/` as the only separator. The result is
  `"."` for the empty path, `"/"` for a path made only of slashes, and
  otherwise the text after the last `/` once trailing slashes are stripped.
- `Strings`: `strings.TrimSpace` (with the white-space set of
  `unicode.IsSpace`), `strings.HasSuffix`, and `strings.Split` on a
  one-character separator. `Join` is there as the inverse of `Split`.
- `Downloader`: the output file name (`OutputFilename`). It also holds
  `downloadFile` as a function from the outcomes of its I/O steps to the
  file it creates and the error it reports (`DownloadFile`). Last, it holds
  `main`'s validation of `-i`/`-o` and its split into one task per piece
  (`PlanTasks`).

I/O is replaced by parameters. `DownloadFile` receives an `Effects` value.
That value holds the result of `os.MkdirAll`, the result of the HTTP GET (the
`Content-Type` value, or an error), the result of `os.Create`, and the result
of `io.Copy`. The model decides which of these steps are reached and what
comes of them.

Strings are sequences of Unicode code points, whereas Go strings are bytes.
The separators the code looks for (`/` and `,`) and every extension in the
table are ASCII. `strings.TrimSpace` decodes UTF-8 and tests each code point
with `unicode.IsSpace`, which is modelled by its full set, including the
non-ASCII spaces U+0085, U+00A0, U+1680, U+2000 to U+200A, U+2028, U+2029,
U+202F, U+205F and U+3000. So on valid UTF-8 text the two views give the
same results.

## Model

| member | source | states |
|---|---|---|
| `MimeTable.MimeTypeSet` | main.go:29-82 | the 52 entries of `mimeTypeSet`, from a `Content-Type` value to an extension; its properties are stated by `TableSize`, `TableValues`, `Resolve`, `ResolveIsExact` and `ResolvePng` |
| `MimeTable.TableSize` | main.go:29-82 | the table holds 52 distinct content types: no key of the listing repeats |
| `MimeTable.TableValues` | main.go:29-82 | every extension in the table is non-empty and made only of ASCII letters and digits, so it has no `.` and no `/` |
| `MimeTable.Resolve` | main.go:156-157 | the lookup hits exactly when the header value is a key verbatim; a hit is the extension the table lists for that key, and it is always a bare extension |
| `MimeTable.ResolveIsExact` | main.go:156-159 | `image/png; charset=utf-8` (parameters are not stripped), `IMAGE/PNG` (case is not folded), `""` (header absent) and `text/plain` all miss |
| `MimeTable.ResolvePng` | main.go:32 | `image/png` resolves to `png` |
| `Strings.TrimSpace` | main.go:109 | `strings.TrimSpace`: the trailing trim of the leading trim; what it keeps and drops is stated by `TrimLeft` and `TrimRight`, and when it yields `""` by `TrimSpaceEmptyIffAllSpace` |
| `Strings.TrimLeft` | main.go:109 | the result is the suffix of the input that starts at its first non-space character; everything dropped is white space |
| `Strings.TrimRight` | main.go:109 | the result is the prefix of the input that ends at its last non-space character; everything dropped is white space |
| `Strings.TrimSpaceEmptyIffAllSpace` | main.go:109 | `strings.TrimSpace(s) == ""` holds exactly when every character of `s` is white space |
| `Strings.HasSuffix` | main.go:161 | `strings.HasSuffix`: the last characters of the name are the suffix; its use is stated by `WithExtension` |
| `Strings.Split` | main.go:114 | splitting on `,` gives (number of commas + 1) pieces, so never zero, and no piece contains a comma |
| `Strings.JoinSplit` | main.go:114 | joining the pieces of a split with the separator gives back the input |
| `Strings.SplitJoin` | main.go:114 | splitting a join of comma-free pieces gives back exactly those pieces, empty ones included |
| `FilePath.Base` | main.go:154 | `filepath.Base` with `/` as separator; its meaning is stated by `BaseCases`, `BaseIsLastElement`, `BaseOfName` and `BaseAfterSlash` |
| `FilePath.StripTrailingSlashes` | main.go:154 | the result is the input without its trailing run of `/` |
| `FilePath.LastElement` | main.go:154 | the result is the slash-free text after the last `/` (all of the input when it has no `/`) |
| `FilePath.BaseCases` | main.go:154 | the base name is `"."` for an empty URL, `"/"` for a URL made only of slashes, and otherwise non-empty and free of `/` |
| `FilePath.BaseIsLastElement` | main.go:154 | unless the URL is all slashes, its base name is a slice that starts the URL or follows a `/`, and only slashes come after that slice |
| `FilePath.BaseOfName` | main.go:154 | a non-empty name without `/` is its own base name |
| `FilePath.BaseAfterSlash` | main.go:154 | whatever comes before the last `/`, a URL's base name is the non-empty slash-free text after it |
| `Downloader.WithExtension` | main.go:161-163 | the file name always ends with the extension, equals the name exactly when the name already ends with the bare extension, and otherwise is the name, a `.`, then the extension |
| `Downloader.WithExtensionIdempotent` | main.go:161-163 | adding the extension a second time changes nothing, for every name and extension |
| `Downloader.OutputFilename` | main.go:154-163 | the file name for a URL: `WithExtension` of its base name; its meaning is stated by `OutputFilenameShape` and `OutputFilenameIdempotent` |
| `Downloader.OutputFilenameShape` | main.go:154-163 | the derived file name ends with the resolved extension; it is the base name when that already ends with the extension, and otherwise base name + `.` + extension |
| `Downloader.OutputFilenameIdempotent` | main.go:154-163 | deriving again from the derived name changes nothing, for an extension without `/` and for the empty URL or any URL with a character other than `/` |
| `Downloader.KeepsName` | main.go:161-162 | `.../logo.png` with `png` gives `logo.png`, not `logo.png.png` |
| `Downloader.KeepsNameEndingInBareExtension` | main.go:161-162 | `.../mypng` with `png` is kept as `mypng`, because the suffix test has no leading dot |
| `Downloader.AppendsExtension` | main.go:161-162 | `.../asset?id=1` with `png` gives `asset?id=1.png`; the query string is not removed |
| `Downloader.EmptyUrl` | main.go:154-163 | `OutputFilename` maps the empty URL to `..png`, because its base name is `.` |
| `Downloader.SlashesUrl` | main.go:154-163 | `OutputFilename` maps the URL `//` to `/.png`, because its base name is `/` |
| `Downloader.SlashesUrlNotIdempotent` | main.go:154-163 | deriving again from `/.png` gives `.png`, so the derivation is not idempotent when the URL is only slashes |
| `Downloader.DownloadFile` | main.go:141-174 | the first failing step decides the error and carries its own message: a failed `os.MkdirAll`, GET or `os.Create` each give their own error and no file, an unlisted or missing content type gives "not match mime type" and no file, and a failed copy gives the copy's error; there is no error exactly when every step succeeds and the content type is listed; a file is created exactly when every step up to `os.Create` succeeds, and its name ends with the resolved extension; a file left behind alongside an error means the copy failed |
| `Downloader.Reason` | main.go:176-177 | the text `check` prints after `reason: `: the failing step's own message, or "not match mime type" for an unlisted type, as `DownloadFile` states |
| `Downloader.CreatedFileName` | main.go:154-164 | a created file is named by the base name of the URL, with `.` + extension appended unless the base name already ends with it |
| `Downloader.DownloadPngExample` | main.go:141-174 | a PNG response for `.../logo.png` is saved as `logo.png` and reports no error |
| `Downloader.DownloadUnlistedTypeExample` | main.go:156-159 | a `text/plain` response, or one without a `Content-Type`, creates no file and reports "not match mime type" |
| `Downloader.TasksFor` | main.go:123-134 | one task per URL, in order: task `i` has URL `i` and the output directory, and the task URLs are the URLs |
| `Downloader.PlanTasks` | main.go:109-123 | the input is rejected with "param is invalid!" exactly when the URL list or the output directory is all white space; otherwise there is one task per comma-separated piece (number of commas + 1), every task uses the output directory, and joining the URLs with `,` gives back the input, so the `len(fileList) == 0` guard can never fire |
| `Downloader.PlanTasksKeepsPieces` | main.go:114-123 | a list written as comma-free pieces joined by `,` yields exactly those pieces as task URLs, in input order and with empty pieces kept |

## Left out

- The bounded-parallelism dispatch (main.go:120-137) is left out because its whole point is concurrency: the `queue` channel used as a semaphore, the `sync.WaitGroup`, and one goroutine per task. The model stops at the ordered task list and does not state the at-most-`-t` bound or the completion order.
- The HTTP client and its transport settings (main.go:23-27, 147) are left out as network I/O. The GET is a parameter of `DownloadFile`.
- `os.MkdirAll`, `os.Create`, `io.Copy` and `filepath.Join` (main.go:142, 164-173) are left out as file-system I/O. Their outcomes are parameters, and `Outcome.created` records the file name but not the joined path. The source never closes the file it creates; the model does not represent open handles.
- `check` (main.go:176-181) is left out because it is process-level I/O: it prints `<url> download err, reason: <message>` to standard error and calls `os.Exit(1)` in strict mode. `Reason` gives the message text, and the model says nothing about printing or termination.
- Flag parsing, the `-h` help text and the final "download success!" line (main.go:84-107, 138) are left out as library glue and static text.
- The GET outcome in `Effects` does not depend on the URL. The real client rejects some URLs before any name is derived: an empty piece of the list or `//` fails with an unsupported protocol scheme. So `EmptyUrl` and `SlashesUrl` are facts about `OutputFilename` only, not about files the program creates. Also, `filepath.Join` cleans the joined path, so a name such as `/.png` would land as `.png` in the directory.
- `resp.Header.Get` is left out. Its canonicalisation of the header name and its choice of the first value are not modelled; the header value is a parameter, with `""` standing for an absent header.
- `FilePath.Base` models only the Unix `/` separator, so the Windows separators and volume names are left out.
- MimeTable.ResolveIsExact: this lemma shows exactness on four representative header values rather than for every value that differs from a key. A general character-level statement over the longest keys is too costly for the verifier.
