/**
 * The 52 entries of the `mimeTypeSet` table (main.go:29-82), from a
 * `Content-Type` header value to a bare file extension, written as seven
 * consecutive slices of the source listing. Each fact about the table is
 * checked slice by slice (pairs of slices for distinctness), which keeps
 * every proof obligation small; `MimeTable` puts the slices together.
 */
module MimeChunks {

  /** A bare extension: non-empty, ASCII letters and digits only, so no `.` and no `/`. */
  predicate IsExtension(e: string) {
    |e| > 0 && forall i :: 0 <= i < |e| ==> 'a' <= e[i] <= 'z' || 'A' <= e[i] <= 'Z' || '0' <= e[i] <= '9'
  }

  predicate ValuesAreExtensions(m: map<string, string>) {
    forall k :: k in m ==> IsExtension(m[k])
  }

  /** The entries listed at main.go:30-34. */
  const Lines30To34: map<string, string> := map[
    "image/jpeg" := "jpg",
    "image/jp2"  := "jp2",
    "image/png"  := "png",
    "image/gif"  := "gif",
    "image/webp" := "webp"
  ]

  /** The entries listed at main.go:35-42. */
  const Lines35To42: map<string, string> := map[
    "image/x-canon-cr2"         := "cr2",
    "image/tiff"                := "tif",
    "image/bmp"                 := "bmp",
    "image/vnd.ms-photo"        := "jxr",
    "image/vnd.adobe.photoshop" := "psd",
    "image/vnd.microsoft.icon"  := "ico",
    "image/heif"                := "heif",
    "image/vnd.dwg"             := "dwg"
  ]

  /** The entries listed at main.go:43-48. */
  const Lines43To48: map<string, string> := map[
    "application/wasm"            := "wasm",
    "application/vnd.android.dex" := "dex",
    "application/vnd.android.dey" := "dey",
    "application/epub+zip"        := "epub",
    "application/zip"             := "zip",
    "application/x-tar"           := "tar"
  ]

  /** The entries listed at main.go:49-54. */
  const Lines49To54: map<string, string> := map[
    "application/vnd.rar"         := "rar",
    "application/gzip"            := "gz",
    "application/x-bzip2"         := "bz2",
    "application/x-7z-compressed" := "7z",
    "application/x-xz"            := "xz",
    "application/zstd"            := "zst"
  ]

  /** The entries listed at main.go:55-63. */
  const Lines55To63: map<string, string> := map[
    "application/pdf"                       := "pdf",
    "application/x-shockwave-flash"         := "swf",
    "application/rtf"                       := "rtf",
    "application/octet-stream"              := "eot",
    "application/postscript"                := "ps",
    "application/vnd.sqlite3"               := "sqlite",
    "application/x-nintendo-nes-rom"        := "nes",
    "application/x-google-chrome-extension" := "crx",
    "application/vnd.ms-cab-compressed"     := "cab"
  ]

  /** The entries listed at main.go:64-72. */
  const Lines64To72: map<string, string> := map[
    "application/vnd.debian.binary-package" := "deb",
    "application/x-unix-archive"            := "ar",
    "application/x-compress"                := "Z",
    "application/x-lzip"                    := "lz",
    "application/x-rpm"                     := "rpm",
    "application/x-executable"              := "elf",
    "application/dicom"                     := "dcm",
    "application/x-iso9660-image"           := "iso",
    "application/x-mach-binary"             := "macho"
  ]

  /** The entries listed at main.go:73-81. */
  const Lines73To81: map<string, string> := map[
    "application/msword"                                                        := "doc",
    "application/vnd.ms-excel"                                                  := "xls",
    "application/vnd.microsoft.portable-executable"                             := "exe",
    "application/vnd.ms-powerpoint"                                             := "ppt",
    "application/font-sfnt"                                                     := "ttf",
    "application/font-woff"                                                     := "woff",
    "application/vnd.openxmlformats-officedocument.wordprocessingml.document"   := "docx",
    "application/vnd.openxmlformats-officedocument.spreadsheetml.sheet"         := "xlsx",
    "application/vnd.openxmlformats-officedocument.presentationml.presentation" := "pptx"
  ]

  // Size of each slice: no key is repeated within a slice.

  lemma Lines30To34Size() ensures |Lines30To34| == 5 {}
  lemma Lines35To42Size() ensures |Lines35To42| == 8 {}
  lemma Lines43To48Size() ensures |Lines43To48| == 6 {}
  lemma Lines49To54Size() ensures |Lines49To54| == 6 {}
  lemma Lines55To63Size() ensures |Lines55To63| == 9 {}
  lemma Lines64To72Size() ensures |Lines64To72| == 9 {}
  lemma Lines73To81Size() ensures |Lines73To81| == 9 {}

  // Every value is a bare extension.

  lemma Lines30To34Values() ensures ValuesAreExtensions(Lines30To34) {}
  lemma Lines35To42Values() ensures ValuesAreExtensions(Lines35To42) {}
  lemma Lines43To48Values() ensures ValuesAreExtensions(Lines43To48) {}
  lemma Lines49To54Values() ensures ValuesAreExtensions(Lines49To54) {}
  lemma Lines55To63Values() ensures ValuesAreExtensions(Lines55To63) {}
  lemma Lines64To72Values() ensures ValuesAreExtensions(Lines64To72) {}
  lemma Lines73To81Values() ensures ValuesAreExtensions(Lines73To81) {}

  // No key is repeated across two slices.

  lemma DisjointLines30To34Lines35To42() ensures Lines30To34.Keys !! Lines35To42.Keys {}
  lemma DisjointLines30To34Lines43To48() ensures Lines30To34.Keys !! Lines43To48.Keys {}
  lemma DisjointLines30To34Lines49To54() ensures Lines30To34.Keys !! Lines49To54.Keys {}
  lemma DisjointLines30To34Lines55To63() ensures Lines30To34.Keys !! Lines55To63.Keys {}
  lemma DisjointLines30To34Lines64To72() ensures Lines30To34.Keys !! Lines64To72.Keys {}
  lemma DisjointLines30To34Lines73To81() ensures Lines30To34.Keys !! Lines73To81.Keys {}
  lemma DisjointLines35To42Lines43To48() ensures Lines35To42.Keys !! Lines43To48.Keys {}
  lemma DisjointLines35To42Lines49To54() ensures Lines35To42.Keys !! Lines49To54.Keys {}
  lemma DisjointLines35To42Lines55To63() ensures Lines35To42.Keys !! Lines55To63.Keys {}
  lemma DisjointLines35To42Lines64To72() ensures Lines35To42.Keys !! Lines64To72.Keys {}
  lemma DisjointLines35To42Lines73To81() ensures Lines35To42.Keys !! Lines73To81.Keys {}
  lemma DisjointLines43To48Lines49To54() ensures Lines43To48.Keys !! Lines49To54.Keys {}
  lemma DisjointLines43To48Lines55To63() ensures Lines43To48.Keys !! Lines55To63.Keys {}
  lemma DisjointLines43To48Lines64To72() ensures Lines43To48.Keys !! Lines64To72.Keys {}
  lemma DisjointLines43To48Lines73To81() ensures Lines43To48.Keys !! Lines73To81.Keys {}
  lemma DisjointLines49To54Lines55To63() ensures Lines49To54.Keys !! Lines55To63.Keys {}
  lemma DisjointLines49To54Lines64To72() ensures Lines49To54.Keys !! Lines64To72.Keys {}
  lemma DisjointLines49To54Lines73To81() ensures Lines49To54.Keys !! Lines73To81.Keys {}
  lemma DisjointLines55To63Lines64To72() ensures Lines55To63.Keys !! Lines64To72.Keys {}
  lemma DisjointLines55To63Lines73To81() ensures Lines55To63.Keys !! Lines73To81.Keys {}
  lemma DisjointLines64To72Lines73To81() ensures Lines64To72.Keys !! Lines73To81.Keys {}

  // Header values that no slice holds, and the slices that do not hold
  // `image/png` (see `MimeTable.ResolveIsExact` and `MimeTable.ResolvePng`).

  lemma Lines30To34Png()
    ensures "image/png" in Lines30To34 && Lines30To34["image/png"] == "png"
  {}
  lemma Lines30To34Misses()
    ensures "image/png; charset=utf-8" !in Lines30To34 && "IMAGE/PNG" !in Lines30To34 && "" !in Lines30To34
    ensures "text/plain" !in Lines30To34
  {}
  lemma Lines35To42Misses()
    ensures "image/png; charset=utf-8" !in Lines35To42 && "IMAGE/PNG" !in Lines35To42 && "" !in Lines35To42
    ensures "text/plain" !in Lines35To42 && "image/png" !in Lines35To42
  {}
  lemma Lines43To48Misses()
    ensures "image/png; charset=utf-8" !in Lines43To48 && "IMAGE/PNG" !in Lines43To48 && "" !in Lines43To48
    ensures "text/plain" !in Lines43To48 && "image/png" !in Lines43To48
  {}
  lemma Lines49To54Misses()
    ensures "image/png; charset=utf-8" !in Lines49To54 && "IMAGE/PNG" !in Lines49To54 && "" !in Lines49To54
    ensures "text/plain" !in Lines49To54 && "image/png" !in Lines49To54
  {}
  lemma Lines55To63Misses()
    ensures "image/png; charset=utf-8" !in Lines55To63 && "IMAGE/PNG" !in Lines55To63 && "" !in Lines55To63
    ensures "text/plain" !in Lines55To63 && "image/png" !in Lines55To63
  {}
  lemma Lines64To72Misses()
    ensures "image/png; charset=utf-8" !in Lines64To72 && "IMAGE/PNG" !in Lines64To72 && "" !in Lines64To72
    ensures "text/plain" !in Lines64To72 && "image/png" !in Lines64To72
  {}
  lemma Lines73To81Misses()
    ensures "image/png; charset=utf-8" !in Lines73To81 && "IMAGE/PNG" !in Lines73To81 && "" !in Lines73To81
    ensures "text/plain" !in Lines73To81 && "image/png" !in Lines73To81
  {}
}
