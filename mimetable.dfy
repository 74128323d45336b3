/**
 * The extension resolver: `mimeTypeSet` (main.go:29-82) and its lookup by
 * the raw `Content-Type` header value (main.go:156-157). The lookup is an
 * exact, case-sensitive map lookup; a miss is the caller's error path.
 */
module MimeTable {
  import opened Wrappers
  import opened MimeChunks

  /** `mimeTypeSet`: the union of the seven consecutive slices of main.go:30-81. */
  const MimeTypeSet: map<string, string> :=
    Lines30To34 + Lines35To42 + Lines43To48 + Lines49To54 + Lines55To63 + Lines64To72 + Lines73To81

  lemma {:induction false} UnionSize(a: map<string, string>, b: map<string, string>)
    requires a.Keys !! b.Keys
    ensures (a + b).Keys == a.Keys + b.Keys
    ensures |a + b| == |a| + |b|
  {
  }

  lemma DisjointUnion(a: map<string, string>, b: map<string, string>, c: map<string, string>)
    requires a.Keys !! c.Keys && b.Keys !! c.Keys
    ensures (a + b).Keys !! c.Keys
  {
  }

  lemma UnionValues(a: map<string, string>, b: map<string, string>)
    requires ValuesAreExtensions(a) && ValuesAreExtensions(b)
    ensures ValuesAreExtensions(a + b)
  {
  }

  /** The table holds 52 distinct content types: the keys of main.go:30-81 are pairwise different. */
  lemma TableSize()
    ensures |MimeTypeSet| == 52
  {
    Lines30To34Size(); Lines35To42Size(); Lines43To48Size(); Lines49To54Size();
    Lines55To63Size(); Lines64To72Size(); Lines73To81Size();
    DisjointLines30To34Lines35To42();
    UnionSize(Lines30To34, Lines35To42);
    var m := Lines30To34 + Lines35To42;
    DisjointLines30To34Lines43To48(); DisjointLines35To42Lines43To48();
    DisjointUnion(Lines30To34, Lines35To42, Lines43To48);
    UnionSize(m, Lines43To48);
    m := m + Lines43To48;
    DisjointLines30To34Lines49To54(); DisjointLines35To42Lines49To54(); DisjointLines43To48Lines49To54();
    DisjointUnion(Lines30To34, Lines35To42, Lines49To54);
    DisjointUnion(Lines30To34 + Lines35To42, Lines43To48, Lines49To54);
    UnionSize(m, Lines49To54);
    m := m + Lines49To54;
    DisjointLines30To34Lines55To63(); DisjointLines35To42Lines55To63(); DisjointLines43To48Lines55To63();
    DisjointLines49To54Lines55To63();
    DisjointUnion(Lines30To34, Lines35To42, Lines55To63);
    DisjointUnion(Lines30To34 + Lines35To42, Lines43To48, Lines55To63);
    DisjointUnion(Lines30To34 + Lines35To42 + Lines43To48, Lines49To54, Lines55To63);
    UnionSize(m, Lines55To63);
    m := m + Lines55To63;
    DisjointLines30To34Lines64To72(); DisjointLines35To42Lines64To72(); DisjointLines43To48Lines64To72();
    DisjointLines49To54Lines64To72(); DisjointLines55To63Lines64To72();
    DisjointUnion(Lines30To34, Lines35To42, Lines64To72);
    DisjointUnion(Lines30To34 + Lines35To42, Lines43To48, Lines64To72);
    DisjointUnion(Lines30To34 + Lines35To42 + Lines43To48, Lines49To54, Lines64To72);
    DisjointUnion(Lines30To34 + Lines35To42 + Lines43To48 + Lines49To54, Lines55To63, Lines64To72);
    UnionSize(m, Lines64To72);
    m := m + Lines64To72;
    DisjointLines30To34Lines73To81(); DisjointLines35To42Lines73To81(); DisjointLines43To48Lines73To81();
    DisjointLines49To54Lines73To81(); DisjointLines55To63Lines73To81(); DisjointLines64To72Lines73To81();
    DisjointUnion(Lines30To34, Lines35To42, Lines73To81);
    DisjointUnion(Lines30To34 + Lines35To42, Lines43To48, Lines73To81);
    DisjointUnion(Lines30To34 + Lines35To42 + Lines43To48, Lines49To54, Lines73To81);
    DisjointUnion(Lines30To34 + Lines35To42 + Lines43To48 + Lines49To54, Lines55To63, Lines73To81);
    DisjointUnion(Lines30To34 + Lines35To42 + Lines43To48 + Lines49To54 + Lines55To63, Lines64To72, Lines73To81);
    UnionSize(m, Lines73To81);
  }

  /** Every value of the table is a bare extension: non-empty, letters and digits, no `.`. */
  lemma TableValues()
    ensures ValuesAreExtensions(MimeTypeSet)
  {
    Lines30To34Values(); Lines35To42Values(); Lines43To48Values(); Lines49To54Values();
    Lines55To63Values(); Lines64To72Values(); Lines73To81Values();
    UnionValues(Lines30To34, Lines35To42);
    UnionValues(Lines30To34 + Lines35To42, Lines43To48);
    UnionValues(Lines30To34 + Lines35To42 + Lines43To48, Lines49To54);
    UnionValues(Lines30To34 + Lines35To42 + Lines43To48 + Lines49To54, Lines55To63);
    UnionValues(Lines30To34 + Lines35To42 + Lines43To48 + Lines49To54 + Lines55To63, Lines64To72);
    UnionValues(Lines30To34 + Lines35To42 + Lines43To48 + Lines49To54 + Lines55To63 + Lines64To72, Lines73To81);
  }

  /**
   * `kind, ok := mimeTypeSet[contentType]` (main.go:156): a hit exactly when
   * the header value is a key verbatim, a hit is the extension the table
   * lists for that key, and every hit is a bare extension.
   */
  function Resolve(contentType: string): (kind: Option<string>)
    ensures kind.Some? <==> contentType in MimeTypeSet
    ensures kind.Some? ==> kind.value == MimeTypeSet[contentType]
    ensures kind.Some? ==> IsExtension(kind.value)
  {
    TableValues();
    if contentType in MimeTypeSet then Some(MimeTypeSet[contentType]) else None
  }

  /** A header value that no slice holds misses. */
  lemma {:induction false} MissesEverySlice(contentType: string)
    requires contentType !in Lines30To34 && contentType !in Lines35To42 && contentType !in Lines43To48
    requires contentType !in Lines49To54 && contentType !in Lines55To63
    requires contentType !in Lines64To72 && contentType !in Lines73To81
    ensures Resolve(contentType) == None
  {
  }

  /**
   * The lookup does not normalise: parameters after `;` are not stripped,
   * case is not folded, and an absent header (read as `""`) and an unlisted
   * type miss.
   */
  lemma ResolveIsExact()
    ensures Resolve("image/png; charset=utf-8") == None
    ensures Resolve("IMAGE/PNG") == None
    ensures Resolve("") == None
    ensures Resolve("text/plain") == None
  {
    Lines30To34Misses(); Lines35To42Misses(); Lines43To48Misses(); Lines49To54Misses();
    Lines55To63Misses(); Lines64To72Misses(); Lines73To81Misses();
    MissesEverySlice("image/png; charset=utf-8");
    MissesEverySlice("IMAGE/PNG");
    MissesEverySlice("");
    MissesEverySlice("text/plain");
  }

  lemma KeepValue(a: map<string, string>, b: map<string, string>, key: string)
    requires key in a && key !in b
    ensures key in a + b && (a + b)[key] == a[key]
  {
  }

  /** `image/png` is listed with extension `png`. */
  lemma ResolvePng()
    ensures Resolve("image/png") == Some("png")
  {
    var key := "image/png";
    Lines35To42Misses(); Lines43To48Misses(); Lines49To54Misses();
    Lines55To63Misses(); Lines64To72Misses(); Lines73To81Misses();
    Lines30To34Png();
    KeepValue(Lines30To34, Lines35To42, key);
    KeepValue(Lines30To34 + Lines35To42, Lines43To48, key);
    KeepValue(Lines30To34 + Lines35To42 + Lines43To48, Lines49To54, key);
    KeepValue(Lines30To34 + Lines35To42 + Lines43To48 + Lines49To54, Lines55To63, key);
    KeepValue(Lines30To34 + Lines35To42 + Lines43To48 + Lines49To54 + Lines55To63, Lines64To72, key);
    KeepValue(Lines30To34 + Lines35To42 + Lines43To48 + Lines49To54 + Lines55To63 + Lines64To72, Lines73To81, key);
  }
}
