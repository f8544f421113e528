/** The production half of src/html.ts: `closeBundle` walks the bundler's
    manifest in key order and emits one `if`/`elsif` row per entry, closed by
    a single `endif`.

    The specification is built in two stages, as values first: `EntryTags`
    gives the ordered tag descriptions of one entry, `Rows` the ordered rows of
    the whole dispatch chain; `RenderRows` and `Snippet` turn them into text.
    The methods `BuildEntryTags` and `CompileManifest` are the source's
    array-pushing loops, proved to produce exactly that text. */
module ManifestCompiler {
  import opened Wrappers
  import opened Text
  import opened Tags
  import CssExtensions

  /** One manifest record. An absent `isEntry` reads as false and an absent
      `css` or `imports` as empty, which is how the source treats them. */
  datatype Entry = Entry(file: string, isEntry: bool, css: seq<string>, imports: seq<string>)

  /** The parsed manifest, in `Object.keys` order. A parsed JSON object has
      each key once (`KeysDistinct`); the sequence type admits repeated keys,
      on which `Lookup` reads the first record where `JSON.parse` would keep
      the last. On a manifest with distinct keys the two agree
      (`LookupDistinct`). */
  type Manifest = seq<(string, Entry)>

  predicate KeysDistinct(m: Manifest) {
    forall i, j :: 0 <= i < j < |m| ==> m[i].0 != m[j].0
  }

  /** Destructuring `manifest[importFilename]` for a key that is not in the
      manifest throws, which aborts the whole compilation. */
  datatype CompileError = MissingImport(key: string)

  /** The options `closeBundle` reads: `options.entrypointsDir`,
      `config.build.cssCodeSplit` and `options.versionNumbers`. */
  datatype BuildSettings = BuildSettings(entrypointsDir: string, cssCodeSplit: bool, versionNumbers: bool)

  predicate HasKey(m: Manifest, key: string) {
    exists i :: 0 <= i < |m| && m[i].0 == key
  }

  /** `manifest[key]` */
  function Lookup(m: Manifest, key: string): (r: Option<Entry>)
    ensures r.Some? <==> HasKey(m, key)
    ensures r.Some? ==> (key, r.value) in m
  {
    if |m| == 0 then None
    else if m[0].0 == key then Some(m[0].1)
    else
      var r := Lookup(m[1..], key);
      assert HasKey(m, key) ==> HasKey(m[1..], key) by {
        if HasKey(m, key) {
          var i :| 0 <= i < |m| && m[i].0 == key;
          assert m[1..][i - 1] == m[i];
        }
      }
      r
  }

  function Stylesheets(files: seq<string>): (r: seq<Tag>)
    ensures |r| == |files|
    ensures forall i :: 0 <= i < |files| ==> r[i] == Stylesheet(files[i])
  {
    seq(|files|, i requires 0 <= i < |files| => Stylesheet(files[i]))
  }

  /** The results of `f` on each element in order, concatenated; the first
      failure, if any, aborts. This is the shape of both `forEach` loops of
      the compiler, which push into an array and stop at the first throw. */
  function Collect<X, Y, E>(f: X -> Result<seq<Y>, E>, xs: seq<X>): Result<seq<Y>, E>
  {
    if |xs| == 0 then Ok([])
    else
      match Collect(f, xs[..|xs| - 1])
      case Err(err) => Err(err)
      case Ok(before) =>
        match f(xs[|xs| - 1])
        case Err(err) => Err(err)
        case Ok(more) => Ok(before + more)
  }

  /** The tags one imported chunk contributes. */
  function ChunkOf(chunk: Entry): seq<Tag> {
    [Preload(chunk.file)] + Stylesheets(chunk.css)
  }

  /** One import: a preload of the chunk, then the chunk's own stylesheets; an
      import with no manifest record fails. */
  function ImportStep(m: Manifest): string -> Result<seq<Tag>, CompileError> {
    imp =>
      match Lookup(m, imp)
      case None => Err(MissingImport(imp))
      case Some(chunk) => Ok(ChunkOf(chunk))
  }

  /** For each import in order, the tags of its chunk. */
  function ChunkTags(m: Manifest, imports: seq<string>): Result<seq<Tag>, CompileError>
  {
    Collect(ImportStep(m), imports)
  }

  /** The tags of one entry: a stylesheet entry gets its file as one stylesheet
      and nothing else; a script entry gets its script, then its chunks, then
      its own stylesheets. */
  function EntryTags(m: Manifest, key: string, e: Entry): (r: Result<seq<Tag>, CompileError>)
    ensures CssExtensions.IsCssKey(key) ==> r == Ok([Stylesheet(e.file)])
    ensures !CssExtensions.IsCssKey(key) && r.Ok? ==>
      |r.value| >= 1 + |e.css| && r.value[0] == Script(e.file) &&
      r.value[|r.value| - |e.css|..] == Stylesheets(e.css)
  {
    if CssExtensions.IsCssKey(key) then Ok([Stylesheet(e.file)])
    else
      match ChunkTags(m, e.imports)
      case Err(err) => Err(err)
      case Ok(chunks) =>
        var r := [Script(e.file)] + chunks + Stylesheets(e.css);
        assert r[|r| - |e.css|..] == Stylesheets(e.css);
        Ok(r)
  }

  /** One row of the dispatch chain: the request paths it answers, its tags,
      and whether it is the extra `style.css` row. */
  datatype Row = Row(paths: seq<string>, tags: seq<Tag>, forced: bool)

  /** The entry row of one manifest key: none unless `isEntry` is set. */
  function EntryRows(m: Manifest, s: BuildSettings, relative: (string, string) -> string,
                     key: string, e: Entry): Result<seq<Row>, CompileError>
  {
    if e.isEntry then
      match EntryTags(m, key, e)
      case Err(err) => Err(err)
      case Ok(tags) => Ok([Row(["/" + key, relative(s.entrypointsDir, key)], tags, false)])
    else Ok([])
  }

  /** The extra row answering `style.css` when stylesheets are not code-split. */
  function StyleRows(s: BuildSettings, key: string, e: Entry): seq<Row> {
    if key == "style.css" && !s.cssCodeSplit then [Row([key], [Stylesheet(e.file)], true)] else []
  }

  /** The rows one manifest key contributes: its entry row, if it is an entry,
      then the extra `style.css` row. */
  function KeyRows(m: Manifest, s: BuildSettings, relative: (string, string) -> string,
                   key: string, e: Entry): Result<seq<Row>, CompileError>
  {
    match EntryRows(m, s, relative, key, e)
    case Err(err) => Err(err)
    case Ok(rows) => Ok(rows + StyleRows(s, key, e))
  }

  function KeyStep(m: Manifest, s: BuildSettings, relative: (string, string) -> string)
    : ((string, Entry)) -> Result<seq<Row>, CompileError>
  {
    (kv: (string, Entry)) => KeyRows(m, s, relative, kv.0, kv.1)
  }

  /** The rows of the keys in `walked` (a prefix of `m`), in key order; imports
      are looked up in the whole manifest `m`. */
  function Rows(m: Manifest, s: BuildSettings, relative: (string, string) -> string,
                walked: Manifest): Result<seq<Row>, CompileError>
  {
    Collect(KeyStep(m, s, relative), walked)
  }

  function RenderRow(row: Row, isFirst: bool, v: bool): string {
    ViteEntryTag(row.paths, Join(RenderTags(row.tags, v), "\n  "), isFirst)
  }

  /** The rendered rows: each selects its rendered tags, one per line, for
      the request paths of its row. Only row 0, and only if it is an entry
      row, opens with `if`; every other row, and the extra `style.css` row
      wherever it stands, is `elsif`. */
  function RenderRows(rows: seq<Row>, v: bool): (r: seq<string>)
    ensures |r| == |rows|
    ensures forall i :: 0 <= i < |rows| ==>
      r[i] == (if i == 0 && !rows[i].forced then "{% if " else "{% elsif ") + PathCondition(rows[i].paths) +
              " %}\n  " + Join(RenderTags(rows[i].tags, v), "\n  ")
    ensures forall i :: 0 <= i < |rows| ==>
      (StartsWith(r[i], "{% if ") <==> i == 0 && !rows[i].forced) &&
      (StartsWith(r[i], "{% elsif ") <==> i > 0 || rows[i].forced)
  {
    seq(|rows|, i requires 0 <= i < |rows| => RenderRow(rows[i], i == 0 && !rows[i].forced, v))
  }

  const EndIf := "\n{% endif %}\n"

  /** The snippet text: the shared prefix, the rows one per line, one `endif`. */
  function Snippet(prefix: string, rendered: seq<string>): (r: string)
    ensures StartsWith(r, prefix) && EndsWith(r, EndIf)
  {
    var body := Join(rendered, "\n");
    assert (prefix + body + EndIf)[..|prefix|] == prefix;
    prefix + body + EndIf
  }

  function CompileSnippet(m: Manifest, s: BuildSettings, relative: (string, string) -> string,
                          prefix: string): Result<string, CompileError>
  {
    match Rows(m, s, relative, m)
    case Err(err) => Err(err)
    case Ok(rows) => Ok(Snippet(prefix, RenderRows(rows, s.versionNumbers)))
  }

  /** With distinct keys, every record is the one its key looks up. */
  lemma {:induction false} LookupDistinct(m: Manifest, i: nat)
    requires KeysDistinct(m) && i < |m|
    ensures Lookup(m, m[i].0) == Some(m[i].1)
    decreases |m|
  {
    if i > 0 {
      assert m[0].0 != m[i].0;
      assert m[1..][i - 1] == m[i];
      LookupDistinct(m[1..], i - 1);
    }
  }

  // ---------------------------------------------------------------------
  //  The source's loops
  // ---------------------------------------------------------------------

  lemma {:induction false} CollectErrPersists<X, Y, E>(f: X -> Result<seq<Y>, E>, xs: seq<X>, k: nat)
    requires k <= |xs| && Collect(f, xs[..k]).Err?
    ensures Collect(f, xs) == Collect(f, xs[..k])
    decreases |xs|
  {
    if k < |xs| {
      var init := xs[..|xs| - 1];
      assert init[..k] == xs[..k];
      CollectErrPersists(f, init, k);
    } else {
      assert xs[..k] == xs;
    }
  }

  lemma CollectPrefixStep<X, Y, E>(f: X -> Result<seq<Y>, E>, xs: seq<X>, i: nat)
    requires i < |xs| && Collect(f, xs[..i]).Ok?
    ensures f(xs[i]).Ok? ==> Collect(f, xs[..i + 1]) == Ok(Collect(f, xs[..i]).value + f(xs[i]).value)
    ensures f(xs[i]).Err? ==> Collect(f, xs[..i + 1]) == Err(f(xs[i]).error)
  {
    assert xs[..i + 1][..i] == xs[..i];
    assert xs[..i + 1][i] == xs[i];
  }

  /** The collection succeeds exactly when every step does. */
  lemma {:induction false} CollectOkIff<X, Y, E>(f: X -> Result<seq<Y>, E>, xs: seq<X>)
    ensures Collect(f, xs).Ok? <==> forall i :: 0 <= i < |xs| ==> f(xs[i]).Ok?
    decreases |xs|
  {
    if |xs| > 0 {
      var init := xs[..|xs| - 1];
      CollectOkIff(f, init);
      assert forall i :: 0 <= i < |init| ==> init[i] == xs[i];
    }
  }

  /** A failing collection fails with the error of its first failing step. */
  lemma {:induction false} CollectFirstErr<X, Y, E>(f: X -> Result<seq<Y>, E>, xs: seq<X>, j: nat)
    requires j < |xs| && f(xs[j]).Err?
    requires forall i :: 0 <= i < j ==> f(xs[i]).Ok?
    ensures Collect(f, xs) == Err(f(xs[j]).error)
    decreases |xs|
  {
    var init := xs[..|xs| - 1];
    if j == |xs| - 1 {
      CollectOkIff(f, init);
    } else {
      CollectFirstErr(f, init, j);
    }
  }

  /** Collecting a split sequence concatenates the two halves' results. */
  lemma {:induction false} CollectConcat<X, Y, E>(f: X -> Result<seq<Y>, E>, a: seq<X>, b: seq<X>)
    requires Collect(f, a + b).Ok?
    ensures Collect(f, a).Ok? && Collect(f, b).Ok?
    ensures Collect(f, a + b).value == Collect(f, a).value + Collect(f, b).value
    decreases |b|
  {
    if |b| == 0 {
      assert a + b == a;
    } else {
      var initB := b[..|b| - 1];
      assert (a + b)[..|a + b| - 1] == a + initB;
      assert (a + b)[|a + b| - 1] == b[|b| - 1];
      CollectConcat(f, a, initB);
    }
  }

  /** `for (const cssFile of files) tags.push(stylesheetTag(cssFile, ...))` */
  method PushStylesheets(tags: seq<string>, files: seq<string>, v: bool) returns (r: seq<string>)
    ensures r == tags + RenderTags(Stylesheets(files), v)
  {
    r := tags;
    var j := 0;
    while j < |files|
      invariant 0 <= j <= |files|
      invariant r == tags + RenderTags(Stylesheets(files[..j]), v)
    {
      assert Stylesheets(files[..j + 1]) == Stylesheets(files[..j]) + [Stylesheet(files[j])];
      RenderTagsConcat(Stylesheets(files[..j]), [Stylesheet(files[j])], v);
      r := r + [StylesheetTag(files[j], v)];
      j := j + 1;
    }
    assert files[..j] == files;
  }

  /** One pass of the import loop: the chunk's preload, then its stylesheets. */
  method PushChunk(tags: seq<string>, chunk: Entry, v: bool) returns (r: seq<string>)
    ensures r == tags + RenderTags(ChunkOf(chunk), v)
  {
    var preload := PreloadScriptTag(chunk.file, v);
    r := PushStylesheets(tags + [preload], chunk.css, v);
    RenderTagsConcat([Preload(chunk.file)], Stylesheets(chunk.css), v);
    RenderTagsSingle(Preload(chunk.file), v);
    AppendAssoc(tags, [preload], RenderTags(Stylesheets(chunk.css), v));
  }

  lemma RenderTagsSingle(t: Tag, v: bool)
    ensures RenderTags([t], v) == [RenderTag(t, v)]
  {
    assert [t][..0] == [];
  }

  lemma ScriptEntryTags(m: Manifest, key: string, e: Entry)
    requires !CssExtensions.IsCssKey(key) && ChunkTags(m, e.imports).Ok?
    ensures EntryTags(m, key, e) == Ok([Script(e.file)] + ChunkTags(m, e.imports).value + Stylesheets(e.css))
  {
  }

  /** The import loop: for each import in order, the chunk's tags; the first
      import with no manifest record aborts. */
  method PushImports(tags: seq<string>, m: Manifest, imports: seq<string>, v: bool)
    returns (r: Result<seq<string>, CompileError>)
    ensures r.Ok? <==> ChunkTags(m, imports).Ok?
    ensures r.Ok? ==> r.value == tags + RenderTags(ChunkTags(m, imports).value, v)
    ensures r.Err? ==> r.error == ChunkTags(m, imports).error
  {
    var acc := tags;
    ghost var chunks: seq<Tag> := [];
    var i := 0;
    while i < |imports|
      invariant 0 <= i <= |imports|
      invariant ChunkTags(m, imports[..i]) == Ok(chunks)
      invariant acc == tags + RenderTags(chunks, v)
    {
      var importFilename := imports[i];
      CollectPrefixStep(ImportStep(m), imports, i);
      var found := Lookup(m, importFilename);
      if found.None? {
        CollectErrPersists(ImportStep(m), imports, i + 1);
        return Err(MissingImport(importFilename));
      }
      var chunk := found.value;
      acc := PushChunk(acc, chunk, v);
      RenderTagsConcat(chunks, ChunkOf(chunk), v);
      ghost var done, more := RenderTags(chunks, v), RenderTags(ChunkOf(chunk), v);
      AppendAssoc(tags, done, more);
      chunks := chunks + ChunkOf(chunk);
      i := i + 1;
    }
    assert imports[..i] == imports;
    r := Ok(acc);
  }

  /** The tag list `closeBundle` builds for one entry (`tagsForEntry`). */
  method BuildEntryTags(m: Manifest, key: string, e: Entry, v: bool)
    returns (r: Result<seq<string>, CompileError>)
    ensures r.Ok? <==> EntryTags(m, key, e).Ok?
    ensures r.Ok? ==> r.value == RenderTags(EntryTags(m, key, e).value, v)
    ensures r.Err? ==> r.error == EntryTags(m, key, e).error
  {
    if CssExtensions.IsCssKey(key) {
      return Ok([StylesheetTag(e.file, v)]);
    }
    var tagsForEntry := PushImports([ScriptTag(e.file, v)], m, e.imports, v);
    if tagsForEntry.Err? {
      return tagsForEntry;
    }
    var all := PushStylesheets(tagsForEntry.value, e.css, v);
    ghost var head := [Script(e.file)];
    ghost var chunks := ChunkTags(m, e.imports).value;
    ScriptEntryTags(m, key, e);
    RenderTagsSingle(Script(e.file), v);
    RenderTagsConcat(head, chunks, v);
    RenderTagsConcat(head + chunks, Stylesheets(e.css), v);
    r := Ok(all);
  }

  lemma RenderRowsAppend(rows: seq<Row>, row: Row, v: bool)
    ensures RenderRows(rows + [row], v) ==
            RenderRows(rows, v) + [RenderRow(row, |rows| == 0 && !row.forced, v)]
  {
    var a := RenderRows(rows + [row], v);
    var b := RenderRows(rows, v) + [RenderRow(row, |rows| == 0 && !row.forced, v)];
    assert |a| == |b|;
    forall i | 0 <= i < |a|
      ensures a[i] == b[i]
    {
      if i < |rows| {
        assert (rows + [row])[i] == rows[i];
      }
    }
  }

  lemma JoinSingle(x: string, sep: string)
    ensures Join([x], sep) == x
  {
  }

  /** The `isEntry === true` branch of the `forEach` callback. */
  method PushEntryRow(assetTags: seq<string>, ghost rows: seq<Row>, m: Manifest, s: BuildSettings,
                      relative: (string, string) -> string, key: string, e: Entry)
    returns (r: Result<seq<string>, CompileError>)
    requires assetTags == RenderRows(rows, s.versionNumbers)
    ensures r.Ok? <==> EntryRows(m, s, relative, key, e).Ok?
    ensures r.Ok? ==> r.value == RenderRows(rows + EntryRows(m, s, relative, key, e).value, s.versionNumbers)
    ensures r.Err? ==> r.error == EntryRows(m, s, relative, key, e).error
  {
    if !e.isEntry {
      assert rows + [] == rows;
      return Ok(assetTags);
    }
    var v := s.versionNumbers;
    var tagsForEntry := BuildEntryTags(m, key, e, v);
    if tagsForEntry.Err? {
      return Err(tagsForEntry.error);
    }
    var entryName := relative(s.entrypointsDir, key);
    var entryPaths := ["/" + key, entryName];
    RenderRowsAppend(rows, Row(entryPaths, EntryTags(m, key, e).value, false), v);
    r := Ok(assetTags + [ViteEntryTag(entryPaths, Join(tagsForEntry.value, "\n  "), |assetTags| == 0)]);
  }

  /** The `style.css` branch of the `forEach` callback. */
  method PushStyleRow(assetTags: seq<string>, ghost rows: seq<Row>, s: BuildSettings, key: string, e: Entry)
    returns (r: seq<string>)
    requires assetTags == RenderRows(rows, s.versionNumbers)
    ensures r == RenderRows(rows + StyleRows(s, key, e), s.versionNumbers)
  {
    r := assetTags;
    if key == "style.css" && !s.cssCodeSplit {
      var v := s.versionNumbers;
      RenderTagsSingle(Stylesheet(e.file), v);
      JoinSingle(StylesheetTag(e.file, v), "\n  ");
      RenderRowsAppend(rows, Row([key], [Stylesheet(e.file)], true), v);
      r := r + [ViteEntryTag([key], StylesheetTag(e.file, v), false)];
    } else {
      assert rows + [] == rows;
    }
  }

  /** The `Object.keys(manifest).forEach` callback for one key. */
  method PushKeyRows(assetTags: seq<string>, ghost rows: seq<Row>, m: Manifest, s: BuildSettings,
                     relative: (string, string) -> string, key: string, e: Entry)
    returns (r: Result<seq<string>, CompileError>)
    requires assetTags == RenderRows(rows, s.versionNumbers)
    ensures r.Ok? <==> KeyRows(m, s, relative, key, e).Ok?
    ensures r.Ok? ==> r.value == RenderRows(rows + KeyRows(m, s, relative, key, e).value, s.versionNumbers)
    ensures r.Err? ==> r.error == KeyRows(m, s, relative, key, e).error
  {
    var withEntry := PushEntryRow(assetTags, rows, m, s, relative, key, e);
    if withEntry.Err? {
      return withEntry;
    }
    ghost var entryRows := EntryRows(m, s, relative, key, e).value;
    var withStyle := PushStyleRow(withEntry.value, rows + entryRows, s, key, e);
    assert rows + entryRows + StyleRows(s, key, e) == rows + (entryRows + StyleRows(s, key, e));
    r := Ok(withStyle);
  }

  /** The manifest walk and the final join of `closeBundle`: the snippet text,
      or the error of the first key whose imports cannot be resolved. */
  method CompileManifest(m: Manifest, s: BuildSettings, relative: (string, string) -> string, prefix: string)
    returns (r: Result<string, CompileError>)
    ensures r == CompileSnippet(m, s, relative, prefix)
  {
    var assetTags: seq<string> := [];
    ghost var rows: seq<Row> := [];
    var i := 0;
    while i < |m|
      invariant 0 <= i <= |m|
      invariant Rows(m, s, relative, m[..i]) == Ok(rows)
      invariant assetTags == RenderRows(rows, s.versionNumbers)
    {
      var (key, e) := m[i];
      assert m[..i + 1][..i] == m[..i];
      var next := PushKeyRows(assetTags, rows, m, s, relative, key, e);
      if next.Err? {
        CollectErrPersists(KeyStep(m, s, relative), m, i + 1);
        return Err(next.error);
      }
      assetTags := next.value;
      rows := rows + KeyRows(m, s, relative, key, e).value;
      i := i + 1;
    }
    assert m[..i] == m;
    r := Ok(prefix + Join(assetTags, "\n") + "\n{% endif %}\n");
  }

  // ---------------------------------------------------------------------
  //  Properties of the compiled snippet
  // ---------------------------------------------------------------------

  /** All imports have a manifest record. */
  predicate AllPresent(m: Manifest, imports: seq<string>) {
    forall i :: 0 <= i < |imports| ==> HasKey(m, imports[i])
  }

  /** Compilation of an import list fails exactly when some import has no record. */
  lemma ChunkTagsOkIff(m: Manifest, imports: seq<string>)
    ensures ChunkTags(m, imports).Ok? <==> AllPresent(m, imports)
  {
    CollectOkIff(ImportStep(m), imports);
  }

  /** The error names the first import without a record. */
  lemma ChunkTagsFirstMissing(m: Manifest, imports: seq<string>, j: nat)
    requires j < |imports| && !HasKey(m, imports[j]) && AllPresent(m, imports[..j])
    ensures ChunkTags(m, imports) == Err(MissingImport(imports[j]))
  {
    assert forall i :: 0 <= i < j ==> imports[..j][i] == imports[i];
    CollectFirstErr(ImportStep(m), imports, j);
  }

  /** The total number of stylesheets of the imported chunks. */
  function ChunkCssCount(m: Manifest, imports: seq<string>): nat {
    if |imports| == 0 then 0
    else
      ChunkCssCount(m, imports[..|imports| - 1]) +
      (match Lookup(m, imports[|imports| - 1]) case Some(c) => |c.css| case None => 0)
  }

  lemma {:induction false} ChunkTagsLength(m: Manifest, imports: seq<string>)
    requires ChunkTags(m, imports).Ok?
    ensures |ChunkTags(m, imports).value| == |imports| + ChunkCssCount(m, imports)
    decreases |imports|
  {
    if |imports| > 0 {
      ChunkTagsLength(m, imports[..|imports| - 1]);
    }
  }

  /** A script entry gets one script tag, one preload per import, the chunks'
      stylesheets and its own: 1 + |imports| + the chunks' css + |css| tags. */
  lemma EntryTagsLength(m: Manifest, key: string, e: Entry)
    requires !CssExtensions.IsCssKey(key) && EntryTags(m, key, e).Ok?
    ensures |EntryTags(m, key, e).value| == 1 + |e.imports| + ChunkCssCount(m, e.imports) + |e.css|
  {
    ChunkTagsLength(m, e.imports);
  }

  /** The files of the preload tags, in order. */
  function Preloads(ts: seq<Tag>): seq<string> {
    if |ts| == 0 then []
    else Preloads(ts[..|ts| - 1]) + (if ts[|ts| - 1].Preload? then [ts[|ts| - 1].file] else [])
  }

  lemma {:induction false} PreloadsConcat(a: seq<Tag>, b: seq<Tag>)
    ensures Preloads(a + b) == Preloads(a) + Preloads(b)
    decreases |b|
  {
    if |b| == 0 {
      assert a + b == a;
    } else {
      assert (a + b)[..|a + b| - 1] == a + b[..|b| - 1];
      PreloadsConcat(a, b[..|b| - 1]);
    }
  }

  lemma {:induction false} NoPreloadedStylesheets(files: seq<string>)
    ensures Preloads(Stylesheets(files)) == []
    decreases |files|
  {
    if |files| > 0 {
      assert Stylesheets(files)[..|files| - 1] == Stylesheets(files[..|files| - 1]);
      NoPreloadedStylesheets(files[..|files| - 1]);
    }
  }

  /** The output files of the imported chunks, in import order. */
  function ChunkFiles(m: Manifest, imports: seq<string>): seq<string> {
    if |imports| == 0 then []
    else
      ChunkFiles(m, imports[..|imports| - 1]) +
      (match Lookup(m, imports[|imports| - 1]) case Some(c) => [c.file] case None => [])
  }

  lemma {:induction false} ChunkTagsPreloads(m: Manifest, imports: seq<string>)
    requires ChunkTags(m, imports).Ok?
    ensures Preloads(ChunkTags(m, imports).value) == ChunkFiles(m, imports)
    decreases |imports|
  {
    if |imports| > 0 {
      var init := imports[..|imports| - 1];
      ChunkTagsPreloads(m, init);
      var chunk := Lookup(m, imports[|imports| - 1]).value;
      PreloadsConcat(ChunkTags(m, init).value, ChunkOf(chunk));
      PreloadsConcat([Preload(chunk.file)], Stylesheets(chunk.css));
      NoPreloadedStylesheets(chunk.css);
      assert [Preload(chunk.file)][..0] == [];
    }
  }

  /** A script entry preloads exactly its imported chunks, once each, in
      import order. */
  lemma EntryPreloads(m: Manifest, key: string, e: Entry)
    requires !CssExtensions.IsCssKey(key) && EntryTags(m, key, e).Ok?
    ensures Preloads(EntryTags(m, key, e).value) == ChunkFiles(m, e.imports)
  {
    var chunks := ChunkTags(m, e.imports).value;
    ChunkTagsPreloads(m, e.imports);
    PreloadsConcat([Script(e.file)], chunks);
    PreloadsConcat([Script(e.file)] + chunks, Stylesheets(e.css));
    NoPreloadedStylesheets(e.css);
    assert [Script(e.file)][..0] == [];
  }

  /** The number of keys marked as entries. */
  function EntryCount(walked: Manifest): nat {
    if |walked| == 0 then 0
    else EntryCount(walked[..|walked| - 1]) + (if walked[|walked| - 1].1.isEntry then 1 else 0)
  }

  /** The number of `style.css` keys that get the extra row. */
  function StyleCount(s: BuildSettings, walked: Manifest): nat {
    if |walked| == 0 then 0
    else StyleCount(s, walked[..|walked| - 1]) +
         (if walked[|walked| - 1].0 == "style.css" && !s.cssCodeSplit then 1 else 0)
  }

  /** One row per entry key, plus one per `style.css` key when stylesheets
      are not code-split. */
  lemma {:induction false} RowsLength(m: Manifest, s: BuildSettings, relative: (string, string) -> string,
                                      walked: Manifest)
    requires Rows(m, s, relative, walked).Ok?
    ensures |Rows(m, s, relative, walked).value| == EntryCount(walked) + StyleCount(s, walked)
    decreases |walked|
  {
    if |walked| > 0 {
      RowsLength(m, s, relative, walked[..|walked| - 1]);
    }
  }

  /** Every entry key's tags can be compiled. */
  predicate EntriesCompile(m: Manifest, walked: Manifest) {
    forall i :: 0 <= i < |walked| && walked[i].1.isEntry ==> EntryTags(m, walked[i].0, walked[i].1).Ok?
  }

  /** The walk fails exactly when some script entry key has an unresolvable
      import; the imports of a stylesheet entry are never looked up. */
  lemma RowsOkIff(m: Manifest, s: BuildSettings, relative: (string, string) -> string, walked: Manifest)
    ensures Rows(m, s, relative, walked).Ok? <==> EntriesCompile(m, walked)
    ensures Rows(m, s, relative, walked).Ok? <==>
      forall i :: 0 <= i < |walked| && walked[i].1.isEntry && !CssExtensions.IsCssKey(walked[i].0) ==>
        ChunkTags(m, walked[i].1.imports).Ok?
  {
    CollectOkIff(KeyStep(m, s, relative), walked);
  }

  /** Rows come out in key order: the rows of a split walk are the rows of
      its first part followed by the rows of its second part. */
  lemma RowsConcat(m: Manifest, s: BuildSettings, relative: (string, string) -> string, a: Manifest, b: Manifest)
    requires Rows(m, s, relative, a + b).Ok?
    ensures Rows(m, s, relative, a).Ok? && Rows(m, s, relative, b).Ok?
    ensures Rows(m, s, relative, a + b).value == Rows(m, s, relative, a).value + Rows(m, s, relative, b).value
  {
    CollectConcat(KeyStep(m, s, relative), a, b);
  }

  lemma {:induction false} JoinStartsWithFirst(xs: seq<string>, sep: string)
    requires |xs| > 0
    ensures StartsWith(Join(xs, sep), xs[0])
    decreases |xs|
  {
    if |xs| > 1 {
      var init := xs[..|xs| - 1];
      JoinStartsWithFirst(init, sep);
      var j := Join(init, sep);
      assert (j + sep + xs[|xs| - 1])[..|xs[0]|] == j[..|xs[0]|];
    }
  }

  lemma SnippetStartsWith(prefix: string, rendered: seq<string>, head: string)
    requires |rendered| > 0 && StartsWith(rendered[0], head)
    ensures StartsWith(Snippet(prefix, rendered), prefix + head)
  {
    var body := Join(rendered, "\n");
    JoinStartsWithFirst(rendered, "\n");
    assert StartsWith(body, head);
    var r := prefix + body + EndIf;
    assert r[..|prefix| + |head|] == prefix + head by {
      assert r[..|prefix|] == prefix;
      assert r[|prefix|..|prefix| + |head|] == body[..|head|];
    }
  }

  lemma IfOrElsif(r: string, prefix: string)
    ensures !(StartsWith(r, prefix + "{% if ") && StartsWith(r, prefix + "{% elsif "))
  {
    assert (prefix + "{% if ")[|prefix| + 3] == 'i';
    assert (prefix + "{% elsif ")[|prefix| + 3] == 'e';
  }

  /** The compiled snippet opens with `if` exactly when its first row is an
      entry row, and with `elsif` exactly when it is the extra `style.css` row. */
  lemma SnippetOpening(m: Manifest, s: BuildSettings, relative: (string, string) -> string, prefix: string)
    requires CompileSnippet(m, s, relative, prefix).Ok?
    requires |Rows(m, s, relative, m).value| > 0
    ensures StartsWith(CompileSnippet(m, s, relative, prefix).value, prefix + "{% if ") <==>
            !Rows(m, s, relative, m).value[0].forced
    ensures StartsWith(CompileSnippet(m, s, relative, prefix).value, prefix + "{% elsif ") <==>
            Rows(m, s, relative, m).value[0].forced
  {
    var rows := Rows(m, s, relative, m).value;
    var rendered := RenderRows(rows, s.versionNumbers);
    var r := CompileSnippet(m, s, relative, prefix).value;
    assert r == Snippet(prefix, rendered);
    if rows[0].forced {
      SnippetStartsWith(prefix, rendered, "{% elsif ");
    } else {
      SnippetStartsWith(prefix, rendered, "{% if ");
    }
    IfOrElsif(r, prefix);
  }

  /** A manifest whose first key is a non-entry `style.css`, with stylesheets
      not code-split, compiles to a chain that opens with `elsif`. */
  lemma StyleFirstOpensWithElsif(m: Manifest, s: BuildSettings, relative: (string, string) -> string,
                                 prefix: string)
    requires |m| > 0 && m[0].0 == "style.css" && !m[0].1.isEntry && !s.cssCodeSplit
    requires CompileSnippet(m, s, relative, prefix).Ok?
    ensures StartsWith(CompileSnippet(m, s, relative, prefix).value, prefix + "{% elsif ")
  {
    var f := KeyStep(m, s, relative);
    assert m[..1] + m[1..] == m;
    RowsConcat(m, s, relative, m[..1], m[1..]);
    assert m[..0] == [];
    CollectPrefixStep(f, m, 0);
    var (key, e) := m[0];
    var row := Row([key], [Stylesheet(e.file)], true);
    assert EntryRows(m, s, relative, key, e) == Ok([]);
    assert StyleRows(s, key, e) == [row];
    assert [] + [row] == [row];
    assert f(m[0]) == KeyRows(m, s, relative, key, e) == Ok([row]);
    SnippetOpening(m, s, relative, prefix);
  }
}
