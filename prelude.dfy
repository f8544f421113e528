/** The text shared by the development and the production snippet
    (src/html.ts): the disclaimer comment, then `viteTagEntryPath`, which turns
    the request path into the entry name Liquid compares against and defaults
    `script_defer`. Also the snippet's own name, derived from its file name,
    and the development snippet `viteTagSnippetDev`.

    Some literals are written as two concatenated pieces, split just after
    their first characters, so that the verifier can tell them apart without
    unfolding each whole literal; the text is the same as the unsplit one. */
module SnippetPrelude {
  import opened Text
  import Paths

  /** An alias's `find`: a plain string, or a regular expression (kept as its
      source text; it is never matched here). */
  datatype Find = FindString(s: string) | FindPattern(source: string)

  /** One entry of the resolved `resolve.alias` array. */
  datatype Alias = Alias(find: Find, replacement: string)

  // ---------------------------------------------------------------------
  //  Snippet name
  // ---------------------------------------------------------------------

  /** `snippetFile.replace(/\.[^.]+$/, '')`: the last dot and the non-empty,
      dot-free rest after it are removed; a name without a dot, or ending in a
      dot, is kept. */
  function SnippetName(file: string): (r: string)
    ensures |r| <= |file| && r == file[..|r|]
  {
    var k := LastIndex(file, '.');
    if 0 <= k < |file| - 1 then file[..k] else file
  }

  /** The extension is what is stripped. */
  lemma SnippetNameOf(base: string, ext: string)
    requires |ext| > 0 && NoChar(ext, '.')
    ensures SnippetName(base + "." + ext) == base
  {
    LastIndexBefore(base, '.', ext);
    assert (base + "." + ext)[..|base|] == base;
  }

  /** The name is the file itself exactly when there is nothing to strip. */
  lemma SnippetNameUnchanged(file: string)
    ensures SnippetName(file) == file <==> NoChar(file, '.') || file[|file| - 1] == '.'
  {
    var k := LastIndex(file, '.');
    if k == -1 {
      assert NoChar(file, '.');
    }
    if NoChar(file, '.') {
      assert k == -1;
    }
  }

  lemma DefaultSnippetName()
    ensures SnippetName("vite-tag.liquid") == "vite-tag"
  {
    SnippetNameOf("vite-tag", "liquid");
    assert "vite-tag" + "." + "liquid" == "vite-tag.liquid";
  }

  // ---------------------------------------------------------------------
  //  Alias replacements
  // ---------------------------------------------------------------------

  /** `[find, normalizePath(path.relative(entrypointsDir, replacement))]` for
      each alias whose `find` is a string, in alias order. */
  function Replacements(aliases: seq<Alias>, entrypointsDir: string,
                        relative: (string, string) -> string): seq<(string, string)>
  {
    if |aliases| == 0 then []
    else
      var last := aliases[|aliases| - 1];
      Replacements(aliases[..|aliases| - 1], entrypointsDir, relative) +
      (if last.find.FindString? then [(last.find.s, relative(entrypointsDir, last.replacement))] else [])
  }

  /** Replacements follow alias order: those of a split list are those of its
      first part, then those of its second part. */
  lemma {:induction false} ReplacementsConcat(a: seq<Alias>, b: seq<Alias>, dir: string,
                                               relative: (string, string) -> string)
    ensures Replacements(a + b, dir, relative) == Replacements(a, dir, relative) + Replacements(b, dir, relative)
    decreases |b|
  {
    if |b| == 0 {
      assert a + b == a;
    } else {
      assert (a + b)[..|a + b| - 1] == a + b[..|b| - 1];
      ReplacementsConcat(a, b[..|b| - 1], dir, relative);
    }
  }

  /** A string alias contributes its find and its relative target. */
  lemma StringAliasReplacement(f: string, target: string, dir: string, relative: (string, string) -> string)
    ensures Replacements([Alias(FindString(f), target)], dir, relative) == [(f, relative(dir, target))]
  {
    assert [Alias(FindString(f), target)][..0] == [];
  }

  /** Regular-expression aliases contribute nothing. */
  lemma {:induction false} PatternAliasesIgnored(aliases: seq<Alias>, dir: string,
                                                 relative: (string, string) -> string)
    requires forall i :: 0 <= i < |aliases| ==> aliases[i].find.FindPattern?
    ensures Replacements(aliases, dir, relative) == []
    decreases |aliases|
  {
    if |aliases| > 0 {
      PatternAliasesIgnored(aliases[..|aliases| - 1], dir, relative);
    }
  }

  /** The `resolveAlias.forEach` loop of `viteTagEntryPath`. */
  method CollectReplacements(aliases: seq<Alias>, entrypointsDir: string,
                             relative: (string, string) -> string)
    returns (replacements: seq<(string, string)>)
    ensures replacements == Replacements(aliases, entrypointsDir, relative)
  {
    replacements := [];
    var i := 0;
    while i < |aliases|
      invariant 0 <= i <= |aliases|
      invariant replacements == Replacements(aliases[..i], entrypointsDir, relative)
    {
      assert aliases[..i + 1][..i] == aliases[..i];
      var alias := aliases[i];
      if alias.find.FindString? {
        replacements := replacements + [(alias.find.s, relative(entrypointsDir, alias.replacement))];
      }
      i := i + 1;
    }
    assert aliases[..i] == aliases;
  }

  // ---------------------------------------------------------------------
  //  The shared prefix
  // ---------------------------------------------------------------------

  /** `replace: '<from>/', '<to>/'` */
  function ReplaceFilter(r: (string, string)): string {
    "replace: '" + r.0 + "/', '" + r.1 + "/'"
  }

  function ReplaceFilters(rs: seq<(string, string)>): (r: seq<string>)
    ensures |r| == |rs|
    ensures forall i :: 0 <= i < |rs| ==> r[i] == ReplaceFilter(rs[i])
  {
    seq(|rs|, i requires 0 <= i < |rs| => ReplaceFilter(rs[i]))
  }

  const PathAssign := "{% assign path = "
  /** The second line of the prelude in src/html.ts. The bundled copy in
      dist/index.js adds `, allow_false: true`; this model follows the source. */
  const DeferLine := " %}\n{% assign script_defer = script_defer | default: true %}\n"

  /** `viteTagEntryPath(resolveAlias, entrypointsDir, snippetName)` */
  function EntryPath(aliases: seq<Alias>, entrypointsDir: string, snippetName: string,
                     relative: (string, string) -> string): (r: string)
    ensures StartsWith(r, PathAssign + snippetName + " | ")
    ensures EndsWith(r, DeferLine)
  {
    var filters := Join(ReplaceFilters(Replacements(aliases, entrypointsDir, relative)), " | ");
    var head := PathAssign + snippetName + " | ";
    var r := head + filters + DeferLine;
    assert r == head + (filters + DeferLine);
    assert r[..|head|] == head;
    assert r[|r| - |DeferLine|..] == DeferLine;
    r
  }

  /** Aliases whose `find` is a regular expression leave the prelude unchanged,
      wherever they stand. */
  lemma PatternAliasesLeavePrelude(a: seq<Alias>, patterns: seq<Alias>, b: seq<Alias>, dir: string,
                                   name: string, relative: (string, string) -> string)
    requires forall i :: 0 <= i < |patterns| ==> patterns[i].find.FindPattern?
    ensures EntryPath(a + patterns + b, dir, name, relative) == EntryPath(a + b, dir, name, relative)
  {
    ReplacementsConcat(a + patterns, b, dir, relative);
    ReplacementsConcat(a, patterns, dir, relative);
    ReplacementsConcat(a, b, dir, relative);
    PatternAliasesIgnored(patterns, dir, relative);
    assert Replacements(a, dir, relative) + [] == Replacements(a, dir, relative);
  }

  /** The two default aliases of the configuration, `~` and `@`, both to the
      source directory, give two filters in that order. */
  lemma DefaultAliasesPrelude(target: string, dir: string, name: string, relative: (string, string) -> string)
    ensures
      var t := relative(dir, target);
      EntryPath([Alias(FindString("~"), target), Alias(FindString("@"), target)], dir, name, relative) ==
      PathAssign + name + " | " + ("replace: '~/', '" + t + "/'" + " | " + "replace: '@/', '" + t + "/'") + DeferLine
  {
    var t := relative(dir, target);
    var aliases := [Alias(FindString("~"), target), Alias(FindString("@"), target)];
    assert aliases == [aliases[0]] + [aliases[1]];
    ReplacementsConcat([aliases[0]], [aliases[1]], dir, relative);
    StringAliasReplacement("~", target, dir, relative);
    StringAliasReplacement("@", target, dir, relative);
    var rs := [("~", t), ("@", t)];
    assert Replacements(aliases, dir, relative) == rs;
    var fs := ReplaceFilters(rs);
    assert fs == [ReplaceFilter(rs[0])] + [ReplaceFilter(rs[1])];
    JoinAppend([ReplaceFilter(rs[0])], ReplaceFilter(rs[1]), " | ");
  }

  const Disclaimer :=
    "{% comment %}\n" +
    "  IMPORTANT: This snippet is automatically generated by vite-plugin-shopify.\n" +
    "  Do not attempt to modify this file directly, as any changes will be overwritten by the next build.\n" +
    "{% endcomment %}\n"

  /** `viteTagSnippetPrefix(config)`: prepended to both snippets. */
  function SnippetPrefix(aliases: seq<Alias>, entrypointsDir: string, snippetName: string,
                         relative: (string, string) -> string): (r: string)
    ensures StartsWith(r, Disclaimer)
    ensures StartsWith(r[|Disclaimer|..], PathAssign + snippetName + " | ")
  {
    var p := EntryPath(aliases, entrypointsDir, snippetName, relative);
    assert (Disclaimer + p)[..|Disclaimer|] == Disclaimer;
    assert (Disclaimer + p)[|Disclaimer|..] == p;
    Disclaimer + p
  }

  // ---------------------------------------------------------------------
  //  The development snippet
  // ---------------------------------------------------------------------

  /** The Liquid block that turns `path` into `file_url` and decides `is_css`.
      Files are fetched from `assetHost` for a path starting with `/`, from
      `assetHost/entrypointsDir/` otherwise. */
  function DevLiquidBlock(assetHost: string, entrypointsDir: string): string {
    "{%" + " liquid\n" +
    "  assign path_prefix = path | slice: 0\n" +
    "  if path_prefix == '/'\n" +
    "    assign file_url_prefix = '" + assetHost + "'\n" +
    "  else\n" +
    "    assign file_url_prefix = '" + assetHost + "/" + entrypointsDir + "/'\n" +
    "  endif\n" +
    "  assign file_url = path | prepend: file_url_prefix\n" +
    "  assign file_name = path | split: '/' | last\n" +
    "  if file_name contains '.'\n" +
    "    assign file_extension = file_name | split: '.' | last\n" +
    "  endif\n" +
    "  assign css_extensions = '" + "css|less|sass|scss|styl|stylus|pcss|postcss" + "' | split: '|'\n" +
    "  assign is_css = false\n" +
    "  if css_extensions contains file_extension\n" +
    "    assign is_css = true\n" +
    "  endif\n" +
    "%}"
  }

  /** The react-refresh preamble, present only when a React plugin is. */
  function ReactRefreshLine(assetHost: string): string {
    "\n<script src=\"" + assetHost + "/@id/__x00__vite-plugin-shopify:react-refresh\" type=\"module\"></script>"
  }

  /** The client script and the `is_css` switch. */
  function DevTail(assetHost: string): string {
    "\n<script src=\"" + assetHost + "/@vite/client\" type=\"module\"></script>\n" +
    "{% if is_css == true %}\n" +
    "  <link rel=\"stylesheet\" href=\"{{ file_url }}\" crossorigin=\"anonymous\">\n" +
    "{% else %}\n" +
    "  <script src=\"{{ file_url }}\" type=\"module\"></script>\n" +
    "{% endif %}\n"
  }

  /** `viteTagSnippetDev(assetHost, entrypointsDir, reactPlugin)` */
  function DevSnippet(assetHost: string, entrypointsDir: string, hasReactPlugin: bool): string {
    DevLiquidBlock(assetHost, entrypointsDir) +
    (if hasReactPlugin then ReactRefreshLine(assetHost) else "") +
    DevTail(assetHost)
  }

  /** With and without a React plugin the development snippets share their
      Liquid block and their tail; the React one has the refresh preamble
      between them and nothing else. */
  lemma ReactPreambleOnly(assetHost: string, entrypointsDir: string)
    ensures
      var block := DevLiquidBlock(assetHost, entrypointsDir);
      var with := DevSnippet(assetHost, entrypointsDir, true);
      var without := DevSnippet(assetHost, entrypointsDir, false);
      StartsWith(with, block) && StartsWith(without, block) &&
      with[|block|..] == ReactRefreshLine(assetHost) + without[|block|..]
  {
    var block := DevLiquidBlock(assetHost, entrypointsDir);
    var line := ReactRefreshLine(assetHost);
    var tail := DevTail(assetHost);
    DevSnippetParts(assetHost, entrypointsDir, true);
    DevSnippetParts(assetHost, entrypointsDir, false);
    InsertedAfter(block, line, tail);
  }

  lemma DevSnippetParts(assetHost: string, entrypointsDir: string, hasReactPlugin: bool)
    ensures DevSnippet(assetHost, entrypointsDir, hasReactPlugin) ==
            DevLiquidBlock(assetHost, entrypointsDir) +
            (if hasReactPlugin then ReactRefreshLine(assetHost) else "") + DevTail(assetHost)
  {
  }

  /** Inserting `line` between `block` and `tail` leaves `block` in front. */
  lemma InsertedAfter(block: string, line: string, tail: string)
    ensures StartsWith(block + line + tail, block) && StartsWith(block + "" + tail, block)
    ensures (block + line + tail)[|block|..] == line + (block + "" + tail)[|block|..]
  {
    assert block + "" + tail == block + tail;
    AppendAssoc(block, line, tail);
    assert (block + (line + tail))[..|block|] == block;
    assert (block + (line + tail))[|block|..] == line + tail;
    assert (block + tail)[..|block|] == block;
    assert (block + tail)[|block|..] == tail;
  }
}
