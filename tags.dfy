/** The Liquid tag formatters of src/html.ts: the asset URL expression, the
    three asset tags and the `if`/`elsif` row of the dispatch chain. A tag is
    described by a `Tag` value and rendered to text; `DecodeTag` reads the
    description back, which shows that the rendering loses nothing.

    Several literals are written as two concatenated pieces, split just after
    the characters that tell them apart from one another. This keeps the
    verifier from unfolding a whole literal, character by character, whenever
    it compares two of them; the text is the same as the unsplit literal. */
module Tags {
  import opened Wrappers
  import opened Text

  /** The closing quote and the asset URL filter. */
  const AssetUrlFilter := "' | asset_url"

  /** The filter chain that drops the `?v=...` query the asset URL filter
      appends. */
  const QueryStrip := " | sp" + "lit: '?' | first"

  /** `assetUrl(fileName, versionNumbers)`: a Liquid expression quoting the file
      name, piped through `asset_url`, and through the query strip unless
      version numbers are wanted. */
  function AssetUrl(fileName: string, versionNumbers: bool): (r: string)
    ensures StartsWith(r, "'" + fileName + AssetUrlFilter)
    ensures StartsWith(r, "'" + fileName + AssetUrlFilter + QueryStrip) <==> !versionNumbers
  {
    if !versionNumbers then "'" + fileName + AssetUrlFilter + QueryStrip
    else "'" + fileName + AssetUrlFilter
  }

  const ScriptHead := "{%" + " if script_defer == false %}\n<script src=\"{{ "
  const ScriptMiddle := " }}" + "\" type=\"module\" crossorigin=\"anonymous\"></script>\n{% else %}\n<script src=\"{{ "
  const ScriptEnd := " }}\" type=\"module\" crossorigin=\"anonymous\" defer></script>\n{% endif %}"
  const PreloadHead := "<" + "link rel=\"modulepreload\" href=\"{{ "
  const PreloadEnd := " }}" + "\" crossorigin=\"anonymous\">"
  const StylesheetHead := "{{" + " "
  const StylesheetEnd := " | st" + "ylesheet_tag: preload: preload_stylesheet }}"

  /** `scriptTag(fileName, versionNumbers)`: both the plain and the deferred
      module script, chosen by Liquid at render time from `script_defer`. The
      template literal's surrounding newlines are removed by `trim()`. */
  function ScriptTag(fileName: string, versionNumbers: bool): string
  {
    var url := AssetUrl(fileName, versionNumbers);
    ScriptHead + url + ScriptMiddle + url + ScriptEnd
  }

  /** `preloadScriptTag(fileName, versionNumbers)` */
  function PreloadScriptTag(fileName: string, versionNumbers: bool): string
  {
    PreloadHead + AssetUrl(fileName, versionNumbers) + PreloadEnd
  }

  /** `stylesheetTag(fileName, versionNumbers)` */
  function StylesheetTag(fileName: string, versionNumbers: bool): string
  {
    StylesheetHead + AssetUrl(fileName, versionNumbers) + StylesheetEnd
  }

  /** What the manifest compiler asks for, before it is rendered. */
  datatype Tag = Script(file: string) | Preload(file: string) | Stylesheet(file: string)

  function RenderTag(t: Tag, versionNumbers: bool): string
  {
    match t
    case Script(f) => ScriptTag(f, versionNumbers)
    case Preload(f) => PreloadScriptTag(f, versionNumbers)
    case Stylesheet(f) => StylesheetTag(f, versionNumbers)
  }

  /** The tags rendered one by one, in order. */
  function RenderTags(ts: seq<Tag>, versionNumbers: bool): (r: seq<string>)
    ensures |r| == |ts|
  {
    if |ts| == 0 then []
    else RenderTags(ts[..|ts| - 1], versionNumbers) + [RenderTag(ts[|ts| - 1], versionNumbers)]
  }

  lemma {:induction false} RenderTagsAt(ts: seq<Tag>, v: bool, i: nat)
    requires i < |ts|
    ensures RenderTags(ts, v)[i] == RenderTag(ts[i], v)
    decreases |ts|
  {
    if i < |ts| - 1 {
      RenderTagsAt(ts[..|ts| - 1], v, i);
    }
  }

  lemma {:induction false} RenderTagsConcat(a: seq<Tag>, b: seq<Tag>, v: bool)
    ensures RenderTags(a + b, v) == RenderTags(a, v) + RenderTags(b, v)
    decreases |b|
  {
    if |b| > 0 {
      assert (a + b)[..|a + b| - 1] == a + b[..|b| - 1];
      RenderTagsConcat(a, b[..|b| - 1], v);
    } else {
      assert a + b == a;
    }
  }

  /** The longest prefix of `s` without a single quote. */
  function UpToQuote(s: string): (r: string)
    ensures |r| <= |s| && r == s[..|r|] && NoChar(r, '\'')
    ensures |r| < |s| ==> s[|r|] == '\''
  {
    if |s| == 0 || s[0] == '\'' then "" else [s[0]] + UpToQuote(s[1..])
  }

  /** Reads `'<file>' | asset_url[ | split: ...]` back into the file name and the
      version flag. */
  function DecodeAssetUrl(u: string): Option<(string, bool)>
  {
    if |u| > 0 && u[0] == '\'' then
      var f := UpToQuote(u[1..]);
      Some((f, !StartsWith(u[1 + |f|..], AssetUrlFilter + QueryStrip)))
    else None
  }

  /** Reads a rendered tag back into its description and version flag. */
  function DecodeTag(s: string): Option<(Tag, bool)>
  {
    if StartsWith(s, ScriptHead) then
      match DecodeAssetUrl(s[|ScriptHead|..])
      case Some((f, v)) => Some((Script(f), v))
      case None => None
    else if StartsWith(s, PreloadHead) then
      match DecodeAssetUrl(s[|PreloadHead|..])
      case Some((f, v)) => Some((Preload(f), v))
      case None => None
    else if StartsWith(s, StylesheetHead) then
      match DecodeAssetUrl(s[|StylesheetHead|..])
      case Some((f, v)) => Some((Stylesheet(f), v))
      case None => None
    else None
  }

  lemma {:induction false} UpToQuoteOf(f: string, rest: string)
    requires NoChar(f, '\'') && |rest| > 0 && rest[0] == '\''
    ensures UpToQuote(f + rest) == f
  {
    if |f| > 0 {
      assert (f + rest)[1..] == f[1..] + rest;
      UpToQuoteOf(f[1..], rest);
    } else {
      assert f + rest == rest;
    }
  }

  lemma QuotedThenRest(f: string, rest: string)
    requires NoChar(f, '\'') && |rest| > 0 && rest[0] == '\''
    ensures DecodeAssetUrl("'" + f + rest) == Some((f, !StartsWith(rest, AssetUrlFilter + QueryStrip)))
  {
    var u := "'" + f + rest;
    assert u[1..] == f + rest;
    UpToQuoteOf(f, rest);
    assert u[1 + |f|..] == rest;
  }

  lemma PrefixCancel(a: string, b: string, c: string)
    ensures StartsWith(a + b, a + c) <==> StartsWith(b, c)
  {
    if StartsWith(a + b, a + c) {
      assert (a + b)[|a|..|a| + |c|] == b[..|c|];
      assert (a + c)[|a|..] == c;
    }
    if StartsWith(b, c) {
      assert (a + b)[..|a| + |c|] == a + b[..|c|];
    }
  }

  lemma {:induction false} DecodeAssetUrlOf(f: string, v: bool, tail: string)
    requires NoChar(f, '\'') && |tail| >= 5 && (tail[1] != '|' || tail[4] != 'p')
    ensures DecodeAssetUrl(AssetUrl(f, v) + tail) == Some((f, v))
  {
    var filter := if v then AssetUrlFilter else AssetUrlFilter + QueryStrip;
    var rest := filter + tail;
    assert AssetUrl(f, v) == "'" + f + filter;
    AppendAssoc("'" + f, filter, tail);
    QuotedThenRest(f, rest);
    if v {
      PrefixCancel(AssetUrlFilter, tail, QueryStrip);
      assert !StartsWith(tail, QueryStrip) by {
        assert QueryStrip[1] == '|' && QueryStrip[4] == 'p';
      }
    } else {
      AppendAssoc(AssetUrlFilter, QueryStrip, tail);
      PrefixCancel(AssetUrlFilter + QueryStrip, tail, []);
    }
  }

  lemma Assoc5(a: string, b: string, c: string, d: string, e: string)
    ensures a + b + c + d + e == a + (b + (c + d + e))
  {
    AppendAssoc(a + b, c + d, e);
    AppendAssoc(a, b, c + d + e);
    AppendAssoc(c, d, e);
  }

  lemma DecodeScriptTag(f: string, v: bool)
    requires NoChar(f, '\'')
    ensures DecodeTag(ScriptTag(f, v)) == Some((Script(f), v))
  {
    var url := AssetUrl(f, v);
    var tail := ScriptMiddle + url + ScriptEnd;
    Assoc5(ScriptHead, url, ScriptMiddle, url, ScriptEnd);
    StartsWithExtend(ScriptHead, url + tail, ScriptHead);
    DropPrefix(ScriptHead, url + tail);
    assert tail[1] == ScriptMiddle[1] == '}';
    DecodeAssetUrlOf(f, v, tail);
  }

  lemma DecodePreloadTag(f: string, v: bool)
    requires NoChar(f, '\'')
    ensures DecodeTag(PreloadScriptTag(f, v)) == Some((Preload(f), v))
  {
    var url := AssetUrl(f, v);
    var s := PreloadScriptTag(f, v);
    AppendAssoc(PreloadHead, url, PreloadEnd);
    assert !StartsWith(s, ScriptHead) by { assert s[0] == '<' && ScriptHead[0] == '{'; }
    StartsWithExtend(PreloadHead, url + PreloadEnd, PreloadHead);
    DropPrefix(PreloadHead, url + PreloadEnd);
    assert PreloadEnd[1] == '}';
    DecodeAssetUrlOf(f, v, PreloadEnd);
  }

  lemma DecodeStylesheetTag(f: string, v: bool)
    requires NoChar(f, '\'')
    ensures DecodeTag(StylesheetTag(f, v)) == Some((Stylesheet(f), v))
  {
    var url := AssetUrl(f, v);
    var s := StylesheetTag(f, v);
    AppendAssoc(StylesheetHead, url, StylesheetEnd);
    assert !StartsWith(s, ScriptHead) by { assert s[1] == '{' && ScriptHead[1] == '%'; }
    assert !StartsWith(s, PreloadHead) by { assert s[0] == '{' && PreloadHead[0] == '<'; }
    StartsWithExtend(StylesheetHead, url + StylesheetEnd, StylesheetHead);
    DropPrefix(StylesheetHead, url + StylesheetEnd);
    assert StylesheetEnd[4] == 't';
    DecodeAssetUrlOf(f, v, StylesheetEnd);
  }

  /** A tag whose file name holds no single quote is read back exactly. */
  lemma DecodeRenderTag(t: Tag, v: bool)
    requires NoChar(t.file, '\'')
    ensures DecodeTag(RenderTag(t, v)) == Some((t, v))
  {
    match t
    case Script(f) => DecodeScriptTag(f, v);
    case Preload(f) => DecodePreloadTag(f, v);
    case Stylesheet(f) => DecodeStylesheetTag(f, v);
  }

  /** Hence rendering is injective on quote-free file names. */
  lemma RenderTagInjective(t1: Tag, v1: bool, t2: Tag, v2: bool)
    requires NoChar(t1.file, '\'') && NoChar(t2.file, '\'')
    requires RenderTag(t1, v1) == RenderTag(t2, v2)
    ensures t1 == t2 && v1 == v2
  {
    DecodeRenderTag(t1, v1);
    DecodeRenderTag(t2, v2);
  }

  /** `path == "<p>"` */
  function PathTest(p: string): string {
    "path == \"" + p + "\""
  }

  /** The candidate paths, each tested, joined with ` or ` in the given order. */
  function PathCondition(paths: seq<string>): string {
    Join(seq(|paths|, i requires 0 <= i < |paths| => PathTest(paths[i])), " or ")
  }

  /** A single path is tested on its own. */
  lemma SinglePathCondition(p: string)
    ensures PathCondition([p]) == PathTest(p)
  {
    var tests := seq(1, i requires 0 <= i < 1 => PathTest([p][i]));
    assert tests == [PathTest(p)];
  }

  /** Each further path adds ` or ` and its test at the end, so the tests
      come in the order of the paths. */
  lemma PathConditionAppend(paths: seq<string>, p: string)
    requires |paths| > 0
    ensures PathCondition(paths + [p]) == PathCondition(paths) + " or " + PathTest(p)
  {
    var all := paths + [p];
    var tests := seq(|all|, i requires 0 <= i < |all| => PathTest(all[i]));
    var first := seq(|paths|, i requires 0 <= i < |paths| => PathTest(paths[i]));
    assert tests == first + [PathTest(p)];
    JoinAppend(first, PathTest(p), " or ");
  }

  lemma TwoPathCondition(a: string, b: string)
    ensures PathCondition([a, b]) == PathTest(a) + " or " + PathTest(b)
  {
    SinglePathCondition(a);
    assert [a, b] == [a] + [b];
    PathConditionAppend([a], b);
  }

  /** `viteEntryTag(entryPaths, tag, isFirstEntry)`: one row of the dispatch
      chain, selecting `tag` for the request paths in `paths`; only the first
      row opens with `if`, every other row is `elsif`. */
  function ViteEntryTag(paths: seq<string>, tag: string, isFirstEntry: bool): (r: string)
    ensures r == (if isFirstEntry then "{% if " else "{% elsif ") + PathCondition(paths) + " %}\n  " + tag
    ensures StartsWith(r, "{% if ") <==> isFirstEntry
    ensures StartsWith(r, "{% elsif ") <==> !isFirstEntry
    ensures EndsWith(r, " %}\n  " + tag)
  {
    var opening := "{% " + (if !isFirstEntry then "els" else "") + "if ";
    assert opening == (if isFirstEntry then "{% if " else "{% elsif ");
    var head := opening + PathCondition(paths);
    var tail := " %}\n  " + tag;
    AppendAssoc(head, " %}\n  ", tag);
    DropPrefix(head, tail);
    var r := head + tail;
    assert r[3] == (if isFirstEntry then 'i' else 'e');
    r
  }
}
