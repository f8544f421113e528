/** JavaScript objects with string values, as far as the configuration hook
    spreads them: an ordered list of properties. Reading a key finds its last
    property, as in an object literal; setting a key replaces that property in
    place, or appends a new one. */
module JsObject {
  import opened Wrappers

  /** Properties in insertion order. */
  type Object = seq<(string, string)>

  function Keys(o: Object): (r: seq<string>)
    ensures |r| == |o| && forall i :: 0 <= i < |o| ==> r[i] == o[i].0
  {
    if |o| == 0 then [] else Keys(o[..|o| - 1]) + [o[|o| - 1].0]
  }

  /** `o[k]`: the value of the last property named `k`. */
  function Get(o: Object, k: string): (r: Option<string>)
    ensures r.Some? <==> k in Keys(o)
  {
    if |o| == 0 then None
    else if o[|o| - 1].0 == k then Some(o[|o| - 1].1)
    else
      assert Keys(o) == Keys(o[..|o| - 1]) + [o[|o| - 1].0];
      Get(o[..|o| - 1], k)
  }

  /** `o[k] = v` */
  function Set(o: Object, k: string, v: string): Object {
    if k !in Keys(o) then o + [(k, v)]
    else if o[|o| - 1].0 == k then o[..|o| - 1] + [(k, v)]
    else
      assert Keys(o) == Keys(o[..|o| - 1]) + [o[|o| - 1].0];
      Set(o[..|o| - 1], k, v) + [o[|o| - 1]]
  }

  /** `{...a, ...b}`: the properties of `b` set one by one on a copy of `a`. */
  function Spread(a: Object, b: Object): Object {
    if |b| == 0 then a
    else Set(Spread(a, b[..|b| - 1]), b[|b| - 1].0, b[|b| - 1].1)
  }

  /** The keys of `ks` not in `seen`, each once, in the order `ks` first
      names them. */
  function FreshKeys(seen: seq<string>, ks: seq<string>): (r: seq<string>)
    ensures forall k :: k in r <==> k in ks && k !in seen
    ensures Distinct(r)
  {
    if |ks| == 0 then []
    else
      var f := FreshKeys(seen, ks[..|ks| - 1]);
      var k := ks[|ks| - 1];
      assert forall j :: j in ks <==> j in ks[..|ks| - 1] || j == k;
      if k in seen || k in f then f else f + [k]
  }

  /** No key named twice: the shape of every object. */
  predicate Distinct(ks: seq<string>) {
    forall i, j :: 0 <= i < j < |ks| ==> ks[i] != ks[j]
  }

  lemma KeysAppend(o: Object, p: (string, string))
    ensures Keys(o + [p]) == Keys(o) + [p.0]
  {
    assert (o + [p])[..|o|] == o;
  }

  /** Setting a key keeps the key order, appending the key when it is new. */
  lemma {:induction false} SetKeys(o: Object, k: string, v: string)
    ensures Keys(Set(o, k, v)) == if k in Keys(o) then Keys(o) else Keys(o) + [k]
    decreases |o|
  {
    if k !in Keys(o) {
      KeysAppend(o, (k, v));
    } else {
      var init := o[..|o| - 1];
      var last := o[|o| - 1];
      assert o == init + [last];
      KeysAppend(init, last);
      if last.0 == k {
        KeysAppend(init, (k, v));
      } else {
        SetKeys(init, k, v);
        KeysAppend(Set(init, k, v), last);
      }
    }
  }

  lemma GetAppend(o: Object, p: (string, string), j: string)
    ensures Get(o + [p], j) == if p.0 == j then Some(p.1) else Get(o, j)
  {
    assert (o + [p])[..|o|] == o;
  }

  /** After setting `k` to `v`, `k` reads `v` and every other key reads as
      before. */
  lemma {:induction false} SetGet(o: Object, k: string, v: string, j: string)
    ensures Get(Set(o, k, v), j) == if j == k then Some(v) else Get(o, j)
    decreases |o|
  {
    if k !in Keys(o) {
      GetAppend(o, (k, v), j);
    } else {
      var init := o[..|o| - 1];
      var last := o[|o| - 1];
      assert o == init + [last];
      KeysAppend(init, last);
      GetAppend(init, last, j);
      if last.0 == k {
        assert Set(o, k, v) == init + [(k, v)];
        GetAppend(init, (k, v), j);
      } else {
        assert Set(o, k, v) == Set(init, k, v) + [last];
        SetGet(init, k, v, j);
        GetAppend(Set(init, k, v), last, j);
      }
    }
  }

  /** In a spread, a key of `b` reads its value in `b`; any other key reads
      its value in `a`. */
  lemma {:induction false} SpreadGet(a: Object, b: Object, k: string)
    ensures Get(Spread(a, b), k) == if k in Keys(b) then Get(b, k) else Get(a, k)
    decreases |b|
  {
    if |b| > 0 {
      var init := b[..|b| - 1];
      var last := b[|b| - 1];
      assert Keys(b) == Keys(init) + [last.0];
      SpreadGet(a, init, k);
      SetGet(Spread(a, init), last.0, last.1, k);
    }
  }

  /** A spread keeps the keys of `a` in their order, then adds the new keys
      of `b` in the order `b` first names them. */
  lemma {:induction false} SpreadKeys(a: Object, b: Object)
    ensures Keys(Spread(a, b)) == Keys(a) + FreshKeys(Keys(a), Keys(b))
    decreases |b|
  {
    if |b| > 0 {
      var init := b[..|b| - 1];
      var last := b[|b| - 1];
      assert Keys(b)[..|b| - 1] == Keys(init);
      SpreadKeys(a, init);
      SetKeys(Spread(a, init), last.0, last.1);
      var f := FreshKeys(Keys(a), Keys(init));
      assert last.0 in Keys(a) + f <==> last.0 in Keys(a) || last.0 in f;
      if last.0 !in Keys(a) + f {
        assert Keys(a) + f + [last.0] == Keys(a) + (f + [last.0]);
      }
    }
  }

  /** Spreading into an object whose keys are distinct gives distinct keys. */
  lemma {:induction false} SpreadDistinct(a: Object, b: Object)
    requires Distinct(Keys(a))
    ensures Distinct(Keys(Spread(a, b)))
    decreases |b|
  {
    if |b| > 0 {
      var init := b[..|b| - 1];
      var last := b[|b| - 1];
      SpreadDistinct(a, init);
      SetKeys(Spread(a, init), last.0, last.1);
    }
  }

  /** In an object with distinct keys, each property is what its key reads. */
  lemma {:induction false} GetAt(o: Object, i: nat)
    requires Distinct(Keys(o)) && i < |o|
    ensures Get(o, o[i].0) == Some(o[i].1)
    decreases |o|
  {
    if i < |o| - 1 {
      var init := o[..|o| - 1];
      assert Keys(init) == Keys(o)[..|o| - 1];
      assert init[i] == o[i];
      GetAt(init, i);
    }
  }

  /** Objects with the same distinct keys in the same order that read the
      same everywhere are the same. */
  lemma SameObject(a: Object, b: Object)
    requires Distinct(Keys(a)) && Keys(a) == Keys(b)
    requires forall k :: Get(a, k) == Get(b, k)
    ensures a == b
  {
    forall i | 0 <= i < |a|
      ensures a[i] == b[i]
    {
      GetAt(a, i);
      GetAt(b, i);
      assert Keys(a)[i] == a[i].0 && Keys(b)[i] == b[i].0;
    }
  }

  /** Keys all seen before are none of them fresh. */
  lemma {:induction false} FreshKeysOfSeen(seen: seq<string>, ks: seq<string>)
    requires forall k :: k in ks ==> k in seen
    ensures FreshKeys(seen, ks) == []
    decreases |ks|
  {
    if |ks| > 0 {
      var init := ks[..|ks| - 1];
      assert forall k :: k in init ==> k in ks;
      FreshKeysOfSeen(seen, init);
      assert ks[|ks| - 1] in ks;
    }
  }

  /** The keys after `seen` that are new and named once are all fresh. */
  lemma {:induction false} FreshKeysAfter(seen: seq<string>, f: seq<string>)
    requires Distinct(f) && forall k :: k in f ==> k !in seen
    ensures FreshKeys(seen, seen + f) == f
    decreases |f|
  {
    if |f| == 0 {
      assert seen + f == seen;
      FreshKeysOfSeen(seen, seen);
    } else {
      var init := f[..|f| - 1];
      assert (seen + f)[..|seen + f| - 1] == seen + init;
      FreshKeysAfter(seen, init);
      assert f[|f| - 1] !in init by {
        assert forall j :: 0 <= j < |init| ==> init[j] == f[j];
      }
      assert init + [f[|f| - 1]] == f;
    }
  }

  /** Spreading an object over defaults whose keys it already starts with
      gives that object back. */
  lemma SpreadAbsorbs(d: Object, r: Object, f: seq<string>)
    requires Distinct(Keys(r)) && Keys(r) == Keys(d) + f
    ensures Spread(d, r) == r
  {
    assert Distinct(f) && forall k :: k in f ==> k !in Keys(d) by {
      forall i, j | 0 <= i < j < |f|
        ensures f[i] != f[j]
      {
        assert f[i] == Keys(r)[|Keys(d)| + i] && f[j] == Keys(r)[|Keys(d)| + j];
      }
      forall k | k in f
        ensures k !in Keys(d)
      {
        var j :| 0 <= j < |f| && f[j] == k;
        assert k == Keys(r)[|Keys(d)| + j];
        assert forall i :: 0 <= i < |Keys(d)| ==> Keys(r)[i] == Keys(d)[i];
      }
    }
    SpreadKeys(d, r);
    FreshKeysAfter(Keys(d), f);
    forall k
      ensures Get(Spread(d, r), k) == Get(r, k)
    {
      SpreadGet(d, r, k);
      assert k in Keys(d) ==> k in Keys(r);
    }
    SameObject(Spread(d, r), r);
  }
}

/** `shopifyConfig(options).config(config)` of dist/index.js: the part of the
    Vite configuration the plugin contributes. Every setting the user gave is
    kept; the others get the plugin's defaults. */
module ShopifyConfig {
  import opened Wrappers
  import JsObject
  import PluginOptions
  import SnippetPrelude
  import DevServer

  /** `server.hmr` as given. An absent value is not an HMR setting. */
  datatype HmrFields = HmrFields(protocol: Option<string>, host: Option<string>, clientPort: Option<int>)
  datatype HmrInput = HmrFlag(on: bool) | HmrSettings(fields: HmrFields)
  /** `server.hmr` as generated: `false`, or an object. */
  datatype HmrOutput = HmrOff | HmrObject(fields: HmrFields)

  /** `server.host`: a name, or `true`/`false`. */
  datatype HostValue = HostName(name: string) | HostFlag(on: bool)

  /** `publicDir`: a directory, or `false`. */
  datatype PublicDir = PublicDirPath(path: string) | PublicDirOff

  /** `build.manifest`: a file name, or any other value (a flag). */
  datatype ManifestSetting = ManifestFile(name: string) | ManifestFlag(on: bool)

  /** `resolve.alias`: an array of aliases, or an object from find to
      replacement. */
  datatype AliasSetting = AliasArray(aliases: seq<SnippetPrelude.Alias>) | AliasObject(entries: JsObject.Object)

  /** The settings the hook reads from the user's configuration; `https` is
      kept as given and modelled by its truthiness. */
  datatype UserConfig = UserConfig(
    base: Option<string>,
    publicDir: Option<PublicDir>,
    outDir: Option<string>,
    assetsDir: Option<string>,
    input: Option<seq<string>>,
    manifest: Option<ManifestSetting>,
    alias: Option<AliasSetting>,
    host: Option<HostValue>,
    port: Option<int>,
    https: Option<bool>,
    origin: Option<string>,
    hmr: Option<HmrInput>)

  datatype GeneratedConfig = GeneratedConfig(
    base: string,
    publicDir: PublicDir,
    outDir: string,
    assetsDir: string,
    input: seq<string>,
    manifest: ManifestSetting,
    alias: AliasSetting,
    host: HostValue,
    https: Option<bool>,
    port: int,
    origin: string,
    hmr: HmrOutput)

  const DefaultPort := 5173
  const OriginPlaceholder := "__shopify_vite_placeholder__"

  /** The foreign calls of the hook: `path.join`, vite's `normalizePath`,
      `path.resolve` and `glob.sync(patterns, { onlyFiles: true })`. */
  datatype Foreign = Foreign(
    join: (string, string) -> string,
    normalize: string -> string,
    resolve: string -> string,
    glob: seq<string> -> seq<string>)

  /** `defaultAliases`: `~` and `@`, both to the resolved source directory. */
  function DefaultAliases(o: PluginOptions.Options, f: Foreign): JsObject.Object {
    var dir := f.resolve(o.sourceCodeDir);
    [("~", dir), ("@", dir)]
  }

  /** The same defaults as array entries, in key order. */
  function DefaultAliasArray(o: PluginOptions.Options, f: Foreign): seq<SnippetPrelude.Alias> {
    var dir := f.resolve(o.sourceCodeDir);
    [SnippetPrelude.Alias(SnippetPrelude.FindString("~"), dir),
     SnippetPrelude.Alias(SnippetPrelude.FindString("@"), dir)]
  }

  /** An array is extended with the defaults after it; anything else (an
      object, or nothing) is spread over the defaults. */
  function MergeAliases(user: Option<AliasSetting>, o: PluginOptions.Options, f: Foreign): AliasSetting {
    match user
    case Some(AliasArray(aliases)) => AliasArray(aliases + DefaultAliasArray(o, f))
    case Some(AliasObject(entries)) => AliasObject(JsObject.Spread(DefaultAliases(o, f), entries))
    case None => AliasObject(JsObject.Spread(DefaultAliases(o, f), []))
  }

  /** `hmr === false ? false : { ...(hmr === true ? {} : hmr) }`: spreading
      `true`'s replacement `{}` or an absent value gives an empty object. */
  function NormalizeHmr(hmr: Option<HmrInput>): HmrOutput {
    match hmr
    case Some(HmrFlag(false)) => HmrOff
    case Some(HmrFlag(true)) => HmrObject(HmrFields(None, None, None))
    case Some(HmrSettings(fields)) => HmrObject(fields)
    case None => HmrObject(HmrFields(None, None, None))
  }

  /** The entry points found by the glob: everything under the entry-point
      directory, then the additional patterns. */
  function DiscoveredInput(o: PluginOptions.Options, f: Foreign): seq<string> {
    f.glob([f.normalize(f.join(o.entrypointsDir, "**/*"))] + o.additionalEntrypoints)
  }

  /** `config(config)` */
  function Config(c: UserConfig, o: PluginOptions.Options, f: Foreign): (r: GeneratedConfig) {
    GeneratedConfig(
      c.base.GetOr("./"),
      c.publicDir.GetOr(PublicDirOff),
      c.outDir.GetOr(f.join(o.themeRoot, "assets")),
      c.assetsDir.GetOr(""),
      c.input.GetOr(DiscoveredInput(o, f)),
      if c.manifest.Some? && c.manifest.value.ManifestFile? then c.manifest.value else ManifestFlag(true),
      MergeAliases(c.alias, o, f),
      c.host.GetOr(HostName("localhost")),
      c.https,
      c.port.GetOr(DefaultPort),
      c.origin.GetOr(OriginPlaceholder),
      NormalizeHmr(c.hmr))
  }

  /** The generated configuration given back as the user's. */
  function AsUserConfig(g: GeneratedConfig): UserConfig {
    UserConfig(Some(g.base), Some(g.publicDir), Some(g.outDir), Some(g.assetsDir), Some(g.input),
               Some(g.manifest), Some(g.alias), Some(g.host), Some(g.port), g.https, Some(g.origin),
               Some(match g.hmr case HmrOff => HmrFlag(false) case HmrObject(fields) => HmrSettings(fields)))
  }

  /** With nothing configured: base `./`, no public directory, output to the
      theme's `assets` with no sub-directory, the discovered entry points, a
      manifest, the two default aliases, `localhost:5173`, the placeholder
      origin and an empty HMR object. */
  lemma Defaults(o: PluginOptions.Options, f: Foreign)
    ensures
      var g := Config(NoSettings(), o, f);
      g == GeneratedConfig("./", PublicDirOff, f.join(o.themeRoot, "assets"), "", DiscoveredInput(o, f),
                           ManifestFlag(true), AliasObject(DefaultAliases(o, f)), HostName("localhost"),
                           None, 5173, OriginPlaceholder, HmrObject(HmrFields(None, None, None)))
  {
  }

  /** Every setting the user gave, other than the manifest and the aliases,
      is kept as given. */
  lemma UserSettingsWin(c: UserConfig, o: PluginOptions.Options, f: Foreign)
    ensures
      var g := Config(c, o, f);
      (c.base.Some? ==> g.base == c.base.value) &&
      (c.publicDir.Some? ==> g.publicDir == c.publicDir.value) &&
      (c.outDir.Some? ==> g.outDir == c.outDir.value) &&
      (c.assetsDir.Some? ==> g.assetsDir == c.assetsDir.value) &&
      (c.input.Some? ==> g.input == c.input.value) &&
      (c.host.Some? ==> g.host == c.host.value) &&
      (c.port.Some? ==> g.port == c.port.value) &&
      g.https == c.https &&
      (c.origin.Some? ==> g.origin == c.origin.value)
  {
  }

  /** A manifest file name is kept; any other value, `false` and an absent
      one included, becomes `true`, the default manifest. */
  lemma ManifestRule(c: UserConfig, o: PluginOptions.Options, f: Foreign)
    ensures c.manifest.Some? && c.manifest.value.ManifestFile? ==> Config(c, o, f).manifest == c.manifest.value
    ensures !(c.manifest.Some? && c.manifest.value.ManifestFile?) ==> Config(c, o, f).manifest == ManifestFlag(true)
  {
  }

  /** `false` stays `false`; `true` and an absent value give an empty
      object; an object is copied field by field. */
  lemma HmrRule(c: UserConfig, o: PluginOptions.Options, f: Foreign)
    ensures Config(c, o, f).hmr.HmrOff? <==> c.hmr == Some(HmrFlag(false))
    ensures c.hmr.Some? && c.hmr.value.HmrSettings? ==> Config(c, o, f).hmr == HmrObject(c.hmr.value.fields)
    ensures c.hmr.None? || c.hmr == Some(HmrFlag(true)) ==>
              Config(c, o, f).hmr == HmrObject(HmrFields(None, None, None))
  {
  }

  /** Array form: the user's aliases first, unchanged and in order, then `~`
      and `@` to the resolved source directory. */
  lemma AliasArrayRule(aliases: seq<SnippetPrelude.Alias>, o: PluginOptions.Options, f: Foreign)
    ensures MergeAliases(Some(AliasArray(aliases)), o, f).AliasArray?
    ensures
      var r := MergeAliases(Some(AliasArray(aliases)), o, f).aliases;
      var dir := f.resolve(o.sourceCodeDir);
      |r| == |aliases| + 2 && r[..|aliases|] == aliases &&
      r[|aliases|] == SnippetPrelude.Alias(SnippetPrelude.FindString("~"), dir) &&
      r[|aliases| + 1] == SnippetPrelude.Alias(SnippetPrelude.FindString("@"), dir)
  {
  }

  /** Object form: `~` and `@` come first, the user's other keys follow in
      their order; a key the user sets reads the user's value, and `~` and
      `@` otherwise read the source directory. */
  lemma AliasObjectRule(entries: JsObject.Object, o: PluginOptions.Options, f: Foreign)
    ensures MergeAliases(Some(AliasObject(entries)), o, f).AliasObject?
    ensures
      var r := MergeAliases(Some(AliasObject(entries)), o, f).entries;
      var dir := f.resolve(o.sourceCodeDir);
      JsObject.Keys(r) == ["~", "@"] + JsObject.FreshKeys(["~", "@"], JsObject.Keys(entries)) &&
      JsObject.Distinct(JsObject.Keys(r)) &&
      (forall k :: k in JsObject.Keys(entries) ==> JsObject.Get(r, k) == JsObject.Get(entries, k)) &&
      ("~" !in JsObject.Keys(entries) ==> JsObject.Get(r, "~") == Some(dir)) &&
      ("@" !in JsObject.Keys(entries) ==> JsObject.Get(r, "@") == Some(dir))
  {
    var d := DefaultAliases(o, f);
    var r := JsObject.Spread(d, entries);
    assert JsObject.Keys(d) == ["~", "@"];
    JsObject.SpreadKeys(d, entries);
    JsObject.SpreadDistinct(d, entries);
    forall k | k in JsObject.Keys(entries)
      ensures JsObject.Get(r, k) == JsObject.Get(entries, k)
    {
      JsObject.SpreadGet(d, entries, k);
    }
    JsObject.SpreadGet(d, entries, "~");
    JsObject.SpreadGet(d, entries, "@");
  }

  /** Merging merged aliases again changes nothing, unless they are an
      array. */
  lemma MergeAliasesIdempotent(user: Option<AliasSetting>, o: PluginOptions.Options, f: Foreign)
    requires !(user.Some? && user.value.AliasArray?)
    ensures MergeAliases(Some(MergeAliases(user, o, f)), o, f) == MergeAliases(user, o, f)
  {
    var d := DefaultAliases(o, f);
    var e := if user.Some? then user.value.entries else [];
    assert JsObject.Keys(d) == ["~", "@"];
    var r := JsObject.Spread(d, e);
    assert MergeAliases(user, o, f) == AliasObject(r);
    JsObject.SpreadKeys(d, e);
    JsObject.SpreadDistinct(d, e);
    JsObject.SpreadAbsorbs(d, r, JsObject.FreshKeys(JsObject.Keys(d), JsObject.Keys(e)));
  }

  /** Applying the hook to its own result changes nothing, unless the
      aliases are an array, which grows by the defaults again. */
  lemma ConfigIdempotent(c: UserConfig, o: PluginOptions.Options, f: Foreign)
    requires !(c.alias.Some? && c.alias.value.AliasArray?)
    ensures Config(AsUserConfig(Config(c, o, f)), o, f) == Config(c, o, f)
  {
    MergeAliasesIdempotent(c.alias, o, f);
  }

  // ---------------------------------------------------------------------
  //  What the rest of the plugin reads from the configuration
  // ---------------------------------------------------------------------

  /** `server` as `resolveDevServerUrl` reads it; `https` is its truthiness. */
  function DevSettings(g: GeneratedConfig): DevServer.ServerSettings {
    DevServer.ServerSettings(
      match g.hmr
      case HmrOff => DevServer.HmrNotObject
      case HmrObject(h) => DevServer.HmrObject(h.protocol, h.host, h.clientPort),
      g.https == Some(true),
      match g.host
      case HostName(n) => DevServer.HostString(n)
      case HostFlag(_) => DevServer.HostNotString)
  }

  /** `resolve.alias` as the array Vite resolves it to, which the snippet
      prelude reads: an object's properties become string aliases in key
      order. */
  function AliasEntries(a: AliasSetting): (r: seq<SnippetPrelude.Alias>)
    ensures a.AliasObject? ==> |r| == |a.entries|
  {
    match a
    case AliasArray(aliases) => aliases
    case AliasObject(entries) =>
      seq(|entries|, i requires 0 <= i < |entries| =>
        SnippetPrelude.Alias(SnippetPrelude.FindString(entries[i].0), entries[i].1))
  }

  function NoSettings(): UserConfig {
    UserConfig(None, None, None, None, None, None, None, None, None, None, None, None)
  }

  /** Left at its defaults, the development server is reached at
      `http://localhost:<port of the socket>`, whatever address the socket is
      bound to. */
  lemma DefaultDevServerUrl(a: DevServer.AddressInfo, o: PluginOptions.Options, f: Foreign)
    ensures DevServer.ResolveDevServerUrl(a, DevSettings(Config(NoSettings(), o, f))) ==
            DevServer.DevUrl("http", "localhost", a.port)
  {
  }

  /** Left at its defaults, the snippet prelude rewrites `~/` and `@/` to the
      source directory as seen from the entry points. */
  lemma DefaultPrelude(o: PluginOptions.Options, f: Foreign, name: string, relative: (string, string) -> string)
    ensures
      var t := relative(o.entrypointsDir, f.resolve(o.sourceCodeDir));
      SnippetPrelude.EntryPath(AliasEntries(Config(NoSettings(), o, f).alias), o.entrypointsDir, name, relative) ==
      SnippetPrelude.PathAssign + name + " | " +
      ("replace: '~/', '" + t + "/'" + " | " + "replace: '@/', '" + t + "/'") + SnippetPrelude.DeferLine
  {
    var dir := f.resolve(o.sourceCodeDir);
    assert Config(NoSettings(), o, f).alias == AliasObject(DefaultAliases(o, f));
    assert AliasEntries(AliasObject(DefaultAliases(o, f))) ==
      [SnippetPrelude.Alias(SnippetPrelude.FindString("~"), dir), SnippetPrelude.Alias(SnippetPrelude.FindString("@"), dir)];
    SnippetPrelude.DefaultAliasesPrelude(dir, o.entrypointsDir, name, relative);
  }
}
