# vite-plugin-shopify, the Liquid snippet generator

This project models the part of vite-plugin-shopify that writes the
`vite-tag` Liquid snippet. A Shopify theme renders that snippet to load the
JavaScript and CSS that Vite builds. The model covers:

- **Tag formatters** (`Tags`): the asset-URL expression, the script, preload
  and stylesheet tags, and the `if`/`elsif` row of the dispatch chain. The
  module also has a decoder that reads a rendered tag back.
- **Manifest compiler** (`ManifestCompiler`): the walk over the build
  manifest inside `closeBundle`. The manifest is an ordered list of
  `(key, record)` pairs, in `Object.keys` order. The walk is a method with
  loop invariants, proved equal to a specification function. Properties of
  that function cover row counts, tag order, `if`/`elsif` openings and the
  failure on a missing import.
- **Prelude** (`SnippetPrelude`): the disclaimer, the `path` assignment with
  one `replace:` filter per string alias, the snippet's name, and the
  development snippet.
- **Development URL** (`DevServer`): `resolveDevServerUrl` and `isIpv6`, with
  a parser that reads the URL back to state the override rules.
- **Tunnel** (`Tunnel`): `resolveTunnelConfig`, whose regular expression is
  modelled as a leftmost search. It also covers `pollTunnelUrl`, as a loop
  over the statuses the provider reports.
- **Option and configuration defaulting** (`PluginOptions`, `ShopifyConfig`,
  `JsObject`): `resolveOptions` and the `config` hook of `shopifyConfig`. This
  includes the alias merge, with JavaScript object spread modelled as an
  ordered property list, and the `hmr` normalisation.
- **The plugin object** (`HtmlPlugin.ShopifyHtml`): a class whose fields are
  the closure state of `shopifyHTML`. Its methods are the hooks:
  `configResolved`, `configureServer`, the `listening` callback, the delayed
  tunnel start and `closeBundle`. The snippet file is recorded as the
  snippet that was written (`SnippetFile`): either the development snippet for
  a configuration and asset host, or a production snippet's text.
  `ShopifyHtml.Text` renders it to the file's content.

Node's `path.relative`, `path.resolve` and `path.join`, vite's
`normalizePath` and `fast-glob` are passed in as functions. `path.extname`,
which decides whether a manifest key is a stylesheet, is modelled for POSIX
paths (`Paths.Extname`). Numbers in URLs are integers; `IntToString` writes
them as JavaScript writes integers.

Where the two copies of the code differ, the model follows src/html.ts:

- dist/index.js:273 adds `allow_false: true` to the `script_defer` default.
  src/html.ts:234 does not, and neither does `SnippetPrelude.DeferLine`.

In these cases the behaviour may be unexpected; both copies of the code do
the same, and the model follows them:

- A tunnel URL given in the options is used without its port
  (src/html.ts:377-378, dist/index.js:356-357). The port only replaces the
  server port.
- A manifest key is classified by applying the CSS regular expression to
  `path.extname(key)` (src/html.ts:146, 154; dist/index.js:217), not to the
  key or the output file. So `a.css?inline` is a stylesheet entry, while
  `a.module.css.ts` is not.
- The extra `style.css` row is always opened with `elsif`
  (src/html.ts:190-194, dist/index.js:246-250). When it is the first row, the
  dispatch chain after the disclaimer and the path assignment opens with
  `{% elsif` instead of `{% if`. `ManifestCompiler.StyleFirstOpensWithElsif`
  states this.

## Model

| member | source | states |
|---|---|---|
| Tags.AssetUrl | src/html.ts:241-247 | the expression starts with the quoted file and `' \| asset_url`; it goes on with `\| split: '?' \| first` exactly when version numbers are off |
| Tags.ScriptTag | src/html.ts:267-279 | the plain and the deferred module script of a file; `DecodeScriptTag` reads the file and the version flag back |
| Tags.PreloadScriptTag | src/html.ts:261-262 | the modulepreload link of a file; `DecodePreloadTag` reads it back |
| Tags.StylesheetTag | src/html.ts:284-285 | the `stylesheet_tag` expression of a file; `DecodeStylesheetTag` reads it back |
| Tags.RenderTag | src/html.ts:261-285 | the tag a requested script, preload or stylesheet renders to; `RenderTagInjective` shows distinct requests render distinctly |
| Tags.DecodeAssetUrlOf | src/html.ts:241-247 | reading an asset URL back gives the file name and the version-number flag it was made from |
| Tags.DecodeScriptTag | src/html.ts:267-279 | the script tag (plain and deferred variants) decodes to its file and flag |
| Tags.DecodePreloadTag | src/html.ts:261-262 | the modulepreload link decodes to its file and flag |
| Tags.DecodeStylesheetTag | src/html.ts:284-285 | the `stylesheet_tag` expression decodes to its file and flag |
| Tags.RenderTagInjective | src/html.ts:261-285 | two tags with quote-free file names render the same only if they are the same tag with the same flag |
| Tags.RenderTags | src/html.ts:156-180 | one rendered tag per requested tag |
| Tags.RenderTagsAt | src/html.ts:156-180 | the i-th rendered tag is the rendering of the i-th requested tag |
| Tags.RenderTagsConcat | src/html.ts:156-180 | rendering a concatenation concatenates the renderings |
| Tags.SinglePathCondition | src/html.ts:253-255 | one entry path becomes `path == "<p>"` |
| Tags.PathConditionAppend | src/html.ts:253-255 | each further path adds ` or path == "<p>"` at the end, so the tests follow the order of the paths |
| Tags.TwoPathCondition | src/html.ts:253-255 | two entry paths become `path == "<a>" or path == "<b>"`, in the given order |
| Tags.ViteEntryTag | src/html.ts:252-256 | a row is its opening, the path condition of its entry paths, ` %}`, a line break with two spaces and the tag text; it opens with `{% if ` exactly when it is the first entry and with `{% elsif ` exactly otherwise |
| Paths.Extname | src/html.ts:146 | the extension is empty or a dot followed by a dot-free rest |
| Paths.ExtnameOfFile | src/html.ts:146 | `dir/stem.ext` has extension `.ext` |
| CssExtensions.ExtnameMatchIsWhole | dist/index.js:107-119 | on an extension, the unanchored regex matches exactly when the whole extension is a dot, a known CSS extension and an optional `?` query |
| CssExtensions.ClassifyByExtension | src/html.ts:154 | a key `dir/stem.ext` is a stylesheet entry exactly when `.ext` is a CSS suffix |
| CssExtensions.PlainCssAccepted | dist/index.js:107-119 | `.css` matches |
| CssExtensions.QueriedScssAccepted | dist/index.js:107-119 | `.scss?inline` matches: an extension may carry a non-empty query |
| CssExtensions.PostcssAccepted | dist/index.js:107-119 | `.postcss`, the last alternative, matches |
| CssExtensions.ScriptSuffixRejected | dist/index.js:107-119 | `.ts` does not match |
| CssExtensions.EmptyQueryRejected | dist/index.js:117-119 | `.css?` does not match: the query needs a character after `?` |
| CssExtensions.LongerExtensionRejected | dist/index.js:117-119 | `.cssx` does not match: the alternative must end the string or be followed by `?` |
| ManifestCompiler.Lookup | src/html.ts:164 | a key is found exactly when the manifest has it, with its record |
| ManifestCompiler.LookupDistinct | src/html.ts:164 | in a manifest with distinct keys, as `JSON.parse` yields, every record is the one its key looks up |
| ManifestCompiler.EntryTags | src/html.ts:154-182 | a stylesheet key gets exactly one stylesheet tag; a script entry's list starts with its script and ends with its own stylesheets |
| ManifestCompiler.ScriptEntryTags | src/html.ts:158-182 | a script entry's list is its script, then its chunks' tags, then its own stylesheets |
| ManifestCompiler.EntryTagsLength | src/html.ts:158-182 | a script entry has 1 + imports + the chunks' CSS files + its own CSS files tags |
| ManifestCompiler.EntryPreloads | src/html.ts:163-174 | the preloads of an entry are its chunks' files, in import order |
| ManifestCompiler.ChunkTagsOkIff | src/html.ts:163-165 | the imports compile exactly when every import has a manifest record |
| ManifestCompiler.ChunkTagsFirstMissing | src/html.ts:163-165 | compilation fails on the first import with no record, and on no earlier one; the model's error value carries that import's key |
| ManifestCompiler.ChunkTagsLength | src/html.ts:163-174 | the imports give one preload each plus their chunks' CSS files |
| ManifestCompiler.PushStylesheets | src/html.ts:169-172 | the loop appends one rendered stylesheet tag per CSS file, in order |
| ManifestCompiler.PushImports | src/html.ts:162-175 | the import loop appends the rendered chunk tags, or fails exactly as the specification does |
| ManifestCompiler.BuildEntryTags | src/html.ts:152-183 | the tag list built for an entry is the rendering of `EntryTags`, with the same failure |
| ManifestCompiler.PushKeyRows | src/html.ts:145-194 | one key appends its entry row, if any, then the `style.css` row, if any |
| ManifestCompiler.CompileManifest | src/html.ts:142-199 | the whole walk returns the specified snippet, or the specified failure |
| ManifestCompiler.CompileSnippet | src/html.ts:142-199 | the production snippet, or the failure of the first import with no record; `CompileManifest`, `RowsOkIff`, `RowsLength` and `SnippetOpening` state what it is |
| ManifestCompiler.RenderRows | src/html.ts:186-194 | row `i` selects its rendered tags, one per line, by the path condition of row `i`'s entry paths; it opens with `if` exactly when it is row 0 and an entry row, and with `elsif` otherwise |
| ManifestCompiler.Snippet | src/html.ts:198-199 | the snippet starts with the prefix and ends with `\n{% endif %}\n` |
| ManifestCompiler.RowsLength | src/html.ts:144-195 | the number of rows is the number of entries plus one per `style.css` key when CSS is not code-split |
| ManifestCompiler.RowsOkIff | src/html.ts:144-195 | the walk succeeds exactly when every script entry's imports are present; a stylesheet entry's imports are never looked up |
| ManifestCompiler.RowsConcat | src/html.ts:144 | rows come out in manifest key order |
| ManifestCompiler.CollectOkIff | src/html.ts:144-175 | a `forEach` that throws on a bad element succeeds exactly when no element is bad |
| ManifestCompiler.SnippetOpening | src/html.ts:186-199 | a snippet with rows opens with `if` after the prefix exactly when its first row is an entry row, and with `elsif` exactly otherwise |
| ManifestCompiler.StyleFirstOpensWithElsif | src/html.ts:190-194 | with `style.css` first, not an entry, and CSS not code-split, the snippet opens with `elsif` |
| SnippetPrelude.SnippetName | dist/index.js:129 | the snippet name is a prefix of the file name |
| SnippetPrelude.SnippetNameOf | dist/index.js:129 | a non-empty dot-free extension is stripped |
| SnippetPrelude.SnippetNameUnchanged | dist/index.js:129 | the name is the file itself exactly when it has no dot or ends with one |
| SnippetPrelude.DefaultSnippetName | dist/index.js:129 | `vite-tag.liquid` is named `vite-tag` |
| SnippetPrelude.Replacements | src/html.ts:219-228 | the `[find, replacement]` pairs of the string aliases, in order; `CollectReplacements`, `ReplacementsConcat` and `PatternAliasesIgnored` state this |
| SnippetPrelude.CollectReplacements | src/html.ts:219-228 | the loop collects, in alias order, `[find, relative(entrypointsDir, replacement)]` for each string alias |
| SnippetPrelude.ReplacementsConcat | src/html.ts:221-228 | aliases contribute replacements independently, in order |
| SnippetPrelude.PatternAliasesIgnored | src/html.ts:222 | regular-expression aliases contribute nothing |
| SnippetPrelude.PatternAliasesLeavePrelude | src/html.ts:214-236 | inserting regular-expression aliases anywhere leaves the prelude unchanged |
| SnippetPrelude.DefaultAliasesPrelude | src/html.ts:231-235 | the aliases `~` and `@` give the two `replace:` filters in that order |
| SnippetPrelude.EntryPath | src/html.ts:231-235 | the prelude starts with `{% assign path = <name> \| ` and ends with the `script_defer` default |
| SnippetPrelude.SnippetPrefix | src/html.ts:25-26 | both snippets start with the disclaimer, then the path assignment |
| SnippetPrelude.DevSnippet | src/html.ts:290-322 | the development snippet loading from an asset host; `ReactPreambleOnly` and `HtmlPlugin.DevSnippetOpensWithDisclaimer` state its shape |
| SnippetPrelude.ReactPreambleOnly | src/html.ts:312-316 | the React snippet differs from the plain one only by the refresh script between the Liquid block and the tail |
| DevServer.IsIpv6 | src/html.ts:348-357 | a family named `IPv6` or numbered 6; `HostRule` and `LoopbackExample` use it to bracket the address |
| DevServer.ResolveDevServerUrl | src/html.ts:327-346 | the development URL; `DevUrlRoundTrip`, `ProtocolRule`, `HostRule` and `PortRule` state each of its parts |
| DevServer.DevUrlRoundTrip | src/html.ts:345 | protocol, host and port are read back from the URL |
| DevServer.ProtocolRule | src/html.ts:328-335 | `wss` gives `https`; another non-empty HMR protocol gives `http`; otherwise `https` exactly when the server uses HTTPS |
| DevServer.HostRule | src/html.ts:337-357 | the HMR host, else a string server host, else the socket address, bracketed exactly for IPv6 (`'IPv6'` or 6) |
| DevServer.PortRule | src/html.ts:342-343 | the HMR client port, else the socket's port |
| DevServer.HmrHostHidesTheRest | src/html.ts:340 | an HMR host decides the host whatever the lower settings |
| DevServer.LoopbackExample | src/html.ts:339 | `::1` on port 5173 gives `http://[::1]:5173` |
| Tunnel.ResolveTunnelConfig | src/html.ts:359-380 | `false` gives `("", -1, true)`, `true` gives `("", -1, false)`; an accepted URL gives an `https://` URL without a colon after the scheme and a port; a rejection says `Invalid tunnel URL: <url>` |
| Tunnel.TunnelUrlAccepted | src/html.ts:373-379 | `https://host:port<rest>` gives `https://host` and the port |
| Tunnel.TunnelUrlRejected | src/html.ts:373-376 | a URL is rejected exactly when the pattern matches nowhere in it |
| Tunnel.MatchAt | src/html.ts:373 | the two groups of the tunnel pattern matched at one position; `MatchAtShape` and `MatchAtStart` state them |
| Tunnel.FindMatch | src/html.ts:373 | the leftmost match; `FindMatchSound` and `TunnelUrlRejected` state it |
| Tunnel.FindMatchSound | src/html.ts:373 | a found match is the leftmost place where the pattern matches |
| Tunnel.PortlessRejected | src/html.ts:373-376 | an `https://` URL with no further colon is rejected |
| Tunnel.HttpRejected | src/html.ts:373-376 | an `http://` URL with no further colon is rejected |
| Tunnel.NgrokExample | src/html.ts:373-379 | `https://foo.ngrok.io:4000` gives `https://foo.ngrok.io` and 4000 |
| Tunnel.Poll | src/html.ts:385-409 | how polling ends and the final retry count; `PollFirstSettling`, `PollNeverSettling` and `PollIgnoresLater` state it |
| Tunnel.PollTunnelUrl | src/html.ts:385-409 | the polling loop ends as the first `error` or `connected` status decides; `retries` counts the statuses before it; no status after it is read |
| Tunnel.PollFirstSettling | src/html.ts:391-399 | the first settling status decides the outcome, after as many retries as statuses before it |
| Tunnel.PollNeverSettling | src/html.ts:396-399 | with no settling status, every status is a retry |
| Tunnel.PollIgnoresLater | src/html.ts:391-395 | statuses after the settling one change nothing |
| PluginOptions.ResolveOptions | dist/index.js:11-28 | each option is the supplied value, else its default: `./`, `frontend`, `<sourceCodeDir>/entrypoints`, `[]`, `vite-tag.liquid`, `false`, `false` |
| PluginOptions.SuppliedPassThrough | dist/index.js:11-28 | options that are all supplied come out unchanged |
| PluginOptions.ResolveOptionsIdempotent | dist/index.js:11-28 | resolving resolved options changes nothing |
| PluginOptions.EntrypointsFollowSourceDir | dist/index.js:14 | the default entry-point directory follows the source directory; an explicit one does not |
| ShopifyConfig.Config | dist/index.js:39-96 | the generated configuration; `Defaults`, `UserSettingsWin`, `ManifestRule`, `HmrRule` and `ConfigIdempotent` state it |
| ShopifyConfig.MergeAliases | dist/index.js:44-80 | the merged aliases; `AliasArrayRule`, `AliasObjectRule` and `MergeAliasesIdempotent` state them |
| ShopifyConfig.NormalizeHmr | dist/index.js:87-89 | the generated `hmr`; `HmrRule` states it |
| ShopifyConfig.Defaults | dist/index.js:40-90 | with nothing configured: base `./`, no public directory, theme `assets`, no assets sub-directory, discovered inputs, a manifest, the two default aliases, `localhost:5173`, the placeholder origin and an empty HMR object |
| ShopifyConfig.UserSettingsWin | dist/index.js:40-90 | each setting the user gives is kept as given |
| ShopifyConfig.ManifestRule | dist/index.js:67 | a manifest file name is kept; any other value becomes `true` |
| ShopifyConfig.HmrRule | dist/index.js:87-89 | `false` stays `false`; `true` and an absent value give `{}`; an object is copied |
| ShopifyConfig.AliasArrayRule | dist/index.js:44-76 | an alias array keeps the user's aliases first, then `~` and `@` to the resolved source directory |
| ShopifyConfig.AliasObjectRule | dist/index.js:44-80 | an alias object puts `~` and `@` first, then the user's new keys in their order; the user's keys read the user's values, and `~` and `@` otherwise read the source directory |
| ShopifyConfig.MergeAliasesIdempotent | dist/index.js:77-80 | merging the defaults into an alias object that already holds the merged result gives that result back |
| ShopifyConfig.ConfigIdempotent | dist/index.js:36-96 | applied to its own result the hook changes nothing, unless the aliases are an array |
| ShopifyConfig.DefaultDevServerUrl | dist/index.js:40-43 | left at its defaults, the development server is reached at `http://localhost:<socket port>` |
| ShopifyConfig.DefaultPrelude | dist/index.js:44-80 | left at its defaults, the prelude rewrites `~/` and `@/` to the source directory relative to the entry points |
| JsObject.Spread | dist/index.js:77-80 | the object `{...a, ...b}`; `SpreadGet`, `SpreadKeys` and `SpreadAbsorbs` state its values and key order |
| JsObject.SpreadGet | dist/index.js:77-80 | in `{...a, ...b}` a key of `b` reads its value in `b`, any other key its value in `a` |
| JsObject.SpreadKeys | dist/index.js:77-80 | `{...a, ...b}` has the keys of `a` in order, then the new keys of `b` in the order `b` first names them |
| JsObject.SpreadAbsorbs | dist/index.js:77-80 | spreading an object over defaults whose keys it already starts with gives that object back |
| HtmlPlugin.ManifestPath | src/html.ts:128-132 | the manifest is read at `assets/` plus the configured name, or `.vite/manifest.json` |
| HtmlPlugin.ShopifyHtml.constructor | src/html.ts:16-20 | the plugin starts with no configuration, an empty development URL, no tunnel settings or URL and no snippet written |
| HtmlPlugin.ShopifyHtml.ConfigResolved | src/html.ts:31-34 | the resolved configuration is stored; nothing else changes |
| HtmlPlugin.ShopifyHtml.ConfigureServer | src/html.ts:41-46 | a malformed tunnel URL throws; otherwise the tunnel settings are kept and a tunnel port replaces the server port |
| HtmlPlugin.ShopifyHtml.Listening | src/html.ts:48-104 | for a socket address, the development URL is resolved and the development snippet written, loading from the given tunnel URL or else from the development server; for a pipe nothing happens |
| HtmlPlugin.ShopifyHtml.StartTunnel | src/html.ts:61-89 | no tunnel: nothing; a given tunnel URL is taken; otherwise a connected provider's URL is taken and the snippet rewritten, and a failed or unfinished poll changes nothing |
| HtmlPlugin.ShopifyHtml.CloseBundle | src/html.ts:122-202 | nothing while serving or without a manifest; otherwise the compiled snippet is written, or, when an import has no record, compilation fails and nothing is written |
| HtmlPlugin.DevSnippetOpensWithDisclaimer | src/html.ts:93-101 | the development snippet, for any configuration and asset host, starts with the disclaimer |
| HtmlPlugin.BuildSnippetOpensWithDisclaimer | src/html.ts:197-198 | every compiled production snippet starts with the disclaimer |

## Left out

- File input and output: `fs.existsSync`, `readFileSync`, `writeFileSync` and `JSON.parse`. `closeBundle` takes the parsed manifests as a function of their path. A missing file is `None`, and the snippet file is a field of the plugin object. A manifest that is not valid JSON, or a record without `file`, is not modelled.
- `path.relative`, `path.resolve`, `path.join`, `normalizePath` and `fast-glob` are uninterpreted parameters. `closeBundle` reads the manifest at a path relative to the theme root, so the theme-root resolution is left to the caller.
- HtmlPlugin.ShopifyHtml.StartTunnel: the Cloudflare `startTunnel` hook and `valueOrAbort` are not modelled. The provider's statuses are given as a finite sequence, and the timers (100 ms and 500 ms) are left out. So is the order in which the callbacks run, which the caller chooses by calling the methods. A rejected poll ends in an unhandled rejection in the source; the model only records that nothing changes.
- `stopTunnel` on close, `renderInfo`/`isTTY`, `debug` logging, the middleware that serves `dev-server-index.html`, the `transform` hook's placeholder substitution, the react-refresh virtual module and the ESM `__dirname` shims: these are wiring and I/O.
- The resolved configuration the plugin object reads (`ResolvedConfig`) keeps only the fields the hooks read. Whether a React plugin is installed is a flag, not a search of `config.plugins`.
- In the user configuration, `server.https` is kept as given, and is modelled by its truthiness (an options object counts as `true`). `build.rollupOptions.input` is a list of strings. `build.manifest` is a name or a flag, so other kinds of value, which also become `true`, are not represented.
- ShopifyConfig.Config: the configuration the hook returns is merged into the user's by Vite. `DefaultDevServerUrl` and `DefaultPrelude` take the merged values to be the hook's, which holds because the hook keeps every value the user gave. Vite turns an alias object into an array in key order (`AliasEntries`); that conversion is Vite's, not the plugin's.
- The error for an import with no manifest record: the source fails by destructuring `undefined` (src/html.ts:163-165), a `TypeError` whose message names `css` and `chunk`, not the import. `ManifestCompiler.MissingImport(key)` is the model's own error value; it records which import failed, not the message the source throws.
- `server.hmr` as an object: the source's `{ ...hmr }` (dist/index.js:87-89) copies every field of the user's object. `HmrFields` keeps only `protocol`, `host` and `clientPort`, the fields the development URL reads; the others are not represented.
- Objects: JavaScript lists integer-like keys before the others, in numeric order. That ordering is not modelled: keys keep insertion order.
- Ports are integers. The formatting of non-integer ports, and the number-to-string conversion of very large ones, are not modelled.
- The bundled copy of `shopifyHTML` in dist/index.js repeats src/html.ts and is not modelled twice. dist/index.d.ts has type declarations only.
- The long literal text of the development snippet is kept as text. Its properties are only that it interpolates `assetHost` and has the React refresh line only with a React plugin.
