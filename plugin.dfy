/** The `shopifyHTML` plugin of src/html.ts: the closure state the hooks share
    (the resolved configuration, the development server URL, the tunnel
    settings and URL) and the snippet file the hooks write. Each hook is a
    method; the file system and the callbacks' timing are left to the caller,
    which calls the hooks in the order Vite and the timers would. */
module HtmlPlugin {
  import opened Wrappers
  import opened Text
  import Paths
  import PluginOptions
  import SnippetPrelude
  import ManifestCompiler
  import DevServer
  import Tunnel
  import ShopifyConfig

  datatype Command = Serve | Build

  /** The parts of Vite's resolved configuration the hooks read; `port` is
      `server.port`, and `hasReactPlugin` whether a plugin named
      `vite:react-babel` or `vite:react-refresh` is installed. */
  datatype ResolvedConfig = ResolvedConfig(
    command: Command,
    manifest: ShopifyConfig.ManifestSetting,
    cssCodeSplit: bool,
    aliases: seq<SnippetPrelude.Alias>,
    server: DevServer.ServerSettings,
    port: int,
    hasReactPlugin: bool)

  const DefaultManifestFile := ".vite/manifest.json"

  /** What the plugin last wrote to the snippet file: the development snippet
      for a configuration and an asset host, or the text of a production
      snippet. `ShopifyHtml.Text` renders it. */
  datatype SnippetFile = DevFile(config: ResolvedConfig, assetHost: string) | BuildFile(text: string)

  /** Where the build manifest is read, under the theme root: `assets/`
      followed by the configured manifest name, or by Vite's default name. */
  function ManifestPath(setting: ShopifyConfig.ManifestSetting): (r: string)
    ensures StartsWith(r, "assets/")
    ensures setting.ManifestFile? ==> r[|"assets/"|..] == setting.name
    ensures setting.ManifestFlag? ==> r[|"assets/"|..] == DefaultManifestFile
  {
    var name := if setting.ManifestFile? then setting.name else DefaultManifestFile;
    assert ("assets/" + name)[..|"assets/"|] == "assets/";
    assert ("assets/" + name)[|"assets/"|..] == name;
    "assets/" + name
  }

  class ShopifyHtml {
    const options: PluginOptions.Options
    const paths: Paths.PathOps

    /** `config`, set by `configResolved`. */
    var config: Option<ResolvedConfig>
    /** `viteDevServerUrl`, empty until the server listens. */
    var devServerUrl: string
    /** The tunnel settings `configureServer` resolves. */
    var tunnelConfig: Option<Tunnel.FrontendUrlResult>
    /** `tunnelUrl` */
    var tunnelUrl: Option<string>
    /** The snippet file, once this plugin writes it. */
    var snippet: Option<SnippetFile>

    constructor (options: PluginOptions.Options, paths: Paths.PathOps)
      ensures this.options == options && this.paths == paths
      ensures config.None? && devServerUrl == "" && tunnelConfig.None? && tunnelUrl.None? && snippet.None?
    {
      this.options := options;
      this.paths := paths;
      config := None;
      devServerUrl := "";
      tunnelConfig := None;
      tunnelUrl := None;
      snippet := None;
    }

    /** `viteTagSnippetPrefix(config)` */
    function Prefix(c: ResolvedConfig): string {
      SnippetPrelude.SnippetPrefix(c.aliases, options.entrypointsDir,
                                   SnippetPrelude.SnippetName(options.snippetFile), paths.relative)
    }

    /** The development snippet that loads assets from `assetHost`. */
    function DevContent(c: ResolvedConfig, assetHost: string): string {
      Prefix(c) + SnippetPrelude.DevSnippet(assetHost, options.entrypointsDir, c.hasReactPlugin)
    }

    /** The content of a snippet file. */
    function Text(f: SnippetFile): string {
      match f
      case DevFile(c, assetHost) => DevContent(c, assetHost)
      case BuildFile(text) => text
    }

    /** `configResolved(resolvedConfig)` */
    method ConfigResolved(c: ResolvedConfig)
      modifies this
      ensures config == Some(c)
      ensures devServerUrl == old(devServerUrl) && tunnelConfig == old(tunnelConfig)
      ensures tunnelUrl == old(tunnelUrl) && snippet == old(snippet)
    {
      config := Some(c);
    }

    /** `configureServer`, up to registering its callbacks: the tunnel
        settings are resolved, which throws for a malformed tunnel URL, and a
        tunnel port replaces the server port. */
    method ConfigureServer() returns (r: Result<(), string>)
      requires config.Some?
      modifies this
      ensures r.Err? <==> Tunnel.ResolveTunnelConfig(options.tunnel).Err?
      ensures r.Err? ==> r.error == Tunnel.ResolveTunnelConfig(options.tunnel).error &&
                         config == old(config) && tunnelConfig == old(tunnelConfig)
      ensures r.Ok? ==>
        var tc := Tunnel.ResolveTunnelConfig(options.tunnel).value;
        tunnelConfig == Some(tc) &&
        config == Some(if tc.frontendPort != -1 then old(config.value).(port := tc.frontendPort) else old(config.value))
      ensures devServerUrl == old(devServerUrl) && tunnelUrl == old(tunnelUrl) && snippet == old(snippet)
    {
      var tc := Tunnel.ResolveTunnelConfig(options.tunnel);
      if tc.Err? {
        return Err(tc.error);
      }
      tunnelConfig := Some(tc.value);
      if tc.value.frontendPort != -1 {
        config := Some(config.value.(port := tc.value.frontendPort));
      }
      r := Ok(());
    }

    /** The server's `listening` callback: when the server is bound to a
        socket address (not a pipe), the development URL is resolved and the
        development snippet written, loading from the tunnel URL given in the
        options if there is one, from the development server otherwise. */
    method Listening(address: Option<DevServer.AddressInfo>)
      requires config.Some? && tunnelConfig.Some?
      modifies this
      ensures config == old(config) && tunnelConfig == old(tunnelConfig) && tunnelUrl == old(tunnelUrl)
      ensures address.None? ==> devServerUrl == old(devServerUrl) && snippet == old(snippet)
      ensures address.Some? ==>
        devServerUrl == DevServer.ResolveDevServerUrl(address.value, config.value.server) &&
        var tc := tunnelConfig.value;
        snippet == Some(DevFile(config.value, if tc.frontendUrl != "" then tc.frontendUrl else devServerUrl))
    {
      if address.None? {
        return;
      }
      devServerUrl := DevServer.ResolveDevServerUrl(address.value, config.value.server);
      var tc := tunnelConfig.value;
      var assetHost := if tc.frontendUrl != "" then tc.frontendUrl else devServerUrl;
      snippet := Some(DevFile(config.value, assetHost));
    }

    /** The delayed tunnel start, given the statuses the tunnel provider
        reports: nothing without a tunnel; a tunnel URL from the options is
        taken as is; otherwise the provider is polled, and once it connects
        its URL is taken and the snippet rewritten to load from it. A failed
        or unfinished poll changes nothing. */
    method StartTunnel(statuses: seq<Tunnel.TunnelStatus>)
      requires config.Some? && tunnelConfig.Some?
      modifies this
      ensures config == old(config) && tunnelConfig == old(tunnelConfig) && devServerUrl == old(devServerUrl)
      ensures options.tunnel == Tunnel.TunnelFlag(false) ==> tunnelUrl == old(tunnelUrl) && snippet == old(snippet)
      ensures options.tunnel != Tunnel.TunnelFlag(false) && tunnelConfig.value.frontendUrl != "" ==>
                tunnelUrl == Some(tunnelConfig.value.frontendUrl) && snippet == old(snippet)
      ensures options.tunnel != Tunnel.TunnelFlag(false) && tunnelConfig.value.frontendUrl == "" ==>
        match Tunnel.Poll(statuses).0
        case Resolved(url) => tunnelUrl == Some(url) && snippet == Some(DevFile(config.value, url))
        case _ => tunnelUrl == old(tunnelUrl) && snippet == old(snippet)
    {
      if options.tunnel == Tunnel.TunnelFlag(false) {
        return;
      }
      var tc := tunnelConfig.value;
      if tc.frontendUrl != "" {
        tunnelUrl := Some(tc.frontendUrl);
        return;
      }
      var outcome, retries, polls := Tunnel.PollTunnelUrl(statuses);
      if outcome.Resolved? {
        tunnelUrl := Some(outcome.url);
        snippet := Some(DevFile(config.value, outcome.url));
      }
    }

    /** `closeBundle`, given the manifests present under the theme root by
        path: nothing in development; nothing when the manifest file is
        missing; otherwise the production snippet is compiled and written,
        unless an import has no manifest record, which throws. */
    method CloseBundle(readManifest: string -> Option<ManifestCompiler.Manifest>)
      returns (r: Result<(), ManifestCompiler.CompileError>)
      requires config.Some?
      modifies this
      ensures config == old(config) && tunnelConfig == old(tunnelConfig)
      ensures devServerUrl == old(devServerUrl) && tunnelUrl == old(tunnelUrl)
      ensures var c := config.value;
        if c.command == Serve || readManifest(ManifestPath(c.manifest)).None? then
          r == Ok(()) && snippet == old(snippet)
        else
          var compiled := ManifestCompiler.CompileSnippet(
            readManifest(ManifestPath(c.manifest)).value,
            ManifestCompiler.BuildSettings(options.entrypointsDir, c.cssCodeSplit, options.versionNumbers),
            paths.relative, Prefix(c));
          (r.Err? <==> compiled.Err?) &&
          (r.Err? ==> r.error == compiled.error && snippet == old(snippet)) &&
          (r.Ok? ==> snippet == Some(BuildFile(compiled.value)))
    {
      var c := config.value;
      if c.command == Serve {
        return Ok(());
      }
      var found := readManifest(ManifestPath(c.manifest));
      if found.None? {
        return Ok(());
      }
      var settings := ManifestCompiler.BuildSettings(options.entrypointsDir, c.cssCodeSplit, options.versionNumbers);
      var compiled := ManifestCompiler.CompileManifest(found.value, settings, paths.relative, Prefix(c));
      if compiled.Err? {
        return Err(compiled.error);
      }
      snippet := Some(BuildFile(compiled.value));
      r := Ok(());
    }
  }

  /** The development snippet opens with the disclaimer. */
  lemma DevSnippetOpensWithDisclaimer(p: ShopifyHtml, c: ResolvedConfig, host: string)
    ensures StartsWith(p.Text(DevFile(c, host)), SnippetPrelude.Disclaimer)
  {
    StartsWithExtend(p.Prefix(c), SnippetPrelude.DevSnippet(host, p.options.entrypointsDir, c.hasReactPlugin),
                     SnippetPrelude.Disclaimer);
  }

  /** A compiled production snippet opens with the disclaimer. */
  lemma BuildSnippetOpensWithDisclaimer(p: ShopifyHtml, c: ResolvedConfig, m: ManifestCompiler.Manifest,
                                        s: ManifestCompiler.BuildSettings)
    requires ManifestCompiler.CompileSnippet(m, s, p.paths.relative, p.Prefix(c)).Ok?
    ensures StartsWith(ManifestCompiler.CompileSnippet(m, s, p.paths.relative, p.Prefix(c)).value,
                       SnippetPrelude.Disclaimer)
  {
    var prefix := p.Prefix(c);
    var text := ManifestCompiler.CompileSnippet(m, s, p.paths.relative, prefix).value;
    assert StartsWith(text, prefix);
    StartsWithWithin(text, prefix, SnippetPrelude.Disclaimer);
  }
}
