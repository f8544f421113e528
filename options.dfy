/** `resolveOptions` of dist/index.js: every option the user leaves out gets
    its default. `path.join` followed by `normalizePath` is passed in. */
module PluginOptions {
  import opened Wrappers
  import Tunnel

  /** The options as given; an absent option is `None`. */
  datatype UserOptions = UserOptions(
    themeRoot: Option<string>,
    sourceCodeDir: Option<string>,
    entrypointsDir: Option<string>,
    additionalEntrypoints: Option<seq<string>>,
    snippetFile: Option<string>,
    versionNumbers: Option<bool>,
    tunnel: Option<Tunnel.TunnelOption>)

  /** `Required<Options>` */
  datatype Options = Options(
    themeRoot: string,
    sourceCodeDir: string,
    entrypointsDir: string,
    additionalEntrypoints: seq<string>,
    snippetFile: string,
    versionNumbers: bool,
    tunnel: Tunnel.TunnelOption)

  /** `resolveOptions(options)`: each `??` keeps a supplied value and fills an
      absent one. The entry points default under the resolved source directory. */
  function ResolveOptions(o: UserOptions, join: (string, string) -> string): (r: Options)
    ensures r.themeRoot == o.themeRoot.GetOr("./")
    ensures r.sourceCodeDir == o.sourceCodeDir.GetOr("frontend")
    ensures r.entrypointsDir == o.entrypointsDir.GetOr(join(r.sourceCodeDir, "entrypoints"))
    ensures r.additionalEntrypoints == o.additionalEntrypoints.GetOr([])
    ensures r.snippetFile == o.snippetFile.GetOr("vite-tag.liquid")
    ensures r.versionNumbers == o.versionNumbers.GetOr(false)
    ensures r.tunnel == o.tunnel.GetOr(Tunnel.TunnelFlag(false))
  {
    var themeRoot := if o.themeRoot.Some? then o.themeRoot.value else "./";
    var sourceCodeDir := if o.sourceCodeDir.Some? then o.sourceCodeDir.value else "frontend";
    var entrypointsDir :=
      if o.entrypointsDir.Some? then o.entrypointsDir.value else join(sourceCodeDir, "entrypoints");
    var additionalEntrypoints := if o.additionalEntrypoints.Some? then o.additionalEntrypoints.value else [];
    var snippetFile := if o.snippetFile.Some? then o.snippetFile.value else "vite-tag.liquid";
    var versionNumbers := if o.versionNumbers.Some? then o.versionNumbers.value else false;
    var tunnel := if o.tunnel.Some? then o.tunnel.value else Tunnel.TunnelFlag(false);
    Options(themeRoot, sourceCodeDir, entrypointsDir, additionalEntrypoints, snippetFile, versionNumbers, tunnel)
  }

  /** Resolved options given back as user options, every one supplied. */
  function Supplied(x: Options): UserOptions {
    UserOptions(Some(x.themeRoot), Some(x.sourceCodeDir), Some(x.entrypointsDir),
                Some(x.additionalEntrypoints), Some(x.snippetFile), Some(x.versionNumbers), Some(x.tunnel))
  }

  /** Supplied values pass through unchanged. */
  lemma SuppliedPassThrough(x: Options, join: (string, string) -> string)
    ensures ResolveOptions(Supplied(x), join) == x
  {
  }

  /** Resolving twice is resolving once. */
  lemma ResolveOptionsIdempotent(o: UserOptions, join: (string, string) -> string)
    ensures ResolveOptions(Supplied(ResolveOptions(o, join)), join) == ResolveOptions(o, join)
  {
    SuppliedPassThrough(ResolveOptions(o, join), join);
  }

  /** With nothing supplied: the theme at `./`, sources in `frontend`, entry
      points in `frontend/entrypoints`, the snippet `vite-tag.liquid`, no
      version numbers and no tunnel. */
  lemma Defaults(join: (string, string) -> string)
    ensures ResolveOptions(UserOptions(None, None, None, None, None, None, None), join) ==
            Options("./", "frontend", join("frontend", "entrypoints"), [], "vite-tag.liquid", false,
                    Tunnel.TunnelFlag(false))
  {
  }

  /** Moving the source directory moves the default entry points with it,
      but not entry points given explicitly. */
  lemma EntrypointsFollowSourceDir(o: UserOptions, dir: string, join: (string, string) -> string)
    ensures o.entrypointsDir.None? ==>
      ResolveOptions(o.(sourceCodeDir := Some(dir)), join).entrypointsDir == join(dir, "entrypoints")
    ensures o.entrypointsDir.Some? ==>
      ResolveOptions(o.(sourceCodeDir := Some(dir)), join).entrypointsDir == o.entrypointsDir.value
  {
  }
}
