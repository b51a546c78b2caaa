/** The plugin object: the state its factory fixes, the `config` hook that
    collects the entries and generates the scratch files, and the `closeBundle`
    hook that moves the bundle out of the scratch directory. */
module Plugin {
  import opened Types
  import opened EntryObjects
  import opened Paths
  import opened PluginOptions
  import opened Collect
  import opened Bootstrap
  import opened Scaffold

  /** What the `config` hook hands to the bundler: the scratch directory as the
      project root and the rewritten entry object as the build's input. */
  datatype ConfigOverride = ConfigOverride(root: string, input: EntryObject)

  class ReactMpaPlugin {
    /** The working directory of the build process. */
    const context: string
    /** The directory of the plugin itself, home of the default template. */
    const pluginDir: string
    const tempDirPath: string
    const userOptions: UserOptions
    /** The output directory, set by `config` and read by `closeBundle`. */
    var outDir: string

    /** `vitePluginReactMpa(options)`. */
    constructor (options: Option<Options>, cwd: string, pluginDir: string)
      ensures context == cwd && this.pluginDir == pluginDir
      ensures tempDirPath == Join(cwd, TempDirName(options))
      ensures userOptions == UserOptionsOf(options)
      ensures outDir == ""
    {
      context := cwd;
      this.pluginDir := pluginDir;
      tempDirPath := Join(cwd, TempDirName(options));
      userOptions := UserOptionsOf(options);
      outDir := "";
    }

    /** The `config` hook: records the output directory, collects the entries
        from the listing of `src/pages` and generates the scratch files. */
    method Config(buildOutDir: Option<string>, listing: seq<string>, existing: set<string>,
      reactVersion: Option<string>, render: string -> Option<string>)
      returns (result: ConfigOverride, writes: seq<(string, string)>)
      modifies this`outDir
      ensures outDir == OutDirName(buildOutDir)
      ensures result.root == tempDirPath
      ensures result.input == Rewrite(Collected(listing, PagesRoot(context), existing, userOptions.lowerCase), tempDirPath)
      ensures writes == Artifacts(Build(context, pluginDir, tempDirPath, existing, reactVersion, render), userOptions,
        PreludeOf(userOptions, context, existing, reactVersion),
        Collected(listing, PagesRoot(context), existing, userOptions.lowerCase))
    {
      outDir := OutDirName(buildOutDir);
      var entry := CollectEntry(context, listing, existing, userOptions.lowerCase);
      var b := Build(context, pluginDir, tempDirPath, existing, reactVersion, render);
      var newEntry, pageFiles := CreateTempFile(entry, userOptions, b);
      result := ConfigOverride(tempDirPath, newEntry);
      writes := pageFiles;
    }

    /** The `closeBundle` hook: the move of the bundle's output directory from
        the scratch directory to the project, as (source, destination). */
    method CloseBundle() returns (source: string, destination: string)
      ensures source == Join(tempDirPath, outDir) && destination == Join(context, outDir)
    {
      source := Join(tempDirPath, outDir);
      destination := Join(context, outDir);
    }
  }

  /** One build: the plugin is created, its `config` hook runs, then its
      `closeBundle` hook. The bundle's input has an entry exactly for the entry
      names of the visible page folders that hold an index file, each leading to
      the page's HTML document in the scratch directory; no file is written
      twice; and the output directory ('dist' unless the build names one) is
      moved from the scratch directory to the project. */
  method RunBuild(options: Option<Options>, cwd: string, pluginDir: string, buildOutDir: Option<string>,
    listing: seq<string>, existing: set<string>, reactVersion: Option<string>, render: string -> Option<string>)
    returns (input: EntryObject, writes: seq<(string, string)>, moveFrom: string, moveTo: string)
    ensures forall k :: Get(input, k) ==
                        if Named(listing, PagesRoot(cwd), existing, UserOptionsOf(options).lowerCase, k)
                        then Some(HtmlPath(Join(cwd, TempDirName(options)), k)) else None
    ensures forall v, w :: 0 <= v < w < |writes| ==> writes[v].0 != writes[w].0
    ensures moveFrom == Join(Join(cwd, TempDirName(options)), OutDirName(buildOutDir))
    ensures moveTo == Join(cwd, OutDirName(buildOutDir))
  {
    var plugin := new ReactMpaPlugin(options, cwd, pluginDir);
    var result;
    result, writes := plugin.Config(buildOutDir, listing, existing, reactVersion, render);
    input := result.input;
    moveFrom, moveTo := plugin.CloseBundle();
    var u := plugin.userOptions;
    var root := PagesRoot(cwd);
    var entry := Collected(listing, root, existing, u.lowerCase);
    forall k ensures Get(input, k) ==
      if Named(listing, root, existing, u.lowerCase, k) then Some(HtmlPath(plugin.tempDirPath, k)) else None
    {
      RewriteKeepsKeys(entry, plugin.tempDirPath, k);
      CollectedKeys(listing, root, existing, u.lowerCase, k);
    }
    ArtifactPathsDistinct(Build(cwd, pluginDir, plugin.tempDirPath, existing, reactVersion, render), u,
      PreludeOf(u, cwd, existing, reactVersion), entry);
  }
}
