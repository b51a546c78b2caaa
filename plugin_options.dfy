/** How the plugin fills in its option defaults. */
module PluginOptions {
  import opened Types

  /** The options after `{ mountElementId: 'root', ...options }`. A `None`
      mount-element id stands for an explicit `undefined`. */
  datatype UserOptions = UserOptions(
    template: Option<string>,
    mountElementId: Option<string>,
    globalImport: Option<seq<string>>,
    lowerCase: Option<bool>,
    layout: Option<string>)

  /** The object spread: a key that is present, even with the value `undefined`,
      overrides the default `'root'`; every other option is copied unchanged. A
      missing options argument spreads nothing. */
  function UserOptionsOf(options: Option<Options>): (u: UserOptions)
    ensures options.None? ==> u == UserOptions(None, Some("root"), None, None, None)
    ensures options.Some? ==>
      u.template == options.value.template && u.globalImport == options.value.globalImport
      && u.lowerCase == options.value.lowerCase && u.layout == options.value.layout
    ensures u.mountElementId == Some("root") <==>
      options.None? || options.value.mountElementId.Absent? || options.value.mountElementId == Given("root")
    ensures u.mountElementId.None? <==> options.Some? && options.value.mountElementId.Undefined?
    ensures options.Some? && options.value.mountElementId.Given? ==>
      u.mountElementId == Some(options.value.mountElementId.value)
  {
    match options
    case None => UserOptions(None, Some("root"), None, None, None)
    case Some(o) =>
      var id := match o.mountElementId
        case Absent => Some("root")
        case Undefined => None
        case Given(v) => Some(v);
      UserOptions(o.template, id, o.globalImport, o.lowerCase, o.layout)
  }

  /** The mount-element id as a template literal prints it: `undefined` for an
      explicit `undefined`. */
  function MountIdText(id: Option<string>): string
  {
    match id
    case None => "undefined"
    case Some(v) => v
  }

  /** `options?.tempDir || '.mpa'`: the scratch directory name is never empty. */
  function TempDirName(options: Option<Options>): (r: string)
    ensures r != ""
    ensures r == ".mpa" || (options.Some? && Some(r) == options.value.tempDir)
    ensures options.Some? && Truthy(options.value.tempDir) ==> r == options.value.tempDir.value
  {
    if options.Some? && Truthy(options.value.tempDir) then options.value.tempDir.value else ".mpa"
  }

  /** `config.build?.outDir || 'dist'`: the output directory name is never empty. */
  function OutDirName(buildOutDir: Option<string>): (r: string)
    ensures r != ""
    ensures r == "dist" || Some(r) == buildOutDir
    ensures Truthy(buildOutDir) ==> r == buildOutDir.value
  {
    if Truthy(buildOutDir) then buildOutDir.value else "dist"
  }
}
