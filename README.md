# vite-plugin-react-mpa, modelled in Dafny

A Dafny model of `vitePluginReactMpa`. This Vite plugin turns every folder under
`src/pages` that holds an `index.tsx` or `index.jsx` into a page of a multi-page
application. For each page it works in a scratch directory (`.mpa` unless
`tempDir` names another). There it generates a bootstrap script that mounts the
page with ReactDOM, and an HTML document rendered from an ejs template with a
`<script type="module">` tag for that script injected before `</body>`. The
`config` hook hands the bundler the scratch directory as its root and the map
from entry name to HTML document as its input. The `closeBundle` hook moves the
build output from the scratch directory back into the project.

Modules, one per file:

- `Types`: `Option`, the three-state `Field` (absent, explicitly `undefined`,
  given) and the plugin's `Options` record.
- `EntryObjects`: the JavaScript entry object, as an insertion-ordered list of
  (entry name, path) pairs. `Put` is the assignment `entry[name] = path`.
- `Paths`: `path.join` on the forms the plugin produces, and
  `join(file, '../html.ejs')`.
- `Text`: `trimStart`, ASCII `toLowerCase`, `indexOf`, and splitting into lines.
- `JsonString`: the escaping done by `JSON.stringify(s).slice(1, -1)`, after
  section 7 of RFC 8259, and a decoder for it.
- `PluginOptions`: the option defaults and the `{ mountElementId: 'root', ...options }` spread.
- `Collect`: `getIndexFilePath` and `collectEntry`.
- `Bootstrap`: the React 18 test, the import helpers and the generated script.
- `Html`: choosing the template, and injecting the script tag with `String.prototype.replace`.
- `Scaffold`: `createTempFile`, meaning the files it writes and the rewritten entry object.
- `Plugin`: the plugin object (a class whose `outDir` is set by `config` and
  read by `closeBundle`), and one whole build.

The file system is given as data:

- the set of existing paths;
- the listing of `src/pages`;
- the `dependencies.react` field of `package.json` (`None` when absent);
- the ejs renderer, as a function from template path to rendered text (`None` when rendering fails).

Writes are returned as a list of (path, contents) pairs in the order the source issues them.

## Model

| member | source | states |
|---|---|---|
| EntryObjects.Put | src/index.ts:93 | assigning an existing key keeps the key order and the length; a new key is appended at the end; keys stay distinct |
| EntryObjects.GetIffKey | src/index.ts:93 | a lookup succeeds exactly for the keys of the object |
| EntryObjects.GetPut | src/index.ts:93 | after `entry[k] = v`, reading `k` gives `v` and every other key reads as before |
| EntryObjects.PutExisting | src/index.ts:69 | assigning a key already present replaces that pair's value in place |
| Paths.LastSlash | src/index.ts:53 | finds the position of the last `/`, or reports that there is none |
| Paths.SiblingOfJoin | src/index.ts:53 | `join(join(dir, name), '../html.ejs')` is `join(dir, 'html.ejs')` for any plain file name |
| Text.TrimStart | src/index.ts:29 | the result is a suffix of the input, does not start with whitespace, and everything removed was whitespace |
| Text.TrimStartKeeps | src/index.ts:50 | a string not starting with whitespace is left unchanged |
| Text.IndexOfFrom | src/index.ts:66 | the result is the first occurrence of the pattern at or after the start, or none exists |
| Text.LinesAppend | src/index.ts:43-50 | the lines of `a + "\n" + b` are the lines of `a` followed by the lines of `b` |
| Text.LinesOfJoin | src/index.ts:28-30 | joining newline-free lines with line breaks and splitting again gives the lines back |
| JsonString.Escape | src/index.ts:15-17 | the escaped text holds no control character, in particular no line break |
| JsonString.DecodeEscape | src/index.ts:15-17 | decoding the escaped text gives back the original string, so escaping loses nothing |
| JsonString.EscapePlain | src/index.ts:15-17 | a string without quote, backslash or control characters is unchanged; a single quote is not escaped |
| JsonString.HexRoundTrip | src/index.ts:16 | each hexadecimal digit written by the escaper reads back as its value |
| JsonString.DecodeEscapeChar | src/index.ts:16 | decoding one escaped character followed by more text decodes that character and then the rest |
| PluginOptions.UserOptionsOf | src/index.ts:11-14 | the mount id is `'root'` exactly when the option is absent or `'root'`; it is `undefined` exactly when it is given as `undefined`; a mount id given as a string is copied; every other option is copied |
| PluginOptions.TempDirName | src/index.ts:10 | the scratch directory name is never empty: it is the `tempDir` option when truthy, `.mpa` otherwise |
| PluginOptions.OutDirName | src/index.ts:103 | the output directory is never empty: it is the build's `outDir` when truthy, `dist` otherwise |
| Collect.IndexFile | src/index.ts:76-86 | a page folder has an index file exactly when `index.tsx` or `index.jsx` exists in it; `index.tsx` is preferred |
| Collect.GetIndexFilePath | src/index.ts:76-86 | the loop over the extensions returns the index file, stopping at the first that exists |
| Collect.Collected | src/index.ts:88-95 | the collected entry object never holds a key twice |
| Collect.CollectEntry | src/index.ts:73-98 | walking the listing yields the collected entry object |
| Collect.NamedSplit | src/index.ts:88-95 | an entry name is produced by a listing with one more name exactly when the shorter listing or that name produces it |
| Collect.StepKeys | src/index.ts:89-94 | one folder adds its own entry name when it has an index file and is not hidden, and otherwise adds nothing |
| Collect.CollectedKeys | src/index.ts:88-95 | the entry names are exactly the (optionally lower-cased) names of the non-hidden folders that hold an index file |
| Collect.StepOtherKey | src/index.ts:89-94 | one folder leaves the entries of other names untouched |
| Collect.CollectedLastWins | src/index.ts:88-95 | when two folders share an entry name, the entry holds the index file of the later one in listing order |
| Bootstrap.React18Iff | src/index.ts:25-27 | the version test of line 26 holds exactly when the version text contains `18` |
| Bootstrap.MissingVersionIsLegacy | src/index.ts:25-27 | without a React dependency the version reads `undefined` and the legacy API is chosen |
| Bootstrap.AbsPathForEntry | src/index.ts:18-22 | the text placed in an import decodes to the path joined onto the project when that path exists, otherwise to the path as given; it holds no line break |
| Bootstrap.ReduceFrom | src/index.ts:28-30 | the reduce over the global imports with `trimStart` equals its accumulator joined line by line with the import lines |
| Bootstrap.GlobalImportBlockJoins | src/index.ts:28-30 | the global import block is one import statement per listed module, one per line |
| Bootstrap.LayoutImport | src/index.ts:32 | the layout import is a single line |
| Bootstrap.LayoutJsx | src/index.ts:33 | the page element is a single line |
| Bootstrap.RootElement | src/index.ts:34 | the mount-point lookup is a single line whenever the mount id is |
| Bootstrap.ReactDomSource | src/index.ts:35 | the ReactDOM module name is a single line |
| Bootstrap.Renderer | src/index.ts:36-38 | the mount statement is a single line whenever the mount-point lookup is |
| Bootstrap.ReactDomImport | src/index.ts:46 | the ReactDOM import is a single line whenever its module name is |
| Bootstrap.AppImport | src/index.ts:47 | the page import is a single line |
| Bootstrap.LinesOfLine | src/index.ts:43-50 | a newline-free first line followed by a line break splits off as one line |
| Bootstrap.LinesOfChain | src/index.ts:43-50 | the chained template splits into its fixed lines, the optional layout line, the global-import lines and the mount statement |
| Bootstrap.LinesOfLayout | src/index.ts:47 | the layout import adds exactly one line when set and none otherwise |
| Bootstrap.ScriptIsTemplateTail | src/index.ts:43-50 | `trimStart` removes only the template's leading line break |
| Bootstrap.LinesOfScript | src/index.ts:43-50 | the script's lines are the fixed imports, the optional layout import, the global-import lines, the mount statement and the trailer |
| Bootstrap.LinesOfGlobalImports | src/index.ts:28-30 | the global-import block contributes one empty line when there are no global imports, and one import line per module otherwise |
| Bootstrap.ScriptLayout | src/index.ts:23-50 | the generated script is, line by line, the banner, the React and ReactDOM imports (`react-dom/client` for React 18), the page import, the layout import when set, the global imports, and `createRoot(...).render(...)` or legacy `render(...)` with the page wrapped in the layout |
| Html.TemplatePath | src/index.ts:52-60 | the page's own `html.ejs` wins; otherwise the configured template under the project; otherwise the plugin's default |
| Html.PageTemplateWins | src/index.ts:53-55 | for an index file, the template looked up is `html.ejs` in the page's own folder whenever that file exists |
| Html.SubstitutePlain | src/index.ts:66 | a replacement without `$` is inserted literally |
| Html.InjectBeforeFirstBodyClose | src/index.ts:65-66 | without `</body>` the rendered text is unchanged; otherwise the script tag is inserted right before the first `</body>` |
| Html.SubstituteLiteralPrefix | src/index.ts:66 | dollar-free text at the head of a replacement is copied and the rest substituted after it |
| Html.DollarPatternInName | src/index.ts:65-66 | for any dollar-free text around it, a `$&` in the replacement is read as the matched text (`</body>` here), not literally |
| Scaffold.JoinInjective | src/index.ts:41-42 | joining onto the same scratch directory never maps two names to one path |
| Scaffold.SuffixInjective | src/index.ts:41-42 | adding the same extension never maps two entry names to one file name |
| Scaffold.PathOfInjective | src/index.ts:41-42 | a scratch file belongs to at most one entry name |
| Scaffold.ScriptIsNotDocument | src/index.ts:41-42 | a page's script and its HTML document are different files |
| Scaffold.DocumentWrites | src/index.ts:61-68 | at most one document is written per page, at its HTML path |
| Scaffold.PageWrites | src/index.ts:51-68 | a page writes its script first and then at most its HTML document, and only to its own paths |
| Scaffold.ArtifactsSnoc | src/index.ts:40 | the files written for one more page are those written before followed by that page's files |
| Scaffold.RewriteStep | src/index.ts:69 | rewriting one more entry extends the rewritten prefix by that entry's HTML path |
| Scaffold.WritePage | src/index.ts:41-68 | the files written for one page are its page writes |
| Scaffold.CreateTempFile | src/index.ts:23-72 | every entry is rewritten in place to its HTML document, keeping the key order, and the files written are the script and document of each page in turn |
| Scaffold.RewriteKeepsKeys | src/index.ts:69-71 | the rewritten entry object has the same keys, and each key leads to its HTML document in the scratch directory |
| Scaffold.ArtifactOwners | src/index.ts:40-70 | every file written belongs to one of the entries |
| Scaffold.ArtifactPathsDistinct | src/index.ts:40-70 | no file is written twice in one run |
| Scaffold.PageWritesContents | src/index.ts:51-67 | a page writes its generated script, and the injected document exactly when its template renders |
| Scaffold.PageFilesWritten | src/index.ts:40-70 | every entry's script is written, and its document whenever its template renders |
| Plugin.ReactMpaPlugin.constructor | src/index.ts:7-14 | the factory fixes the project directory, the scratch directory and the merged options; `outDir` starts empty |
| Plugin.ReactMpaPlugin.Config | src/index.ts:102-114 | `config` records the output directory and returns the scratch root and the rewritten collected entries; it writes the scaffold files |
| Plugin.ReactMpaPlugin.CloseBundle | src/index.ts:115-117 | `closeBundle` moves the output directory from the scratch directory to the same name in the project |
| Plugin.RunBuild | src/index.ts:7-118 | over a whole build, the input has an entry exactly for each produced entry name, leading to its HTML document; no file is written twice; the output directory is moved back into the project |

## Left out

- File-system effects of `fs-extra` (`emptyDirSync`, `outputFileSync`, `moveSync`,
  `readJsonSync`): these are given as data or returned as writes. Emptying the
  scratch directory is not represented.
- The timing of `ejs.renderFile`'s callback: the model writes each document
  right after its script. It does not capture that the callback may run after
  `config` has returned, so the write order in the returned list is the order
  of issue, not of completion.
- A failing render: the source throws inside the callback. The model only
  leaves that document unwritten.
- `readJsonSync` throwing when `package.json` is missing or has no
  `dependencies` field: the model starts from the React version, or its absence.
- The `console.log` of the collection time, and the clock it reads.
- The Vite hook object's `name` field and its nesting under `build.rollupOptions`:
  the model returns the root and the input directly.
- Paths.Join: does not normalise `..`, `.` or repeated slashes the way
  `path.join` does. It is exact for the paths the plugin builds from a
  normalised working directory and plain names.
- EntryObjects.Put: does not model the JavaScript rule that places
  integer-like keys before other keys in enumeration order. It also does not
  model the `__proto__` key. On the plain object of src/index.ts:75,
  `entry['__proto__'] = path` calls the inherited `__proto__` setter, which
  ignores a string, so no entry is created. The model adds one, so for a
  page folder named `__proto__` (or any case of it when `lowerCase` is set),
  `Collect.CollectedKeys` and `Plugin.RunBuild` promise an entry the
  program never has.
- Collect.CollectEntry: takes the listing of `src/pages` as given. When that
  folder is missing or unreadable, `readdirSync` at src/index.ts:88 throws
  and the build fails; the model does not represent that error.
- Text.ToLower: lower-cases only ASCII letters, not the full Unicode mapping
  of `toLowerCase`.
- JsonString.Escape: lone surrogates are not escaped as `\uXXXX`. Dafny
  characters are Unicode scalar values, so no lone surrogate can occur.
- JsonString.Decode: rejects every `\u` surrogate escape instead of pairing
  surrogates. It is only used to state that escaping is invertible.
- Bootstrap.ScriptLayout: requires that the mount element id holds no line
  break, because the line-by-line form of the script is stated only for that case.
- Html.InjectBeforeFirstBodyClose: requires an entry name without `$`. For
  other names the replacement patterns of `String.prototype.replace` apply;
  `Html.Substitute` models them and `Html.DollarPatternInName` shows the effect.
