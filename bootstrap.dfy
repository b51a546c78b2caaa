/** The bootstrap script each page gets: imports of React, ReactDOM, the page
    component, the optional layout and the global side-effect modules, then the
    statement that mounts the page. */
module Bootstrap {
  import opened Types
  import opened Text
  import opened JsonString
  import opened Paths
  import opened PluginOptions

  /** `dependencies.react` of the project manifest as `RegExp.prototype.test` sees
      it: a missing version is converted to the text "undefined". */
  function VersionText(version: Option<string>): string
  {
    match version
    case None => "undefined"
    case Some(v) => v
  }

  /** The start-of-input anchor `^` (the expression has no multiline flag). */
  predicate AtInputStart(pos: int)
  {
    pos == 0
  }

  /** One attempt of `/(~|\\^)?18/` at position `i`: the optional group first
      tries `~`, then a backslash followed by the anchor `^`, then nothing; "18"
      must follow. */
  predicate VersionRegexAt(s: string, i: nat)
  {
    (i < |s| && s[i] == '~' && OccursAt(s, "18", i + 1))
    || (i < |s| && s[i] == '\\' && AtInputStart(i + 1) && OccursAt(s, "18", i + 1))
    || OccursAt(s, "18", i)
  }

  /** `versionReg.test(reactVersion)`. */
  predicate IsReact18(version: Option<string>)
  {
    var t := VersionText(version);
    exists i | 0 <= i <= |t| :: VersionRegexAt(t, i)
  }

  /** The optional group cannot restrict the match: the test holds exactly when
      the version text contains "18" anywhere. */
  lemma React18Iff(version: Option<string>)
    ensures IsReact18(version) <==> Contains(VersionText(version), "18")
  {
    var t := VersionText(version);
    if IsReact18(version) {
      var i :| 0 <= i <= |t| && VersionRegexAt(t, i);
      if !OccursAt(t, "18", i) {
        assert OccursAt(t, "18", i + 1);
      }
    }
    if Contains(t, "18") {
      var i :| 0 <= i <= |t| && OccursAt(t, "18", i);
      assert VersionRegexAt(t, i);
    }
  }

  /** A project without a React dependency gets the legacy API. */
  lemma MissingVersionIsLegacy()
    ensures !IsReact18(None)
  {
    React18Iff(None);
    var t := VersionText(None);
    assert t == "undefined";
    forall i | 0 <= i <= |t| ensures !OccursAt(t, "18", i) {
      if i + 2 <= |t| {
        assert t[i..i + 2][0] == t[i] && t[i..i + 2][1] == t[i + 1];
      }
    }
  }

  /** The path written for `p`: the project-relative path when it exists,
      otherwise `p` itself (a package name, say). */
  function ResolvePath(context: string, existing: set<string>, p: string): string
  {
    if Join(context, p) in existing then Join(context, p) else p
  }

  /** `getAbsPathForEntry`: the resolved path as the body of a string literal. */
  function AbsPathForEntry(context: string, existing: set<string>, p: string): (r: string)
    ensures Decode(r) == Some(if Join(context, p) in existing then Join(context, p) else p)
    ensures '\n' !in r
  {
    var valid := ResolvePath(context, existing, p);
    DecodeEscape(valid);
    Escape(valid)
  }

  function ImportLine(spec: string): string
  {
    "import '" + spec + "';"
  }

  /** The reduce over `globalImport`: each step appends a line break and an import
      statement to the accumulator and trims leading white space. */
  function ReduceImports(acc: string, items: seq<string>, context: string, existing: set<string>): string
    decreases |items|
  {
    if items == [] then acc
    else ReduceImports(TrimStart(acc + "\n" + ImportLine(AbsPathForEntry(context, existing, items[0]))), items[1..], context, existing)
  }

  /** The global-import block; empty when the option is absent. */
  function GlobalImportBlock(globalImport: Option<seq<string>>, context: string, existing: set<string>): string
  {
    match globalImport
    case None => ""
    case Some(items) => ReduceImports("", items, context, existing)
  }

  /** One import statement per global import, in option order. */
  function ImportLines(items: seq<string>, context: string, existing: set<string>): seq<string>
  {
    seq(|items|, i requires 0 <= i < |items| => ImportLine(AbsPathForEntry(context, existing, items[i])))
  }

  lemma {:induction false} ReduceFrom(acc: string, items: seq<string>, context: string, existing: set<string>)
    requires acc != "" && !IsJsWhiteSpace(acc[0])
    ensures ReduceImports(acc, items, context, existing) == acc + NewlineEach(ImportLines(items, context, existing))
    decreases |items|
  {
    if items != [] {
      var line := ImportLine(AbsPathForEntry(context, existing, items[0]));
      var next := acc + "\n" + line;
      TrimStartKeeps(next);
      ReduceFrom(next, items[1..], context, existing);
      assert ImportLines(items, context, existing)[1..] == ImportLines(items[1..], context, existing);
    }
  }

  /** The reduce with its `trimStart` amounts to joining the import statements
      with line breaks. */
  lemma GlobalImportBlockJoins(items: seq<string>, context: string, existing: set<string>)
    ensures GlobalImportBlock(Some(items), context, existing) == JoinLines(ImportLines(items, context, existing))
  {
    if items != [] {
      var line := ImportLine(AbsPathForEntry(context, existing, items[0]));
      assert ("" + "\n" + line)[1..] == line;
      TrimStartKeeps(line);
      ReduceFrom(line, items[1..], context, existing);
      assert ImportLines(items, context, existing)[1..] == ImportLines(items[1..], context, existing);
    }
  }

  function LayoutImport(layout: Option<string>, context: string, existing: set<string>): (r: string)
    ensures '\n' !in r
  {
    if Truthy(layout) then "import Layout from '" + AbsPathForEntry(context, existing, layout.value) + "';" else ""
  }

  function LayoutJsx(layout: Option<string>): (r: string)
    ensures '\n' !in r
  {
    if Truthy(layout) then "<Layout><App /></Layout>" else "<App />"
  }

  function RootElement(mountElementId: Option<string>): (r: string)
    ensures '\n' !in MountIdText(mountElementId) ==> '\n' !in r
  {
    "document.getElementById('" + MountIdText(mountElementId) + "')"
  }

  function ReactDomSource(react18: bool): (r: string)
    ensures '\n' !in r
  {
    if react18 then "react-dom/client" else "react-dom"
  }

  function Renderer(react18: bool, jsx: string, rootElement: string): (r: string)
    ensures '\n' !in jsx && '\n' !in rootElement ==> '\n' !in r
  {
    if react18 then "ReactDOM.createRoot(" + rootElement + ").render(" + jsx + ");"
    else "ReactDOM.render(" + jsx + ", " + rootElement + ");"
  }

  /** The parts of the script computed once per build. */
  datatype Prelude = Prelude(reactDomSource: string, layoutImport: string, globalImport: string, renderer: string)

  function PreludeOf(u: UserOptions, context: string, existing: set<string>, reactVersion: Option<string>): Prelude
  {
    var react18 := IsReact18(reactVersion);
    Prelude(
      ReactDomSource(react18),
      LayoutImport(u.layout, context, existing),
      GlobalImportBlock(u.globalImport, context, existing),
      Renderer(react18, LayoutJsx(u.layout), RootElement(u.mountElementId)))
  }

  /** `a`, a line break, then `b`. */
  function Line(a: string, b: string): string
  {
    a + "\n" + b
  }

  const Banner: string := "// DO NOT CHANGE IT MANUALLY!"
  const ReactImport: string := "import React from 'react';"
  /** The indentation before the template's closing backquote, kept by `trimStart`. */
  const Trailer: string := "      "

  function ReactDomImport(source: string): (r: string)
    ensures '\n' !in source ==> '\n' !in r
  {
    "import ReactDOM from '" + source + "';"
  }

  function AppImport(filePath: string): (r: string)
    ensures '\n' !in r
  {
    "import App from '" + Escape(filePath) + "';"
  }

  /** The script template before `trimStart`: a line break, then the lines of the
      script (the layout import only when there is one). */
  function Template(p: Prelude, filePath: string): string
  {
    var rest := Line(p.globalImport, Line(p.renderer, Trailer));
    "\n" + Line(Banner, Line(ReactImport, Line(ReactDomImport(p.reactDomSource),
      if p.layoutImport == "" then Line(AppImport(filePath), rest)
      else Line(AppImport(filePath), Line(p.layoutImport, rest)))))
  }

  /** The script text for the page whose component is `filePath`. */
  function Script(p: Prelude, filePath: string): string
  {
    TrimStart(Template(p, filePath))
  }

  /** The global-import lines: one per item, or a single empty line. */
  ghost function ExpectedGlobalLines(globalImport: Option<seq<string>>, context: string, existing: set<string>): seq<string>
  {
    if globalImport.None? || globalImport.value == [] then [""]
    else
      var items := globalImport.value;
      seq(|items|, i requires 0 <= i < |items| => "import '" + Escape(ResolvePath(context, existing, items[i])) + "';")
  }

  /** The lines a page's script must consist of, in order. */
  ghost function ExpectedScriptLines(u: UserOptions, context: string, existing: set<string>,
    reactVersion: Option<string>, filePath: string): seq<string>
  {
    var react18 := Contains(VersionText(reactVersion), "18");
    var root := "document.getElementById('" + MountIdText(u.mountElementId) + "')";
    var jsx := if Truthy(u.layout) then "<Layout><App /></Layout>" else "<App />";
    [Banner,
     ReactImport,
     "import ReactDOM from '" + (if react18 then "react-dom/client" else "react-dom") + "';",
     "import App from '" + Escape(filePath) + "';"]
    + (if Truthy(u.layout) then ["import Layout from '" + Escape(ResolvePath(context, existing, u.layout.value)) + "';"] else [])
    + ExpectedGlobalLines(u.globalImport, context, existing)
    + [if react18 then "ReactDOM.createRoot(" + root + ").render(" + jsx + ");"
       else "ReactDOM.render(" + jsx + ", " + root + ");",
       Trailer]
  }

  lemma LinesOfLine(a: string, b: string)
    requires '\n' !in a
    ensures Lines(Line(a, b)) == [a] + Lines(b)
  {
    LinesAppend(a, b);
  }

  /** Splitting a chain of lines built with `Line`. */
  lemma LinesOfChain(a: string, b: string, c: string, d: string, lay: string, g: string, r: string, e: string)
    requires '\n' !in a && '\n' !in b && '\n' !in c && '\n' !in d
    requires '\n' !in lay && '\n' !in r && '\n' !in e
    ensures Lines(Line(a, Line(b, Line(c,
      if lay == "" then Line(d, Line(g, Line(r, e))) else Line(d, Line(lay, Line(g, Line(r, e))))))))
      == [a, b, c, d] + (if lay == "" then [] else [lay]) + Lines(g) + [r, e]
  {
    var rest := Line(g, Line(r, e));
    LinesOfLine(r, e);
    LinesAppend(g, Line(r, e));
    var layLines: seq<string> := if lay == "" then [] else [lay];
    var t := if lay == "" then Line(d, rest) else Line(d, Line(lay, rest));
    LinesOfLayout(d, lay, rest);
    LinesOfLine(c, t);
    LinesOfLine(b, Line(c, t));
    LinesOfLine(a, Line(b, Line(c, t)));
    Regroup(a, b, c, d, layLines, Lines(g), r, e);
  }

  lemma LinesOfLayout(d: string, lay: string, rest: string)
    requires '\n' !in d && '\n' !in lay
    ensures Lines(if lay == "" then Line(d, rest) else Line(d, Line(lay, rest)))
      == [d] + ((if lay == "" then [] else [lay]) + Lines(rest))
  {
    if lay == "" {
      LinesOfLine(d, rest);
      assert [d] + ([] + Lines(rest)) == [d] + Lines(rest);
    } else {
      LinesOfLine(lay, rest);
      LinesOfLine(d, Line(lay, rest));
      assert Lines(Line(d, Line(lay, rest))) == [d] + ([lay] + Lines(rest));
    }
  }

  lemma Regroup<T>(a: T, b: T, c: T, d: T, l: seq<T>, g: seq<T>, r: T, e: T)
    ensures [a] + ([b] + ([c] + ([d] + (l + (g + ([r] + [e])))))) == [a, b, c, d] + l + g + [r, e]
  {
  }

  lemma FixedLinesSingle()
    ensures '\n' !in Banner && '\n' !in ReactImport && '\n' !in Trailer
  {
  }

  /** `trimStart` removes only the template's leading line break. */
  lemma ScriptIsTemplateTail(p: Prelude, filePath: string)
    ensures Script(p, filePath) == Template(p, filePath)[1..]
  {
    var t := Template(p, filePath);
    assert t[1] == Banner[0] == '/';
    TrimStartKeeps(t[1..]);
  }

  /** The script splits into its fixed lines, the layout import line when there
      is one, the lines of the global-import block and the mount statement. */
  lemma LinesOfScript(p: Prelude, filePath: string)
    requires '\n' !in p.reactDomSource && '\n' !in p.layoutImport && '\n' !in p.renderer
    ensures Lines(Script(p, filePath)) ==
      [Banner, ReactImport, ReactDomImport(p.reactDomSource), AppImport(filePath)]
      + (if p.layoutImport == "" then [] else [p.layoutImport])
      + Lines(p.globalImport) + [p.renderer, Trailer]
  {
    FixedLinesSingle();
    ScriptIsTemplateTail(p, filePath);
    var t := Template(p, filePath);
    var rest := Line(p.globalImport, Line(p.renderer, Trailer));
    var body := Line(Banner, Line(ReactImport, Line(ReactDomImport(p.reactDomSource),
      if p.layoutImport == "" then Line(AppImport(filePath), rest)
      else Line(AppImport(filePath), Line(p.layoutImport, rest)))));
    assert t == "\n" + body;
    assert t[1..] == body;
    LinesOfChain(Banner, ReactImport, ReactDomImport(p.reactDomSource), AppImport(filePath),
      p.layoutImport, p.globalImport, p.renderer, Trailer);
  }

  /** The lines of the global-import block: one import per item, in option order. */
  lemma LinesOfGlobalImports(globalImport: Option<seq<string>>, context: string, existing: set<string>)
    ensures Lines(GlobalImportBlock(globalImport, context, existing)) == ExpectedGlobalLines(globalImport, context, existing)
  {
    if globalImport.Some? && globalImport.value != [] {
      var items := globalImport.value;
      GlobalImportBlockJoins(items, context, existing);
      LinesOfJoin(ImportLines(items, context, existing));
    } else if globalImport.Some? {
      GlobalImportBlockJoins([], context, existing);
    }
  }

  /** The script consists of exactly the expected lines: the header comment, the
      React and ReactDOM imports, the page import, the layout import when a layout
      is set, the global imports (an empty line when there are none), the mount
      statement (createRoot for React 18, the legacy render otherwise, wrapping the
      page in the layout when one is set) and the trailing indentation of the
      template. */
  lemma ScriptLayout(u: UserOptions, context: string, existing: set<string>, reactVersion: Option<string>, filePath: string)
    requires '\n' !in MountIdText(u.mountElementId)
    ensures Lines(Script(PreludeOf(u, context, existing, reactVersion), filePath))
      == ExpectedScriptLines(u, context, existing, reactVersion, filePath)
  {
    var p := PreludeOf(u, context, existing, reactVersion);
    React18Iff(reactVersion);
    LinesOfGlobalImports(u.globalImport, context, existing);
    LinesOfScript(p, filePath);
    assert (if p.layoutImport == "" then [] else [p.layoutImport]) ==
      (if Truthy(u.layout) then ["import Layout from '" + Escape(ResolvePath(context, existing, u.layout.value)) + "';"] else []);
  }
}
