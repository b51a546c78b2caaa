/** Scaffold generation (`createTempFile`): for each entry, the bootstrap script
    and the HTML document written to the scratch directory, and the entry object
    rewritten in place to point at the HTML documents. */
module Scaffold {
  import opened Types
  import opened EntryObjects
  import opened Paths
  import opened Bootstrap
  import opened Html
  import opened PluginOptions

  /** What the generation reads from the environment: the project root, the
      plugin's own directory, the scratch directory, the paths that exist, the
      React version of the project manifest, and the template engine's output for
      a template path (`None` when rendering fails). */
  datatype Build = Build(
    context: string,
    pluginDir: string,
    tempDirPath: string,
    existing: set<string>,
    reactVersion: Option<string>,
    render: string -> Option<string>)

  function JsPath(tempDirPath: string, entryName: string): string
  {
    Join(tempDirPath, entryName + ".jsx")
  }

  function HtmlPath(tempDirPath: string, entryName: string): string
  {
    Join(tempDirPath, entryName + ".html")
  }

  /** The path of one of the two files of page `entryName`. */
  ghost predicate PathOf(tempDirPath: string, entryName: string, path: string)
  {
    path == JsPath(tempDirPath, entryName) || path == HtmlPath(tempDirPath, entryName)
  }

  lemma JoinInjective(t: string, x: string, y: string)
    requires x != "" && y != "" && Join(t, x) == Join(t, y)
    ensures x == y
  {
    if t != "" {
      assert x == Join(t, x)[|t| + 1..];
    }
  }

  lemma SuffixInjective(n: string, m: string, suffix: string)
    requires n + suffix == m + suffix
    ensures n == m
  {
    assert n == (n + suffix)[..|n|];
  }

  /** Different pages never share a file. */
  lemma PathOfInjective(t: string, n: string, m: string, path: string)
    requires PathOf(t, n, path) && PathOf(t, m, path)
    ensures n == m
  {
    var jn, hn, jm, hm := n + ".jsx", n + ".html", m + ".jsx", m + ".html";
    assert jn[|jn| - 1] == 'x' && jm[|jm| - 1] == 'x' && hn[|hn| - 1] == 'l' && hm[|hm| - 1] == 'l';
    if path == JsPath(t, n) {
      if path == JsPath(t, m) {
        JoinInjective(t, jn, jm);
        SuffixInjective(n, m, ".jsx");
      } else {
        JoinInjective(t, jn, hm);
      }
    } else {
      if path == JsPath(t, m) {
        JoinInjective(t, hn, jm);
      } else {
        JoinInjective(t, hn, hm);
        SuffixInjective(n, m, ".html");
      }
    }
  }

  lemma ScriptIsNotDocument(t: string, n: string)
    ensures JsPath(t, n) != HtmlPath(t, n)
  {
    var a := JsPath(t, n);
    var b := HtmlPath(t, n);
    assert a[|a| - 1] == 'x' && b[|b| - 1] == 'l';
  }

  /** The HTML document of one page, written when its template renders. */
  function DocumentWrites(b: Build, u: UserOptions, entryName: string, filePath: string): (r: seq<(string, string)>)
    ensures |r| <= 1
    ensures forall w :: 0 <= w < |r| ==> r[w].0 == HtmlPath(b.tempDirPath, entryName)
  {
    match b.render(TemplatePath(filePath, b.existing, u.template, b.context, b.pluginDir))
    case None => []
    case Some(str) => [(HtmlPath(b.tempDirPath, entryName), InjectScript(str, entryName))]
  }

  /** The files written for one page, as (path, contents): the script, then the
      HTML document when its template renders. */
  function PageWrites(b: Build, u: UserOptions, prelude: Prelude, entryName: string, filePath: string): (r: seq<(string, string)>)
    ensures 1 <= |r| <= 2 && r[0].0 == JsPath(b.tempDirPath, entryName)
    ensures forall w :: 0 <= w < |r| ==> PathOf(b.tempDirPath, entryName, r[w].0)
    ensures forall w :: 1 <= w < |r| ==> r[w].0 == HtmlPath(b.tempDirPath, entryName)
  {
    [(JsPath(b.tempDirPath, entryName), Script(prelude, filePath))] + DocumentWrites(b, u, entryName, filePath)
  }

  /** The files written for the pages of `e`, page by page. */
  function Artifacts(b: Build, u: UserOptions, prelude: Prelude, e: EntryObject): seq<(string, string)>
    decreases |e|
  {
    if e == [] then []
    else Artifacts(b, u, prelude, e[..|e| - 1]) + PageWrites(b, u, prelude, e[|e| - 1].0, e[|e| - 1].1)
  }

  lemma ArtifactsSnoc(b: Build, u: UserOptions, prelude: Prelude, e: EntryObject, i: nat)
    requires i < |e|
    ensures Artifacts(b, u, prelude, e[..i + 1]) == Artifacts(b, u, prelude, e[..i]) + PageWrites(b, u, prelude, e[i].0, e[i].1)
  {
    assert e[..i + 1][..i] == e[..i];
  }

  lemma RewriteStep(e: EntryObject, i: nat, t: string)
    requires i < |e|
    ensures (Rewrite(e[..i], t) + e[i..])[i := (e[i].0, HtmlPath(t, e[i].0))] == Rewrite(e[..i + 1], t) + e[i + 1..]
  {
  }

  /** The entry object after generation: the same keys in the same order, each
      mapped to its HTML document. */
  function Rewrite(e: EntryObject, tempDirPath: string): EntryObject
  {
    seq(|e|, i requires 0 <= i < |e| => (e[i].0, HtmlPath(tempDirPath, e[i].0)))
  }

  /** The `forEach` callback of `createTempFile` for one entry, step by step: the
      script, then, from the template engine's callback, the HTML document.
      `PageWrites` is its specification. */
  method WritePage(b: Build, u: UserOptions, prelude: Prelude, entryName: string, filePath: string)
    returns (pageWrites: seq<(string, string)>)
    ensures pageWrites == PageWrites(b, u, prelude, entryName, filePath)
  {
    var jsPath := JsPath(b.tempDirPath, entryName);
    var htmlPath := HtmlPath(b.tempDirPath, entryName);
    pageWrites := [(jsPath, Script(prelude, filePath))];
    var tplPath := TemplatePath(filePath, b.existing, u.template, b.context, b.pluginDir);
    match b.render(tplPath) {
      case None =>
      case Some(str) =>
        pageWrites := pageWrites + [(htmlPath, InjectScript(str, entryName))];
    }
  }

  /** `createTempFile`: builds the parts shared by every page once, then for each
      entry writes the page's files and overwrites the entry's value with the
      path of its HTML document. */
  method CreateTempFile(entry: EntryObject, u: UserOptions, b: Build)
    returns (newEntry: EntryObject, writes: seq<(string, string)>)
    requires DistinctKeys(entry)
    ensures newEntry == Rewrite(entry, b.tempDirPath)
    ensures writes == Artifacts(b, u, PreludeOf(u, b.context, b.existing, b.reactVersion), entry)
  {
    var prelude := PreludeOf(u, b.context, b.existing, b.reactVersion);
    newEntry := entry;
    writes := [];
    for i := 0 to |entry|
      invariant newEntry == Rewrite(entry[..i], b.tempDirPath) + entry[i..]
      invariant DistinctKeys(newEntry)
      invariant writes == Artifacts(b, u, prelude, entry[..i])
    {
      var (entryName, filePath) := entry[i];
      var pageWrites := WritePage(b, u, prelude, entryName, filePath);
      writes := writes + pageWrites;
      ArtifactsSnoc(b, u, prelude, entry, i);
      var htmlPath := HtmlPath(b.tempDirPath, entryName);
      assert newEntry[i].0 == entryName;
      PutExisting(newEntry, i, htmlPath);
      RewriteStep(entry, i, b.tempDirPath);
      newEntry := Put(newEntry, entryName, htmlPath);
    }
    assert entry[..|entry|] == entry;
    assert newEntry == Rewrite(entry, b.tempDirPath) + [];
  }

  /** The rewritten entry object has exactly the keys of the collected one, and
      each key leads to its page's HTML document. */
  lemma {:induction false} RewriteKeepsKeys(e: EntryObject, t: string, k: string)
    ensures Keys(Rewrite(e, t)) == Keys(e)
    ensures Get(Rewrite(e, t), k) == if k in Keys(e) then Some(HtmlPath(t, k)) else None
  {
    if e != [] {
      RewriteKeepsKeys(e[1..], t, k);
      assert Rewrite(e, t)[1..] == Rewrite(e[1..], t);
      assert Keys(e) == [e[0].0] + Keys(e[1..]);
    }
  }

  /** Every file written belongs to one of the pages. */
  lemma {:induction false} ArtifactOwners(b: Build, u: UserOptions, prelude: Prelude, e: EntryObject)
    ensures forall w :: 0 <= w < |Artifacts(b, u, prelude, e)| ==>
      exists i :: 0 <= i < |e| && PathOf(b.tempDirPath, e[i].0, Artifacts(b, u, prelude, e)[w].0)
    decreases |e|
  {
    if e != [] {
      var n := |e| - 1;
      var before := Artifacts(b, u, prelude, e[..n]);
      var page := PageWrites(b, u, prelude, e[n].0, e[n].1);
      var all := Artifacts(b, u, prelude, e);
      ArtifactOwners(b, u, prelude, e[..n]);
      forall w | 0 <= w < |all|
        ensures exists i :: 0 <= i < |e| && PathOf(b.tempDirPath, e[i].0, all[w].0)
      {
        if w < |before| {
          assert all[w] == before[w];
          var i :| 0 <= i < n && PathOf(b.tempDirPath, e[..n][i].0, before[w].0);
          assert e[..n][i] == e[i];
        } else {
          assert all[w] == page[w - |before|];
          assert PathOf(b.tempDirPath, e[n].0, all[w].0);
          assert 0 <= n < |e|;
        }
      }
    } else {
      assert Artifacts(b, u, prelude, e) == [];
    }
  }

  /** No path is written twice: after the scratch directory is emptied, the
      written files are exactly the scratch directory's contents. */
  lemma {:induction false} ArtifactPathsDistinct(b: Build, u: UserOptions, prelude: Prelude, e: EntryObject)
    requires DistinctKeys(e)
    ensures forall v, w :: 0 <= v < w < |Artifacts(b, u, prelude, e)| ==>
      Artifacts(b, u, prelude, e)[v].0 != Artifacts(b, u, prelude, e)[w].0
    decreases |e|
  {
    if e != [] {
      var n := |e| - 1;
      var t := b.tempDirPath;
      var before := Artifacts(b, u, prelude, e[..n]);
      var page := PageWrites(b, u, prelude, e[n].0, e[n].1);
      var all := Artifacts(b, u, prelude, e);
      ArtifactPathsDistinct(b, u, prelude, e[..n]);
      ArtifactOwners(b, u, prelude, e[..n]);
      ScriptIsNotDocument(t, e[n].0);
      forall v, w | 0 <= v < w < |all| ensures all[v].0 != all[w].0 {
        if w < |before| {
          assert all[v] == before[v] && all[w] == before[w];
        } else if v >= |before| {
          assert all[v] == page[v - |before|] && all[w] == page[w - |before|];
          assert v - |before| == 0 && w - |before| == 1;
        } else {
          assert all[v] == before[v] && all[w] == page[w - |before|];
          var i :| 0 <= i < n && PathOf(t, e[..n][i].0, before[v].0);
          assert e[..n][i] == e[i];
          if all[v].0 == all[w].0 {
            PathOfInjective(t, e[i].0, e[n].0, all[v].0);
          }
        }
      }
    }
  }

  lemma PageWritesContents(b: Build, u: UserOptions, prelude: Prelude, entryName: string, filePath: string)
    ensures (JsPath(b.tempDirPath, entryName), Script(prelude, filePath)) in PageWrites(b, u, prelude, entryName, filePath)
    ensures match b.render(TemplatePath(filePath, b.existing, u.template, b.context, b.pluginDir))
      case None => true
      case Some(str) => (HtmlPath(b.tempDirPath, entryName), InjectScript(str, entryName)) in PageWrites(b, u, prelude, entryName, filePath)
  {
    var page := PageWrites(b, u, prelude, entryName, filePath);
    assert page[0] == (JsPath(b.tempDirPath, entryName), Script(prelude, filePath));
  }

  /** Every page gets its script, with the text the bootstrap template gives for
      its component; when its template renders it also gets its HTML document,
      holding the rendered text with the page's script tag injected. */
  lemma {:induction false} PageFilesWritten(b: Build, u: UserOptions, prelude: Prelude, e: EntryObject, i: nat)
    requires i < |e|
    ensures (JsPath(b.tempDirPath, e[i].0), Script(prelude, e[i].1)) in Artifacts(b, u, prelude, e)
    ensures match b.render(TemplatePath(e[i].1, b.existing, u.template, b.context, b.pluginDir))
      case None => true
      case Some(str) => (HtmlPath(b.tempDirPath, e[i].0), InjectScript(str, e[i].0)) in Artifacts(b, u, prelude, e)
    decreases |e|
  {
    var n := |e| - 1;
    var before := Artifacts(b, u, prelude, e[..n]);
    var page := PageWrites(b, u, prelude, e[n].0, e[n].1);
    var all := Artifacts(b, u, prelude, e);
    assert all == before + page;
    var js := (JsPath(b.tempDirPath, e[i].0), Script(prelude, e[i].1));
    var rendered := b.render(TemplatePath(e[i].1, b.existing, u.template, b.context, b.pluginDir));
    if i < n {
      assert e[..n][i] == e[i];
      PageFilesWritten(b, u, prelude, e[..n], i);
      assert js in before;
      if rendered.Some? {
        var doc := (HtmlPath(b.tempDirPath, e[i].0), InjectScript(rendered.value, e[i].0));
        assert doc in before;
        assert doc in all;
      }
    } else {
      assert i == n;
      PageWritesContents(b, u, prelude, e[i].0, e[i].1);
      assert js in page;
      if rendered.Some? {
        var doc := (HtmlPath(b.tempDirPath, e[i].0), InjectScript(rendered.value, e[i].0));
        assert doc in page;
        assert doc in all;
      }
    }
    assert js in all;
  }
}
