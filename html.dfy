/** The page's HTML document: which template is rendered, and how the page's
    script tag is put into the rendered text. */
module Html {
  import opened Types
  import opened Paths
  import opened Text

  const BodyClose: string := "</body>"

  /** The template for the page whose component is `filePath`: its own `html.ejs`
      when that exists, otherwise the configured `template` under the project
      root, otherwise the `html.ejs` shipped with the plugin. */
  function TemplatePath(filePath: string, existing: set<string>, template: Option<string>,
    context: string, pluginDir: string): (r: string)
    ensures SiblingTemplate(filePath) in existing ==> r == SiblingTemplate(filePath)
    ensures SiblingTemplate(filePath) !in existing && Truthy(template) ==> r == Join(context, template.value)
    ensures SiblingTemplate(filePath) !in existing && !Truthy(template) ==> r == Join(pluginDir, "html.ejs")
  {
    var pageTplPath := SiblingTemplate(filePath);
    if pageTplPath in existing then pageTplPath
    else if Truthy(template) then Join(context, template.value)
    else Join(pluginDir, "html.ejs")
  }

  /** For a page found as `dir/index.tsx` or `dir/index.jsx`, a `dir/html.ejs`
      is used whenever it exists, whatever `template` says. */
  lemma PageTemplateWins(dir: string, extension: string, existing: set<string>, template: Option<string>,
    context: string, pluginDir: string)
    requires extension == ".tsx" || extension == ".jsx"
    requires Join(dir, "html.ejs") in existing
    ensures TemplatePath(Join(dir, "index" + extension), existing, template, context, pluginDir) == Join(dir, "html.ejs")
  {
    var name := "index" + extension;
    assert forall j :: 0 <= j < |name| ==> name[j] != '/';
    SiblingOfJoin(dir, name);
  }

  function ScriptTag(entryName: string): string
  {
    "<script type=\"module\" src=\"./" + entryName + ".jsx\"></script>"
  }

  /** The replacement text `String.prototype.replace` builds from a replacement
      string when the pattern is a string (GetSubstitution, no capture groups):
      `$$` is a dollar sign, `$&` the matched text, `` $` `` the text before the
      match, `$'` the text after it; every other `$` stands for itself. */
  function Substitute(replacement: string, matched: string, before: string, after: string): string
  {
    if replacement == "" then ""
    else if replacement[0] == '$' && |replacement| >= 2 then
      var c := replacement[1];
      if c == '$' then "$" + Substitute(replacement[2..], matched, before, after)
      else if c == '&' then matched + Substitute(replacement[2..], matched, before, after)
      else if c == '`' then before + Substitute(replacement[2..], matched, before, after)
      else if c == '\'' then after + Substitute(replacement[2..], matched, before, after)
      else "$" + Substitute(replacement[1..], matched, before, after)
    else [replacement[0]] + Substitute(replacement[1..], matched, before, after)
  }

  /** A replacement without a dollar sign is inserted as it is. */
  lemma {:induction false} SubstitutePlain(replacement: string, matched: string, before: string, after: string)
    requires '$' !in replacement
    ensures Substitute(replacement, matched, before, after) == replacement
  {
    if replacement != "" {
      assert '$' !in replacement[1..];
      SubstitutePlain(replacement[1..], matched, before, after);
      assert [replacement[0]] + replacement[1..] == replacement;
    }
  }

  /** `s.replace(pattern, replacement)` with a string pattern: only the first
      occurrence is replaced. */
  function ReplaceFirst(s: string, pattern: string, replacement: string): string
  {
    match IndexOf(s, pattern)
    case None => s
    case Some(p) =>
      s[..p] + Substitute(replacement, pattern, s[..p], s[p + |pattern|..]) + s[p + |pattern|..]
  }

  /** The written HTML: the rendered template with the page's script tag put
      before the first `</body>`. */
  function InjectScript(rendered: string, entryName: string): string
  {
    ReplaceFirst(rendered, BodyClose, ScriptTag(entryName) + BodyClose)
  }

  /** With an entry name free of `$`, the script tag lands right before the first
      `</body>` and nothing else changes; without a `</body>` the text is kept as
      it is. */
  lemma InjectBeforeFirstBodyClose(rendered: string, entryName: string)
    requires '$' !in entryName
    ensures IndexOf(rendered, BodyClose).None? ==> InjectScript(rendered, entryName) == rendered
    ensures IndexOf(rendered, BodyClose).Some? ==>
      var p := IndexOf(rendered, BodyClose).value;
      InjectScript(rendered, entryName) == rendered[..p] + ScriptTag(entryName) + rendered[p..]
      && OccursAt(rendered, BodyClose, p)
      && forall j :: 0 <= j < p ==> !OccursAt(rendered, BodyClose, j)
  {
    var replacement := ScriptTag(entryName) + BodyClose;
    assert '$' !in "<script type=\"module\" src=\"./" && '$' !in ".jsx\"></script>" && '$' !in BodyClose;
    assert '$' !in replacement;
    match IndexOf(rendered, BodyClose) {
      case None =>
      case Some(p) =>
        SubstitutePlain(replacement, BodyClose, rendered[..p], rendered[p + |BodyClose|..]);
        assert rendered[p..] == BodyClose + rendered[p + |BodyClose|..];
    }
  }

  /** Text without a dollar sign at the head of a replacement is copied as it
      is, and the rest is substituted after it. */
  lemma {:induction false} SubstituteLiteralPrefix(x: string, rest: string, matched: string, before: string, after: string)
    requires '$' !in x
    ensures Substitute(x + rest, matched, before, after) == x + Substitute(rest, matched, before, after)
  {
    if x == "" {
      assert x + rest == rest;
    } else {
      assert x[0] != '$';
      assert (x + rest)[0] == x[0] && (x + rest)[1..] == x[1..] + rest;
      assert Substitute(x + rest, matched, before, after)
        == [x[0]] + Substitute(x[1..] + rest, matched, before, after);
      assert '$' !in x[1..];
      SubstituteLiteralPrefix(x[1..], rest, matched, before, after);
      assert [x[0]] + x[1..] == x;
    }
  }

  /** A `$&` in the replacement, such as one inside an entry name, is read as a
      pattern: it becomes the matched text, here `</body>`, rather than itself. */
  lemma DollarPatternInName(x: string, y: string, matched: string, before: string, after: string)
    requires '$' !in x && '$' !in y
    ensures Substitute(x + "$&" + y, matched, before, after) == x + matched + y
  {
    assert x + "$&" + y == x + ("$&" + y);
    SubstituteLiteralPrefix(x, "$&" + y, matched, before, after);
    assert ("$&" + y)[0] == '$' && ("$&" + y)[1] == '&' && ("$&" + y)[2..] == y;
    SubstitutePlain(y, matched, before, after);
  }
}
