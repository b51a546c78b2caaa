/** Path handling. Paths are joined with a single "/" separator; normalisation of
    "." and ".." segments is not modelled, apart from the one sibling lookup the
    plugin does (`join(filePath, '../html.ejs')`). */
module Paths {
  import opened Types

  /** `join(a, b)`: an empty side contributes nothing. */
  function Join(a: string, b: string): string
  {
    if a == "" then b else if b == "" then a else a + "/" + b
  }

  /** Index of the last "/" in `s`, if any. */
  function LastSlash(s: string): (r: Option<nat>)
    ensures r.Some? ==> r.value < |s| && s[r.value] == '/'
    ensures r.Some? ==> forall j :: r.value < j < |s| ==> s[j] != '/'
    ensures r.None? ==> forall j :: 0 <= j < |s| ==> s[j] != '/'
  {
    if s == [] then None
    else if s[|s| - 1] == '/' then Some(|s| - 1)
    else LastSlash(s[..|s| - 1])
  }

  /** `join(filePath, '../html.ejs')`: the file `html.ejs` next to `filePath`. */
  function SiblingTemplate(filePath: string): string
  {
    match LastSlash(filePath)
    case None => "html.ejs"
    case Some(i) => filePath[..i] + "/html.ejs"
  }

  /** The sibling of a file `name` inside directory `dir` is `dir/html.ejs`. */
  lemma SiblingOfJoin(dir: string, name: string)
    requires name != "" && forall j :: 0 <= j < |name| ==> name[j] != '/'
    ensures SiblingTemplate(Join(dir, name)) == Join(dir, "html.ejs")
  {
    if dir != "" {
      var s := dir + "/" + name;
      assert s[|dir|] == '/';
      var r := LastSlash(s);
      assert r.Some? && r.value == |dir| by {
        assert forall j :: |dir| < j < |s| ==> s[j] == name[j - |dir| - 1];
      }
      assert s[..|dir|] == dir;
    }
  }
}
