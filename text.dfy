/** String operations of the JavaScript runtime that the plugin relies on. */
module Text {
  import opened Types

  /** The code points of JavaScript's WhiteSpace and LineTerminator productions,
      which `String.prototype.trimStart` removes. */
  predicate IsJsWhiteSpace(c: char)
  {
    var n := c as int;
    (9 <= n <= 13) || n == 0x20 || n == 0xA0 || n == 0x1680 || (0x2000 <= n <= 0x200A)
    || n == 0x2028 || n == 0x2029 || n == 0x202F || n == 0x205F || n == 0x3000 || n == 0xFEFF
  }

  /** `s.trimStart()`: the longest suffix of `s` that does not start with white space. */
  function TrimStart(s: string): (r: string)
    ensures |r| <= |s| && r == s[|s| - |r|..]
    ensures r == "" || !IsJsWhiteSpace(r[0])
    ensures forall i :: 0 <= i < |s| - |r| ==> IsJsWhiteSpace(s[i])
  {
    if s != "" && IsJsWhiteSpace(s[0]) then TrimStart(s[1..]) else s
  }

  /** `trimStart` leaves a string that starts with a visible character alone. */
  lemma TrimStartKeeps(s: string)
    requires s != "" && !IsJsWhiteSpace(s[0])
    ensures TrimStart(s) == s
  {
  }

  function LowerChar(c: char): char
  {
    if 'A' <= c <= 'Z' then (c as int + 32) as char else c
  }

  /** `s.toLowerCase()` on the ASCII letters. */
  function ToLower(s: string): string
  {
    seq(|s|, i requires 0 <= i < |s| => LowerChar(s[i]))
  }

  predicate OccursAt(s: string, pat: string, i: int)
  {
    0 <= i && i + |pat| <= |s| && s[i..i + |pat|] == pat
  }

  predicate Contains(s: string, pat: string)
  {
    exists i | 0 <= i <= |s| :: OccursAt(s, pat, i)
  }

  /** The first occurrence of `pat` in `s` at or after `k`. */
  function IndexOfFrom(s: string, pat: string, k: nat): (r: Option<nat>)
    ensures r.Some? ==> k <= r.value && OccursAt(s, pat, r.value)
    ensures r.Some? ==> forall j :: k <= j < r.value ==> !OccursAt(s, pat, j)
    ensures r.None? ==> forall j :: k <= j ==> !OccursAt(s, pat, j)
    decreases |s| - k
  {
    if k + |pat| > |s| then None
    else if s[k..k + |pat|] == pat then Some(k)
    else IndexOfFrom(s, pat, k + 1)
  }

  /** `s.indexOf(pat)`, with `None` for -1. */
  function IndexOf(s: string, pat: string): (r: Option<nat>)
  {
    IndexOfFrom(s, pat, 0)
  }

  /** The lines of `s`: the pieces between its newline characters. */
  function Lines(s: string): (ls: seq<string>)
    ensures |ls| >= 1
    ensures '\n' !in s ==> ls == [s]
  {
    if s == "" then [""]
    else
      var rest := Lines(s[1..]);
      assert '\n' !in s ==> '\n' !in s[1..] && s == [s[0]] + s[1..];
      if s[0] == '\n' then [""] + rest else [[s[0]] + rest[0]] + rest[1..]
  }

  lemma {:induction false} LinesAppend(a: string, b: string)
    ensures Lines(a + "\n" + b) == Lines(a) + Lines(b)
  {
    var t := a + "\n" + b;
    if a == "" {
      assert t[1..] == b;
    } else {
      assert t[0] == a[0];
      assert t[1..] == a[1..] + "\n" + b;
      LinesAppend(a[1..], b);
    }
  }

  /** The text made of `ls`, one newline before each. */
  function NewlineEach(ls: seq<string>): string
  {
    if ls == [] then "" else "\n" + ls[0] + NewlineEach(ls[1..])
  }

  /** `ls.join('\n')`. */
  function JoinLines(ls: seq<string>): string
  {
    if ls == [] then "" else ls[0] + NewlineEach(ls[1..])
  }

  /** Joining single lines with newlines and splitting the result gives them back. */
  lemma {:induction false} LinesOfJoin(ls: seq<string>)
    requires ls != [] && forall i :: 0 <= i < |ls| ==> '\n' !in ls[i]
    ensures Lines(JoinLines(ls)) == ls
  {
    if |ls| > 1 {
      var rest := ls[1..];
      assert JoinLines(ls) == ls[0] + "\n" + JoinLines(rest);
      LinesAppend(ls[0], JoinLines(rest));
      LinesOfJoin(rest);
    } else {
      assert JoinLines(ls) == ls[0];
    }
  }
}
