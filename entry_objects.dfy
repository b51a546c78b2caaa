/** The entry object: a JavaScript object used as a dictionary from page names to
    file paths. Its own string keys keep insertion order, so it is modelled as an
    association list without repeated keys. */
module EntryObjects {
  import opened Types

  type EntryObject = seq<(string, string)>

  /** The keys, in the object's order. */
  function Keys(e: EntryObject): seq<string>
  {
    seq(|e|, i requires 0 <= i < |e| => e[i].0)
  }

  ghost predicate DistinctKeys(e: EntryObject)
  {
    forall i, j :: 0 <= i < j < |e| ==> e[i].0 != e[j].0
  }

  /** Property read `e[k]`. */
  function Get(e: EntryObject, k: string): Option<string>
  {
    if e == [] then None
    else if e[0].0 == k then Some(e[0].1)
    else Get(e[1..], k)
  }

  /** Property write `e[k] = v`: an existing key keeps its place and takes the new
      value, a new key is added at the end. */
  function Put(e: EntryObject, k: string, v: string): (r: EntryObject)
    ensures k in Keys(e) ==> |r| == |e| && Keys(r) == Keys(e)
    ensures k !in Keys(e) ==> r == e + [(k, v)]
    ensures DistinctKeys(e) ==> DistinctKeys(r)
  {
    if e == [] then [(k, v)]
    else
      assert Keys(e) == [e[0].0] + Keys(e[1..]);
      if e[0].0 == k then
        var r := [(k, v)] + e[1..];
        assert Keys(r) == [k] + Keys(e[1..]);
        assert DistinctKeys(e) ==> DistinctKeys(r) by {
          if DistinctKeys(e) {
            assert forall i :: 0 <= i < |r| ==> r[i].0 == Keys(e)[i] == e[i].0;
          }
        }
        r
      else
        var rest := Put(e[1..], k, v);
        var r := [e[0]] + rest;
        assert Keys(r) == [e[0].0] + Keys(rest);
        assert DistinctKeys(e) ==> DistinctKeys(r) by {
          if DistinctKeys(e) {
            if k in Keys(e) {
              assert forall i :: 0 <= i < |r| ==> r[i].0 == Keys(r)[i] == Keys(e)[i] == e[i].0;
            } else {
              assert r == e + [(k, v)];
              assert forall i :: 0 <= i < |e| ==> e[i].0 == Keys(e)[i];
            }
          }
        }
        r
  }

  lemma {:induction false} GetIffKey(e: EntryObject, k: string)
    ensures Get(e, k).Some? <==> k in Keys(e)
  {
    if e != [] {
      assert Keys(e) == [e[0].0] + Keys(e[1..]);
      GetIffKey(e[1..], k);
    }
  }

  lemma {:induction false} GetPut(e: EntryObject, k: string, v: string, k': string)
    ensures Get(Put(e, k, v), k') == if k' == k then Some(v) else Get(e, k')
  {
    if e != [] && e[0].0 != k {
      GetPut(e[1..], k, v, k');
    }
  }

  /** Writing to a key that is already present replaces that one pair in place. */
  lemma {:induction false} PutExisting(e: EntryObject, i: nat, v: string)
    requires DistinctKeys(e) && i < |e|
    ensures Put(e, e[i].0, v) == e[i := (e[i].0, v)]
  {
    if i > 0 {
      PutExisting(e[1..], i - 1, v);
      assert e[i := (e[i].0, v)] == [e[0]] + e[1..][i - 1 := (e[i].0, v)];
    }
  }
}
