/** Entry collection: every folder under `src/pages` that holds an `index.tsx` or
    `index.jsx` becomes an entry of the bundle. The directory listing and the set
    of existing paths stand for the file system. */
module Collect {
  import opened Types
  import opened EntryObjects
  import opened Paths
  import opened Text

  /** The extensions tried for a page's index file, in order. */
  const Extensions: seq<string> := [".tsx", ".jsx"]

  function PagesRoot(context: string): string
  {
    Join(Join(context, "src"), "pages")
  }

  function IndexPath(dir: string, extension: string): string
  {
    Join(dir, "index" + extension)
  }

  /** The index file of a page folder: `index.tsx` when it exists, otherwise
      `index.jsx` when that exists, otherwise none. */
  function IndexFile(dir: string, existing: set<string>): (r: Option<string>)
    ensures r.Some? <==> IndexPath(dir, ".tsx") in existing || IndexPath(dir, ".jsx") in existing
    ensures r.Some? ==> r.value in existing
    ensures IndexPath(dir, ".tsx") in existing ==> r == Some(IndexPath(dir, ".tsx"))
    ensures IndexPath(dir, ".tsx") !in existing && r.Some? ==> r == Some(IndexPath(dir, ".jsx"))
  {
    if IndexPath(dir, ".tsx") in existing then Some(IndexPath(dir, ".tsx"))
    else if IndexPath(dir, ".jsx") in existing then Some(IndexPath(dir, ".jsx"))
    else None
  }

  /** `getIndexFilePath`: tries each extension in turn and returns on the first hit. */
  method GetIndexFilePath(dir: string, existing: set<string>) returns (r: Option<string>)
    ensures r == IndexFile(dir, existing)
  {
    assert Extensions[0] == ".tsx" && Extensions[1] == ".jsx";
    for k := 0 to |Extensions|
      invariant forall j :: 0 <= j < k ==> IndexPath(dir, Extensions[j]) !in existing
    {
      var indexFilePath := IndexPath(dir, Extensions[k]);
      if indexFilePath in existing {
        return Some(indexFilePath);
      }
    }
    return None;
  }

  predicate IsHidden(name: string)
  {
    |name| > 0 && name[0] == '.'
  }

  /** The entry name of a folder: lower-cased only when `lowerCase === true`. */
  function EntryName(name: string, lowerCase: Option<bool>): string
  {
    if lowerCase == Some(true) then ToLower(name) else name
  }

  /** Whether a listed folder contributes an entry. */
  predicate Yields(root: string, name: string, existing: set<string>)
  {
    !IsHidden(name) && IndexFile(Join(root, name), existing).Some?
  }

  /** The effect of one listed name on the entry object. */
  function Step(e: EntryObject, root: string, name: string, existing: set<string>, lowerCase: Option<bool>): EntryObject
  {
    if IsHidden(name) then e
    else match IndexFile(Join(root, name), existing)
      case None => e
      case Some(p) => Put(e, EntryName(name, lowerCase), p)
  }

  /** The entry object after the listing has been walked in order. */
  function Collected(listing: seq<string>, root: string, existing: set<string>, lowerCase: Option<bool>): (e: EntryObject)
    ensures DistinctKeys(e)
    decreases |listing|
  {
    if listing == [] then []
    else Step(Collected(listing[..|listing| - 1], root, existing, lowerCase), root, listing[|listing| - 1], existing, lowerCase)
  }

  /** `collectEntry`: walks the listing of the pages folder and records, under
      its entry name, the index file of every visible folder that has one. */
  method CollectEntry(context: string, listing: seq<string>, existing: set<string>, lowerCase: Option<bool>)
    returns (entry: EntryObject)
    ensures entry == Collected(listing, PagesRoot(context), existing, lowerCase)
  {
    var root := PagesRoot(context);
    entry := [];
    for i := 0 to |listing|
      invariant entry == Collected(listing[..i], root, existing, lowerCase)
    {
      var filename := listing[i];
      assert listing[..i + 1][..i] == listing[..i];
      if !IsHidden(filename) {
        var indexFilePath := GetIndexFilePath(Join(root, filename), existing);
        if indexFilePath.Some? {
          var entryName := EntryName(filename, lowerCase);
          entry := Put(entry, entryName, indexFilePath.value);
        }
      }
    }
    assert listing[..|listing|] == listing;
  }

  /** Some visible listed folder with an index file has entry name `k`. */
  ghost predicate Named(listing: seq<string>, root: string, existing: set<string>, lowerCase: Option<bool>, k: string)
  {
    exists i :: 0 <= i < |listing| && Yields(root, listing[i], existing) && EntryName(listing[i], lowerCase) == k
  }

  lemma NamedSplit(listing: seq<string>, root: string, existing: set<string>, lowerCase: Option<bool>, k: string)
    requires listing != []
    ensures Named(listing, root, existing, lowerCase, k) <==>
      Named(listing[..|listing| - 1], root, existing, lowerCase, k)
      || (Yields(root, listing[|listing| - 1], existing) && EntryName(listing[|listing| - 1], lowerCase) == k)
  {
    var prefix := listing[..|listing| - 1];
    if Named(listing, root, existing, lowerCase, k) {
      var i :| 0 <= i < |listing| && Yields(root, listing[i], existing) && EntryName(listing[i], lowerCase) == k;
      if i < |prefix| {
        assert prefix[i] == listing[i];
      }
    }
    if Named(prefix, root, existing, lowerCase, k) {
      var i :| 0 <= i < |prefix| && Yields(root, prefix[i], existing) && EntryName(prefix[i], lowerCase) == k;
      assert listing[i] == prefix[i];
    }
  }

  /** One listed name adds its entry name, when it yields an entry, and no other. */
  lemma StepKeys(e: EntryObject, root: string, name: string, existing: set<string>, lowerCase: Option<bool>, k: string)
    ensures k in Keys(Step(e, root, name, existing, lowerCase)) <==>
      k in Keys(e) || (Yields(root, name, existing) && EntryName(name, lowerCase) == k)
  {
    GetIffKey(e, k);
    GetIffKey(Step(e, root, name, existing, lowerCase), k);
    if Yields(root, name, existing) {
      GetPut(e, EntryName(name, lowerCase), IndexFile(Join(root, name), existing).value, k);
    }
  }

  /** A name gets an entry exactly when some visible listed folder with an index
      file has that entry name; folders without one are dropped. */
  lemma {:induction false} CollectedKeys(listing: seq<string>, root: string, existing: set<string>, lowerCase: Option<bool>, k: string)
    ensures k in Keys(Collected(listing, root, existing, lowerCase)) <==> Named(listing, root, existing, lowerCase, k)
  {
    if listing != [] {
      var n := |listing| - 1;
      CollectedKeys(listing[..n], root, existing, lowerCase, k);
      StepKeys(Collected(listing[..n], root, existing, lowerCase), root, listing[n], existing, lowerCase, k);
      NamedSplit(listing, root, existing, lowerCase, k);
    }
  }

  /** A step leaves every other entry name alone. */
  lemma StepOtherKey(e: EntryObject, root: string, name: string, existing: set<string>, lowerCase: Option<bool>, k: string)
    requires !Yields(root, name, existing) || EntryName(name, lowerCase) != k
    ensures Get(Step(e, root, name, existing, lowerCase), k) == Get(e, k)
  {
    if Yields(root, name, existing) {
      GetPut(e, EntryName(name, lowerCase), IndexFile(Join(root, name), existing).value, k);
    }
  }

  /** The later of two folders with the same entry name wins: the entry holds the
      index file of the last visible folder, in listing order, with that name. */
  lemma {:induction false} CollectedLastWins(listing: seq<string>, root: string, existing: set<string>, lowerCase: Option<bool>, j: nat)
    requires j < |listing| && Yields(root, listing[j], existing)
    requires forall i :: j < i < |listing| && Yields(root, listing[i], existing) ==>
      EntryName(listing[i], lowerCase) != EntryName(listing[j], lowerCase)
    ensures Get(Collected(listing, root, existing, lowerCase), EntryName(listing[j], lowerCase))
      == IndexFile(Join(root, listing[j]), existing)
  {
    var n := |listing| - 1;
    var prefix := listing[..n];
    var before := Collected(prefix, root, existing, lowerCase);
    var k := EntryName(listing[j], lowerCase);
    assert Collected(listing, root, existing, lowerCase) == Step(before, root, listing[n], existing, lowerCase);
    if j == n {
      GetPut(before, k, IndexFile(Join(root, listing[n]), existing).value, k);
    } else {
      StepOtherKey(before, root, listing[n], existing, lowerCase, k);
      assert prefix[j] == listing[j];
      forall i | j < i < |prefix| && Yields(root, prefix[i], existing)
        ensures EntryName(prefix[i], lowerCase) != k
      {
        assert prefix[i] == listing[i];
      }
      CollectedLastWins(prefix, root, existing, lowerCase, j);
    }
  }
}
