/**
 * Tree inventories of a domain: the inventory handle's wait and refresh,
 * inventory creation (argument normalisation and the `in_place` update of
 * the domain's `Inventories` object), the TreeMap convenience call, and the
 * checks made on a CSV file before it is uploaded.
 */
module Inventories {
  import opened Values
  import opened Polling
  import opened Resources
  import opened Utils

  /** The inventories of a domain, with the tree inventory if one exists. */
  datatype Inventories = Inventories(domainId: string, tree: Option<Handle>)

  /** TreeMap source configuration: version, seed and the optional canopy-height-map source. */
  datatype TreeMapSource = TreeMapSource(version: string, seed: Option<int>, canopyHeightMap: Option<string>)

  /** The body of the create-tree-inventory request. */
  datatype TreeInventoryRequest = TreeInventoryRequest(
    sources: seq<string>,
    treeMap: Option<TreeMapSource>,
    modifications: Option<seq<Json>>,
    treatments: Option<seq<Json>>,
    featureMasks: Option<seq<string>>)

  /** The domain's inventories after a create call, the request sent, and the created handle (or the API error). */
  datatype Created = Created(self: Inventories, request: TreeInventoryRequest, result: Result<Handle>)

  const TimeoutMessage := "Timed out waiting for tree inventory to finish."
  const DefaultTreeMapVersion := "2016"

  /** The wait stops on "completed" only; "failed" is an ordinary pending status. */
  const WaitPolicy := Policy("completed", None)

  /**
   * `TreeInventory.wait_until_completed`: returns only a "completed"
   * snapshot, stops where the reference description says, raises nothing
   * but `TimeoutError` (or an API error), and, in place, leaves the handle
   * holding the last snapshot fetched.
   */
  function WaitUntilCompleted(self: Handle, server: Server, step: nat, timeout: int, inPlace: bool): (c: Call<Returned>)
    requires step > 0
    ensures StopsAt(WaitPolicy, server, step, timeout, c.fetches)
    ensures c.result.Ok? <==> server(c.fetches - 1).Got? && server(c.fetches - 1).snapshot.status == "completed"
    ensures c.result.Ok? ==> c.result.value == Returned(Handle(self.id, server(c.fetches - 1).snapshot), inPlace)
    ensures c.result == Err(TimeoutError(TimeoutMessage)) <==> Pending(WaitPolicy, server(c.fetches - 1))
    ensures c.result.Err? ==> c.result.error == TimeoutError(TimeoutMessage) || c.result.error.ApiFailure?
    ensures c.self == (if inPlace then Refreshed(self, LastSeen(server, c.fetches)) else self)
  {
    WaitFetching(self, server, WaitPolicy, step, timeout, inPlace, TimeoutMessage, (s: Snapshot) => "")
  }

  /**
   * The wait returns the first "completed" snapshot reached before the
   * deadline, after exactly as many fetches as it took to see it.
   */
  lemma CompletesOnFirstCompleted(self: Handle, server: Server, step: nat, timeout: int, inPlace: bool, m: nat)
    requires step > 0
    requires m <= LeastK(timeout, step)
    requires forall j :: 0 <= j < m ==> Pending(WaitPolicy, server(j))
    requires server(m).Got? && server(m).snapshot.status == "completed"
    ensures WaitUntilCompleted(self, server, step, timeout, inPlace).fetches == m + 1
    ensures WaitUntilCompleted(self, server, step, timeout, inPlace).result
         == Ok(Returned(Handle(self.id, server(m).snapshot), inPlace))
  {
    var c := WaitUntilCompleted(self, server, step, timeout, inPlace);
    assert StopsAt(WaitPolicy, server, step, timeout, m + 1);
    StopsAtUnique(WaitPolicy, server, step, timeout, c.fetches, m + 1);
  }

  /**
   * An inventory that reports "failed" on every poll is not given up on:
   * it is fetched LeastK(timeout, step) + 1 times and then times out.
   */
  lemma FailedIsNotTerminal(self: Handle, server: Server, step: nat, timeout: int, inPlace: bool)
    requires step > 0
    requires forall j: nat :: server(j).Got? && server(j).snapshot.status == "failed"
    ensures WaitUntilCompleted(self, server, step, timeout, inPlace).result == Err(TimeoutError(TimeoutMessage))
    ensures WaitUntilCompleted(self, server, step, timeout, inPlace).fetches == LeastK(timeout, step) + 1
  {
    assert forall j: nat :: Pending(WaitPolicy, server(j));
    NeverTerminalTimesOut(WaitPolicy, server, step, timeout);
  }

  /**
   * `Inventories.create_tree_inventory`: a string source (or str-enum
   * member) becomes a one-element list and a list passes unchanged; a string
   * feature mask likewise, `None` staying `None`; modifications and
   * treatments go through `ParseItems`. With `in_place` the domain's tree
   * inventory becomes the created handle; otherwise nothing changes.
   */
  function CreateTreeInventory(self: Inventories, sources: StrOrList, treeMap: Option<TreeMapSource>,
                               modifications: Option<Items>, treatments: Option<Items>,
                               featureMasks: Option<StrOrList>, inPlace: bool, response: Fetch): (c: Created)
    ensures c.request.sources == AsList(sources)
    ensures c.request.treeMap == treeMap
    ensures c.request.featureMasks.None? <==> featureMasks.None?
    ensures featureMasks.Some? ==> c.request.featureMasks == Some(AsList(featureMasks.value))
    ensures c.request.modifications == ParseItems(modifications, (j: Json) => j)
    ensures c.request.treatments == ParseItems(treatments, (j: Json) => j)
    ensures response.Got? ==> c.result == Ok(Handle(self.domainId, response.snapshot))
    ensures response.Raised? ==> c.result == Err(ApiFailure(response.error))
    ensures c.self == (if inPlace && response.Got? then self.(tree := Some(c.result.value)) else self)
  {
    var request := TreeInventoryRequest(
      AsList(sources),
      treeMap,
      ParseItems(modifications, (j: Json) => j),
      ParseItems(treatments, (j: Json) => j),
      match featureMasks case None => None case Some(m) => Some(AsList(m)));
    match response
    case Raised(e) => Created(self, request, Err(ApiFailure(e)))
    case Got(s) =>
      var created := Handle(self.domainId, s);
      Created(if inPlace then self.(tree := Some(created)) else self, request, Ok(created))
  }

  /** A string source and the one-element list holding it produce the same request. */
  lemma StringSourceIsSingletonList(self: Inventories, s: string, treeMap: Option<TreeMapSource>,
                                    modifications: Option<Items>, treatments: Option<Items>,
                                    featureMasks: Option<StrOrList>, inPlace: bool, response: Fetch)
    ensures CreateTreeInventory(self, One(s), treeMap, modifications, treatments, featureMasks, inPlace, response)
         == CreateTreeInventory(self, Many([s]), treeMap, modifications, treatments, featureMasks, inPlace, response)
  {
  }

  /**
   * `Inventories.create_tree_inventory_from_treemap`: the general call with
   * source "TreeMap" and a TreeMap configuration whose canopy-height-map
   * source is attached only when the argument is truthy.
   */
  function CreateTreeInventoryFromTreemap(self: Inventories, version: string, seed: Option<int>,
                                          canopyHeightMapSource: Option<string>,
                                          modifications: Option<Items>, treatments: Option<Items>,
                                          featureMasks: Option<StrOrList>, inPlace: bool, response: Fetch): (c: Created)
    ensures c.request.sources == ["TreeMap"]
    ensures c.request.treeMap.Some? && c.request.treeMap.value.version == version
    ensures c.request.treeMap.value.seed == seed
    ensures c.request.treeMap.value.canopyHeightMap.Some? <==> TruthyStr(canopyHeightMapSource)
    ensures c.request.treeMap.value.canopyHeightMap.Some? ==> c.request.treeMap.value.canopyHeightMap == canopyHeightMapSource
    ensures c == CreateTreeInventory(self, Many(["TreeMap"]), c.request.treeMap, modifications, treatments,
                                     featureMasks, inPlace, response)
  {
    var canopy := if TruthyStr(canopyHeightMapSource) then canopyHeightMapSource else None;
    CreateTreeInventory(self, Many(["TreeMap"]), Some(TreeMapSource(version, seed, canopy)),
                        modifications, treatments, featureMasks, inPlace, response)
  }

  /** The file an upload names: its path, whether anything exists at that path, and its size in bytes. */
  datatype LocalFile = LocalFile(path: string, present: bool, size: nat)

  /** 500 MiB, that is 500 * 1024 * 1024 bytes. */
  const MaxUploadBytes: nat := 524_288_000

  /** The index of the last occurrence of c in s, or -1 if there is none (`str.rfind`). */
  function LastIndex(s: string, c: char): (i: int)
    ensures -1 <= i < |s|
    ensures i >= 0 ==> s[i] == c
    ensures forall k :: i < k < |s| ==> s[k] != c
  {
    if |s| == 0 then -1
    else if s[|s| - 1] == c then |s| - 1
    else LastIndex(s[..|s| - 1], c)
  }

  /** A component `PurePosixPath` keeps: `""` and `"."` components are dropped. */
  predicate Kept(part: string)
  {
    part != "" && part != "." && '/' !in part
  }

  /**
   * The components of `PurePosixPath(path)` after its root: the texts
   * between slashes, leaving out empty and "." components.
   */
  function Parts(path: string): (ps: seq<string>)
    ensures AllKept(ps)
    decreases |path|
  {
    var i := LastIndex(path, '/');
    var last := path[i + 1..];
    (if i < 0 then [] else Parts(path[..i])) + (if Kept(last) then [last] else [])
  }

  /** The root of a POSIX path: exactly two leading slashes are kept, one or three and more become one. */
  function Root(path: string): (r: string)
    ensures r == "" || r == "/" || r == "//"
    ensures r <= path
  {
    if |path| >= 2 && path[0] == '/' && path[1] == '/' && (|path| == 2 || path[2] != '/') then "//"
    else if |path| >= 1 && path[0] == '/' then "/"
    else ""
  }

  /** The root followed by the components joined by single slashes. */
  function Joined(root: string, ps: seq<string>): string
  {
    if |ps| == 0 then root
    else if |ps| == 1 then root + ps[0]
    else Joined(root, ps[..|ps| - 1]) + "/" + ps[|ps| - 1]
  }

  /**
   * `str(Path(path))`: the root and the kept components joined by single
   * slashes, or "." when both are empty. Reading the printed text back as a
   * path gives the same root and the same components.
   */
  function Normalised(path: string): (n: string)
    ensures Parts(n) == Parts(path)
    ensures Root(n) == Root(path)
    ensures n == "." <==> Root(path) == "" && |Parts(path)| == 0
  {
    var ps := Parts(path);
    var root := Root(path);
    if root == "" && |ps| == 0 then
      DotIsEmptyPath(); "."
    else
      PartsOfJoined(root, ps); RootOfJoined(root, ps); DotIsEmptyPath(); Joined(root, ps)
  }

  /** `PurePath.name`: the last kept component, or empty when there is none. */
  function Name(path: string): (name: string)
    ensures name == "" || Kept(name)
    ensures name == "" <==> |Parts(path)| == 0
  {
    var ps := Parts(path);
    if |ps| == 0 then "" else ps[|ps| - 1]
  }

  /**
   * The suffix of a file name: from its last '.', provided that dot is
   * neither the first nor the last character; otherwise empty.
   */
  function Extension(name: string): (r: string)
    ensures r == "" || (r[0] == '.' && '.' !in r[1..] && |r| >= 2)
    ensures r != "" ==> |r| < |name| && r == name[|name| - |r|..]
  {
    var i := LastIndex(name, '.');
    if 0 < i < |name| - 1 then name[i..] else ""
  }

  /** `PurePath.suffix`: the suffix of the path's name. */
  function Suffix(path: string): (r: string)
    ensures r == "" || (r[0] == '.' && '.' !in r[1..] && |r| >= 2)
    ensures r != "" ==> |r| < |Name(path)| && r == Name(path)[|Name(path)| - |r|..]
  {
    Extension(Name(path))
  }

  /** ASCII lower-casing of one character. */
  function LowerChar(c: char): char
  {
    if 'A' <= c <= 'Z' then (c as int + 32) as char else c
  }

  /** `str.lower()` restricted to ASCII letters. */
  function Lower(s: string): (r: string)
    ensures |r| == |s|
    ensures forall i :: 0 <= i < |s| ==> r[i] == LowerChar(s[i])
  {
    seq(|s|, i requires 0 <= i < |s| => LowerChar(s[i]))
  }

  /**
   * The checks `create_tree_inventory_from_file_upload` makes before reading
   * the file, in order: a missing file raises `FileNotFoundError`; then a
   * size over 500 MiB raises `ValueError`; then a lower-cased suffix other
   * than ".csv" raises `ValueError`. Passing all three, the file is uploaded.
   * The messages show the path as `Path` prints it.
   */
  function CheckUpload(f: LocalFile): (r: Result<LocalFile>)
    ensures r.Ok? <==> f.present && f.size <= MaxUploadBytes && Lower(Suffix(f.path)) == ".csv"
    ensures r.Ok? ==> r.value == f
    ensures !f.present ==> r == Err(FileNotFoundError("File not found: " + Normalised(f.path)))
    ensures f.present && f.size > MaxUploadBytes ==> r == Err(ValueError("File size exceeds 500MB limit: " + Normalised(f.path)))
    ensures f.present && f.size <= MaxUploadBytes && Lower(Suffix(f.path)) != ".csv" ==>
              r == Err(ValueError("File must be a CSV: " + Normalised(f.path)))
  {
    if !f.present then Err(FileNotFoundError("File not found: " + Normalised(f.path)))
    else if f.size > MaxUploadBytes then Err(ValueError("File size exceeds 500MB limit: " + Normalised(f.path)))
    else if Lower(Suffix(f.path)) != ".csv" then Err(ValueError("File must be a CSV: " + Normalised(f.path)))
    else Ok(f)
  }

  /**
   * The last occurrence of c in before + [c] + after, when after holds no c,
   * is the one between them.
   */
  lemma {:induction false} LastIndexBefore(before: string, c: char, after: string)
    requires c !in after
    ensures LastIndex(before + [c] + after, c) == |before|
  {
    var s := before + [c] + after;
    if |after| > 0 {
      var shorter := after[..|after| - 1];
      assert s[..|s| - 1] == before + [c] + shorter;
      assert s[|s| - 1] == after[|after| - 1];
      LastIndexBefore(before, c, shorter);
    }
  }

  /** A single kept component is its own only part and its own name. */
  lemma NameOfPlainName(name: string)
    requires Kept(name)
    ensures Parts(name) == [name]
    ensures Name(name) == name
  {
    assert name[0..] == name;
  }

  /** A file name with a non-empty stem and a non-empty dot-free extension has that extension as its suffix. */
  lemma SuffixOfName(stem: string, ext: string)
    requires |stem| > 0 && |ext| > 0
    requires '/' !in stem && '/' !in ext && '.' !in ext
    ensures Suffix(stem + "." + ext) == "." + ext
  {
    var name := stem + "." + ext;
    assert Kept(name);
    NameOfPlainName(name);
    ExtensionOfName(stem, ext);
  }

  /** The extension half of `SuffixOfName`, on the name alone. */
  lemma ExtensionOfName(stem: string, ext: string)
    requires |stem| > 0 && |ext| > 0 && '.' !in ext
    ensures Extension(stem + "." + ext) == "." + ext
  {
    var name := stem + "." + ext;
    LastIndexBefore(stem, '.', ext);
    assert name[|stem|..] == "." + ext;
  }

  /**
   * The suffix check ignores case, and the size limit is inclusive: any
   * plain name ending ".CSV" of exactly 500 MiB is accepted, one byte more
   * is refused for its size.
   */
  lemma UploadLimitIsInclusive(stem: string)
    requires |stem| > 0 && '/' !in stem
    ensures CheckUpload(LocalFile(stem + ".CSV", true, MaxUploadBytes)).Ok?
    ensures CheckUpload(LocalFile(stem + ".CSV", true, MaxUploadBytes + 1)).error.ValueError?
  {
    UpperCsvIsCsv(stem);
    CsvSizeLimit(stem + ".CSV");
  }

  /** Any plain name ending ".CSV" passes the suffix check. */
  lemma UpperCsvIsCsv(stem: string)
    requires |stem| > 0 && '/' !in stem
    ensures Lower(Suffix(stem + ".CSV")) == ".csv"
  {
    UpperCsvSuffix(stem);
    LowerOfUpperCsv();
  }

  /** The suffix of a plain name ending ".CSV" is ".CSV". */
  lemma UpperCsvSuffix(stem: string)
    requires |stem| > 0 && '/' !in stem
    ensures Suffix(stem + ".CSV") == ".CSV"
  {
    CsvSpellings(stem);
    SuffixOfName(stem, "CSV");
  }

  /** The two spellings of the CSV names the lemmas use. */
  lemma CsvSpellings(stem: string)
    ensures stem + ".CSV" == stem + "." + "CSV" && "." + "CSV" == ".CSV"
    ensures stem + ".csv" == stem + "." + "csv" && "." + "csv" == ".csv"
  {
  }

  /** For a present file with a CSV suffix only the size decides, and the bound itself is allowed. */
  lemma CsvSizeLimit(path: string)
    requires Lower(Suffix(path)) == ".csv"
    ensures CheckUpload(LocalFile(path, true, MaxUploadBytes)).Ok?
    ensures CheckUpload(LocalFile(path, true, MaxUploadBytes + 1)).error.ValueError?
  {
  }

  /** ".CSV" lower-cases to ".csv". */
  lemma LowerOfUpperCsv()
    ensures Lower(".CSV") == ".csv"
  {
    var lowered := Lower(".CSV");
    assert lowered[0] == '.' && lowered[1] == 'c' && lowered[2] == 's' && lowered[3] == 'v';
  }

  /**
   * A file named just ".csv" has no suffix (its only dot is its first
   * character), so it is refused whatever its size within the limit.
   */
  lemma DotFileIsNotCsv(size: nat)
    requires size <= MaxUploadBytes
    ensures CheckUpload(LocalFile(".csv", true, size)) == Err(ValueError("File must be a CSV: " + ".csv"))
  {
    NormalisedOfPlainName(".csv");
    DotFileHasNoSuffix();
  }

  /** ".csv" has no suffix: its only dot is its first character. */
  lemma DotFileHasNoSuffix()
    ensures Lower(Suffix(".csv")) == ""
  {
    NameOfPlainName(".csv");
    assert ".csv" == "" + ['.'] + "csv";
    LastIndexBefore("", '.', "csv");
  }

  /** A single kept component prints as itself. */
  lemma NormalisedOfPlainName(name: string)
    requires Kept(name)
    ensures Normalised(name) == name
  {
    NameOfPlainName(name);
    assert name[0] in name;
  }

  /** A component after a slash is added to the parts, unless it is empty or ".". */
  lemma PartsAfterSlash(prefix: string, part: string)
    requires '/' !in part
    ensures Parts(prefix + "/" + part) == Parts(prefix) + (if Kept(part) then [part] else [])
  {
    var path := prefix + "/" + part;
    LastIndexBefore(prefix, '/', part);
    assert path[..|prefix|] == prefix;
    assert path[|prefix| + 1..] == part;
  }

  /** An empty or "." component after a slash adds no part. */
  lemma PartsAfterDroppedPart(prefix: string, part: string)
    requires part == "" || part == "."
    ensures Parts(prefix + "/" + part) == Parts(prefix)
  {
    PartsAfterSlash(prefix, part);
  }

  /** A trailing slash does not change the name: "data.csv/" names "data.csv". */
  lemma NameIgnoresTrailingSlash(path: string)
    ensures Name(path + "/") == Name(path)
  {
    PartsAfterDroppedPart(path, "");
    assert path + "/" + "" == path + "/";
    NameOfSameParts(path + "/", path);
  }

  /** A trailing "/." does not change the name either. */
  lemma NameIgnoresTrailingDot(path: string)
    ensures Name(path + "/" + ".") == Name(path)
  {
    PartsAfterDroppedPart(path, ".");
    NameOfSameParts(path + "/" + ".", path);
  }

  /** The name depends on the kept components only. */
  lemma NameOfSameParts(a: string, b: string)
    requires Parts(a) == Parts(b)
    ensures Name(a) == Name(b)
  {
  }

  /** The name of dir + "/" + name is name, whatever the directory. */
  lemma NameAfterDirectory(dir: string, name: string)
    requires Kept(name)
    ensures Name(dir + "/" + name) == name
  {
    PartsAfterSlash(dir, name);
  }

  /** A plain CSV name with a trailing slash is accepted: the slash is normalised away. */
  lemma TrailingSlashStillCsv(stem: string, size: nat)
    requires |stem| > 0 && '/' !in stem && size <= MaxUploadBytes
    ensures CheckUpload(LocalFile(stem + ".csv" + "/", true, size)).Ok?
  {
    LowerCsvSuffix(stem);
    NameIgnoresTrailingSlash(stem + ".csv");
  }

  /** The suffix of a plain name ending ".csv", and so of its name, is ".csv". */
  lemma LowerCsvSuffix(stem: string)
    requires |stem| > 0 && '/' !in stem
    ensures Suffix(stem + ".csv") == ".csv" && Lower(".csv") == ".csv"
  {
    CsvSpellings(stem);
    SuffixOfName(stem, "csv");
    LowerOfLowerCsv();
  }

  /** ".csv" lower-cases to itself. */
  lemma LowerOfLowerCsv()
    ensures Lower(".csv") == ".csv"
  {
    var lowered := Lower(".csv");
    assert lowered[0] == '.' && lowered[1] == 'c' && lowered[2] == 's' && lowered[3] == 'v';
  }

  /** A run of slashes, the bare roots among them, has no parts. */
  lemma {:induction false} PartsOfSlashes(path: string)
    requires forall k :: 0 <= k < |path| ==> path[k] == '/'
    ensures Parts(path) == []
    decreases |path|
  {
    if |path| == 0 {
      assert path[0..] == "";
    } else {
      var pre := path[..|path| - 1];
      assert path == pre + "/" + "";
      PartsAfterDroppedPart(pre, "");
      PartsOfSlashes(pre);
    }
  }

  /** A root as `Root` returns it: at most two slashes. */
  predicate Slashes(root: string)
  {
    |root| <= 2 && forall k :: 0 <= k < |root| ==> root[k] == '/'
  }

  /** Joining kept components under a root and splitting again gives the components back. */
  lemma {:induction false} PartsOfJoined(root: string, ps: seq<string>)
    requires Slashes(root)
    requires AllKept(ps)
    ensures Parts(Joined(root, ps)) == ps
    decreases |ps|
  {
    if |ps| <= 1 {
      PartsOfShortJoined(root, ps);
    } else {
      var init := ps[..|ps| - 1];
      PartsOfJoined(root, init);
      PartsOfJoinedStep(Joined(root, ps), Joined(root, init), init, ps);
    }
  }

  /** Every component is one `PurePosixPath` keeps. */
  predicate AllKept(ps: seq<string>)
  {
    forall n :: 0 <= n < |ps| ==> Kept(ps[n])
  }

  /** The base cases of `PartsOfJoined`: a bare root, and a root with one component. */
  lemma PartsOfShortJoined(root: string, ps: seq<string>)
    requires Slashes(root) && AllKept(ps) && |ps| <= 1
    ensures Parts(Joined(root, ps)) == ps
  {
    if |ps| == 0 {
      PartsOfSlashes(root);
    } else {
      assert Kept(ps[0]);
      PartsOfRootAndName(root, ps[0]);
    }
  }

  /** A root followed by one kept component has that component as its only part. */
  lemma PartsOfRootAndName(root: string, name: string)
    requires Slashes(root) && Kept(name)
    ensures Parts(root + name) == [name]
  {
    if root == "" {
      assert root + name == name;
      NameOfPlainName(name);
    } else {
      var pre := root[..|root| - 1];
      RootEndsInSlash(root);
      PartsOfSplit(root + name, pre, name);
      PartsOfSlashes(pre);
    }
  }

  /** The inductive step of `PartsOfJoined`: the last component comes after a slash. */
  lemma PartsOfJoinedStep(whole: string, prefix: string, init: seq<string>, ps: seq<string>)
    requires |ps| > 1 && AllKept(ps) && init == ps[..|ps| - 1]
    requires whole == prefix + "/" + ps[|ps| - 1]
    requires Parts(prefix) == init
    ensures Parts(whole) == ps
  {
    var last := ps[|ps| - 1];
    assert Kept(last);
    SnocOfInit(ps);
    PartsOfSplit(whole, prefix, last);
  }

  lemma SnocOfInit(ps: seq<string>)
    requires |ps| > 0
    ensures ps[..|ps| - 1] + [ps[|ps| - 1]] == ps
  {
  }

  /** The split `PartsAfterSlash` makes, for a path already known to be prefix + "/" + part. */
  lemma PartsOfSplit(path: string, prefix: string, part: string)
    requires path == prefix + "/" + part && Kept(part)
    ensures Parts(path) == Parts(prefix) + [part]
  {
    PartsAfterSlash(prefix, part);
  }

  lemma RootEndsInSlash(root: string)
    requires Slashes(root) && root != ""
    ensures root == root[..|root| - 1] + "/"
  {
  }

  /** A join under a root starts with the root and then the first component. */
  lemma {:induction false} JoinedStart(root: string, ps: seq<string>)
    requires |ps| > 0
    ensures root + ps[0] <= Joined(root, ps)
    decreases |ps|
  {
    if |ps| > 1 {
      JoinedStart(root, ps[..|ps| - 1]);
    }
  }

  /** The root of a normal form is the root it was built with. */
  lemma RootOfJoined(root: string, ps: seq<string>)
    requires Slashes(root)
    requires AllKept(ps)
    requires root != "" || |ps| > 0
    ensures Root(Joined(root, ps)) == root
  {
    var path := Joined(root, ps);
    if |ps| == 0 {
      assert path == root;
    } else {
      JoinedStart(root, ps);
      var c := ps[0][0];
      assert Kept(ps[0]);
      assert c != '/' by { assert c in ps[0]; }
      assert (root + ps[0])[|root|] == c;
      RootOfStart(path, root, c);
    }
  }

  /** Text that starts with a root and then a character other than '/' has that root. */
  lemma RootOfStart(path: string, root: string, c: char)
    requires Slashes(root) && c != '/'
    requires |path| > |root| && path[..|root|] == root && path[|root|] == c
    ensures Root(path) == root
  {
    assert forall k :: 0 <= k < |root| ==> path[k] == '/';
  }

  /**
   * Printing a path and reading the printed text again gives the same text:
   * the normal form is a fixed point, and it keeps the root, the parts and
   * so the name.
   */
  lemma NormalisedIdempotent(path: string)
    ensures Normalised(Normalised(path)) == Normalised(path)
    ensures Parts(Normalised(path)) == Parts(path)
    ensures Name(Normalised(path)) == Name(path)
  {
    var n := Normalised(path);
    SameRootAndPartsPrintAlike(n, path);
    NameOfSameParts(n, path);
  }

  /** The printed form depends on the root and the kept components only. */
  lemma SameRootAndPartsPrintAlike(a: string, b: string)
    requires Root(a) == Root(b) && Parts(a) == Parts(b)
    ensures Normalised(a) == Normalised(b)
  {
  }

  /** "." has no root and no kept components. */
  lemma DotIsEmptyPath()
    ensures Parts(".") == [] && Root(".") == ""
  {
    assert "."[0..] == ".";
  }

  /** `_convert_api_models_to_sdk_classes` of the inventories module: only a present, truthy "tree" becomes a handle. */
  function ConvertInventories(domainId: string, data: map<string, Json>): (r: map<string, Entry>)
    ensures Unwrap(r) == data
    ensures "tree" in data && Truthy(data["tree"]) ==> r["tree"] == Wrapped(domainId, data["tree"])
    ensures forall k :: k in r && r[k].Wrapped? ==> k == "tree"
  {
    ConvertLosesNothing(domainId, data, {"tree"});
    ConvertEntries(domainId, data, {"tree"})
  }
}
