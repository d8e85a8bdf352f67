/**
 * The project store (`internal/project/project_manager.go`): one JSON file per project
 * in a storage directory. The directory is modelled as a map from file name to what the
 * file decodes to; the JSON encoding is taken to round-trip a `Project` exactly.
 */
module ProjectStore {
  import opened Wrappers
  import opened Text
  import opened Model

  /** One file of the storage directory: a project record, or contents that do not decode. */
  datatype Entry = Stored(project: Project) | Corrupt(error: string)

  const JsonExt := ".json"
  const InvalidName := "_invalid_"
  const ErrNotFound := "project not found: "
  const ErrUnmarshal := "failed to unmarshal project: "

  /** `s` without its trailing slashes. */
  function TrimTrailingSlashes(s: string): (r: string)
    ensures r <= s
    ensures r == [] || r[|r| - 1] != '/'
    ensures forall i :: |r| <= i < |s| ==> s[i] == '/'
  {
    if s == [] || s[|s| - 1] != '/' then s
    else TrimTrailingSlashes(s[..|s| - 1])
  }

  /**
   * `filepath.Base` on a slash-separated path: the last element, trailing slashes
   * dropped; "." for the empty path and "/" for a path of slashes only.
   */
  function Base(path: string): (r: string)
    ensures r != []
    ensures r != "/" ==> '/' !in r
    ensures path == [] ==> r == "."
    ensures path != [] && '/' !in path ==> r == path
  {
    if path == [] then "."
    else
      var t := TrimTrailingSlashes(path);
      var last := match LastIndexOfChar(t, '/') case None => t case Some(i) => t[i + 1..];
      if last == [] then "/" else last
  }

  /**
   * The base is the last element: for a path of slashes only it is "/", and otherwise
   * it ends the path without its trailing slashes and is preceded there by '/' or by
   * nothing, so (holding no '/') it is the whole last element.
   */
  lemma BaseIsLastElement(path: string)
    requires path != []
    ensures var r := Base(path); var t := TrimTrailingSlashes(path);
      && (r == "/" <==> t == [])
      && (r == "/" ==> forall i :: 0 <= i < |path| ==> path[i] == '/')
      && (r != "/" ==> |r| <= |t| && t[|t| - |r|..] == r && (|r| == |t| || t[|t| - |r| - 1] == '/'))
  {
  }

  /**
   * The name of the file that holds project `id` (the last element of `filePath`): the
   * base of the id plus ".json", with "", "." and ".." replaced by "_invalid_". A base of
   * "/" joins to the bare name ".json".
   */
  function FileName(id: string): string {
    var clean := Sanitized(id);
    if clean == "/" then JsonExt else clean + JsonExt
  }

  /** The base of `id`, with "", "." and ".." replaced by "_invalid_". */
  function Sanitized(id: string): string {
    var b := Base(id);
    if b == "." || b == ".." || b == "" then InvalidName else b
  }

  /** `filePath`: the file of project `id`, always directly inside the storage directory. */
  function FilePath(storagePath: string, id: string): string {
    storagePath + "/" + FileName(id)
  }

  /** `filepath.Ext`: the suffix from the last '.' of the last path element, or "". */
  function Ext(path: string): string {
    if path == [] || path[|path| - 1] == '/' then ""
    else if path[|path| - 1] == '.' then "."
    else
      var e := Ext(path[..|path| - 1]);
      if e == "" then "" else e + [path[|path| - 1]]
  }

  /** An extension is "" or a suffix of the name that starts with '.' and holds no separator. */
  lemma {:induction false} ExtIsSuffix(path: string)
    ensures var r := Ext(path);
      r == [] || (r[0] == '.' && |r| <= |path| && r == path[|path| - |r|..] && '/' !in r)
  {
    if path != [] && path[|path| - 1] != '/' && path[|path| - 1] != '.' {
      var q := path[..|path| - 1];
      ExtIsSuffix(q);
      var e := Ext(q);
      if e != "" {
        assert e + [path[|path| - 1]] == path[|path| - |e| - 1..];
      }
    }
  }

  /** Appending a character other than '/' and '.' extends a non-empty extension by it. */
  lemma ExtAppend(p: string, c: char)
    requires c != '/' && c != '.'
    ensures Ext(p + [c]) == if Ext(p) == "" then "" else Ext(p) + [c]
  {
    assert (p + [c])[..|p|] == p;
  }

  /** A name ending in a dot and a suffix without '.' or '/' has that dot and suffix as its extension. */
  lemma {:induction false} ExtDotSuffix(p: string, t: string)
    requires '.' !in t && '/' !in t
    ensures Ext(p + ['.'] + t) == ['.'] + t
  {
    if t == [] {
      assert p + ['.'] + t == p + ['.'];
    } else {
      var u, c := t[..|t| - 1], t[|t| - 1];
      var x := p + ['.'] + u;
      ExtDotSuffix(p, u);
      ExtAppend(x, c);
      assert x + [c] == p + ['.'] + t;
      assert ['.'] + u + [c] == ['.'] + t;
    }
  }

  /** Every file named after an id has the ".json" extension, so `List` considers it. */
  lemma JsonNameExt(s: string)
    ensures Ext(s + JsonExt) == JsonExt
  {
    ExtDotSuffix(s, "json");
    assert s + ['.'] + "json" == s + JsonExt;
  }

  /**
   * Sanitising keeps every file inside the storage directory: the name has no separator,
   * is neither "." nor "..", and ends in ".json"; an id that is already a plain name
   * keeps it.
   */
  lemma FileNameIsPlain(id: string)
    ensures var n := FileName(id);
      '/' !in n && n != "." && n != ".." && |n| >= |JsonExt| && n[|n| - |JsonExt|..] == JsonExt
      && Ext(n) == JsonExt
    ensures '/' !in id && id != "" && id != "." && id != ".." ==> FileName(id) == id + JsonExt
  {
    var clean := Sanitized(id);
    if clean == "/" {
      JsonNameExt("");
      assert "" + JsonExt == JsonExt;
    } else {
      assert '/' !in clean;
      var n := clean + JsonExt;
      assert n[|n| - |JsonExt|..] == JsonExt;
      forall i | 0 <= i < |n| ensures n[i] != '/' {
        if i < |clean| { assert n[i] == clean[i]; } else { assert n[i] == JsonExt[i - |clean|]; }
      }
      JsonNameExt(clean);
    }
  }

  /** Sanitising an already sanitised id changes nothing: an id and its base share a file. */
  lemma FileNameOfBase(id: string)
    ensures FileName(Base(id)) == FileName(id)
  {
    var b := Base(id);
    if b != "/" {
      assert Base(b) == b;
    } else {
      assert TrimTrailingSlashes(b) == [];
    }
  }

  /** A file that `List` reads: a ".json" name holding a project record. */
  predicate IsListed(files: map<string, Entry>, k: string) {
    k in files && Ext(k) == JsonExt && files[k].Stored?
  }

  /** `Get`'s answer for `id` in a given directory. */
  function Lookup(files: map<string, Entry>, id: string): (r: Result<Project>)
    ensures FileName(id) !in files ==> r == Err(ErrNotFound + id)
    ensures r.Ok? <==> FileName(id) in files && files[FileName(id)].Stored?
    ensures r.Ok? ==> files[FileName(id)] == Stored(r.value)
    ensures FileName(id) in files && files[FileName(id)].Corrupt? ==> r == Err(ErrUnmarshal + files[FileName(id)].error)
  {
    if FileName(id) !in files then Err(ErrNotFound + id)
    else
      match files[FileName(id)]
      case Corrupt(e) => Err(ErrUnmarshal + e)
      case Stored(p) => Ok(p)
  }

  /** The names held by listed projects other than `selfID`. */
  function StoreTaken(files: map<string, Entry>, selfID: string): set<string> {
    set k | k in files && IsListed(files, k) && files[k].project.id != selfID :: files[k].project.name
  }

  /** The names of the projects in `ps` other than `selfID` (the `names` set `uniqueName` builds). */
  function TakenNames(ps: seq<Project>, selfID: string): set<string> {
    if ps == [] then {}
    else TakenNames(ps[..|ps| - 1], selfID) + (if ps[|ps| - 1].id != selfID then {ps[|ps| - 1].name} else {})
  }

  /** A name is in `TakenNames` exactly when a project with a different id carries it. */
  lemma {:induction false} TakenNamesIff(ps: seq<Project>, selfID: string, n: string)
    ensures n in TakenNames(ps, selfID) <==> exists i :: 0 <= i < |ps| && ps[i].id != selfID && ps[i].name == n
  {
    if ps != [] {
      var init := ps[..|ps| - 1];
      TakenNamesIff(init, selfID, n);
      if exists i :: 0 <= i < |ps| && ps[i].id != selfID && ps[i].name == n {
        var i :| 0 <= i < |ps| && ps[i].id != selfID && ps[i].name == n;
        if i < |init| { assert init[i] == ps[i]; }
      }
      if exists i :: 0 <= i < |init| && init[i].id != selfID && init[i].name == n {
        var i :| 0 <= i < |init| && init[i].id != selfID && init[i].name == n;
        assert ps[i] == init[i];
      }
    }
  }

  /** The candidate name with numeric suffix `i`. */
  function Candidate(root: string, i: nat): string {
    root + "_" + NatToString(i)
  }

  /** Different suffixes give different candidates. */
  lemma CandidateInjective(root: string, i: nat, j: nat)
    requires Candidate(root, i) == Candidate(root, j)
    ensures i == j
  {
    var k := |root| + 1;
    assert NatToString(i) == Candidate(root, i)[k..];
    assert NatToString(j) == Candidate(root, j)[k..];
    NatToStringInjective(i, j);
  }

  /** The taken names that are candidates with suffix `i` or more. */
  ghost function Pending(taken: set<string>, root: string, i: nat): set<string> {
    set n | n in taken && exists j: nat :: i <= j && n == Candidate(root, j)
  }

  /** A taken candidate leaves the pending set once the search moves past it. */
  lemma PendingShrinks(taken: set<string>, root: string, i: nat)
    requires Candidate(root, i) in taken
    ensures Pending(taken, root, i + 1) < Pending(taken, root, i)
  {
    assert Candidate(root, i) in Pending(taken, root, i);
    if Candidate(root, i) in Pending(taken, root, i + 1) {
      var j: nat :| i + 1 <= j && Candidate(root, i) == Candidate(root, j);
      CandidateInjective(root, i, j);
    }
  }

  /** The smallest suffix from `i` on whose candidate is free. */
  function FirstFree(taken: set<string>, root: string, i: nat): (j: nat)
    decreases Pending(taken, root, i)
    ensures i <= j && Candidate(root, j) !in taken
    ensures forall k :: i <= k < j ==> Candidate(root, k) in taken
  {
    if Candidate(root, i) !in taken then i
    else
      PendingShrinks(taken, root, i);
      FirstFree(taken, root, i + 1)
  }

  /** The split of a name by the pattern `^(.+)_(\d+)$`: the root, and the first suffix to try. */
  datatype Split = Split(root: string, start: nat)

  /**
   * The root is everything before the last '_' when what follows it is a non-empty run
   * of ASCII digits and the root is non-empty and has no newline (the pattern's `.` does
   * not match one); the counter starts at the digits' value, but at 2 at least. Any other
   * name is its own root, starting at 2.
   */
  function SplitSuffix(name: string): (s: Split)
    ensures s.start >= 2
    ensures s.root == name || (|s.root| > 0 && s.root < name && name[|s.root|] == '_')
  {
    match LastIndexOfChar(name, '_')
    case Some(p) =>
      if 1 <= p && p + 1 < |name| && AllDigits(name[p + 1..]) && '\n' !in name[..p] then
        var n := ParseDecimal(name[p + 1..]);
        Split(name[..p], if n < 2 then 2 else n)
      else Split(name, 2)
    case None => Split(name, 2)
  }

  /**
   * `uniqueName` against the set of names taken by other projects: `base` itself when it
   * is free, otherwise the first free candidate `root_i` with `i` from the split's start.
   */
  function UniqueNameSpec(base: string, taken: set<string>): (r: string)
    ensures r !in taken
    ensures r == base <==> base !in taken
    ensures base in taken ==> var s := SplitSuffix(base);
      exists k: nat :: s.start <= k && r == Candidate(s.root, k)
        && forall j :: s.start <= j < k ==> Candidate(s.root, j) in taken
  {
    if base !in taken then base
    else
      var s := SplitSuffix(base);
      var k := FirstFree(taken, s.root, s.start);
      Candidate(s.root, k)
  }

  /** `uniqueName`: collects the other projects' names, then counts the suffix upward. */
  method UniqueName(baseName: string, selfID: string, projects: seq<Project>) returns (r: string)
    ensures r == UniqueNameSpec(baseName, TakenNames(projects, selfID))
  {
    var names: set<string> := {};
    for i := 0 to |projects|
      invariant names == TakenNames(projects[..i], selfID)
    {
      assert projects[..i + 1][..i] == projects[..i];
      if projects[i].id != selfID {
        names := names + {projects[i].name};
      }
    }
    assert projects[..|projects|] == projects;
    if baseName !in names {
      return baseName;
    }
    var split := SplitSuffix(baseName);
    var i := split.start;
    while Candidate(split.root, i) in names
      invariant split.start <= i <= FirstFree(names, split.root, split.start)
      invariant FirstFree(names, split.root, i) == FirstFree(names, split.root, split.start)
      decreases Pending(names, split.root, i)
    {
      PendingShrinks(names, split.root, i);
      i := i + 1;
    }
    return Candidate(split.root, i);
  }

  /** Keeping or re-saving one's own name never adds a suffix: only other projects' names count. */
  lemma OwnNameKept(ps: seq<Project>, selfID: string, name: string)
    requires forall i :: 0 <= i < |ps| && ps[i].name == name ==> ps[i].id == selfID
    ensures UniqueNameSpec(name, TakenNames(ps, selfID)) == name
  {
    TakenNamesIff(ps, selfID, name);
  }

  /** A taken plain name gets the suffix "_2" when that is free. */
  lemma SecondCopy(taken: set<string>)
    requires "report" in taken && "report_2" !in taken
    ensures UniqueNameSpec("report", taken) == "report_2"
  {
    assert LastIndexOfChar("report", '_').None?;
    assert Candidate("report", 2) == "report_2";
  }

  /** A taken name with a suffix counts on from that suffix. */
  lemma CountsOnFromSuffix(taken: set<string>)
    requires "log_3" in taken && "log_4" !in taken
    ensures UniqueNameSpec("log_3", taken) == "log_4"
  {
    assert "log_3"[..4] == "log_";
    assert LastIndexOfChar("log_3", '_') == Some(3);
    assert "log_3"[4..] == "3" && "3"[..0] == [];
    assert ParseDecimal("3") == 3;
    assert SplitSuffix("log_3") == Split("log", 3);
    assert NatToString(3) == "3" && NatToString(4) == "4";
    assert Candidate("log", 3) == "log_3";
    assert Candidate("log", 4) == "log_4";
  }

  /** Projects ordered by creation time, newest first. */
  predicate NewestFirst(ps: seq<Project>) {
    forall i, j :: 0 <= i < j < |ps| ==> ps[i].createdAt >= ps[j].createdAt
  }

  /** A listed project together with the file it was read from. */
  datatype Listed = Listed(file: string, project: Project)

  function Projects(s: seq<Listed>): (ps: seq<Project>)
    ensures |ps| == |s| && forall i :: 0 <= i < |s| ==> ps[i] == s[i].project
  {
    if s == [] then [] else [s[0].project] + Projects(s[1..])
  }

  function Files(s: seq<Listed>): (fs: seq<string>)
    ensures |fs| == |s| && forall i :: 0 <= i < |s| ==> fs[i] == s[i].file
  {
    if s == [] then [] else [s[0].file] + Files(s[1..])
  }

  /** Two listings with the same entries name the same files. */
  lemma SameFiles(a: seq<Listed>, b: seq<Listed>)
    requires multiset(a) == multiset(b)
    ensures forall k :: k in Files(a) ==> k in Files(b)
  {
    forall k | k in Files(a) ensures k in Files(b) {
      var i :| 0 <= i < |a| && Files(a)[i] == k;
      assert a[i] in multiset(a);
      var j :| 0 <= j < |b| && b[j] == a[i];
      assert Files(b)[j] == k;
    }
  }

  predicate DistinctFiles(s: seq<Listed>) {
    forall i, j :: 0 <= i < j < |s| ==> s[i].file != s[j].file
  }

  /** Appending an entry whose file is not listed yet keeps the files distinct. */
  lemma AppendDistinct(s: seq<Listed>, y: Listed)
    requires DistinctFiles(s)
    requires forall i :: 0 <= i < |s| ==> s[i].file != y.file
    ensures DistinctFiles(s + [y])
  {
    var r := s + [y];
    forall i, j | 0 <= i < j < |r| ensures r[i].file != r[j].file {
      assert r[i] == s[i];
    }
  }

  predicate SortedByCreated(s: seq<Listed>) {
    forall i, j :: 0 <= i < j < |s| ==> s[i].project.createdAt >= s[j].project.createdAt
  }

  /** Every entry after the first of a sorted listing is no newer than the first. */
  lemma HeadIsNewest(s: seq<Listed>)
    requires s != [] && SortedByCreated(s)
    ensures forall y :: y in s[1..] ==> y.project.createdAt <= s[0].project.createdAt
  {
    forall y | y in s[1..] ensures y.project.createdAt <= s[0].project.createdAt {
      var k :| 0 <= k < |s[1..]| && s[1..][k] == y;
      assert s[k + 1] == y;
    }
  }

  /** Inserts `x` before the first entry that is not newer than it. */
  function Insert(x: Listed, s: seq<Listed>): (r: seq<Listed>)
    requires SortedByCreated(s)
    ensures SortedByCreated(r)
    ensures multiset(r) == multiset(s) + multiset{x}
  {
    if s == [] || x.project.createdAt >= s[0].project.createdAt then [x] + s
    else
      var t := Insert(x, s[1..]);
      assert s == [s[0]] + s[1..];
      NoNewerThanHead(x, s, t);
      ConsSorted(s[0], t);
      [s[0]] + t
  }

  /** The entries of `s` after its head, together with an older `x`, are no newer than the head. */
  lemma NoNewerThanHead(x: Listed, s: seq<Listed>, t: seq<Listed>)
    requires s != [] && SortedByCreated(s) && x.project.createdAt < s[0].project.createdAt
    requires multiset(t) == multiset(s[1..]) + multiset{x}
    ensures forall k :: 0 <= k < |t| ==> t[k].project.createdAt <= s[0].project.createdAt
  {
    HeadIsNewest(s);
    forall k | 0 <= k < |t| ensures t[k].project.createdAt <= s[0].project.createdAt {
      assert t[k] in multiset(t);
    }
  }

  /** A sorted listing stays sorted under a head no older than any of its entries. */
  lemma ConsSorted(h: Listed, t: seq<Listed>)
    requires SortedByCreated(t)
    requires forall k :: 0 <= k < |t| ==> t[k].project.createdAt <= h.project.createdAt
    ensures SortedByCreated([h] + t)
  {
    var r := [h] + t;
    forall i, j | 0 <= i < j < |r| ensures r[i].project.createdAt >= r[j].project.createdAt {
      if i > 0 {
        assert r[i] == t[i - 1] && r[j] == t[j - 1];
      }
    }
  }

  /** `sort.Slice` by `CreatedAt`, newest first, as an insertion sort. */
  function SortByCreated(s: seq<Listed>): (r: seq<Listed>)
    ensures SortedByCreated(r)
    ensures multiset(r) == multiset(s)
  {
    if s == [] then []
    else
      var t := SortByCreated(s[1..]);
      assert s == [s[0]] + s[1..];
      Insert(s[0], t)
  }

  /** A listing whose files are distinct names each file once, so it holds no entry twice. */
  lemma DistinctFilesOnce(s: seq<Listed>)
    requires DistinctFiles(s)
    ensures forall y :: multiset(s)[y] <= 1
    ensures forall y :: y in s ==> forall z :: z in s && z.file == y.file ==> z == y
  {
    if s != [] {
      var t := s[1..];
      assert s == [s[0]] + t;
      assert DistinctFiles(t) by {
        forall i, j | 0 <= i < j < |t| ensures t[i].file != t[j].file {
          assert t[i] == s[i + 1] && t[j] == s[j + 1];
        }
      }
      DistinctFilesOnce(t);
      forall y | y in t ensures y.file != s[0].file {
        var k :| 0 <= k < |t| && t[k] == y;
        assert s[k + 1] == y;
      }
    }
  }

  /** An entry at two positions is counted twice. */
  lemma CountedTwice(r: seq<Listed>, i: nat, j: nat)
    requires i < j < |r| && r[i] == r[j]
    ensures multiset(r)[r[i]] >= 2
  {
    assert r == r[..j] + r[j..];
    assert r[..j][i] == r[i] && r[j..][0] == r[j];
    assert r[i] in multiset(r[..j]) && r[j] in multiset(r[j..]);
  }

  /** A permutation of a listing with distinct files also has distinct files. */
  lemma PermutationKeepsDistinct(s: seq<Listed>, r: seq<Listed>)
    requires DistinctFiles(s) && multiset(r) == multiset(s)
    ensures DistinctFiles(r)
  {
    DistinctFilesOnce(s);
    forall i, j | 0 <= i < j < |r| ensures r[i].file != r[j].file {
      assert r[i] in multiset(r) && r[j] in multiset(r);
      if r[i] == r[j] {
        CountedTwice(r, i, j);
      } else {
        assert r[i] in s && r[j] in s;
      }
    }
  }

  /** The project store over its storage directory. */
  class ProjectManager {
    const storagePath: string
    /** The storage directory: file name to contents. */
    var files: map<string, Entry>

    /** `NewProjectManager` over a directory that already holds `existing`. */
    constructor (storagePath: string, existing: map<string, Entry>)
      ensures this.storagePath == storagePath && files == existing
    {
      this.storagePath := storagePath;
      files := existing;
    }

    /** `Get`: reads and decodes the file of `id`. */
    function Get(id: string): (r: Result<Project>)
      reads this
      ensures r == Lookup(files, id)
    {
      Lookup(files, id)
    }

    /**
     * `List`: every listed record exactly once (`order` names the file each came from),
     * newest first; other files are skipped.
     */
    method List() returns (r: seq<Project>, ghost order: seq<string>)
      ensures NewestFirst(r)
      ensures |order| == |r| && forall i, j :: 0 <= i < j < |order| ==> order[i] != order[j]
      ensures forall i :: 0 <= i < |r| ==> IsListed(files, order[i]) && files[order[i]] == Stored(r[i])
      ensures forall k :: IsListed(files, k) ==> k in order
    {
      var listed := ReadEntries();
      var sorted := SortByCreated(listed);
      r := Projects(sorted);
      order := Files(sorted);
      PermutationKeepsDistinct(listed, sorted);
      SameFiles(listed, sorted);
      forall i | 0 <= i < |r| ensures IsListed(files, order[i]) && files[order[i]] == Stored(r[i]) {
        assert sorted[i] in multiset(listed);
      }
    }

    /** The loop of `List` over the directory entries: each listed file once, in any order. */
    method ReadEntries() returns (listed: seq<Listed>)
      ensures DistinctFiles(listed)
      ensures forall y :: y in listed ==> IsListed(files, y.file) && files[y.file] == Stored(y.project)
      ensures forall k :: IsListed(files, k) ==> k in Files(listed)
    {
      listed := [];
      var rest := files.Keys;
      while rest != {}
        invariant rest <= files.Keys
        invariant DistinctFiles(listed)
        invariant forall y :: y in listed ==> IsListed(files, y.file) && files[y.file] == Stored(y.project) && y.file !in rest
        invariant forall k :: IsListed(files, k) && k !in rest ==> k in Files(listed)
        decreases rest
      {
        var k :| k in rest;
        rest := rest - {k};
        if Ext(k) == JsonExt && files[k].Stored? {
          var y := Listed(k, files[k].project);
          assert Files(listed + [y]) == Files(listed) + [k];
          AppendDistinct(listed, y);
          listed := listed + [y];
        }
      }
    }

    /** The names taken by listed projects other than `selfID`, gathered as `uniqueName` does from `List`. */
    method TakenByOthers(selfID: string) returns (existing: seq<Project>)
      ensures TakenNames(existing, selfID) == StoreTaken(files, selfID)
    {
      ghost var order;
      existing, order := List();
      forall n ensures n in TakenNames(existing, selfID) <==> n in StoreTaken(files, selfID) {
        TakenNamesIff(existing, selfID, n);
        if n in StoreTaken(files, selfID) {
          var k :| k in files && IsListed(files, k) && files[k].project.id != selfID && files[k].project.name == n;
          var i :| 0 <= i < |order| && order[i] == k;
          assert existing[i] == files[k].project;
        }
      }
    }

    /**
     * `Create`: a non-empty name is made unique among the other listed projects; the
     * record is then written to its file, replacing any record with the same id.
     */
    method Create(p: Project)
      modifies this
      ensures var name := if p.name == "" then "" else UniqueNameSpec(p.name, StoreTaken(old(files), p.id));
        files == old(files)[FileName(p.id) := Stored(p.(name := name))]
      ensures Get(p.id).Ok? && Get(p.id).value.id == p.id && Get(p.id).value.sampleData == p.sampleData
      ensures Get(p.id).value.code == p.code && Get(p.id).value.status == p.status
      ensures p.name != "" ==> Get(p.id).value.name !in StoreTaken(old(files), p.id)
    {
      var project := p;
      if project.name != "" {
        var existing := TakenByOthers(project.id);
        var name := UniqueName(project.name, project.id, existing);
        project := project.(name := name);
      }
      files := files[FileName(project.id) := Stored(project)];
    }

    /**
     * `Update`: a missing or unreadable record is an error and changes nothing; otherwise
     * only the fields present in `updates` change (a new name made unique against the
     * other projects) and `updatedAt` becomes `now`.
     */
    method Update(id: string, updates: ProjectUpdate, now: int) returns (r: Outcome)
      modifies this
      ensures old(Get(id)).Err? ==> r == Fail(old(Get(id)).error) && files == old(files)
      ensures old(Get(id)).Ok? ==> (r == Pass &&
        var p := old(Get(id)).value;
        var name := if updates.name.Some? then UniqueNameSpec(updates.name.value, StoreTaken(old(files), id)) else p.name;
        var code := if updates.code.Some? then updates.code.value else p.code;
        var status := if updates.status.Some? then updates.status.value else p.status;
        files == old(files)[FileName(id) := Stored(p.(name := name, code := code, status := status, updatedAt := now))])
      ensures old(Get(id)).Ok? ==> (Get(id).Ok? && Get(id).value.id == old(Get(id)).value.id
        && Get(id).value.createdAt == old(Get(id)).value.createdAt && Get(id).value.sampleData == old(Get(id)).value.sampleData)
      ensures old(Get(id)).Ok? && updates.code.Some? ==> Get(id).value.code == updates.code.value
    {
      var got := Get(id);
      if got.Err? {
        return Fail(got.error);
      }
      var p := got.value;
      if updates.name.Some? {
        var existing := TakenByOthers(id);
        var name := UniqueName(updates.name.value, id, existing);
        p := p.(name := name);
      }
      if updates.code.Some? {
        p := p.(code := updates.code.value);
      }
      if updates.status.Some? {
        p := p.(status := updates.status.value);
      }
      p := p.(updatedAt := now);
      files := files[FileName(id) := Stored(p)];
      return Pass;
    }

    /** `Delete`: a missing file is "not found"; otherwise the file is removed and nothing else. */
    method Delete(id: string) returns (r: Outcome)
      modifies this
      ensures FileName(id) !in old(files) ==> r == Fail(ErrNotFound + id) && files == old(files)
      ensures FileName(id) in old(files) ==> r == Pass && files == old(files) - {FileName(id)}
      ensures Get(id) == Err(ErrNotFound + id) && !IsListed(files, FileName(id))
    {
      if FileName(id) !in files {
        return Fail(ErrNotFound + id);
      }
      files := files - {FileName(id)};
      return Pass;
    }
  }
}
