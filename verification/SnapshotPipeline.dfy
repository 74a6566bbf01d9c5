/** Reading a snapshot with the scope rules pushed down to the paths, against filtering the whole tree. */
module SnapshotPipeline {
  import opened Model
  import opened TreeReading

  const MIB := 1024 * 1024
  const MAX_BLOB_BYTES := 5 * MIB
  const MAX_TOTAL_BYTES := 50 * MIB
  const MAX_ENTRY_COUNT := 10_000
  const MAX_CANDIDATE_COUNT := 100_000
  const MAX_TREE_ENTRY_COUNT := 250_000

  const HARD_EXCLUDED: set<string> :=
    {".git", "node_modules", "dist", "build", ".next", "coverage", "target", "vendor"}

  datatype Rules = Rules(
    includePaths: seq<string>, excludePaths: seq<string>, allowedTypes: seq<string>, blockedTypes: seq<string>,
    maxFileSize: int, excludeBinary: bool)

  /** The two library functions the filters rest on: `fnmatchcase` and `str.lower`. */
  datatype Library = Library(glob: (string, string) -> bool, lower: string -> string)

  /** A record of the tree listing: one that cannot be parsed, or an object with its listed size (0 for a size
      that is no number) and the bytes `git cat-file` gives, if it succeeds. */
  datatype Record = Malformed | Listed(isBlob: bool, path: string, size: int, content: Option<Bytes>)

  datatype Inclusion = DefaultPolicy | UserInclude
  datatype Entry = Entry(path: string, content: Bytes, includedBy: Inclusion)

  // ---- paths -----------------------------------------------------------------------------

  /** The components of a slash-separated path. */
  function Parts(path: string): (parts: seq<string>)
    ensures |parts| > 0
  {
    if |path| == 0 then [""]
    else
      var rest := Parts(path[1..]);
      if path[0] == '/' then [""] + rest else [[path[0]] + rest[0]] + rest[1..]
  }

  /** Putting the parts together again with slashes. */
  function SlashJoin(parts: seq<string>): string
    requires |parts| > 0
  {
    if |parts| == 1 then parts[0] else parts[0] + "/" + SlashJoin(parts[1..])
  }

  lemma JoinEmpty(rest: seq<string>)
    requires |rest| > 0
    ensures SlashJoin([""] + rest) == "/" + SlashJoin(rest)
  {
    assert ([""] + rest)[1..] == rest;
  }

  lemma JoinLonger(c: char, rest: seq<string>)
    requires |rest| > 0
    ensures SlashJoin([[c] + rest[0]] + rest[1..]) == [c] + SlashJoin(rest)
  {
    var longer := [[c] + rest[0]] + rest[1..];
    assert longer[1..] == rest[1..];
    if |rest| > 1 { Regroup(c, rest[0], SlashJoin(rest[1..])); }
  }

  lemma Regroup(c: char, part: string, joined: string)
    ensures ([c] + part) + "/" + joined == [c] + (part + "/" + joined)
  {
  }

  /** The parts of a path hold no slash, and joined by slashes they are the path. */
  lemma {:induction false} PartsRoundTrip(path: string)
    ensures SlashJoin(Parts(path)) == path
    ensures forall k :: 0 <= k < |Parts(path)| ==> '/' !in Parts(path)[k]
  {
    if |path| > 0 {
      PartsRoundTrip(path[1..]);
      var rest := Parts(path[1..]);
      assert path == [path[0]] + path[1..];
      if path[0] == '/' {
        JoinEmpty(rest);
      } else {
        JoinLonger(path[0], rest);
      }
    }
  }

  /** `path[i..j]` holds no slash and cannot be made longer without one. */
  ghost predicate Stretch(path: string, i: int, j: int) {
    && 0 <= i <= j <= |path| && '/' !in path[i..j]
    && (i == 0 || path[i - 1] == '/') && (j == |path| || path[j] == '/')
  }

  lemma ShiftedStretch(path: string, i: int, j: int)
    requires path != "" && Stretch(path[1..], i, j) && (i == 0 ==> path[0] == '/')
    ensures Stretch(path, i + 1, j + 1) && path[i + 1..j + 1] == path[1..][i..j]
  {
    var upTo := path[..j + 1];
    assert path[1..][..j] == upTo[1..];
    assert upTo[1..][i..] == upTo[i + 1..];
  }

  /** Every part is such a stretch, */
  lemma {:induction false} PartIsStretch(path: string, k: nat) returns (i: nat, j: nat)
    requires k < |Parts(path)|
    ensures Stretch(path, i, j) && path[i..j] == Parts(path)[k] && (k == 0 <==> i == 0)
  {
    if |path| == 0 || (k == 0 && path[0] == '/') {
      i, j := 0, 0;
    } else {
      var rest := path[1..];
      i, j := PartIsStretch(rest, if path[0] == '/' then k - 1 else k);
      if k == 0 {
        assert path[..j + 1] == [path[0]] + rest[..j];
        j := j + 1;
      } else {
        ShiftedStretch(path, i, j);
        i, j := i + 1, j + 1;
      }
    }
  }

  lemma FirstStretch(path: string, j: int)
    requires path != "" && path[0] != '/' && Stretch(path, 0, j)
    ensures j > 0 && Stretch(path[1..], 0, j - 1) && path[0..j] == [path[0]] + path[1..][0..j - 1]
  {
    assert j > 0;
    var rest := path[1..];
    assert path[0..j] == [path[0]] + rest[0..j - 1];
    forall c | c in rest[0..j - 1] ensures c in path[0..j] {}
    if j < |path| { assert rest[j - 1] == path[j]; }
  }

  lemma LaterStretch(path: string, i: int, j: int)
    requires 0 < i && Stretch(path, i, j)
    ensures Stretch(path[1..], i - 1, j - 1) && path[i..j] == path[1..][i - 1..j - 1]
  {
    var rest, upTo := path[1..], path[..j];
    assert rest[..j - 1] == upTo[1..];
    assert upTo[1..][i - 1..] == upTo[i..];
    if i > 1 { assert rest[i - 2] == path[i - 1]; }
    if j < |path| { assert rest[j - 1] == path[j]; }
  }

  /** and every such stretch a part. */
  lemma {:induction false} StretchIsPart(path: string, i: nat, j: nat) returns (k: nat)
    requires Stretch(path, i, j)
    ensures k < |Parts(path)| && Parts(path)[k] == path[i..j] && (k == 0 <==> i == 0)
  {
    if |path| == 0 || (i == 0 && path[0] == '/') {
      k := 0;
    } else {
      var rest := path[1..];
      if i == 0 {
        FirstStretch(path, j);
        k := StretchIsPart(rest, 0, j - 1);
      } else {
        LaterStretch(path, i, j);
        k := StretchIsPart(rest, i - 1, j - 1);
        if path[0] == '/' { k := k + 1; }
      }
    }
  }

  /** Some directory or file name on the path is one of the eight that are never collected. */
  ghost predicate UnderExcluded(path: string) {
    exists i, j :: Stretch(path, i, j) && path[i..j] in
      {".git", "node_modules", "dist", "build", ".next", "coverage", "target", "vendor"}
  }

  predicate HardExcluded(path: string) { exists i :: 0 <= i < |Parts(path)| && Parts(path)[i] in HARD_EXCLUDED }

  lemma HardExcludedExactly(path: string)
    ensures HardExcluded(path) <==> UnderExcluded(path)
  {
    if HardExcluded(path) {
      var k :| 0 <= k < |Parts(path)| && Parts(path)[k] in HARD_EXCLUDED;
      var i, j := PartIsStretch(path, k);
    }
    if UnderExcluded(path) {
      var i: nat, j: nat :| Stretch(path, i, j) && path[i..j] in HARD_EXCLUDED;
      var k := StretchIsPart(path, i, j);
    }
  }

  predicate MatchesAnyPath(lib: Library, path: string, patterns: seq<string>) {
    exists i :: 0 <= i < |patterns| && lib.glob(path, patterns[i])
  }

  predicate EndsWith(s: string, suffix: string) { |suffix| <= |s| && s[|s| - |suffix|..] == suffix }

  predicate MatchesFileType(lib: Library, path: string, types: seq<string>) {
    exists i :: 0 <= i < |types| &&
      var t := lib.lower(types[i]);
      EndsWith(lib.lower(path), if |t| > 0 && t[0] == '.' then t else "." + t)
  }

  /** `_is_scope_prefiltered_path` */
  predicate Prefiltered(lib: Library, path: string, rules: Rules) {
    || (|rules.includePaths| > 0 && !MatchesAnyPath(lib, path, rules.includePaths))
    || MatchesAnyPath(lib, path, rules.excludePaths)
    || (|rules.blockedTypes| > 0 && MatchesFileType(lib, path, rules.blockedTypes))
    || (|rules.allowedTypes| > 0 && !MatchesFileType(lib, path, rules.allowedTypes))
  }

  // ---- the scope filter ------------------------------------------------------------------

  predicate IsBinary(content: Bytes) { NUL in content }

  predicate FilterKeeps(lib: Library, rules: Rules, e: Entry) {
    && !HardExcluded(e.path)
    && (|rules.includePaths| > 0 ==> MatchesAnyPath(lib, e.path, rules.includePaths))
    && !MatchesAnyPath(lib, e.path, rules.excludePaths)
    && (|rules.blockedTypes| > 0 ==> !MatchesFileType(lib, e.path, rules.blockedTypes))
    && (|rules.allowedTypes| > 0 ==> MatchesFileType(lib, e.path, rules.allowedTypes))
    && (rules.excludeBinary ==> !IsBinary(e.content))
    && |e.content| <= rules.maxFileSize
  }

  /** What the filter keeps, rule by rule: no excluded directory, an include pattern if there are any, no exclude
      pattern, no blocked and, if any are given, some allowed ending, no NUL in a text-only snapshot, and the size. */
  lemma KeepsExactly(lib: Library, rules: Rules, e: Entry)
    ensures FilterKeeps(lib, rules, e) <==>
      && !UnderExcluded(e.path)
      && (rules.includePaths == [] || exists p :: p in rules.includePaths && lib.glob(e.path, p))
      && (forall p :: p in rules.excludePaths ==> !lib.glob(e.path, p))
      && (forall t :: t in rules.blockedTypes ==> !HasEnding(lib.lower(e.path), lib.lower(t)))
      && (rules.allowedTypes == [] || exists t :: t in rules.allowedTypes && HasEnding(lib.lower(e.path), lib.lower(t)))
      && (rules.excludeBinary ==> forall i :: 0 <= i < |e.content| ==> e.content[i] != 0)
      && |e.content| <= rules.maxFileSize
  {
    HardExcludedExactly(e.path);
    MatchesPathExactly(lib, e.path, rules.includePaths);
    MatchesPathExactly(lib, e.path, rules.excludePaths);
    MatchesTypeExactly(lib, e.path, rules.blockedTypes);
    MatchesTypeExactly(lib, e.path, rules.allowedTypes);
    hide UnderExcluded, HardExcluded, MatchesAnyPath, MatchesFileType, HasEnding;
  }

  /** The path is some stem followed by the ending, which is given with or without its dot. */
  ghost predicate HasEnding(path: string, ending: string) {
    if ending != "" && ending[0] == '.' then exists stem :: path == stem + ending
    else exists stem :: path == stem + ("." + ending)
  }

  lemma EndsExactly(path: string, suffix: string)
    ensures EndsWith(path, suffix) <==> exists stem :: path == stem + suffix
  {
    if EndsWith(path, suffix) { assert path == path[..|path| - |suffix|] + suffix; }
    if stem :| path == stem + suffix { assert path[|path| - |suffix|..] == suffix; }
  }

  lemma EndingExactly(path: string, ending: string)
    ensures HasEnding(path, ending)
      <==> EndsWith(path, if |ending| > 0 && ending[0] == '.' then ending else "." + ending)
  {
    hide EndsWith;
    EndsExactly(path, ending);
    EndsExactly(path, "." + ending);
  }

  lemma MatchesPathExactly(lib: Library, path: string, patterns: seq<string>)
    ensures MatchesAnyPath(lib, path, patterns) <==> exists p :: p in patterns && lib.glob(path, p)
  {
    if p :| p in patterns && lib.glob(path, p) {
      var i :| 0 <= i < |patterns| && patterns[i] == p;
    }
  }

  lemma MatchesTypeExactly(lib: Library, path: string, types: seq<string>)
    ensures MatchesFileType(lib, path, types) <==> exists t :: t in types && HasEnding(lib.lower(path), lib.lower(t))
  {
    hide HasEnding, EndsWith;
    forall t | t in types
      ensures HasEnding(lib.lower(path), lib.lower(t)) <==>
        EndsWith(lib.lower(path),
          if |lib.lower(t)| > 0 && lib.lower(t)[0] == '.' then lib.lower(t) else "." + lib.lower(t))
    {
      EndingExactly(lib.lower(path), lib.lower(t));
    }
    if t :| t in types && HasEnding(lib.lower(path), lib.lower(t)) {
      var i :| 0 <= i < |types| && types[i] == t;
    }
  }

  function Marked(lib: Library, rules: Rules, e: Entry): Entry {
    if MatchesAnyPath(lib, e.path, rules.includePaths) then e.(includedBy := UserInclude) else e
  }

  /** The entries the rules keep, in order, each marked with why. */
  function Filtered(lib: Library, rules: Rules, entries: seq<Entry>): seq<Entry> {
    if |entries| == 0 then []
    else
      var e := entries[|entries| - 1];
      Filtered(lib, rules, entries[..|entries| - 1])
      + if FilterKeeps(lib, rules, e) then [Marked(lib, rules, e)] else []
  }

  /** Every kept entry is an entry that was given, marked as the user's if it matches an include pattern, and no path of
      one leads through an excluded directory. */
  lemma {:induction false} FilteredClean(lib: Library, rules: Rules, entries: seq<Entry>)
    ensures forall e :: e in Filtered(lib, rules, entries) ==> !UnderExcluded(e.path)
    ensures forall e :: e in Filtered(lib, rules, entries) ==>
      exists f :: f in entries && f.path == e.path && f.content == e.content
        && e.includedBy ==
           if exists p :: p in rules.includePaths && lib.glob(f.path, p) then UserInclude else f.includedBy
  {
    hide UnderExcluded;
    if |entries| > 0 {
      var e := entries[|entries| - 1];
      FilteredClean(lib, rules, entries[..|entries| - 1]);
      HardExcludedExactly(e.path);
      MatchesPathExactly(lib, e.path, rules.includePaths);
    }
  }

  method FilterEntries(lib: Library, rules: Rules, entries: seq<Entry>) returns (filtered: seq<Entry>)
    ensures filtered == Filtered(lib, rules, entries)
    ensures forall e :: e in filtered ==> !UnderExcluded(e.path)
  {
    filtered := [];
    for i := 0 to |entries|
      invariant filtered == Filtered(lib, rules, entries[..i])
    {
      assert entries[..i + 1][..i] == entries[..i];
      var e := entries[i];
      if HardExcluded(e.path) { continue; }
      var byUser := MatchesAnyPath(lib, e.path, rules.includePaths);
      if |rules.includePaths| > 0 && !byUser { continue; }
      if MatchesAnyPath(lib, e.path, rules.excludePaths) { continue; }
      if |rules.blockedTypes| > 0 && MatchesFileType(lib, e.path, rules.blockedTypes) { continue; }
      if |rules.allowedTypes| > 0 && !MatchesFileType(lib, e.path, rules.allowedTypes) { continue; }
      if rules.excludeBinary && IsBinary(e.content) { continue; }
      if |e.content| > rules.maxFileSize { continue; }
      filtered := filtered + [Entry(e.path, e.content, if byUser && e.includedBy.DefaultPolicy? then UserInclude
                                                       else e.includedBy)];
    }
    assert entries[..|entries|] == entries;
    FilteredClean(lib, rules, entries);
  }

  // ---- the tree scan ---------------------------------------------------------------------

  function BlobCap(rules: Rules): int { if rules.maxFileSize < MAX_BLOB_BYTES then rules.maxFileSize else MAX_BLOB_BYTES }

  /** A blob whose path passes. */
  predicate Candidate(lib: Library, rules: Rules, r: Record) {
    r.Listed? && r.isBlob && !HardExcluded(r.path) && !Prefiltered(lib, r.path, rules)
  }

  /** A candidate whose listed size lets it be read. */
  predicate Opened(lib: Library, rules: Rules, r: Record) { Candidate(lib, rules, r) && r.size <= BlobCap(rules) }

  predicate Taken(lib: Library, rules: Rules, r: Record) {
    && Opened(lib, rules, r) && r.content.Some? && |r.content.value| <= BlobCap(rules)
    && (rules.excludeBinary ==> !IsBinary(r.content.value))
  }

  function Candidates(lib: Library, rules: Rules, tree: seq<Record>): nat {
    if |tree| == 0 then 0
    else Candidates(lib, rules, tree[..|tree| - 1]) + if Candidate(lib, rules, tree[|tree| - 1]) then 1 else 0
  }

  /** What the scan takes, in tree order. */
  function Kept(lib: Library, rules: Rules, tree: seq<Record>): seq<Entry> {
    if |tree| == 0 then []
    else
      var r := tree[|tree| - 1];
      Kept(lib, rules, tree[..|tree| - 1])
      + if Taken(lib, rules, r) then [Entry(r.path, r.content.value, DefaultPolicy)] else []
  }

  function TotalBytes(entries: seq<Entry>): nat {
    if |entries| == 0 then 0 else TotalBytes(entries[..|entries| - 1]) + |entries[|entries| - 1].content|
  }

  /** One of the four caps is exceeded, over the whole tree. */
  predicate ExceedsCap(lib: Library, rules: Rules, tree: seq<Record>) {
    || |tree| > 250_000
    || Candidates(lib, rules, tree) > 100_000
    || TotalBytes(Kept(lib, rules, tree)) > 52_428_800
    || |Kept(lib, rules, tree)| > 10_000
  }

  /** A record the listing should not hold, or a blob that is opened and cannot be read. */
  predicate Unreadable(lib: Library, rules: Rules, tree: seq<Record>) {
    exists i :: 0 <= i < |tree| && Bad(lib, rules, tree[i])
  }

  predicate Bad(lib: Library, rules: Rules, r: Record) {
    r.Malformed? || (Opened(lib, rules, r) && r.content.None?)
  }

  lemma KeptAppend(lib: Library, rules: Rules, tree: seq<Record>, i: nat)
    requires i < |tree|
    ensures Kept(lib, rules, tree[..i + 1]) == Kept(lib, rules, tree[..i])
      + if Taken(lib, rules, tree[i]) then [Entry(tree[i].path, tree[i].content.value, DefaultPolicy)] else []
    ensures Candidates(lib, rules, tree[..i + 1])
      == Candidates(lib, rules, tree[..i]) + if Candidate(lib, rules, tree[i]) then 1 else 0
  {
    assert tree[..i + 1][..i] == tree[..i];
  }

  lemma TotalAppend(entries: seq<Entry>, e: Entry)
    ensures TotalBytes(entries + [e]) == TotalBytes(entries) + |e.content|
  {
    assert (entries + [e])[..|entries|] == entries;
  }

  /** What a longer part of the tree counts is no less. */
  lemma {:induction false} CountsGrow(lib: Library, rules: Rules, tree: seq<Record>, i: nat)
    requires i <= |tree|
    ensures Candidates(lib, rules, tree[..i]) <= Candidates(lib, rules, tree)
    ensures |Kept(lib, rules, tree[..i])| <= |Kept(lib, rules, tree)|
    ensures TotalBytes(Kept(lib, rules, tree[..i])) <= TotalBytes(Kept(lib, rules, tree))
    decreases |tree| - i
  {
    if i == |tree| {
      assert tree[..i] == tree;
    } else {
      CountsGrow(lib, rules, tree, i + 1);
      KeptAppend(lib, rules, tree, i);
      if Taken(lib, rules, tree[i]) {
        TotalAppend(Kept(lib, rules, tree[..i]), Entry(tree[i].path, tree[i].content.value, DefaultPolicy));
      } else {
        assert Kept(lib, rules, tree[..i]) + [] == Kept(lib, rules, tree[..i]);
      }
    }
  }

  /** What the first `i` records show is true of the whole tree. */
  lemma PrefixFails(lib: Library, rules: Rules, tree: seq<Record>, i: nat)
    requires i <= |tree|
    ensures ExceedsCap(lib, rules, tree[..i]) ==> ExceedsCap(lib, rules, tree)
    ensures Unreadable(lib, rules, tree[..i]) ==> Unreadable(lib, rules, tree)
  {
    CountsGrow(lib, rules, tree, i);
  }

  lemma UnreadableAppend(lib: Library, rules: Rules, tree: seq<Record>, i: nat)
    requires i < |tree|
    ensures Unreadable(lib, rules, tree[..i + 1]) <==> Unreadable(lib, rules, tree[..i]) || Bad(lib, rules, tree[i])
  {
    if Bad(lib, rules, tree[i]) { assert tree[..i + 1][i] == tree[i]; }
    if Unreadable(lib, rules, tree[..i]) {
      var j :| 0 <= j < i && Bad(lib, rules, tree[..i][j]);
      assert tree[..i + 1][j] == tree[j];
    }
  }

  /** Nothing the scan takes is under an excluded directory or larger than the rules and the five MiB allow. */
  lemma {:induction false} KeptClean(lib: Library, rules: Rules, tree: seq<Record>)
    ensures forall e :: e in Kept(lib, rules, tree) ==>
      !UnderExcluded(e.path) && |e.content| <= rules.maxFileSize && |e.content| <= 5_242_880
  {
    hide UnderExcluded;
    if |tree| > 0 {
      var r := tree[|tree| - 1];
      KeptClean(lib, rules, tree[..|tree| - 1]);
      if r.Listed? { HardExcludedExactly(r.path); }
    }
  }

  /** `read_snapshot_entries`: fails iff a cap is exceeded or something cannot be read, and otherwise returns
      exactly the blobs the rules let through, in tree order. */
  method ReadEntries(lib: Library, rules: Rules, tree: seq<Record>) returns (entries: Option<seq<Entry>>)
    ensures entries.None? <==> ExceedsCap(lib, rules, tree) || Unreadable(lib, rules, tree)
    ensures entries.Some? ==> entries.value == Kept(lib, rules, tree)
    ensures entries.Some? ==> forall e :: e in entries.value ==>
      !UnderExcluded(e.path) && |e.content| <= rules.maxFileSize && |e.content| <= 5_242_880
  {
    KeptClean(lib, rules, tree);
    hide UnderExcluded, Unreadable, Prefiltered, HardExcluded, IsBinary, Kept, Candidates, TotalBytes;
    var taken: seq<Entry> := [];
    var treeCount, candidates, total := 0, 0, 0;
    NothingRead(lib, rules, tree);
    for i := 0 to |tree|
      invariant taken == Kept(lib, rules, tree[..i]) && candidates == Candidates(lib, rules, tree[..i])
      invariant total == TotalBytes(taken) && treeCount == i
      invariant !ExceedsCap(lib, rules, tree[..i]) && !Unreadable(lib, rules, tree[..i])
    {
      KeptAppend(lib, rules, tree, i);
      UnreadableAppend(lib, rules, tree, i);
      PrefixFails(lib, rules, tree, i + 1);
      var r := tree[i];
      treeCount := treeCount + 1;
      if treeCount > MAX_TREE_ENTRY_COUNT { return None; }
      if r.Malformed? { return None; }
      if !r.isBlob { continue; }
      if HardExcluded(r.path) { continue; }
      if Prefiltered(lib, r.path, rules) { continue; }
      candidates := candidates + 1;
      if candidates > MAX_CANDIDATE_COUNT { return None; }
      if r.size > BlobCap(rules) { continue; }
      if r.content.None? { return None; }
      var content := r.content.value;
      if |content| > BlobCap(rules) { continue; }
      if rules.excludeBinary && IsBinary(content) { continue; }
      TotalAppend(taken, Entry(r.path, content, DefaultPolicy));
      total := total + |content|;
      if total > MAX_TOTAL_BYTES { return None; }
      if |taken| >= MAX_ENTRY_COUNT { return None; }
      taken := taken + [Entry(r.path, content, DefaultPolicy)];
    }
    assert tree[..|tree|] == tree;
    entries := Some(taken);
  }

  lemma NothingRead(lib: Library, rules: Rules, tree: seq<Record>)
    ensures Kept(lib, rules, tree[..0]) == [] && Candidates(lib, rules, tree[..0]) == 0 && TotalBytes([]) == 0
    ensures !Unreadable(lib, rules, tree[..0])
  {
  }

  // ---- push-down -------------------------------------------------------------------------

  /** Every readable blob of the tree of at most 5 MiB, whatever its path. */
  function AllBlobs(tree: seq<Record>): seq<Entry> {
    if |tree| == 0 then []
    else
      var r := tree[|tree| - 1];
      AllBlobs(tree[..|tree| - 1])
      + if r.Listed? && r.isBlob && r.content.Some? && |r.content.value| <= 5_242_880
        then [Entry(r.path, r.content.value, DefaultPolicy)] else []
  }

  /** The listing does not report a blob larger than it is. */
  predicate Truthful(tree: seq<Record>) {
    forall i :: 0 <= i < |tree| && tree[i].Listed? && tree[i].content.Some? ==> tree[i].size <= |tree[i].content.value|
  }

  lemma FilteredAppend(lib: Library, rules: Rules, entries: seq<Entry>, e: Entry)
    ensures Filtered(lib, rules, entries + [e])
      == Filtered(lib, rules, entries) + if FilterKeeps(lib, rules, e) then [Marked(lib, rules, e)] else []
  {
    assert (entries + [e])[..|entries|] == entries;
  }

  /** For one blob: the scan takes it exactly when the filter would keep it, up to the 5 MiB cap. */
  lemma TakenIsKept(lib: Library, rules: Rules, r: Record)
    requires r.Listed? && r.isBlob && r.content.Some? && r.size <= |r.content.value|
    ensures Taken(lib, rules, r)
      <==> FilterKeeps(lib, rules, Entry(r.path, r.content.value, DefaultPolicy)) && |r.content.value| <= 5_242_880
  {
  }

  /** Reading with push-down and filtering afterwards is filtering the whole tree, and the filter drops nothing
      the reader returned: it only marks what the user's include paths asked for. */
  lemma {:induction false} PushDown(lib: Library, rules: Rules, tree: seq<Record>)
    requires Truthful(tree)
    ensures var kept := Kept(lib, rules, tree);
      && Filtered(lib, rules, kept) == Filtered(lib, rules, AllBlobs(tree))
      && |Filtered(lib, rules, kept)| == |kept|
      && forall i :: 0 <= i < |kept| ==> Filtered(lib, rules, kept)[i] == Marked(lib, rules, kept[i])
  {
    hide FilterKeeps, HardExcluded, Prefiltered, IsBinary, Marked, Filtered, Taken;
    if |tree| == 0 {
      NothingFiltered(lib, rules);
    } else {
      var init, r := tree[..|tree| - 1], tree[|tree| - 1];
      PushDown(lib, rules, init);
      PushDownLast(lib, rules, tree);
    }
  }

  lemma NothingFiltered(lib: Library, rules: Rules)
    ensures Filtered(lib, rules, []) == []
  {
  }

  lemma PushDownLast(lib: Library, rules: Rules, tree: seq<Record>)
    requires Truthful(tree) && |tree| > 0
    requires var kept := Kept(lib, rules, tree[..|tree| - 1]);
      && Filtered(lib, rules, kept) == Filtered(lib, rules, AllBlobs(tree[..|tree| - 1]))
      && |Filtered(lib, rules, kept)| == |kept|
      && forall i :: 0 <= i < |kept| ==> Filtered(lib, rules, kept)[i] == Marked(lib, rules, kept[i])
    ensures var kept := Kept(lib, rules, tree);
      && Filtered(lib, rules, kept) == Filtered(lib, rules, AllBlobs(tree))
      && |Filtered(lib, rules, kept)| == |kept|
      && forall i :: 0 <= i < |kept| ==> Filtered(lib, rules, kept)[i] == Marked(lib, rules, kept[i])
  {
    hide FilterKeeps, HardExcluded, Prefiltered, IsBinary, Marked, Filtered;
    var init, r := tree[..|tree| - 1], tree[|tree| - 1];
    var kept, all := Kept(lib, rules, init), AllBlobs(init);
    if r.Listed? && r.isBlob && r.content.Some? {
      var e := Entry(r.path, r.content.value, DefaultPolicy);
      TakenIsKept(lib, rules, r);
      FilteredAppend(lib, rules, kept, e);
      FilteredAppend(lib, rules, all, e);
      if !Taken(lib, rules, r) { assert kept + [] == kept; }
      if |r.content.value| > MAX_BLOB_BYTES { assert all + [] == all; }
    } else {
      assert kept + [] == kept && all + [] == all;
    }
  }
}
