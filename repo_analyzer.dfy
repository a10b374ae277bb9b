/** `RepoAnalyzer`: the classifiers and counters applied to a repository's
    contents listing. Each HTTP response is an input (`Listing`); the
    request itself is not modelled. */
module RepoAnalyzer {
  import opened Text

  // ---------------------------------------------------------------------
  // Contents listings

  /** The `type` of a contents entry: "file", "dir", or anything else
      (symlinks, submodules), which every loop skips. */
  datatype ItemKind = FileItem | DirItem | OtherItem
  datatype Item = Item(kind: ItemKind, name: string, path: string, size: int)

  /** One contents request: a status code and the parsed entries, or an
      exception raised while fetching. */
  datatype Listing = Listing(status: int, items: seq<Item>) | FetchError(message: string)

  datatype FileInfo = FileInfo(name: string, path: string, size: int)
  datatype DirInfo = DirInfo(name: string, path: string)

  /** The file entries of a listing, in order. */
  function FilesOf(items: seq<Item>): (files: seq<FileInfo>)
    ensures |files| <= |items|
    ensures forall f :: f in files ==> exists i :: 0 <= i < |items| && items[i].kind == FileItem
                                               && f == FileInfo(items[i].name, items[i].path, items[i].size)
    decreases |items|
  {
    if items == [] then []
    else
      var last := items[|items| - 1];
      var init := FilesOf(items[..|items| - 1]);
      if last.kind == FileItem then init + [FileInfo(last.name, last.path, last.size)] else init
  }

  /** The directory entries of a listing, in order. */
  function DirsOf(items: seq<Item>): (dirs: seq<DirInfo>)
    ensures |dirs| <= |items|
    ensures forall d :: d in dirs ==> exists i :: 0 <= i < |items| && items[i].kind == DirItem
                                              && d == DirInfo(items[i].name, items[i].path)
    decreases |items|
  {
    if items == [] then []
    else
      var last := items[|items| - 1];
      var init := DirsOf(items[..|items| - 1]);
      if last.kind == DirItem then init + [DirInfo(last.name, last.path)] else init
  }

  /** Files and directories never outnumber the entries together. */
  lemma {:induction false} FilesAndDirsWithinListing(items: seq<Item>)
    ensures |FilesOf(items)| + |DirsOf(items)| <= |items|
    decreases |items|
  {
    if items != [] {
      FilesAndDirsWithinListing(items[..|items| - 1]);
    }
  }

  // ---------------------------------------------------------------------
  // Structure

  const MAX_DEPTH := 3

  datatype SubStructure =
    | MaxDepthReached
    | SubListing(files: seq<FileInfo>, directories: seq<DirInfo>, depth: int)
    | SubError(message: string)

  /** What one level below `path` looks like once fetched at `depth`. */
  function ListingAt(fetch: Listing, depth: int): SubStructure {
    match fetch
    case FetchError(m) => SubError(m)
    case Listing(status, items) =>
      if status == 200 then SubListing(FilesOf(items), DirsOf(items), depth) else SubListing([], [], depth)
  }

  /** The loop shared by both structure scans: sorts a listing's entries
      into files and directories, skipping anything else. */
  method SortEntries(items: seq<Item>) returns (files: seq<FileInfo>, dirs: seq<DirInfo>)
    ensures files == FilesOf(items) && dirs == DirsOf(items)
  {
    files, dirs := [], [];
    for i := 0 to |items|
      invariant files == FilesOf(items[..i]) && dirs == DirsOf(items[..i])
    {
      assert items[..i + 1][..i] == items[..i];
      var item := items[i];
      if item.kind == FileItem {
        files := files + [FileInfo(item.name, item.path, item.size)];
      } else if item.kind == DirItem {
        dirs := dirs + [DirInfo(item.name, item.path)];
      }
    }
    assert items[..|items|] == items;
  }

  /** `_analyze_subdirectory`: past the depth limit nothing is fetched and
      the result only says so; otherwise one level is listed. */
  method AnalyzeSubdirectory(fetch: Listing, depth: int, maxDepth: int) returns (r: SubStructure)
    ensures r.MaxDepthReached? <==> depth > maxDepth
    ensures depth <= maxDepth ==> r == ListingAt(fetch, depth)
  {
    if depth > maxDepth {
      return MaxDepthReached;
    }
    match fetch
    case FetchError(m) =>
      r := SubError(m);
    case Listing(status, items) =>
      r := SubListing([], [], depth);
      if status == 200 {
        var files, dirs := SortEntries(items);
        r := SubListing(files, dirs, depth);
      }
  }

  datatype DirSummary = DirSummary(info: DirInfo, sub: SubStructure)

  datatype Structure =
    | Structure(rootFiles: seq<FileInfo>, directories: seq<DirSummary>,
                fileCount: nat, directoryCount: nat, maxDepth: nat)
    | StructureError(message: string)

  /** `structure.get('file_count', 0)`. */
  function FileCount(s: Structure): nat {
    if s.Structure? then s.fileCount else 0
  }

  /** `structure.get('directory_count', 0)`. */
  function DirectoryCount(s: Structure): nat {
    if s.Structure? then s.directoryCount else 0
  }

  /** `_analyze_structure`: the root's files and directories, counted, each
      directory listed one level down at depth 1. `subFetch` gives the
      response for a directory path. */
  method AnalyzeStructure(root: Listing, subFetch: string -> Listing) returns (s: Structure)
    ensures root.FetchError? ==> s == StructureError(root.message)
    ensures root.Listing? && root.status != 200 ==> s == Structure([], [], 0, 0, 0)
    ensures root.Listing? && root.status == 200 ==>
      && s.Structure?
      && s.rootFiles == FilesOf(root.items)
      && s.fileCount == |s.rootFiles|
      && s.directoryCount == |s.directories| == |DirsOf(root.items)|
      && s.maxDepth == 0
      && forall i :: 0 <= i < |s.directories| ==>
           s.directories[i] == DirSummary(DirsOf(root.items)[i], ListingAt(subFetch(DirsOf(root.items)[i].path), 1))
    ensures s.Structure? ==> forall d :: d in s.directories ==> !d.sub.MaxDepthReached?
  {
    if root.FetchError? {
      return StructureError(root.message);
    }
    var items := root.items;
    var files: seq<FileInfo> := [];
    var dirs: seq<DirSummary> := [];
    var fileCount, directoryCount := 0, 0;
    if root.status == 200 {
      for i := 0 to |items|
        invariant files == FilesOf(items[..i])
        invariant |dirs| == |DirsOf(items[..i])|
        invariant forall k :: 0 <= k < |dirs| ==>
          dirs[k] == DirSummary(DirsOf(items[..i])[k], ListingAt(subFetch(DirsOf(items[..i])[k].path), 1))
        invariant fileCount == |files| && directoryCount == |dirs|
      {
        assert items[..i + 1][..i] == items[..i];
        var item := items[i];
        if item.kind == FileItem {
          files := files + [FileInfo(item.name, item.path, item.size)];
          fileCount := fileCount + 1;
        } else if item.kind == DirItem {
          var sub := AnalyzeSubdirectory(subFetch(item.path), 1, MAX_DEPTH);
          dirs := dirs + [DirSummary(DirInfo(item.name, item.path), sub)];
          directoryCount := directoryCount + 1;
        }
      }
      assert items[..|items|] == items;
    }
    s := Structure(files, dirs, fileCount, directoryCount, 0);
    forall d | d in s.directories ensures !d.sub.MaxDepthReached? {
      var k :| 0 <= k < |dirs| && dirs[k] == d;
    }
  }

  // ---------------------------------------------------------------------
  // README sections

  /** The lines that start with '#', stripped, in order. */
  function Headers(lines: seq<string>): (hs: seq<string>)
    ensures |hs| <= |lines|
    decreases |lines|
  {
    if lines == [] then []
    else
      var init := Headers(lines[..|lines| - 1]);
      var line := lines[|lines| - 1];
      if "#" <= line then init + [Strip(line)] else init
  }

  /** A line that starts with '#' still does once stripped. */
  lemma HeaderKeepsHash(line: string)
    requires "#" <= line
    ensures "#" <= Strip(line)
  {
    assert TrimLeft(line) == line;
    TrimRightKeepsSolidPrefix(line, "#");
  }

  /** Every header starts with '#'. */
  lemma {:induction false} HeadersStartWithHash(lines: seq<string>)
    ensures forall k :: 0 <= k < |Headers(lines)| ==> "#" <= Headers(lines)[k]
    decreases |lines|
  {
    if lines != [] {
      HeadersStartWithHash(lines[..|lines| - 1]);
      var line := lines[|lines| - 1];
      if "#" <= line {
        HeaderKeepsHash(line);
      }
    }
  }

  /** `_extract_readme_sections`: the first ten header lines of the README,
      each starting with '#'. */
  method ExtractReadmeSections(content: string) returns (sections: seq<string>)
    ensures |sections| <= 10
    ensures sections <= Headers(Split(content, '\n'))
    ensures |sections| == 10 || sections == Headers(Split(content, '\n'))
    ensures forall k :: 0 <= k < |sections| ==> "#" <= sections[k]
  {
    var lines := Split(content, '\n');
    var all: seq<string> := [];
    for i := 0 to |lines|
      invariant all == Headers(lines[..i])
    {
      assert lines[..i + 1][..i] == lines[..i];
      if "#" <= lines[i] {
        all := all + [Strip(lines[i])];
      }
    }
    assert lines[..|lines|] == lines;
    HeadersStartWithHash(lines);
    sections := if |all| <= 10 then all else all[..10];
  }

  // ---------------------------------------------------------------------
  // Configuration files

  /** Categories in the order they are tried. */
  const CATEGORIES: seq<string> := ["package_managers", "build_tools", "linters", "testing", "deployment", "other"]
  const PACKAGE_MANAGERS := 0
  const BUILD_TOOLS := 1
  const LINTERS := 2
  const TESTING := 3

  const PATTERNS: seq<seq<string>> := [
    ["package.json", "requirements.txt", "Pipfile", "pyproject.toml", "Cargo.toml", "go.mod"],
    ["Makefile", "CMakeLists.txt", "build.gradle", "pom.xml", "webpack.config.js"],
    [".eslintrc", ".pylintrc", ".flake8", "tsconfig.json"],
    ["jest.config.js", "pytest.ini", ".coveragerc", "tox.ini"],
    ["Dockerfile", "docker-compose.yml", ".github/workflows", "deploy.yml"],
    [".gitignore", ".env.example", "LICENSE", "CHANGELOG.md"]]

  /** Some pattern of the category occurs in the file name. */
  predicate Matches(name: string, c: nat)
    requires c < |PATTERNS|
  {
    exists j :: 0 <= j < |PATTERNS[c]| && Contains(name, PATTERNS[c][j])
  }

  /** The first category, from `from` on, whose patterns match. */
  function FirstCategory(name: string, from: nat): (r: Option<nat>)
    requires from <= |PATTERNS|
    ensures r.Some? ==> from <= r.value < |PATTERNS| && Matches(name, r.value)
                        && forall c :: from <= c < r.value ==> !Matches(name, c)
    ensures r.None? ==> forall c :: from <= c < |PATTERNS| ==> !Matches(name, c)
    decreases |PATTERNS| - from
  {
    if from == |PATTERNS| then None
    else if Matches(name, from) then Some(from)
    else FirstCategory(name, from + 1)
  }

  function CategoryOf(name: string): Option<nat> {
    FirstCategory(name, 0)
  }

  /** The files of a listing that land in category `c`. */
  function InCategory(items: seq<Item>, c: nat): (r: seq<FileInfo>)
    ensures forall f :: f in r ==> CategoryOf(f.name) == Some(c)
    ensures |r| <= |items|
    decreases |items|
  {
    if items == [] then []
    else
      var last := items[|items| - 1];
      var init := InCategory(items[..|items| - 1], c);
      if last.kind == FileItem && CategoryOf(last.name) == Some(c)
      then init + [FileInfo(last.name, last.path, last.size)] else init
  }

  /** An exception gives `{}`; any other outcome one list per category. */
  datatype ConfigResult = Configs(buckets: seq<seq<FileInfo>>) | ConfigError

  /** `config_files.get(category)` is a non-empty list. */
  predicate HasCategory(configs: ConfigResult, c: nat) {
    configs.Configs? && c < |configs.buckets| && configs.buckets[c] != []
  }

  /** The inner loop: tries the categories in order and adds the file to
      the first one that matches. */
  method FileIntoCategory(buckets: seq<seq<FileInfo>>, item: Item) returns (r: seq<seq<FileInfo>>)
    requires |buckets| == |PATTERNS|
    ensures |r| == |PATTERNS|
    ensures forall c :: 0 <= c < |PATTERNS| ==>
      r[c] == buckets[c] + (if CategoryOf(item.name) == Some(c) then [FileInfo(item.name, item.path, item.size)] else [])
  {
    r := buckets;
    var c := 0;
    while c < |PATTERNS|
      invariant 0 <= c <= |PATTERNS|
      invariant FirstCategory(item.name, c) == CategoryOf(item.name)
    {
      if Matches(item.name, c) {
        r := r[c := r[c] + [FileInfo(item.name, item.path, item.size)]];
        return;
      }
      c := c + 1;
    }
  }

  /** `_find_config_files`: each root file goes into the first category
      whose pattern occurs in its name, and into no other. */
  method FindConfigFiles(root: Listing) returns (r: ConfigResult)
    ensures root.FetchError? ==> r == ConfigError
    ensures root.Listing? ==> r.Configs? && |r.buckets| == |CATEGORIES|
    ensures root.Listing? && root.status != 200 ==> forall c :: 0 <= c < |r.buckets| ==> r.buckets[c] == []
    ensures root.Listing? && root.status == 200 ==>
      forall c :: 0 <= c < |r.buckets| ==> r.buckets[c] == InCategory(root.items, c)
  {
    if root.FetchError? {
      return ConfigError;
    }
    var buckets: seq<seq<FileInfo>> := [[], [], [], [], [], []];
    if root.status == 200 {
      var items := root.items;
      for i := 0 to |items|
        invariant |buckets| == |PATTERNS|
        invariant forall c :: 0 <= c < |PATTERNS| ==> buckets[c] == InCategory(items[..i], c)
      {
        assert items[..i + 1][..i] == items[..i];
        if items[i].kind == FileItem {
          buckets := FileIntoCategory(buckets, items[i]);
        }
      }
      assert items[..|items|] == items;
    }
    r := Configs(buckets);
  }

  // ---------------------------------------------------------------------
  // File extensions

  /** The index of the last `ch` in `s`. */
  function LastIndex(s: string, ch: char): (r: Option<nat>)
    ensures r.Some? ==> r.value < |s| && s[r.value] == ch && forall j :: r.value < j < |s| ==> s[j] != ch
    ensures r.None? ==> ch !in s
    decreases |s|
  {
    if s == [] then None
    else if s[|s| - 1] == ch then Some(|s| - 1)
    else LastIndex(s[..|s| - 1], ch)
  }

  /** `os.path.splitext(name)[1]`: from the last '.' to the end, provided
      that '.' lies in the last path component and something other than
      dots precedes it there; otherwise "". */
  function Extension(name: string): (ext: string)
    ensures ext == [] || (EndsWith(name, ext) && ext[0] == '.')
    ensures forall j :: 0 < j < |ext| ==> ext[j] != '.' && ext[j] != '/'
  {
    match LastIndex(name, '.')
    case None => ""
    case Some(d) =>
      var start := match LastIndex(name, '/') case Some(k) => k + 1 case None => 0;
      if start <= d && exists j :: start <= j < d && name[j] != '.' then
        assert forall j :: 0 < j < |name[d..]| ==> name[d..][j] == name[d + j];
        name[d..]
      else ""
  }

  /** Dot files and names without a dot have no extension. */
  lemma DotFileHasNoExtension(name: string)
    requires forall j :: 0 < j < |name| ==> name[j] != '.'
    ensures Extension(name) == ""
  {
    if |name| > 0 && name[0] == '.' {
      assert LastIndex(name, '.') == Some(0);
    }
  }

  /** The sum of a map's values. */
  ghost function MapSum(m: map<string, nat>): nat
    decreases |m.Keys|
  {
    if m == map[] then 0
    else
      var k :| k in m;
      m[k] + MapSum(m - {k})
  }

  /** The sum does not depend on which key is taken out first. */
  lemma {:induction false} MapSumRemove(m: map<string, nat>, k: string)
    requires k in m
    ensures MapSum(m) == m[k] + MapSum(m - {k})
    decreases |m.Keys|
  {
    var j :| j in m && MapSum(m) == m[j] + MapSum(m - {j});
    if j != k {
      assert (m - {j}).Keys == m.Keys - {j};
      assert (m - {k}).Keys == m.Keys - {k};
      MapSumRemove(m - {j}, k);
      MapSumRemove(m - {k}, j);
      assert m - {j} - {k} == m - {k} - {j};
    }
  }

  /** Counting one more occurrence of a key adds one to the sum. */
  lemma MapSumBump(m: map<string, nat>, k: string)
    ensures MapSum(m[k := (if k in m then m[k] else 0) + 1]) == MapSum(m) + 1
  {
    var m' := m[k := (if k in m then m[k] else 0) + 1];
    MapSumRemove(m', k);
    if k in m {
      MapSumRemove(m, k);
      assert m' - {k} == m - {k};
    } else {
      assert m' - {k} == m;
    }
  }

  /** How many files of the listing have a non-empty extension. */
  function FilesWithExtension(items: seq<Item>): nat
    decreases |items|
  {
    if items == [] then 0
    else
      var last := items[|items| - 1];
      FilesWithExtension(items[..|items| - 1]) + (if last.kind == FileItem && Extension(last.name) != "" then 1 else 0)
  }

  /** Counting one more entry: a file with an extension bumps its count. */
  function CountEntry(m: map<string, nat>, item: Item): map<string, nat> {
    var ext := Extension(item.name);
    if item.kind == FileItem && ext != "" then m[ext := (if ext in m then m[ext] else 0) + 1] else m
  }

  /** The extension histogram of a listing's files, in the order they are
      counted. */
  function ExtensionCounts(items: seq<Item>): (m: map<string, nat>)
    ensures "" !in m
    decreases |items|
  {
    if items == [] then map[]
    else CountEntry(ExtensionCounts(items[..|items| - 1]), items[|items| - 1])
  }

  /** The counts add up to the number of files that have an extension:
      directories and extensionless files are not counted. */
  lemma {:induction false} ExtensionCountsSum(items: seq<Item>)
    ensures MapSum(ExtensionCounts(items)) == FilesWithExtension(items)
    decreases |items|
  {
    if items != [] {
      var init := items[..|items| - 1];
      ExtensionCountsSum(init);
      var last := items[|items| - 1];
      if last.kind == FileItem && Extension(last.name) != "" {
        MapSumBump(ExtensionCounts(init), Extension(last.name));
      }
    }
  }

  /** Some file of the listing has extension `ext`. */
  predicate HasFileWithExtension(items: seq<Item>, ext: string) {
    exists i :: 0 <= i < |items| && items[i].kind == FileItem && Extension(items[i].name) == ext
  }

  lemma HasFileWithExtensionSnoc(items: seq<Item>, ext: string)
    requires items != []
    ensures HasFileWithExtension(items, ext) <==>
      || HasFileWithExtension(items[..|items| - 1], ext)
      || (items[|items| - 1].kind == FileItem && Extension(items[|items| - 1].name) == ext)
  {
    var init := items[..|items| - 1];
    if HasFileWithExtension(init, ext) {
      var i :| 0 <= i < |init| && init[i].kind == FileItem && Extension(init[i].name) == ext;
      assert items[i] == init[i];
    }
    if HasFileWithExtension(items, ext) {
      var i :| 0 <= i < |items| && items[i].kind == FileItem && Extension(items[i].name) == ext;
      if i < |init| {
        assert init[i] == items[i];
      }
    }
  }

  /** A key is counted exactly when some file carries that (non-empty)
      extension. */
  lemma {:induction false} ExtensionCountsKeys(items: seq<Item>, ext: string)
    ensures ext in ExtensionCounts(items) <==> ext != "" && HasFileWithExtension(items, ext)
    decreases |items|
  {
    if items != [] {
      ExtensionCountsKeys(items[..|items| - 1], ext);
      HasFileWithExtensionSnoc(items, ext);
    }
  }

  /** An exception gives `{}`; otherwise the extension histogram (the other
      pattern groups stay empty). */
  datatype PatternsResult = Patterns(fileExtensions: map<string, nat>) | PatternsError

  /** The counting loop of `_analyze_patterns`. */
  method CountExtensions(items: seq<Item>) returns (extensions: map<string, nat>)
    ensures extensions == ExtensionCounts(items)
  {
    extensions := map[];
    for i := 0 to |items|
      invariant extensions == ExtensionCounts(items[..i])
    {
      assert items[..i + 1][..i] == items[..i];
      assert ExtensionCounts(items[..i + 1]) == CountEntry(extensions, items[i]);
      if items[i].kind == FileItem {
        var ext := Extension(items[i].name);
        if ext != "" {
          extensions := extensions[ext := (if ext in extensions then extensions[ext] else 0) + 1];
        }
      }
    }
    assert items[..|items|] == items;
  }

  /** `_analyze_patterns`. */
  method AnalyzePatterns(root: Listing) returns (r: PatternsResult)
    ensures root.FetchError? ==> r == PatternsError
    ensures root.Listing? && root.status != 200 ==> r == Patterns(map[])
    ensures root.Listing? && root.status == 200 ==> r == Patterns(ExtensionCounts(root.items))
  {
    if root.FetchError? {
      return PatternsError;
    }
    r := Patterns(map[]);
    if root.status == 200 {
      var extensions := CountExtensions(root.items);
      r := Patterns(extensions);
    }
  }

  // ---------------------------------------------------------------------
  // Summary

  /** What the summary reads from an analysis: the language names, the
      topics, the configuration files, the structure and whether a README
      was found. */
  datatype Facts = Facts(languages: set<string>, topics: seq<string>, configs: ConfigResult,
                         structure: Structure, hasReadme: bool)

  /** Some topic, lowered, contains `word`. */
  predicate AnyTopic(topics: seq<string>, word: string) {
    exists i :: 0 <= i < |topics| && Contains(ToLower(topics[i]), word)
  }

  predicate JsLike(facts: Facts) {
    "JavaScript" in facts.languages || "TypeScript" in facts.languages
  }

  /** `_determine_project_type`: JavaScript/TypeScript first (react before
      node), then Python (django before flask), then Java, Go and Rust. */
  function DetermineProjectType(facts: Facts): (r: string)
    ensures r == "React Application" <==> JsLike(facts) && AnyTopic(facts.topics, "react")
    ensures r == "Node.js Application" <==>
      JsLike(facts) && !AnyTopic(facts.topics, "react") && AnyTopic(facts.topics, "node")
    ensures r == "JavaScript/TypeScript Project" <==>
      JsLike(facts) && !AnyTopic(facts.topics, "react") && !AnyTopic(facts.topics, "node")
    ensures r == "Django Application" <==> !JsLike(facts) && "Python" in facts.languages && AnyTopic(facts.topics, "django")
    ensures r == "Flask Application" <==>
      (!JsLike(facts) && "Python" in facts.languages && !AnyTopic(facts.topics, "django") && AnyTopic(facts.topics, "flask"))
    ensures r == "Python Project" <==>
      (!JsLike(facts) && "Python" in facts.languages && !AnyTopic(facts.topics, "django") && !AnyTopic(facts.topics, "flask"))
    ensures r == "Java Project" <==> !JsLike(facts) && "Python" !in facts.languages && "Java" in facts.languages
    ensures r == "Go Project" <==>
      (!JsLike(facts) && "Python" !in facts.languages && "Java" !in facts.languages && "Go" in facts.languages)
    ensures r == "Rust Project" <==>
      (!JsLike(facts) && "Python" !in facts.languages && "Java" !in facts.languages
       && "Go" !in facts.languages && "Rust" in facts.languages)
    ensures r == "General Software Project" <==>
      (!JsLike(facts) && "Python" !in facts.languages && "Java" !in facts.languages
       && "Go" !in facts.languages && "Rust" !in facts.languages)
  {
    if JsLike(facts) then
      if AnyTopic(facts.topics, "react") then "React Application"
      else if AnyTopic(facts.topics, "node") then "Node.js Application"
      else "JavaScript/TypeScript Project"
    else if "Python" in facts.languages then
      if AnyTopic(facts.topics, "django") then "Django Application"
      else if AnyTopic(facts.topics, "flask") then "Flask Application"
      else "Python Project"
    else if "Java" in facts.languages then "Java Project"
    else if "Go" in facts.languages then "Go Project"
    else if "Rust" in facts.languages then "Rust Project"
    else "General Software Project"
  }

  const FRAMEWORKS: set<string> := {"react", "vue", "angular", "django", "flask", "express", "spring"}

  /** `_extract_tech_stack` (its list comes from a set, so it has no order
      and no duplicates): every language, every topic naming a known
      framework in any case, and a label per non-empty tool category. */
  function ExtractTechStack(facts: Facts): (r: set<string>)
    ensures forall x :: x in r <==>
      || x in facts.languages
      || (x in facts.topics && ToLower(x) in FRAMEWORKS)
      || (x == "npm/yarn" && HasCategory(facts.configs, PACKAGE_MANAGERS))
      || (x == "Build Tools" && HasCategory(facts.configs, BUILD_TOOLS))
      || (x == "Testing Framework" && HasCategory(facts.configs, TESTING))
  {
    facts.languages
    + (set t | t in facts.topics && ToLower(t) in FRAMEWORKS)
    + (if HasCategory(facts.configs, PACKAGE_MANAGERS) then {"npm/yarn"} else {})
    + (if HasCategory(facts.configs, BUILD_TOOLS) then {"Build Tools"} else {})
    + (if HasCategory(facts.configs, TESTING) then {"Testing Framework"} else {})
  }

  const LARGE := "Large project with many files"
  const SMALL := "Small project with few files"
  const ORGANIZED := "Well-organized directory structure"
  const DOCUMENTED := "Has comprehensive documentation"
  const UNDOCUMENTED := "Missing or minimal documentation"

  /** `_extract_structure_insights`. A structure that failed to load counts
      as zero files and zero directories. */
  function ExtractStructureInsights(facts: Facts): (r: seq<string>)
    ensures LARGE in r <==> FileCount(facts.structure) > 100
    ensures SMALL in r <==> FileCount(facts.structure) < 10
    ensures !(LARGE in r && SMALL in r)
    ensures ORGANIZED in r <==> DirectoryCount(facts.structure) > 5
    ensures DOCUMENTED in r <==> facts.hasReadme
    ensures UNDOCUMENTED in r <==> !facts.hasReadme
    ensures 1 <= |r| <= 3
  {
    var n := FileCount(facts.structure);
    (if n > 100 then [LARGE] else if n < 10 then [SMALL] else [])
    + (if DirectoryCount(facts.structure) > 5 then [ORGANIZED] else [])
    + [if facts.hasReadme then DOCUMENTED else UNDOCUMENTED]
  }

  const ADD_README := "Add a comprehensive README.md file"
  const ADD_TESTING := "Consider adding testing configuration"
  const ADD_LINTING := "Consider adding code linting configuration"

  /** `_generate_recommendations`. */
  function GenerateRecommendations(facts: Facts): (r: seq<string>)
    ensures ADD_README in r <==> !facts.hasReadme
    ensures ADD_TESTING in r <==> !HasCategory(facts.configs, TESTING)
    ensures ADD_LINTING in r <==> !HasCategory(facts.configs, LINTERS)
    ensures |r| <= 3
  {
    (if !facts.hasReadme then [ADD_README] else [])
    + (if !HasCategory(facts.configs, TESTING) then [ADD_TESTING] else [])
    + (if !HasCategory(facts.configs, LINTERS) then [ADD_LINTING] else [])
  }
}
