/**
 * The discovery loader (src/lib/Utils/FileLoader.ts): it finds the directories that hold
 * commands, events and jobs, lists the source files under them, loads each file as a
 * module and keeps the units it exports in three maps.
 *
 * The file system is a finite map from a directory path to its entries, in listing order;
 * a path the map does not hold is one that `readdir` fails on. Paths are joined with "/"
 * and resolving a path leaves it as it is. Loading a module (`require`, the constructor
 * call and the `instanceof` check) is an oracle from a file path to what loading it does.
 */
module FileLoading {
  import opened Wrappers
  import opened Strings
  import opened Seqs
  import opened OrderedMaps
  import opened Plugins
  import opened RootCommands
  import opened RootEvents
  import opened RootJobs

  // ---------------------------------------------------------------------------------
  // The file system

  datatype ItemKind = Directory | RegularFile | OtherKind

  /** One entry of a directory listing: its name and what `isDirectory`/`isFile` say. */
  datatype Item = Item(name: string, kind: ItemKind)

  type FileSystem = map<string, seq<Item>>

  /** `path.join(dir, name)`. */
  function PathJoin(dir: string, name: string): (p: string)
    ensures |p| > |dir|
  {
    dir + "/" + name
  }

  /** The listed paths at least as long as `p`: what a walk below `p` can still reach. */
  ghost function Deeper(fs: FileSystem, p: string): set<string> {
    set q | q in fs && |q| >= |p|
  }

  lemma DeeperShrinks(fs: FileSystem, p: string, child: string)
    requires p in fs && |child| > |p|
    ensures Deeper(fs, child) < Deeper(fs, p)
  {
    assert p in Deeper(fs, p) && p !in Deeper(fs, child);
  }

  // ---------------------------------------------------------------------------------
  // File names

  /** The position of the last '.' in `s`. */
  function LastDot(s: string): (r: Option<nat>)
    ensures r.Some? ==> r.value < |s| && s[r.value] == '.' && forall i :: r.value < i < |s| ==> s[i] != '.'
    ensures r.None? ==> forall i :: 0 <= i < |s| ==> s[i] != '.'
  {
    if s == [] then None
    else if s[|s| - 1] == '.' then Some(|s| - 1)
    else LastDot(s[..|s| - 1])
  }

  /**
   * `path.extname` of a name without '/': from the last '.' to the end, or empty when
   * there is no '.', when the only one opens the name, or for "..".
   */
  function Extname(name: string): (ext: string)
    ensures ext == [] || (ext[0] == '.' && EndsWith(name, ext) && |ext| < |name|)
    ensures ext != [] ==> forall i :: 1 <= i < |ext| ==> ext[i] != '.'
  {
    match LastDot(name)
    case None => ""
    case Some(i) => if i == 0 || name == ".." then "" else name[i..]
  }

  /** `isValidFile`: declaration files never count, otherwise the extension must be allowed. */
  predicate IsValidFile(extensions: seq<string>, name: string) {
    !EndsWith(name, ".d.ts") && Extname(name) in extensions
  }

  const DefaultExtensions: seq<string> := [".js", ".ts"]

  /** A name whose last three characters are '.', `a`, `b` and which is longer than that has extension `.ab`. */
  lemma ExtnameOfSuffix(name: string, a: char, b: char)
    requires |name| > 3 && a != '.' && b != '.'
    requires name[|name| - 3..] == ['.', a, b]
    ensures Extname(name) == ['.', a, b]
  {
    var n := |name|;
    assert name[n - 3] == '.' && name[n - 2] == a && name[n - 1] == b;
    assert LastDot(name[..n - 1]) == LastDot(name[..n - 1][..n - 2]) by {
      assert name[..n - 1][n - 2] == a;
    }
    assert name[..n - 1][..n - 2] == name[..n - 2];
    assert name[..n - 2][n - 3] == '.';
    assert LastDot(name) == Some(n - 3);
  }

  /**
   * With the default extensions a file is valid exactly when it ends in `.js` or `.ts`,
   * has something before that suffix, and does not end in `.d.ts`.
   */
  lemma {:induction false} DefaultValidFiles(name: string)
    ensures IsValidFile(DefaultExtensions, name) <==>
      && !EndsWith(name, ".d.ts") && |name| > 3
      && (EndsWith(name, ".js") || EndsWith(name, ".ts"))
  {
    var ext := Extname(name);
    if ext == ".js" || ext == ".ts" {
      assert name[|name| - 3..] == ext;
    }
    if |name| > 3 && EndsWith(name, ".js") {
      ExtnameOfSuffix(name, 'j', 's');
    }
    if |name| > 3 && EndsWith(name, ".ts") {
      ExtnameOfSuffix(name, 't', 's');
    }
  }

  /** `normalizeDirs`: one path or a list, resolved, repeats dropped keeping first occurrences. */
  function NormalizeDirs(dirs: seq<string>): (r: seq<string>)
    ensures forall x :: x in r <==> x in dirs
    ensures NoRepeats(r)
  {
    DistinctMembers(dirs);
    Distinct(dirs)
  }

  /**
   * The configured directories followed by the discovered ones, resolved, repeats dropped:
   * what `get*Directories` computes.
   */
  function CombinedDirs(configured: seq<string>, discovered: seq<string>): seq<string> {
    Distinct(configured + discovered)
  }

  /**
   * Combining keeps the configured directories first and in order, holds exactly the
   * configured and the discovered directories, and repeats none.
   */
  lemma CombinedDirsProperties(configured: seq<string>, discovered: seq<string>)
    requires NoRepeats(configured)
    ensures var c := CombinedDirs(configured, discovered);
      && (forall x :: x in c <==> x in configured || x in discovered)
      && NoRepeats(c)
      && |configured| <= |c| && c[..|configured|] == configured
  {
    DistinctMembers(configured + discovered);
    DistinctPrefix(configured, discovered);
    DistinctOfDistinct(configured);
  }

  // ---------------------------------------------------------------------------------
  // Listing files

  /**
   * What `getFiles(dir)` returns, or `None` when it throws: the listing of `dir` in order,
   * each valid file as its joined path and each subdirectory replaced by its own files.
   * A directory that cannot be read anywhere in the subtree makes the whole call throw.
   */
  function FilesUnder(fs: FileSystem, extensions: seq<string>, dir: string): Option<seq<string>>
    decreases Deeper(fs, dir), 1, 0
  {
    if dir !in fs then None else FilesOfItems(fs, extensions, dir, |fs[dir]|)
  }

  /** The files collected from the first `k` entries of `dir`. */
  function FilesOfItems(fs: FileSystem, extensions: seq<string>, dir: string, k: nat): Option<seq<string>>
    requires dir in fs && k <= |fs[dir]|
    decreases Deeper(fs, dir), 0, k
  {
    if k == 0 then Some([])
    else match FilesOfItems(fs, extensions, dir, k - 1)
      case None => None
      case Some(acc) =>
        var item := fs[dir][k - 1];
        var full := PathJoin(dir, item.name);
        if item.kind == Directory then
          DeeperShrinks(fs, dir, full);
          match FilesUnder(fs, extensions, full)
          case None => None
          case Some(sub) => Some(acc + sub)
        else if item.kind == RegularFile && IsValidFile(extensions, item.name) then Some(acc + [full])
        else Some(acc)
  }

  /** Once an entry throws, the listing of the whole directory throws. */
  lemma {:induction false} FilesOfItemsAbort(fs: FileSystem, extensions: seq<string>, dir: string, k: nat, n: nat)
    requires dir in fs && k <= n <= |fs[dir]|
    requires FilesOfItems(fs, extensions, dir, k).None?
    ensures FilesOfItems(fs, extensions, dir, n).None?
    decreases n - k
  {
    if k < n {
      FilesOfItemsAbort(fs, extensions, dir, k + 1, n);
    }
  }

  /** A valid file lying in a listed directory of the file system. */
  ghost predicate IsListedFile(fs: FileSystem, extensions: seq<string>, f: string) {
    exists d, i :: d in fs && 0 <= i < |fs[d]| && fs[d][i].kind == RegularFile
      && IsValidFile(extensions, fs[d][i].name) && f == PathJoin(d, fs[d][i].name)
  }

  /** Everything `getFiles` returns is a valid file lying under some listed directory. */
  lemma {:induction false} FilesAreListedFiles(fs: FileSystem, extensions: seq<string>, dir: string, k: nat)
    requires dir in fs && k <= |fs[dir]|
    requires FilesOfItems(fs, extensions, dir, k).Some?
    ensures forall f :: f in FilesOfItems(fs, extensions, dir, k).value ==> IsListedFile(fs, extensions, f)
    decreases Deeper(fs, dir), k
  {
    if k > 0 {
      FilesAreListedFiles(fs, extensions, dir, k - 1);
      var item := fs[dir][k - 1];
      var full := PathJoin(dir, item.name);
      if item.kind == Directory {
        DeeperShrinks(fs, dir, full);
        FilesAreListedFiles(fs, extensions, full, |fs[full]|);
      } else if item.kind == RegularFile && IsValidFile(extensions, item.name) {
        assert IsListedFile(fs, extensions, full) by {
          assert fs[dir][k - 1].kind == RegularFile;
        }
      }
    }
  }

  /**
   * `getFiles` misses nothing: every valid file among the first `k` entries is listed, and
   * so is every file of each subdirectory among them.
   */
  lemma {:induction false} FilesOfItemsComplete(fs: FileSystem, extensions: seq<string>, dir: string, k: nat, i: nat)
    requires dir in fs && i < k <= |fs[dir]|
    requires FilesOfItems(fs, extensions, dir, k).Some?
    ensures var item := fs[dir][i];
      item.kind == RegularFile && IsValidFile(extensions, item.name) ==>
        PathJoin(dir, item.name) in FilesOfItems(fs, extensions, dir, k).value
    ensures var item := fs[dir][i];
      item.kind == Directory ==>
        && FilesUnder(fs, extensions, PathJoin(dir, item.name)).Some?
        && forall f :: f in FilesUnder(fs, extensions, PathJoin(dir, item.name)).value ==>
             f in FilesOfItems(fs, extensions, dir, k).value
    decreases k
  {
    if i < k - 1 {
      FilesOfItemsComplete(fs, extensions, dir, k - 1, i);
    }
  }

  // ---------------------------------------------------------------------------------
  // Discovering directories

  /**
   * The directories named `folder` that a walk from `p` finds: for every readable
   * directory reachable from `p`, each subdirectory entry named `folder`, whether or not
   * it is itself readable, and including ones nested under another match. An empty path
   * is skipped.
   */
  function MatchesUnder(fs: FileSystem, folder: string, p: string): set<string>
    decreases Deeper(fs, p), 1, 0
  {
    if p == "" || p !in fs then {} else EntryMatches(fs, folder, p, 0)
  }

  /** The matches found from the entries of `p` from position `k` on. */
  function EntryMatches(fs: FileSystem, folder: string, p: string, k: nat): set<string>
    requires p in fs && k <= |fs[p]|
    decreases Deeper(fs, p), 0, |fs[p]| - k
  {
    if k == |fs[p]| then {}
    else
      var e := fs[p][k];
      var full := PathJoin(p, e.name);
      DeeperShrinks(fs, p, full);
      (if e.kind == Directory then (if e.name == folder then {full} else {}) + MatchesUnder(fs, folder, full) else {})
        + EntryMatches(fs, folder, p, k + 1)
  }

  /** How many paths a walk from `p` pops: `p` itself and everything below it. */
  function Weight(fs: FileSystem, p: string): (w: nat)
    ensures w >= 1
    decreases Deeper(fs, p), 1, 0
  {
    1 + (if p == "" || p !in fs then 0 else EntryWeight(fs, p, 0))
  }

  function EntryWeight(fs: FileSystem, p: string, k: nat): nat
    requires p in fs && k <= |fs[p]|
    decreases Deeper(fs, p), 0, |fs[p]| - k
  {
    if k == |fs[p]| then 0
    else
      var e := fs[p][k];
      var full := PathJoin(p, e.name);
      DeeperShrinks(fs, p, full);
      (if e.kind == Directory then Weight(fs, full) else 0) + EntryWeight(fs, p, k + 1)
  }

  function StackWeight(fs: FileSystem, stack: seq<string>): nat {
    if stack == [] then 0 else StackWeight(fs, stack[..|stack| - 1]) + Weight(fs, stack[|stack| - 1])
  }

  function StackMatches(fs: FileSystem, folder: string, stack: seq<string>): set<string> {
    if stack == [] then {} else StackMatches(fs, folder, stack[..|stack| - 1]) + MatchesUnder(fs, folder, stack[|stack| - 1])
  }

  lemma StackPush(fs: FileSystem, folder: string, stack: seq<string>, p: string)
    ensures StackWeight(fs, stack + [p]) == StackWeight(fs, stack) + Weight(fs, p)
    ensures StackMatches(fs, folder, stack + [p]) == StackMatches(fs, folder, stack) + MatchesUnder(fs, folder, p)
  {
    assert (stack + [p])[..|stack|] == stack;
  }

  /**
   * The order in which a stack walk from `startDir` records the subdirectories named
   * `folder`: the last pushed path is popped first, the entries of a directory are
   * pushed in listing order, and a path already recorded is not recorded again.
   */
  function DiscoveryOrder(fs: FileSystem, folder: string, startDir: string): seq<string> {
    Walk(fs, folder, [startDir], [])
  }

  /** The rest of the walk, with `stack` still to pop and `found` recorded so far. */
  function Walk(fs: FileSystem, folder: string, stack: seq<string>, found: seq<string>): seq<string>
    decreases StackWeight(fs, stack), 0, 0
  {
    if stack == [] then found
    else
      var current := stack[|stack| - 1];
      var rest := stack[..|stack| - 1];
      if current == "" || current !in fs then Walk(fs, folder, rest, found)
      else WalkEntries(fs, folder, rest, current, 0, found)
  }

  /** The rest of the walk while the entries of `current` from position `k` on are visited. */
  function WalkEntries(fs: FileSystem, folder: string, stack: seq<string>, current: string, k: nat, found: seq<string>): seq<string>
    requires current in fs && k <= |fs[current]|
    decreases StackWeight(fs, stack) + EntryWeight(fs, current, k), 1, |fs[current]| - k
  {
    if k == |fs[current]| then Walk(fs, folder, stack, found)
    else
      var e := fs[current][k];
      if e.kind != Directory then WalkEntries(fs, folder, stack, current, k + 1, found)
      else
        var full := PathJoin(current, e.name);
        StackPush(fs, folder, stack, full);
        var found' := if e.name == folder && full !in found then found + [full] else found;
        WalkEntries(fs, folder, stack + [full], current, k + 1, found')
  }

  /**
   * The walk records each match of every path still on the stack once, after what it has
   * already recorded.
   */
  lemma {:induction false} WalkFinds(fs: FileSystem, folder: string, stack: seq<string>, found: seq<string>)
    requires NoRepeats(found)
    ensures NoRepeats(Walk(fs, folder, stack, found))
    ensures forall x :: x in Walk(fs, folder, stack, found) <==> x in found || x in StackMatches(fs, folder, stack)
    decreases StackWeight(fs, stack), 0, 0
  {
    if stack != [] {
      var current := stack[|stack| - 1];
      var rest := stack[..|stack| - 1];
      if current == "" || current !in fs {
        WalkFinds(fs, folder, rest, found);
      } else {
        WalkEntriesFind(fs, folder, rest, current, 0, found);
      }
    }
  }

  lemma {:induction false} WalkEntriesFind(fs: FileSystem, folder: string, stack: seq<string>, current: string, k: nat, found: seq<string>)
    requires current in fs && k <= |fs[current]|
    requires NoRepeats(found)
    ensures NoRepeats(WalkEntries(fs, folder, stack, current, k, found))
    ensures forall x :: x in WalkEntries(fs, folder, stack, current, k, found) <==>
      x in found || x in StackMatches(fs, folder, stack) || x in EntryMatches(fs, folder, current, k)
    decreases StackWeight(fs, stack) + EntryWeight(fs, current, k), 1, |fs[current]| - k
  {
    if k == |fs[current]| {
      WalkFinds(fs, folder, stack, found);
    } else {
      var e := fs[current][k];
      if e.kind != Directory {
        WalkEntriesFind(fs, folder, stack, current, k + 1, found);
      } else {
        var full := PathJoin(current, e.name);
        StackPush(fs, folder, stack, full);
        var found' := if e.name == folder && full !in found then found + [full] else found;
        WalkEntriesFind(fs, folder, stack + [full], current, k + 1, found');
      }
    }
  }

  /** The walk's order holds exactly the matches under `startDir`, each once. */
  lemma DiscoveryOrderFinds(fs: FileSystem, folder: string, startDir: string)
    ensures NoRepeats(DiscoveryOrder(fs, folder, startDir))
    ensures forall x :: x in DiscoveryOrder(fs, folder, startDir) <==> x in MatchesUnder(fs, folder, startDir)
  {
    assert StackMatches(fs, folder, [startDir]) == MatchesUnder(fs, folder, startDir) by {
      assert [startDir][..0] == [];
    }
    WalkFinds(fs, folder, [startDir], []);
  }

  // ---------------------------------------------------------------------------------
  // Loading a module

  /** What calling the exported constructor does. */
  datatype Construction<T> =
    | ConstructorThrows
    | ForeignInstance
    | Instance(unit: T, className: string, hasValidator: bool)

  /** An export: a falsy value, a truthy value that is not a function, or a class. */
  datatype ExportValue<T> = Falsy | NotFunction | ClassExport(construction: Construction<T>)

  /** What `require` gives: it throws, or a module with a default and a named export. */
  datatype ModuleLoad<T> = RequireThrows | Exports(defaultExport: ExportValue<T>, namedExport: ExportValue<T>)

  /** The result of `loadCommand`/`loadEvent`/`loadJob`: a unit, `null`, or a thrown error. */
  datatype LoadOutcome<T> = Loaded(plugin: Plugin<T>) | NotLoaded | Threw

  /** `module.default || module.<Named>`. */
  function Chosen<T>(defaultExport: ExportValue<T>, namedExport: ExportValue<T>): ExportValue<T> {
    if defaultExport.Falsy? then namedExport else defaultExport
  }

  /**
   * The acceptance checks of `load*`: a chosen export that is a function, whose instance
   * extends the base class, yields the unit; anything else yields `null`, except that a
   * failing `require` or a throwing constructor throws.
   */
  function LoadUnit<T>(m: ModuleLoad<T>): (r: LoadOutcome<T>)
    ensures r.Loaded? <==> (m.Exports? && Chosen(m.defaultExport, m.namedExport).ClassExport?
                            && Chosen(m.defaultExport, m.namedExport).construction.Instance?)
    ensures r.Threw? <==> (m.RequireThrows? || (m.Exports? && Chosen(m.defaultExport, m.namedExport).ClassExport?
                            && Chosen(m.defaultExport, m.namedExport).construction.ConstructorThrows?))
  {
    match m
    case RequireThrows => Threw
    case Exports(d, n) =>
      match Chosen(d, n)
      case Falsy => NotLoaded
      case NotFunction => NotLoaded
      case ClassExport(ConstructorThrows) => Threw
      case ClassExport(ForeignInstance) => NotLoaded
      case ClassExport(Instance(u, c, v)) => Loaded(Plugin(u, c, v))
  }

  /** A truthy default export decides alone; the named export is only a fallback. */
  lemma DefaultExportDecides<T>(d: ExportValue<T>, n1: ExportValue<T>, n2: ExportValue<T>)
    requires !d.Falsy?
    ensures LoadUnit(Exports(d, n1)) == LoadUnit(Exports(d, n2))
    ensures LoadUnit(Exports(Falsy, d)) == LoadUnit(Exports(d, n1))
  {
  }

  /** The map key of a command: its name. */
  function CommandKey(p: Plugin<RootCommand>, file: string): string {
    p.unit.name
  }

  /** `getEventKey`: the event's name, ':', and the resolved file path. */
  function EventKey(p: Plugin<RootEvent>, file: string): string {
    p.unit.name + ":" + file
  }

  /** `getJobKey`: the job's name, ':', and the resolved file path. */
  function JobKey(p: Plugin<RootJob>, file: string): string {
    p.unit.name + ":" + file
  }

  /** Keys built from names without ':' are equal exactly when the names and the paths are. */
  lemma NamePathKeyInjective(n1: string, f1: string, n2: string, f2: string)
    requires ':' !in n1 && ':' !in n2
    ensures n1 + ":" + f1 == n2 + ":" + f2 <==> n1 == n2 && f1 == f2
  {
    var k1, k2 := n1 + ":" + f1, n2 + ":" + f2;
    FirstColon(n1, f1);
    FirstColon(n2, f2);
    if k1 == k2 && |n1| == |n2| {
      assert n1 == k1[..|n1|] && n2 == k2[..|n2|];
      assert f1 == k1[|n1| + 1..] && f2 == k2[|n2| + 1..];
    }
  }

  /** In `name + ":" + rest`, the first ':' is the one after the name. */
  lemma FirstColon(name: string, rest: string)
    requires ':' !in name
    ensures var k := name + ":" + rest; k[|name|] == ':' && forall i :: 0 <= i < |name| ==> k[i] != ':'
  {
    var k := name + ":" + rest;
    forall i | 0 <= i < |name| ensures k[i] != ':' {
      assert k[i] == name[i];
    }
  }

  /** The map writes one file makes: one `set` when it yields a unit, none otherwise. */
  function FileWrite<T>(file: string, load: string -> ModuleLoad<T>, key: (Plugin<T>, string) -> string): seq<(string, Plugin<T>)> {
    match LoadUnit(load(file))
    case Loaded(p) => [(key(p, file), p)]
    case _ => []
  }

  /** The writes of a list of files, in order. */
  function FileWrites<T>(files: seq<string>, load: string -> ModuleLoad<T>, key: (Plugin<T>, string) -> string): seq<(string, Plugin<T>)> {
    if files == [] then []
    else FileWrites(files[..|files| - 1], load, key) + FileWrite(files[|files| - 1], load, key)
  }

  /** The writes of a list of directories, in order; a directory whose listing throws writes nothing. */
  function DirWrites<T>(fs: FileSystem, extensions: seq<string>, dirs: seq<string>,
                        load: string -> ModuleLoad<T>, key: (Plugin<T>, string) -> string): seq<(string, Plugin<T>)> {
    if dirs == [] then []
    else
      var last := dirs[|dirs| - 1];
      DirWrites(fs, extensions, dirs[..|dirs| - 1], load, key)
        + match FilesUnder(fs, extensions, last) case None => [] case Some(files) => FileWrites(files, load, key)
  }

  /** Each write comes from a file of the batch that loaded, under the key that file's unit gets. */
  lemma {:induction false} FileWritesLoaded<T>(files: seq<string>, load: string -> ModuleLoad<T>, key: (Plugin<T>, string) -> string)
    ensures forall w :: w in FileWrites(files, load, key) ==> exists f :: f in files && WrittenBy(f, w, load, key)
    decreases |files|
  {
    if files != [] {
      var init, last := files[..|files| - 1], files[|files| - 1];
      FileWritesLoaded(init, load, key);
      forall w | w in FileWrites(files, load, key) ensures exists f :: f in files && WrittenBy(f, w, load, key) {
        if w in FileWrites(init, load, key) {
          var f :| f in init && WrittenBy(f, w, load, key);
          assert f in files;
        } else {
          assert last in files && WrittenBy(last, w, load, key);
        }
      }
    }
  }

  /** `w` is the write that loading `f` makes. */
  ghost predicate WrittenBy<T>(f: string, w: (string, Plugin<T>), load: string -> ModuleLoad<T>, key: (Plugin<T>, string) -> string) {
    LoadUnit(load(f)) == Loaded(w.1) && w.0 == key(w.1, f)
  }

  /** Every file of the batch that loads writes its unit under its key. */
  lemma {:induction false} LoadedFilesAreWritten<T>(files: seq<string>, load: string -> ModuleLoad<T>, key: (Plugin<T>, string) -> string, i: nat)
    requires i < |files| && LoadUnit(load(files[i])).Loaded?
    ensures var p := LoadUnit(load(files[i])).plugin; (key(p, files[i]), p) in FileWrites(files, load, key)
    decreases |files|
  {
    if i < |files| - 1 {
      LoadedFilesAreWritten(files[..|files| - 1], load, key, i);
    }
  }

  /** A command is stored under its own name. */
  lemma {:induction false} CommandWritesUseNames(files: seq<string>, load: string -> ModuleLoad<RootCommand>)
    ensures forall w :: w in FileWrites(files, load, CommandKey) ==> w.0 == w.1.unit.name
    decreases |files|
  {
    if files != [] {
      CommandWritesUseNames(files[..|files| - 1], load);
    }
  }

  /** Every write of a load pass stores a unit loaded from a valid file of a listed directory. */
  lemma {:induction false} DirWritesFromListedFiles<T>(fs: FileSystem, extensions: seq<string>, dirs: seq<string>,
                                                      load: string -> ModuleLoad<T>, key: (Plugin<T>, string) -> string)
    ensures forall w :: w in DirWrites(fs, extensions, dirs, load, key) ==>
      exists f :: IsListedFile(fs, extensions, f) && WrittenBy(f, w, load, key)
    decreases |dirs|
  {
    if dirs != [] {
      var init, last := dirs[..|dirs| - 1], dirs[|dirs| - 1];
      DirWritesFromListedFiles(fs, extensions, init, load, key);
      var files := FilesUnder(fs, extensions, last);
      if files.Some? {
        FilesAreListedFiles(fs, extensions, last, |fs[last]|);
        FileWritesLoaded(files.value, load, key);
      }
    }
  }

  /**
   * A unit loaded from a valid file directly inside a configured directory that can be
   * read throughout is written by the load pass.
   */
  lemma {:induction false} ListedFileIsWritten<T>(fs: FileSystem, extensions: seq<string>, dirs: seq<string>,
                                                 load: string -> ModuleLoad<T>, key: (Plugin<T>, string) -> string, d: nat, i: nat)
    requires d < |dirs| && dirs[d] in fs && i < |fs[dirs[d]]|
    requires FilesUnder(fs, extensions, dirs[d]).Some?
    requires fs[dirs[d]][i].kind == RegularFile && IsValidFile(extensions, fs[dirs[d]][i].name)
    requires LoadUnit(load(PathJoin(dirs[d], fs[dirs[d]][i].name))).Loaded?
    ensures var f := PathJoin(dirs[d], fs[dirs[d]][i].name); var p := LoadUnit(load(f)).plugin;
      (key(p, f), p) in DirWrites(fs, extensions, dirs, load, key)
    decreases |dirs|
  {
    if d < |dirs| - 1 {
      ListedFileIsWritten(fs, extensions, dirs[..|dirs| - 1], load, key, d, i);
    } else {
      var files := FilesUnder(fs, extensions, dirs[d]).value;
      var f := PathJoin(dirs[d], fs[dirs[d]][i].name);
      FilesOfItemsComplete(fs, extensions, dirs[d], |fs[dirs[d]]|, i);
      var j :| 0 <= j < |files| && files[j] == f;
      LoadedFilesAreWritten(files, load, key, j);
    }
  }

  /** Every command write of a load pass is keyed by the command's name. */
  lemma {:induction false} CommandDirWritesUseNames(fs: FileSystem, extensions: seq<string>, dirs: seq<string>,
                                                    load: string -> ModuleLoad<RootCommand>)
    ensures forall w :: w in DirWrites(fs, extensions, dirs, load, CommandKey) ==> w.0 == w.1.unit.name
    decreases |dirs|
  {
    if dirs != [] {
      CommandDirWritesUseNames(fs, extensions, dirs[..|dirs| - 1], load);
      var files := FilesUnder(fs, extensions, dirs[|dirs| - 1]);
      if files.Some? {
        CommandWritesUseNames(files.value, load);
      }
    }
  }

  /** A command map is keyed by name when every stored command is found under its own name. */
  ghost predicate KeyedByName(m: OMap<string, Plugin<RootCommand>>) {
    forall k :: m.Has(k) ==> m.vals[k].unit.name == k
  }

  /**
   * Loading commands keeps the map keyed by name, and the command stored under a name is
   * the last one loaded with that name; names nobody loaded keep their earlier command.
   */
  lemma CommandsStayKeyedByName(fs: FileSystem, extensions: seq<string>, dirs: seq<string>,
                                load: string -> ModuleLoad<RootCommand>, m: OMap<string, Plugin<RootCommand>>)
    requires KeyedByName(m)
    ensures var ws := DirWrites(fs, extensions, dirs, load, CommandKey);
      && KeyedByName(PutAll(m, ws))
      && forall k :: PutAll(m, ws).Get(k) == if LastWrite(ws, k).Some? then LastWrite(ws, k) else m.Get(k)
  {
    var ws := DirWrites(fs, extensions, dirs, load, CommandKey);
    CommandDirWritesUseNames(fs, extensions, dirs, load);
    forall k ensures PutAll(m, ws).Get(k) == if LastWrite(ws, k).Some? then LastWrite(ws, k) else m.Get(k) {
      LastWriteWins(m, ws, k);
    }
    forall k | PutAll(m, ws).Has(k) ensures PutAll(m, ws).vals[k].unit.name == k {
      LastWriteIsWritten(ws, k);
    }
  }

  /** Loading events or jobs never drops an entry an earlier pass stored. */
  lemma LoadingNeverForgets<T>(fs: FileSystem, extensions: seq<string>, dirs: seq<string>,
                               load: string -> ModuleLoad<T>, key: (Plugin<T>, string) -> string,
                               m: OMap<string, Plugin<T>>, k: string)
    requires m.Has(k)
    ensures PutAll(m, DirWrites(fs, extensions, dirs, load, key)).Has(k)
  {
    LastWriteWins(m, DirWrites(fs, extensions, dirs, load, key), k);
  }

  lemma FileWritesStep<T>(files: seq<string>, j: nat, load: string -> ModuleLoad<T>, key: (Plugin<T>, string) -> string)
    requires j < |files|
    ensures FileWrites(files[..j + 1], load, key) == FileWrites(files[..j], load, key) + FileWrite(files[j], load, key)
  {
    assert files[..j + 1][..j] == files[..j];
  }

  lemma DirWritesStep<T>(fs: FileSystem, extensions: seq<string>, dirs: seq<string>, i: nat,
                         load: string -> ModuleLoad<T>, key: (Plugin<T>, string) -> string)
    requires i < |dirs|
    ensures DirWrites(fs, extensions, dirs[..i + 1], load, key) == DirWrites(fs, extensions, dirs[..i], load, key)
      + match FilesUnder(fs, extensions, dirs[i]) case None => [] case Some(files) => FileWrites(files, load, key)
  {
    assert dirs[..i + 1][..i] == dirs[..i];
  }

  /**
   * The inner loop of `load*`: each file is loaded in turn and, when it yields a unit,
   * written under its key; a file that throws or yields `null` is skipped.
   */
  method LoadFiles<T>(files: seq<string>, load: string -> ModuleLoad<T>, key: (Plugin<T>, string) -> string,
                      m: OMap<string, Plugin<T>>) returns (r: OMap<string, Plugin<T>>)
    ensures r == PutAll(m, FileWrites(files, load, key))
  {
    r := m;
    for j := 0 to |files|
      invariant r == PutAll(m, FileWrites(files[..j], load, key))
    {
      var file := files[j];
      var outcome := LoadUnit(load(file));
      FileWritesStep(files, j, load, key);
      if outcome.Loaded? {
        PutAllSnoc(m, FileWrites(files[..j], load, key), (key(outcome.plugin, file), outcome.plugin));
        r := r.Put(key(outcome.plugin, file), outcome.plugin);
      } else {
        assert FileWrites(files[..j + 1], load, key) == FileWrites(files[..j], load, key);
      }
    }
    assert files[..|files|] == files;
  }

  // ---------------------------------------------------------------------------------
  // The loader object

  /** The constructor options; a single directory is a one-element list. */
  datatype LoaderOptions = LoaderOptions(
    baseDir: Option<string>,
    commandsDir: Option<seq<string>>,
    eventsDir: Option<seq<string>>,
    jobsDir: Option<seq<string>>,
    commandsFolderName: Option<string>,
    eventsFolderName: Option<string>,
    jobsFolderName: Option<string>,
    extensions: Option<seq<string>>)

  class FileLoader {
    const baseDir: string
    const commandsDirs: seq<string>
    var eventsDirs: seq<string>
    var jobsDirs: seq<string>
    var eventsDirsResolved: bool
    var jobsDirsResolved: bool
    const commandsFolderName: string
    const eventsFolderName: string
    const jobsFolderName: string
    const extensions: seq<string>
    var commands: OMap<string, Plugin<RootCommand>>
    var events: OMap<string, Plugin<RootEvent>>
    var jobs: OMap<string, Plugin<RootJob>>

    /** The directory lists repeat nothing and the three maps are well formed. */
    ghost predicate Valid()
      reads this
    {
      && NoRepeats(commandsDirs) && NoRepeats(eventsDirs) && NoRepeats(jobsDirs)
      && commands.Valid() && events.Valid() && jobs.Valid()
    }

    /** The settings the constructor derives from its options, before any directory is discovered. */
    ghost predicate Configured(options: LoaderOptions, libraryRootDir: string)
      reads this
    {
      && baseDir == (if options.baseDir.Some? && options.baseDir.value != "" then options.baseDir.value else libraryRootDir)
      && commandsFolderName == options.commandsFolderName.GetOr("commands")
      && eventsFolderName == options.eventsFolderName.GetOr("events")
      && jobsFolderName == options.jobsFolderName.GetOr("jobs")
      && commandsDirs == NormalizeDirs(options.commandsDir.GetOr([PathJoin(baseDir, commandsFolderName)]))
      && eventsDirs == NormalizeDirs(options.eventsDir.GetOr([PathJoin(baseDir, eventsFolderName)]))
      && jobsDirs == NormalizeDirs(options.jobsDir.GetOr([PathJoin(baseDir, jobsFolderName)]))
      && extensions == options.extensions.GetOr(DefaultExtensions)
    }

    /** The directories `getCommandDirectories` returns on `fs`: configured ones, then discovered ones. */
    function CommandDirs(fs: FileSystem): seq<string> {
      CombinedDirs(commandsDirs, DiscoveryOrder(fs, commandsFolderName, baseDir))
    }

    /** The directories `getEventDirectories` returns on `fs`: the cache, or the list it computes first. */
    ghost function EventDirs(fs: FileSystem): seq<string>
      reads this
    {
      if eventsDirsResolved then eventsDirs else CombinedDirs(eventsDirs, DiscoveryOrder(fs, eventsFolderName, baseDir))
    }

    /** The directories `getJobDirectories` returns on `fs`: the cache, or the list it computes first. */
    ghost function JobDirs(fs: FileSystem): seq<string>
      reads this
    {
      if jobsDirsResolved then jobsDirs else CombinedDirs(jobsDirs, DiscoveryOrder(fs, jobsFolderName, baseDir))
    }

    /**
     * A falsy `baseDir` falls back to the library root; each folder name defaults to the
     * unit kind's plural; each directory list defaults to that folder under the base
     * directory and is normalised; the extensions default to `.js` and `.ts`.
     */
    constructor(options: LoaderOptions, libraryRootDir: string)
      ensures Valid() && Configured(options, libraryRootDir)
      ensures !eventsDirsResolved && !jobsDirsResolved
      ensures commands == Empty() && events == Empty() && jobs == Empty()
    {
      var base := if options.baseDir.Some? && options.baseDir.value != "" then options.baseDir.value else libraryRootDir;
      var cf := options.commandsFolderName.GetOr("commands");
      var ef := options.eventsFolderName.GetOr("events");
      var jf := options.jobsFolderName.GetOr("jobs");
      baseDir := base;
      commandsFolderName := cf;
      eventsFolderName := ef;
      jobsFolderName := jf;
      commandsDirs := NormalizeDirs(options.commandsDir.GetOr([PathJoin(base, cf)]));
      eventsDirs := NormalizeDirs(options.eventsDir.GetOr([PathJoin(base, ef)]));
      jobsDirs := NormalizeDirs(options.jobsDir.GetOr([PathJoin(base, jf)]));
      eventsDirsResolved := false;
      jobsDirsResolved := false;
      extensions := options.extensions.GetOr(DefaultExtensions);
      commands := Empty();
      events := Empty();
      jobs := Empty();
    }

    /** `getFiles`: the valid files under `dir`, or `None` where the source throws. */
    method GetFiles(fs: FileSystem, dir: string) returns (r: Option<seq<string>>)
      ensures r == FilesUnder(fs, extensions, dir)
      decreases Deeper(fs, dir)
    {
      if dir !in fs {
        return None;
      }
      var items := fs[dir];
      var files: seq<string> := [];
      for k := 0 to |items|
        invariant FilesOfItems(fs, extensions, dir, k) == Some(files)
      {
        var item := items[k];
        var full := PathJoin(dir, item.name);
        if item.kind == Directory {
          DeeperShrinks(fs, dir, full);
          var sub := GetFiles(fs, full);
          if sub.None? {
            FilesOfItemsAbort(fs, extensions, dir, k + 1, |items|);
            return None;
          }
          files := files + sub.value;
        } else if item.kind == RegularFile && IsValidFile(extensions, item.name) {
          files := files + [full];
        }
      }
      return Some(files);
    }

    /**
     * `discover*Directories`: a stack walk from `startDir` that records every
     * subdirectory named `folder` and descends into every subdirectory, skipping the ones
     * it cannot read. The three copies in the source differ only in the folder name. The
     * matches come out in the order `DiscoveryOrder` gives, which is the order the
     * directories are loaded in.
     */
    method DiscoverDirectories(fs: FileSystem, startDir: string, folder: string) returns (discovered: seq<string>)
      ensures discovered == DiscoveryOrder(fs, folder, startDir)
    {
      var stack := [startDir];
      discovered := [];
      while |stack| > 0
        invariant Walk(fs, folder, stack, discovered) == DiscoveryOrder(fs, folder, startDir)
        decreases StackWeight(fs, stack)
      {
        var current := stack[|stack| - 1];
        stack := stack[..|stack| - 1];
        if current == "" || current !in fs {
          continue;
        }
        var entries := fs[current];
        ghost var total := StackWeight(fs, stack) + EntryWeight(fs, current, 0);
        for k := 0 to |entries|
          invariant WalkEntries(fs, folder, stack, current, k, discovered) == DiscoveryOrder(fs, folder, startDir)
          invariant StackWeight(fs, stack) + EntryWeight(fs, current, k) == total
        {
          var entry := entries[k];
          if entry.kind != Directory {
            continue;
          }
          var fullPath := PathJoin(current, entry.name);
          if entry.name == folder && fullPath !in discovered {
            discovered := discovered + [fullPath];
          }
          StackPush(fs, folder, stack, fullPath);
          stack := stack + [fullPath];
        }
      }
    }

    /** `getCommandDirectories`: recomputed on every call. */
    method GetCommandDirectories(fs: FileSystem) returns (dirs: seq<string>)
      requires Valid()
      ensures dirs == CombinedDirs(commandsDirs, DiscoveryOrder(fs, commandsFolderName, baseDir))
      ensures forall x :: x in dirs <==> x in commandsDirs || x in MatchesUnder(fs, commandsFolderName, baseDir)
      ensures NoRepeats(dirs)
      ensures |commandsDirs| <= |dirs| && dirs[..|commandsDirs|] == commandsDirs
    {
      var discovered := DiscoverDirectories(fs, baseDir, commandsFolderName);
      DiscoveryOrderFinds(fs, commandsFolderName, baseDir);
      CombinedDirsProperties(commandsDirs, discovered);
      dirs := CombinedDirs(commandsDirs, discovered);
    }

    /** `getEventDirectories`: computed on the first call, then returned from the cache unchanged. */
    method GetEventDirectories(fs: FileSystem) returns (dirs: seq<string>)
      requires Valid()
      modifies this
      ensures Valid() && dirs == eventsDirs && eventsDirsResolved
      ensures old(eventsDirsResolved) ==> eventsDirs == old(eventsDirs)
      ensures !old(eventsDirsResolved) ==>
        && dirs == CombinedDirs(old(eventsDirs), DiscoveryOrder(fs, eventsFolderName, baseDir))
        && (forall x :: x in dirs <==> x in old(eventsDirs) || x in MatchesUnder(fs, eventsFolderName, baseDir))
        && |old(eventsDirs)| <= |dirs| && dirs[..|old(eventsDirs)|] == old(eventsDirs)
      ensures jobsDirs == old(jobsDirs) && jobsDirsResolved == old(jobsDirsResolved)
      ensures commands == old(commands) && events == old(events) && jobs == old(jobs)
    {
      if !eventsDirsResolved {
        var discovered := DiscoverDirectories(fs, baseDir, eventsFolderName);
        DiscoveryOrderFinds(fs, eventsFolderName, baseDir);
        CombinedDirsProperties(eventsDirs, discovered);
        eventsDirs := CombinedDirs(eventsDirs, discovered);
        eventsDirsResolved := true;
      }
      dirs := eventsDirs;
    }

    /** `getJobDirectories`: computed on the first call, then returned from the cache unchanged. */
    method GetJobDirectories(fs: FileSystem) returns (dirs: seq<string>)
      requires Valid()
      modifies this
      ensures Valid() && dirs == jobsDirs && jobsDirsResolved
      ensures old(jobsDirsResolved) ==> jobsDirs == old(jobsDirs)
      ensures !old(jobsDirsResolved) ==>
        && dirs == CombinedDirs(old(jobsDirs), DiscoveryOrder(fs, jobsFolderName, baseDir))
        && (forall x :: x in dirs <==> x in old(jobsDirs) || x in MatchesUnder(fs, jobsFolderName, baseDir))
        && |old(jobsDirs)| <= |dirs| && dirs[..|old(jobsDirs)|] == old(jobsDirs)
      ensures eventsDirs == old(eventsDirs) && eventsDirsResolved == old(eventsDirsResolved)
      ensures commands == old(commands) && events == old(events) && jobs == old(jobs)
    {
      if !jobsDirsResolved {
        var discovered := DiscoverDirectories(fs, baseDir, jobsFolderName);
        DiscoveryOrderFinds(fs, jobsFolderName, baseDir);
        CombinedDirsProperties(jobsDirs, discovered);
        jobsDirs := CombinedDirs(jobsDirs, discovered);
        jobsDirsResolved := true;
      }
      dirs := jobsDirs;
    }

    /**
     * The loop the three `load*` methods share: every file of every directory, in order,
     * is loaded and its unit written under its key; a directory whose listing throws is
     * skipped.
     */
    method LoadAll<T>(fs: FileSystem, dirs: seq<string>, load: string -> ModuleLoad<T>,
                      key: (Plugin<T>, string) -> string, m: OMap<string, Plugin<T>>) returns (r: OMap<string, Plugin<T>>)
      ensures r == PutAll(m, DirWrites(fs, extensions, dirs, load, key))
    {
      r := m;
      for i := 0 to |dirs|
        invariant r == PutAll(m, DirWrites(fs, extensions, dirs[..i], load, key))
      {
        var files := GetFiles(fs, dirs[i]);
        DirWritesStep(fs, extensions, dirs, i, load, key);
        if files.Some? {
          PutAllAppend(m, DirWrites(fs, extensions, dirs[..i], load, key), FileWrites(files.value, load, key));
          r := LoadFiles(files.value, load, key, r);
        } else {
          assert DirWrites(fs, extensions, dirs[..i + 1], load, key) == DirWrites(fs, extensions, dirs[..i], load, key);
        }
      }
      assert dirs[..|dirs|] == dirs;
    }

    /** `loadCommands`: every command found, keyed by name, added to the map kept from earlier calls. */
    method LoadCommands(fs: FileSystem, load: string -> ModuleLoad<RootCommand>) returns (loaded: OMap<string, Plugin<RootCommand>>, ghost dirs: seq<string>)
      requires Valid()
      modifies this
      ensures Valid() && loaded == commands
      ensures dirs == CombinedDirs(commandsDirs, DiscoveryOrder(fs, commandsFolderName, baseDir))
      ensures forall x :: x in dirs <==> x in commandsDirs || x in MatchesUnder(fs, commandsFolderName, baseDir)
      ensures NoRepeats(dirs) && |commandsDirs| <= |dirs| && dirs[..|commandsDirs|] == commandsDirs
      ensures commands == PutAll(old(commands), DirWrites(fs, extensions, dirs, load, CommandKey))
      ensures events == old(events) && jobs == old(jobs)
      ensures eventsDirs == old(eventsDirs) && jobsDirs == old(jobsDirs)
      ensures eventsDirsResolved == old(eventsDirsResolved) && jobsDirsResolved == old(jobsDirsResolved)
    {
      var commandDirs := GetCommandDirectories(fs);
      dirs := commandDirs;
      commands := LoadAll(fs, commandDirs, load, CommandKey, commands);
      PutAllKeepsValid(old(commands), DirWrites(fs, extensions, dirs, load, CommandKey));
      loaded := commands;
    }

    /** `loadEvents`: every event found, keyed by name and path, added to the map kept from earlier calls. */
    method LoadEvents(fs: FileSystem, load: string -> ModuleLoad<RootEvent>) returns (loaded: OMap<string, Plugin<RootEvent>>, ghost dirs: seq<string>)
      requires Valid()
      modifies this
      ensures Valid() && loaded == events && dirs == eventsDirs && eventsDirsResolved
      ensures old(eventsDirsResolved) ==> dirs == old(eventsDirs)
      ensures !old(eventsDirsResolved) ==>
        && dirs == CombinedDirs(old(eventsDirs), DiscoveryOrder(fs, eventsFolderName, baseDir))
        && (forall x :: x in dirs <==> x in old(eventsDirs) || x in MatchesUnder(fs, eventsFolderName, baseDir))
        && |old(eventsDirs)| <= |dirs| && dirs[..|old(eventsDirs)|] == old(eventsDirs)
      ensures events == PutAll(old(events), DirWrites(fs, extensions, dirs, load, EventKey))
      ensures commands == old(commands) && jobs == old(jobs)
      ensures jobsDirs == old(jobsDirs) && jobsDirsResolved == old(jobsDirsResolved)
    {
      var eventDirs := GetEventDirectories(fs);
      dirs := eventDirs;
      events := LoadAll(fs, eventDirs, load, EventKey, events);
      PutAllKeepsValid(old(events), DirWrites(fs, extensions, dirs, load, EventKey));
      loaded := events;
    }

    /** `loadJobs`: every job found, keyed by name and path, added to the map kept from earlier calls. */
    method LoadJobs(fs: FileSystem, load: string -> ModuleLoad<RootJob>) returns (loaded: OMap<string, Plugin<RootJob>>, ghost dirs: seq<string>)
      requires Valid()
      modifies this
      ensures Valid() && loaded == jobs && dirs == jobsDirs && jobsDirsResolved
      ensures old(jobsDirsResolved) ==> dirs == old(jobsDirs)
      ensures !old(jobsDirsResolved) ==>
        && dirs == CombinedDirs(old(jobsDirs), DiscoveryOrder(fs, jobsFolderName, baseDir))
        && (forall x :: x in dirs <==> x in old(jobsDirs) || x in MatchesUnder(fs, jobsFolderName, baseDir))
        && |old(jobsDirs)| <= |dirs| && dirs[..|old(jobsDirs)|] == old(jobsDirs)
      ensures jobs == PutAll(old(jobs), DirWrites(fs, extensions, dirs, load, JobKey))
      ensures commands == old(commands) && events == old(events)
      ensures eventsDirs == old(eventsDirs) && eventsDirsResolved == old(eventsDirsResolved)
    {
      var jobDirs := GetJobDirectories(fs);
      dirs := jobDirs;
      jobs := LoadAll(fs, jobDirs, load, JobKey, jobs);
      PutAllKeepsValid(old(jobs), DirWrites(fs, extensions, dirs, load, JobKey));
      loaded := jobs;
    }

    /** `getCommand`. */
    function GetCommand(name: string): (r: Option<Plugin<RootCommand>>)
      reads this
      ensures r.Some? <==> commands.Has(name)
    {
      commands.Get(name)
    }

    /** `getEvent`: by the full `name:path` key. */
    function GetEvent(key: string): (r: Option<Plugin<RootEvent>>)
      reads this
      ensures r.Some? <==> events.Has(key)
    {
      events.Get(key)
    }

    /** `getJob`: by the full `name:path` key. */
    function GetJob(key: string): (r: Option<Plugin<RootJob>>)
      reads this
      ensures r.Some? <==> jobs.Has(key)
    {
      jobs.Get(key)
    }
  }
}
