/** `FileSystemManager` (storm_mcp_server/core/file_manager.py): reads, lists,
    searches and writes files beneath a sandbox root.

    The filesystem is a map from resolved absolute paths to nodes. A directory
    lists its children's names in the order the operating system's directory
    iteration returns them, which is the order `iterdir` and `scandir` see. */
module FileManager {
  import opened Wrappers
  import opened Strings
  import opened Json
  import opened Paths

  datatype Node = File(content: seq<byte>) | Dir(children: seq<string>)

  type Disk = map<Path, Node>

  function Parent(p: Path): Path
    requires p != []
  {
    p[..|p| - 1]
  }

  function Last(p: Path): string
    requires p != []
  {
    p[|p| - 1]
  }

  /** A consistent tree: the root is a directory, every other entry hangs from
      a directory that lists it, every listed name exists, and no directory
      lists a name twice. */
  predicate WellFormed(disk: Disk) {
    && [] in disk && disk[[]].Dir?
    && (forall p | p in disk :: ValidPath(p))
    && (forall p {:trigger Parent(p)} | p in disk && p != [] ::
          Parent(p) in disk && disk[Parent(p)].Dir? && Last(p) in disk[Parent(p)].children)
    && (forall p, i | p in disk && disk[p].Dir? && 0 <= i < |disk[p].children| ::
          p + [disk[p].children[i]] in disk)
    && (forall p, i, j | p in disk && disk[p].Dir? && 0 <= i < j < |disk[p].children| ::
          disk[p].children[i] != disk[p].children[j])
  }

  predicate IsDir(disk: Disk, p: Path) {
    p in disk && disk[p].Dir?
  }

  predicate IsFile(disk: Disk, p: Path) {
    p in disk && disk[p].File?
  }

  /** Creating `parent/name` as a new entry, appended to `parent`'s listing. */
  function AddChild(disk: Disk, parent: Path, name: string, node: Node): Disk
    requires IsDir(disk, parent)
  {
    disk[parent := Dir(disk[parent].children + [name])][parent + [name] := node]
  }

  lemma AddChildWellFormed(disk: Disk, parent: Path, name: string, node: Node)
    requires WellFormed(disk) && IsDir(disk, parent)
    requires ValidSegment(name) && parent + [name] !in disk
    requires node.File? || node == Dir([])
    ensures WellFormed(AddChild(disk, parent, name, node))
    ensures forall p | p in disk :: p in AddChild(disk, parent, name, node)
    ensures forall p | p in disk && p != parent :: AddChild(disk, parent, name, node)[p] == disk[p]
    ensures IsDir(AddChild(disk, parent, name, node), parent)
  {
    var d := AddChild(disk, parent, name, node);
    var child := parent + [name];
    assert ValidPath(child) by {
      assert forall k | 0 <= k < |parent| :: child[k] == parent[k];
    }
    AddChildParents(disk, parent, name, node);
    AddChildChildren(disk, parent, name, node);
    AddChildDistinct(disk, parent, name, node);
  }

  /** After `AddChild`, every entry still hangs from a directory that lists it. */
  lemma AddChildParents(disk: Disk, parent: Path, name: string, node: Node)
    requires WellFormed(disk) && IsDir(disk, parent) && parent + [name] !in disk
    ensures var d := AddChild(disk, parent, name, node);
      forall p {:trigger Parent(p)} | p in d && p != [] ::
        Parent(p) in d && d[Parent(p)].Dir? && Last(p) in d[Parent(p)].children
  {
    var d := AddChild(disk, parent, name, node);
    var child := parent + [name];
    assert Parent(child) == parent && Last(child) == name;
    forall p | p in d && p != []
      ensures Parent(p) in d && d[Parent(p)].Dir? && Last(p) in d[Parent(p)].children
    {
      if p != child {
        assert p in disk;
      }
    }
  }

  /** After `AddChild`, every listed name still exists. */
  lemma AddChildChildren(disk: Disk, parent: Path, name: string, node: Node)
    requires WellFormed(disk) && IsDir(disk, parent)
    requires node.File? || node == Dir([])
    ensures var d := AddChild(disk, parent, name, node);
      forall p, i | p in d && d[p].Dir? && 0 <= i < |d[p].children| :: p + [d[p].children[i]] in d
  {
    var d := AddChild(disk, parent, name, node);
    var kids := disk[parent].children;
    forall p, i | p in d && d[p].Dir? && 0 <= i < |d[p].children|
      ensures p + [d[p].children[i]] in d
    {
      if p == parent && i == |kids| {
        assert d[p].children[i] == name;
      } else if p == parent {
        assert d[p].children[i] == kids[i];
      }
    }
  }

  /** After `AddChild`, no directory lists a name twice. */
  lemma AddChildDistinct(disk: Disk, parent: Path, name: string, node: Node)
    requires WellFormed(disk) && IsDir(disk, parent) && parent + [name] !in disk
    requires node.File? || node == Dir([])
    ensures var d := AddChild(disk, parent, name, node);
      forall p, i, j | p in d && d[p].Dir? && 0 <= i < j < |d[p].children| :: d[p].children[i] != d[p].children[j]
  {
    var kids := disk[parent].children;
    forall i | 0 <= i < |kids| ensures kids[i] != name {
      assert parent + [kids[i]] in disk;
    }
  }

  /** Every ancestor of `p` down to depth `k` is a directory. */
  predicate DirsAlong(disk: Disk, p: Path, k: nat) {
    k <= |p| && forall j | 0 <= j <= k :: IsDir(disk, p[..j])
  }

  /** The message of the NotADirectoryError the OS raises when a path goes through a file. */
  function NotADirectory(p: Path): string {
    "[Errno 20] Not a directory: '" + PathString(p) + "'"
  }

  function IsADirectory(p: Path): string {
    "[Errno 21] Is a directory: '" + PathString(p) + "'"
  }

  function FileExists(p: Path): string {
    "[Errno 17] File exists: '" + PathString(p) + "'"
  }

  /** One step of `mkdir(parents=True)`: adding the missing directory
      `p[..k + 1]` keeps the disk well formed and extends the directories
      along `p` by one; it is the only new path. */
  lemma AddDirAlong(disk: Disk, p: Path, k: nat)
    requires WellFormed(disk) && ValidPath(p) && DirsAlong(disk, p, k)
    requires k < |p| && p[..k + 1] !in disk
    ensures WellFormed(AddChild(disk, p[..k], p[k], Dir([])))
    ensures DirsAlong(AddChild(disk, p[..k], p[k], Dir([])), p, k + 1)
    ensures forall q | q in disk :: (q in AddChild(disk, p[..k], p[k], Dir([]))
      && (disk[q].File? ==> AddChild(disk, p[..k], p[k], Dir([]))[q] == disk[q])
      && (disk[q].Dir? ==> AddChild(disk, p[..k], p[k], Dir([]))[q].Dir?))
    ensures forall q | q in AddChild(disk, p[..k], p[k], Dir([])) && q !in disk :: q == p[..k + 1]
    ensures k + 1 < |p| ==> p[..k + 2] !in AddChild(disk, p[..k], p[k], Dir([]))
  {
    var q := p[..k + 1];
    assert q == p[..k] + [p[k]] && ValidSegment(p[k]);
    var d := AddChild(disk, p[..k], p[k], Dir([]));
    AddChildWellFormed(disk, p[..k], p[k], Dir([]));
    assert forall j | 0 <= j <= k + 1 :: IsDir(d, p[..j]);
    assert k + 1 < |p| ==> Parent(p[..k + 2]) == q;
  }

  /** `p.mkdir(parents=True)` for a `p` that does not exist: the missing
      ancestors are created top down; an ancestor that is a file makes the
      call fail before anything is created. */
  function MakeDirs(disk: Disk, p: Path, k: nat): (r: Result<Disk>)
    requires WellFormed(disk) && ValidPath(p) && DirsAlong(disk, p, k)
    ensures r.Ok? ==> WellFormed(r.value) && DirsAlong(r.value, p, |p|)
    ensures r.Ok? ==> forall q | q in disk :: q in r.value && (disk[q].File? ==> r.value[q] == disk[q])
    ensures r.Ok? ==> forall q | q in disk && disk[q].Dir? :: r.value[q].Dir?
    ensures r.Ok? ==> forall q | q in r.value && q !in disk :: r.value[q].Dir? && |q| <= |p| && q == p[..|q|]
    ensures r.Err? ==> k < |p| && p[..k + 1] in disk
    ensures r.Err? ==> exists j :: k < j <= |p| && IsFile(disk, p[..j])
    decreases |p| - k
  {
    if k == |p| then Ok(disk)
    else
      var q := p[..k + 1];
      assert q == p[..k] + [p[k]] && ValidSegment(p[k]);
      if q !in disk then
        var d := AddChild(disk, p[..k], p[k], Dir([]));
        AddDirAlong(disk, p, k);
        MakeDirs(d, p, k + 1)
      else if disk[q].Dir? then MakeDirs(disk, p, k + 1)
      else if k + 1 == |p| then Err(FileExists(p))
      else Err(NotADirectory(p))
  }

  // ---------------------------------------------------------------------------
  // read_file

  datatype FileRead = FileRead(content: seq<byte>, mimeType: string)

  /** `read_file`: only an existing regular file can be read; the MIME type
      falls back to text/plain when the guess gives none. */
  function ReadResult(disk: Disk, base: Path, input: string, guess: string -> Option<string>): (r: Result<FileRead>)
    requires ValidPath(base)
    ensures r.Ok? <==> ValidatePath(base, input).Ok? && IsFile(disk, ValidatePath(base, input).value)
    ensures ValidatePath(base, input).Err? ==> r == Err(AccessDenied)
    ensures ValidatePath(base, input).Ok? && r.Err? ==> r.error == "File not found: " + input
    ensures r.Ok? ==> r.value.content == disk[ValidatePath(base, input).value].content
    ensures r.Ok? && guess(PathString(ValidatePath(base, input).value)).None? ==> r.value.mimeType == "text/plain"
    ensures r.Ok? && guess(PathString(ValidatePath(base, input).value)).Some? ==>
      r.value.mimeType == guess(PathString(ValidatePath(base, input).value)).value
  {
    var full :- ValidatePath(base, input);
    if IsFile(disk, full) then Ok(FileRead(disk[full].content, guess(PathString(full)).GetOr("text/plain")))
    else Err("File not found: " + input)
  }

  // ---------------------------------------------------------------------------
  // list_directory

  datatype Kind = FileKind | DirectoryKind

  function KindName(k: Kind): string {
    match k
    case FileKind => "file"
    case DirectoryKind => "directory"
  }

  /** One `list_directory` item: name, path relative to the base, type, and
      size for files only. */
  datatype Entry = Entry(name: string, path: string, kind: Kind, size: Option<nat>)

  function KindOf(node: Node): Kind {
    if node.Dir? then DirectoryKind else FileKind
  }

  function EntryOf(disk: Disk, base: Path, p: Path): Entry
    requires p in disk && p != [] && IsPrefix(base, p)
  {
    var node := disk[p];
    Entry(Last(p), RelString(p[|base|..]), KindOf(node), if node.File? then Some(|node.content|) else None)
  }

  /** The entries of `full`'s children `names`, in order. */
  function EntriesOf(disk: Disk, base: Path, full: Path, names: seq<string>): (r: seq<Entry>)
    requires forall k | 0 <= k < |names| :: full + [names[k]] in disk && IsPrefix(base, full + [names[k]])
    ensures |r| == |names|
    ensures forall k | 0 <= k < |names| :: r[k] == EntryOf(disk, base, full + [names[k]])
  {
    if names == [] then []
    else EntriesOf(disk, base, full, names[..|names| - 1]) + [EntryOf(disk, base, full + [names[|names| - 1]])]
  }

  lemma EntriesOfSnoc(disk: Disk, base: Path, full: Path, names: seq<string>, i: nat)
    requires i < |names|
    requires forall k | 0 <= k < |names| :: full + [names[k]] in disk && IsPrefix(base, full + [names[k]])
    ensures EntriesOf(disk, base, full, names[..i + 1])
      == EntriesOf(disk, base, full, names[..i]) + [EntryOf(disk, base, full + [names[i]])]
  {
    assert names[..i + 1][..i] == names[..i];
  }

  /** `list_directory`: the directory's children in iteration order. When the
      directory passed the string test without lying under the base (a prefix
      sibling), `relative_to` raises on its first child. */
  function Listing(disk: Disk, base: Path, input: string): (r: Result<seq<Entry>>)
    requires WellFormed(disk) && ValidPath(base)
  {
    var full :- ValidatePath(base, input);
    if !IsDir(disk, full) then Err("Not a directory: " + input)
    else
      var names := disk[full].children;
      if names == [] then Ok([])
      else if !IsPrefix(base, full) then Err(NotInSubpath(full + [names[0]], base))
      else Ok(EntriesOf(disk, base, full, names))
  }

  // ---------------------------------------------------------------------------
  // _walk_async and search_files

  /** The entries strictly below `d`. */
  function Below(disk: Disk, d: Path): set<Path> {
    set q | q in disk.Keys && |d| < |q| && q[..|d|] == d
  }

  lemma BelowShrinks(disk: Disk, d: Path, c: Path)
    requires c in disk && |c| == |d| + 1 && c[..|d|] == d
    ensures |Below(disk, c)| < |Below(disk, d)|
  {
    var small, big := Below(disk, c), Below(disk, d);
    forall q | q in small ensures q in big {
      assert q[..|d|] == q[..|c|][..|d|];
    }
    assert c in big - small;
    assert big == small + (big - small);
  }

  /** The children of `d` named in `names` that are not directories, in order. */
  function FilesOf(disk: Disk, d: Path, names: seq<string>): (r: seq<Path>)
    requires forall i | 0 <= i < |names| :: d + [names[i]] in disk
    ensures forall k | 0 <= k < |r| :: IsFile(disk, r[k]) && |r[k]| == |d| + 1 && r[k][..|d|] == d
  {
    if names == [] then []
    else
      var c := d + [names[|names| - 1]];
      assert c[..|d|] == d;
      FilesOf(disk, d, names[..|names| - 1]) + (if disk[c].Dir? then [] else [c])
  }

  /** The children of `d` named in `names` that are directories, in order. */
  function DirsOf(disk: Disk, d: Path, names: seq<string>): (r: seq<Path>)
    requires forall i | 0 <= i < |names| :: d + [names[i]] in disk
    ensures forall k | 0 <= k < |r| :: IsDir(disk, r[k]) && |r[k]| == |d| + 1 && r[k][..|d|] == d
  {
    if names == [] then []
    else
      var c := d + [names[|names| - 1]];
      assert c[..|d|] == d;
      DirsOf(disk, d, names[..|names| - 1]) + (if disk[c].Dir? then [c] else [])
  }

  /** `_walk_async(d)`: the files of `d` first, then the walk of each
      subdirectory in turn. Directories themselves are never produced. */
  function Walk(disk: Disk, d: Path): seq<Path>
    requires WellFormed(disk) && IsDir(disk, d)
    decreases |Below(disk, d)|, 1, 0
  {
    var names := disk[d].children;
    FilesOf(disk, d, names) + WalkEach(disk, d, DirsOf(disk, d, names))
  }

  function WalkEach(disk: Disk, d: Path, dirs: seq<Path>): seq<Path>
    requires WellFormed(disk) && IsDir(disk, d)
    requires forall k | 0 <= k < |dirs| :: IsDir(disk, dirs[k]) && |dirs[k]| == |d| + 1 && dirs[k][..|d|] == d
    decreases |Below(disk, d)|, 0, |dirs|
  {
    if dirs == [] then []
    else
      var c := dirs[|dirs| - 1];
      assert IsDir(disk, c) && |c| == |d| + 1 && c[..|d|] == d;
      BelowShrinks(disk, d, c);
      WalkEach(disk, d, dirs[..|dirs| - 1]) + Walk(disk, c)
  }

  lemma WalkEachSnoc(disk: Disk, d: Path, dirs: seq<Path>, j: nat)
    requires WellFormed(disk) && IsDir(disk, d) && j < |dirs|
    requires forall k | 0 <= k < |dirs| :: IsDir(disk, dirs[k]) && |dirs[k]| == |d| + 1 && dirs[k][..|d|] == d
    ensures WalkEach(disk, d, dirs[..j + 1]) == WalkEach(disk, d, dirs[..j]) + Walk(disk, dirs[j])
  {
    assert dirs[..j + 1][..j] == dirs[..j];
  }

  /** One `search_files` result. */
  datatype Match = Match(name: string, path: string, kind: Kind)

  function MatchOf(disk: Disk, base: Path, p: Path): Match
    requires p in disk && p != [] && IsPrefix(base, p)
  {
    Match(Last(p), RelString(p[|base|..]), KindOf(disk[p]))
  }

  /** `pattern.lower() in name.lower()`. */
  predicate NameMatches(name: string, pattern: string) {
    Contains(Lower(name), Lower(pattern))
  }

  /** The walked paths whose name contains the pattern, case-insensitively, in walk order. */
  function Matches(disk: Disk, base: Path, walked: seq<Path>, pattern: string): seq<Match>
    requires forall k | 0 <= k < |walked| :: walked[k] in disk && walked[k] != [] && IsPrefix(base, walked[k])
  {
    if walked == [] then []
    else
      var p := walked[|walked| - 1];
      Matches(disk, base, walked[..|walked| - 1], pattern)
        + (if NameMatches(Last(p), pattern) then [MatchOf(disk, base, p)] else [])
  }

  /** The loop of `search_files` over the walked paths. */
  method IterMatches(disk: Disk, base: Path, walked: seq<Path>, pattern: string) returns (results: seq<Match>)
    requires forall k | 0 <= k < |walked| :: walked[k] in disk && walked[k] != [] && IsPrefix(base, walked[k])
    ensures results == Matches(disk, base, walked, pattern)
  {
    results := [];
    var i := 0;
    while i < |walked|
      invariant 0 <= i <= |walked|
      invariant results == Matches(disk, base, walked[..i], pattern)
    {
      var p := walked[i];
      assert walked[..i + 1][..i] == walked[..i];
      if Contains(Lower(p[|p| - 1]), Lower(pattern)) {
        var rel := p[|base|..];
        results := results + [Match(p[|p| - 1], RelString(rel), if disk[p].Dir? then DirectoryKind else FileKind)];
      }
      i := i + 1;
    }
    assert walked[..i] == walked;
  }

  /** A file `search_files` should report: strictly below the base, with a
      name that contains the pattern. */
  predicate Findable(disk: Disk, base: Path, pattern: string, p: Path) {
    IsFile(disk, p) && |p| > |base| && IsPrefix(base, p) && NameMatches(Last(p), pattern)
  }

  /** `search_files`: walking a base that is not a directory fails in `scandir`. */
  function SearchResults(disk: Disk, base: Path, pattern: string): (r: Result<seq<Match>>)
    requires WellFormed(disk) && ValidPath(base)
  {
    if !IsDir(disk, base) then Err(NotADirectory(base))
    else
      var walked := Walk(disk, base);
      WalkBelow(disk, base);
      Ok(Matches(disk, base, walked, pattern))
  }

  // ---------------------------------------------------------------------------
  // upload_file

  /** `parent_dir.mkdir(parents=True, exist_ok=True)` when the parent of
      `full` does not exist yet. */
  function EnsureParent(disk: Disk, full: Path): (r: Result<Disk>)
    requires WellFormed(disk) && ValidPath(full)
    ensures r.Ok? ==> WellFormed(r.value) && (full == [] || Parent(full) in r.value)
    ensures r.Ok? ==> forall q | q in disk :: q in r.value && (disk[q].File? ==> r.value[q] == disk[q])
  {
    var parent := if full == [] then [] else Parent(full);
    assert DirsAlong(disk, parent, 0) && ValidPath(parent) && parent[..|parent|] == parent;
    if parent in disk then Ok(disk) else MakeDirs(disk, parent, 0)
  }

  /** Writing `bytes` at `full` once its parent exists: a directory cannot be
      overwritten and a file cannot hold children; any other target is created
      (at the end of its parent's listing) or replaced. */
  function Write(disk: Disk, full: Path, bytes: seq<byte>): (Result<()>, Disk)
    requires WellFormed(disk) && ValidPath(full) && (full == [] || Parent(full) in disk)
  {
    if full in disk then
      if disk[full].Dir? then (Err(IsADirectory(full)), disk) else (Ok(()), disk[full := File(bytes)])
    else if disk[Parent(full)].File? then (Err(NotADirectory(full)), disk)
    else (Ok(()), AddChild(disk, Parent(full), Last(full), File(bytes)))
  }

  /** `upload_file`: validate, create the parent directory if it is missing,
      decode, then write. Returns the call's outcome and the filesystem
      afterwards; a decoding failure comes after the parent was created. */
  function UploadOutcome(disk: Disk, base: Path, input: string, decoded: Result<seq<byte>>): (Result<()>, Disk)
    requires WellFormed(disk) && ValidPath(base)
  {
    match ValidatePath(base, input)
    case Err(e) => (Err(e), disk)
    case Ok(full) =>
      match EnsureParent(disk, full)
      case Err(e) => (Err(e), disk)
      case Ok(d1) =>
        match decoded
        case Err(e) => (Err(e), d1)
        case Ok(bytes) => Write(d1, full, bytes)
  }

  /** The loop of `list_directory` over the children `names` of `full`: each
      child's path is made relative to the base, which raises on the first
      child when `full` does not lie under it. */
  method IterEntries(disk: Disk, base: Path, full: Path, names: seq<string>) returns (r: Result<seq<Entry>>)
    requires forall k | 0 <= k < |names| :: full + [names[k]] in disk
    requires forall k | 0 <= k < |names| :: IsPrefix(base, full + [names[k]]) == IsPrefix(base, full)
    ensures names == [] ==> r == Ok([])
    ensures names != [] && !IsPrefix(base, full) ==> r == Err(NotInSubpath(full + [names[0]], base))
    ensures IsPrefix(base, full) ==> r == Ok(EntriesOf(disk, base, full, names))
  {
    var items: seq<Entry> := [];
    var i := 0;
    while i < |names|
      invariant 0 <= i <= |names|
      invariant !IsPrefix(base, full) ==> i == 0 && items == []
      invariant IsPrefix(base, full) ==> items == EntriesOf(disk, base, full, names[..i])
    {
      var item := full + [names[i]];
      var rel := RelativeTo(item, base);
      if rel.Err? {
        return Err(rel.error);
      }
      var node := disk[item];
      var entry := Entry(names[i], RelString(rel.value),
                         if node.Dir? then DirectoryKind else FileKind,
                         if node.File? then Some(|node.content|) else None);
      assert entry == EntryOf(disk, base, item) by {
        assert Last(item) == names[i] && rel.value == item[|base|..];
      }
      EntriesOfSnoc(disk, base, full, names, i);
      items := items + [entry];
      i := i + 1;
    }
    assert names[..i] == names;
    return Ok(items);
  }

  // ---------------------------------------------------------------------------
  // The manager object

  class FileSystemManager {
    const basePath: Path
    var disk: Disk

    ghost predicate Valid()
      reads this
    {
      WellFormed(disk) && ValidPath(basePath) && basePath in disk
    }

    constructor Init(base: Path, d: Disk)
      requires WellFormed(d) && ValidPath(base) && base in d
      ensures Valid() && basePath == base && disk == d
    {
      basePath := base;
      disk := d;
    }

    /** `FileSystemManager(base_path)`: the base is resolved against the
        working directory and created, with its parents, when absent. */
    static method Open(d: Disk, cwd: Path, input: string) returns (r: Result<FileSystemManager>)
      requires WellFormed(d) && ValidPath(cwd)
      ensures r.Ok? ==> fresh(r.value) && r.value.Valid() && r.value.basePath == Resolve(cwd, input)
      ensures r.Ok? && Resolve(cwd, input) in d ==> r.value.disk == d
      ensures r.Ok? && Resolve(cwd, input) !in d ==> MakeDirs(d, Resolve(cwd, input), 0) == Ok(r.value.disk)
      ensures r.Err? <==> Resolve(cwd, input) !in d && MakeDirs(d, Resolve(cwd, input), 0).Err?
    {
      var base := Resolve(cwd, input);
      var disk := d;
      if base !in d {
        assert DirsAlong(d, base, 0);
        var made := MakeDirs(d, base, 0);
        if made.Err? {
          return Err(made.error);
        }
        disk := made.value;
        assert base[..|base|] == base;
      }
      var m := new FileSystemManager.Init(base, disk);
      return Ok(m);
    }

    method ReadFile(input: string, guess: string -> Option<string>) returns (r: Result<FileRead>)
      requires Valid()
      ensures r == ReadResult(disk, basePath, input, guess)
    {
      var full :- ValidatePath(basePath, input);
      if !(full in disk && disk[full].File?) {
        return Err("File not found: " + input);
      }
      var mime := guess(PathString(full));
      return Ok(FileRead(disk[full].content, if mime.Some? then mime.value else "text/plain"));
    }

    method ListDirectory(input: string) returns (r: Result<seq<Entry>>)
      requires Valid()
      ensures r == Listing(disk, basePath, input)
    {
      var full :- ValidatePath(basePath, input);
      if !(full in disk && disk[full].Dir?) {
        return Err("Not a directory: " + input);
      }
      var names := disk[full].children;
      ChildUnderBase(basePath, full, input);
      r := IterEntries(disk, basePath, full, names);
    }

    /** `_walk_async`. The source iterates `asyncio.to_thread(os.scandir, ...)`
        with `async for`, which Python refuses at run time because a coroutine
        is not an async iterable; this is the evident intent: one `scandir`,
        split into files and directories, files first. */
    method WalkAsync(d: Path) returns (paths: seq<Path>)
      requires Valid() && IsDir(disk, d)
      ensures paths == Walk(disk, d)
      decreases |Below(disk, d)|
    {
      var files, dirs := ScanDir(d);
      paths := files;
      var j := 0;
      while j < |dirs|
        invariant 0 <= j <= |dirs|
        invariant paths == files + WalkEach(disk, d, dirs[..j])
      {
        BelowShrinks(disk, d, dirs[j]);
        var sub := WalkAsync(dirs[j]);
        WalkEachSnoc(disk, d, dirs, j);
        paths := paths + sub;
        j := j + 1;
      }
      assert dirs[..j] == dirs;
    }

    /** One `scandir` of `d`, split into its files and its subdirectories. */
    method ScanDir(d: Path) returns (files: seq<Path>, dirs: seq<Path>)
      requires Valid() && IsDir(disk, d)
      ensures files == FilesOf(disk, d, disk[d].children)
      ensures dirs == DirsOf(disk, d, disk[d].children)
    {
      var names := disk[d].children;
      files, dirs := [], [];
      var i := 0;
      while i < |names|
        invariant 0 <= i <= |names|
        invariant files == FilesOf(disk, d, names[..i])
        invariant dirs == DirsOf(disk, d, names[..i])
      {
        var entry := d + [names[i]];
        assert names[..i + 1][..i] == names[..i];
        if disk[entry].Dir? {
          dirs := dirs + [entry];
        } else {
          files := files + [entry];
        }
        i := i + 1;
      }
      assert names[..i] == names;
    }

    method SearchFiles(pattern: string) returns (r: Result<seq<Match>>)
      requires Valid()
      ensures r == SearchResults(disk, basePath, pattern)
    {
      if !(basePath in disk && disk[basePath].Dir?) {
        return Err(NotADirectory(basePath));
      }
      var walked := WalkAsync(basePath);
      WalkBelow(disk, basePath);
      var results := IterMatches(disk, basePath, walked, pattern);
      return Ok(results);
    }

    method WriteBytes(full: Path, bytes: seq<byte>) returns (r: Result<()>)
      requires Valid() && ValidPath(full) && (full == [] || Parent(full) in disk)
      modifies this
      ensures Valid()
      ensures (r, disk) == Write(old(disk), full, bytes)
    {
      if full in disk {
        if disk[full].Dir? {
          return Err(IsADirectory(full));
        }
        disk := disk[full := File(bytes)];
      } else {
        var parent, name := full[..|full| - 1], full[|full| - 1];
        if disk[parent].File? {
          return Err(NotADirectory(full));
        }
        assert full == parent + [name] && ValidSegment(name);
        AddChildWellFormed(disk, parent, name, File(bytes));
        disk := AddChild(disk, parent, name, File(bytes));
      }
      return Ok(());
    }

    method UploadFile(input: string, b64Content: string, decode: string -> Result<seq<byte>>) returns (r: Result<()>)
      requires Valid()
      modifies this
      ensures Valid()
      ensures (r, disk) == UploadOutcome(old(disk), basePath, input, decode(b64Content))
    {
      var v := ValidatePath(basePath, input);
      if v.Err? {
        return Err(v.error);
      }
      var full := v.value;
      var made := EnsureParent(disk, full);
      if made.Err? {
        return Err(made.error);
      }
      disk := made.value;
      var decoded := decode(b64Content);
      if decoded.Err? {
        return Err(decoded.error);
      }
      r := WriteBytes(full, decoded.value);
    }
  }

  // ---------------------------------------------------------------------------
  // Properties

  /** A validated directory's children lie under the base exactly when the
      directory does (the child can never be the base itself). */
  lemma ChildUnderBase(base: Path, full: Path, input: string)
    requires ValidPath(base) && ValidatePath(base, input) == Ok(full)
    ensures forall c :: IsPrefix(base, full + [c]) <==> IsPrefix(base, full)
  {
    ValidatePathAccepts(base, input);
    forall c ensures IsPrefix(base, full + [c]) <==> IsPrefix(base, full) {
      if IsPrefix(base, full) {
        assert (full + [c])[..|base|] == full[..|base|];
      }
      if IsPrefix(base, full + [c]) && |base| <= |full| {
        assert full[..|base|] == (full + [c])[..|base|];
      }
    }
  }

  /** Every walked path is a file strictly below the walk's start. */
  lemma {:induction false} WalkBelow(disk: Disk, d: Path)
    requires WellFormed(disk) && IsDir(disk, d)
    ensures forall k | 0 <= k < |Walk(disk, d)| ::
      IsFile(disk, Walk(disk, d)[k]) && |Walk(disk, d)[k]| > |d| && IsPrefix(d, Walk(disk, d)[k])
    decreases |Below(disk, d)|, 1, 0
  {
    var names := disk[d].children;
    WalkEachBelow(disk, d, DirsOf(disk, d, names));
  }

  lemma {:induction false} WalkEachBelow(disk: Disk, d: Path, dirs: seq<Path>)
    requires WellFormed(disk) && IsDir(disk, d)
    requires forall k | 0 <= k < |dirs| :: IsDir(disk, dirs[k]) && |dirs[k]| == |d| + 1 && dirs[k][..|d|] == d
    ensures forall k | 0 <= k < |WalkEach(disk, d, dirs)| ::
      IsFile(disk, WalkEach(disk, d, dirs)[k]) && |WalkEach(disk, d, dirs)[k]| > |d| + 1 && IsPrefix(d, WalkEach(disk, d, dirs)[k])
    decreases |Below(disk, d)|, 0, |dirs|
  {
    if dirs != [] {
      var c := dirs[|dirs| - 1];
      BelowShrinks(disk, d, c);
      WalkEachBelow(disk, d, dirs[..|dirs| - 1]);
      WalkBelow(disk, c);
      var w := Walk(disk, c);
      forall k | 0 <= k < |w| ensures IsPrefix(d, w[k]) {
        assert w[k][..|d|] == w[k][..|c|][..|d|];
      }
    }
  }

  /** Every proper prefix of an entry is a directory entry. */
  lemma {:induction false} Ancestor(disk: Disk, q: Path, j: nat)
    requires WellFormed(disk) && q in disk && j <= |q|
    ensures q[..j] in disk
    ensures j < |q| ==> disk[q[..j]].Dir?
    decreases |q| - j
  {
    if j < |q| {
      assert Parent(q) in disk && disk[Parent(q)].Dir?;
      if j < |q| - 1 {
        Ancestor(disk, Parent(q), j);
        assert Parent(q)[..j] == q[..j];
      } else {
        assert q[..j] == Parent(q);
      }
    } else {
      assert q[..j] == q;
    }
  }

  lemma {:induction false} InFilesOf(disk: Disk, d: Path, names: seq<string>, i: nat)
    requires forall k | 0 <= k < |names| :: d + [names[k]] in disk
    requires i < |names| && disk[d + [names[i]]].File?
    ensures d + [names[i]] in FilesOf(disk, d, names)
    decreases |names|
  {
    var n := |names| - 1;
    if i < n {
      InFilesOf(disk, d, names[..n], i);
    }
  }

  lemma {:induction false} InDirsOf(disk: Disk, d: Path, names: seq<string>, i: nat)
    requires forall k | 0 <= k < |names| :: d + [names[k]] in disk
    requires i < |names| && disk[d + [names[i]]].Dir?
    ensures d + [names[i]] in DirsOf(disk, d, names)
    decreases |names|
  {
    var n := |names| - 1;
    if i < n {
      InDirsOf(disk, d, names[..n], i);
    }
  }

  lemma {:induction false} InWalkEach(disk: Disk, d: Path, dirs: seq<Path>, k: nat, p: Path)
    requires WellFormed(disk) && IsDir(disk, d)
    requires forall j | 0 <= j < |dirs| :: IsDir(disk, dirs[j]) && |dirs[j]| == |d| + 1 && dirs[j][..|d|] == d
    requires k < |dirs| && p in Walk(disk, dirs[k])
    ensures p in WalkEach(disk, d, dirs)
    decreases |dirs|
  {
    var n := |dirs| - 1;
    if k < n {
      InWalkEach(disk, d, dirs[..n], k, p);
    }
  }

  /** `_walk_async` reaches every file below the directory it starts from. */
  lemma {:induction false} WalkComplete(disk: Disk, d: Path, p: Path)
    requires WellFormed(disk) && IsDir(disk, d)
    requires IsFile(disk, p) && |p| > |d| && IsPrefix(d, p)
    ensures p in Walk(disk, d)
    decreases |p| - |d|
  {
    var names := disk[d].children;
    var c := p[..|d| + 1];
    Ancestor(disk, p, |d| + 1);
    assert Parent(c) == d;
    var i :| 0 <= i < |names| && names[i] == Last(c);
    assert c == d + [names[i]];
    if |p| == |d| + 1 {
      assert c == p;
      InFilesOf(disk, d, names, i);
    } else {
      var dirs := DirsOf(disk, d, names);
      InDirsOf(disk, d, names, i);
      var k :| 0 <= k < |dirs| && dirs[k] == c;
      assert p[..|c|] == c;
      WalkComplete(disk, c, p);
      InWalkEach(disk, d, dirs, k, p);
    }
  }

  /** A walk lists the directory's own files before anything found deeper:
      once a deeper file appears, no direct child follows. */
  lemma WalkFilesFirst(disk: Disk, d: Path)
    requires WellFormed(disk) && IsDir(disk, d)
    ensures forall i, j | 0 <= i < j < |Walk(disk, d)| && |Walk(disk, d)[i]| > |d| + 1 ::
      |Walk(disk, d)[j]| > |d| + 1
  {
    var names := disk[d].children;
    WalkEachBelow(disk, d, DirsOf(disk, d, names));
  }

  /** The matches are exactly the walked paths whose name contains the pattern. */
  lemma MatchesExactly(disk: Disk, base: Path, walked: seq<Path>, pattern: string)
    requires forall k | 0 <= k < |walked| :: walked[k] in disk && walked[k] != [] && IsPrefix(base, walked[k])
    ensures forall m :: m in Matches(disk, base, walked, pattern) <==>
      exists k :: 0 <= k < |walked| && NameMatches(Last(walked[k]), pattern) && m == MatchOf(disk, base, walked[k])
  {
    forall m ensures m in Matches(disk, base, walked, pattern) <==>
      exists k :: 0 <= k < |walked| && NameMatches(Last(walked[k]), pattern) && m == MatchOf(disk, base, walked[k])
    {
      if m in Matches(disk, base, walked, pattern) {
        MatchSound(disk, base, walked, pattern, m);
      }
      if exists k :: 0 <= k < |walked| && NameMatches(Last(walked[k]), pattern) && m == MatchOf(disk, base, walked[k]) {
        var k :| 0 <= k < |walked| && NameMatches(Last(walked[k]), pattern) && m == MatchOf(disk, base, walked[k]);
        MatchComplete(disk, base, walked, pattern, k);
      }
    }
  }

  /** Every match comes from a walked path whose name matches. */
  lemma {:induction false} MatchSound(disk: Disk, base: Path, walked: seq<Path>, pattern: string, m: Match)
    requires forall k | 0 <= k < |walked| :: walked[k] in disk && walked[k] != [] && IsPrefix(base, walked[k])
    requires m in Matches(disk, base, walked, pattern)
    ensures exists k :: 0 <= k < |walked| && NameMatches(Last(walked[k]), pattern) && m == MatchOf(disk, base, walked[k])
    decreases |walked|
  {
    var n := |walked| - 1;
    if m in Matches(disk, base, walked[..n], pattern) {
      MatchSound(disk, base, walked[..n], pattern, m);
      var k :| 0 <= k < n && NameMatches(Last(walked[..n][k]), pattern) && m == MatchOf(disk, base, walked[..n][k]);
      assert walked[..n][k] == walked[k];
    } else {
      assert NameMatches(Last(walked[n]), pattern) && m == MatchOf(disk, base, walked[n]);
    }
  }

  /** Every walked path whose name matches is reported. */
  lemma {:induction false} MatchComplete(disk: Disk, base: Path, walked: seq<Path>, pattern: string, k: nat)
    requires forall j | 0 <= j < |walked| :: walked[j] in disk && walked[j] != [] && IsPrefix(base, walked[j])
    requires k < |walked| && NameMatches(Last(walked[k]), pattern)
    ensures MatchOf(disk, base, walked[k]) in Matches(disk, base, walked, pattern)
    decreases |walked|
  {
    var n := |walked| - 1;
    if k < n {
      assert walked[..n][k] == walked[k];
      MatchComplete(disk, base, walked[..n], pattern, k);
    }
  }

  /** `search_files` finds exactly the files below the base whose name
      contains the pattern, ignoring ASCII case, and reports each as a file. */
  lemma SearchFindsExactly(disk: Disk, base: Path, pattern: string)
    requires WellFormed(disk) && ValidPath(base) && IsDir(disk, base)
    ensures SearchResults(disk, base, pattern).Ok?
    ensures forall m :: m in SearchResults(disk, base, pattern).value <==>
      exists p :: Findable(disk, base, pattern, p) && m == MatchOf(disk, base, p)
    ensures forall m | m in SearchResults(disk, base, pattern).value :: m.kind == FileKind
  {
    var walked := Walk(disk, base);
    WalkBelow(disk, base);
    MatchesExactly(disk, base, walked, pattern);
    var found := SearchResults(disk, base, pattern).value;
    forall m ensures m in found <==> exists p :: Findable(disk, base, pattern, p) && m == MatchOf(disk, base, p) {
      if exists p :: Findable(disk, base, pattern, p) && m == MatchOf(disk, base, p) {
        var p :| Findable(disk, base, pattern, p) && m == MatchOf(disk, base, p);
        WalkComplete(disk, base, p);
        var k :| 0 <= k < |walked| && walked[k] == p;
      }
    }
  }

  lemma {:induction false} MatchesAll(disk: Disk, base: Path, walked: seq<Path>)
    requires forall k | 0 <= k < |walked| :: walked[k] in disk && walked[k] != [] && IsPrefix(base, walked[k])
    ensures Matches(disk, base, walked, "") == seq(|walked|, k requires 0 <= k < |walked| => MatchOf(disk, base, walked[k]))
    decreases |walked|
  {
    if walked != [] {
      var n := |walked| - 1;
      MatchesAll(disk, base, walked[..n]);
      assert NameMatches(Last(walked[n]), "") by {
        assert StartsWith(Lower(Last(walked[n])), Lower(""));
      }
    }
  }

  /** An empty pattern matches every file the walk finds, in walk order. */
  lemma EmptyPatternFindsAll(disk: Disk, base: Path)
    requires WellFormed(disk) && ValidPath(base) && IsDir(disk, base)
    ensures |SearchResults(disk, base, "").value| == |Walk(disk, base)|
    ensures forall k | 0 <= k < |Walk(disk, base)| :: |Walk(disk, base)[k]| > |base|
    ensures forall k | 0 <= k < |Walk(disk, base)| ::
      && SearchResults(disk, base, "").value[k].name == Last(Walk(disk, base)[k])
      && SearchResults(disk, base, "").value[k].path == RelString(Walk(disk, base)[k][|base|..])
  {
    WalkBelow(disk, base);
    MatchesAll(disk, base, Walk(disk, base));
  }

  lemma {:induction false} MatchesIgnoreCase(disk: Disk, base: Path, walked: seq<Path>, pattern: string)
    requires forall k | 0 <= k < |walked| :: walked[k] in disk && walked[k] != [] && IsPrefix(base, walked[k])
    ensures Matches(disk, base, walked, Upper(pattern)) == Matches(disk, base, walked, pattern)
    decreases |walked|
  {
    if walked != [] {
      MatchesIgnoreCase(disk, base, walked[..|walked| - 1], pattern);
      LowerUpper(pattern);
    }
  }

  /** Upper-casing the pattern changes nothing: the comparison folds case on both sides. */
  lemma SearchIgnoresCase(disk: Disk, base: Path, pattern: string)
    requires WellFormed(disk) && ValidPath(base)
    ensures SearchResults(disk, base, Upper(pattern)) == SearchResults(disk, base, pattern)
  {
    if IsDir(disk, base) {
      WalkBelow(disk, base);
      MatchesIgnoreCase(disk, base, Walk(disk, base), pattern);
    }
  }

  /** Each listed entry carries its own name, a relative path that resolves
      back to it, the right type, and a size exactly for files. */
  lemma ListingEntries(disk: Disk, base: Path, input: string)
    requires WellFormed(disk) && ValidPath(base) && Listing(disk, base, input).Ok?
    ensures ValidatePath(base, input).Ok? && IsDir(disk, ValidatePath(base, input).value)
    ensures var full, items := ValidatePath(base, input).value, Listing(disk, base, input).value;
      var names := disk[full].children;
      && |items| == |names|
      && forall i | 0 <= i < |items| ::
        && items[i].name == names[i]
        && Resolve(base, items[i].path) == full + [names[i]]
        && (items[i].kind == DirectoryKind <==> IsDir(disk, full + [names[i]]))
        && (items[i].size.Some? <==> IsFile(disk, full + [names[i]]))
        && (items[i].size.Some? ==> items[i].size.value == |disk[full + [names[i]]].content|)
  {
    var full, items := ValidatePath(base, input).value, Listing(disk, base, input).value;
    var names := disk[full].children;
    if names != [] {
      assert IsPrefix(base, full);
      ChildrenUnder(base, full, names);
      assert forall k | 0 <= k < |names| :: full + [names[k]] in disk && ValidPath(full + [names[k]]);
      EntriesFacts(disk, base, full, names);
      assert items == EntriesOf(disk, base, full, names);
    } else {
      assert items == [];
    }
  }

  lemma EntriesFacts(disk: Disk, base: Path, full: Path, names: seq<string>)
    requires ValidPath(base) && IsPrefix(base, full)
    requires forall k | 0 <= k < |names| :: full + [names[k]] in disk && ValidPath(full + [names[k]])
    ensures var items := EntriesOf(disk, base, full, names);
      forall i | 0 <= i < |items| ::
        && items[i].name == names[i]
        && Resolve(base, items[i].path) == full + [names[i]]
        && (items[i].kind == DirectoryKind <==> IsDir(disk, full + [names[i]]))
        && (items[i].size.Some? <==> IsFile(disk, full + [names[i]]))
        && (items[i].size.Some? ==> items[i].size.value == |disk[full + [names[i]]].content|)
  {
    ChildrenUnder(base, full, names);
    var items := EntriesOf(disk, base, full, names);
    forall i | 0 <= i < |items|
      ensures && items[i].name == names[i]
              && Resolve(base, items[i].path) == full + [names[i]]
              && (items[i].kind == DirectoryKind <==> IsDir(disk, full + [names[i]]))
              && (items[i].size.Some? <==> IsFile(disk, full + [names[i]]))
              && (items[i].size.Some? ==> items[i].size.value == |disk[full + [names[i]]].content|)
    {
      var p := full + [names[i]];
      assert Last(p) == names[i];
      EntryFacts(disk, base, p);
    }
  }

  lemma ChildrenUnder(base: Path, full: Path, names: seq<string>)
    requires IsPrefix(base, full)
    ensures forall k | 0 <= k < |names| :: IsPrefix(base, full + [names[k]])
  {
    forall k | 0 <= k < |names| ensures IsPrefix(base, full + [names[k]]) {
      assert (full + [names[k]])[..|base|] == full[..|base|];
    }
  }

  /** One entry: its name, a relative path that resolves back to it, its
      type, and a size exactly for files. */
  lemma EntryFacts(disk: Disk, base: Path, p: Path)
    requires ValidPath(base) && ValidPath(p) && p in disk && p != [] && IsPrefix(base, p)
    ensures var e := EntryOf(disk, base, p);
      && e.name == Last(p)
      && Resolve(base, e.path) == p
      && (e.kind == DirectoryKind <==> IsDir(disk, p))
      && (e.size.Some? <==> IsFile(disk, p))
      && (e.size.Some? ==> e.size.value == |disk[p].content|)
  {
    assert ValidPath(p[|base|..]) by {
      assert forall k | 0 <= k < |p| - |base| :: p[|base|..][k] == p[|base| + k];
    }
    ResolveRelString(base, p[|base|..]);
    assert base + p[|base|..] == p;
  }

  /** A listing of a prefix sibling fails as soon as the directory has an entry. */
  lemma SiblingListingFails(disk: Disk)
    requires WellFormed(disk) && ["srv", "data"] in disk
    requires IsDir(disk, ["srv", "data2"]) && disk[["srv", "data2"]].children == ["x"]
    ensures Listing(disk, ["srv", "data"], "../data2")
      == Err(NotInSubpath(["srv", "data2", "x"], ["srv", "data"]))
  {
    SiblingDirAccepted();
    assert ["srv", "data2"] + ["x"] == ["srv", "data2", "x"];
  }

  /** Reading through a prefix sibling succeeds: the file lies outside the base. */
  lemma SiblingReadEscapes(disk: Disk, guess: string -> Option<string>)
    requires IsFile(disk, ["srv", "data2", "x"])
    ensures ReadResult(disk, ["srv", "data"], "../data2/x", guess).Ok?
    ensures !IsPrefix(["srv", "data"], ["srv", "data2", "x"])
  {
    SiblingEscapes();
  }

  /** A path that fails validation never reaches the filesystem. */
  lemma UploadRejectedChangesNothing(disk: Disk, base: Path, input: string, decoded: Result<seq<byte>>)
    requires WellFormed(disk) && ValidPath(base) && ValidatePath(base, input).Err?
    ensures UploadOutcome(disk, base, input, decoded) == (Err(AccessDenied), disk)
  {
  }

  /** `mkdir(parents=True)` fails exactly when an entry along the way is a file. */
  lemma MakeDirsFailsIff(disk: Disk, p: Path)
    requires WellFormed(disk) && ValidPath(p) && DirsAlong(disk, p, 0)
    ensures MakeDirs(disk, p, 0).Err? <==> exists j :: 0 < j <= |p| && IsFile(disk, p[..j])
  {
    var r := MakeDirs(disk, p, 0);
    if r.Ok? {
      forall j | 0 < j <= |p| ensures !IsFile(disk, p[..j]) {
        assert IsDir(r.value, p[..j]);
      }
    }
  }

  /** With content that decodes, an accepted upload succeeds exactly when the
      target is not a directory and no entry above it is a file. */
  lemma UploadSucceedsIff(disk: Disk, base: Path, input: string, bytes: seq<byte>)
    requires WellFormed(disk) && ValidPath(base) && ValidatePath(base, input).Ok?
    ensures var full := ValidatePath(base, input).value;
      UploadOutcome(disk, base, input, Ok(bytes)).0.Ok? <==>
        !IsDir(disk, full) && forall j | 0 <= j < |full| :: !IsFile(disk, full[..j])
  {
    var full := ValidatePath(base, input).value;
    assert UploadOutcome(disk, base, input, Ok(bytes)).0.Ok? <==>
      EnsureParent(disk, full).Ok? && Write(EnsureParent(disk, full).value, full, bytes).0.Ok?;
    if full != [] && Parent(full) in disk {
      assert EnsureParent(disk, full) == Ok(disk);
      WriteSucceedsIff(disk, full, bytes);
    } else if full != [] {
      MakeParentThenWrite(disk, full, bytes);
    }
  }

  /** Into an existing parent, a write succeeds exactly when the target is not
      a directory and no entry above it is a file. */
  lemma WriteSucceedsIff(disk: Disk, full: Path, bytes: seq<byte>)
    requires WellFormed(disk) && ValidPath(full) && full != [] && Parent(full) in disk
    ensures Write(disk, full, bytes).0.Ok? <==>
      !IsDir(disk, full) && forall j | 0 <= j < |full| :: !IsFile(disk, full[..j])
  {
    var parent := Parent(full);
    assert forall j | 0 <= j <= |parent| :: full[..j] == parent[..j];
    if full in disk {
      forall j | 0 <= j < |full| ensures !IsFile(disk, full[..j]) {
        Ancestor(disk, full, j);
      }
    } else if disk[parent].Dir? {
      forall j | 0 <= j < |full| ensures !IsFile(disk, full[..j]) {
        Ancestor(disk, parent, j);
      }
    } else {
      assert full[..|full| - 1] == parent;
    }
  }

  /** Without a parent, the upload first creates it: that fails exactly when an
      entry above the target is a file, and the write then succeeds. */
  lemma MakeParentThenWrite(disk: Disk, full: Path, bytes: seq<byte>)
    requires WellFormed(disk) && ValidPath(full) && full != [] && Parent(full) !in disk
    ensures !IsDir(disk, full)
    ensures EnsureParent(disk, full).Ok? && Write(EnsureParent(disk, full).value, full, bytes).0.Ok? <==>
      forall j | 0 <= j < |full| :: !IsFile(disk, full[..j])
  {
    var parent := Parent(full);
    assert forall j | 0 <= j <= |parent| :: full[..j] == parent[..j];
    assert DirsAlong(disk, parent, 0);
    MakeDirsFailsIff(disk, parent);
    assert full !in disk;
    var made := MakeDirs(disk, parent, 0);
    assert EnsureParent(disk, full) == made;
    if made.Ok? {
      assert full !in made.value;
      assert parent[..|parent|] == parent && IsDir(made.value, parent);
    }
  }

  /** An upload only succeeds once the content decoded. */
  lemma UploadNeedsDecoded(disk: Disk, base: Path, input: string, decoded: Result<seq<byte>>)
    requires WellFormed(disk) && ValidPath(base)
    requires UploadOutcome(disk, base, input, decoded).0.Ok?
    ensures decoded.Ok? && decoded == Ok(decoded.value)
  {
  }

  /** Reading back what an upload wrote gives the uploaded bytes. */
  lemma UploadThenRead(disk: Disk, base: Path, input: string, bytes: seq<byte>, guess: string -> Option<string>)
    requires WellFormed(disk) && ValidPath(base)
    requires UploadOutcome(disk, base, input, Ok(bytes)).0.Ok?
    ensures ValidatePath(base, input).Ok?
    ensures ReadResult(UploadOutcome(disk, base, input, Ok(bytes)).1, base, input, guess)
      == Ok(FileRead(bytes, guess(PathString(ValidatePath(base, input).value)).GetOr("text/plain")))
  {
    var full := ValidatePath(base, input).value;
    WriteStores(EnsureParent(disk, full).value, full, bytes);
  }

  lemma WriteStores(disk: Disk, full: Path, bytes: seq<byte>)
    requires WellFormed(disk) && ValidPath(full) && (full == [] || Parent(full) in disk)
    requires Write(disk, full, bytes).0.Ok?
    ensures IsFile(Write(disk, full, bytes).1, full) && Write(disk, full, bytes).1[full].content == bytes
  {
    if full !in disk {
      assert full == Parent(full) + [Last(full)];
    }
  }

  /** Writing keeps the tree consistent, deletes nothing and touches no other file. */
  lemma WriteFrame(disk: Disk, full: Path, bytes: seq<byte>)
    requires WellFormed(disk) && ValidPath(full) && (full == [] || Parent(full) in disk)
    ensures WellFormed(Write(disk, full, bytes).1)
    ensures forall q | q in disk :: q in Write(disk, full, bytes).1
    ensures forall q | IsFile(disk, q) && q != full :: Write(disk, full, bytes).1[q] == disk[q]
  {
    if full !in disk && disk[Parent(full)].Dir? {
      assert full == Parent(full) + [Last(full)] && ValidSegment(Last(full));
      AddChildWellFormed(disk, Parent(full), Last(full), File(bytes));
    }
  }

  /** An upload keeps the tree consistent, deletes nothing, and leaves every
      file other than its target as it was; a decoding failure changes no file. */
  lemma UploadFrame(disk: Disk, base: Path, input: string, decoded: Result<seq<byte>>)
    requires WellFormed(disk) && ValidPath(base)
    ensures var after := UploadOutcome(disk, base, input, decoded).1;
      && WellFormed(after)
      && (forall q | q in disk :: q in after)
      && (forall q | IsFile(disk, q) && ValidatePath(base, input) != Ok(q) :: after[q] == disk[q])
      && (decoded.Err? ==> forall q | IsFile(disk, q) :: after[q] == disk[q])
  {
    if ValidatePath(base, input).Ok? {
      var full := ValidatePath(base, input).value;
      var made := EnsureParent(disk, full);
      if made.Ok? && decoded.Ok? {
        WriteFrame(made.value, full, decoded.value);
      }
    }
  }
}
