/** storm_mcp_server/tools/tool_upload_file.py: an MCP file server over one
    `FileSystemManager`, exposing its top-level entries as `file:///`
    resources and offering an `upload_file` and a `search_files` tool. */
module FileServer {
  import opened Wrappers
  import opened Strings
  import opened Json
  import opened Paths
  import opened FileManager
  import opened Registry
  import StormHandlers

  /** An MCP `Resource`. */
  datatype Resource = Resource(uri: string, name: string, mimeType: string, description: string)

  const UriPrefix: string := "file:///"

  /** The resource for one listed entry: directories get `inode/directory`,
      files the guessed type of their name or text/plain. */
  function ResourceOf(e: Entry, guess: string -> Option<string>): Resource {
    Resource(
      UriPrefix + e.path,
      e.name,
      if e.kind == DirectoryKind then "inode/directory" else guess(e.name).GetOr("text/plain"),
      (if e.kind == DirectoryKind then "Directory" else "File") + ": " + e.path)
  }

  /** One resource per listed item, in listing order, named by the item's
      path under `file:///`. */
  function ResourcesOf(items: seq<Entry>, guess: string -> Option<string>): (rs: seq<Resource>)
    ensures |rs| == |items|
    ensures forall i | 0 <= i < |items| :: rs[i].uri == UriPrefix + items[i].path && rs[i].name == items[i].name
  {
    seq(|items|, i requires 0 <= i < |items| => ResourceOf(items[i], guess))
  }

  /** `uri.replace("file:///", "")`, the path `read_resource` reads. */
  function UriPath(uri: string): string {
    ReplaceAll(uri, UriPrefix, "")
  }

  /** `read_resource`: the content of the file the URI names, its type dropped. */
  function ResourceContent(disk: Disk, base: Path, uri: string, guess: string -> Option<string>): Result<seq<byte>>
    requires ValidPath(base)
  {
    var f :- ReadResult(disk, base, UriPath(uri), guess);
    Ok(f.content)
  }

  // ---------------------------------------------------------------------------
  // Tools

  const UploadToolDef := ToolDef(
    "upload_file",
    "파일 업로드(Base64 인코딩된 컨텐츠)",
    Schema(
      [ Property("path", StringArg, "업로드할 파일 경로(서버 내)"),
        Property("fileContent", StringArg, "Base64 인코딩된 파일 내용") ],
      ["path", "fileContent"]))

  const SearchToolDef := ToolDef(
    "search_files",
    "파일 검색",
    Schema([Property("pattern", StringArg, "검색할 키워드")], ["pattern"]))

  /** `list_tools`: the two tools, upload first. */
  function ListTools(): (tools: seq<Tool>)
    ensures ToolNames(tools) == ["upload_file", "search_files"]
    ensures tools[0].inputSchema == UploadToolDef.inputSchema && tools[1].inputSchema == SearchToolDef.inputSchema
  {
    [ Tool(UploadToolDef.name, UploadToolDef.description, UploadToolDef.inputSchema),
      Tool(SearchToolDef.name, SearchToolDef.description, SearchToolDef.inputSchema) ]
  }

  /** `args[key]` on a dict without the key raises `KeyError`, whose text is the quoted key. */
  function KeyError(key: string): string {
    "'" + key + "'"
  }

  /** `base_path / path` with a non-string operand. */
  function BadOperand(v: Value): string {
    "unsupported operand type(s) for /: 'PosixPath' and '" + TypeName(v) + "'"
  }

  function Uploaded(path: string): string {
    "File uploaded successfully: " + path
  }

  const NoFilesFound: string := "No files found"

  /** One line per match, `[type] path`, or the fixed text when nothing matched. */
  function SearchText(matches: seq<Match>): string {
    if matches == [] then NoFilesFound
    else Join(seq(|matches|, i requires 0 <= i < |matches| => "[" + KindName(matches[i].kind) + "] " + matches[i].path), "\n")
  }

  /** The `upload_file` branch: both arguments are looked up first, then the
      upload runs with whatever `fileContent` holds handed to `b64decode`. */
  function UploadToolOutcome(disk: Disk, base: Path, args: map<string, Value>,
                             decode: string -> Result<seq<byte>>): (Result<string>, Disk)
    requires WellFormed(disk) && ValidPath(base)
  {
    if "path" !in args then (Err(KeyError("path")), disk)
    else if "fileContent" !in args then (Err(KeyError("fileContent")), disk)
    else if !args["path"].Str? then (Err(BadOperand(args["path"])), disk)
    else
      var path := args["path"].s;
      var (r, after) := UploadOutcome(disk, base, path, StormHandlers.B64Decode(args["fileContent"], decode));
      (if r.Ok? then Ok(Uploaded(path)) else Err(r.error), after)
  }

  /** The `search_files` branch: a non-string pattern fails on its first use,
      so only when the walk produces a path. */
  function SearchToolOutcome(disk: Disk, base: Path, args: map<string, Value>): Result<string>
    requires WellFormed(disk) && ValidPath(base)
  {
    if "pattern" !in args then Err(KeyError("pattern"))
    else if args["pattern"].Str? then
      var found :- SearchResults(disk, base, args["pattern"].s);
      Ok(SearchText(found))
    else if !IsDir(disk, base) then Err(NotADirectory(base))
    else if Walk(disk, base) == [] then Ok(NoFilesFound)
    else Err(NoAttribute(args["pattern"], "lower"))
  }

  /** `call_tool`: the text it returns (or the error it raises) and the
      filesystem afterwards. */
  function ToolOutcome(disk: Disk, base: Path, name: string, args: map<string, Value>,
                       decode: string -> Result<seq<byte>>): (Result<string>, Disk)
    requires WellFormed(disk) && ValidPath(base)
  {
    if name == "upload_file" then UploadToolOutcome(disk, base, args, decode)
    else if name == "search_files" then (SearchToolOutcome(disk, base, args), disk)
    else (Err("Unknown tool: " + name), disk)
  }

  // ---------------------------------------------------------------------------
  // The server object

  class FileServer {
    const fs: FileSystemManager

    ghost predicate Valid()
      reads this, fs
    {
      fs.Valid()
    }

    constructor (manager: FileSystemManager)
      requires manager.Valid()
      ensures Valid() && fs == manager
    {
      fs := manager;
    }

    /** `list_resources`: one resource per entry of the base directory. */
    method ListResources(guess: string -> Option<string>) returns (r: Result<seq<Resource>>)
      requires Valid()
      ensures r.Ok? <==> Listing(fs.disk, fs.basePath, "").Ok?
      ensures r.Ok? ==> r.value == ResourcesOf(Listing(fs.disk, fs.basePath, "").value, guess)
      ensures r.Err? ==> r.error == Listing(fs.disk, fs.basePath, "").error
    {
      var items :- fs.ListDirectory("");
      return Ok(ResourcesOf(items, guess));
    }

    /** `read_resource`. */
    method ReadResource(uri: string, guess: string -> Option<string>) returns (r: Result<seq<byte>>)
      requires Valid()
      ensures r == ResourceContent(fs.disk, fs.basePath, uri, guess)
    {
      var path := ReplaceAll(uri, UriPrefix, "");
      var f :- fs.ReadFile(path, guess);
      return Ok(f.content);
    }

    /** `call_tool`. */
    method CallTool(name: string, args: map<string, Value>, decode: string -> Result<seq<byte>>) returns (r: Result<string>)
      requires Valid()
      modifies fs
      ensures Valid()
      ensures (r, fs.disk) == ToolOutcome(old(fs.disk), fs.basePath, name, args, decode)
    {
      if name == "upload_file" {
        if "path" !in args {
          return Err(KeyError("path"));
        }
        if "fileContent" !in args {
          return Err(KeyError("fileContent"));
        }
        var path, content := args["path"], args["fileContent"];
        if !path.Str? {
          return Err(BadOperand(path));
        }
        // `b64decode` receives the argument as it is, string or not.
        var b64decode := (s: string) => StormHandlers.B64Decode(content, decode);
        var uploaded := fs.UploadFile(path.s, "", b64decode);
        if uploaded.Err? {
          return Err(uploaded.error);
        }
        return Ok(Uploaded(path.s));
      } else if name == "search_files" {
        if "pattern" !in args {
          return Err(KeyError("pattern"));
        }
        var pattern := args["pattern"];
        if pattern.Str? {
          var found :- fs.SearchFiles(pattern.s);
          return Ok(SearchText(found));
        }
        if !(fs.basePath in fs.disk && fs.disk[fs.basePath].Dir?) {
          return Err(NotADirectory(fs.basePath));
        }
        var walked := fs.WalkAsync(fs.basePath);
        if walked == [] {
          return Ok(NoFilesFound);
        }
        return Err(NoAttribute(pattern, "lower"));
      }
      return Err("Unknown tool: " + name);
    }
  }

  // ---------------------------------------------------------------------------
  // Properties

  /** The two tool schemas are well formed and their names distinct. */
  lemma ToolsWellFormed()
    ensures WellFormedRegistry([UploadToolDef, SearchToolDef])
  {
    assert Names([UploadToolDef, SearchToolDef]) == ["upload_file", "search_files"];
    assert PropertyNames(UploadToolDef.inputSchema.properties) == ["path", "fileContent"];
    assert PropertyNames(SearchToolDef.inputSchema.properties) == ["pattern"];
  }

  /** A file name holds no `/`, so it holds no `file:///` either and the URI
      maps back to the name. */
  lemma UriPathOfSegment(name: string)
    requires ValidSegment(name)
    ensures UriPath(UriPrefix + name) == name
  {
    var s := UriPrefix + name;
    assert s[..|UriPrefix|] == UriPrefix;
    assert s[|UriPrefix|..] == name;
    forall i | 0 <= i && i + |UriPrefix| <= |name| ensures !OccursAt(name, UriPrefix, i) {
      assert name[i..i + |UriPrefix|][5] == name[i + 5];
      assert name[i + 5] in name;
    }
    ReplaceAllAbsent(name, UriPrefix);
  }

  /** The base directory's listing is its children, each under its own name. */
  lemma TopLevelEntries(disk: Disk, base: Path)
    requires WellFormed(disk) && ValidPath(base) && Listing(disk, base, "").Ok?
    ensures ValidatePath(base, "") == Ok(base) && IsDir(disk, base)
    ensures var items := Listing(disk, base, "").value;
      forall i | 0 <= i < |items| ::
        && items[i].path == items[i].name && ValidSegment(items[i].name)
        && Resolve(base, items[i].path) == base + [items[i].name]
        && (items[i].kind == FileKind ==> IsFile(disk, base + [items[i].name]))
  {
    ResolveEmpty(base);
    assert StartsWith(PathString(base), PathString(base));
    ListingEntries(disk, base, "");
    var items := Listing(disk, base, "").value;
    var names := disk[base].children;
    forall i | 0 <= i < |items|
      ensures items[i].path == items[i].name && ValidSegment(items[i].name)
    {
      var p := base + [names[i]];
      assert p in disk && IsPrefix(base, p);
      assert p[|base|..] == [names[i]];
      assert ValidPath(p);
      assert p[|p| - 1] == names[i];
    }
  }

  /** Listing then reading round-trips: the URI of every file among the
      resources reads back that file's content. */
  lemma ListedFileReadsBack(disk: Disk, base: Path, guess: string -> Option<string>, i: nat)
    requires WellFormed(disk) && ValidPath(base) && Listing(disk, base, "").Ok?
    requires i < |Listing(disk, base, "").value|
    requires Listing(disk, base, "").value[i].kind == FileKind
    ensures var items := Listing(disk, base, "").value;
      var p := base + [items[i].name];
      && IsFile(disk, p)
      && ResourceContent(disk, base, ResourcesOf(items, guess)[i].uri, guess) == Ok(disk[p].content)
  {
    var items := Listing(disk, base, "").value;
    TopLevelEntries(disk, base);
    var name := items[i].name;
    var p := base + [name];
    UriPathOfSegment(name);
    assert ResourcesOf(items, guess)[i].uri == UriPrefix + name;
    assert IsPrefix(base, p);
    StringPrefixAdmits(base, p);
  }

  /** A directory's resource URI cannot be read: it names no file. */
  lemma ListedDirectoryUnreadable(disk: Disk, base: Path, guess: string -> Option<string>, i: nat)
    requires WellFormed(disk) && ValidPath(base) && Listing(disk, base, "").Ok?
    requires i < |Listing(disk, base, "").value|
    requires Listing(disk, base, "").value[i].kind == DirectoryKind
    ensures var items := Listing(disk, base, "").value;
      ResourceContent(disk, base, ResourcesOf(items, guess)[i].uri, guess) == Err("File not found: " + items[i].name)
  {
    var items := Listing(disk, base, "").value;
    TopLevelEntries(disk, base);
    ListingEntries(disk, base, "");
    var name := items[i].name;
    var p := base + [name];
    UriPathOfSegment(name);
    assert ResourcesOf(items, guess)[i].uri == UriPrefix + name;
    assert IsPrefix(base, p);
    StringPrefixAdmits(base, p);
  }

  /** Directories are typed `inode/directory` and files never are, unless the
      guess says so; the description names the kind and the path. */
  lemma ResourceKinds(items: seq<Entry>, guess: string -> Option<string>)
    ensures forall i | 0 <= i < |items| ::
      && ResourcesOf(items, guess)[i].name == items[i].name
      && StartsWith(ResourcesOf(items, guess)[i].uri, UriPrefix)
      && (items[i].kind == DirectoryKind ==> ResourcesOf(items, guess)[i].mimeType == "inode/directory")
      && (items[i].kind == FileKind && guess(items[i].name).None? ==> ResourcesOf(items, guess)[i].mimeType == "text/plain")
      && (items[i].kind == FileKind && guess(items[i].name).Some? ==>
            ResourcesOf(items, guess)[i].mimeType == guess(items[i].name).value)
      && (items[i].kind == DirectoryKind ==> ResourcesOf(items, guess)[i].description == "Directory: " + items[i].path)
      && (items[i].kind == FileKind ==> ResourcesOf(items, guess)[i].description == "File: " + items[i].path)
  {
    forall i | 0 <= i < |items| ensures StartsWith(ResourcesOf(items, guess)[i].uri, UriPrefix) {
      assert (UriPrefix + items[i].path)[..|UriPrefix|] == UriPrefix;
    }
  }

  /** "No files found" is returned exactly when nothing matched. */
  lemma NoFilesFoundIffEmpty(matches: seq<Match>)
    ensures SearchText(matches) == NoFilesFound <==> matches == []
  {
    if matches != [] {
      var lines := seq(|matches|, i requires 0 <= i < |matches| => "[" + KindName(matches[i].kind) + "] " + matches[i].path);
      JoinStartsWithFirst(lines, "\n");
      assert lines[0][0] == '[';
      assert SearchText(matches)[0] != NoFilesFound[0];
    }
  }

  /** Each match is one line of the output, when no path holds a line break. */
  lemma SearchTextLines(matches: seq<Match>)
    requires matches != []
    requires forall i | 0 <= i < |matches| :: '\n' !in matches[i].path
    ensures Split(SearchText(matches), '\n')
      == seq(|matches|, i requires 0 <= i < |matches| => "[" + KindName(matches[i].kind) + "] " + matches[i].path)
  {
    var lines := seq(|matches|, i requires 0 <= i < |matches| => "[" + KindName(matches[i].kind) + "] " + matches[i].path);
    forall k | 0 <= k < |lines| ensures '\n' !in lines[k] {
      assert '\n' !in "[" + KindName(matches[k].kind) + "] ";
    }
    SplitJoin(lines, '\n');
  }

  /** A call that lacks an argument its schema requires fails and changes nothing. */
  lemma MissingRequiredRejected(disk: Disk, base: Path, name: string, args: map<string, Value>,
                                decode: string -> Result<seq<byte>>)
    requires WellFormed(disk) && ValidPath(base)
    requires name == "upload_file" || name == "search_files"
    requires exists r :: r in RequiredOf([UploadToolDef, SearchToolDef], name) && r !in args
    ensures ToolOutcome(disk, base, name, args, decode).0.Err?
    ensures ToolOutcome(disk, base, name, args, decode).1 == disk
  {
  }

  /** An unknown tool name is rejected and changes nothing. */
  lemma UnknownToolRejected(disk: Disk, base: Path, name: string, args: map<string, Value>,
                            decode: string -> Result<seq<byte>>)
    requires WellFormed(disk) && ValidPath(base)
    requires name != "upload_file" && name != "search_files"
    ensures ToolOutcome(disk, base, name, args, decode) == (Err("Unknown tool: " + name), disk)
  {
  }

  /** A successful upload had both arguments as strings, decoded its content,
      and reports its path. */
  lemma UploadToolSucceeded(disk: Disk, base: Path, args: map<string, Value>, decode: string -> Result<seq<byte>>)
    requires WellFormed(disk) && ValidPath(base)
    requires UploadToolOutcome(disk, base, args, decode).0.Ok?
    ensures "path" in args && args["path"].Str? && "fileContent" in args && args["fileContent"].Str?
    ensures decode(args["fileContent"].s).Ok?
    ensures var bytes := decode(args["fileContent"].s).value;
      && UploadOutcome(disk, base, args["path"].s, Ok(bytes)).0.Ok?
      && UploadToolOutcome(disk, base, args, decode) == (Ok(Uploaded(args["path"].s)), UploadOutcome(disk, base, args["path"].s, Ok(bytes)).1)
  {
    var path, content := args["path"].s, args["fileContent"];
    var decoded := StormHandlers.B64Decode(content, decode);
    assert UploadToolOutcome(disk, base, args, decode).0 == Ok(Uploaded(path));
    UploadNeedsDecoded(disk, base, path, decoded);
  }

  /** A successful upload's file then reads back the decoded content. */
  lemma UploadToolThenRead(disk: Disk, base: Path, args: map<string, Value>,
                           decode: string -> Result<seq<byte>>, guess: string -> Option<string>)
    requires WellFormed(disk) && ValidPath(base)
    requires UploadToolOutcome(disk, base, args, decode).0.Ok?
    ensures "path" in args && args["path"].Str? && "fileContent" in args && args["fileContent"].Str?
    ensures decode(args["fileContent"].s).Ok?
    ensures ReadResult(UploadToolOutcome(disk, base, args, decode).1, base, args["path"].s, guess).Ok?
    ensures ReadResult(UploadToolOutcome(disk, base, args, decode).1, base, args["path"].s, guess).value.content
      == decode(args["fileContent"].s).value
  {
    UploadToolSucceeded(disk, base, args, decode);
    UploadThenRead(disk, base, args["path"].s, decode(args["fileContent"].s).value, guess);
  }

  /** The search tool ignores the case of a string pattern. */
  lemma SearchToolIgnoresCase(disk: Disk, base: Path, pattern: string)
    requires WellFormed(disk) && ValidPath(base)
    ensures SearchToolOutcome(disk, base, map["pattern" := Str(Upper(pattern))])
      == SearchToolOutcome(disk, base, map["pattern" := Str(pattern)])
  {
    SearchIgnoresCase(disk, base, pattern);
  }
}
