# Storm MCP servers in Dafny

This project models the decision-making core of the Storm MCP servers and
proves properties about it. The servers are small Model Context Protocol
servers that expose the Storm document/agent API and a sandboxed file store
as tools.

- **`FileSystemManager`** (module `FileManager`, class `FileManager.FileSystemManager`).
  - The filesystem is a map from path segments to file bytes or directories, held by the manager object.
  - The sandbox check `_validate_path` lives in module `Paths`. It resolves `base / path` lexically, as `pathlib` does:
    - `.` and empty segments are dropped;
    - `..` pops a segment;
    - an absolute right operand replaces the base.
  - It then accepts the result when its *string form* starts with the base's string form, exactly as the source does.
  - `read_file`, `list_directory`, `search_files` with its files-first walk, and `upload_file` are methods of the class. Each is proved equal to a specification function, and the properties are proved about those functions.
- **The file-server front end** (`FileServer`, class `FileServer.FileServer`) covers:
  - the `file:///` URI mapping of `list_resources` / `read_resource`;
  - the two tools of `list_tools`;
  - `call_tool`, which uploads through the manager or formats search results.
- **The two `handle_call_tool` dispatchers** (`StormHandlers` for `storm_mcp_server/tools/tool_handlers.py`, `CoreHandlers` for `storm-mcp-server/core/tool_handlers.py`) and the single-tool script `scripts/old.py` (`OldScript`).
  - Each is a pure function from `(name, arguments)` to either an error message or the Storm call it makes (method, endpoint, params, form data, file part).
  - Then comes the uniform `"Tool call error: "` wrapping.
  - The branches the two variants share are in `ToolCalls`.
- **The Storm API helpers.**
  - `call_internal_api` and `call_chat_api` of `storm-mcp-server/core/internal_api.py` (`InternalApi`);
  - `call_chat_api` of `storm-mcp-server/core/chat_api.py` (`ChatApi`);
  - the request and response shapes they share (`Http`).
  - A request is a description (verb, URL, headers, params, body, timeout). A response is an input: status, raw text, and what `resp.json()` gives.
- **The tool registries.** The `TOOLS_DEFINITION` constants are `StormDefinitions` and `CoreDefinitions`, over the shapes in `Registry`. They are proved well formed, and their `required` lists are compared with what the handlers really read.

Supporting modules:

- `Wrappers`: `Option` and `Result`.
- `Strings`: the Python `str` operations used (`strip`, ASCII `lower`/`upper`, `in`, `split`, `replace`, `join`, `str(int)`).
- `Json`: the dynamically typed argument values (None, bool, int, float, str, list, dict), `dict.get`, and truthiness.

Library calls are function parameters of the model:

- `mimetypes.guess_type`;
- `base64.b64decode`;
- `json.dumps`;
- the local `open(path, "rb")`;
- `requests`.

The `STORM_API_KEY` environment variable is an `Option<string>` parameter.

## Model

| member | source | states |
|---|---|---|
| Paths.Normalize | storm_mcp_server/core/file_manager.py:17 | lexical resolution of path segments always yields a path of valid segments (no `.`, `..`, empty or `/`-holding segment) |
| Paths.Resolve | storm_mcp_server/core/file_manager.py:17 | `(base / path).resolve()` always yields a path of valid segments |
| Paths.ValidatePath | storm_mcp_server/core/file_manager.py:15-20 | accepts exactly when the resolved path's string starts with the base's string, and then returns the resolved path; otherwise fails with "Invalid path: Access denied" |
| Paths.RelativeTo | storm_mcp_server/core/file_manager.py:41 | `relative_to` succeeds exactly when the base is a segment prefix, and base + result is the path; otherwise it raises its ValueError |
| Paths.StringPrefixAdmits | storm_mcp_server/core/file_manager.py:18 | the string `startswith` test holds exactly for paths at or under the base, or under a sibling whose name extends the base's last name |
| Paths.ValidatePathAccepts | storm_mcp_server/core/file_manager.py:17-19 | an input is accepted exactly when its resolution lies under the base or under such a prefix sibling |
| Paths.ValidatedStaysUnderParent | storm_mcp_server/core/file_manager.py:17-19 | what the check does guarantee: an accepted path stays under the base's parent and is at least as deep as the base |
| Paths.SiblingEscapes | storm_mcp_server/core/file_manager.py:18 | with base /srv/data, the input ../data2/x is accepted although /srv/data2/x is outside the base |
| Paths.SiblingDirAccepted | storm_mcp_server/core/file_manager.py:18 | the sibling directory /srv/data2 itself is accepted for base /srv/data |
| Paths.AbsoluteSiblingAccepted | storm_mcp_server/core/file_manager.py:17-18 | the absolute input /srv/data2/x replaces the base and is accepted |
| Paths.ClimbingOutRejected | storm_mcp_server/core/file_manager.py:17-19 | ../etc from base /srv/data resolves to /srv/etc and is refused with "Invalid path: Access denied" |
| Paths.ResolveEmpty | storm_mcp_server/core/file_manager.py:33-35 | the empty input, `list_directory`'s default, resolves to the base itself |
| Paths.NormalizeDescends | storm_mcp_server/core/file_manager.py:17 | segments without `..` only ever descend from the starting path |
| Paths.RelativeInputAccepted | storm_mcp_server/core/file_manager.py:17-20 | a relative input with no `..` segment resolves under the base and is accepted |
| Paths.NormalizeAppends | storm_mcp_server/core/file_manager.py:17 | valid segments are appended one by one |
| Paths.ResolveRelString | storm_mcp_server/core/file_manager.py:41 | the relative path string of an entry resolves back to that entry |
| FileManager.MakeDirs | storm_mcp_server/core/file_manager.py:12-13 | `mkdir(parents=True)` creates only directories along the path, keeps every existing entry and file content, and fails only when an entry along the path is a file |
| FileManager.FileSystemManager.Open | storm_mcp_server/core/file_manager.py:10-13 | the base is resolved against the working directory and kept as is when present; when absent it is created with its parents, and the constructor fails exactly when that creation fails; afterwards the base exists |
| FileManager.FileSystemManager.Init | storm_mcp_server/core/file_manager.py:10-11 | the manager holds the resolved base and the filesystem |
| FileManager.ReadResult | storm_mcp_server/core/file_manager.py:22-31 | succeeds exactly when the path validates and names a regular file; an invalid path fails with "Invalid path: Access denied" and anything else with "File not found: " + the input as given; the content is the file's, the MIME type the guess or else "text/plain" |
| FileManager.FileSystemManager.ReadFile | storm_mcp_server/core/file_manager.py:22-31 | equals the read specification: validate, fail with "File not found" unless a regular file, return its content with the guessed MIME type or "text/plain" |
| FileManager.EntriesOf | storm_mcp_server/core/file_manager.py:40-48 | one entry per child name, in order |
| FileManager.IterEntries | storm_mcp_server/core/file_manager.py:39-50 | the loop builds the entries of the children in order, and fails with the `relative_to` error on the first child when the directory is not under the base |
| FileManager.FileSystemManager.ListDirectory | storm_mcp_server/core/file_manager.py:33-50 | equals the listing specification: validate, fail with "Not a directory" unless a directory, then the entries of its children |
| FileManager.ListingEntries | storm_mcp_server/core/file_manager.py:35-50 | each listed entry carries its own name, a relative path that resolves back to it, "directory" or "file", and a size exactly for files |
| FileManager.EntryFacts | storm_mcp_server/core/file_manager.py:43-48 | one entry: name is the last segment, the path resolves back, and the size is set exactly for files |
| FileManager.ChildUnderBase | storm_mcp_server/core/file_manager.py:41 | a validated directory's children lie under the base exactly when the directory does |
| FileManager.SiblingListingFails | storm_mcp_server/core/file_manager.py:41 | listing the prefix sibling ../data2 is accepted by the check but fails in `relative_to` on its first child |
| FileManager.SiblingReadEscapes | storm_mcp_server/core/file_manager.py:22-31 | reading ../data2/x from base /srv/data succeeds on a file outside the base |
| FileManager.FilesOf | storm_mcp_server/core/file_manager.py:72-75 | the non-directory children of a directory, in scan order, each one level below it |
| FileManager.DirsOf | storm_mcp_server/core/file_manager.py:72-73 | the directory children of a directory, in scan order, each one level below it |
| FileManager.FileSystemManager.ScanDir | storm_mcp_server/core/file_manager.py:69-75 | one scan split into the files and the subdirectories |
| FileManager.FileSystemManager.WalkAsync | storm_mcp_server/core/file_manager.py:67-82 | equals the walk specification: the directory's files, then the walk of each subdirectory in order |
| FileManager.WalkBelow | storm_mcp_server/core/file_manager.py:67-82 | every walked path is a file strictly below the start; directories are never produced |
| FileManager.WalkComplete | storm_mcp_server/core/file_manager.py:67-82 | every file below the start is walked |
| FileManager.WalkFilesFirst | storm_mcp_server/core/file_manager.py:77-82 | the directory's own files come before anything found deeper |
| FileManager.IterMatches | storm_mcp_server/core/file_manager.py:54-65 | the search loop keeps exactly the walked paths whose name matches, in walk order |
| FileManager.FileSystemManager.SearchFiles | storm_mcp_server/core/file_manager.py:52-65 | equals the search specification over the walk of the base |
| FileManager.MatchesExactly | storm_mcp_server/core/file_manager.py:55-63 | a result is present exactly when some walked path's name contains the pattern case-insensitively |
| FileManager.MatchSound | storm_mcp_server/core/file_manager.py:56-63 | every result comes from a walked path whose name matches |
| FileManager.MatchComplete | storm_mcp_server/core/file_manager.py:56-63 | every walked path whose name matches is reported |
| FileManager.SearchFindsExactly | storm_mcp_server/core/file_manager.py:52-82 | the search finds exactly the files strictly below the base whose name contains the pattern, each typed "file" |
| FileManager.EmptyPatternFindsAll | storm_mcp_server/core/file_manager.py:56 | an empty pattern returns every walked file, in walk order |
| FileManager.SearchIgnoresCase | storm_mcp_server/core/file_manager.py:56 | upper-casing the pattern does not change the results |
| FileManager.EnsureParent | storm_mcp_server/core/file_manager.py:96-98 | the parent exists afterwards, the tree stays consistent, no entry or file content is lost |
| FileManager.FileSystemManager.WriteBytes | storm_mcp_server/core/file_manager.py:105 | equals the write specification, and the tree stays consistent |
| FileManager.FileSystemManager.UploadFile | storm_mcp_server/core/file_manager.py:87-105 | equals the upload specification: validate, create the parent, decode, write; and the tree stays consistent |
| FileManager.UploadRejectedChangesNothing | storm_mcp_server/core/file_manager.py:93 | a path that fails validation leaves the filesystem unchanged and reports "Invalid path: Access denied" |
| FileManager.MakeDirsFailsIff | storm_mcp_server/core/file_manager.py:98 | creating parents fails exactly when an entry along the path is a file |
| FileManager.UploadSucceedsIff | storm_mcp_server/core/file_manager.py:93-105 | with decodable content, an accepted upload succeeds exactly when the target is not a directory and no entry above it is a file |
| FileManager.WriteSucceedsIff | storm_mcp_server/core/file_manager.py:105 | into an existing parent, a write succeeds exactly when the target is not a directory and the parent is not a file |
| FileManager.MakeParentThenWrite | storm_mcp_server/core/file_manager.py:96-105 | without a parent, creating it and then writing succeeds exactly when no entry above the target is a file |
| FileManager.UploadNeedsDecoded | storm_mcp_server/core/file_manager.py:101 | an upload only succeeds when the content decoded |
| FileManager.UploadThenRead | storm_mcp_server/core/file_manager.py:87-105 | after a successful upload, reading the same path returns exactly the decoded bytes (overwriting any earlier content) |
| FileManager.WriteStores | storm_mcp_server/core/file_manager.py:105 | a successful write leaves a file holding exactly the bytes |
| FileManager.WriteFrame | storm_mcp_server/core/file_manager.py:105 | a write keeps the tree consistent, deletes nothing, and touches no other file |
| FileManager.UploadFrame | storm_mcp_server/core/file_manager.py:93-105 | an upload deletes nothing and changes no file other than its target; a decoding failure changes no file content, though the parent may have been created |
| FileServer.FileServer.constructor | storm_mcp_server/tools/tool_upload_file.py:10-12 | the server holds the manager it serves |
| FileServer.ResourcesOf | storm_mcp_server/tools/tool_upload_file.py:20-32 | one resource per listed item, in listing order, named by the item and with uri "file:///" + its relative path |
| FileServer.FileServer.ListResources | storm_mcp_server/tools/tool_upload_file.py:18-32 | the resources of the base directory's listing, or the listing's error |
| FileServer.ResourceKinds | storm_mcp_server/tools/tool_upload_file.py:24-29 | directories get "inode/directory" and description "Directory: " + path; files get the guessed type, or "text/plain" when there is no guess, and description "File: " + path |
| FileServer.TopLevelEntries | storm_mcp_server/tools/tool_upload_file.py:19 | the base's listing is its children, each with its own name as its path |
| FileServer.UriPathOfSegment | storm_mcp_server/tools/tool_upload_file.py:36 | removing "file:///" from the uri of a name gives the name back |
| FileServer.FileServer.ReadResource | storm_mcp_server/tools/tool_upload_file.py:35-38 | reads the file the uri names after every "file:///" is removed |
| FileServer.ListedFileReadsBack | storm_mcp_server/tools/tool_upload_file.py:35-38 | the uri of every listed file reads back that file's content |
| FileServer.ListedDirectoryUnreadable | storm_mcp_server/tools/tool_upload_file.py:35-38 | the uri of a listed directory cannot be read |
| FileServer.ListTools | storm_mcp_server/tools/tool_upload_file.py:41-75 | exactly upload_file then search_files, with their schemas |
| FileServer.ToolsWellFormed | storm_mcp_server/tools/tool_upload_file.py:41-75 | distinct names; upload_file requires path and fileContent, search_files requires pattern, all declared |
| FileServer.FileServer.CallTool | storm_mcp_server/tools/tool_upload_file.py:78-99 | the call's text or error and the new filesystem are those of the tool specification |
| FileServer.MissingRequiredRejected | storm_mcp_server/tools/tool_upload_file.py:81-91 | a call lacking a required argument raises and changes nothing |
| FileServer.UnknownToolRejected | storm_mcp_server/tools/tool_upload_file.py:99 | any other name raises "Unknown tool: <name>", unwrapped, and changes nothing |
| FileServer.UploadToolSucceeded | storm_mcp_server/tools/tool_upload_file.py:79-87 | "File uploaded successfully: <path>" only when both arguments were strings and the upload, decoding included, succeeded |
| FileServer.UploadToolThenRead | storm_mcp_server/tools/tool_upload_file.py:84 | after a successful upload tool call, the path reads back the decoded content |
| FileServer.NoFilesFoundIffEmpty | storm_mcp_server/tools/tool_upload_file.py:93-94 | "No files found" is returned exactly when nothing matched |
| FileServer.SearchTextLines | storm_mcp_server/tools/tool_upload_file.py:96 | the output splits into one "[type] path" line per result, in result order |
| FileServer.SearchToolIgnoresCase | storm_mcp_server/tools/tool_upload_file.py:89-97 | the search tool's output does not depend on the pattern's case |
| Registry.ListTools | storm_mcp_server/tools/tool_handlers.py:12-26 | one Tool per definition, in order, with name, description and schema copied |
| Registry.ListedNames | storm_mcp_server/tools/tool_handlers.py:12-26 | the listed tools carry the definitions' names in order |
| Registry.UnlistedRequiresNothing | storm_mcp_server/tools/tool_definitions.py:3-107 | a name not in a registry has no required arguments |
| StormDefinitions.ToolsWellFormed | storm_mcp_server/tools/tool_definitions.py:3-107 | exactly send_nonstream_chat, list_agents, list_buckets, upload_document_by_file, in that order, distinct, every schema well formed |
| StormDefinitions.ToolNamesInOrder | storm_mcp_server/tools/tool_definitions.py:5-76 | the four names in order, distinct |
| StormDefinitions.ChatToolWellFormed | storm_mcp_server/tools/tool_definitions.py:4-34 | the chat schema's properties, distinct, and its required api_key and question are declared |
| StormDefinitions.ListAgentsToolWellFormed | storm_mcp_server/tools/tool_definitions.py:35-57 | page and size, nothing required |
| StormDefinitions.ListBucketsToolWellFormed | storm_mcp_server/tools/tool_definitions.py:58-74 | agent_id, page and size; agent_id required and declared |
| StormDefinitions.UploadToolWellFormed | storm_mcp_server/tools/tool_definitions.py:75-106 | the five upload properties, distinct; bucket_id required and declared |
| StormDefinitions.UnlistedRequiresNothing | storm_mcp_server/tools/tool_definitions.py:3-107 | a name outside the four requires nothing |
| StormDefinitions.RequiredLists | storm_mcp_server/tools/tool_definitions.py:32-104 | chat requires api_key and question, list_agents nothing, list_buckets only agent_id, the upload only bucket_id (so `{bucket_id}` satisfies its schema) |
| CoreDefinitions.ToolsWellFormed | storm-mcp-server/core/tool_definitions.py:3-102 | the same four names in order, distinct, every schema well formed |
| CoreDefinitions.ToolNamesInOrder | storm-mcp-server/core/tool_definitions.py:5-74 | the four names in order, distinct |
| CoreDefinitions.ChatToolWellFormed | storm-mcp-server/core/tool_definitions.py:4-34 | the chat schema's properties, distinct; api_key and question required and declared |
| CoreDefinitions.ListAgentsToolWellFormed | storm-mcp-server/core/tool_definitions.py:35-53 | bearer_token, page, size; bearer_token required |
| CoreDefinitions.ListBucketsToolWellFormed | storm-mcp-server/core/tool_definitions.py:54-72 | bearer_token, agent_id, page, size; bearer_token and agent_id required |
| CoreDefinitions.UploadToolWellFormed | storm-mcp-server/core/tool_definitions.py:73-101 | bearer_token, bucket_id, file_path, webhook_url; the first three required |
| CoreDefinitions.UnlistedRequiresNothing | storm-mcp-server/core/tool_definitions.py:3-102 | a name outside the four requires nothing |
| CoreDefinitions.RequiredLists | storm-mcp-server/core/tool_definitions.py:32-99 | bearer_token is required by every tool but the chat; the upload requires file_path and declares no base64 fields |
| Json.Get | storm_mcp_server/tools/tool_handlers.py:42-44 | `arguments.get(key, default)`: a present key wins, even holding None |
| Json.GetStripped | storm_mcp_server/tools/tool_handlers.py:41 | `arguments.get(key, "").strip()`: missing reads as "", a string is stripped, any other value raises AttributeError |
| Strings.Strip | storm_mcp_server/tools/tool_handlers.py:41 | the result is empty exactly when the string is all whitespace, and otherwise neither starts nor ends with whitespace |
| Strings.StripIsSlice | storm_mcp_server/tools/tool_handlers.py:41 | the result is a slice of the input with nothing but whitespace cut off before and after it |
| Strings.StripTrimmed | storm_mcp_server/tools/tool_handlers.py:41 | a string with no whitespace at either end is its own strip |
| Strings.Lower | storm_mcp_server/core/file_manager.py:56 | character-wise ASCII lower case, same length |
| Strings.Upper | storm_mcp_server/core/file_manager.py:56 | character-wise ASCII upper case, same length |
| Strings.LowerUpper | storm_mcp_server/core/file_manager.py:56 | lower-casing forgets an earlier upper-casing |
| Strings.Contains | storm_mcp_server/core/file_manager.py:56 | `sub in s` holds exactly when `sub` occurs at some position |
| Strings.Split | storm_mcp_server/core/file_manager.py:17 | at least one piece, and no piece holds the separator |
| Strings.SplitJoin | storm_mcp_server/tools/tool_upload_file.py:96 | splitting a joined list of separator-free pieces gives the pieces back |
| Strings.SplitNoSep | storm_mcp_server/core/file_manager.py:17 | a string without the separator splits into itself |
| Strings.SplitAppend | storm_mcp_server/core/file_manager.py:17 | splitting `a/b` gives `a` in front of the pieces of `b` |
| Strings.ReplaceAllAbsent | storm_mcp_server/tools/tool_upload_file.py:36 | removing every occurrence of a pattern the string does not hold leaves it unchanged |
| Strings.NatToString | storm-mcp-server/core/internal_api.py:37 | `str(status)` is a non-empty string of digits |
| Strings.DigitChar | storm-mcp-server/core/internal_api.py:37 | one decimal digit character |
| Http.Headers | storm-mcp-server/core/internal_api.py:17 | exactly Content-Type application/json and storm-api-key set to the key |
| Http.JsonOrError | storm-mcp-server/core/chat_api.py:35-38 | status >= 400 raises "API error: <status> - <text>"; otherwise the parsed JSON, with no fallback |
| Http.ChatBody | storm-mcp-server/core/internal_api.py:65-73 | question always; bucketIds, threadId, webhookUrl exactly when truthy, with their given values |
| Http.NatToStringInjective | storm-mcp-server/core/internal_api.py:37 | the decimal rendering determines the status code |
| Http.ApiErrorInjective | storm-mcp-server/core/internal_api.py:36-37 | the error message determines the status and the body text |
| InternalApi.Prepare | storm-mcp-server/core/internal_api.py:15-34 | upper-cased GET/POST/DELETE only, otherwise "Unsupported HTTP method: <method>"; the verb is the matched method; url is base_url + endpoint; the two headers as given; GET and DELETE send params and no body; POST with files is multipart with form `data` (or empty), the files, no params and a 60 s timeout; POST without files sends params and `data` as JSON (no body for None); every other request has a 30 s timeout |
| InternalApi.Decode | storm-mcp-server/core/internal_api.py:36-43 | raises exactly when status >= 400, with status and text; otherwise the parsed JSON, or `{"status": "success", "data": <text>}` when it does not parse |
| InternalApi.CallInternalApi | storm-mcp-server/core/internal_api.py:7-43 | an unsupported method or a transport failure propagates; status >= 400 raises "API error: <status> - <text>"; otherwise the parsed JSON, or `{"status": "success", "data": <text>}` when the body is not JSON |
| InternalApi.ChatCallRequest | storm-mcp-server/core/internal_api.py:58-75 | a 30 s JSON POST to base_url + "/api/v2/answer" with the two headers and the chat body |
| InternalApi.CallChatApi | storm-mcp-server/core/internal_api.py:46-79 | a transport failure propagates; status >= 400 raises with status and text; otherwise the parsed JSON, failing when the body is not JSON |
| InternalApi.UnsupportedMethodSendsNothing | storm-mcp-server/core/internal_api.py:33-34 | an unsupported method fails the same whatever the network does |
| InternalApi.MethodCaseIgnored | storm-mcp-server/core/internal_api.py:19-31 | "get", "Post" and "delete" are handled as their upper-case forms |
| InternalApi.SuccessNeverRaises | storm-mcp-server/core/internal_api.py:36-43 | a supported method with a response below 400 always succeeds |
| InternalApi.ChatHasNoFallback | storm-mcp-server/core/internal_api.py:76-79 | a non-JSON success body fails the chat call, where `call_internal_api` would wrap it |
| ChatApi.ChatCallRequest | storm-mcp-server/core/chat_api.py:18-34 | a 30 s JSON POST to base_url + "/api/v2/answer", storm-api-key equal to the given key, and the chat body |
| ChatApi.CallChatApi | storm-mcp-server/core/chat_api.py:34-38 | a transport failure propagates; status >= 400 raises with status and text; otherwise the parsed JSON |
| ChatApi.EmptyOptionalsOmitted | storm-mcp-server/core/chat_api.py:24-32 | an empty bucket list and empty strings are left out of the body |
| ToolCalls.Paging | storm_mcp_server/tools/tool_handlers.py:64-68 | page and size are added exactly when not None (so page=0 is sent), with their values; nothing else changes |
| ToolCalls.PlanChat | storm_mcp_server/tools/tool_handlers.py:37-56 | succeeds exactly when the stripped question is non-blank; passes the question and the three optional fields as given |
| ToolCalls.PlanListAgents | storm_mcp_server/tools/tool_handlers.py:60-75 | never rejected; a GET of /api/v2/agents whose params are exactly `Paging` of the arguments: page and size each exactly when not None |
| ToolCalls.PlanListBuckets | storm_mcp_server/tools/tool_handlers.py:79-101 | succeeds exactly when the stripped agent_id is non-blank; a GET of /api/v2/buckets whose params are agentId plus `Paging` of the arguments |
| ToolCalls.UploadData | storm_mcp_server/tools/tool_handlers.py:136-139 | bucketId always, webhookUrl exactly when truthy |
| ToolCalls.Respond | storm_mcp_server/tools/tool_handlers.py:198-200 | a rejected argument becomes "Tool call error: " + its message, a failed call "Tool call error: " + that call's own error, and a successful call the dumped JSON response |
| ToolCalls.FailedStatusWrapped | storm-mcp-server/core/internal_api.py:36-37 | a response with status >= 400 reaches the caller as "Tool call error: API error: <status> - <text>" |
| ToolCalls.ChatReadsOnly | storm_mcp_server/tools/tool_handlers.py:41-44 | the chat branch reads only question, bucketIds, threadId and webhookUrl |
| ToolCalls.ListAgentsReadsOnly | storm_mcp_server/tools/tool_handlers.py:61-68 | the list_agents branch reads only page and size |
| ToolCalls.ListBucketsReadsOnly | storm_mcp_server/tools/tool_handlers.py:83-94 | the list_buckets branch reads only agent_id, page and size |
| ToolCalls.RejectedSendsNothing | storm_mcp_server/tools/tool_handlers.py:46-47 | a rejected call's outcome does not depend on the network |
| StormHandlers.B64Decode | storm_mcp_server/tools/tool_handlers.py:175 | a string goes to the decoder; any other value raises TypeError |
| StormHandlers.UploadPart | storm_mcp_server/tools/tool_handlers.py:147-181 | a non-blank path wins and names the part, and a failed `open` fails with its own error; otherwise the decoded base64 named file_name or "uploaded_file", and a failed decode fails with its own error; always application/octet-stream |
| StormHandlers.UploadFrom | storm_mcp_server/tools/tool_handlers.py:118-189 | blank bucket_id fails first, then neither file_path nor truthy file_base64 fails; past both checks it succeeds exactly when the file part does, fails with the part's own error, and otherwise POSTs that one part with the form data |
| StormHandlers.Plan | storm_mcp_server/tools/tool_handlers.py:37-196 | any name outside the four fails with "Tool '<name>' not found." |
| StormHandlers.CallTool | storm_mcp_server/tools/tool_handlers.py:29-200 | every error starts with "Tool call error: "; a rejected plan is reported as "Tool call error: " + its message, a failed call as "Tool call error: " + the call's error, and a successful call as the dumped JSON response |
| StormHandlers.UploadDispatched | storm_mcp_server/tools/tool_handlers.py:105 | the name upload_document_by_file takes the upload branch |
| StormHandlers.ListAgentsErrorStatus | storm_mcp_server/tools/tool_handlers.py:60-75 | a list_agents call answered with status >= 400 fails with "Tool call error: API error: <status> - <text>" |
| StormHandlers.HandleListTools | storm_mcp_server/tools/tool_handlers.py:12-26 | the four tools in registry order with unchanged fields |
| StormHandlers.UnknownToolRejected | storm_mcp_server/tools/tool_handlers.py:195-200 | "Tool call error: Tool '<name>' not found." |
| StormHandlers.UploadReadsOnly | storm_mcp_server/tools/tool_handlers.py:118-126 | the upload branch reads only its five arguments |
| StormHandlers.ApiKeyIgnored | storm_mcp_server/tools/tool_handlers.py:37-56 | changing or removing api_key never changes the outcome, though the schema requires it |
| StormHandlers.IgnoresKey | storm_mcp_server/tools/tool_handlers.py:37-196 | argument maps agreeing on every read key plan alike |
| StormHandlers.PageZeroSent | storm_mcp_server/tools/tool_handlers.py:64-68 | page=0 is sent as a param |
| StormHandlers.RequiredEnforced | storm_mcp_server/tools/tool_handlers.py:41-134 | leaving out any schema-required argument other than api_key is rejected |
| StormHandlers.SchemaAdmitsRejectedUpload | storm_mcp_server/tools/tool_handlers.py:133-134 | `{bucket_id}` satisfies the upload schema yet the call fails with the either-file error |
| StormHandlers.BucketOnlyRejected | storm_mcp_server/tools/tool_handlers.py:133-134 | with only bucket_id the upload fails with "Either file_path or file_base64 must be provided" |
| StormHandlers.PathWins | storm_mcp_server/tools/tool_handlers.py:147-169 | given both, the local path is uploaded and the base64 decoder is never consulted |
| StormHandlers.DefaultFileName | storm_mcp_server/tools/tool_handlers.py:169-181 | base64 content without a usable file_name is uploaded as "uploaded_file", application/octet-stream |
| StormHandlers.RejectedCallSendsNothing | storm_mcp_server/tools/tool_handlers.py:46-47 | a rejected call never depends on the network |
| CoreHandlers.UploadFrom | storm-mcp-server/core/tool_handlers.py:104-126 | bucket_id is checked before file_path; both must be non-blank; then it succeeds exactly when the file opens, fails with `open`'s own error, and otherwise POSTs the opened file with the form data |
| CoreHandlers.Plan | storm-mcp-server/core/tool_handlers.py:35-132 | any name outside the four fails with "Tool '<name>' not found." |
| CoreHandlers.CallTool | storm-mcp-server/core/tool_handlers.py:27-136 | every error starts with "Tool call error: "; a rejected plan is reported as "Tool call error: " + its message, a failed call as "Tool call error: " + the call's error, and a successful call as the dumped JSON response |
| CoreHandlers.UploadDispatched | storm-mcp-server/core/tool_handlers.py:103 | the name upload_document_by_file takes the upload branch |
| CoreHandlers.UnreadableFileWrapped | storm-mcp-server/core/tool_handlers.py:118 | a file that cannot be opened fails the call with "Tool call error: " + the error `open` raised |
| CoreHandlers.HandleListTools | storm-mcp-server/core/tool_handlers.py:10-24 | the four tools in registry order with unchanged fields |
| CoreHandlers.UnknownToolRejected | storm-mcp-server/core/tool_handlers.py:131-136 | "Tool call error: Tool '<name>' not found." |
| CoreHandlers.IgnoresKey | storm-mcp-server/core/tool_handlers.py:35-132 | argument maps agreeing on every read key plan alike |
| CoreHandlers.BearerTokenIgnored | storm-mcp-server/core/tool_handlers.py:58-129 | bearer_token is never read: changing or removing it changes nothing |
| CoreHandlers.ApiKeyIgnored | storm-mcp-server/core/tool_handlers.py:35-56 | api_key is never read either |
| CoreHandlers.RequiredEnforced | storm-mcp-server/core/tool_handlers.py:39-111 | every other schema-required argument is enforced |
| CoreHandlers.BucketCheckedFirst | storm-mcp-server/core/tool_handlers.py:108-111 | with both missing, the error is "bucket_id is required" |
| CoreHandlers.RejectedCallSendsNothing | storm-mcp-server/core/tool_handlers.py:108-111 | a rejected call never depends on the network |
| OldScript.ChatCallRequest | scripts/old.py:27-43 | a 30 s JSON POST to the fixed answer URL with storm-api-key equal to the given key and the chat body |
| OldScript.CallChatApi | scripts/old.py:43-48 | a transport failure propagates; status >= 400 raises with status and text; otherwise the parsed JSON |
| OldScript.HandleListTools | scripts/old.py:95-107 | exactly the one chat tool, requiring api_key and question |
| OldScript.Plan | scripts/old.py:112-138 | the name is checked first; blank api_key is reported before blank question; otherwise the chat request with the stripped key and question |
| OldScript.CallTool | scripts/old.py:112-145 | every error starts with "Tool call error: "; a rejected plan, a transport failure, a status >= 400 ("API error: <status> - <text>") and a body that is not JSON are each reported as "Tool call error: " + that message; otherwise the dumped JSON response |
| OldScript.SameRequestAsChatApi | scripts/old.py:15-43 | the request equals the one chat_api.py builds at the default base URL |
| OldScript.SameChatTool | scripts/old.py:53-90 | the single tool is the chat tool of both four-tool registries |
| OldScript.UnknownToolRejected | scripts/old.py:115-116 | any other name fails with "Tool call error: Tool '<name>' not found." |
| OldScript.RequiredEnforced | scripts/old.py:119-128 | both required arguments are enforced, api_key first |
| OldScript.RejectedCallSendsNothing | scripts/old.py:125-131 | a rejected call never reaches the network |

## Left out

- Sockets, `requests`, the network: a request is a description and the response (status, text, parsed JSON or not) is an input; timeouts are constants.
- `os.getenv("STORM_API_KEY")`: the key is an explicit parameter.
- `json.dumps(..., indent=2)`, `mimetypes.guess_type`, `base64.b64decode` and the handlers' `open(file_path, "rb")` are uninterpreted function parameters; the exact base64 alphabet and Python's non-strict decoding are not modelled.
- `asyncio.to_thread` and `async`/`await`: each call is one synchronous step; no concurrency or interleaving is modelled.
- FileManager.FileSystemManager.WalkAsync: storm_mcp_server/core/file_manager.py:71 iterates the coroutine `asyncio.to_thread(os.scandir, ...)` with `async for`, which Python refuses at run time; the model follows the evident intent (one scan, files first, then subdirectories).
- Paths.Resolve: resolution is lexical; symlinks and the real filesystem state behind `Path.resolve()` are not modelled.
- FileManager.FileSystemManager.ReadFile: content is the file's bytes; the UTF-8 decoding of `read_text` and its failure are not modelled. FileServer.FileServer.ReadResource inherits this.
- Strings.Lower: `str.lower()` / `upper()` are modelled for ASCII letters only.
- FileManager.FileSystemManager.ListDirectory: `iterdir` order is the order the directory lists its children; the OS's actual order is not modelled.
- FileManager.FileSystemManager.Open: the `mkdir` race between the existence test and creation, and `exist_ok`, are not modelled.
- Paths.RelativeTo: the `relative_to` error text follows Python 3.12 wording; the exact texts of TypeErrors, KeyErrors and OS errors are approximations.
- InternalApi.Prepare: a `params` of None and an empty dict are not distinguished, and a `None` header is kept as `None` in the description rather than dropped.
- Dictionary key order of the JSON bodies and params is not modelled (they are maps).
- storm_mcp_server/core/internal_api.py is not part of this model; the call it makes from storm_mcp_server/tools/tool_handlers.py is modelled with the contract of storm-mcp-server/core/internal_api.py.
- The MCP server construction, the `setup_handlers` decorators, stdio transport and the entry points (storm_mcp_server/main.py, storm-mcp-server/main.py, storm-mcp-server/core/tool_server.py, scripts/old.py:150-155) add no logic and are not modelled.
