/** `handle_list_tools` and `handle_call_tool` of
    storm_mcp_server/tools/tool_handlers.py: the four Storm tools, with an
    upload that takes either a local path or base64 content. */
module StormHandlers {
  import opened Wrappers
  import opened Strings
  import opened Json
  import opened Http
  import opened Registry
  import opened ToolCalls
  import StormDefinitions
  import InternalApi

  /** `base64.b64decode(v)`: a string goes to the decoder, any other JSON
      value is not bytes-like and raises. */
  function B64Decode(v: Value, decode: string -> Result<seq<byte>>): (r: Result<seq<byte>>)
    ensures v.Str? ==> r == decode(v.s)
    ensures !v.Str? ==> r == Err("argument should be a bytes-like object or ASCII string, not '" + TypeName(v) + "'")
  {
    if v.Str? then decode(v.s)
    else Err("argument should be a bytes-like object or ASCII string, not '" + TypeName(v) + "'")
  }

  /** The uploaded file part: a non-blank local path wins and names the part,
      its bytes read from the local disk; otherwise the base64 content is
      decoded and named by `file_name`, or "uploaded_file" when that is falsy. */
  function UploadPart(filePath: string, fileBase64: Value, fileName: Value,
                      readLocal: string -> Result<seq<byte>>, decode: string -> Result<seq<byte>>): (r: Result<FilePart>)
    ensures r.Ok? ==> r.value.contentType == OctetStream
    ensures filePath != "" ==> (r.Ok? <==> readLocal(filePath).Ok?)
    ensures filePath != "" && r.Ok? ==> r.value.filename == Str(filePath) && r.value.content == readLocal(filePath).value
    ensures filePath == "" ==> (r.Ok? <==> B64Decode(fileBase64, decode).Ok?)
    ensures filePath == "" && r.Ok? ==> r.value.content == B64Decode(fileBase64, decode).value
    ensures filePath == "" && r.Ok? ==> r.value.filename == if Truthy(fileName) then fileName else Str("uploaded_file")
    ensures filePath != "" && r.Err? ==> r.error == readLocal(filePath).error
    ensures filePath == "" && r.Err? ==> r.error == B64Decode(fileBase64, decode).error
  {
    if filePath != "" then
      var content :- readLocal(filePath);
      Ok(FilePart(Str(filePath), content, OctetStream))
    else
      var name := if Truthy(fileName) then fileName else Str("uploaded_file");
      var raw :- B64Decode(fileBase64, decode);
      Ok(FilePart(name, raw, OctetStream))
  }

  /** `upload_document_by_file` once its arguments are read: both `bucket_id`
      and `file_path` are stripped before any check; a blank bucket is
      rejected first, then a call with neither a path nor truthy base64
      content; the form data holds the bucket and a truthy webhook URL. */
  function UploadFrom(bucketId: Result<string>, filePath: Result<string>, fileBase64: Value, fileName: Value,
                      webhookUrl: Value, readLocal: string -> Result<seq<byte>>,
                      decode: string -> Result<seq<byte>>): (r: Result<Call>)
    ensures bucketId.Err? ==> r == Err(bucketId.error)
    ensures bucketId.Ok? && filePath.Err? ==> r == Err(filePath.error)
    ensures bucketId == Ok("") && filePath.Ok? ==> r == Err("bucket_id is required")
    ensures bucketId.Ok? && bucketId.value != "" && filePath == Ok("") && !Truthy(fileBase64) ==>
      r == Err("Either file_path or file_base64 must be provided")
    ensures r.Ok? ==> bucketId.Ok? && bucketId.value != "" && filePath.Ok?
    ensures r.Ok? ==> filePath.value != "" || Truthy(fileBase64)
    ensures bucketId.Ok? && bucketId.value != "" && filePath.Ok? && (filePath.value != "" || Truthy(fileBase64)) ==>
      var part := UploadPart(filePath.value, fileBase64, fileName, readLocal, decode);
      (r.Ok? <==> part.Ok?) && (part.Err? ==> r == Err(part.error))
    ensures r.Ok? ==> (UploadPart(filePath.value, fileBase64, fileName, readLocal, decode).Ok?
      && r.value == UploadCall(bucketId.value, webhookUrl, UploadPart(filePath.value, fileBase64, fileName, readLocal, decode).value))
  {
    var bucketId :- bucketId;
    var filePath :- filePath;
    if bucketId == "" then Err("bucket_id is required")
    else if filePath == "" && !Truthy(fileBase64) then Err("Either file_path or file_base64 must be provided")
    else
      var part :- UploadPart(filePath, fileBase64, fileName, readLocal, decode);
      Ok(UploadCall(bucketId, webhookUrl, part))
  }

  function PlanUpload(args: map<string, Value>, readLocal: string -> Result<seq<byte>>,
                      decode: string -> Result<seq<byte>>): Result<Call>
  {
    UploadFrom(GetStripped(args, "bucket_id"), GetStripped(args, "file_path"), Get(args, "file_base64", Null),
               Get(args, "file_name", Null), Get(args, "webhook_url", Null), readLocal, decode)
  }

  /** The branch `handle_call_tool` takes for `name`, up to the API call. */
  function Plan(name: string, args: map<string, Value>, readLocal: string -> Result<seq<byte>>,
                decode: string -> Result<seq<byte>>): (r: Result<Call>)
    ensures name !in {"send_nonstream_chat", "list_agents", "list_buckets", "upload_document_by_file"} ==>
      r == Err(NotFound(name))
  {
    if name == "send_nonstream_chat" then PlanChat(args)
    else if name == "list_agents" then PlanListAgents(args)
    else if name == "list_buckets" then PlanListBuckets(args)
    else if name == "upload_document_by_file" then PlanUpload(args, readLocal, decode)
    else Err(NotFound(name))
  }

  /** `handle_call_tool`: the text of the dumped response, or the wrapped error. */
  function CallTool(name: string, args: map<string, Value>, env: Env): (r: Result<string>)
    ensures r.Err? ==> StartsWith(r.error, "Tool call error: ")
    ensures Plan(name, args, env.readLocal, env.decode).Err? ==>
      r == Err(Wrapped(Plan(name, args, env.readLocal, env.decode).error))
    ensures Plan(name, args, env.readLocal, env.decode).Ok? ==>
      var call := Plan(name, args, env.readLocal, env.decode).value;
      && (Exec(call, env).Err? ==> r == Err(Wrapped(Exec(call, env).error)))
      && (Exec(call, env).Ok? ==> r == Ok(env.dumps(Exec(call, env).value)))
  {
    Respond(Plan(name, args, env.readLocal, env.decode), env)
  }

  /** `handle_list_tools`: the registry's tools, in order, unchanged. */
  method HandleListTools() returns (tools: seq<Tool>)
    ensures ToolNames(tools) == ["send_nonstream_chat", "list_agents", "list_buckets", "upload_document_by_file"]
    ensures forall i | 0 <= i < |tools| :: (tools[i].inputSchema == StormDefinitions.Tools[i].inputSchema
      && tools[i].description == StormDefinitions.Tools[i].description)
  {
    tools := ListTools(StormDefinitions.Tools);
    ListedNames(StormDefinitions.Tools, tools);
    StormDefinitions.ToolNamesInOrder();
  }

  // ---------------------------------------------------------------------------
  // Properties

  /** An unknown tool name is reported, wrapped, without any request. */
  lemma UnknownToolRejected(name: string, args: map<string, Value>, env: Env)
    requires name !in {"send_nonstream_chat", "list_agents", "list_buckets", "upload_document_by_file"}
    ensures CallTool(name, args, env) == Err(Wrapped("Tool '" + name + "' not found."))
  {
  }

  /** The upload branch reads only its five arguments. */
  lemma UploadReadsOnly(a1: map<string, Value>, a2: map<string, Value>,
                        readLocal: string -> Result<seq<byte>>, decode: string -> Result<seq<byte>>)
    requires SameArg(a1, a2, "bucket_id") && SameArg(a1, a2, "file_path") && SameArg(a1, a2, "file_base64")
    requires SameArg(a1, a2, "file_name") && SameArg(a1, a2, "webhook_url")
    ensures PlanUpload(a1, readLocal, decode) == PlanUpload(a2, readLocal, decode)
  {
    assert GetStripped(a1, "bucket_id") == GetStripped(a2, "bucket_id");
    assert GetStripped(a1, "file_path") == GetStripped(a2, "file_path");
    assert Get(a1, "file_base64", Null) == Get(a2, "file_base64", Null);
    assert Get(a1, "file_name", Null) == Get(a2, "file_name", Null);
    assert Get(a1, "webhook_url", Null) == Get(a2, "webhook_url", Null);
  }

  /** The handler never reads `api_key`, although the chat schema requires it:
      its value, or its absence, changes nothing. */
  lemma ApiKeyIgnored(name: string, args: map<string, Value>, v: Value,
                      readLocal: string -> Result<seq<byte>>, decode: string -> Result<seq<byte>>)
    ensures Plan(name, args["api_key" := v], readLocal, decode) == Plan(name, args, readLocal, decode)
    ensures Plan(name, args - {"api_key"}, readLocal, decode) == Plan(name, args, readLocal, decode)
  {
    assert "api_key" !in ReadKeys;
    UnreadKeyKept(args, "api_key", v);
    IgnoresKey(name, args, args["api_key" := v], readLocal, decode);
    IgnoresKey(name, args, args - {"api_key"}, readLocal, decode);
  }

  /** Every key some branch reads. */
  const ReadKeys: seq<string> := ["question", "bucketIds", "threadId", "webhookUrl", "page", "size",
    "agent_id", "bucket_id", "file_path", "file_base64", "file_name", "webhook_url"]

  /** The two maps hold the same value, or none, under every key some branch reads. */
  predicate SameReads(a1: map<string, Value>, a2: map<string, Value>) {
    forall key | key in ReadKeys :: SameArg(a1, a2, key)
  }

  /** Changing or removing a key no branch reads keeps every read argument. */
  lemma UnreadKeyKept(args: map<string, Value>, key: string, v: Value)
    requires key !in ReadKeys
    ensures SameReads(args, args[key := v]) && SameReads(args, args - {key})
  {
  }

  /** Two argument maps that differ only in a key no branch reads plan alike. */
  lemma IgnoresKey(name: string, a1: map<string, Value>, a2: map<string, Value>,
                   readLocal: string -> Result<seq<byte>>, decode: string -> Result<seq<byte>>)
    requires SameReads(a1, a2)
    ensures Plan(name, a1, readLocal, decode) == Plan(name, a2, readLocal, decode)
  {
    if name == "send_nonstream_chat" {
      ChatReadsOnly(a1, a2);
    } else if name == "list_agents" {
      ListAgentsReadsOnly(a1, a2);
    } else if name == "list_buckets" {
      ListBucketsReadsOnly(a1, a2);
    } else if name == "upload_document_by_file" {
      UploadReadsOnly(a1, a2, readLocal, decode);
    }
  }

  /** `page=0` is falsy but not None, so it is sent. */
  lemma PageZeroSent(readLocal: string -> Result<seq<byte>>, decode: string -> Result<seq<byte>>)
    ensures Plan("list_agents", map["page" := Int(0)], readLocal, decode)
      == Ok(ApiCall("GET", "/api/v2/agents", map["page" := Int(0)], None, map[]))
  {
    var args := map["page" := Int(0)];
    assert Given(args, "page") && !Given(args, "size");
    assert Paging(args, map[]) == map["page" := Int(0)];
  }

  /** An error status from the agents listing surfaces as "Tool call error: API error: ...". */
  lemma ListAgentsErrorStatus(args: map<string, Value>, env: Env, resp: Response)
    requires env.send(Request(GET, DefaultBaseUrl + AgentsEndpoint, Headers(env.apiKey), Paging(args, map[]), NoBody, 30)) == Ok(resp)
    requires resp.status >= 400
    ensures CallTool("list_agents", args, env) == Err(Wrapped(ApiError(resp)))
  {
    var call := PlanListAgents(args).value;
    assert Upper("GET") == "GET";
    assert InternalApi.Prepare("GET", AgentsEndpoint, DefaultBaseUrl, call.params, None, map[], env.apiKey)
      == Ok(Request(GET, DefaultBaseUrl + AgentsEndpoint, Headers(env.apiKey), Paging(args, map[]), NoBody, 30));
    FailedStatusWrapped(call, env, resp);
  }

  /** Every argument a tool's schema requires, except the never-read `api_key`,
      is enforced: leaving it out is an error. */
  lemma RequiredEnforced(name: string, args: map<string, Value>, key: string,
                         readLocal: string -> Result<seq<byte>>, decode: string -> Result<seq<byte>>)
    requires key in RequiredOf(StormDefinitions.Tools, name) && key != "api_key" && key !in args
    ensures Plan(name, args, readLocal, decode).Err?
  {
    StormDefinitions.RequiredLists();
    if name !in {"send_nonstream_chat", "list_agents", "list_buckets", "upload_document_by_file"} {
      StormDefinitions.UnlistedRequiresNothing(name);
    } else if name == "send_nonstream_chat" {
      assert key == "question";
      StripTrimmed("");
    } else if name == "list_buckets" {
      assert key == "agent_id";
      StripTrimmed("");
    } else if name == "upload_document_by_file" {
      assert key == "bucket_id";
      StripTrimmed("");
    }
  }

  /** The schema's `required` list does not capture the upload's real rule:
      a call carrying every required argument can still be rejected. */
  lemma SchemaAdmitsRejectedUpload(env: Env)
    ensures Satisfies({"bucket_id"}, StormDefinitions.UploadTool.inputSchema)
    ensures CallTool("upload_document_by_file", map["bucket_id" := Str("b")], env)
      == Err(Wrapped("Either file_path or file_base64 must be provided"))
  {
    StormDefinitions.RequiredLists();
    BucketOnlyRejected(env.readLocal, env.decode);
  }

  /** The upload branch of the dispatch. */
  lemma UploadDispatched(args: map<string, Value>, readLocal: string -> Result<seq<byte>>,
                         decode: string -> Result<seq<byte>>)
    ensures Plan("upload_document_by_file", args, readLocal, decode) == PlanUpload(args, readLocal, decode)
  {
    var n := "upload_document_by_file";
    assert n[0] == 'u' && "send_nonstream_chat"[0] == 's' && "list_agents"[0] == 'l' && "list_buckets"[0] == 'l';
  }

  lemma BucketOnlyRejected(readLocal: string -> Result<seq<byte>>, decode: string -> Result<seq<byte>>)
    ensures Plan("upload_document_by_file", map["bucket_id" := Str("b")], readLocal, decode)
      == Err("Either file_path or file_base64 must be provided")
  {
    var args := map["bucket_id" := Str("b")];
    StripTrimmed("b");
    assert "file_path"[0] == 'f' && "bucket_id"[0] == 'b';
    assert GetStripped(args, "bucket_id") == Ok("b") && GetStripped(args, "file_path") == Ok("");
    UploadDispatched(args, readLocal, decode);
  }

  /** Given both, the local path wins: the base64 content and its decoder do
      not matter, and the part is named by the stripped path. */
  lemma PathWins(args: map<string, Value>, readLocal: string -> Result<seq<byte>>,
                 decode1: string -> Result<seq<byte>>, decode2: string -> Result<seq<byte>>)
    requires "file_path" in args && args["file_path"].Str? && Strip(args["file_path"].s) != ""
    requires "bucket_id" in args && args["bucket_id"].Str? && Strip(args["bucket_id"].s) != ""
    requires readLocal(Strip(args["file_path"].s)).Ok?
    ensures PlanUpload(args, readLocal, decode1) == PlanUpload(args, readLocal, decode2)
    ensures PlanUpload(args, readLocal, decode1) == Ok(UploadCall(Strip(args["bucket_id"].s), Get(args, "webhook_url", Null),
      FilePart(Str(Strip(args["file_path"].s)), readLocal(Strip(args["file_path"].s)).value, OctetStream)))
  {
  }

  /** Base64 content without a usable `file_name` is uploaded as "uploaded_file". */
  lemma DefaultFileName(args: map<string, Value>, readLocal: string -> Result<seq<byte>>,
                        decode: string -> Result<seq<byte>>)
    requires "bucket_id" in args && args["bucket_id"].Str? && Strip(args["bucket_id"].s) != ""
    requires "file_path" !in args
    requires "file_base64" in args && args["file_base64"].Str? && args["file_base64"].s != ""
    requires !Truthy(Get(args, "file_name", Null))
    requires decode(args["file_base64"].s).Ok?
    ensures PlanUpload(args, readLocal, decode) == Ok(UploadCall(Strip(args["bucket_id"].s), Get(args, "webhook_url", Null),
      FilePart(Str("uploaded_file"), decode(args["file_base64"].s).value, OctetStream)))
  {
    var b64 := args["file_base64"];
    assert GetStripped(args, "file_path") == Ok("");
    assert B64Decode(b64, decode) == decode(b64.s);
    var part := UploadPart("", b64, Get(args, "file_name", Null), readLocal, decode);
    assert part == Ok(FilePart(Str("uploaded_file"), decode(b64.s).value, OctetStream));
    var bucket := Strip(args["bucket_id"].s);
    assert Truthy(b64);
    assert UploadFrom(Ok(bucket), Ok(""), b64, Get(args, "file_name", Null), Get(args, "webhook_url", Null), readLocal, decode)
      == Ok(UploadCall(bucket, Get(args, "webhook_url", Null), part.value));
  }

  /** A rejected call never depends on the network. */
  lemma RejectedCallSendsNothing(name: string, args: map<string, Value>, env: Env, send: Request -> Result<Response>)
    requires Plan(name, args, env.readLocal, env.decode).Err?
    ensures CallTool(name, args, env) == CallTool(name, args, env.(send := send))
  {
    RejectedSendsNothing(Plan(name, args, env.readLocal, env.decode), env, send);
  }
}
