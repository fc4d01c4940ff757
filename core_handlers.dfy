/** `handle_list_tools` and `handle_call_tool` of
    storm-mcp-server/core/tool_handlers.py: the same four tools, with an
    upload that only takes a local path. */
module CoreHandlers {
  import opened Wrappers
  import opened Strings
  import opened Json
  import opened Http
  import opened Registry
  import opened ToolCalls
  import CoreDefinitions

  /** `upload_document_by_file` once its arguments are read: both `bucket_id`
      and `file_path` are stripped before any check; a blank bucket is
      rejected first, then a blank path; the file is read from the local disk
      and sent under its path, with the bucket and a truthy webhook URL as
      form data. */
  function UploadFrom(bucketId: Result<string>, filePath: Result<string>, webhookUrl: Value,
                      readLocal: string -> Result<seq<byte>>): (r: Result<Call>)
    ensures bucketId.Err? ==> r == Err(bucketId.error)
    ensures bucketId.Ok? && filePath.Err? ==> r == Err(filePath.error)
    ensures bucketId == Ok("") && filePath.Ok? ==> r == Err("bucket_id is required")
    ensures bucketId.Ok? && bucketId.value != "" && filePath == Ok("") ==> r == Err("file_path is required")
    ensures r.Ok? ==> bucketId.Ok? && bucketId.value != "" && filePath.Ok? && filePath.value != ""
    ensures bucketId.Ok? && bucketId.value != "" && filePath.Ok? && filePath.value != "" ==>
      (r.Ok? <==> readLocal(filePath.value).Ok?) && (readLocal(filePath.value).Err? ==> r == Err(readLocal(filePath.value).error))
    ensures r.Ok? ==> (readLocal(filePath.value).Ok?
      && r.value == UploadCall(bucketId.value, webhookUrl, FilePart(Str(filePath.value), readLocal(filePath.value).value, OctetStream)))
  {
    var bucketId :- bucketId;
    var filePath :- filePath;
    if bucketId == "" then Err("bucket_id is required")
    else if filePath == "" then Err("file_path is required")
    else
      var content :- readLocal(filePath);
      Ok(UploadCall(bucketId, webhookUrl, FilePart(Str(filePath), content, OctetStream)))
  }

  function PlanUpload(args: map<string, Value>, readLocal: string -> Result<seq<byte>>): Result<Call> {
    UploadFrom(GetStripped(args, "bucket_id"), GetStripped(args, "file_path"), Get(args, "webhook_url", Null), readLocal)
  }

  /** The branch `handle_call_tool` takes for `name`, up to the API call. */
  function Plan(name: string, args: map<string, Value>, readLocal: string -> Result<seq<byte>>): (r: Result<Call>)
    ensures name !in {"send_nonstream_chat", "list_agents", "list_buckets", "upload_document_by_file"} ==>
      r == Err(NotFound(name))
  {
    if name == "send_nonstream_chat" then PlanChat(args)
    else if name == "list_agents" then PlanListAgents(args)
    else if name == "list_buckets" then PlanListBuckets(args)
    else if name == "upload_document_by_file" then PlanUpload(args, readLocal)
    else Err(NotFound(name))
  }

  /** `handle_call_tool`: the text of the dumped response, or the wrapped error. */
  function CallTool(name: string, args: map<string, Value>, env: Env): (r: Result<string>)
    ensures r.Err? ==> StartsWith(r.error, "Tool call error: ")
    ensures Plan(name, args, env.readLocal).Err? ==> r == Err(Wrapped(Plan(name, args, env.readLocal).error))
    ensures Plan(name, args, env.readLocal).Ok? ==>
      var call := Plan(name, args, env.readLocal).value;
      && (Exec(call, env).Err? ==> r == Err(Wrapped(Exec(call, env).error)))
      && (Exec(call, env).Ok? ==> r == Ok(env.dumps(Exec(call, env).value)))
  {
    Respond(Plan(name, args, env.readLocal), env)
  }

  /** `handle_list_tools`: the registry's tools, in order, unchanged. */
  method HandleListTools() returns (tools: seq<Tool>)
    ensures ToolNames(tools) == ["send_nonstream_chat", "list_agents", "list_buckets", "upload_document_by_file"]
    ensures forall i | 0 <= i < |tools| :: (tools[i].inputSchema == CoreDefinitions.Tools[i].inputSchema
      && tools[i].description == CoreDefinitions.Tools[i].description)
  {
    tools := ListTools(CoreDefinitions.Tools);
    ListedNames(CoreDefinitions.Tools, tools);
    CoreDefinitions.ToolNamesInOrder();
  }

  // ---------------------------------------------------------------------------
  // Properties

  /** An unknown tool name is reported, wrapped, without any request. */
  lemma UnknownToolRejected(name: string, args: map<string, Value>, env: Env)
    requires name !in {"send_nonstream_chat", "list_agents", "list_buckets", "upload_document_by_file"}
    ensures CallTool(name, args, env) == Err(Wrapped("Tool '" + name + "' not found."))
  {
  }

  /** Every key some branch reads. */
  const ReadKeys: seq<string> := ["question", "bucketIds", "threadId", "webhookUrl", "page", "size",
    "agent_id", "bucket_id", "file_path", "webhook_url"]

  /** The maps hold the same value, or none, under every key some branch reads. */
  predicate SameReads(a1: map<string, Value>, a2: map<string, Value>) {
    forall key | key in ReadKeys :: SameArg(a1, a2, key)
  }

  /** Changing or removing a key no branch reads keeps every read argument. */
  lemma UnreadKeyKept(args: map<string, Value>, key: string, v: Value)
    requires key !in ReadKeys
    ensures SameReads(args, args[key := v]) && SameReads(args, args - {key})
  {
  }

  /** Argument maps that agree on every key some branch reads plan alike. */
  lemma IgnoresKey(name: string, a1: map<string, Value>, a2: map<string, Value>,
                   readLocal: string -> Result<seq<byte>>)
    requires SameReads(a1, a2)
    ensures Plan(name, a1, readLocal) == Plan(name, a2, readLocal)
  {
    if name == "send_nonstream_chat" {
      ChatReadsOnly(a1, a2);
    } else if name == "list_agents" {
      ListAgentsReadsOnly(a1, a2);
    } else if name == "list_buckets" {
      ListBucketsReadsOnly(a1, a2);
    } else if name == "upload_document_by_file" {
      assert SameArg(a1, a2, "bucket_id") && SameArg(a1, a2, "file_path") && SameArg(a1, a2, "webhook_url");
      assert GetStripped(a1, "bucket_id") == GetStripped(a2, "bucket_id");
      assert GetStripped(a1, "file_path") == GetStripped(a2, "file_path");
      assert Get(a1, "webhook_url", Null) == Get(a2, "webhook_url", Null);
    }
  }

  /** `bearer_token` is required by three schemas but never read: its value,
      or its absence, changes nothing (the credential comes from the environment). */
  lemma BearerTokenIgnored(name: string, args: map<string, Value>, v: Value, readLocal: string -> Result<seq<byte>>)
    ensures Plan(name, args["bearer_token" := v], readLocal) == Plan(name, args, readLocal)
    ensures Plan(name, args - {"bearer_token"}, readLocal) == Plan(name, args, readLocal)
  {
    assert "bearer_token" !in ReadKeys;
    UnreadKeyKept(args, "bearer_token", v);
    IgnoresKey(name, args, args["bearer_token" := v], readLocal);
    IgnoresKey(name, args, args - {"bearer_token"}, readLocal);
  }

  /** Likewise `api_key`, required by the chat schema. */
  lemma ApiKeyIgnored(name: string, args: map<string, Value>, v: Value, readLocal: string -> Result<seq<byte>>)
    ensures Plan(name, args["api_key" := v], readLocal) == Plan(name, args, readLocal)
    ensures Plan(name, args - {"api_key"}, readLocal) == Plan(name, args, readLocal)
  {
    assert "api_key" !in ReadKeys;
    UnreadKeyKept(args, "api_key", v);
    IgnoresKey(name, args, args["api_key" := v], readLocal);
    IgnoresKey(name, args, args - {"api_key"}, readLocal);
  }

  /** Every other required argument is enforced: leaving it out is an error. */
  lemma RequiredEnforced(name: string, args: map<string, Value>, key: string, readLocal: string -> Result<seq<byte>>)
    requires key in RequiredOf(CoreDefinitions.Tools, name) && key != "api_key" && key != "bearer_token"
    requires key !in args
    ensures Plan(name, args, readLocal).Err?
  {
    CoreDefinitions.RequiredLists();
    if name !in {"send_nonstream_chat", "list_agents", "list_buckets", "upload_document_by_file"} {
      CoreDefinitions.UnlistedRequiresNothing(name);
    } else if name == "send_nonstream_chat" {
      assert key == "question";
      StripTrimmed("");
    } else if name == "list_buckets" {
      assert key == "agent_id";
      StripTrimmed("");
    } else if name == "upload_document_by_file" {
      assert key == "bucket_id" || key == "file_path";
      StripTrimmed("");
    }
  }

  /** The upload branch of the dispatch. */
  lemma UploadDispatched(args: map<string, Value>, readLocal: string -> Result<seq<byte>>)
    ensures Plan("upload_document_by_file", args, readLocal) == PlanUpload(args, readLocal)
  {
    var n := "upload_document_by_file";
    assert n[0] == 'u' && "send_nonstream_chat"[0] == 's' && "list_agents"[0] == 'l' && "list_buckets"[0] == 'l';
  }

  /** A local file that cannot be opened fails the upload with
      "Tool call error: " followed by the error `open` raised. */
  lemma UnreadableFileWrapped(args: map<string, Value>, env: Env)
    requires "bucket_id" in args && args["bucket_id"].Str? && Strip(args["bucket_id"].s) != ""
    requires "file_path" in args && args["file_path"].Str? && Strip(args["file_path"].s) != ""
    requires env.readLocal(Strip(args["file_path"].s)).Err?
    ensures CallTool("upload_document_by_file", args, env) == Err(Wrapped(env.readLocal(Strip(args["file_path"].s)).error))
  {
    UploadDispatched(args, env.readLocal);
  }

  /** The bucket is checked before the path. */
  lemma BucketCheckedFirst(args: map<string, Value>, readLocal: string -> Result<seq<byte>>)
    requires "bucket_id" !in args && "file_path" !in args
    ensures Plan("upload_document_by_file", args, readLocal) == Err("bucket_id is required")
  {
    assert GetStripped(args, "bucket_id") == Ok("") && GetStripped(args, "file_path") == Ok("");
    UploadDispatched(args, readLocal);
  }

  /** A rejected call never depends on the network. */
  lemma RejectedCallSendsNothing(name: string, args: map<string, Value>, env: Env, send: Request -> Result<Response>)
    requires Plan(name, args, env.readLocal).Err?
    ensures CallTool(name, args, env) == CallTool(name, args, env.(send := send))
  {
    RejectedSendsNothing(Plan(name, args, env.readLocal), env, send);
  }
}
