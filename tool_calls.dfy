/** What the two `handle_call_tool` variants (storm_mcp_server/tools/tool_handlers.py
    and storm-mcp-server/core/tool_handlers.py) share: the checked call they
    build from the arguments, the chat, `list_agents` and `list_buckets`
    branches (identical in both files), the upload's form data, running the
    call, and the uniform error wrapping. */
module ToolCalls {
  import opened Wrappers
  import opened Strings
  import opened Json
  import opened Http
  import InternalApi

  /** The Storm call a tool invocation makes once its arguments passed the checks. */
  datatype Call =
    | ChatCall(question: string, bucketIds: Value, threadId: Value, webhookUrl: Value)
    | ApiCall(httpMethod: string, endpoint: string, params: map<string, Value>,
              data: Option<map<string, Value>>, files: map<string, FilePart>)

  /** What the handler reaches outside itself: the `STORM_API_KEY` variable,
      the network, `open(path, "rb")` on the local disk, `base64.b64decode`
      on a string, and `json.dumps`. */
  datatype Env = Env(
    apiKey: Option<string>,
    send: Request -> Result<Response>,
    readLocal: string -> Result<seq<byte>>,
    decode: string -> Result<seq<byte>>,
    dumps: Value -> string)

  const AgentsEndpoint: string := "/api/v2/agents"
  const BucketsEndpoint: string := "/api/v2/buckets"
  const UploadEndpoint: string := "/api/v2/documents/by-file"
  const OctetStream: string := "application/octet-stream"

  function NotFound(name: string): string {
    "Tool '" + name + "' not found."
  }

  /** The message of the `RuntimeError` every failure is re-raised as. */
  function Wrapped(e: string): string {
    "Tool call error: " + e
  }

  /** `page` and `size` are added to `params` exactly when they are not None,
      so `page=0` is sent; nothing else is added or changed. */
  function Paging(args: map<string, Value>, params: map<string, Value>): (r: map<string, Value>)
    requires "page" !in params && "size" !in params
    ensures "page" in r <==> Given(args, "page")
    ensures "size" in r <==> Given(args, "size")
    ensures "page" in r ==> r["page"] == args["page"]
    ensures "size" in r ==> r["size"] == args["size"]
    ensures forall k | k in params :: k in r && r[k] == params[k]
    ensures forall k | k in r && k != "page" && k != "size" :: k in params
  {
    var p1 := if Given(args, "page") then params["page" := args["page"]] else params;
    if Given(args, "size") then p1["size" := args["size"]] else p1
  }

  /** `send_nonstream_chat`: the stripped question must be non-blank; the
      optional fields are passed on as given, `api_key` is never read. */
  function PlanChat(args: map<string, Value>): (r: Result<Call>)
    ensures GetStripped(args, "question").Err? ==> r == Err(GetStripped(args, "question").error)
    ensures GetStripped(args, "question") == Ok("") ==> r == Err("question is required")
    ensures r.Ok? <==> "question" in args && args["question"].Str? && Strip(args["question"].s) != ""
    ensures r.Ok? ==> r.value == ChatCall(Strip(args["question"].s), Get(args, "bucketIds", Null),
                                          Get(args, "threadId", Null), Get(args, "webhookUrl", Null))
  {
    var question :- GetStripped(args, "question");
    if question == "" then Err("question is required")
    else Ok(ChatCall(question, Get(args, "bucketIds", Null), Get(args, "threadId", Null), Get(args, "webhookUrl", Null)))
  }

  /** `list_agents`: never rejected; a GET of the agents with the paging arguments. */
  function PlanListAgents(args: map<string, Value>): (r: Result<Call>)
    ensures r.Ok? && r.value.ApiCall? && r.value.httpMethod == "GET" && r.value.endpoint == AgentsEndpoint
    ensures r.Ok? ==> r.value.data == None && r.value.files == map[]
    ensures r.Ok? ==> r.value.params.Keys <= {"page", "size"}
    ensures r.Ok? ==> r.value.params == Paging(args, map[])
  {
    Ok(ApiCall("GET", AgentsEndpoint, Paging(args, map[]), None, map[]))
  }

  /** `list_buckets`: the stripped `agent_id` must be non-blank and is always
      sent as `agentId`, next to the paging arguments. */
  function PlanListBuckets(args: map<string, Value>): (r: Result<Call>)
    ensures GetStripped(args, "agent_id").Err? ==> r == Err(GetStripped(args, "agent_id").error)
    ensures GetStripped(args, "agent_id") == Ok("") ==> r == Err("agent_id is required")
    ensures r.Ok? <==> "agent_id" in args && args["agent_id"].Str? && Strip(args["agent_id"].s) != ""
    ensures r.Ok? ==> r.value.ApiCall? && r.value.httpMethod == "GET" && r.value.endpoint == BucketsEndpoint
    ensures r.Ok? ==> r.value.data == None && r.value.files == map[]
    ensures r.Ok? ==> r.value.params.Keys <= {"agentId", "page", "size"}
    ensures r.Ok? ==> "agentId" in r.value.params && r.value.params["agentId"] == Str(Strip(args["agent_id"].s))
    ensures r.Ok? ==> r.value.params == Paging(args, map["agentId" := Str(Strip(args["agent_id"].s))])
  {
    var agentId :- GetStripped(args, "agent_id");
    if agentId == "" then Err("agent_id is required")
    else
      var params := Paging(args, map["agentId" := Str(agentId)]);
      assert "agentId" in params && params["agentId"] == Str(agentId);
      Ok(ApiCall("GET", BucketsEndpoint, params, None, map[]))
  }

  /** The upload's form fields: `bucketId` always, `webhookUrl` only when truthy. */
  function UploadData(bucketId: string, webhookUrl: Value): (data: map<string, Value>)
    ensures data.Keys <= {"bucketId", "webhookUrl"}
    ensures "bucketId" in data && data["bucketId"] == Str(bucketId)
    ensures "webhookUrl" in data <==> Truthy(webhookUrl)
    ensures "webhookUrl" in data ==> data["webhookUrl"] == webhookUrl
  {
    var data := map["bucketId" := Str(bucketId)];
    if Truthy(webhookUrl) then data["webhookUrl" := webhookUrl] else data
  }

  /** The multipart POST of one file part, sent as field `file`. */
  function UploadCall(bucketId: string, webhookUrl: Value, part: FilePart): Call {
    ApiCall("POST", UploadEndpoint, map[], Some(UploadData(bucketId, webhookUrl)), map["file" := part])
  }

  /** Runs a checked call: the chat endpoint or `call_internal_api`, at the default base URL. */
  function Exec(call: Call, env: Env): Result<Value> {
    match call
    case ChatCall(q, b, t, w) => InternalApi.CallChatApi(q, b, t, w, DefaultBaseUrl, env.apiKey, env.send)
    case ApiCall(m, e, p, d, f) => InternalApi.CallInternalApi(m, e, DefaultBaseUrl, p, d, f, env.apiKey, env.send)
  }

  /** The handler's tail: run the call and dump its JSON, every failure
      (a rejected argument or a failed call) re-raised as "Tool call error: ...". */
  function Respond(planned: Result<Call>, env: Env): (r: Result<string>)
    ensures planned.Err? ==> r == Err(Wrapped(planned.error))
    ensures r.Err? ==> StartsWith(r.error, "Tool call error: ")
    ensures planned.Ok? ==> (r.Ok? <==> Exec(planned.value, env).Ok?)
    ensures planned.Ok? && Exec(planned.value, env).Err? ==> r == Err(Wrapped(Exec(planned.value, env).error))
    ensures planned.Ok? && Exec(planned.value, env).Ok? ==> r == Ok(env.dumps(Exec(planned.value, env).value))
  {
    var outcome := if planned.Err? then Err(planned.error) else Exec(planned.value, env);
    match outcome
    case Ok(v) => Ok(env.dumps(v))
    case Err(e) => Err(Wrapped(e))
  }

  /** A Storm API error status reaches the caller as "Tool call error: API error: <status> - <text>". */
  lemma FailedStatusWrapped(call: Call, env: Env, resp: Response)
    requires call.ChatCall? ==>
      env.send(InternalApi.ChatCallRequest(call.question, call.bucketIds, call.threadId, call.webhookUrl,
                                           DefaultBaseUrl, env.apiKey)) == Ok(resp)
    requires call.ApiCall? ==>
      var req := InternalApi.Prepare(call.httpMethod, call.endpoint, DefaultBaseUrl, call.params, call.data, call.files, env.apiKey);
      req.Ok? && env.send(req.value) == Ok(resp)
    requires resp.status >= 400
    ensures Respond(Ok(call), env) == Err(Wrapped(ApiError(resp)))
  {
  }

  /** `a1` and `a2` hold the same argument under `key`, or both lack it. */
  predicate SameArg(a1: map<string, Value>, a2: map<string, Value>, key: string) {
    (key in a1 <==> key in a2) && (key in a1 ==> a1[key] == a2[key])
  }

  /** The chat branch reads only `question`, `bucketIds`, `threadId` and `webhookUrl`. */
  lemma ChatReadsOnly(a1: map<string, Value>, a2: map<string, Value>)
    requires SameArg(a1, a2, "question") && SameArg(a1, a2, "bucketIds")
    requires SameArg(a1, a2, "threadId") && SameArg(a1, a2, "webhookUrl")
    ensures PlanChat(a1) == PlanChat(a2)
  {
    assert GetStripped(a1, "question") == GetStripped(a2, "question");
  }

  /** The `list_agents` branch reads only `page` and `size`. */
  lemma ListAgentsReadsOnly(a1: map<string, Value>, a2: map<string, Value>)
    requires SameArg(a1, a2, "page") && SameArg(a1, a2, "size")
    ensures PlanListAgents(a1) == PlanListAgents(a2)
  {
    assert Paging(a1, map[]) == Paging(a2, map[]);
  }

  /** The `list_buckets` branch reads only `agent_id`, `page` and `size`. */
  lemma ListBucketsReadsOnly(a1: map<string, Value>, a2: map<string, Value>)
    requires SameArg(a1, a2, "agent_id") && SameArg(a1, a2, "page") && SameArg(a1, a2, "size")
    ensures PlanListBuckets(a1) == PlanListBuckets(a2)
  {
    assert GetStripped(a1, "agent_id") == GetStripped(a2, "agent_id");
    if GetStripped(a1, "agent_id").Ok? {
      var id := Str(GetStripped(a1, "agent_id").value);
      assert Paging(a1, map["agentId" := id]) == Paging(a2, map["agentId" := id]);
    }
  }

  /** A call whose arguments are rejected never reaches the network. */
  lemma RejectedSendsNothing(planned: Result<Call>, env: Env, send: Request -> Result<Response>)
    requires planned.Err?
    ensures Respond(planned, env) == Respond(planned, env.(send := send))
  {
  }
}
