/** scripts/old.py: a single-tool server that forwards `send_nonstream_chat`
    to the Storm chat endpoint with the caller's own API key. */
module OldScript {
  import opened Wrappers
  import opened Strings
  import opened Json
  import opened Http
  import opened Registry
  import ChatApi
  import StormDefinitions
  import CoreDefinitions
  import ToolCalls

  /** The fixed chat URL, the default base URL followed by `/api/v2/answer`. */
  const ChatUrl: string := DefaultBaseUrl + "/api/v2/answer"

  /** `call_chat_api`: a JSON POST with the caller's key as `storm-api-key`. */
  function ChatCallRequest(apiKey: string, question: string, bucketIds: Value, threadId: Value, webhookUrl: Value): (r: Request)
    ensures r.verb == POST && r.url == ChatUrl && r.timeout == 30
    ensures r.headers.Keys == {"Content-Type", "storm-api-key"} && r.headers["storm-api-key"] == Some(apiKey)
    ensures r.body == JsonBody(Object(ChatBody(question, bucketIds, threadId, webhookUrl)))
  {
    ChatRequest(ChatUrl, Some(apiKey), question, bucketIds, threadId, webhookUrl)
  }

  /** The status check, then the parsed JSON with no fallback. */
  function CallChatApi(apiKey: string, question: string, bucketIds: Value, threadId: Value, webhookUrl: Value,
                       send: Request -> Result<Response>): (r: Result<Value>)
    ensures send(ChatCallRequest(apiKey, question, bucketIds, threadId, webhookUrl)).Err? ==>
      r == Err(send(ChatCallRequest(apiKey, question, bucketIds, threadId, webhookUrl)).error)
    ensures send(ChatCallRequest(apiKey, question, bucketIds, threadId, webhookUrl)).Ok? ==>
      var resp := send(ChatCallRequest(apiKey, question, bucketIds, threadId, webhookUrl)).value;
      (resp.status >= 400 ==> r == Err(ApiError(resp))) && (resp.status < 400 ==> r == resp.json)
  {
    var resp :- send(ChatCallRequest(apiKey, question, bucketIds, threadId, webhookUrl));
    JsonOrError(resp)
  }

  const ChatTool := ToolDef(
    "send_nonstream_chat",
    "/api/v2/answer (non-stream)로 POST 요청을 보내어 질문(question)에 대한 답변을 받아옵니다. (storm-api-key 헤더 사용)",
    Schema(
      [ Property("api_key", StringArg, "storm-api-key 헤더로 보낼 API 키"),
        Property("question", StringArg, "채팅 질문 텍스트"),
        Property("bucketIds", StringArrayArg, "질문 대상 버킷 ID 리스트 (옵션)"),
        Property("threadId", StringArg, "채팅을 전송할 스레드 ID (옵션)"),
        Property("webhookUrl", StringArg, "결과를 받을 웹훅 URL (옵션)") ],
      ["api_key", "question"]))

  const Tools: seq<ToolDef> := [ChatTool]

  /** `handle_list_tools`: the one tool, unchanged. */
  method HandleListTools() returns (tools: seq<Tool>)
    ensures ToolNames(tools) == ["send_nonstream_chat"]
    ensures tools[0].inputSchema.required == ["api_key", "question"]
    ensures tools[0].description == ChatTool.description && tools[0].inputSchema == ChatTool.inputSchema
  {
    tools := ListTools(Tools);
    ListedNames(Tools, tools);
  }

  /** `handle_call_tool` up to the request: the name is checked first, then
      `api_key` and `question` are stripped and must both be non-blank, the
      key before the question. */
  function Plan(name: string, args: map<string, Value>): (r: Result<Request>)
    ensures name != "send_nonstream_chat" ==> r == Err(ToolCalls.NotFound(name))
    ensures name == "send_nonstream_chat" && GetStripped(args, "api_key") == Ok("") && GetStripped(args, "question").Ok? ==>
      r == Err("api_key is required")
    ensures r.Ok? <==> (name == "send_nonstream_chat"
      && "api_key" in args && args["api_key"].Str? && Strip(args["api_key"].s) != ""
      && "question" in args && args["question"].Str? && Strip(args["question"].s) != "")
    ensures r.Ok? ==> r.value == ChatCallRequest(Strip(args["api_key"].s), Strip(args["question"].s),
      Get(args, "bucketIds", Null), Get(args, "threadId", Null), Get(args, "webhookUrl", Null))
  {
    if name != "send_nonstream_chat" then Err(ToolCalls.NotFound(name))
    else
      var apiKey :- GetStripped(args, "api_key");
      var question :- GetStripped(args, "question");
      if apiKey == "" then Err("api_key is required")
      else if question == "" then Err("question is required")
      else Ok(ChatCallRequest(apiKey, question, Get(args, "bucketIds", Null), Get(args, "threadId", Null), Get(args, "webhookUrl", Null)))
  }

  /** `handle_call_tool`: the dumped response, every failure wrapped. */
  function CallTool(name: string, args: map<string, Value>, send: Request -> Result<Response>,
                    dumps: Value -> string): (r: Result<string>)
    ensures r.Err? ==> StartsWith(r.error, "Tool call error: ")
    ensures Plan(name, args).Err? ==> r == Err(ToolCalls.Wrapped(Plan(name, args).error))
    ensures Plan(name, args).Ok? && send(Plan(name, args).value).Err? ==>
      r == Err(ToolCalls.Wrapped(send(Plan(name, args).value).error))
    ensures Plan(name, args).Ok? && send(Plan(name, args).value).Ok? ==>
      var resp := send(Plan(name, args).value).value;
      && (resp.status >= 400 ==> r == Err(ToolCalls.Wrapped(ApiError(resp))))
      && (resp.status < 400 && resp.json.Err? ==> r == Err(ToolCalls.Wrapped(resp.json.error)))
      && (resp.status < 400 && resp.json.Ok? ==> r == Ok(dumps(resp.json.value)))
  {
    var outcome := if Plan(name, args).Err? then Err(Plan(name, args).error)
                   else var resp :- send(Plan(name, args).value); JsonOrError(resp);
    match outcome
    case Ok(v) => Ok(dumps(v))
    case Err(e) => Err(ToolCalls.Wrapped(e))
  }

  // ---------------------------------------------------------------------------
  // Properties

  /** The request is the one `core/chat_api.py` builds at the default base URL. */
  lemma SameRequestAsChatApi(apiKey: string, question: string, bucketIds: Value, threadId: Value, webhookUrl: Value)
    ensures ChatCallRequest(apiKey, question, bucketIds, threadId, webhookUrl)
      == ChatApi.ChatCallRequest(apiKey, question, bucketIds, threadId, webhookUrl, DefaultBaseUrl)
  {
  }

  /** The one tool is the chat tool of both four-tool registries, unchanged. */
  lemma SameChatTool()
    ensures ChatTool == StormDefinitions.ChatTool == CoreDefinitions.ChatTool
    ensures Tools[0].inputSchema.required == ["api_key", "question"]
  {
  }

  /** Any other tool name fails, wrapped, before anything is read or sent. */
  lemma UnknownToolRejected(name: string, args: map<string, Value>, send: Request -> Result<Response>, dumps: Value -> string)
    requires name != "send_nonstream_chat"
    ensures CallTool(name, args, send, dumps) == Err(ToolCalls.Wrapped("Tool '" + name + "' not found."))
  {
  }

  /** Both required arguments are enforced here, the key first. */
  lemma RequiredEnforced(args: map<string, Value>)
    ensures "api_key" !in args ==> Plan("send_nonstream_chat", args).Err?
    ensures "question" !in args ==> Plan("send_nonstream_chat", args).Err?
    ensures "api_key" !in args && "question" !in args ==> Plan("send_nonstream_chat", args) == Err("api_key is required")
  {
    StripTrimmed("");
  }

  /** A rejected call never reaches the network. */
  lemma RejectedCallSendsNothing(name: string, args: map<string, Value>, send1: Request -> Result<Response>,
                                 send2: Request -> Result<Response>, dumps: Value -> string)
    requires Plan(name, args).Err?
    ensures CallTool(name, args, send1, dumps) == CallTool(name, args, send2, dumps)
  {
  }
}
