/** `call_internal_api` and `call_chat_api` (storm-mcp-server/core/internal_api.py):
    the Storm API key comes from the environment (`apiKey`, `None` when the
    variable is unset) and the network is the parameter `send`. */
module InternalApi {
  import opened Wrappers
  import opened Strings
  import opened Json
  import opened Http

  /** The request `call_internal_api` sends, chosen by the upper-cased method.
      `params` of `None` and `{}` send the same query, so both are the empty map. */
  function Prepare(httpMethod: string, endpoint: string, baseUrl: string, params: map<string, Value>,
                   data: Option<map<string, Value>>, files: map<string, FilePart>, apiKey: Option<string>): (r: Result<Request>)
    ensures r.Ok? <==> Upper(httpMethod) in {"GET", "POST", "DELETE"}
    ensures r.Err? ==> r.error == "Unsupported HTTP method: " + httpMethod
    ensures r.Ok? ==> r.value.verb == (if Upper(httpMethod) == "GET" then GET else if Upper(httpMethod) == "POST" then POST else DELETE)
    ensures r.Ok? ==> r.value.url == baseUrl + endpoint && r.value.headers == Headers(apiKey)
    ensures r.Ok? ==> (r.value.body.Multipart? <==> Upper(httpMethod) == "POST" && files != map[])
    ensures r.Ok? ==> (r.value.timeout == 60 <==> r.value.body.Multipart?)
    ensures r.Ok? ==> r.value.timeout == 30 || r.value.timeout == 60
    ensures r.Ok? && Upper(httpMethod) != "POST" ==> r.value.body == NoBody && r.value.params == params
    ensures r.Ok? && r.value.body.Multipart? ==>
      r.value.body.form == data.GetOr(map[]) && r.value.body.files == files && r.value.params == map[]
    ensures r.Ok? && Upper(httpMethod) == "POST" && files == map[] ==>
      r.value.params == params && r.value.body == (if data.Some? then JsonBody(Object(data.value)) else NoBody)
  {
    var url, headers := baseUrl + endpoint, Headers(apiKey);
    var m := Upper(httpMethod);
    if m == "GET" then Ok(Request(GET, url, headers, params, NoBody, 30))
    else if m == "POST" then
      if files != map[] then Ok(Request(POST, url, headers, map[], Multipart(data.GetOr(map[]), files), 60))
      else Ok(Request(POST, url, headers, params, if data.Some? then JsonBody(Object(data.value)) else NoBody, 30))
    else if m == "DELETE" then Ok(Request(DELETE, url, headers, params, NoBody, 30))
    else Err("Unsupported HTTP method: " + httpMethod)
  }

  /** The status check, then `resp.json()`, falling back to a success record
      around the raw text when the body is not JSON. */
  function Decode(resp: Response): (r: Result<Value>)
    ensures r.Err? <==> resp.status >= 400
    ensures r.Err? ==> r.error == ApiError(resp)
    ensures r.Ok? && resp.json.Ok? ==> r.value == resp.json.value
    ensures r.Ok? && resp.json.Err? ==> r.value == Object(map["status" := Str("success"), "data" := Str(resp.text)])
  {
    if resp.status >= 400 then Err(ApiError(resp))
    else if resp.json.Ok? then Ok(resp.json.value)
    else Ok(Object(map["status" := Str("success"), "data" := Str(resp.text)]))
  }

  /** `call_internal_api`: an unsupported method or a transport failure
      propagates; then the status check and the JSON-or-success-record body. */
  function CallInternalApi(httpMethod: string, endpoint: string, baseUrl: string, params: map<string, Value>,
                           data: Option<map<string, Value>>, files: map<string, FilePart>, apiKey: Option<string>,
                           send: Request -> Result<Response>): (r: Result<Value>)
    ensures Prepare(httpMethod, endpoint, baseUrl, params, data, files, apiKey).Err? ==>
      r == Err(Prepare(httpMethod, endpoint, baseUrl, params, data, files, apiKey).error)
    ensures Prepare(httpMethod, endpoint, baseUrl, params, data, files, apiKey).Ok? ==>
      var req := Prepare(httpMethod, endpoint, baseUrl, params, data, files, apiKey).value;
      && (send(req).Err? ==> r == Err(send(req).error))
      && (send(req).Ok? && send(req).value.status >= 400 ==> r == Err(ApiError(send(req).value)))
      && (send(req).Ok? && send(req).value.status < 400 && send(req).value.json.Ok? ==> r == send(req).value.json)
      && (send(req).Ok? && send(req).value.status < 400 && send(req).value.json.Err? ==>
            r == Ok(Object(map["status" := Str("success"), "data" := Str(send(req).value.text)])))
  {
    var req :- Prepare(httpMethod, endpoint, baseUrl, params, data, files, apiKey);
    var resp :- send(req);
    Decode(resp)
  }

  /** `call_chat_api`: a JSON POST to `/api/v2/answer`. */
  function ChatCallRequest(question: string, bucketIds: Value, threadId: Value, webhookUrl: Value,
                           baseUrl: string, apiKey: Option<string>): (r: Request)
    ensures r.verb == POST && r.url == baseUrl + "/api/v2/answer" && r.timeout == 30
    ensures r.headers == Headers(apiKey)
    ensures r.body == JsonBody(Object(ChatBody(question, bucketIds, threadId, webhookUrl)))
  {
    ChatRequest(baseUrl + "/api/v2/answer", apiKey, question, bucketIds, threadId, webhookUrl)
  }

  /** `call_chat_api` has the status check but no fallback for a non-JSON body. */
  function CallChatApi(question: string, bucketIds: Value, threadId: Value, webhookUrl: Value,
                       baseUrl: string, apiKey: Option<string>, send: Request -> Result<Response>): (r: Result<Value>)
    ensures send(ChatCallRequest(question, bucketIds, threadId, webhookUrl, baseUrl, apiKey)).Err? ==>
      r == Err(send(ChatCallRequest(question, bucketIds, threadId, webhookUrl, baseUrl, apiKey)).error)
    ensures send(ChatCallRequest(question, bucketIds, threadId, webhookUrl, baseUrl, apiKey)).Ok? ==>
      var resp := send(ChatCallRequest(question, bucketIds, threadId, webhookUrl, baseUrl, apiKey)).value;
      (resp.status >= 400 ==> r == Err(ApiError(resp))) && (resp.status < 400 ==> r == resp.json)
  {
    var resp :- send(ChatCallRequest(question, bucketIds, threadId, webhookUrl, baseUrl, apiKey));
    JsonOrError(resp)
  }

  /** An unsupported method fails before any request is sent: the outcome
      does not depend on the network at all. */
  lemma UnsupportedMethodSendsNothing(httpMethod: string, endpoint: string, baseUrl: string, params: map<string, Value>,
                                      data: Option<map<string, Value>>, files: map<string, FilePart>, apiKey: Option<string>,
                                      send1: Request -> Result<Response>, send2: Request -> Result<Response>)
    requires Upper(httpMethod) !in {"GET", "POST", "DELETE"}
    ensures CallInternalApi(httpMethod, endpoint, baseUrl, params, data, files, apiKey, send1)
      == CallInternalApi(httpMethod, endpoint, baseUrl, params, data, files, apiKey, send2)
      == Err("Unsupported HTTP method: " + httpMethod)
  {
  }

  /** The method is matched without regard to ASCII case. */
  lemma MethodCaseIgnored(endpoint: string, baseUrl: string, params: map<string, Value>,
                          data: Option<map<string, Value>>, files: map<string, FilePart>, apiKey: Option<string>)
    ensures Prepare("get", endpoint, baseUrl, params, data, files, apiKey) == Prepare("GET", endpoint, baseUrl, params, data, files, apiKey)
    ensures Prepare("Post", endpoint, baseUrl, params, data, files, apiKey) == Prepare("POST", endpoint, baseUrl, params, data, files, apiKey)
    ensures Prepare("delete", endpoint, baseUrl, params, data, files, apiKey) == Prepare("DELETE", endpoint, baseUrl, params, data, files, apiKey)
  {
    assert Upper("get") == "GET" && Upper("GET") == "GET";
    assert Upper("Post") == "POST" && Upper("POST") == "POST";
    assert Upper("delete") == "DELETE" && Upper("DELETE") == "DELETE";
  }

  /** A successful status never raises: any body is accepted, parsed or wrapped. */
  lemma SuccessNeverRaises(httpMethod: string, endpoint: string, baseUrl: string, params: map<string, Value>,
                           data: Option<map<string, Value>>, files: map<string, FilePart>, apiKey: Option<string>,
                           send: Request -> Result<Response>)
    requires Upper(httpMethod) in {"GET", "POST", "DELETE"}
    requires send(Prepare(httpMethod, endpoint, baseUrl, params, data, files, apiKey).value).Ok?
    requires send(Prepare(httpMethod, endpoint, baseUrl, params, data, files, apiKey).value).value.status < 400
    ensures CallInternalApi(httpMethod, endpoint, baseUrl, params, data, files, apiKey, send).Ok?
  {
  }

  /** Unlike `call_internal_api`, the chat call fails on a non-JSON body. */
  lemma ChatHasNoFallback(question: string, bucketIds: Value, threadId: Value, webhookUrl: Value,
                          baseUrl: string, apiKey: Option<string>, send: Request -> Result<Response>)
    requires send(ChatCallRequest(question, bucketIds, threadId, webhookUrl, baseUrl, apiKey)).Ok?
    requires send(ChatCallRequest(question, bucketIds, threadId, webhookUrl, baseUrl, apiKey)).value.status < 400
    requires send(ChatCallRequest(question, bucketIds, threadId, webhookUrl, baseUrl, apiKey)).value.json.Err?
    ensures CallChatApi(question, bucketIds, threadId, webhookUrl, baseUrl, apiKey, send).Err?
    ensures Decode(send(ChatCallRequest(question, bucketIds, threadId, webhookUrl, baseUrl, apiKey)).value).Ok?
  {
  }
}
