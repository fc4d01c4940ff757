/** `call_chat_api` in storm-mcp-server/core/chat_api.py: the same chat call
    with the Storm API key passed in explicitly. */
module ChatApi {
  import opened Wrappers
  import opened Json
  import opened Http

  function ChatCallRequest(apiKey: string, question: string, bucketIds: Value, threadId: Value, webhookUrl: Value,
                           baseUrl: string): (r: Request)
    ensures r.verb == POST && r.url == baseUrl + "/api/v2/answer" && r.timeout == 30
    ensures r.headers == Headers(Some(apiKey))
    ensures r.body == JsonBody(Object(ChatBody(question, bucketIds, threadId, webhookUrl)))
  {
    ChatRequest(baseUrl + "/api/v2/answer", Some(apiKey), question, bucketIds, threadId, webhookUrl)
  }

  /** A failed status raises with status and text; otherwise the parsed JSON. */
  function CallChatApi(apiKey: string, question: string, bucketIds: Value, threadId: Value, webhookUrl: Value,
                       baseUrl: string, send: Request -> Result<Response>): (r: Result<Value>)
    ensures send(ChatCallRequest(apiKey, question, bucketIds, threadId, webhookUrl, baseUrl)).Err? ==>
      r == Err(send(ChatCallRequest(apiKey, question, bucketIds, threadId, webhookUrl, baseUrl)).error)
    ensures send(ChatCallRequest(apiKey, question, bucketIds, threadId, webhookUrl, baseUrl)).Ok? ==>
      var resp := send(ChatCallRequest(apiKey, question, bucketIds, threadId, webhookUrl, baseUrl)).value;
      (resp.status >= 400 ==> r == Err(ApiError(resp))) && (resp.status < 400 ==> r == resp.json)
  {
    var resp :- send(ChatCallRequest(apiKey, question, bucketIds, threadId, webhookUrl, baseUrl));
    JsonOrError(resp)
  }

  /** An empty bucket list and an empty thread id are left out of the body,
      just as if they had not been given. */
  lemma EmptyOptionalsOmitted(apiKey: string, question: string, baseUrl: string)
    ensures ChatCallRequest(apiKey, question, Array([]), Str(""), Str(""), baseUrl)
      == ChatCallRequest(apiKey, question, Null, Null, Null, baseUrl)
    ensures ChatCallRequest(apiKey, question, Null, Null, Null, baseUrl).body == JsonBody(Object(map["question" := Str(question)]))
  {
    var b1, b2 := ChatBody(question, Array([]), Str(""), Str("")), ChatBody(question, Null, Null, Null);
    assert b1.Keys == b2.Keys == {"question"};
    assert b2 == map["question" := Str(question)];
  }
}
