/** What the Storm API helpers hand to `requests` and what they get back:
    the request a call would send, the response triple, and the pieces every
    helper shares (headers, the status check, the chat body). The network
    itself is a function parameter `send`, whose `Err` stands for a
    transport exception (connection error, timeout). */
module Http {
  import opened Wrappers
  import opened Strings
  import opened Json

  const DefaultBaseUrl: string := "https://live-stargate.sionic.im"

  datatype Verb = GET | POST | DELETE

  /** One multipart file: `(filename, file object, content type)`. */
  datatype FilePart = FilePart(filename: Value, content: seq<byte>, contentType: string)

  datatype Body =
    | NoBody
    | JsonBody(json: Value)
    | Multipart(form: map<string, Value>, files: map<string, FilePart>)

  /** A header whose value is `None` is dropped by `requests` when it sends. */
  datatype Request = Request(
    verb: Verb,
    url: string,
    headers: map<string, Option<string>>,
    params: map<string, Value>,
    body: Body,
    timeout: nat)

  /** Status code, raw body text, and what `resp.json()` gives (`Err` when the
      text does not parse). */
  datatype Response = Response(status: nat, text: string, json: Result<Value>)

  /** The two headers every Storm call sends, multipart uploads included. */
  function Headers(apiKey: Option<string>): (h: map<string, Option<string>>)
    ensures h.Keys == {"Content-Type", "storm-api-key"}
    ensures h["Content-Type"] == Some("application/json") && h["storm-api-key"] == apiKey
  {
    map["Content-Type" := Some("application/json"), "storm-api-key" := apiKey]
  }

  function ApiError(resp: Response): string {
    "API error: " + NatToString(resp.status) + " - " + resp.text
  }

  /** The status check followed by `resp.json()` with no fallback. */
  function JsonOrError(resp: Response): (r: Result<Value>)
    ensures resp.status >= 400 ==> r == Err(ApiError(resp))
    ensures resp.status < 400 ==> r == resp.json
  {
    if resp.status >= 400 then Err(ApiError(resp)) else resp.json
  }

  /** The `/api/v2/answer` body: `question` always, each optional field only
      when it is truthy, so an empty list or string is left out. */
  function ChatBody(question: string, bucketIds: Value, threadId: Value, webhookUrl: Value): (body: map<string, Value>)
    ensures body.Keys <= {"question", "bucketIds", "threadId", "webhookUrl"}
    ensures "question" in body && body["question"] == Str(question)
    ensures "bucketIds" in body <==> Truthy(bucketIds)
    ensures "threadId" in body <==> Truthy(threadId)
    ensures "webhookUrl" in body <==> Truthy(webhookUrl)
    ensures "bucketIds" in body ==> body["bucketIds"] == bucketIds
    ensures "threadId" in body ==> body["threadId"] == threadId
    ensures "webhookUrl" in body ==> body["webhookUrl"] == webhookUrl
  {
    var b0 := map["question" := Str(question)];
    var b1 := if Truthy(bucketIds) then b0["bucketIds" := bucketIds] else b0;
    var b2 := if Truthy(threadId) then b1["threadId" := threadId] else b1;
    if Truthy(webhookUrl) then b2["webhookUrl" := webhookUrl] else b2
  }

  /** The JSON POST every `call_chat_api` variant sends, 30-second timeout. */
  function ChatRequest(url: string, apiKey: Option<string>, question: string, bucketIds: Value, threadId: Value, webhookUrl: Value): Request {
    Request(POST, url, Headers(apiKey), map[], JsonBody(Object(ChatBody(question, bucketIds, threadId, webhookUrl))), 30)
  }

  /** The decimal rendering of a status code determines the code. */
  lemma {:induction false} NatToStringInjective(a: nat, b: nat)
    requires NatToString(a) == NatToString(b)
    ensures a == b
    decreases a
  {
    if a < 10 || b < 10 {
      NatToStringShort(a);
      NatToStringShort(b);
      assert DigitChar(a) == NatToString(a)[0] == NatToString(b)[0] == DigitChar(b);
    } else {
      var sa, sb := NatToString(a), NatToString(b);
      assert sa[..|sa| - 1] == NatToString(a / 10) && sb[..|sb| - 1] == NatToString(b / 10);
      NatToStringInjective(a / 10, b / 10);
      assert DigitChar(a % 10) == sa[|sa| - 1] == sb[|sb| - 1] == DigitChar(b % 10);
    }
  }

  lemma NatToStringShort(n: nat)
    ensures |NatToString(n)| == 1 <==> n < 10
  {
    if n >= 10 {
      assert |NatToString(n / 10)| >= 1;
    }
  }

  /** Position of the first space in `t`, or `|t|` when there is none. */
  function SpaceIndex(t: string): (n: nat)
    ensures n <= |t|
  {
    if t == [] || t[0] == ' ' then 0 else 1 + SpaceIndex(t[1..])
  }

  lemma {:induction false} SpaceAfterDigits(s: string, rest: string)
    requires forall k | 0 <= k < |s| :: '0' <= s[k] <= '9'
    ensures SpaceIndex(s + " - " + rest) == |s|
    decreases |s|
  {
    if s != [] {
      SpaceAfterDigits(s[1..], rest);
      assert (s + " - " + rest)[1..] == s[1..] + " - " + rest;
    }
  }

  /** The error raised for a failed status carries the status and the body
      text recoverably: different responses give different messages. */
  lemma ApiErrorInjective(r1: Response, r2: Response)
    requires ApiError(r1) == ApiError(r2)
    ensures r1.status == r2.status && r1.text == r2.text
  {
    var p := "API error: ";
    var s1, s2 := NatToString(r1.status), NatToString(r2.status);
    var t1, t2 := s1 + " - " + r1.text, s2 + " - " + r2.text;
    assert ApiError(r1) == p + t1 && ApiError(r2) == p + t2;
    assert t1 == ApiError(r1)[|p|..] == t2;
    SpaceAfterDigits(s1, r1.text);
    SpaceAfterDigits(s2, r2.text);
    assert s1 == t1[..|s1|] && s2 == t2[..|s2|];
    NatToStringInjective(r1.status, r2.status);
    assert r1.text == t1[|s1| + 3..] && r2.text == t2[|s2| + 3..];
  }
}
