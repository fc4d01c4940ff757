/** The `TOOLS_DEFINITION` constant of storm-mcp-server/core/tool_definitions.py:
    the same four tools, each Storm-internal one declaring and requiring a
    `bearer_token`, and an upload that only takes a local path. */
module CoreDefinitions {
  import opened Registry

  const ChatTool := ToolDef(
    "send_nonstream_chat",
    "/api/v2/answer (non-stream)로 POST 요청을 보내어 질문(question)에 대한 답변을 받아옵니다. (storm-api-key 헤더 사용)",
    Schema(
      [ Property("api_key", StringArg, "storm-api-key 헤더로 보낼 API 키"),
        Property("question", StringArg, "채팅 질문 텍스트"),
        Property("bucketIds", StringArrayArg, "질문 대상 버킷 ID 리스트 (옵션)"),
        Property("threadId", StringArg, "채팅을 전송할 스레드 ID (옵션)"),
        Property("webhookUrl", StringArg, "결과를 받을 웹훅 URL (옵션)") ],
      ["api_key", "question"]))

  const BearerToken := Property("bearer_token", StringArg, "인증에 사용할 Bearer 토큰")

  const ListAgentsTool := ToolDef(
    "list_agents",
    "Bearer 토큰을 사용해 /api/v2/agents GET 으로 호출, 현재 로그인 유저(=해당 bearer) 기준의 에이전트 목록을 가져옵니다.",
    Schema(
      [ BearerToken,
        Property("page", IntegerArg, "페이지 번호 (옵션)"),
        Property("size", IntegerArg, "페이지 크기 (옵션)") ],
      ["bearer_token"]))

  const ListBucketsTool := ToolDef(
    "list_buckets",
    "Bearer 토큰을 사용해 /api/v2/buckets GET 으로 호출, 특정 에이전트에 등록된 버킷 목록을 조회합니다.",
    Schema(
      [ BearerToken,
        Property("agent_id", StringArg, "조회할 에이전트 ID"),
        Property("page", IntegerArg, "페이지 번호 (옵션)"),
        Property("size", IntegerArg, "페이지 크기 (옵션)") ],
      ["bearer_token", "agent_id"]))

  const UploadTool := ToolDef(
    "upload_document_by_file",
    "Bearer 토큰을 사용해 /api/v2/documents/by-file 에 문서를 업로드(학습)합니다. multipart/form-data 로 bucketId, file 등을 전송.",
    Schema(
      [ BearerToken,
        Property("bucket_id", StringArg, "학습된 문서를 저장할 버킷 ID"),
        Property("file_path", StringArg, "업로드할 로컬 파일 경로"),
        Property("webhook_url", StringArg, "결과를 받을 웹훅 URL (옵션)") ],
      ["bearer_token", "bucket_id", "file_path"]))

  const Tools: seq<ToolDef> := [ChatTool, ListAgentsTool, ListBucketsTool, UploadTool]

  /** The four tools, in this order; names are distinct and every required
      argument is a declared property. */
  lemma ToolsWellFormed()
    ensures Names(Tools) == ["send_nonstream_chat", "list_agents", "list_buckets", "upload_document_by_file"]
    ensures WellFormedRegistry(Tools)
  {
    ToolNamesInOrder();
    forall i | 0 <= i < |Tools| ensures WellFormedSchema(Tools[i].inputSchema) {
      if i == 0 {
        ChatToolWellFormed();
      } else if i == 1 {
        ListAgentsToolWellFormed();
      } else if i == 2 {
        ListBucketsToolWellFormed();
      } else {
        UploadToolWellFormed();
      }
    }
  }

  lemma ToolNamesInOrder()
    ensures Names(Tools) == ["send_nonstream_chat", "list_agents", "list_buckets", "upload_document_by_file"]
    ensures Distinct(Names(Tools))
  {
    var names := Names(Tools);
    assert names == ["send_nonstream_chat", "list_agents", "list_buckets", "upload_document_by_file"];
  }

  lemma ChatToolWellFormed()
    ensures PropertyNames(ChatTool.inputSchema.properties) == ["api_key", "question", "bucketIds", "threadId", "webhookUrl"]
    ensures WellFormedSchema(ChatTool.inputSchema)
  {
    var s := ChatTool.inputSchema;
    var names := PropertyNames(s.properties);
    assert names == ["api_key", "question", "bucketIds", "threadId", "webhookUrl"];
    ChatNamesDistinct();
    assert s.required == ["api_key", "question"];
    ChatRequiredDistinct();
  }

  lemma ListAgentsToolWellFormed()
    ensures PropertyNames(ListAgentsTool.inputSchema.properties) == ["bearer_token", "page", "size"]
    ensures WellFormedSchema(ListAgentsTool.inputSchema)
  {
    var s := ListAgentsTool.inputSchema;
    var names := PropertyNames(s.properties);
    assert names == ["bearer_token", "page", "size"];
    ListAgentsNamesDistinct();
    assert s.required == ["bearer_token"];
  }

  lemma ListBucketsToolWellFormed()
    ensures PropertyNames(ListBucketsTool.inputSchema.properties) == ["bearer_token", "agent_id", "page", "size"]
    ensures WellFormedSchema(ListBucketsTool.inputSchema)
  {
    var s := ListBucketsTool.inputSchema;
    var names := PropertyNames(s.properties);
    assert names == ["bearer_token", "agent_id", "page", "size"];
    ListBucketsNamesDistinct();
    assert s.required == ["bearer_token", "agent_id"];
    ListBucketsRequiredDistinct();
  }

  lemma UploadToolWellFormed()
    ensures PropertyNames(UploadTool.inputSchema.properties) == ["bearer_token", "bucket_id", "file_path", "webhook_url"]
    ensures WellFormedSchema(UploadTool.inputSchema)
  {
    var s := UploadTool.inputSchema;
    var names := PropertyNames(s.properties);
    assert names == ["bearer_token", "bucket_id", "file_path", "webhook_url"];
    UploadNamesDistinct();
    assert s.required == ["bearer_token", "bucket_id", "file_path"];
    UploadRequiredDistinct();
  }

  lemma ChatNamesDistinct()
    ensures Distinct(["api_key", "question", "bucketIds", "threadId", "webhookUrl"])
  {
  }

  lemma ChatRequiredDistinct()
    ensures Distinct(["api_key", "question"])
  {
  }

  lemma ListAgentsNamesDistinct()
    ensures Distinct(["bearer_token", "page", "size"])
  {
  }

  lemma ListBucketsNamesDistinct()
    ensures Distinct(["bearer_token", "agent_id", "page", "size"])
  {
  }

  lemma ListBucketsRequiredDistinct()
    ensures Distinct(["bearer_token", "agent_id"])
  {
  }

  lemma UploadNamesDistinct()
    ensures Distinct(["bearer_token", "bucket_id", "file_path", "webhook_url"])
  {
  }

  lemma UploadRequiredDistinct()
    ensures Distinct(["bearer_token", "bucket_id", "file_path"])
  {
  }

  /** A name that is not in the registry requires nothing. */
  lemma UnlistedRequiresNothing(name: string)
    requires name !in {"send_nonstream_chat", "list_agents", "list_buckets", "upload_document_by_file"}
    ensures RequiredOf(Tools, name) == []
  {
    ToolNamesInOrder();
    Registry.UnlistedRequiresNothing(Tools, name);
  }

  /** `bearer_token` is required by every tool but the chat; the upload also
      requires `file_path` and declares no base64 fields. */
  lemma RequiredLists()
    ensures RequiredOf(Tools, "send_nonstream_chat") == ["api_key", "question"]
    ensures RequiredOf(Tools, "list_agents") == ["bearer_token"]
    ensures RequiredOf(Tools, "list_buckets") == ["bearer_token", "agent_id"]
    ensures RequiredOf(Tools, "upload_document_by_file") == ["bearer_token", "bucket_id", "file_path"]
    ensures forall p | p in UploadTool.inputSchema.properties :: p.name != "file_base64" && p.name != "file_name"
  {
    var t1, t2, t3 := Tools[1..], Tools[2..], Tools[3..];
    assert t1[1..] == t2 && t2[1..] == t3;
    assert RequiredOf(t3, "upload_document_by_file") == UploadTool.inputSchema.required;
    assert RequiredOf(t2, "upload_document_by_file") == RequiredOf(t3, "upload_document_by_file");
    assert RequiredOf(t1, "upload_document_by_file") == RequiredOf(t2, "upload_document_by_file");
    assert RequiredOf(t1, "list_buckets") == RequiredOf(t2, "list_buckets");
  }
}
