/** The `TOOLS_DEFINITION` constant of storm_mcp_server/tools/tool_definitions.py:
    the four Storm tools, with the credential taken from the environment
    rather than from the arguments (except the chat tool's `api_key`). */
module StormDefinitions {
  import opened Registry

  const ChatTool := ToolDef(
    "send_nonstream_chat",
    "/api/v2/answer (non-stream)로 POST 요청을 보내어 질문(question)에 대한 답변을 받아옵니다. (storm-api-key 헤더 사용)",
    Schema(
      [ Property("api_key", StringArg, "storm-api-key 헤더로 보낼 API 키"),
        Property("question", StringArg, "채팅 질문 텍스트"),
        Property("bucketIds", StringArrayArg, "질문 대상 버킷 ID 리스트 (옵션)"),
        Property("threadId", StringArg, "채팅을 전송할 스레드 ID (옵션)"),
        Property("webhookUrl", StringArg, "결과를 받을 웹훅 URL (옵션)") ],
      ["api_key", "question"]))

  const ListAgentsTool := ToolDef(
    "list_agents",
    "Bearer 토큰을 사용해 /api/v2/agents GET으로 호출, 현재 로그인 유저(=해당 bearer) 기준의 에이전트 목록을 가져옵니다. 코드에서 환경변수 BEARER_TOKEN을 사용하므로, 인자로 받을 필요는 없습니다.",
    Schema(
      [ Property("page", IntegerArg, "페이지 번호 (옵션)"),
        Property("size", IntegerArg, "페이지 크기 (옵션)") ],
      []))

  const ListBucketsTool := ToolDef(
    "list_buckets",
    "Bearer 토큰을 사용해 /api/v2/buckets GET으로 호출, 특정 에이전트에 등록된 버킷 목록을 조회합니다. 코드상에서는 환경변수 BEARER_TOKEN을 사용하며, 인자로 agent_id만 꼭 필요합니다.",
    Schema(
      [ Property("agent_id", StringArg, "조회할 에이전트 ID"),
        Property("page", IntegerArg, "페이지 번호 (옵션)"),
        Property("size", IntegerArg, "페이지 크기 (옵션)") ],
      ["agent_id"]))

  const UploadTool := ToolDef(
    "upload_document_by_file",
    "파일을 /api/v2/documents/by-file 엔드포인트에 업로드",
    Schema(
      [ Property("bucket_id", StringArg, "학습된 문서를 저장할 버킷 ID"),
        Property("file_path", StringArg, "업로드할 로컬 파일 경로 (옵션)"),
        Property("file_base64", StringArg, "Base64 인코딩된 파일 데이터 (옵션)"),
        Property("file_name", StringArg, "file_base64를 사용하는 경우, 업로드될 실제 파일 이름 (예: foo.pdf)"),
        Property("webhook_url", StringArg, "결과를 받을 웹훅 URL (옵션)") ],
      ["bucket_id"]))

  const Tools: seq<ToolDef> := [ChatTool, ListAgentsTool, ListBucketsTool, UploadTool]

  /** The four tools, in this order; names are distinct and every required
      argument is a declared property. */
  lemma ToolsWellFormed()
    ensures Names(Tools) == ["send_nonstream_chat", "list_agents", "list_buckets", "upload_document_by_file"]
    ensures WellFormedRegistry(Tools)
  {
    ToolNamesInOrder();
    forall i | 0 <= i < |Tools| ensures WellFormedSchema(Tools[i].inputSchema) {
      if i == 0 {
        ChatToolWellFormed();
      } else if i == 1 {
        ListAgentsToolWellFormed();
      } else if i == 2 {
        ListBucketsToolWellFormed();
      } else {
        UploadToolWellFormed();
      }
    }
  }

  lemma ToolNamesInOrder()
    ensures Names(Tools) == ["send_nonstream_chat", "list_agents", "list_buckets", "upload_document_by_file"]
    ensures Distinct(Names(Tools))
  {
    var names := Names(Tools);
    assert names == ["send_nonstream_chat", "list_agents", "list_buckets", "upload_document_by_file"];
  }

  lemma ChatToolWellFormed()
    ensures PropertyNames(ChatTool.inputSchema.properties) == ["api_key", "question", "bucketIds", "threadId", "webhookUrl"]
    ensures WellFormedSchema(ChatTool.inputSchema)
  {
    var s := ChatTool.inputSchema;
    var names := PropertyNames(s.properties);
    assert names == ["api_key", "question", "bucketIds", "threadId", "webhookUrl"];
    ChatNamesDistinct();
    assert s.required == ["api_key", "question"];
    ChatRequiredDistinct();
  }

  lemma ListAgentsToolWellFormed()
    ensures PropertyNames(ListAgentsTool.inputSchema.properties) == ["page", "size"]
    ensures WellFormedSchema(ListAgentsTool.inputSchema)
  {
    var s := ListAgentsTool.inputSchema;
    var names := PropertyNames(s.properties);
    assert names == ["page", "size"];
    ListAgentsNamesDistinct();
    assert s.required == [];
  }

  lemma ListBucketsToolWellFormed()
    ensures PropertyNames(ListBucketsTool.inputSchema.properties) == ["agent_id", "page", "size"]
    ensures WellFormedSchema(ListBucketsTool.inputSchema)
  {
    var s := ListBucketsTool.inputSchema;
    var names := PropertyNames(s.properties);
    assert names == ["agent_id", "page", "size"];
    ListBucketsNamesDistinct();
    assert s.required == ["agent_id"];
  }

  lemma UploadToolWellFormed()
    ensures PropertyNames(UploadTool.inputSchema.properties) == ["bucket_id", "file_path", "file_base64", "file_name", "webhook_url"]
    ensures WellFormedSchema(UploadTool.inputSchema)
  {
    var s := UploadTool.inputSchema;
    var names := PropertyNames(s.properties);
    assert names == ["bucket_id", "file_path", "file_base64", "file_name", "webhook_url"];
    UploadNamesDistinct();
    assert s.required == ["bucket_id"];
  }

  lemma ChatNamesDistinct()
    ensures Distinct(["api_key", "question", "bucketIds", "threadId", "webhookUrl"])
  {
  }

  lemma ChatRequiredDistinct()
    ensures Distinct(["api_key", "question"])
  {
  }

  lemma ListAgentsNamesDistinct()
    ensures Distinct(["page", "size"])
  {
  }

  lemma ListBucketsNamesDistinct()
    ensures Distinct(["agent_id", "page", "size"])
  {
  }

  lemma UploadNamesDistinct()
    ensures Distinct(["bucket_id", "file_path", "file_base64", "file_name", "webhook_url"])
  {
  }

  /** A name that is not in the registry requires nothing. */
  lemma UnlistedRequiresNothing(name: string)
    requires name !in {"send_nonstream_chat", "list_agents", "list_buckets", "upload_document_by_file"}
    ensures RequiredOf(Tools, name) == []
  {
    ToolNamesInOrder();
    Registry.UnlistedRequiresNothing(Tools, name);
  }

  /** The `required` lists: nothing for `list_agents`, only `agent_id` for
      `list_buckets`, and only `bucket_id` for the upload, whose
      either-path-or-base64 rule the schema does not express. */
  lemma RequiredLists()
    ensures RequiredOf(Tools, "send_nonstream_chat") == ["api_key", "question"]
    ensures RequiredOf(Tools, "list_agents") == []
    ensures RequiredOf(Tools, "list_buckets") == ["agent_id"]
    ensures RequiredOf(Tools, "upload_document_by_file") == ["bucket_id"]
    ensures Satisfies({"bucket_id"}, UploadTool.inputSchema)
  {
    var t1, t2, t3 := Tools[1..], Tools[2..], Tools[3..];
    assert t1[1..] == t2 && t2[1..] == t3;
    assert RequiredOf(t3, "upload_document_by_file") == UploadTool.inputSchema.required;
    assert RequiredOf(t2, "upload_document_by_file") == RequiredOf(t3, "upload_document_by_file");
    assert RequiredOf(t1, "upload_document_by_file") == RequiredOf(t2, "upload_document_by_file");
    assert RequiredOf(t1, "list_buckets") == RequiredOf(t2, "list_buckets");
  }
}
