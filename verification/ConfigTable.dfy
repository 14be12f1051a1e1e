/**
 * The configuration sections as the client prints them, the fields editable in each, and
 * where each field is read back. Reader paths are relative to the section.
 */
module ConfigTable {
  import opened Util
  import opened JsonValue
  import opened ConfigMerge
  import opened ConfigForm

  const SECRET_PROVIDER := Node(map[
    "type" := Const(Str("postgres_encrypted")),
    "endpoint" := Value("secretProviderEndpoint"),
    "auth_method" := Const(Str("database")),
    "secret_ref_policy" := Node(map[
      "allowed_namespaces" := Const(Arr([Str("rag")])),
      "required_prefix" := Const(Str("secret://rag/"))])])

  const SECRET_PROVIDER_FIELDS := [
    "secretProviderEndpoint"]

  const SECRET_PROVIDER_READS := [
    Entry(["endpoint"], "secretProviderEndpoint", AsString)]

  const REDIS := Node(map[
    "url" := Value("redisUrl"),
    "pool" := Node(map[
      "max_connections" := Const(Num(32.0)),
      "connect_timeout_ms" := Const(Num(500.0)),
      "socket_timeout_ms" := Const(Num(1000.0)),
      "retry_on_timeout" := Const(Bool(true))]),
    "cache_strategy" := Node(map[
      "permission_context_enabled" := Const(Bool(true)),
      "query_cache_enabled" := Const(Bool(true)),
      "rate_limit_enabled" := Const(Bool(true)),
      "lock_enabled" := Const(Bool(true)),
      "config_notify_enabled" := Const(Bool(true))])])

  const REDIS_FIELDS := [
    "redisUrl"]

  const REDIS_READS := [
    Entry(["url"], "redisUrl", AsString)]

  const STORAGE := Node(map[
    "provider" := Const(Str("minio")),
    "minio_endpoint" := Value("minioEndpoint"),
    "bucket" := Value("minioBucket"),
    "region" := Value("minioRegion"),
    "tls_enabled" := Const(Bool(false)),
    "access_key_ref" := Value("minioAccessKeyRef"),
    "secret_key_ref" := Value("minioSecretKeyRef"),
    "object_key_prefix" := Value("objectKeyPrefix")])

  const STORAGE_FIELDS := [
    "minioEndpoint", "minioBucket", "minioRegion", "objectKeyPrefix", "minioAccessKeyRef",
    "minioSecretKeyRef"]

  const STORAGE_READS := [
    Entry(["minio_endpoint"], "minioEndpoint", AsString),
    Entry(["bucket"], "minioBucket", AsString),
    Entry(["region"], "minioRegion", AsString),
    Entry(["object_key_prefix"], "objectKeyPrefix", AsString),
    Entry(["access_key_ref"], "minioAccessKeyRef", AsString),
    Entry(["secret_key_ref"], "minioSecretKeyRef", AsString)]

  const VECTOR_STORE := Node(map[
    "provider" := Const(Str("qdrant")),
    "qdrant_base_url" := Value("qdrantBaseUrl"),
    "api_key_ref" := SecretValue("qdrantApiKeyRef"),
    "collection_prefix" := Value("collectionPrefix"),
    "distance" := Value("vectorDistance"),
    "write_check_enabled" := Const(Bool(true)),
    "delete_check_enabled" := Const(Bool(true))])

  const VECTOR_STORE_FIELDS := [
    "qdrantBaseUrl", "qdrantApiKeyRef", "collectionPrefix", "vectorDistance"]

  const VECTOR_STORE_READS := [
    Entry(["qdrant_base_url"], "qdrantBaseUrl", AsString),
    Entry(["api_key_ref"], "qdrantApiKeyRef", AsString),
    Entry(["collection_prefix"], "collectionPrefix", AsString),
    Entry(["distance"], "vectorDistance", AsVectorDistance)]

  const KEYWORD_SEARCH := Node(map[
    "provider" := Const(Str("postgres_full_text")),
    "language" := Value("keywordLanguage"),
    "keyword_analyzer" := Value("keywordAnalyzer"),
    "dictionary_version" := Const(Str("dict-p0-v1")),
    "synonym_version" := Const(Str("syn-p0-v1")),
    "stopwords_version" := Const(Str("stop-p0-v1")),
    "boosts" := Node(map[
      "title" := Const(Num(2.0)),
      "heading_path" := Const(Num(1.5)),
      "body" := Const(Num(1.0)),
      "tags" := Const(Num(1.2))])])

  const KEYWORD_SEARCH_FIELDS := [
    "keywordLanguage", "keywordAnalyzer"]

  const KEYWORD_SEARCH_READS := [
    Entry(["language"], "keywordLanguage", AsString),
    Entry(["keyword_analyzer"], "keywordAnalyzer", AsString)]

  const EMBEDDING_PROVIDER := Node(map[
    "type" := Const(Str("tei")),
    "base_url" := Value("embeddingProviderBaseUrl"),
    "auth_token_ref" := Const(Null),
    "healthcheck_path" := Const(Str("/health")),
    "embeddings_path" := Const(Str("/v1/embeddings"))])

  const RERANK_PROVIDER := Node(map[
    "type" := Const(Str("tei")),
    "base_url" := Value("rerankProviderBaseUrl"),
    "auth_token_ref" := Const(Null),
    "healthcheck_path" := Const(Str("/health")),
    "rerank_path" := Const(Str("/rerank"))])

  const LLM_PROVIDER := Node(map[
    "type" := Const(Str("openai_compatible")),
    "base_url" := Value("llmProviderBaseUrl"),
    "auth_token_ref" := Const(Null),
    "healthcheck_path" := Const(Str("/health")),
    "chat_completions_path" := Const(Str("/v1/chat/completions"))])

  const GATEWAY_PROVIDERS := Node(map[
    "embedding" := EMBEDDING_PROVIDER,
    "rerank" := RERANK_PROVIDER,
    "llm" := LLM_PROVIDER])

  const GATEWAY_ROUTES := Node(map[
    "embedding" := Node(map[
      "online_default" := Value("embeddingModel"),
      "batch_default" := Value("embeddingModel")]),
    "rerank" := Node(map[
      "default" := Value("rerankModel")]),
    "llm" := Node(map[
      "default" := Value("llmModel"),
      "fallback" := Value("llmFallbackModel")])])

  const GATEWAY_HEALTHCHECK := Node(map[
    "path" := Const(Str("/health")),
    "timeout_ms" := Const(Num(2000.0)),
    "failure_threshold" := Const(Num(3.0))])

  const MODEL_GATEWAY := Node(map[
    "mode" := Value("modelGatewayMode"),
    "auth_token_ref" := Const(Null),
    "providers" := GATEWAY_PROVIDERS,
    "routes" := GATEWAY_ROUTES,
    "healthcheck" := GATEWAY_HEALTHCHECK])

  const MODEL_GATEWAY_FIELDS := [
    "modelGatewayMode", "embeddingProviderBaseUrl", "rerankProviderBaseUrl", "llmProviderBaseUrl",
    "embeddingModel", "rerankModel", "llmModel", "llmFallbackModel"]

  const MODEL_GATEWAY_READS := [
    Entry(["mode"], "modelGatewayMode", AsModelGatewayMode),
    Entry(["providers", "embedding", "base_url"], "embeddingProviderBaseUrl", AsString),
    Entry(["providers", "rerank", "base_url"], "rerankProviderBaseUrl", AsString),
    Entry(["providers", "llm", "base_url"], "llmProviderBaseUrl", AsString)]

  const MODEL := Node(map[
    "embedding_model" := Value("embeddingModel"),
    "embedding_version" := Const(Str("2026-04-30")),
    "embedding_dimension" := Value("embeddingDimension"),
    "embedding_normalize" := Const(Bool(true)),
    "embedding_tokenizer_version" := Const(Str("jina‑embeddings‑v2‑base‑zh-tokenizer")),
    "rerank_model" := Value("rerankModel"),
    "llm_model" := Value("llmModel"),
    "llm_fallback_model" := Value("llmFallbackModel")])

  const MODEL_FIELDS := [
    "embeddingDimension", "embeddingModel", "rerankModel", "llmModel", "llmFallbackModel"]

  const MODEL_READS := [
    Entry(["embedding_dimension"], "embeddingDimension", AsNumber),
    Entry(["embedding_model"], "embeddingModel", AsString),
    Entry(["rerank_model"], "rerankModel", AsString),
    Entry(["llm_model"], "llmModel", AsString),
    Entry(["llm_fallback_model"], "llmFallbackModel", AsString)]

  const AUTH := Node(map[
    "password_min_length" := Value("passwordMinLength"),
    "password_require_uppercase" := Const(Bool(true)),
    "password_require_lowercase" := Const(Bool(true)),
    "password_require_digit" := Const(Bool(true)),
    "password_require_symbol" := Const(Bool(false)),
    "login_failure_limit" := Const(Num(5.0)),
    "lock_minutes" := Const(Num(15.0)),
    "access_token_ttl_minutes" := Value("accessTokenTtlMinutes"),
    "refresh_token_ttl_minutes" := Value("refreshTokenTtlMinutes"),
    "jwt_issuer" := Value("jwtIssuer"),
    "jwt_audience" := Value("jwtAudience"),
    "jwt_signing_key_ref" := Value("jwtSigningKeyRef")])

  const AUTH_FIELDS := [
    "passwordMinLength", "accessTokenTtlMinutes", "refreshTokenTtlMinutes", "jwtIssuer",
    "jwtAudience", "jwtSigningKeyRef"]

  const AUTH_READS := [
    Entry(["password_min_length"], "passwordMinLength", AsNumber),
    Entry(["access_token_ttl_minutes"], "accessTokenTtlMinutes", AsNumber),
    Entry(["refresh_token_ttl_minutes"], "refreshTokenTtlMinutes", AsNumber),
    Entry(["jwt_issuer"], "jwtIssuer", AsString),
    Entry(["jwt_audience"], "jwtAudience", AsString),
    Entry(["jwt_signing_key_ref"], "jwtSigningKeyRef", AsString)]

  const FUSION_PARAMS := Node(map[
    "rrf_k" := Const(Num(60.0)),
    "title_boost" := Const(Num(1.2)),
    "freshness_boost" := Const(Num(1.0)),
    "low_ocr_penalty" := Const(Num(0.8))])

  const RETRIEVAL := Node(map[
    "vector_top_k" := Value("vectorTopK"),
    "keyword_top_k" := Value("keywordTopK"),
    "fusion_method" := Const(Str("rrf")),
    "fusion_params" := FUSION_PARAMS,
    "rerank_input_top_k" := Value("rerankInputTopK"),
    "rerank_min_score" := Value("rerankMinScore"),
    "final_context_top_k" := Value("finalContextTopK"),
    "max_context_tokens" := Value("maxContextTokens"),
    "rewrite_enabled" := Const(Bool(false)),
    "expansion_enabled" := Const(Bool(false))])

  const RETRIEVAL_FIELDS := [
    "vectorTopK", "keywordTopK", "rerankInputTopK", "rerankMinScore", "finalContextTopK",
    "maxContextTokens"]

  const RETRIEVAL_READS := [
    Entry(["vector_top_k"], "vectorTopK", AsNumber),
    Entry(["keyword_top_k"], "keywordTopK", AsNumber),
    Entry(["rerank_input_top_k"], "rerankInputTopK", AsNumber),
    Entry(["rerank_min_score"], "rerankMinScore", AsNumber),
    Entry(["final_context_top_k"], "finalContextTopK", AsNumber),
    Entry(["max_context_tokens"], "maxContextTokens", AsNumber)]

  const CHUNK := Node(map[
    "default_size_tokens" := Value("chunkDefaultSizeTokens"),
    "overlap_tokens" := Value("chunkOverlapTokens"),
    "strategy" := Node(map[
      "mode" := Value("chunkStrategyMode"),
      "preserve_tables" := Value("chunkPreserveTables"),
      "preserve_code_blocks" := Value("chunkPreserveCodeBlocks"),
      "preserve_contract_clauses" := Value("chunkPreserveContractClauses")])])

  const CHUNK_FIELDS := [
    "chunkDefaultSizeTokens", "chunkOverlapTokens", "chunkStrategyMode", "chunkPreserveTables",
    "chunkPreserveCodeBlocks", "chunkPreserveContractClauses"]

  const CHUNK_READS := [
    Entry(["default_size_tokens"], "chunkDefaultSizeTokens", AsNumber),
    Entry(["overlap_tokens"], "chunkOverlapTokens", AsNumber),
    Entry(["strategy", "mode"], "chunkStrategyMode", AsChunkStrategyMode),
    Entry(["strategy", "preserve_tables"], "chunkPreserveTables", AsBoolean),
    Entry(["strategy", "preserve_code_blocks"], "chunkPreserveCodeBlocks", AsBoolean),
    Entry(["strategy", "preserve_contract_clauses"], "chunkPreserveContractClauses", AsBoolean)]

  const IMPORT := Node(map[
    "max_file_mb" := Value("maxFileMb"),
    "allowed_file_types" := Const(Arr([Str("pdf"), Str("docx"), Str("txt"), Str("md")])),
    "max_concurrent_jobs" := Value("maxConcurrentJobs"),
    "department_concurrent_jobs" := Const(Num(2.0)),
    "user_concurrent_jobs" := Const(Num(1.0)),
    "file_concurrency_per_job" := Const(Num(2.0)),
    "embedding_batch_size" := Value("embeddingBatchSize"),
    "index_batch_size" := Value("indexBatchSize"),
    "retry_policy" := Node(map[
      "max_retries" := Const(Num(3.0)),
      "initial_delay_seconds" := Const(Num(30.0)),
      "max_delay_seconds" := Const(Num(600.0)),
      "dead_letter_enabled" := Const(Bool(true))])])

  const IMPORT_FIELDS := [
    "maxFileMb", "maxConcurrentJobs", "embeddingBatchSize", "indexBatchSize"]

  const IMPORT_READS := [
    Entry(["max_file_mb"], "maxFileMb", AsNumber),
    Entry(["max_concurrent_jobs"], "maxConcurrentJobs", AsNumber),
    Entry(["embedding_batch_size"], "embeddingBatchSize", AsNumber),
    Entry(["index_batch_size"], "indexBatchSize", AsNumber)]

  const CACHE := Node(map[
    "permission_context_ttl_seconds" := Const(Num(300.0)),
    "query_embedding_enabled" := Value("queryEmbeddingEnabled"),
    "query_embedding_ttl_seconds" := Const(Num(3600.0)),
    "retrieval_result_enabled" := Value("retrievalResultEnabled"),
    "retrieval_result_ttl_seconds" := Const(Num(300.0)),
    "final_answer_enabled" := Value("finalAnswerEnabled"),
    "final_answer_ttl_seconds" := Ttl("finalAnswerEnabled"),
    "cross_user_final_answer_allowed" := Value("crossUserFinalAnswerAllowed")])

  const CACHE_FIELDS := [
    "queryEmbeddingEnabled", "retrievalResultEnabled", "finalAnswerEnabled",
    "crossUserFinalAnswerAllowed"]

  const CACHE_READS := [
    Entry(["query_embedding_enabled"], "queryEmbeddingEnabled", AsBoolean),
    Entry(["retrieval_result_enabled"], "retrievalResultEnabled", AsBoolean),
    Entry(["final_answer_enabled"], "finalAnswerEnabled", AsBoolean),
    Entry(["cross_user_final_answer_allowed"], "crossUserFinalAnswerAllowed", AsBoolean)]

  const RATE_LIMIT := Node(map[
    "query_qps_per_user" := Value("queryQpsPerUser"),
    "ip" := Node(map[
      "qps" := Const(Num(20.0)),
      "burst" := Const(Num(40.0))]),
    "department" := Node(map[
      "query_qps" := Const(Num(20.0)),
      "import_concurrency" := Const(Num(2.0))]),
    "kb" := Node(map[
      "query_qps" := Const(Num(50.0))]),
    "api_key" := Node(map[
      "qps" := Const(Num(10.0))]),
    "model_pool" := Node(map[
      "qps" := Const(Num(10.0))])])

  const RATE_LIMIT_FIELDS := [
    "queryQpsPerUser"]

  const RATE_LIMIT_READS := [
    Entry(["query_qps_per_user"], "queryQpsPerUser", AsNumber)]

  const AUDIT := Node(map[
    "sink" := Const(Str("postgres")),
    "retention_days" := Value("auditRetentionDays"),
    "query_text_mode" := Value("auditQueryTextMode"),
    "record_full_prompt" := Const(Bool(false)),
    "snippet_max_chars" := Const(Num(300.0)),
    "pii_redaction_enabled" := Const(Bool(true))])

  const AUDIT_FIELDS := [
    "auditRetentionDays", "auditQueryTextMode"]

  const AUDIT_READS := [
    Entry(["retention_days"], "auditRetentionDays", AsNumber),
    Entry(["query_text_mode"], "auditQueryTextMode", AsAuditQueryTextMode)]

  const LLM := Node(map[
    "temperature" := Value("llmTemperature"),
    "max_tokens" := Value("llmMaxTokens"),
    "first_token_timeout_ms" := Value("llmFirstTokenTimeoutMs"),
    "total_timeout_ms" := Value("llmTotalTimeoutMs"),
    "retry_policy" := Node(map[
      "max_retries" := Value("llmMaxRetries"),
      "backoff_ms" := Value("llmRetryBackoffMs")]),
    "openai_extra_body" := Node(map[
      "chat_template_kwargs" := Node(map[
        "enable_thinking" := Value("llmEnableThinking")])])])

  const LLM_FIELDS := [
    "llmTemperature", "llmMaxTokens", "llmFirstTokenTimeoutMs", "llmTotalTimeoutMs",
    "llmMaxRetries", "llmRetryBackoffMs", "llmEnableThinking"]

  const LLM_READS := [
    Entry(["temperature"], "llmTemperature", AsNumber),
    Entry(["max_tokens"], "llmMaxTokens", AsNumber),
    Entry(["first_token_timeout_ms"], "llmFirstTokenTimeoutMs", AsNumber),
    Entry(["total_timeout_ms"], "llmTotalTimeoutMs", AsNumber),
    Entry(["retry_policy", "max_retries"], "llmMaxRetries", AsNumber),
    Entry(["retry_policy", "backoff_ms"], "llmRetryBackoffMs", AsNumber),
    Entry(["openai_extra_body", "chat_template_kwargs", "enable_thinking"], "llmEnableThinking", AsBoolean)]

  const PERMISSION := Node(map[
    "default_user_role" := Const(Str("employee")),
    "default_visibility" := Value("permissionDefaultVisibility"),
    "cache_ttl_seconds" := Value("permissionCacheTtlSeconds"),
    "tightening_block_policy" := Node(map[
      "write_access_block_first" := Value("permissionWriteAccessBlockFirst"),
      "block_old_index_refs" := Value("permissionBlockOldIndexRefs"),
      "fail_closed" := Value("permissionFailClosed")])])

  const PERMISSION_FIELDS := [
    "permissionDefaultVisibility", "permissionCacheTtlSeconds", "permissionWriteAccessBlockFirst",
    "permissionBlockOldIndexRefs", "permissionFailClosed"]

  const PERMISSION_READS := [
    Entry(["default_visibility"], "permissionDefaultVisibility", AsPermissionVisibility),
    Entry(["cache_ttl_seconds"], "permissionCacheTtlSeconds", AsNumber),
    Entry(["tightening_block_policy", "write_access_block_first"], "permissionWriteAccessBlockFirst", AsBoolean),
    Entry(["tightening_block_policy", "block_old_index_refs"], "permissionBlockOldIndexRefs", AsBoolean),
    Entry(["tightening_block_policy", "fail_closed"], "permissionFailClosed", AsBoolean)]

  const SECURITY := Node(map[
    "require_citation" := Value("securityRequireCitation"),
    "prompt_leakage_policy" := Node(map[
      "block_internal_prompt_leakage" := Value("securityBlockInternalPromptLeakage"),
      "block_secret_ref_leakage" := Value("securityBlockSecretRefLeakage")]),
    "pii_redaction_policy" := Node(map[
      "enabled" := Value("securityPiiRedactionEnabled"),
      "redact_logs" := Value("securityRedactLogs"),
      "redact_audit_summary" := Value("securityRedactAuditSummary")])])

  const SECURITY_FIELDS := [
    "securityRequireCitation", "securityBlockInternalPromptLeakage",
    "securityBlockSecretRefLeakage", "securityPiiRedactionEnabled", "securityRedactLogs",
    "securityRedactAuditSummary"]

  const SECURITY_READS := [
    Entry(["require_citation"], "securityRequireCitation", AsBoolean),
    Entry(["prompt_leakage_policy", "block_internal_prompt_leakage"], "securityBlockInternalPromptLeakage", AsBoolean),
    Entry(["prompt_leakage_policy", "block_secret_ref_leakage"], "securityBlockSecretRefLeakage", AsBoolean),
    Entry(["pii_redaction_policy", "enabled"], "securityPiiRedactionEnabled", AsBoolean),
    Entry(["pii_redaction_policy", "redact_logs"], "securityRedactLogs", AsBoolean),
    Entry(["pii_redaction_policy", "redact_audit_summary"], "securityRedactAuditSummary", AsBoolean)]

  const TIMEOUT := Node(map[
    "query_total_ms" := Value("timeoutQueryTotalMs"),
    "auth_permission_ms" := Value("timeoutAuthPermissionMs"),
    "rewrite_ms" := Value("timeoutRewriteMs"),
    "embedding_ms" := Value("timeoutEmbeddingMs"),
    "vector_search_ms" := Value("timeoutVectorSearchMs"),
    "keyword_search_ms" := Value("timeoutKeywordSearchMs"),
    "rerank_ms" := Value("timeoutRerankMs"),
    "context_ms" := Value("timeoutContextMs"),
    "postprocess_ms" := Value("timeoutPostprocessMs")])

  const TIMEOUT_FIELDS := [
    "timeoutQueryTotalMs", "timeoutAuthPermissionMs", "timeoutRewriteMs", "timeoutEmbeddingMs",
    "timeoutVectorSearchMs", "timeoutKeywordSearchMs", "timeoutRerankMs", "timeoutContextMs",
    "timeoutPostprocessMs"]

  const TIMEOUT_READS := [
    Entry(["query_total_ms"], "timeoutQueryTotalMs", AsNumber),
    Entry(["auth_permission_ms"], "timeoutAuthPermissionMs", AsNumber),
    Entry(["rewrite_ms"], "timeoutRewriteMs", AsNumber),
    Entry(["embedding_ms"], "timeoutEmbeddingMs", AsNumber),
    Entry(["vector_search_ms"], "timeoutVectorSearchMs", AsNumber),
    Entry(["keyword_search_ms"], "timeoutKeywordSearchMs", AsNumber),
    Entry(["rerank_ms"], "timeoutRerankMs", AsNumber),
    Entry(["context_ms"], "timeoutContextMs", AsNumber),
    Entry(["postprocess_ms"], "timeoutPostprocessMs", AsNumber)]

  const DEGRADE := Node(map[
    "rewrite_timeout" := Value("degradeRewriteTimeout"),
    "embedding_timeout" := Value("degradeEmbeddingTimeout"),
    "vector_unavailable" := Value("degradeVectorUnavailable"),
    "keyword_unavailable" := Value("degradeKeywordUnavailable"),
    "rerank_timeout" := Value("degradeRerankTimeout"),
    "llm_timeout" := Value("degradeLlmTimeout"),
    "model_pool_overloaded" := Value("degradeModelPoolOverloaded"),
    "import_backlog" := Value("degradeImportBacklog")])

  const DEGRADE_FIELDS := [
    "degradeRewriteTimeout", "degradeEmbeddingTimeout", "degradeVectorUnavailable",
    "degradeKeywordUnavailable", "degradeRerankTimeout", "degradeLlmTimeout",
    "degradeModelPoolOverloaded", "degradeImportBacklog"]

  const DEGRADE_READS := [
    Entry(["rewrite_timeout"], "degradeRewriteTimeout", AsString),
    Entry(["embedding_timeout"], "degradeEmbeddingTimeout", AsString),
    Entry(["vector_unavailable"], "degradeVectorUnavailable", AsString),
    Entry(["keyword_unavailable"], "degradeKeywordUnavailable", AsString),
    Entry(["rerank_timeout"], "degradeRerankTimeout", AsString),
    Entry(["llm_timeout"], "degradeLlmTimeout", AsString),
    Entry(["model_pool_overloaded"], "degradeModelPoolOverloaded", AsString),
    Entry(["import_backlog"], "degradeImportBacklog", AsString)]

  const ALERT_THRESHOLDS := Node(map[
    "active_config_load_failed" := Value("alertActiveConfigLoadFailed"),
    "permission_violation_rate" := Value("alertPermissionViolationRate"),
    "draft_index_exposure_count" := Value("alertDraftIndexExposureCount"),
    "import_failure_rate" := Value("alertImportFailureRate"),
    "worker_queue_backlog" := Value("alertWorkerQueueBacklog"),
    "llm_timeout_rate" := Value("alertLlmTimeoutRate")])

  const OBSERVABILITY := Node(map[
    "metrics_enabled" := Value("observabilityMetricsEnabled"),
    "trace_enabled" := Value("observabilityTraceEnabled"),
    "alert_thresholds" := ALERT_THRESHOLDS])

  const OBSERVABILITY_FIELDS := [
    "observabilityMetricsEnabled", "observabilityTraceEnabled", "alertActiveConfigLoadFailed",
    "alertPermissionViolationRate", "alertDraftIndexExposureCount", "alertImportFailureRate",
    "alertWorkerQueueBacklog", "alertLlmTimeoutRate"]

  const OBSERVABILITY_READS := [
    Entry(["metrics_enabled"], "observabilityMetricsEnabled", AsBoolean),
    Entry(["trace_enabled"], "observabilityTraceEnabled", AsBoolean),
    Entry(["alert_thresholds", "active_config_load_failed"], "alertActiveConfigLoadFailed", AsNumber),
    Entry(["alert_thresholds", "permission_violation_rate"], "alertPermissionViolationRate", AsNumber),
    Entry(["alert_thresholds", "draft_index_exposure_count"], "alertDraftIndexExposureCount", AsNumber),
    Entry(["alert_thresholds", "import_failure_rate"], "alertImportFailureRate", AsNumber),
    Entry(["alert_thresholds", "worker_queue_backlog"], "alertWorkerQueueBacklog", AsNumber),
    Entry(["alert_thresholds", "llm_timeout_rate"], "alertLlmTimeoutRate", AsNumber)]

  datatype Section = Section(key: string, template: Template, fields: seq<string>, readers: seq<Entry>)

  /** All sections, in the order in which they are merged. */
  const SECTIONS := [
    Section("secret_provider", SECRET_PROVIDER, SECRET_PROVIDER_FIELDS, SECRET_PROVIDER_READS),
    Section("redis", REDIS, REDIS_FIELDS, REDIS_READS),
    Section("storage", STORAGE, STORAGE_FIELDS, STORAGE_READS),
    Section("vector_store", VECTOR_STORE, VECTOR_STORE_FIELDS, VECTOR_STORE_READS),
    Section("keyword_search", KEYWORD_SEARCH, KEYWORD_SEARCH_FIELDS, KEYWORD_SEARCH_READS),
    Section("model_gateway", MODEL_GATEWAY, MODEL_GATEWAY_FIELDS, MODEL_GATEWAY_READS),
    Section("model", MODEL, MODEL_FIELDS, MODEL_READS),
    Section("auth", AUTH, AUTH_FIELDS, AUTH_READS),
    Section("retrieval", RETRIEVAL, RETRIEVAL_FIELDS, RETRIEVAL_READS),
    Section("chunk", CHUNK, CHUNK_FIELDS, CHUNK_READS),
    Section("import", IMPORT, IMPORT_FIELDS, IMPORT_READS),
    Section("cache", CACHE, CACHE_FIELDS, CACHE_READS),
    Section("rate_limit", RATE_LIMIT, RATE_LIMIT_FIELDS, RATE_LIMIT_READS),
    Section("audit", AUDIT, AUDIT_FIELDS, AUDIT_READS),
    Section("llm", LLM, LLM_FIELDS, LLM_READS),
    Section("permission", PERMISSION, PERMISSION_FIELDS, PERMISSION_READS),
    Section("security", SECURITY, SECURITY_FIELDS, SECURITY_READS),
    Section("timeout", TIMEOUT, TIMEOUT_FIELDS, TIMEOUT_READS),
    Section("degrade", DEGRADE, DEGRADE_FIELDS, DEGRADE_READS),
    Section("observability", OBSERVABILITY, OBSERVABILITY_FIELDS, OBSERVABILITY_READS)]

  // Every reader of a section reads the leaf where that section prints its field.

  lemma SecretProviderReads() ensures forall e :: e in SECRET_PROVIDER_READS ==> Matches(SECRET_PROVIDER, e) {}
  lemma RedisReads() ensures forall e :: e in REDIS_READS ==> Matches(REDIS, e) {}
  lemma StorageReads() ensures forall e :: e in STORAGE_READS ==> Matches(STORAGE, e) {}
  lemma VectorStoreReads() ensures forall e :: e in VECTOR_STORE_READS ==> Matches(VECTOR_STORE, e) {}
  lemma KeywordSearchReads() ensures forall e :: e in KEYWORD_SEARCH_READS ==> Matches(KEYWORD_SEARCH, e) {}
  lemma ModelGatewayReads() ensures forall e :: e in MODEL_GATEWAY_READS ==> Matches(MODEL_GATEWAY, e) {}
  lemma ModelReads() ensures forall e :: e in MODEL_READS ==> Matches(MODEL, e) {}
  lemma AuthReads() ensures forall e :: e in AUTH_READS ==> Matches(AUTH, e) {}
  lemma RetrievalReads() ensures forall e :: e in RETRIEVAL_READS ==> Matches(RETRIEVAL, e) {}
  lemma ChunkReads() ensures forall e :: e in CHUNK_READS ==> Matches(CHUNK, e) {}
  lemma ImportReads() ensures forall e :: e in IMPORT_READS ==> Matches(IMPORT, e) {}
  lemma CacheReads() ensures forall e :: e in CACHE_READS ==> Matches(CACHE, e) {}
  lemma RateLimitReads() ensures forall e :: e in RATE_LIMIT_READS ==> Matches(RATE_LIMIT, e) {}
  lemma AuditReads() ensures forall e :: e in AUDIT_READS ==> Matches(AUDIT, e) {}
  lemma LlmReads() ensures forall e :: e in LLM_READS ==> Matches(LLM, e) {}
  lemma PermissionReads() ensures forall e :: e in PERMISSION_READS ==> Matches(PERMISSION, e) {}
  lemma SecurityReads() ensures forall e :: e in SECURITY_READS ==> Matches(SECURITY, e) {}
  lemma TimeoutReads() ensures forall e :: e in TIMEOUT_READS ==> Matches(TIMEOUT, e) {}
  lemma DegradeReads() ensures forall e :: e in DEGRADE_READS ==> Matches(DEGRADE, e) {}
  lemma ObservabilityReads() ensures forall e :: e in OBSERVABILITY_READS ==> Matches(OBSERVABILITY, e) {}

  lemma SectionReadersMatch(s: Section, e: Entry)
    requires s in SECTIONS && e in s.readers
    ensures Matches(s.template, e)
  {
    hide Matches;
    SecretProviderReads();
    RedisReads();
    StorageReads();
    VectorStoreReads();
    KeywordSearchReads();
    ModelGatewayReads();
    ModelReads();
    AuthReads();
    RetrievalReads();
    ChunkReads();
    ImportReads();
    CacheReads();
    RateLimitReads();
    AuditReads();
    LlmReads();
    PermissionReads();
    SecurityReads();
    TimeoutReads();
    DegradeReads();
    ObservabilityReads();
  }

  // Every field a section prints is one of its editable fields.

  lemma SecretProviderCovered() ensures Covered(SECRET_PROVIDER, SECRET_PROVIDER_FIELDS) {}
  lemma RedisCovered() ensures Covered(REDIS, REDIS_FIELDS) {}
  lemma StorageCovered() ensures Covered(STORAGE, STORAGE_FIELDS) {}
  lemma VectorStoreCovered() ensures Covered(VECTOR_STORE, VECTOR_STORE_FIELDS) {}
  lemma KeywordSearchCovered() ensures Covered(KEYWORD_SEARCH, KEYWORD_SEARCH_FIELDS) {}
  lemma EmbeddingProviderCovered() ensures Covered(EMBEDDING_PROVIDER, MODEL_GATEWAY_FIELDS) {}
  lemma RerankProviderCovered() ensures Covered(RERANK_PROVIDER, MODEL_GATEWAY_FIELDS) {}
  lemma LlmProviderCovered() ensures Covered(LLM_PROVIDER, MODEL_GATEWAY_FIELDS) {}
  lemma GatewayProvidersCovered() ensures Covered(GATEWAY_PROVIDERS, MODEL_GATEWAY_FIELDS) { EmbeddingProviderCovered(); RerankProviderCovered(); LlmProviderCovered(); }
  lemma GatewayRoutesCovered() ensures Covered(GATEWAY_ROUTES, MODEL_GATEWAY_FIELDS) {}
  lemma GatewayHealthcheckCovered() ensures Covered(GATEWAY_HEALTHCHECK, MODEL_GATEWAY_FIELDS) {}

  lemma GatewayLeavesCovered()
    ensures Covered(Value("modelGatewayMode"), MODEL_GATEWAY_FIELDS)
    ensures forall v :: Covered(Const(v), MODEL_GATEWAY_FIELDS)
  {
    hide Covered;
    assert MODEL_GATEWAY_FIELDS[0] == "modelGatewayMode";
    CoveredLeaves(MODEL_GATEWAY_FIELDS[0], MODEL_GATEWAY_FIELDS);
  }

  lemma ModelGatewayCovered()
    ensures Covered(MODEL_GATEWAY, MODEL_GATEWAY_FIELDS)
  {
    hide Covered, MODEL_GATEWAY_FIELDS, GATEWAY_PROVIDERS, GATEWAY_ROUTES, GATEWAY_HEALTHCHECK;
    GatewayLeavesCovered();
    GatewayProvidersCovered();
    GatewayRoutesCovered();
    GatewayHealthcheckCovered();
    CoveredNode(MODEL_GATEWAY.children, MODEL_GATEWAY_FIELDS);
  }

  lemma ModelCovered() ensures Covered(MODEL, MODEL_FIELDS) {}
  lemma AuthCovered() ensures Covered(AUTH, AUTH_FIELDS) {}
  lemma FusionParamsCovered() ensures Covered(FUSION_PARAMS, RETRIEVAL_FIELDS) {}
  lemma RetrievalCovered() ensures Covered(RETRIEVAL, RETRIEVAL_FIELDS) { FusionParamsCovered(); }
  lemma ChunkCovered() ensures Covered(CHUNK, CHUNK_FIELDS) {}
  lemma ImportCovered() ensures Covered(IMPORT, IMPORT_FIELDS) {}
  lemma CacheCovered() ensures Covered(CACHE, CACHE_FIELDS) {}
  lemma RateLimitCovered() ensures Covered(RATE_LIMIT, RATE_LIMIT_FIELDS) {}
  lemma AuditCovered() ensures Covered(AUDIT, AUDIT_FIELDS) {}
  lemma LlmCovered() ensures Covered(LLM, LLM_FIELDS) {}
  lemma PermissionCovered() ensures Covered(PERMISSION, PERMISSION_FIELDS) {}
  lemma SecurityCovered() ensures Covered(SECURITY, SECURITY_FIELDS) {}
  lemma TimeoutCovered() ensures Covered(TIMEOUT, TIMEOUT_FIELDS) {}
  lemma DegradeCovered() ensures Covered(DEGRADE, DEGRADE_FIELDS) {}
  lemma AlertThresholdsCovered() ensures Covered(ALERT_THRESHOLDS, OBSERVABILITY_FIELDS) {}
  lemma ObservabilityCovered() ensures Covered(OBSERVABILITY, OBSERVABILITY_FIELDS) { AlertThresholdsCovered(); }

  lemma SectionCovered(s: Section)
    requires s in SECTIONS
    ensures Covered(s.template, s.fields)
  {
    hide Covered;
    SecretProviderCovered();
    RedisCovered();
    StorageCovered();
    VectorStoreCovered();
    KeywordSearchCovered();
    ModelGatewayCovered();
    ModelCovered();
    AuthCovered();
    RetrievalCovered();
    ChunkCovered();
    ImportCovered();
    CacheCovered();
    RateLimitCovered();
    AuditCovered();
    LlmCovered();
    PermissionCovered();
    SecurityCovered();
    TimeoutCovered();
    DegradeCovered();
    ObservabilityCovered();
  }

  // Every editable field is read back; the gateway's model names by the `model` section.

  lemma SecretProviderNamed() ensures Named(SECRET_PROVIDER_READS, SECRET_PROVIDER_FIELDS) {}
  lemma RedisNamed() ensures Named(REDIS_READS, REDIS_FIELDS) {}
  lemma StorageNamed() ensures Named(STORAGE_READS, STORAGE_FIELDS) {}
  lemma VectorStoreNamed() ensures Named(VECTOR_STORE_READS, VECTOR_STORE_FIELDS) {}
  lemma KeywordSearchNamed() ensures Named(KEYWORD_SEARCH_READS, KEYWORD_SEARCH_FIELDS) {}
  lemma ModelGatewayNamed() ensures Named(MODEL_GATEWAY_READS, MODEL_GATEWAY_FIELDS[..4]) {}
  lemma ModelNamed() ensures Named(MODEL_READS, MODEL_FIELDS) {}
  lemma AuthNamed() ensures Named(AUTH_READS, AUTH_FIELDS) {}
  lemma RetrievalNamed() ensures Named(RETRIEVAL_READS, RETRIEVAL_FIELDS) {}
  lemma ChunkNamed() ensures Named(CHUNK_READS, CHUNK_FIELDS) {}
  lemma ImportNamed() ensures Named(IMPORT_READS, IMPORT_FIELDS) {}
  lemma CacheNamed() ensures Named(CACHE_READS, CACHE_FIELDS) {}
  lemma RateLimitNamed() ensures Named(RATE_LIMIT_READS, RATE_LIMIT_FIELDS) {}
  lemma AuditNamed() ensures Named(AUDIT_READS, AUDIT_FIELDS) {}
  lemma LlmNamed() ensures Named(LLM_READS, LLM_FIELDS) {}
  lemma PermissionNamed() ensures Named(PERMISSION_READS, PERMISSION_FIELDS) {}
  lemma SecurityNamed() ensures Named(SECURITY_READS, SECURITY_FIELDS) {}
  lemma TimeoutNamed() ensures Named(TIMEOUT_READS, TIMEOUT_FIELDS) {}
  lemma DegradeNamed() ensures Named(DEGRADE_READS, DEGRADE_FIELDS) {}
  lemma ObservabilityNamed() ensures Named(OBSERVABILITY_READS, OBSERVABILITY_FIELDS) {}

  lemma SectionNamed(s: Section)
    requires s in SECTIONS && s.key != "model_gateway"
    ensures Named(s.readers, s.fields)
  {
    hide Named;
    SecretProviderNamed();
    RedisNamed();
    StorageNamed();
    VectorStoreNamed();
    KeywordSearchNamed();
    ModelNamed();
    AuthNamed();
    RetrievalNamed();
    ChunkNamed();
    ImportNamed();
    CacheNamed();
    RateLimitNamed();
    AuditNamed();
    LlmNamed();
    PermissionNamed();
    SecurityNamed();
    TimeoutNamed();
    DegradeNamed();
    ObservabilityNamed();
  }

  lemma GatewayModelNames()
    ensures forall f :: f in MODEL_GATEWAY_FIELDS[4..] ==> f in MODEL_FIELDS
  {
  }

  /** Section keys are distinct, so no section is merged twice. */
  lemma SectionKeysDistinct()
    ensures forall i, j :: 0 <= i < j < |SECTIONS| ==> SECTIONS[i].key != SECTIONS[j].key
  {
  }

  lemma GatewayReaders(e: Entry)
    requires e in MODEL_GATEWAY_READS
    ensures e.path == ["mode"] || exists k :: k in PROVIDERS && e.path == ["providers", k, "base_url"]
  {
  }
}
