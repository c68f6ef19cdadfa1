/** Application settings: the fields the core reads, their defaults, the
    range constraints declared on them, the `app_env` whitelist and the
    two derived properties `is_production` and `embedding_dimensions`. */
module Config {
  import opened Common
  import opened Text

  datatype ConfigError =
    | MissingField(field: string)
    | OutOfRange(field: string)
    | BadAppEnv(value: string)
    | OverlapNotBelowSize  // the check the corrected settings add

  /** The validated settings object. */
  datatype Settings = Settings(
    appEnv: string,
    openaiEndpoint: string,
    openaiApiKey: string,
    deploymentName: string,
    embeddingDeployment: string,
    searchEndpoint: string,
    searchApiKey: string,
    searchIndexName: string,
    storageConnectionString: string,
    storageContainer: string,
    chunkSize: int,
    chunkOverlap: int,
    topKResults: int,
    similarityThreshold: real)

  /** What the environment supplies: `None` for a variable that is unset. */
  datatype RawSettings = RawSettings(
    appEnv: Option<string>,
    openaiEndpoint: Option<string>,
    openaiApiKey: Option<string>,
    deploymentName: Option<string>,
    embeddingDeployment: Option<string>,
    searchEndpoint: Option<string>,
    searchApiKey: Option<string>,
    searchIndexName: Option<string>,
    storageConnectionString: Option<string>,
    storageContainer: Option<string>,
    chunkSize: Option<int>,
    chunkOverlap: Option<int>,
    topKResults: Option<int>,
    similarityThreshold: Option<real>)

  const DefaultAppEnv := "development"
  const DefaultDeployment := "gpt-4o"
  const DefaultEmbeddingDeployment := "text-embedding-3-large"
  const DefaultIndexName := "rag-documents"
  const DefaultContainer := "documents"
  const DefaultChunkSize := 1000
  const DefaultChunkOverlap := 200
  const DefaultTopK := 5
  const DefaultThreshold: real := 0.75

  /** `Field(ge=100, le=4000)` on `chunk_size`. */
  predicate ChunkSizeInRange(v: int) { 100 <= v <= 4000 }
  /** `Field(ge=0)` on `chunk_overlap`: nothing relates it to `chunk_size`. */
  predicate ChunkOverlapInRange(v: int) { 0 <= v }
  /** `Field(ge=1, le=20)` on `top_k_results`. */
  predicate TopKInRange(v: int) { 1 <= v <= 20 }
  /** `Field(ge=0.0, le=1.0)` on `similarity_threshold`. */
  predicate ThresholdInRange(v: real) { 0.0 <= v <= 1.0 }

  /** Every declared range constraint holds. */
  predicate InBounds(s: Settings) {
    && ChunkSizeInRange(s.chunkSize)
    && ChunkOverlapInRange(s.chunkOverlap)
    && TopKInRange(s.topKResults)
    && ThresholdInRange(s.similarityThreshold)
  }

  /** The `app_env` field validator: the value passes unchanged when it is
      one of the three environment names and is rejected otherwise. */
  function ValidateEnv(v: string): (r: Result<string, ConfigError>)
    ensures r.Success? <==> (v == "development" || v == "staging" || v == "production")
    ensures r.Success? ==> r.value == v
    ensures r.Failure? ==> r.error == BadAppEnv(v)
  {
    if v in {"development", "staging", "production"} then Success(v) else Failure(BadAppEnv(v))
  }

  /** `settings.is_production`. */
  predicate IsProduction(s: Settings) {
    s.appEnv == "production"
  }

  /** The dimension rule of `embedding_dimensions`, on a deployment name:
      3072 when it contains "large", else 1536. */
  function DeploymentDimensions(deployment: string): (d: int)
    ensures d == 3072 || d == 1536
    ensures d == 3072 <==> Contains(deployment, "large")
  {
    if Contains(deployment, "large") then 3072 else 1536
  }

  /** `settings.embedding_dimensions`: the rule applied to the settings'
      embedding deployment. */
  function EmbeddingDimensions(s: Settings): (d: int)
    ensures d == 3072 || d == 1536
    ensures d == 3072 <==> Contains(s.embeddingDeployment, "large")
  {
    DeploymentDimensions(s.embeddingDeployment)
  }

  function RequiredErrors(field: string, v: Option<string>): seq<ConfigError> {
    if v.None? then [MissingField(field)] else []
  }

  function RangeErrors(field: string, ok: bool): seq<ConfigError> {
    if ok then [] else [OutOfRange(field)]
  }

  /** The errors `Settings()` reports, in field declaration order. */
  function LoadErrors(raw: RawSettings): seq<ConfigError> {
    var env := raw.appEnv.GetOr(DefaultAppEnv);
    (if raw.appEnv.Some? && ValidateEnv(env).Failure? then [BadAppEnv(env)] else [])
    + RequiredErrors("azure_openai_endpoint", raw.openaiEndpoint)
    + RequiredErrors("azure_openai_api_key", raw.openaiApiKey)
    + RequiredErrors("azure_search_endpoint", raw.searchEndpoint)
    + RequiredErrors("azure_search_api_key", raw.searchApiKey)
    + RequiredErrors("azure_storage_connection_string", raw.storageConnectionString)
    + RangeErrors("chunk_size", ChunkSizeInRange(raw.chunkSize.GetOr(DefaultChunkSize)))
    + RangeErrors("chunk_overlap", ChunkOverlapInRange(raw.chunkOverlap.GetOr(DefaultChunkOverlap)))
    + RangeErrors("top_k_results", TopKInRange(raw.topKResults.GetOr(DefaultTopK)))
    + RangeErrors("similarity_threshold", ThresholdInRange(raw.similarityThreshold.GetOr(DefaultThreshold)))
  }

  /** Building the settings object: defaults for absent optional fields,
      a `MissingField` error for each absent required field, and the
      range and whitelist checks; any error rejects the whole object. */
  function Load(raw: RawSettings): (r: Result<Settings, seq<ConfigError>>)
    ensures r.Failure? ==> |r.error| > 0
  {
    var errors := LoadErrors(raw);
    if errors != [] then Failure(errors)
    else Success(Settings(
      raw.appEnv.GetOr(DefaultAppEnv),
      raw.openaiEndpoint.GetOr(""),
      raw.openaiApiKey.GetOr(""),
      raw.deploymentName.GetOr(DefaultDeployment),
      raw.embeddingDeployment.GetOr(DefaultEmbeddingDeployment),
      raw.searchEndpoint.GetOr(""),
      raw.searchApiKey.GetOr(""),
      raw.searchIndexName.GetOr(DefaultIndexName),
      raw.storageConnectionString.GetOr(""),
      raw.storageContainer.GetOr(DefaultContainer),
      raw.chunkSize.GetOr(DefaultChunkSize),
      raw.chunkOverlap.GetOr(DefaultChunkOverlap),
      raw.topKResults.GetOr(DefaultTopK),
      raw.similarityThreshold.GetOr(DefaultThreshold)))
  }

  /** A loaded settings object satisfies every range constraint, names an
      allowed environment, and is a production one exactly when
      `APP_ENV` was "production". */
  lemma {:induction false} LoadedSettingsAreValid(raw: RawSettings)
    requires Load(raw).Success?
    ensures InBounds(Load(raw).value)
    ensures ValidateEnv(Load(raw).value.appEnv).Success?
    ensures IsProduction(Load(raw).value) <==> raw.appEnv == Some("production")
  {
    var errors := LoadErrors(raw);
    assert errors == [];
  }

  /** The converse: with the five required fields set, an allowed
      `APP_ENV` or none, and every bounded value given in range or not
      given, the settings load, and each unset field takes its default. */
  lemma {:induction false} LoadAccepts(raw: RawSettings)
    requires && raw.openaiEndpoint.Some? && raw.openaiApiKey.Some? && raw.searchEndpoint.Some?
             && raw.searchApiKey.Some? && raw.storageConnectionString.Some?
    requires raw.appEnv.None? || ValidateEnv(raw.appEnv.value).Success?
    requires raw.chunkSize.None? || ChunkSizeInRange(raw.chunkSize.value)
    requires raw.chunkOverlap.None? || ChunkOverlapInRange(raw.chunkOverlap.value)
    requires raw.topKResults.None? || TopKInRange(raw.topKResults.value)
    requires raw.similarityThreshold.None? || ThresholdInRange(raw.similarityThreshold.value)
    ensures Load(raw).Success?
    ensures var s := Load(raw).value;
      && s.appEnv == raw.appEnv.GetOr("development")
      && s.deploymentName == raw.deploymentName.GetOr("gpt-4o")
      && s.embeddingDeployment == raw.embeddingDeployment.GetOr("text-embedding-3-large")
      && s.searchIndexName == raw.searchIndexName.GetOr("rag-documents")
      && s.storageContainer == raw.storageContainer.GetOr("documents")
      && s.chunkSize == raw.chunkSize.GetOr(1000)
      && s.chunkOverlap == raw.chunkOverlap.GetOr(200)
      && s.topKResults == raw.topKResults.GetOr(5)
      && s.similarityThreshold == raw.similarityThreshold.GetOr(0.75)
      && s.openaiEndpoint == raw.openaiEndpoint.value && s.openaiApiKey == raw.openaiApiKey.value
      && s.searchEndpoint == raw.searchEndpoint.value && s.searchApiKey == raw.searchApiKey.value
      && s.storageConnectionString == raw.storageConnectionString.value
  {
    assert LoadErrors(raw) == [];
  }

  /** A value out of range, a missing required field or a bad `APP_ENV`
      always rejects. */
  lemma {:induction false} LoadRejects(raw: RawSettings)
    requires
      || raw.openaiEndpoint.None?
      || raw.openaiApiKey.None?
      || raw.searchEndpoint.None?
      || raw.searchApiKey.None?
      || raw.storageConnectionString.None?
      || (raw.chunkSize.Some? && !ChunkSizeInRange(raw.chunkSize.value))
      || (raw.chunkOverlap.Some? && raw.chunkOverlap.value < 0)
      || (raw.topKResults.Some? && !TopKInRange(raw.topKResults.value))
      || (raw.similarityThreshold.Some? && !ThresholdInRange(raw.similarityThreshold.value))
      || (raw.appEnv.Some? && ValidateEnv(raw.appEnv.value).Failure?)
    ensures Load(raw).Failure?
  {
    var errors := LoadErrors(raw);
    assert errors != [] by {
      if raw.openaiEndpoint.None? {
        assert MissingField("azure_openai_endpoint") in errors;
      } else if raw.openaiApiKey.None? {
        assert MissingField("azure_openai_api_key") in errors;
      } else if raw.searchEndpoint.None? {
        assert MissingField("azure_search_endpoint") in errors;
      } else if raw.searchApiKey.None? {
        assert MissingField("azure_search_api_key") in errors;
      } else if raw.storageConnectionString.None? {
        assert MissingField("azure_storage_connection_string") in errors;
      } else if raw.chunkSize.Some? && !ChunkSizeInRange(raw.chunkSize.value) {
        assert OutOfRange("chunk_size") in errors;
      } else if raw.chunkOverlap.Some? && raw.chunkOverlap.value < 0 {
        assert OutOfRange("chunk_overlap") in errors;
      } else if raw.topKResults.Some? && !TopKInRange(raw.topKResults.value) {
        assert OutOfRange("top_k_results") in errors;
      } else if raw.similarityThreshold.Some? && !ThresholdInRange(raw.similarityThreshold.value) {
        assert OutOfRange("similarity_threshold") in errors;
      } else {
        assert BadAppEnv(raw.appEnv.value) in errors;
      }
    }
  }

  /** Each absent required field is reported by its own name. */
  lemma {:induction false} MissingFieldsAreNamed(raw: RawSettings)
    ensures raw.openaiEndpoint.None? ==> MissingField("azure_openai_endpoint") in Load(raw).error
    ensures raw.openaiApiKey.None? ==> MissingField("azure_openai_api_key") in Load(raw).error
    ensures raw.searchEndpoint.None? ==> MissingField("azure_search_endpoint") in Load(raw).error
    ensures raw.searchApiKey.None? ==> MissingField("azure_search_api_key") in Load(raw).error
    ensures raw.storageConnectionString.None? ==>
              MissingField("azure_storage_connection_string") in Load(raw).error
  {
    var errors := LoadErrors(raw);
    if raw.openaiEndpoint.None? {
      assert MissingField("azure_openai_endpoint") in errors;
    }
    if raw.openaiApiKey.None? {
      assert MissingField("azure_openai_api_key") in errors;
    }
    if raw.searchEndpoint.None? {
      assert MissingField("azure_search_endpoint") in errors;
    }
    if raw.searchApiKey.None? {
      assert MissingField("azure_search_api_key") in errors;
    }
    if raw.storageConnectionString.None? {
      assert MissingField("azure_storage_connection_string") in errors;
    }
  }

  /** `sub` cannot occur in `s` when its first character does not. */
  lemma {:induction false} NotContainsWithoutFirstChar(s: string, sub: string)
    requires sub != [] && sub[0] !in s
    ensures !Contains(s, sub)
    decreases |s|
  {
    if |sub| <= |s| {
      assert s[..|sub|] != sub by { assert s[0] in s; }
      assert forall c :: c in s[1..] ==> c in s;
      NotContainsWithoutFirstChar(s[1..], sub);
    }
  }

  /** With every optional field at its default the deployment is
      "text-embedding-3-large", so the default dimension is 3072. */
  lemma DefaultDimensionIs3072(s: Settings)
    requires s.embeddingDeployment == DefaultEmbeddingDeployment
    ensures EmbeddingDimensions(s) == 3072
  {
    ContainsIsAt(s.embeddingDeployment, "large", 17);
  }

  /** The legacy "text-embedding-ada-002" deployment gets 1536. */
  lemma AdaDimensionIs1536(s: Settings)
    requires s.embeddingDeployment == "text-embedding-ada-002"
    ensures EmbeddingDimensions(s) == 1536
  {
    assert 'l' !in s.embeddingDeployment;
    NotContainsWithoutFirstChar(s.embeddingDeployment, "large");
  }

  /** The environment of the smallest stalling configuration: every
      required field set, chunk size and overlap both 100, the rest
      unset. */
  predicate EqualSizeAndOverlap(raw: RawSettings) {
    && raw.appEnv.None? && raw.topKResults.None? && raw.similarityThreshold.None?
    && raw.openaiEndpoint.Some? && raw.openaiApiKey.Some? && raw.searchEndpoint.Some?
    && raw.searchApiKey.Some? && raw.storageConnectionString.Some?
    && raw.chunkSize == Some(100) && raw.chunkOverlap == Some(100)
  }

  /** As written, the bounds accept an overlap equal to the chunk size:
      such settings load, with a chunker step `chunk_size - chunk_overlap`
      of 0. */
  lemma {:induction false} LoadAdmitsEqualOverlap(raw: RawSettings)
    requires EqualSizeAndOverlap(raw)
    ensures Load(raw).Success?
    ensures Load(raw).value.chunkSize == 100 && Load(raw).value.chunkOverlap == 100
  {
    assert LoadErrors(raw) == [];
  }

  /** The corrected settings: as loaded, plus a rejection of any overlap
      not below the chunk size. */
  function CorrectedLoad(raw: RawSettings): (r: Result<Settings, seq<ConfigError>>)
    ensures r.Success? <==> Load(raw).Success? && Load(raw).value.chunkOverlap < Load(raw).value.chunkSize
    ensures r.Success? ==> r == Load(raw)
    ensures Load(raw).Failure? ==> r == Load(raw)
  {
    match Load(raw)
    case Failure(errors) => Failure(errors)
    case Success(s) => if s.chunkOverlap < s.chunkSize then Success(s) else Failure([OverlapNotBelowSize])
  }

  /** Corrected settings have a chunk size of at least 100 and an
      overlap from 0 up to one less than it: a step from 1 up to the
      chunk size. */
  lemma CorrectedLoadMakesProgress(raw: RawSettings)
    requires CorrectedLoad(raw).Success?
    ensures var s := CorrectedLoad(raw).value;
      100 <= s.chunkSize && 0 <= s.chunkOverlap < s.chunkSize
      && 0 < s.chunkSize - s.chunkOverlap <= s.chunkSize
  {
    LoadedSettingsAreValid(raw);
  }

  /** The corrected settings reject the stalling configuration. */
  lemma CorrectedLoadRejectsEqualOverlap(raw: RawSettings)
    requires EqualSizeAndOverlap(raw)
    ensures CorrectedLoad(raw) == Failure([OverlapNotBelowSize])
  {
    LoadAdmitsEqualOverlap(raw);
  }
}
