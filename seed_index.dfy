/** The index seeding script: which environment variables it insists
    on, the vector dimension it gives the index, the index it creates
    when none exists, and the records it uploads. The environment, the
    index client, the embedding endpoint, the upload and the clock are
    parameters. */
module SeedIndex {
  import opened Common
  import opened Text
  import opened Records
  import opened Config

  /** The script's own defaults, read when a variable is unset. */
  const ScriptEmbeddingDeployment: string := "text-embedding-3-small"
  const ScriptIndexName: string := "rag-documents"

  /** `os.environ.get(name, default)`. */
  function EnvOr(env: string -> Option<string>, name: string, default: string): string {
    env(name).GetOr(default)
  }

  function DeploymentOf(env: string -> Option<string>): string {
    EnvOr(env, "AZURE_OPENAI_EMBEDDING_DEPLOYMENT", ScriptEmbeddingDeployment)
  }

  function IndexNameOf(env: string -> Option<string>): string {
    EnvOr(env, "AZURE_SEARCH_INDEX_NAME", ScriptIndexName)
  }

  // ---------------------------------------------------------------------
  // The vector dimension

  /** `EMBEDDING_DIMENSIONS` as the script computes it: 1536 for a
      deployment named "small", 3072 for any other. */
  function ScriptDimensions(deployment: string): (d: int)
    ensures d == 1536 <==> Contains(deployment, "small")
    ensures d == 1536 || d == 3072
  {
    if Contains(deployment, "small") then 1536 else 3072
  }

  /** The script's own default deployment, "small", gets 1536. */
  lemma ScriptDefaultIs1536()
    ensures ScriptDimensions(ScriptEmbeddingDeployment) == 1536
  {
    ContainsIsAt(ScriptEmbeddingDeployment, "small", 17);
  }

  lemma AdaIsNotSmall()
    ensures !Contains("text-embedding-ada-002", "small")
  {
    assert 's' !in "text-embedding-ada-002";
    NotContainsWithoutFirstChar("text-embedding-ada-002", "small");
  }

  /** As written, the index the script creates and the vectors the
      service sends disagree when both read the same environment: with
      `AZURE_OPENAI_EMBEDDING_DEPLOYMENT` unset the script defaults to
      "small" and sizes the index for 1536 while the settings default to
      "large" and give 3072; with "text-embedding-ada-002" the script
      gives 3072 and the settings 1536. */
  lemma ScriptIndexDisagreesWithSettings(env: string -> Option<string>, raw: RawSettings)
    requires raw.embeddingDeployment == env("AZURE_OPENAI_EMBEDDING_DEPLOYMENT")
    requires Load(raw).Success?
    ensures env("AZURE_OPENAI_EMBEDDING_DEPLOYMENT").None? ==>
              ScriptDimensions(DeploymentOf(env)) == 1536 && EmbeddingDimensions(Load(raw).value) == 3072
    ensures env("AZURE_OPENAI_EMBEDDING_DEPLOYMENT") == Some("text-embedding-ada-002") ==>
              ScriptDimensions(DeploymentOf(env)) == 3072 && EmbeddingDimensions(Load(raw).value) == 1536
  {
    if env("AZURE_OPENAI_EMBEDDING_DEPLOYMENT").None? {
      ScriptDefaultIs1536();
      DefaultDimensionIs3072(Load(raw).value);
    } else if env("AZURE_OPENAI_EMBEDDING_DEPLOYMENT") == Some("text-embedding-ada-002") {
      AdaIsNotSmall();
      AdaDimensionIs1536(Load(raw).value);
    }
  }

  /** The two rules agree on names that say exactly one of "small" and
      "large". */
  lemma RulesAgreeOnSizedNames(deployment: string)
    requires Contains(deployment, "small") != Contains(deployment, "large")
    ensures ScriptDimensions(deployment) == DeploymentDimensions(deployment)
  {
  }

  /** The corrected dimension: the settings' default deployment and the
      settings' rule. */
  function CorrectedIndexDimensions(env: string -> Option<string>): int {
    DeploymentDimensions(EnvOr(env, "AZURE_OPENAI_EMBEDDING_DEPLOYMENT", DefaultEmbeddingDeployment))
  }

  /** The corrected dimension is the service's for every environment the
      settings load from. */
  lemma CorrectedDimensionsMatchSettings(env: string -> Option<string>, raw: RawSettings)
    requires raw.embeddingDeployment == env("AZURE_OPENAI_EMBEDDING_DEPLOYMENT")
    requires Load(raw).Success?
    ensures CorrectedIndexDimensions(env) == EmbeddingDimensions(Load(raw).value)
  {
  }

  // ---------------------------------------------------------------------
  // The index

  /** One field of the index: its name, and the vector dimension for the
      vector field. */
  datatype IndexField = IndexField(name: string, key: bool, vectorDimensions: Option<int>)

  /** The index `create_index` builds: HNSW under profile
      "vector-profile". */
  datatype IndexDefinition = IndexDefinition(name: string, fields: seq<IndexField>, algorithm: string, profile: string)

  function IndexFields(dimensions: int): seq<IndexField> {
    [ IndexField("id", true, None),
      IndexField("content", false, None),
      IndexField("content_vector", false, Some(dimensions)),
      IndexField("title", false, None),
      IndexField("source", false, None),
      IndexField("chunk_index", false, None),
      IndexField("created_at", false, None) ]
  }

  /** `create_index(index_client, index_name)`: nothing when `get_index`
      finds the index, otherwise the index definition to create. */
  function CreateIndex(indexExists: bool, indexName: string, dimensions: int): (created: Option<IndexDefinition>)
    ensures indexExists <==> created.None?
    ensures created.Some? ==>
      && created.value.name == indexName
      && created.value.algorithm == "hnsw-config" && created.value.profile == "vector-profile"
      && |created.value.fields| == 7
      && created.value.fields[0] == IndexField("id", true, None)
      && (forall i :: 0 <= i < 7 && i != 0 ==> !created.value.fields[i].key)
      && (forall i :: 0 <= i < 7 ==> (created.value.fields[i].vectorDimensions.Some? <==> i == 2))
      && created.value.fields[2].vectorDimensions == Some(dimensions)
  {
    if indexExists then None
    else Some(IndexDefinition(indexName, IndexFields(dimensions), "hnsw-config", "vector-profile"))
  }

  // ---------------------------------------------------------------------
  // Upload

  /** A sample document. */
  datatype SampleDocument = SampleDocument(id: string, title: string, content: string, source: string)

  /** One record of `docs_to_upload`. */
  datatype UploadRecord = UploadRecord(
    id: string,
    content: string,
    contentVector: Vector,
    title: string,
    source: string,
    chunkIndex: nat,
    createdAt: string)

  function RecordOf(doc: SampleDocument, embedding: Vector, i: nat, createdAt: string): UploadRecord {
    UploadRecord(doc.id, doc.content, embedding, doc.title, doc.source, i, createdAt)
  }

  /** `zip(documents, embeddings)` made into records. */
  function UploadRecords(documents: seq<SampleDocument>, embeddings: seq<Vector>, createdAt: string): seq<UploadRecord> {
    seq(Min(|documents|, |embeddings|), i requires 0 <= i < Min(|documents|, |embeddings|) =>
      RecordOf(documents[i], embeddings[i], i, createdAt))
  }

  function SampleContents(documents: seq<SampleDocument>): (r: seq<string>)
    ensures |r| == |documents| && forall i :: 0 <= i < |documents| ==> r[i] == documents[i].content
  {
    seq(|documents|, i requires 0 <= i < |documents| => documents[i].content)
  }

  /** The upload's report: the succeeded results and the number of
      documents. */
  datatype UploadReport = UploadReport(succeeded: nat, documents: nat)

  /** `upload_documents(...)`: embed every content in one request, build
      one record per (document, embedding) pair stamped with one time,
      upload them, and count the succeeded results. */
  method UploadDocuments(documents: seq<SampleDocument>, embed: seq<string> -> Result<seq<Vector>, string>,
                         upload: seq<UploadRecord> -> Result<seq<bool>, string>, now: string)
    returns (report: Result<UploadReport, string>, sent: seq<UploadRecord>)
    ensures embed(SampleContents(documents)).Failure? ==>
              report == Failure(embed(SampleContents(documents)).error) && sent == []
    ensures embed(SampleContents(documents)).Success? ==>
              && sent == UploadRecords(documents, embed(SampleContents(documents)).value, now)
              && match upload(sent)
                 case Failure(e) => report == Failure(e)
                 case Success(results) =>
                   && report == Success(UploadReport(CountWhere(results, (b: bool) => b), |documents|))
                   && report.value.succeeded <= |results|
  {
    var contents := SampleContents(documents);
    var embeddings := embed(contents);
    if embeddings.Failure? {
      return Failure(embeddings.error), [];
    }
    var n := Min(|documents|, |embeddings.value|);
    var docsToUpload: seq<UploadRecord> := [];
    for i := 0 to n
      invariant |docsToUpload| == i
      invariant forall j :: 0 <= j < i ==> docsToUpload[j] == RecordOf(documents[j], embeddings.value[j], j, now)
    {
      var doc := documents[i];
      docsToUpload := docsToUpload + [UploadRecord(doc.id, doc.content, embeddings.value[i], doc.title, doc.source, i, now)];
    }
    sent := docsToUpload;
    var result := upload(sent);
    if result.Failure? {
      return Failure(result.error), sent;
    }
    var succeeded := CountWhere(result.value, (b: bool) => b);
    return Success(UploadReport(succeeded, |documents|)), sent;
  }

  /** Record i carries document i and embedding i with `chunk_index` i;
      there are as many records as the shorter of the two lists; all
      share one timestamp. */
  lemma RecordsFacts(documents: seq<SampleDocument>, embeddings: seq<Vector>, createdAt: string)
    ensures var rs := UploadRecords(documents, embeddings, createdAt);
      && |rs| == Min(|documents|, |embeddings|)
      && (forall i :: 0 <= i < |rs| ==>
            rs[i].id == documents[i].id && rs[i].content == documents[i].content
            && rs[i].title == documents[i].title && rs[i].source == documents[i].source
            && rs[i].contentVector == embeddings[i] && rs[i].chunkIndex == i)
      && forall i, j :: 0 <= i < |rs| && 0 <= j < |rs| ==> rs[i].createdAt == rs[j].createdAt
  {
  }

  // ---------------------------------------------------------------------
  // main

  /** The variables `main` requires, in declaration order. */
  const RequiredVariables: seq<string> :=
    ["AZURE_SEARCH_ENDPOINT", "AZURE_SEARCH_API_KEY", "AZURE_OPENAI_ENDPOINT", "AZURE_OPENAI_API_KEY"]

  /** `os.environ.get(name)` is set to a non-empty value. */
  predicate IsSet(env: string -> Option<string>, name: string) {
    Truthy(env(name))
  }

  /** `[name for name, value in required_vars if not value]`. */
  function Missing(env: string -> Option<string>, names: seq<string>): (missing: seq<string>)
    ensures |missing| <= |names|
    decreases |names|
  {
    if names == [] then []
    else
      var last := names[|names| - 1];
      Missing(env, names[..|names| - 1]) + (if IsSet(env, last) then [] else [last])
  }

  /** The missing names are exactly the unset ones, in the order given. */
  lemma {:induction false} MissingMembers(env: string -> Option<string>, names: seq<string>)
    ensures forall n :: n in Missing(env, names) <==> n in names && !IsSet(env, n)
    decreases |names|
  {
    if names != [] {
      var init := names[..|names| - 1];
      MissingMembers(env, init);
      assert names == init + [names[|names| - 1]];
    }
  }

  lemma {:induction false} MissingAppend(env: string -> Option<string>, a: seq<string>, b: seq<string>)
    ensures Missing(env, a + b) == Missing(env, a) + Missing(env, b)
    decreases |b|
  {
    if b == [] {
      assert a + b == a;
    } else {
      var init := b[..|b| - 1];
      assert (a + b)[..|a + b| - 1] == a + init;
      assert (a + b)[|a + b| - 1] == b[|b| - 1];
      MissingAppend(env, a, init);
    }
  }

  /** `index_client.create_index(index)`: the error it raises, if any. */
  type CreateCall = IndexDefinition -> Option<string>

  /** `create_index` raises: the index was absent and creating it failed. */
  predicate CreationFails(create: CreateCall, created: Option<IndexDefinition>) {
    created.Some? && create(created.value).Some?
  }

  /** What `main` did: its exit code, the variables it found missing, the
      index definition it sent to `create_index`, the records it uploaded
      and how `upload_documents` ended. An exception `main` does not
      catch ends the script (`exit(main())`) with 1. */
  datatype MainRun = MainRun(exitCode: int, missing: seq<string>, created: Option<IndexDefinition>,
                             uploaded: seq<UploadRecord>, outcome: Option<Result<UploadReport, string>>)

  /** `main()`: with any required variable unset it stops with 1 before
      creating a client; otherwise it creates the index if absent, sized
      by the script's own rule, and uploads the sample documents. It
      exits with 0 exactly when the upload completes; a failed creation,
      embedding or upload raises and exits with 1. */
  method RunMain(env: string -> Option<string>, indexExists: bool, create: CreateCall,
                 documents: seq<SampleDocument>, embed: seq<string> -> Result<seq<Vector>, string>,
                 upload: seq<UploadRecord> -> Result<seq<bool>, string>, now: string)
    returns (run: MainRun)
    ensures run.exitCode == 0 || run.exitCode == 1
    ensures run.exitCode == 0 <==> run.outcome.Some? && run.outcome.value.Success?
    ensures run.missing == Missing(env, RequiredVariables)
    ensures run.missing != [] ==> run.exitCode == 1 && run.created.None? && run.uploaded == [] && run.outcome.None?
    ensures run.missing == [] ==>
              run.created == CreateIndex(indexExists, IndexNameOf(env), ScriptDimensions(DeploymentOf(env)))
    ensures run.missing == [] && CreationFails(create, run.created) ==>
              run.exitCode == 1 && run.uploaded == [] && run.outcome.None?
    ensures run.missing == [] && !CreationFails(create, run.created) ==>
              && run.outcome.Some?
              && (run.exitCode == 0 <==> run.outcome.value.Success?)
              && (embed(SampleContents(documents)).Failure? ==> run.uploaded == [] && run.exitCode == 1)
              && (embed(SampleContents(documents)).Success? ==>
                    && run.uploaded == UploadRecords(documents, embed(SampleContents(documents)).value, now)
                    && (run.exitCode == 0 <==> upload(run.uploaded).Success?))
  {
    var missing := Missing(env, RequiredVariables);
    if missing != [] {
      return MainRun(1, missing, None, [], None);
    }
    var created := CreateIndex(indexExists, IndexNameOf(env), ScriptDimensions(DeploymentOf(env)));
    if created.Some? && create(created.value).Some? {
      return MainRun(1, missing, created, [], None);
    }
    var report, sent := UploadDocuments(documents, embed, upload, now);
    var exitCode := if report.Success? then 0 else 1;
    return MainRun(exitCode, missing, created, sent, Some(report));
  }

  /** With one required variable unset `main` names it and stops. */
  lemma MissingVariableStopsMain(env: string -> Option<string>, k: nat)
    requires k < |RequiredVariables| && !IsSet(env, RequiredVariables[k])
    ensures RequiredVariables[k] in Missing(env, RequiredVariables)
  {
    MissingMembers(env, RequiredVariables);
  }

  /** With every name set nothing is missing, and `main` goes on. */
  lemma {:induction false} AllSetNothingMissing(env: string -> Option<string>, names: seq<string>)
    requires forall k :: 0 <= k < |names| ==> IsSet(env, names[k])
    ensures Missing(env, names) == []
    decreases |names|
  {
    if names != [] {
      var init := names[..|names| - 1];
      assert forall k :: 0 <= k < |init| ==> init[k] == names[k];
      AllSetNothingMissing(env, init);
    }
  }
}
