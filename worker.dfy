/** `IngestionWorker`: `extract_text` decodes a blob whatever its
    extension, `process_blob` downloads, extracts, chunks and indexes one
    blob and reports how many chunks it produced, and `scan_and_process`
    walks the blob listing, processing each blob whose
    `"name:last_modified"` key it has not recorded and recording the key
    only when processing produced chunks. The blob download, the UTF-8
    decoder, the JSON pretty-printer and MD5 are functions given as
    parameters. */
module Ingestion {
  import opened Common
  import opened Text
  import opened Records
  import opened Config
  import opened Chunking
  import opened Embeddings
  import opened VectorStore

  type Bytes = seq<bv8>

  /** The services a worker talks to: downloads, `bytes.decode("utf-8",
      errors="replace")`, `json.dumps(json.loads(...), indent=2)`, MD5 as
      a hex string, the embedding provider of each attempt and the index
      upload. */
  datatype Env = Env(
    download: string -> Result<Bytes, string>,
    decode: Bytes -> string,
    prettyJson: Bytes -> string,
    md5Hex: string -> string,
    embedApi: nat -> Provider,
    upload: Upload)

  /** The extensions read as plain text. */
  const TextExtensions: seq<string> := ["txt", "md", "csv", "json", "log"]

  /** `blob_name.lower().rsplit(".", 1)[-1] if "." in blob_name else
      "txt"`: the lower-cased text after the last dot, which holds no
      dot. */
  function Extension(blobName: string): (ext: string)
    ensures RFind(blobName, ".", 0, |blobName|) == -1 ==> ext == "txt" && '.' !in blobName
    ensures var r := RFind(blobName, ".", 0, |blobName|);
      r != -1 ==> blobName[r] == '.' && ext == Lower(blobName[r + 1..]) && '.' !in ext
  {
    var r := RFind(blobName, ".", 0, |blobName|);
    RFindCharFacts(blobName, '.');
    if r == -1 then "txt"
    else
      var ext := Lower(blobName[r + 1..]);
      assert forall i :: 0 <= i < |ext| ==> ext[i] == LowerChar(blobName[r + 1 + i]);
      ext
  }

  /** `extract_text(blob_name, content)`, with its three branches. */
  function ExtractText(blobName: string, content: Bytes, decode: Bytes -> string,
                       prettyJson: Bytes -> string): (text: string)
    ensures text == decode(content)
  {
    var ext := Extension(blobName);
    if ext in TextExtensions then decode(content)
    else if ext == "json" then prettyJson(content)
    else decode(content)
  }

  /** `hashlib.md5(blob_name.encode()).hexdigest()[:12]`. */
  function DocId(md5Hex: string -> string, blobName: string): string {
    Prefix(md5Hex(blobName), 12)
  }

  /** What `process_blob(blob_name)` returns: 0 without a blob client,
      when the download or the indexing raises, or when the text is
      blank or gives no chunks; otherwise the number of chunks. */
  function ProcessOutcome(chunker: DocumentChunker, hasBlobClient: bool, env: Env, blobName: string): nat
    requires chunker.Valid()
  {
    if !hasBlobClient then 0
    else
      match env.download(blobName)
      case Failure(_) => 0
      case Success(data) =>
        var text := ExtractText(blobName, data, env.decode, env.prettyJson);
        if IsBlank(text) then 0
        else
          var chunks := ChunkSpec(chunker, text, DocId(env.md5Hex, blobName), blobName, env.md5Hex);
          if chunks == [] || IndexOutcome(chunks, true, env.embedApi, env.upload).Failure? then 0
          else |chunks|
  }

  /** One entry of `list_blobs()`. */
  datatype Blob = Blob(name: string, lastModified: string)

  /** `f"{blob.name}:{blob.last_modified}"`. */
  function BlobKey(b: Blob): string {
    b.name + ":" + b.lastModified
  }

  /** The bookkeeping of a scan: the recorded keys, the three counters,
      and the names handed to `process_blob`, in order. */
  datatype ScanState = ScanState(
    processed: set<string>,
    scanned: nat,
    newBlobs: nat,
    chunksCreated: nat,
    attempted: seq<string>)

  /** The state after the loop has seen `blobs`, starting from the keys
      `processed`; `out` gives each blob name's `process_blob` result. */
  function Scan(blobs: seq<Blob>, processed: set<string>, out: string -> nat): ScanState
    decreases |blobs|
  {
    if blobs == [] then ScanState(processed, 0, 0, 0, [])
    else
      var prev := Scan(blobs[..|blobs| - 1], processed, out);
      var b := blobs[|blobs| - 1];
      var seen := prev.(scanned := prev.scanned + 1);
      if BlobKey(b) in prev.processed then seen
      else if out(b.name) > 0 then
        seen.(processed := prev.processed + {BlobKey(b)},
              newBlobs := prev.newBlobs + 1,
              chunksCreated := prev.chunksCreated + out(b.name),
              attempted := prev.attempted + [b.name])
      else seen.(attempted := prev.attempted + [b.name])
  }

  /** What `scan_and_process` returns. */
  datatype ScanReport =
    | NoBlobClient
    | Report(scanned: nat, newBlobs: nat, chunksCreated: nat, error: Option<string>)

  class IngestionWorker {
    const chunker: DocumentChunker
    const hasBlobClient: bool
    var processedBlobs: set<string>

    constructor(chunker: DocumentChunker, hasBlobClient: bool)
      requires chunker.Valid()
      ensures this.chunker == chunker && this.hasBlobClient == hasBlobClient
      ensures processedBlobs == {}
    {
      this.chunker := chunker;
      this.hasBlobClient := hasBlobClient;
      processedBlobs := {};
    }

    /** `process_blob(blob_name)`. */
    method ProcessBlob(blobName: string, env: Env) returns (n: nat)
      requires chunker.Valid()
      ensures n == ProcessOutcome(chunker, hasBlobClient, env, blobName)
    {
      if !hasBlobClient {
        return 0;
      }
      var blobData := env.download(blobName);
      if blobData.Failure? {
        return 0;
      }
      var text := ExtractText(blobName, blobData.value, env.decode, env.prettyJson);
      if IsBlank(text) {
        return 0;
      }
      var docId := DocId(env.md5Hex, blobName);
      var chunks := chunker.ChunkText(text, docId, blobName, env.md5Hex);
      if chunks == [] {
        return 0;
      }
      var docs := new Document[|chunks|](i requires 0 <= i < |chunks| => chunks[i]);
      assert docs[..] == chunks;
      var indexed := IndexDocuments(docs, true, env.embedApi, env.upload);
      if indexed.Failure? {
        return 0;
      }
      return |chunks|;
    }

    /** `scan_and_process()`, given the outcome of `list_blobs()`. */
    method ScanAndProcess(listing: Result<seq<Blob>, string>, env: Env) returns (report: ScanReport)
      requires chunker.Valid()
      modifies this
      ensures !hasBlobClient ==> report == NoBlobClient && processedBlobs == old(processedBlobs)
      ensures hasBlobClient && listing.Failure? ==>
                report == Report(0, 0, 0, Some(listing.error)) && processedBlobs == old(processedBlobs)
      ensures hasBlobClient && listing.Success? ==>
                var s := Scan(listing.value, old(processedBlobs), (name: string) => ProcessOutcome(chunker, hasBlobClient, env, name));
                report == Report(s.scanned, s.newBlobs, s.chunksCreated, None) && processedBlobs == s.processed
    {
      if !hasBlobClient {
        return NoBlobClient;
      }
      if listing.Failure? {
        return Report(0, 0, 0, Some(listing.error));
      }
      var blobs := listing.value;
      ghost var out := (name: string) => ProcessOutcome(chunker, hasBlobClient, env, name);
      ghost var attempted: seq<string> := [];
      var scanned, newBlobs, chunksCreated := 0, 0, 0;
      for k := 0 to |blobs|
        invariant Scan(blobs[..k], old(processedBlobs), out)
               == ScanState(processedBlobs, scanned, newBlobs, chunksCreated, attempted)
      {
        var b := blobs[k];
        assert blobs[..k + 1][..k] == blobs[..k];
        scanned := scanned + 1;
        var blobKey := BlobKey(b);
        if blobKey !in processedBlobs {
          var chunks := ProcessBlob(b.name, env);
          attempted := attempted + [b.name];
          if chunks > 0 {
            processedBlobs := processedBlobs + {blobKey};
            newBlobs := newBlobs + 1;
            chunksCreated := chunksCreated + chunks;
          }
        }
      }
      assert blobs[..|blobs|] == blobs;
      report := Report(scanned, newBlobs, chunksCreated, None);
    }
  }

  // ---------------------------------------------------------------------
  // Properties of a scan

  /** Every listed blob is counted; no more blobs are new than were
      scanned; keys are only ever added. */
  lemma {:induction false} ScanCounts(blobs: seq<Blob>, processed: set<string>, out: string -> nat)
    ensures var s := Scan(blobs, processed, out);
      s.scanned == |blobs| && s.newBlobs <= s.scanned && |s.attempted| <= s.scanned && processed <= s.processed
    decreases |blobs|
  {
    if blobs != [] {
      ScanCounts(blobs[..|blobs| - 1], processed, out);
    }
  }

  /** After a scan, every listed blob whose processing produced chunks has
      its key recorded. */
  lemma {:induction false} ScanRecordsSuccesses(blobs: seq<Blob>, processed: set<string>, out: string -> nat)
    ensures forall k :: 0 <= k < |blobs| && out(blobs[k].name) > 0 ==>
              BlobKey(blobs[k]) in Scan(blobs, processed, out).processed
    decreases |blobs|
  {
    if blobs != [] {
      var init := blobs[..|blobs| - 1];
      ScanRecordsSuccesses(init, processed, out);
      ScanCounts(blobs, processed, out);
      var prev := Scan(init, processed, out);
      assert prev.processed <= Scan(blobs, processed, out).processed;
      forall k | 0 <= k < |blobs| - 1 && out(blobs[k].name) > 0
        ensures BlobKey(blobs[k]) in Scan(blobs, processed, out).processed
      {
        assert blobs[k] == init[k];
      }
    }
  }

  /** A scan that finds every key already recorded, or every unrecorded
      blob still producing nothing, changes nothing; its only effect is
      the calls to `process_blob` for the unrecorded blobs. */
  lemma {:induction false} ScanOfKnownBlobs(blobs: seq<Blob>, processed: set<string>, out: string -> nat)
    requires forall k :: 0 <= k < |blobs| ==> BlobKey(blobs[k]) in processed || out(blobs[k].name) == 0
    ensures Scan(blobs, processed, out).processed == processed
    ensures Scan(blobs, processed, out).newBlobs == 0
    ensures Scan(blobs, processed, out).chunksCreated == 0
    ensures forall name :: name in Scan(blobs, processed, out).attempted ==>
              exists k :: 0 <= k < |blobs| && blobs[k].name == name && BlobKey(blobs[k]) !in processed
    decreases |blobs|
  {
    if blobs != [] {
      var init := blobs[..|blobs| - 1];
      assert forall k :: 0 <= k < |init| ==> init[k] == blobs[k];
      ScanOfKnownBlobs(init, processed, out);
    }
  }

  /** Re-scanning an unchanged listing, with blobs that process the same
      way, records nothing new and creates no chunks, and only the blobs
      that produced nothing the first time are processed again. */
  lemma RescanFindsNothingNew(blobs: seq<Blob>, processed: set<string>, out: string -> nat)
    ensures var first := Scan(blobs, processed, out);
      var second := Scan(blobs, first.processed, out);
      && second.processed == first.processed
      && second.newBlobs == 0
      && second.chunksCreated == 0
      && forall name :: name in second.attempted ==>
           exists k :: 0 <= k < |blobs| && blobs[k].name == name && out(name) == 0
  {
    var first := Scan(blobs, processed, out);
    ScanRecordsSuccesses(blobs, processed, out);
    ScanOfKnownBlobs(blobs, first.processed, out);
  }

  // ---------------------------------------------------------------------
  // The chunker `__init__` builds from the settings

  /** `DocumentChunker(chunk_size=settings.chunk_size,
      chunk_overlap=settings.chunk_overlap)`. */
  function WorkerChunker(s: Settings): (c: DocumentChunker)
    ensures c.chunkSize == s.chunkSize && c.chunkOverlap == s.chunkOverlap
  {
    DocumentChunker(s.chunkSize, s.chunkOverlap)
  }

  /** As written, settings that load give the worker a chunker that is
      not valid, whose `chunk_text` never returns on a non-blank text:
      after any number of passes `start` is still 0. */
  lemma LoadedChunkerStalls(raw: RawSettings, text: string, k: nat)
    requires EqualSizeAndOverlap(raw)
    requires !IsBlank(text)
    ensures Load(raw).Success?
    ensures var c := WorkerChunker(Load(raw).value);
      !c.Valid() && c.Step() == 0 && StartAfter(c, k) <= 0 < |Strip(text)|
  {
    LoadAdmitsEqualOverlap(raw);
    NoProgressWithoutPositiveStep(WorkerChunker(Load(raw).value), text, k);
  }

  /** With the corrected settings the worker's chunker is always valid,
      so `chunk_text` visits the window starts and terminates. */
  lemma CorrectedLoadGivesValidChunker(raw: RawSettings)
    requires CorrectedLoad(raw).Success?
    ensures WorkerChunker(CorrectedLoad(raw).value).Valid()
  {
    CorrectedLoadMakesProgress(raw);
  }
}
