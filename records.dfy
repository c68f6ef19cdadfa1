/** The document dictionaries that travel from the chunker to the
    vector store, as a datatype: a key that the dictionary lacks is a
    `None` field. */
module Records {
  import opened Common

  /** An embedding vector; the floats are modelled as reals. */
  type Vector = seq<real>

  /** The JSON `metadata` string a chunk carries, before serialisation. */
  datatype ChunkMetadata = ChunkMetadata(
    docId: string,
    chunkIndex: nat,
    charStart: nat,
    charEnd: int,
    chunkSize: nat)

  /** One document dictionary: `id`, `content`, the optional `title`,
      `source` and `metadata`, and the `content_vector` that indexing
      adds. */
  datatype Document = Document(
    id: string,
    content: string,
    title: Option<string>,
    source: Option<string>,
    metadata: Option<ChunkMetadata>,
    contentVector: Option<Vector>)
}
