/** Metadata fields as poseidon carries them. */
module Headers {
  type Byte = x: nat | x < 256
  type Bytes = seq<Byte>

  datatype IndexingMode = IndexIncremental | IndexWithout | IndexNever

  datatype HeaderField = HeaderField(name: string, value: Bytes, indexing: IndexingMode)

  const ZERO_FIELD := HeaderField("", [], IndexIncremental)
}
