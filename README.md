# Contract ingestion: batch assembly of the upload handler

This project models the core of a contract-recommendation service's ingestion endpoint (`upload_files` in `main.py`). The endpoint takes a batch of uploaded contracts and does the following:

- It rejects the whole batch if any file name ends in neither `.pdf` nor `.docx`.
- It stores each file in a blob container under a fresh `"contract-"` id and extracts its text.
- It splits every text with a token splitter (chunk size 6000, overlap 0).
- It flattens the splits of all documents into one chunk list, with a parallel list that gives the parent contract of each chunk.
- It embeds every chunk after turning newlines into spaces.
- It hands the vector index four position-aligned lists: embeddings, chunk texts, `"chunk-"` ids, and `{"parent_name": ...}` records.

The model is in four modules:

- `Identifiers` (identifiers.dfy): the id prefixes and the two id generators.
- `Embeddings` (embeddings.dfy): the newline normalisation, `get_embedding` and the embedding loop.
- `Chunking` (chunking.dfy): the flattened chunk list and its parent list, given as specification functions together with the flattening loop proved against them.
- `Upload` (upload.dfy): the handler's data, validation, the extraction loop, `transform_chunks_parent_name` and the handler itself.

The handler's loops are written as one method each (`ValidateBatch`, `ExtractAll`, `FlattenChunks`, `EmbedAll`), and `UploadFiles` calls them in the source's order.

The collaborators are fields of a `Collaborators` record, and every one of them is a total function the caller supplies:

- the PDF and DOCX text extractors;
- the token splitter, as a function of chunk size and overlap;
- the embedding provider;
- the UUID generator, as two streams: `contractUuid(i)` is the UUID drawn for the i-th file and `chunkUuid(j)` the one drawn for the j-th chunk.

The handler's effects are not performed. It returns an `Outcome` instead:

- `Rejected(message)`: the batch was refused. No blob is uploaded and no index write is made.
- `Indexed(blobs, request)`: the blobs written to storage, in upload order, and the arguments of the single `collection.add` call.

This way "no storage or index call on rejection" follows from the shape of the result.

Three facts about the handler shape the model:

- The handler does not return the created document ids. It returns the collection's contents, which is not modelled here.
- Files with no extractable text are not skipped. Their (possibly empty) split is flattened like any other.
- There is no handling of extraction errors.

## Model

| member | source | states |
|---|---|---|
| `Identifiers.ContractId` | main.py:53-54 | a contract id carries the `"contract-"` prefix, never the `"chunk-"` one, and the rest of it is the UUID drawn |
| `Identifiers.ChunkIds` | main.py:48-51 | exactly `n` ids; id `j` carries the `"chunk-"` prefix, not the `"contract-"` one, and after the prefix is UUID `j` |
| `Identifiers.PrefixesExclusive` | main.py:48-54 | no string carries both prefixes, so a chunk id can never be mistaken for a contract id |
| `Identifiers.ContractIdInjective` | main.py:53-54 | distinct UUIDs give distinct contract ids |
| `Identifiers.ChunkIdsDistinct` | main.py:48-51 | chunk ids at two positions differ whenever their UUIDs differ |
| `Embeddings.Normalize` | main.py:22 | same length, no `'\n'` left, every newline replaced by a space and every other character unchanged |
| `Embeddings.NormalizeIdempotent` | main.py:22 | normalising an already normalised text changes nothing |
| `Embeddings.NormalizeNewlineAsSpace` | main.py:22 | two texts that differ only by newline-versus-space normalise to the same string |
| `Embeddings.GetEmbedding` | main.py:21-23 | the result is the provider's vector for the text with every newline replaced by a space and every other character kept |
| `Embeddings.GetEmbeddingNewlineInsensitive` | main.py:21-23 | texts that differ only by newline-versus-space, and a text and its normalised form, are sent to the provider as the same text, so under the model's deterministic provider their vectors agree |
| `Embeddings.EmbedAll` | main.py:95-97 | one embedding per chunk, in order: entry `j` is `get_embedding` of chunk `j` |
| `Chunking.ParentsLength` | main.py:90-93 | the parent list is as long as the flattened chunk list |
| `Chunking.BlockAt` | main.py:90-93 | position `k` of document `i`'s block holds split `k` of document `i`'s text and has document `i`'s id as parent |
| `Chunking.BlockIsSplit` | main.py:90-93 | document `i`'s chunks form one contiguous block that equals its split, and every parent in the block is document `i`'s id |
| `Chunking.Owner` | main.py:90-93 | every chunk position lies inside the block of the document it is assigned to |
| `Chunking.OwnerUnique` | main.py:90-93 | the blocks do not overlap: a document whose block contains chunk position `j` is `j`'s owner |
| `Chunking.ChunkBelongsToOwner` | main.py:90-93 | chunk `j` is a split of its owner's text, and its parent is its owner's id |
| `Chunking.Repeat` | main.py:92 | `[x] * n`: exactly `n` entries, each equal to `x` |
| `Chunking.FlattenChunks` | main.py:86-93 | the loop builds the concatenation of the splits in document order and the id of each document repeated once per split; the two lists have equal length after every iteration |
| `Upload.FormatsExclusive` | main.py:79-84 | no name ends in both `.pdf` and `.docx`, so a supported file takes exactly one extraction branch |
| `Upload.SupportedExamples` | main.py:66-68 | the extension test is case-sensitive and looks only at the end of the name (`lease.PDF`, `lease.pdf.txt` and `lease.doc` are refused) |
| `Upload.ValidateBatch` | main.py:66-68 | accepts the batch if and only if every file name ends in `.pdf` or `.docx` |
| `Upload.ValidatedTextsAligned` | main.py:75-84 | in a validated batch there is one text per file, and text `i` is extracted from file `i` by the extractor of its format |
| `Upload.TextsAtMostFiles` | main.py:75-84 | the extraction loop collects at most one text per file |
| `Upload.UnsupportedShortens` | main.py:75-84 | in any batch holding a file with neither extension, the loop collects fewer texts than files; since `ExtractAll` still gives every file an id, the validation at main.py:66-68 is what keeps ids and texts aligned |
| `Upload.ExtractAll` | main.py:73-84 | one contract id and one blob per file, in file order; blob `i` holds file `i`'s bytes under id `i`; the texts are those of the `if`/`elif` extraction |
| `Upload.TransformChunksParentName` | main.py:56-61 | same length and order as the input; record `i` has `parent_name` equal to input `i` |
| `Upload.MetadataNamesParents` | main.py:101-106 | the records built from the parent list name document `i`'s blob throughout document `i`'s block, and every chunk's record names the blob of the document it was split from |
| `Upload.UploadFiles` | main.py:63-106 | rejected with the fixed message if and only if some file name ends in neither extension, with nothing uploaded or indexed. Otherwise: one blob per file under its contract id, one text per file, and four index lists as long as the chunk list. Chunks are the concatenated splits, each text split by the token splitter at chunk size 6000, overlap 0 (main.py:88); embedding `j` is `get_embedding` of chunk `j`; ids are `n` chunk ids; each document's block names it as parent, and each chunk names the document it came from |

## Left out

- HTTP routing, `UploadFile` handling and the value returned after indexing (`collection.get()`): framework plumbing. The model returns the blobs and the `add` arguments instead.
- The blob upload and the index write are not performed; the model returns them as data. The storage and index clients and the collection creation are not modelled.
- The OpenAI embeddings call: a network call. The provider is a parameter.
- Non-determinism of the embedding provider: the provider is a function in the model, so the same text always gets the same vector. The real endpoint does not promise that.
- PDF and DOCX text extraction: thin wrappers over third-party parsers. Both extractors are parameters.
- The internals of the token splitter. The tokenizer is not visible, so no claim about chunk sizes, overlap or round trips is made. The splitter is a parameter, and the model passes it the source's chunk size 6000 and overlap 0.
- UUID randomness and uniqueness: probabilistic. The model takes each UUID as a supplied string. Distinctness of ids is proved only under the assumption that the UUIDs differ.
- Numeric floating-point content of embeddings: vectors are opaque sequences of reals.
- Exceptions from collaborators, and the partial state they would leave behind (blobs stored but never indexed): the collaborators are total functions in the model.
