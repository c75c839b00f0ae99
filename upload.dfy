/** The upload handler: validate a batch of files, store each one under a fresh
    contract id, extract its text, split the texts into chunks that remember
    their parent contract, embed every chunk and assemble the four parallel
    lists handed to the vector index. Storage and the index are not called
    here: the handler's effect is returned as the list of blobs it uploads and
    the arguments of the single `add` request. */
module Upload {
  import opened Identifiers
  import opened Embeddings
  import opened Chunking

  type Bytes = seq<bv8>

  /** An uploaded file: the name the client declared and its raw bytes. */
  datatype UploadFile = UploadFile(filename: string, data: Bytes)

  /** One blob written to the storage container. */
  datatype Blob = Blob(name: string, data: Bytes)

  /** The metadata record stored with each chunk. */
  datatype Metadata = Metadata(parentName: string)

  /** The arguments of the vector index's `add`. */
  datatype AddRequest = AddRequest(
    embeddings: seq<Embedding>,
    documents: seq<string>,
    ids: seq<string>,
    metadatas: seq<Metadata>)

  /** What one call of the handler does: either it answers with the rejection
      message and touches nothing, or it uploads blobs and issues one `add`. */
  datatype Outcome =
    | Rejected(message: string)
    | Indexed(blobs: seq<Blob>, request: AddRequest)

  /** The collaborators the handler calls: text extraction for each format, a
      token splitter configured by chunk size and overlap, the embedding
      provider, and the UUID draws (`contractUuid(i)` for the i-th file,
      `chunkUuid(j)` for the j-th chunk). */
  datatype Collaborators = Collaborators(
    pdfText: UploadFile -> string,
    docxText: UploadFile -> string,
    tokenSplitter: (nat, nat) -> (string -> seq<string>),
    embed: string -> Embedding,
    contractUuid: nat -> string,
    chunkUuid: nat -> string)

  const RejectionMessage: string := "Please provide either .docx file or .pdf file"
  /** The token splitter's configuration in the handler: windows of 6000 tokens, no overlap. */
  const ChunkSize: nat := 6000
  const ChunkOverlap: nat := 0

  /** Python's `str.endswith`. */
  predicate EndsWith(s: string, suffix: string) {
    |suffix| <= |s| && s[|s| - |suffix|..] == suffix
  }

  predicate IsPdf(name: string) {
    EndsWith(name, ".pdf")
  }

  predicate IsDocx(name: string) {
    EndsWith(name, ".docx")
  }

  predicate Supported(name: string) {
    IsPdf(name) || IsDocx(name)
  }

  predicate AllSupported(files: seq<UploadFile>) {
    forall i :: 0 <= i < |files| ==> Supported(files[i].filename)
  }

  /** A name never ends in both extensions, so a supported file takes exactly one
      extraction branch. */
  lemma FormatsExclusive(name: string)
    ensures !(IsPdf(name) && IsDocx(name))
  {
    if |name| >= 4 {
      assert ".pdf"[3] == 'f' && ".docx"[4] == 'x';
      assert IsPdf(name) ==> name[|name| - 1] == 'f';
      assert IsDocx(name) ==> name[|name| - 1] == 'x';
    }
  }

  /** The extension test is case-sensitive and looks only at the end of the name. */
  lemma SupportedExamples()
    ensures Supported("lease.pdf") && Supported("lease.docx")
    ensures !Supported("lease.PDF") && !Supported("lease.pdf.txt") && !Supported("lease.doc")
  {
  }

  /** The validation loop: the batch passes only if every name ends in `.pdf` or
      `.docx`; the first other name stops it. */
  method ValidateBatch(files: seq<UploadFile>) returns (ok: bool)
    ensures ok <==> AllSupported(files)
  {
    var i := 0;
    while i < |files|
      invariant i <= |files|
      invariant forall k :: 0 <= k < i ==> Supported(files[k].filename)
    {
      if !IsPdf(files[i].filename) && !IsDocx(files[i].filename) {
        return false;
      }
      i := i + 1;
    }
    return true;
  }

  /** The text of a supported file: the PDF extractor for `.pdf`, the DOCX one
      for `.docx`. */
  function TextOf(f: UploadFile, c: Collaborators): string {
    if IsPdf(f.filename) then c.pdfText(f) else c.docxText(f)
  }

  /** The texts the extraction loop collects: the `if`/`elif` has no `else`, so a
      file with neither extension contributes no text. */
  function ExtractedTexts(files: seq<UploadFile>, c: Collaborators): seq<string> {
    if files == [] then []
    else
      var f := files[|files| - 1];
      ExtractedTexts(files[..|files| - 1], c)
      + (if IsPdf(f.filename) then [c.pdfText(f)]
         else if IsDocx(f.filename) then [c.docxText(f)]
         else [])
  }

  /** After validation the texts line up with the files: one text per file, the
      i-th from the i-th file. */
  lemma {:induction false} ValidatedTextsAligned(files: seq<UploadFile>, c: Collaborators)
    requires AllSupported(files)
    ensures |ExtractedTexts(files, c)| == |files|
    ensures forall i :: 0 <= i < |files| ==> ExtractedTexts(files, c)[i] == TextOf(files[i], c)
  {
    if files != [] {
      var front, f := files[..|files| - 1], files[|files| - 1];
      assert AllSupported(front) by {
        forall i | 0 <= i < |front| ensures Supported(front[i].filename) {
          assert front[i] == files[i];
        }
      }
      ValidatedTextsAligned(front, c);
      var texts := ExtractedTexts(files, c);
      assert texts == ExtractedTexts(front, c) + [TextOf(f, c)];
      forall i | 0 <= i < |files| ensures texts[i] == TextOf(files[i], c) {
        if i < |front| {
          assert files[i] == front[i];
        }
      }
    }
  }

  /** The extraction loop never collects more texts than there are files. */
  lemma {:induction false} TextsAtMostFiles(files: seq<UploadFile>, c: Collaborators)
    ensures |ExtractedTexts(files, c)| <= |files|
  {
    if files != [] {
      TextsAtMostFiles(files[..|files| - 1], c);
    }
  }

  /** Without validation the alignment breaks: a batch holding a file with
      neither extension yields fewer texts than files, while `ExtractAll` still
      gives every file an id and a blob. */
  lemma {:induction false} UnsupportedShortens(files: seq<UploadFile>, c: Collaborators, i: nat)
    requires i < |files| && !Supported(files[i].filename)
    ensures |ExtractedTexts(files, c)| < |files|
  {
    var front := files[..|files| - 1];
    if i == |files| - 1 {
      TextsAtMostFiles(front, c);
    } else {
      assert front[i] == files[i];
      UnsupportedShortens(front, c, i);
    }
  }

  /** The extraction loop: for each file, draw a contract id, upload the bytes
      under it, and extract the text by extension. */
  method ExtractAll(files: seq<UploadFile>, c: Collaborators)
    returns (filenames: seq<string>, texts: seq<string>, blobs: seq<Blob>)
    ensures |filenames| == |files| && |blobs| == |files|
    ensures forall i :: 0 <= i < |files| ==>
      && filenames[i] == ContractId(c.contractUuid(i))
      && blobs[i] == Blob(filenames[i], files[i].data)
    ensures texts == ExtractedTexts(files, c)
  {
    filenames, texts, blobs := [], [], [];
    var i := 0;
    while i < |files|
      invariant i <= |files|
      invariant |filenames| == i && |blobs| == i
      invariant forall k :: 0 <= k < i ==>
        && filenames[k] == ContractId(c.contractUuid(k))
        && blobs[k] == Blob(filenames[k], files[k].data)
      invariant texts == ExtractedTexts(files[..i], c)
    {
      var file := files[i];
      var filename := ContractId(c.contractUuid(i));
      filenames := filenames + [filename];
      blobs := blobs + [Blob(filename, file.data)];
      assert files[..i + 1][..i] == files[..i] && files[..i + 1][i] == file;
      ghost var done := files[..i + 1];
      assert ExtractedTexts(done, c) == ExtractedTexts(files[..i], c)
        + (if IsPdf(file.filename) then [c.pdfText(file)]
           else if IsDocx(file.filename) then [c.docxText(file)]
           else []);
      if IsPdf(file.filename) {
        texts := texts + [c.pdfText(file)];
      } else if IsDocx(file.filename) {
        texts := texts + [c.docxText(file)];
      }
      i := i + 1;
    }
    assert files[..i] == files;
  }

  /** `transform_chunks_parent_name`: one `{"parent_name": name}` record per
      name, in order. */
  method TransformChunksParentName(names: seq<string>) returns (objects: seq<Metadata>)
    ensures |objects| == |names|
    ensures forall i :: 0 <= i < |names| ==> objects[i].parentName == names[i]
  {
    objects := [];
    for i := 0 to |names|
      invariant |objects| == i
      invariant forall k :: 0 <= k < i ==> objects[k].parentName == names[k]
    {
      objects := objects + [Metadata(names[i])];
    }
  }

  /** Chunk ids, stored texts and embeddings of the `add` request line up with the chunks. */
  ghost predicate ParallelLists(chunks: seq<string>, request: AddRequest, c: Collaborators) {
    && request.documents == chunks
    && |request.embeddings| == |chunks|
    && |request.ids| == |chunks|
    && |request.metadatas| == |chunks|
    && (forall j :: 0 <= j < |chunks| ==> request.embeddings[j] == GetEmbedding(chunks[j], c.embed))
    && request.ids == ChunkIds(|chunks|, c.chunkUuid)
  }

  /** Each text's splits form one contiguous block of the chunk list, in
      document order, and every entry of the block names that document's blob as
      its parent. */
  ghost predicate BlocksNameTheirDocument(
    texts: seq<string>, split: string -> seq<string>, metadatas: seq<Metadata>, blobs: seq<Blob>)
    requires |texts| == |blobs|
    requires |metadatas| == |Flatten(texts, split)|
  {
    forall i :: 0 <= i < |texts| ==>
      && Offset(texts, split, i) + |split(texts[i])| <= |metadatas|
      && Flatten(texts, split)[Offset(texts, split, i)..Offset(texts, split, i) + |split(texts[i])|] == split(texts[i])
      && forall j :: Offset(texts, split, i) <= j < Offset(texts, split, i) + |split(texts[i])| ==>
           metadatas[j].parentName == blobs[i].name
  }

  /** Every chunk is a split of the text of the document it names as parent. */
  ghost predicate ChunksNameTheirOwner(
    texts: seq<string>, split: string -> seq<string>, metadatas: seq<Metadata>, blobs: seq<Blob>)
    requires |texts| == |blobs|
    requires |metadatas| == |Flatten(texts, split)|
  {
    forall j :: 0 <= j < |metadatas| ==>
      var i := Owner(texts, split, j);
      && Flatten(texts, split)[j] == split(texts[i])[j - Offset(texts, split, i)]
      && metadatas[j].parentName == blobs[i].name
  }

  /** Records built from the parent list name, at every chunk position, the
      document that chunk came from. */
  lemma MetadataNamesParents(
    filenames: seq<string>, texts: seq<string>, blobs: seq<Blob>,
    split: string -> seq<string>, metadatas: seq<Metadata>)
    requires |filenames| == |texts| == |blobs|
    requires forall i :: 0 <= i < |blobs| ==> blobs[i].name == filenames[i]
    requires |metadatas| == |Parents(filenames, texts, split)|
    requires forall j :: 0 <= j < |metadatas| ==> metadatas[j].parentName == Parents(filenames, texts, split)[j]
    ensures |metadatas| == |Flatten(texts, split)|
    ensures BlocksNameTheirDocument(texts, split, metadatas, blobs)
    ensures ChunksNameTheirOwner(texts, split, metadatas, blobs)
  {
    ParentsLength(filenames, texts, split);
    forall i | 0 <= i < |texts|
      ensures Offset(texts, split, i) + |split(texts[i])| <= |metadatas|
      ensures Flatten(texts, split)[Offset(texts, split, i)..Offset(texts, split, i) + |split(texts[i])|] == split(texts[i])
      ensures forall j :: Offset(texts, split, i) <= j < Offset(texts, split, i) + |split(texts[i])| ==>
        metadatas[j].parentName == blobs[i].name
    {
      BlockIsSplit(filenames, texts, split, i);
    }
    forall j | 0 <= j < |metadatas|
      ensures Flatten(texts, split)[j] == split(texts[Owner(texts, split, j)])[j - Offset(texts, split, Owner(texts, split, j))]
      ensures metadatas[j].parentName == blobs[Owner(texts, split, j)].name
    {
      ChunkBelongsToOwner(filenames, texts, split, j);
    }
  }

  /** The handler. A batch with any file that ends in neither `.pdf` nor `.docx`
      is rejected before anything is stored or indexed. Otherwise every file is
      stored under its own contract id, and the index receives one entry per
      chunk whose embedding, text, id and parent all sit at the same position,
      the parent being the contract the chunk was split from. */
  method UploadFiles(files: seq<UploadFile>, c: Collaborators) returns (outcome: Outcome)
    ensures outcome.Rejected? <==> exists i :: 0 <= i < |files| && !Supported(files[i].filename)
    ensures outcome.Rejected? ==> outcome.message == RejectionMessage
    ensures outcome.Indexed? ==>
      var texts := ExtractedTexts(files, c);
      var split := c.tokenSplitter(ChunkSize, ChunkOverlap);
      var chunks := Flatten(texts, split);
      var blobs := outcome.blobs;
      // one stored blob per file, under its contract id
      && |blobs| == |files|
      && (forall i :: 0 <= i < |files| ==>
            blobs[i] == Blob(ContractId(c.contractUuid(i)), files[i].data))
      // one extracted text per file
      && |texts| == |files|
      && (forall i :: 0 <= i < |files| ==> texts[i] == TextOf(files[i], c))
      // one index entry per chunk
      && ParallelLists(chunks, outcome.request, c)
      && BlocksNameTheirDocument(texts, split, outcome.request.metadatas, blobs)
      && ChunksNameTheirOwner(texts, split, outcome.request.metadatas, blobs)
  {
    var ok := ValidateBatch(files);
    if !ok {
      return Rejected(RejectionMessage);
    }
    var filenames, texts, blobs := ExtractAll(files, c);
    ValidatedTextsAligned(files, c);
    var split := c.tokenSplitter(ChunkSize, ChunkOverlap);
    var chunks, parents := FlattenChunks(filenames, texts, split);
    var embeddings := EmbedAll(chunks, c.embed);
    var metadatas := TransformChunksParentName(parents);
    MetadataNamesParents(filenames, texts, blobs, split, metadatas);
    outcome := Indexed(blobs, AddRequest(embeddings, chunks, ChunkIds(|chunks|, c.chunkUuid), metadatas));
  }
}
