/** The embedding gateway: text is normalised (every newline becomes a space)
    and then handed to the embedding provider, which is a parameter here. */
module Embeddings {

  /** A vector returned by the provider; its numeric format is not modelled. */
  type Embedding = seq<real>

  /** `text.replace("\n", " ")`. */
  function Normalize(text: string): (r: string)
    ensures |r| == |text|
    ensures '\n' !in r
    ensures forall i :: 0 <= i < |text| && text[i] != '\n' ==> r[i] == text[i]
    ensures forall i :: 0 <= i < |text| && text[i] == '\n' ==> r[i] == ' '
  {
    if text == [] then []
    else [if text[0] == '\n' then ' ' else text[0]] + Normalize(text[1..])
  }

  /** Normalising twice is normalising once. */
  lemma NormalizeIdempotent(text: string)
    ensures Normalize(Normalize(text)) == Normalize(text)
  {
  }

  /** Two texts that differ only by newlines standing where the other has a space
      normalise to the same string. */
  lemma NormalizeNewlineAsSpace(s: string, t: string)
    requires |s| == |t|
    requires forall i :: 0 <= i < |s| ==> s[i] == t[i] || (s[i] in "\n " && t[i] in "\n ")
    ensures Normalize(s) == Normalize(t)
  {
  }

  /** `get_embedding`: the provider is asked about the text with every newline
      replaced by a space and every other character kept. */
  function GetEmbedding(text: string, embed: string -> Embedding): (v: Embedding)
    ensures exists sent: string ::
      && |sent| == |text|
      && '\n' !in sent
      && (forall i :: 0 <= i < |text| && text[i] != '\n' ==> sent[i] == text[i])
      && (forall i :: 0 <= i < |text| && text[i] == '\n' ==> sent[i] == ' ')
      && v == embed(sent)
  {
    var sent := Normalize(text);
    embed(sent)
  }

  /** The provider is never asked about a newline: a text and its normalised
      form, and two texts that differ only by newline-versus-space, are sent as
      the same text, so the vectors agree because the provider is a function. */
  lemma GetEmbeddingNewlineInsensitive(s: string, t: string, embed: string -> Embedding)
    requires |s| == |t|
    requires forall i :: 0 <= i < |s| ==> s[i] == t[i] || (s[i] in "\n " && t[i] in "\n ")
    ensures GetEmbedding(s, embed) == GetEmbedding(t, embed)
    ensures GetEmbedding(Normalize(s), embed) == GetEmbedding(s, embed)
  {
    NormalizeNewlineAsSpace(s, t);
    NormalizeIdempotent(s);
  }

  /** The embedding loop of the upload handler: one provider call per chunk, in order. */
  method EmbedAll(chunks: seq<string>, embed: string -> Embedding) returns (embeddings: seq<Embedding>)
    ensures |embeddings| == |chunks|
    ensures forall j :: 0 <= j < |chunks| ==> embeddings[j] == GetEmbedding(chunks[j], embed)
  {
    embeddings := [];
    var j := 0;
    while j < |chunks|
      invariant j <= |chunks|
      invariant |embeddings| == j
      invariant forall k :: 0 <= k < j ==> embeddings[k] == GetEmbedding(chunks[k], embed)
    {
      embeddings := embeddings + [GetEmbedding(chunks[j], embed)];
      j := j + 1;
    }
  }
}
