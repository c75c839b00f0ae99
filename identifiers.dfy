/** Identifier scheme of the ingestion pipeline: every stored contract and every
    indexed chunk gets a random UUID behind a human-readable kind prefix, so that
    the flat namespaces of the blob container and the vector index cannot mix the
    two kinds up. The UUIDs themselves are supplied by the caller: `uuid(i)` is
    the i-th UUID drawn. */
module Identifiers {

  const ContractPrefix: string := "contract-"
  const ChunkPrefix: string := "chunk-"

  predicate IsContractId(s: string) {
    ContractPrefix <= s
  }

  predicate IsChunkId(s: string) {
    ChunkPrefix <= s
  }

  /** No string carries both prefixes: the two differ in their second character. */
  lemma PrefixesExclusive(s: string)
    ensures !(IsContractId(s) && IsChunkId(s))
  {
    assert ContractPrefix[1] == 'o' && ChunkPrefix[1] == 'h';
  }

  /** The blob name of an uploaded contract. */
  function ContractId(uuid: string): (id: string)
    ensures IsContractId(id) && !IsChunkId(id)
    ensures id[|ContractPrefix|..] == uuid
  {
    PrefixesExclusive(ContractPrefix + uuid);
    ContractPrefix + uuid
  }

  /** The ids of `n` chunks, one fresh UUID each, in order. */
  function ChunkIds(n: nat, uuid: nat -> string): (ids: seq<string>)
    ensures |ids| == n
    ensures forall j :: 0 <= j < n ==>
      IsChunkId(ids[j]) && !IsContractId(ids[j]) && ids[j][|ChunkPrefix|..] == uuid(j)
  {
    var ids := seq(n, j requires 0 <= j => ChunkPrefix + uuid(j));
    assert forall j :: 0 <= j < n ==> ChunkPrefix <= ids[j] by {
      forall j | 0 <= j < n ensures ChunkPrefix <= ids[j] {
        assert ids[j] == ChunkPrefix + uuid(j);
      }
    }
    forall j | 0 <= j < n ensures !IsContractId(ids[j]) {
      PrefixesExclusive(ids[j]);
    }
    ids
  }

  /** Distinct UUIDs give distinct contract ids. */
  lemma ContractIdInjective(u: string, v: string)
    requires u != v
    ensures ContractId(u) != ContractId(v)
  {
  }

  /** When the UUIDs drawn are pairwise distinct, so are the chunk ids. */
  lemma ChunkIdsDistinct(n: nat, uuid: nat -> string, j: nat, k: nat)
    requires j < n && k < n && j != k
    requires uuid(j) != uuid(k)
    ensures ChunkIds(n, uuid)[j] != ChunkIds(n, uuid)[k]
  {
  }
}
