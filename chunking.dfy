/** Chunk flattening with parent assignment: every document's splits are appended
    to one chunk list, and the document's id is repeated once per split into a
    parallel parent list. The splitter is a parameter. */
module Chunking {

  /** The splits of all texts, concatenated in document order. */
  function Flatten(texts: seq<string>, split: string -> seq<string>): seq<string> {
    if texts == [] then []
    else Flatten(texts[..|texts| - 1], split) + split(texts[|texts| - 1])
  }

  /** `[x] * n` */
  function Repeat(x: string, n: nat): (r: seq<string>)
    ensures |r| == n
    ensures forall k :: 0 <= k < n ==> r[k] == x
  {
    seq(n, _ => x)
  }

  /** The id of each text, repeated once per split of that text, in document order. */
  function Parents(ids: seq<string>, texts: seq<string>, split: string -> seq<string>): seq<string>
    requires |texts| <= |ids|
  {
    if texts == [] then []
    else Parents(ids, texts[..|texts| - 1], split) + Repeat(ids[|texts| - 1], |split(texts[|texts| - 1])|)
  }

  /** Where the block of text `i` starts in the flattened chunk list. */
  ghost function Offset(texts: seq<string>, split: string -> seq<string>, i: nat): nat
    requires i <= |texts|
  {
    |Flatten(texts[..i], split)|
  }

  /** The two lists stay position-aligned. */
  lemma {:induction false} ParentsLength(ids: seq<string>, texts: seq<string>, split: string -> seq<string>)
    requires |texts| <= |ids|
    ensures |Parents(ids, texts, split)| == |Flatten(texts, split)|
  {
    if texts != [] {
      ParentsLength(ids, texts[..|texts| - 1], split);
    }
  }

  /** Each block is as long as the split of its text. */
  lemma OffsetStep(texts: seq<string>, split: string -> seq<string>, i: nat)
    requires i < |texts|
    ensures Offset(texts, split, i + 1) == Offset(texts, split, i) + |split(texts[i])|
  {
    assert texts[..i + 1][..i] == texts[..i];
  }

  lemma OffsetWhole(texts: seq<string>, split: string -> seq<string>)
    ensures Offset(texts, split, |texts|) == |Flatten(texts, split)|
  {
    assert texts[..|texts|] == texts;
  }

  /** Position `k` of the block of text `i` holds split `k` of that text, and its
      parent is the id of text `i`. */
  lemma {:induction false} BlockAt(ids: seq<string>, texts: seq<string>, split: string -> seq<string>, i: nat, k: nat)
    requires |texts| <= |ids|
    requires i < |texts| && k < |split(texts[i])|
    ensures Offset(texts, split, i) + k < |Flatten(texts, split)|
    ensures |Parents(ids, texts, split)| == |Flatten(texts, split)|
    ensures Flatten(texts, split)[Offset(texts, split, i) + k] == split(texts[i])[k]
    ensures Parents(ids, texts, split)[Offset(texts, split, i) + k] == ids[i]
  {
    var n := |texts| - 1;
    var front := texts[..n];
    ParentsLength(ids, texts, split);
    ParentsLength(ids, front, split);
    if i == n {
      assert texts[..i] == front;
    } else {
      BlockAt(ids, front, split, i, k);
      assert front[..i] == texts[..i];
      assert front[i] == texts[i];
    }
  }

  /** No block starts beyond the end of the chunk list. */
  lemma {:induction false} OffsetBounded(texts: seq<string>, split: string -> seq<string>, i: nat)
    requires i <= |texts|
    ensures Offset(texts, split, i) <= |Flatten(texts, split)|
  {
    if i < |texts| {
      var front := texts[..|texts| - 1];
      OffsetBounded(front, split, i);
      assert front[..i] == texts[..i];
    } else {
      OffsetWhole(texts, split);
    }
  }

  /** The chunks of text `i` form one contiguous block, exactly its split, and
      every parent in that block is the id of text `i`. */
  lemma BlockIsSplit(ids: seq<string>, texts: seq<string>, split: string -> seq<string>, i: nat)
    requires |texts| <= |ids|
    requires i < |texts|
    ensures |Parents(ids, texts, split)| == |Flatten(texts, split)|
    ensures Offset(texts, split, i) + |split(texts[i])| <= |Flatten(texts, split)|
    ensures Flatten(texts, split)[Offset(texts, split, i)..Offset(texts, split, i) + |split(texts[i])|] == split(texts[i])
    ensures forall j :: Offset(texts, split, i) <= j < Offset(texts, split, i) + |split(texts[i])| ==>
      Parents(ids, texts, split)[j] == ids[i]
  {
    ParentsLength(ids, texts, split);
    OffsetStep(texts, split, i);
    OffsetBounded(texts, split, i + 1);
    var lo := Offset(texts, split, i);
    var block := split(texts[i]);
    forall j | lo <= j < lo + |block|
      ensures Flatten(texts, split)[j] == block[j - lo]
      ensures Parents(ids, texts, split)[j] == ids[i]
    {
      BlockAt(ids, texts, split, i, j - lo);
    }
  }

  /** The document a chunk position comes from. */
  ghost function Owner(texts: seq<string>, split: string -> seq<string>, j: nat): (i: nat)
    requires j < |Flatten(texts, split)|
    ensures i < |texts|
    ensures Offset(texts, split, i) <= j < Offset(texts, split, i) + |split(texts[i])|
  {
    OffsetWhole(texts, split);
    OwnerFrom(texts, split, j, 0)
  }

  ghost function OwnerFrom(texts: seq<string>, split: string -> seq<string>, j: nat, i: nat): (o: nat)
    requires i <= |texts|
    requires Offset(texts, split, i) <= j < Offset(texts, split, |texts|)
    ensures i <= o < |texts|
    ensures Offset(texts, split, o) <= j < Offset(texts, split, o) + |split(texts[o])|
    decreases |texts| - i
  {
    OffsetStep(texts, split, i);
    if j < Offset(texts, split, i + 1) then i else OwnerFrom(texts, split, j, i + 1)
  }

  /** Blocks start in document order. */
  lemma {:induction false} OffsetMono(texts: seq<string>, split: string -> seq<string>, i: nat, k: nat)
    requires i <= k <= |texts|
    ensures Offset(texts, split, i) <= Offset(texts, split, k)
    decreases k - i
  {
    if i < k {
      OffsetStep(texts, split, i);
      OffsetMono(texts, split, i + 1, k);
    }
  }

  /** The blocks do not overlap: the only document whose block contains chunk
      position `j` is its owner. */
  lemma OwnerUnique(texts: seq<string>, split: string -> seq<string>, j: nat, i: nat)
    requires i < |texts|
    requires Offset(texts, split, i) <= j < Offset(texts, split, i) + |split(texts[i])|
    ensures j < |Flatten(texts, split)|
    ensures i == Owner(texts, split, j)
  {
    OffsetStep(texts, split, i);
    OffsetBounded(texts, split, i + 1);
    var o := Owner(texts, split, j);
    OffsetStep(texts, split, o);
    if i < o {
      OffsetMono(texts, split, i + 1, o);
    } else if o < i {
      OffsetMono(texts, split, o + 1, i);
    }
  }

  /** Every chunk lines up with the document it came from: chunk `j` is a split of
      its owner's text and its parent is its owner's id. */
  lemma ChunkBelongsToOwner(ids: seq<string>, texts: seq<string>, split: string -> seq<string>, j: nat)
    requires |texts| <= |ids|
    requires j < |Flatten(texts, split)|
    ensures |Parents(ids, texts, split)| == |Flatten(texts, split)|
    ensures Flatten(texts, split)[j] == split(texts[Owner(texts, split, j)])[j - Offset(texts, split, Owner(texts, split, j))]
    ensures Parents(ids, texts, split)[j] == ids[Owner(texts, split, j)]
  {
    var i := Owner(texts, split, j);
    BlockAt(ids, texts, split, i, j - Offset(texts, split, i));
  }

  /** The flattening loop of the upload handler. */
  method FlattenChunks(ids: seq<string>, texts: seq<string>, split: string -> seq<string>)
    returns (chunks: seq<string>, parents: seq<string>)
    requires |texts| <= |ids|
    ensures chunks == Flatten(texts, split)
    ensures parents == Parents(ids, texts, split)
    ensures |parents| == |chunks|
  {
    chunks, parents := [], [];
    var index := 0;
    while index < |texts|
      invariant index <= |texts|
      invariant chunks == Flatten(texts[..index], split)
      invariant parents == Parents(ids, texts[..index], split)
      invariant |parents| == |chunks|
    {
      var splitText := split(texts[index]);
      parents := parents + Repeat(ids[index], |splitText|);
      chunks := chunks + splitText;
      assert texts[..index + 1][..index] == texts[..index];
      index := index + 1;
    }
    assert texts[..index] == texts;
  }
}
