/** cosmos_curate/core/utils/misc/grouping.py: consecutive chunks of a list. */
module Grouping {

  /** All groups laid end to end. */
  function Flatten<T>(groups: seq<seq<T>>): seq<T> {
    if groups == [] then [] else groups[0] + Flatten(groups[1..])
  }

  lemma {:induction false} FlattenAppend<T>(groups: seq<seq<T>>, last: seq<T>)
    ensures Flatten(groups + [last]) == Flatten(groups) + last
  {
    if groups == [] {
      assert groups + [last] == [last];
      assert Flatten([last][1..]) == [];
    } else {
      FlattenAppend(groups[1..], last);
      assert (groups + [last])[1..] == groups[1..] + [last];
    }
  }

  /** A chunk is full at `size` items; a size of 1 or less still makes chunks of one item. */
  function FullLength(size: int): (n: nat)
    ensures n >= 1
  {
    if size <= 1 then 1 else size
  }

  ghost predicate AreChunks<T>(chunks: seq<seq<T>>, size: int) {
    && (forall k :: 0 <= k < |chunks| - 1 ==> |chunks[k]| == FullLength(size))
    && (chunks != [] ==> 1 <= |chunks[|chunks| - 1]| <= FullLength(size))
  }

  method SplitByChunkSize<T>(items: seq<T>, chunkSize: int) returns (chunks: seq<seq<T>>)
    ensures Flatten(chunks) == items
    ensures AreChunks(chunks, chunkSize)
    ensures forall k :: 0 <= k < |chunks| - 1 ==> |chunks[k]| == if chunkSize >= 1 then chunkSize else 1
    ensures chunks != [] ==> 1 <= |chunks[|chunks| - 1]| <= if chunkSize >= 1 then chunkSize else 1
  {
    chunks := [];
    var out: seq<T> := [];
    for i := 0 to |items|
      invariant Flatten(chunks) + out == items[..i]
      invariant forall k :: 0 <= k < |chunks| ==> |chunks[k]| == FullLength(chunkSize)
      invariant |out| < FullLength(chunkSize)
    {
      out := out + [items[i]];
      assert Flatten(chunks) + out == items[..i + 1];
      if |out| >= chunkSize {
        FlattenAppend(chunks, out);
        chunks := chunks + [out];
        out := [];
      }
    }
    assert Flatten(chunks) + out == items;
    if out != [] {
      FlattenAppend(chunks, out);
      chunks := chunks + [out];
    }
  }

  /** The two conditions on SplitByChunkSize leave only one answer. */
  lemma {:induction false} ChunksAreUnique<T>(a: seq<seq<T>>, b: seq<seq<T>>, size: int)
    requires AreChunks(a, size) && AreChunks(b, size)
    requires Flatten(a) == Flatten(b)
    ensures a == b
  {
    NoChunksNoItems(a, size);
    NoChunksNoItems(b, size);
    if a != [] {
      FirstChunkLength(a, size);
      FirstChunkLength(b, size);
      assert a[0] == Flatten(a)[..|a[0]|] && b[0] == Flatten(b)[..|b[0]|];
      assert Flatten(a[1..]) == Flatten(a)[|a[0]|..] && Flatten(b[1..]) == Flatten(b)[|b[0]|..];
      ChunksAreUnique(a[1..], b[1..], size);
      assert a == [a[0]] + a[1..] && b == [b[0]] + b[1..];
    }
  }

  lemma NoChunksNoItems<T>(chunks: seq<seq<T>>, size: int)
    requires AreChunks(chunks, size)
    ensures Flatten(chunks) == [] <==> chunks == []
  {
    if chunks != [] {
      assert |Flatten(chunks)| >= |chunks[0]| >= 1;
    }
  }

  lemma FirstChunkLength<T>(chunks: seq<seq<T>>, size: int)
    requires AreChunks(chunks, size) && chunks != []
    ensures var n := FullLength(size); var total := |Flatten(chunks)|;
            |chunks[0]| == if total < n then total else n
  {
    if |chunks| == 1 {
      assert Flatten(chunks[1..]) == [];
    }
  }
}
