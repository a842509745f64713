/** Concatenation of blocks, described position by position. */
module Sequences {

  /** a + b, written so that the concatenation only appears when neither side is empty. */
  function Cat<T>(a: seq<T>, b: seq<T>): seq<T> {
    if |a| == 0 then b else if |b| == 0 then a else a + b
  }

  /** The first n blocks end to end. */
  function Flatten<T>(blocks: seq<seq<T>>, n: nat): seq<T>
    requires n <= |blocks|
  {
    if n == 0 then [] else Cat(Flatten(blocks, n - 1), blocks[n - 1])
  }

  /** Element j of block k sits right after the blocks before it. */
  lemma {:induction false} FlattenPut<T>(blocks: seq<seq<T>>, n: nat, k: nat, j: nat)
    requires k < n <= |blocks| && j < |blocks[k]|
    ensures |Flatten(blocks, k)| + j < |Flatten(blocks, n)|
    ensures Flatten(blocks, n)[|Flatten(blocks, k)| + j] == blocks[k][j]
    decreases n
  {
    if k < n - 1 {
      FlattenPut(blocks, n - 1, k, j);
    }
  }

  lemma {:induction false} FlattenGrows<T>(blocks: seq<seq<T>>, k: nat, n: nat)
    requires k <= n <= |blocks|
    ensures |Flatten(blocks, k)| <= |Flatten(blocks, n)|
    ensures k < n ==> |Flatten(blocks, k)| + |blocks[k]| <= |Flatten(blocks, n)|
    decreases n
  {
    if k < n {
      FlattenGrows(blocks, k, n - 1);
    }
  }
}
