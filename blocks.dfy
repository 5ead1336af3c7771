/**
  Sequences built block by block, as a `forEach` over groups with an
  inner `for` loop over k members of each group does: the blocks laid end
  to end, so member i of group c lands at position c * k + i. Kept apart
  from what each member is.
 */
module Blocks {

  /** The blocks laid end to end, in order. */
  function Flatten<T>(blocks: seq<seq<T>>): (r: seq<T>)
  {
    if |blocks| == 0 then [] else Flatten(blocks[..|blocks| - 1]) + blocks[|blocks| - 1]
  }

  /** Every block has exactly k members. */
  predicate Uniform<T>(blocks: seq<seq<T>>, k: nat)
  {
    forall c :: 0 <= c < |blocks| ==> |blocks[c]| == k
  }

  /** Where block c starts when every block has k members. */
  function BlockStart(c: nat, k: nat): nat
  {
    if c == 0 then 0 else BlockStart(c - 1, k) + k
  }

  /** Block c starts at c * k. */
  lemma {:induction false} BlockStartIsProduct(c: nat, k: nat)
    ensures BlockStart(c, k) == c * k
  {
    if c > 0 {
      BlockStartIsProduct(c - 1, k);
      assert (c - 1) * k + k == c * k;
    }
  }

  /** Flattening one more block appends that block. */
  lemma FlattenSnoc<T>(blocks: seq<seq<T>>, c: nat)
    requires c < |blocks|
    ensures Flatten(blocks[..c + 1]) == Flatten(blocks[..c]) + blocks[c]
  {
    assert blocks[..c + 1][..c] == blocks[..c];
  }

  /** n uniform blocks of k hold as many members as the blocks before block n. */
  lemma {:induction false} FlattenLength<T>(blocks: seq<seq<T>>, k: nat)
    requires Uniform(blocks, k)
    ensures |Flatten(blocks)| == BlockStart(|blocks|, k)
  {
    if |blocks| > 0 {
      FlattenLength(blocks[..|blocks| - 1], k);
    }
  }

  /** Member i of block c sits at the start of block c plus i. */
  lemma {:induction false} FlattenAt<T>(blocks: seq<seq<T>>, k: nat, c: nat, i: nat)
    requires Uniform(blocks, k)
    requires c < |blocks| && i < k
    ensures BlockStart(c, k) + i < |Flatten(blocks)|
    ensures Flatten(blocks)[BlockStart(c, k) + i] == blocks[c][i]
  {
    var n := |blocks|;
    var front, last := blocks[..n - 1], blocks[n - 1];
    FlattenLength(front, k);
    assert Flatten(blocks) == Flatten(front) + last;
    var pos := BlockStart(c, k) + i;
    if c < n - 1 {
      FlattenAt(front, k, c, i);
      assert front[c] == blocks[c];
      assert (Flatten(front) + last)[pos] == Flatten(front)[pos];
    } else {
      assert (Flatten(front) + last)[pos] == last[i];
    }
  }
}
