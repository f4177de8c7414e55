// The two Merkle root computations: in place over all transactions, and along the branch a
// stratum pool sends.  A hash slot is 32 bytes; `combine` is the hash of two adjacent slots.

module Merkle {

  // ---------- reference definitions ----------

  // The level with its last node doubled when it has an odd number of nodes.
  function Evened<H>(level: seq<H>): (r: seq<H>)
    ensures |r| % 2 == 0
  {
    if |level| % 2 == 0 then level else level + [level[|level| - 1]]
  }

  function Parents<H>(combine: (H, H) -> H, level: seq<H>): (r: seq<H>)
    requires |level| % 2 == 0
    ensures |r| == |level| / 2
  {
    seq(|level| / 2, i requires 0 <= i < |level| / 2 => combine(level[2 * i], level[2 * i + 1]))
  }

  function Above<H>(combine: (H, H) -> H, level: seq<H>): (r: seq<H>)
    ensures |r| == (|level| + 1) / 2
  {
    Parents(combine, Evened(level))
  }

  function Root<H>(combine: (H, H) -> H, level: seq<H>): H
    requires level != []
    decreases |level|
  {
    if |level| == 1 then level[0] else Root(combine, Above(combine, level))
  }

  // The siblings met on the way from leaf 0 to the root.
  function Branch<H>(combine: (H, H) -> H, level: seq<H>): seq<H>
    requires level != []
    decreases |level|
  {
    if |level| == 1 then [] else [level[1]] + Branch(combine, Above(combine, level))
  }

  function Fold<H>(combine: (H, H) -> H, leaf: H, branch: seq<H>): H
  {
    if branch == [] then leaf else Fold(combine, combine(leaf, branch[0]), branch[1..])
  }

  // ---------- the two computations agree ----------

  // Folding leaf 0 with its siblings gives the root of the whole tree.
  lemma {:induction false} FoldIsRoot<H>(combine: (H, H) -> H, level: seq<H>)
    requires level != []
    ensures Fold(combine, level[0], Branch(combine, level)) == Root(combine, level)
    decreases |level|
  {
    if |level| > 1 {
      var above := Above(combine, level);
      assert above[0] == combine(level[0], level[1]);
      FoldIsRoot(combine, above);
      var rest := Branch(combine, above);
      assert ([level[1]] + rest)[1..] == rest;
    }
  }

  // The siblings do not depend on leaf 0, so one branch serves every coinbase.
  lemma {:induction false} BranchIgnoresLeaf<H>(combine: (H, H) -> H, a: seq<H>, b: seq<H>)
    requires a != [] && |a| == |b| && a[1..] == b[1..]
    ensures Branch(combine, a) == Branch(combine, b)
    decreases |a|
  {
    if |a| > 1 {
      assert forall i :: 1 <= i < |a| ==> a[i] == a[1..][i - 1] == b[1..][i - 1] == b[i];
      var c, d := Above(combine, a), Above(combine, b);
      forall i | 1 <= i < |c| ensures c[i] == d[i] {
        assert 2 * i < |Evened(a)| && 2 * i + 1 < |Evened(a)|;
      }
      assert c[1..] == d[1..];
      BranchIgnoresLeaf(combine, c, d);
    }
  }

  // The number of siblings is the depth of the tree, which only the number of leaves decides.
  lemma {:induction false} BranchLength<H>(combine: (H, H) -> H, level: seq<H>)
    requires level != []
    ensures |Branch(combine, level)| == Depth(|level|)
    decreases |level|
  {
    if |level| > 1 { BranchLength(combine, Above(combine, level)); }
  }

  function Depth(n: nat): nat
    requires n > 0
  {
    if n == 1 then 0 else 1 + Depth((n + 1) / 2)
  }

  // What the mining work relies on: with the branch of the pool's transactions, computed for any
  // other coinbase, the fold from a coinbase is the root of the tree of that coinbase.
  lemma StratumMatchesTemplate<H>(combine: (H, H) -> H, coinbase: H, other: H, txns: seq<H>)
    ensures Fold(combine, coinbase, Branch(combine, [other] + txns)) == Root(combine, [coinbase] + txns)
  {
    var a, b := [coinbase] + txns, [other] + txns;
    assert a[1..] == txns == b[1..];
    BranchIgnoresLeaf(combine, a, b);
    FoldIsRoot(combine, a);
  }

  // The doubling makes the root forget how often an odd last leaf occurs.
  lemma OddLastLeafDoubled<H>(combine: (H, H) -> H, level: seq<H>)
    requires |level| > 1 && |level| % 2 == 1
    ensures Root(combine, level + [level[|level| - 1]]) == Root(combine, level)
  {
    var doubled := level + [level[|level| - 1]];
    assert Evened(doubled) == doubled == Evened(level);
    assert Above(combine, doubled) == Above(combine, level);
  }

  // ---------- the tree by halves ----------

  function Power(k: nat): (p: nat)
    ensures p > 0
  {
    if k == 0 then 1 else 2 * Power(k - 1)
  }

  // A hash combined with itself, the result with itself, and so on.
  function Raised<H>(combine: (H, H) -> H, hash: H, times: nat): H
  {
    if times == 0 then hash else Raised(combine, combine(hash, hash), times - 1)
  }

  // The tree whose left half is full: its root combines, in this order, the root of the left half
  // and that of the right half, raised to the same height.
  lemma {:induction false} RootOfHalves<H>(combine: (H, H) -> H, left: seq<H>, right: seq<H>, k: nat)
    requires |left| == Power(k) && 0 < |right| <= Power(k)
    ensures Depth(|right|) <= k
    ensures Root(combine, left + right)
         == combine(Root(combine, left), Raised(combine, Root(combine, right), k - Depth(|right|)))
    decreases k
  {
    if k == 0 {
      RootOfTwo(combine, left, right);
    } else {
      var l, r := Above(combine, left), Above(combine, right);
      RootOfHalves(combine, l, r, k - 1);
      HalvesAbove(combine, left, right, l, r);
      RaisedAbove(combine, right, r, k);
    }
  }

  lemma HalvesAbove<H>(combine: (H, H) -> H, left: seq<H>, right: seq<H>, l: seq<H>, r: seq<H>)
    requires |left| % 2 == 0 && left != [] && right != [] && l == Above(combine, left) && r == Above(combine, right)
    ensures Root(combine, left + right) == Root(combine, l + r) && Root(combine, left) == Root(combine, l)
  {
    AboveJoin(combine, left, right);
    RootAbove(combine, left + right);
    RootAbove(combine, left);
  }

  lemma RootAbove<H>(combine: (H, H) -> H, level: seq<H>)
    requires |level| > 1
    ensures Root(combine, level) == Root(combine, Above(combine, level))
  {
  }

  lemma RootOfTwo<H>(combine: (H, H) -> H, left: seq<H>, right: seq<H>)
    requires |left| == |right| == 1
    ensures Root(combine, left + right) == combine(Root(combine, left), Root(combine, right))
  {
    var both := left + right;
    assert Evened(both) == both && Above(combine, both) == [combine(left[0], right[0])];
  }

  // A tree is raised by one step after the other, or grows by one level.
  lemma RaisedAbove<H>(combine: (H, H) -> H, level: seq<H>, above: seq<H>, k: nat)
    requires k > 0 && level != [] && above == Above(combine, level) && Depth(|above|) <= k - 1
    ensures Depth(|level|) <= k
    ensures Raised(combine, Root(combine, level), k - Depth(|level|))
         == Raised(combine, Root(combine, above), k - 1 - Depth(|above|))
  {
    if |level| == 1 {
      assert Evened(level) == [level[0], level[0]];
      assert above == [combine(level[0], level[0])];
    }
  }

  lemma AboveJoin<H>(combine: (H, H) -> H, a: seq<H>, b: seq<H>)
    requires |a| % 2 == 0 && b != []
    ensures Above(combine, a + b) == Above(combine, a) + Above(combine, b)
  {
    var whole, joined := Above(combine, a + b), Above(combine, a) + Above(combine, b);
    assert Evened(a + b) == a + Evened(b);
    forall i | 0 <= i < |whole| ensures whole[i] == joined[i] {
      if i >= |a| / 2 { assert (a + Evened(b))[2 * i] == Evened(b)[2 * (i - |a| / 2)]; }
    }
  }

  // ---------- the loops ----------

  // One halving of the loop: combines slots 0..txns pairwise into slots 0..txns/2.
  method HalveInPlace<H>(combine: (H, H) -> H, merkleHash: array<H>, txns: nat)
    requires txns % 2 == 0 && txns <= merkleHash.Length
    modifies merkleHash
    ensures merkleHash[..txns / 2] == Parents(combine, old(merkleHash[..txns]))
  {
    ghost var level := merkleHash[..txns];
    ghost var parents, half := Parents(combine, level), 0;
    var i := 0;
    while i < txns
      invariant 0 <= i <= txns && i == 2 * half
      // finished parents in front, and no node overwritten that is still to be read
      invariant merkleHash[..half] == parents[..half]
      invariant merkleHash[i..txns] == level[i..]
    {
      ghost var front, later := merkleHash[..half], merkleHash[i..txns];
      var hashout := combine(merkleHash[i], merkleHash[i + 1]);
      ParentAt(combine, level, half);
      assert later[0] == level[i..][0] && later[1] == level[i..][1];
      merkleHash[i / 2] := hashout;
      assert merkleHash[..half + 1] == front + [hashout];
      assert merkleHash[i + 2..txns] == later[2..] == level[i + 2..];
      i, half := i + 2, half + 1;
    }
  }

  lemma ParentAt<H>(combine: (H, H) -> H, level: seq<H>, half: nat)
    requires |level| % 2 == 0 && 2 * half < |level|
    ensures 2 * half + 1 < |level| && half < |Parents(combine, level)|
    ensures Parents(combine, level)[half] == combine(level[2 * half], level[2 * half + 1])
    ensures Parents(combine, level)[..half + 1]
         == Parents(combine, level)[..half] + [combine(level[2 * half], level[2 * half + 1])]
  {
  }

  // The body of the loop: a level is evened out and halved.
  method NextLevel<H>(combine: (H, H) -> H, merkleHash: array<H>, txns: nat) returns (next: nat)
    requires 1 < txns < merkleHash.Length
    modifies merkleHash
    ensures next == (txns + 1) / 2 && merkleHash[..next] == Above(combine, old(merkleHash[..txns]))
  {
    ghost var level := merkleHash[..txns];
    next := txns;
    if next % 2 == 1 {
      merkleHash[next] := merkleHash[next - 1];
      next := next + 1;
    }
    assert merkleHash[..next] == Evened(level);
    HalveInPlace(combine, merkleHash, next);
    next := next / 2;
  }

  // __gbt_merkleroot: one slot for the coinbase, one per transaction and one to spare.
  method GbtMerkleRoot<H(0)>(combine: (H, H) -> H, coinbase: H, txnHashes: seq<H>) returns (merkleHash: array<H>)
    ensures fresh(merkleHash) && merkleHash.Length == |txnHashes| + 2
    ensures merkleHash[0] == Root(combine, [coinbase] + txnHashes)
  {
    merkleHash := new H[|txnHashes| + 2];
    merkleHash[0] := coinbase;
    forall k | 0 <= k < |txnHashes| { merkleHash[k + 1] := txnHashes[k]; }
    var txns := |txnHashes| + 1;
    assert merkleHash[..txns] == [coinbase] + txnHashes;
    while txns > 1
      invariant 1 <= txns <= |txnHashes| + 1
      invariant Root(combine, merkleHash[..txns]) == Root(combine, [coinbase] + txnHashes)
    {
      txns := NextLevel(combine, merkleHash, txns);
    }
  }

  // The merkle part of gen_stratum_work.
  method StratumMerkleRoot<H>(combine: (H, H) -> H, coinbase: H, merkle: seq<H>) returns (merkleRoot: H)
    ensures merkleRoot == Fold(combine, coinbase, merkle)
  {
    merkleRoot := coinbase;
    var i := 0;
    assert merkle[0..] == merkle;
    while i < |merkle|
      invariant 0 <= i <= |merkle|
      invariant Fold(combine, merkleRoot, merkle[i..]) == Fold(combine, coinbase, merkle)
    {
      assert merkle[i..][1..] == merkle[i + 1..];
      merkleRoot := combine(merkleRoot, merkle[i]);
      i := i + 1;
    }
  }

  // Both loops on the same block template.
  method SameRootBothWays<H(0)>(combine: (H, H) -> H, coinbase: H, other: H, txnHashes: seq<H>)
    returns (template: H, stratum: H)
    ensures template == stratum == Root(combine, [coinbase] + txnHashes)
  {
    var merkleHash := GbtMerkleRoot(combine, coinbase, txnHashes);
    template := merkleHash[0];
    stratum := StratumMerkleRoot(combine, coinbase, Branch(combine, [other] + txnHashes));
    StratumMatchesTemplate(combine, coinbase, other, txnHashes);
  }
}
