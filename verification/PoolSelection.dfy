// Which pool the next work is taken from: the rotation of load balancing and the evening-out of
// balance mode.

module PoolSelection {
  import opened PoolRegistry
  import opened PoolList

  // What the selection reads of a pool.
  datatype Load = Load(workable: bool, shares: int)

  // ---------- rotation ----------

  // The place after `rot`; one that is out of range starts again at 0.
  function Turned(rot: nat, n: nat): (r: nat)
    requires n > 0
    ensures r < n
  {
    if rot + 1 >= n then 0 else rot + 1
  }

  // At most `left` turns, up to the first workable pool.
  function Scan(loads: seq<Load>, rot: nat, left: nat): (r: (nat, bool))
    requires loads != []
    ensures r.1 ==> r.0 < |loads| && loads[r.0].workable
    decreases left
  {
    if left == 0 then (rot, false)
    else
      var next := Turned(rot, |loads|);
      if loads[next].workable then (next, true) else Scan(loads, next, left - 1)
  }

  // The pool of a rotating selection.
  function Rotated(loads: seq<Load>, rot: nat, current: nat): nat
    requires loads != []
  {
    var (r, found) := Scan(loads, rot, |loads|);
    if found then r else current
  }

  // How many of the first k pools are workable.
  function Workables(loads: seq<Load>, k: nat): (c: nat)
    ensures c <= k
  {
    if k == 0 || loads == [] then 0
    else (if loads[0].workable then 1 else 0) + Workables(loads[1..], k - 1)
  }

  function WorkableCount(loads: seq<Load>): nat { Workables(loads, |loads|) }

  lemma {:induction false} WorkablesNext(loads: seq<Load>, k: nat)
    requires k < |loads|
    ensures Workables(loads, k + 1) == Workables(loads, k) + if loads[k].workable then 1 else 0
  {
    if k > 0 { WorkablesNext(loads[1..], k - 1); }
  }

  lemma {:induction false} WorkablesGrow(loads: seq<Load>, j: nat, k: nat)
    requires j <= k <= |loads|
    ensures Workables(loads, j) <= Workables(loads, k)
    decreases k - j
  {
    if j < k {
      WorkablesNext(loads, k - 1);
      WorkablesGrow(loads, j, k - 1);
    }
  }

  lemma {:induction false} WorkablesPast(loads: seq<Load>, k: nat)
    requires k >= |loads|
    ensures Workables(loads, k) == WorkableCount(loads)
  {
    if loads != [] { WorkablesPast(loads[1..], k - 1); }
  }

  // A workable pool is told by how many workable ones come before it.
  lemma RankTells(loads: seq<Load>, i: nat, j: nat)
    requires i < |loads| && j < |loads| && loads[i].workable && loads[j].workable
    ensures Workables(loads, i) < WorkableCount(loads)
    ensures Workables(loads, i) == Workables(loads, j) ==> i == j
  {
    WorkablesNext(loads, i);
    WorkablesNext(loads, j);
    WorkablesGrow(loads, i + 1, |loads|);
    if i < j { WorkablesGrow(loads, i + 1, j); }
    if j < i { WorkablesGrow(loads, j + 1, i); }
  }

  // A rank, counting round after m.
  function Round(rank: int, m: int): int { if rank >= m then rank - m else rank }

  // A scan that finds a pool finds the one next in rank, cyclically.
  lemma {:induction false} ScanNextInRank(loads: seq<Load>, rot: nat, left: nat)
    requires loads != [] && Scan(loads, rot, left).1
    decreases left
    ensures var r, m := Scan(loads, rot, left).0, WorkableCount(loads);
            m > 0 && Workables(loads, r) == Round(Workables(loads, rot + 1), m)
  {
    var next := Turned(rot, |loads|);
    var r := Scan(loads, rot, left).0;
    RankTells(loads, r, r);
    WorkablesNext(loads, next);
    if rot + 1 >= |loads| {
      WorkablesPast(loads, rot + 1);
      assert Workables(loads, next) == 0;
    }
    if !loads[next].workable { ScanNextInRank(loads, next, left - 1); }
  }

  // Enough turns reach every pool.
  lemma {:induction false} ScanReaches(loads: seq<Load>, rot: nat, left: nat, i: nat)
    requires i < |loads| && loads[i].workable
    requires left >= if rot < i then i - rot else if rot < |loads| then |loads| - rot + i else i + 1
    ensures Scan(loads, rot, left).1
    decreases left
  {
    if !loads[Turned(rot, |loads|)].workable { ScanReaches(loads, Turned(rot, |loads|), left - 1, i); }
  }

  // Rotation gives a workable pool whenever there is one, otherwise the current pool.
  lemma RotatedWorkable(loads: seq<Load>, rot: nat, current: nat)
    requires current < |loads|
    ensures var r := Rotated(loads, rot, current);
            if exists i :: 0 <= i < |loads| && loads[i].workable
            then r < |loads| && loads[r].workable else r == current
  {
    if i :| 0 <= i < |loads| && loads[i].workable { ScanReaches(loads, rot, |loads|, i); }
  }

  // The rotating selections one after another, from any starting place.
  ghost predicate IsRotation(loads: seq<Load>, run: seq<nat>)
  {
    loads != [] && forall k :: 0 <= k < |run| - 1 ==> run[k + 1] == Scan(loads, run[k], |loads|).0
  }

  lemma {:induction false} RotationRank(loads: seq<Load>, run: seq<nat>, k: nat)
    requires IsRotation(loads, run) && 1 <= k < |run| && k <= WorkableCount(loads)
    ensures run[k] < |loads| && loads[run[k]].workable
    ensures Workables(loads, run[1]) < WorkableCount(loads)
    ensures Workables(loads, run[k]) == Round(Workables(loads, run[1]) + k - 1, WorkableCount(loads))
  {
    var i := SomeWorkable(loads);
    assert run[(k - 1) + 1] == Scan(loads, run[k - 1], |loads|).0;
    ScanReaches(loads, run[k - 1], |loads|, i);
    ScanNextInRank(loads, run[k - 1], |loads|);
    RankTells(loads, run[k], run[k]);
    if k > 1 {
      RotationRank(loads, run, k - 1);
      WorkablesNext(loads, run[k - 1]);
    }
  }

  function SomeWorkable(loads: seq<Load>): (i: nat)
    requires WorkableCount(loads) > 0
    ensures i < |loads| && loads[i].workable
  {
    if loads[0].workable then 0 else 1 + SomeWorkable(loads[1..])
  }

  // With as many workable pools as there are calls, the calls return each workable pool exactly
  // once, wherever the rotation stood.
  lemma EachExactlyOnce(loads: seq<Load>, run: seq<nat>)
    requires IsRotation(loads, run) && |run| == WorkableCount(loads) + 1 && |run| > 1
    ensures forall k :: 1 <= k < |run| ==> run[k] < |loads| && loads[run[k]].workable
    ensures forall j, k :: 1 <= j < k < |run| ==> run[j] != run[k]
    ensures forall i :: 0 <= i < |loads| && loads[i].workable ==> i in run[1..]
  {
    var m, first := WorkableCount(loads), Workables(loads, run[1]);
    forall k | 1 <= k < |run| ensures run[k] < |loads| && loads[run[k]].workable { RotationRank(loads, run, k); }
    RankTells(loads, run[1], run[1]);
    forall j, k | 1 <= j < k < |run| ensures run[j] != run[k] {
      RotationRank(loads, run, j);
      RotationRank(loads, run, k);
    }
    forall i | 0 <= i < |loads| && loads[i].workable ensures i in run[1..] {
      var rank := Workables(loads, i);
      RankTells(loads, i, i);
      var k := 1 + if rank >= first then rank - first else rank + m - first;
      RotationRank(loads, run, k);
      RankTells(loads, i, run[k]);
      assert run[1..][k - 1] == i;
    }
  }

  // ---------- balance ----------

  // The pools a balanced selection may return.
  predicate Candidate(loads: seq<Load>, current: nat, i: int)
  {
    0 <= i < |loads| && (i == current || loads[i].workable)
  }

  // The first workable pool with fewer shares than those before it, looking from pool i on.
  function Lowest(loads: seq<Load>, i: nat, best: nat): (r: nat)
    requires best < |loads|
    ensures r < |loads| && (r == best || loads[r].workable)
    ensures loads[r].shares <= loads[best].shares
    ensures forall j :: i <= j < |loads| && loads[j].workable ==> loads[r].shares <= loads[j].shares
    ensures r != best ==> loads[r].shares < loads[best].shares
    ensures r != best ==> i <= r && forall j :: i <= j < r && loads[j].workable ==> loads[r].shares < loads[j].shares
    decreases |loads| - i
  {
    if i >= |loads| then best
    else Lowest(loads, i + 1, if loads[i].workable && loads[i].shares < loads[best].shares then i else best)
  }

  function Counted(loads: seq<Load>, i: nat): seq<Load>
    requires i < |loads|
  {
    loads[i := loads[i].(shares := loads[i].shares + 1)]
  }

  function Balanced(loads: seq<Load>, current: nat): seq<Load>
    requires current < |loads|
  {
    Counted(loads, Lowest(loads, 0, current))
  }

  ghost predicate SpreadAtMost(loads: seq<Load>, current: nat, bound: int)
  {
    forall i, j :: Candidate(loads, current, i) && Candidate(loads, current, j) ==>
      loads[i].shares - loads[j].shares <= bound
  }

  lemma SpreadKeptOnce(loads: seq<Load>, current: nat, bound: int)
    requires current < |loads| && bound >= 1 && SpreadAtMost(loads, current, bound)
    ensures SpreadAtMost(Balanced(loads, current), current, bound)
  {
    var after := Balanced(loads, current);
    forall i, j | Candidate(after, current, i) && Candidate(after, current, j)
      ensures after[i].shares - after[j].shares <= bound
    {
      assert Candidate(loads, current, i) && Candidate(loads, current, j);
    }
  }

  ghost predicate IsBalancing(run: seq<seq<Load>>, current: nat)
  {
    (forall k :: 0 <= k < |run| ==> current < |run[k]|) &&
    forall k :: 0 <= k < |run| - 1 ==> run[k + 1] == Balanced(run[k], current)
  }

  // The spread of shares never exceeds the larger of 1 and what it was.
  lemma {:induction false} SpreadKept(run: seq<seq<Load>>, current: nat, bound: int, k: nat)
    requires IsBalancing(run, current) && k < |run| && SpreadAtMost(run[0], current, bound)
    ensures SpreadAtMost(run[k], current, if bound >= 1 then bound else 1)
  {
    if k > 0 {
      SpreadKept(run, current, bound, k - 1);
      assert run[(k - 1) + 1] == Balanced(run[k - 1], current);
      SpreadKeptOnce(run[k - 1], current, if bound >= 1 then bound else 1);
    }
  }

  // What the candidates among the first k pools lack to reach a level.
  function Lack(loads: seq<Load>, current: nat, level: int, k: nat): int
    requires k <= |loads|
  {
    if k == 0 then 0
    else
      var own := if Candidate(loads, current, k - 1) then level - loads[k - 1].shares else 0;
      Lack(loads, current, level, k - 1) + own
  }

  ghost predicate NoneAbove(loads: seq<Load>, current: nat, level: int)
  {
    forall i :: Candidate(loads, current, i) ==> loads[i].shares <= level
  }

  lemma {:induction false} LackCounted(loads: seq<Load>, current: nat, level: int, k: nat, i: nat)
    requires k <= |loads| && Candidate(loads, current, i)
    ensures Lack(Counted(loads, i), current, level, k) == Lack(loads, current, level, k) - if i < k then 1 else 0
  {
    if k > 0 {
      LackCounted(loads, current, level, k - 1, i);
      assert Candidate(Counted(loads, i), current, k - 1) == Candidate(loads, current, k - 1);
    }
  }

  lemma {:induction false} LackBelow(loads: seq<Load>, current: nat, level: int, k: nat)
    requires k <= |loads| && NoneAbove(loads, current, level)
    ensures Lack(loads, current, level, k) >= 0
    ensures Lack(loads, current, level, k) == 0 ==>
      forall i :: 0 <= i < k && Candidate(loads, current, i) ==> loads[i].shares == level
  {
    if k > 0 { LackBelow(loads, current, level, k - 1); }
  }

  // As many calls as the candidates lack to reach the fullest one even all of them out exactly.
  lemma {:induction false} BalanceEvensOut(run: seq<seq<Load>>, current: nat, level: int)
    requires IsBalancing(run, current) && run != [] && NoneAbove(run[0], current, level)
    requires |run| == Lack(run[0], current, level, |run[0]|) + 1
    ensures var last := run[|run| - 1];
            forall i :: Candidate(last, current, i) ==> last[i].shares == level
    decreases |run|
  {
    var loads := run[0];
    LackBelow(loads, current, level, |loads|);
    if |run| > 1 {
      var i := Lowest(loads, 0, current);
      assert run[0 + 1] == Counted(loads, i);
      LackCounted(loads, current, level, |loads|, i);
      if loads[i].shares >= level { AllLevel(loads, current, level, |loads|); }
      forall j | Candidate(run[1], current, j) ensures run[1][j].shares <= level {
        assert Candidate(loads, current, j);
      }
      BalancingTail(run, current);
      BalanceEvensOut(run[1..], current, level);
    }
  }

  lemma BalancingTail(run: seq<seq<Load>>, current: nat)
    requires IsBalancing(run, current) && |run| > 1
    ensures run[1] == Balanced(run[0], current) && IsBalancing(run[1..], current)
    ensures run[1..][0] == run[1] && run[1..][|run[1..]| - 1] == run[|run| - 1]
  {
    var rest := run[1..];
    assert run[0 + 1] == Balanced(run[0], current);
    forall k | 0 <= k < |rest| - 1 ensures rest[k + 1] == Balanced(rest[k], current) {
      assert rest[k] == run[k + 1] && rest[k + 1] == run[(k + 1) + 1];
    }
  }

  lemma {:induction false} AllLevel(loads: seq<Load>, current: nat, level: int, k: nat)
    requires k <= |loads| && forall i :: Candidate(loads, current, i) ==> loads[i].shares >= level
    ensures Lack(loads, current, level, k) <= 0
  {
    if k > 0 { AllLevel(loads, current, level, k - 1); }
  }

  // ---------- the selection itself ----------

  function LoadOf(pool: Pool): Load
    reads pool
  {
    Load(!pool.idle && pool.enabled == POOL_ENABLED && !(pool.hasStratum && !pool.stratumActive), pool.shares)
  }

  function Loads(pools: seq<Pool>): seq<Load>
    reads pools
  {
    seq(|pools|, i requires 0 <= i < |pools| reads pools => LoadOf(pools[i]))
  }

  method PoolUnworkable(pool: Pool) returns (b: bool)
    ensures b == !LoadOf(pool).workable
  {
    if pool.idle { return true; }
    if pool.enabled != POOL_ENABLED { return true; }
    if pool.hasStratum && !pool.stratumActive { return true; }
    return false;
  }

  // A pool work can be taken from: enabled, not idle, and with its stratum connection up if it has
  // one.
  ghost predicate Workable(pool: Pool)
    reads pool
  {
    pool.enabled == POOL_ENABLED && !pool.idle && (pool.hasStratum ==> pool.stratumActive)
  }

  lemma LoadsOnFields(pools: seq<Pool>)
    ensures |Loads(pools)| == |pools|
    ensures forall i :: 0 <= i < |pools| ==>
      Loads(pools)[i].workable == Workable(pools[i]) && Loads(pools)[i].shares == pools[i].shares
  {
  }

  // The pool is current or workable, and has no more shares than the current one or a workable one.
  ghost predicate LeastShares(pools: seq<Pool>, current: Pool, pool: Pool)
    reads pools, current, pool
  {
    && (pool == current || Workable(pool)) && pool.shares <= current.shares
    && forall p :: p in pools && Workable(p) ==> pool.shares <= p.shares
  }

  lemma LowestHasLeast(registry: Pools)
    requires registry.Listed()
    ensures var k := Lowest(Loads(registry.pools), 0, registry.currentpool.poolNo);
            LeastShares(registry.pools, registry.currentpool, registry.pools[k])
  {
    var pools, c := registry.pools, registry.currentpool.poolNo;
    LoadsOnFields(pools);
    registry.Numbered(registry.currentpool);
    var k := Lowest(Loads(pools), 0, c);
    forall p | p in pools && Workable(p) ensures pools[k].shares <= p.shares {
      registry.Numbered(p);
      assert Loads(pools)[p.poolNo].workable;
    }
  }

  lemma RotatedIsWorkable(registry: Pools, rot: nat)
    requires registry.Listed()
    ensures var pool := registry.pools[Rotated(Loads(registry.pools), rot, registry.currentpool.poolNo)];
            if exists p :: p in registry.pools && Workable(p) then Workable(pool) else pool == registry.currentpool
  {
    var pools, c := registry.pools, registry.currentpool.poolNo;
    LoadsOnFields(pools);
    registry.Numbered(registry.currentpool);
    RotatedWorkable(Loads(pools), rot, c);
    if p :| p in pools && Workable(p) {
      registry.Numbered(p);
      assert Loads(pools)[p.poolNo].workable;
    }
  }

  class Selector {
    var rotatingPool: nat

    constructor ()
      ensures rotatingPool == 0
    {
      rotatingPool := 0;
    }

    // select_balanced, the scan.
    method FindLowest(registry: Pools) returns (ret: Pool)
      requires registry.Listed()
      ensures ret == registry.pools[Lowest(Loads(registry.pools), 0, registry.currentpool.poolNo)]
    {
      ghost var loads, c := Loads(registry.pools), registry.currentpool.poolNo;
      var pools := registry.pools;
      ret := registry.currentpool;
      var lowest := ret.shares;
      registry.Numbered(ret);
      var i := 0;
      ghost var best: nat := c;
      while i < |pools|
        invariant 0 <= i <= |pools| && best < |pools| == |loads| && pools[best] == ret && lowest == loads[best].shares
        invariant Loads(pools) == loads && registry.pools == pools && registry.currentpool.poolNo == c
        invariant Lowest(loads, i, best) == Lowest(loads, 0, c)
      {
        var pool := pools[i];
        var unworkable := PoolUnworkable(pool);
        assert loads[i] == LoadOf(pool);
        if !unworkable && pool.shares < lowest {
          lowest := pool.shares;
          ret := pool;
          best := i;
        }
        i := i + 1;
      }
    }

    method SelectBalanced(registry: Pools) returns (ret: Pool)
      requires registry.Listed()
      modifies registry.pools`shares
      ensures registry.Listed() && Values(registry.pools) == old(Values(registry.pools))
      ensures var loads, c := old(Loads(registry.pools)), old(registry.currentpool.poolNo);
              ret == registry.pools[Lowest(loads, 0, c)] && Loads(registry.pools) == Balanced(loads, c)
      ensures ret in registry.pools && old(LeastShares(registry.pools, registry.currentpool, ret))
      ensures forall p :: p in registry.pools ==> p.shares == old(p.shares) + if p == ret then 1 else 0
    {
      ghost var loads, c := Loads(registry.pools), registry.currentpool.poolNo;
      registry.Numbered(registry.currentpool);
      LowestHasLeast(registry);
      ret := FindLowest(registry);
      Count(registry, ret, Lowest(loads, 0, c));
    }

    // One more share on pool k.
    method Count(registry: Pools, pool: Pool, ghost k: nat)
      requires registry.Listed() && k < |registry.pools| && pool == registry.pools[k]
      modifies pool`shares
      ensures pool.shares == old(pool.shares) + 1
      ensures Loads(registry.pools) == Counted(old(Loads(registry.pools)), k)
    {
      ghost var loads := Loads(registry.pools);
      pool.shares := pool.shares + 1;
      forall i | 0 <= i < |loads| ensures LoadOf(registry.pools[i]) == Counted(loads, k)[i] {
        assert loads[i] == old(LoadOf(registry.pools[i]));
        if i != k { assert registry.pools[i].poolNo != pool.poolNo; }
      }
    }

    // select_pool, the rotation.
    method Rotate(registry: Pools) returns (pool: Pool)
      requires registry.Listed()
      modifies this`rotatingPool
      ensures var loads, c := Loads(registry.pools), registry.currentpool.poolNo;
              rotatingPool == Scan(loads, old(rotatingPool), |loads|).0 &&
              pool == registry.pools[Rotated(loads, old(rotatingPool), c)]
      ensures if exists p :: p in registry.pools && Workable(p) then Workable(pool) else pool == registry.currentpool
    {
      RotatedIsWorkable(registry, rotatingPool);
      var cp, pools := registry.currentpool, registry.pools;
      registry.Numbered(cp);
      ghost var loads, start := Loads(pools), rotatingPool;
      var tested := 0;
      while tested < |pools|
        invariant 0 <= tested <= |pools|
        invariant Loads(pools) == loads && registry.pools == pools && registry.currentpool == cp
        invariant registry.Listed()
        invariant Scan(loads, start, |pools|) == Scan(loads, rotatingPool, |pools| - tested)
      {
        tested := tested + 1;
        rotatingPool := rotatingPool + 1;
        if rotatingPool >= |pools| { rotatingPool := 0; }
        var unworkable := PoolUnworkable(pools[rotatingPool]);
        assert loads[rotatingPool] == LoadOf(pools[rotatingPool]);
        if !unworkable { return pools[rotatingPool]; }
      }
      pool := cp;
    }

    method SelectPool(registry: Pools, strategy: Strategy, lagging: bool, failOnly: bool) returns (pool: Pool)
      requires registry.Listed()
      modifies this`rotatingPool, registry.pools`shares
      ensures registry.Listed() && Values(registry.pools) == old(Values(registry.pools))
      ensures var loads, c, rot := old(Loads(registry.pools)), old(registry.currentpool.poolNo), old(rotatingPool);
              if strategy == POOL_BALANCE
              then && pool == registry.pools[Lowest(loads, 0, c)]
                   && Loads(registry.pools) == Balanced(loads, c) && rotatingPool == rot
              else if strategy == POOL_LOADBALANCE || (lagging && !failOnly)
              then && pool == registry.pools[Rotated(loads, rot, c)]
                   && Loads(registry.pools) == loads && rotatingPool == Scan(loads, rot, |loads|).0
              else pool == registry.currentpool && Loads(registry.pools) == loads && rotatingPool == rot
      ensures forall p :: p in registry.pools ==>
        p.shares == old(p.shares) + if strategy == POOL_BALANCE && p == pool then 1 else 0
      ensures strategy == POOL_BALANCE ==> old(LeastShares(registry.pools, registry.currentpool, pool))
      ensures strategy == POOL_LOADBALANCE || (strategy != POOL_BALANCE && lagging && !failOnly) ==>
        if exists p :: p in registry.pools && Workable(p) then Workable(pool) else pool == registry.currentpool
    {
      if strategy == POOL_BALANCE {
        pool := SelectBalanced(registry);
      } else if strategy != POOL_LOADBALANCE && (!lagging || failOnly) {
        pool := registry.currentpool;
      } else {
        pool := Rotate(registry);
      }
    }
  }
}
