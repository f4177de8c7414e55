// The pool structures and the array that lists them, updated in place.

module PoolList {
  import opened PoolRegistry
  import opened Wrappers

  class Pool {
    var poolNo: nat
    var prio: int
    var enabled: Enable
    var idle: bool
    var removed: bool
    var hasStratum: bool
    var stratumActive: bool
    var shares: int

    function Value(): PoolRec
      reads this
    {
      PoolRec(poolNo, prio, enabled, idle)
    }

    constructor (n: nat)
      ensures Value() == PoolRec(n, n, POOL_DISABLED, false) && !removed
    {
      poolNo, prio, enabled, idle, removed := n, n, POOL_DISABLED, false, false;
      hasStratum, stratumActive, shares := false, false, 0;
    }

    method IsUnusable() returns (b: bool)
      ensures b == Unusable(Value())
    {
      if idle { return true; }
      if enabled != POOL_ENABLED { return true; }
      return false;
    }
  }

  function Values(pools: seq<Pool>): seq<PoolRec>
    reads pools
  {
    seq(|pools|, i requires 0 <= i < |pools| reads pools => pools[i].Value())
  }

  function Named(pool: Pool?): Option<nat>
    reads pool
  {
    if pool == null then None else Some(pool.poolNo)
  }

  function Raised(p: PoolRec, chosen: int): PoolRec
  {
    if p.prio < chosen then p.(prio := p.prio + 1) else p
  }

  class Pools {
    var pools: seq<Pool>
    var currentpool: Pool
    var enabledPools: int

    ghost function Snapshot(): Registry
      reads this, pools, currentpool
    {
      Registry(Values(pools), currentpool.poolNo, enabledPools)
    }

    // A pool is found under its number, and the current one is listed.
    ghost predicate Listed()
      reads this, pools
    {
      currentpool in pools && forall i :: 0 <= i < |pools| ==> pools[i].poolNo == i
    }

    ghost predicate Valid()
      reads this, pools, currentpool
    {
      Listed() && RegistryOk(Snapshot())
    }

    lemma Numbered(pool: Pool)
      requires Listed() && pool in pools
      ensures pool.poolNo < |pools| && pools[pool.poolNo] == pool && Values(pools)[pool.poolNo] == pool.Value()
    {
      var i :| 0 <= i < |pools| && pools[i] == pool;
      assert Values(pools)[i].poolNo == i;
    }

    // The registry with its first pool.
    constructor ()
      ensures Valid() && Snapshot() == Registry([PoolRec(0, 0, POOL_DISABLED, false)], 0, 0)
      ensures fresh(pools)
    {
      var first := new Pool(0);
      pools, currentpool, enabledPools := [first], first, 0;
      new;
      FirstOk();
      assert Values(pools) == [PoolRec(0, 0, POOL_DISABLED, false)];
    }

    method AddPool() returns (pool: Pool)
      requires Valid()
      modifies this`pools
      ensures Valid() && Snapshot() == Added(old(Snapshot()))
      ensures fresh(pool) && pools == old(pools) + [pool]
      ensures pool.poolNo == pool.prio == old(|pools|) && pool.enabled == POOL_DISABLED && !pool.idle
    {
      AddedOk(Snapshot());
      pool := new Pool(|pools|);
      pools := pools + [pool];
      assert Values(pools) == old(Values(pools)) + [pool.Value()];
    }

    method EnablePool(pool: Pool)
      requires Valid() && pool in pools
      modifies this`enabledPools, pool`enabled
      ensures Valid() && Snapshot() == WithEnable(old(Snapshot()), pool.poolNo, POOL_ENABLED)
      ensures pool.enabled == POOL_ENABLED
    {
      Numbered(pool);
      WithEnableOk(Snapshot(), pool.poolNo, POOL_ENABLED);
      if pool.enabled != POOL_ENABLED {
        enabledPools := enabledPools + 1;
        pool.enabled := POOL_ENABLED;
      }
      assert Values(pools) == old(Values(pools))[pool.poolNo := pool.Value()];
    }

    method DisablePool(pool: Pool)
      requires Valid() && pool in pools
      modifies this`enabledPools, pool`enabled
      ensures Valid() && Snapshot() == WithEnable(old(Snapshot()), pool.poolNo, POOL_DISABLED)
      ensures pool.enabled == POOL_DISABLED
    {
      Numbered(pool);
      WithEnableOk(Snapshot(), pool.poolNo, POOL_DISABLED);
      if pool.enabled == POOL_ENABLED { enabledPools := enabledPools - 1; }
      pool.enabled := POOL_DISABLED;
      assert Values(pools) == old(Values(pools))[pool.poolNo := pool.Value()];
    }

    method RejectPool(pool: Pool)
      requires Valid() && pool in pools
      modifies this`enabledPools, pool`enabled
      ensures Valid() && Snapshot() == WithEnable(old(Snapshot()), pool.poolNo, POOL_REJECTING)
      ensures pool.enabled == POOL_REJECTING
    {
      Numbered(pool);
      WithEnableOk(Snapshot(), pool.poolNo, POOL_REJECTING);
      if pool.enabled == POOL_ENABLED { enabledPools := enabledPools - 1; }
      pool.enabled := POOL_REJECTING;
      assert Values(pools) == old(Values(pools))[pool.poolNo := pool.Value()];
    }

    // The pool with a priority; the fallback at the end is for a priority nobody holds.
    method PriorityPool(choice: nat) returns (ret: Pool)
      requires choice < |pools|
      ensures var k := WithPrio(Values(pools), choice);
              ret == pools[if k < |pools| then k else choice]
    {
      var i := 0;
      ghost var vals := Values(pools);
      assert vals[0..] == vals;
      while i < |pools|
        invariant 0 <= i <= |pools|
        invariant Values(pools) == vals && WithPrio(vals, choice) == i + WithPrio(vals[i..], choice)
      {
        assert vals[i..][1..] == vals[i + 1..] && vals[i..][0] == pools[i].Value();
        if pools[i].prio == choice { return pools[i]; }
        i := i + 1;
      }
      ret := pools[choice];
    }

    // switch_pools, first part: the selected pool gets priority 0 and those above it move down.
    method Promote(selected: Pool)
      requires Listed() && selected in pools && Alone(Values(pools), selected.poolNo)
      modifies pools`prio
      ensures Listed() && selected.poolNo == old(selected.poolNo)
      ensures Values(pools) == PromotedAll(old(Values(pools)), old(selected.poolNo))
    {
      ghost var was, k := Values(pools), selected.poolNo;
      Numbered(selected);
      if selected.prio != 0 {
        var i := 0;
        while i < |pools|
          invariant 0 <= i <= |pools| && Listed()
          invariant selected.Value() == was[k]
          invariant forall j :: 0 <= j < i ==> pools[j].Value() == Raised(was[j], was[k].prio)
          invariant forall j :: i <= j < |pools| ==> pools[j].Value() == was[j]
        {
          if pools[i].prio < selected.prio {
            pools[i].prio := pools[i].prio + 1;
          }
          i := i + 1;
        }
        selected.prio := 0;
      }
      assert Values(pools) == PromotedAll(was, k);
    }

    // switch_pools, failover-style strategies.
    method FirstByPriority() returns (poolNo: nat)
      requires Listed() && AllHeld(Values(pools))
      ensures poolNo == ByPriority(Values(pools), 0, currentpool.poolNo)
    {
      poolNo := currentpool.poolNo;
      var i := 0;
      while i < |pools|
        invariant 0 <= i <= |pools| && poolNo == currentpool.poolNo && Listed() && AllHeld(Values(pools))
        invariant ByPriority(Values(pools), i, poolNo) == ByPriority(Values(pools), 0, poolNo)
      {
        var pool := PriorityPool(i);
        assert WithPrio(Values(pools), i) < |pools|;
        var k := pool.poolNo;
        assert Values(pools)[WithPrio(Values(pools), i)].poolNo == WithPrio(Values(pools), i);
        var unusable := pool.IsUnusable();
        if !unusable { return pool.poolNo; }
        i := i + 1;
      }
    }

    // switch_pools, cycling strategies without a selected pool.
    method NextAlive() returns (poolNo: nat)
      requires Listed()
      ensures poolNo == Cycled(Values(pools), currentpool.poolNo)
    {
      poolNo := currentpool.poolNo;
      ghost var vals, at := Values(pools), poolNo;
      var nextPool, i := poolNo, 1;
      while i < |pools|
        invariant 1 <= i <= |pools| && poolNo == at && Values(pools) == vals
        invariant nextPool == Place(at, i - 1, |vals|)
        invariant Ahead(vals, at, 1) == Ahead(vals, at, i)
      {
        nextPool := nextPool + 1;
        if nextPool >= |pools| { nextPool := 0; }
        var unusable := pools[nextPool].IsUnusable();
        assert unusable == Unusable(vals[Place(at, i, |vals|)]);
        if !unusable { return nextPool; }
        i := i + 1;
      }
    }

    // switch_pools, the switch over the strategies.
    method Choose(selected: Pool?, strategy: Strategy) returns (poolNo: nat)
      requires Listed() && AllHeld(Values(pools)) && (selected != null ==> selected in pools)
      ensures poolNo == Chosen(Values(pools), strategy, Named(selected), currentpool.poolNo)
    {
      Numbered(currentpool);
      if selected != null { Numbered(selected); }
      if strategy == POOL_ROUNDROBIN || strategy == POOL_ROTATE {
        if selected != null && !selected.idle {
          poolNo := selected.poolNo;
        } else {
          poolNo := NextAlive();
        }
      } else {
        poolNo := FirstByPriority();
      }
    }

    // The steps of switch_pools, from what they need of the priorities.
    method PromoteAndChoose(selected: Pool?, strategy: Strategy)
      requires Listed() && (selected != null ==> selected in pools && Alone(Values(pools), selected.poolNo))
      requires AllHeld(Switched(Snapshot(), strategy, Named(selected)).pools)
      modifies this`currentpool, pools`prio
      ensures Listed()
      ensures Snapshot() == Switched(old(Snapshot()), strategy, old(Named(selected)))
    {
      ghost var r, sel := Snapshot(), Named(selected);
      if selected != null { Promote(selected); }
      ghost var now := Values(pools);
      assert now == Switched(r, strategy, sel).pools && Named(selected) == sel;
      var poolNo := Choose(selected, strategy);
      ChosenRange(now, strategy, sel, r.current);
      currentpool := pools[poolNo];
      assert currentpool.poolNo == poolNo && Values(pools) == now;
    }

    // The current pool is an enabled pool that is not idle, of least priority among those.
    ghost predicate OnLeastAlive()
      reads this, pools, currentpool
    {
      && currentpool.enabled == POOL_ENABLED && !currentpool.idle
      && forall p :: p in pools && p.enabled == POOL_ENABLED && !p.idle ==> currentpool.prio <= p.prio
    }

    ghost predicate NoneAlive()
      reads this, pools
    {
      forall p :: p in pools ==> p.enabled != POOL_ENABLED || p.idle
    }

    lemma AliveByNumber()
      requires Listed()
      ensures NoneAlive() <==> !SomeAlive(Values(pools))
    {
      forall i | 0 <= i < |pools|
        ensures Values(pools)[i].enabled == pools[i].enabled && Values(pools)[i].idle == pools[i].idle
      {
      }
    }

    lemma LeastByNumber(c: nat)
      requires Listed() && LeastAlive(Values(pools), c) && currentpool == pools[c]
      ensures OnLeastAlive()
    {
      forall p | p in pools && p.enabled == POOL_ENABLED && !p.idle ensures currentpool.prio <= p.prio {
        Numbered(p);
      }
    }

    // The choice of the failover-style strategies, on the pools themselves.
    lemma ChosenByPriority(r: Registry, strategy: Strategy, selected: Option<nat>)
      requires Valid() && RegistryOk(r) && (selected.Some? ==> selected.value < |r.pools|)
      requires Snapshot() == Switched(r, strategy, selected)
      requires strategy != POOL_ROUNDROBIN && strategy != POOL_ROTATE
      ensures |pools| == |r.pools|
      ensures if NoneAlive() then currentpool == pools[r.current] else OnLeastAlive()
    {
      Numbered(currentpool);
      FailoverChoice(r, strategy, selected);
      SameAlive(r, strategy, selected);
      AliveByNumber();
      if SomeAlive(r.pools) { LeastByNumber(currentpool.poolNo); }
    }

    method SwitchPools(selected: Pool?, strategy: Strategy)
      requires Valid() && (selected != null ==> selected in pools)
      modifies this`currentpool, pools`prio
      ensures Valid()
      ensures Snapshot() == Switched(old(Snapshot()), strategy, old(Named(selected)))
      ensures strategy != POOL_ROUNDROBIN && strategy != POOL_ROTATE ==>
        if NoneAlive() then currentpool == old(currentpool) else OnLeastAlive()
      ensures selected != null && !selected.idle && (strategy == POOL_ROUNDROBIN || strategy == POOL_ROTATE) ==>
        currentpool == selected
    {
      ghost var r, sel := Snapshot(), Named(selected);
      Numbered(currentpool);
      if selected != null { Numbered(selected); }
      SwitchedOk(r, strategy, sel);
      PriosHeld(Switched(r, strategy, sel).pools);
      PromoteAndChoose(selected, strategy);
      Numbered(currentpool);
      if strategy != POOL_ROUNDROBIN && strategy != POOL_ROTATE {
        ChosenByPriority(r, strategy, sel);
      } else if selected != null {
        SelectedChosen(r, strategy, sel.value);
      }
    }

    // remove_pool, first part: the priorities after the removed one move up.
    method CloseGap(pool: Pool)
      requires Listed() && pool in pools
      modifies pools`prio
      ensures Listed() && currentpool.poolNo == old(currentpool.poolNo) && pool.poolNo == old(pool.poolNo)
      ensures Values(pools) == LoweredAll(old(Values(pools)), old(pool.prio))
    {
      ghost var was, gone := Values(pools), pool.prio;
      var i := 0;
      while i < |pools|
        invariant 0 <= i <= |pools| && Listed() && pool.prio == gone
        invariant forall j :: 0 <= j < i ==> pools[j].Value() == Lowered(was[j], gone)
        invariant forall j :: i <= j < |pools| ==> pools[j].Value() == was[j]
      {
        if pools[i].prio > pool.prio {
          pools[i].prio := pools[i].prio - 1;
        }
        i := i + 1;
      }
    }

    // remove_pool, second part: the last pool takes the place.
    method TakeOut(pool: Pool)
      requires Listed() && pool in pools && pool != currentpool
      modifies this`pools, pools`poolNo, pool`removed
      ensures Listed() && pool.removed && pool.poolNo == old(|pools|)
      ensures forall p :: p in pools <==> p in old(pools) && p != pool
      ensures currentpool.poolNo == old(if currentpool.poolNo == |pools| - 1 then pool.poolNo else currentpool.poolNo)
      ensures Values(pools) == Without(old(Values(pools)), old(pool.poolNo))
    {
      ghost var was, k := Values(pools), pool.poolNo;
      var lastPool := |pools| - 1;
      if pool.poolNo < lastPool {
        pools[lastPool].poolNo := pool.poolNo;
        pools := pools[pool.poolNo := pools[lastPool]];
      }
      pool.poolNo := lastPool + 1;
      pool.removed := true;
      pools := pools[..lastPool];
      SameButOne(old(pools), pools, k);
      assert Values(pools) == Without(was, k);
    }

    // The callers disable the pool first and never remove the current one.
    method RemovePool(pool: Pool)
      requires Valid() && pool in pools && pool != currentpool && pool.enabled != POOL_ENABLED
      modifies this`pools, pools`poolNo, pools`prio, pool`removed
      ensures Valid() && Snapshot() == Removed(old(Snapshot()), old(pool.poolNo))
      ensures forall p :: p in pools <==> p in old(pools) && p != pool
      ensures pool.removed && pool.poolNo == old(|pools|)
    {
      ghost var r, k := Snapshot(), pool.poolNo;
      RemovedOk(r, k);
      CloseGap(pool);
      TakeOut(pool);
      assert Snapshot() == Removed(r, k);
    }
  }

  lemma SameButOne(before: seq<Pool>, after: seq<Pool>, k: nat)
    requires k < |before| && |after| == |before| - 1
    requires forall i, j :: 0 <= i < j < |before| ==> before[i] != before[j]
    requires forall i :: 0 <= i < |after| ==> after[i] == before[if i == k then |after| else i]
    ensures forall p :: p in after <==> p in before && p != before[k]
  {
    forall p ensures p in after <==> p in before && p != before[k] {
      if p in before && p != before[k] {
        var i :| 0 <= i < |before| && before[i] == p;
        assert after[if i == |after| then k else i] == p;
      }
      if p in after {
        var i :| 0 <= i < |after| && after[i] == p;
        assert before[if i == k then |after| else i] == p;
      }
    }
  }

  // No other pool has the priority of pool k.
  predicate Alone(pools: seq<PoolRec>, k: nat)
  {
    k < |pools| && forall i :: 0 <= i < |pools| ==> pools[i].prio >= 0 && (i != k ==> pools[i].prio != pools[k].prio)
  }

  predicate AllHeld(pools: seq<PoolRec>)
  {
    forall choice :: 0 <= choice < |pools| ==> WithPrio(pools, choice) < |pools|
  }

  function Below(n: nat): (s: set<int>)
    ensures |s| == n && forall p :: p in s <==> 0 <= p < n
  {
    if n == 0 then {} else Below(n - 1) + {n - 1}
  }

  lemma FirstOk()
    ensures RegistryOk(Registry([PoolRec(0, 0, POOL_DISABLED, false)], 0, 0))
  {
    assert [PoolRec(0, 0, POOL_DISABLED, false)][..0] == [];
  }

  // Every priority below the number of pools is held.
  lemma PrioHeld(pools: seq<PoolRec>, choice: nat)
    requires PriosOk(pools) && choice < |pools|
    ensures WithPrio(pools, choice) < |pools|
  {
    var prios, all := set i | 0 <= i < |pools| :: pools[i].prio, Below(|pools|);
    PriosCount(pools, |pools|);
    assert all == prios + (all - prios);
    assert choice in prios;
  }

  lemma PriosHeld(pools: seq<PoolRec>)
    requires PriosOk(pools)
    ensures AllHeld(pools)
  {
    forall choice | 0 <= choice < |pools| ensures WithPrio(pools, choice) < |pools| { PrioHeld(pools, choice); }
  }

  lemma {:induction false} PriosCount(pools: seq<PoolRec>, n: nat)
    requires PriosOk(pools) && n <= |pools|
    ensures |set i | 0 <= i < n :: pools[i].prio| == n
  {
    if n > 0 {
      PriosCount(pools, n - 1);
      var before := set i | 0 <= i < n - 1 :: pools[i].prio;
      assert (set i | 0 <= i < n :: pools[i].prio) == before + {pools[n - 1].prio};
    }
  }
}
