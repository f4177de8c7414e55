// The registry of mining pools: numbering, priorities, the current pool and the count of
// enabled pools.

module PoolRegistry {
  import opened Wrappers

  datatype Enable = POOL_DISABLED | POOL_ENABLED | POOL_REJECTING

  datatype Strategy = POOL_FAILOVER | POOL_ROUNDROBIN | POOL_ROTATE | POOL_LOADBALANCE | POOL_BALANCE

  datatype PoolRec = PoolRec(poolNo: nat, prio: int, enabled: Enable, idle: bool)

  // `current` is the number of the current pool.
  datatype Registry = Registry(pools: seq<PoolRec>, current: nat, enabledPools: int)

  function EnabledCount(pools: seq<PoolRec>): nat
  {
    if pools == [] then 0
    else EnabledCount(pools[..|pools| - 1]) + if pools[|pools| - 1].enabled == POOL_ENABLED then 1 else 0
  }

  // Every priority from 0 on is held by exactly one pool.
  predicate PriosOk(pools: seq<PoolRec>)
  {
    && (forall i :: 0 <= i < |pools| ==> 0 <= pools[i].prio < |pools|)
    && (forall i, j :: 0 <= i < |pools| && 0 <= j < |pools| && i != j ==> pools[i].prio != pools[j].prio)
  }

  predicate RegistryOk(r: Registry)
  {
    && r.current < |r.pools|
    && (forall i :: 0 <= i < |r.pools| ==> r.pools[i].poolNo == i)
    && PriosOk(r.pools)
    && r.enabledPools == EnabledCount(r.pools)
  }

  predicate Unusable(p: PoolRec) { p.idle || p.enabled != POOL_ENABLED }

  // ---------- the operations on values ----------

  function Added(r: Registry): Registry
  {
    r.(pools := r.pools + [PoolRec(|r.pools|, |r.pools|, POOL_DISABLED, false)])
  }

  function WithEnable(r: Registry, k: nat, e: Enable): Registry
    requires k < |r.pools|
  {
    var before, after := r.pools[k].enabled == POOL_ENABLED, e == POOL_ENABLED;
    r.(pools := r.pools[k := r.pools[k].(enabled := e)],
       enabledPools := r.enabledPools + (if after then 1 else 0) - if before then 1 else 0)
  }

  function WithIdle(r: Registry, k: nat, idle: bool): Registry
    requires k < |r.pools|
  {
    r.(pools := r.pools[k := r.pools[k].(idle := idle)])
  }

  function Lowered(p: PoolRec, gone: int): PoolRec
  {
    if p.prio > gone then p.(prio := p.prio - 1) else p
  }

  function LoweredAll(pools: seq<PoolRec>, gone: int): seq<PoolRec>
  {
    seq(|pools|, i requires 0 <= i < |pools| => Lowered(pools[i], gone))
  }

  // The last pool takes the place of pool k.
  function Without(pools: seq<PoolRec>, k: nat): seq<PoolRec>
    requires k < |pools|
  {
    var last := |pools| - 1;
    if k < last then pools[..last][k := pools[last].(poolNo := k)] else pools[..last]
  }

  function Removed(r: Registry, k: nat): Registry
    requires k < |r.pools|
  {
    r.(pools := Without(LoweredAll(r.pools, r.pools[k].prio), k),
       current := if r.current == |r.pools| - 1 then k else r.current)
  }

  function Promoted(p: PoolRec, chosen: int): PoolRec
  {
    if p.prio < chosen then p.(prio := p.prio + 1)
    else if p.prio == chosen then p.(prio := 0)
    else p
  }

  function PromotedAll(pools: seq<PoolRec>, k: nat): seq<PoolRec>
    requires k < |pools|
  {
    seq(|pools|, i requires 0 <= i < |pools| => Promoted(pools[i], pools[k].prio))
  }

  // The pool with a priority, or |pools|.
  function WithPrio(pools: seq<PoolRec>, choice: int): (k: nat)
    ensures k <= |pools| && (k < |pools| ==> pools[k].prio == choice)
    ensures k == |pools| ==> forall i :: 0 <= i < |pools| ==> pools[i].prio != choice
  {
    if pools == [] || pools[0].prio == choice then 0 else 1 + WithPrio(pools[1..], choice)
  }

  // The failover-style choice, from a priority on: the first usable pool in order of priority.
  function ByPriority(pools: seq<PoolRec>, from: nat, current: nat): nat
    decreases |pools| - from
  {
    if from >= |pools| then current
    else
      var k := WithPrio(pools, from);
      if k < |pools| && !Unusable(pools[k]) then k else ByPriority(pools, from + 1, current)
  }

  // The number d places after `at`, counting round.
  function Place(at: nat, d: nat, n: nat): (r: nat)
    requires at < n && d < n
    ensures r < n
  {
    if at + d < n then at + d else at + d - n
  }

  // How far ahead of pool `at` the next usable pool is, from the distance d on; |pools| if there
  // is none.
  function Ahead(pools: seq<PoolRec>, at: nat, d: nat): (r: nat)
    requires at < |pools| && d <= |pools|
    ensures d <= r <= |pools|
    ensures r < |pools| ==> !Unusable(pools[Place(at, r, |pools|)])
    ensures forall e :: d <= e < r ==> Unusable(pools[Place(at, e, |pools|)])
    decreases |pools| - d
  {
    if d == |pools| || !Unusable(pools[Place(at, d, |pools|)]) then d else Ahead(pools, at, d + 1)
  }

  // The cycling choice: the next usable pool after the current one.
  function Cycled(pools: seq<PoolRec>, current: nat): nat
    requires current < |pools|
  {
    var d := Ahead(pools, current, 1);
    if d < |pools| then Place(current, d, |pools|) else current
  }

  function Chosen(pools: seq<PoolRec>, strategy: Strategy, selected: Option<nat>, current: nat): nat
    requires current < |pools| && (selected.Some? ==> selected.value < |pools|)
  {
    match strategy
    case POOL_ROUNDROBIN | POOL_ROTATE =>
      if selected.Some? && !pools[selected.value].idle then selected.value
      else Cycled(pools, current)
    case _ => ByPriority(pools, 0, current)
  }

  function Switched(r: Registry, strategy: Strategy, selected: Option<nat>): Registry
    requires r.current < |r.pools| && (selected.Some? ==> selected.value < |r.pools|)
  {
    var pools := if selected.Some? then PromotedAll(r.pools, selected.value) else r.pools;
    Registry(pools, Chosen(pools, strategy, selected, r.current), r.enabledPools)
  }

  // ---------- what every operation keeps ----------

  lemma {:induction false} CountUpdate(pools: seq<PoolRec>, k: nat, p: PoolRec)
    requires k < |pools|
    ensures EnabledCount(pools[k := p]) ==
            EnabledCount(pools) + (if p.enabled == POOL_ENABLED then 1 else 0)
                                - if pools[k].enabled == POOL_ENABLED then 1 else 0
    decreases |pools|
  {
    var front := pools[..|pools| - 1];
    if k < |front| {
      assert pools[k := p][..|pools| - 1] == front[k := p];
      CountUpdate(front, k, p);
    } else {
      assert pools[k := p][..|pools| - 1] == front;
    }
  }

  lemma {:induction false} CountSame(a: seq<PoolRec>, b: seq<PoolRec>)
    requires |a| == |b| && forall i :: 0 <= i < |a| ==> a[i].enabled == b[i].enabled
    ensures EnabledCount(a) == EnabledCount(b)
    decreases |a|
  {
    if a != [] { CountSame(a[..|a| - 1], b[..|b| - 1]); }
  }

  lemma AddedOk(r: Registry)
    requires RegistryOk(r)
    ensures RegistryOk(Added(r))
  {
    var p := PoolRec(|r.pools|, |r.pools|, POOL_DISABLED, false);
    assert (r.pools + [p])[..|r.pools|] == r.pools;
  }

  lemma WithEnableOk(r: Registry, k: nat, e: Enable)
    requires RegistryOk(r) && k < |r.pools|
    ensures RegistryOk(WithEnable(r, k, e))
  {
    CountUpdate(r.pools, k, r.pools[k].(enabled := e));
  }

  lemma WithIdleOk(r: Registry, k: nat, idle: bool)
    requires RegistryOk(r) && k < |r.pools|
    ensures RegistryOk(WithIdle(r, k, idle))
  {
    CountUpdate(r.pools, k, r.pools[k].(idle := idle));
  }

  // Taking one place out of the order closes the gap for the others.
  lemma LoweredPrios(pools: seq<PoolRec>, k: nat)
    requires PriosOk(pools) && k < |pools|
    ensures var low := LoweredAll(pools, pools[k].prio);
            && (forall i :: 0 <= i < |pools| && i != k ==> 0 <= low[i].prio < |pools| - 1)
            && (forall i, j :: 0 <= i < |pools| && 0 <= j < |pools| && i != k && j != k && i != j ==>
                  low[i].prio != low[j].prio)
            && (forall i, j :: 0 <= i < |pools| && 0 <= j < |pools| && i != k && j != k ==>
                  (low[i].prio < low[j].prio <==> pools[i].prio < pools[j].prio))
  {
    forall i | 0 <= i < |pools| && i != k ensures pools[i].prio != pools[k].prio { }
  }

  lemma RemovedCount(r: Registry, k: nat)
    requires k < |r.pools| && r.pools[k].enabled != POOL_ENABLED
    ensures EnabledCount(Removed(r, k).pools) == EnabledCount(r.pools)
  {
    var last := |r.pools| - 1;
    var lowered := LoweredAll(r.pools, r.pools[k].prio);
    CountSame(lowered, r.pools);
    assert lowered[k].enabled == r.pools[k].enabled;
    if k < last { CountUpdate(lowered[..last], k, lowered[last].(poolNo := k)); }
  }

  lemma RemovedPrios(pools: seq<PoolRec>, k: nat)
    requires PriosOk(pools) && k < |pools|
    ensures PriosOk(Without(LoweredAll(pools, pools[k].prio), k))
  {
    LoweredPrios(pools, k);
    var low, last := LoweredAll(pools, pools[k].prio), |pools| - 1;
    assert forall i :: 0 <= i < last ==> Without(low, k)[i].prio == low[if i == k then last else i].prio;
  }

  // Removing a pool that is not enabled and not current.  The current pool stays the same pool.
  lemma RemovedOk(r: Registry, k: nat)
    requires RegistryOk(r) && k < |r.pools| && k != r.current && r.pools[k].enabled != POOL_ENABLED
    ensures RegistryOk(Removed(r, k))
    ensures Removed(r, k).pools[Removed(r, k).current].(poolNo := r.current)
         == Lowered(r.pools[r.current], r.pools[k].prio)
  {
    RemovedPrios(r.pools, k);
    RemovedCount(r, k);
  }

  // Every other pool is still there, only its number and its priority may have moved up.
  lemma RemovedKeepsOthers(r: Registry, k: nat, i: nat)
    requires RegistryOk(r) && k < |r.pools| && i < |r.pools| && i != k
    ensures |Removed(r, k).pools| == |r.pools| - 1
    ensures var j := if i == |r.pools| - 1 then k else i;
            Removed(r, k).pools[j] == Lowered(r.pools[i], r.pools[k].prio).(poolNo := j)
  {
    var lowered := LoweredAll(r.pools, r.pools[k].prio);
    assert lowered[i] == Lowered(r.pools[i], r.pools[k].prio);
  }

  lemma PromotedAllOk(pools: seq<PoolRec>, k: nat)
    requires PriosOk(pools) && k < |pools|
    ensures PriosOk(PromotedAll(pools, k)) && PromotedAll(pools, k)[k].prio == 0
    ensures forall i, j :: 0 <= i < |pools| && 0 <= j < |pools| && i != k && j != k ==>
      (PromotedAll(pools, k)[i].prio < PromotedAll(pools, k)[j].prio <==> pools[i].prio < pools[j].prio)
  {
    forall i | 0 <= i < |pools| && i != k ensures pools[i].prio != pools[k].prio { }
  }

  lemma {:induction false} ByPriorityRange(pools: seq<PoolRec>, from: nat, current: nat)
    requires current < |pools|
    ensures ByPriority(pools, from, current) < |pools|
    decreases |pools| - from
  {
    if from < |pools| { ByPriorityRange(pools, from + 1, current); }
  }

  lemma ChosenRange(pools: seq<PoolRec>, strategy: Strategy, selected: Option<nat>, current: nat)
    requires current < |pools| && (selected.Some? ==> selected.value < |pools|)
    ensures Chosen(pools, strategy, selected, current) < |pools|
  {
    ByPriorityRange(pools, 0, current);
  }

  lemma SwitchedOk(r: Registry, strategy: Strategy, selected: Option<nat>)
    requires RegistryOk(r) && (selected.Some? ==> selected.value < |r.pools|)
    ensures RegistryOk(Switched(r, strategy, selected))
  {
    if selected.Some? {
      PromotedAllOk(r.pools, selected.value);
      CountSame(PromotedAll(r.pools, selected.value), r.pools);
    }
    ChosenRange(Switched(r, strategy, selected).pools, strategy, selected, r.current);
  }

  // ---------- sequences of operations ----------

  datatype Op =
    | Add
    | SetEnable(k: nat, e: Enable)
    | SetIdle(k: nat, idle: bool)
    | Remove(k: nat)
    | Switch(strategy: Strategy, selected: Option<nat>)

  // What the callers see to: pools are named by their place, and only a pool that was disabled
  // and is not current is removed.
  predicate Allowed(r: Registry, op: Op)
  {
    match op
    case Add => true
    case SetEnable(k, _) => k < |r.pools|
    case SetIdle(k, _) => k < |r.pools|
    case Remove(k) => k < |r.pools| && k != r.current && r.pools[k].enabled != POOL_ENABLED
    case Switch(_, selected) => r.current < |r.pools| && (selected.Some? ==> selected.value < |r.pools|)
  }

  function Applied(r: Registry, op: Op): Registry
    requires Allowed(r, op)
  {
    match op
    case Add => Added(r)
    case SetEnable(k, e) => WithEnable(r, k, e)
    case SetIdle(k, idle) => WithIdle(r, k, idle)
    case Remove(k) => Removed(r, k)
    case Switch(strategy, selected) => Switched(r, strategy, selected)
  }

  ghost predicate IsRun(run: seq<Registry>, ops: seq<Op>)
  {
    |run| == |ops| + 1 &&
    forall i :: 0 <= i < |ops| ==> Allowed(run[i], ops[i]) && run[i + 1] == Applied(run[i], ops[i])
  }

  // Every sequence of operations keeps the numbering, the priorities a permutation, the current
  // pool in the registry and the count of enabled pools right.
  lemma {:induction false} RegistryKept(run: seq<Registry>, ops: seq<Op>)
    requires IsRun(run, ops) && RegistryOk(run[0])
    ensures RegistryOk(run[|ops|])
    decreases |ops|
  {
    if ops != [] {
      var r, op := run[0], ops[0];
      assert run[0 + 1] == Applied(r, op);
      match op {
        case Add => AddedOk(r);
        case SetEnable(k, e) => WithEnableOk(r, k, e);
        case SetIdle(k, idle) => WithIdleOk(r, k, idle);
        case Remove(k) => RemovedOk(r, k);
        case Switch(strategy, selected) => SwitchedOk(r, strategy, selected);
      }
      RegistryKept(run[1..], ops[1..]);
    }
  }

  // ---------- the choice of a pool ----------

  // Pool k is usable and has the least priority among the usable ones from a priority on.
  predicate Least(pools: seq<PoolRec>, from: int, k: nat)
  {
    k < |pools| && !Unusable(pools[k]) && pools[k].prio >= from &&
    forall i :: 0 <= i < |pools| && !Unusable(pools[i]) && pools[i].prio >= from ==> pools[k].prio <= pools[i].prio
  }

  predicate NoneUsable(pools: seq<PoolRec>, from: int)
  {
    forall i :: 0 <= i < |pools| && !Unusable(pools[i]) ==> pools[i].prio < from
  }

  lemma {:induction false} ByPriorityLeast(pools: seq<PoolRec>, from: nat, current: nat)
    requires PriosOk(pools)
    ensures var k := ByPriority(pools, from, current);
            if NoneUsable(pools, from) then k == current else Least(pools, from, k)
    decreases |pools| - from
  {
    if from < |pools| {
      ByPriorityLeast(pools, from + 1, current);
    }
  }

  // Switching changes no field of a pool but its priority, and that only when a pool is selected.
  lemma SwitchedFields(r: Registry, strategy: Strategy, selected: Option<nat>)
    requires r.current < |r.pools| && (selected.Some? ==> selected.value < |r.pools|)
    ensures var r' := Switched(r, strategy, selected);
            && |r'.pools| == |r.pools| && r'.enabledPools == r.enabledPools
            && (forall i :: 0 <= i < |r.pools| ==> r'.pools[i] == r.pools[i].(prio := r'.pools[i].prio))
            && (selected.None? ==> r'.pools == r.pools)
  {
  }

  // Some pool is enabled and not idle.
  predicate SomeAlive(pools: seq<PoolRec>)
  {
    exists i :: 0 <= i < |pools| && pools[i].enabled == POOL_ENABLED && !pools[i].idle
  }

  // Pool c is enabled and not idle, and of least priority among those.
  predicate LeastAlive(pools: seq<PoolRec>, c: nat)
  {
    && c < |pools| && pools[c].enabled == POOL_ENABLED && !pools[c].idle
    && forall i :: 0 <= i < |pools| && pools[i].enabled == POOL_ENABLED && !pools[i].idle ==>
         pools[c].prio <= pools[i].prio
  }

  // Failover, load balance and balance switch to the pool of least priority among those that are
  // enabled and not idle, or keep the current one if there is none.
  lemma FailoverChoice(r: Registry, strategy: Strategy, selected: Option<nat>)
    requires RegistryOk(r) && (selected.Some? ==> selected.value < |r.pools|)
    requires strategy != POOL_ROUNDROBIN && strategy != POOL_ROTATE
    ensures var r' := Switched(r, strategy, selected);
            if SomeAlive(r.pools) then LeastAlive(r'.pools, r'.current) else r'.current == r.current
  {
    SwitchedOk(r, strategy, selected);
    var r' := Switched(r, strategy, selected);
    ByPriorityLeast(r'.pools, 0, r.current);
    AliveIsUsable(r'.pools);
    SameAlive(r, strategy, selected);
  }

  lemma SameAlive(r: Registry, strategy: Strategy, selected: Option<nat>)
    requires r.current < |r.pools| && (selected.Some? ==> selected.value < |r.pools|)
    ensures SomeAlive(Switched(r, strategy, selected).pools) <==> SomeAlive(r.pools)
  {
    SwitchedFields(r, strategy, selected);
    var now := Switched(r, strategy, selected).pools;
    if i :| 0 <= i < |now| && now[i].enabled == POOL_ENABLED && !now[i].idle {
      assert r.pools[i].enabled == POOL_ENABLED && !r.pools[i].idle;
    }
    if i :| 0 <= i < |now| && r.pools[i].enabled == POOL_ENABLED && !r.pools[i].idle {
      assert now[i].enabled == POOL_ENABLED && !now[i].idle;
    }
  }

  lemma AliveIsUsable(pools: seq<PoolRec>)
    requires PriosOk(pools)
    ensures NoneUsable(pools, 0) <==> !SomeAlive(pools)
    ensures forall c :: Least(pools, 0, c) ==> LeastAlive(pools, c)
  {
    forall i | 0 <= i < |pools|
      ensures pools[i].prio >= 0 && (Unusable(pools[i]) <==> pools[i].enabled != POOL_ENABLED || pools[i].idle)
    {
    }
  }

  // A selected pool that is enabled and not idle becomes the current one, whatever the strategy,
  // and from then on has the least priority.  The cycling strategies ask only that it is not idle.
  lemma SelectedChosen(r: Registry, strategy: Strategy, k: nat)
    requires RegistryOk(r) && k < |r.pools|
    ensures var r' := Switched(r, strategy, Some(k));
            && (r.pools[k].enabled == POOL_ENABLED && !r.pools[k].idle ==> r'.current == k)
            && ((strategy == POOL_ROUNDROBIN || strategy == POOL_ROTATE) && !r.pools[k].idle ==> r'.current == k)
            && |r'.pools| == |r.pools| && r'.pools[k].prio == 0
  {
    PromotedAllOk(r.pools, k);
    var pools := PromotedAll(r.pools, k);
    ByPriorityLeast(pools, 0, r.current);
    if r.pools[k].enabled == POOL_ENABLED && !r.pools[k].idle {
      assert !Unusable(pools[k]) && pools[k].prio == 0;
    }
  }

  // The d-th pool after pool c, counting round, is enabled and not idle.
  predicate AliveAfter(pools: seq<PoolRec>, c: nat, d: nat)
    requires c < |pools| && d < |pools|
  {
    var p := pools[if c + d < |pools| then c + d else c + d - |pools|];
    p.enabled == POOL_ENABLED && !p.idle
  }

  // Without a selected pool, or with an idle one, the cycling strategies go to the next pool by
  // number, counting round, that is enabled and not idle, or stay if there is none.
  lemma RoundRobinChoice(r: Registry, strategy: Strategy, selected: Option<nat>) returns (d: nat)
    requires RegistryOk(r) && (strategy == POOL_ROUNDROBIN || strategy == POOL_ROTATE)
    requires selected.Some? ==> selected.value < |r.pools| && r.pools[selected.value].idle
    ensures 1 <= d <= |r.pools| && forall e :: 1 <= e < d ==> !AliveAfter(r.pools, r.current, e)
    ensures var n, c := |r.pools|, Switched(r, strategy, selected).current;
            if d == n then c == r.current
            else AliveAfter(r.pools, r.current, d) &&
                 c == if r.current + d < n then r.current + d else r.current + d - n
  {
    var now := Switched(r, strategy, selected).pools;
    SwitchedFields(r, strategy, selected);
    d := Ahead(now, r.current, 1);
    forall e | 1 <= e < |r.pools|
      ensures AliveAfter(r.pools, r.current, e) <==> !Unusable(now[Place(r.current, e, |r.pools|)])
    {
      AliveIsNotUnusable(r.pools, now, r.current, e);
    }
  }

  lemma AliveIsNotUnusable(was: seq<PoolRec>, now: seq<PoolRec>, c: nat, d: nat)
    requires |now| == |was| && c < |was| && d < |was|
    requires forall i :: 0 <= i < |was| ==> now[i] == was[i].(prio := now[i].prio)
    ensures AliveAfter(was, c, d) <==> !Unusable(now[Place(c, d, |was|)])
  {
    var p := now[Place(c, d, |was|)];
    assert p.idle == was[Place(c, d, |was|)].idle;
  }

  function EnabledPlaces(pools: seq<PoolRec>): set<nat>
  {
    set i: nat | i < |pools| && pools[i].enabled == POOL_ENABLED
  }

  // The count of enabled pools is their number.
  lemma {:induction false} EnabledCountIsNumber(pools: seq<PoolRec>)
    ensures EnabledCount(pools) == |EnabledPlaces(pools)|
    decreases |pools|
  {
    if pools == [] {
      assert EnabledPlaces(pools) == {};
    } else {
      var front, last := pools[..|pools| - 1], |pools| - 1;
      EnabledCountIsNumber(front);
      if pools[last].enabled == POOL_ENABLED {
        assert EnabledPlaces(pools) == EnabledPlaces(front) + {last};
      } else {
        assert EnabledPlaces(pools) == EnabledPlaces(front);
      }
    }
  }
}
