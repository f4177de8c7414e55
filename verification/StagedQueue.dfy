// The queue of staged work: kept in order of staging time, with a count of the items that can be
// rolled which never falls below the true number.

module StagedQueue {

  datatype Work = Work(id: nat, pool: nat, clone: bool, rolltime: nat, tvStaged: int)

  datatype Queue = Queue(staged: seq<Work>, stagedRollable: int, frozen: bool)

  predicate Rollable(w: Work) { !w.clone && w.rolltime != 0 }

  predicate AllFrom(s: seq<Work>, t: int) { forall i :: 0 <= i < |s| ==> t <= s[i].tvStaged }

  predicate Sorted(s: seq<Work>) { s == [] || (AllFrom(s[1..], s[0].tvStaged) && Sorted(s[1..])) }

  function RollableCount(s: seq<Work>): (n: nat)
    ensures n <= |s|
  {
    if s == [] then 0 else (if Rollable(s[0]) then 1 else 0) + RollableCount(s[1..])
  }

  // ---------- sorting ----------

  // w placed before the first item staged at the same time or later.
  function Placed(w: Work, s: seq<Work>): seq<Work>
  {
    if s == [] || w.tvStaged <= s[0].tvStaged then [w] + s else [s[0]] + Placed(w, s[1..])
  }

  // The stable sort by staging time.
  function StableSorted(s: seq<Work>): seq<Work>
  {
    if s == [] then [] else Placed(s[0], StableSorted(s[1..]))
  }

  // The items staged in one second, in their order.
  function StagedAt(s: seq<Work>, t: int): seq<Work>
  {
    if s == [] then []
    else if s[0].tvStaged == t then [s[0]] + StagedAt(s[1..], t)
    else StagedAt(s[1..], t)
  }

  lemma Front(w: Work, s: seq<Work>)
    ensures ([w] + s)[0] == w && ([w] + s)[1..] == s
  {
  }

  lemma {:induction false} PlacedFrom(w: Work, s: seq<Work>, t: int)
    ensures AllFrom(Placed(w, s), t) <==> t <= w.tvStaged && AllFrom(s, t)
    decreases |s|
  {
    if s == [] || w.tvStaged <= s[0].tvStaged {
      var r := [w] + s;
      assert r[0] == w && forall i :: 0 <= i < |s| ==> r[i + 1] == s[i];
    } else {
      PlacedFrom(w, s[1..], t);
      var r, rest := Placed(w, s), Placed(w, s[1..]);
      assert r[0] == s[0] && forall i :: 0 <= i < |rest| ==> r[i + 1] == rest[i];
      assert forall i :: 1 <= i < |r| ==> r[i] == rest[i - 1];
      assert forall i :: 1 <= i < |s| ==> s[i] == s[1..][i - 1];
    }
  }

  lemma {:induction false} PlacedSorted(w: Work, s: seq<Work>)
    requires Sorted(s)
    ensures Sorted(Placed(w, s))
    decreases |s|
  {
    if s == [] || w.tvStaged <= s[0].tvStaged {
      Front(w, s);
    } else {
      Front(s[0], Placed(w, s[1..]));
      PlacedSorted(w, s[1..]);
      PlacedFrom(w, s[1..], s[0].tvStaged);
    }
  }

  lemma {:induction false} PlacedKeeps(w: Work, s: seq<Work>, t: int)
    ensures StagedAt(Placed(w, s), t) == if w.tvStaged == t then [w] + StagedAt(s, t) else StagedAt(s, t)
    decreases |s|
  {
    Front(w, s);
    if !(s == [] || w.tvStaged <= s[0].tvStaged) {
      PlacedKeeps(w, s[1..], t);
      Front(s[0], Placed(w, s[1..]));
    }
  }

  lemma {:induction false} PlacedItems(w: Work, s: seq<Work>)
    ensures multiset(Placed(w, s)) == multiset{w} + multiset(s)
    decreases |s|
  {
    if !(s == [] || w.tvStaged <= s[0].tvStaged) {
      PlacedItems(w, s[1..]);
      assert s == [s[0]] + s[1..];
    }
  }

  // Sorting keeps the items, and the order of those staged in the same second.
  lemma {:induction false} StableSortedKeeps(s: seq<Work>, t: int)
    ensures Sorted(StableSorted(s)) && multiset(StableSorted(s)) == multiset(s)
    ensures StagedAt(StableSorted(s), t) == StagedAt(s, t)
    decreases |s|
  {
    if s != [] {
      StableSortedKeeps(s[1..], t);
      PlacedKeeps(s[0], StableSorted(s[1..]), t);
      PlacedSorted(s[0], StableSorted(s[1..]));
      PlacedItems(s[0], StableSorted(s[1..]));
      assert s == [s[0]] + s[1..];
    }
  }

  lemma {:induction false} StagedAtMember(s: seq<Work>, i: nat)
    requires i < |s|
    ensures s[i] in StagedAt(s, s[i].tvStaged)
  {
    if i > 0 { StagedAtMember(s[1..], i - 1); }
  }

  lemma {:induction false} StagedAtTime(s: seq<Work>, t: int, w: Work)
    requires w in StagedAt(s, t)
    ensures w.tvStaged == t && w in s
    decreases |s|
  {
    if w in StagedAt(s[1..], t) { StagedAtTime(s[1..], t, w); }
  }

  function FirstTime(s: seq<Work>): int { if s == [] then 0 else s[0].tvStaged }

  // Nothing but the stable sort is sorted and keeps those orders.
  lemma {:induction false} StableSortUnique(a: seq<Work>, b: seq<Work>)
    requires Sorted(a) && Sorted(b) && forall t: int :: StagedAt(a, t) == StagedAt(b, t)
    ensures a == b
    decreases |a|
  {
    if a == [] {
      assert StagedAt(b, FirstTime(b)) == StagedAt(a, FirstTime(b)) == [];
    } else {
      StagedAtMember(a, 0);
      StagedAtTime(b, a[0].tvStaged, a[0]);
      StagedAtMember(b, 0);
      StagedAtTime(a, b[0].tvStaged, b[0]);
      var t0 := a[0].tvStaged;
      assert b[0].tvStaged == t0;
      assert StagedAt(a, t0)[0] == a[0] && StagedAt(b, t0)[0] == b[0];
      forall t: int ensures StagedAt(a[1..], t) == StagedAt(b[1..], t) {
        assert StagedAt(a, t) == StagedAt(b, t);
        var own := if t == t0 then [a[0]] else [];
        assert a[0] == b[0] && StagedAt(a, t) == own + StagedAt(a[1..], t);
        assert StagedAt(b, t) == own + StagedAt(b[1..], t);
        assert StagedAt(a[1..], t) == StagedAt(a, t)[|own|..] && StagedAt(b[1..], t) == StagedAt(b, t)[|own|..];
      }
      StableSortUnique(a[1..], b[1..]);
      assert a == [a[0]] + a[1..] && b == [b[0]] + b[1..];
    }
  }

  // ---------- the operations on values ----------

  function Pushed(q: Queue, w: Work): Queue
  {
    Queue(if q.frozen then q.staged else StableSorted(q.staged + [w]),
          q.stagedRollable + (if Rollable(w) then 1 else 0), q.frozen)
  }

  // The first item that cannot be rolled.
  function FirstFixed(s: seq<Work>): (k: nat)
    ensures k <= |s| && (k < |s| ==> !Rollable(s[k]))
    ensures forall i :: 0 <= i < k ==> Rollable(s[i])
  {
    if s == [] || !Rollable(s[0]) then 0 else 1 + FirstFixed(s[1..])
  }

  function PopPlace(q: Queue): nat
  {
    if |q.staged| > q.stagedRollable then FirstFixed(q.staged) else 0
  }

  function RemovedAt(s: seq<Work>, k: nat): seq<Work>
    requires k < |s|
  {
    if k == 0 then s[1..] else [s[0]] + RemovedAt(s[1..], k - 1)
  }

  function Popped(q: Queue): Queue
    requires PopPlace(q) < |q.staged|
  {
    var k := PopPlace(q);
    q.(staged := RemovedAt(q.staged, k),
       stagedRollable := q.stagedRollable - if Rollable(q.staged[k]) then 1 else 0)
  }

  // The items to take out: stale ones, or those of one pool.
  datatype Gone = Stale(works: set<Work>) | OfPool(pool: nat)

  predicate IsGone(w: Work, gone: Gone)
  {
    match gone
    case Stale(works) => w in works
    case OfPool(pool) => w.pool == pool
  }

  function Left(s: seq<Work>, gone: Gone): seq<Work>
  {
    if s == [] then []
    else if IsGone(s[0], gone) then Left(s[1..], gone)
    else [s[0]] + Left(s[1..], gone)
  }

  // ---------- what the operations keep ----------

  // The count exceeds the true number by exactly the rollable items that were discarded, cleared
  // or refused by a frozen queue.
  predicate QueueOk(q: Queue, lost: int)
  {
    Sorted(q.staged) && lost >= 0 && q.stagedRollable == RollableCount(q.staged) + lost
  }

  lemma {:induction false} RollableCountSum(a: seq<Work>, b: seq<Work>)
    ensures RollableCount(a + b) == RollableCount(a) + RollableCount(b)
    decreases |a|
  {
    if a == [] {
      assert a + b == b;
    } else {
      assert (a + b)[1..] == a[1..] + b;
      RollableCountSum(a[1..], b);
    }
  }

  lemma {:induction false} RollableCountPlaced(w: Work, s: seq<Work>)
    ensures RollableCount(Placed(w, s)) == RollableCount([w] + s)
    decreases |s|
  {
    assert ([w] + s)[1..] == s;
    if !(s == [] || w.tvStaged <= s[0].tvStaged) {
      RollableCountPlaced(w, s[1..]);
      assert ([w] + s[1..])[1..] == s[1..];
      assert ([s[0]] + Placed(w, s[1..]))[1..] == Placed(w, s[1..]);
    }
  }

  lemma {:induction false} RollableCountSorted(s: seq<Work>)
    ensures RollableCount(StableSorted(s)) == RollableCount(s)
    decreases |s|
  {
    if s != [] {
      RollableCountSorted(s[1..]);
      RollableCountPlaced(s[0], StableSorted(s[1..]));
      assert ([s[0]] + StableSorted(s[1..]))[1..] == StableSorted(s[1..]);
    }
  }

  lemma PushedOk(q: Queue, lost: int, w: Work)
    requires QueueOk(q, lost)
    ensures QueueOk(Pushed(q, w), lost + if q.frozen && Rollable(w) then 1 else 0)
  {
    StableSortedKeeps(q.staged + [w], 0);
    RollableCountSorted(q.staged + [w]);
    RollableCountSum(q.staged, [w]);
    assert [w][1..] == [];
  }

  lemma {:induction false} AllRollable(s: seq<Work>)
    ensures RollableCount(s) == |s| <==> FirstFixed(s) == |s|
  {
    if s != [] { AllRollable(s[1..]); }
  }

  // A pop from a queue that is not empty always finds an item.
  lemma PopFinds(q: Queue, lost: int)
    requires QueueOk(q, lost) && q.staged != []
    ensures PopPlace(q) < |q.staged|
  {
    AllRollable(q.staged);
  }

  lemma {:induction false} RemovedFrom(s: seq<Work>, k: nat, t: int)
    requires k < |s| && AllFrom(s, t)
    ensures AllFrom(RemovedAt(s, k), t)
  {
    if k > 0 { RemovedFrom(s[1..], k - 1, t); }
  }

  lemma {:induction false} RemovedKeeps(s: seq<Work>, k: nat)
    requires k < |s| && Sorted(s)
    ensures Sorted(RemovedAt(s, k))
    ensures RollableCount(RemovedAt(s, k)) == RollableCount(s) - if Rollable(s[k]) then 1 else 0
  {
    if k > 0 {
      RemovedKeeps(s[1..], k - 1);
      RemovedFrom(s[1..], k - 1, s[0].tvStaged);
      Front(s[0], RemovedAt(s[1..], k - 1));
    }
  }

  lemma {:induction false} RemovedSlices(s: seq<Work>, k: nat)
    requires k < |s|
    ensures RemovedAt(s, k) == s[..k] + s[k + 1..]
  {
    if k > 0 {
      RemovedSlices(s[1..], k - 1);
      assert s[..k] == [s[0]] + s[1..][..k - 1];
      assert s[1..][k..] == s[k + 1..];
    }
  }

  lemma PoppedOk(q: Queue, lost: int)
    requires QueueOk(q, lost) && q.staged != []
    ensures PopPlace(q) < |q.staged| && QueueOk(Popped(q), lost)
  {
    PopFinds(q, lost);
    RemovedKeeps(q.staged, PopPlace(q));
  }

  lemma {:induction false} InOrder(s: seq<Work>, i: nat, j: nat)
    requires Sorted(s) && i <= j < |s|
    ensures s[i].tvStaged <= s[j].tvStaged
  {
    if i > 0 { InOrder(s[1..], i - 1, j - 1); }
  }

  // The places of the clones and of the works that may not be rolled.
  function FixedPlaces(s: seq<Work>): set<nat>
  {
    set i: nat | i < |s| && (s[i].clone || s[i].rolltime == 0)
  }

  lemma {:induction false} FixedNumber(s: seq<Work>)
    ensures |FixedPlaces(s)| == |s| - RollableCount(s)
    decreases |s|
  {
    if s == [] {
      assert FixedPlaces(s) == {};
    } else {
      var front, last := s[..|s| - 1], s[|s| - 1];
      FixedNumber(front);
      assert s == front + [last] && [last][1..] == [];
      RollableCountSum(front, [last]);
      assert FixedPlaces(s) == FixedPlaces(front) + if last.clone || last.rolltime == 0 then {|front|} else {};
    }
  }

  // A clone, or a work that may not be rolled, is preferred exactly when there are more of those
  // than the count has lost; the item is then the first and oldest of them, otherwise the first
  // and oldest of all.  It alone leaves the queue.
  lemma PopChoice(q: Queue, lost: int)
    requires QueueOk(q, lost) && q.staged != []
    ensures PopPlace(q) < |q.staged|
    ensures var s, k := q.staged, PopPlace(q);
            && Popped(q).staged == s[..k] + s[k + 1..]
            && if |FixedPlaces(s)| > lost
               then k in FixedPlaces(s) && (forall i: nat :: i in FixedPlaces(s) ==> k <= i)
                    && forall i :: i in FixedPlaces(s) ==> s[k].tvStaged <= s[i].tvStaged
               else k == 0 && forall i :: 0 <= i < |s| ==> s[0].tvStaged <= s[i].tvStaged
  {
    PopFinds(q, lost);
    FixedNumber(q.staged);
    var s, k := q.staged, PopPlace(q);
    RemovedSlices(s, k);
    forall i | k <= i < |s| ensures s[k].tvStaged <= s[i].tvStaged { InOrder(s, k, i); }
  }

  // A push counts a work that may be rolled, frozen queue or not; the queue takes the work in,
  // behind those staged in the same second, unless it is frozen.
  lemma PushFields(q: Queue, w: Work, t: int)
    ensures var q' := Pushed(q, w);
            && q'.frozen == q.frozen
            && q'.stagedRollable == q.stagedRollable + (if !w.clone && w.rolltime != 0 then 1 else 0)
            && (q.frozen ==> q'.staged == q.staged)
            && (!q.frozen ==> multiset(q'.staged) == multiset(q.staged) + multiset{w})
            && (!q.frozen ==> StagedAt(q'.staged, t) == StagedAt(q.staged, t) + if w.tvStaged == t then [w] else [])
            && (!q.frozen ==> forall i, j :: 0 <= i <= j < |q'.staged| ==>
                  q'.staged[i].tvStaged <= q'.staged[j].tvStaged)
  {
    if !q.frozen {
      var s := Pushed(q, w).staged;
      StableSortedKeeps(q.staged + [w], t);
      StagedAtJoin(q.staged, w, t);
      forall i, j | 0 <= i <= j < |s| ensures s[i].tvStaged <= s[j].tvStaged { InOrder(s, i, j); }
    }
  }

  lemma {:induction false} StagedAtJoin(s: seq<Work>, w: Work, t: int)
    ensures StagedAt(s + [w], t) == StagedAt(s, t) + if w.tvStaged == t then [w] else []
    decreases |s|
  {
    if s == [] {
      assert s + [w] == [w] && [w][1..] == [];
    } else {
      assert (s + [w])[1..] == s[1..] + [w];
      StagedAtJoin(s[1..], w, t);
    }
  }

  // What a removal leaves: the items of the other pools, or those that are not stale, in order.
  lemma LeftItems(s: seq<Work>, gone: Gone) returns (at: seq<nat>)
    ensures |at| == |Left(s, gone)|
    ensures forall i :: 0 <= i < |at| ==> at[i] < |s| && Left(s, gone)[i] == s[at[i]]
    ensures forall i, j :: 0 <= i < j < |at| ==> at[i] < at[j]
    ensures forall k: nat :: k < |s| ==>
      (k in at <==> match gone case OfPool(pool) => s[k].pool != pool case Stale(works) => s[k] !in works)
  {
    at := LeftItemsFrom(s, gone, 0);
    assert s[0..] == s;
  }

  lemma {:induction false} LeftItemsFrom(s: seq<Work>, gone: Gone, from: nat) returns (at: seq<nat>)
    requires from <= |s|
    ensures |at| == |Left(s[from..], gone)|
    ensures forall i :: 0 <= i < |at| ==> from <= at[i] < |s| && Left(s[from..], gone)[i] == s[at[i]]
    ensures forall i, j :: 0 <= i < j < |at| ==> at[i] < at[j]
    ensures forall k: nat :: from <= k < |s| ==> (k in at <==> !IsGone(s[k], gone))
    decreases |s| - from
  {
    at := [];
    if from < |s| {
      assert s[from..][1..] == s[from + 1..] && s[from..][0] == s[from];
      at := LeftItemsFrom(s, gone, from + 1);
      if !IsGone(s[from], gone) { at := [from] + at; }
    }
  }

  lemma {:induction false} LeftFrom(s: seq<Work>, gone: Gone, t: int)
    requires AllFrom(s, t)
    ensures AllFrom(Left(s, gone), t)
    decreases |s|
  {
    if s != [] { LeftFrom(s[1..], gone, t); }
  }

  lemma {:induction false} LeftKeeps(s: seq<Work>, gone: Gone)
    requires Sorted(s)
    ensures Sorted(Left(s, gone)) && RollableCount(Left(s, gone)) <= RollableCount(s)
    decreases |s|
  {
    if s != [] {
      LeftKeeps(s[1..], gone);
      LeftFrom(s[1..], gone, s[0].tvStaged);
      Front(s[0], Left(s[1..], gone));
    }
  }

  lemma LeftOk(q: Queue, lost: int, gone: Gone)
    requires QueueOk(q, lost)
    ensures var s := Left(q.staged, gone);
            RollableCount(s) <= RollableCount(q.staged) &&
            QueueOk(q.(staged := s), lost + RollableCount(q.staged) - RollableCount(s))
  {
    LeftKeeps(q.staged, gone);
  }

  // ---------- sequences of operations ----------

  datatype Op = Push(w: Work) | Pop | TakeOut(gone: Gone) | Freeze | Thaw

  predicate Allowed(q: Queue, op: Op)
  {
    op.Pop? ==> q.staged != [] && PopPlace(q) < |q.staged|
  }

  function Applied(q: Queue, op: Op): Queue
    requires Allowed(q, op)
  {
    match op
    case Push(w) => Pushed(q, w)
    case Pop => Popped(q)
    case TakeOut(gone) => q.(staged := Left(q.staged, gone))
    case Freeze => q.(frozen := true)
    case Thaw => q.(frozen := false)
  }

  // The rollable items an operation takes out, or keeps out, without counting them down.
  function Lost(q: Queue, op: Op): int
    requires Allowed(q, op)
  {
    match op
    case Push(w) => if q.frozen && Rollable(w) then 1 else 0
    case TakeOut(_) => RollableCount(q.staged) - RollableCount(Applied(q, op).staged)
    case _ => 0
  }

  ghost predicate IsRun(run: seq<Queue>, ops: seq<Op>)
  {
    |run| == |ops| + 1 &&
    forall i :: 0 <= i < |ops| ==> Allowed(run[i], ops[i]) && run[i + 1] == Applied(run[i], ops[i])
  }

  function LostIn(q: Queue, ops: seq<Op>): int
    decreases |ops|
  {
    if ops == [] || !Allowed(q, ops[0]) then 0 else Lost(q, ops[0]) + LostIn(Applied(q, ops[0]), ops[1..])
  }

  lemma AppliedOk(q: Queue, lost: int, op: Op)
    requires QueueOk(q, lost) && Allowed(q, op)
    ensures Lost(q, op) >= 0 && QueueOk(Applied(q, op), lost + Lost(q, op))
  {
    match op {
      case Push(w) => PushedOk(q, lost, w);
      case Pop => PoppedOk(q, lost);
      case TakeOut(gone) => LeftOk(q, lost, gone);
      case Freeze =>
      case Thaw =>
    }
  }

  // After every sequence of operations the queue is sorted, the count is what it should be plus
  // what was lost, and a pop that may happen finds an item.
  lemma {:induction false} QueueKept(run: seq<Queue>, ops: seq<Op>, lost: int)
    requires IsRun(run, ops) && QueueOk(run[0], lost)
    ensures QueueOk(run[|ops|], lost + LostIn(run[0], ops))
    ensures run[|ops|].staged != [] ==> Allowed(run[|ops|], Pop)
    decreases |ops|
  {
    if ops == [] {
      if run[0].staged != [] { PopFinds(run[0], lost); }
    } else {
      assert run[0 + 1] == Applied(run[0], ops[0]);
      AppliedOk(run[0], lost, ops[0]);
      QueueKept(run[1..], ops[1..], lost + Lost(run[0], ops[0]));
    }
  }

  lemma SortedOne(w: Work)
    ensures StableSorted([w]) == [w]
  {
    var none := [w][1..];
    assert none == [] && StableSorted(none) == [] && Placed(w, none) == [w];
  }

  lemma SortedTwo(v: Work, w: Work)
    requires v.tvStaged <= w.tvStaged
    ensures StableSorted([v, w]) == [v, w]
  {
    SortedOne(w);
    assert [v, w][1..] == [w] && Placed(v, [w]) == [v] + [w] == [v, w];
  }

  lemma PushedFirst(w: Work, count: int)
    ensures Pushed(Queue([], count, false), w) == Queue([w], count + (if Rollable(w) then 1 else 0), false)
  {
    SortedOne(w);
    assert Queue([], count, false).staged + [w] == [w];
  }

  lemma PushedSecond(v: Work, w: Work, count: int)
    requires v.tvStaged <= w.tvStaged
    ensures Pushed(Queue([v], count, false), w) == Queue([v, w], count + (if Rollable(w) then 1 else 0), false)
  {
    SortedTwo(v, w);
    assert Queue([v], count, false).staged + [w] == [v, w];
  }

  lemma RunOfFour(q0: Queue, q1: Queue, q2: Queue, q3: Queue, q4: Queue, o0: Op, o1: Op, o2: Op, o3: Op)
    requires Allowed(q0, o0) && q1 == Applied(q0, o0) && Allowed(q1, o1) && q2 == Applied(q1, o1)
    requires Allowed(q2, o2) && q3 == Applied(q2, o2) && Allowed(q3, o3) && q4 == Applied(q3, o3)
    ensures IsRun([q0, q1, q2, q3, q4], [o0, o1, o2, o3])
  {
    var run, ops := [q0, q1, q2, q3, q4], [o0, o1, o2, o3];
    assert run[0] == q0 && run[1] == q1 && run[2] == q2 && run[3] == q3 && run[4] == q4;
    assert ops[0] == o0 && ops[1] == o1 && ops[2] == o2 && ops[3] == o3;
    forall i | 0 <= i < 4 ensures Allowed(run[i], ops[i]) && run[i + 1] == Applied(run[i], ops[i]) {
      if i == 0 { } else if i == 1 { } else if i == 2 { } else { assert i == 3; }
    }
  }

  // The case that the count was not made for: a master cleared with its pool still counts, so a
  // pop hands out the next master although a clone waits behind it.
  lemma MasterPoppedBeforeClone() returns (run: seq<Queue>, ops: seq<Op>)
    ensures |ops| == 4 && IsRun(run, ops) && run[0] == Queue([], 0, false)
    ensures LostIn(run[0], ops) == 1
    ensures var s := run[4].staged;
            |s| == 2 && !s[0].clone && s[0].rolltime != 0 && s[1].clone && PopPlace(run[4]) == 0
  {
    var cleared, master, clone := Work(0, 0, false, 1, 0), Work(1, 1, false, 1, 1), Work(2, 1, true, 1, 2);
    ops := [Push(cleared), TakeOut(OfPool(0)), Push(master), Push(clone)];
    run := [Queue([], 0, false), Queue([cleared], 1, false), Queue([], 1, false),
            Queue([master], 2, false), Queue([master, clone], 2, false)];
    PushedFirst(cleared, 0);
    assert [cleared][1..] == [] && Left([cleared], OfPool(0)) == [];
    PushedFirst(master, 1);
    PushedSecond(master, clone, 2);
    RunOfFour(run[0], run[1], run[2], run[3], run[4], ops[0], ops[1], ops[2], ops[3]);
    OneLost(run, ops, master, clone);
  }

  lemma OneLost(run: seq<Queue>, ops: seq<Op>, master: Work, clone: Work)
    requires IsRun(run, ops) && run[0] == Queue([], 0, false) && run[|ops|] == Queue([master, clone], 2, false)
    requires Rollable(master) && !Rollable(clone)
    ensures LostIn(run[0], ops) == 1 && PopPlace(run[|ops|]) == 0
  {
    QueueKept(run, ops, 0);
    CountOfTwo(master, clone);
  }

  lemma CountOfTwo(v: Work, w: Work)
    ensures RollableCount([v, w]) == (if Rollable(v) then 1 else 0) + if Rollable(w) then 1 else 0
  {
    assert [v, w][1..] == [w] && [w][1..] == [];
  }

  // ---------- the queue updated in place ----------

  // A pop hands out an item, or waits for one; from a frozen queue without items the source goes
  // on with no item at all.
  datatype PopOutcome = Item(w: Work) | Waits | NoItem

  class StagedWork {
    var staged: seq<Work>
    var stagedRollable: int
    var frozen: bool

    function Value(): Queue
      reads this
    {
      Queue(staged, stagedRollable, frozen)
    }

    constructor ()
      ensures Value() == Queue([], 0, false) && QueueOk(Value(), 0)
    {
      staged, stagedRollable, frozen := [], 0, false;
    }

    method HashPush(w: Work) returns (rc: bool)
      modifies this
      ensures Value() == Pushed(old(Value()), w) && rc == !frozen
    {
      rc := true;
      if Rollable(w) { stagedRollable := stagedRollable + 1; }
      if !frozen {
        staged := staged + [w];
        staged := StableSorted(staged);
      } else {
        rc := false;
      }
    }

    method HashPop(ghost lost: int) returns (r: PopOutcome)
      requires QueueOk(Value(), lost)
      modifies this
      ensures old(staged) == [] ==> Value() == old(Value()) && r == if frozen then NoItem else Waits
      ensures old(staged) != [] ==>
        && PopPlace(old(Value())) < old(|staged|)
        && r == Item(old(staged[PopPlace(Value())])) && Value() == Popped(old(Value()))
    {
      if staged == [] { return if frozen then NoItem else Waits; }
      PopFinds(Value(), lost);
      var hc, k := |staged|, 0;
      if hc > stagedRollable {
        assert staged[0..] == staged;
        while k < |staged| && Rollable(staged[k])
          invariant 0 <= k <= |staged|
          invariant FirstFixed(staged) == k + FirstFixed(staged[k..])
        {
          assert staged[k..][1..] == staged[k + 1..];
          k := k + 1;
        }
      }
      var w := staged[k];
      RemovedSlices(staged, k);
      staged := staged[..k] + staged[k + 1..];
      if Rollable(w) { stagedRollable := stagedRollable - 1; }
      r := Item(w);
    }

    method DiscardStale(stale: set<Work>)
      modifies this`staged
      ensures Value() == old(Value()).(staged := Left(old(staged), Stale(stale)))
    {
      ghost var before := staged;
      var k := 0;
      while k < |staged|
        invariant 0 <= k <= |staged|
        invariant Left(before, Stale(stale)) == staged[..k] + Left(staged[k..], Stale(stale))
        decreases |staged| - k
      {
        assert staged[k..][1..] == staged[k + 1..];
        if staged[k] in stale {
          ghost var was := staged;
          staged := staged[..k] + staged[k + 1..];
          assert staged[k..] == was[k + 1..] && staged[..k] == was[..k];
        } else {
          k := k + 1;
        }
      }
    }

    method ClearPoolWork(pool: nat)
      modifies this`staged
      ensures Value() == old(Value()).(staged := Left(old(staged), OfPool(pool)))
    {
      ghost var before := staged;
      var k := 0;
      while k < |staged|
        invariant 0 <= k <= |staged|
        invariant Left(before, OfPool(pool)) == staged[..k] + Left(staged[k..], OfPool(pool))
        decreases |staged| - k
      {
        assert staged[k..][1..] == staged[k + 1..];
        if staged[k].pool == pool {
          ghost var was := staged;
          staged := staged[..k] + staged[k + 1..];
          assert staged[k..] == was[k + 1..] && staged[..k] == was[..k];
        } else {
          k := k + 1;
        }
      }
    }
  }
}
