// Rolling a work item's time field to make more work of it, and handing out clones.

module WorkRolling {
  import opened Sequences

  const MAX_ROLLS := 7000
  const WORD := 0x1_0000_0000

  // A time as a 32-bit word.
  function Wrapped(time: nat): (r: nat)
    ensures r < WORD
  {
    time % 0x1_0000_0000
  }

  // The part of a work item that rolling looks at.  ntime is the 32-bit time in the block header.
  datatype Item = Item(ntime: nat, rolls: nat, clone: bool, rolltime: int, stratum: bool, pool: bool, tvStaged: int)

  // `verdict` stands for !stale_work && should_roll, which depend on the clock and the pools.
  predicate CanRoll(w: Item, verdict: bool)
  {
    !w.stratum && w.pool && w.rolltime != 0 && !w.clone && w.rolls < MAX_ROLLS && verdict
  }

  function Rolled(w: Item): Item
  {
    w.(ntime := Wrapped(w.ntime + 1), rolls := w.rolls + 1)
  }

  function Cloned(w: Item): Item
  {
    w.(clone := true, tvStaged := w.tvStaged - 1)
  }

  // The loop of clone_work: `mrs` works are wanted, `last` is the clone at hand, and the n-th test
  // of the loop has the verdict verdicts[n].
  datatype Loop = Loop(staged: seq<Item>, last: Item, master: Item)

  function CloneLoop(w: Item, last: Item, mrs: int, verdicts: seq<bool>): Loop
    decreases |verdicts|
  {
    if mrs > 0 && verdicts != [] && CanRoll(w, verdicts[0]) then
      var r := CloneLoop(Rolled(Rolled(w)), Cloned(Rolled(w)), mrs - 1, verdicts[1..]);
      r.(staged := [last] + r.staged)
    else Loop([], last, w)
  }

  // ---------- the works that stem from one upstream work ----------

  // `issued` are the clones handed out so far; the master stays with the queue.
  datatype Family = Family(master: Item, issued: seq<Item>)

  datatype Call = CloneAvailable(verdict: bool) | CloneWork(mrs: int, verdicts: seq<bool>)

  function Called(f: Family, c: Call): Family
  {
    match c
    case CloneAvailable(verdict) =>
      if CanRoll(f.master, verdict)
      then Family(Rolled(Rolled(f.master)), f.issued + [Cloned(Rolled(f.master))])
      else f
    case CloneWork(mrs, verdicts) =>
      var r := CloneLoop(f.master, Cloned(f.master), mrs, verdicts);
      if r.staged == [] then f else Family(r.master, f.issued + r.staged + [r.last])
  }

  function CalledAll(f: Family, calls: seq<Call>): Family
    decreases |calls|
  {
    if calls == [] then f else CalledAll(Called(f, calls[0]), calls[1..])
  }

  // A work as it comes from the pool.
  predicate Upstream(w: Item)
  {
    w.rolls == 0 && !w.clone && w.ntime < WORD
  }

  // A member of the family: as many seconds ahead of the upstream work as it has rolls.
  predicate Member(w: Item, base: nat)
  {
    w.ntime == Wrapped(base + w.rolls)
  }

  predicate FamilyOk(f: Family, base: nat)
  {
    && Member(f.master, base) && !f.master.clone
    && f.master.rolls % 2 == 0 && f.master.rolls <= MAX_ROLLS
    && (forall i :: 0 <= i < |f.issued| ==>
          Member(f.issued[i], base) && f.issued[i].clone && f.issued[i].rolls < f.master.rolls)
    && (forall i, j :: 0 <= i < j < |f.issued| ==> f.issued[i].rolls < f.issued[j].rolls)
  }

  lemma RolledMember(w: Item, base: nat)
    requires Member(w, base)
    ensures Member(Rolled(w), base) && Member(Rolled(Rolled(w)), base)
  {
    assert Wrapped(Wrapped(base + w.rolls) + 1) == Wrapped(base + w.rolls + 1);
    assert Wrapped(Wrapped(base + w.rolls + 1) + 1) == Wrapped(base + w.rolls + 2);
  }

  // The clone at hand may still carry the master's own time; every clone before it is behind.
  ghost predicate InHand(f: Family, last: Item, base: nat)
  {
    && FamilyOk(f, base) && last.clone && Member(last, base) && last.rolls <= f.master.rolls
    && forall i :: 0 <= i < |f.issued| ==> f.issued[i].rolls < last.rolls
  }

  lemma HandedOut(f: Family, last: Item, base: nat)
    requires InHand(f, last, base) && f.master.rolls < MAX_ROLLS
    ensures InHand(Family(Rolled(Rolled(f.master)), f.issued + [last]), Cloned(Rolled(f.master)), base)
  {
    RolledMember(f.master, base);
  }

  lemma LastHandedOut(f: Family, last: Item, base: nat)
    requires InHand(f, last, base) && last.rolls < f.master.rolls
    ensures FamilyOk(Family(f.master, f.issued + [last]), base)
  {
  }

  lemma {:induction false} LoopOk(f: Family, last: Item, mrs: int, verdicts: seq<bool>, base: nat)
    requires InHand(f, last, base)
    ensures var r := CloneLoop(f.master, last, mrs, verdicts);
            if r.staged == [] then r.master == f.master && r.last == last
            else FamilyOk(Family(r.master, f.issued + r.staged + [r.last]), base) && r.master.rolls > f.master.rolls
    decreases |verdicts|
  {
    var w := f.master;
    if mrs > 0 && verdicts != [] && CanRoll(w, verdicts[0]) {
      var f1, last1 := Family(Rolled(Rolled(w)), f.issued + [last]), Cloned(Rolled(w));
      HandedOut(f, last, base);
      LoopOk(f1, last1, mrs - 1, verdicts[1..], base);
      var r1 := CloneLoop(f1.master, last1, mrs - 1, verdicts[1..]);
      JoinAssociative(f.issued, [last], r1.staged);
      if r1.staged == [] {
        assert f.issued + [last] + r1.staged == f1.issued;
        LastHandedOut(f1, last1, base);
      }
    }
  }

  lemma CalledOk(f: Family, c: Call, base: nat)
    requires FamilyOk(f, base)
    ensures FamilyOk(Called(f, c), base)
  {
    RolledMember(f.master, base);
    match c
    case CloneAvailable(_) =>
    case CloneWork(mrs, verdicts) => LoopOk(f, Cloned(f.master), mrs, verdicts, base);
  }

  lemma {:induction false} CalledAllOk(f: Family, calls: seq<Call>, base: nat)
    requires FamilyOk(f, base)
    ensures FamilyOk(CalledAll(f, calls), base)
    decreases |calls|
  {
    if calls != [] {
      CalledOk(f, calls[0], base);
      CalledAllOk(Called(f, calls[0]), calls[1..], base);
    }
  }

  lemma LaterDiffers(time: nat, d: nat)
    requires 0 < d < WORD
    ensures Wrapped(time + d) != Wrapped(time)
  {
  }

  // Different numbers of rolls are different times, although the time wraps around.
  lemma RollsDistinguish(a: Item, b: Item, base: nat)
    requires Member(a, base) && Member(b, base) && a.rolls < b.rolls <= MAX_ROLLS
    ensures a.ntime != b.ntime
  {
    LaterDiffers(base + a.rolls, b.rolls - a.rolls);
  }

  lemma FamilyDistinct(f: Family, base: nat)
    requires FamilyOk(f, base)
    ensures forall i, j :: 0 <= i < j < |f.issued| ==> f.issued[i].ntime != f.issued[j].ntime
    ensures forall i :: 0 <= i < |f.issued| ==> f.issued[i].ntime != f.master.ntime
  {
    forall i, j | 0 <= i < j < |f.issued| ensures f.issued[i].ntime != f.issued[j].ntime {
      RollsDistinguish(f.issued[i], f.issued[j], base);
    }
    forall i | 0 <= i < |f.issued| ensures f.issued[i].ntime != f.master.ntime {
      RollsDistinguish(f.issued[i], f.master, base);
    }
  }

  // Over any sequence of calls all works of the family carry different times, the master is
  // strictly ahead of every clone, and its rolls are even, limited, and its time advance.
  lemma TimesDistinct(upstream: Item, calls: seq<Call>)
    requires Upstream(upstream)
    ensures var f := CalledAll(Family(upstream, []), calls);
            && (forall i, j :: 0 <= i < j < |f.issued| ==> f.issued[i].ntime != f.issued[j].ntime)
            && (forall i :: 0 <= i < |f.issued| ==>
                  f.issued[i].ntime != f.master.ntime && f.issued[i].rolls < f.master.rolls
                  && f.issued[i].ntime == Wrapped(upstream.ntime + f.issued[i].rolls))
            && f.master.rolls % 2 == 0 && f.master.rolls <= MAX_ROLLS
            && f.master.ntime == Wrapped(upstream.ntime + f.master.rolls)
  {
    CalledAllOk(Family(upstream, []), calls, upstream.ntime);
    FamilyDistinct(CalledAll(Family(upstream, []), calls), upstream.ntime);
  }

  // ---------- how far the rolling goes ----------

  // The work n seconds on.
  function Later(w: Item, n: nat): Item
  {
    w.(ntime := (w.ntime + n) % 0x1_0000_0000, rolls := w.rolls + n)
  }

  // A clone made then: it looks a second older than the work.
  function LaterClone(w: Item, n: nat): Item
  {
    Later(w, n).(clone := true, tvStaged := w.tvStaged - 1)
  }

  // A work that is not from a stratum pool, has a pool, may be rolled and is no clone.
  predicate Rollable(w: Item)
  {
    !w.stratum && w.pool && w.rolltime != 0 && !w.clone
  }

  // One call for a clone: a rollable work with less than 7000 rolls gives one that is one second
  // on, and is itself two seconds on afterwards.
  lemma OneClone(f: Family, verdict: bool)
    ensures Called(f, CloneAvailable(verdict)) ==
      if Rollable(f.master) && f.master.rolls < 7000 && verdict
      then Family(Later(f.master, 2), f.issued + [LaterClone(f.master, 1)]) else f
  {
    LaterTwice(f.master, 0);
  }

  lemma LaterTwice(w: Item, n: nat)
    ensures Rolled(Rolled(w)) == Later(w, 2)
    ensures Later(Later(w, 2), n) == Later(w, n + 2) && LaterClone(Later(w, 2), n) == LaterClone(w, n + 2)
    ensures Cloned(Rolled(w)) == LaterClone(w, 1)
  {
    OnAndOn(w.ntime, 1, 1);
    OnAndOn(w.ntime, 2, n);
  }

  lemma OnAndOn(time: nat, a: nat, b: nat)
    ensures ((time + a) % 0x1_0000_0000 + b) % 0x1_0000_0000 == (time + a + b) % 0x1_0000_0000
  {
  }

  function Trues(verdicts: seq<bool>): nat
  {
    if verdicts == [] then 0 else (if verdicts[0] then 1 else 0) + Trues(verdicts[1..])
  }

  function Requests(verdicts: seq<bool>): seq<Call>
  {
    if verdicts == [] then [] else [CloneAvailable(verdicts[0])] + Requests(verdicts[1..])
  }

  // Calls for clones roll a work as often as they are allowed to, two rolls a clone, and to 7000
  // rolls at most; a work that is not rollable gives none.
  lemma {:induction false} RollsOfRequests(f: Family, verdicts: seq<bool>)
    requires f.master.rolls % 2 == 0 && f.master.rolls <= 7000
    ensures var all, w := CalledAll(f, Requests(verdicts)), f.master;
            var rolls := w.rolls + 2 * Trues(verdicts);
            && all.master.rolls == (if !Rollable(w) then w.rolls else if rolls < 7000 then rolls else 7000)
            && 2 * |all.issued| == 2 * |f.issued| + all.master.rolls - w.rolls
    decreases |verdicts|
  {
    if verdicts != [] {
      var call, calls := CloneAvailable(verdicts[0]), Requests(verdicts[1..]);
      assert ([call] + calls)[1..] == calls;
      OneClone(f, verdicts[0]);
      RollsOfRequests(Called(f, call), verdicts[1..]);
    }
  }

  // What k rounds of the cloning loop make of a work: the clone it is given is staged first, then
  // clones 1, 3, 5 and so on seconds on.
  predicate Rounds(r: Loop, w: Item, last: Item)
  {
    var k := |r.staged|;
    && r.master == Later(w, 2 * k)
    && r.last == (if k == 0 then last else LaterClone(w, 2 * k - 1))
    && forall i :: 0 <= i < k ==> r.staged[i] == if i == 0 then last else LaterClone(w, 2 * i - 1)
  }

  // The loop goes round while works are wanted and the verdicts are for it, if the work is
  // rollable and has less than 7000 rolls, and no further.
  lemma {:induction false} LoopClones(w: Item, last: Item, mrs: int, verdicts: seq<bool>)
    requires w.ntime < 0x1_0000_0000
    ensures var r := CloneLoop(w, last, mrs, verdicts);
            var k := |r.staged|;
            && Rounds(r, w, last)
            && k <= |verdicts| && (forall i :: 0 <= i < k ==> verdicts[i])
            && (k > 0 ==> k <= mrs && Rollable(w) && w.rolls + 2 * k < 7002)
            && (k >= mrs || k == |verdicts| || !verdicts[k] || !Rollable(w) || w.rolls + 2 * k >= 7000)
    decreases |verdicts|
  {
    if mrs > 0 && verdicts != [] && CanRoll(w, verdicts[0]) {
      LaterTwice(w, 0);
      LoopClones(Later(w, 2), LaterClone(w, 1), mrs - 1, verdicts[1..]);
      var r := CloneLoop(Later(w, 2), LaterClone(w, 1), mrs - 1, verdicts[1..]);
      OneMoreRound(r, w, last);
      assert forall i :: 0 < i <= |r.staged| ==> verdicts[i] == verdicts[1..][i - 1];
    }
  }

  lemma OneMoreRound(r: Loop, w: Item, last: Item)
    requires Rounds(r, Later(w, 2), LaterClone(w, 1))
    ensures Rounds(r.(staged := [last] + r.staged), w, last)
  {
    var k := |r.staged|;
    LaterTwice(w, 2 * k);
    if k > 0 { LaterTwice(w, 2 * k - 1); }
    forall i | 0 < i <= k ensures ([last] + r.staged)[i] == LaterClone(w, 2 * i - 1) {
      if i > 1 { LaterTwice(w, 2 * (i - 1) - 1); }
    }
  }

  // ---------- the work objects ----------

  class Work {
    var ntime: nat
    var rolls: nat
    var clone: bool
    var rolltime: int
    var stratum: bool
    var pool: bool
    var tvStaged: int

    function Value(): Item
      reads this
    {
      Item(ntime, rolls, clone, rolltime, stratum, pool, tvStaged)
    }

    // copy_work and make_clone
    constructor MakeClone(w: Work)
      ensures Value() == Cloned(w.Value())
    {
      ntime, rolls, rolltime, stratum, pool := w.ntime, w.rolls, w.rolltime, w.stratum, w.pool;
      clone, tvStaged := true, w.tvStaged - 1;
    }

    method RollWork()
      modifies this
      ensures Value() == Rolled(old(Value()))
    {
      ntime := Wrapped(ntime + 1);
      rolls := rolls + 1;
    }
  }

  // The first staged work that can be rolled, or the length of the list.
  function FirstRollable(staged: seq<Item>, verdicts: seq<bool>): (k: nat)
    requires |verdicts| == |staged|
    ensures k <= |staged| && (k < |staged| ==> CanRoll(staged[k], verdicts[k]))
    ensures forall i :: 0 <= i < k ==> !CanRoll(staged[i], verdicts[i])
  {
    if staged == [] || CanRoll(staged[0], verdicts[0]) then 0 else 1 + FirstRollable(staged[1..], verdicts[1..])
  }

  function Values(works: seq<Work>): seq<Item>
    reads works
  {
    seq(|works|, i requires 0 <= i < |works| reads works => works[i].Value())
  }

  // The work is rolled twice, and cloned in between.
  method RollAround(work: Work) returns (clone: Work)
    modifies work
    ensures fresh(clone) && clone.Value() == Cloned(Rolled(old(work.Value())))
    ensures work.Value() == Rolled(Rolled(old(work.Value())))
  {
    work.RollWork();
    clone := new Work.MakeClone(work);
    work.RollWork();
  }

  // clone_available: rolls the first rollable staged work twice around making a clone of it.  The
  // clone is then staged.
  method CloneAvailableOf(staged: seq<Work>, stagedRollable: int, verdicts: seq<bool>) returns (clone: Work?)
    requires |verdicts| == |staged|
    requires forall i, j :: 0 <= i < j < |staged| ==> staged[i] != staged[j]
    modifies staged
    ensures var works := old(Values(staged));
            var k := FirstRollable(works, verdicts);
            if stagedRollable == 0 || k == |staged|
            then clone == null && Values(staged) == works
            else clone != null && clone !in staged &&
                 var f := Called(Family(works[k], []), CloneAvailable(verdicts[k]));
                 Values(staged) == works[k := f.master] && [clone.Value()] == f.issued
  {
    clone := null;
    ghost var works := Values(staged);
    if stagedRollable == 0 { return; }
    var i := 0;
    while i < |staged|
      invariant 0 <= i <= |staged|
      invariant clone == null && Values(staged) == works
      invariant forall j :: 0 <= j < i ==> !CanRoll(works[j], verdicts[j])
    {
      var work := staged[i];
      assert works[i] == work.Value();
      if CanRoll(work.Value(), verdicts[i]) {
        clone := RollAround(work);
        assert Values(staged) == works[i := Rolled(Rolled(works[i]))];
        return;
      }
      i := i + 1;
    }
  }

  // clone_work: `staged` are the works it stages, in order; `result` is what it returns.
  method CloneWorkOf(work: Work, mrs: int, verdicts: seq<bool>) returns (result: Work, staged: seq<Work>)
    modifies work
    ensures old(work.Value()).clone ==> result == work
    ensures var f := Called(Family(old(work.Value()), []), CloneWork(mrs, verdicts));
            && work.Value() == f.master
            && if f.issued == [] then result == work && staged == []
               else result != work && staged != [] && staged[|staged| - 1] == work &&
                    Values(staged[..|staged| - 1]) + [result.Value()] == f.issued
  {
    staged := [];
    if mrs < 1 { return work, staged; }
    ghost var start := work.Value();
    var cloned, left, n := false, mrs, 0;
    var workClone := new Work.MakeClone(work);
    ghost var issued: seq<Item> := [];
    ghost var all := CloneLoop(start, workClone.Value(), mrs, verdicts);
    while left > 0 && n < |verdicts| && CanRoll(work.Value(), verdicts[n])
      invariant 0 <= left <= mrs && 0 <= n <= |verdicts|
      invariant work !in staged && workClone !in staged && workClone != work && fresh(workClone)
      invariant forall w :: w in staged ==> fresh(w)
      invariant cloned <==> staged != []
      invariant (!cloned || start.clone) ==> !cloned && work.Value() == start
      invariant Values(staged) == issued
      invariant all == Issued(issued, CloneLoop(work.Value(), workClone.Value(), left, verdicts[n..]))
      decreases left
    {
      IssuedNext(issued, work.Value(), workClone.Value(), left, verdicts, n);
      staged, issued := staged + [workClone], issued + [workClone.Value()];
      workClone := RollAround(work);
      cloned := true;
      left, n := left - 1, n + 1;
    }
    assert issued + [] == issued;
    if cloned {
      assert (staged + [work])[..|staged|] == staged;
      return workClone, staged + [work];
    }
    result := work;
  }

  // The loop's result with clones handed out before.
  function Issued(before: seq<Item>, r: Loop): Loop { r.(staged := before + r.staged) }

  lemma IssuedNext(issued: seq<Item>, w: Item, last: Item, left: int, verdicts: seq<bool>, n: nat)
    requires left > 0 && n < |verdicts| && CanRoll(w, verdicts[n])
    ensures Issued(issued, CloneLoop(w, last, left, verdicts[n..]))
         == Issued(issued + [last], CloneLoop(Rolled(Rolled(w)), Cloned(Rolled(w)), left - 1, verdicts[n + 1..]))
  {
    DropNext(verdicts, n);
    var r := CloneLoop(Rolled(Rolled(w)), Cloned(Rolled(w)), left - 1, verdicts[n + 1..]);
    JoinAssociative(issued, [last], r.staged);
  }
}
