// cglock: a write-biased lock made of a mutex and a read-write lock, used by any number of
// threads.  Each atomic step takes or releases one of the two.

module CgLock {

  type Tid = nat

  // Where a thread is.  The names say what it does next or where it rests.
  datatype Pc =
    | Idle
    // cg_rlock: mutex, read lock, release the mutex
    | ReadWantsMutex | ReadWantsRd | ReadDropsMutex | Reading
    // cg_wlock and cg_wunlock: mutex, write lock; write lock and mutex released in turn
    | WriteWantsMutex | WriteWantsWr | Writing | WriteDropsMutex
    // cg_ilock; then cg_ulock (write lock) or cg_dlock (read lock, release the mutex)
    | InterWantsMutex | Intermediate | UpgradeWantsWr | DowngradeWantsRd | DowngradeDropsMutex

  datatype Lock = Lock(mutex: set<Tid>, readers: set<Tid>, writers: set<Tid>)

  datatype Sys = Sys(lock: Lock, pcs: seq<Pc>)

  function Initial(n: nat): Sys
  {
    Sys(Lock({}, {}, {}), seq(n, i => Idle))
  }

  // The choices of a thread: what to lock next, and whether an intermediate lock goes up or down.
  datatype Choice = ToRead | ToWrite | ToInter | GoUp | GoDown

  // ---------- the atomic steps ----------

  predicate WaitsForMutex(pc: Pc) { pc == ReadWantsMutex || pc == WriteWantsMutex || pc == InterWantsMutex }

  predicate WaitsForRd(pc: Pc) { pc == ReadWantsRd || pc == DowngradeWantsRd }

  predicate WaitsForWr(pc: Pc) { pc == WriteWantsWr || pc == UpgradeWantsWr }

  // Some thread is blocked in, or about to enter, a write lock call.
  predicate WriterWaits(s: Sys) { exists t :: 0 <= t < |s.pcs| && WaitsForWr(s.pcs[t]) }

  // When a thread's step can be taken.  The read lock is given the strictest reading POSIX
  // allows: it also blocks while a writer is waiting.
  predicate Enabled(s: Sys, t: Tid)
    requires t < |s.pcs|
  {
    if WaitsForMutex(s.pcs[t]) then s.lock.mutex == {}
    else if WaitsForRd(s.pcs[t]) then s.lock.writers == {} && !WriterWaits(s)
    else if WaitsForWr(s.pcs[t]) then s.lock.writers == {} && s.lock.readers == {}
    else true
  }

  function NextPc(pc: Pc, choice: Choice): Pc
  {
    match pc
    case Idle =>
      if choice == ToRead then ReadWantsMutex
      else if choice == ToWrite then WriteWantsMutex
      else if choice == ToInter then InterWantsMutex
      else Idle
    case ReadWantsMutex => ReadWantsRd
    case ReadWantsRd => ReadDropsMutex
    case ReadDropsMutex => Reading
    case Reading => Idle
    case WriteWantsMutex => WriteWantsWr
    case WriteWantsWr => Writing
    case Writing => WriteDropsMutex
    case WriteDropsMutex => Idle
    case InterWantsMutex => Intermediate
    case Intermediate =>
      if choice == GoUp then UpgradeWantsWr
      else if choice == GoDown then DowngradeWantsRd
      else Intermediate
    case UpgradeWantsWr => Writing
    case DowngradeWantsRd => DowngradeDropsMutex
    case DowngradeDropsMutex => Reading
  }

  function NextLock(l: Lock, t: Tid, pc: Pc): Lock
  {
    if WaitsForMutex(pc) then l.(mutex := l.mutex + {t})
    else if WaitsForRd(pc) then l.(readers := l.readers + {t})
    else if WaitsForWr(pc) then l.(writers := l.writers + {t})
    else if pc == ReadDropsMutex || pc == DowngradeDropsMutex || pc == WriteDropsMutex then
      l.(mutex := l.mutex - {t})
    else if pc == Reading then l.(readers := l.readers - {t})
    else if pc == Writing then l.(writers := l.writers - {t})
    else l
  }

  function Step(s: Sys, t: Tid, choice: Choice): Sys
    requires t < |s.pcs|
  {
    Sys(NextLock(s.lock, t, s.pcs[t]), s.pcs[t := NextPc(s.pcs[t], choice)])
  }

  // ---------- who holds what ----------

  predicate HoldsMutex(pc: Pc)
  {
    pc == ReadWantsRd || pc == ReadDropsMutex || pc == WriteWantsWr || pc == Writing || pc == WriteDropsMutex
    || pc == Intermediate || pc == UpgradeWantsWr || pc == DowngradeWantsRd || pc == DowngradeDropsMutex
  }

  predicate HoldsRd(pc: Pc) { pc == Reading || pc == ReadDropsMutex || pc == DowngradeDropsMutex }

  predicate HoldsWr(pc: Pc) { pc == Writing }

  ghost predicate Inv(s: Sys)
  {
    && (forall t: Tid :: t in s.lock.mutex <==> t < |s.pcs| && HoldsMutex(s.pcs[t]))
    && (forall t: Tid :: t in s.lock.readers <==> t < |s.pcs| && HoldsRd(s.pcs[t]))
    && (forall t: Tid :: t in s.lock.writers <==> t < |s.pcs| && HoldsWr(s.pcs[t]))
    && (forall t, u :: t in s.lock.mutex && u in s.lock.mutex ==> t == u)
    && (s.lock.writers != {} ==> s.lock.readers == {})
  }

  lemma InvInitial(n: nat)
    ensures Inv(Initial(n))
  {
  }

  lemma InvStep(s: Sys, t: Tid, choice: Choice)
    requires Inv(s) && t < |s.pcs| && Enabled(s, t)
    ensures Inv(Step(s, t, choice))
  {
    var s' := Step(s, t, choice);
    var pc, pc' := s.pcs[t], s'.pcs[t];
    forall u: Tid
      ensures u in s'.lock.mutex <==> u < |s'.pcs| && HoldsMutex(s'.pcs[u])
      ensures u in s'.lock.readers <==> u < |s'.pcs| && HoldsRd(s'.pcs[u])
      ensures u in s'.lock.writers <==> u < |s'.pcs| && HoldsWr(s'.pcs[u])
    {
      if u < |s.pcs| && u != t { assert s'.pcs[u] == s.pcs[u]; }
    }
    if s'.lock.writers != {} && s.lock.writers == {} {
      assert s'.lock.readers == s.lock.readers == {};
    }
  }

  // ---------- runs ----------

  datatype Move = Move(t: Tid, choice: Choice)

  ghost predicate IsRun(run: seq<Sys>, moves: seq<Move>)
  {
    |run| == |moves| + 1 &&
    forall i :: 0 <= i < |moves| ==>
      moves[i].t < |run[i].pcs| && Enabled(run[i], moves[i].t) &&
      run[i + 1] == Step(run[i], moves[i].t, moves[i].choice)
  }

  lemma {:induction false} InvRun(run: seq<Sys>, moves: seq<Move>)
    requires IsRun(run, moves) && Inv(run[0])
    ensures Inv(run[|moves|]) && |run[|moves|].pcs| == |run[0].pcs|
    decreases |moves|
  {
    if moves != [] {
      assert run[0 + 1] == Step(run[0], moves[0].t, moves[0].choice);
      InvStep(run[0], moves[0].t, moves[0].choice);
      InvRun(run[1..], moves[1..]);
    }
  }

  // ---------- safety ----------

  // A thread between taking and giving back an intermediate lock.
  predicate InIntermediate(pc: Pc)
  {
    pc == Intermediate || pc == UpgradeWantsWr || pc == DowngradeWantsRd
  }

  // In every reachable state with any number of threads: a writer excludes readers, intermediates
  // and other writers; an intermediate excludes other intermediates and writers; and the holder
  // of the write lock owns the mutex.
  lemma Exclusion(n: nat, run: seq<Sys>, moves: seq<Move>, t: Tid, u: Tid)
    requires IsRun(run, moves) && run[0] == Initial(n) && t < n && u < n && t != u
    ensures var pcs := run[|moves|].pcs;
            && |pcs| == n
            && (pcs[t] == Writing ==> !HoldsRd(pcs[u]) && !InIntermediate(pcs[u]) && pcs[u] != Writing)
            && (InIntermediate(pcs[t]) ==> !InIntermediate(pcs[u]) && pcs[u] != Writing)
            && (pcs[t] == Writing ==> run[|moves|].lock.mutex == {t} && run[|moves|].lock.writers == {t})
  {
    InvInitial(n);
    InvRun(run, moves);
    var s := run[|moves|];
    if HoldsMutex(s.pcs[t]) { OwnerAlone(s, t); }
  }

  // ---------- what a call takes and gives back ----------

  // What one thread holds of the lock.
  datatype Held = Held(mutex: bool, reader: bool, writer: bool)

  function HeldBy(l: Lock, t: Tid): Held { Held(t in l.mutex, t in l.readers, t in l.writers) }

  // The choices of the moves of thread t.
  function OwnChoices(moves: seq<Move>, t: Tid): seq<Choice>
  {
    if moves == [] then []
    else (if moves[0].t == t then [moves[0].choice] else []) + OwnChoices(moves[1..], t)
  }

  const NOTHING := Held(false, false, false)
  const MUTEX := Held(true, false, false)
  const READ := Held(false, true, false)
  const MUTEX_AND_READ := Held(true, true, false)
  const MUTEX_AND_WRITE := Held(true, false, true)

  // What the calls say a thread holds after its own moves, the first of which is made outside any
  // lock.  A call is one move and each of its locks and unlocks is another.
  function HeldAfter(own: seq<Choice>): Held
  {
    if own == [] then NOTHING
    else match own[0]
      case ToRead =>
        if |own| < 5 then [NOTHING, MUTEX, MUTEX_AND_READ, READ][|own| - 1] else HeldAfter(own[5..])
      case ToWrite =>
        if |own| < 5 then [NOTHING, MUTEX, MUTEX_AND_WRITE, MUTEX][|own| - 1] else HeldAfter(own[5..])
      case ToInter =>
        if |own| < 2 then NOTHING else HeldFromInter(own[2..])
      case _ => HeldAfter(own[1..])
  }

  // The same from the moment the intermediate lock is held.
  function HeldFromInter(own: seq<Choice>): Held
  {
    if own == [] then MUTEX
    else match own[0]
      case GoUp =>
        if |own| < 4 then [MUTEX, MUTEX_AND_WRITE, MUTEX][|own| - 1] else HeldAfter(own[4..])
      case GoDown =>
        if |own| < 4 then [MUTEX, MUTEX_AND_READ, READ][|own| - 1] else HeldAfter(own[4..])
      case _ => HeldFromInter(own[1..])
  }

  // In every reachable state each thread holds what its own calls say, whatever the others do.
  lemma HeldIsCalled(n: nat, run: seq<Sys>, moves: seq<Move>, t: Tid)
    requires IsRun(run, moves) && run[0] == Initial(n) && t < n
    ensures HeldBy(run[|moves|].lock, t) == HeldAfter(OwnChoices(moves, t))
  {
    InvInitial(n);
    InvRun(run, moves);
    OwnPc(run, moves, t);
    HeldFromIdle(OwnChoices(moves, t));
  }

  // A thread outside any lock that makes its own moves, others in between: three moves of cg_wlock
  // end with the write lock and the mutex, four of cg_rlock with the read lock alone, two of
  // cg_ilock with the mutex alone; an upgrade ends like cg_wlock, a downgrade like cg_rlock; and
  // nothing is left after the unlock.
  lemma CallsTake(n: nat, run: seq<Sys>, moves: seq<Move>, t: Tid)
    requires IsRun(run, moves) && run[0] == Initial(n) && t < n
    ensures var own, l := OwnChoices(moves, t), run[|moves|].lock;
            var m, r, w := t in l.mutex, t in l.readers, t in l.writers;
            && (|own| == 3 && own[0] == ToWrite ==> m && !r && w)
            && (|own| == 5 && own[0] == ToWrite ==> !m && !r && !w)
            && (|own| == 4 && own[0] == ToRead ==> !m && r && !w)
            && (|own| == 5 && own[0] == ToRead ==> !m && !r && !w)
            && (|own| == 2 && own[0] == ToInter ==> m && !r && !w)
            && (|own| == 4 && own[0] == ToInter && own[2] == GoUp ==> m && !r && w)
            && (|own| == 6 && own[0] == ToInter && own[2] == GoUp ==> !m && !r && !w)
            && (|own| == 5 && own[0] == ToInter && own[2] == GoDown ==> !m && r && !w)
            && (|own| == 6 && own[0] == ToInter && own[2] == GoDown ==> !m && !r && !w)
  {
    HeldIsCalled(n, run, moves, t);
    CallsHold(OwnChoices(moves, t));
  }

  lemma CallsHold(own: seq<Choice>)
    ensures var h := HeldAfter(own);
            && (|own| == 3 && own[0] == ToWrite ==> h == MUTEX_AND_WRITE)
            && (|own| == 5 && own[0] == ToWrite ==> h == NOTHING)
            && (|own| == 4 && own[0] == ToRead ==> h == READ)
            && (|own| == 5 && own[0] == ToRead ==> h == NOTHING)
            && (|own| == 2 && own[0] == ToInter ==> h == MUTEX)
            && (|own| == 4 && own[0] == ToInter && own[2] == GoUp ==> h == MUTEX_AND_WRITE)
            && (|own| == 6 && own[0] == ToInter && own[2] == GoUp ==> h == NOTHING)
            && (|own| == 5 && own[0] == ToInter && own[2] == GoDown ==> h == READ)
            && (|own| == 6 && own[0] == ToInter && own[2] == GoDown ==> h == NOTHING)
  {
    if |own| == 5 { assert own[5..] == []; }
    if |own| == 2 { assert own[2..] == []; }
    if |own| > 2 && own[0] == ToInter { InterHolds(own[2..]); }
  }

  lemma InterHolds(own: seq<Choice>)
    requires own != []
    ensures var h := HeldFromInter(own);
            && (|own| == 2 && own[0] == GoUp ==> h == MUTEX_AND_WRITE)
            && (|own| == 4 && own[0] == GoUp ==> h == NOTHING)
            && (|own| == 3 && own[0] == GoDown ==> h == READ)
            && (|own| == 4 && own[0] == GoDown ==> h == NOTHING)
  {
    if |own| == 4 { assert own[4..] == []; }
  }

  function PcAfter(pc: Pc, own: seq<Choice>): Pc
    decreases |own|
  {
    if own == [] then pc else PcAfter(NextPc(pc, own[0]), own[1..])
  }

  lemma {:induction false} OwnPc(run: seq<Sys>, moves: seq<Move>, t: Tid)
    requires IsRun(run, moves) && t < |run[0].pcs|
    ensures t < |run[|moves|].pcs|
    ensures run[|moves|].pcs[t] == PcAfter(run[0].pcs[t], OwnChoices(moves, t))
    decreases |moves|
  {
    if moves != [] {
      IsRunTail(run, moves);
      OwnPc(run[1..], moves[1..], t);
      var later := OwnChoices(moves[1..], t);
      if moves[0].t == t {
        assert ([moves[0].choice] + later)[1..] == later;
      } else {
        assert [] + later == later;
      }
    }
  }

  lemma OneOwnMove(pc: Pc, own: seq<Choice>, k: nat)
    requires k < |own|
    ensures PcAfter(pc, own[k..]) == PcAfter(NextPc(pc, own[k]), own[k + 1..])
  {
    assert own[k..][1..] == own[k + 1..];
  }

  predicate Holds(pc: Pc, held: Held)
  {
    HoldsMutex(pc) == held.mutex && HoldsRd(pc) == held.reader && HoldsWr(pc) == held.writer
  }

  // Up to five moves along the way of a call.
  lemma MovesAlong(way: seq<Pc>, own: seq<Choice>, k: nat)
    requires k < |way| && k <= |own|
    requires forall i :: 0 <= i < k ==> way[i + 1] == NextPc(way[i], own[i])
    ensures PcAfter(way[0], own) == PcAfter(way[k], own[k..])
  {
    if k == 0 {
      assert own[0..] == own;
    } else {
      MovesAlong(way, own, k - 1);
      OneOwnMove(way[k - 1], own, k - 1);
      assert way[(k - 1) + 1] == NextPc(way[k - 1], own[k - 1]);
    }
  }

  lemma {:induction false} HeldFromIdle(own: seq<Choice>)
    ensures Holds(PcAfter(Idle, own), HeldAfter(own))
    decreases |own|
  {
    if own != [] {
      var k := if |own| < 5 then |own| else 5;
      match own[0]
      case ToRead =>
        MovesAlong([Idle, ReadWantsMutex, ReadWantsRd, ReadDropsMutex, Reading, Idle], own, k);
        if k == 5 { HeldFromIdle(own[5..]); }
      case ToWrite =>
        MovesAlong([Idle, WriteWantsMutex, WriteWantsWr, Writing, WriteDropsMutex, Idle], own, k);
        if k == 5 { HeldFromIdle(own[5..]); }
      case ToInter =>
        MovesAlong([Idle, InterWantsMutex, Intermediate], own, if |own| < 2 then |own| else 2);
        if |own| >= 2 { HeldAfterInter(own[2..]); }
      case _ =>
        HeldFromIdle(own[1..]);
    }
  }

  lemma {:induction false} HeldAfterInter(own: seq<Choice>)
    ensures Holds(PcAfter(Intermediate, own), HeldFromInter(own))
    decreases |own|
  {
    if own != [] {
      var k := if |own| < 4 then |own| else 4;
      match own[0]
      case GoUp =>
        MovesAlong([Intermediate, UpgradeWantsWr, Writing, WriteDropsMutex, Idle], own, k);
        if k == 4 { HeldFromIdle(own[4..]); }
      case GoDown =>
        MovesAlong([Intermediate, DowngradeWantsRd, DowngradeDropsMutex, Reading, Idle], own, k);
        if k == 4 { HeldFromIdle(own[4..]); }
      case _ =>
        HeldAfterInter(own[1..]);
    }
  }

  // ---------- progress ----------

  // Thread t can make these moves one after the other, and then the lock is `end`.
  ghost predicate Goes(s: Sys, t: Tid, choices: seq<Choice>, end: Lock)
    decreases |choices|
  {
    if choices == [] then s.lock == end
    else t < |s.pcs| && Enabled(s, t) && Goes(Step(s, t, choices[0]), t, choices[1..], end)
  }

  // With the mutex free nothing holds up a reader, other readers or not, nor an intermediate lock
  // and its downgrade; without readers nothing holds up a writer.
  lemma NothingInTheWay(s: Sys, t: Tid, a: Choice, b: Choice, c: Choice)
    requires Inv(s) && t < |s.pcs| && s.pcs[t] == Idle && s.lock.mutex == {}
    ensures var l, joined := s.lock, s.lock.(readers := s.lock.readers + {t});
            && Goes(s, t, [ToRead, a, b, c], joined)
            && Goes(s, t, [ToInter, a], l.(mutex := {t}))
            && Goes(s, t, [ToInter, a, GoDown, b, c], joined)
            && (l.readers == {} ==> Goes(s, t, [ToWrite, a, b], Lock({t}, {}, {t})))
            && (l.readers == {} ==> Goes(s, t, [ToInter, a, GoUp, b], Lock({t}, {}, {t})))
  {
    assert s.lock.writers <= s.lock.mutex;
    ReaderGoes(s, t, a, b, c);
    InterCallsGo(s, t, a, b, c);
    if s.lock.readers == {} {
      WriterGoes(s, t, a, b);
      UpgradeGoes(s, t, a, b);
    }
  }

  lemma GoesOn(s: Sys, t: Tid, choices: seq<Choice>, end: Lock)
    requires t < |s.pcs| && choices != [] && Enabled(s, t)
    requires Goes(Step(s, t, choices[0]), t, choices[1..], end)
    ensures Goes(s, t, choices, end)
  {
  }

  // A thread with the mutex and about to take the read lock takes it and gives the mutex back.
  lemma ReadLockGoes(s: Sys, t: Tid, b: Choice, c: Choice)
    requires Inv(s) && t < |s.pcs| && WaitsForRd(s.pcs[t])
    ensures Goes(s, t, [b, c], s.lock.(mutex := {}, readers := s.lock.readers + {t}))
  {
    OwnerAlone(s, t);
    ReadLockNeverBlocks(s, t);
    var s1 := Step(s, t, b);
    var s2 := Step(s1, t, c);
    assert s2.lock == s.lock.(mutex := {}, readers := s.lock.readers + {t});
    assert [b, c][1..] == [c] && [c][1..] == [];
    GoesOn(s1, t, [c], s2.lock);
    GoesOn(s, t, [b, c], s2.lock);
  }

  lemma ReaderGoes(s: Sys, t: Tid, a: Choice, b: Choice, c: Choice)
    requires Inv(s) && t < |s.pcs| && s.pcs[t] == Idle && s.lock.mutex == {}
    ensures Goes(s, t, [ToRead, a, b, c], s.lock.(readers := s.lock.readers + {t}))
  {
    InvStep(s, t, ToRead);
    var s1 := Step(s, t, ToRead);
    InvStep(s1, t, a);
    ReadLockGoes(Step(s1, t, a), t, b, c);
    assert [ToRead, a, b, c][1..] == [a, b, c] && [a, b, c][1..] == [b, c];
    var end := s.lock.(readers := s.lock.readers + {t});
    GoesOn(s1, t, [a, b, c], end);
    GoesOn(s, t, [ToRead, a, b, c], end);
  }

  lemma InterGoes(s: Sys, t: Tid, a: Choice, choices: seq<Choice>, end: Lock)
    requires Inv(s) && t < |s.pcs| && s.pcs[t] == Idle && s.lock.mutex == {}
    requires Goes(Step(Step(s, t, ToInter), t, a), t, choices, end)
    ensures Goes(s, t, [ToInter, a] + choices, end)
  {
    var s1, own := Step(s, t, ToInter), [a] + choices;
    assert own[1..] == choices;
    GoesOn(s1, t, own, end);
    assert ([ToInter] + own)[1..] == own && [ToInter] + own == [ToInter, a] + choices;
    GoesOn(s, t, [ToInter] + own, end);
  }

  lemma DowngradeGoes(s: Sys, t: Tid, b: Choice, c: Choice)
    requires Inv(s) && t < |s.pcs| && s.pcs[t] == Intermediate
    ensures Goes(s, t, [GoDown, b, c], s.lock.(mutex := {}, readers := s.lock.readers + {t}))
  {
    InvStep(s, t, GoDown);
    ReadLockGoes(Step(s, t, GoDown), t, b, c);
    assert [GoDown, b, c][1..] == [b, c];
    GoesOn(s, t, [GoDown, b, c], s.lock.(mutex := {}, readers := s.lock.readers + {t}));
  }

  lemma InterCallsGo(s: Sys, t: Tid, a: Choice, b: Choice, c: Choice)
    requires Inv(s) && t < |s.pcs| && s.pcs[t] == Idle && s.lock.mutex == {}
    ensures Goes(s, t, [ToInter, a], s.lock.(mutex := {t}))
    ensures Goes(s, t, [ToInter, a, GoDown, b, c], s.lock.(readers := s.lock.readers + {t}))
  {
    InvStep(s, t, ToInter);
    InvStep(Step(s, t, ToInter), t, a);
    var s2 := Step(Step(s, t, ToInter), t, a);
    assert s2.lock == s.lock.(mutex := {t});
    InterGoes(s, t, a, [], s2.lock);
    assert [ToInter, a] + [] == [ToInter, a];
    DowngradeGoes(s2, t, b, c);
    InterGoes(s, t, a, [GoDown, b, c], s.lock.(readers := s.lock.readers + {t}));
    assert [ToInter, a] + [GoDown, b, c] == [ToInter, a, GoDown, b, c];
  }

  // A thread about to take the write lock with nobody reading or writing takes it.
  lemma WriteLockGoes(s: Sys, t: Tid, b: Choice)
    requires t < |s.pcs| && WaitsForWr(s.pcs[t]) && s.lock == Lock({t}, {}, {})
    ensures Goes(s, t, [b], Lock({t}, {}, {t}))
  {
    assert Step(s, t, b).lock == Lock({t}, {}, {t}) && [b][1..] == [];
    GoesOn(s, t, [b], Lock({t}, {}, {t}));
  }

  lemma WriterGoes(s: Sys, t: Tid, a: Choice, b: Choice)
    requires t < |s.pcs| && s.pcs[t] == Idle && s.lock == Lock({}, {}, {})
    ensures Goes(s, t, [ToWrite, a, b], Lock({t}, {}, {t}))
  {
    var s1 := Step(s, t, ToWrite);
    WriteLockGoes(Step(s1, t, a), t, b);
    assert [ToWrite, a, b][1..] == [a, b] && [a, b][1..] == [b];
    GoesOn(s1, t, [a, b], Lock({t}, {}, {t}));
    GoesOn(s, t, [ToWrite, a, b], Lock({t}, {}, {t}));
  }

  lemma UpgradeGoes(s: Sys, t: Tid, a: Choice, b: Choice)
    requires Inv(s) && t < |s.pcs| && s.pcs[t] == Idle && s.lock == Lock({}, {}, {})
    ensures Goes(s, t, [ToInter, a, GoUp, b], Lock({t}, {}, {t}))
  {
    var s2 := Step(Step(s, t, ToInter), t, a);
    WriteLockGoes(Step(s2, t, GoUp), t, b);
    assert [GoUp, b][1..] == [b];
    GoesOn(s2, t, [GoUp, b], Lock({t}, {}, {t}));
    InterGoes(s, t, a, [GoUp, b], Lock({t}, {}, {t}));
    assert [ToInter, a] + [GoUp, b] == [ToInter, a, GoUp, b];
  }

  // The owner of the mutex is alone with it, and nobody writes unless it does.
  lemma OwnerAlone(s: Sys, t: Tid)
    requires Inv(s) && t < |s.pcs| && HoldsMutex(s.pcs[t])
    ensures s.lock.mutex == {t}
    ensures forall u :: 0 <= u < |s.pcs| && u != t ==> !HoldsMutex(s.pcs[u])
    ensures s.lock.writers == if HoldsWr(s.pcs[t]) then {t} else {}
  {
    assert t in s.lock.mutex;
    assert s.lock.writers <= s.lock.mutex;
  }

  // The read lock inside cg_rlock and cg_dlock never blocks: with the mutex in hand nobody can
  // be writing or waiting to write.
  lemma ReadLockNeverBlocks(s: Sys, t: Tid)
    requires Inv(s) && t < |s.pcs| && WaitsForRd(s.pcs[t])
    ensures Enabled(s, t)
  {
    OwnerAlone(s, t);
    assert forall u :: 0 <= u < |s.pcs| && WaitsForWr(s.pcs[u]) ==> HoldsMutex(s.pcs[u]);
  }

  // While a writer that owns the mutex waits for the read-write lock, no step of another thread
  // adds a reader or a writer, or moves the writer; only readers leave.
  lemma ReadersOnlyLeave(s: Sys, w: Tid, t: Tid, choice: Choice)
    requires Inv(s) && w < |s.pcs| && WaitsForWr(s.pcs[w])
    requires t < |s.pcs| && t != w && Enabled(s, t)
    ensures var s' := Step(s, t, choice);
            && s'.lock.readers == (if s.pcs[t] == Reading then s.lock.readers - {t} else s.lock.readers)
            && s'.lock.writers == s.lock.writers == {}
            && s'.lock.mutex == s.lock.mutex && s'.pcs[w] == s.pcs[w]
  {
    OwnerAlone(s, w);
    if s.pcs[t] != Reading { assert t !in s.lock.readers; }
  }

  // How many moves of a run are unlocks of readers.
  function ReaderExits(run: seq<Sys>, moves: seq<Move>): nat
    requires |run| == |moves| + 1
  {
    if moves == [] then 0 else ReaderExit(run[0], moves[0].t) + ReaderExits(run[1..], moves[1..])
  }

  function ReaderExit(s: Sys, t: Tid): nat { if t < |s.pcs| && s.pcs[t] == Reading then 1 else 0 }

  lemma WaitingStep(s: Sys, w: Tid, t: Tid, choice: Choice)
    requires Inv(s) && w < |s.pcs| && WaitsForWr(s.pcs[w])
    requires t < |s.pcs| && t != w && Enabled(s, t)
    ensures var s' := Step(s, t, choice);
            Inv(s') && |s'.pcs| == |s.pcs| && s'.pcs[w] == s.pcs[w] &&
            s'.lock.readers <= s.lock.readers && |s'.lock.readers| + ReaderExit(s, t) == |s.lock.readers|
  {
    ReadersOnlyLeave(s, w, t, choice);
    InvStep(s, t, choice);
    if s.pcs[t] == Reading { assert t in s.lock.readers; }
  }

  lemma IsRunTail(run: seq<Sys>, moves: seq<Move>)
    requires IsRun(run, moves) && moves != []
    ensures IsRun(run[1..], moves[1..]) && run[1] == Step(run[0], moves[0].t, moves[0].choice)
    ensures run[1..][0] == run[1] && run[1..][|moves[1..]|] == run[|moves|]
    ensures moves[0].t < |run[0].pcs| && Enabled(run[0], moves[0].t)
  {
    assert run[0 + 1] == Step(run[0], moves[0].t, moves[0].choice);
    forall i | 0 <= i < |moves[1..]|
      ensures moves[1..][i].t < |run[1..][i].pcs| && Enabled(run[1..][i], moves[1..][i].t) &&
              run[1..][i + 1] == Step(run[1..][i], moves[1..][i].t, moves[1..][i].choice)
    {
      assert run[1..][i] == run[i + 1] && moves[1..][i] == moves[i + 1] && run[1..][i + 1] == run[(i + 1) + 1];
    }
  }

  // Moves of other threads.
  predicate NotBy(moves: seq<Move>, w: Tid) { moves == [] || (moves[0].t != w && NotBy(moves[1..], w)) }

  // Over any stretch in which the writer does not move, the readers at its beginning pay for the
  // readers that leave.
  lemma {:induction false} ReadersPay(run: seq<Sys>, moves: seq<Move>, w: Tid)
    requires IsRun(run, moves) && Inv(run[0]) && w < |run[0].pcs| && WaitsForWr(run[0].pcs[w])
    requires NotBy(moves, w)
    ensures var s := run[|moves|];
            && Inv(s) && |s.pcs| == |run[0].pcs| && s.pcs[w] == run[0].pcs[w]
            && s.lock.readers <= run[0].lock.readers
            && |s.lock.readers| + ReaderExits(run, moves) == |run[0].lock.readers|
    decreases |moves|
  {
    if moves != [] {
      IsRunTail(run, moves);
      WaitingStep(run[0], w, moves[0].t, moves[0].choice);
      ReadersPay(run[1..], moves[1..], w);
    }
  }

  // Over any stretch in which the writer does not move, the set of readers only
  // shrinks, and after as many exits as there were readers the writer's lock is free.
  lemma WriterGetsIn(run: seq<Sys>, moves: seq<Move>, w: Tid)
    requires IsRun(run, moves) && Inv(run[0]) && w < |run[0].pcs| && WaitsForWr(run[0].pcs[w])
    requires NotBy(moves, w)
    ensures var s := run[|moves|];
            && |s.pcs| == |run[0].pcs| && s.pcs[w] == run[0].pcs[w]
            && s.lock.readers <= run[0].lock.readers
            && |s.lock.readers| + ReaderExits(run, moves) == |run[0].lock.readers|
            && (ReaderExits(run, moves) == |run[0].lock.readers| ==> Enabled(s, w))
  {
    ReadersPay(run, moves, w);
    OwnerAlone(run[|moves|], w);
  }

  // What a thread can still do while a writer waits with the mutex: a reader can leave and then
  // queue up, an idle thread can queue up, and one that queues up waits.
  function MovesLeft(pc: Pc): nat { if pc == Reading then 2 else if pc == Idle then 1 else 0 }

  function AllMovesLeft(pcs: seq<Pc>): nat
  {
    if pcs == [] then 0 else AllMovesLeft(pcs[..|pcs| - 1]) + MovesLeft(pcs[|pcs| - 1])
  }

  lemma {:induction false} MovesLeftUpdate(pcs: seq<Pc>, k: nat, pc: Pc)
    requires k < |pcs|
    ensures AllMovesLeft(pcs[k := pc]) == AllMovesLeft(pcs) - MovesLeft(pcs[k]) + MovesLeft(pc)
    decreases |pcs|
  {
    var front := pcs[..|pcs| - 1];
    if k < |front| {
      assert pcs[k := pc][..|pcs| - 1] == front[k := pc];
      MovesLeftUpdate(front, k, pc);
    } else {
      assert pcs[k := pc][..|pcs| - 1] == front;
    }
  }

  lemma {:induction false} MovesLeftBounds(pcs: seq<Pc>, k: nat)
    requires k < |pcs|
    ensures MovesLeft(pcs[k]) <= AllMovesLeft(pcs) <= 2 * (|pcs| - 1) + MovesLeft(pcs[k])
    decreases |pcs|
  {
    var front := pcs[..|pcs| - 1];
    if k < |front| {
      MovesLeftBounds(front, k);
    } else if front != [] {
      MovesLeftBounds(front, 0);
    }
  }

  predicate Stutters(s: Sys, m: Move) { m.t < |s.pcs| && Step(s, m.t, m.choice) == s }

  function RealMoves(run: seq<Sys>, moves: seq<Move>): nat
    requires |run| == |moves| + 1
  {
    if moves == [] then 0 else (if Stutters(run[0], moves[0]) then 0 else 1) + RealMoves(run[1..], moves[1..])
  }

  // While a writer waits with the mutex, every real move of another thread uses one up.
  lemma WaitingCosts(s: Sys, w: Tid, m: Move)
    requires Inv(s) && w < |s.pcs| && WaitsForWr(s.pcs[w])
    requires m.t < |s.pcs| && m.t != w && Enabled(s, m.t)
    ensures AllMovesLeft(Step(s, m.t, m.choice).pcs) == AllMovesLeft(s.pcs) - if Stutters(s, m) then 0 else 1
  {
    OwnerAlone(s, w);
    var pc, pc' := s.pcs[m.t], NextPc(s.pcs[m.t], m.choice);
    assert pc == Idle || pc == Reading;
    MovesLeftUpdate(s.pcs, m.t, pc');
    if pc == Idle && pc' == Idle { assert s.pcs[m.t := pc'] == s.pcs; }
  }

  lemma {:induction false} WaitingUsesUp(run: seq<Sys>, moves: seq<Move>, w: Tid)
    requires IsRun(run, moves) && Inv(run[0]) && w < |run[0].pcs| && WaitsForWr(run[0].pcs[w])
    requires NotBy(moves, w)
    ensures RealMoves(run, moves) + AllMovesLeft(run[|moves|].pcs) == AllMovesLeft(run[0].pcs)
    decreases |moves|
  {
    if moves != [] {
      IsRunTail(run, moves);
      WaitingStep(run[0], w, moves[0].t, moves[0].choice);
      WaitingCosts(run[0], w, moves[0]);
      WaitingUsesUp(run[1..], moves[1..], w);
    }
  }

  // In any stretch in which the waiting writer does not move, n threads together make at most
  // 2 (n - 1) real moves, and after all but one of them the write lock is free.  Until then a
  // reader can leave.
  lemma WriterWaitsBounded(run: seq<Sys>, moves: seq<Move>, w: Tid) returns (u: Tid)
    requires IsRun(run, moves) && Inv(run[0]) && w < |run[0].pcs| && WaitsForWr(run[0].pcs[w])
    requires NotBy(moves, w)
    ensures var n, s := |run[0].pcs|, run[|moves|];
            && |s.pcs| == n && RealMoves(run, moves) <= 2 * (n - 1)
            && (RealMoves(run, moves) >= 2 * (n - 1) - 1 ==> Enabled(s, w))
            && (!Enabled(s, w) ==> u < n && s.pcs[u] == Reading && Enabled(s, u))
  {
    var s := run[|moves|];
    ReadersPay(run, moves, w);
    WaitingUsesUp(run, moves, w);
    MovesLeftBounds(run[0].pcs, w);
    u := w;
    if !Enabled(s, w) {
      u := SomeReader(s, w);
      MovesLeftBounds(s.pcs, u);
    }
  }

  // What the waiting writer still waits for.
  lemma SomeReader(s: Sys, w: Tid) returns (u: Tid)
    requires Inv(s) && w < |s.pcs| && WaitsForWr(s.pcs[w]) && !Enabled(s, w)
    ensures u < |s.pcs| && s.pcs[u] == Reading && Enabled(s, u)
  {
    OwnerAlone(s, w);
    u :| u in s.lock.readers;
  }

  // No deadlock: in a state with a thread that is not idle, some thread that is not idle can move.
  lemma NoDeadlock(s: Sys, t: Tid) returns (u: Tid)
    requires Inv(s) && t < |s.pcs| && s.pcs[t] != Idle
    ensures u < |s.pcs| && s.pcs[u] != Idle && Enabled(s, u)
  {
    if Enabled(s, t) { return t; }
    if WaitsForRd(s.pcs[t]) { ReadLockNeverBlocks(s, t); return t; }
    var owner := t;
    if WaitsForMutex(s.pcs[t]) { owner :| owner in s.lock.mutex; }
    if Enabled(s, owner) { return owner; }
    if WaitsForRd(s.pcs[owner]) { ReadLockNeverBlocks(s, owner); return owner; }
    OwnerAlone(s, owner);
    u :| u in s.lock.readers;
  }

  // ---------- the lock object ----------

  // struct cglock and the threads that use it.
  class CgLockUsers {
    var mutex: set<Tid>
    var readers: set<Tid>
    var writers: set<Tid>
    var pcs: seq<Pc>

    ghost function State(): Sys
      reads this
    {
      Sys(Lock(mutex, readers, writers), pcs)
    }

    constructor CgLockInit(n: nat)
      ensures State() == Initial(n)
    {
      mutex, readers, writers := {}, {}, {};
      pcs := seq(n, i => Idle);
    }

    // Runs thread t up to its next step, or leaves it asleep if the step blocks.
    method Advance(t: Tid, choice: Choice) returns (moved: bool)
      requires t < |pcs| && Inv(State())
      modifies this
      ensures moved <==> Enabled(old(State()), t)
      ensures State() == if moved then Step(old(State()), t, choice) else old(State())
      ensures Inv(State())
    {
      var pc := pcs[t];
      moved := true;
      match pc {
        case ReadWantsMutex | WriteWantsMutex | InterWantsMutex =>
          if mutex == {} { mutex := mutex + {t}; } else { moved := false; }
        case ReadWantsRd | DowngradeWantsRd =>
          ReadLockNeverBlocks(State(), t);
          readers := readers + {t};
        case WriteWantsWr | UpgradeWantsWr =>
          if writers == {} && readers == {} { writers := writers + {t}; } else { moved := false; }
        case ReadDropsMutex | DowngradeDropsMutex | WriteDropsMutex =>
          mutex := mutex - {t};
        case Reading =>
          readers := readers - {t};
        case Writing =>
          writers := writers - {t};
        case Idle | Intermediate =>
      }
      if moved {
        InvStep(old(State()), t, choice);
        pcs := pcs[t := NextPc(pc, choice)];
      }
    }
  }
}
