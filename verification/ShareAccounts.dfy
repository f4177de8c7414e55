// The accounts of submitted shares: where each submission is and what the pools' counters say.
// Every region under one lock, and every update of a counter, is one step.

module ShareAccounts {

  // Where a submission is: in its thread (waiting for the stratum send to succeed, sent but not
  // entered in the table yet, or with the upstream call), in the table of stratum shares waiting
  // for an answer, or finished.
  datatype Fate = Sending(id: nat) | Sent(id: nat) | Upstream | Tabled(id: nat) | Accepted | Rejected | Stale

  datatype Kind = InThread | InTable | IsAccepted | IsRejected | IsStale

  datatype Share = Share(pool: nat, fate: Fate)

  datatype Totals = Totals(accepted: int, rejected: int, stale: int, sshares: int)

  // `table` maps the ids of stratum shares to their submissions; `issued` tells which submission
  // was given an id, its length being the next id.
  datatype State = State(ledger: seq<Share>, table: map<nat, nat>, issued: seq<nat>, totals: seq<Totals>)

  datatype How = Discarded | ByStratum | ByUpstream

  datatype Event =
    | Start(pool: nat, how: How)
    | Send(k: nat)
    | Enter(k: nat)
    | GiveUp(k: nat)
    | Result(k: nat, good: bool)
    | BecameStale(k: nat)
    | Response(connection: nat, id: nat, good: bool)
    | Clear(pool: nat)

  function KindOf(f: Fate): Kind
  {
    match f
    case Sending(_) => InThread
    case Sent(_) => InThread
    case Upstream => InThread
    case Tabled(_) => InTable
    case Accepted => IsAccepted
    case Rejected => IsRejected
    case Stale => IsStale
  }

  predicate HasId(f: Fate) { f.Sending? || f.Sent? || f.Tabled? }

  function Count(ledger: seq<Share>, p: nat, kind: Kind): nat
  {
    if ledger == [] then 0
    else Count(ledger[..|ledger| - 1], p, kind) + One(ledger[|ledger| - 1], p, kind)
  }

  function One(share: Share, p: nat, kind: Kind): nat
  {
    if share.pool == p && KindOf(share.fate) == kind then 1 else 0
  }

  function StartedBy(ledger: seq<Share>, p: nat): nat
  {
    if ledger == [] then 0
    else StartedBy(ledger[..|ledger| - 1], p) + if ledger[|ledger| - 1].pool == p then 1 else 0
  }

  // ---------- the steps ----------

  function Verdict(good: bool): Fate { if good then Accepted else Rejected }

  // A counter of pool p follows the submission into its new place.
  function Booked(t: Totals, f: Fate): Totals
  {
    match KindOf(f)
    case IsAccepted => t.(accepted := t.accepted + 1)
    case IsRejected => t.(rejected := t.rejected + 1)
    case IsStale => t.(stale := t.stale + 1)
    case InTable => t.(sshares := t.sshares + 1)
    case InThread => t
  }

  function FirstFate(s: State, how: How): Fate
  {
    match how
    case Discarded => Stale
    case ByStratum => Sending(|s.issued|)
    case ByUpstream => Upstream
  }

  predicate At(s: State, k: nat) { k < |s.ledger| && s.ledger[k].pool < |s.totals| }

  function Moved(s: State, k: nat, f: Fate): State
    requires At(s, k)
  {
    var p := s.ledger[k].pool;
    s.(ledger := s.ledger[k := Share(p, f)], totals := s.totals[p := Booked(s.totals[p], f)])
  }

  predicate Possible(s: State, e: Event)
  {
    match e
    case Start(pool, _) => pool < |s.totals|
    case Send(k) => At(s, k) && s.ledger[k].fate.Sending?
    case Enter(k) => At(s, k) && s.ledger[k].fate.Sent?
    case GiveUp(k) => At(s, k) && s.ledger[k].fate.Sending?
    case Result(k, _) => At(s, k) && s.ledger[k].fate.Upstream?
    case BecameStale(k) => At(s, k) && s.ledger[k].fate.Upstream?
    case Response(c, id, _) => c < |s.totals| && (id in s.table ==> At(s, s.table[id]))
    case Clear(pool) => pool < |s.totals|
  }

  function ClearedShare(share: Share, p: nat): Share
  {
    if share.pool == p && share.fate.Tabled? then Share(p, Stale) else share
  }

  function ClearedAll(ledger: seq<Share>, p: nat): seq<Share>
  {
    seq(|ledger|, i requires 0 <= i < |ledger| => ClearedShare(ledger[i], p))
  }

  function ClearedTable(s: State, p: nat): map<nat, nat>
  {
    map id | id in s.table && !(s.table[id] < |s.ledger| && s.ledger[s.table[id]].pool == p) :: s.table[id]
  }

  function Next(s: State, e: Event): State
    requires Possible(s, e)
  {
    match e
    case Start(pool, how) =>
      var f := FirstFate(s, how);
      State(s.ledger + [Share(pool, f)], s.table, if f.Sending? then s.issued + [|s.ledger|] else s.issued,
            s.totals[pool := Booked(s.totals[pool], f)])
    case Send(k) => Moved(s, k, Sent(s.ledger[k].fate.id))
    case Enter(k) => Moved(s, k, Tabled(s.ledger[k].fate.id)).(table := s.table[s.ledger[k].fate.id := k])
    case GiveUp(k) => Moved(s, k, Stale)
    case Result(k, good) => Moved(s, k, Verdict(good))
    case BecameStale(k) => Moved(s, k, Stale)
    case Response(c, id, good) =>
      if id !in s.table then s
      else
        var t := s.totals[c];
        var taken := s.(table := s.table - {id}, totals := s.totals[c := t.(sshares := t.sshares - 1)]);
        Moved(taken, s.table[id], Verdict(good))
    case Clear(pool) =>
      var n, t := Count(s.ledger, pool, InTable), s.totals[pool];
      s.(ledger := ClearedAll(s.ledger, pool), table := ClearedTable(s, pool),
         totals := s.totals[pool := t.(sshares := t.sshares - n, stale := t.stale + n)])
  }

  // ---------- what every step keeps ----------

  // The table holds exactly the submissions that wait in it, and an id belongs to the submission
  // it was given to.
  predicate TableOk(s: State)
  {
    && (forall id :: id in s.table ==> s.table[id] < |s.ledger| && s.ledger[s.table[id]].fate == Tabled(id))
    && (forall k :: 0 <= k < |s.ledger| ==> IdOk(s, s.ledger[k].fate, k))
    && (forall k :: 0 <= k < |s.ledger| ==> s.ledger[k].pool < |s.totals|)
  }

  predicate IdOk(s: State, f: Fate, k: nat)
  {
    (HasId(f) ==> f.id < |s.issued| && s.issued[f.id] == k) && (f.Tabled? ==> f.id in s.table)
  }

  // The counters of pool p; `drift` is how far `sshares` is from the table.
  predicate CountersOk(s: State, p: nat, drift: int)
  {
    p < |s.totals| &&
    s.totals[p] == Totals(Count(s.ledger, p, IsAccepted), Count(s.ledger, p, IsRejected),
                          Count(s.ledger, p, IsStale), Count(s.ledger, p, InTable) + drift)
  }

  lemma {:induction false} CountMove(ledger: seq<Share>, k: nat, share: Share, p: nat, kind: Kind)
    requires k < |ledger|
    ensures Count(ledger[k := share], p, kind) == Count(ledger, p, kind) + One(share, p, kind) - One(ledger[k], p, kind)
    decreases |ledger|
  {
    var front := ledger[..|ledger| - 1];
    if k < |front| {
      assert ledger[k := share][..|ledger| - 1] == front[k := share];
      CountMove(front, k, share, p, kind);
    } else {
      assert ledger[k := share][..|ledger| - 1] == front;
    }
  }

  lemma CountStart(ledger: seq<Share>, share: Share, p: nat, kind: Kind)
    ensures Count(ledger + [share], p, kind) == Count(ledger, p, kind) + One(share, p, kind)
  {
    var all := ledger + [share];
    assert all[..|all| - 1] == ledger && all[|all| - 1] == share;
  }

  lemma {:induction false} CountCleared(ledger: seq<Share>, c: nat, p: nat, kind: Kind)
    ensures Count(ClearedAll(ledger, c), p, kind) ==
      if p != c then Count(ledger, p, kind)
      else if kind == InTable then 0
      else if kind == IsStale then Count(ledger, p, IsStale) + Count(ledger, p, InTable)
      else Count(ledger, p, kind)
    decreases |ledger|
  {
    if ledger != [] {
      var front, last := ledger[..|ledger| - 1], ledger[|ledger| - 1];
      CountCleared(front, c, p, kind);
      assert ClearedAll(ledger, c) == ClearedAll(front, c) + [ClearedShare(last, c)];
      CountStart(ClearedAll(front, c), ClearedShare(last, c), p, kind);
    }
  }

  // Every submission that was started is in exactly one place.
  lemma {:induction false} PlacesAddUp(ledger: seq<Share>, p: nat)
    ensures StartedBy(ledger, p) == Count(ledger, p, IsAccepted) + Count(ledger, p, IsRejected)
              + Count(ledger, p, IsStale) + Count(ledger, p, InThread) + Count(ledger, p, InTable)
    decreases |ledger|
  {
    if ledger != [] { PlacesAddUp(ledger[..|ledger| - 1], p); }
  }

  // How a step changes the drift of pool p: an answer on another connection than the one of the
  // pool the share was issued for.
  function Drift(s: State, e: Event, p: nat): int
    requires Possible(s, e)
  {
    match e
    case Response(c, id, _) =>
      if id !in s.table then 0
      else (if s.ledger[s.table[id]].pool == p then 1 else 0) - if c == p then 1 else 0
    case _ => 0
  }

  lemma BookedIsOne(t: Totals, share: Share)
    ensures Booked(t, share.fate) ==
      Totals(t.accepted + One(share, share.pool, IsAccepted), t.rejected + One(share, share.pool, IsRejected),
             t.stale + One(share, share.pool, IsStale), t.sshares + One(share, share.pool, InTable))
  {
  }

  lemma MovedCounts(s: State, k: nat, f: Fate, p: nat, drift: int)
    requires At(s, k) && CountersOk(s, p, drift) && (s.ledger[k].fate.Tabled? ==> KindOf(f) != InTable)
    requires KindOf(s.ledger[k].fate) == InThread || s.ledger[k].fate.Tabled?
    ensures CountersOk(Moved(s, k, f), p,
                       drift + if s.ledger[k].fate.Tabled? && s.ledger[k].pool == p then 1 else 0)
  {
    var share := Share(s.ledger[k].pool, f);
    BookedIsOne(s.totals[share.pool], share);
    CountMove(s.ledger, k, share, p, IsAccepted);
    CountMove(s.ledger, k, share, p, IsRejected);
    CountMove(s.ledger, k, share, p, IsStale);
    CountMove(s.ledger, k, share, p, InTable);
  }

  lemma StartCounts(s: State, pool: nat, how: How, p: nat, drift: int)
    requires Possible(s, Start(pool, how)) && CountersOk(s, p, drift)
    ensures CountersOk(Next(s, Start(pool, how)), p, drift)
  {
    var share := Share(pool, FirstFate(s, how));
    var s' := Next(s, Start(pool, how));
    assert s'.ledger == s.ledger + [share];
    assert s'.totals == s.totals[pool := Booked(s.totals[pool], share.fate)];
    BookedIsOne(s.totals[pool], share);
    CountStart(s.ledger, share, p, IsAccepted);
    CountStart(s.ledger, share, p, IsRejected);
    CountStart(s.ledger, share, p, IsStale);
    CountStart(s.ledger, share, p, InTable);
  }

  lemma ClearCounts(s: State, pool: nat, p: nat, drift: int)
    requires Possible(s, Clear(pool)) && CountersOk(s, p, drift)
    ensures CountersOk(Next(s, Clear(pool)), p, drift)
  {
    CountCleared(s.ledger, pool, p, IsAccepted);
    CountCleared(s.ledger, pool, p, IsRejected);
    CountCleared(s.ledger, pool, p, IsStale);
    CountCleared(s.ledger, pool, p, InTable);
  }

  lemma ResponseCounts(s: State, c: nat, id: nat, good: bool, p: nat, drift: int)
    requires var e := Response(c, id, good); Possible(s, e) && TableOk(s) && CountersOk(s, p, drift)
    ensures var e := Response(c, id, good); CountersOk(Next(s, e), p, drift + Drift(s, e, p))
  {
    if id in s.table {
      var t := s.totals[c];
      var taken := s.(table := s.table - {id}, totals := s.totals[c := t.(sshares := t.sshares - 1)]);
      MovedCounts(taken, s.table[id], Verdict(good), p, drift - if c == p then 1 else 0);
    }
  }

  lemma NextCounts(s: State, e: Event, p: nat, drift: int)
    requires Possible(s, e) && TableOk(s) && CountersOk(s, p, drift)
    ensures CountersOk(Next(s, e), p, drift + Drift(s, e, p))
  {
    match e {
      case Start(pool, how) => StartCounts(s, pool, how, p, drift);
      case Send(k) => MovedCounts(s, k, Sent(s.ledger[k].fate.id), p, drift);
      case Enter(k) => MovedCounts(s, k, Tabled(s.ledger[k].fate.id), p, drift);
      case GiveUp(k) => MovedCounts(s, k, Stale, p, drift);
      case Result(k, good) => MovedCounts(s, k, Verdict(good), p, drift);
      case BecameStale(k) => MovedCounts(s, k, Stale, p, drift);
      case Response(c, id, good) => ResponseCounts(s, c, id, good, p, drift);
      case Clear(pool) => ClearCounts(s, pool, p, drift);
    }
  }

  // A submission that is not in the table moves to a place outside it.
  lemma MovedTable(s: State, k: nat, f: Fate)
    requires At(s, k) && TableOk(s) && !s.ledger[k].fate.Tabled?
    requires !f.Tabled? && (HasId(f) ==> HasId(s.ledger[k].fate) && s.ledger[k].fate.id == f.id)
    ensures TableOk(Moved(s, k, f))
  {
    assert forall j :: 0 <= j < |s.ledger| ==> IdOk(s, s.ledger[j].fate, j);
  }

  lemma StartTable(s: State, pool: nat, how: How)
    requires Possible(s, Start(pool, how)) && TableOk(s)
    ensures TableOk(Next(s, Start(pool, how)))
  {
    var s' := Next(s, Start(pool, how));
    forall j | 0 <= j < |s'.ledger| ensures IdOk(s', s'.ledger[j].fate, j) {
      if j < |s.ledger| { assert IdOk(s, s.ledger[j].fate, j); }
    }
  }

  lemma EnterTable(s: State, k: nat)
    requires Possible(s, Enter(k)) && TableOk(s)
    ensures TableOk(Next(s, Enter(k)))
  {
    var s' := Next(s, Enter(k));
    assert IdOk(s, s.ledger[k].fate, k);
    forall j | 0 <= j < |s'.ledger| ensures IdOk(s', s'.ledger[j].fate, j) {
      assert IdOk(s, s.ledger[j].fate, j);
    }
    forall id | id in s'.table ensures s'.table[id] < |s'.ledger| && s'.ledger[s'.table[id]].fate == Tabled(id) { }
  }

  lemma ResponseTable(s: State, c: nat, id: nat, good: bool)
    requires Possible(s, Response(c, id, good)) && TableOk(s)
    ensures TableOk(Next(s, Response(c, id, good)))
  {
    var s' := Next(s, Response(c, id, good));
    if id in s.table {
      assert IdOk(s, s.ledger[s.table[id]].fate, s.table[id]);
      forall j | 0 <= j < |s'.ledger| ensures IdOk(s', s'.ledger[j].fate, j) {
        assert IdOk(s, s.ledger[j].fate, j);
      }
    }
  }

  lemma ClearTable(s: State, c: nat)
    requires Possible(s, Clear(c)) && TableOk(s)
    ensures TableOk(Next(s, Clear(c)))
  {
    var s' := Next(s, Clear(c));
    forall j | 0 <= j < |s'.ledger| ensures IdOk(s', s'.ledger[j].fate, j) {
      assert IdOk(s, s.ledger[j].fate, j);
    }
  }

  lemma NextTable(s: State, e: Event)
    requires Possible(s, e) && TableOk(s)
    ensures TableOk(Next(s, e)) && |Next(s, e).totals| == |s.totals|
  {
    match e {
      case Start(pool, how) => StartTable(s, pool, how);
      case Send(k) => MovedTable(s, k, Sent(s.ledger[k].fate.id));
      case Enter(k) => EnterTable(s, k);
      case GiveUp(k) => MovedTable(s, k, Stale);
      case Result(k, good) => MovedTable(s, k, Verdict(good));
      case BecameStale(k) => MovedTable(s, k, Stale);
      case Response(c, id, good) => ResponseTable(s, c, id, good);
      case Clear(pool) => ClearTable(s, pool);
    }
  }

  // ---------- runs ----------

  ghost predicate IsRun(run: seq<State>, events: seq<Event>)
  {
    |run| == |events| + 1 &&
    forall i :: 0 <= i < |events| ==> Possible(run[i], events[i]) && run[i + 1] == Next(run[i], events[i])
  }

  function Initial(pools: nat): State
  {
    State([], map[], [], seq(pools, _ => Totals(0, 0, 0, 0)))
  }

  function DriftIn(s: State, events: seq<Event>, p: nat): int
    decreases |events|
  {
    if events == [] || !Possible(s, events[0]) then 0
    else Drift(s, events[0], p) + DriftIn(Next(s, events[0]), events[1..], p)
  }

  lemma {:induction false} RunKeeps(run: seq<State>, events: seq<Event>, p: nat, drift: int)
    requires IsRun(run, events) && TableOk(run[0]) && CountersOk(run[0], p, drift)
    ensures TableOk(run[|events|])
    ensures CountersOk(run[|events|], p, drift + DriftIn(run[0], events, p))
    decreases |events|
  {
    if events != [] {
      assert run[0 + 1] == Next(run[0], events[0]);
      NextTable(run[0], events[0]);
      NextCounts(run[0], events[0], p, drift);
      RunKeeps(run[1..], events[1..], p, drift + Drift(run[0], events[0], p));
    }
  }

  // Every submission started for a pool has been counted accepted, rejected or stale exactly
  // once, or is still in its thread or in the table.
  lemma Conservation(run: seq<State>, events: seq<Event>, pools: nat, p: nat)
    requires IsRun(run, events) && run[0] == Initial(pools) && p < pools
    ensures var s := run[|events|];
            p < |s.totals| &&
            StartedBy(s.ledger, p) == s.totals[p].accepted + s.totals[p].rejected + s.totals[p].stale
              + Count(s.ledger, p, InThread) + Count(s.ledger, p, InTable)
  {
    RunKeeps(run, events, p, 0);
    PlacesAddUp(run[|events|].ledger, p);
  }

  // `sshares` of a pool is the number of its shares in the table exactly when as many of its
  // shares were answered on other connections as shares of other pools on its own.
  lemma SsharesExact(run: seq<State>, events: seq<Event>, pools: nat, p: nat)
    requires IsRun(run, events) && run[0] == Initial(pools) && p < pools
    ensures var s := run[|events|];
            p < |s.totals| &&
            (s.totals[p].sshares == Count(s.ledger, p, InTable) <==> DriftIn(run[0], events, p) == 0)
  {
    RunKeeps(run, events, p, 0);
  }

  // Every answer comes on the connection of the pool its share was issued for.
  ghost predicate AnsweredAtHome(run: seq<State>, events: seq<Event>)
    requires IsRun(run, events)
  {
    forall i :: 0 <= i < |events| && events[i].Response? && events[i].id in run[i].table ==>
      run[i].ledger[run[i].table[events[i].id]].pool == events[i].connection
  }

  lemma {:induction false} NoDrift(run: seq<State>, events: seq<Event>, p: nat)
    requires IsRun(run, events) && AnsweredAtHome(run, events)
    ensures DriftIn(run[0], events, p) == 0
    decreases |events|
  {
    if events != [] {
      assert run[0 + 1] == Next(run[0], events[0]);
      var rest := run[1..];
      forall i | 0 <= i < |events[1..]| && events[1..][i].Response? && events[1..][i].id in rest[i].table
        ensures rest[i].ledger[rest[i].table[events[1..][i].id]].pool == events[1..][i].connection
      {
        assert rest[i] == run[i + 1] && events[1..][i] == events[i + 1];
      }
      NoDrift(rest, events[1..], p);
    }
  }

  lemma SsharesIsTable(run: seq<State>, events: seq<Event>, pools: nat, p: nat)
    requires IsRun(run, events) && run[0] == Initial(pools) && p < pools && AnsweredAtHome(run, events)
    ensures p < |run[|events|].totals|
    ensures run[|events|].totals[p].sshares == Count(run[|events|].ledger, p, InTable)
  {
    NoDrift(run, events, p);
    SsharesExact(run, events, pools, p);
  }

  // ---------- the counters from the history ----------

  // The entries of the table that belong to pool p, up to a place of the ledger.
  function EntriesUpTo(s: State, p: nat, n: nat): set<nat>
  {
    set id | id in s.table && s.table[id] < |s.ledger| && s.table[id] < n && s.ledger[s.table[id]].pool == p
  }

  function EntriesOf(s: State, p: nat): set<nat> { EntriesUpTo(s, p, |s.ledger|) }

  lemma {:induction false} EntriesCounted(s: State, p: nat, n: nat)
    requires TableOk(s) && n <= |s.ledger|
    ensures Count(s.ledger[..n], p, InTable) == |EntriesUpTo(s, p, n)|
    decreases n
  {
    if n == 0 {
      assert EntriesUpTo(s, p, n) == {};
    } else {
      EntriesCounted(s, p, n - 1);
      CountPrefix(s.ledger, p, n - 1);
      EntriesStep(s, p, n - 1);
    }
  }

  lemma EntriesStep(s: State, p: nat, k: nat)
    requires TableOk(s) && k < |s.ledger|
    ensures |EntriesUpTo(s, p, k + 1)| == |EntriesUpTo(s, p, k)| + One(s.ledger[k], p, InTable)
  {
    EntryAt(s, p, k);
    OneMore(EntriesUpTo(s, p, k), s.ledger[k], p);
  }

  lemma CountPrefix(ledger: seq<Share>, p: nat, k: nat)
    requires k < |ledger|
    ensures Count(ledger[..k + 1], p, InTable) == Count(ledger[..k], p, InTable) + One(ledger[k], p, InTable)
  {
    assert ledger[..k + 1][..k] == ledger[..k] && ledger[..k + 1][k] == ledger[k];
  }

  lemma OneMore(ids: set<nat>, share: Share, p: nat)
    requires share.fate.Tabled? ==> share.fate.id !in ids
    ensures |ids + if share.pool == p && share.fate.Tabled? then {share.fate.id} else {}|
         == |ids| + One(share, p, InTable)
  {
  }

  // A place of the ledger has one entry, or none.
  lemma EntryAt(s: State, p: nat, k: nat)
    requires TableOk(s) && k < |s.ledger|
    ensures EntriesUpTo(s, p, k + 1) == EntriesUpTo(s, p, k)
              + if s.ledger[k].pool == p && s.ledger[k].fate.Tabled? then {s.ledger[k].fate.id} else {}
    ensures s.ledger[k].fate.Tabled? ==> s.ledger[k].fate.id !in EntriesUpTo(s, p, k)
  {
    assert IdOk(s, s.ledger[k].fate, k);
    if s.ledger[k].fate.Tabled? {
      var id := s.ledger[k].fate.id;
      assert s.ledger[s.table[id]].fate == Tabled(id) && IdOk(s, s.ledger[s.table[id]].fate, s.table[id]);
    }
  }

  // What an event is worth to the counters of pool p.
  function Gain(s: State, e: Event, p: nat): Totals
    requires Possible(s, e)
  {
    match e
    case Start(pool, how) => Totals(0, 0, if pool == p && how == Discarded then 1 else 0, 0)
    case Send(_) => Totals(0, 0, 0, 0)
    case Enter(k) => Totals(0, 0, 0, if s.ledger[k].pool == p then 1 else 0)
    case GiveUp(k) => Totals(0, 0, if s.ledger[k].pool == p then 1 else 0, 0)
    case BecameStale(k) => Totals(0, 0, if s.ledger[k].pool == p then 1 else 0, 0)
    case Result(k, good) =>
      if s.ledger[k].pool != p then Totals(0, 0, 0, 0)
      else if good then Totals(1, 0, 0, 0) else Totals(0, 1, 0, 0)
    case Response(c, id, good) =>
      if id !in s.table then Totals(0, 0, 0, 0)
      else
        var mine := s.ledger[s.table[id]].pool == p;
        Totals(if mine && good then 1 else 0, if mine && !good then 1 else 0, 0, if c == p then -1 else 0)
    case Clear(pool) =>
      if pool != p then Totals(0, 0, 0, 0) else Totals(0, 0, |EntriesOf(s, p)|, -|EntriesOf(s, p)|)
  }

  function Plus(a: Totals, b: Totals): Totals
  {
    Totals(a.accepted + b.accepted, a.rejected + b.rejected, a.stale + b.stale, a.sshares + b.sshares)
  }

  // Each event changes the counters by what it is worth.
  lemma NextGains(s: State, e: Event, p: nat)
    requires Possible(s, e) && TableOk(s) && p < |s.totals|
    ensures p < |Next(s, e).totals| && Next(s, e).totals[p] == Plus(s.totals[p], Gain(s, e, p))
  {
    match e {
      case Response(c, id, good) => ResponseGains(s, c, id, good, p);
      case Clear(pool) => ClearGains(s, pool, p);
      case _ =>
    }
  }

  lemma ResponseGains(s: State, c: nat, id: nat, good: bool, p: nat)
    requires var e := Response(c, id, good); Possible(s, e) && p < |s.totals|
    ensures var e := Response(c, id, good);
            p < |Next(s, e).totals| && Next(s, e).totals[p] == Plus(s.totals[p], Gain(s, e, p))
  {
  }

  lemma ClearGains(s: State, pool: nat, p: nat)
    requires Possible(s, Clear(pool)) && TableOk(s) && p < |s.totals|
    ensures var e := Clear(pool);
            p < |Next(s, e).totals| && Next(s, e).totals[p] == Plus(s.totals[p], Gain(s, e, p))
  {
    EntriesCounted(s, p, |s.ledger|);
    assert s.ledger[..|s.ledger|] == s.ledger;
  }

  function Gains(run: seq<State>, events: seq<Event>, p: nat): Totals
    requires IsRun(run, events)
    decreases |events|
  {
    if events == [] then Totals(0, 0, 0, 0)
    else
      var n := |events| - 1;
      IsRunFront(run, events);
      Plus(Gains(run[..n + 1], events[..n], p), Gain(run[n], events[n], p))
  }

  lemma HistoryStep(run: seq<State>, events: seq<Event>, e: Event, pools: nat, p: nat)
    requires IsRun(run, events) && run[0] == Initial(pools) && p < pools && Possible(run[|events|], e)
    requires |run[|events|].totals| == pools
    ensures |Next(run[|events|], e).totals| == pools
    ensures Next(run[|events|], e).totals[p] == Plus(run[|events|].totals[p], Gain(run[|events|], e, p))
  {
    RunKeeps(run, events, p, 0);
    NextTable(run[|events|], e);
    NextGains(run[|events|], e, p);
  }

  // The counters of a pool are what the events so far are worth: good answers and bad ones about
  // its own shares, its shares discarded, given up, gone stale or cleared, and its shares entered
  // in the table less those answered on its connection or cleared.
  lemma IsRunFront(run: seq<State>, events: seq<Event>)
    requires IsRun(run, events) && events != []
    ensures var n := |events| - 1;
            && IsRun(run[..n + 1], events[..n]) && run[..n + 1][n] == run[n] && run[..n + 1][0] == run[0]
            && Possible(run[n], events[n]) && run[n + 1] == Next(run[n], events[n])
  {
    var n := |events| - 1;
    assert run[n + 1] == Next(run[n], events[n]);
    forall i | 0 <= i < n
      ensures Possible(run[..n + 1][i], events[..n][i])
      ensures run[..n + 1][i + 1] == Next(run[..n + 1][i], events[..n][i])
    {
      assert run[i + 1] == Next(run[i], events[i]);
    }
  }

  lemma {:induction false} TotalsOfHistory(run: seq<State>, events: seq<Event>, pools: nat, p: nat)
    requires IsRun(run, events) && run[0] == Initial(pools) && p < pools
    ensures |run[|events|].totals| == pools && run[|events|].totals[p] == Gains(run, events, p)
    decreases |events|
  {
    if events != [] {
      var n := |events| - 1;
      IsRunFront(run, events);
      TotalsOfHistory(run[..n + 1], events[..n], pools, p);
      HistoryStep(run[..n + 1], events[..n], events[n], pools, p);
    }
  }

  // What Conservation and SsharesExact count as in the table are the entries of the pool.
  lemma InTableIsEntries(run: seq<State>, events: seq<Event>, pools: nat, p: nat)
    requires IsRun(run, events) && run[0] == Initial(pools) && p < pools
    ensures Count(run[|events|].ledger, p, InTable) == |EntriesOf(run[|events|], p)|
  {
    var s := run[|events|];
    RunKeeps(run, events, p, 0);
    EntriesCounted(s, p, |s.ledger|);
    assert s.ledger[..|s.ledger|] == s.ledger;
  }

  // ---------- the accounts updated in place ----------

  class Accounts {
    var ledger: seq<Share>
    var table: map<nat, nat>
    var issued: seq<nat>
    var totals: seq<Totals>

    function Value(): State
      reads this
    {
      State(ledger, table, issued, totals)
    }

    constructor (pools: nat)
      ensures Value() == Initial(pools) && TableOk(Value())
    {
      ledger, table, issued := [], map[], [];
      totals := seq(pools, _ => Totals(0, 0, 0, 0));
    }

    // submit_work_thread up to the first send.
    method SubmitWork(pool: nat, stale: bool, submitStale: bool, stratum: bool) returns (k: nat)
      requires pool < |totals|
      modifies this
      ensures k == old(|ledger|)
      ensures Value() == Next(old(Value()), Start(pool, if stale && !submitStale then Discarded
                                                        else if stratum then ByStratum else ByUpstream))
    {
      k := |ledger|;
      if stale && !submitStale {
        totals := totals[pool := totals[pool].(stale := totals[pool].stale + 1)];
        ledger := ledger + [Share(pool, Stale)];
      } else if stratum {
        ledger := ledger + [Share(pool, Sending(|issued|))];
        issued := issued + [k];
      } else {
        ledger := ledger + [Share(pool, Upstream)];
      }
    }

    method StratumSent(k: nat)
      requires Possible(Value(), Send(k))
      modifies this`ledger
      ensures Value() == Next(old(Value()), Send(k))
    {
      ledger := ledger[k := ledger[k].(fate := Sent(ledger[k].fate.id))];
    }

    method StratumEntered(k: nat)
      requires Possible(Value(), Enter(k))
      modifies this
      ensures Value() == Next(old(Value()), Enter(k))
    {
      var share := ledger[k];
      table := table[share.fate.id := k];
      totals := totals[share.pool := totals[share.pool].(sshares := totals[share.pool].sshares + 1)];
      ledger := ledger[k := Share(share.pool, Tabled(share.fate.id))];
    }

    // A stratum share given up, or an upstream one that went stale.
    method Stales(k: nat)
      requires Possible(Value(), GiveUp(k)) || Possible(Value(), BecameStale(k))
      modifies this
      ensures Possible(old(Value()), GiveUp(k)) ==> Value() == Next(old(Value()), GiveUp(k))
      ensures Possible(old(Value()), BecameStale(k)) ==> Value() == Next(old(Value()), BecameStale(k))
    {
      var share := ledger[k];
      totals := totals[share.pool := totals[share.pool].(stale := totals[share.pool].stale + 1)];
      ledger := ledger[k := Share(share.pool, Stale)];
    }

    method ShareResult(k: nat, good: bool)
      requires At(Value(), k)
      modifies this
      ensures Value() == Moved(old(Value()), k, Verdict(good))
    {
      var share := ledger[k];
      var t := totals[share.pool];
      if good {
        totals := totals[share.pool := t.(accepted := t.accepted + 1)];
      } else {
        totals := totals[share.pool := t.(rejected := t.rejected + 1)];
      }
      ledger := ledger[k := Share(share.pool, Verdict(good))];
    }

    method ParseStratumResponse(connection: nat, id: nat, good: bool) returns (found: bool)
      requires Possible(Value(), Response(connection, id, good))
      modifies this
      ensures found == old(id in table)
      ensures Value() == Next(old(Value()), Response(connection, id, good))
    {
      found := id in table;
      if !found { return; }
      var k, t := table[id], totals[connection];
      table := table - {id};
      totals := totals[connection := t.(sshares := t.sshares - 1)];
      ShareResult(k, good);
    }

    // The step of any event.
    method Step(e: Event)
      requires TableOk(Value()) && Possible(Value(), e)
      modifies this
      ensures Value() == Next(old(Value()), e) && TableOk(Value())
    {
      NextTable(Value(), e);
      match e {
        case Start(pool, how) =>
          var k := SubmitWork(pool, how.Discarded?, false, how.ByStratum?);
        case Send(k) => StratumSent(k);
        case Enter(k) => StratumEntered(k);
        case GiveUp(k) => Stales(k);
        case Result(k, good) => ShareResult(k, good);
        case BecameStale(k) => Stales(k);
        case Response(connection, id, good) =>
          var found := ParseStratumResponse(connection, id, good);
        case Clear(pool) => ClearStratumShares(pool);
      }
    }

    method TakeEntry(pool: nat, id: nat)
      requires id in table && table[id] < |ledger| && pool < |totals|
      modifies this`ledger, this`table, this`totals
      ensures Value() == TakenOut(old(Value()), pool, id)
    {
      ledger := ledger[table[id] := Share(pool, Stale)];
      table := table - {id};
      totals := totals[pool := totals[pool].(sshares := totals[pool].sshares - 1)];
    }

    method ClearStratumShares(pool: nat)
      requires TableOk(Value()) && pool < |totals|
      modifies this`ledger, this`table, this`totals
      ensures Value() == Next(old(Value()), Clear(pool))
    {
      ghost var before := Value();
      var ids, cleared := table.Keys, 0;
      while ids != {}
        invariant PartlyCleared(before, Value(), pool, ids, cleared)
        decreases ids
      {
        var id :| id in ids;
        ghost var now := Value();
        PartStep(before, now, pool, ids, cleared, id);
        ids := ids - {id};
        if ledger[table[id]].pool == pool {
          TakeEntry(pool, id);
          cleared := cleared + 1;
          assert Value() == TakenOut(now, pool, id);
        } else {
          assert Value() == now;
        }
      }
      PartDone(before, Value(), pool, cleared);
      totals := totals[pool := totals[pool].(stale := totals[pool].stale + cleared)];
    }
  }

  // ---------- the loop of clear_stratum_shares ----------

  // The ledger when all entries of pool p but those with the given ids are cleared.
  function ClearedBut(s: State, p: nat, ids: set<nat>): seq<Share>
  {
    seq(|s.ledger|, i requires 0 <= i < |s.ledger| => ClearedUnless(s.ledger[i], p, ids))
  }

  function ClearedUnless(share: Share, p: nat, ids: set<nat>): Share
  {
    if share.fate.Tabled? && share.fate.id in ids then share else ClearedShare(share, p)
  }

  predicate Stays(s: State, p: nat, ids: set<nat>, id: nat)
    requires id in s.table
  {
    id in ids || !(s.table[id] < |s.ledger| && s.ledger[s.table[id]].pool == p)
  }

  function TableBut(b: State, p: nat, ids: set<nat>): map<nat, nat>
  {
    map id | id in b.table && Stays(b, p, ids, id) :: b.table[id]
  }

  // State b with `cleared` entries of pool p cleared, those with the given ids still to come.
  ghost predicate PartlyCleared(b: State, s: State, p: nat, ids: set<nat>, cleared: int)
  {
    && p < |b.totals| && ids <= s.table.Keys && s.issued == b.issued
    && s.ledger == ClearedBut(b, p, ids)
    && s.table == TableBut(b, p, ids)
    && s.totals == b.totals[p := b.totals[p].(sshares := b.totals[p].sshares - cleared)]
    && cleared + Count(s.ledger, p, InTable) == Count(b.ledger, p, InTable)
  }

  // One entry taken out of the table.
  function TakenOut(s: State, p: nat, id: nat): State
    requires id in s.table && s.table[id] < |s.ledger| && p < |s.totals|
  {
    State(s.ledger[s.table[id] := Share(p, Stale)], s.table - {id}, s.issued,
          s.totals[p := s.totals[p].(sshares := s.totals[p].sshares - 1)])
  }

  lemma PartLedger(b: State, p: nat, ids: set<nat>, id: nat)
    requires TableOk(b) && id in ids && id in b.table
    ensures ClearedBut(b, p, ids - {id}) ==
      if b.ledger[b.table[id]].pool == p then ClearedBut(b, p, ids)[b.table[id] := Share(p, Stale)]
      else ClearedBut(b, p, ids)
  {
    forall i | 0 <= i < |b.ledger| && i != b.table[id]
      ensures ClearedUnless(b.ledger[i], p, ids - {id}) == ClearedUnless(b.ledger[i], p, ids)
    {
      assert IdOk(b, b.ledger[i].fate, i);
      assert IdOk(b, b.ledger[b.table[id]].fate, b.table[id]);
    }
  }

  // An entry still to come is as it was.
  lemma PartEntry(b: State, p: nat, ids: set<nat>, id: nat)
    requires TableOk(b) && id in ids && id in b.table
    ensures b.table[id] < |b.ledger|
    ensures ClearedBut(b, p, ids)[b.table[id]] == b.ledger[b.table[id]] == Share(b.ledger[b.table[id]].pool, Tabled(id))
  {
  }

  lemma PartStep(b: State, s: State, p: nat, ids: set<nat>, cleared: int, id: nat)
    requires TableOk(b) && PartlyCleared(b, s, p, ids, cleared) && id in ids
    ensures id in s.table && s.table[id] < |s.ledger|
    ensures if s.ledger[s.table[id]].pool == p
            then PartlyCleared(b, TakenOut(s, p, id), p, ids - {id}, cleared + 1)
            else PartlyCleared(b, s, p, ids - {id}, cleared)
  {
    PartEntry(b, p, ids, id);
    PartLedger(b, p, ids, id);
    PartTable(b, s.table, p, ids, id);
    if s.ledger[s.table[id]].pool == p { TakenOutPart(b, s, p, ids, cleared, id); }
  }

  lemma TakenOutPart(b: State, s: State, p: nat, ids: set<nat>, cleared: int, id: nat)
    requires PartlyCleared(b, s, p, ids, cleared) && id in ids && s.table[id] < |s.ledger|
    requires s.ledger[s.table[id]] == Share(p, Tabled(id))
    requires ClearedBut(b, p, ids - {id}) == s.ledger[s.table[id] := Share(p, Stale)]
    requires TableBut(b, p, ids - {id}) == s.table - {id}
    ensures PartlyCleared(b, TakenOut(s, p, id), p, ids - {id}, cleared + 1)
  {
    CountMove(s.ledger, s.table[id], Share(p, Stale), p, InTable);
  }

  lemma PartTable(b: State, table: map<nat, nat>, p: nat, ids: set<nat>, id: nat)
    requires TableOk(b) && id in ids && id in table
    requires table == TableBut(b, p, ids)
    ensures TableBut(b, p, ids - {id}) == if b.ledger[b.table[id]].pool == p then table - {id} else table
  {
  }

  lemma PartDone(b: State, s: State, p: nat, cleared: int)
    requires PartlyCleared(b, s, p, {}, cleared)
    ensures s.(totals := s.totals[p := s.totals[p].(stale := s.totals[p].stale + cleared)]) == Next(b, Clear(p))
  {
    assert s.ledger == ClearedAll(b.ledger, p) && s.table == ClearedTable(b, p);
    CountCleared(b.ledger, p, p, InTable);
  }
}
