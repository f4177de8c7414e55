// What becomes of a stratum share, and runs in which the accounts go astray.

module ShareOutcomes {
  import opened ShareAccounts

  predicate Answers(e: Event, id: nat) { e.Response? && e.id == id }

  predicate Clears(e: Event, p: nat) { e.Clear? && e.pool == p }

  predicate Finished(f: Fate) { f.Accepted? || f.Rejected? || f.Stale? }

  // ---------- one step ----------

  // An answer is counted for its submission exactly if the share is in the table when it comes.
  lemma AnswerCounts(s: State, k: nat, c: nat, good: bool)
    requires TableOk(s) && k < |s.ledger| && HasId(s.ledger[k].fate) && c < |s.totals|
    ensures var e := Response(c, s.ledger[k].fate.id, good);
            && Possible(s, e)
            && (Next(s, e).ledger[k].fate == Verdict(good) <==> s.ledger[k].fate.Tabled?)
            && (!s.ledger[k].fate.Tabled? ==> Next(s, e) == s)
  {
    assert IdOk(s, s.ledger[k].fate, k);
  }

  // Nothing touches a finished submission any more: it is counted once.
  lemma FinishedStep(s: State, e: Event, k: nat)
    requires TableOk(s) && Possible(s, e) && k < |s.ledger| && Finished(s.ledger[k].fate)
    ensures k < |Next(s, e).ledger| && Next(s, e).ledger[k] == s.ledger[k]
  {
  }

  // A share in the table leaves it by its answer or with its pool's shares, and by nothing else.
  lemma TabledStep(s: State, e: Event, k: nat)
    requires TableOk(s) && Possible(s, e) && k < |s.ledger| && s.ledger[k].fate.Tabled?
    ensures var p, id := s.ledger[k].pool, s.ledger[k].fate.id;
            k < |Next(s, e).ledger| &&
            Next(s, e).ledger[k] == Share(p, Outcome([e], id, p))
  {
    assert IdOk(s, s.ledger[k].fate, k);
    assert [e][1..] == [];
  }

  // ---------- the outcome over the events to come ----------

  // The fate of a share of pool p that is in the table: the first answer with its id or the first
  // clearing of its pool decides.
  function Outcome(events: seq<Event>, id: nat, p: nat): Fate
  {
    if events == [] then Tabled(id)
    else if Answers(events[0], id) then Verdict(events[0].good)
    else if Clears(events[0], p) then Stale
    else Outcome(events[1..], id, p)
  }

  lemma RunTail(run: seq<State>, events: seq<Event>)
    requires IsRun(run, events) && events != []
    ensures Possible(run[0], events[0]) && run[1] == Next(run[0], events[0])
    ensures IsRun(run[1..], events[1..]) && run[1..][|events[1..]|] == run[|events|]
  {
    var run1, events1 := run[1..], events[1..];
    assert run[0 + 1] == Next(run[0], events[0]);
    forall i | 0 <= i < |events1| ensures Possible(run1[i], events1[i]) && run1[i + 1] == Next(run1[i], events1[i]) {
      assert run1[i] == run[i + 1] && events1[i] == events[i + 1] && run1[i + 1] == run[(i + 1) + 1];
    }
  }

  lemma {:induction false} FinishedStays(run: seq<State>, events: seq<Event>, k: nat)
    requires IsRun(run, events) && TableOk(run[0]) && k < |run[0].ledger| && Finished(run[0].ledger[k].fate)
    ensures k < |run[|events|].ledger| && run[|events|].ledger[k] == run[0].ledger[k]
    decreases |events|
  {
    if events != [] {
      RunTail(run, events);
      FinishedStep(run[0], events[0], k);
      NextTable(run[0], events[0]);
      FinishedStays(run[1..], events[1..], k);
    }
  }

  lemma {:induction false} TabledOutcome(run: seq<State>, events: seq<Event>, k: nat)
    requires IsRun(run, events) && TableOk(run[0]) && k < |run[0].ledger| && run[0].ledger[k].fate.Tabled?
    ensures var share := run[0].ledger[k];
            k < |run[|events|].ledger| &&
            run[|events|].ledger[k] == Share(share.pool, Outcome(events, share.fate.id, share.pool))
    decreases |events|
  {
    if events != [] {
      RunTail(run, events);
      TabledStep(run[0], events[0], k);
      NextTable(run[0], events[0]);
      if run[1].ledger[k].fate.Tabled? {
        TabledOutcome(run[1..], events[1..], k);
      } else {
        FinishedStays(run[1..], events[1..], k);
      }
    }
  }

  lemma {:induction false} RunSuffix(run: seq<State>, events: seq<Event>, j: nat)
    requires IsRun(run, events) && j <= |events| && TableOk(run[0])
    ensures IsRun(run[j..], events[j..]) && TableOk(run[j])
    ensures run[j..][0] == run[j] && run[j..][|events[j..]|] == run[|events|]
    decreases j
  {
    if j == 0 {
      assert run[0..] == run && events[0..] == events;
    } else {
      RunSuffix(run, events, j - 1);
      RunTail(run[j - 1..], events[j - 1..]);
      NextTable(run[j - 1], events[j - 1]);
      assert run[j - 1..][1..] == run[j..] && events[j - 1..][1..] == events[j..];
    }
  }

  // The pool and id of submission k when event j enters it in the table.
  ghost predicate EnteredAs(run: seq<State>, events: seq<Event>, j: nat, k: nat, p: nat, id: nat)
  {
    && IsRun(run, events) && j < |events| && events[j] == Enter(k)
    && k < |run[j].ledger| && run[j].ledger[k] == Share(p, Sent(id))
  }

  // What happened before a share is entered does not matter; what comes afterwards decides.
  lemma EnteredOutcome(run: seq<State>, events: seq<Event>, pools: nat, j: nat, k: nat, p: nat, id: nat)
    requires run != [] && run[0] == Initial(pools) && EnteredAs(run, events, j, k, p, id)
    ensures k < |run[|events|].ledger|
    ensures run[|events|].ledger[k] == Share(p, Outcome(events[j + 1..], id, p))
  {
    assert Possible(run[j], events[j]) && run[j + 1] == Next(run[j], events[j]);
    RunSuffix(run, events, j + 1);
    TabledOutcome(run[j + 1..], events[j + 1..], k);
  }

  lemma {:induction false} OutcomeTabled(events: seq<Event>, id: nat, p: nat)
    ensures Outcome(events, id, p) == Tabled(id) <==>
            forall i :: 0 <= i < |events| ==> !Answers(events[i], id) && !Clears(events[i], p)
    decreases |events|
  {
    if events != [] {
      var rest := events[1..];
      OutcomeTabled(rest, id, p);
      assert forall i :: 1 <= i < |events| ==> events[i] == rest[i - 1];
      assert forall i :: 0 <= i < |rest| ==> rest[i] == events[i + 1];
    }
  }

  lemma {:induction false} OutcomeOfAnswer(events: seq<Event>, id: nat, p: nat, i: nat)
    requires i < |events| && Answers(events[i], id)
    requires forall m :: 0 <= m < i ==> !Answers(events[m], id) && !Clears(events[m], p)
    ensures Outcome(events, id, p) == Verdict(events[i].good)
    decreases i
  {
    if i > 0 {
      assert forall m :: 0 <= m < i - 1 ==> events[1..][m] == events[m + 1];
      OutcomeOfAnswer(events[1..], id, p, i - 1);
    }
  }

  // A share that was entered ends up in the table exactly if no answer with its id and no
  // clearing of its pool comes after it was entered.
  lemma StaysInTable(run: seq<State>, events: seq<Event>, pools: nat, j: nat, k: nat, p: nat, id: nat)
    requires run != [] && run[0] == Initial(pools) && EnteredAs(run, events, j, k, p, id)
    ensures k < |run[|events|].ledger|
    ensures run[|events|].ledger[k].fate.Tabled? <==>
            forall i :: j < i < |events| ==> !Answers(events[i], id) && !Clears(events[i], p)
  {
    var rest := events[j + 1..];
    EnteredOutcome(run, events, pools, j, k, p, id);
    OutcomeTabled(rest, id, p);
    assert forall i :: 0 <= i < |rest| ==> rest[i] == events[i + j + 1];
    assert forall i :: j < i < |events| ==> events[i] == rest[i - j - 1];
    if Outcome(rest, id, p).Tabled? { OutcomeIsOwn(rest, id, p); }
  }

  lemma {:induction false} OutcomeIsOwn(events: seq<Event>, id: nat, p: nat)
    requires Outcome(events, id, p).Tabled?
    ensures Outcome(events, id, p) == Tabled(id)
    decreases |events|
  {
    if events != [] { OutcomeIsOwn(events[1..], id, p); }
  }

  // An entered share that is answered once, and whose pool is not cleared afterwards, stays in the
  // table exactly if its answer came before it was entered; otherwise its answer is counted.
  lemma EarlyAnswerLost(run: seq<State>, events: seq<Event>, pools: nat,
                        i: nat, j: nat, k: nat, p: nat, id: nat)
    requires run != [] && run[0] == Initial(pools) && EnteredAs(run, events, j, k, p, id)
    requires i < |events| && Answers(events[i], id)
    requires forall m :: 0 <= m < |events| && Answers(events[m], id) ==> m == i
    requires forall m :: j < m < |events| ==> !Clears(events[m], p)
    ensures k < |run[|events|].ledger|
    ensures run[|events|].ledger[k].fate == if i < j then Tabled(id) else Verdict(events[i].good)
    ensures run[|events|].ledger[k].fate.Tabled? <==> i < j
  {
    var rest := events[j + 1..];
    EnteredOutcome(run, events, pools, j, k, p, id);
    assert forall m :: 0 <= m < |rest| ==> rest[m] == events[m + j + 1];
    if i < j {
      OutcomeTabled(rest, id, p);
    } else {
      assert rest[i - j - 1] == events[i];
      OutcomeOfAnswer(rest, id, p, i - j - 1);
    }
  }

  // ---------- runs that go astray ----------

  lemma RunOfFour(s0: State, s1: State, s2: State, s3: State, s4: State, e0: Event, e1: Event, e2: Event, e3: Event)
    requires Possible(s0, e0) && s1 == Next(s0, e0) && Possible(s1, e1) && s2 == Next(s1, e1)
    requires Possible(s2, e2) && s3 == Next(s2, e2) && Possible(s3, e3) && s4 == Next(s3, e3)
    ensures IsRun([s0, s1, s2, s3, s4], [e0, e1, e2, e3])
  {
  }

  // The first two steps of the only stratum share.
  lemma SentFirst(pools: nat, p: nat)
    requires p < pools
    ensures var s, e := Initial(pools), Start(p, ByStratum);
            Possible(s, e) && Next(s, e) == s.(ledger := [Share(p, Sending(0))], issued := [0])
    ensures var s := Initial(pools).(ledger := [Share(p, Sending(0))], issued := [0]);
            Possible(s, Send(0)) && Next(s, Send(0)) == s.(ledger := [Share(p, Sent(0))])
  {
    var t := Initial(pools).totals;
    assert t[p := t[p]] == t;
  }

  // The only share of the only pool is answered before it is entered: at the end it is in the
  // table for good, and no counter knows of the answer.
  lemma EarlyAnswerHappens() returns (run: seq<State>, events: seq<Event>)
    ensures events == [Start(0, ByStratum), Send(0), Response(0, 0, true), Enter(0)]
    ensures IsRun(run, events) && run[0] == Initial(1) && EnteredAs(run, events, 3, 0, 0, 0)
    ensures run[4].ledger == [Share(0, Tabled(0))] && run[4].totals == [Totals(0, 0, 0, 1)]
  {
    events := [Start(0, ByStratum), Send(0), Response(0, 0, true), Enter(0)];
    SentFirst(1, 0);
    var s0 := Initial(1);
    var s1 := s0.(ledger := [Share(0, Sending(0))], issued := [0]);
    var s2 := s1.(ledger := [Share(0, Sent(0))]);
    var s4 := State([Share(0, Tabled(0))], map[0 := 0], [0], [Totals(0, 0, 0, 1)]);
    assert Next(s2, events[3]) == s4;
    RunOfFour(s0, s1, s2, s2, s4, events[0], events[1], events[2], events[3]);
    run := [s0, s1, s2, s2, s4];
  }

  // Pool 1's share is answered on the connection of pool 0: pool 0 ends with one share less than
  // none, pool 1 with one that is not in the table.
  lemma ForeignAnswerHappens() returns (run: seq<State>, events: seq<Event>)
    ensures events == [Start(1, ByStratum), Send(0), Enter(0), Response(0, 0, true)]
    ensures IsRun(run, events) && run[0] == Initial(2)
    ensures run[4].table == map[] && run[4].totals == [Totals(0, 0, 0, -1), Totals(1, 0, 0, 1)]
    ensures Count(run[4].ledger, 0, InTable) == Count(run[4].ledger, 1, InTable) == 0
    ensures DriftIn(run[0], events, 0) == -1 && DriftIn(run[0], events, 1) == 1
  {
    run, events := ForeignAnswerRun();
    CountStart([], Share(1, Accepted), 0, InTable);
    CountStart([], Share(1, Accepted), 1, InTable);
    assert [] + [Share(1, Accepted)] == run[4].ledger;
    RunKeeps(run, events, 0, 0);
    RunKeeps(run, events, 1, 0);
  }

  lemma ForeignAnswerRun() returns (run: seq<State>, events: seq<Event>)
    ensures events == [Start(1, ByStratum), Send(0), Enter(0), Response(0, 0, true)]
    ensures IsRun(run, events) && run[0] == Initial(2)
    ensures run[4] == State([Share(1, Accepted)], map[], [0], [Totals(0, 0, 0, -1), Totals(1, 0, 0, 1)])
  {
    events := [Start(1, ByStratum), Send(0), Enter(0), Response(0, 0, true)];
    SentFirst(2, 1);
    var s0 := Initial(2);
    var s1 := s0.(ledger := [Share(1, Sending(0))], issued := [0]);
    var s2 := s1.(ledger := [Share(1, Sent(0))]);
    var s3, s4 := ForeignAnswerSteps();
    RunOfFour(s0, s1, s2, s3, s4, events[0], events[1], events[2], events[3]);
    run := [s0, s1, s2, s3, s4];
  }

  lemma ForeignAnswerSteps() returns (s3: State, s4: State)
    ensures var s2 := Initial(2).(ledger := [Share(1, Sent(0))], issued := [0]);
            && Possible(s2, Enter(0)) && s3 == Next(s2, Enter(0))
            && Possible(s3, Response(0, 0, true)) && s4 == Next(s3, Response(0, 0, true))
    ensures s4 == State([Share(1, Accepted)], map[], [0], [Totals(0, 0, 0, -1), Totals(1, 0, 0, 1)])
  {
    s3 := State([Share(1, Tabled(0))], map[0 := 0], [0], [Totals(0, 0, 0, 0), Totals(0, 0, 0, 1)]);
    s4 := State([Share(1, Accepted)], map[], [0], [Totals(0, 0, 0, -1), Totals(1, 0, 0, 1)]);
    assert s3.table - {0} == map[];
  }
}
