// The option machines (DO/DONT/WILL/WONT) and two endpoints negotiating over FIFO channels.

module TelnetOptions {
  import opened TelnetCodec
  import opened TelnetStates
  import opened Wrappers

  // We: this side sends WILL/WONT and is answered DO/DONT.  They: the other way round.
  datatype Role = We | They

  function Dual(r: Role): Role { if r == We then They else We }

  datatype Machine = Machine(option: Byte, role: Role, state: RequestState, active: bool)

  datatype Message = Message(verb: Byte, option: Byte)

  type Table = seq<Machine>

  function SendYes(r: Role): Byte { if r == We then WILL else DO }
  function SendNo(r: Role): Byte { if r == We then WONT else DONT }
  function AckYes(r: Role): Byte { if r == We then DO else WILL }
  function AckNo(r: Role): Byte { if r == We then DONT else WONT }

  // ---------- one machine ----------

  function Updated(m: Machine, verb: Byte): Machine
  {
    if verb == AckYes(m.role) then
      match m.state
      case REQUESTED => m.(state := ACTIVE, active := true)
      case ACTIVE => m
      case INACTIVE => m.(state := ACTIVE, active := true)
      case REALLY_INACTIVE => m
    else if verb == AckNo(m.role) then
      match m.state
      case REQUESTED => m.(state := INACTIVE, active := false)
      case ACTIVE => m.(state := INACTIVE, active := false)
      case INACTIVE => m
      case REALLY_INACTIVE => m
    else m
  }

  function Reply(m: Machine, verb: Byte): seq<Message>
  {
    if verb == AckYes(m.role) && m.state == INACTIVE then [Message(SendYes(m.role), m.option)]
    else if verb == AckYes(m.role) && m.state == REALLY_INACTIVE then [Message(SendNo(m.role), m.option)]
    else if verb == AckNo(m.role) && m.state == ACTIVE then [Message(SendNo(m.role), m.option)]
    else []
  }

  // ---------- one machine and what it is told ----------

  // What a verb says to a machine: that the other side does, that it does not, or nothing.
  function Verdict(r: Role, verb: Byte): Option<bool>
  {
    if verb == (if r == We then 253 else 251) then Some(true)
    else if verb == (if r == We then 254 else 252) then Some(false)
    else None
  }

  // The last thing a machine was told.
  function LastVerdict(r: Role, verbs: seq<Byte>): Option<bool>
  {
    if verbs == [] then None
    else if Verdict(r, verbs[|verbs| - 1]).Some? then Verdict(r, verbs[|verbs| - 1])
    else LastVerdict(r, verbs[..|verbs| - 1])
  }

  function AfterVerbs(m: Machine, verbs: seq<Byte>): Machine
  {
    if verbs == [] then m else Updated(AfterVerbs(m, verbs[..|verbs| - 1]), verbs[|verbs| - 1])
  }

  // Whatever it is told, a machine is active exactly when the last verdict was positive.
  lemma {:induction false} MachineFollowsPeer(m: Machine, verbs: seq<Byte>)
    requires (m.state == REQUESTED || m.state == INACTIVE) && !m.active
    ensures AfterVerbs(m, verbs) == match LastVerdict(m.role, verbs)
              case None => m
              case Some(yes) => Machine(m.option, m.role, if yes then ACTIVE else INACTIVE, yes)
  {
    if verbs != [] { MachineFollowsPeer(m, verbs[..|verbs| - 1]); }
  }

  // It agrees to what it has not asked for and has not agreed to already, refuses when an active
  // option is withdrawn, and otherwise says nothing.
  lemma MachineAnswers(m: Machine, verbs: seq<Byte>, verb: Byte)
    requires (m.state == REQUESTED || m.state == INACTIVE) && !m.active
    ensures var last, now := LastVerdict(m.role, verbs), Verdict(m.role, verb);
            Reply(AfterVerbs(m, verbs), verb) ==
              if now == Some(true) && (last == Some(false) || (last == None && m.state == INACTIVE))
              then [Message(if m.role == We then 251 else 253, m.option)]
              else if now == Some(false) && last == Some(true)
              then [Message(if m.role == We then 252 else 254, m.option)]
              else []
  {
    MachineFollowsPeer(m, verbs);
  }

  // A machine that is really inactive stays so, and refuses every request.
  lemma {:induction false} RefusesAlways(m: Machine, verbs: seq<Byte>, verb: Byte)
    requires m.state == REALLY_INACTIVE
    ensures AfterVerbs(m, verbs) == m
    ensures Reply(m, verb) == if Verdict(m.role, verb) == Some(true)
                              then [Message(if m.role == We then 252 else 254, m.option)] else []
    decreases |verbs|
  {
    if verbs != [] { RefusesAlways(m, verbs[..|verbs| - 1], verb); }
  }

  // Requests for an option without a machine are denied, and nothing else is said about it.
  lemma UnknownDenied(t: Table, option: Byte)
    requires forall i :: 0 <= i < |t| ==> t[i].option != option
    ensures Replies(t, Message(251, option)) == [Message(254, option)]
    ensures Replies(t, Message(253, option)) == [Message(252, option)]
    ensures Replies(t, Message(252, option)) == Replies(t, Message(254, option)) == []
  {
  }

  // ---------- a table of machines ----------

  predicate Knows(t: Table, option: Byte) { exists i :: 0 <= i < |t| && t[i].option == option }

  function UpdatedTable(t: Table, m: Message): Table
  {
    seq(|t|, i requires 0 <= i < |t| => Informed(t[i], m))
  }

  function Informed(p: Machine, m: Message): Machine
  {
    if p.option == m.option then Updated(p, m.verb) else p
  }

  function MatchReplies(t: Table, m: Message): seq<Message>
  {
    if t == [] then []
    else ReplyOf(t[0], m) + MatchReplies(t[1..], m)
  }

  function ReplyOf(p: Machine, m: Message): seq<Message>
  {
    if p.option == m.option then Reply(p, m.verb) else []
  }

  // Unknown options are denied when they are requested.
  function Replies(t: Table, m: Message): seq<Message>
  {
    if Knows(t, m.option) then MatchReplies(t, m)
    else if m.verb == WILL then [Message(DONT, m.option)]
    else if m.verb == DO then [Message(WONT, m.option)]
    else []
  }

  function InitialRequest(m: Machine): seq<Message>
  {
    if m.state == REQUESTED then [Message(SendYes(m.role), m.option)] else []
  }

  // At most one machine per option and direction.
  predicate Distinct(t: Table)
  {
    forall i, j :: 0 <= i < j < |t| ==> !(t[i].option == t[j].option && t[i].role == t[j].role)
  }

  // Tables as they are built: every machine starts REQUESTED or INACTIVE.
  predicate Fresh(t: Table)
  {
    Distinct(t) &&
    forall i :: 0 <= i < |t| ==> (t[i].state == REQUESTED || t[i].state == INACTIVE) && !t[i].active
  }

  // ---------- two endpoints ----------

  // Each side walks its table once and sends its initial requests; `doneA` machines of side A
  // are behind it.  A racy side may receive before that walk is over, as the client does: its
  // reader thread starts first.
  datatype Sys = Sys(a: Table, b: Table, doneA: nat, doneB: nat, ab: seq<Message>, ba: seq<Message>,
                     sentA: seq<Message>, sentB: seq<Message>, racyA: bool, racyB: bool)

  datatype Action = StartA | StartB | DeliverToA | DeliverToB

  function Initial(a: Table, b: Table, racyA: bool, racyB: bool): Sys
  {
    Sys(a, b, 0, 0, [], [], [], [], racyA, racyB)
  }

  predicate Enabled(s: Sys, act: Action)
  {
    match act
    case StartA => s.doneA < |s.a|
    case StartB => s.doneB < |s.b|
    case DeliverToA => s.ba != [] && (s.racyA || s.doneA >= |s.a|)
    case DeliverToB => s.ab != [] && (s.racyB || s.doneB >= |s.b|)
  }

  function StartedA(s: Sys): Sys
    requires s.doneA < |s.a|
  {
    var out := InitialRequest(s.a[s.doneA]);
    s.(doneA := s.doneA + 1, ab := s.ab + out, sentA := s.sentA + out)
  }

  function DeliveredToB(s: Sys): Sys
    requires s.ab != []
  {
    var out := Replies(s.b, s.ab[0]);
    s.(b := UpdatedTable(s.b, s.ab[0]), ab := s.ab[1..], ba := s.ba + out, sentB := s.sentB + out)
  }

  function Next(s: Sys, act: Action): Sys
    requires Enabled(s, act)
  {
    match act
    case StartA => StartedA(s)
    case DeliverToB => DeliveredToB(s)
    case StartB => Flip(StartedA(Flip(s)))
    case DeliverToA => Flip(DeliveredToB(Flip(s)))
  }

  // The same system seen from the other side.
  function Flip(s: Sys): Sys
  {
    Sys(s.b, s.a, s.doneB, s.doneA, s.ba, s.ab, s.sentB, s.sentA, s.racyB, s.racyA)
  }

  predicate Quiescent(s: Sys)
  {
    s.doneA >= |s.a| && s.doneB >= |s.b| && s.ab == [] && s.ba == []
  }

  ghost predicate CanStep(s: Sys, s': Sys)
  {
    exists act :: Enabled(s, act) && s' == Next(s, act)
  }

  // The states a run passes through.
  ghost predicate IsRun(run: seq<Sys>)
  {
    run != [] && forall i :: 0 <= i < |run| - 1 ==> CanStep(run[i], run[i + 1])
  }

  function Last(run: seq<Sys>): Sys
    requires run != []
  {
    run[|run| - 1]
  }

  // ---------- one link: a machine and its counterpart ----------

  // The first machine for an option and direction, or |t|.
  function Index(t: Table, option: Byte, r: Role): (i: nat)
    ensures i <= |t|
    ensures i < |t| ==> t[i].option == option && t[i].role == r
    ensures forall j :: 0 <= j < i ==> !(t[j].option == option && t[j].role == r)
  {
    if t == [] then 0
    else if t[0].option == option && t[0].role == r then 0
    else
      var i := 1 + Index(t[1..], option, r);
      assert forall j :: 1 <= j < i ==> t[j] == t[1..][j - 1];
      i
  }

  datatype Part = Missing(known: bool) | Present(state: RequestState, active: bool, started: bool)

  function PartOf(t: Table, done: nat, option: Byte, r: Role): Part
  {
    var i := Index(t, option, r);
    if i < |t| then Present(t[i].state, t[i].active, i < done) else Missing(Knows(t, option))
  }

  function VerbRole(verb: Byte): Role { if verb == WILL || verb == WONT then We else They }

  predicate Positive(verb: Byte) { verb == WILL || verb == DO }

  // The verdicts on the way for one option, from the sender's machine in role r.
  function Pending(ch: seq<Message>, option: Byte, r: Role): seq<bool>
  {
    if ch == [] then [] else VerdictOf(ch[0], option, r) + Pending(ch[1..], option, r)
  }

  function VerdictOf(m: Message, option: Byte, r: Role): seq<bool>
  {
    if m.option == option && VerbRole(m.verb) == r then [Positive(m.verb)] else []
  }

  // X is A's machine in role r, Y its counterpart on B.  sx and sy count the messages sent.
  datatype Link = Link(x: Part, y: Part, xy: seq<bool>, yx: seq<bool>, sx: nat, sy: nat,
                       racyX: bool, racyY: bool)

  function LinkOf(s: Sys, option: Byte, r: Role): Link
  {
    Link(PartOf(s.a, s.doneA, option, r), PartOf(s.b, s.doneB, option, Dual(r)),
         Pending(s.ab, option, r), Pending(s.ba, option, Dual(r)),
         |Pending(s.sentA, option, r)|, |Pending(s.sentB, option, Dual(r))|, s.racyA, s.racyB)
  }

  function FlipLink(l: Link): Link
  {
    Link(l.y, l.x, l.yx, l.xy, l.sy, l.sx, l.racyY, l.racyX)
  }

  function PartAfter(p: Part, yes: bool): Part
  {
    if p.Missing? then p
    else if yes then
      if p.state == REQUESTED || p.state == INACTIVE then p.(state := ACTIVE, active := true) else p
    else
      if p.state == REQUESTED || p.state == ACTIVE then p.(state := INACTIVE, active := false) else p
  }

  function PartReply(p: Part, yes: bool): seq<bool>
  {
    if p.Missing? then (if !p.known && yes then [false] else [])
    else if yes && p.state == INACTIVE then [true]
    else if yes && p.state == REALLY_INACTIVE then [false]
    else if !yes && p.state == ACTIVE then [false]
    else []
  }

  // ---------- what a link can look like ----------

  predicate Wants(p: Part) { p.Present? && p.state == REQUESTED }

  predicate Idle(p: Part) { p.Missing? || (p.state == INACTIVE && !p.active) }

  predicate Is(p: Part, st: RequestState) { p.Present? && p.state == st && p.active == (st == ACTIVE) }

  predicate SameKind(p: Part, p0: Part)
  {
    (p.Present? <==> p0.Present?) && (p.Missing? ==> p == p0)
  }

  // Neither side asked: nothing ever happens.
  predicate SilentLink(l: Link, x0: Part, y0: Part)
  {
    Idle(l.x) && Idle(l.y) && l.xy == l.yx == [] && l.sx == l.sy == 0
  }

  // Only X asks.  It has not asked yet; its request is on the way; the answer, if there is one,
  // is on the way; it is over.
  predicate AskingLink(l: Link, y0: Part)
  {
    var unasked := Is(l.x, REQUESTED) && !l.x.started && l.sx == 0 && l.sy == 0 && l.xy == l.yx == [];
    var asked := Is(l.x, REQUESTED) && l.x.started && l.sx == 1 && l.sy == 0 && l.xy == [true] && l.yx == [];
    var answered := Is(l.x, REQUESTED) && l.x.started && l.sx == 1 && l.xy == [];
    var over := l.x.Present? && l.x.started && l.sx == 1 && l.xy == l.yx == [];
    if y0.Present? then
      || (Is(l.y, INACTIVE) && (unasked || asked))
      || (Is(l.y, ACTIVE) && answered && l.yx == [true] && l.sy == 1)
      || (Is(l.y, ACTIVE) && over && Is(l.x, ACTIVE) && l.sy == 1)
    else if y0.known then
      unasked || asked || (over && Is(l.x, REQUESTED) && l.sy == 0)
    else
      || unasked || asked
      || (answered && l.yx == [false] && l.sy == 1)
      || (over && Is(l.x, INACTIVE) && l.sy == 1)
  }

  // Both ask.  A side is active exactly when the other's request arrived; a racy side that
  // became active before its turn never sends its own.
  predicate MutualHalf(p: Part, out: seq<bool>, sent: nat, q: Part, racy: bool)
  {
    && (Is(p, REQUESTED) || Is(p, ACTIVE))
    && sent <= 1
    && out == (if sent == 1 && Is(q, REQUESTED) then [true] else [])
    && (Is(q, ACTIVE) ==> sent == 1)
    && (!p.started ==> sent == 0)
    && (!p.started && Is(p, ACTIVE) ==> racy)
    && (p.started && sent == 0 ==> racy && Is(p, ACTIVE))
  }

  predicate MutualLink(l: Link)
  {
    && l.x.Present? && l.y.Present?
    && MutualHalf(l.x, l.xy, l.sx, l.y, l.racyX)
    && MutualHalf(l.y, l.yx, l.sy, l.x, l.racyY)
  }

  // x0 and y0 are the two machines before the negotiation.
  predicate LinkOk(l: Link, x0: Part, y0: Part)
  {
    && SameKind(l.x, x0) && SameKind(l.y, y0)
    && if Wants(x0) && Wants(y0) then MutualLink(l)
       else if Wants(x0) then AskingLink(l, y0)
       else if Wants(y0) then AskingLink(FlipLink(l), x0)
       else SilentLink(l, x0, y0)
  }

  // ---------- steps of a link ----------

  function LinkStart(l: Link): Link
    requires l.x.Present?
  {
    var l1 := l.(x := l.x.(started := true));
    if l.x.state == REQUESTED then l1.(xy := l.xy + [true], sx := l.sx + 1) else l1
  }

  function LinkDeliver(l: Link): Link
    requires l.xy != []
  {
    var out := PartReply(l.y, l.xy[0]);
    l.(y := PartAfter(l.y, l.xy[0]), xy := l.xy[1..], yx := l.yx + out, sy := l.sy + |out|)
  }

  lemma LinkStartOk(l: Link, x0: Part, y0: Part)
    requires LinkOk(l, x0, y0) && l.x.Present? && !l.x.started
    ensures LinkOk(LinkStart(l), x0, y0)
  {
  }

  lemma LinkDeliverOk(l: Link, x0: Part, y0: Part)
    requires LinkOk(l, x0, y0) && l.xy != []
    requires l.racyY || (l.y.Present? ==> l.y.started)
    ensures LinkOk(LinkDeliver(l), x0, y0)
  {
  }

  lemma LinkFlipOk(l: Link, x0: Part, y0: Part)
    ensures LinkOk(l, x0, y0) <==> LinkOk(FlipLink(l), y0, x0)
  {
    assert FlipLink(FlipLink(l)) == l;
  }

  // ---------- steps of the system, link by link ----------

  lemma {:induction false} PendingJoin(a: seq<Message>, b: seq<Message>, option: Byte, r: Role)
    ensures Pending(a + b, option, r) == Pending(a, option, r) + Pending(b, option, r)
    decreases |a|
  {
    if a == [] {
      assert a + b == b;
    } else {
      var both, first := a + b, VerdictOf(a[0], option, r);
      assert both[0] == a[0] && both[1..] == a[1..] + b;
      PendingJoin(a[1..], b, option, r);
      assert first + (Pending(a[1..], option, r) + Pending(b, option, r))
          == first + Pending(a[1..], option, r) + Pending(b, option, r);
    }
  }

  lemma {:induction false} IndexSame(t: Table, u: Table, option: Byte, r: Role)
    requires |t| == |u| && forall i :: 0 <= i < |t| ==> t[i].option == u[i].option && t[i].role == u[i].role
    ensures Index(t, option, r) == Index(u, option, r)
  {
    var i, j := Index(t, option, r), Index(u, option, r);
  }

  lemma UpdatedTableShape(t: Table, m: Message)
    ensures var u := UpdatedTable(t, m);
            |u| == |t| && (forall i :: 0 <= i < |t| ==> u[i].option == t[i].option && u[i].role == t[i].role)
    ensures forall option :: Knows(UpdatedTable(t, m), option) <==> Knows(t, option)
    ensures Distinct(t) ==> Distinct(UpdatedTable(t, m))
  {
    var u := UpdatedTable(t, m);
    forall option ensures Knows(u, option) <==> Knows(t, option) {
      if Knows(t, option) {
        var i :| 0 <= i < |t| && t[i].option == option;
        assert u[i].option == option;
      }
      if Knows(u, option) {
        var i :| 0 <= i < |u| && u[i].option == option;
        assert t[i].option == option;
      }
    }
  }

  // Only the machine in the role a message addresses moves.
  lemma PartUpdated(t: Table, done: nat, m: Message, option: Byte, r: Role)
    requires Distinct(t) && IsAction(m.verb)
    ensures PartOf(UpdatedTable(t, m), done, option, r) ==
            if option == m.option && r == Dual(VerbRole(m.verb))
            then PartAfter(PartOf(t, done, option, r), Positive(m.verb))
            else PartOf(t, done, option, r)
  {
    UpdatedTableShape(t, m);
    IndexSame(t, UpdatedTable(t, m), option, r);
  }

  // Only a machine in the role a verb addresses replies to it.
  lemma WrongRole(p: Machine, verb: Byte)
    requires IsAction(verb) && p.role != Dual(VerbRole(verb))
    ensures Reply(p, verb) == []
  {
  }

  lemma {:induction false} NobodyAddressed(t: Table, m: Message)
    requires IsAction(m.verb)
    requires forall i :: 0 <= i < |t| ==> !(t[i].option == m.option && t[i].role == Dual(VerbRole(m.verb)))
    ensures MatchReplies(t, m) == []
  {
    if t != [] {
      if t[0].option == m.option { WrongRole(t[0], m.verb); }
      NobodyAddressed(t[1..], m);
    }
  }

  lemma DistinctRest(t: Table)
    requires Distinct(t) && t != []
    ensures Distinct(t[1..])
    ensures forall i :: 0 <= i < |t[1..]| ==> !(t[1..][i].option == t[0].option && t[1..][i].role == t[0].role)
  {
  }

  lemma {:induction false} OneReply(t: Table, m: Message)
    requires Distinct(t) && IsAction(m.verb)
    ensures var i := Index(t, m.option, Dual(VerbRole(m.verb)));
            MatchReplies(t, m) == if i < |t| then Reply(t[i], m.verb) else []
  {
    if t != [] {
      var r := Dual(VerbRole(m.verb));
      DistinctRest(t);
      if t[0].option == m.option && t[0].role == r {
        NobodyAddressed(t[1..], m);
        assert Reply(t[0], m.verb) + [] == Reply(t[0], m.verb);
      } else {
        if t[0].option == m.option { WrongRole(t[0], m.verb); }
        OneReply(t[1..], m);
        assert Index(t, m.option, r) == 1 + Index(t[1..], m.option, r);
      }
    }
  }

  lemma PendingOne(m: Message, option: Byte, r: Role)
    ensures Pending([m], option, r) == if m.option == option && VerbRole(m.verb) == r then [Positive(m.verb)] else []
  {
    assert [m][1..] == [];
  }

  lemma ReplyPending(m: Machine, verb: Byte, option: Byte, r: Role)
    requires IsAction(verb) && m.role == Dual(VerbRole(verb))
    ensures Pending(Reply(m, verb), option, r) ==
            if option == m.option && r == m.role
            then PartReply(Present(m.state, m.active, true), Positive(verb)) else []
  {
    var out := Reply(m, verb);
    if out != [] { PendingOne(out[0], option, r); assert out == [out[0]]; }
  }

  lemma DenialPending(m: Message, option: Byte, r: Role)
    requires m.verb == WILL || m.verb == DO
    ensures Pending([Message(if m.verb == WILL then DONT else WONT, m.option)], option, r) ==
            if option == m.option && r == Dual(VerbRole(m.verb)) then [false] else []
  {
    PendingOne(Message(if m.verb == WILL then DONT else WONT, m.option), option, r);
  }

  lemma RepliesShape(t: Table, m: Message)
    requires Distinct(t) && IsAction(m.verb)
    ensures forall i :: 0 <= i < |Replies(t, m)| ==> IsAction(Replies(t, m)[i].verb)
    ensures |Replies(t, m)| <= 1
  {
    OneReply(t, m);
  }

  // The replies to a message, seen by one link.
  lemma RepliesSeen(t: Table, done: nat, m: Message, option: Byte, r: Role)
    requires Distinct(t) && IsAction(m.verb)
    ensures Pending(Replies(t, m), option, r) ==
            if option == m.option && r == Dual(VerbRole(m.verb))
            then PartReply(PartOf(t, done, option, r), Positive(m.verb)) else []
  {
    var i := Index(t, m.option, Dual(VerbRole(m.verb)));
    OneReply(t, m);
    if i < |t| {
      assert Knows(t, m.option);
      ReplyPending(t[i], m.verb, option, r);
    } else {
      StrangerReplies(t, m, option, r);
    }
  }

  // Without a machine to address, an unknown option is denied and a known one ignored.
  lemma StrangerReplies(t: Table, m: Message, option: Byte, r: Role)
    requires IsAction(m.verb) && MatchReplies(t, m) == []
    ensures Pending(Replies(t, m), option, r) ==
            if option == m.option && r == Dual(VerbRole(m.verb))
            then PartReply(Missing(Knows(t, option)), Positive(m.verb)) else []
  {
    if !Knows(t, m.option) && Positive(m.verb) { DenialPending(m, option, r); }
  }

  predicate AllActions(ch: seq<Message>) { forall i :: 0 <= i < |ch| ==> IsAction(ch[i].verb) }

  // The same machines, in the same order, as at the beginning.
  predicate SameShape(t: Table, t0: Table)
  {
    |t| == |t0| && forall i :: 0 <= i < |t| ==> t[i].option == t0[i].option && t[i].role == t0[i].role
  }

  ghost predicate Inv(s: Sys, a0: Table, b0: Table)
  {
    && Fresh(a0) && Fresh(b0) && Distinct(s.a) && Distinct(s.b)
    && SameShape(s.a, a0) && SameShape(s.b, b0)
    && s.doneA <= |s.a| && s.doneB <= |s.b|
    && AllActions(s.ab) && AllActions(s.ba)
    && forall option, r :: LinkOk(LinkOf(s, option, r), PartOf(a0, 0, option, r), PartOf(b0, 0, option, Dual(r)))
  }

  lemma LinkOfFlip(s: Sys, option: Byte, r: Role)
    ensures LinkOf(Flip(s), option, Dual(r)) == FlipLink(LinkOf(s, option, r))
  {
    assert Dual(Dual(r)) == r;
  }

  lemma InvFlip(s: Sys, a0: Table, b0: Table)
    requires Inv(s, a0, b0)
    ensures Inv(Flip(s), b0, a0)
  {
    forall option, r
      ensures LinkOk(LinkOf(Flip(s), option, r), PartOf(b0, 0, option, r), PartOf(a0, 0, option, Dual(r)))
    {
      assert Dual(Dual(r)) == r;
      LinkOfFlip(s, option, Dual(r));
      var l := LinkOf(s, option, Dual(r));
      assert LinkOk(l, PartOf(a0, 0, option, Dual(r)), PartOf(b0, 0, option, Dual(Dual(r))));
      LinkFlipOk(l, PartOf(a0, 0, option, Dual(r)), PartOf(b0, 0, option, r));
    }
  }

  lemma InvInitial(a0: Table, b0: Table, racyA: bool, racyB: bool)
    requires Fresh(a0) && Fresh(b0)
    ensures Inv(Initial(a0, b0, racyA, racyB), a0, b0)
  {
    var s := Initial(a0, b0, racyA, racyB);
    forall option, r
      ensures LinkOk(LinkOf(s, option, r), PartOf(a0, 0, option, r), PartOf(b0, 0, option, Dual(r)))
    {
      LinkInitialOk(PartOf(a0, 0, option, r), PartOf(b0, 0, option, Dual(r)), racyA, racyB);
    }
  }

  lemma LinkInitialOk(x0: Part, y0: Part, racyX: bool, racyY: bool)
    requires (Wants(x0) || Idle(x0)) && (Wants(y0) || Idle(y0))
    requires (x0.Present? ==> !x0.active && !x0.started) && (y0.Present? ==> !y0.active && !y0.started)
    ensures LinkOk(Link(x0, y0, [], [], 0, 0, racyX, racyY), x0, y0)
  {
  }

  lemma RequestSeen(t: Table, done: nat, option: Byte, r: Role)
    requires Distinct(t) && done < |t|
    ensures Pending(InitialRequest(t[done]), option, r) ==
            if Index(t, option, r) == done && t[done].state == REQUESTED then [true] else []
  {
    var m := t[done];
    var out := InitialRequest(m);
    if out != [] {
      PendingOne(out[0], option, r);
      assert out == [out[0]];
    }
  }

  // The effect of a startup step of A on each link.
  lemma StartSeen(s: Sys, option: Byte, r: Role)
    requires s.doneA < |s.a| && Distinct(s.a)
    ensures var l := LinkOf(s, option, r);
            LinkOf(StartedA(s), option, r) ==
              if Index(s.a, option, r) == s.doneA then LinkStart(l) else l
  {
    StartSent(s, option, r);
    StartedPart(s.a, s.doneA, option, r);
    var l, l' := LinkOf(s, option, r), LinkOf(StartedA(s), option, r);
    if RequestsNow(s, option, r) {
      assert l' == l.(x := l.x.(started := true), xy := l.xy + [true], sx := l.sx + 1);
    } else {
      assert l'.xy == l.xy && l'.sx == l.sx;
    }
  }

  // The machine that starts next is the one of this link and it has a request to send.
  predicate RequestsNow(s: Sys, option: Byte, r: Role)
    requires s.doneA < |s.a|
  {
    Index(s.a, option, r) == s.doneA && s.a[s.doneA].state == REQUESTED
  }

  lemma StartSent(s: Sys, option: Byte, r: Role)
    requires s.doneA < |s.a| && Distinct(s.a)
    ensures var s', ab, sent := StartedA(s), Pending(s.ab, option, r), Pending(s.sentA, option, r);
            if RequestsNow(s, option, r)
            then Pending(s'.ab, option, r) == ab + [true] && Pending(s'.sentA, option, r) == sent + [true]
            else Pending(s'.ab, option, r) == ab && Pending(s'.sentA, option, r) == sent
  {
    var out := InitialRequest(s.a[s.doneA]);
    PendingJoin(s.ab, out, option, r);
    PendingJoin(s.sentA, out, option, r);
    RequestSeen(s.a, s.doneA, option, r);
  }

  lemma StartedPart(t: Table, done: nat, option: Byte, r: Role)
    requires done < |t|
    ensures var p := PartOf(t, done, option, r);
            if Index(t, option, r) == done
            then p.Present? && p.state == t[done].state && PartOf(t, done + 1, option, r) == p.(started := true)
            else PartOf(t, done + 1, option, r) == p
  {
  }

  // The effect of a delivery to B on each link.
  lemma DeliverSeen(s: Sys, option: Byte, r: Role)
    requires s.ab != [] && Distinct(s.b) && AllActions(s.ab)
    ensures var l := LinkOf(s, option, r);
            if s.ab[0].option == option && VerbRole(s.ab[0].verb) == r
            then l.xy != [] && LinkOf(DeliveredToB(s), option, r) == LinkDeliver(l)
            else LinkOf(DeliveredToB(s), option, r) == l
  {
    var m := s.ab[0];
    PartUpdated(s.b, s.doneB, m, option, Dual(r));
    DeliverSent(s, option, r);
    var l, l' := LinkOf(s, option, r), LinkOf(DeliveredToB(s), option, r);
    if m.option == option && VerbRole(m.verb) == r {
      var answer := PartReply(l.y, Positive(m.verb));
      assert l.xy[0] == Positive(m.verb) && l.xy[1..] == l'.xy;
      assert l' == l.(y := PartAfter(l.y, l.xy[0]), xy := l.xy[1..], yx := l.yx + answer, sy := l.sy + |answer|);
    } else {
      assert l'.y == l.y && l'.xy == l.xy && l'.yx == l.yx && l'.sy == l.sy;
    }
  }

  lemma DeliverSent(s: Sys, option: Byte, r: Role)
    requires s.ab != [] && Distinct(s.b) && AllActions(s.ab)
    ensures var m := s.ab[0];
            var here := m.option == option && VerbRole(m.verb) == r;
            var answer := if here then PartReply(PartOf(s.b, s.doneB, option, Dual(r)), Positive(m.verb)) else [];
            && Pending(s.ab, option, r) == (if here then [Positive(m.verb)] else []) + Pending(s.ab[1..], option, r)
            && Pending(DeliveredToB(s).ba, option, Dual(r)) == Pending(s.ba, option, Dual(r)) + answer
            && Pending(DeliveredToB(s).sentB, option, Dual(r)) == Pending(s.sentB, option, Dual(r)) + answer
  {
    var m := s.ab[0];
    var out := Replies(s.b, m);
    assert Dual(r) == Dual(VerbRole(m.verb)) <==> r == VerbRole(m.verb);
    RepliesSeen(s.b, s.doneB, m, option, Dual(r));
    PendingJoin(s.ba, out, option, Dual(r));
    PendingJoin(s.sentB, out, option, Dual(r));
  }

  lemma InvStartA(s: Sys, a0: Table, b0: Table)
    requires Inv(s, a0, b0) && Enabled(s, StartA)
    ensures Inv(StartedA(s), a0, b0)
  {
    var s' := StartedA(s);
    forall option, r
      ensures LinkOk(LinkOf(s', option, r), PartOf(a0, 0, option, r), PartOf(b0, 0, option, Dual(r)))
    {
      StartSeen(s, option, r);
      assert LinkOk(LinkOf(s, option, r), PartOf(a0, 0, option, r), PartOf(b0, 0, option, Dual(r)));
      if Index(s.a, option, r) == s.doneA {
        LinkStartOk(LinkOf(s, option, r), PartOf(a0, 0, option, r), PartOf(b0, 0, option, Dual(r)));
      }
    }
  }

  lemma InvDeliverToB(s: Sys, a0: Table, b0: Table)
    requires Inv(s, a0, b0) && Enabled(s, DeliverToB)
    ensures Inv(DeliveredToB(s), a0, b0)
  {
    var s' := DeliveredToB(s);
    UpdatedTableShape(s.b, s.ab[0]);
    RepliesShape(s.b, s.ab[0]);
    forall option, r
      ensures LinkOk(LinkOf(s', option, r), PartOf(a0, 0, option, r), PartOf(b0, 0, option, Dual(r)))
    {
      DeliverSeen(s, option, r);
      var l := LinkOf(s, option, r);
      assert LinkOk(l, PartOf(a0, 0, option, r), PartOf(b0, 0, option, Dual(r)));
      if s.ab[0].option == option && VerbRole(s.ab[0].verb) == r {
        LinkDeliverOk(l, PartOf(a0, 0, option, r), PartOf(b0, 0, option, Dual(r)));
      }
    }
  }

  lemma InvNext(s: Sys, act: Action, a0: Table, b0: Table)
    requires Inv(s, a0, b0) && Enabled(s, act)
    ensures Inv(Next(s, act), a0, b0)
  {
    match act
    case StartA => InvStartA(s, a0, b0);
    case DeliverToB => InvDeliverToB(s, a0, b0);
    case StartB =>
      InvFlip(s, a0, b0);
      InvStartA(Flip(s), b0, a0);
      InvFlip(StartedA(Flip(s)), b0, a0);
    case DeliverToA =>
      InvFlip(s, a0, b0);
      InvDeliverToB(Flip(s), b0, a0);
      InvFlip(DeliveredToB(Flip(s)), b0, a0);
  }

  lemma {:induction false} InvRun(run: seq<Sys>, a0: Table, b0: Table)
    requires IsRun(run) && Inv(run[0], a0, b0)
    ensures Inv(Last(run), a0, b0)
    decreases |run|
  {
    if |run| > 1 {
      assert CanStep(run[0], run[0 + 1]);
      var act :| Enabled(run[0], act) && run[0 + 1] == Next(run[0], act);
      InvNext(run[0], act, a0, b0);
      InvRun(run[1..], a0, b0);
    }
  }

  // ---------- where a negotiation ends ----------

  predicate Active(t: Table, option: Byte, r: Role)
  {
    var i := Index(t, option, r); i < |t| && t[i].active
  }

  predicate Has(t: Table, option: Byte, r: Role) { Index(t, option, r) < |t| }

  predicate Requests(t: Table, option: Byte, r: Role) { Wants(PartOf(t, 0, option, r)) }

  // Both sides request the option, for the same direction.
  predicate Mutual(a: Table, b: Table, option: Byte, r: Role)
  {
    Requests(a, option, r) && Requests(b, option, Dual(r))
  }

  // Every machine is active exactly when its counterpart is.
  ghost predicate Agreed(s: Sys)
  {
    forall option, r :: Active(s.a, option, r) == Active(s.b, option, Dual(r))
  }

  // At quiescence a link is active on both sides exactly when both sides have the machine and one
  // of them requested it.  The exception is an option both request while one side may receive
  // before it has sent its requests: then each side is active exactly when the other one's
  // request was sent, and at least one is.
  lemma QuiescentLink(s: Sys, a0: Table, b0: Table, option: Byte, r: Role)
    requires Inv(s, a0, b0) && Quiescent(s)
    ensures var both := Has(a0, option, r) && Has(b0, option, Dual(r));
            var asked := Requests(a0, option, r) || Requests(b0, option, Dual(r));
            var onA, onB := Active(s.a, option, r), Active(s.b, option, Dual(r));
            var l := LinkOf(s, option, r);
            if Mutual(a0, b0, option, r)
            then (onA <==> l.sy == 1) && (onB <==> l.sx == 1) && (onA || onB) &&
                 (!s.racyA ==> onB) && (!s.racyB ==> onA)
            else onA == onB == (both && asked)
  {
    var l, x0, y0 := LinkOf(s, option, r), PartOf(a0, 0, option, r), PartOf(b0, 0, option, Dual(r));
    assert LinkOk(l, x0, y0);
    IndexSame(s.a, a0, option, r);
    IndexSame(s.b, b0, option, Dual(r));
    QuietLink(l, x0, y0);
  }

  predicate On(p: Part) { p.Present? && p.active }

  lemma QuietLink(l: Link, x0: Part, y0: Part)
    requires LinkOk(l, x0, y0) && l.xy == l.yx == []
    requires (l.x.Present? ==> l.x.started) && (l.y.Present? ==> l.y.started)
    ensures if Wants(x0) && Wants(y0)
            then (On(l.x) <==> l.sy == 1) && (On(l.y) <==> l.sx == 1) && (On(l.x) || On(l.y)) &&
                 (!l.racyX ==> On(l.y)) && (!l.racyY ==> On(l.x))
            else On(l.x) == On(l.y) == (x0.Present? && y0.Present? && (Wants(x0) || Wants(y0)))
  {
  }

  // An option that both have and only one of them asks for is agreed on, racy or not.
  lemma AskedIsAgreed(a0: Table, b0: Table, racyA: bool, racyB: bool, e: Sys, option: Byte, r: Role)
    requires Fresh(a0) && Fresh(b0) && Reaches(Initial(a0, b0, racyA, racyB), e) && Quiescent(e)
    requires Has(a0, option, r) && Has(b0, option, Dual(r))
    requires Requests(a0, option, r) != Requests(b0, option, Dual(r))
    ensures Active(e.a, option, r) && Active(e.b, option, Dual(r))
  {
    var run :| IsRun(run) && run[0] == Initial(a0, b0, racyA, racyB) && Last(run) == e;
    InvInitial(a0, b0, racyA, racyB);
    InvRun(run, a0, b0);
    QuiescentLink(e, a0, b0, option, r);
  }

  lemma OneMessageEach(s: Sys, a0: Table, b0: Table, option: Byte, r: Role)
    requires Inv(s, a0, b0)
    ensures |Pending(s.sentA, option, r)| <= 1 && |Pending(s.sentB, option, Dual(r))| <= 1
  {
    var l := LinkOf(s, option, r);
    assert LinkOk(l, PartOf(a0, 0, option, r), PartOf(b0, 0, option, Dual(r)));
    assert l.sx <= 1 && l.sy <= 1;
  }

  lemma RacyFixed(run: seq<Sys>)
    requires IsRun(run)
    ensures Last(run).racyA == run[0].racyA && Last(run).racyB == run[0].racyB
    decreases |run|
  {
    if |run| > 1 {
      assert CanStep(run[0], run[0 + 1]);
      RacyFixed(run[1..]);
    }
  }

  // The main result: every run between any two tables sends at most one message per option and
  // direction each way, racy startup or not.  If it ended, it ended in agreement, with exactly
  // the options that both sides have and one requested; with a racy startup that is promised of
  // the options that not both requested.
  lemma Negotiation(run: seq<Sys>, a0: Table, b0: Table, racyA: bool, racyB: bool)
    requires Fresh(a0) && Fresh(b0) && IsRun(run) && run[0] == Initial(a0, b0, racyA, racyB)
    ensures forall option, r ::
      |Pending(Last(run).sentA, option, r)| <= 1 && |Pending(Last(run).sentB, option, r)| <= 1
    ensures Quiescent(Last(run)) ==> forall option, r :: !Mutual(a0, b0, option, r) || (!racyA && !racyB) ==>
      Active(Last(run).a, option, r) == Active(Last(run).b, option, Dual(r)) ==
        (Has(a0, option, r) && Has(b0, option, Dual(r)) &&
         (Requests(a0, option, r) || Requests(b0, option, Dual(r))))
  {
    InvInitial(a0, b0, racyA, racyB);
    InvRun(run, a0, b0);
    RacyFixed(run);
    var s := Last(run);
    forall option, r ensures |Pending(s.sentA, option, r)| <= 1 && |Pending(s.sentB, option, r)| <= 1 {
      OneMessageEach(s, a0, b0, option, r);
      OneMessageEach(s, a0, b0, option, Dual(r));
      assert Dual(Dual(r)) == r;
    }
    if Quiescent(s) {
      forall option, r | !Mutual(a0, b0, option, r) || (!racyA && !racyB)
        ensures Active(s.a, option, r) == Active(s.b, option, Dual(r)) ==
          (Has(a0, option, r) && Has(b0, option, Dual(r)) &&
           (Requests(a0, option, r) || Requests(b0, option, Dual(r))))
      {
        QuiescentLink(s, a0, b0, option, r);
      }
    }
  }

  // ---------- every run ends ----------

  // An initial request weighs two, an answer one.
  function Weight(m: Message, t0: Table): nat
  {
    if Positive(m.verb) && Requests(t0, m.option, VerbRole(m.verb)) then 2 else 1
  }

  function Weights(ch: seq<Message>, t0: Table): nat
  {
    if ch == [] then 0 else Weight(ch[0], t0) + Weights(ch[1..], t0)
  }

  function Remaining(s: Sys, a0: Table, b0: Table): int
  {
    3 * (|s.a| - s.doneA) + 3 * (|s.b| - s.doneB) + Weights(s.ab, a0) + Weights(s.ba, b0)
  }

  lemma {:induction false} WeightsJoin(a: seq<Message>, b: seq<Message>, t0: Table)
    ensures Weights(a + b, t0) == Weights(a, t0) + Weights(b, t0)
    decreases |a|
  {
    if a == [] {
      assert a + b == b;
    } else {
      assert (a + b)[1..] == a[1..] + b;
      WeightsJoin(a[1..], b, t0);
    }
  }

  lemma WeightsShort(out: seq<Message>, t0: Table)
    requires |out| <= 1
    ensures Weights(out, t0) == if out == [] then 0 else Weight(out[0], t0)
  {
    if out != [] { assert out[1..] == []; }
  }

  // What is delivered to B is answered only if A asked, and the answer is a positive one only if
  // B did not ask itself.
  lemma AnswerSeen(s: Sys, a0: Table, b0: Table)
    requires Inv(s, a0, b0) && s.ab != []
    requires s.racyB || s.doneB >= |s.b|
    ensures var m, out := s.ab[0], Replies(s.b, s.ab[0]);
            |out| <= 1 &&
            (out != [] ==>
              && Positive(m.verb) && Requests(a0, m.option, VerbRole(m.verb))
              && out[0].option == m.option && VerbRole(out[0].verb) == Dual(VerbRole(m.verb))
              && (Positive(out[0].verb) ==> !Requests(b0, m.option, Dual(VerbRole(m.verb)))))
  {
    var m := s.ab[0];
    var option, r := m.option, VerbRole(m.verb);
    var out := Replies(s.b, m);
    RepliesShape(s.b, m);
    RepliesSeen(s.b, s.doneB, m, option, Dual(r));
    AnswerAllowed(s, a0, b0);
    if out != [] {
      ReplyAddress(s.b, m);
      PendingOne(out[0], option, Dual(r));
      assert out == [out[0]];
    }
  }

  lemma AnswerAllowed(s: Sys, a0: Table, b0: Table)
    requires Inv(s, a0, b0) && s.ab != []
    requires s.racyB || s.doneB >= |s.b|
    ensures var option, r, yes := s.ab[0].option, VerbRole(s.ab[0].verb), Positive(s.ab[0].verb);
            var answer := PartReply(PartOf(s.b, s.doneB, option, Dual(r)), yes);
            answer != [] ==> yes && Requests(a0, option, r) && (answer[0] ==> !Requests(b0, option, Dual(r)))
  {
    var option, r := s.ab[0].option, VerbRole(s.ab[0].verb);
    var l := LinkOf(s, option, r);
    assert LinkOk(l, PartOf(a0, 0, option, r), PartOf(b0, 0, option, Dual(r)));
    assert VerdictOf(s.ab[0], option, r) == [Positive(s.ab[0].verb)];
    assert l.xy != [] && l.xy[0] == Positive(s.ab[0].verb);
    LinkReplyLight(l, PartOf(a0, 0, option, r), PartOf(b0, 0, option, Dual(r)));
  }

  // An answer is not answered, and a request is answered at most once.
  lemma AnswersAreLight(s: Sys, a0: Table, b0: Table)
    requires Inv(s, a0, b0) && s.ab != []
    requires s.racyB || s.doneB >= |s.b|
    ensures var out := Replies(s.b, s.ab[0]);
            |out| <= 1 && Weights(out, b0) < Weight(s.ab[0], a0)
  {
    AnswerSeen(s, a0, b0);
    WeightsShort(Replies(s.b, s.ab[0]), b0);
  }

  // Only a request is answered, and with a request only where there was none to begin with.
  lemma LinkReplyLight(l: Link, x0: Part, y0: Part)
    requires LinkOk(l, x0, y0) && l.xy != [] && (l.racyY || (l.y.Present? ==> l.y.started))
    ensures var out := PartReply(l.y, l.xy[0]);
            out != [] ==> l.xy[0] && Wants(x0) && (out[0] ==> !Wants(y0))
  {
  }

  lemma ReplyAddress(t: Table, m: Message)
    requires Distinct(t) && IsAction(m.verb) && Replies(t, m) != []
    ensures Replies(t, m)[0].option == m.option && VerbRole(Replies(t, m)[0].verb) == Dual(VerbRole(m.verb))
  {
    OneReply(t, m);
  }

  lemma StartLightens(s: Sys, a0: Table, b0: Table)
    requires Inv(s, a0, b0) && s.doneA < |s.a|
    ensures Remaining(StartedA(s), a0, b0) < Remaining(s, a0, b0)
  {
    var out := InitialRequest(s.a[s.doneA]);
    WeightsJoin(s.ab, out, a0);
    WeightsShort(out, a0);
  }

  lemma DeliverLightens(s: Sys, a0: Table, b0: Table)
    requires Inv(s, a0, b0) && s.ab != []
    requires s.racyB || s.doneB >= |s.b|
    ensures Remaining(DeliveredToB(s), a0, b0) < Remaining(s, a0, b0)
  {
    AnswersAreLight(s, a0, b0);
    WeightsJoin(s.ba, Replies(s.b, s.ab[0]), b0);
  }

  lemma NextLightens(s: Sys, act: Action, a0: Table, b0: Table)
    requires Inv(s, a0, b0) && Enabled(s, act)
    ensures Remaining(Next(s, act), a0, b0) < Remaining(s, a0, b0)
  {
    InvFlip(s, a0, b0);
    match act
    case StartA => StartLightens(s, a0, b0);
    case DeliverToB => DeliverLightens(s, a0, b0);
    case StartB => StartLightens(Flip(s), b0, a0);
    case DeliverToA => DeliverLightens(Flip(s), b0, a0);
  }

  lemma FirstStep(run: seq<Sys>) returns (act: Action)
    requires IsRun(run) && |run| > 1
    ensures Enabled(run[0], act) && run[1] == Next(run[0], act)
    ensures IsRun(run[1..]) && run[1..][0] == run[1] && Last(run[1..]) == Last(run)
  {
    assert CanStep(run[0], run[0 + 1]);
    act :| Enabled(run[0], act) && run[0 + 1] == Next(run[0], act);
  }

  lemma {:induction false} RunShort(run: seq<Sys>, a0: Table, b0: Table)
    requires IsRun(run) && Inv(run[0], a0, b0)
    ensures |run| - 1 + Remaining(Last(run), a0, b0) <= Remaining(run[0], a0, b0)
    ensures Remaining(Last(run), a0, b0) >= 0
    decreases |run|
  {
    if |run| > 1 {
      var act := FirstStep(run);
      InvNext(run[0], act, a0, b0);
      NextLightens(run[0], act, a0, b0);
      RunShort(run[1..], a0, b0);
    }
  }

  // Every run is finite, with a bound known beforehand, and stops only at quiescence.
  lemma RunsEnd(run: seq<Sys>, a0: Table, b0: Table, racyA: bool, racyB: bool)
    requires Fresh(a0) && Fresh(b0) && IsRun(run) && run[0] == Initial(a0, b0, racyA, racyB)
    ensures |run| - 1 <= 3 * (|a0| + |b0|)
    ensures (forall act :: !Enabled(Last(run), act)) ==> Quiescent(Last(run))
  {
    InvInitial(a0, b0, racyA, racyB);
    RunShort(run, a0, b0);
    if forall act :: !Enabled(Last(run), act) {
      assert !Enabled(Last(run), StartA) && !Enabled(Last(run), StartB);
      assert !Enabled(Last(run), DeliverToA) && !Enabled(Last(run), DeliverToB);
    }
  }

  // ---------- the startup race ----------

  ghost predicate Reaches(s: Sys, s': Sys)
  {
    exists run :: IsRun(run) && run[0] == s && Last(run) == s'
  }

  lemma ReachesSelf(s: Sys)
    ensures Reaches(s, s)
  {
    assert IsRun([s]) && Last([s]) == s;
  }

  lemma ReachesNext(s0: Sys, s: Sys, act: Action)
    requires Reaches(s0, s) && Enabled(s, act)
    ensures Reaches(s0, Next(s, act))
  {
    var run :| IsRun(run) && run[0] == s0 && Last(run) == s;
    var s' := Next(s, act);
    var run' := run + [s'];
    forall i | 0 <= i < |run'| - 1 ensures CanStep(run'[i], run'[i + 1]) {
      if i < |run| - 1 { assert CanStep(run[i], run[i + 1]); }
    }
    assert IsRun(run') && run'[0] == s0 && Last(run') == s';
  }

  // A has not started and B's request is still ahead of A or on its way.
  predicate Overtaking(l: Link)
  {
    Is(l.x, REQUESTED) && !l.x.started && Is(l.y, REQUESTED) && l.xy == []
    && l.yx == if l.y.started then [true] else []
  }

  // B's request overtook A's start: A is active, B will wait forever.
  predicate Lost(l: Link)
  {
    Is(l.x, ACTIVE) && Is(l.y, REQUESTED) && l.y.started && l.xy == [] && l.yx == []
  }

  // The delivery of B's request, if it is for this link, makes A active.
  lemma LinkOvertaken(l: Link)
    requires Overtaking(l) || Lost(l)
    ensures l.yx != [] ==> Lost(FlipLink(LinkDeliver(FlipLink(l))))
  {
  }

  lemma StartBSeen(s: Sys, option: Byte, r: Role)
    requires s.doneB < |s.b| && Distinct(s.b)
    ensures var l := LinkOf(s, option, r);
            LinkOf(Next(s, StartB), option, r) ==
              if Index(s.b, option, Dual(r)) == s.doneB then FlipLink(LinkStart(FlipLink(l))) else l
  {
    StartSeen(Flip(s), option, Dual(r));
    LinkOfFlip(s, option, r);
    LinkOfFlip(StartedA(Flip(s)), option, Dual(r));
    assert Dual(Dual(r)) == r;
  }

  lemma DeliverToASeen(s: Sys, option: Byte, r: Role)
    requires s.ba != [] && Distinct(s.a) && AllActions(s.ba)
    ensures var l, l' := LinkOf(s, option, r), LinkOf(Flip(DeliveredToB(Flip(s))), option, r);
            l' == l || (l.yx != [] && l' == FlipLink(LinkDeliver(FlipLink(l))))
  {
    DeliverSeen(Flip(s), option, Dual(r));
    LinkOfFlip(s, option, r);
    LinkOfFlip(DeliveredToB(Flip(s)), option, Dual(r));
    assert Dual(Dual(r)) == r;
  }

  lemma {:induction false} StartAllB(s0: Sys, s: Sys, a0: Table, b0: Table, option: Byte, r: Role)
    returns (e: Sys)
    requires Reaches(s0, s) && Inv(s, a0, b0) && Overtaking(LinkOf(s, option, r))
    ensures Reaches(s0, e) && Inv(e, a0, b0) && Overtaking(LinkOf(e, option, r))
    ensures e.doneB == |e.b| && e.racyA == s.racyA
    decreases |s.b| - s.doneB
  {
    if s.doneB == |s.b| { return s; }
    ReachesNext(s0, s, StartB);
    InvNext(s, StartB, a0, b0);
    StartBSeen(s, option, r);
    e := StartAllB(s0, Next(s, StartB), a0, b0, option, r);
  }

  lemma {:induction false} DeliverAllToA(s0: Sys, s: Sys, a0: Table, b0: Table, option: Byte, r: Role)
    returns (e: Sys)
    requires Reaches(s0, s) && Inv(s, a0, b0) && s.racyA
    requires s.doneB == |s.b| && (Overtaking(LinkOf(s, option, r)) || Lost(LinkOf(s, option, r)))
    ensures Reaches(s0, e) && Inv(e, a0, b0) && Lost(LinkOf(e, option, r))
    decreases |s.ba|
  {
    var l := LinkOf(s, option, r);
    if s.ba == [] {
      assert l.yx == [];
      return s;
    }
    ReachesNext(s0, s, DeliverToA);
    InvNext(s, DeliverToA, a0, b0);
    DeliverToASeen(s, option, r);
    LinkOvertaken(l);
    e := DeliverAllToA(s0, Next(s, DeliverToA), a0, b0, option, r);
  }

  lemma LostStays(s: Sys, act: Action, a0: Table, b0: Table, option: Byte, r: Role)
    requires Inv(s, a0, b0) && Enabled(s, act) && Lost(LinkOf(s, option, r))
    ensures Lost(LinkOf(Next(s, act), option, r))
  {
    match act
    case StartA => StartSeen(s, option, r);
    case StartB => StartBSeen(s, option, r);
    case DeliverToA => DeliverToASeen(s, option, r);
    case DeliverToB => DeliverSeen(s, option, r);
  }

  lemma {:induction false} DriveToEnd(s0: Sys, s: Sys, a0: Table, b0: Table, option: Byte, r: Role)
    returns (e: Sys)
    requires Reaches(s0, s) && Inv(s, a0, b0) && Lost(LinkOf(s, option, r))
    ensures Reaches(s0, e) && Inv(e, a0, b0) && Lost(LinkOf(e, option, r)) && Quiescent(e)
    decreases Remaining(s, a0, b0)
  {
    if Quiescent(s) { return s; }
    var act := if s.doneA < |s.a| then StartA
               else if s.doneB < |s.b| then StartB
               else if s.ba != [] then DeliverToA else DeliverToB;
    ReachesNext(s0, s, act);
    InvNext(s, act, a0, b0);
    NextLightens(s, act, a0, b0);
    LostStays(s, act, a0, b0, option, r);
    e := DriveToEnd(s0, Next(s, act), a0, b0, option, r);
  }

  lemma RaceLoses(a0: Table, b0: Table, option: Byte, r: Role) returns (e: Sys)
    requires Fresh(a0) && Fresh(b0) && Mutual(a0, b0, option, r)
    ensures Reaches(Initial(a0, b0, true, false), e) && Quiescent(e)
    ensures Active(e.a, option, r) && !Active(e.b, option, Dual(r))
  {
    var s0 := Initial(a0, b0, true, false);
    ReachesSelf(s0);
    InvInitial(a0, b0, true, false);
    var s1 := StartAllB(s0, s0, a0, b0, option, r);
    var s2 := DeliverAllToA(s0, s1, a0, b0, option, r);
    e := DriveToEnd(s0, s2, a0, b0, option, r);
  }

  // With a client that may receive before it has sent its requests, and a server that may not,
  // all completed negotiations agree exactly when no option is requested by both sides.
  lemma AgreementCondition(a0: Table, b0: Table)
    requires Fresh(a0) && Fresh(b0)
    ensures (forall e :: Reaches(Initial(a0, b0, true, false), e) && Quiescent(e) ==> Agreed(e))
            <==> (forall option, r :: !Mutual(a0, b0, option, r))
  {
    var s0 := Initial(a0, b0, true, false);
    if option, r :| Mutual(a0, b0, option, r) {
      var e := RaceLoses(a0, b0, option, r);
      assert !Agreed(e);
    } else {
      forall e | Reaches(s0, e) && Quiescent(e) ensures Agreed(e) {
        var run :| IsRun(run) && run[0] == s0 && Last(run) == e;
        InvInitial(a0, b0, true, false);
        InvRun(run, a0, b0);
        forall option, r ensures Active(e.a, option, r) == Active(e.b, option, Dual(r)) {
          QuiescentLink(e, a0, b0, option, r);
        }
      }
    }
  }
}
