// The option objects and the loop that forwards a command to them, and the tables the client
// and the server are shipped with.

module TelnetNegotiator {
  import opened Sequences
  import opened TelnetCodec
  import opened TelnetOptions
  import opened TelnetStates

  class TelnetOption {
    const option: Byte
    const role: Role
    var state: RequestState
    var active: bool

    ghost function Snapshot(): Machine
      reads this
    {
      Machine(option, role, state, active)
    }

    constructor (option: Byte, role: Role, initialState: RequestState)
      ensures Snapshot() == Machine(option, role, initialState, false)
    {
      this.option, this.role, this.state, this.active := option, role, initialState, false;
    }

    // `sent` is what goes out through telnetSendOption.
    method ProcessIncoming(command: Byte) returns (sent: seq<Message>)
      modifies this
      ensures Snapshot() == Updated(old(Snapshot()), command)
      ensures sent == Reply(old(Snapshot()), command)
    {
      sent := [];
      if command == AckYes(role) {
        match state
        case REQUESTED =>
          state := ACTIVE;
          active := true;
        case ACTIVE =>
        case INACTIVE =>
          state := ACTIVE;
          sent := [Message(SendYes(role), option)];
          active := true;
        case REALLY_INACTIVE =>
          sent := [Message(SendNo(role), option)];
      } else if command == AckNo(role) {
        match state
        case REQUESTED =>
          state := INACTIVE;
          active := false;
        case ACTIVE =>
          state := INACTIVE;
          sent := [Message(SendNo(role), option)];
          active := false;
        case INACTIVE =>
        case REALLY_INACTIVE =>
      }
    }
  }

  // What the first i machines of a table make of a message: the table, the replies, and whether
  // one of them is for its option.
  function ToldTo(t: Table, m: Message, i: nat): Table
    requires i <= |t|
  {
    if i == 0 then t
    else
      var u := ToldTo(t, m, i - 1);
      if i <= |u| then u[i - 1 := Informed(t[i - 1], m)] else u
  }

  function RepliesTo(t: Table, m: Message, i: nat): seq<Message>
    requires i <= |t|
  {
    if i == 0 then [] else RepliesTo(t, m, i - 1) + ReplyOf(t[i - 1], m)
  }

  predicate KnownTo(t: Table, option: Byte, i: nat)
    requires i <= |t|
  {
    i > 0 && (KnownTo(t, option, i - 1) || t[i - 1].option == option)
  }

  lemma {:induction false} ToldShape(t: Table, m: Message, i: nat)
    requires i <= |t|
    ensures |ToldTo(t, m, i)| == |t|
    ensures forall j :: 0 <= j < i ==> ToldTo(t, m, i)[j] == Informed(t[j], m)
    ensures forall j :: i <= j < |t| ==> ToldTo(t, m, i)[j] == t[j]
  {
    if i > 0 { ToldShape(t, m, i - 1); }
  }

  lemma {:induction false} RepliesToFrom(t: Table, m: Message, i: nat)
    requires i <= |t|
    ensures MatchReplies(t, m) == RepliesTo(t, m, i) + MatchReplies(t[i..], m)
  {
    if i == 0 {
      assert t[0..] == t;
    } else {
      RepliesToFrom(t, m, i - 1);
      DropNext(t, i - 1);
      JoinAssociative(RepliesTo(t, m, i - 1), ReplyOf(t[i - 1], m), MatchReplies(t[i..], m));
    }
  }

  lemma {:induction false} KnownToAll(t: Table, option: Byte, i: nat)
    requires i <= |t|
    ensures KnownTo(t, option, i) <==> exists j :: 0 <= j < i && t[j].option == option
  {
    if i > 0 { KnownToAll(t, option, i - 1); }
  }

  // The whole table.
  lemma ToldAll(t: Table, m: Message)
    ensures ToldTo(t, m, |t|) == UpdatedTable(t, m)
    ensures RepliesTo(t, m, |t|) == MatchReplies(t, m)
    ensures KnownTo(t, m.option, |t|) <==> Knows(t, m.option)
  {
    ToldShape(t, m, |t|);
    RepliesToFrom(t, m, |t|);
    assert t[|t|..] == [] && RepliesTo(t, m, |t|) + [] == RepliesTo(t, m, |t|);
    KnownToAll(t, m.option, |t|);
  }

  lemma {:induction false} NobodyReplies(t: Table, m: Message)
    requires forall i :: 0 <= i < |t| ==> t[i].option != m.option
    ensures MatchReplies(t, m) == []
  {
    if t != [] { NobodyReplies(t[1..], m); }
  }

  // The requests of a table's startup walk.
  function InitialRequests(t: Table): seq<Message>
  {
    if t == [] then [] else InitialRequests(t[..|t| - 1]) + InitialRequest(t[|t| - 1])
  }

  // The system after an uninterrupted startup walk of A.
  function StartedAll(s: Sys): Sys
    decreases |s.a| - s.doneA
  {
    if s.doneA >= |s.a| then s else StartedAll(StartedA(s))
  }

  function RequestsFrom(t: Table, k: nat): seq<Message>
    decreases |t| - k
  {
    if k >= |t| then [] else InitialRequest(t[k]) + RequestsFrom(t, k + 1)
  }

  // The walk sends the requests of the machines it has still to visit, and does nothing else.
  lemma {:induction false} StartedAllSends(s: Sys)
    requires s.doneA <= |s.a|
    ensures var out := RequestsFrom(s.a, s.doneA);
            StartedAll(s) == s.(doneA := |s.a|, ab := s.ab + out, sentA := s.sentA + out)
    decreases |s.a| - s.doneA
  {
    if s.doneA == |s.a| {
      assert s.ab + [] == s.ab && s.sentA + [] == s.sentA;
    } else {
      var own, others := InitialRequest(s.a[s.doneA]), RequestsFrom(s.a, s.doneA + 1);
      StartedAllSends(StartedA(s));
      JoinAssociative(s.ab, own, others);
      JoinAssociative(s.sentA, own, others);
    }
  }

  lemma RequestsNext(t: Table, k: nat)
    requires k < |t|
    ensures InitialRequests(t[..k + 1]) == InitialRequests(t[..k]) + InitialRequest(t[k])
  {
    TakeNext(t, k);
  }

  lemma {:induction false} RequestsSplit(t: Table, k: nat)
    requires k <= |t|
    ensures InitialRequests(t) == InitialRequests(t[..k]) + RequestsFrom(t, k)
    decreases |t| - k
  {
    if k == |t| {
      assert t[..k] == t;
    } else {
      var own, others := InitialRequest(t[k]), RequestsFrom(t, k + 1);
      RequestsSplit(t, k + 1);
      RequestsNext(t, k);
      JoinAssociative(InitialRequests(t[..k]), own, others);
    }
  }

  // From the beginning it sends exactly the initial requests of the table.
  lemma StartsAreRequests(a0: Table, b0: Table, racyA: bool, racyB: bool)
    ensures var s := StartedAll(Initial(a0, b0, racyA, racyB));
            && s.doneA == |a0| && s.a == a0 && s.b == b0 && s.doneB == 0
            && s.ab == s.sentA == InitialRequests(a0) && s.ba == s.sentB == []
  {
    StartedAllSends(Initial(a0, b0, racyA, racyB));
    RequestsSplit(a0, 0);
    assert a0[..0] == [];
  }

  class Negotiator {
    const options: seq<TelnetOption>
    var sent: seq<Message>
    var started: nat

    ghost predicate Valid()
    {
      forall i, j :: 0 <= i < j < |options| ==> options[i] != options[j]
    }

    ghost function Machines(): Table
      reads options
    {
      seq(|options|, i requires 0 <= i < |options| reads options => options[i].Snapshot())
    }

    constructor (options: seq<TelnetOption>)
      requires forall i, j :: 0 <= i < j < |options| ==> options[i] != options[j]
      ensures Valid() && this.options == options && sent == [] && started == 0
    {
      this.options, this.sent, this.started := options, [], 0;
    }

    // This negotiator is endpoint A of the system s.
    ghost predicate IsEndA(s: Sys)
      reads this, options
    {
      s.a == Machines() && s.doneA == started && s.sentA == sent
    }

    // The startup walk at its next machine.
    method SendRequest()
      requires Valid() && started < |options|
      modifies this`sent, this`started
      ensures sent == old(sent) + InitialRequest(Machines()[old(started)]) && started == old(started) + 1
    {
      var option := options[started];
      assert Machines()[started] == option.Snapshot();
      if option.state == REQUESTED {
        sent := sent + [Message(SendYes(option.role), option.option)];
      }
      started := started + 1;
    }

    // The same as a step of the system; between two of them anything may be received.
    method Start(ghost s: Sys)
      requires Valid() && IsEndA(s) && Enabled(s, StartA)
      modifies this`sent, this`started
      ensures IsEndA(Next(s, StartA))
    {
      SendRequest();
    }

    method SendInitialRequests()
      requires Valid() && started == 0
      modifies this`sent, this`started
      ensures sent == old(sent) + InitialRequests(Machines()) && started == |options|
    {
      while started < |options|
        invariant 0 <= started <= |options|
        invariant sent == old(sent) + InitialRequests(Machines()[..started])
      {
        ghost var t, i := Machines(), started;
        RequestsNext(t, i);
        SendRequest();
        JoinAssociative(old(sent), InitialRequests(t[..i]), InitialRequest(t[i]));
      }
      assert Machines()[..started] == Machines();
    }

    // One machine is told of a command if it is for its option.
    method Tell(i: nat, command: Byte, option: Byte) returns (known: bool)
      requires Valid() && i < |options|
      modifies this`sent, options[i]
      ensures known == (old(Machines())[i].option == option)
      ensures sent == old(sent) + ReplyOf(old(Machines())[i], Message(command, option))
      ensures Machines() == old(Machines())[i := Informed(old(Machines())[i], Message(command, option))]
    {
      ghost var t := Machines();
      known := options[i].option == option;
      if known {
        var replies := options[i].ProcessIncoming(command);
        sent := sent + replies;
      }
      assert forall j :: 0 <= j < |options| && j != i ==> options[j] != options[i];
      assert Machines() == t[i := options[i].Snapshot()];
    }

    method TellAll(command: Byte, option: Byte) returns (known: bool)
      requires Valid()
      modifies this`sent, options
      ensures Machines() == UpdatedTable(old(Machines()), Message(command, option))
      ensures sent == old(sent) + MatchReplies(old(Machines()), Message(command, option))
      ensures known <==> Knows(old(Machines()), option)
    {
      ghost var t, m, before := Machines(), Message(command, option), sent;
      var i := 0;
      known := false;
      while i < |options|
        invariant 0 <= i <= |options| && |t| == |options|
        invariant Machines() == ToldTo(t, m, i)
        invariant sent == before + RepliesTo(t, m, i)
        invariant known <==> KnownTo(t, option, i)
      {
        ToldShape(t, m, i);
        JoinAssociative(before, RepliesTo(t, m, i), ReplyOf(t[i], m));
        var told := Tell(i, command, option);
        known := known || told;
        i := i + 1;
      }
      ToldAll(t, m);
    }

    // An incoming DO, DONT, WILL or WONT goes to every machine for its option.
    method NegotiateOption(command: Byte, option: Byte)
      requires Valid() && IsAction(command)
      modifies this`sent, options
      ensures Valid() && Machines() == UpdatedTable(old(Machines()), Message(command, option))
      ensures sent == old(sent) + Replies(old(Machines()), Message(command, option))
    {
      ghost var t, m := Machines(), Message(command, option);
      var known := TellAll(command, option);
      if !known { NobodyReplies(t, m); }
      if !known && (command == WILL || command == DO) {
        sent := sent + [Message(if command == WILL then DONT else WONT, option)];
      }
    }

    // The same as a step of the system, whatever else has been received or sent before.
    method Receive(ghost s: Sys, command: Byte, option: Byte)
      requires Valid() && IsEndA(s) && Enabled(s, DeliverToA) && s.ba[0] == Message(command, option)
      requires IsAction(command)
      modifies this`sent, options
      ensures Valid() && IsEndA(Next(s, DeliverToA))
    {
      NegotiateOption(command, option);
    }
  }

  // ---------- the shipped tables ----------

  const BINARY: Byte := 0
  const ECHO: Byte := 1
  const SGA: Byte := 3

  // The client's options in the order of its list: the optional ones, then the two that open()
  // waits for.
  const CLIENT_TABLE: Table := [
    Machine(ECHO, They, REQUESTED, false),
    Machine(SGA, We, REQUESTED, false),
    Machine(SGA, They, REQUESTED, false),
    Machine(BINARY, They, INACTIVE, false),
    Machine(COM_PORT_OPTION, They, REQUESTED, false),
    Machine(BINARY, We, INACTIVE, false),
    Machine(COM_PORT_OPTION, We, REQUESTED, false)]

  const SERVER_TABLE: Table := [
    Machine(ECHO, We, REQUESTED, false),
    Machine(SGA, We, REQUESTED, false),
    Machine(SGA, They, INACTIVE, false),
    Machine(BINARY, We, INACTIVE, false),
    Machine(BINARY, They, REQUESTED, false),
    Machine(COM_PORT_OPTION, We, REQUESTED, false),
    Machine(COM_PORT_OPTION, They, INACTIVE, false)]

  // What client and server ask for at startup: DO 1, WILL 3, DO 3, DO 44, WILL 44, and
  // WILL 1, WILL 3, DO 0, WILL 44.
  lemma ShippedRequests()
    ensures InitialRequests(CLIENT_TABLE)
         == [Message(253, 1), Message(251, 3), Message(253, 3), Message(253, 44), Message(251, 44)]
    ensures InitialRequests(SERVER_TABLE)
         == [Message(251, 1), Message(251, 3), Message(253, 0), Message(251, 44)]
  {
    var c, d := CLIENT_TABLE, SERVER_TABLE;
    RequestsSplit(c, 0);
    RequestsSplit(d, 0);
    assert c[..0] == [] && d[..0] == [];
    LaterRequests();
    assert RequestsFrom(c, 2) == [Message(253, 3)] + RequestsFrom(c, 3);
    assert RequestsFrom(c, 1) == [Message(251, 3)] + RequestsFrom(c, 2);
    assert RequestsFrom(d, 2) == [] + RequestsFrom(d, 3);
    assert RequestsFrom(d, 1) == [Message(251, 3)] + RequestsFrom(d, 2);
  }

  lemma LaterRequests()
    ensures RequestsFrom(CLIENT_TABLE, 3) == [Message(253, 44), Message(251, 44)]
    ensures RequestsFrom(SERVER_TABLE, 3) == [Message(253, 0), Message(251, 44)]
  {
    var c, d := CLIENT_TABLE, SERVER_TABLE;
    assert RequestsFrom(c, 6) == [Message(251, 44)] + RequestsFrom(c, 7);
    assert RequestsFrom(c, 5) == [] + RequestsFrom(c, 6);
    assert RequestsFrom(c, 4) == [Message(253, 44)] + RequestsFrom(c, 5);
    assert RequestsFrom(c, 3) == [] + RequestsFrom(c, 4);
    assert RequestsFrom(d, 6) == [] + RequestsFrom(d, 7);
    assert RequestsFrom(d, 5) == [Message(251, 44)] + RequestsFrom(d, 6);
    assert RequestsFrom(d, 4) == [Message(253, 0)] + RequestsFrom(d, 5);
    assert RequestsFrom(d, 3) == [] + RequestsFrom(d, 4);
  }

  // What they agree to when asked although they do not ask for it themselves.
  lemma ShippedAgreements()
    ensures Replies(CLIENT_TABLE, Message(251, 0)) == [Message(253, 0)]
    ensures Replies(CLIENT_TABLE, Message(253, 0)) == [Message(251, 0)]
    ensures Replies(SERVER_TABLE, Message(251, 3)) == [Message(253, 3)]
    ensures Replies(SERVER_TABLE, Message(253, 0)) == [Message(251, 0)]
    ensures Replies(SERVER_TABLE, Message(251, 44)) == [Message(253, 44)]
  {
    OneReplies(CLIENT_TABLE, Message(251, 0), 3);
    OneReplies(CLIENT_TABLE, Message(253, 0), 5);
    OneReplies(SERVER_TABLE, Message(251, 3), 2);
    OneReplies(SERVER_TABLE, Message(253, 0), 3);
    OneReplies(SERVER_TABLE, Message(251, 44), 6);
  }

  // One machine of a table replies, the i-th.
  lemma OneReplies(t: Table, m: Message, i: nat)
    requires i < |t| && t[i].option == m.option
    requires forall j :: 0 <= j < |t| && j != i ==> ReplyOf(t[j], m) == []
    ensures Replies(t, m) == Reply(t[i], m.verb)
  {
    var rest := t[i + 1..];
    RepliesToFrom(t, m, i + 1);
    NoReplies(t, m, i);
    forall j | 0 <= j < |rest| ensures ReplyOf(rest[j], m) == [] { assert rest[j] == t[i + 1 + j]; }
    NoReplies(rest, m, |rest|);
    ToldAll(rest, m);
    assert [] + Reply(t[i], m.verb) + [] == Reply(t[i], m.verb);
  }

  lemma {:induction false} NoReplies(t: Table, m: Message, n: nat)
    requires n <= |t| && forall j :: 0 <= j < n ==> ReplyOf(t[j], m) == []
    ensures RepliesTo(t, m, n) == []
    decreases n
  {
    if n > 0 {
      NoReplies(t, m, n - 1);
      assert RepliesTo(t, m, n) == [] + [];
    }
  }

  lemma IndexAt(t: Table, i: nat)
    requires Distinct(t) && i < |t|
    ensures Index(t, t[i].option, t[i].role) == i
  {
  }

  // Whatever the interleaving, and although the shipped client may receive before it has sent
  // its requests, a completed negotiation leaves the two options open() waits for active on both
  // sides.
  lemma MandatoryOptionsAgreed(e: Sys)
    requires Reaches(Initial(CLIENT_TABLE, SERVER_TABLE, true, false), e) && Quiescent(e)
    ensures Active(e.a, BINARY, We) && Active(e.b, BINARY, They)
    ensures Active(e.a, COM_PORT_OPTION, We) && Active(e.b, COM_PORT_OPTION, They)
  {
    BinaryAsked();
    ComPortAsked();
    AskedIsAgreed(CLIENT_TABLE, SERVER_TABLE, true, false, e, BINARY, We);
    AskedIsAgreed(CLIENT_TABLE, SERVER_TABLE, true, false, e, COM_PORT_OPTION, We);
  }

  lemma BinaryAsked()
    ensures Fresh(CLIENT_TABLE) && Fresh(SERVER_TABLE)
    ensures Has(CLIENT_TABLE, BINARY, We) && Has(SERVER_TABLE, BINARY, They)
    ensures Requests(CLIENT_TABLE, BINARY, We) != Requests(SERVER_TABLE, BINARY, They)
  {
    IndexAt(CLIENT_TABLE, 5);
    IndexAt(SERVER_TABLE, 4);
  }

  lemma ComPortAsked()
    ensures Has(CLIENT_TABLE, COM_PORT_OPTION, We) && Has(SERVER_TABLE, COM_PORT_OPTION, They)
    ensures Requests(CLIENT_TABLE, COM_PORT_OPTION, We) != Requests(SERVER_TABLE, COM_PORT_OPTION, They)
  {
    IndexAt(CLIENT_TABLE, 6);
    IndexAt(SERVER_TABLE, 6);
  }

  // The echo option is requested by both, so the same client and server can end with the client
  // believing the server echoes while the server's machine stays inactive.
  lemma EchoCanDisagree() returns (e: Sys)
    ensures Reaches(Initial(CLIENT_TABLE, SERVER_TABLE, true, false), e) && Quiescent(e)
    ensures Active(e.a, ECHO, They) && !Active(e.b, ECHO, We)
  {
    IndexAt(CLIENT_TABLE, 0);
    IndexAt(SERVER_TABLE, 0);
    e := RaceLoses(CLIENT_TABLE, SERVER_TABLE, ECHO, They);
  }
}
