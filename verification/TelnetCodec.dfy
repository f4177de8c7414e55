// The Telnet byte stream: escaping encoder and the byte-at-a-time decoder, which the source
// contains twice (client read loop and server filter).

module TelnetCodec {
  import opened Sequences
  import opened Wrappers

  type Byte = b: nat | b < 256

  const IAC: Byte := 255
  const DONT: Byte := 254
  const DO: Byte := 253
  const WONT: Byte := 252
  const WILL: Byte := 251
  const SB: Byte := 250
  const SE: Byte := 240
  const COM_PORT_OPTION: Byte := 44

  predicate IsAction(b: Byte) { b == DO || b == DONT || b == WILL || b == WONT }

  // ---------- decoder ----------

  datatype Mode = Normal | IacSeen | Negotiate(command: Byte)

  datatype State = State(mode: Mode, suboption: Option<seq<Byte>>)

  const IDLE := State(Normal, None)

  // What the decoder hands on.  LoneSE is a sub-negotiation end without a begin: the source
  // then converts a missing suboption.
  datatype Event =
    | Data(b: Byte)
    | Command(b: Byte)
    | Negotiated(command: Byte, option: Byte)
    | Subnegotiated(suboption: seq<Byte>)
    | LoneSE

  datatype Output = Output(state: State, events: seq<Event>)

  // A data byte goes to the open suboption if there is one.
  function Stored(suboption: Option<seq<Byte>>, b: Byte): Output
  {
    match suboption
    case Some(s) => Output(State(Normal, Some(s + [b])), [])
    case None => Output(IDLE, [Data(b)])
  }

  function Step(st: State, b: Byte): Output
  {
    match st.mode
    case Normal =>
      if b == IAC then Output(st.(mode := IacSeen), []) else Stored(st.suboption, b)
    case IacSeen =>
      if b == IAC then Stored(st.suboption, b)
      else if b == SB then Output(State(Normal, Some([])), [])
      else if b == SE then
        Output(IDLE, [if st.suboption.Some? then Subnegotiated(st.suboption.value) else LoneSE])
      else if IsAction(b) then Output(st.(mode := Negotiate(b)), [])
      else Output(st.(mode := Normal), [Command(b)])
    case Negotiate(command) => Output(st.(mode := Normal), [Negotiated(command, b)])
  }

  // The decoder after the bytes s.
  function Decoded(st: State, s: seq<Byte>): Output
  {
    if s == [] then Output(st, [])
    else
      var before := Decoded(st, s[..|s| - 1]);
      var last := Step(before.state, s[|s| - 1]);
      Output(last.state, before.events + last.events)
  }

  // The decoder after a series of receive chunks, each decoded from the state the last one left.
  function DecodedChunks(st: State, chunks: seq<seq<Byte>>): Output
    decreases |chunks|
  {
    if chunks == [] then Output(st, [])
    else
      var first := Decoded(st, chunks[0]);
      var rest := DecodedChunks(first.state, chunks[1..]);
      Output(rest.state, first.events + rest.events)
  }

  function Flat(chunks: seq<seq<Byte>>): seq<Byte>
  {
    if chunks == [] then [] else chunks[0] + Flat(chunks[1..])
  }

  // ---------- encoder ----------

  datatype Frame =
    | DataBlock(data: seq<Byte>)
    | OptionCommand(action: Byte, option: Byte)
    | ComPort(option: Byte, value: seq<Byte>)

  function Escaped(b: Byte): seq<Byte>
  {
    if b == IAC then [IAC, IAC] else [b]
  }

  // data.replace(IAC, IAC_DOUBLED)
  function Doubled(data: seq<Byte>): seq<Byte>
  {
    if data == [] then [] else Escaped(data[0]) + Doubled(data[1..])
  }

  function Encode(f: Frame): seq<Byte>
  {
    match f
    case DataBlock(data) => Doubled(data)
    case OptionCommand(action, option) => [IAC, action, option]
    case ComPort(option, value) => [IAC, SB, COM_PORT_OPTION, option] + Doubled(value) + [IAC, SE]
  }

  function EncodeAll(frames: seq<Frame>): seq<Byte>
  {
    if frames == [] then [] else Encode(frames[0]) + EncodeAll(frames[1..])
  }

  // ---------- what a stream means ----------

  function DataEvents(data: seq<Byte>): seq<Event>
  {
    if data == [] then [] else [Data(data[0])] + DataEvents(data[1..])
  }

  function Meaning(f: Frame): seq<Event>
  {
    match f
    case DataBlock(data) => DataEvents(data)
    case OptionCommand(action, option) => [Negotiated(action, option)]
    case ComPort(option, value) => [Subnegotiated([COM_PORT_OPTION, option] + value)]
  }

  function MeaningAll(frames: seq<Frame>): seq<Event>
  {
    if frames == [] then [] else Meaning(frames[0]) + MeaningAll(frames[1..])
  }

  // The frames the callers build: a negotiation verb, and a com-port code that is not IAC (the
  // encoder does not escape the code).
  predicate WellFormed(f: Frame)
  {
    match f
    case DataBlock(_) => true
    case OptionCommand(action, _) => IsAction(action)
    case ComPort(option, _) => option != IAC
  }

  // ---------- chunks do not matter ----------

  lemma {:induction false} DecodedJoin(st: State, a: seq<Byte>, b: seq<Byte>)
    ensures var first := Decoded(st, a);
            var second := Decoded(first.state, b);
            Decoded(st, a + b) == Output(second.state, first.events + second.events)
    decreases |b|
  {
    if b == [] {
      assert a + b == a;
    } else {
      var front := b[..|b| - 1];
      assert (a + b)[..|a + b| - 1] == a + front;
      DecodedJoin(st, a, front);
    }
  }

  // Any split of a stream into receive chunks decodes to the same events and state.
  lemma {:induction false} ChunksIrrelevant(st: State, chunks: seq<seq<Byte>>)
    ensures DecodedChunks(st, chunks) == Decoded(st, Flat(chunks))
    decreases |chunks|
  {
    if chunks != [] {
      ChunksIrrelevant(Decoded(st, chunks[0]).state, chunks[1..]);
      DecodedJoin(st, chunks[0], Flat(chunks[1..]));
    }
  }

  // ---------- round trip ----------

  lemma DecodedOne(st: State, b: Byte)
    ensures Decoded(st, [b]) == Step(st, b)
  {
    assert [b][..0] == [];
    assert Decoded(st, []) == Output(st, []);
  }

  lemma DecodedTwo(st: State, a: Byte, b: Byte)
    ensures var x := Step(st, a);
            var y := Step(x.state, b);
            Decoded(st, [a, b]) == Output(y.state, x.events + y.events)
  {
    assert [a, b] == [a] + [b];
    DecodedJoin(st, [a], [b]);
    DecodedOne(st, a);
    DecodedOne(Step(st, a).state, b);
  }

  // One byte, doubled if it is IAC, is stored.
  lemma ByteStored(suboption: Option<seq<Byte>>, b: Byte)
    ensures Decoded(State(Normal, suboption), Escaped(b)) == Stored(suboption, b)
  {
    var st := State(Normal, suboption);
    if b == IAC {
      DecodedTwo(st, IAC, IAC);
    } else {
      DecodedOne(st, b);
    }
  }

  lemma {:induction false} DataDecoded(data: seq<Byte>)
    ensures Decoded(IDLE, Doubled(data)) == Output(IDLE, DataEvents(data))
  {
    if data != [] {
      ByteStored(None, data[0]);
      DecodedJoin(IDLE, Escaped(data[0]), Doubled(data[1..]));
      DataDecoded(data[1..]);
    }
  }

  lemma {:induction false} ValueDecoded(p: seq<Byte>, value: seq<Byte>)
    ensures Decoded(State(Normal, Some(p)), Doubled(value)) == Output(State(Normal, Some(p + value)), [])
    decreases |value|
  {
    if value == [] {
      assert p + value == p;
    } else {
      var b, rest := value[0], value[1..];
      FirstRest(value);
      JoinAssociative(p, [b], rest);
      ByteStored(Some(p), b);
      ValueDecoded(p + [b], rest);
      DecodedJoin(State(Normal, Some(p)), Escaped(b), Doubled(rest));
    }
  }

  // The rest of a sub-negotiation whose begin and first bytes p are decoded.
  lemma SubnegotiationEnds(p: seq<Byte>, value: seq<Byte>)
    ensures Decoded(State(Normal, Some(p)), Doubled(value) + [IAC, SE])
         == Output(IDLE, [Subnegotiated(p + value)])
  {
    ValueDecoded(p, value);
    DecodedTwo(State(Normal, Some(p + value)), IAC, SE);
    DecodedJoin(State(Normal, Some(p)), Doubled(value), [IAC, SE]);
  }

  lemma SubnegotiationBegins()
    ensures Decoded(IDLE, [IAC, SB, COM_PORT_OPTION]) == Output(State(Normal, Some([COM_PORT_OPTION])), [])
  {
    assert [IAC, SB, COM_PORT_OPTION] == [IAC, SB] + [COM_PORT_OPTION];
    DecodedTwo(IDLE, IAC, SB);
    DecodedOne(State(Normal, Some([])), COM_PORT_OPTION);
    DecodedJoin(IDLE, [IAC, SB], [COM_PORT_OPTION]);
    assert [] + [COM_PORT_OPTION] == [COM_PORT_OPTION];
  }

  lemma ComPortSplit(option: Byte, value: seq<Byte>)
    ensures Encode(ComPort(option, value))
         == [IAC, SB, COM_PORT_OPTION] + ([option] + (Doubled(value) + [IAC, SE]))
    ensures var rest := Decoded(State(Normal, Some([COM_PORT_OPTION])), [option] + (Doubled(value) + [IAC, SE]));
            Decoded(IDLE, Encode(ComPort(option, value))) == rest
  {
    var begin, rest := [IAC, SB, COM_PORT_OPTION], [option] + (Doubled(value) + [IAC, SE]);
    assert [IAC, SB, COM_PORT_OPTION, option] == begin + [option];
    Regrouped(begin, [option], Doubled(value), [IAC, SE]);
    SubnegotiationBegins();
    DecodedJoin(IDLE, begin, rest);
  }

  lemma ComPortDecoded(option: Byte, value: seq<Byte>)
    requires option != IAC
    ensures Decoded(IDLE, Encode(ComPort(option, value)))
         == Output(IDLE, [Subnegotiated([COM_PORT_OPTION, option] + value)])
  {
    ComPortSplit(option, value);
    var st := State(Normal, Some([COM_PORT_OPTION]));
    DecodedOne(st, option);
    DecodedJoin(st, [option], Doubled(value) + [IAC, SE]);
    assert [COM_PORT_OPTION] + [option] == [COM_PORT_OPTION, option];
    SubnegotiationEnds([COM_PORT_OPTION, option], value);
  }

  lemma OptionCommandDecoded(action: Byte, option: Byte)
    ensures Decoded(IDLE, [IAC, action, option]) == Output(IDLE, [Negotiated(action, option)])
            <==> IsAction(action)
  {
    assert [IAC, action, option] == [IAC, action] + [option];
    DecodedTwo(IDLE, IAC, action);
    var st := Step(State(IacSeen, None), action).state;
    DecodedOne(st, option);
    DecodedJoin(IDLE, [IAC, action], [option]);
  }

  // An unescaped IAC as com-port code derails the decoder: whatever the value, the stream does
  // not decode to one sub-negotiation of the right length.
  lemma {:induction false} UnescapedCodeDerails(p: seq<Byte>, value: seq<Byte>)
    ensures var r := Decoded(State(IacSeen, Some(p)), Doubled(value) + [IAC, SE]);
            r.state != IDLE || r.events == [] || !r.events[0].Subnegotiated?
            || |r.events[0].suboption| <= |p| + |value|
    decreases |value|
  {
    var st := State(IacSeen, Some(p));
    if value == [] {
      assert Doubled(value) + [IAC, SE] == [IAC, SE];
      DecodedTwo(st, IAC, SE);
    } else {
      var b, rest := value[0], Doubled(value[1..]) + [IAC, SE];
      assert Doubled(value) + [IAC, SE] == Escaped(b) + rest;
      DecodedJoin(st, Escaped(b), rest);
      if b == IAC {
        DecodedTwo(st, IAC, IAC);
        UnescapedCodeDerails(p + [IAC], value[1..]);
      } else {
        DecodedOne(st, b);
        if b == SB {
          SubnegotiationEnds([], value[1..]);
          assert [] + value[1..] == value[1..];
        } else if IsAction(b) {
          NegotiationFirst(b, Some(p), rest);
        }
      }
    }
  }

  lemma NegotiationFirst(command: Byte, suboption: Option<seq<Byte>>, rest: seq<Byte>)
    requires rest != []
    ensures var r := Decoded(State(Negotiate(command), suboption), rest);
            r.events != [] && r.events[0] == Negotiated(command, rest[0])
  {
    var st := State(Negotiate(command), suboption);
    assert rest == [rest[0]] + rest[1..];
    DecodedOne(st, rest[0]);
    DecodedJoin(st, [rest[0]], rest[1..]);
  }

  lemma UnescapedCodeLost(value: seq<Byte>)
    ensures Decoded(IDLE, Encode(ComPort(IAC, value)))
         != Output(IDLE, [Subnegotiated([COM_PORT_OPTION, IAC] + value)])
  {
    var st, rest := State(Normal, Some([COM_PORT_OPTION])), Doubled(value) + [IAC, SE];
    ComPortSplit(IAC, value);
    DecodedOne(st, IAC);
    DecodedJoin(st, [IAC], rest);
    UnescapedCodeDerails([COM_PORT_OPTION], value);
    var r := Decoded(IDLE, Encode(ComPort(IAC, value)));
    assert r == Decoded(State(IacSeen, Some([COM_PORT_OPTION])), rest);
    assert |[COM_PORT_OPTION, IAC] + value| == 2 + |value|;
  }

  // ---------- the bytes themselves ----------

  // What a stream is made of, between sub-negotiations and inside one: a byte other than 255 or
  // two bytes 255 are data, 255 and a verb from 251 to 254 are negotiation with the byte that
  // follows, 255 250 begins a sub-negotiation and 255 240 ends it, and 255 with any other byte is
  // a command of its own.
  lemma StreamPieces(sub: Option<seq<Byte>>, b: Byte, c: Byte)
    ensures var st := State(Normal, sub);
            && (b != 255 ==> Decoded(st, [b]) == DataByte(sub, b))
            && Decoded(st, [255, 255]) == DataByte(sub, 255)
            && (251 <= b <= 254 ==> Decoded(st, [255, b, c]) == Output(st, [Negotiated(b, c)]))
            && Decoded(st, [255, 250]) == Output(State(Normal, Some([])), [])
            && (sub.Some? ==> Decoded(st, [255, 240]) == Output(State(Normal, None), [Subnegotiated(sub.value)]))
            && (sub.None? ==> Decoded(st, [255, 240]) == Output(State(Normal, None), [LoneSE]))
            && (b < 251 && b != 250 && b != 240 ==> Decoded(st, [255, b]) == Output(st, [Command(b)]))
  {
    var st := State(Normal, sub);
    DecodedOne(st, b);
    DecodedTwo(st, 255, 255);
    DecodedTwo(st, 255, 250);
    DecodedTwo(st, 255, 240);
    DecodedTwo(st, 255, b);
    if 251 <= b <= 254 {
      DecodedOne(State(Negotiate(b), sub), c);
      DecodedJoin(st, [255, b], [c]);
      assert [255, b] + [c] == [255, b, c];
    }
  }

  // A byte of data goes to the user, or into the sub-negotiation that has begun.
  function DataByte(sub: Option<seq<Byte>>, b: Byte): Output
  {
    match sub
    case None => Output(State(Normal, None), [Data(b)])
    case Some(s) => Output(State(Normal, Some(s + [b])), [])
  }

  // The bytes of the frames; in data and values, and nowhere else, 255 is doubled.
  lemma FrameBytes(action: Byte, option: Byte, value: seq<Byte>)
    ensures Encode(OptionCommand(action, option)) == [255, action, option]
    ensures Encode(ComPort(option, value)) == [255, 250, 44, option] + Encode(DataBlock(value)) + [255, 240]
    ensures 255 !in value ==> Encode(DataBlock(value)) == value
  {
    if 255 !in value { PlainData(value); }
  }

  lemma {:induction false} PlainData(data: seq<Byte>)
    requires 255 !in data
    ensures Doubled(data) == data
  {
    if data != [] {
      PlainData(data[1..]);
      FirstRest(data);
    }
  }

  // Exactly the well-formed frames survive the trip.
  lemma FrameRoundTrip(f: Frame)
    ensures Decoded(IDLE, Encode(f)) == Output(IDLE, Meaning(f)) <==> WellFormed(f)
  {
    match f
    case DataBlock(data) => DataDecoded(data);
    case OptionCommand(action, option) => OptionCommandDecoded(action, option);
    case ComPort(option, value) =>
      if option != IAC {
        ComPortDecoded(option, value);
      } else {
        UnescapedCodeLost(value);
      }
  }

  // Any interleaving of data blocks, option commands and sub-negotiations, received in any
  // chunks, yields the same data bytes and commands in the same positions.
  lemma {:induction false} StreamRoundTrip(frames: seq<Frame>, chunks: seq<seq<Byte>>)
    requires forall i :: 0 <= i < |frames| ==> WellFormed(frames[i])
    requires Flat(chunks) == EncodeAll(frames)
    ensures DecodedChunks(IDLE, chunks) == Output(IDLE, MeaningAll(frames))
  {
    ChunksIrrelevant(IDLE, chunks);
    StreamDecoded(frames);
  }

  lemma {:induction false} StreamDecoded(frames: seq<Frame>)
    requires forall i :: 0 <= i < |frames| ==> WellFormed(frames[i])
    ensures Decoded(IDLE, EncodeAll(frames)) == Output(IDLE, MeaningAll(frames))
  {
    if frames != [] {
      FrameRoundTrip(frames[0]);
      StreamDecoded(frames[1..]);
      DecodedJoin(IDLE, Encode(frames[0]), EncodeAll(frames[1..]));
    }
  }
}

// The two implementations of the decoder and the escaping generator.
module TelnetEndpoints {
  import opened Sequences
  import opened TelnetCodec
  import opened Wrappers

  datatype FilterMode = M_NORMAL | M_IAC_SEEN | M_NEGOTIATE

  function Abstract(mode: FilterMode, suboption: Option<seq<Byte>>, command: Byte): State
  {
    State(match mode
          case M_NORMAL => Normal
          case M_IAC_SEEN => IacSeen
          case M_NEGOTIATE => Negotiate(command),
          suboption)
  }

  // The chunks up to the empty one that signals a lost connection.
  function Received(chunks: seq<seq<Byte>>): seq<seq<Byte>>
  {
    if chunks == [] || chunks[0] == [] then [] else [chunks[0]] + Received(chunks[1..])
  }

  // The events still to come when the chunks `recv` are still to be received.
  ghost function Ahead(st: State, recv: seq<seq<Byte>>): seq<Event>
  {
    DecodedChunks(st, Received(recv)).events
  }

  // The events are those of the chunks before the first empty one, joined.
  lemma {:induction false} LostConnection(recv: seq<seq<Byte>>, k: nat)
    requires k <= |recv| && (k < |recv| ==> recv[k] == []) && forall i :: 0 <= i < k ==> recv[i] != []
    ensures Ahead(IDLE, recv) == Decoded(IDLE, Flat(recv[..k])).events
  {
    ReceivedUpTo(recv, k);
    ChunksIrrelevant(IDLE, recv[..k]);
  }

  lemma {:induction false} ReceivedUpTo(recv: seq<seq<Byte>>, k: nat)
    requires k <= |recv| && (k < |recv| ==> recv[k] == []) && forall i :: 0 <= i < k ==> recv[i] != []
    ensures Received(recv) == recv[..k]
    decreases k
  {
    if k > 0 {
      ReceivedUpTo(recv[1..], k - 1);
      assert recv[..k] == [recv[0]] + recv[1..][..k - 1];
    }
  }

  lemma ReceivedNext(st: State, recv: seq<seq<Byte>>, k: nat)
    requires k < |recv| && recv[k] != []
    ensures var r := Decoded(st, recv[k]);
            Ahead(st, recv[k..]) == r.events + Ahead(r.state, recv[k + 1..])
  {
    assert recv[k..][1..] == recv[k + 1..];
    var rest := Received(recv[k + 1..]);
    assert Received(recv[k..]) == [recv[k]] + rest && ([recv[k]] + rest)[1..] == rest;
  }

  lemma DecodedNext(st: State, s: seq<Byte>, i: nat)
    requires i < |s|
    ensures var before := Decoded(st, s[..i]);
            var last := Step(before.state, s[i]);
            Decoded(st, s[..i + 1]) == Output(last.state, before.events + last.events)
  {
    assert s[..i + 1][..i] == s[..i];
  }

  lemma {:induction false} DoubledJoin(a: seq<Byte>, b: seq<Byte>)
    ensures Doubled(a + b) == Doubled(a) + Doubled(b)
    decreases |a|
  {
    if a == [] {
      assert a + b == b;
    } else {
      JoinRest(a, b);
      DoubledJoin(a[1..], b);
      JoinAssociative(Escaped(a[0]), Doubled(a[1..]), Doubled(b));
    }
  }

  // Data with a byte 255 in it.
  lemma DoubledAt(before: seq<Byte>, behind: seq<Byte>)
    ensures Encode(DataBlock(before + ([255] + behind)))
         == Encode(DataBlock(before)) + ([255, 255] + Encode(DataBlock(behind)))
  {
    DoubledJoin(before, [255] + behind);
    DoubledJoin([255], behind);
    assert [255][1..] == [] && Escaped(255) + [] == [255, 255];
  }

  lemma DoubledNext(data: seq<Byte>, i: nat)
    requires i < |data|
    ensures Doubled(data[..i + 1]) == Doubled(data[..i]) + Escaped(data[i])
  {
    TakeNext(data, i);
    DoubledJoin(data[..i], [data[i]]);
    assert [data[i]][1..] == [] && Escaped(data[i]) + [] == Escaped(data[i]);
  }

  // The client's reader thread.  `recv` is the series of chunks the socket delivers.
  class Client {

    // Bytes for the user and everything else, in order of arrival.
    var handled: seq<Event>

    constructor ()
      ensures handled == []
    {
      handled := [];
    }

    // The body of the loop over received bytes, on the loop's local variables.
    static method OneByte(mode0: FilterMode, suboption0: Option<seq<Byte>>, command0: Byte, byte: Byte)
      returns (mode: FilterMode, suboption: Option<seq<Byte>>, telnetCommand: Byte, event: Option<Event>)
      ensures Output(Abstract(mode, suboption, telnetCommand), if event.Some? then [event.value] else [])
           == Step(Abstract(mode0, suboption0, command0), byte)
    {
      mode, suboption, telnetCommand, event := mode0, suboption0, command0, None;
      if mode == M_NORMAL {
        if byte == IAC {
          mode := M_IAC_SEEN;
        } else if suboption.Some? {
          suboption := Some(suboption.value + [byte]);
        } else {
          event := Some(Data(byte));
        }
      } else if mode == M_IAC_SEEN {
        if byte == IAC {
          if suboption.Some? {
            suboption := Some(suboption.value + [IAC]);
          } else {
            event := Some(Data(IAC));
          }
          mode := M_NORMAL;
        } else if byte == SB {
          suboption := Some([]);
          mode := M_NORMAL;
        } else if byte == SE {
          event := Some(if suboption.Some? then Subnegotiated(suboption.value) else LoneSE);
          suboption := None;
          mode := M_NORMAL;
        } else if IsAction(byte) {
          telnetCommand := byte;
          mode := M_NEGOTIATE;
        } else {
          event := Some(Command(byte));
          mode := M_NORMAL;
        }
      } else {
        event := Some(Negotiated(telnetCommand, byte));
        mode := M_NORMAL;
      }
    }

    // The loop over the bytes of one receive, on the loop's local variables.
    method OneReceive(mode0: FilterMode, suboption0: Option<seq<Byte>>, command0: Byte, data: seq<Byte>)
      returns (mode: FilterMode, suboption: Option<seq<Byte>>, telnetCommand: Byte)
      modifies this
      ensures var r := Decoded(Abstract(mode0, suboption0, command0), data);
              Abstract(mode, suboption, telnetCommand) == r.state && handled == old(handled) + r.events
    {
      mode, suboption, telnetCommand := mode0, suboption0, command0;
      ghost var st := Abstract(mode, suboption, telnetCommand);
      var i := 0;
      while i < |data|
        invariant 0 <= i <= |data|
        invariant Decoded(st, data[..i]).state == Abstract(mode, suboption, telnetCommand)
        invariant handled == old(handled) + Decoded(st, data[..i]).events
      {
        DecodedNext(st, data, i);
        var event;
        mode, suboption, telnetCommand, event := OneByte(mode, suboption, telnetCommand, data[i]);
        if event.Some? { handled := handled + [event.value]; }
        i := i + 1;
      }
      assert data[..i] == data;
    }

    method TelnetReadLoop(recv: seq<seq<Byte>>)
      modifies this
      ensures handled == old(handled) + Ahead(IDLE, recv)
    {
      var mode, suboption, telnetCommand: Byte := M_NORMAL, None, 0;
      var k := 0;
      assert recv[0..] == recv;
      ghost var whole := handled + Ahead(IDLE, recv);
      while k < |recv| && recv[k] != []
        invariant 0 <= k <= |recv|
        invariant whole == handled + Ahead(Abstract(mode, suboption, telnetCommand), recv[k..])
      {
        ghost var st := Abstract(mode, suboption, telnetCommand);
        ReceivedNext(st, recv, k);
        JoinAssociative(handled, Decoded(st, recv[k]).events, Ahead(Decoded(st, recv[k]).state, recv[k + 1..]));
        mode, suboption, telnetCommand := OneReceive(mode, suboption, telnetCommand, recv[k]);
        k := k + 1;
      }
      assert Received(recv[k..]) == [];
    }
  }

  // The server's stream filter keeps its state in fields between calls.
  class PortManager {
    var mode: FilterMode
    var suboption: Option<seq<Byte>>
    var telnetCommand: Byte

    ghost function Current(): State
      reads this
    {
      Abstract(mode, suboption, telnetCommand)
    }

    constructor ()
      ensures Current() == IDLE
    {
      mode, suboption, telnetCommand := M_NORMAL, None, 0;
    }

    // The events are the yielded bytes and the calls made in between.
    method Filter(data: seq<Byte>) returns (events: seq<Event>)
      modifies this
      ensures Output(Current(), events) == Decoded(old(Current()), data)
    {
      events := [];
      var i := 0;
      while i < |data|
        invariant 0 <= i <= |data|
        invariant Output(Current(), events) == Decoded(old(Current()), data[..i])
      {
        var byte := data[i];
        DecodedNext(old(Current()), data, i);
        match mode {
        case M_NORMAL =>
          if byte == IAC {
            mode := M_IAC_SEEN;
          } else if suboption.Some? {
            suboption := Some(suboption.value + [byte]);
          } else {
            events := events + [Data(byte)];
          }
        case M_IAC_SEEN =>
          if byte == IAC {
            if suboption.Some? {
              suboption := Some(suboption.value + [byte]);
            } else {
              events := events + [Data(byte)];
            }
            mode := M_NORMAL;
          } else if byte == SB {
            suboption := Some([]);
            mode := M_NORMAL;
          } else if byte == SE {
            events := events + [if suboption.Some? then Subnegotiated(suboption.value) else LoneSE];
            suboption := None;
            mode := M_NORMAL;
          } else if IsAction(byte) {
            telnetCommand := byte;
            mode := M_NEGOTIATE;
          } else {
            events := events + [Command(byte)];
            mode := M_NORMAL;
          }
        case M_NEGOTIATE =>
          events := events + [Negotiated(telnetCommand, byte)];
          mode := M_NORMAL;
        }
        i := i + 1;
      }
      assert data[..i] == data;
    }

    // Outgoing data, byte by byte.
    static method Escape(data: seq<Byte>) returns (r: seq<Byte>)
      ensures r == Doubled(data)
    {
      r := [];
      var i := 0;
      while i < |data|
        invariant 0 <= i <= |data|
        invariant r == Doubled(data[..i])
      {
        var byte := data[i];
        DoubledNext(data, i);
        if byte == IAC {
          JoinAssociative(r, [IAC], [IAC]);
          r := r + [IAC] + [IAC];
        } else {
          r := r + [byte];
        }
        i := i + 1;
      }
      assert data[..i] == data;
    }
  }

  // Client and server see the same events on every byte stream, however it is received.
  method BothDecoders(recv: seq<seq<Byte>>) returns (client: seq<Event>, server: seq<Event>)
    requires forall i :: 0 <= i < |recv| ==> recv[i] != []
    ensures client == server == Decoded(IDLE, Flat(recv)).events
  {
    var c := new Client();
    var s := new PortManager();
    c.TelnetReadLoop(recv);
    assert c.handled == Ahead(IDLE, recv);
    client := c.handled;
    server := [];
    ReceivedAll(recv);
    ChunksIrrelevant(IDLE, recv);
    assert recv[0..] == recv;
    for k := 0 to |recv|
      invariant server + DecodedChunks(s.Current(), recv[k..]).events == DecodedChunks(IDLE, recv).events
    {
      assert recv[k..][1..] == recv[k + 1..];
      var events := s.Filter(recv[k]);
      server := server + events;
    }
  }

  lemma {:induction false} ReceivedAll(recv: seq<seq<Byte>>)
    requires forall i :: 0 <= i < |recv| ==> recv[i] != []
    ensures Received(recv) == recv
  {
    if recv != [] { ReceivedAll(recv[1..]); }
  }
}
