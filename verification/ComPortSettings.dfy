// The com-port settings of RFC 2217: the client's requests, the server's port, and the answers.

module ComPortSettings {
  import opened TelnetCodec
  import opened TelnetStates
  import opened Wrappers

  datatype Kind = BaudRate | DataSize | Parity | StopSize

  function SetCode(k: Kind): Byte
  {
    match k
    case BaudRate => 1
    case DataSize => 2
    case Parity => 3
    case StopSize => 4
  }

  function AnswerCode(k: Kind): Byte { SetCode(k) + 100 }

  datatype ParityValue = PARITY_NONE | PARITY_ODD | PARITY_EVEN | PARITY_MARK | PARITY_SPACE
  datatype StopValue = STOPBITS_ONE | STOPBITS_ONE_POINT_FIVE | STOPBITS_TWO

  function ParityMap(p: ParityValue): Byte
  {
    match p
    case PARITY_NONE => 1
    case PARITY_ODD => 2
    case PARITY_EVEN => 3
    case PARITY_MARK => 4
    case PARITY_SPACE => 5
  }

  // RFC2217_REVERSE_PARITY_MAP; None is a KeyError.
  function ReverseParityMap(b: Byte): Option<ParityValue>
  {
    if b == 1 then Some(PARITY_NONE)
    else if b == 2 then Some(PARITY_ODD)
    else if b == 3 then Some(PARITY_EVEN)
    else if b == 4 then Some(PARITY_MARK)
    else if b == 5 then Some(PARITY_SPACE)
    else None
  }

  function StopMap(s: StopValue): Byte
  {
    match s
    case STOPBITS_ONE => 1
    case STOPBITS_TWO => 2
    case STOPBITS_ONE_POINT_FIVE => 3
  }

  function ReverseStopMap(b: Byte): Option<StopValue>
  {
    if b == 1 then Some(STOPBITS_ONE)
    else if b == 2 then Some(STOPBITS_TWO)
    else if b == 3 then Some(STOPBITS_ONE_POINT_FIVE)
    else None
  }

  type Word = n: nat | n < 0x1_0000_0000

  // struct.pack("!I", n) and its inverse.
  function PackWord(n: Word): seq<Byte>
  {
    [n / 0x100_0000, n / 0x1_0000 % 0x100, n / 0x100 % 0x100, n % 0x100]
  }

  function UnpackWord(s: seq<Byte>): Word
    requires |s| == 4
  {
    (s[0] as int) * 0x100_0000 + (s[1] as int) * 0x1_0000 + (s[2] as int) * 0x100 + s[3]
  }

  lemma WordRoundTrip(n: Word)
    ensures UnpackWord(PackWord(n)) == n
  {
    var a, b, c := n / 0x100, n / 0x1_0000, n / 0x100_0000;
    assert b == a / 0x100 && c == b / 0x100;
    assert n == a * 0x100 + n % 0x100;
    assert a == b * 0x100 + a % 0x100;
    assert b == c * 0x100 + b % 0x100;
  }

  // ---------- the server ----------

  datatype Port = Port(baudrate: Word, bytesize: Byte, parity: ParityValue, stopbits: StopValue)

  // The number that stands for a setting on the wire.
  function Wire(p: Port, k: Kind): Word
  {
    match k
    case BaudRate => p.baudrate
    case DataSize => p.bytesize
    case Parity => ParityMap(p.parity)
    case StopSize => StopMap(p.stopbits)
  }

  function Packed(k: Kind, w: Word): seq<Byte>
    requires k != BaudRate ==> w < 256
  {
    if k == BaudRate then PackWord(w) else [w]
  }

  function PackedWire(p: Port, k: Kind): seq<Byte> { Packed(k, Wire(p, k)) }

  // Python's s[lo:hi]
  function Slice(s: seq<Byte>, lo: nat, hi: nat): seq<Byte>
    requires lo <= hi
  {
    if hi <= |s| then s[lo..hi] else if lo <= |s| then s[lo..] else []
  }

  // Raised: struct.error or KeyError, which nothing catches.  Ignored: not one of the four.
  datatype Outcome = Answered(port: Port, answer: Frame) | Raised | Ignored

  // The setting the server's port would take over from a request.
  function Requested(p: Port, k: Kind, payload: seq<Byte>): Option<Port>
  {
    match k
    case BaudRate =>
      if |Slice(payload, 0, 4)| != 4 then None
      else Some(p.(baudrate := UnpackWord(payload[..4])))
    case DataSize => if payload == [] then None else Some(p.(bytesize := payload[0]))
    case Parity =>
      if payload == [] || ReverseParityMap(payload[0]).None? then None
      else Some(p.(parity := ReverseParityMap(payload[0]).value))
    case StopSize =>
      if payload == [] || ReverseStopMap(payload[0]).None? then None
      else Some(p.(stopbits := ReverseStopMap(payload[0]).value))
  }

  // The serial port takes a setting over unless it raises ValueError: byte sizes other than 5 to
  // 8 always do, and `able` is the verdict of the hardware.
  predicate Accepted(wanted: Port, k: Kind, able: bool)
  {
    able && (k == DataSize ==> 5 <= wanted.bytesize <= 8)
  }

  function ServedKind(p: Port, k: Kind, payload: seq<Byte>, able: bool): Outcome
  {
    var wanted := Requested(p, k, payload);
    if wanted.None? then Raised
    else
      var port := if Accepted(wanted.value, k, able) then wanted.value else p;
      Answered(port, ComPort(AnswerCode(k), PackedWire(port, k)))
  }

  function KindOf(code: Byte): Option<Kind>
  {
    if code == 1 then Some(BaudRate)
    else if code == 2 then Some(DataSize)
    else if code == 3 then Some(Parity)
    else if code == 4 then Some(StopSize)
    else None
  }

  function Served(p: Port, suboption: seq<Byte>, able: bool): Outcome
  {
    if |suboption| < 2 || suboption[0] != COM_PORT_OPTION || KindOf(suboption[1]).None? then Ignored
    else ServedKind(p, KindOf(suboption[1]).value, suboption[2..], able)
  }

  // ---------- the server's answers, byte by byte ----------

  lemma BytesRoundTrip(a: Byte, b: Byte, c: Byte, d: Byte)
    ensures 0x100_0000 * a + 0x1_0000 * b + 0x100 * c + d < 0x1_0000_0000
    ensures PackWord(0x100_0000 * a + 0x1_0000 * b + 0x100 * c + d) == [a, b, c, d]
  {
    var n := 0x100_0000 * a + 0x1_0000 * b + 0x100 * c + d;
    assert n / 0x100 == 0x1_0000 * a + 0x100 * b + c;
    assert n / 0x1_0000 == 0x100 * a + b;
    assert n / 0x100_0000 == a;
  }

  // Suboption 1 asks for a baud rate in four bytes, most significant first, and is answered by
  // suboption 101; bytes behind the value do not matter.
  lemma BaudRateServed(p: Port, a: Byte, b: Byte, c: Byte, d: Byte, more: seq<Byte>, able: bool)
    ensures 0x100_0000 * a + 0x1_0000 * b + 0x100 * c + d < 0x1_0000_0000
    ensures Served(p, [44, 1, a, b, c, d] + more, able) ==
      if able
      then Answered(p.(baudrate := 0x100_0000 * a + 0x1_0000 * b + 0x100 * c + d), ComPort(101, [a, b, c, d]))
      else Answered(p, ComPort(101, PackWord(p.baudrate)))
  {
    var s := [44, 1, a, b, c, d] + more;
    BytesRoundTrip(a, b, c, d);
    assert s[2..][..4] == [a, b, c, d];
  }

  // Suboption 2 asks for a byte size and is answered by 102; only 5 to 8 are ever taken over.
  lemma DataSizeServed(p: Port, n: Byte, more: seq<Byte>, able: bool)
    ensures Served(p, [44, 2, n] + more, able) ==
      if able && 5 <= n <= 8 then Answered(p.(bytesize := n), ComPort(102, [n]))
      else Answered(p, ComPort(102, [p.bytesize]))
  {
    assert ([44, 2, n] + more)[2..] == [n] + more;
  }

  // Suboption 3 asks for a parity by number and is answered by 103.
  lemma ParityServed(p: Port, n: Byte, more: seq<Byte>, able: bool)
    ensures Served(p, [44, 3, n] + more, able) ==
      if !(1 <= n <= 5) then Raised
      else if able
      then Answered(p.(parity := [PARITY_NONE, PARITY_ODD, PARITY_EVEN, PARITY_MARK, PARITY_SPACE][n - 1]),
                    ComPort(103, [n]))
      else Answered(p, ComPort(103, [ParityMap(p.parity)]))
  {
    assert ([44, 3, n] + more)[2..] == [n] + more;
  }

  // Suboption 4 asks for stop bits by number and is answered by 104.
  lemma StopSizeServed(p: Port, n: Byte, more: seq<Byte>, able: bool)
    ensures Served(p, [44, 4, n] + more, able) ==
      if !(1 <= n <= 3) then Raised
      else if able
      then Answered(p.(stopbits := [STOPBITS_ONE, STOPBITS_TWO, STOPBITS_ONE_POINT_FIVE][n - 1]), ComPort(104, [n]))
      else Answered(p, ComPort(104, [StopMap(p.stopbits)]))
  {
    assert ([44, 4, n] + more)[2..] == [n] + more;
  }

  // Without a whole value a request raises an error; everything else is not a setting.
  lemma OthersNotServed(p: Port, s: seq<Byte>, able: bool)
    ensures Served(p, s, able).Ignored? <==> |s| < 2 || s[0] != 44 || !(1 <= s[1] <= 4)
    ensures 2 <= |s| && s[0] == 44 && (s[1] == 1 ==> |s| < 6) && (2 <= s[1] <= 4 ==> |s| < 3) && 1 <= s[1] <= 4 ==>
      Served(p, s, able).Raised?
  {
  }

  // ---------- the client ----------

  datatype Setting = Setting(value: Option<seq<Byte>>, state: RequestState)

  function Checked(s: Setting, payload: seq<Byte>): Setting
    requires s.value.Some?
  {
    s.(state := if s.value.value == Slice(payload, 0, |s.value.value|) then ACTIVE else REALLY_INACTIVE)
  }

  // An answer agrees if it begins with the value that was asked for.
  lemma AnswerAgrees(s: Setting, payload: seq<Byte>)
    requires s.value.Some?
    ensures Checked(s, payload) == Setting(s.value, if s.value.value <= payload then ACTIVE else REALLY_INACTIVE)
  {
    var v := s.value.value;
    if v <= payload {
      assert payload[..|v|] == v;
    } else if |v| <= |payload| {
      assert payload[..|v|] <= payload;
    }
  }

  // What _reconfigurePort asks for: a positive 32-bit baud rate, one byte, or a mapped code.
  predicate Askable(k: Kind, w: Word)
  {
    match k
    case BaudRate => 0 < w
    case DataSize => w < 256
    case Parity => 1 <= w <= 5
    case StopSize => 1 <= w <= 3
  }

  // ---------- both ends ----------

  // `last` remembers the last request of each kind.
  datatype Sys = Sys(settings: map<Kind, Setting>, port: Port, toServer: seq<Frame>, toClient: seq<Frame>,
                     last: map<Kind, Word>)

  datatype Action = Set(k: Kind, w: Word) | Serve(able: bool) | Answer

  const ALL_KINDS := {BaudRate, DataSize, Parity, StopSize}

  function Initial(port: Port): Sys
  {
    Sys(map k | k in ALL_KINDS :: Setting(None, INACTIVE), port, [], [], map[])
  }

  // The payload the decoder hands on for a frame.
  function Suboption(f: Frame): seq<Byte>
    requires f.ComPort?
  {
    [COM_PORT_OPTION, f.option] + f.value
  }

  function AnswerKind(code: Byte): Option<Kind>
  {
    if code >= 100 then KindOf(code - 100) else None
  }

  ghost predicate Enabled(s: Sys, act: Action)
  {
    match act
    case Set(k, w) => Askable(k, w) && k in s.settings
    case Serve(able) =>
      s.toServer != [] && s.toServer[0].ComPort? && Served(s.port, Suboption(s.toServer[0]), able).Answered?
    case Answer =>
      s.toClient != [] && s.toClient[0].ComPort? && AnswerKind(s.toClient[0].option).Some? &&
      AnswerKind(s.toClient[0].option).value in s.settings &&
      s.settings[AnswerKind(s.toClient[0].option).value].value.Some?
  }

  ghost function Next(s: Sys, act: Action): Sys
    requires Enabled(s, act)
  {
    match act
    case Set(k, w) =>
      s.(settings := s.settings[k := Setting(Some(Packed(k, w)), REQUESTED)],
         toServer := s.toServer + [ComPort(SetCode(k), Packed(k, w))], last := s.last[k := w])
    case Serve(able) =>
      var r := Served(s.port, Suboption(s.toServer[0]), able);
      s.(port := r.port, toServer := s.toServer[1..], toClient := s.toClient + [r.answer])
    case Answer =>
      var k := AnswerKind(s.toClient[0].option).value;
      s.(settings := s.settings[k := Checked(s.settings[k], s.toClient[0].value)], toClient := s.toClient[1..])
  }

  // ---------- one kind at a time ----------

  // The values of the frames with one code, in order.
  function Values(ch: seq<Frame>, code: Byte): seq<seq<Byte>>
  {
    if ch == [] then []
    else (if ch[0].ComPort? && ch[0].option == code then [ch[0].value] else []) + Values(ch[1..], code)
  }

  lemma {:induction false} ValuesJoin(a: seq<Frame>, b: seq<Frame>, code: Byte)
    ensures Values(a + b, code) == Values(a, code) + Values(b, code)
    decreases |a|
  {
    if a == [] {
      assert a + b == b;
    } else {
      assert (a + b)[1..] == a[1..] + b;
      ValuesJoin(a[1..], b, code);
    }
  }

  lemma ValuesSent(ch: seq<Frame>, f: Frame, code: Byte)
    requires f.ComPort?
    ensures Values(ch + [f], code) == Values(ch, code) + if f.option == code then [f.value] else []
  {
    ValuesJoin(ch, [f], code);
    assert [f][1..] == [];
  }

  predicate IsRequest(f: Frame)
  {
    f.ComPort? && exists k: Kind, w: Word :: Askable(k, w) && f == ComPort(SetCode(k), Packed(k, w))
  }

  predicate IsAnswer(f: Frame)
  {
    f.ComPort? && AnswerKind(f.option).Some?
  }

  // Seen from one kind: while a request is on the way, the last one is the client's value; then
  // the last answer on the way is what the port holds; then the verdict is in.
  predicate KindOk(setting: Setting, last: Option<Word>, port: Port, k: Kind,
                   requests: seq<seq<Byte>>, answers: seq<seq<Byte>>)
  {
    match last
    case None => setting == Setting(None, INACTIVE) && requests == answers == []
    case Some(w) =>
      && Askable(k, w)
      && setting.value == Some(Packed(k, w))
      && if requests != [] then requests[|requests| - 1] == Packed(k, w)
         else if answers != [] then answers[|answers| - 1] == PackedWire(port, k)
         else setting.state == if Wire(port, k) == w then ACTIVE else REALLY_INACTIVE
  }

  function SettingOf(s: Sys, k: Kind): Setting
  {
    if k in s.settings then s.settings[k] else Setting(None, INACTIVE)
  }

  function LastOf(s: Sys, k: Kind): Option<Word> { if k in s.last then Some(s.last[k]) else None }

  predicate Settled(s: Sys, k: Kind)
  {
    KindOk(SettingOf(s, k), LastOf(s, k), s.port, k,
           Values(s.toServer, SetCode(k)), Values(s.toClient, AnswerCode(k)))
  }

  ghost predicate Inv(s: Sys)
  {
    && (forall k: Kind :: k in s.settings)
    && (forall i :: 0 <= i < |s.toServer| ==> IsRequest(s.toServer[i]))
    && (forall i :: 0 <= i < |s.toClient| ==> IsAnswer(s.toClient[i]))
    && forall k: Kind :: Settled(s, k)
  }

  lemma PackedInjective(k: Kind, v: Word, w: Word)
    requires k != BaudRate ==> v < 256 && w < 256
    ensures Packed(k, v) == Packed(k, w) <==> v == w
    ensures |Packed(k, v)| == |Packed(k, w)|
  {
    WordRoundTrip(v);
    WordRoundTrip(w);
  }

  // An accepted request is taken over exactly; a rejected one changes nothing.  Either way the
  // other settings stay and the answer is what the port then holds.
  lemma RequestServed(p: Port, k: Kind, w: Word, able: bool)
    requires Askable(k, w)
    ensures var r := Served(p, Suboption(ComPort(SetCode(k), Packed(k, w))), able);
            && r.Answered?
            && r.answer == ComPort(AnswerCode(k), PackedWire(r.port, k))
            && (Wire(r.port, k) == w || r.port == p)
            && (able && (k == DataSize ==> 5 <= w <= 8) ==> Wire(r.port, k) == w)
            && (!able || (k == DataSize && !(5 <= w <= 8)) ==> r.port == p)
            && forall j: Kind :: j != k ==> Wire(r.port, j) == Wire(p, j)
  {
    var sub := Suboption(ComPort(SetCode(k), Packed(k, w)));
    assert sub[2..] == Packed(k, w);
    assert Packed(k, w)[..|Packed(k, w)|] == Packed(k, w);
    WordRoundTrip(w);
  }

  lemma SetSettled(s: Sys, k: Kind, w: Word, j: Kind)
    requires Settled(s, j) && Enabled(s, Set(k, w))
    ensures Settled(Next(s, Set(k, w)), j)
  {
    ValuesSent(s.toServer, ComPort(SetCode(k), Packed(k, w)), SetCode(j));
  }

  lemma InvSet(s: Sys, k: Kind, w: Word)
    requires Inv(s) && Enabled(s, Set(k, w))
    ensures Inv(Next(s, Set(k, w)))
  {
    var s' := Next(s, Set(k, w));
    assert IsRequest(ComPort(SetCode(k), Packed(k, w)));
    forall j: Kind ensures j in s'.settings && Settled(s', j) {
      assert Settled(s, j) && j in s.settings;
      SetSettled(s, k, w, j);
    }
  }

  // A served request moves from one queue to the other, as the answer.
  lemma ServeSeen(s: Sys, able: bool, k: Kind, w: Word, j: Kind)
    requires Enabled(s, Serve(able)) && Askable(k, w) && s.toServer[0] == ComPort(SetCode(k), Packed(k, w))
    ensures var s' := Next(s, Serve(able));
            var requests := Values(s.toServer, SetCode(j));
            var answers := Values(s.toClient, AnswerCode(j));
            if j == k
            then requests != [] && Values(s'.toServer, SetCode(j)) == requests[1..] &&
                 Values(s'.toClient, AnswerCode(j)) == answers + [PackedWire(s'.port, k)]
            else Values(s'.toServer, SetCode(j)) == requests && Values(s'.toClient, AnswerCode(j)) == answers &&
                 Wire(s'.port, j) == Wire(s.port, j)
  {
    RequestServed(s.port, k, w, able);
    ValuesSent(s.toClient, Served(s.port, Suboption(s.toServer[0]), able).answer, AnswerCode(j));
  }

  lemma ServeSettled(s: Sys, able: bool, k: Kind, w: Word, j: Kind)
    requires Settled(s, j) && Enabled(s, Serve(able))
    requires Askable(k, w) && s.toServer[0] == ComPort(SetCode(k), Packed(k, w))
    ensures Settled(Next(s, Serve(able)), j)
  {
    ServeSeen(s, able, k, w, j);
  }

  lemma InvServe(s: Sys, able: bool)
    requires Inv(s) && Enabled(s, Serve(able))
    ensures Inv(Next(s, Serve(able)))
  {
    var s' := Next(s, Serve(able));
    assert IsRequest(s.toServer[0]);
    var k, w :| Askable(k, w) && s.toServer[0] == ComPort(SetCode(k), Packed(k, w));
    RequestServed(s.port, k, w, able);
    forall j: Kind ensures j in s'.settings && Settled(s', j) {
      assert Settled(s, j) && j in s.settings;
      ServeSettled(s, able, k, w, j);
    }
  }

  lemma AnswerSettled(s: Sys, j: Kind)
    requires Settled(s, j) && Enabled(s, Answer)
    ensures Settled(Next(s, Answer), j)
  {
    var f := s.toClient[0];
    var k := AnswerKind(f.option).value;
    assert AnswerCode(k) == f.option;
    var s', answers := Next(s, Answer), Values(s.toClient, AnswerCode(j));
    assert LastOf(s', j) == LastOf(s, j) && s'.port == s.port && s'.toServer == s.toServer;
    if j == k {
      assert answers == [f.value] + Values(s'.toClient, AnswerCode(j));
      assert answers[1..] == Values(s'.toClient, AnswerCode(j));
      CheckedOk(s.settings[k], s.last[k], s.port, k, Values(s.toServer, SetCode(k)), answers);
      assert SettingOf(s', k) == Checked(s.settings[k], f.value);
    } else {
      assert AnswerCode(j) != f.option && SettingOf(s', j) == SettingOf(s, j);
      assert answers == [] + Values(s'.toClient, AnswerCode(j)) == Values(s'.toClient, AnswerCode(j));
    }
  }

  // The answer that arrives first is checked; it decides if it is the last one.
  lemma CheckedOk(setting: Setting, w: Word, port: Port, k: Kind, requests: seq<seq<Byte>>, answers: seq<seq<Byte>>)
    requires KindOk(setting, Some(w), port, k, requests, answers) && answers != []
    ensures KindOk(Checked(setting, answers[0]), Some(w), port, k, requests, answers[1..])
  {
    if requests == [] && |answers| == 1 {
      PackedInjective(k, w, Wire(port, k));
      var payload := answers[0];
      assert payload == PackedWire(port, k) && payload[..|payload|] == payload;
    }
  }

  lemma InvAnswer(s: Sys)
    requires Inv(s) && Enabled(s, Answer)
    ensures Inv(Next(s, Answer))
  {
    var s' := Next(s, Answer);
    forall j: Kind ensures j in s'.settings && Settled(s', j) {
      assert Settled(s, j) && j in s.settings;
      AnswerSettled(s, j);
    }
  }

  lemma InvNext(s: Sys, act: Action)
    requires Inv(s) && Enabled(s, act)
    ensures Inv(Next(s, act))
  {
    match act
    case Set(k, w) => InvSet(s, k, w);
    case Serve(able) => InvServe(s, able);
    case Answer => InvAnswer(s);
  }

  // ---------- runs ----------

  ghost predicate IsRun(run: seq<Sys>, acts: seq<Action>)
  {
    |run| == |acts| + 1 &&
    forall i :: 0 <= i < |acts| ==> Enabled(run[i], acts[i]) && run[i + 1] == Next(run[i], acts[i])
  }

  lemma {:induction false} InvRun(run: seq<Sys>, acts: seq<Action>)
    requires IsRun(run, acts) && Inv(run[0])
    ensures Inv(run[|acts|])
    decreases |acts|
  {
    if acts != [] {
      InvNext(run[0], acts[0]);
      assert run[0 + 1] == Next(run[0], acts[0]);
      InvRun(run[1..], acts[1..]);
    }
  }

  // No message is ever stuck: whatever is on the way can be delivered, and deliveries use up a
  // finite reserve, so without new requests all answers arrive.
  lemma DeliveriesEnd(s: Sys)
    requires Inv(s)
    ensures s.toServer != [] ==> forall able :: Enabled(s, Serve(able))
    ensures s.toClient != [] ==> Enabled(s, Answer)
    ensures forall act: Action :: !act.Set? && Enabled(s, act) ==>
      2 * |Next(s, act).toServer| + |Next(s, act).toClient| < 2 * |s.toServer| + |s.toClient|
  {
    if s.toServer != [] {
      assert IsRequest(s.toServer[0]);
      var k, w :| Askable(k, w) && s.toServer[0] == ComPort(SetCode(k), Packed(k, w));
      forall able { RequestServed(s.port, k, w, able); }
    }
    if s.toClient != [] {
      var k := AnswerKind(s.toClient[0].option).value;
      assert Settled(s, k) && k in s.settings;
    }
  }

  // Every interleaving of requests and deliveries, with any verdicts of the hardware: once all
  // answers are delivered, a setting is active exactly when the port holds the last value that
  // was requested, and rejected exactly when it holds another one.
  lemma SettingsSettle(port: Port, run: seq<Sys>, acts: seq<Action>, k: Kind)
    requires IsRun(run, acts) && run[0] == Initial(port)
    requires run[|acts|].toServer == [] && run[|acts|].toClient == []
    ensures var s := run[|acts|];
            k in s.settings &&
            (if k in s.last
             then (s.settings[k].state == ACTIVE <==> Wire(s.port, k) == s.last[k]) &&
                  (s.settings[k].state == REALLY_INACTIVE <==> Wire(s.port, k) != s.last[k])
             else s.settings[k].state == INACTIVE)
  {
    assert forall j: Kind :: j in ALL_KINDS by {
      forall j: Kind ensures j in ALL_KINDS {
        match j case BaudRate => case DataSize => case Parity => case StopSize =>
      }
    }
    assert Inv(Initial(port));
    InvRun(run, acts);
    assert Settled(run[|acts|], k) && k in run[|acts|].settings;
  }

  lemma WaitsNext(s: Sys, act: Action, k: Kind)
    requires Enabled(s, act) && k in s.settings && s.settings[k].state == REQUESTED
    requires act.Set? ==> act.k != k
    requires act.Answer? ==> s.toClient[0].option != AnswerCode(k)
    ensures k in Next(s, act).settings && Next(s, act).settings[k].state == REQUESTED
  {
    if act.Answer? { assert AnswerCode(AnswerKind(s.toClient[0].option).value) == s.toClient[0].option; }
  }

  // From a request until the first answer of its kind a setting is neither active nor rejected.
  lemma {:induction false} WaitsForAnswer(run: seq<Sys>, acts: seq<Action>, k: Kind, w: Word, n: nat)
    requires IsRun(run, acts) && 0 < n <= |acts| && acts[0] == Set(k, w)
    requires forall i :: 0 < i < n && acts[i].Set? ==> acts[i].k != k
    requires forall i :: 0 < i < n && acts[i].Answer? ==> run[i].toClient[0].option != AnswerCode(k)
    ensures k in run[n].settings && run[n].settings[k].state == REQUESTED
    decreases n
  {
    assert run[(n - 1) + 1] == Next(run[n - 1], acts[n - 1]);
    if n > 1 {
      WaitsForAnswer(run, acts, k, w, n - 1);
      WaitsNext(run[n - 1], acts[n - 1], k);
    }
  }

  // The queues are byte streams in truth: requests and answers on the way, escaped, sent and
  // decoded, arrive as just the suboptions the two sides process.
  function Suboptions(ch: seq<Frame>): seq<Event>
    requires forall i :: 0 <= i < |ch| ==> ch[i].ComPort?
  {
    if ch == [] then [] else [Subnegotiated(Suboption(ch[0]))] + Suboptions(ch[1..])
  }

  lemma {:induction false} FramesArrive(ch: seq<Frame>)
    requires forall i :: 0 <= i < |ch| ==> ch[i].ComPort? && (IsRequest(ch[i]) || IsAnswer(ch[i]))
    ensures Decoded(IDLE, EncodeAll(ch)) == Output(IDLE, Suboptions(ch))
  {
    forall i | 0 <= i < |ch| ensures WellFormed(ch[i]) {
      assert IsRequest(ch[i]) || IsAnswer(ch[i]);
    }
    StreamDecoded(ch);
    SuboptionsMeant(ch);
  }

  lemma {:induction false} SuboptionsMeant(ch: seq<Frame>)
    requires forall i :: 0 <= i < |ch| ==> ch[i].ComPort?
    ensures MeaningAll(ch) == Suboptions(ch)
  {
    if ch != [] { SuboptionsMeant(ch[1..]); }
  }

  // ---------- the objects ----------

  // The server side of a serial port with its property setters.
  class SerialPort {
    var settings: Port

    constructor (initial: Port)
      ensures settings == initial
    {
      settings := initial;
    }

    // Assigns one property.  `failed` is the ValueError; a port that fails while it is being
    // reconfigured has already stored the new value.
    method Assign(wanted: Port, k: Kind, able: bool, stored: bool) returns (failed: bool)
      modifies this
      ensures failed == !Accepted(wanted, k, able)
      ensures settings == wanted || (failed && settings == old(settings))
    {
      failed := !Accepted(wanted, k, able);
      if !failed || stored { settings := wanted; }
    }

    // The four setting requests of _telnetProcessSubnegotiation.
    method ProcessSubnegotiation(suboption: seq<Byte>, able: bool, stored: bool)
      returns (raised: bool, answer: Option<Frame>)
      modifies this
      ensures raised <==> Served(old(settings), suboption, able).Raised?
      ensures match Served(old(settings), suboption, able)
              case Answered(p, f) => settings == p && answer == Some(f)
              case _ => settings == old(settings) && answer == None
    {
      raised, answer := false, None;
      if Slice(suboption, 0, 1) == [COM_PORT_OPTION] && |suboption| >= 2 && KindOf(suboption[1]).Some? {
        var k := KindOf(suboption[1]).value;
        var backup := settings;
        var wanted := Requested(settings, k, suboption[2..]);
        if wanted.None? { return true, None; }
        var failed := Assign(wanted.value, k, able, stored);
        if failed { settings := backup; }
        answer := Some(ComPort(AnswerCode(k), PackedWire(settings, k)));
      }
    }
  }

  // The client side of one setting.
  class TelnetSubnegotiation {
    const option: Byte
    var value: Option<seq<Byte>>
    var state: RequestState

    ghost function Snapshot(): Setting
      reads this
    {
      Setting(value, state)
    }

    constructor (option: Byte)
      ensures this.option == option && Snapshot() == Setting(None, INACTIVE)
    {
      this.option, value, state := option, None, INACTIVE;
    }

    method Set(v: seq<Byte>) returns (request: Frame)
      modifies this
      ensures Snapshot() == Setting(Some(v), REQUESTED) && request == ComPort(option, v)
    {
      value, state := Some(v), REQUESTED;
      request := ComPort(option, v);
    }

    method CheckAnswer(payload: seq<Byte>)
      requires value.Some?
      modifies this
      ensures Snapshot() == Checked(old(Snapshot()), payload)
    {
      if value.value == Slice(payload, 0, |value.value|) {
        state := ACTIVE;
      } else {
        state := REALLY_INACTIVE;
      }
    }
  }
}
