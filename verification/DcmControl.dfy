// dyn_pll_ctrl: the clocked controller that programs the clock multiplier over a serial line.
// A register value is a bit sequence, least significant bit first, or a number.

module DcmControl {

  // An 8-bit register, least significant bit first.
  datatype Bits = Bits(b0: bool, b1: bool, b2: bool, b3: bool, b4: bool, b5: bool, b6: bool, b7: bool)

  function Sequence(b: Bits): seq<bool> { [b.b0, b.b1, b.b2, b.b3, b.b4, b.b5, b.b6, b.b7] }

  function Bit(b: Bits, i: nat): bool
    requires i < 8
  {
    if i == 0 then b.b0 else if i == 1 then b.b1 else if i == 2 then b.b2 else if i == 3 then b.b3
    else if i == 4 then b.b4 else if i == 5 then b.b5 else if i == 6 then b.b6 else b.b7
  }

  function BinaryValue(s: seq<bool>): nat
  {
    if s == [] then 0 else (if s[0] then 1 else 0) + 2 * BinaryValue(s[1..])
  }

  function Number(b: Bits): nat { BinaryValue(Sequence(b)) }

  // The 24-bit watchdog and the 8-bit state.
  const WATCHDOG_BIT := 0x80_0000
  type Count = n: nat | n < 0x100_0000
  type State = n: nat | n < 256

  function Incremented(n: Count): Count { if n == 0xFF_FFFF then 0 else n + 1 }

  function Advanced(n: State): State { if n == 255 then 0 else n + 1 }

  // SPEED_MHZ is `initial`, OSC_MHZ is `osc`.
  datatype Parameters = Parameters(initial: Bits, speedLimit: nat, speedMin: nat, osc: Bits)

  datatype Inputs = Inputs(clkValid: bool, speedIn: Bits, start: bool, locked: bool)

  datatype Registers = Registers(
    progclk: bool, progdata: bool, progen: bool, reset: bool,
    watchdog: Count, state: State, dval: Bits, mval: Bits, startD1: bool)

  function PowerOn(p: Parameters): Registers
  {
    Registers(false, false, false, false, 0, 0, p.osc, p.initial, false)
  }


  // [6:0] <= [7:1]: the top bit stays.
  function Shifted(b: Bits): Bits { Bits(b.b1, b.b2, b.b3, b.b4, b.b5, b.b6, b.b7, b.b7) }

  predicate SendsD(state: nat)
  {
    state == 6 || state == 8 || state == 10 || state == 12 || state == 14 || state == 16 || state == 18 || state == 20
  }

  predicate SendsM(state: nat)
  {
    state == 36 || state == 38 || state == 40 || state == 42 || state == 44 || state == 46 || state == 48 || state == 50
  }

  predicate InRange(p: Parameters, speed: Bits) { p.speedMin <= Number(speed) <= p.speedLimit }

  predicate Accepts(p: Parameters, r: Registers, i: Inputs)
  {
    i.clkValid && (i.start || r.startD1) && r.state == 0 && InRange(p, i.speedIn) && r.progclk
  }

  // ---------- one clock edge, register by register ----------

  function NextWatchdog(r: Registers, i: Inputs): Count
  {
    if r.watchdog >= WATCHDOG_BIT then 0
    else if i.locked then 0
    else Incremented(r.watchdog)
  }

  function NextState(p: Parameters, r: Registers, i: Inputs): State
  {
    if !i.clkValid || r.state == 254 then 0
    else if r.state != 0 then Advanced(r.state)
    else if Accepts(p, r, i) then 1
    else 0
  }

  function NextProgen(p: Parameters, r: Registers, i: Inputs): bool
  {
    if !i.clkValid then false
    else if (r.state == 2 || r.state == 32 || r.state == 62) then true
    else if (r.state == 22 || r.state == 52 || r.state == 64) then false
    else if Accepts(p, r, i) then false
    else r.progen
  }

  function NextProgdata(p: Parameters, r: Registers, i: Inputs): bool
  {
    if !i.clkValid then false
    else if (r.state == 2 || r.state == 32) then true
    else if (r.state == 4 || r.state == 22 || r.state == 52) then false
    else if SendsD(r.state) then r.dval.b0
    else if SendsM(r.state) then r.mval.b0
    else if Accepts(p, r, i) then false
    else r.progdata
  }

  function NextDval(p: Parameters, r: Registers, i: Inputs): Bits
  {
    if i.clkValid && SendsD(r.state) then Shifted(r.dval)
    else if Accepts(p, r, i) then p.osc
    else r.dval
  }

  function NextMval(p: Parameters, r: Registers, i: Inputs): Bits
  {
    if i.clkValid && SendsM(r.state) then Shifted(r.mval)
    else if Accepts(p, r, i) then i.speedIn
    else r.mval
  }

  function Next(p: Parameters, r: Registers, i: Inputs): Registers
  {
    Registers(
      !r.progclk, NextProgdata(p, r, i), NextProgen(p, r, i), r.watchdog >= WATCHDOG_BIT,
      NextWatchdog(r, i), NextState(p, r, i), NextDval(p, r, i), NextMval(p, r, i), i.start)
  }

  // ---------- the always block ----------

  class DynPllCtrl {
    const p: Parameters
    var progclk: bool
    var progdata: bool
    var progen: bool
    var reset: bool
    var watchdog: Count
    var state: State
    var dval: Bits
    var mval: Bits
    var startD1: bool

    ghost function Current(): Registers
      reads this
    {
      Registers(progclk, progdata, progen, reset, watchdog, state, dval, mval, startD1)
    }

    constructor (p: Parameters)
      ensures this.p == p && Current() == PowerOn(p)
    {
      this.p := p;
      progclk, progdata, progen, reset, startD1 := false, false, false, false, false;
      watchdog, state, dval, mval := 0, 0, p.osc, p.initial;
    }

    // The case statement, on the values assigned so far.
    static method Case(state: State, dval: Bits, mval: Bits,
                       progen0: bool, progdata0: bool, state0: State, dval0: Bits, mval0: Bits)
      returns (nProgen: bool, nProgdata: bool, nState: State, nDval: Bits, nMval: Bits)
      ensures nProgen == if state == 2 || state == 32 || state == 62 then true
                         else if state == 22 || state == 52 || state == 64 then false else progen0
      ensures nProgdata == if state == 2 || state == 32 then true
                           else if state == 4 || state == 22 || state == 52 then false
                           else if SendsD(state) then dval.b0 else if SendsM(state) then mval.b0 else progdata0
      ensures nState == if state == 254 then 0 else state0
      ensures nDval == if SendsD(state) then Shifted(dval) else dval0
      ensures nMval == if SendsM(state) then Shifted(mval) else mval0
    {
      nProgen, nProgdata, nState, nDval, nMval := progen0, progdata0, state0, dval0, mval0;
      if state == 2 {
        nProgen := true;
        nProgdata := true;
      } else if state == 4 {
        nProgdata := false;
      } else if SendsD(state) {
        nProgdata := dval.b0;
        nDval := Shifted(dval);
      } else if state == 22 {
        nProgen := false;
        nProgdata := false;
      } else if state == 32 {
        nProgen := true;
        nProgdata := true;
      } else if SendsM(state) {
        nProgdata := mval.b0;
        nMval := Shifted(mval);
      } else if state == 52 {
        nProgen := false;
        nProgdata := false;
      } else if state == 62 {
        nProgen := true;
      } else if state == 64 {
        nProgen := false;
      } else if state == 254 {
        nState := 0;
      }
    }

    // The block up to the case statement, and the case: right-hand sides read the registers r as
    // they were, and the last assignment to a register wins.
    static method Assigned(p: Parameters, r: Registers, i: Inputs) returns (n: Registers)
      ensures n == Next(p, r, i)
    {
      var nProgen, nProgdata, nState, nDval, nMval := r.progen, r.progdata, r.state, r.dval, r.mval;
      var nWatchdog, nReset := Incremented(r.watchdog), false;
      if i.locked {
        nWatchdog := 0;
      }
      if r.watchdog >= WATCHDOG_BIT {
        nWatchdog := 0;
        nReset := true;
      }
      if !i.clkValid {
        nProgen := false;
        nProgdata := false;
        nState := 0;
      } else {
        if (i.start || r.startD1) && r.state == 0 && InRange(p, i.speedIn) && r.progclk {
          nProgen := false;
          nProgdata := false;
          nMval := i.speedIn;
          nDval := p.osc;
          nState := 1;
        }
        if r.state != 0 {
          nState := Advanced(r.state);
        }
        nProgen, nProgdata, nState, nDval, nMval :=
          Case(r.state, r.dval, r.mval, nProgen, nProgdata, nState, nDval, nMval);
      }
      n := Registers(!r.progclk, nProgdata, nProgen, nReset, nWatchdog, nState, nDval, nMval, i.start);
    }

    // One posedge of clk.
    method PosEdge(i: Inputs)
      modifies this
      ensures Current() == Next(p, old(Current()), i)
    {
      var n := Assigned(p, Registers(progclk, progdata, progen, reset, watchdog, state, dval, mval, startD1), i);
      progclk, startD1, reset, watchdog := n.progclk, n.startD1, n.reset, n.watchdog;
      progen, progdata, state, dval, mval := n.progen, n.progdata, n.state, n.dval, n.mval;
    }
  }

  // ---------- the receiver ----------

  // The multiplier samples progen and progdata when progclk rises.  While progen is high it
  // collects bits; when it is low a collected command is complete.
  datatype Receiver = Receiver(bits: seq<bool>, commands: seq<seq<bool>>)

  function Sample(rx: Receiver, progen: bool, progdata: bool): Receiver
  {
    if progen then Receiver(rx.bits + [progdata], rx.commands)
    else if rx.bits != [] then Receiver([], rx.commands + [rx.bits])
    else rx
  }

  // A line with the multiplier at its end; `accepted` are the speeds of the accepted starts.
  datatype Line = Line(regs: Registers, rx: Receiver, accepted: seq<Bits>)

  function NextLine(p: Parameters, l: Line, i: Inputs): Line
  {
    Line(Next(p, l.regs, i),
         if l.regs.progclk then l.rx else Sample(l.rx, l.regs.progen, l.regs.progdata),
         if Accepts(p, l.regs, i) then l.accepted + [i.speedIn] else l.accepted)
  }

  function InitialLine(p: Parameters): Line { Line(PowerOn(p), Receiver([], []), []) }

  function Ran(p: Parameters, l: Line, ins: seq<Inputs>): Line
  {
    if ins == [] then l else NextLine(p, Ran(p, l, ins[..|ins| - 1]), ins[|ins| - 1])
  }

  // ---------- what is on the line ----------

  // A load command: 1, then 0 for D or 1 for M, then the eight bits of the value.
  function Load(second: bool, value: Bits): (r: seq<bool>)
    ensures |r| == 10
  {
    seq(10, k requires 0 <= k < 10 => if k == 0 then true else if k == 1 then second else Bit(value, k - 2))
  }

  function LoadD(d: Bits): seq<bool> { Load(false, d) }

  function LoadM(m: Bits): seq<bool> { Load(true, m) }

  const GO := [false]

  // The commands of one accepted start.
  function Programming(p: Parameters, m: Bits): seq<seq<bool>> { [LoadD(p.osc), LoadM(m), GO] }

  function AllProgramming(p: Parameters, speeds: seq<Bits>): seq<seq<bool>>
  {
    if speeds == [] then []
    else AllProgramming(p, speeds[..|speeds| - 1]) + Programming(p, speeds[|speeds| - 1])
  }

  // The commands complete, and the bits collected, when the controller is in a busy state.
  function Complete(p: Parameters, m: Bits, state: nat): seq<seq<bool>>
  {
    if state <= 23 then []
    else if state <= 53 then [LoadD(p.osc)]
    else if state <= 65 then [LoadD(p.osc), LoadM(m)]
    else Programming(p, m)
  }

  function Collected(p: Parameters, m: Bits, state: nat): seq<bool>
  {
    if 2 <= state <= 23 then LoadD(p.osc)[..if state <= 22 then (state - 2) / 2 else 10]
    else if 32 <= state <= 53 then LoadM(m)[..if state <= 52 then (state - 32) / 2 else 10]
    else if 64 <= state <= 65 then GO
    else []
  }

  // progen and progdata in a busy state.
  predicate Enabling(state: nat) { 3 <= state <= 22 || 33 <= state <= 52 || 63 <= state <= 64 }

  function DataBit(p: Parameters, m: Bits, state: nat): bool
  {
    if 3 <= state <= 4 then true
    else if 7 <= state <= 22 then Bit(p.osc, (state - 7) / 2)
    else if 33 <= state <= 36 then true
    else if 37 <= state <= 52 then Bit(m, (state - 37) / 2)
    else false
  }

  // How many bits of a value have been shifted out before `state`.
  function Shifts(first: nat, state: nat): (k: nat)
    ensures k <= 8
  {
    if state <= first then 0 else if state <= first + 14 then (state - first + 1) / 2 else 8
  }

  // A value after k shifts.
  function Dropped(value: Bits, k: nat): Bits
  {
    if k == 0 then value else Shifted(Dropped(value, k - 1))
  }

  // The registers while the speed m is being programmed.
  predicate Busy(p: Parameters, r: Registers, m: Bits)
  {
    && 0 < r.state <= 254
    && (r.progclk <==> r.state % 2 == 0)
    && r.progen == Enabling(r.state)
    && r.progdata == DataBit(p, m, r.state)
    && r.dval == Dropped(p.osc, Shifts(6, r.state))
    && r.mval == Dropped(m, Shifts(36, r.state))
  }

  function Heard(p: Parameters, m: Bits, base: seq<seq<bool>>, state: nat): Receiver
  {
    Receiver(Collected(p, m, state), base + Complete(p, m, state))
  }

  ghost predicate Inv(p: Parameters, l: Line)
  {
    if l.regs.state == 0 then
      !l.regs.progen && !l.regs.progdata && l.rx == Receiver([], AllProgramming(p, l.accepted))
    else
      && l.accepted != []
      && var m, before := l.accepted[|l.accepted| - 1], l.accepted[..|l.accepted| - 1];
         Busy(p, l.regs, m) && l.rx == Heard(p, m, AllProgramming(p, before), l.regs.state)
  }

  lemma {:induction false} DroppedBit(value: Bits, k: nat, j: nat)
    requires k + j < 8
    ensures Bit(Dropped(value, k), j) == Bit(value, k + j)
    decreases k
  {
    if k > 0 {
      DroppedBit(value, k - 1, j + 1);
      assert Bit(Shifted(Dropped(value, k - 1)), j) == Bit(Dropped(value, k - 1), j + 1);
    }
  }

  lemma ProgdataNext(p: Parameters, r: Registers, i: Inputs, m: Bits)
    requires i.clkValid && 0 < r.state < 254 && r.progdata == DataBit(p, m, r.state)
    requires SendsD(r.state) ==> r.dval.b0 == Bit(p.osc, (r.state - 6) / 2)
    requires SendsM(r.state) ==> r.mval.b0 == Bit(m, (r.state - 36) / 2)
    ensures NextProgdata(p, r, i) == DataBit(p, m, r.state + 1)
  {
    var st := r.state;
    if 7 <= st <= 21 && st % 2 == 1 { assert (st + 1 - 7) / 2 == (st - 7) / 2; }
    if 37 <= st <= 51 && st % 2 == 1 { assert (st + 1 - 37) / 2 == (st - 37) / 2; }
    if SendsD(st) { assert (st + 1 - 7) / 2 == (st - 6) / 2; }
    if SendsM(st) { assert (st + 1 - 37) / 2 == (st - 36) / 2; }
  }

  lemma OutputsNext(p: Parameters, r: Registers, i: Inputs, m: Bits)
    requires i.clkValid && Busy(p, r, m) && r.state < 254
    ensures NextProgen(p, r, i) == Enabling(r.state + 1)
    ensures NextProgdata(p, r, i) == DataBit(p, m, r.state + 1)
  {
    FirstBits(p, r, m);
    ProgenNext(p, r, i);
    ProgdataNext(p, r, i, m);
  }

  lemma ProgenNext(p: Parameters, r: Registers, i: Inputs)
    requires i.clkValid && 0 < r.state < 254 && r.progen == Enabling(r.state)
    ensures NextProgen(p, r, i) == Enabling(r.state + 1)
  {
  }

  // The bit that is shifted out next.
  lemma FirstBits(p: Parameters, r: Registers, m: Bits)
    requires Busy(p, r, m)
    ensures SendsD(r.state) ==> r.dval.b0 == Bit(p.osc, (r.state - 6) / 2)
    ensures SendsM(r.state) ==> r.mval.b0 == Bit(m, (r.state - 36) / 2)
  {
    if SendsD(r.state) { DroppedBit(p.osc, (r.state - 6) / 2, 0); }
    if SendsM(r.state) { DroppedBit(m, (r.state - 36) / 2, 0); }
  }

  lemma DvalNext(p: Parameters, r: Registers, i: Inputs)
    requires i.clkValid && 0 < r.state < 254 && r.dval == Dropped(p.osc, Shifts(6, r.state))
    ensures NextDval(p, r, i) == Dropped(p.osc, Shifts(6, r.state + 1))
  {
    assert Shifts(6, r.state + 1) == Shifts(6, r.state) + if SendsD(r.state) then 1 else 0;
  }

  lemma MvalNext(p: Parameters, r: Registers, i: Inputs, m: Bits)
    requires i.clkValid && 0 < r.state < 254 && r.mval == Dropped(m, Shifts(36, r.state))
    ensures NextMval(p, r, i) == Dropped(m, Shifts(36, r.state + 1))
  {
    assert Shifts(36, r.state + 1) == Shifts(36, r.state) + if SendsM(r.state) then 1 else 0;
  }

  // The receiver's sample in a state takes it to what it holds in the next one.
  predicate Collects(p: Parameters, m: Bits, base: seq<seq<bool>>, state: nat)
  {
    Sample(Heard(p, m, base, state), Enabling(state), DataBit(p, m, state)) == Heard(p, m, base, state + 1)
  }

  // Collecting the next bit of a command.
  lemma CollectsBit(all: seq<bool>, k: nat, complete: seq<seq<bool>>)
    requires k < |all|
    ensures Sample(Receiver(all[..k], complete), true, all[k]) == Receiver(all[..k + 1], complete)
  {
    assert all[..k + 1] == all[..k] + [all[k]];
  }

  lemma LoadBit(second: bool, value: Bits, k: nat)
    requires k < 10
    ensures Load(second, value)[k] == if k == 0 then true else if k == 1 then second else Bit(value, k - 2)
  {
  }

  lemma CollectsDBit(p: Parameters, m: Bits, base: seq<seq<bool>>, k: nat)
    requires k < 10
    ensures Collects(p, m, base, 3 + 2 * k)
  {
    var state := 3 + 2 * k;
    assert (state - 2) / 2 == k && (state + 1 - 2) / 2 == k + 1;
    assert (state - 7) / 2 == k - 2;
    LoadBit(false, p.osc, k);
    CollectsBit(LoadD(p.osc), k, base + []);
  }

  lemma CollectsMBit(p: Parameters, m: Bits, base: seq<seq<bool>>, k: nat)
    requires k < 10
    ensures Collects(p, m, base, 33 + 2 * k)
  {
    var state := 33 + 2 * k;
    assert (state - 32) / 2 == k && (state + 1 - 32) / 2 == k + 1;
    assert (state - 37) / 2 == k - 2;
    LoadBit(true, m, k);
    CollectsBit(LoadM(m), k, base + [LoadD(p.osc)]);
  }

  // Between the commands nothing happens.
  lemma CollectsNothing(p: Parameters, m: Bits, base: seq<seq<bool>>, state: nat)
    requires state == 1 || 25 <= state < 32 || 55 <= state < 62 || 67 <= state < 254
    ensures Collects(p, m, base, state)
  {
  }

  lemma CompletesD(p: Parameters, m: Bits, base: seq<seq<bool>>)
    ensures Collects(p, m, base, 23)
  {
    var all := LoadD(p.osc);
    assert all[..10] == all;
    assert base + [] + [all] == base + [all];
  }

  lemma CompletesM(p: Parameters, m: Bits, base: seq<seq<bool>>)
    ensures Collects(p, m, base, 53)
  {
    var all := LoadM(m);
    assert Heard(p, m, base, 53) == Receiver(all[..10], base + [LoadD(p.osc)]);
    assert all[..10] == all;
    assert base + [LoadD(p.osc)] + [all] == base + [LoadD(p.osc), all];
  }

  lemma CollectsD(p: Parameters, m: Bits, base: seq<seq<bool>>, state: nat)
    requires 0 < state < 30 && state % 2 == 1
    ensures Collects(p, m, base, state)
  {
    if 3 <= state <= 21 {
      var k := (state - 3) / 2;
      assert state == 3 + 2 * k;
      CollectsDBit(p, m, base, k);
    } else if state == 23 {
      CompletesD(p, m, base);
    } else {
      CollectsNothing(p, m, base, state);
    }
  }

  lemma CollectsM(p: Parameters, m: Bits, base: seq<seq<bool>>, state: nat)
    requires 30 <= state < 60 && state % 2 == 1
    ensures Collects(p, m, base, state)
  {
    if 33 <= state <= 51 {
      var k := (state - 33) / 2;
      assert state == 33 + 2 * k;
      CollectsMBit(p, m, base, k);
    } else if state == 53 {
      CompletesM(p, m, base);
    } else {
      CollectsNothing(p, m, base, state);
    }
  }

  lemma CollectsGo(p: Parameters, m: Bits, base: seq<seq<bool>>, state: nat)
    requires 60 <= state < 254 && state % 2 == 1
    ensures Collects(p, m, base, state)
  {
    if state == 65 {
      assert base + [LoadD(p.osc), LoadM(m)] + [GO] == base + Programming(p, m);
    } else if state != 63 {
      CollectsNothing(p, m, base, state);
    }
  }

  lemma ReceiverNext(p: Parameters, m: Bits, base: seq<seq<bool>>, state: nat)
    requires 0 < state < 254
    ensures (if state % 2 == 0 then Heard(p, m, base, state)
             else Sample(Heard(p, m, base, state), Enabling(state), DataBit(p, m, state)))
            == Heard(p, m, base, state + 1)
  {
    if state % 2 == 1 {
      if state < 30 { CollectsD(p, m, base, state); }
      else if state < 60 { CollectsM(p, m, base, state); }
      else { CollectsGo(p, m, base, state); }
    }
  }

  lemma BusyNext(p: Parameters, r: Registers, i: Inputs, m: Bits)
    requires i.clkValid && Busy(p, r, m) && r.state < 254
    ensures Busy(p, Next(p, r, i), m) && Next(p, r, i).state == r.state + 1
  {
    OutputsNext(p, r, i, m);
    DvalNext(p, r, i);
    MvalNext(p, r, i, m);
    var n := Next(p, r, i);
    assert n.state == r.state + 1 && n.progclk == !r.progclk;
    assert n.progen == Enabling(n.state) && n.progdata == DataBit(p, m, n.state);
  }

  lemma RunningNext(p: Parameters, l: Line, i: Inputs, m: Bits, base: seq<seq<bool>>)
    requires Busy(p, l.regs, m) && l.rx == Heard(p, m, base, l.regs.state) && i.clkValid && l.regs.state < 254
    ensures var l' := NextLine(p, l, i);
            Busy(p, l'.regs, m) && l'.rx == Heard(p, m, base, l'.regs.state) && l'.accepted == l.accepted
  {
    BusyNext(p, l.regs, i, m);
    ReceiverNext(p, m, base, l.regs.state);
  }

  lemma InvRunning(p: Parameters, l: Line, i: Inputs)
    requires Inv(p, l) && i.clkValid && 0 < l.regs.state < 254
    ensures Inv(p, NextLine(p, l, i))
  {
    var m, before := l.accepted[|l.accepted| - 1], l.accepted[..|l.accepted| - 1];
    RunningNext(p, l, i, m, AllProgramming(p, before));
  }

  lemma LastNext(p: Parameters, l: Line, i: Inputs, m: Bits, base: seq<seq<bool>>)
    requires Busy(p, l.regs, m) && l.rx == Heard(p, m, base, 254) && i.clkValid && l.regs.state == 254
    ensures var l' := NextLine(p, l, i);
            l'.regs.state == 0 && !l'.regs.progen && !l'.regs.progdata &&
            l'.rx == Receiver([], base + Programming(p, m)) && l'.accepted == l.accepted
  {
    LastRegisters(p, l.regs, i, m);
    LastHeard(p, m, base);
  }

  lemma LastRegisters(p: Parameters, r: Registers, i: Inputs, m: Bits)
    requires Busy(p, r, m) && i.clkValid && r.state == 254
    ensures var n := Next(p, r, i);
            r.progclk && n.state == 0 && !n.progen && !n.progdata && !Accepts(p, r, i)
  {
  }

  lemma LastHeard(p: Parameters, m: Bits, base: seq<seq<bool>>)
    ensures Heard(p, m, base, 254) == Receiver([], base + Programming(p, m))
  {
  }

  lemma InvLast(p: Parameters, l: Line, i: Inputs)
    requires Inv(p, l) && i.clkValid && l.regs.state == 254
    ensures Inv(p, NextLine(p, l, i))
  {
    var m, before := l.accepted[|l.accepted| - 1], l.accepted[..|l.accepted| - 1];
    LastNext(p, l, i, m, AllProgramming(p, before));
  }

  lemma HeardNothing(p: Parameters, m: Bits, base: seq<seq<bool>>)
    ensures Heard(p, m, base, 1) == Receiver([], base)
  {
    assert base + [] == base;
  }

  lemma InvIdle(p: Parameters, l: Line, i: Inputs)
    requires Inv(p, l) && l.regs.state == 0
    ensures Inv(p, NextLine(p, l, i))
  {
    var l' := NextLine(p, l, i);
    assert l'.rx == l.rx;
    if Accepts(p, l.regs, i) {
      assert l'.accepted[..|l'.accepted| - 1] == l.accepted && l'.accepted[|l'.accepted| - 1] == i.speedIn;
      HeardNothing(p, i.speedIn, AllProgramming(p, l.accepted));
      assert Busy(p, l'.regs, i.speedIn);
    } else {
      assert l'.accepted == l.accepted && l'.regs.state == 0;
    }
  }

  // The state in which the receiver takes the last command as complete; then the controller only
  // waits.
  const LAST_SAMPLE := 65

  // clk_valid is held in every cycle in which a programming is being transmitted.
  predicate HeldWhenBusy(p: Parameters, ins: seq<Inputs>)
  {
    forall k :: 0 <= k < |ins| ==> ins[k].clkValid || !Transmits(Ran(p, InitialLine(p), ins[..k]).regs.state)
  }

  predicate Transmits(state: nat) { 0 < state < LAST_SAMPLE }

  // A drop of clk_valid leaves the receiver with all commands exactly when nothing is being
  // transmitted; later it just ends the waiting early.
  lemma DropHarmless(p: Parameters, l: Line, i: Inputs)
    requires Inv(p, l) && l.regs.state != 0 && !i.clkValid
    ensures Inv(p, NextLine(p, l, i)) <==> !Transmits(l.regs.state)
  {
    var m, before := l.accepted[|l.accepted| - 1], l.accepted[..|l.accepted| - 1];
    var base, l' := AllProgramming(p, before), NextLine(p, l, i);
    assert l'.accepted == l.accepted && l'.regs.state == 0 && !l'.regs.progen && !l'.regs.progdata;
    if Transmits(l.regs.state) {
      ProgrammingLength(p, l.accepted);
      ProgrammingLength(p, before);
      TooFewCommands(p, m, base, l.regs.state);
    } else if l.regs.state == LAST_SAMPLE {
      CollectsGo(p, m, base, l.regs.state);
      assert l'.rx == Receiver([], base + Programming(p, m));
    } else {
      assert l.rx == Receiver([], base + Programming(p, m)) && l'.rx == l.rx;
    }
  }

  lemma TooFewCommands(p: Parameters, m: Bits, base: seq<seq<bool>>, state: nat)
    requires Transmits(state)
    ensures |Heard(p, m, base, state).commands| < |base| + 3
    ensures |Sample(Heard(p, m, base, state), Enabling(state), DataBit(p, m, state)).commands| < |base| + 3
  {
  }

  lemma {:induction false} InvRan(p: Parameters, ins: seq<Inputs>)
    requires HeldWhenBusy(p, ins)
    ensures Inv(p, Ran(p, InitialLine(p), ins))
    decreases |ins|
  {
    if ins != [] {
      var front := ins[..|ins| - 1];
      forall k | 0 <= k < |front|
        ensures front[k].clkValid || !Transmits(Ran(p, InitialLine(p), front[..k]).regs.state)
      {
        assert front[..k] == ins[..k] && front[k] == ins[k];
      }
      InvRan(p, ins[..|ins| - 1]);
      var l, i := Ran(p, InitialLine(p), ins[..|ins| - 1]), ins[|ins| - 1];
      if l.regs.state == 0 { InvIdle(p, l, i); }
      else if !i.clkValid { DropHarmless(p, l, i); }
      else if l.regs.state < 254 { InvRunning(p, l, i); }
      else { InvLast(p, l, i); }
    }
  }

  // ---------- main results ----------

  // Whenever the controller is idle, the multiplier has received, for every accepted start in
  // order, exactly the commands load D with the oscillator frequency, load M with the accepted
  // speed, and go.
  lemma ReceivedPrograms(p: Parameters, ins: seq<Inputs>)
    requires HeldWhenBusy(p, ins)
    ensures var l := Ran(p, InitialLine(p), ins);
            l.regs.state == 0 ==> l.rx == Receiver([], AllProgramming(p, l.accepted))
  {
    InvRan(p, ins);
  }

  // The programming commands tell which speeds were accepted.
  lemma {:induction false} ProgrammingInjective(p: Parameters, a: seq<Bits>, b: seq<Bits>)
    requires AllProgramming(p, a) == AllProgramming(p, b)
    ensures a == b
    decreases |a| + |b|
  {
    ProgrammingLength(p, a);
    ProgrammingLength(p, b);
    if a != [] {
      var m, n := a[|a| - 1], b[|b| - 1];
      var x, y := AllProgramming(p, a[..|a| - 1]), AllProgramming(p, b[..|b| - 1]);
      var all := AllProgramming(p, a);
      assert all[..|all| - 3] == x && all[..|all| - 3] == y;
      assert all[|all| - 2] == LoadM(m) == LoadM(n);
      LoadInjective(m, n);
      ProgrammingInjective(p, a[..|a| - 1], b[..|b| - 1]);
      assert a == a[..|a| - 1] + [m] && b == b[..|b| - 1] + [n];
    }
  }

  lemma LoadInjective(a: Bits, b: Bits)
    requires LoadM(a) == LoadM(b)
    ensures a == b
  {
    forall i: nat | i < 8 ensures Bit(a, i) == Bit(b, i) {
      assert LoadM(a)[i + 2] == Bit(a, i) && LoadM(b)[i + 2] == Bit(b, i);
    }
    assert Bit(a, 0) == Bit(b, 0) && Bit(a, 1) == Bit(b, 1) && Bit(a, 2) == Bit(b, 2) && Bit(a, 3) == Bit(b, 3);
    assert Bit(a, 4) == Bit(b, 4) && Bit(a, 5) == Bit(b, 5) && Bit(a, 6) == Bit(b, 6) && Bit(a, 7) == Bit(b, 7);
  }

  lemma {:induction false} ProgrammingLength(p: Parameters, a: seq<Bits>)
    ensures |AllProgramming(p, a)| == 3 * |a|
    decreases |a|
  {
    if a != [] { ProgrammingLength(p, a[..|a| - 1]); }
  }

  // progen and progdata change only when progclk falls.
  lemma ChangesOnFallingClock(p: Parameters, ins: seq<Inputs>, i: Inputs)
    requires HeldWhenBusy(p, ins + [i])
    ensures var r := Ran(p, InitialLine(p), ins).regs;
            var r' := Next(p, r, i);
            r'.progen != r.progen || r'.progdata != r.progdata ==> r.progclk && !r'.progclk
  {
    var all := ins + [i];
    forall k | 0 <= k < |ins| ensures ins[k].clkValid || !Transmits(Ran(p, InitialLine(p), ins[..k]).regs.state) {
      assert all[k] == ins[k] && all[..k] == ins[..k];
    }
    assert all[|ins|] == i && all[..|ins|] == ins;
    InvRan(p, ins);
    var l := Ran(p, InitialLine(p), ins);
    if l.regs.state != 0 && !l.regs.progclk && i.clkValid {
      BusyChanges(p, l.regs, i, l.accepted[|l.accepted| - 1]);
    }
  }

  lemma BusyChanges(p: Parameters, r: Registers, i: Inputs, m: Bits)
    requires Busy(p, r, m) && i.clkValid && !r.progclk
    ensures Next(p, r, i).progen == r.progen && Next(p, r, i).progdata == r.progdata
  {
    OutputsNext(p, r, i, m);
  }

  // While busy, start and speed_in have no effect but the one-cycle memory of start.
  lemma BusyIgnoresStart(p: Parameters, r: Registers, i: Inputs, start: bool, speedIn: Bits)
    requires r.state != 0
    ensures Next(p, r, i.(start := start, speedIn := speedIn)) == Next(p, r, i).(startD1 := start)
  {
  }

  // ---------- starts ----------

  function One(bit: bool): nat { if bit then 1 else 0 }

  // The number on four wires, least significant first.
  function Nibble(a: bool, b: bool, c: bool, d: bool): nat { One(a) + 2 * One(b) + 4 * One(c) + 8 * One(d) }

  // The speeds the controller takes, in MHz.
  predicate SpeedAllowed(p: Parameters, b: Bits)
  {
    p.speedMin <= Nibble(b.b0, b.b1, b.b2, b.b3) + 16 * Nibble(b.b4, b.b5, b.b6, b.b7) <= p.speedLimit
  }

  lemma AllowedIsInRange(p: Parameters, b: Bits)
    ensures InRange(p, b) <==> SpeedAllowed(p, b)
  {
    var low, high := Halves(b);
    FourDigits(low, high);
    FourDigits(high, []);
  }

  lemma Halves(b: Bits) returns (low: seq<bool>, high: seq<bool>)
    ensures |low| == 4 && low[0] == b.b0 && low[1] == b.b1 && low[2] == b.b2 && low[3] == b.b3
    ensures |high| == 4 && high[0] == b.b4 && high[1] == b.b5 && high[2] == b.b6 && high[3] == b.b7
    ensures Number(b) == BinaryValue(low + high) && BinaryValue(high) == BinaryValue(high + [])
  {
    low, high := [b.b0, b.b1, b.b2, b.b3], [b.b4, b.b5, b.b6, b.b7];
    assert Sequence(b) == low + high && high == high + [];
  }

  lemma FourDigits(t: seq<bool>, s: seq<bool>)
    requires |t| == 4
    ensures BinaryValue(t + s) == Nibble(t[0], t[1], t[2], t[3]) + 16 * BinaryValue(s)
  {
    var s3 := [t[3]] + s;
    var s2 := [t[2]] + s3;
    var s1 := [t[1]] + s2;
    assert t + s == [t[0]] + s1;
    FirstDigit(t[3], s);
    FirstDigit(t[2], s3);
    FirstDigit(t[1], s2);
    FirstDigit(t[0], s1);
  }

  lemma FirstDigit(first: bool, s: seq<bool>)
    ensures BinaryValue([first] + s) == One(first) + 2 * BinaryValue(s)
  {
    assert ([first] + s)[1..] == s;
  }

  // progclk is half the clock, and the memory of start is one cycle old.
  lemma {:induction false} ClockAndMemory(p: Parameters, ins: seq<Inputs>)
    ensures var r := Ran(p, InitialLine(p), ins).regs;
            (r.progclk <==> |ins| % 2 == 1) && (r.startD1 <==> ins != [] && ins[|ins| - 1].start)
    decreases |ins|
  {
    if ins != [] { ClockAndMemory(p, ins[..|ins| - 1]); }
  }

  // A speed is accepted in a cycle exactly when the controller is idle and clocked, the cycle is
  // one before a fall of progclk, a start was given in it or in the one before, and the speed is
  // allowed.
  lemma AcceptedWhenAsked(p: Parameters, ins: seq<Inputs>, i: Inputs)
    ensures var l, l' := Ran(p, InitialLine(p), ins), Ran(p, InitialLine(p), ins + [i]);
            var asked := i.start || (ins != [] && ins[|ins| - 1].start);
            l'.accepted == if l.regs.state == 0 && i.clkValid && |ins| % 2 == 1 && asked && SpeedAllowed(p, i.speedIn)
                           then l.accepted + [i.speedIn] else l.accepted
  {
    assert (ins + [i])[..|ins|] == ins && (ins + [i])[|ins|] == i;
    ClockAndMemory(p, ins);
    AllowedIsInRange(p, i.speedIn);
  }

  // From an accepted start on, clocked all the time, the controller is busy for 254 cycles.
  lemma {:induction false} BusyLasts(p: Parameters, l: Line, ins: seq<Inputs>)
    requires l.regs.state == 1 && |ins| <= 254 && forall k :: 0 <= k < |ins| ==> ins[k].clkValid
    ensures Ran(p, l, ins).regs.state == if |ins| == 254 then 0 else 1 + |ins|
    decreases |ins|
  {
    if ins != [] { BusyLasts(p, l, ins[..|ins| - 1]); }
  }

  // The bits of what the multiplier has received when the controller is idle.
  lemma ReceivedBits(p: Parameters, ins: seq<Inputs>, k: nat)
    requires HeldWhenBusy(p, ins) && k < |Ran(p, InitialLine(p), ins).accepted|
    requires Ran(p, InitialLine(p), ins).regs.state == 0
    ensures var l := Ran(p, InitialLine(p), ins);
            var c, d, m := l.rx.commands, p.osc, l.accepted[k];
            && |c| == 3 * |l.accepted|
            && c[3 * k] == [true, false, d.b0, d.b1, d.b2, d.b3, d.b4, d.b5, d.b6, d.b7]
            && c[3 * k + 1] == [true, true, m.b0, m.b1, m.b2, m.b3, m.b4, m.b5, m.b6, m.b7]
            && c[3 * k + 2] == [false]
  {
    var accepted := Ran(p, InitialLine(p), ins).accepted;
    ReceivedPrograms(p, ins);
    ProgrammingAt(p, accepted, k);
    LoadBits(false, p.osc);
    LoadBits(true, accepted[k]);
  }

  lemma LoadBits(second: bool, v: Bits)
    ensures Load(second, v) == [true, second, v.b0, v.b1, v.b2, v.b3, v.b4, v.b5, v.b6, v.b7]
  {
  }

  lemma {:induction false} ProgrammingAt(p: Parameters, speeds: seq<Bits>, k: nat)
    requires k < |speeds|
    ensures |AllProgramming(p, speeds)| == 3 * |speeds|
    ensures AllProgramming(p, speeds)[3 * k] == LoadD(p.osc)
    ensures AllProgramming(p, speeds)[3 * k + 1] == LoadM(speeds[k])
    ensures AllProgramming(p, speeds)[3 * k + 2] == GO
    decreases |speeds|
  {
    ProgrammingLength(p, speeds);
    var front := speeds[..|speeds| - 1];
    ProgrammingLength(p, front);
    if k < |front| { ProgrammingAt(p, front, k); }
  }

  // A start pulse of one cycle in an idle controller is accepted in that cycle or the next one,
  // whatever the phase of progclk, if the speed is allowed and held, and only once; otherwise the
  // controller stays idle.
  lemma PulseAcceptedOnce(p: Parameters, r: Registers, i0: Inputs, i1: Inputs)
    requires r.state == 0 && !r.startD1 && i0.start && !i1.start && i0.clkValid && i1.clkValid
    requires i0.speedIn == i1.speedIn
    ensures SpeedAllowed(p, i0.speedIn) ==> (Accepts(p, r, i0) <==> !Accepts(p, Next(p, r, i0), i1))
    ensures !SpeedAllowed(p, i0.speedIn) ==> !Accepts(p, r, i0) && !Accepts(p, Next(p, r, i0), i1)
    ensures Next(p, Next(p, r, i0), i1).state != 0 <==> SpeedAllowed(p, i0.speedIn)
    ensures !Next(p, Next(p, r, i0), i1).startD1
  {
    AllowedIsInRange(p, i0.speedIn);
  }

  // ---------- the watchdog ----------

  // The registers after the first k cycles.
  function RegistersAfter(p: Parameters, ins: seq<Inputs>, k: nat): Registers
    requires k <= |ins|
  {
    Ran(p, InitialLine(p), ins[..k]).regs
  }

  lemma RegistersStep(p: Parameters, ins: seq<Inputs>, k: nat)
    requires k < |ins|
    ensures RegistersAfter(p, ins, k + 1) == Next(p, RegistersAfter(p, ins, k), ins[k])
  {
    assert ins[..k + 1][..k] == ins[..k] && ins[..k + 1][k] == ins[k];
  }

  // In cycle k the clock was locked or reset was given.
  predicate Restarts(p: Parameters, ins: seq<Inputs>, k: nat)
    requires k < |ins|
  {
    ins[k].locked || RegistersAfter(p, ins, k + 1).reset
  }

  lemma WatchdogStep(p: Parameters, ins: seq<Inputs>, n: nat)
    requires n < |ins| && RegistersAfter(p, ins, n).watchdog <= 0x80_0000
    ensures var w, r := RegistersAfter(p, ins, n).watchdog, RegistersAfter(p, ins, n + 1);
            && (r.reset <==> w == 0x80_0000)
            && r.watchdog == (if Restarts(p, ins, n) then 0 else w + 1)
            && r.watchdog <= 0x80_0000
  {
    RegistersStep(p, ins, n);
  }

  // The watchdog is the number of cycles since the last one with a lock or a reset, or since the
  // start, and reset is given exactly in a cycle that finds it at 2^23.
  lemma {:induction false} WatchdogCounts(p: Parameters, ins: seq<Inputs>, n: nat)
    requires n <= |ins|
    ensures var w := RegistersAfter(p, ins, n).watchdog;
            && w <= n && w <= 0x80_0000
            && (forall k :: n - w <= k < n ==> !Restarts(p, ins, k))
            && (w < n ==> Restarts(p, ins, n - w - 1))
    ensures n > 0 ==> (RegistersAfter(p, ins, n).reset <==> RegistersAfter(p, ins, n - 1).watchdog == 0x80_0000)
    decreases n
  {
    if n > 0 {
      WatchdogCounts(p, ins, n - 1);
      WatchdogStep(p, ins, n - 1);
    }
  }

  // A reset is given only after 2^23 cycles without lock.
  lemma ResetNeedsLostLock(p: Parameters, ins: seq<Inputs>, n: nat)
    requires 0 < n <= |ins| && RegistersAfter(p, ins, n).reset
    ensures n > 0x80_0000
    ensures forall k :: n - 1 - 0x80_0000 <= k < n - 1 ==> !ins[k].locked
  {
    WatchdogCounts(p, ins, n);
    WatchdogCounts(p, ins, n - 1);
    forall k | n - 1 - 0x80_0000 <= k < n - 1 ensures !ins[k].locked {
      assert !Restarts(p, ins, k);
    }
  }

  predicate LockedWithin(ins: seq<Inputs>, from: nat, to: nat)
    requires to <= |ins|
  {
    exists k :: from <= k < to && ins[k].locked
  }

  // A clock that is locked in some cycle of every 2^23 is never reset.
  lemma LockedNeverReset(p: Parameters, ins: seq<Inputs>, n: nat)
    requires n <= |ins|
    requires forall k, m :: 0 <= k && m == k + 0x80_0000 <= |ins| ==> LockedWithin(ins, k, m)
    ensures !RegistersAfter(p, ins, n).reset
  {
    if n == 0 {
      assert ins[..0] == [];
    } else if RegistersAfter(p, ins, n).reset {
      ResetNeedsWindow(p, ins, n);
    }
  }

  lemma ResetNeedsWindow(p: Parameters, ins: seq<Inputs>, n: nat)
    requires 0 < n <= |ins| && RegistersAfter(p, ins, n).reset
    ensures n > 0x80_0000 && !LockedWithin(ins, n - 1 - 0x80_0000, n - 1)
  {
    ResetNeedsLostLock(p, ins, n);
  }

  // A clock without lock for 2^23 + 1 cycles is reset in one of them.
  lemma LostLockIsReset(p: Parameters, ins: seq<Inputs>, n: nat) returns (k: nat)
    requires n + 0x80_0001 <= |ins|
    requires forall j :: n <= j < n + 0x80_0001 ==> !ins[j].locked
    ensures n <= k < n + 0x80_0001 && RegistersAfter(p, ins, k + 1).reset
  {
    var m := n + 0x80_0001;
    WatchdogCounts(p, ins, m);
    var w := RegistersAfter(p, ins, m).watchdog;
    k := m - w - 1;
    assert Restarts(p, ins, k);
  }

  // With the lock lost for n cycles since the watchdog was clear, the watchdog counts modulo
  // 2^23 + 1 and reset is given exactly in every cycle that completes a period.
  lemma {:induction false} WatchdogPeriod(p: Parameters, l: Line, ins: seq<Inputs>)
    requires l.regs.watchdog == 0 && forall k :: 0 <= k < |ins| ==> !ins[k].locked
    ensures var r := Ran(p, l, ins).regs;
            r.watchdog == |ins| % 0x80_0001 &&
            (|ins| > 0 ==> (r.reset <==> |ins| % 0x80_0001 == 0))
    decreases |ins|
  {
    if ins != [] {
      var front := ins[..|ins| - 1];
      WatchdogPeriod(p, l, front);
      var w := Ran(p, l, front).regs.watchdog;
      if w == WATCHDOG_BIT {
        assert |ins| % 0x80_0001 == 0;
      } else {
        assert |ins| % 0x80_0001 == w + 1;
      }
    }
  }
}
