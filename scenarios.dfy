/** Client scenarios: what a caller can conclude from the driver's contracts
    alone, with the peripheral played by a scripted response queue. */
module Scenarios {

  import opened Wrappers
  import opened Bits
  import opened Bus
  import opened Driver

  /** Reset, then read a register: the read hands back, unmodified, the byte
      the peripheral shifted back on the read's third exchange, and both
      transactions are well framed. */
  method ResetThenRead(regs: RegisterFile, script: seq<bv8>, address: bv8)
    returns (value: bv8, ghost framing: Option<Phase>)
    requires |script| >= 4
    ensures value == script[3]
    ensures framing == Some(Deselected)
  {
    var m := new Mcp2515(regs, script);
    m.ResetController();
    value := m.ReadRegister(address);
    framing := m.BusPhase();
  }

  /** Initialise, then read a register: the read still returns the byte
      shifted back on its third exchange, but because `initController` leaves
      its WRITE open, the read's chip-select drop happens while the chip is
      already selected, so the trace is no longer well framed. */
  method InitThenRead(regs: RegisterFile, script: seq<bv8>, p: Platform, address: bv8)
    returns (value: bv8, ghost framing: Option<Phase>)
    requires |script| >= 7 && p.Valid()
    ensures value == script[6]
    ensures framing == None
  {
    var m := new Mcp2515(regs, script);
    var _ := m.InitController(p);
    ghost var t1 := m.trace;
    value := m.ReadRegister(address);
    RunAppend(Deselected, t1, Transaction([0x03, address, Driver.FILLER], script[4..7]));
    RunTransaction(Selected, [0x03, address, Driver.FILLER], script[4..7]);
    framing := m.BusPhase();
  }

  /** The two status reads: with the same peripheral script, READ STATUS and
      RX STATUS return the same second response, and their traces differ in
      the first byte sent and nowhere else. */
  method StatusVariants(regs: RegisterFile, script: seq<bv8>)
    returns (readStatus: bv8, rxStatus: bv8, ghost t1: seq<Event>, ghost t2: seq<Event>)
    requires |script| >= 2
    ensures readStatus == rxStatus == script[1]
    ensures |t1| == |t2| == 4
    ensures t1[1] == Exchange(0xA0, script[0]) && t2[1] == Exchange(0xB0, script[0])
    ensures forall i :: 0 <= i < 4 && i != 1 ==> t1[i] == t2[i]
  {
    var m1 := new Mcp2515(regs, script);
    readStatus := m1.ReadStatus(0xA0);
    var m2 := new Mcp2515(regs, script);
    rxStatus := m2.ReadStatus(0xB0);
    t1, t2 := m1.trace, m2.trace;
  }

  /** The worked bit-modify example: mask 0b00110101 and data 0b00100001
      go out as [0x05, address, 0x35, 0x21], mask before data. */
  method BitModifyExample(regs: RegisterFile, script: seq<bv8>, address: bv8)
    returns (ghost sent: seq<bv8>)
    requires |script| >= 4
    ensures sent == [0x05, address, 0x35, 0x21]
  {
    var m := new Mcp2515(regs, script);
    m.BitModify(address, 0x35, 0x21);
    TransactionProjects([0x05, address, 0x35, 0x21], script[..4]);
    assert m.trace == Transaction([0x05, address, 0x35, 0x21], script[..4]);
    sent := Sent(m.trace);
  }

  /** The interrupt poll on both line levels: 1 when INT (PIND bit 2) is low,
      0 when it is high, whatever the other PIND bits are. */
  method PollBothLevels(regs: RegisterFile) returns (low: bv8, high: bv8)
    ensures low == 1 && high == 0
  {
    var m := new Mcp2515(regs, []);
    m.pinD := ClearBits(regs.pinD, Mask(Driver.INTERRUPT_LOW));
    low := m.MessageReceived();
    m.pinD := SetBits(regs.pinD, Mask(Driver.INTERRUPT_LOW));
    high := m.MessageReceived();
  }
}
