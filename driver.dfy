/** The AVR side of the MCP2515 driver: the host's port, direction and SPI
    registers, the SPI command transactions built on a one-byte exchange, the
    interrupt-line poll and the start-up sequence.

    The hardware is modelled as an object. Its register fields are the AVR's
    PORTB, DDRB, PORTD, DDRD, PIND, SPCR, SPSR and SPDR. `trace` records the
    firmware's chip-select writes, exchanges and delays. `script` is the
    peripheral's list of bytes to shift back, one per exchange; `consumed`
    counts those already shifted back, so the ones still pending are
    `script[consumed..]`. */
module Driver {

  import opened Wrappers
  import opened Bits
  import opened Bus
  import opened Opcodes

  // Pin numbers on the AVR ports, as the driver defines them.
  const CHIP_SELECT: nat := 2     // PORTB
  const INTERRUPT_LOW: nat := 2   // PORTD / PIND
  const SERIAL_CLK: nat := 5      // PORTB
  const MOSI: nat := 4            // PORTB
  const MISO: nat := 3            // PORTB

  /** Byte shifted out when only the byte shifted back matters. */
  const FILLER: bv8 := 0xFF

  /** Settle time after a reset, in microseconds. */
  const RESET_SETTLE_US: nat := 10

  /** Constants the driver takes from the AVR and MCP2515 register headers,
      which are not part of this model: the SPCR bit positions, the address of
      the CNF3 configuration register and the bit position PHSEG21 in it. */
  datatype Platform = Platform(spe: nat, dord: nat, mstr: nat, spr1: nat, spr0: nat,
                               cnf3: bv8, phseg21: nat)
  {
    predicate Valid()
    {
      spe < 8 && dord < 8 && mstr < 8 && spr1 < 8 && spr0 < 8 && phseg21 < 8
    }
  }

  /** A snapshot of the eight host registers. */
  datatype RegisterFile = RegisterFile(portB: bv8, ddrB: bv8, portD: bv8, ddrD: bv8,
                                       pinD: bv8, spcr: bv8, spsr: bv8, spdr: bv8)

  class Mcp2515 {
    var portB: bv8
    var ddrB: bv8
    var portD: bv8
    var ddrD: bv8
    var pinD: bv8
    var spcr: bv8
    var spsr: bv8
    var spdr: bv8

    /** Everything the MCP2515 has seen on its pins, oldest first. */
    var trace: seq<Event>
    /** Every byte the peripheral shifts back, in order. */
    const script: seq<bv8>
    /** How many bytes of the script have been shifted back so far. */
    var consumed: nat

    /** One scripted response is consumed by each exchange and by nothing
        else: the bytes received so far are exactly the consumed part of the
        script. */
    ghost predicate Valid()
      reads this
    {
      consumed <= |script| && Received(trace) == script[..consumed]
    }

    ghost function Registers(): RegisterFile
      reads this
    {
      RegisterFile(portB, ddrB, portD, ddrD, pinD, spcr, spsr, spdr)
    }

    /** Where the chip-select framing of the trace stands (None once broken). */
    ghost function BusPhase(): Option<Phase>
      reads this
    {
      Run(Deselected, trace)
    }

    constructor (regs: RegisterFile, script: seq<bv8>)
      ensures Valid()
      ensures Registers() == regs && trace == [] && consumed == 0
      ensures this.script == script
    {
      portB, ddrB, portD, ddrD := regs.portB, regs.ddrB, regs.portD, regs.ddrD;
      pinD, spcr, spsr, spdr := regs.pinD, regs.spcr, regs.spsr, regs.spdr;
      trace := [];
      this.script := script;
      consumed := 0;
    }

    /** `messageReceived`: the MCP2515's INT output is active low on D2, so a
        pending message reads as bit 2 of PIND being 0. The answer is 1 or 0,
        and reading it changes no register. */
    function MessageReceived(): (r: bv8)
      reads this
      ensures r == 0 || r == 1
      ensures r == 1 <==> !IsSet(pinD, INTERRUPT_LOW)
    {
      if pinD & Mask(INTERRUPT_LOW) == 0 then 1 else 0
    }

    /** `PORTB &= ~(1<<CHIP_SELECT)`: the slave is enabled. */
    method SelectChip()
      requires Valid()
      modifies this
      ensures Valid()
      ensures portB == ClearBits(old(portB), Mask(CHIP_SELECT))
      ensures unchanged(this`ddrB, this`portD, this`ddrD, this`pinD, this`spcr, this`spsr, this`spdr)
      ensures trace == old(trace) + [CsLow] && consumed == old(consumed)
    {
      ProjectionsSnoc(trace, CsLow);
      portB := ClearBits(portB, Mask(CHIP_SELECT));
      trace := trace + [CsLow];
    }

    /** `PORTB |= (1<<CHIP_SELECT)`: the slave is disabled. */
    method DeselectChip()
      requires Valid()
      modifies this
      ensures Valid()
      ensures portB == SetBits(old(portB), Mask(CHIP_SELECT))
      ensures unchanged(this`ddrB, this`portD, this`ddrD, this`pinD, this`spcr, this`spsr, this`spdr)
      ensures trace == old(trace) + [CsHigh] && consumed == old(consumed)
    {
      ProjectionsSnoc(trace, CsHigh);
      portB := SetBits(portB, Mask(CHIP_SELECT));
      trace := trace + [CsHigh];
    }

    /** `sendData`: writes the byte to SPDR, which clocks it out while the
        peripheral's next byte is clocked in; the received byte is then read
        back from SPDR. Exactly one byte is sent and exactly one response is
        consumed. The wait for SPIF is not modelled: the exchange completes
        as soon as a scripted response is available. */
    method SendData(data: bv8) returns (received: bv8)
      requires Valid() && consumed < |script|
      modifies this
      ensures Valid()
      ensures consumed == old(consumed) + 1 && received == script[old(consumed)]
      ensures trace == old(trace) + [Exchange(data, received)]
      ensures spdr == received
      ensures unchanged(this`portB, this`ddrB, this`portD, this`ddrD, this`pinD, this`spcr, this`spsr)
    {
      ProjectionsSnoc(trace, Exchange(data, script[consumed]));
      assert script[..consumed + 1] == script[..consumed] + [script[consumed]];
      spdr := data;
      spdr := script[consumed];
      consumed := consumed + 1;
      trace := trace + [Exchange(data, spdr)];
      received := spdr;
    }

    /** `writeToRegister`: one transaction sending WRITE (0x02), the address
        and the data. Only the chip-select bit of PORTB changes, and it ends
        high. */
    method WriteToRegister(address: bv8, data: bv8)
      requires Valid() && consumed + 3 <= |script|
      modifies this
      ensures Valid()
      ensures consumed == old(consumed) + 3
      ensures trace == old(trace) + Transaction([0x02, address, data], script[old(consumed)..consumed])
      ensures portB == SetBits(old(portB), Mask(CHIP_SELECT)) && spdr == script[consumed - 1]
      ensures unchanged(this`ddrB, this`portD, this`ddrD, this`pinD, this`spcr, this`spsr)
      ensures old(BusPhase()) == Some(Deselected) ==> BusPhase() == Some(Deselected)
    {
      ghost var t0, c0 := trace, consumed;
      SelectChip();
      ghost var t1 := trace;
      var _ := SendData(Encode(Write));
      var _ := SendData(address);
      var _ := SendData(data);
      ThreeExchanges(t1, [0x02, address, data], script[c0..c0 + 3], trace);
      DeselectChip();
      Bracket(t0, [0x02, address, data], script[c0..c0 + 3], trace);
      ClearThenSet(old(portB), CHIP_SELECT);
      TransactionFraming(t0, [0x02, address, data], script[c0..c0 + 3], trace);
    }

    /** `readRegister`: one transaction sending READ (0x03), the address and
        a filler byte; the answer is the byte shifted back on the third
        exchange, the first two responses being discarded. */
    method ReadRegister(address: bv8) returns (value: bv8)
      requires Valid() && consumed + 3 <= |script|
      modifies this
      ensures Valid()
      ensures consumed == old(consumed) + 3 && value == script[old(consumed) + 2]
      ensures trace == old(trace) + Transaction([0x03, address, FILLER], script[old(consumed)..consumed])
      ensures portB == SetBits(old(portB), Mask(CHIP_SELECT)) && spdr == value
      ensures unchanged(this`ddrB, this`portD, this`ddrD, this`pinD, this`spcr, this`spsr)
      ensures old(BusPhase()) == Some(Deselected) ==> BusPhase() == Some(Deselected)
    {
      ghost var t0, c0 := trace, consumed;
      SelectChip();
      ghost var t1 := trace;
      var _ := SendData(Encode(Read));
      var _ := SendData(address);
      value := SendData(FILLER);
      ThreeExchanges(t1, [0x03, address, FILLER], script[c0..c0 + 3], trace);
      DeselectChip();
      Bracket(t0, [0x03, address, FILLER], script[c0..c0 + 3], trace);
      ClearThenSet(old(portB), CHIP_SELECT);
      TransactionFraming(t0, [0x03, address, FILLER], script[c0..c0 + 3], trace);
    }

    /** `bitModify`: one transaction sending BIT MODIFY (0x05), the address,
        the mask and then the data. Which bits the chip changes is its own
        business; the driver only transmits the four bytes. */
    method BitModify(address: bv8, mask: bv8, data: bv8)
      requires Valid() && consumed + 4 <= |script|
      modifies this
      ensures Valid()
      ensures consumed == old(consumed) + 4
      ensures trace == old(trace) + Transaction([0x05, address, mask, data], script[old(consumed)..consumed])
      ensures portB == SetBits(old(portB), Mask(CHIP_SELECT)) && spdr == script[consumed - 1]
      ensures unchanged(this`ddrB, this`portD, this`ddrD, this`pinD, this`spcr, this`spsr)
      ensures old(BusPhase()) == Some(Deselected) ==> BusPhase() == Some(Deselected)
    {
      ghost var t0, c0 := trace, consumed;
      SelectChip();
      ghost var t1 := trace;
      var _ := SendData(Encode(Opcode.BitModify));
      var _ := SendData(address);
      var _ := SendData(mask);
      var _ := SendData(data);
      FourExchanges(t1, [0x05, address, mask, data], script[c0..c0 + 4], trace);
      DeselectChip();
      Bracket(t0, [0x05, address, mask, data], script[c0..c0 + 4], trace);
      ClearThenSet(old(portB), CHIP_SELECT);
      TransactionFraming(t0, [0x05, address, mask, data], script[c0..c0 + 4], trace);
    }

    /** `readStatus`: one transaction sending the given instruction byte and
        a filler byte; the answer is the byte shifted back on the second
        exchange. The instruction byte is not checked: READ STATUS (0xA0) and
        RX STATUS (0xB0) are the intended ones. */
    method ReadStatus(readType: bv8) returns (status: bv8)
      requires Valid() && consumed + 2 <= |script|
      modifies this
      ensures Valid()
      ensures consumed == old(consumed) + 2 && status == script[old(consumed) + 1]
      ensures trace == old(trace) + Transaction([readType, FILLER], script[old(consumed)..consumed])
      ensures portB == SetBits(old(portB), Mask(CHIP_SELECT)) && spdr == status
      ensures unchanged(this`ddrB, this`portD, this`ddrD, this`pinD, this`spcr, this`spsr)
      ensures old(BusPhase()) == Some(Deselected) ==> BusPhase() == Some(Deselected)
    {
      ghost var t0, c0 := trace, consumed;
      SelectChip();
      ghost var t1 := trace;
      var _ := SendData(readType);
      status := SendData(FILLER);
      TwoExchanges(t1, [readType, FILLER], script[c0..c0 + 2], trace);
      DeselectChip();
      Bracket(t0, [readType, FILLER], script[c0..c0 + 2], trace);
      ClearThenSet(old(portB), CHIP_SELECT);
      TransactionFraming(t0, [readType, FILLER], script[c0..c0 + 2], trace);
    }

    /** `resetController`: one transaction sending RESET (0xC0) and nothing else. */
    method ResetController()
      requires Valid() && consumed + 1 <= |script|
      modifies this
      ensures Valid()
      ensures consumed == old(consumed) + 1
      ensures trace == old(trace) + Transaction([0xC0], script[old(consumed)..consumed])
      ensures portB == SetBits(old(portB), Mask(CHIP_SELECT)) && spdr == script[old(consumed)]
      ensures unchanged(this`ddrB, this`portD, this`ddrD, this`pinD, this`spcr, this`spsr)
      ensures old(BusPhase()) == Some(Deselected) ==> BusPhase() == Some(Deselected)
    {
      ghost var t0, c0 := trace, consumed;
      SelectChip();
      var _ := SendData(Encode(Reset));
      assert Exchanges([0xC0], script[c0..c0 + 1]) == [Exchange(0xC0, script[c0])];
      DeselectChip();
      Bracket(t0, [0xC0], script[c0..c0 + 1], trace);
      ClearThenSet(old(portB), CHIP_SELECT);
      TransactionFraming(t0, [0xC0], script[c0..c0 + 1], trace);
    }

    /** `DDRB |= (1<<CHIP_SELECT)`: the chip-select pin becomes an output.
        The driver does this only once PORTB bit 2 is 1, so that the pin
        starts out driving the deselected level; the precondition makes that
        order a proof obligation of every caller. */
    method MakeChipSelectOutput()
      requires Valid() && IsSet(portB, CHIP_SELECT)
      modifies this
      ensures Valid()
      ensures ddrB == SetBits(old(ddrB), Mask(CHIP_SELECT))
      ensures unchanged(this`portB, this`portD, this`ddrD, this`pinD, this`spcr, this`spsr, this`spdr)
      ensures trace == old(trace) && consumed == old(consumed)
    {
      ddrB := SetBits(ddrB, Mask(CHIP_SELECT));
    }

    /** The pin set-up at the start of `initController`: chip select is
        driven high and only then made an output (MakeChipSelectOutput
        demands it); SCK, MOSI and MISO are driven low; SCK and MOSI become
        outputs and MISO an input; INT becomes an input with its pull-up on. */
    method ConfigurePins()
      requires Valid()
      modifies this
      ensures Valid()
      ensures portB == ClearBits(SetBits(old(portB), Mask(CHIP_SELECT)), Mask(SERIAL_CLK) | Mask(MOSI) | Mask(MISO))
      ensures ddrB == ClearBits(SetBits(old(ddrB), Mask(CHIP_SELECT) | Mask(SERIAL_CLK) | Mask(MOSI)), Mask(MISO))
      ensures portD == SetBits(old(portD), Mask(INTERRUPT_LOW))
      ensures ddrD == ClearBits(old(ddrD), Mask(INTERRUPT_LOW))
      ensures unchanged(this`pinD, this`spcr, this`spsr, this`spdr)
      ensures trace == old(trace) + [CsHigh] && consumed == old(consumed)
    {
      DeselectChip();
      ClearThenSet(old(portB), CHIP_SELECT);
      MakeChipSelectOutput();

      portB := ClearBits(portB, Mask(SERIAL_CLK) | Mask(MOSI) | Mask(MISO));
      ddrB := SetBits(ddrB, Mask(SERIAL_CLK) | Mask(MOSI));
      ddrB := ClearBits(ddrB, Mask(MISO));

      ddrD := ClearBits(ddrD, Mask(INTERRUPT_LOW));
      portD := SetBits(portD, Mask(INTERRUPT_LOW));
    }

    /** The SPI set-up in `initController`: SPCR gets SPE, MSTR and SPR0 set
        (enabled, master, clock divider) with DORD and SPR1 as 0 (MSB first);
        SPSR is cleared. */
    method ConfigureSpi(p: Platform)
      requires Valid() && p.Valid()
      modifies this
      ensures Valid()
      ensures spcr == Mask(p.spe) | Mask(p.mstr) | Mask(p.spr0) && spsr == 0
      ensures unchanged(this`portB, this`ddrB, this`portD, this`ddrD, this`pinD, this`spdr)
      ensures trace == old(trace) && consumed == old(consumed)
    {
      spcr := Mask(p.spe) | (0 << p.dord) | Mask(p.mstr) | (0 << p.spr1) | Mask(p.spr0);
      SpcrValue(p);
      spsr := 0;
    }

    /** `_delay_us`: only the pause is recorded; no register changes. */
    method DelayMicroseconds(us: nat)
      requires Valid()
      modifies this
      ensures Valid()
      ensures Registers() == old(Registers())
      ensures trace == old(trace) + [Delay(us)] && consumed == old(consumed)
    {
      ProjectionsSnoc(trace, Delay(us));
      trace := trace + [Delay(us)];
    }

    /** The configuration write that ends `initController`: chip select is
        dropped and WRITE, the CNF3 address and `1<<PHSEG21` are sent; chip
        select is not raised again. The answer is SPDR afterwards. */
    method BeginCnf3Write(p: Platform) returns (last: bv8)
      requires Valid() && p.Valid() && consumed + 3 <= |script|
      modifies this
      ensures Valid()
      ensures consumed == old(consumed) + 3 && last == script[old(consumed) + 2]
      ensures trace == old(trace) + [CsLow] + Exchanges([0x02, p.cnf3, Mask(p.phseg21)],
                                                        script[old(consumed)..consumed])
      ensures portB == ClearBits(old(portB), Mask(CHIP_SELECT)) && spdr == last
      ensures unchanged(this`ddrB, this`portD, this`ddrD, this`pinD, this`spcr, this`spsr)
    {
      ghost var c0 := consumed;
      SelectChip();
      ghost var t1 := trace;
      var _ := SendData(Encode(Write));
      var _ := SendData(p.cnf3);
      var _ := SendData(Mask(p.phseg21));
      last := spdr;
      ThreeExchanges(t1, [0x02, p.cnf3, Mask(p.phseg21)], script[c0..c0 + 3], trace);
    }

    /** `initController`: sets up the pins (ConfigurePins) and the SPI
        peripheral (ConfigureSpi); resets the MCP2515 and waits 10 us for it
        to settle; then opens a WRITE to CNF3 (BeginCnf3Write). Chip select
        is left low: the write transaction is never closed. The answer is
        SPDR, the byte shifted back on the last exchange. */
    method InitController(p: Platform) returns (last: bv8)
      requires Valid() && p.Valid() && consumed + 4 <= |script|
      modifies this
      ensures Valid()
      ensures portB == ClearBits(old(portB), Mask(CHIP_SELECT) | Mask(SERIAL_CLK) | Mask(MOSI) | Mask(MISO))
      ensures ddrB == ClearBits(SetBits(old(ddrB), Mask(CHIP_SELECT) | Mask(SERIAL_CLK) | Mask(MOSI)), Mask(MISO))
      ensures portD == SetBits(old(portD), Mask(INTERRUPT_LOW))
      ensures ddrD == ClearBits(old(ddrD), Mask(INTERRUPT_LOW))
      ensures pinD == old(pinD)
      ensures spcr == Mask(p.spe) | Mask(p.mstr) | Mask(p.spr0) && spsr == 0
      ensures consumed == old(consumed) + 4 && last == script[old(consumed) + 3] && spdr == last
      ensures trace == old(trace) + [CsHigh] + Transaction([0xC0], script[old(consumed)..old(consumed) + 1])
                       + [Delay(RESET_SETTLE_US), CsLow]
                       + Exchanges([0x02, p.cnf3, Mask(p.phseg21)], script[old(consumed) + 1..consumed])
      ensures old(BusPhase()) == Some(Deselected) ==> BusPhase() == Some(Selected)
    {
      ghost var t0, c0 := trace, consumed;
      ConfigurePins();
      ghost var b1 := portB;
      ConfigureSpi(p);
      ghost var t1 := trace;
      ResetController();
      ghost var t2 := trace;
      DelayMicroseconds(RESET_SETTLE_US);
      ghost var t3 := trace;
      last := BeginCnf3Write(p);

      PortBAfterInit(old(portB), b1);
      InitTrace(t0, t1, t2, t3, trace, script[c0..c0 + 1], [0x02, p.cnf3, Mask(p.phseg21)], script[c0 + 1..c0 + 4]);
      InitFraming(t0, t1, t2, t3, trace, script[c0..c0 + 1], [0x02, p.cnf3, Mask(p.phseg21)], script[c0 + 1..c0 + 4]);
    }
  }

  /** Helper: the PORTB value `initController` ends with. */
  lemma PortBAfterInit(b0: bv8, b1: bv8)
    requires b1 == ClearBits(SetBits(b0, Mask(CHIP_SELECT)), Mask(SERIAL_CLK) | Mask(MOSI) | Mask(MISO))
    ensures ClearBits(SetBits(ClearBits(b1, Mask(CHIP_SELECT)), Mask(CHIP_SELECT)), Mask(CHIP_SELECT))
            == ClearBits(b0, Mask(CHIP_SELECT) | Mask(SERIAL_CLK) | Mask(MOSI) | Mask(MISO))
  {
  }

  /** Helper: the SPCR value `initController` writes; the bits shifted in as 0
      (DORD: MSB first, SPR1) contribute nothing. */
  lemma SpcrValue(p: Platform)
    requires p.Valid()
    ensures Mask(p.spe) | (0 << p.dord) | Mask(p.mstr) | (0 << p.spr1) | Mask(p.spr0)
            == Mask(p.spe) | Mask(p.mstr) | Mask(p.spr0)
  {
    var z: bv8 := 0;
    assert z << p.dord == 0 && z << p.spr1 == 0;
  }

  /** Helper: `initController`'s trace assembled from its four pieces. */
  lemma InitTrace(t0: seq<Event>, t1: seq<Event>, t2: seq<Event>, t3: seq<Event>, t4: seq<Event>,
                  reset: seq<bv8>, out: seq<bv8>, inb: seq<bv8>)
    requires |reset| == 1 && |out| == |inb|
    requires t1 == t0 + [CsHigh]
    requires t2 == t1 + Transaction([0xC0], reset)
    requires t3 == t2 + [Delay(RESET_SETTLE_US)]
    requires t4 == t3 + [CsLow] + Exchanges(out, inb)
    ensures t4 == t0 + [CsHigh] + Transaction([0xC0], reset) + [Delay(RESET_SETTLE_US), CsLow]
                  + Exchanges(out, inb)
  {
  }

  /** Helper: the framing of `initController`'s trace, from a deselected start
      to a selected end. */
  lemma InitFraming(t0: seq<Event>, t1: seq<Event>, t2: seq<Event>, t3: seq<Event>, t4: seq<Event>,
                    reset: seq<bv8>, out: seq<bv8>, inb: seq<bv8>)
    requires |reset| == 1 && |out| == |inb|
    requires t1 == t0 + [CsHigh]
    requires t2 == t1 + Transaction([0xC0], reset)
    requires t3 == t2 + [Delay(RESET_SETTLE_US)]
    requires t4 == t3 + [CsLow] + Exchanges(out, inb)
    ensures Run(Deselected, t0) == Some(Deselected) ==> Run(Deselected, t4) == Some(Selected)
  {
    if Run(Deselected, t0) == Some(Deselected) {
      RunAppend(Deselected, t0, [CsHigh]);
      assert [CsHigh][1..] == [];
      RunTransaction(Deselected, [0xC0], reset);
      RunAppend(Deselected, t1, Transaction([0xC0], reset));
      RunAppend(Deselected, t2, [Delay(RESET_SETTLE_US)]);
      assert [Delay(RESET_SETTLE_US)][1..] == [];
      RunAppend(Deselected, t3, [CsLow]);
      assert [CsLow][1..] == [];
      RunExchanges(out, inb);
      RunAppend(Deselected, t3 + [CsLow], Exchanges(out, inb));
    }
  }

  /** A transaction appended to a trace that ends deselected leaves it deselected. */
  lemma TransactionFraming(t: seq<Event>, out: seq<bv8>, inb: seq<bv8>, u: seq<Event>)
    requires |out| == |inb| && u == t + Transaction(out, inb)
    ensures Run(Deselected, t) == Some(Deselected) ==> Run(Deselected, u) == Some(Deselected)
  {
    RunAppend(Deselected, t, Transaction(out, inb));
    RunTransaction(Deselected, out, inb);
  }

  /** Helper: a select, a run of exchanges and a deselect appended in turn
      form one transaction. */
  lemma Bracket(t: seq<Event>, out: seq<bv8>, inb: seq<bv8>, u: seq<Event>)
    requires |out| == |inb|
    requires u == t + [CsLow] + Exchanges(out, inb) + [CsHigh]
    ensures u == t + Transaction(out, inb)
  {
  }

  /** Helper: four exchanges appended one at a time are the run of exchanges. */
  lemma FourExchanges(t: seq<Event>, out: seq<bv8>, inb: seq<bv8>, u: seq<Event>)
    requires |out| == |inb| == 4
    requires u == t + [Exchange(out[0], inb[0])] + [Exchange(out[1], inb[1])]
                    + [Exchange(out[2], inb[2])] + [Exchange(out[3], inb[3])]
    ensures u == t + Exchanges(out, inb)
  {
  }

  /** Helper: two exchanges appended one at a time are the run of exchanges. */
  lemma TwoExchanges(t: seq<Event>, out: seq<bv8>, inb: seq<bv8>, u: seq<Event>)
    requires |out| == |inb| == 2
    requires u == t + [Exchange(out[0], inb[0])] + [Exchange(out[1], inb[1])]
    ensures u == t + Exchanges(out, inb)
  {
  }

  /** Helper: three exchanges appended one at a time are the run of exchanges. */
  lemma ThreeExchanges(t: seq<Event>, out: seq<bv8>, inb: seq<bv8>, u: seq<Event>)
    requires |out| == |inb| == 3
    requires u == t + [Exchange(out[0], inb[0])] + [Exchange(out[1], inb[1])] + [Exchange(out[2], inb[2])]
    ensures u == t + Exchanges(out, inb)
  {
  }
}
