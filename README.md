# MCP2515 SPI driver for AVR — a Dafny model

This project models the SPI command layer of a small AVR driver for the
Microchip MCP2515 CAN controller. The model covers:

- the nine SPI instruction opcodes of `mcp2515.h`, as a closed datatype with
  an encoding to bytes that decodes back (`Opcodes`);
- the host's eight-bit registers and the bit operations the driver performs
  on them, `|=` and `&= ~` (`Bits`);
- the firmware's traffic towards the MCP2515 (`Bus`): its writes of the
  chip-select bit (drop and raise),
  one-byte exchanges (the byte shifted out and the byte shifted back),
  delays, the shape of one transaction, and the framing rules. The rules
  allow no exchange while deselected and no select while already selected;
- the driver itself (`Driver`). Class `Mcp2515` holds PORTB, DDRB, PORTD,
  DDRD, PIND, SPCR, SPSR and SPDR as `bv8` fields, the event trace, the
  peripheral's script of response bytes and a count of the responses
  consumed so far. Its methods are `sendData`, the five command
  transactions, `initController` and the interrupt poll `messageReceived`.
  Each method's contract gives its exact trace suffix, its answer, which
  register bits change, and how many responses it consumes;
- client scenarios (`Scenarios`): what a caller can conclude from the
  contracts alone.

Each transaction is stated as `old(trace) + Transaction(bytes sent,
responses consumed)`. A transaction is chip select dropped once, then the
exchanges in order, then chip select raised once. The lemmas in `Bus` show
that this is exactly one bracket with every exchange inside it. They also
show that it transmits exactly the listed bytes and keeps a well-framed trace
well framed. The object invariant `Valid()` says that the bytes received so far
are exactly the consumed prefix of the script, so each exchange consumes
exactly one scripted response.

`initController` leaves chip select low: it sends WRITE, CNF3 and
`1<<PHSEG21` and never raises chip select. The model states this. Its
consequence is proved in `Scenarios.InitThenRead`: the next command's
chip-select drop lands inside the open WRITE, so the trace is no longer well
framed.

Three behaviours of the code the model keeps:

- `messageReceived` returns the byte 1 or 0.
- `initController` leaves its configuration write open.
- `readStatus` does not check its argument.

## Model

| member | source | states |
|---|---|---|
| Bits.Mask | mcp2515.c:52 | `1<<n` has exactly one bit set, and that bit is bit n |
| Bits.SetBits | mcp2515.c:58 | OR-ing a mask m into x sets every bit of m and leaves every other bit as it was |
| Bits.ClearBits | mcp2515.c:52 | `x &= ~m` clears every bit of m and leaves every other bit as it was |
| Bits.ClearThenSet | mcp2515.c:52-58 | dropping then raising the chip-select bit nets to only raising it, so the bit ends at 1 |
| Opcodes.Encode | mcp2515.h:7-15 | every opcode's byte decodes back to that opcode, so the nine instruction bytes are pairwise distinct |
| Opcodes.DecodeExact | mcp2515.h:7-15 | decoding accepts exactly the nine instruction bytes, and each accepted byte is the encoding of the opcode returned |
| Opcodes.EncodeInjective | mcp2515.h:7-15 | two opcodes with the same byte are the same opcode |
| Opcodes.StatusBytes | mcp2515.h:13-14 | the bytes that decode to READ STATUS or RX STATUS are exactly 0xA0 and 0xB0 |
| Bus.ExchangesProject | mcp2515.c:37-42 | a run of exchanges sends exactly its bytes and receives exactly its responses |
| Bus.TransactionProjects | mcp2515.c:51-61 | a transaction transmits exactly its bytes and receives exactly its responses; the chip-select events send nothing |
| Bus.TransactionBracketed | mcp2515.c:70-81 | in a transaction, chip select is dropped once (first event) and raised once (last event), and every exchange lies between the two |
| Bus.RunExchanges | mcp2515.c:190-193 | exchanges while selected are legal and leave chip select dropped |
| Bus.RunTransaction | mcp2515.c:101-113 | a transaction started deselected is legal and ends deselected; started while selected it is a nested select and breaks the framing |
| Driver.TransactionFraming | mcp2515.c:123-132 | appending a transaction to a trace that ends deselected leaves it well framed and deselected |
| Driver.PortBAfterInit | mcp2515.c:156-190 | after the pin set-up, the reset's drop and raise and the final drop, PORTB has bits CS, SCK, MOSI and MISO cleared and all other bits unchanged |
| Driver.InitFraming | mcp2515.c:189-198 | from a deselected start, `initController` leaves the framing legal but selected (the WRITE is still open) |
| Driver.Mcp2515.MessageReceived | mcp2515.c:22-24 | the answer is 1 exactly when bit 2 of PIND is 0 and 0 otherwise, never any other value; it changes nothing |
| Driver.Mcp2515.SelectChip | mcp2515.c:71 | only PORTB bit 2 changes, to 0; a CsLow event is recorded; no response is consumed |
| Driver.Mcp2515.DeselectChip | mcp2515.c:78 | only PORTB bit 2 changes, to 1; a CsHigh event is recorded; no response is consumed |
| Driver.Mcp2515.SendData | mcp2515.c:37-42 | exactly one byte is sent, exactly one scripted response is consumed, and that response is both returned and left in SPDR; no other register changes |
| Driver.Mcp2515.WriteToRegister | mcp2515.c:51-61 | the trace grows by one transaction sending exactly [0x02, address, data]; PORTB bit 2 ends high with the other bits unchanged; three responses are consumed; framing is preserved |
| Driver.Mcp2515.ReadRegister | mcp2515.c:70-81 | the trace grows by one transaction sending exactly [0x03, address, 0xFF]; the answer is the third response, and the first two are discarded; PORTB bit 2 ends high with the other bits unchanged; framing is preserved |
| Driver.Mcp2515.BitModify | mcp2515.c:101-113 | the trace grows by one transaction sending exactly [0x05, address, mask, data], mask before data; PORTB bit 2 ends high with the other bits unchanged; framing is preserved |
| Driver.Mcp2515.ReadStatus | mcp2515.c:123-132 | the trace grows by one transaction sending exactly [readType, 0xFF], whatever readType is; the answer is the second response; PORTB bit 2 ends high with the other bits unchanged; framing is preserved |
| Driver.Mcp2515.ResetController | mcp2515.c:141-149 | the trace grows by one transaction sending exactly [0xC0] and nothing else; PORTB bit 2 ends high with the other bits unchanged; framing is preserved |
| Driver.Mcp2515.MakeChipSelectOutput | mcp2515.c:155-157 | DDRB bit 2 becomes 1 and nothing else changes; it may only be called once PORTB bit 2 is 1, so the chip-select pin never starts driving low |
| Driver.Mcp2515.ConfigurePins | mcp2515.c:154-173 | PORTB bit 2 is raised before DDRB bit 2 makes it an output (the precondition of MakeChipSelectOutput, discharged in the body); DDRB bits 2, 4 and 5 end set and bit 3 cleared; PORTB bits 3-5 end cleared; DDRD bit 2 is cleared and PORTD bit 2 set; the other bits are unchanged |
| Driver.Mcp2515.ConfigureSpi | mcp2515.c:175-181 | SPCR becomes SPE, MSTR and SPR0; SPSR becomes 0; nothing else changes |
| Driver.Mcp2515.DelayMicroseconds | mcp2515.c:186-187 | only a Delay event is recorded; no register changes |
| Driver.Mcp2515.BeginCnf3Write | mcp2515.c:189-198 | chip select is dropped and [0x02, CNF3, 1<<PHSEG21] is sent, with chip select not raised again; the answer is the last response, which is also left in SPDR |
| Driver.Mcp2515.InitController | mcp2515.c:153-199 | the final register values, bit by bit (PORTB bits 2-5 cleared; DDRB 2, 4, 5 set and 3 cleared; DDRD 2 cleared and PORTD 2 set; SPCR has exactly the SPE, MSTR and SPR0 bits; SPSR = 0). The PORTB chip-select bit is set before DDRB bit 2 (through ConfigurePins). The trace is CS high, the bracketed [0xC0], a 10 us delay, then CS dropped and [0x02, CNF3, 1<<PHSEG21] sent with CS left low. The answer is the last received byte |
| Scenarios.ResetThenRead | mcp2515.c:70-81 | after a reset, a register read returns, unmodified, the byte the peripheral shifted back on its third exchange, and the trace stays well framed |
| Scenarios.InitThenRead | mcp2515.c:189-198 | after `initController`, a read still returns its third response, but its chip-select drop nests inside the open WRITE and breaks the framing |
| Scenarios.StatusVariants | mcp2515.c:115-132 | READ STATUS (0xA0) and RX STATUS (0xB0) return the same second response, and their traces differ only in the first byte sent |
| Scenarios.BitModifyExample | mcp2515.c:94-107 | the worked example, mask 0b00110101 and data 0b00100001, goes out as [0x05, address, 0x35, 0x21] |
| Scenarios.PollBothLevels | mcp2515.c:22-24 | the interrupt poll gives 1 with INT low and 0 with INT high, whatever the other PIND bits are |

## Left out

- The busy-wait on SPIF (mcp2515.c:39) is not modelled. An exchange completes at once with the next scripted response. Every command therefore requires as many unconsumed scripted responses as it has exchanges: on a dead bus the source hangs, and the model proves only what happens when the calls return. No timeout or retry is added.
- The hardware effect of an exchange on SPSR (SPIF raised, then cleared by the read of SPSR and SPDR) is not modelled; an exchange leaves SPSR as it was.
- `_delay_us(10)` (mcp2515.c:187) is recorded as a `Delay(10)` event; time itself is not modelled.
- `main` (mcp2515.c:201-203) is not part of this model: it does nothing.
- The MCP2515's own reaction to commands is not modelled: register contents, what bit modify does inside the chip, mode changes. The driver only transmits bytes, and the peripheral is a fixed script of response bytes. The mask-and-data picture at mcp2515.c:94-99 illustrates the chip's behaviour, not the driver's.
- The bit positions SPE, DORD, MSTR, SPR1, SPR0 and SPIF come from `avr/io.h`, and CNF3 and PHSEG21 come from the MCP2515 register header. Neither header is part of this model. Initialisation takes the ones it uses as a `Platform` record: bit positions below 8, and an address byte.
- Pin numbers follow the driver as written, including MOSI = 4 and MISO = 3. These look swapped relative to the ATmega328P's hardware SPI pins, but the model does not correct them.
- The opcodes READ RX (0x90), WRITE RX (0x40) and RTS (0x80) are defined but no driver operation sends them; they appear only in the opcode datatype.
- PIND is an input register that hardware changes; the model changes it only when a client assigns the field.
- Pin direction changes are not trace events, and the trace ignores a pin's direction: a write of PORTB bit 2 is recorded as `CsLow` or `CsHigh` even while DDRB bit 2 still makes the pin an input (the first `CsHigh` of `initController`, or a transaction issued before `initController`). At such a moment the write only switches the pull-up; the model does not say what level the MCP2515 then sees.
- There is no concurrency in the driver, so none is modelled.
