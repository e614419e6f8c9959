# SRAM_23LC command framing, modelled in Dafny

This project models the Arduino driver for Microchip's 23LC / 23LCV / 23A / 23K
SPI serial SRAM chips. It covers three things:

- how the driver turns a (command, address, payload) request into calls on
  the SPI bus and the chip-select pin;
- how it picks a 16-bit or 24-bit address field from the part's capacity;
- how it turns out-of-range and empty requests into no-ops that return 0.

The SPI peripheral and the pin are foreign calls. Each call is modelled as
one `Event` appended to a ghost `trace` held by the driver object.

Files and modules:

- `chip.dfy`, module `Chip`: the header's constants.
  - the part enum and the capacity of each part;
  - the command codes and the dummy byte;
  - the `SRAM_23LC_MODE` bit-field macro and the named modes;
  - the address width a capacity calls for;
  - the big-endian value of a byte string.
- `bus.dfy`, module `Bus`: the vocabulary of calls (`Event`) and what a trace means.
  - `Run` is a phase machine. A transaction must be begun, then the chip
    selected, then bytes moved, then the chip deselected, then the
    transaction ended. `Quiescent` says a trace goes from idle back to idle.
  - `Wire` gives the bytes a trace clocks out.
  - `Receive` says how a part of a given capacity splits the bytes it
    receives into command, address field and data.
- `driver.dfy`, module `Driver`: the `SRAM_23LC` class as class `Sram23LC`.
  - One method for each public and protected member. Each method states
    exactly which events it appends and what it returns.
  - Pure functions (`AddressBytes`, `Opening`, `Command`, `BeginSequence`)
    name those event sequences.
  - Lemmas state what the sequences mean. Each command is one balanced
    transaction. The address field decodes back to the address. The chip
    receives the command, the address and the payload bytes in order.
    `begin` raises and configures chip select before starting the bus.

Every public method keeps the object invariant `Valid()`. That invariant says
the capacity is the one the part calls for, and the trace is quiescent.

## Model

| member | source | states |
|---|---|---|
| `Chip.Capacity` | src/SRAM_23LC.h:55-64 | every part has one of the four capacities 0x2000, 0x8000, 0x10000, 0x20000 |
| `Chip.FamilyCapacity` | src/SRAM_23LC.h:37-64 | the 1024 family is exactly the parts with 0x20000 bytes, the 512 family those with 0x10000, the 256 family those with 0x8000, the 640 family those with 0x2000 |
| `Chip.CommandsDistinct` | src/SRAM_23LC.h:72-75 | READ 0x03, WRITE 0x02, RDMR 0x05 and WRMR 0x01 are pairwise different |
| `Chip.Mode` | src/SRAM_23LC.h:91-93 | the macro never sets a bit outside 7..6; bits 7..6 read back as the value modulo 4; for values below 4 the result is value << 6 |
| `Chip.ModeField` | src/SRAM_23LC.h:91-92 | the MODE field read out of a register byte is one of the four two-bit values |
| `Chip.NamedModes` | src/SRAM_23LC.h:94-99 | BYTE, SEQUENTIAL and PAGE are the macro applied to 0, 1, 2; they are 0x00, 0x40, 0x80 and distinct |
| `Chip.SequentialModeByte` | src/SRAM_23LC.cpp:70 | the unsigned long MODE_SEQUENTIAL truncated to uint8_t for transfer is 0x40, whose MODE field is the sequential value 1 |
| `Chip.AddressWidthByFamily` | src/SRAM_23LC.h:55-67 | only 16-bit and 24-bit fields occur; 24-bit exactly for the 1024 family, whose top address needs more than 16 bits; every part's addresses fit in its width |
| `Bus.SendsAt` | src/SRAM_23LC.cpp:127-130 | one single-byte transfer per payload byte: the i-th transfer carries byte i |
| `Bus.SendsSnoc` | src/SRAM_23LC.cpp:127-130 | one more loop iteration appends exactly one more transfer, of the next byte |
| `Bus.WireOfSends` | src/SRAM_23LC.cpp:127-130 | the per-byte transfers clock out exactly the payload, in order |
| `Driver.AddressBytes` | src/SRAM_23LC.cpp:147-154 | the address field has 3 bytes when the capacity exceeds 0x10000 and 2 otherwise |
| `Driver.AddressRoundTrip` | src/SRAM_23LC.cpp:147-154 | for every address below the capacity (capacity at most 2^24), the big-endian value of the address field is the address |
| `Driver.TopAddressOf1024Family` | src/SRAM_23LC.cpp:147-154 | on a 128 KB part address 0x1FFFF is sent as 01 FF FF |
| `Driver.CommandIsFramed` | src/SRAM_23LC.cpp:136-160 | a command whose payload only moves bytes starts with BeginTxn, CsLow and ends with CsHigh, EndTxn; it takes the bus from idle back to idle; it begins exactly one transaction |
| `Driver.CommandWire` | src/SRAM_23LC.cpp:136-154 | a command clocks out its command byte, then the address field only for READ and WRITE, then the payload bytes |
| `Driver.CommandReceived` | src/SRAM_23LC.cpp:136-154 | the chip decodes a framed command back into the same command, the same in-range address (none for other commands) and the same payload bytes |
| `Driver.WriteBlockReceived` | src/SRAM_23LC.cpp:117-133 | a block write reaches the chip as one WRITE at the start address followed by the whole buffer in order, with no re-addressing |
| `Driver.BeginIsFramed` | src/SRAM_23LC.cpp:59-72 | begin drives CS high, then makes it an output, then starts the bus; it then runs exactly one transaction, balanced, leaving the bus idle |
| `Driver.BeginWire` | src/SRAM_23LC.cpp:69-71 | the only bytes begin sends are WRMR (0x01) and 0x40, with no address field; the MODE field of 0x40 is the sequential value |
| `Driver.PrefixIsIdle` | src/SRAM_23LC.cpp:61-67 | the pin and bus-start calls before begin's command move no byte and open no transaction |
| `Driver.Sram23LC.constructor` | src/SRAM_23LC.cpp:28-44 | the capacity is the one the part calls for; settings are the library default; no bus or pin call is made |
| `Driver.Sram23LC.Begin` | src/SRAM_23LC.cpp:59-72 | stores the clock speed; settings become (clock, MSB first, mode 0); appends exactly the begin sequence; keeps the bus quiescent |
| `Driver.Sram23LC.End` | src/SRAM_23LC.cpp:74-77 | appends only the switch of the pin to input |
| `Driver.Sram23LC.ReadByte` | src/SRAM_23LC.cpp:79-90 | out of range: returns 0, no call made; in range: one READ command at the address whose payload is the 0xFF dummy transfer, returning the byte received in that transfer |
| `Driver.Sram23LC.WriteByte` | src/SRAM_23LC.cpp:92-102 | out of range: returns 0, no call made; in range: one WRITE command at the address whose payload is the byte, returning 1 |
| `Driver.Sram23LC.ReadBlock` | src/SRAM_23LC.cpp:104-115 | out of range or empty: returns 0, no call made, buffer untouched; otherwise one READ command at the start address with one block transfer; the buffer's first `length` bytes become the received bytes and the rest stay; returns `length` with no tail clamping |
| `Driver.Sram23LC.WriteBlock` | src/SRAM_23LC.cpp:117-134 | out of range or empty: returns 0, no call made; otherwise one WRITE command at the start address whose payload is buffer[0..length) in order; returns `length` with no tail clamping |
| `Driver.Sram23LC.StartCommand` | src/SRAM_23LC.cpp:136-145 | appends BeginTxn with the current settings, CsLow, the command byte, and the address field only for READ and WRITE |
| `Driver.Sram23LC.SendAddressBytes` | src/SRAM_23LC.cpp:147-154 | appends one transfer per byte of the address field |
| `Driver.Sram23LC.EndCommand` | src/SRAM_23LC.cpp:156-160 | appends CsHigh then EndTxn |

## Left out

- The no-argument `begin()` is not modelled. It only picks a per-platform default clock constant by conditional compilation (src/SRAM_23LC.cpp:46-57).
- SPI internals are not modelled: the clock divider, bit order and mode bits inside `SPISettings`. `BeginTxn` carries `DefaultSettings` or `Configured(clock)`; MSB first and SPI mode 0 are implied by the latter.
- The pin-level effects of `digitalWrite` and `pinMode` are not modelled either. They appear only as trace events.
- Bus locking by `beginTransaction`/`endTransaction` is not modelled, nor the sharing of one bus by several devices. Each object has its own trace.
- The chip's storage and its sequential auto-increment are not modelled, so there is no write-then-read round trip. That is device behaviour, not driver code. What the model does prove is that the chip receives each write's address and bytes unchanged, in order.
- The `SRAM_23LC_Mode_Register` union is not modelled; its bit-field layout is implementation-defined and unused. Also out: the EDIO/EQIO/RSTIO commands and the commented-out `getMode`/`setMode`.
- Bytes received from the chip come from parameters. For `ReadByte` this is `received`; for `ReadBlock` it is `incoming`, which must hold `length` bytes.
- In `ReadBlock`, the bytes sent during the block transfer are the buffer's prior contents. The source passes the buffer itself to the duplex block transfer.
- `ReadBlock` and `WriteBlock` require an array of at least `length` bytes when the request goes ahead. This is the raw-pointer validity that C leaves to the caller.
- `Driver.Sram23LC.constructor`: sets `clkSpeed` to 0. C++ leaves `_clkSpeed` uninitialised until `begin`.
- Part values outside the declared enum cannot occur in the model. In C++ they would leave `_capacity` uninitialised, because the capacity chain has no final `else`.
- Lengths are unbounded naturals. `size_t` wrap-around plays no part, because the length is only compared with 0, counted down and returned.
- Block requests check only the start address against the capacity. A request whose end runs past the capacity still goes ahead and returns `length`. This is the source's behaviour and it is modelled as written.
