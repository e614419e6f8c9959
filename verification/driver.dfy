/**
 * The SRAM_23LC driver object: how each read, write and block request is
 * framed as a sequence of SPI and chip-select calls. The calls land in a
 * ghost trace; the pure functions below say which events each request adds,
 * and the lemmas say what those events mean on the bus and to the chip.
 */
module Driver {
  import opened Chip
  import opened Bus

  /**
   * The address field sendAddressBytes clocks out: big-endian, three bytes
   * for parts above 64 KB and two otherwise.
   */
  function AddressBytes(capacity: nat, address: U32): (r: seq<Byte>)
    ensures |r| == AddressWidth(capacity)
  {
    if capacity > 0x10000 then
      [(address / 0x10000) % 0x100, (address / 0x100) % 0x100, address % 0x100]
    else
      [(address / 0x100) % 0x100, address % 0x100]
  }

  /** Every in-range address is recovered from its address field. */
  lemma AddressRoundTrip(capacity: nat, address: U32)
    requires address < capacity <= 0x1000000
    ensures BigEndian(AddressBytes(capacity, address)) == address
  {
    var r := AddressBytes(capacity, address);
    var lo, mid, hi := address % 0x100, (address / 0x100) % 0x100, (address / 0x10000) % 0x100;
    assert address == (address / 0x100) * 0x100 + lo;
    if capacity > 0x10000 {
      assert r[..2][..1] == [hi] && r[..2] == [hi, mid];
      assert BigEndian([hi]) == hi by { assert [hi][..0] == []; }
      assert address / 0x100 == (address / 0x10000) * 0x100 + mid;
      assert address / 0x10000 == hi;
    } else {
      assert r[..1] == [mid];
      assert BigEndian([mid]) == mid by { assert [mid][..0] == []; }
      assert address / 0x100 == mid;
    }
  }

  /**
   * What startCommand adds: claim the bus, select the chip, the command
   * byte, and the address field for READ and WRITE only.
   */
  function Opening(s: SpiSettings, command: Byte, capacity: nat, address: U32): seq<Event> {
    [BeginTxn(s), CsLow, Xfer(command)]
      + (if HasAddress(command) then Sends(AddressBytes(capacity, address)) else [])
  }

  /** What endCommand adds: deselect the chip, release the bus. */
  const CLOSING: seq<Event> := [CsHigh, EndTxn]

  /** One complete command: its opening, the payload calls, its closing. */
  function Command(s: SpiSettings, command: Byte, capacity: nat, address: U32, payload: seq<Event>): seq<Event> {
    Opening(s, command, capacity, address) + payload + CLOSING
  }

  /**
   * A command whose payload only moves bytes is one balanced envelope: it
   * opens with BeginTxn and CsLow, closes with CsHigh and EndTxn, takes the
   * bus from idle back to idle, and begins exactly one transaction.
   */
  lemma CommandIsFramed(s: SpiSettings, command: Byte, capacity: nat, address: U32, payload: seq<Event>)
    requires OnlyTransfers(payload)
    ensures var c := Command(s, command, capacity, address, payload);
      && c[0] == BeginTxn(s) && c[1] == CsLow
      && c[|c| - 2] == CsHigh && c[|c| - 1] == EndTxn
      && Quiescent(c)
      && Transactions(c) == 1
  {
    var head := [BeginTxn(s), CsLow, Xfer(command)];
    var tail := Opening(s, command, capacity, address)[3..] + payload;
    var c := Command(s, command, capacity, address, payload);
    assert c == head + (tail + CLOSING);
    if HasAddress(command) {
      SendsOnlyTransfers(AddressBytes(capacity, address));
    }
    assert OnlyTransfers(tail);
    assert head[1..] == [CsLow, Xfer(command)] && head[1..][1..] == [Xfer(command)];
    assert [Xfer(command)][1..] == [] && CLOSING[1..] == [EndTxn] && [EndTxn][1..] == [];
    // the bus phases: claimed, selected, transfers, released, idle
    assert Run(Selected, [Xfer(command)]) == Some(Selected);
    assert Run(Claimed, [CsLow, Xfer(command)]) == Some(Selected);
    assert Run(Idle, head) == Some(Selected);
    assert Run(Released, [EndTxn]) == Some(Idle);
    assert Run(Selected, CLOSING) == Some(Idle);
    TransfersStaySelected(tail);
    RunAppend(Selected, tail, CLOSING);
    RunAppend(Idle, head, tail + CLOSING);
    // only the head begins a transaction
    assert Transactions([Xfer(command)]) == 0;
    assert Transactions([CsLow, Xfer(command)]) == 0;
    assert Transactions(head) == 1;
    assert Transactions([EndTxn]) == 0;
    assert Transactions(CLOSING) == 0;
    TransfersBeginNothing(tail);
    TransactionsAppend(tail, CLOSING);
    TransactionsAppend(head, tail + CLOSING);
  }

  /** The bytes a command clocks out: command byte, address field if any, payload bytes. */
  lemma CommandWire(s: SpiSettings, command: Byte, capacity: nat, address: U32, payload: seq<Event>)
    ensures Wire(Command(s, command, capacity, address, payload))
      == [command] + (if HasAddress(command) then AddressBytes(capacity, address) else []) + Wire(payload)
  {
    var field := if HasAddress(command) then Sends(AddressBytes(capacity, address)) else [];
    assert Wire(field) == if HasAddress(command) then AddressBytes(capacity, address) else [] by {
      if HasAddress(command) { WireOfSends(AddressBytes(capacity, address)); }
    }
    var head := [BeginTxn(s), CsLow, Xfer(command)];
    assert Wire(head) == [command] by {
      assert head[1..] == [CsLow, Xfer(command)] && head[1..][1..] == [Xfer(command)];
      assert [Xfer(command)][1..] == [];
      assert Wire([Xfer(command)]) == [command];
      assert Wire([CsLow, Xfer(command)]) == [command];
    }
    assert Wire(CLOSING) == [] by {
      assert CLOSING[1..] == [EndTxn] && [EndTxn][1..] == [];
      assert Wire([EndTxn]) == [];
    }
    WireAppend(head, field);
    WireAppend(head + field, payload);
    WireAppend(head + field + payload, CLOSING);
  }

  /**
   * The chip reads back exactly the request the driver framed: the command,
   * the address for READ and WRITE (none otherwise), and the payload bytes.
   */
  lemma CommandReceived(s: SpiSettings, command: Byte, capacity: nat, address: U32, payload: seq<Event>)
    requires address < capacity <= 0x1000000
    ensures Receive(Wire(Command(s, command, capacity, address, payload)), capacity)
      == Some(Request(command, if HasAddress(command) then Some(address) else None, Wire(payload)))
  {
    CommandWire(s, command, capacity, address, payload);
    var bytes := Wire(Command(s, command, capacity, address, payload));
    if HasAddress(command) {
      var field := AddressBytes(capacity, address);
      var w := AddressWidth(capacity);
      assert bytes[1..1 + w] == field;
      assert bytes[1 + w..] == Wire(payload);
      AddressRoundTrip(capacity, address);
    } else {
      assert bytes[1..] == Wire(payload);
    }
  }

  /**
   * A block write reaches the chip as one WRITE at the start address
   * followed by the buffer bytes in order, with no address in between.
   */
  lemma WriteBlockReceived(s: SpiSettings, capacity: nat, address: U32, data: seq<Byte>)
    requires address < capacity <= 0x1000000
    ensures Receive(Wire(Command(s, COMMAND_WRITE, capacity, address, Sends(data))), capacity)
      == Some(Request(COMMAND_WRITE, Some(address), data))
  {
    CommandReceived(s, COMMAND_WRITE, capacity, address, Sends(data));
    WireOfSends(data);
  }

  /** The top byte of a 128 KB part goes out as the 24-bit field 01 FF FF. */
  lemma TopAddressOf1024Family(d: Device)
    requires Is1024Family(d)
    ensures AddressBytes(Capacity(d), Capacity(d) - 1) == [0x01, 0xFF, 0xFF]
  {
  }

  /**
   * What begin(clockSpeed) adds: chip select driven high and made an output,
   * the bus started, then one WRMR command with no address and the
   * sequential-mode byte as payload, at the new settings.
   */
  function BeginSequence(clockSpeed: U32, capacity: nat): seq<Event> {
    [CsHigh, PinOutput, SpiBegin]
      + Command(Configured(clockSpeed), COMMAND_WRMR, capacity, 0, [Xfer(SEQUENTIAL_MODE_BYTE)])
  }

  /**
   * begin deselects the chip and makes its pin an output before the bus is
   * started, and then runs exactly one transaction, balanced, so the bus
   * ends idle.
   */
  lemma BeginIsFramed(clockSpeed: U32, capacity: nat)
    ensures var t := BeginSequence(clockSpeed, capacity);
      && t[0] == CsHigh && t[1] == PinOutput && t[2] == SpiBegin
      && Transactions(t) == 1 && Quiescent(t)
  {
    var prefix := [CsHigh, PinOutput, SpiBegin];
    var payload := [Xfer(SEQUENTIAL_MODE_BYTE)];
    var c := Command(Configured(clockSpeed), COMMAND_WRMR, capacity, 0, payload);
    assert OnlyTransfers(payload);
    CommandIsFramed(Configured(clockSpeed), COMMAND_WRMR, capacity, 0, payload);
    PrefixIsIdle();
    assert BeginSequence(clockSpeed, capacity) == prefix + c;
    QuiescentAppend(prefix, c);
    TransactionsAppend(prefix, c);
  }

  /**
   * The only bytes begin clocks out are WRMR and the mode byte, and the chip
   * reads that byte's MODE field as sequential mode.
   */
  lemma BeginWire(clockSpeed: U32, capacity: nat)
    ensures Wire(BeginSequence(clockSpeed, capacity)) == [COMMAND_WRMR, SEQUENTIAL_MODE_BYTE]
    ensures ModeField(SEQUENTIAL_MODE_BYTE) == MODE_SEQUENTIAL_VAL
  {
    var prefix := [CsHigh, PinOutput, SpiBegin];
    var payload := [Xfer(SEQUENTIAL_MODE_BYTE)];
    var c := Command(Configured(clockSpeed), COMMAND_WRMR, capacity, 0, payload);
    CommandWire(Configured(clockSpeed), COMMAND_WRMR, capacity, 0, payload);
    assert Wire(payload) == [SEQUENTIAL_MODE_BYTE] by {
      assert payload[1..] == [];
    }
    assert !HasAddress(COMMAND_WRMR);
    assert Wire(c) == [COMMAND_WRMR, SEQUENTIAL_MODE_BYTE];
    PrefixIsIdle();
    assert BeginSequence(clockSpeed, capacity) == prefix + c;
    WireAppend(prefix, c);
    SequentialModeByte();
  }

  /** The calls begin makes before its command move no bytes and open no transaction. */
  lemma PrefixIsIdle()
    ensures var prefix := [CsHigh, PinOutput, SpiBegin];
      Quiescent(prefix) && Wire(prefix) == [] && Transactions(prefix) == 0
  {
    var prefix := [CsHigh, PinOutput, SpiBegin];
    assert prefix[1..] == [PinOutput, SpiBegin] && prefix[1..][1..] == [SpiBegin] && [SpiBegin][1..] == [];
    assert Run(Idle, [SpiBegin]) == Some(Idle) && Wire([SpiBegin]) == [] && Transactions([SpiBegin]) == 0;
    assert Run(Idle, [PinOutput, SpiBegin]) == Some(Idle);
    assert Wire([PinOutput, SpiBegin]) == [] && Transactions([PinOutput, SpiBegin]) == 0;
  }

  /**
   * Appending the calls of one command, made in the order startCommand,
   * payload, endCommand, to an idle trace gives that trace plus the
   * command, and leaves the bus idle.
   */
  lemma AppendCommand(before: seq<Event>, s: SpiSettings, command: Byte, capacity: nat, address: U32, payload: seq<Event>)
    requires Quiescent(before) && OnlyTransfers(payload)
    ensures before + Opening(s, command, capacity, address) + payload + CLOSING
      == before + Command(s, command, capacity, address, payload)
    ensures Quiescent(before + Command(s, command, capacity, address, payload))
  {
    CommandIsFramed(s, command, capacity, address, payload);
    QuiescentAppend(before, Command(s, command, capacity, address, payload));
  }

  /** The same for begin: its three pin and bus calls, then its WRMR command. */
  lemma AppendBegin(before: seq<Event>, clockSpeed: U32, capacity: nat)
    requires Quiescent(before)
    ensures before + [CsHigh] + [PinOutput] + [SpiBegin]
        + Opening(Configured(clockSpeed), COMMAND_WRMR, capacity, 0) + [Xfer(SEQUENTIAL_MODE_BYTE)] + CLOSING
      == before + BeginSequence(clockSpeed, capacity)
    ensures Quiescent(before + BeginSequence(clockSpeed, capacity))
  {
    BeginIsFramed(clockSpeed, capacity);
    QuiescentAppend(before, BeginSequence(clockSpeed, capacity));
  }

  /**
   * One SRAM_23LC object. The part, its capacity and the chip-select pin
   * are fixed at construction; begin sets the clock speed and the SPI
   * settings. `trace` records every call made on the SPI bus and the pin.
   */
  class Sram23LC {
    const chipSelect: Byte
    const device: Device
    const capacity: U32
    var settings: SpiSettings
    var clkSpeed: U32
    ghost var trace: seq<Event>

    /** The capacity belongs to the part, and the bus is between transactions. */
    ghost predicate Valid()
      reads this
    {
      capacity == Capacity(device) && Quiescent(trace)
    }

    /** Looks up the capacity of the part; no bus or pin activity. */
    constructor (chipSelect: Byte, device: Device)
      ensures Valid()
      ensures this.chipSelect == chipSelect && this.device == device
      ensures capacity == Capacity(device)
      ensures settings == DefaultSettings && trace == []
    {
      if device == SRAM23LCV1024 || device == SRAM23LC1024 || device == SRAM23A1024 {
        capacity := 0x20000;
      } else if device == SRAM23LCV512 || device == SRAM23LC512 || device == SRAM23A512 {
        capacity := 0x10000;
      } else if device == SRAM23A256 || device == SRAM23K256 {
        capacity := 0x8000;
      } else if device == SRAM23A640 || device == SRAM23K640 {
        capacity := 0x2000;
      }
      this.device := device;
      this.chipSelect := chipSelect;
      settings := DefaultSettings;
      clkSpeed := 0;
      trace := [];
    }

    /** Initialises the pin, the bus and the chip's access mode. */
    method Begin(clockSpeed: U32)
      requires Valid()
      modifies this`trace, this`settings, this`clkSpeed
      ensures Valid()
      ensures clkSpeed == clockSpeed && settings == Configured(clockSpeed)
      ensures trace == old(trace) + BeginSequence(clockSpeed, capacity)
    {
      trace := trace + [CsHigh];
      trace := trace + [PinOutput];
      clkSpeed := clockSpeed;
      settings := Configured(clkSpeed);
      trace := trace + [SpiBegin];
      StartCommand(COMMAND_WRMR, 0);
      trace := trace + [Xfer(SEQUENTIAL_MODE_BYTE)];
      EndCommand();
      AppendBegin(old(trace), clockSpeed, capacity);
    }

    /** Releases the chip-select pin. */
    method End()
      requires Valid()
      modifies this`trace
      ensures Valid()
      ensures trace == old(trace) + [PinInput]
    {
      trace := trace + [PinInput];
      assert Quiescent([PinInput]) by { assert [PinInput][1..] == []; }
      QuiescentAppend(old(trace), [PinInput]);
    }

    /**
     * Reads one byte; `received` is the byte the chip shifts back during
     * the dummy transfer. Out of range: 0 and no bus activity.
     */
    method ReadByte(address: U32, received: Byte) returns (r: Byte)
      requires Valid()
      modifies this`trace
      ensures Valid()
      ensures address >= capacity ==> r == 0 && trace == old(trace)
      ensures address < capacity ==>
        && r == received
        && trace == old(trace) + Command(settings, COMMAND_READ, capacity, address, [Xfer(DUMMY_BYTE)])
    {
      if address >= capacity {
        return 0;
      }
      StartCommand(COMMAND_READ, address);
      trace := trace + [Xfer(DUMMY_BYTE)];
      r := received;
      EndCommand();
      AppendCommand(old(trace), settings, COMMAND_READ, capacity, address, [Xfer(DUMMY_BYTE)]);
    }

    /** Writes one byte. Out of range: 0 and no bus activity; otherwise 1. */
    method WriteByte(address: U32, value: Byte) returns (n: nat)
      requires Valid()
      modifies this`trace
      ensures Valid()
      ensures address >= capacity ==> n == 0 && trace == old(trace)
      ensures address < capacity ==>
        && n == 1
        && trace == old(trace) + Command(settings, COMMAND_WRITE, capacity, address, [Xfer(value)])
    {
      if address >= capacity {
        return 0;
      }
      StartCommand(COMMAND_WRITE, address);
      trace := trace + [Xfer(value)];
      EndCommand();
      AppendCommand(old(trace), settings, COMMAND_WRITE, capacity, address, [Xfer(value)]);
      n := 1;
    }

    /**
     * Reads `length` bytes from `address` into `buffer` in one transaction;
     * `incoming` is what the chip shifts back. Only the start address is
     * checked against the capacity. Out of range or empty: 0, no bus
     * activity, buffer untouched.
     */
    method ReadBlock(address: U32, length: nat, buffer: array<Byte>, incoming: seq<Byte>) returns (n: nat)
      requires Valid()
      requires |incoming| == length
      requires address < capacity && length > 0 ==> length <= buffer.Length
      modifies this`trace, buffer
      ensures Valid()
      ensures address >= capacity || length == 0 ==>
        n == 0 && trace == old(trace) && buffer[..] == old(buffer[..])
      ensures address < capacity && length > 0 ==>
        && n == length
        && trace == old(trace) + Command(settings, COMMAND_READ, capacity, address, [XferBuf(old(buffer[..length]))])
        && buffer[..] == incoming + old(buffer[length..])
    {
      if address >= capacity || length == 0 {
        return 0;
      }
      StartCommand(COMMAND_READ, address);
      trace := trace + [XferBuf(buffer[..length])];
      forall i | 0 <= i < length {
        buffer[i] := incoming[i];
      }
      EndCommand();
      AppendCommand(old(trace), settings, COMMAND_READ, capacity, address, [XferBuf(old(buffer[..length]))]);
      n := length;
    }

    /**
     * Writes buffer[0..length) from `address` in one transaction, one
     * transfer per byte. Only the start address is checked against the
     * capacity. Out of range or empty: 0 and no bus activity.
     */
    method WriteBlock(address: U32, length: nat, buffer: array<Byte>) returns (n: nat)
      requires Valid()
      requires address < capacity && length > 0 ==> length <= buffer.Length
      modifies this`trace
      ensures Valid()
      ensures address >= capacity || length == 0 ==> n == 0 && trace == old(trace)
      ensures address < capacity && length > 0 ==>
        && n == length
        && trace == old(trace) + Command(settings, COMMAND_WRITE, capacity, address, Sends(buffer[..length]))
    {
      if address >= capacity || length == 0 {
        return 0;
      }
      StartCommand(COMMAND_WRITE, address);
      ghost var framed := trace;
      var len := length;
      var i := 0;
      while len != 0
        invariant i + len == length
        invariant trace == framed + Sends(buffer[..i])
      {
        len := len - 1;
        trace := trace + [Xfer(buffer[i])];
        SendsSnoc(buffer[..i], buffer[i]);
        assert buffer[..i] + [buffer[i]] == buffer[..i + 1];
        i := i + 1;
      }
      EndCommand();
      assert buffer[..i] == buffer[..length];
      SendsOnlyTransfers(buffer[..length]);
      AppendCommand(old(trace), settings, COMMAND_WRITE, capacity, address, Sends(buffer[..length]));
      n := length;
    }

    /** startCommand: opens the envelope and sends the command (and address). */
    method StartCommand(command: Byte, address: U32)
      modifies this`trace
      ensures trace == old(trace) + Opening(settings, command, capacity, address)
    {
      trace := trace + [BeginTxn(settings)];
      trace := trace + [CsLow];
      trace := trace + [Xfer(command)];
      if command == COMMAND_READ || command == COMMAND_WRITE {
        SendAddressBytes(address);
      }
    }

    /** sendAddressBytes: the address field, most significant byte first. */
    method SendAddressBytes(address: U32)
      modifies this`trace
      ensures trace == old(trace) + Sends(AddressBytes(capacity, address))
    {
      ghost var low := [(address / 0x100) % 0x100, address % 0x100];
      assert Sends(low) == [Xfer(low[0]), Xfer(low[1])] by {
        assert low[1..] == [low[1]] && [low[1]][1..] == [];
      }
      if capacity > 0x10000 {
        trace := trace + [Xfer((address / 0x10000) % 0x100)];
        assert AddressBytes(capacity, address)[1..] == low;
      }
      trace := trace + [Xfer((address / 0x100) % 0x100)];
      trace := trace + [Xfer(address % 0x100)];
    }

    /** endCommand: closes the envelope. */
    method EndCommand()
      modifies this`trace
      ensures trace == old(trace) + CLOSING
    {
      trace := trace + [CsHigh];
      trace := trace + [EndTxn];
    }
  }
}
