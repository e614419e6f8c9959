/**
 * The SPI peripheral and the chip-select pin, seen as a trace of calls.
 * Each call the driver makes on them becomes one Event; the phases of an
 * SPI transaction are a small state machine over such traces, and the bytes
 * clocked out while the chip is selected are what the chip receives.
 */
module Bus {
  import opened Chip

  datatype Option<T> = None | Some(value: T)

  /** SPISettings: the library default, or (clock, MSB first, SPI mode 0). */
  datatype SpiSettings = DefaultSettings | Configured(clock: U32)

  datatype Event =
    | SpiBegin                         // spi->begin()
    | BeginTxn(settings: SpiSettings)  // spi->beginTransaction(settings)
    | EndTxn                           // spi->endTransaction()
    | Xfer(out: Byte)                  // spi->transfer(byte)
    | XferBuf(outs: seq<Byte>)         // spi->transfer(buffer, length)
    | CsLow                            // digitalWrite(chipSelect, LOW)
    | CsHigh                           // digitalWrite(chipSelect, HIGH)
    | PinOutput                        // pinMode(chipSelect, OUTPUT)
    | PinInput                         // pinMode(chipSelect, INPUT)

  /**
   * Where the bus stands: Idle (no transaction), Claimed (transaction begun,
   * chip not yet selected), Selected (chip select low, bytes may move),
   * Released (chip deselected, transaction not yet ended).
   */
  datatype Phase = Idle | Claimed | Selected | Released

  /** The phase after one event, or None if the event is out of place. */
  function Step(p: Phase, e: Event): Option<Phase> {
    match p
    case Idle =>
      if e.BeginTxn? then Some(Claimed)
      else if e.SpiBegin? || e.PinOutput? || e.PinInput? || e.CsHigh? then Some(Idle)
      else None
    case Claimed =>
      if e.CsLow? then Some(Selected) else None
    case Selected =>
      if e.Xfer? || e.XferBuf? then Some(Selected)
      else if e.CsHigh? then Some(Released)
      else None
    case Released =>
      if e.EndTxn? then Some(Idle) else None
  }

  function Run(p: Phase, t: seq<Event>): Option<Phase>
    decreases |t|
  {
    if t == [] then Some(p)
    else match Step(p, t[0])
      case None => None
      case Some(q) => Run(q, t[1..])
  }

  /**
   * A trace that starts and ends with the bus idle: every transfer happens
   * with the chip selected inside a transaction, and every transaction is
   * closed by deselecting the chip and ending it.
   */
  ghost predicate Quiescent(t: seq<Event>) {
    Run(Idle, t) == Some(Idle)
  }

  predicate IsTransfer(e: Event) {
    e.Xfer? || e.XferBuf?
  }

  predicate OnlyTransfers(t: seq<Event>) {
    forall i :: 0 <= i < |t| ==> IsTransfer(t[i])
  }

  lemma {:induction false} RunAppend(p: Phase, a: seq<Event>, b: seq<Event>)
    ensures Run(p, a + b) == match Run(p, a) case None => None case Some(q) => Run(q, b)
    decreases |a|
  {
    if a != [] {
      assert (a + b)[0] == a[0];
      assert (a + b)[1..] == a[1..] + b;
      match Step(p, a[0])
      case None =>
      case Some(q) => RunAppend(q, a[1..], b);
    } else {
      assert a + b == b;
    }
  }

  /** Idle-to-idle traces compose. */
  lemma QuiescentAppend(a: seq<Event>, b: seq<Event>)
    requires Quiescent(a) && Quiescent(b)
    ensures Quiescent(a + b)
  {
    RunAppend(Idle, a, b);
  }

  /** A run of transfers keeps the chip selected. */
  lemma {:induction false} TransfersStaySelected(t: seq<Event>)
    requires OnlyTransfers(t)
    ensures Run(Selected, t) == Some(Selected)
  {
    if t != [] {
      assert IsTransfer(t[0]);
      TransfersStaySelected(t[1..]);
    }
  }

  /** One Xfer per byte, in order. */
  function Sends(bytes: seq<Byte>): (t: seq<Event>)
    ensures |t| == |bytes|
  {
    if bytes == [] then [] else [Xfer(bytes[0])] + Sends(bytes[1..])
  }

  /** The i-th call of Sends transfers the i-th byte. */
  lemma {:induction false} SendsAt(bytes: seq<Byte>, i: nat)
    requires i < |bytes|
    ensures Sends(bytes)[i] == Xfer(bytes[i])
  {
    if i > 0 {
      SendsAt(bytes[1..], i - 1);
    }
  }

  lemma SendsOnlyTransfers(bytes: seq<Byte>)
    ensures OnlyTransfers(Sends(bytes))
  {
    forall i | 0 <= i < |bytes|
      ensures IsTransfer(Sends(bytes)[i])
    {
      SendsAt(bytes, i);
    }
  }

  /** Sending one more byte appends one more transfer. */
  lemma {:induction false} SendsSnoc(bytes: seq<Byte>, b: Byte)
    ensures Sends(bytes + [b]) == Sends(bytes) + [Xfer(b)]
  {
    if bytes == [] {
      assert [b][1..] == [];
    } else {
      assert (bytes + [b])[1..] == bytes[1..] + [b];
      SendsSnoc(bytes[1..], b);
    }
  }

  /** Number of transactions begun in a trace. */
  function Transactions(t: seq<Event>): nat {
    if t == [] then 0 else (if t[0].BeginTxn? then 1 else 0) + Transactions(t[1..])
  }

  lemma {:induction false} TransactionsAppend(a: seq<Event>, b: seq<Event>)
    ensures Transactions(a + b) == Transactions(a) + Transactions(b)
  {
    if a != [] {
      assert (a + b)[1..] == a[1..] + b;
      TransactionsAppend(a[1..], b);
    } else {
      assert a + b == b;
    }
  }

  lemma {:induction false} TransfersBeginNothing(t: seq<Event>)
    requires OnlyTransfers(t)
    ensures Transactions(t) == 0
  {
    if t != [] {
      assert IsTransfer(t[0]);
      TransfersBeginNothing(t[1..]);
    }
  }

  /** The bytes an event clocks out on MOSI. */
  function Out(e: Event): seq<Byte> {
    match e
    case Xfer(b) => [b]
    case XferBuf(bs) => bs
    case _ => []
  }

  /** All bytes clocked out by a trace, in order. */
  function Wire(t: seq<Event>): seq<Byte> {
    if t == [] then [] else Out(t[0]) + Wire(t[1..])
  }

  lemma {:induction false} WireAppend(a: seq<Event>, b: seq<Event>)
    ensures Wire(a + b) == Wire(a) + Wire(b)
  {
    if a != [] {
      assert (a + b)[1..] == a[1..] + b;
      WireAppend(a[1..], b);
    } else {
      assert a + b == b;
    }
  }

  /** Sends clocks out exactly the bytes it is given. */
  lemma {:induction false} WireOfSends(bytes: seq<Byte>)
    ensures Wire(Sends(bytes)) == bytes
  {
    if bytes != [] {
      WireOfSends(bytes[1..]);
      assert Sends(bytes)[1..] == Sends(bytes[1..]);
      assert bytes == [bytes[0]] + bytes[1..];
    }
  }

  /** A command as the chip understands it: the address is present for READ and WRITE only. */
  datatype Request = Request(command: Byte, address: Option<nat>, data: seq<Byte>)

  /**
   * How a part of the given capacity splits the bytes it received while
   * selected: the command byte, then for READ and WRITE an address field of
   * AddressWidth(capacity) bytes, most significant first, then the data.
   */
  function Receive(bytes: seq<Byte>, capacity: nat): Option<Request> {
    if bytes == [] then None
    else if !HasAddress(bytes[0]) then Some(Request(bytes[0], None, bytes[1..]))
    else if |bytes| < 1 + AddressWidth(capacity) then None
    else
      var w := AddressWidth(capacity);
      Some(Request(bytes[0], Some(BigEndian(bytes[1..1 + w])), bytes[1 + w..]))
  }
}
