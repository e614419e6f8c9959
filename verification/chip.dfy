/**
 * The 23LC / 23LCV / 23A / 23K serial SRAM family as the driver header
 * describes it: the part numbers, the capacity of each part, the command
 * codes every part accepts, and the layout of the mode register.
 */
module Chip {

  /** An 8-bit value as it travels on the SPI bus (uint8_t). */
  type Byte = b: int | 0 <= b < 0x100

  /** An unsigned 32-bit value (uint32_t): addresses and clock speeds. */
  type U32 = x: int | 0 <= x < 0x1_0000_0000

  /** The supported parts, in the order of the SRAM_23LC_Device enum. */
  datatype Device =
    // 128 KB
    | SRAM23LCV1024 | SRAM23LC1024 | SRAM23A1024
    // 64 KB
    | SRAM23LCV512 | SRAM23LC512 | SRAM23A512
    // 32 KB
    | SRAM23A256 | SRAM23K256
    // 8 KB
    | SRAM23A640 | SRAM23K640

  predicate Is1024Family(d: Device) {
    d.SRAM23LCV1024? || d.SRAM23LC1024? || d.SRAM23A1024?
  }

  predicate Is512Family(d: Device) {
    d.SRAM23LCV512? || d.SRAM23LC512? || d.SRAM23A512?
  }

  predicate Is256Family(d: Device) {
    d.SRAM23A256? || d.SRAM23K256?
  }

  predicate Is640Family(d: Device) {
    d.SRAM23A640? || d.SRAM23K640?
  }

  /** The SRAM_CAPACITY_* constant the header gives each part, in bytes. */
  function Capacity(d: Device): (c: nat)
    ensures c in {0x2000, 0x8000, 0x10000, 0x20000}
  {
    match d
    case SRAM23LCV1024 => 0x20000
    case SRAM23LC1024 => 0x20000
    case SRAM23A1024 => 0x20000
    case SRAM23LCV512 => 0x10000
    case SRAM23LC512 => 0x10000
    case SRAM23A512 => 0x10000
    case SRAM23A256 => 0x8000
    case SRAM23K256 => 0x8000
    case SRAM23A640 => 0x2000
    case SRAM23K640 => 0x2000
  }

  /** Each family shares one capacity, and no two families share it. */
  lemma FamilyCapacity(d: Device)
    ensures Is1024Family(d) <==> Capacity(d) == 0x20000
    ensures Is512Family(d) <==> Capacity(d) == 0x10000
    ensures Is256Family(d) <==> Capacity(d) == 0x8000
    ensures Is640Family(d) <==> Capacity(d) == 0x2000
  {
  }

  /** Filler byte clocked out while a byte is read. */
  const DUMMY_BYTE: Byte := 0xFF

  // Commands supported by all parts.
  const COMMAND_READ: Byte := 0x03
  const COMMAND_WRITE: Byte := 0x02
  const COMMAND_RDMR: Byte := 0x05
  const COMMAND_WRMR: Byte := 0x01

  lemma CommandsDistinct()
    ensures COMMAND_READ != COMMAND_WRITE && COMMAND_READ != COMMAND_RDMR && COMMAND_READ != COMMAND_WRMR
    ensures COMMAND_WRITE != COMMAND_RDMR && COMMAND_WRITE != COMMAND_WRMR
    ensures COMMAND_RDMR != COMMAND_WRMR
  {
  }

  /** The commands that are followed by an address field. */
  predicate HasAddress(command: Byte) {
    command == COMMAND_READ || command == COMMAND_WRITE
  }

  // The MODE field of the mode register: bits 7..6 (unsigned long arithmetic).
  const MODE_POS: bv32 := 6
  const MODE_MSK: bv32 := 0x3 << MODE_POS
  const MODE_BYTE_VAL: bv32 := 0x0
  const MODE_SEQUENTIAL_VAL: bv32 := 0x1
  const MODE_PAGE_VAL: bv32 := 0x2
  const MODE_BYTE: bv32 := MODE_BYTE_VAL << MODE_POS
  const MODE_SEQUENTIAL: bv32 := MODE_SEQUENTIAL_VAL << MODE_POS
  const MODE_PAGE: bv32 := MODE_PAGE_VAL << MODE_POS

  /**
   * SRAM_23LC_MODE(value): places the low two bits of value in the MODE
   * field. Nothing outside bits 7..6 is ever set, and the field reads back
   * as value modulo 4.
   */
  function Mode(value: bv32): (r: bv32)
    ensures r & !MODE_MSK == 0
    ensures (r >> MODE_POS) & 3 == value & 3
    ensures value < 4 ==> r == value << MODE_POS
  {
    MODE_MSK & (value << MODE_POS)
  }

  /** The MODE field of a mode-register byte. */
  function ModeField(register: Byte): (field: bv32)
    ensures field < 4
  {
    ((register as bv32) >> MODE_POS) & 3
  }

  /** The named modes are the encodings of their values, and are distinct. */
  lemma NamedModes()
    ensures MODE_BYTE == Mode(MODE_BYTE_VAL) == 0x00
    ensures MODE_SEQUENTIAL == Mode(MODE_SEQUENTIAL_VAL) == 0x40
    ensures MODE_PAGE == Mode(MODE_PAGE_VAL) == 0x80
    ensures MODE_BYTE != MODE_SEQUENTIAL && MODE_BYTE != MODE_PAGE && MODE_SEQUENTIAL != MODE_PAGE
  {
  }

  /**
   * The byte that `transfer(uint8_t)` puts on the bus for MODE_SEQUENTIAL:
   * the unsigned long is truncated to its low eight bits.
   */
  const SEQUENTIAL_MODE_BYTE: Byte := (MODE_SEQUENTIAL as int) % 0x100

  lemma SequentialModeByte()
    ensures SEQUENTIAL_MODE_BYTE == 0x40
    ensures ModeField(SEQUENTIAL_MODE_BYTE) == MODE_SEQUENTIAL_VAL
  {
  }

  /**
   * Number of address bytes a part of the given capacity takes after a READ
   * or WRITE command: 16-bit addressing up to 64 KB, 24-bit above.
   */
  function AddressWidth(capacity: nat): nat {
    if capacity > 0x10000 then 3 else 2
  }

  /**
   * Only the two widths occur; 24-bit addressing is used exactly by the
   * 1024 family, whose top addresses do not fit in 16 bits, and every
   * address of every part fits in the width it is given.
   */
  lemma AddressWidthByFamily(d: Device)
    ensures AddressWidth(Capacity(d)) == 2 || AddressWidth(Capacity(d)) == 3
    ensures AddressWidth(Capacity(d)) == 3 <==> Is1024Family(d)
    ensures Is1024Family(d) ==> Capacity(d) - 1 >= 0x10000
    ensures AddressWidth(Capacity(d)) == 2 ==> Capacity(d) <= 0x10000
    ensures Capacity(d) <= 0x1000000
  {
  }

  /** Big-endian value of a byte string (most significant byte first). */
  function BigEndian(bytes: seq<Byte>): nat {
    if bytes == [] then 0 else BigEndian(bytes[..|bytes| - 1]) * 0x100 + bytes[|bytes| - 1]
  }
}
