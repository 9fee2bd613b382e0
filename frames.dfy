/**
 * Frames of the AS5050 serial register protocol: 16-bit words, the even
 * parity bit in bit 0, and the command and data frames the driver builds.
 *
 * `unsigned int` is 16 bits wide on the AVR targets of the driver, so a
 * word is a `bv16` and every shift truncates the bits it pushes out.
 */
module Frames {

  type Word = bv16

  // Direction bit (MSB) of a command frame.
  const AS_READ: Word := 0x8000
  const AS_WRITE: Word := 0x0000

  // Bits of a response frame: parity, error flag, alarm low, alarm high.
  const RES_PARITY: Word := 0x0001
  const RES_ERROR_FLAG: Word := 0x0002
  const RES_ALARM_LOW: Word := 0x2000
  const RES_ALARM_HIGH: Word := 0x4000

  // 14-bit register addresses used by the driver (the chip's register map).
  const REG_NOP: Word := 0x0000
  const REG_ANGLE: Word := 0x3FFF
  const REG_GAIN_CONTROL: Word := 0x3FF8
  const REG_ERROR_STATUS: Word := 0x335A
  const REG_CLEAR_ERROR: Word := 0x3380
  const REG_SOFTWARE_RESET: Word := 0x3C00
  const REG_MASTER_RESET: Word := 0x33A5

  // Data word written to the software-reset register.
  const DATA_SWRESET_SPI: Word := 0x0001

  /** XOR of the lowest `n` bits of `w`: true when an odd number of them are set. */
  function ParityLow(w: Word, n: nat): bool
    requires n <= 16
    decreases n
  {
    if n == 0 then false else (w & 1 == 1) != ParityLow(w >> 1, n - 1)
  }

  /** `__builtin_parity` on a 16-bit word: XOR of all its bits. */
  function Parity(w: Word): bool
  {
    ParityLow(w, 16)
  }

  /** A C truth value as a word: 1 or 0. */
  function Bit(b: bool): (r: Word)
    ensures r == 0 || r == 1
    ensures b <==> r == 1
  {
    if b then 1 else 0
  }

  /** `w |= __builtin_parity(w)`: fills the parity bit of a frame whose bit 0 is clear. */
  function WithParity(w: Word): (f: Word)
    ensures w & RES_PARITY == 0 ==> f & !RES_PARITY == w && !Parity(f)
  {
    var p := Bit(Parity(w));
    if w & RES_PARITY == 0 then
      WithParityEven(w, p, w | p);
      w | p
    else
      w | p
  }

  /** `read` line 105-106: `(reg << 1) | AS_READ`, then the parity bit. */
  function ReadCommand(reg: Word): (f: Word)
    ensures f & !RES_PARITY == (reg << 1) | AS_READ && !Parity(f)
  {
    WithParity((reg << 1) | AS_READ)
  }

  /** `write` line 125-126: `(reg << 1) | AS_WRITE`, then the parity bit. */
  function WriteCommand(reg: Word): (f: Word)
    ensures f & !RES_PARITY == (reg << 1) | AS_WRITE && !Parity(f)
  {
    WithParity((reg << 1) | AS_WRITE)
  }

  /** `write` line 129-130: `data << 2` (bit 1 don't-care, bit 0 parity), then the parity bit. */
  function DataFrame(data: Word): (f: Word)
    ensures f & !RES_PARITY == data << 2 && !Parity(f)
  {
    WithParity(data << 2)
  }

  /** The validation of a response: the parity of the other 15 bits differs from bit 0. */
  function ParityFault(w: Word): bool
  {
    Bit(Parity(w & !RES_PARITY)) != w & RES_PARITY
  }

  // ---------------------------------------------------------------------
  // Parity is linear over XOR. The induction is split so that each proof
  // obligation holds either the bit-vector step or the recursion, not both.
  // ---------------------------------------------------------------------

  predicate XorLaw(a: Word, b: Word, n: nat)
    requires n <= 16
  {
    ParityLow(a ^ b, n) == (ParityLow(a, n) != ParityLow(b, n))
  }

  lemma XorLawStepBits(a: Word, b: Word, n: nat)
    requires 0 < n <= 16
    requires ParityLow((a >> 1) ^ (b >> 1), n - 1) == (ParityLow(a >> 1, n - 1) != ParityLow(b >> 1, n - 1))
    ensures ParityLow(a ^ b, n) == (ParityLow(a, n) != ParityLow(b, n))
  {
    assert (a ^ b) >> 1 == (a >> 1) ^ (b >> 1);
  }

  lemma XorLawStep(a: Word, b: Word, n: nat)
    requires 0 < n <= 16
    requires XorLaw(a >> 1, b >> 1, n - 1)
    ensures XorLaw(a, b, n)
  {
    XorLawStepBits(a, b, n);
  }

  lemma {:induction false} ParityLowXor(a: Word, b: Word, n: nat)
    requires n <= 16
    ensures XorLaw(a, b, n)
  {
    if n > 0 {
      ParityLowXor(a >> 1, b >> 1, n - 1);
      XorLawStep(a, b, n);
    }
  }

  /** The parity of `a ^ b` is the XOR of the parities of `a` and `b`. */
  lemma ParityXor(a: Word, b: Word)
    ensures Parity(a ^ b) == (Parity(a) != Parity(b))
  {
    ParityLowXor(a, b, 16);
  }

  /** The zero word has even parity, the word 1 odd parity. */
  lemma {:induction false} ParityLowOfZeroAndOne(n: nat)
    requires n <= 16
    ensures !ParityLow(0, n)
    ensures n > 0 ==> ParityLow(1, n)
  {
    if n > 0 {
      ParityLowOfZeroAndOne(n - 1);
      assert (0 as Word) >> 1 == 0 && (1 as Word) >> 1 == 0;
    }
  }

  /** The response check reports a fault exactly on words of odd overall parity. */
  lemma ParityFaultIsOddParity(w: Word)
    ensures ParityFault(w) <==> Parity(w)
  {
    var lo, hi := w & RES_PARITY, w & !RES_PARITY;
    SplitParityBit(w, lo, hi);
    ParityXor(w, lo);
    ParityLowOfZeroAndOne(16);
  }

  lemma SplitParityBit(w: Word, lo: Word, hi: Word)
    requires lo == w & RES_PARITY && hi == w & !RES_PARITY
    ensures hi == w ^ lo
    ensures lo == 0 || lo == 1
  {
  }

  /** Setting the parity bit of a word whose bit 0 is clear to its parity gives even parity. */
  lemma WithParityEven(w: Word, p: Word, f: Word)
    requires w & RES_PARITY == 0
    requires p == Bit(Parity(w))
    requires f == w | p
    ensures !Parity(f)
    ensures f & !RES_PARITY == w
  {
    WithParityBits(w, p, f);
    ParityXor(w, p);
    ParityLowOfZeroAndOne(16);
  }

  lemma WithParityBits(w: Word, p: Word, f: Word)
    requires w & RES_PARITY == 0
    requires p == 0 || p == 1
    requires f == w | p
    ensures f == w ^ p
    ensures f & !RES_PARITY == w
  {
    OrIsXor(w, p, f);
    OrClears(w, p, f);
  }

  lemma OrIsXor(w: Word, p: Word, f: Word)
    requires w & RES_PARITY == 0
    requires p == 0 || p == 1
    requires f == w | p
    ensures f == w ^ p
  {
  }

  lemma OrClears(w: Word, p: Word, f: Word)
    requires w & RES_PARITY == 0
    requires p == 0 || p == 1
    requires f == w | p
    ensures f & !RES_PARITY == w
  {
  }

  /**
   * Every frame the driver builds has even parity over all 16 bits, so the
   * receive-side check reports no fault on it.
   */
  lemma FramesHaveEvenParity(reg: Word, data: Word)
    ensures !Parity(ReadCommand(reg)) && !ParityFault(ReadCommand(reg))
    ensures !Parity(WriteCommand(reg)) && !ParityFault(WriteCommand(reg))
    ensures !Parity(DataFrame(data)) && !ParityFault(DataFrame(data))
    ensures !Parity(REG_NOP) && !ParityFault(REG_NOP)
  {
    ParityFaultIsOddParity(ReadCommand(reg));
    ParityFaultIsOddParity(WriteCommand(reg));
    ParityFaultIsOddParity(DataFrame(data));
    ParityFaultIsOddParity(REG_NOP);
    ParityLowOfZeroAndOne(16);
  }

  /** A read command carries the 14-bit address in bits 14..1 and the read direction bit. */
  lemma ReadCommandPayload(reg: Word)
    ensures (ReadCommand(reg) >> 1) & 0x3FFF == reg & 0x3FFF
    ensures ReadCommand(reg) & 0x8000 == AS_READ
  {
    CommandBits(reg, ReadCommand(reg), AS_READ);
  }

  /** A write command carries the 14-bit address in bits 14..1 and, for a 14-bit address, the write direction bit. */
  lemma WriteCommandPayload(reg: Word)
    ensures (WriteCommand(reg) >> 1) & 0x3FFF == reg & 0x3FFF
    ensures reg < 0x4000 ==> WriteCommand(reg) & 0x8000 == AS_WRITE
  {
    CommandBits(reg, WriteCommand(reg), AS_WRITE);
  }

  /** A data frame carries the low 14 bits of the data in bits 15..2 and keeps bit 1 clear. */
  lemma DataFramePayload(data: Word)
    ensures DataFrame(data) >> 2 == data & 0x3FFF
    ensures DataFrame(data) & RES_ERROR_FLAG == 0
  {
    DataBits(data, DataFrame(data));
  }

  lemma CommandBits(reg: Word, f: Word, dir: Word)
    requires dir == AS_READ || dir == AS_WRITE
    requires f & !RES_PARITY == (reg << 1) | dir
    ensures (f >> 1) & 0x3FFF == reg & 0x3FFF
    ensures f & 0x8000 == (if dir == AS_READ then AS_READ else (reg << 1) & 0x8000)
    ensures reg < 0x4000 ==> f & 0x8000 == dir
  {
  }

  lemma DataBits(data: Word, f: Word)
    requires f & !RES_PARITY == data << 2
    ensures f >> 2 == data & 0x3FFF
    ensures f & RES_ERROR_FLAG == 0
  {
  }

  /**
   * What the parity check catches: a frame sent with even parity that
   * arrives XOR-ed with a corruption pattern `e` fails the check exactly
   * when `e` flips an odd number of bits, in particular for every single-bit
   * error.
   */
  lemma CorruptionDetected(w: Word, e: Word)
    requires !Parity(w)
    ensures ParityFault(w ^ e) <==> Parity(e)
  {
    ParityXor(w, e);
    ParityFaultIsOddParity(w ^ e);
  }
}
