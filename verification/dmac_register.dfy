/**
 The DMAC register block: every register is a fixed address on the APB bus
 (`APB_BASE_ADDRESS + offset`) with a width of 8, 16 or 32 bits. Every
 register can be read; only the ones declared read-write (`dmac_io_register!`)
 can be written, and only those get the read-modify-write `|=` and `&=`.

 Hardware memory is modelled as a map from byte address to a cell value. A
 cell holds a `bv32` that is bounded by the width of the register at that
 address; volatile side effects (read-to-clear flags) are not modelled.
 */
module DmacRegister {

  /** Base address of the DMAC on the ARM peripheral bus. */
  const APB_BASE_ADDRESS: nat := 0x4100_a000

  /** Size of the 32-bit address space. */
  const ADDRESS_SPACE: nat := 0x1_0000_0000

  /** The Rust item type of a register: `u8`, `u16` or `u32`. */
  datatype Width = W8 | W16 | W32 {

    function Bytes(): (n: nat)
      ensures n == 1 || n == 2 || n == 4
    {
      match this
      case W8 => 1
      case W16 => 2
      case W32 => 4
    }

    /** The bits a value of this width may have set. */
    function Mask(): bv32 {
      match this
      case W8 => 0xff
      case W16 => 0xffff
      case W32 => 0xffff_ffff
    }
  }

  /** `value` is representable in the register's item type. */
  predicate Fits(value: bv32, w: Width) {
    value & !w.Mask() == 0
  }

  /** The build-time choice between the two chip generations. */
  datatype Variant = Samd21 | Samd51

  /** Every register the DMAC declares, common ones first. */
  datatype Register =
    | CTRL | CRCCTRL | CRCDATAIN | CRCCHKSUM | CRCSTATUS | DBGCTRL
    | SWTRIGCTRL | PRICTRL0 | INTPEND | INTSTATUS | BUSYCH | PENDCH
    | ACTIVE | BASEADDR | WRITEADDR
    // SAMD21 only: one shared per-channel register set selected by CHID
    | QOSCTRL | CHID | CHCTRLA | CHCTRLB | CHINTENCLR | CHINTENSET
    | CHINTFLAG | CHSTATUS
  {
    /** Byte offset from `APB_BASE_ADDRESS`. */
    function Offset(): nat {
      match this
      case CTRL => 0x00
      case CRCCTRL => 0x02
      case CRCDATAIN => 0x04
      case CRCCHKSUM => 0x08
      case CRCSTATUS => 0x0c
      case DBGCTRL => 0x0d
      case SWTRIGCTRL => 0x10
      case PRICTRL0 => 0x14
      case INTPEND => 0x20
      case INTSTATUS => 0x24
      case BUSYCH => 0x28
      case PENDCH => 0x2c
      case ACTIVE => 0x30
      case BASEADDR => 0x34
      case WRITEADDR => 0x38
      case QOSCTRL => 0x0e
      case CHID => 0x3f
      case CHCTRLA => 0x40
      case CHCTRLB => 0x44
      case CHINTENCLR => 0x4c
      case CHINTENSET => 0x4d
      case CHINTFLAG => 0x4e
      case CHSTATUS => 0x4f
    }

    function Width(): Width {
      match this
      case CTRL => W16
      case CRCCTRL => W16
      case CRCDATAIN => W32
      case CRCCHKSUM => W32
      case CRCSTATUS => W8
      case DBGCTRL => W8
      case SWTRIGCTRL => W32
      case PRICTRL0 => W32
      case INTPEND => W16
      case INTSTATUS => W32
      case BUSYCH => W32
      case PENDCH => W32
      case ACTIVE => W32
      case BASEADDR => W32
      case WRITEADDR => W32
      case QOSCTRL => W8
      case CHID => W8
      case CHCTRLA => W8
      case CHCTRLB => W32
      case CHINTENCLR => W8
      case CHINTENSET => W8
      case CHINTFLAG => W8
      case CHSTATUS => W8
    }

    /** Declared through `dmac_io_register!`, i.e. it has the write capability. */
    predicate Writable() {
      !(INTSTATUS? || BUSYCH? || PENDCH? || ACTIVE? || CHSTATUS?)
    }

    /** Declared inside the SAMD21-only register set. */
    predicate Samd21Only() {
      QOSCTRL? || CHID? || CHCTRLA? || CHCTRLB? || CHINTENCLR? || CHINTENSET? || CHINTFLAG? || CHSTATUS?
    }
  }

  /** The register exists in the build for variant `v`. */
  predicate Declared(v: Variant, r: Register) {
    !r.Samd21Only() || v == Samd21
  }

  /** `NUM_CHANNELS` of each build. */
  function NumChannels(v: Variant): nat {
    match v
    case Samd21 => 1
    case Samd51 => 32
  }

  /** The fixed address a register handle points at: inside the DMAC's 0x50-byte window. */
  function Address(r: Register): (a: nat)
    ensures APB_BASE_ADDRESS <= a && a + r.Width().Bytes() <= APB_BASE_ADDRESS + 0x50
  {
    APB_BASE_ADDRESS + r.Offset()
  }

  /** The byte ranges `[a, a + n)` and `[b, b + k)` do not overlap. */
  predicate Disjoint(a: nat, n: nat, b: nat, k: nat) {
    a + n <= b || b + k <= a
  }

  /**
   Each register lies inside the 32-bit address space and is naturally
   aligned: its offset is a multiple of its width in bytes.
   */
  lemma LayoutAligned(r: Register)
    ensures Address(r) + r.Width().Bytes() <= ADDRESS_SPACE
    ensures r.Offset() % r.Width().Bytes() == 0
    ensures Address(r) % r.Width().Bytes() == 0
  {
  }

  /** The byte range a register occupies does not overlap that of another. */
  predicate Apart(r1: Register, r2: Register) {
    Disjoint(Address(r1), r1.Width().Bytes(), Address(r2), r2.Width().Bytes())
  }

  /** The registers common to both builds do not overlap each other. */
  lemma CommonApart(r1: Register, r2: Register)
    requires !r1.Samd21Only() && !r2.Samd21Only() && r1 != r2
    ensures Apart(r1, r2)
  {
  }

  /** The common registers all lie below offset 0x3c. */
  lemma CommonRange(r: Register)
    requires !r.Samd21Only()
    ensures Address(r) + r.Width().Bytes() <= APB_BASE_ADDRESS + 0x3c
  {
  }

  /** The SAMD21 per-channel registers (all but QOSCTRL and CHID) lie in `[0x40, 0x50)`. */
  lemma ChannelSetRange(r: Register)
    requires r.Samd21Only() && r != QOSCTRL && r != CHID
    ensures APB_BASE_ADDRESS + 0x40 <= Address(r)
    ensures Address(r) + r.Width().Bytes() <= APB_BASE_ADDRESS + 0x50
  {
  }

  /** The SAMD21 per-channel registers do not overlap each other. */
  lemma ChannelSetApart(r1: Register, r2: Register)
    requires r1.Samd21Only() && r1 != QOSCTRL && r1 != CHID
    requires r2.Samd21Only() && r2 != QOSCTRL && r2 != CHID
    requires r1 != r2
    ensures Apart(r1, r2)
  {
  }

  /** QOSCTRL, which sits between DBGCTRL and SWTRIGCTRL, overlaps no common register. */
  lemma QosApart(r: Register)
    requires !r.Samd21Only()
    ensures Apart(r, QOSCTRL) && Apart(QOSCTRL, r)
  {
  }

  /** The SAMD21-only registers do not overlap each other. */
  lemma Samd21Apart(r1: Register, r2: Register)
    requires r1.Samd21Only() && r2.Samd21Only() && r1 != r2
    ensures Apart(r1, r2)
  {
    var lone1 := r1 == QOSCTRL || r1 == CHID;
    var lone2 := r2 == QOSCTRL || r2 == CHID;
    if !lone1 && !lone2 {
      ChannelSetApart(r1, r2);
    } else if !lone1 {
      ChannelSetRange(r1);
    } else if !lone2 {
      ChannelSetRange(r2);
    }
  }

  /** The SAMD21-only registers do not overlap the common ones. */
  lemma CrossApart(r1: Register, r2: Register)
    requires !r1.Samd21Only() && r2.Samd21Only()
    ensures Apart(r1, r2) && Apart(r2, r1)
  {
    if r2 == QOSCTRL {
      QosApart(r1);
    } else {
      CommonRange(r1);
      if r2 != CHID {
        ChannelSetRange(r2);
      }
    }
  }

  /** No two registers of the same build overlap. */
  lemma LayoutDisjoint(v: Variant, r1: Register, r2: Register)
    requires Declared(v, r1) && Declared(v, r2) && r1 != r2
    ensures Disjoint(Address(r1), r1.Width().Bytes(), Address(r2), r2.Width().Bytes())
  {
    if !r1.Samd21Only() && !r2.Samd21Only() {
      CommonApart(r1, r2);
    } else if r1.Samd21Only() && r2.Samd21Only() {
      Samd21Apart(r1, r2);
    } else if r2.Samd21Only() {
      CrossApart(r1, r2);
    } else {
      CrossApart(r2, r1);
    }
  }

  /** Distinct registers of one build have distinct addresses. */
  lemma AddressInjective(v: Variant, r1: Register, r2: Register)
    requires Declared(v, r1) && Declared(v, r2)
    ensures Address(r1) == Address(r2) <==> r1 == r2
  {
    if r1 != r2 {
      LayoutDisjoint(v, r1, r2);
    }
  }

  /** Every other register of the build sits at a different address. */
  lemma OtherAddresses(v: Variant, r: Register)
    ensures forall r' :: Declared(v, r') && r' != r ==> Address(r') != Address(r)
  {
    forall r' | Declared(v, r') && r' != r
      ensures Address(r') != Address(r)
    {
      if Declared(v, r) {
        LayoutDisjoint(v, r', r);
      }
    }
  }

  /** The read-only registers are exactly the five status registers. */
  lemma ReadOnlyRegisters(r: Register)
    ensures !r.Writable() <==> r in {INTSTATUS, BUSYCH, PENDCH, ACTIVE, CHSTATUS}
    ensures !r.Writable() && r.Samd21Only() <==> r == CHSTATUS
  {
  }

  /** Register memory: one cell per byte address. */
  type Memory = map<nat, bv32>

  /** Every register of the build has a cell, and the cell fits its width. */
  predicate Valid(v: Variant, m: Memory) {
    forall r :: Declared(v, r) ==> Address(r) in m && Fits(m[Address(r)], r.Width())
  }

  /** `ReadableRegister::read`: a single load of the register's cell. */
  function Read(v: Variant, m: Memory, r: Register): (value: bv32)
    requires Valid(v, m) && Declared(v, r)
    ensures Fits(value, r.Width())
  {
    m[Address(r)]
  }

  /**
   `WritableRegister::write`: a single store to the register's cell. Only a
   writable register of the build can be written, with a value of its item type.
   */
  function Write(v: Variant, m: Memory, r: Register, value: bv32): (m': Memory)
    requires Valid(v, m) && Declared(v, r) && r.Writable() && Fits(value, r.Width())
    ensures Valid(v, m') && m'.Keys == m.Keys
    ensures Read(v, m', r) == value
    ensures forall a :: a in m && a != Address(r) ==> m'[a] == m[a]
    ensures forall r' :: Declared(v, r') && r' != r ==> Read(v, m', r') == Read(v, m, r')
  {
    OtherAddresses(v, r);
    m[Address(r) := value]
  }

  /** OR of two values of one width stays within that width. */
  lemma FitsOr(a: bv32, b: bv32, w: Width)
    requires Fits(a, w) && Fits(b, w)
    ensures Fits(a | b, w)
  {
  }

  /** AND with a value of the width stays within that width. */
  lemma FitsAnd(a: bv32, b: bv32, w: Width)
    requires Fits(b, w)
    ensures Fits(a & b, w)
  {
  }

  /** `after` has every bit of `mask` set and agrees with `before` on the other bits. */
  predicate SetsBits(before: bv32, after: bv32, mask: bv32) {
    after & mask == mask && after & !mask == before & !mask
  }

  /** `after` has every bit outside `mask` clear and agrees with `before` on the bits of `mask`. */
  predicate KeepsBits(before: bv32, after: bv32, mask: bv32) {
    after & !mask == 0 && after & mask == before & mask
  }

  /** ORing `b` in sets every bit of `b` and keeps every other bit. */
  lemma OrFacts(a: bv32, b: bv32)
    ensures SetsBits(a, a | b, b)
  {
    assert (a | b) & b == b;
    assert (a | b) & !b == a & !b;
  }

  /** ANDing with `b` clears every bit clear in `b` and keeps every bit set in `b`. */
  lemma AndFacts(a: bv32, b: bv32)
    ensures KeepsBits(a, a & b, b)
  {
    assert (a & b) & !b == 0;
    assert (a & b) & b == a & b;
  }

  /** Setting the same bits again changes nothing. */
  lemma SetsBitsTwice(a: bv32, b: bv32, c: bv32, mask: bv32)
    requires SetsBits(a, b, mask) && SetsBits(b, c, mask)
    ensures c == b
  {
  }

  /** Keeping the same bits again changes nothing. */
  lemma KeepsBitsTwice(a: bv32, b: bv32, c: bv32, mask: bv32)
    requires KeepsBits(a, b, mask) && KeepsBits(b, c, mask)
    ensures c == b
  {
  }

  /** `reg |= rhs`: stores `read() | rhs`. */
  function OrAssign(v: Variant, m: Memory, r: Register, rhs: bv32): (m': Memory)
    requires Valid(v, m) && Declared(v, r) && r.Writable() && Fits(rhs, r.Width())
    ensures Valid(v, m') && m'.Keys == m.Keys
    ensures SetsBits(Read(v, m, r), Read(v, m', r), rhs)
    ensures forall a :: a in m && a != Address(r) ==> m'[a] == m[a]
  {
    var cur := Read(v, m, r);
    FitsOr(cur, rhs, r.Width());
    OrFacts(cur, rhs);
    Write(v, m, r, cur | rhs)
  }

  /** `reg &= rhs`: stores `read() & rhs` (the operand is ANDed, not a clear-mask). */
  function AndAssign(v: Variant, m: Memory, r: Register, rhs: bv32): (m': Memory)
    requires Valid(v, m) && Declared(v, r) && r.Writable() && Fits(rhs, r.Width())
    ensures Valid(v, m') && m'.Keys == m.Keys
    ensures KeepsBits(Read(v, m, r), Read(v, m', r), rhs)
    ensures forall a :: a in m && a != Address(r) ==> m'[a] == m[a]
  {
    var cur := Read(v, m, r);
    FitsAnd(cur, rhs, r.Width());
    AndFacts(cur, rhs);
    Write(v, m, r, cur & rhs)
  }

  /** Bit `i` of a register value. */
  predicate Bit(x: bv32, i: bv32)
    requires i < 32
  {
    (x >> i) & 1 == 1
  }

  /** Bitwise reading of `SetsBits`. */
  lemma SetsBitsBit(a: bv32, b: bv32, mask: bv32, i: bv32)
    requires SetsBits(a, b, mask) && i < 32
    ensures Bit(b, i) <==> Bit(a, i) || Bit(mask, i)
  {
  }

  /** Bitwise reading of `KeepsBits`. */
  lemma KeepsBitsBit(a: bv32, b: bv32, mask: bv32, i: bv32)
    requires KeepsBits(a, b, mask) && i < 32
    ensures Bit(b, i) <==> Bit(a, i) && Bit(mask, i)
  {
  }

  /** After `|=`, a bit is set exactly when it was set before or is set in `rhs`. */
  lemma OrAssignBits(v: Variant, m: Memory, r: Register, rhs: bv32, i: bv32)
    requires Valid(v, m) && Declared(v, r) && r.Writable() && Fits(rhs, r.Width())
    requires i < 32
    ensures Bit(Read(v, OrAssign(v, m, r, rhs), r), i) <==> Bit(Read(v, m, r), i) || Bit(rhs, i)
  {
    SetsBitsBit(Read(v, m, r), Read(v, OrAssign(v, m, r, rhs), r), rhs, i);
  }

  /** After `&=`, a bit is set exactly when it was set before and is set in `rhs`. */
  lemma AndAssignBits(v: Variant, m: Memory, r: Register, rhs: bv32, i: bv32)
    requires Valid(v, m) && Declared(v, r) && r.Writable() && Fits(rhs, r.Width())
    requires i < 32
    ensures Bit(Read(v, AndAssign(v, m, r, rhs), r), i) <==> Bit(Read(v, m, r), i) && Bit(rhs, i)
  {
    KeepsBitsBit(Read(v, m, r), Read(v, AndAssign(v, m, r, rhs), r), rhs, i);
  }

  /** Applying `&= rhs` twice leaves memory as applying it once. */
  lemma AndAssignIdempotent(v: Variant, m: Memory, r: Register, rhs: bv32)
    requires Valid(v, m) && Declared(v, r) && r.Writable() && Fits(rhs, r.Width())
    ensures AndAssign(v, AndAssign(v, m, r, rhs), r, rhs) == AndAssign(v, m, r, rhs)
  {
    var m1 := AndAssign(v, m, r, rhs);
    var m2 := AndAssign(v, m1, r, rhs);
    KeepsBitsTwice(Read(v, m, r), Read(v, m1, r), Read(v, m2, r), rhs);
    assert m2.Keys == m1.Keys;
    forall a | a in m2
      ensures m2[a] == m1[a]
    {
    }
  }

  /** Applying `|= rhs` twice leaves memory as applying it once. */
  lemma OrAssignIdempotent(v: Variant, m: Memory, r: Register, rhs: bv32)
    requires Valid(v, m) && Declared(v, r) && r.Writable() && Fits(rhs, r.Width())
    ensures OrAssign(v, OrAssign(v, m, r, rhs), r, rhs) == OrAssign(v, m, r, rhs)
  {
    var m1 := OrAssign(v, m, r, rhs);
    var m2 := OrAssign(v, m1, r, rhs);
    SetsBitsTwice(Read(v, m, r), Read(v, m1, r), Read(v, m2, r), rhs);
    assert m2.Keys == m1.Keys;
    forall a | a in m2
      ensures m2[a] == m1[a]
    {
    }
  }

  /** A store through one of the three write-capable operations. */
  datatype Access =
    | Store(reg: Register, value: bv32)
    | SetBits(reg: Register, value: bv32)
    | AndBits(reg: Register, value: bv32)

  /** The access type-checks: the register exists, is writable, and the operand fits. */
  predicate WellTyped(v: Variant, a: Access) {
    Declared(v, a.reg) && a.reg.Writable() && Fits(a.value, a.reg.Width())
  }

  /** One well-typed store. */
  function Step(v: Variant, m: Memory, a: Access): (m': Memory)
    requires Valid(v, m) && WellTyped(v, a)
    ensures Valid(v, m') && m'.Keys == m.Keys
    ensures forall a' :: a' in m && a' != Address(a.reg) ==> m'[a'] == m[a']
  {
    match a
    case Store(r, x) => Write(v, m, r, x)
    case SetBits(r, x) => OrAssign(v, m, r, x)
    case AndBits(r, x) => AndAssign(v, m, r, x)
  }

  /** Firmware issuing a sequence of register stores. */
  function Run(v: Variant, m: Memory, prog: seq<Access>): (m': Memory)
    requires Valid(v, m)
    requires forall i :: 0 <= i < |prog| ==> WellTyped(v, prog[i])
    ensures Valid(v, m') && m'.Keys == m.Keys
    decreases |prog|
  {
    if prog == [] then m else Run(v, Step(v, m, prog[0]), prog[1..])
  }

  /**
   The capability boundary of the macro-declared register handles: no
   sequence of well-typed stores through them can change a read-only
   register (INTSTATUS, BUSYCH, PENDCH, ACTIVE, CHSTATUS). The SAMD51
   per-channel registers reached through `channel(id)` are not handles and
   have no such boundary.
   */
  lemma {:induction false} ReadOnlyNeverWritten(v: Variant, m: Memory, prog: seq<Access>, r: Register)
    requires Valid(v, m)
    requires forall i :: 0 <= i < |prog| ==> WellTyped(v, prog[i])
    requires Declared(v, r) && !r.Writable()
    ensures Read(v, Run(v, m, prog), r) == Read(v, m, r)
    decreases |prog|
  {
    if prog != [] {
      var a := prog[0];
      AddressInjective(v, a.reg, r);
      var m1 := Step(v, m, a);
      assert Read(v, m1, r) == Read(v, m, r);
      ReadOnlyNeverWritten(v, m1, prog[1..], r);
    }
  }
}
