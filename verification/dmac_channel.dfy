/**
 Direct channel addressing of the SAMD51 build: a table of 32 per-channel
 register blocks starts at `APB_BASE_ADDRESS + 0x40`, and `channel(id)`
 resolves a channel identifier to a block, panicking for identifiers that are
 not below `NUM_CHANNELS`.

 As written, `channel(id)` calls `offset(id)` on a pointer to the whole
 `[ChannelRegisters; NUM_CHANNELS]` array, which steps one whole table per id
 (`ChannelAsWritten`); the evident intent is one block per id (`Channel`),
 which the rest of the model uses.

 `ChannelRegisters` carries no `#[repr(C)]`, so its size is not fixed by the
 source; the block size is a parameter `size` and every property below holds
 for any size the compiler may pick.
 */
module DmacChannel {
  import opened DmacRegister

  /** Offset of the channel register table from the DMAC base. */
  const CHANNEL_TABLE_OFFSET: nat := 0x40

  /** Bytes taken by the fields of `ChannelRegisters`: `chctrla: u32` and eight `u8` (the reserved byte included). */
  const CHANNEL_FIELD_BYTES: nat := W32.Bytes() + 8 * W8.Bytes()

  /** `ChannelId` is a `u8`. */
  type ChannelId = x: nat | x < 0x100

  /** `CHANNEL_REGISTERS_PTR`: the address of the first channel block. */
  function TableAddress(): nat {
    APB_BASE_ADDRESS + CHANNEL_TABLE_OFFSET
  }

  /**
   A block size the whole 32-entry table can have: no smaller than the fields
   and small enough that the table ends inside the 32-bit address space.
   */
  predicate TableFits(size: nat) {
    CHANNEL_FIELD_BYTES <= size && TableAddress() + NumChannels(Samd51) * size <= ADDRESS_SPACE
  }

  /** The outcome of `channel(id)`: a block address, or the assertion failure. */
  datatype Resolution = Block(address: nat) | Panic

  /** The block `[address, address + size)` lies inside the 32-entry table. */
  predicate InTable(address: nat, size: nat) {
    TableAddress() <= address && address + size <= TableAddress() + NumChannels(Samd51) * size
  }

  /**
   `channel(id)` as written: `offset(id)` on a `*const [ChannelRegisters; 32]`
   advances by `id` times the size of the whole array, so it is the intended
   resolution with a block as large as the table.
   */
  function ChannelAsWritten(id: ChannelId, size: nat): (res: Resolution)
    ensures res == Channel(id, NumChannels(Samd51) * size)
  {
    if id < NumChannels(Samd51) then Block(TableAddress() + id * (NumChannels(Samd51) * size)) else Panic
  }

  /**
   For every non-empty block size, every as-written channel but channel 0
   starts at or past the end of the table, so it does not lie inside the table,
   while the intended block does; channel 1 starts at the first byte past it.
   */
  lemma AsWrittenLeavesTable(id: ChannelId, size: nat)
    requires 0 < id < NumChannels(Samd51) && size > 0
    ensures ChannelAsWritten(id, size).address >= TableAddress() + NumChannels(Samd51) * size
    ensures !InTable(ChannelAsWritten(id, size).address, size)
    ensures InTable(Channel(id, size).address, size)
    ensures ChannelAsWritten(1, size) == Block(TableAddress() + NumChannels(Samd51) * size)
  {
    MulMonotone(1, id, NumChannels(Samd51) * size);
    ChannelInTable(id, size);
  }

  /** `channel(id)` as intended: the `id`-th block of the table, or a panic when `id >= NUM_CHANNELS`. */
  function Channel(id: ChannelId, size: nat): (res: Resolution)
    ensures res.Block? <==> id < NumChannels(Samd51)
    ensures res.Block? ==> TableAddress() <= res.address
  {
    if id < NumChannels(Samd51) then Block(TableAddress() + id * size) else Panic
  }

  /**
   The blocks are laid out back to back: channel 0 is at the table address and
   each further channel is one block size after the previous one.
   */
  lemma ChannelStride(id: ChannelId, size: nat)
    requires id < NumChannels(Samd51)
    ensures id == 0 ==> Channel(id, size) == Block(TableAddress())
    ensures id > 0 ==> Channel(id, size).address == Channel(id - 1, size).address + size
  {
    if id > 0 {
      assert id * size == (id - 1) * size + size;
    }
  }

  /** Every resolved block lies inside the 32-entry table. */
  lemma ChannelInTable(id: ChannelId, size: nat)
    requires id < NumChannels(Samd51)
    ensures InTable(Channel(id, size).address, size)
  {
    MulMonotone(id + 1, NumChannels(Samd51), size);
    assert (id + 1) * size == id * size + size;
  }

  /** Identifier 32 is rejected although the doc comment speaks of ids "higher than" 32. */
  lemma ChannelRejectsBoundary(size: nat)
    ensures Channel(32, size) == Panic
    ensures Channel(31, size).Block?
  {
  }

  /** `a * s <= b * s` for `a <= b`. */
  lemma MulMonotone(a: nat, b: nat, s: nat)
    requires a <= b
    ensures a * s <= b * s
  {
    assert b * s == a * s + (b - a) * s;
  }

  /** Distinct channels resolve to non-overlapping blocks. */
  lemma ChannelsDisjoint(i: ChannelId, j: ChannelId, size: nat)
    requires i < NumChannels(Samd51) && j < NumChannels(Samd51) && i != j
    ensures Disjoint(Channel(i, size).address, size, Channel(j, size).address, size)
  {
    if i < j {
      MulMonotone(i + 1, j, size);
      assert (i + 1) * size == i * size + size;
    } else {
      MulMonotone(j + 1, i, size);
      assert (j + 1) * size == j * size + size;
    }
  }

  /** Distinct channels resolve to distinct addresses when blocks are non-empty. */
  lemma ChannelInjective(i: ChannelId, j: ChannelId, size: nat)
    requires i < NumChannels(Samd51) && j < NumChannels(Samd51) && size > 0
    ensures Channel(i, size) == Channel(j, size) <==> i == j
  {
    if i != j {
      ChannelsDisjoint(i, j, size);
    }
  }

  /** Every resolved block lies inside the 32-bit address space. */
  lemma ChannelInAddressSpace(id: ChannelId, size: nat)
    requires TableFits(size) && id < NumChannels(Samd51)
    ensures Channel(id, size).address + size <= ADDRESS_SPACE
  {
    MulMonotone(id + 1, NumChannels(Samd51), size);
    assert (id + 1) * size == id * size + size;
  }

  /**
   The as-written address space bound: when the last as-written block (31
   tables past the start, plus one block) ends below 2^32, so does every
   as-written block.
   */
  lemma AsWrittenInAddressSpace(id: ChannelId, size: nat)
    requires id < NumChannels(Samd51)
    requires TableAddress() + (NumChannels(Samd51) - 1) * (NumChannels(Samd51) * size) + size <= ADDRESS_SPACE
    ensures ChannelAsWritten(id, size).address + size <= ADDRESS_SPACE
  {
    MulMonotone(id, NumChannels(Samd51) - 1, NumChannels(Samd51) * size);
  }

  /** A channel block overlaps none of the registers the SAMD51 build declares. */
  lemma ChannelApartFromRegisters(id: ChannelId, size: nat, r: Register)
    requires id < NumChannels(Samd51) && Declared(Samd51, r)
    ensures Disjoint(Channel(id, size).address, size, Address(r), r.Width().Bytes())
  {
    CommonRange(r);
  }
}
