# DMAC register layer, DMA descriptor and NISIER field codec

This project models three small, pure parts of the atsamd HAL and PAC.

1. **DMAC registers** (`hal/src/dmac/register.rs`), in `dmac_register.dfy` and `dmac_channel.dfy`.
   - Every DMAC register is a fixed address `APB_BASE_ADDRESS + offset`, with `APB_BASE_ADDRESS = 0x4100_a000`, and a `u8`, `u16` or `u32` item type.
   - Every register handle declared by the two macros is readable. Only the handles declared with `dmac_io_register!` are writable, and only those get `|=` and `&=`. This capability split covers the common handles and the SAMD21 channel set; the SAMD51 per-channel registers are reached through `channel(id)` instead.
   - Hardware memory is a map from byte address to a `bv32` cell bounded by the register's width.
   - The build-time switch between SAMD21 and SAMD51 is a `Variant` parameter. The SAMD21 build adds one shared per-channel register set, selected through CHID, and has `NUM_CHANNELS = 1`.
   - The SAMD51 build has a 32-entry table of channel register blocks at `APB_BASE_ADDRESS + 0x40`. `channel(id)` is meant to resolve to the `id`-th block of that table. As written, it steps one whole table per id (see Findings).
2. **DMA descriptor** (`hal/src/dmac.rs`), in `dmac_descriptor.dfy`. The descriptor has five fixed-width fields, a derived `Default` and `Eq`, and 16-byte alignment wherever it is placed, including in arrays.
3. **NISIER** (`pac/atsamd51j19a/src/sdhc0/nisier.rs`), in `sdhc_nisier.dfy`. This is the SD host controller's normal interrupt signal enable register: 16 bits, with nine one-bit MASKED/ENABLED fields at offsets 0 to 8.
   - One generic `SetField`/`GetField` pair is instantiated with each field's offset.
   - `write`, `modify` and `reset` run a closure's writer calls on the reset value or on the current bits.

Notes on how the model reads the code:
- **`&=`.** `reg &= rhs` stores `read() & rhs`: the operand is ANDed, it is not a mask of bits to clear. The model follows the code. A "clear bits `m`" operation is `&= !m` at the call site.
- **Channel table address.** The channel table starts at `APB_BASE_ADDRESS + 0x40`, not at `APB_BASE_ADDRESS`. The intended block address is `base + 0x40 + id * size`. The code computes `base + 0x40 + id * 32 * size`, because `offset` counts in units of the pointed-to array type. The model keeps both definitions (see Findings).
- **Channel bounds.** `channel(id)` panics for every `id >= 32`, including `id == 32`. Its doc comment speaks of ids "higher than" `NUM_CHANNELS`; the assertion `id < NUM_CHANNELS` is what the model follows.
- **Channel block size.** `ChannelRegisters` has no `#[repr(C)]`, so its size is not fixed by the code. Its fields take 12 bytes. The block size is a parameter, and the channel properties hold for every size.
- **Descriptor size.** The descriptor's fields take 2 + 2 + 4 + 4 + 4 = 16 bytes. `Descriptor` has no `#[repr(C)]`, so Rust promises only a size that is a multiple of 16 and holds the fields. The array properties hold for every such size. 16 is the smallest one, and it is what a compiler that adds no padding produces.

## Model

| member | source | states |
|---|---|---|
| `DmacRegister.LayoutAligned` | hal/src/dmac/register.rs:79-108 | every register ends inside the 32-bit address space, and its offset and address are multiples of its width in bytes |
| `DmacRegister.LayoutDisjoint` | hal/src/dmac/register.rs:79-108 | no two registers declared in the same build (common set, plus the SAMD21 set under SAMD21) overlap |
| `DmacRegister.CommonRange` | hal/src/dmac/register.rs:79-93 | every common register ends at or before offset 0x3c, below the channel table at 0x40 |
| `DmacRegister.AddressInjective` | hal/src/dmac/register.rs:50-52 | two registers of one build share an address exactly when they are the same register |
| `DmacRegister.ReadOnlyRegisters` | hal/src/dmac/register.rs:57-108 | the write capability (`Register.Writable`, given by `dmac_io_register!` and withheld by `dmac_register!`): the registers without it are exactly INTSTATUS, BUSYCH, PENDCH, ACTIVE and CHSTATUS, and CHSTATUS is the only SAMD21-only one |
| `DmacRegister.Address` | hal/src/dmac/register.rs:50-52 | every register handle's address lies inside the DMAC's 0x50-byte window above `APB_BASE_ADDRESS` |
| `DmacRegister.Read` | hal/src/dmac/register.rs:17-19 | a read of a register in a valid memory returns a value bounded by the register's width |
| `DmacRegister.Write` | hal/src/dmac/register.rs:28-30 | a write needs the write capability and a value of the item type; reading the register afterwards returns the value, memory stays valid, and no other address or register changes |
| `DmacRegister.OrAssign` | hal/src/dmac/register.rs:62-66 | after `\|= rhs` every bit of `rhs` is set, every other bit keeps its old value, and no other address changes |
| `DmacRegister.AndAssign` | hal/src/dmac/register.rs:69-73 | after `&= rhs` every bit clear in `rhs` is clear, every bit set in `rhs` keeps its old value, and no other address changes |
| `DmacRegister.OrAssignBits` | hal/src/dmac/register.rs:62-66 | after `\|=` a bit is set exactly when it was set before or is set in `rhs` |
| `DmacRegister.AndAssignBits` | hal/src/dmac/register.rs:69-73 | after `&=` a bit is set exactly when it was set before and is set in `rhs` |
| `DmacRegister.OrAssignIdempotent` | hal/src/dmac/register.rs:62-66 | applying `\|= rhs` twice leaves the same memory as applying it once |
| `DmacRegister.AndAssignIdempotent` | hal/src/dmac/register.rs:69-73 | applying `&= rhs` twice leaves the same memory as applying it once |
| `DmacRegister.ReadOnlyNeverWritten` | hal/src/dmac/register.rs:57-60 | no sequence of type-correct `write`, `\|=` and `&=` calls through the register handles changes a read-only register handle (SAMD51 per-channel registers are outside this, see Left out) |
| `DmacChannel.ChannelAsWritten` | hal/src/dmac/register.rs:157-166 | `channel(id)` as written, with `offset` stepping a whole `[ChannelRegisters; 32]` per id; it equals the intended resolution with a block as large as the whole table |
| `DmacChannel.AsWrittenLeavesTable` | hal/src/dmac/register.rs:157-165 | for every non-empty block size and every channel id from 1 to 31, the as-written block starts at or past the end of the table and lies outside it, while the intended block lies inside; channel 1 starts at the first byte past the table |
| `DmacChannel.AsWrittenInAddressSpace` | hal/src/dmac/register.rs:157-165 | when the last as-written block (31 tables past the start, plus one block) ends below 2^32, every as-written block does |
| `DmacChannel.Channel` | hal/src/dmac/register.rs:160-166 | `channel(id)` as intended yields a block exactly when `id < NUM_CHANNELS` (32) and panics otherwise; a block is never below the table address |
| `DmacChannel.ChannelInTable` | hal/src/dmac/register.rs:157-165 | every intended block lies inside the 32-entry table starting at `APB_BASE_ADDRESS + 0x40` |
| `DmacChannel.ChannelStride` | hal/src/dmac/register.rs:157-165 | for the intended resolution, channel 0 is at `APB_BASE_ADDRESS + 0x40` and each further channel is one block size after the previous one |
| `DmacChannel.ChannelRejectsBoundary` | hal/src/dmac/register.rs:160-164 | id 32 panics and id 31 resolves |
| `DmacChannel.ChannelsDisjoint` | hal/src/dmac/register.rs:127-165 | the blocks of two distinct valid ids do not overlap, for any block size |
| `DmacChannel.ChannelInjective` | hal/src/dmac/register.rs:163-165 | with non-empty blocks, two valid ids resolve to the same block exactly when they are equal |
| `DmacChannel.ChannelInAddressSpace` | hal/src/dmac/register.rs:157-165 | when the 32-entry table fits in the 32-bit address space, every intended block ends below 2^32 |
| `DmacChannel.ChannelApartFromRegisters` | hal/src/dmac/register.rs:77-158 | no channel block overlaps a register declared in the SAMD51 build |
| `DmacDescriptor.Get` | hal/src/dmac.rs:8-23 | `btctrl` and `btcnt` are below 2^16; `srcaddr`, `dstaddr` and `descaddr` are below 2^32 |
| `DmacDescriptor.Set` | hal/src/dmac.rs:8-23 | assigning a public field gives that field the value and leaves the other four unchanged |
| `DmacDescriptor.Default` | hal/src/dmac.rs:6-23 | `Descriptor::default()` reads zero in every field |
| `DmacDescriptor.EqualIffFieldsEqual` | hal/src/dmac.rs:6 | two descriptors are equal exactly when all five fields are equal |
| `DmacDescriptor.SetOwnValue` | hal/src/dmac.rs:8-23 | assigning a field its own value gives back the same descriptor |
| `DmacDescriptor.SetTwice` | hal/src/dmac.rs:8-23 | a second assignment to a field overrides the first |
| `DmacDescriptor.SetCommutes` | hal/src/dmac.rs:8-23 | assignments to different fields commute |
| `DmacDescriptor.SizeIsFields` | hal/src/dmac.rs:7-23 | the fields add up to 16 bytes; 16 is a size the layout rules allow (a multiple of the alignment that holds the fields), and no allowed size is smaller |
| `DmacDescriptor.RoundUp` | hal/src/dmac.rs:7 | a size rounded up to the 16-byte alignment: the smallest multiple of 16 at or above it |
| `DmacDescriptor.ArrayLayout` | hal/src/dmac.rs:7-23 | for every size the layout rules allow, the elements of an array at an aligned base start at the base, are each 16-aligned, are one size apart and have non-overlapping fields |
| `DmacDescriptor.ArrayElementAddress` | hal/src/dmac.rs:7-23 | element `i` of a descriptor array of size `s` at `base` sits at `base + s * i`, and at `base + 16 * i` with the 16-byte size |
| `Nisier.OffsetInjective` | pac/atsamd51j19a/src/sdhc0/nisier.rs:998-1076 | the nine fields have distinct bit offsets |
| `Nisier.FromBit` | pac/atsamd51j19a/src/sdhc0/nisier.rs:75-80 | `_from(value)` gives the enum value whose raw bit is `value` |
| `Nisier.EnableRoundTrip` | pac/atsamd51j19a/src/sdhc0/nisier.rs:54-90 | `_from(bit(e)) == e`, `bit(_from(b)) == b`, `bit_is_clear` is the negation of `bit_is_set`, `bit_is_set` agrees with `is_enabled`, and `is_masked` is the negation of `is_enabled` |
| `Nisier.SetField` | pac/atsamd51j19a/src/sdhc0/nisier.rs:518-524 | after the writer for bit `k` stores `value`, bit `k` reads as `value` |
| `Nisier.SetFieldFrame` | pac/atsamd51j19a/src/sdhc0/nisier.rs:518-524 | the writer for bit `k` leaves every other bit unchanged |
| `Nisier.SetFieldMask` | pac/atsamd51j19a/src/sdhc0/nisier.rs:518-524 | the value before and after the writer agree under the mask of all bits but `k` |
| `Nisier.SetFieldKeepsReserved` | pac/atsamd51j19a/src/sdhc0/nisier.rs:982-987 | a field writer (offset at most 8) never changes bits 9 to 15 |
| `Nisier.SetFieldOwnValue` | pac/atsamd51j19a/src/sdhc0/nisier.rs:518-524 | writing a bit the value it already has changes nothing |
| `Nisier.ReadField` | pac/atsamd51j19a/src/sdhc0/nisier.rs:998-1076 | a field reader (`R::cmdc()` ... `R::cint()`) returns ENABLED exactly when the field's bit is set in the register value |
| `Nisier.GetFieldIsMaskTest` | pac/atsamd51j19a/src/sdhc0/nisier.rs:998-1004 | the readers' shift-and-test `((bits >> OFFSET) & 1) != 0` is the same test as `bits & (1 << OFFSET) != 0` |
| `Nisier.WriteBit` | pac/atsamd51j19a/src/sdhc0/nisier.rs:518-524 | after a field's `bit(value)` the field reads as `value`, every other field reads as before, and bits 9 to 15 are unchanged |
| `Nisier.WriteVariant` | pac/atsamd51j19a/src/sdhc0/nisier.rs:493-498 | after `variant(e)` the field reads as `e`, and every other field reads as before |
| `Nisier.SetBit` | pac/atsamd51j19a/src/sdhc0/nisier.rs:509-511 | after `set_bit()` the field's bit is set, and every other field reads as before |
| `Nisier.ClearBit` | pac/atsamd51j19a/src/sdhc0/nisier.rs:513-515 | after `clear_bit()` the field's bit is clear, and every other field reads as before |
| `Nisier.Enabled` | pac/atsamd51j19a/src/sdhc0/nisier.rs:505-507 | `enabled()` stores the same value as `set_bit()`, and the field reads ENABLED |
| `Nisier.Masked` | pac/atsamd51j19a/src/sdhc0/nisier.rs:500-502 | `masked()` stores the same value as `clear_bit()`, and the field reads MASKED |
| `Nisier.WriteThenRead` | pac/atsamd51j19a/src/sdhc0/nisier.rs:998-1003 | reading field `g` after writing `e` to field `f` gives `e` when `g == f` and the previous value otherwise |
| `Nisier.Apply` | pac/atsamd51j19a/src/sdhc0/nisier.rs:16-20 | a closure that only calls field writers leaves bits 9 to 15 as they were; a closure that ends with `W::bits(b)` stores `b` |
| `Nisier.ApplyPreservesUntouched` | pac/atsamd51j19a/src/sdhc0/nisier.rs:16-20 | a field that no call of the closure touches keeps its value |
| `Nisier.LastFieldWriteWins` | pac/atsamd51j19a/src/sdhc0/nisier.rs:518-524 | a field reads as the value of the last writer call on it, whatever calls on other fields follow that call |
| `Nisier.ApplyAppend` | pac/atsamd51j19a/src/sdhc0/nisier.rs:16-20 | running a closure's calls in two parts, one after the other, gives the same bits as running them all at once |
| `Nisier.Write` | pac/atsamd51j19a/src/sdhc0/nisier.rs:31-38 | a `write` whose closure only calls field writers never sets bits 9 to 15 |
| `Nisier.Reset` | pac/atsamd51j19a/src/sdhc0/nisier.rs:41-43 | `reset()` stores the reset value 0, so every field reads MASKED |
| `Nisier.WriteDefaultsUntouched` | pac/atsamd51j19a/src/sdhc0/nisier.rs:35-37 | a `write` leaves every field its closure does not touch at MASKED, because it starts from the reset value |
| `Nisier.Modify` | pac/atsamd51j19a/src/sdhc0/nisier.rs:12-21 | a `modify` whose closure only calls field writers keeps bits 9 to 15 of the current value |
| `Nisier.ModifyPreservesUntouched` | pac/atsamd51j19a/src/sdhc0/nisier.rs:16-20 | a `modify` keeps every field its closure does not touch, because it starts from the current bits |
| `Nisier.RawBitsStoresExactly` | pac/atsamd51j19a/src/sdhc0/nisier.rs:1086-1089 | `W::bits(b)` stores exactly `b`, whatever came before |

## Findings

| source | as written | input that shows it | evidently intended | confidence | as-written member | corrected member |
|---|---|---|---|---|---|---|
| hal/src/dmac/register.rs:157-165 | `CHANNEL_REGISTERS_PTR` points to `[ChannelRegisters; NUM_CHANNELS]`, so `.offset(id)` advances `id * 32 * size_of::<ChannelRegisters>()` bytes | `id = 1` with a 12-byte block: `0x4100_a040 + 32 * 12 = 0x4100_a1c0`, the first byte past the table; the intended block is at `0x4100_a04c` | the `id`-th block, `APB_BASE_ADDRESS + 0x40 + id * size_of::<ChannelRegisters>()` (for example via a `*const ChannelRegisters` pointer) | high; not executed | `DmacChannel.ChannelAsWritten`, `DmacChannel.AsWrittenLeavesTable` | `DmacChannel.Channel`, `DmacChannel.ChannelInTable`, `DmacChannel.ChannelStride` |

## Left out

- Volatile semantics are not modelled. A register is a plain memory cell, so hardware side effects such as read-to-clear flags and bits the hardware changes on its own are absent.
- `write` is unsynchronized, and under SAMD21 an interrupt can reselect CHID between "select" and "operate". Concurrency is outside the model.
- Selecting a SAMD21 channel is an ordinary `Write` to CHID. The model has no separate operation for it.
- `channel(id)` uses `mem::transmute` and raw-pointer `offset`, and its fields are `VolatileCell`s. Only the resulting address arithmetic is modelled.
- DmacRegister.ReadOnlyNeverWritten: covers only the register handles declared by `dmac_register!` and `dmac_io_register!`. On SAMD51 the per-channel registers reached through `channel(id)` are public `VolatileCell` fields (register.rs:127-153) with no read/write capability. `chstatus` and `chintflag` can be set through them, so the lemma says nothing about those registers.
- The layout of the fields inside a channel block is not modelled, because `ChannelRegisters` has no `#[repr(C)]`. For the same reason the model has no byte-level layout or serialisation of a `Descriptor`.
- The hardware walks descriptor chains and writes descriptors back. No code here implements either, so neither is modelled.
- `#[cfg(feature = "samd51")]` is a build-time switch. It becomes the `Variant` parameter.
- Write operations require `Fits(value, width)`. In the source, the operand's Rust type (`u8`, `u16`, `u32`) guarantees this.
- A `modify` closure is modelled as the sequence of writer calls it makes. Those calls may depend on the `R` value it reads. Closures that do anything other than call writers are not modelled.
- `R::bits()` and the `R`/`W` wrappers are not separate members. A register value is its `bv16` bit pattern.
- The board example programs (`boards/trellis_m4/examples/*.rs`) only call into the HAL and are not modelled.
- DmacChannel.ChannelInAddressSpace: assumes that the whole 32-entry table fits below 2^32. The source does not state this for a block size that it leaves to the compiler.
- Where a descriptor is placed (stack, static or allocator) is decided outside this code. Only its alignment, size and array stride are modelled.
- DmacDescriptor.SizeIsFields: the 16-byte size and stride assume that the compiler lays out the five fields without padding. The default `repr(Rust)` layout does not promise this; `ArrayLayout` and `ArrayElementAddress` therefore take the size as a parameter.
