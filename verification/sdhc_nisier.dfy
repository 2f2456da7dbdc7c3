/**
 The SDHC normal interrupt signal enable register (NISIER): a 16-bit register
 with nine one-bit fields at bit offsets 0 to 8, each with the two values
 MASKED and ENABLED.

 Every field has the same generated code: a writer that clears its bit and
 then ORs in the new value, a reader that shifts and masks it out, and a
 two-valued enum converted to and from `bool`. The model has one generic
 `SetField`/`GetField` pair and instantiates it with each field's offset.
 A register value is a `bv16`; `R` and `W` are both plain bit patterns.
 */
module Nisier {

  /** `W::reset_value()`. */
  const RESET_VALUE: bv16 := 0

  /** Bits 9 to 15, which no field covers. */
  const RESERVED: bv16 := 0xfe00

  /** The nine fields, in bit order. */
  datatype FieldId = CMDC | TRFC | BLKGE | DMAINT | BWRRDY | BRDRDY | CINS | CREM | CINT {

    /** The field's `OFFSET` constant. */
    function Offset(): (k: bv16)
      ensures k < 9
    {
      match this
      case CMDC => 0
      case TRFC => 1
      case BLKGE => 2
      case DMAINT => 3
      case BWRRDY => 4
      case BRDRDY => 5
      case CINS => 6
      case CREM => 7
      case CINT => 8
    }
  }

  /** Each field sits at its own bit. */
  lemma OffsetInjective(f: FieldId, g: FieldId)
    ensures f.Offset() == g.Offset() <==> f == g
  {
  }

  /** The value set of every field (`CMDCR`, `CMDCW`, ... all have this shape). */
  datatype Enable = MASKED | ENABLED {

    /** `bit()` / `_bits()`: the raw field value. */
    function Bit(): bool {
      match this
      case MASKED => false
      case ENABLED => true
    }

    /** `bit_is_set()`. */
    predicate BitIsSet() {
      Bit()
    }

    /** `bit_is_clear()`. */
    predicate BitIsClear() {
      !Bit()
    }

    /** `is_masked()`. */
    predicate IsMasked() {
      this == MASKED
    }

    /** `is_enabled()`. */
    predicate IsEnabled() {
      this == ENABLED
    }
  }

  /** `_from(value)`: the enum value whose raw bit is `value`. */
  function FromBit(value: bool): (e: Enable)
    ensures e.Bit() == value
  {
    if value then ENABLED else MASKED
  }

  /** `_from` and `bit` are inverse, and `bit_is_clear` negates `bit_is_set`. */
  lemma EnableRoundTrip(e: Enable, b: bool)
    ensures FromBit(e.Bit()) == e
    ensures FromBit(b).Bit() == b
    ensures e.BitIsClear() <==> !e.BitIsSet()
    ensures e.BitIsSet() <==> e.IsEnabled()
    ensures e.IsMasked() <==> !e.IsEnabled()
  {
  }

  /** The reader: `((bits >> k) & 1) != 0`. */
  predicate GetField(bits: bv16, k: bv16)
    requires k < 16
  {
    (bits >> k) & 1 != 0
  }

  /** `(MASK as u16) << OFFSET`: the one bit a field covers. */
  function BitMask(k: bv16): bv16
    requires k < 16
  {
    1 << k
  }

  /**
   The writer: clear bit `k`, then OR in `value` at bit `k`
   (`((value & MASK) as u16) << OFFSET` is the mask when `value` holds and 0 otherwise).
   */
  function SetField(bits: bv16, k: bv16, value: bool): (r: bv16)
    requires k < 16
    ensures GetField(r, k) == value
  {
    (bits & !BitMask(k)) | (if value then BitMask(k) else 0)
  }

  /** Writing bit `k` leaves every other bit as it was. */
  lemma SetFieldFrame(bits: bv16, k: bv16, value: bool, j: bv16)
    requires k < 16 && j < 16 && j != k
    ensures GetField(SetField(bits, k, value), j) == GetField(bits, j)
  {
    if value {
      SetOneFrame(bits, k, j);
    } else {
      ClearOneFrame(bits, k, j);
    }
  }

  /** Setting bit `k` (the writer's store for `true`) leaves every other bit as it was. */
  lemma SetOneFrame(bits: bv16, k: bv16, j: bv16)
    requires k < 16 && j < 16 && j != k
    ensures GetField((bits & !BitMask(k)) | BitMask(k), j) == GetField(bits, j)
  {
  }

  /** Clearing bit `k` (the writer's store for `false`) leaves every other bit as it was. */
  lemma ClearOneFrame(bits: bv16, k: bv16, j: bv16)
    requires k < 16 && j < 16 && j != k
    ensures GetField((bits & !BitMask(k)) | 0, j) == GetField(bits, j)
  {
  }

  /** The same frame, as one mask: only bit `k` may differ. */
  lemma SetFieldMask(bits: bv16, k: bv16, value: bool)
    requires k < 16
    ensures SetField(bits, k, value) & !BitMask(k) == bits & !BitMask(k)
  {
  }

  /** Writing a field leaves the bits the fields do not cover as they were. */
  lemma SetFieldKeepsReserved(bits: bv16, k: bv16, value: bool)
    requires k < 9
    ensures SetField(bits, k, value) & RESERVED == bits & RESERVED
  {
    if value {
      SetOneKeepsReserved(bits, k);
    } else {
      ClearOneKeepsReserved(bits, k);
    }
  }

  /** Setting a bit below 9 leaves bits 9 to 15 as they were. */
  lemma SetOneKeepsReserved(bits: bv16, k: bv16)
    requires k < 9
    ensures ((bits & !BitMask(k)) | BitMask(k)) & RESERVED == bits & RESERVED
  {
  }

  /** Clearing a bit below 9 leaves bits 9 to 15 as they were. */
  lemma ClearOneKeepsReserved(bits: bv16, k: bv16)
    requires k < 9
    ensures ((bits & !BitMask(k)) | 0) & RESERVED == bits & RESERVED
  {
  }

  /** Writing the value a field already has changes nothing. */
  lemma SetFieldOwnValue(bits: bv16, k: bv16)
    requires k < 16
    ensures SetField(bits, k, GetField(bits, k)) == bits
  {
  }

  /** `R::cmdc()`, `R::trfc()`, ...: a field reads as ENABLED exactly when its bit is set. */
  function ReadField(bits: bv16, f: FieldId): (e: Enable)
    ensures e.IsEnabled() <==> bits & BitMask(f.Offset()) != 0
  {
    GetFieldIsMaskTest(bits, f.Offset());
    FromBit(GetField(bits, f.Offset()))
  }

  /** Shifting bit `k` down and testing it is testing it under its mask. */
  lemma GetFieldIsMaskTest(bits: bv16, k: bv16)
    requires k < 16
    ensures GetField(bits, k) <==> bits & BitMask(k) != 0
  {
  }

  /** `_XXXW::bit(value)`: the field takes `value`, every other field keeps its value. */
  function WriteBit(w: bv16, f: FieldId, value: bool): (w': bv16)
    ensures ReadField(w', f).Bit() == value
    ensures forall g :: g != f ==> ReadField(w', g) == ReadField(w, g)
    ensures w' & RESERVED == w & RESERVED
  {
    forall g | g != f
      ensures ReadField(SetField(w, f.Offset(), value), g) == ReadField(w, g)
    {
      OffsetInjective(f, g);
      SetFieldFrame(w, f.Offset(), value, g.Offset());
    }
    SetFieldKeepsReserved(w, f.Offset(), value);
    SetField(w, f.Offset(), value)
  }

  /** `_XXXW::variant(e)`: writes the raw bit of `e`. */
  function WriteVariant(w: bv16, f: FieldId, e: Enable): (w': bv16)
    ensures ReadField(w', f) == e
    ensures forall g :: g != f ==> ReadField(w', g) == ReadField(w, g)
  {
    WriteBit(w, f, e.Bit())
  }

  /** `_XXXW::set_bit()`. */
  function SetBit(w: bv16, f: FieldId): (w': bv16)
    ensures ReadField(w', f).BitIsSet()
    ensures forall g :: g != f ==> ReadField(w', g) == ReadField(w, g)
  {
    WriteBit(w, f, true)
  }

  /** `_XXXW::clear_bit()`. */
  function ClearBit(w: bv16, f: FieldId): (w': bv16)
    ensures ReadField(w', f).BitIsClear()
    ensures forall g :: g != f ==> ReadField(w', g) == ReadField(w, g)
  {
    WriteBit(w, f, false)
  }

  /** `_XXXW::enabled()`: the same store as `set_bit()`. */
  function Enabled(w: bv16, f: FieldId): (w': bv16)
    ensures w' == SetBit(w, f)
    ensures ReadField(w', f) == ENABLED
  {
    WriteVariant(w, f, ENABLED)
  }

  /** `_XXXW::masked()`: the same store as `clear_bit()`. */
  function Masked(w: bv16, f: FieldId): (w': bv16)
    ensures w' == ClearBit(w, f)
    ensures ReadField(w', f) == MASKED
  {
    WriteVariant(w, f, MASKED)
  }

  /** Writing a field and reading it back returns what was written; other fields read as before. */
  lemma WriteThenRead(w: bv16, f: FieldId, e: Enable, g: FieldId)
    ensures ReadField(WriteVariant(w, f, e), g) == if g == f then e else ReadField(w, g)
  {
  }

  /**
   One call a `write`/`modify` closure makes on `W`: a field writer (`bit`,
   `variant`, `set_bit`, `clear_bit`, `masked`, `enabled` all store one bit)
   or the raw `W::bits(b)`.
   */
  datatype WriterCall = FieldBit(field: FieldId, value: bool) | RawBits(bits: bv16)

  /** The closure only uses field writers. */
  predicate FieldWritesOnly(calls: seq<WriterCall>) {
    forall i :: 0 <= i < |calls| ==> calls[i].FieldBit?
  }

  /** The closure never touches field `g`, neither through its writer nor through `W::bits`. */
  predicate Untouched(calls: seq<WriterCall>, g: FieldId) {
    forall i :: 0 <= i < |calls| ==> calls[i].FieldBit? && calls[i].field != g
  }

  /** Running a closure's calls on `w`, in order. */
  function Apply(w: bv16, calls: seq<WriterCall>): (w': bv16)
    ensures FieldWritesOnly(calls) ==> w' & RESERVED == w & RESERVED
    ensures |calls| > 0 && calls[|calls| - 1].RawBits? ==> w' == calls[|calls| - 1].bits
    decreases |calls|
  {
    if calls == [] then w
    else
      var last := calls[|calls| - 1];
      var w0 := Apply(w, calls[..|calls| - 1]);
      assert FieldWritesOnly(calls) ==> FieldWritesOnly(calls[..|calls| - 1]);
      match last
      case FieldBit(f, value) => WriteBit(w0, f, value)
      case RawBits(b) => b
  }

  /** Fields a closure does not touch keep their value through it. */
  lemma {:induction false} ApplyPreservesUntouched(w: bv16, calls: seq<WriterCall>, g: FieldId)
    requires Untouched(calls, g)
    ensures ReadField(Apply(w, calls), g) == ReadField(w, g)
    decreases |calls|
  {
    if calls != [] {
      var front := calls[..|calls| - 1];
      assert Untouched(front, g);
      ApplyPreservesUntouched(w, front, g);
    }
  }

  /** Running two call sequences one after the other is running their concatenation. */
  lemma {:induction false} ApplyAppend(w: bv16, a: seq<WriterCall>, b: seq<WriterCall>)
    ensures Apply(w, a + b) == Apply(Apply(w, a), b)
    decreases |b|
  {
    if b == [] {
      assert a + b == a;
    } else {
      assert (a + b)[..|a + b| - 1] == a + b[..|b| - 1];
      assert (a + b)[|a + b| - 1] == b[|b| - 1];
      ApplyAppend(w, a, b[..|b| - 1]);
    }
  }

  /**
   A field reads as the value of the last writer call on it, whatever calls
   on other fields follow.
   */
  lemma LastFieldWriteWins(w: bv16, calls: seq<WriterCall>, f: FieldId, value: bool, rest: seq<WriterCall>)
    requires Untouched(rest, f)
    ensures ReadField(Apply(w, calls + [FieldBit(f, value)] + rest), f).Bit() == value
  {
    var front := calls + [FieldBit(f, value)];
    assert front[..|calls|] == calls;
    ApplyAppend(w, front, rest);
    ApplyPreservesUntouched(Apply(w, front), rest, f);
  }

  /** `NISIER::write(f)`: the closure starts from the reset value. */
  function Write(calls: seq<WriterCall>): (bits: bv16)
    ensures FieldWritesOnly(calls) ==> bits & RESERVED == 0
  {
    Apply(RESET_VALUE, calls)
  }

  /** `NISIER::reset()`: `write` with a closure that calls nothing. */
  function Reset(): (bits: bv16)
    ensures bits == RESET_VALUE
    ensures forall f :: ReadField(bits, f) == MASKED
  {
    Write([])
  }

  /** A `write` leaves every field it does not touch at its reset value, MASKED. */
  lemma WriteDefaultsUntouched(calls: seq<WriterCall>, g: FieldId)
    requires Untouched(calls, g)
    ensures ReadField(Write(calls), g) == MASKED
  {
    ApplyPreservesUntouched(RESET_VALUE, calls, g);
  }

  /**
   `NISIER::modify(f)`: the closure starts from the current register bits,
   which it may also read; `calls` stands for the writer calls it makes.
   */
  function Modify(current: bv16, calls: seq<WriterCall>): (bits: bv16)
    ensures FieldWritesOnly(calls) ==> bits & RESERVED == current & RESERVED
  {
    Apply(current, calls)
  }

  /** A `modify` keeps every field it does not touch. */
  lemma ModifyPreservesUntouched(current: bv16, calls: seq<WriterCall>, g: FieldId)
    requires Untouched(calls, g)
    ensures ReadField(Modify(current, calls), g) == ReadField(current, g)
  {
    ApplyPreservesUntouched(current, calls, g);
  }

  /** `W::bits(b)` stores exactly `b`, whatever came before. */
  lemma RawBitsStoresExactly(w: bv16, calls: seq<WriterCall>, b: bv16)
    ensures Apply(w, calls + [RawBits(b)]) == b
  {
  }
}
