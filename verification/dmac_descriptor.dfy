/**
 The DMAC transfer descriptor: five fixed-width fields, copied and compared
 field by field (derived `Copy`, `Default`, `Eq`), and aligned to 16 bytes
 wherever it is placed (`#[repr(align(16))]`).

 The source gives no `#[repr(C)]`, so neither the order of the fields in
 memory nor the padding is promised: the size is any multiple of 16 that
 holds the fields, and the array layout is stated for every such size.
 */
module DmacDescriptor {

  /** Rust `u16`. */
  type U16 = x: nat | x < 0x1_0000

  /** Rust `u32`. */
  type U32 = x: nat | x < 0x1_0000_0000

  /** `Descriptor`: block transfer control and count, source, destination and next-descriptor addresses. */
  datatype Descriptor = Descriptor(btctrl: U16, btcnt: U16, srcaddr: U32, dstaddr: U32, descaddr: U32)

  /** The five public fields. */
  datatype Field = BtCtrl | BtCnt | SrcAddr | DstAddr | DescAddr

  /** Bytes a field takes. */
  function FieldBytes(f: Field): nat {
    match f
    case BtCtrl => 2
    case BtCnt => 2
    case SrcAddr => 4
    case DstAddr => 4
    case DescAddr => 4
  }

  /** One more than the largest value a field holds: `2^(8 * FieldBytes(f))`. */
  function Limit(f: Field): nat {
    if FieldBytes(f) == 2 then 0x1_0000 else 0x1_0000_0000
  }

  /** Reading a public field. */
  function Get(d: Descriptor, f: Field): (x: nat)
    ensures x < Limit(f)
  {
    match f
    case BtCtrl => d.btctrl
    case BtCnt => d.btcnt
    case SrcAddr => d.srcaddr
    case DstAddr => d.dstaddr
    case DescAddr => d.descaddr
  }

  /** Assigning a public field: that field takes the value, the other four keep theirs. */
  function Set(d: Descriptor, f: Field, x: nat): (d': Descriptor)
    requires x < Limit(f)
    ensures Get(d', f) == x
    ensures forall g :: g != f ==> Get(d', g) == Get(d, g)
  {
    match f
    case BtCtrl => d.(btctrl := x)
    case BtCnt => d.(btcnt := x)
    case SrcAddr => d.(srcaddr := x)
    case DstAddr => d.(dstaddr := x)
    case DescAddr => d.(descaddr := x)
  }

  /** `Descriptor::default()`: every field is zero. */
  function Default(): (d: Descriptor)
    ensures forall f :: Get(d, f) == 0
  {
    Descriptor(0, 0, 0, 0, 0)
  }

  /** The derived `Eq`: two descriptors are equal exactly when all five fields are. */
  lemma EqualIffFieldsEqual(a: Descriptor, b: Descriptor)
    ensures a == b <==> forall f :: Get(a, f) == Get(b, f)
  {
    if forall f :: Get(a, f) == Get(b, f) {
      assert Get(a, BtCtrl) == Get(b, BtCtrl);
      assert Get(a, BtCnt) == Get(b, BtCnt);
      assert Get(a, SrcAddr) == Get(b, SrcAddr);
      assert Get(a, DstAddr) == Get(b, DstAddr);
      assert Get(a, DescAddr) == Get(b, DescAddr);
    }
  }

  /** A descriptor is determined by its fields: rebuilding it from them gives it back. */
  lemma SetOwnValue(d: Descriptor, f: Field)
    ensures Set(d, f, Get(d, f)) == d
  {
    EqualIffFieldsEqual(Set(d, f, Get(d, f)), d);
  }

  /** A second assignment to the same field overrides the first. */
  lemma SetTwice(d: Descriptor, f: Field, x: nat, y: nat)
    requires x < Limit(f) && y < Limit(f)
    ensures Set(Set(d, f, x), f, y) == Set(d, f, y)
  {
    EqualIffFieldsEqual(Set(Set(d, f, x), f, y), Set(d, f, y));
  }

  /** Assignments to different fields commute. */
  lemma SetCommutes(d: Descriptor, f: Field, x: nat, g: Field, y: nat)
    requires f != g && x < Limit(f) && y < Limit(g)
    ensures Set(Set(d, f, x), g, y) == Set(Set(d, g, y), f, x)
  {
    EqualIffFieldsEqual(Set(Set(d, f, x), g, y), Set(Set(d, g, y), f, x));
  }

  /** `#[repr(align(16))]`. */
  const ALIGNMENT: nat := 16

  /** Bytes taken by the five fields together. */
  const FIELD_BYTES: nat := FieldBytes(BtCtrl) + FieldBytes(BtCnt) + FieldBytes(SrcAddr)
    + FieldBytes(DstAddr) + FieldBytes(DescAddr)

  /** An address at which a descriptor may live. */
  predicate Aligned(addr: nat) {
    addr % ALIGNMENT == 0
  }

  /** A size rounded up to the alignment: the smallest multiple of 16 at or above `n`. */
  function RoundUp(n: nat): (r: nat)
    ensures Aligned(r) && n <= r < n + ALIGNMENT
    ensures forall a: nat :: n <= a < r ==> !Aligned(a)
  {
    if n % ALIGNMENT == 0 then n else n + (ALIGNMENT - n % ALIGNMENT)
  }

  /**
   A size `size_of::<Descriptor>()` may have: without `#[repr(C)]` Rust only
   promises a multiple of the alignment that holds the non-overlapping fields.
   */
  predicate LegalSize(s: nat) {
    s % ALIGNMENT == 0 && FIELD_BYTES <= s
  }

  /** The size the compiler picks when it adds no padding: the fields rounded up to the alignment. */
  const SIZE: nat := RoundUp(FIELD_BYTES)

  /**
   The fields take 2 + 2 + 4 + 4 + 4 = 16 bytes, which is already a multiple
   of the alignment; 16 is therefore the smallest size the layout rules allow.
   */
  lemma SizeIsFields()
    ensures FIELD_BYTES == 16 && SIZE == FIELD_BYTES
    ensures LegalSize(SIZE)
    ensures forall s: nat :: LegalSize(s) ==> SIZE <= s
  {
  }

  /** The element addresses of an array of `n` descriptors of size `s` starting at `base`. */
  function ArrayLayout(base: nat, n: nat, s: nat): (addrs: seq<nat>)
    requires Aligned(base) && LegalSize(s)
    ensures |addrs| == n
    ensures n > 0 ==> addrs[0] == base && addrs[n - 1] == base + s * (n - 1)
    ensures forall i :: 0 <= i < n ==> Aligned(addrs[i])
    ensures forall i :: 0 <= i < n - 1 ==> addrs[i + 1] == addrs[i] + s
    ensures forall i, j :: 0 <= i < j < n ==> addrs[i] + FIELD_BYTES <= addrs[j]
  {
    if n == 0 then []
    else if n == 1 then [base]
    else
      var front := ArrayLayout(base, n - 1, s);
      var last := front[n - 2] + s;
      assert last == base + s * (n - 1) by {
        assert s * (n - 1) == s * (n - 2) + s;
      }
      AlignedStep(front[n - 2], s, 1);
      front + [last]
  }

  /** Whole multiples of an aligned size past an aligned base stay aligned. */
  lemma AlignedStep(base: nat, s: nat, k: nat)
    requires Aligned(base) && s % ALIGNMENT == 0
    ensures Aligned(base + s * k)
  {
    assert base + s * k == ALIGNMENT * (base / ALIGNMENT + (s / ALIGNMENT) * k);
  }

  /** Element `i` of a descriptor array sits at `base + s * i`; with the 16-byte size, at `base + 16 * i`. */
  lemma {:induction false} ArrayElementAddress(base: nat, n: nat, s: nat, i: nat)
    requires Aligned(base) && LegalSize(s) && i < n
    ensures ArrayLayout(base, n, s)[i] == base + s * i
    ensures s == SIZE ==> ArrayLayout(base, n, s)[i] == base + 16 * i
  {
    SizeIsFields();
    if i < n - 1 {
      ArrayElementAddress(base, n - 1, s, i);
      assert ArrayLayout(base, n, s)[i] == ArrayLayout(base, n - 1, s)[i];
    }
  }
}
