/** BitContainer: a save record laid out as named fields at consecutive bit
    offsets of one bit array. A field's bits are a big-endian number (its first
    bit is the most significant); Read and Write copy it to and from byte
    strings whose last byte holds the least significant bits. GetBytes and
    ToBytes serialise the whole bit array, bit k in byte k / 8 at position
    k % 8, as System.Collections.BitArray does. */
module Bits {
  import opened Common

  /** BitLayout.Binary: the size in bits of one unit of a field's length. */
  datatype Binary = Bit | Byte | Char | Int

  function UnitBits(u: Binary): (r: nat)
    ensures r == 1 || r == 8 || r == 16 || r == 32
  {
    match u
    case Bit => 1
    case Byte => 8
    case Char => 16
    case Int => 32
  }

  /** BitLayout: a named field of `length` units. */
  datatype BitLayout = BitLayout(name: string, length: nat, unit: Binary)

  function SizeOf(l: BitLayout): nat
  {
    l.length * UnitBits(l.unit)
  }

  /** The bits taken by a sequence of fields. */
  function TotalBits(ls: seq<BitLayout>): nat
  {
    if ls == [] then 0 else TotalBits(ls[..|ls| - 1]) + SizeOf(ls[|ls| - 1])
  }

  /** The offset of field i: the sizes of the fields before it. */
  function OriginOf(ls: seq<BitLayout>, i: nat): nat
    requires i <= |ls|
  {
    TotalBits(ls[..i])
  }

  /** The first field with a name, as the loops of GetLength, Read and Write
      find it. */
  function Locate(ls: seq<BitLayout>, name: string): (r: Option<nat>)
    ensures r.Some? ==> r.value < |ls| && ls[r.value].name == name &&
                        forall j :: 0 <= j < r.value ==> ls[j].name != name
    ensures r.None? ==> forall j :: 0 <= j < |ls| ==> ls[j].name != name
  {
    if ls == [] then None
    else if ls[0].name == name then Some(0)
    else
      var rest := Locate(ls[1..], name);
      assert forall j :: 1 <= j < |ls| ==> ls[j] == ls[1..][j - 1];
      if rest.Some? then Some(rest.value + 1) else None
  }

  lemma {:induction false} TotalBitsPrefix(ls: seq<BitLayout>, i: nat)
    requires i < |ls|
    ensures OriginOf(ls, i + 1) == OriginOf(ls, i) + SizeOf(ls[i])
  {
    assert ls[..i + 1][..i] == ls[..i];
  }

  /** Fields are laid end to end: each one ends at or before the start of any
      later one, and inside the whole array. */
  lemma {:induction false} FieldsInOrder(ls: seq<BitLayout>, i: nat, j: nat)
    requires i < j <= |ls|
    ensures OriginOf(ls, i) + SizeOf(ls[i]) <= OriginOf(ls, j)
    decreases j - i
  {
    TotalBitsPrefix(ls, i);
    if j > i + 1 {
      FieldsInOrder(ls, i + 1, j);
      TotalBitsPrefix(ls, i + 1);
    }
  }

  lemma FieldFits(ls: seq<BitLayout>, i: nat)
    requires i < |ls|
    ensures OriginOf(ls, i) + SizeOf(ls[i]) <= TotalBits(ls)
  {
    FieldsInOrder(ls, i, |ls|);
    assert ls[..|ls|] == ls;
  }

  // ---------------------------------------------------------------------
  // Bits and bytes

  /** Bit j (0 = least significant) of a byte: (b & (1 << j)) != 0. */
  predicate ByteBit(b: bv8, j: nat)
    requires j < 8
  {
    b & ((1 as bv8) << j) != 0
  }

  /** The byte whose bit j is s[j]. */
  function Pack8(s: seq<bool>): (r: bv8)
    requires |s| == 8
  {
    (if s[0] then 1 else 0) | (if s[1] then 2 else 0) | (if s[2] then 4 else 0) |
    (if s[3] then 8 else 0) | (if s[4] then 16 else 0) | (if s[5] then 32 else 0) |
    (if s[6] then 64 else 0) | (if s[7] then 128 else 0)
  }

  lemma Pack8Bit(s: seq<bool>, j: nat)
    requires |s| == 8 && j < 8
    ensures ByteBit(Pack8(s), j) == s[j]
  {
  }

  /** Two bytes with the same eight bits are the same byte. */
  lemma ByteExt(a: bv8, b: bv8)
    requires forall j :: 0 <= j < 8 ==> ByteBit(a, j) == ByteBit(b, j)
    ensures a == b
  {
    assert ByteBit(a, 0) == ByteBit(b, 0) && ByteBit(a, 1) == ByteBit(b, 1);
    assert ByteBit(a, 2) == ByteBit(b, 2) && ByteBit(a, 3) == ByteBit(b, 3);
    assert ByteBit(a, 4) == ByteBit(b, 4) && ByteBit(a, 5) == ByteBit(b, 5);
    assert ByteBit(a, 6) == ByteBit(b, 6) && ByteBit(a, 7) == ByteBit(b, 7);
  }

  /** currentByte |= (byte)(1 << j) */
  lemma SetBitOf(c: bv8, j: nat, k: nat)
    requires j < 8 && k < 8
    ensures ByteBit(c | ((1 as bv8) << j), k) == (ByteBit(c, k) || k == j)
  {
  }

  lemma DivMod8(a: nat, j: nat)
    requires j < 8
    ensures (8 * a + j) / 8 == a && (8 * a + j) % 8 == j
  {
  }

  /** Bit k, counting from the least significant, of a field of `size` bits
      stored big-endian at `origin`; zero above the field. */
  predicate FieldBit(bits: seq<bool>, origin: nat, size: nat, k: nat)
    requires origin + size <= |bits|
  {
    k < size && bits[origin + size - 1 - k]
  }

  /** Bit k, counting from the least significant, of a big-endian byte string:
      the last byte holds bits 0..7. Zero above the data. */
  predicate DataBit(data: seq<bv8>, k: nat)
  {
    k < 8 * |data| && ByteBit(data[|data| - 1 - k / 8], k % 8)
  }

  /** The eight field bits 8q .. 8q + 7, least significant first. */
  function FieldByte(bits: seq<bool>, origin: nat, size: nat, q: nat): (r: seq<bool>)
    requires origin + size <= |bits|
    ensures |r| == 8
    ensures forall j :: 0 <= j < 8 ==> r[j] == FieldBit(bits, origin, size, 8 * q + j)
  {
    seq(8, j requires 0 <= j < 8 => FieldBit(bits, origin, size, 8 * q + j))
  }

  /** Get(origin, size, n): n bytes, the last holding the field's low 8 bits,
      zero where the field has no more bits. */
  function GetSpec(bits: seq<bool>, origin: nat, size: nat, n: nat): (r: seq<bv8>)
    requires origin + size <= |bits|
    ensures |r| == n
  {
    seq(n, i requires 0 <= i < n =>
      Pack8(FieldByte(bits, origin, size, n - 1 - i)))
  }

  /** What Get promises bit by bit: bit j of the q-th byte from the end is
      bit 8q + j of the field. */
  lemma GetSpecBits(bits: seq<bool>, origin: nat, size: nat, n: nat, q: nat, j: nat)
    requires origin + size <= |bits| && q < n && j < 8
    ensures ByteBit(GetSpec(bits, origin, size, n)[n - 1 - q], j) == FieldBit(bits, origin, size, 8 * q + j)
    ensures DataBit(GetSpec(bits, origin, size, n), 8 * q + j) == FieldBit(bits, origin, size, 8 * q + j)
  {
    var s := FieldByte(bits, origin, size, q);
    assert GetSpec(bits, origin, size, n)[n - 1 - q] == Pack8(s);
    Pack8Bit(s, j);
    DivMod8(q, j);
  }

  /** Set(origin, size, data) for the first `count` bits of the field counted
      from the least significant: those take the data's bits, the rest of the
      array is as before. */
  function SetUpTo(bits: seq<bool>, origin: nat, size: nat, data: seq<bv8>, count: nat): (r: seq<bool>)
    requires origin + size <= |bits|
    ensures |r| == |bits|
  {
    seq(|bits|, p requires 0 <= p < |bits| =>
      if origin <= p < origin + size && origin + size - 1 - p < count
      then DataBit(data, origin + size - 1 - p)
      else bits[p])
  }

  /** Set copies min(size, 8 * |data|) bits: the data's extra high bits are
      dropped, and the field's high bits beyond the data keep their values. */
  function SetSpec(bits: seq<bool>, origin: nat, size: nat, data: seq<bv8>): (r: seq<bool>)
    requires origin + size <= |bits|
    ensures |r| == |bits|
    ensures forall p :: 0 <= p < |bits| && !(origin <= p < origin + size) ==> r[p] == bits[p]
    ensures forall k :: 0 <= k < size ==>
              FieldBit(r, origin, size, k) ==
              (if k < 8 * |data| then DataBit(data, k) else FieldBit(bits, origin, size, k))
  {
    var r := SetUpTo(bits, origin, size, data, if size < 8 * |data| then size else 8 * |data|);
    assert forall k :: 0 <= k < size ==> r[origin + size - 1 - k] == (if k < 8 * |data| then DataBit(data, k) else bits[origin + size - 1 - k]);
    r
  }

  /** GetBytes: ByteLength bytes, bit k of the array in byte k / 8 at bit k % 8,
      padded with zero bits. */
  function BytesOf(bits: seq<bool>): (r: seq<bv8>)
    ensures |r| == (|bits| + 7) / 8
  {
    seq((|bits| + 7) / 8, b requires 0 <= b < (|bits| + 7) / 8 =>
      Pack8(seq(8, j requires 0 <= j < 8 => 8 * b + j < |bits| && bits[8 * b + j])))
  }

  /** ToBytes: the bits of the data, cut or zero-padded to `length`. */
  function FromBytes(data: seq<bv8>, length: nat): (r: seq<bool>)
    ensures |r| == length
  {
    seq(length, k requires 0 <= k < length => k < 8 * |data| && ByteBit(data[k / 8], k % 8))
  }

  lemma BytesOfBits(bits: seq<bool>, b: nat, j: nat)
    requires b < (|bits| + 7) / 8 && j < 8
    ensures ByteBit(BytesOf(bits)[b], j) == (8 * b + j < |bits| && bits[8 * b + j])
  {
    Pack8Bit(seq(8, jj requires 0 <= jj < 8 => 8 * b + jj < |bits| && bits[8 * b + jj]), j);
  }

  /** ToBytes(GetBytes()) gives back the same bits and the same length. */
  lemma GetBytesRoundTrip(bits: seq<bool>)
    ensures FromBytes(BytesOf(bits), |bits|) == bits
  {
    var r := FromBytes(BytesOf(bits), |bits|);
    forall k | 0 <= k < |bits|
      ensures r[k] == bits[k]
    {
      DivMod8(k / 8, k % 8);
      BytesOfBits(bits, k / 8, k % 8);
    }
  }

  /** Write then Read of the same field: the low bits of the data come back,
      big-endian, with the field's width; bits past the data keep the old
      field's value and bits past the field read as zero. */
  lemma {:induction false} ReadAfterWrite(bits: seq<bool>, origin: nat, size: nat, data: seq<bv8>,
                                          n: nat, q: nat, j: nat)
    requires origin + size <= |bits| && q < n && j < 8
    ensures var r := GetSpec(SetSpec(bits, origin, size, data), origin, size, n);
            DataBit(r, 8 * q + j) ==
            (8 * q + j < size &&
             if 8 * q + j < 8 * |data| then DataBit(data, 8 * q + j)
             else FieldBit(bits, origin, size, 8 * q + j))
  {
    GetSpecBits(SetSpec(bits, origin, size, data), origin, size, n, q, j);
  }

  /** With at least ceil(size / 8) bytes of data, a read of ceil(size / 8)
      bytes gives exactly the data's low `size` bits and zeros above them. */
  lemma WriteReadKeepsLowBits(bits: seq<bool>, origin: nat, size: nat, data: seq<bv8>, k: nat)
    requires origin + size <= |bits| && |data| >= (size + 7) / 8
    requires k < 8 * ((size + 7) / 8)
    ensures DataBit(GetSpec(SetSpec(bits, origin, size, data), origin, size, (size + 7) / 8), k) ==
            (k < size && DataBit(data, k))
  {
    DivMod8(k / 8, k % 8);
    ReadAfterWrite(bits, origin, size, data, (size + 7) / 8, k / 8, k % 8);
  }

  /** The byte 11111111 written to a 4-bit field reads back as 00001111. */
  lemma FourBitFieldDropsHighBits(bits: seq<bool>, origin: nat)
    requires origin + 4 <= |bits|
    ensures GetSpec(SetSpec(bits, origin, 4, [0xFF]), origin, 4, 1) == [0x0F]
  {
    var r := GetSpec(SetSpec(bits, origin, 4, [0xFF]), origin, 4, 1);
    forall j | 0 <= j < 8
      ensures ByteBit(r[0], j) == ByteBit(0x0F, j)
    {
      WriteReadKeepsLowBits(bits, origin, 4, [0xFF], j);
      DivMod8(0, j);
    }
    ByteExt(r[0], 0x0F);
  }

  /** Get reads nothing but the field's own bits. */
  lemma GetSpecFrame(b1: seq<bool>, b2: seq<bool>, origin: nat, size: nat, n: nat)
    requires origin + size <= |b1| && origin + size <= |b2|
    requires forall p :: origin <= p < origin + size ==> b1[p] == b2[p]
    ensures GetSpec(b1, origin, size, n) == GetSpec(b2, origin, size, n)
  {
    forall i | 0 <= i < n
      ensures GetSpec(b1, origin, size, n)[i] == GetSpec(b2, origin, size, n)[i]
    {
      var s1 := FieldByte(b1, origin, size, n - 1 - i);
      var s2 := FieldByte(b2, origin, size, n - 1 - i);
      forall j | 0 <= j < 8
        ensures s1[j] == s2[j]
      {
        var k := 8 * (n - 1 - i) + j;
        if k < size {
          assert b1[origin + size - 1 - k] == b2[origin + size - 1 - k];
        }
      }
      assert s1 == s2;
    }
  }

  /** A Write to one field leaves every later or earlier field reading as before. */
  lemma WriteKeepsOtherFields(ls: seq<BitLayout>, bits: seq<bool>, i: nat, j: nat, data: seq<bv8>, n: nat)
    requires |bits| == TotalBits(ls) && i < |ls| && j < |ls| && i != j
    ensures OriginOf(ls, i) + SizeOf(ls[i]) <= |bits| && OriginOf(ls, j) + SizeOf(ls[j]) <= |bits| &&
            GetSpec(SetSpec(bits, OriginOf(ls, i), SizeOf(ls[i]), data), OriginOf(ls, j), SizeOf(ls[j]), n) ==
            GetSpec(bits, OriginOf(ls, j), SizeOf(ls[j]), n)
  {
    FieldFits(ls, i);
    FieldFits(ls, j);
    if i < j {
      FieldsInOrder(ls, i, j);
    } else {
      FieldsInOrder(ls, j, i);
    }
    GetSpecFrame(SetSpec(bits, OriginOf(ls, i), SizeOf(ls[i]), data), bits,
                 OriginOf(ls, j), SizeOf(ls[j]), n);
  }

  // ---------------------------------------------------------------------
  // Whole-record reads and writes

  /** The name-to-bytes dictionary ReadAll builds from the first n fields; a
      repeated name makes Dictionary.Add throw. */
  function ReadAllUpTo(ls: seq<BitLayout>, bits: seq<bool>, n: nat): (r: Result<map<string, seq<bv8>>>)
    requires n <= |ls| && |bits| == TotalBits(ls)
  {
    if n == 0 then Ok(map[])
    else
      var prev := ReadAllUpTo(ls, bits, n - 1);
      var f := ls[n - 1];
      FieldFits(ls, n - 1);
      if prev.Err? then prev
      else if f.name in prev.value then Err("An item with the same key has already been added")
      else Ok(prev.value[f.name := GetSpec(bits, OriginOf(ls, n - 1), SizeOf(f), (SizeOf(f) + 7) / 8)])
  }

  /** Once ReadAll has failed it stays failed. */
  lemma ReadAllErrSticks(ls: seq<BitLayout>, bits: seq<bool>, n: nat)
    requires n <= |ls| && |bits| == TotalBits(ls)
    requires ReadAllUpTo(ls, bits, n).Err?
    ensures ReadAllUpTo(ls, bits, |ls|) == ReadAllUpTo(ls, bits, n)
  {
    var m := n;
    while m < |ls|
      invariant n <= m <= |ls|
      invariant ReadAllUpTo(ls, bits, m) == ReadAllUpTo(ls, bits, n)
    {
      m := m + 1;
    }
  }

  /** ReadAll succeeds exactly when the first n names are distinct. */
  lemma {:induction false} ReadAllOkIffDistinct(ls: seq<BitLayout>, bits: seq<bool>, n: nat)
    requires n <= |ls| && |bits| == TotalBits(ls)
    ensures ReadAllUpTo(ls, bits, n).Ok? <==>
            forall a, b :: 0 <= a < b < n ==> ls[a].name != ls[b].name
    ensures ReadAllUpTo(ls, bits, n).Ok? ==>
            forall name :: name in ReadAllUpTo(ls, bits, n).value <==>
                           exists a :: 0 <= a < n && ls[a].name == name
  {
    if n > 0 {
      ReadAllOkIffDistinct(ls, bits, n - 1);
      var prev := ReadAllUpTo(ls, bits, n - 1);
      var f := ls[n - 1];
      if prev.Ok? && f.name in prev.value {
        var a :| 0 <= a < n - 1 && ls[a].name == f.name;
        assert ls[a].name == ls[n - 1].name;
      } else if prev.Ok? {
        assert forall a :: 0 <= a < n - 1 ==> ls[a].name != f.name;
      }
    }
  }

  /** After a successful ReadAll, each field's name maps to ceil(size / 8)
      bytes read from that field. */
  lemma {:induction false} ReadAllEntries(ls: seq<BitLayout>, bits: seq<bool>, n: nat, a: nat)
    requires n <= |ls| && |bits| == TotalBits(ls) && a < n
    requires ReadAllUpTo(ls, bits, n).Ok?
    ensures OriginOf(ls, a) + SizeOf(ls[a]) <= |bits|
    ensures ls[a].name in ReadAllUpTo(ls, bits, n).value
    ensures ReadAllUpTo(ls, bits, n).value[ls[a].name] ==
            GetSpec(bits, OriginOf(ls, a), SizeOf(ls[a]), (SizeOf(ls[a]) + 7) / 8)
  {
    FieldFits(ls, a);
    ReadAllOkIffDistinct(ls, bits, n);
    if a < n - 1 {
      ReadAllEntries(ls, bits, n - 1, a);
      assert ls[a].name != ls[n - 1].name;
    }
  }

  /** WriteAll over the first n fields: the bits, or the error of a name the
      dictionary lacks (KeyNotFoundException) with the earlier fields already
      written. */
  function WriteAllUpTo(ls: seq<BitLayout>, bits: seq<bool>, data: map<string, seq<bv8>>, n: nat): (r: (seq<bool>, bool))
    requires n <= |ls| && |bits| == TotalBits(ls)
    ensures |r.0| == |bits|
  {
    if n == 0 then (bits, true)
    else
      var prev := WriteAllUpTo(ls, bits, data, n - 1);
      var f := ls[n - 1];
      FieldFits(ls, n - 1);
      if !prev.1 then prev
      else if f.name !in data then (prev.0, false)
      else (SetSpec(prev.0, OriginOf(ls, n - 1), SizeOf(f), data[f.name]), true)
  }

  /** WriteAll completes exactly when every field's name has an entry. */
  lemma {:induction false} WriteAllCompletes(ls: seq<BitLayout>, bits: seq<bool>, data: map<string, seq<bv8>>, n: nat)
    requires n <= |ls| && |bits| == TotalBits(ls)
    ensures WriteAllUpTo(ls, bits, data, n).1 <==> forall a :: 0 <= a < n ==> ls[a].name in data
  {
    if n > 0 {
      WriteAllCompletes(ls, bits, data, n - 1);
    }
  }


  /** WriteAll over the first n fields leaves the bits of every later field
      as they were, whether or not it completes. */
  lemma {:induction false} WriteAllLeavesLaterFields(ls: seq<BitLayout>, bits: seq<bool>, data: map<string, seq<bv8>>,
                                                     n: nat, a: nat)
    requires n <= a < |ls| && |bits| == TotalBits(ls)
    ensures OriginOf(ls, a) + SizeOf(ls[a]) <= |bits|
    ensures forall p :: OriginOf(ls, a) <= p < OriginOf(ls, a) + SizeOf(ls[a]) ==>
              WriteAllUpTo(ls, bits, data, n).0[p] == bits[p]
  {
    FieldFits(ls, a);
    if n > 0 {
      WriteAllLeavesLaterFields(ls, bits, data, n - 1, a);
      FieldsInOrder(ls, n - 1, a);
    }
  }

  /** When every one of the first n names has an entry, each of those fields
      holds exactly what a Set of its own entry alone would have left there. */
  lemma {:induction false} WriteAllFieldBits(ls: seq<BitLayout>, bits: seq<bool>, data: map<string, seq<bv8>>,
                                             n: nat, a: nat)
    requires a < n <= |ls| && |bits| == TotalBits(ls)
    requires forall b :: 0 <= b < n ==> ls[b].name in data
    ensures OriginOf(ls, a) + SizeOf(ls[a]) <= |bits|
    ensures forall p :: OriginOf(ls, a) <= p < OriginOf(ls, a) + SizeOf(ls[a]) ==>
              WriteAllUpTo(ls, bits, data, n).0[p] ==
              SetSpec(bits, OriginOf(ls, a), SizeOf(ls[a]), data[ls[a].name])[p]
  {
    FieldFits(ls, a);
    WriteAllCompletes(ls, bits, data, n - 1);
    var prev := WriteAllUpTo(ls, bits, data, n - 1);
    var o, s, d := OriginOf(ls, a), SizeOf(ls[a]), data[ls[a].name];
    if a < n - 1 {
      WriteAllFieldBits(ls, bits, data, n - 1, a);
      FieldsInOrder(ls, a, n - 1);
    } else {
      WriteAllLeavesLaterFields(ls, bits, data, n - 1, a);
      var w := SetSpec(prev.0, o, s, d);
      var v := SetSpec(bits, o, s, d);
      forall p | o <= p < o + s
        ensures w[p] == v[p]
      {
        var k := o + s - 1 - p;
        assert FieldBit(w, o, s, k) == w[p] && FieldBit(v, o, s, k) == v[p];
        assert FieldBit(prev.0, o, s, k) == FieldBit(bits, o, s, k);
      }
    }
  }

  /** After a WriteAll that completes, every field reads back its own entry's
      low bits, as ReadAfterWrite describes for a single Set. */
  lemma WriteAllFieldReads(ls: seq<BitLayout>, bits: seq<bool>, data: map<string, seq<bv8>>, a: nat, n: nat)
    requires a < |ls| && |bits| == TotalBits(ls)
    requires WriteAllUpTo(ls, bits, data, |ls|).1
    ensures OriginOf(ls, a) + SizeOf(ls[a]) <= |bits| && ls[a].name in data
    ensures GetSpec(WriteAllUpTo(ls, bits, data, |ls|).0, OriginOf(ls, a), SizeOf(ls[a]), n) ==
            GetSpec(SetSpec(bits, OriginOf(ls, a), SizeOf(ls[a]), data[ls[a].name]), OriginOf(ls, a), SizeOf(ls[a]), n)
  {
    WriteAllCompletes(ls, bits, data, |ls|);
    WriteAllFieldBits(ls, bits, data, |ls|, a);
    GetSpecFrame(WriteAllUpTo(ls, bits, data, |ls|).0,
                 SetSpec(bits, OriginOf(ls, a), SizeOf(ls[a]), data[ls[a].name]),
                 OriginOf(ls, a), SizeOf(ls[a]), n);
  }
  // ---------------------------------------------------------------------
  // The container

  class BitContainer {
    const layout: seq<BitLayout>
    var bits: seq<bool>

    ghost predicate Valid()
      reads this
    {
      |bits| == TotalBits(layout)
    }

    /** Allocate the sum of the fields' sizes, all bits clear. */
    constructor (data: seq<BitLayout>)
      ensures layout == data && Valid()
      ensures |bits| == TotalBits(data) && forall k :: 0 <= k < |bits| ==> !bits[k]
    {
      layout := data;
      var size := 0;
      var i := 0;
      while i < |data|
        invariant 0 <= i <= |data|
        invariant size == TotalBits(data[..i])
      {
        TotalBitsPrefix(data, i);
        size := size + data[i].length * UnitBits(data[i].unit);
        i := i + 1;
      }
      assert data[..i] == data;
      bits := seq(size, _ => false);
    }

    function BitLength(): nat
      reads this
    {
      |bits|
    }

    /** The bytes needed to hold the bits: ceil(BitLength / 8). */
    function ByteLength(): (r: nat)
      reads this
      ensures 8 * r >= |bits| && 8 * r < |bits| + 8
    {
      (|bits| + 7) / 8
    }

    method GetBytes() returns (result: seq<bv8>)
      ensures |result| == ByteLength()
      ensures forall b, j :: 0 <= b < |result| && 0 <= j < 8 ==>
                ByteBit(result[b], j) == (8 * b + j < |bits| && bits[8 * b + j])
    {
      result := BytesOf(bits);
      forall b, j | 0 <= b < |result| && 0 <= j < 8
        ensures ByteBit(result[b], j) == (8 * b + j < |bits| && bits[8 * b + j])
      {
        BytesOfBits(bits, b, j);
      }
    }

    /** Take the bits of `data`, keeping the current bit length. */
    method ToBytes(data: seq<bv8>)
      modifies this
      ensures bits == FromBytes(data, old(|bits|))
      ensures Valid() == old(Valid())
    {
      var length := |bits|;
      bits := FromBytes(data, length);
    }

    /** The size in bits of the first field with that name. */
    function GetLength(name: string): (r: Result<nat>)
      ensures r.Ok? <==> exists i :: 0 <= i < |layout| && layout[i].name == name
      ensures r.Ok? ==> r.value == SizeOf(layout[Locate(layout, name).value])
    {
      var i := Locate(layout, name);
      if i.Some? then Ok(SizeOf(layout[i.value])) else Err("Exception")
    }

    /** The loop of Read and Write: the first field with the name and the sum
        of the sizes before it. */
    method FindField(name: string) returns (found: Option<nat>, origin: nat)
      requires Valid()
      ensures found == Locate(layout, name)
      ensures found.Some? ==> origin == OriginOf(layout, found.value) &&
                              origin + SizeOf(layout[found.value]) <= |bits|
    {
      origin := 0;
      found := None;
      var i := 0;
      while i < |layout|
        invariant 0 <= i <= |layout|
        invariant origin == OriginOf(layout, i)
        invariant forall j :: 0 <= j < i ==> layout[j].name != name
      {
        if layout[i].name == name {
          found := Some(i);
          break;
        }
        TotalBitsPrefix(layout, i);
        origin := origin + layout[i].length * UnitBits(layout[i].unit);
        i := i + 1;
      }
      if found.Some? {
        FieldFits(layout, found.value);
      }
    }

    /** Read(name, n): n bytes of the named field, or an error when no field
        has that name (or n is negative). */
    method Read(name: string, n: int) returns (r: Result<seq<bv8>>)
      requires Valid()
      ensures Locate(layout, name).None? ==> r.Err?
      ensures Locate(layout, name).Some? && n < 0 ==> r.Err?
      ensures Locate(layout, name).Some? && n >= 0 ==>
                var i := Locate(layout, name).value;
                OriginOf(layout, i) + SizeOf(layout[i]) <= |bits| &&
                r == Ok(GetSpec(bits, OriginOf(layout, i), SizeOf(layout[i]), n))
    {
      var found, origin := FindField(name);
      if found.None? {
        return Err(name + " Does not exist");
      }
      if n < 0 {
        return Err("Arithmetic operation resulted in an overflow");
      }
      var field := layout[found.value];
      var bytes := Get(origin, field.length * UnitBits(field.unit), n);
      r := Ok(bytes);
    }

    /** Write(name, data): Set the named field, or an error when no field has
        that name, leaving the bits unchanged. */
    method Write(name: string, data: seq<bv8>) returns (r: Result<()>)
      requires Valid()
      modifies this
      ensures Valid()
      ensures Locate(layout, name).None? ==> r.Err? && bits == old(bits)
      ensures Locate(layout, name).Some? ==>
                var i := Locate(layout, name).value;
                OriginOf(layout, i) + SizeOf(layout[i]) <= |old(bits)| &&
                r.Ok? && bits == SetSpec(old(bits), OriginOf(layout, i), SizeOf(layout[i]), data)
    {
      var found, origin := FindField(name);
      if found.None? {
        return Err(name + " Does not exist");
      }
      var field := layout[found.value];
      Set(origin, field.length * UnitBits(field.unit), data);
      r := Ok(());
    }

    /** ReadAll: every field's bytes under its name. */
    method ReadAll() returns (r: Result<map<string, seq<bv8>>>)
      requires Valid()
      ensures r == ReadAllUpTo(layout, bits, |layout|)
    {
      var result: map<string, seq<bv8>> := map[];
      var origin := 0;
      var i := 0;
      while i < |layout|
        invariant 0 <= i <= |layout|
        invariant origin == OriginOf(layout, i)
        invariant ReadAllUpTo(layout, bits, i) == Ok(result)
      {
        var size := layout[i].length * UnitBits(layout[i].unit);
        FieldFits(layout, i);
        var second := Get(origin, size, (size + 7) / 8);
        if layout[i].name in result {
          ReadAllErrSticks(layout, bits, i + 1);
          return Err("An item with the same key has already been added");
        }
        assert second == GetSpec(bits, OriginOf(layout, i), SizeOf(layout[i]), (SizeOf(layout[i]) + 7) / 8);
        assert ReadAllUpTo(layout, bits, i + 1) == Ok(result[layout[i].name := second]);
        result := result[layout[i].name := second];
        TotalBitsPrefix(layout, i);
        origin := origin + size;
        i := i + 1;
      }
      r := Ok(result);
    }

    /** WriteAll: Set every field from the entry under its name, in layout
        order; a missing name stops it with an error. */
    method WriteAll(data: map<string, seq<bv8>>) returns (r: Result<()>)
      requires Valid()
      modifies this
      ensures Valid()
      ensures var w := WriteAllUpTo(layout, old(bits), data, |layout|);
              bits == w.0 && (r.Ok? <==> w.1)
    {
      ghost var bits0 := bits;
      var origin := 0;
      var i := 0;
      while i < |layout|
        invariant 0 <= i <= |layout|
        invariant origin == OriginOf(layout, i) && Valid()
        invariant WriteAllUpTo(layout, bits0, data, i) == (bits, true)
      {
        var size := layout[i].length * UnitBits(layout[i].unit);
        FieldFits(layout, i);
        if layout[i].name !in data {
          WriteAllStops(bits0, data, i);
          return Err("The given key was not present in the dictionary");
        }
        Set(origin, size, data[layout[i].name]);
        TotalBitsPrefix(layout, i);
        origin := origin + size;
        i := i + 1;
      }
      r := Ok(());
    }

    /** Once a name is missing, the later fields do not change the outcome. */
    lemma {:induction false} WriteAllStops(bits0: seq<bool>, data: map<string, seq<bv8>>, i: nat)
      requires i < |layout| && |bits0| == TotalBits(layout)
      requires WriteAllUpTo(layout, bits0, data, i).1 && layout[i].name !in data
      ensures forall n :: i < n <= |layout| ==>
                WriteAllUpTo(layout, bits0, data, n) == (WriteAllUpTo(layout, bits0, data, i).0, false)
    {
      var n := i + 1;
      while n < |layout|
        invariant i < n <= |layout|
        invariant forall m :: i < m <= n ==>
                    WriteAllUpTo(layout, bits0, data, m) == (WriteAllUpTo(layout, bits0, data, i).0, false)
      {
        n := n + 1;
      }
    }

    /** Get: fill bytes from the last one backwards, least significant bit
        first, reading the field from its last bit backwards. */
    method Get(origin: nat, size: nat, n: nat) returns (result: seq<bv8>)
      requires origin + size <= |bits|
      ensures result == GetSpec(bits, origin, size, n)
    {
      var buffer := new bv8[n](_ => 0);
      ghost var spec := GetSpec(bits, origin, size, n);
      var count := size - 1;
      var i := n - 1;
      while i >= 0
        invariant -1 <= i < n
        invariant count == size - 1 - 8 * (n - 1 - i)
        invariant forall b :: i < b < n ==> buffer[b] == spec[b]
        invariant forall b :: 0 <= b <= i ==> buffer[b] == 0
      {
        var currentByte: bv8 := 0;
        var j := 0;
        ghost var k0 := 8 * (n - 1 - i);
        ghost var want := FieldByte(bits, origin, size, n - 1 - i);
        ghost var filled := buffer[..];
        while j < 8
          invariant 0 <= j <= 8
          invariant buffer[..] == filled
          invariant count == size - 1 - k0 - j
          invariant forall jj :: 0 <= jj < j ==> ByteBit(currentByte, jj) == want[jj]
          invariant forall jj :: j <= jj < 8 ==> !ByteBit(currentByte, jj)
        {
          if count < 0 {
            break;
          }
          assert want[j] == bits[origin + count];
          ghost var before := currentByte;
          if bits[origin + count] {
            currentByte := currentByte | ((1 as bv8) << j);
          }
          PackStep(before, currentByte, j, want);
          count := count - 1;
          j := j + 1;
        }
        forall jj | 0 <= jj < 8
          ensures ByteBit(currentByte, jj) == FieldBit(bits, origin, size, k0 + jj)
        {
          if jj >= j {
            assert k0 + jj >= size;
          }
        }
        GetByteDone(bits, currentByte, origin, size, n, i);
        buffer[i] := currentByte;
        if count < 0 {
          GetRestZero(bits, origin, size, n, i);
          break;
        }
        i := i - 1;
      }
      result := buffer[..];
      assert forall b :: 0 <= b < n ==> result[b] == spec[b];
    }

    /** One step of Get's inner loop: bit j of the new byte is set exactly
        when the field bit it copies is. */
    static lemma PackStep(c: bv8, c2: bv8, j: nat, want: seq<bool>)
      requires |want| == 8 && j < 8
      requires c2 == if want[j] then c | ((1 as bv8) << j) else c
      requires forall jj :: 0 <= jj < j ==> ByteBit(c, jj) == want[jj]
      requires forall jj :: j <= jj < 8 ==> !ByteBit(c, jj)
      ensures forall jj :: 0 <= jj <= j ==> ByteBit(c2, jj) == want[jj]
      ensures forall jj :: j < jj < 8 ==> !ByteBit(c2, jj)
    {
      forall jj | 0 <= jj < 8
        ensures ByteBit(c2, jj) == (ByteBit(c, jj) || (want[j] && jj == j))
      {
        SetBitOf(c, j, jj);
      }
    }

    /** The byte the inner loop of Get has built is the specified one. */
    static lemma GetByteDone(bits: seq<bool>, c: bv8, origin: nat, size: nat, n: nat, i: nat)
      requires origin + size <= |bits| && i < n
      requires forall jj :: 0 <= jj < 8 ==> ByteBit(c, jj) == FieldBit(bits, origin, size, 8 * (n - 1 - i) + jj)
      ensures c == GetSpec(bits, origin, size, n)[i]
    {
      var s := FieldByte(bits, origin, size, n - 1 - i);
      forall jj | 0 <= jj < 8
        ensures ByteBit(c, jj) == ByteBit(Pack8(s), jj)
      {
        Pack8Bit(s, jj);
      }
      ByteExt(c, Pack8(s));
    }

    /** Bytes in front of the last one Get fills hold no field bits. */
    static lemma GetRestZero(bits: seq<bool>, origin: nat, size: nat, n: nat, i: nat)
      requires origin + size <= |bits| && i < n
      requires size <= 8 * (n - i)
      ensures forall b :: 0 <= b < i ==> GetSpec(bits, origin, size, n)[b] == 0
    {
      forall b | 0 <= b < i
        ensures GetSpec(bits, origin, size, n)[b] == 0
      {
        var s := FieldByte(bits, origin, size, n - 1 - b);
        forall jj | 0 <= jj < 8
          ensures ByteBit(Pack8(s), jj) == ByteBit(0, jj)
        {
          assert 8 * (n - 1 - b) + jj >= size;
          assert !s[jj];
          Pack8Bit(s, jj);
        }
        ByteExt(Pack8(s), 0);
      }
    }

    /** Set: copy the data from its last byte backwards, least significant bit
        first, into the field from its last bit backwards, until the field is
        full. */
    method Set(origin: nat, size: nat, data: seq<bv8>)
      requires origin + size <= |bits|
      modifies this
      ensures bits == SetSpec(old(bits), origin, size, data)
    {
      ghost var bits0 := bits;
      var count := size - 1;
      var i := |data| - 1;
      while i >= 0
        invariant -1 <= i < |data|
        invariant |bits| == |bits0|
        invariant count == Max0(size - 1 - 8 * (|data| - 1 - i))
        invariant bits == SetUpTo(bits0, origin, size, data, Min0(size, 8 * (|data| - 1 - i)))
      {
        var j := 0;
        ghost var k0 := 8 * (|data| - 1 - i);
        while j < 8
          invariant 0 <= j <= 8
          invariant |bits| == |bits0|
          invariant count == Max0(size - 1 - k0 - j)
          invariant bits == SetUpTo(bits0, origin, size, data, Min0(size, k0 + j))
        {
          if count < 0 {
            break;
          }
          SetStep(bits0, origin, size, data, i, j, count);
          bits := bits[origin + count := data[i] & ((1 as bv8) << j) != 0];
          count := count - 1;
          j := j + 1;
        }
        assert bits == SetUpTo(bits0, origin, size, data, Min0(size, k0 + 8));
        i := i - 1;
      }
      assert Min0(size, 8 * |data|) == (if size < 8 * |data| then size else 8 * |data|);
    }

    /** max(x, -1): the count of Set once it has run out. */
    static function Max0(x: int): int
    {
      if x < -1 then -1 else x
    }

    static function Min0(a: nat, b: int): nat
    {
      if b < 0 then 0 else if a < b then a else b
    }

    /** One bit copied by Set extends the copied prefix by one. */
    static lemma SetStep(bits0: seq<bool>, origin: nat, size: nat, data: seq<bv8>, i: nat, j: nat, count: int)
      requires origin + size <= |bits0| && i < |data| && j < 8
      requires 0 <= count == size - 1 - 8 * (|data| - 1 - i) - j
      ensures origin + count < |bits0|
      ensures SetUpTo(bits0, origin, size, data, Min0(size, 8 * (|data| - 1 - i) + j))[origin + count := ByteBit(data[i], j)] ==
              SetUpTo(bits0, origin, size, data, Min0(size, 8 * (|data| - 1 - i) + j + 1))
    {
      var k := 8 * (|data| - 1 - i) + j;
      DivMod8(|data| - 1 - i, j);
      assert DataBit(data, k) == ByteBit(data[i], j);
    }
  }
}
