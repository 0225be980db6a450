/**
 * The uncompressed bitmap the scheduler uses to track which instance indices
 * of a task group are in use: one bit per index, eight indices per byte, bit
 * (index % 8) of byte (index / 8).
 */
module Bitmaps {
  import opened Wrappers

  /** The single-bit mask of an index within its byte. */
  function Mask(index: nat): bv8 {
    1 << (index % 8)
  }

  lemma MaskedOr(b: bv8, bit: nat, probe: nat)
    requires bit < 8 && probe < 8
    ensures ((b | (1 << bit)) & (1 << probe) != 0) == (probe == bit || b & (1 << probe) != 0)
  {
  }

  /** Testing against the mask reads the same bit as shifting it down to the low end. */
  lemma MaskedBit(b: bv8, index: nat)
    ensures (b & Mask(index) != 0) == ((b >> (index % 8)) & 1 == 1)
  {
  }

  /** Why a bitmap of the requested size cannot be made. */
  datatype BitmapError = NotPositive | NotByteAligned

  class Bitmap {
    var bytes: array<bv8>

    /** A new bitmap of `size` indices, all clear. */
    constructor (size: nat)
      requires size % 8 == 0
      ensures fresh(bytes)
      ensures Size() == size && Members() == {}
    {
      bytes := new bv8[size / 8](_ => 0);
      new;
      assert forall i :: 0 <= i < Size() ==> !Check(i);
    }

    /** The number of indices the bitmap can hold. */
    function Size(): (n: nat)
      reads this
      ensures n % 8 == 0
    {
      bytes.Length * 8
    }

    /** Whether the index is set; an index beyond Size() is outside the buffer. */
    function Check(index: nat): (isSet: bool)
      requires index < Size()
      reads this, bytes
      ensures isSet == ((bytes[index / 8] >> (index % 8)) & 1 == 1)
    {
      MaskedBit(bytes[index / 8], index);
      bytes[index / 8] & Mask(index) != 0
    }

    /** The set indices. */
    ghost function Members(): (s: set<nat>)
      reads this, bytes
      ensures forall i: nat :: i in s <==> i < Size() && Check(i)
    {
      set i: nat | i < Size() && Check(i)
    }

    /** Sets one index, leaving every other bit as it was. */
    method Set(index: nat)
      requires index < Size()
      modifies bytes
      ensures forall i :: 0 <= i < Size() ==> Check(i) == (i == index || old(Check(i)))
      ensures Members() == old(Members()) + {index}
    {
      var bucket := index / 8;
      bytes[bucket] := bytes[bucket] | Mask(index);
      forall i | 0 <= i < Size()
        ensures Check(i) == (i == index || old(Check(i)))
      {
        if i / 8 == bucket {
          MaskedOr(old(bytes[bucket]), index % 8, i % 8);
        }
      }
    }
  }

  /**
   * Makes a bitmap of `size` indices: the size must be positive and a whole
   * number of bytes.
   */
  method NewBitmap(size: nat) returns (r: Result<Bitmap, BitmapError>)
    ensures size == 0 ==> r == Failure(NotPositive)
    ensures size > 0 && size % 8 != 0 ==> r == Failure(NotByteAligned)
    ensures size > 0 && size % 8 == 0 ==>
      r.Success? && fresh(r.value) && fresh(r.value.bytes)
      && r.value.Size() == size && r.value.Members() == {}
  {
    if size == 0 {
      return Failure(NotPositive);
    }
    if size % 8 != 0 {
      return Failure(NotByteAligned);
    }
    var b := new Bitmap(size);
    return Success(b);
  }
}
