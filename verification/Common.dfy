// Vocabulary shared by the storage, worker, master and codec models.
module Common {

  /** One byte of a block, a frame or a packet. */
  newtype byte = x: int | 0 <= x < 256

  type Block = seq<byte>

  datatype Option<+T> = None | Some(value: T)

  /** A `file:tag` pair, the unit every storage operation and every page table is keyed by. */
  datatype FileTag = FileTag(file: string, tag: string)

  /** The response codes of the storage module. */
  datatype Code = Correct | Missing | Preexisting | Insufficient | Forbidden | OutOfLimit

  /** A block of `size` zero bytes. */
  function Zeros(size: nat): (z: Block)
    ensures |z| == size && forall i :: 0 <= i < size ==> z[i] == 0
  {
    seq(size, _ => 0 as byte)
  }

  /** C's integer division, which truncates toward zero. */
  function TruncDiv(a: int, b: int): int
    requires b > 0
  {
    if a >= 0 then a / b else -((-a) / b)
  }

  /** The first clear bit of a bitmap from `i` on. */
  function FindFree(bitmap: seq<bool>, i: nat): (r: Option<nat>)
    requires i <= |bitmap|
    ensures r.Some? ==> i <= r.value < |bitmap| && !bitmap[r.value]
                        && forall j :: i <= j < r.value ==> bitmap[j]
    ensures r.None? ==> forall j :: i <= j < |bitmap| ==> bitmap[j]
    decreases |bitmap| - i
  {
    if i == |bitmap| then None
    else if !bitmap[i] then Some(i)
    else FindFree(bitmap, i + 1)
  }
}
