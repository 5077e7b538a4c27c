/**
 * The shared vocabulary of the proci accessor interface: the fixed-width
 * integer types the Go code uses and the MemoryStatus record returned by
 * the memory-status query.
 */
module Proci {

  const Uint32Limit: int := 0x1_0000_0000
  const Uint64Limit: int := 0x1_0000_0000_0000_0000

  /** Go's uint32, used for process identities. */
  type Uint32 = x: int | 0 <= x < Uint32Limit

  /** Go's uint64, used for byte counts. */
  type Uint64 = x: int | 0 <= x < Uint64Limit

  /** Go's int on a 64-bit target. */
  type Int64 = x: int | -0x8000_0000_0000_0000 <= x < 0x8000_0000_0000_0000

  /** Go's uint32(x) conversion of a non-negative int: keeps the low 32 bits. */
  function ToUint32(x: nat): (r: Uint32)
    ensures r < Uint32Limit && (x - r) % Uint32Limit == 0
    ensures x < Uint32Limit ==> r == x
  {
    x % Uint32Limit
  }

  /** Go's int addition on a 64-bit target: the exact sum wrapped into the int64 range. */
  function AddInt64(x: Int64, y: Int64): (r: Int64)
    ensures (r - (x + y)) % Uint64Limit == 0
  {
    (x + y + 0x8000_0000_0000_0000) % Uint64Limit - 0x8000_0000_0000_0000
  }

  /** Go's uint64(x) conversion of an int64: negative values are read as two's complement. */
  function Int64ToUint64(x: Int64): (r: Uint64)
    ensures (r - x) % Uint64Limit == 0
    ensures 0 <= x ==> r == x
  {
    if x < 0 then x + Uint64Limit else x
  }

  /** A wrapped int64 sum converted to uint64 is the exact sum whenever that fits in 64 unsigned bits. */
  lemma WrappedSumAsUint64(x: Int64, y: Int64)
    requires 0 <= x + y < Uint64Limit
    ensures Int64ToUint64(AddInt64(x, y)) == x + y
  {
  }

  /** A snapshot of the physical memory utilisation. */
  datatype MemoryStatus = MemoryStatus(
    memoryLoad: Uint32,   // memory load in percent, 0-100
    totalPhys: Uint64,    // total physical memory in bytes
    availPhys: Uint64)    // available physical memory in bytes

  /** What a memory-status snapshot promises its readers. */
  predicate Plausible(ms: MemoryStatus)
  {
    ms.memoryLoad <= 100 && ms.availPhys <= ms.totalPhys
  }
}
