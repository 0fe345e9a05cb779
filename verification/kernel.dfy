/**
 * What the drivers share from the kernel: fixed-width integers, the errno
 * values they return, little-endian byte order, and the "stop at the first
 * failing bus operation" pattern every driver's command sequence follows.
 */
module Kernel {

  type u8 = x: int | 0 <= x < 0x100
  type u16 = x: int | 0 <= x < 0x1_0000
  type u32 = x: int | 0 <= x < 0x1_0000_0000

  datatype Option<T> = None | Some(value: T)

  // errno values from include/uapi/asm-generic/errno-base.h and errno.h;
  // drivers return them negated.
  const ENOENT: int := 2
  const EIO: int := 5
  const ENXIO: int := 6
  const ENOMEM: int := 12
  const ENODEV: int := 19
  const EINVAL: int := 22
  const ENOSYS: int := 38
  const EOVERFLOW: int := 75

  /** Truncating cast to u16, as C's `(u16)` does for an unsigned value. */
  function ToU16(v: nat): (r: u16)
    ensures v < 0x1_0000 ==> r == v
    ensures (v - r) % 0x1_0000 == 0
  {
    v % 0x1_0000
  }

  /** cpu_to_le16: the two bytes of a 16-bit value, least significant first. */
  function Le16(v: u16): (b: seq<u8>)
    ensures |b| == 2 && b[0] as int + 0x100 * (b[1] as int) == v
  {
    [v % 0x100, v / 0x100]
  }

  /** le16_to_cpu on two bytes in wire order; inverse of Le16. */
  function FromLe16(lo: u8, hi: u8): (v: u16)
    ensures Le16(v) == [lo, hi]
  {
    lo as int + 0x100 * (hi as int)
  }

  lemma FromLe16Le16(v: u16)
    ensures FromLe16(Le16(v)[0], Le16(v)[1]) == v
  {
  }

  /** x | mask: the bits of mask set, every other bit of x kept. */
  function SetBits(x: bv32, mask: bv32): (r: bv32)
    ensures r & mask == mask
    ensures r & !mask == x & !mask
  {
    x | mask
  }

  /** x & ~mask: the bits of mask cleared, every other bit of x kept. */
  function ClearBits(x: bv32, mask: bv32): (r: bv32)
    ensures r & mask == 0
    ensures r & !mask == x & !mask
  {
    x & !mask
  }

  /**
   * Of `n` bus operations issued one after another, the k-th of them numbered
   * `start + k`, the offset of the first one whose return value `ret` is
   * negative, or `n` when all of them succeed.  A command sequence that
   * returns on the first error attempts `Attempted(n, start, ret)` of them.
   */
  function FirstFailure(n: nat, start: nat, ret: nat -> int): (k: nat)
    ensures k <= n
    ensures forall j :: start <= j < start + k ==> ret(j) >= 0
    ensures k < n ==> ret(start + k) < 0
    decreases n
  {
    if n == 0 then 0
    else if ret(start) < 0 then 0
    else 1 + FirstFailure(n - 1, start + 1, ret)
  }

  /** How many of `n` early-returning operations are issued: up to and including the first failure. */
  function Attempted(n: nat, start: nat, ret: nat -> int): (a: nat)
    ensures a <= n
    ensures FirstFailure(n, start, ret) < n ==> a == FirstFailure(n, start, ret) + 1
    ensures FirstFailure(n, start, ret) == n ==> a == n
  {
    var k := FirstFailure(n, start, ret);
    if k < n then k + 1 else n
  }

  /** The status an early-returning sequence reports: 0, or the first failure's error. */
  function SequenceStatus(n: nat, start: nat, ret: nat -> int): (r: int)
    ensures r <= 0
    ensures r == 0 <==> FirstFailure(n, start, ret) == n
  {
    var k := FirstFailure(n, start, ret);
    if k < n then ret(start + k) else 0
  }

  /**
   * The characterisation of FirstFailure determines it: if the operations
   * before offset k succeed and the one at k fails (or k == n), then k is
   * the first failure.
   */
  lemma {:induction false} FirstFailureUnique(n: nat, start: nat, ret: nat -> int, k: nat)
    requires k <= n
    requires forall j :: start <= j < start + k ==> ret(j) >= 0
    requires k < n ==> ret(start + k) < 0
    ensures FirstFailure(n, start, ret) == k
  {
  }

  /** A run whose step k is its first failure: k + 1 steps issued, and step k's error returned. */
  lemma StopsAt(n: nat, start: nat, ret: nat -> int, k: nat)
    requires k < n
    requires forall j :: start <= j < start + k ==> ret(j) >= 0
    requires ret(start + k) < 0
    ensures FirstFailure(n, start, ret) == k
    ensures Attempted(n, start, ret) == k + 1
    ensures SequenceStatus(n, start, ret) == ret(start + k)
  {
    FirstFailureUnique(n, start, ret, k);
  }

  /** A run with no failing step: all n steps issued, and 0 returned. */
  lemma RunsThrough(n: nat, start: nat, ret: nat -> int)
    requires forall j :: start <= j < start + n ==> ret(j) >= 0
    ensures FirstFailure(n, start, ret) == n
    ensures Attempted(n, start, ret) == n
    ensures SequenceStatus(n, start, ret) == 0
  {
    FirstFailureUnique(n, start, ret, n);
  }
}
