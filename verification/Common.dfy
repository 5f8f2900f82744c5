/** Machine constants and small datatypes shared by every part of the model. */
module Common {

  type byte = x: int | 0 <= x < 256

  const U32_MOD: nat := 0x1_0000_0000
  const UINT32_MAX: nat := 0xFFFF_FFFF
  const UINT64_MAX: nat := 0xFFFF_FFFF_FFFF_FFFF

  // The quarter marks of the 32-bit id circle (UINT32_MAX / 4 and UINT32_MAX / 4 * 3).
  const QUARTER: nat := UINT32_MAX / 4
  const QUARTER3: nat := UINT32_MAX / 4 * 3

  datatype Option<+T> = None | Some(value: T)

  /** The uint32 increment, which wraps to zero. */
  function Inc32(x: nat): nat {
    (x + 1) % U32_MOD
  }

  function Max(a: nat, b: nat): nat {
    if a < b then b else a
  }

  ghost predicate Suffix<T>(a: seq<T>, b: seq<T>) {
    |b| <= |a| && b == a[|a| - |b|..]
  }

  lemma QuotientBelow(a: nat, b: nat, q: nat)
    requires b > 0 && a < q * b
    ensures a / b < q
  {
  }
}
