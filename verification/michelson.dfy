/** Values of the execution environment the ledger runs in: account addresses
    and amounts of mutez (millionths of a tez), whose addition fails on overflow. */
module Michelson {

  /** An account address. Only equality between addresses matters here. */
  type Address = nat

  /** The largest amount a mutez value can hold (a signed 64-bit range). */
  const MAX_MUTEZ: nat := 0x7FFF_FFFF_FFFF_FFFF

  /** Mutez per tez. */
  const MUTEZ_PER_TEZ: nat := 1_000_000

  type Mutez = x: nat | x <= MAX_MUTEZ

  datatype Option<T> = None | Some(value: T)

  /** Mutez addition: the environment aborts the call when the sum does not fit. */
  function AddMutez(a: Mutez, b: Mutez): (r: Option<Mutez>)
    ensures r.Some? <==> a + b <= MAX_MUTEZ
    ensures r.Some? ==> r.value - a == b
  {
    if a + b <= MAX_MUTEZ then Some(a + b) else None
  }

  /** `sp.tez(n)`: n whole tez as mutez. */
  function Tez(n: nat): (r: Mutez)
    requires n <= MAX_MUTEZ / MUTEZ_PER_TEZ
    ensures r / MUTEZ_PER_TEZ == n && r % MUTEZ_PER_TEZ == 0
  {
    n * MUTEZ_PER_TEZ
  }
}
