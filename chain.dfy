/**
 * What the dashboard sees of the chain: the error object a failed call throws, the
 * 32-byte role and vaccine-type identifiers, and the conversion of on-chain integers
 * to JavaScript numbers.
 */
module Chain {
  import opened Wrappers

  /**
   * The fields of a thrown ethers error that the dashboard inspects; an absent field
   * is the empty string, which JavaScript treats as false just like `undefined`.
   */
  datatype ChainError = ChainError(message: string, code: string, errorName: string, reason: string)

  /**
   * A 32-byte identifier. `HashZero` is `ethers.constants.HashZero`; `Keccak(n)` stands
   * for `keccak256(toUtf8Bytes(n))`, kept symbolic: two different names give different
   * identifiers and none of them is the zero hash, which is the collision resistance
   * the contracts rely on to join records by name.
   */
  datatype Hash = HashZero | Keccak(text: string)

  /** The error `getContract` throws without an address, an ABI or a signer. */
  const MissingParameters := ChainError("Missing contract parameters", "", "", "")

  /** `Number.MAX_SAFE_INTEGER`, the largest value `BigNumber.toNumber()` returns. */
  const MaxSafeInteger: nat := 0x1F_FFFF_FFFF_FFFF

  /** `BigNumber.toNumber()`: throws (here `None`) on overflow of the safe range. */
  function ToNumber(v: nat): (r: Option<nat>)
    ensures r.Some? <==> v <= MaxSafeInteger
    ensures r.Some? ==> r.value == v
  {
    if v <= MaxSafeInteger then Some(v) else None
  }
}
