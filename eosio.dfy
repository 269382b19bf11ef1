/** The slice of the EOSIO contract runtime the burn contract relies on:
    account names, token symbols, assets with their 62-bit magnitude bound,
    and the 64-bit integer arithmetic of the compiled contract. */
module Eosio {
  import opened Results

  /** An account name such as "eosio.token". */
  type Name = string

  /** The 32 characters an account name may use. */
  const NAME_CHARS: string := ".12345abcdefghijklmnopqrstuvwxyz"

  predicate ValidName(n: Name) {
    |n| <= 13 && forall i :: 0 <= i < |n| ==> n[i] in NAME_CHARS
  }

  /** No account name contains a character outside the name alphabet, so in
      particular none contains the '#' field separator of an Alcor memo. */
  lemma NameHasNoHash(n: Name)
    requires ValidName(n)
    ensures '#' !in n
  {
    assert '#' !in NAME_CHARS;
  }

  const INT64_MIN: int := -0x8000_0000_0000_0000
  const INT64_MAX: int := 0x7FFF_FFFF_FFFF_FFFF
  const UINT64_MAX: int := 0xFFFF_FFFF_FFFF_FFFF
  const TWO_POW_64: int := 0x1_0000_0000_0000_0000

  /** `asset::max_amount`, 2^62 - 1: the largest magnitude an asset may hold. */
  const MAX_AMOUNT: int := 0x3FFF_FFFF_FFFF_FFFF

  predicate IsInt64(x: int) { INT64_MIN <= x <= INT64_MAX }

  predicate IsUint64(x: int) { 0 <= x <= UINT64_MAX }

  /** The two's-complement value a 64-bit signed register holds after an
      operation whose exact result is `x`, as WebAssembly `i64` arithmetic
      computes it. In C++ a signed overflow is undefined behaviour, so this
      is what a build that keeps the operation and wraps produces, not what
      every build must produce. */
  function WrapInt64(x: int): (r: int)
    ensures IsInt64(r)
    ensures (x - r) % TWO_POW_64 == 0
    ensures IsInt64(x) ==> r == x
  {
    (x - INT64_MIN) % TWO_POW_64 + INT64_MIN
  }

  /** C++ integer division, which rounds toward zero (Dafny's `/` is
      Euclidean and rounds a negative quotient down instead). */
  function TruncDiv(a: int, b: int): int
    requires b > 0
  {
    if a >= 0 then a / b else -((-a) / b)
  }

  /** A token symbol: its code ("WAX") and the number of decimal places. */
  datatype Symbol = Symbol(code: string, precision: nat)

  /** An amount in the smallest unit of its symbol: 1.00000000 WAX is
      Asset(100000000, Symbol("WAX", 8)). */
  datatype Asset = Asset(amount: int, sym: Symbol)

  predicate InRange(amount: int) { -MAX_AMOUNT <= amount <= MAX_AMOUNT }

  /** `asset::is_valid` restricted to the amount: the magnitude bound. */
  predicate ValidAsset(a: Asset) { InRange(a.amount) }

  /** `asset::operator+=`: adding assets of different symbols, or reaching a
      magnitude beyond `max_amount`, fails the runtime check. */
  function Add(a: Asset, b: Asset): (r: Result<Asset>)
    ensures r.Ok? <==> a.sym == b.sym && InRange(a.amount + b.amount)
    ensures r.Ok? ==> r.value.sym == a.sym && r.value.amount == a.amount + b.amount
    ensures r.Err? && a.sym == b.sym ==> r.msg in {"addition overflow", "addition underflow"}
  {
    if a.sym != b.sym then Err("attempt to add asset with different symbol")
    else if a.amount + b.amount < -MAX_AMOUNT then Err("addition underflow")
    else if a.amount + b.amount > MAX_AMOUNT then Err("addition overflow")
    else Ok(Asset(a.amount + b.amount, a.sym))
  }
}
