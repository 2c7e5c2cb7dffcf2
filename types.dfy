/** Value types shared by the canister's endpoints (types.rs, and the share records of vetkd.rs). */
module Types {

  /** An unsigned byte (`u8` as an element of a byte vector). */
  type Byte = x: int | 0 <= x < 0x100

  /** The `u8` quorum. */
  type U8 = x: int | 0 <= x < 0x100

  type U32 = x: int | 0 <= x < 0x1_0000_0000

  type U64 = x: int | 0 <= x < 0x1_0000_0000_0000_0000

  type U128 = x: int | 0 <= x < 0x1_0000_0000_0000_0000_0000_0000_0000_0000

  /** A principal is compared byte for byte, as `Principal::as_slice` exposes it. */
  type Principal = seq<Byte>

  datatype Option<T> = None | Some(value: T)

  /** The canister's `Result<T, String>`: errors are human-readable strings. */
  datatype Result<T> = Ok(value: T) | Err(error: string)

  /** The outcome of an awaited inter-canister call: rejected by the system, or a reply. */
  datatype CallResult<T> = Rejected(reason: string) | Replied(reply: T)

  datatype Config = Config(ckbtc_ledger: Principal, ckbtc_minter: Principal, ecdsa_key_name: string)

  datatype GuardianState = GuardianState(guardians: seq<Principal>, quorum: U8, owner: Principal)

  datatype RecoveryRequest = RecoveryRequest(id: nat, new_owner: Principal, approvals: seq<Principal>, open: bool)

  /** An ICRC-1 account; the subaccount is 32 bytes when present. */
  datatype Icrc1Account = Icrc1Account(owner: Principal, subaccount: Option<seq<Byte>>)

  datatype GuardianShare = GuardianShare(
    guardian: Principal,
    encrypted_share: seq<Byte>,
    share_index: U8,
    derivation_path: seq<seq<Byte>>)

  datatype RecoverySecret = RecoverySecret(
    secret_id: seq<Byte>,
    guardian_shares: map<Principal, GuardianShare>,
    threshold: U8,
    created_at: U64)

  /** `n as u8` on a `usize`: keeps the low eight bits. */
  function AsU8(n: nat): (r: U8)
    ensures n < 0x100 ==> r == n
    ensures (r - n) % 0x100 == 0
  {
    n % 0x100
  }

  function Min(a: int, b: int): int { if a <= b then a else b }

  function Max(a: int, b: int): int { if a >= b then a else b }

  /** True when no element occurs twice. */
  predicate NoDuplicates<T(==)>(xs: seq<T>) {
    forall i, j :: 0 <= i < j < |xs| ==> xs[i] != xs[j]
  }

  /** The bytes of an ASCII byte-string literal such as `b"guardian_vault"`. */
  function Latin1(s: string): (r: seq<Byte>)
    ensures |r| == |s|
    ensures forall i :: 0 <= i < |s| && s[i] as int < 0x100 ==> r[i] == s[i] as int
  {
    seq(|s|, i requires 0 <= i < |s| => s[i] as int % 0x100)
  }

  /** `[0u8; n]`: `n` zero bytes. */
  function Zeros(n: nat): (r: seq<Byte>)
    ensures |r| == n
    ensures forall i :: 0 <= i < n ==> r[i] == 0
  {
    seq(n, _ => 0)
  }

  /** A SHA-256 digest. */
  type Digest = d: seq<Byte> | |d| == 32 witness Zeros(32)

  /** `x.to_be_bytes()` for an `n`-byte unsigned integer: most significant byte first. */
  function ToBigEndian(x: nat, n: nat): (r: seq<Byte>)
    ensures |r| == n
    decreases n
  {
    if n == 0 then [] else ToBigEndian(x / 0x100, n - 1) + [x % 0x100]
  }

  /** The unsigned integer a big-endian byte string denotes. */
  function FromBigEndian(bytes: seq<Byte>): nat
  {
    if bytes == [] then 0 else FromBigEndian(bytes[..|bytes| - 1]) * 0x100 + bytes[|bytes| - 1]
  }

  function Pow256(n: nat): (r: nat)
    ensures r >= 1
  {
    if n == 0 then 1 else 0x100 * Pow256(n - 1)
  }

  /** Big-endian encoding to `n` bytes loses nothing for values below 256^n. */
  lemma {:induction false} BigEndianRoundTrip(x: nat, n: nat)
    requires x < Pow256(n)
    ensures FromBigEndian(ToBigEndian(x, n)) == x
    decreases n
  {
    if n > 0 {
      var r := ToBigEndian(x, n);
      assert r[..n - 1] == ToBigEndian(x / 0x100, n - 1);
      assert x / 0x100 < Pow256(n - 1);
      BigEndianRoundTrip(x / 0x100, n - 1);
    }
  }

  lemma Pow256Values()
    ensures Pow256(4) == 0x1_0000_0000
    ensures Pow256(8) == 0x1_0000_0000_0000_0000
  {
    assert Pow256(1) == 0x100;
    assert Pow256(2) == 0x1_0000;
    assert Pow256(3) == 0x100_0000;
    assert Pow256(4) == 0x1_0000_0000;
    assert Pow256(5) == 0x100_0000_0000;
    assert Pow256(6) == 0x1_0000_0000_0000;
    assert Pow256(7) == 0x100_0000_0000_0000;
  }

  /** Distinct `u64` values have distinct `to_be_bytes()`. */
  lemma BigEndianInjective64(x: U64, y: U64)
    requires x != y
    ensures ToBigEndian(x, 8) != ToBigEndian(y, 8)
  {
    Pow256Values();
    BigEndianRoundTrip(x, 8);
    BigEndianRoundTrip(y, 8);
  }
}
