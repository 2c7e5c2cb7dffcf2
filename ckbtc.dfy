/**
 * Subaccount derivation and the subaccount map of the ckBTC integration (ckbtc.rs). The ledger
 * and minter calls themselves are forwards to other canisters; only the canister-side effect of
 * `get_deposit_address` is modelled, with the minter's answer as an input.
 */
module CkBtc {
  import opened Types
  import opened State

  const SubaccountLen: nat := 32

  /** The most principal bytes a principal-derived subaccount can hold after its length byte. */
  const MaxPrincipalBytes: nat := 29

  /**
   * `derive_subaccount_from_principal`: 32 bytes, the first holding how many principal bytes
   * follow (at most 29), then those bytes, then zeros.
   */
  function PrincipalSubaccount(p: Principal): (r: seq<Byte>)
    ensures |r| == SubaccountLen
    ensures r[0] == Min(|p|, MaxPrincipalBytes)
    ensures r[1..1 + r[0]] == p[..r[0]]
    ensures forall i :: 1 + r[0] <= i < SubaccountLen ==> r[i] == 0
  {
    var len := Min(|p|, MaxPrincipalBytes);
    [len] + p[..len] + Zeros(SubaccountLen - 1 - len)
  }

  /** Reads the principal bytes back out of a length-prefixed subaccount. */
  function SubaccountPrincipal(sub: seq<Byte>): (p: Option<Principal>)
    ensures p.Some? ==> |p.value| <= MaxPrincipalBytes
  {
    if |sub| != SubaccountLen || sub[0] > MaxPrincipalBytes then None else Some(sub[1..1 + sub[0]])
  }

  /** A principal of at most 29 bytes is recovered from its subaccount. */
  lemma SubaccountRoundTrip(p: Principal)
    requires |p| <= MaxPrincipalBytes
    ensures SubaccountPrincipal(PrincipalSubaccount(p)) == Some(p)
  {
    var sub := PrincipalSubaccount(p);
    assert sub[1..1 + sub[0]] == p[..|p|] == p;
  }

  /** Hence no two such principals share a subaccount. */
  lemma SubaccountInjective(p: Principal, q: Principal)
    requires |p| <= MaxPrincipalBytes && |q| <= MaxPrincipalBytes
    requires PrincipalSubaccount(p) == PrincipalSubaccount(q)
    ensures p == q
  {
    SubaccountRoundTrip(p);
    SubaccountRoundTrip(q);
  }

  /** Longer byte strings are cut to 29 bytes, so two of them that agree on those bytes collide. */
  lemma SubaccountTruncates(p: Principal, q: Principal)
    requires |p| >= MaxPrincipalBytes && |q| >= MaxPrincipalBytes
    requires p[..MaxPrincipalBytes] == q[..MaxPrincipalBytes]
    ensures PrincipalSubaccount(p) == PrincipalSubaccount(q)
  {
  }

  /** The buffer-filling code of `derive_subaccount_from_principal`. */
  method DeriveSubaccountFromPrincipal(p: Principal) returns (r: seq<Byte>)
    ensures r == PrincipalSubaccount(p)
  {
    var subaccount := new Byte[SubaccountLen](_ => 0);
    var len := if |p| < MaxPrincipalBytes then |p| else MaxPrincipalBytes;
    subaccount[0] := len;
    // copy the first `len` principal bytes in after the length byte
    var i := 0;
    while i < len
      invariant 0 <= i <= len
      invariant subaccount[0] == len
      invariant forall j :: 1 <= j <= i ==> subaccount[j] == p[j - 1]
      invariant forall j :: i < j < SubaccountLen ==> subaccount[j] == 0
    {
      subaccount[i + 1] := p[i];
      i := i + 1;
    }
    r := subaccount[..];
    assert r == PrincipalSubaccount(p) by {
      var e := PrincipalSubaccount(p);
      assert forall j :: 0 <= j < SubaccountLen ==> r[j] == e[j];
    }
  }

  /**
   * `derive_subaccount_from_seed`, with the `DefaultHasher` digest of the seed as the function
   * `hasher`: the digest in big-endian order, then 24 zero bytes.
   */
  function SeedSubaccount(seed: string, hasher: string -> U64): (r: seq<Byte>)
    ensures |r| == SubaccountLen
    ensures r[..8] == ToBigEndian(hasher(seed), 8)
    ensures forall i :: 8 <= i < SubaccountLen ==> r[i] == 0
  {
    ToBigEndian(hasher(seed), 8) + Zeros(SubaccountLen - 8)
  }

  /** The first eight bytes of a seed subaccount carry the whole digest. */
  lemma SeedSubaccountCarriesDigest(seed: string, hasher: string -> U64)
    ensures FromBigEndian(SeedSubaccount(seed, hasher)[..8]) == hasher(seed)
  {
    Pow256Values();
    BigEndianRoundTrip(hasher(seed), 8);
  }

  /** The string `create_subaccount` hashes: the caller's textual form, a colon, the seed. */
  function SeedFor(caller: Principal, seed: string, toText: Principal -> string): string {
    toText(caller) + ":" + seed
  }

  /**
   * `create_subaccount`: derives a subaccount from the caller and the seed and stores it under
   * the caller, replacing any earlier one. It returns the subaccount itself, not a `Result`.
   */
  function CreateSubaccountStep(s: VaultStateV1, caller: Principal, seed: string, hasher: string -> U64, toText: Principal -> string)
    : (out: (VaultStateV1, seq<Byte>))
    ensures out.1 == SeedSubaccount(SeedFor(caller, seed, toText), hasher)
    ensures out.0.subaccounts == s.subaccounts[caller := out.1]
    ensures out.0 == s.(subaccounts := out.0.subaccounts)
    ensures forall u :: u != caller ==> (u in out.0.subaccounts <==> u in s.subaccounts)
    ensures forall u :: u != caller && u in s.subaccounts ==> out.0.subaccounts[u] == s.subaccounts[u]
    ensures Valid(s) ==> Valid(out.0)
    ensures Evolves(s, out.0)
  {
    var sub := SeedSubaccount(SeedFor(caller, seed, toText), hasher);
    var t := s.(subaccounts := s.subaccounts[caller := sub]);
    SameRecoveryBookkeeping(s, t);
    (t, sub)
  }

  /** What `get_user_subaccount` answers in state `s`. */
  function UserSubaccount(s: VaultStateV1, caller: Principal): (r: Option<seq<Byte>>)
    ensures r.Some? <==> caller in s.subaccounts
    ensures r.Some? ==> r.value == s.subaccounts[caller]
  {
    if caller in s.subaccounts then Some(s.subaccounts[caller]) else None
  }

  /** After `create_subaccount`, the caller's lookup returns what the call returned; others see no change. */
  lemma CreateThenGetSubaccount(s: VaultStateV1, caller: Principal, other: Principal, seed: string, hasher: string -> U64, toText: Principal -> string)
    requires other != caller
    ensures var (t, sub) := CreateSubaccountStep(s, caller, seed, hasher, toText);
      UserSubaccount(t, caller) == Some(sub) && UserSubaccount(t, other) == UserSubaccount(s, other)
  {
  }

  /**
   * The canister side of `get_deposit_address`, with the minter's answer as `reply` (its error
   * already formatted as text): the caller's subaccount is recorded only when the minter returned
   * an address and a subaccount was supplied.
   */
  function GetDepositAddressStep(s: VaultStateV1, caller: Principal, subaccount: Option<seq<Byte>>, reply: CallResult<Result<string>>)
    : (out: Step<string>)
    ensures s.config.None? ==> out == Step(s, Err(ErrNoConfig))
    ensures s.config.Some? && reply.Rejected? ==> out == Step(s, Err("get_deposit_address failed: " + reply.reason))
    ensures s.config.Some? && reply.Replied? && reply.reply.Err? ==>
      out == Step(s, Err("deposit address error: " + reply.reply.error))
    ensures out.result.Ok? <==> s.config.Some? && reply.Replied? && reply.reply.Ok?
    ensures out.result.Ok? ==> out.result.value == reply.reply.value
    ensures out.state.subaccounts ==
      if out.result.Ok? && subaccount.Some? then s.subaccounts[caller := subaccount.value] else s.subaccounts
    ensures out.state == s.(subaccounts := out.state.subaccounts)
    ensures Valid(s) ==> Valid(out.state)
    ensures Evolves(s, out.state)
  {
    SameRecoveryBookkeeping(s, s);
    if s.config.None? then Step(s, Err(ErrNoConfig))
    else match reply
      case Rejected(reason) => Step(s, Err("get_deposit_address failed: " + reason))
      case Replied(Err(e)) => Step(s, Err("deposit address error: " + e))
      case Replied(Ok(address)) =>
        var t := if subaccount.Some? then s.(subaccounts := s.subaccounts[caller := subaccount.value]) else s;
        SameRecoveryBookkeeping(s, t);
        Step(t, Ok(address))
  }

  /** `nat_to_u128`: the value when it fits in 128 bits, and 0 otherwise. */
  function NatToU128(n: nat): (r: U128)
    ensures n < 0x1_0000_0000_0000_0000_0000_0000_0000_0000 ==> r == n
    ensures n >= 0x1_0000_0000_0000_0000_0000_0000_0000_0000 ==> r == 0
  {
    if n < 0x1_0000_0000_0000_0000_0000_0000_0000_0000 then n else 0
  }

  /** `nat_to_u64`: the value when it fits in 64 bits, and 0 otherwise. */
  function NatToU64(n: nat): (r: U64)
    ensures n < 0x1_0000_0000_0000_0000 ==> r == n
    ensures n >= 0x1_0000_0000_0000_0000 ==> r == 0
  {
    if n < 0x1_0000_0000_0000_0000 then n else 0
  }

  method CreateSubaccount(cell: StateCell, caller: Principal, seed: string, hasher: string -> U64, toText: Principal -> string)
    returns (subaccount: seq<Byte>)
    modifies cell
    ensures (cell.state, subaccount) == CreateSubaccountStep(old(cell.state), caller, seed, hasher, toText)
  {
    subaccount := SeedSubaccount(toText(caller) + ":" + seed, hasher);
    var current := cell.state;
    current := current.(subaccounts := current.subaccounts[caller := subaccount]);
    cell.state := current;
  }

  method GetUserSubaccount(cell: StateCell, caller: Principal) returns (r: Option<seq<Byte>>)
    ensures r == UserSubaccount(cell.state, caller)
  {
    if caller in cell.state.subaccounts {
      r := Some(cell.state.subaccounts[caller]);
    } else {
      r := None;
    }
  }

  /** `get_principal_subaccount`: a query that reads no state. */
  method GetPrincipalSubaccount(caller: Principal) returns (r: seq<Byte>)
    ensures r == PrincipalSubaccount(caller)
    ensures |caller| <= MaxPrincipalBytes ==> SubaccountPrincipal(r) == Some(caller)
  {
    r := DeriveSubaccountFromPrincipal(caller);
    if |caller| <= MaxPrincipalBytes {
      SubaccountRoundTrip(caller);
    }
  }

  method GetDepositAddress(cell: StateCell, caller: Principal, subaccount: Option<seq<Byte>>, reply: CallResult<Result<string>>)
    returns (r: Result<string>)
    modifies cell
    ensures Step(cell.state, r) == GetDepositAddressStep(old(cell.state), caller, subaccount, reply)
  {
    if cell.state.config.None? {
      return Err(ErrNoConfig);
    }
    if reply.Rejected? {
      return Err("get_deposit_address failed: " + reply.reason);
    }
    match reply.reply {
      case Ok(address) =>
        var current := cell.state;
        if subaccount.Some? {
          current := current.(subaccounts := current.subaccounts[caller := subaccount.value]);
        }
        cell.state := current;
        r := Ok(address);
      case Err(e) =>
        r := Err("deposit address error: " + e);
    }
  }
}
