/**
 * Threshold-ECDSA wallet helpers (ecdsa.rs): per-user derivation paths, the mock Bitcoin address
 * built from a public key, and the per-caller address cache. The management canister's replies
 * and SHA-256 are inputs.
 */
module Ecdsa {
  import opened Types
  import opened State

  const ErrInvalidKeyLength := "Invalid public key length"
  const EcdsaCurve := "secp256k1"

  predicate IsLowerHex(c: char) {
    ('0' <= c <= '9') || ('a' <= c <= 'f')
  }

  /** One lowercase hexadecimal digit. */
  function HexDigit(d: nat): (c: char)
    requires d < 16
    ensures IsLowerHex(c)
  {
    if d < 10 then '0' + d as char else 'a' + (d - 10) as char
  }

  /** The value of a lowercase hexadecimal digit. */
  function HexValue(c: char): (v: Option<nat>)
    ensures v.Some? <==> IsLowerHex(c)
    ensures v.Some? ==> v.value < 16 && HexDigit(v.value) == c
  {
    if '0' <= c <= '9' then Some(c as int - '0' as int)
    else if 'a' <= c <= 'f' then Some(c as int - 'a' as int + 10)
    else None
  }

  /** `format!("{:02x}", b)`: two lowercase digits, high nibble first. */
  function ByteHex(b: Byte): (r: string)
    ensures |r| == 2 && HexValue(r[0]) == Some(b / 16) && HexValue(r[1]) == Some(b % 16)
  {
    [HexDigit(b / 16), HexDigit(b % 16)]
  }

  /** `hex::encode`: the bytes' two-digit forms, concatenated. */
  function HexEncode(bytes: seq<Byte>): (r: string)
    ensures |r| == 2 * |bytes|
    ensures forall i :: 0 <= i < |r| ==> IsLowerHex(r[i])
    ensures forall i :: 0 <= i < |bytes| ==> r[2 * i] == HexDigit(bytes[i] / 16) && r[2 * i + 1] == HexDigit(bytes[i] % 16)
  {
    if bytes == [] then [] else ByteHex(bytes[0]) + HexEncode(bytes[1..])
  }

  /** Reads pairs of lowercase hexadecimal digits back into bytes. */
  function HexDecode(s: string): (r: Option<seq<Byte>>)
    ensures r.Some? ==> 2 * |r.value| == |s|
    decreases |s|
  {
    if s == [] then Some([])
    else if |s| == 1 then None
    else
      var hi, lo := HexValue(s[0]), HexValue(s[1]);
      if hi.None? || lo.None? then None
      else match HexDecode(s[2..])
        case None => None
        case Some(rest) => Some([hi.value * 16 + lo.value] + rest)
  }

  /** Decoding the encoding gives the bytes back. */
  lemma {:induction false} HexRoundTrip(bytes: seq<Byte>)
    ensures HexDecode(HexEncode(bytes)) == Some(bytes)
    decreases |bytes|
  {
    if bytes != [] {
      var e := HexEncode(bytes);
      assert e[..2] == ByteHex(bytes[0]) && e[2..] == HexEncode(bytes[1..]);
      HexRoundTrip(bytes[1..]);
      assert [bytes[0]] + bytes[1..] == bytes;
    }
  }

  /** `create_user_derivation_path`: the bytes of `guardian_vault`, then the user's bytes. */
  function UserDerivationPath(user: Principal): (path: seq<seq<Byte>>)
    ensures |path| == 2 && path[0] == Latin1("guardian_vault") && path[1] == user
  {
    [Latin1("guardian_vault"), user]
  }

  /** Distinct users derive their keys along distinct paths. */
  lemma UserDerivationPathInjective(u: Principal, v: Principal)
    requires u != v
    ensures UserDerivationPath(u) != UserDerivationPath(v)
  {
    assert UserDerivationPath(u)[1] != UserDerivationPath(v)[1];
  }

  datatype EcdsaKeyId = EcdsaKeyId(curve: string, name: string)

  datatype EcdsaPublicKeyArgs = EcdsaPublicKeyArgs(canister_id: Option<Principal>, derivation_path: seq<seq<Byte>>, key_id: EcdsaKeyId)

  /**
   * `ecdsa_public_key`: needs the configuration (for the key name), then forwards one management
   * call whose answer is `reply`.
   */
  function EcdsaPublicKey(s: VaultStateV1, reply: CallResult<seq<Byte>>): Result<seq<Byte>> {
    ConfiguredCall(s, "ecdsa_public_key", reply)
  }

  /** The request `ecdsa_public_key` sends for `path` from canister `self`. */
  function EcdsaPublicKeyRequest(cfg: Config, self: Principal, path: seq<seq<Byte>>): (args: EcdsaPublicKeyArgs)
    ensures args.derivation_path == path && args.canister_id == Some(self)
    ensures args.key_id == EcdsaKeyId(EcdsaCurve, cfg.ecdsa_key_name)
  {
    EcdsaPublicKeyArgs(Some(self), path, EcdsaKeyId(EcdsaCurve, cfg.ecdsa_key_name))
  }

  /** The path `derive_child_key` builds: the user path with the child index pushed as 4 big-endian bytes. */
  method ChildKeyPath(user: Principal, childIndex: U32) returns (path: seq<seq<Byte>>)
    ensures path == UserDerivationPath(user) + [ToBigEndian(childIndex, 4)]
    ensures |path| == 3 && path[..2] == UserDerivationPath(user)
    ensures |path[2]| == 4 && FromBigEndian(path[2]) == childIndex
  {
    path := UserDerivationPath(user);
    path := path + [ToBigEndian(childIndex, 4)];
    Pow256Values();
    BigEndianRoundTrip(childIndex, 4);
  }

  /**
   * `derive_child_key`: asks for the public key along the child path; answers what
   * `ecdsa_public_key` answers. `request` is the call it makes, if it gets that far.
   */
  method DeriveChildKey(cell: StateCell, caller: Principal, self: Principal, childIndex: U32, reply: CallResult<seq<Byte>>)
    returns (request: Option<EcdsaPublicKeyArgs>, r: Result<seq<Byte>>)
    ensures r == EcdsaPublicKey(cell.state, reply)
    ensures request.Some? <==> cell.state.config.Some?
    ensures request.Some? ==>
      && request.value == EcdsaPublicKeyRequest(cell.state.config.value, self, UserDerivationPath(caller) + [ToBigEndian(childIndex, 4)])
      && FromBigEndian(request.value.derivation_path[2]) == childIndex
  {
    var path := ChildKeyPath(caller, childIndex);
    if cell.state.config.None? {
      return None, Err(ErrNoConfig);
    }
    request := Some(EcdsaPublicKeyRequest(cell.state.config.value, self, path));
    r := EcdsaPublicKey(cell.state, reply);
  }

  /** The bytes hashed for the mock address: the tag `btc_address_`, then the key. */
  function AddressHashInput(publicKey: seq<Byte>): (r: seq<Byte>)
    ensures |r| == 12 + |publicKey| && r[12..] == publicKey
  {
    Latin1("btc_address_") + publicKey
  }

  /**
   * `public_key_to_bitcoin_address`: only 33-byte (compressed) or 65-byte (uncompressed) keys are
   * accepted; the mock address is `bc1q` and the hex of the first 20 digest bytes.
   */
  function BitcoinAddress(publicKey: seq<Byte>, sha256: seq<Byte> -> Digest): (r: Result<string>)
    ensures r.Ok? <==> |publicKey| == 33 || |publicKey| == 65
    ensures r.Err? ==> r.error == ErrInvalidKeyLength
    ensures r.Ok? ==>
      && |r.value| == 44
      && r.value[..4] == "bc1q"
      && (forall i :: 4 <= i < 44 ==> IsLowerHex(r.value[i]))
      && HexDecode(r.value[4..]) == Some(sha256(AddressHashInput(publicKey))[..20])
  {
    if |publicKey| != 33 && |publicKey| != 65 then Err(ErrInvalidKeyLength)
    else
      var hash := sha256(AddressHashInput(publicKey));
      var address := "bc1q" + HexEncode(hash[..20]);
      HexRoundTrip(hash[..20]);
      assert address[4..] == HexEncode(hash[..20]);
      Ok(address)
  }

  /** The unit-test vectors: 33 bytes of 0x02 and 65 bytes of 0x04 are accepted, 32 zero bytes are not. */
  lemma BitcoinAddressKeyLengths(sha256: seq<Byte> -> Digest)
    ensures BitcoinAddress(seq(33, _ => 0x02), sha256).Ok?
    ensures BitcoinAddress(seq(33, _ => 0x02), sha256).value[..4] == "bc1q"
    ensures BitcoinAddress(seq(65, _ => 0x04), sha256).Ok?
    ensures BitcoinAddress(Zeros(32), sha256).Err?
  {
  }

  /**
   * `generate_bitcoin_address`: fetches the caller's public key, turns it into an address and
   * records it under the caller, replacing any earlier one.
   */
  function GenerateBitcoinAddressStep(s: VaultStateV1, caller: Principal, keyReply: CallResult<seq<Byte>>, sha256: seq<Byte> -> Digest)
    : (out: Step<string>)
    ensures EcdsaPublicKey(s, keyReply).Err? ==> out == Step(s, Err(EcdsaPublicKey(s, keyReply).error))
    ensures EcdsaPublicKey(s, keyReply).Ok? && BitcoinAddress(keyReply.reply, sha256).Err? ==>
      out == Step(s, Err(ErrInvalidKeyLength))
    ensures out.result.Ok? <==>
      s.config.Some? && keyReply.Replied? && (|keyReply.reply| == 33 || |keyReply.reply| == 65)
    ensures out.result.Ok? ==>
      && out.result == BitcoinAddress(keyReply.reply, sha256)
      && out.state == s.(btc_addresses := s.btc_addresses[caller := out.result.value])
    ensures out.result.Err? ==> out.state == s
    ensures Valid(s) ==> Valid(out.state)
    ensures Evolves(s, out.state)
  {
    SameRecoveryBookkeeping(s, s);
    match EcdsaPublicKey(s, keyReply)
      case Err(e) => Step(s, Err(e))
      case Ok(publicKey) =>
        match BitcoinAddress(publicKey, sha256)
          case Err(e) => Step(s, Err(e))
          case Ok(address) =>
            var t := s.(btc_addresses := s.btc_addresses[caller := address]);
            SameRecoveryBookkeeping(s, t);
            Step(t, Ok(address))
  }

  /**
   * `get_or_create_bitcoin_address`: a cached address is returned as it is, without any call;
   * otherwise one is generated. Either way, on success the cache holds the address returned.
   */
  function GetOrCreateBitcoinAddressStep(s: VaultStateV1, caller: Principal, keyReply: CallResult<seq<Byte>>, sha256: seq<Byte> -> Digest)
    : (out: Step<string>)
    ensures caller in s.btc_addresses ==> out == Step(s, Ok(s.btc_addresses[caller]))
    ensures caller !in s.btc_addresses ==> out == GenerateBitcoinAddressStep(s, caller, keyReply, sha256)
    ensures out.result.Ok? ==> caller in out.state.btc_addresses && out.state.btc_addresses[caller] == out.result.value
    ensures Valid(s) ==> Valid(out.state)
    ensures Evolves(s, out.state)
  {
    if caller in s.btc_addresses then
      SameRecoveryBookkeeping(s, s);
      Step(s, Ok(s.btc_addresses[caller]))
    else GenerateBitcoinAddressStep(s, caller, keyReply, sha256)
  }

  /** A second call returns the first call's address and changes nothing, whatever the key reply. */
  lemma GetOrCreateIsStable(s: VaultStateV1, caller: Principal, reply1: CallResult<seq<Byte>>, reply2: CallResult<seq<Byte>>,
                            sha256: seq<Byte> -> Digest)
    requires GetOrCreateBitcoinAddressStep(s, caller, reply1, sha256).result.Ok?
    ensures var first := GetOrCreateBitcoinAddressStep(s, caller, reply1, sha256);
      GetOrCreateBitcoinAddressStep(first.state, caller, reply2, sha256) == first
  {
  }

  method GenerateBitcoinAddress(cell: StateCell, caller: Principal, keyReply: CallResult<seq<Byte>>, sha256: seq<Byte> -> Digest)
    returns (r: Result<string>)
    modifies cell
    ensures Step(cell.state, r) == GenerateBitcoinAddressStep(old(cell.state), caller, keyReply, sha256)
  {
    var publicKey := EcdsaPublicKey(cell.state, keyReply);
    if publicKey.Err? {
      return Err(publicKey.error);
    }
    var address := BitcoinAddress(publicKey.value, sha256);
    if address.Err? {
      return Err(address.error);
    }
    var current := cell.state;
    current := current.(btc_addresses := current.btc_addresses[caller := address.value]);
    cell.state := current;
    r := Ok(address.value);
  }

  method GetOrCreateBitcoinAddress(cell: StateCell, caller: Principal, keyReply: CallResult<seq<Byte>>, sha256: seq<Byte> -> Digest)
    returns (r: Result<string>)
    modifies cell
    ensures Step(cell.state, r) == GetOrCreateBitcoinAddressStep(old(cell.state), caller, keyReply, sha256)
  {
    var existing := GetBitcoinAddress(cell, caller);
    if existing.Some? {
      return Ok(existing.value);
    }
    r := GenerateBitcoinAddress(cell, caller, keyReply, sha256);
  }

  /** `get_bitcoin_address`: the caller's cached address, if any. */
  method GetBitcoinAddress(cell: StateCell, caller: Principal) returns (r: Option<string>)
    ensures r.Some? <==> caller in cell.state.btc_addresses
    ensures r.Some? ==> r.value == cell.state.btc_addresses[caller]
  {
    if caller in cell.state.btc_addresses {
      r := Some(cell.state.btc_addresses[caller]);
    } else {
      r := None;
    }
  }

  datatype WalletInfo = WalletInfo(
    owner: Principal,
    bitcoin_address: Option<string>,
    subaccount: Option<seq<Byte>>,
    derivation_path: seq<seq<Byte>>)

  /** `get_wallet_info`: the caller's cached address and subaccount and its derivation path; it never fails. */
  method GetWalletInfo(cell: StateCell, caller: Principal) returns (r: Result<WalletInfo>)
    ensures r.Ok? && r.value.owner == caller
    ensures r.value.bitcoin_address.Some? <==> caller in cell.state.btc_addresses
    ensures r.value.bitcoin_address.Some? ==> r.value.bitcoin_address.value == cell.state.btc_addresses[caller]
    ensures r.value.subaccount.Some? <==> caller in cell.state.subaccounts
    ensures r.value.subaccount.Some? ==> r.value.subaccount.value == cell.state.subaccounts[caller]
    ensures r.value.derivation_path == UserDerivationPath(caller)
  {
    var address := GetBitcoinAddress(cell, caller);
    var subaccount := if caller in cell.state.subaccounts then Some(cell.state.subaccounts[caller]) else None;
    r := Ok(WalletInfo(caller, address, subaccount, UserDerivationPath(caller)));
  }
}
