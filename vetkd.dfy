/**
 * The share-based recovery path (the state-only parts of vetkd.rs): guardians submit decrypted
 * shares against an open recovery request, and anyone may complete the recovery once the number
 * of submitting guardians reaches the quorum.
 */
module VetKd {
  import opened Types
  import opened State
  import opened Recovery

  const ErrOnlyOwnerCreateShares := "only owner can create guardian shares"
  const ErrGuardianListMismatch := "guardian list mismatch"
  const ErrOnlyGuardianSubmit := "only guardians can submit recovery shares"
  const ErrNoShares := "no recovery shares found"
  const ErrInsufficientShares := "insufficient recovery shares"
  const ErrOnlyGuardianStatus := "only guardians can check recovery status"

  /** The shares submitted so far for request `id`, guardian by guardian. */
  function SharesOf(s: VaultStateV1, id: nat): map<Principal, seq<Byte>> {
    if id in s.submitted_recovery_shares then s.submitted_recovery_shares[id] else map[]
  }

  /**
   * The checks `create_guardian_shares` makes before its first management-canister call: the
   * caller must be the owner, and the list must be non-empty and as long as the stored one.
   */
  function CreateGuardianSharesPrecheck(s: VaultStateV1, caller: Principal, guardians: seq<Principal>): (r: Result<GuardianState>)
    ensures r.Ok? <==>
      && s.guardian_state.Some?
      && s.guardian_state.value.owner == caller
      && |guardians| > 0
      && |guardians| == |s.guardian_state.value.guardians|
    ensures r.Ok? ==> r.value == s.guardian_state.value
    ensures s.guardian_state.None? ==> r == Err(ErrNoGuardianState)
    ensures s.guardian_state.Some? && s.guardian_state.value.owner != caller ==> r == Err(ErrOnlyOwnerCreateShares)
    ensures s.guardian_state.Some? && s.guardian_state.value.owner == caller ==>
      (|guardians| == 0 || |guardians| != |s.guardian_state.value.guardians| ==> r == Err(ErrGuardianListMismatch))
  {
    if s.guardian_state.None? then Err(ErrNoGuardianState)
    else
      var g := s.guardian_state.value;
      if g.owner != caller then Err(ErrOnlyOwnerCreateShares)
      else if |guardians| == 0 || |guardians| != |g.guardians| then Err(ErrGuardianListMismatch)
      else Ok(g)
  }

  /** Only the length of the list is compared: any principals may stand in for the stored guardians. */
  lemma CreateGuardianSharesComparesLengthOnly(s: VaultStateV1, owner: Principal, g1: Principal, stranger: Principal)
    requires s.guardian_state == Some(GuardianState([g1], 1, owner))
    ensures CreateGuardianSharesPrecheck(s, owner, [stranger]).Ok?
  {
  }

  const VetKdCurve := "bls12_381"

  /** The `vetkd_public_key` endpoint: needs the configuration, then forwards one management call. */
  function VetKdPublicKey(s: VaultStateV1, reply: CallResult<seq<Byte>>): Result<seq<Byte>> {
    ConfiguredCall(s, "vetkd_public_key", reply)
  }

  /** The `vetkd_encrypted_key` endpoint, likewise. */
  function VetKdEncryptedKey(s: VaultStateV1, reply: CallResult<seq<Byte>>): Result<seq<Byte>> {
    ConfiguredCall(s, "vetkd_encrypted_key", reply)
  }

  /** The bytes `generate_secret_id` hashes: a tag, the owner, every guardian, the time. */
  function SecretIdInput(owner: Principal, guardians: seq<Principal>, now: U64): (r: seq<Byte>)
    ensures |r| == 24 + |owner| + |Concat(guardians)| + 8
    ensures r[|r| - 8..] == ToBigEndian(now, 8)
  {
    Latin1("guardian_vault_recovery_") + owner + Concat(guardians) + ToBigEndian(now, 8)
  }

  function Concat(xs: seq<seq<Byte>>): seq<Byte> {
    if xs == [] then [] else Concat(xs[..|xs| - 1]) + xs[|xs| - 1]
  }

  /** Two calls at different times hash different inputs, whatever the owner and guardians. */
  lemma SecretIdInputDependsOnTime(owner: Principal, guardians: seq<Principal>, t1: U64, t2: U64)
    requires t1 != t2
    ensures SecretIdInput(owner, guardians, t1) != SecretIdInput(owner, guardians, t2)
  {
    BigEndianInjective64(t1, t2);
  }

  /** The bytes `generate_guardian_encryption_key` hashes: the same for every call with the same guardian. */
  function GuardianEncryptionKeyInput(guardian: Principal): (r: seq<Byte>)
    ensures |r| == 24 + |guardian| && r[24..] == guardian
  {
    Latin1("guardian_encryption_key_") + guardian
  }

  /** The derivation path of the `index`-th guardian's share. */
  function GuardianDerivationPath(secretId: seq<Byte>, guardian: Principal, index: nat): seq<seq<Byte>> {
    [secretId, guardian, [AsU8(index)]]
  }

  /** The share recorded for the `i`-th guardian of the list, from the `i`-th encrypted-key reply. */
  function ShareAt(secretId: seq<Byte>, guardians: seq<Principal>, replies: seq<CallResult<seq<Byte>>>, i: nat): GuardianShare
    requires i < |guardians| == |replies| && replies[i].Replied?
  {
    GuardianShare(guardians[i], replies[i].reply, AsU8(i), GuardianDerivationPath(secretId, guardians[i], i))
  }

  /**
   * The share map after the loop has handled the first `n` guardians. A guardian listed twice
   * keeps the share of its last position.
   */
  function SharesUpTo(secretId: seq<Byte>, guardians: seq<Principal>, replies: seq<CallResult<seq<Byte>>>, n: nat): (m: map<Principal, GuardianShare>)
    requires n <= |guardians| == |replies|
    requires forall j :: 0 <= j < n ==> replies[j].Replied?
    ensures forall p :: p in m ==> m[p].guardian == p && m[p].derivation_path == [secretId, p, [m[p].share_index]]
  {
    if n == 0 then map[]
    else SharesUpTo(secretId, guardians, replies, n - 1)[guardians[n - 1] := ShareAt(secretId, guardians, replies, n - 1)]
  }

  /** The loop's map holds exactly the guardians handled so far. */
  lemma {:induction false} SharesUpToDomain(secretId: seq<Byte>, guardians: seq<Principal>, replies: seq<CallResult<seq<Byte>>>, n: nat)
    requires n <= |guardians| == |replies|
    requires forall j :: 0 <= j < n ==> replies[j].Replied?
    ensures forall i :: 0 <= i < n ==> guardians[i] in SharesUpTo(secretId, guardians, replies, n)
    ensures forall p :: p in SharesUpTo(secretId, guardians, replies, n) ==> p in guardians[..n]
    decreases n
  {
    if n > 0 {
      SharesUpToDomain(secretId, guardians, replies, n - 1);
      assert guardians[..n] == guardians[..n - 1] + [guardians[n - 1]];
    }
  }

  /** True when position `i` is the last of the first `n` at which `guardians[i]` occurs. */
  predicate LastOccurrence(guardians: seq<Principal>, i: nat, n: nat)
    requires i < n <= |guardians|
  {
    forall j :: i < j < n ==> guardians[j] != guardians[i]
  }

  /** A guardian's entry is the share built at its last position in the list. */
  lemma {:induction false} SharesUpToLastWins(secretId: seq<Byte>, guardians: seq<Principal>, replies: seq<CallResult<seq<Byte>>>, n: nat, i: nat)
    requires n <= |guardians| == |replies|
    requires forall j :: 0 <= j < n ==> replies[j].Replied?
    requires i < n && LastOccurrence(guardians, i, n)
    ensures guardians[i] in SharesUpTo(secretId, guardians, replies, n)
    ensures SharesUpTo(secretId, guardians, replies, n)[guardians[i]] == ShareAt(secretId, guardians, replies, i)
    decreases n
  {
    if i < n - 1 {
      assert guardians[n - 1] != guardians[i];
      assert LastOccurrence(guardians, i, n - 1);
      SharesUpToLastWins(secretId, guardians, replies, n - 1, i);
    }
  }

  /** The first rejected reply, where the loop of `create_guardian_shares` stops with `?`. */
  function FirstRejected<T>(replies: seq<CallResult<T>>): (k: Option<nat>)
    ensures k.Some? ==>
      && k.value < |replies|
      && replies[k.value].Rejected?
      && forall j :: 0 <= j < k.value ==> replies[j].Replied?
    ensures k.None? ==> forall j :: 0 <= j < |replies| ==> replies[j].Replied?
  {
    if replies == [] then None
    else if replies[0].Rejected? then Some(0)
    else match FirstRejected(replies[1..])
      case None => None
      case Some(k) => Some(k + 1)
  }

  /**
   * `create_guardian_shares`, with the hash of `generate_secret_id` and the time as inputs and one
   * reply per management call: after the owner's checks, the master public key is fetched, one
   * encrypted key per listed guardian, and only when every call succeeds is the secret stored,
   * with the quorum as threshold.
   */
  function CreateGuardianSharesStep(s: VaultStateV1, caller: Principal, guardians: seq<Principal>, secretId: seq<Byte>, now: U64,
                                    masterKey: CallResult<seq<Byte>>, replies: seq<CallResult<seq<Byte>>>): (out: Step<seq<Byte>>)
    requires |replies| == |guardians|
    ensures CreateGuardianSharesPrecheck(s, caller, guardians).Err? ==>
      out == Step(s, Err(CreateGuardianSharesPrecheck(s, caller, guardians).error))
    ensures out.result.Ok? <==>
      && CreateGuardianSharesPrecheck(s, caller, guardians).Ok?
      && VetKdPublicKey(s, masterKey).Ok?
      && FirstRejected(replies).None?
    ensures CreateGuardianSharesPrecheck(s, caller, guardians).Ok? && VetKdPublicKey(s, masterKey).Err? ==>
      out == Step(s, Err(VetKdPublicKey(s, masterKey).error))
    ensures CreateGuardianSharesPrecheck(s, caller, guardians).Ok? && VetKdPublicKey(s, masterKey).Ok? && FirstRejected(replies).Some? ==>
      out.result == VetKdEncryptedKey(s, replies[FirstRejected(replies).value])
    ensures out.result.Err? ==> out.state == s
    ensures out.result.Ok? ==>
      && out.result.value == secretId
      && secretId in out.state.recovery_secrets
      && var secret := out.state.recovery_secrets[secretId];
      && out.state == s.(recovery_secrets := s.recovery_secrets[secretId := secret])
      && secret.secret_id == secretId
      && secret.threshold == s.guardian_state.value.quorum
      && secret.created_at == now
      // one share per listed guardian, and nobody else
      && (forall i :: 0 <= i < |guardians| ==> guardians[i] in secret.guardian_shares)
      && (forall p :: p in secret.guardian_shares ==> p in guardians)
      && (forall p :: p in secret.guardian_shares ==>
            secret.guardian_shares[p].guardian == p
            && secret.guardian_shares[p].derivation_path == [secretId, p, [secret.guardian_shares[p].share_index]])
      // each guardian holds the encrypted key of its last position i, under index i as u8
      && (forall i :: 0 <= i < |guardians| && LastOccurrence(guardians, i, |guardians|) ==>
            secret.guardian_shares[guardians[i]] == ShareAt(secretId, guardians, replies, i))
    ensures Valid(s) ==> Valid(out.state)
    ensures Evolves(s, out.state)
  {
    SameRecoveryBookkeeping(s, s);
    match CreateGuardianSharesPrecheck(s, caller, guardians)
      case Err(e) => Step(s, Err(e))
      case Ok(g) =>
        match VetKdPublicKey(s, masterKey)
          case Err(e) => Step(s, Err(e))
          case Ok(_) =>
            match FirstRejected(replies)
              case Some(k) => Step(s, VetKdEncryptedKey(s, replies[k]))
              case None =>
                var shares := SharesUpTo(secretId, guardians, replies, |guardians|);
                SharesUpToDomain(secretId, guardians, replies, |guardians|);
                assert guardians[..|guardians|] == guardians;
                forall i | 0 <= i < |guardians| && LastOccurrence(guardians, i, |guardians|)
                  ensures shares[guardians[i]] == ShareAt(secretId, guardians, replies, i)
                {
                  SharesUpToLastWins(secretId, guardians, replies, |guardians|, i);
                }
                var t := s.(recovery_secrets := s.recovery_secrets[secretId := RecoverySecret(secretId, shares, g.quorum, now)]);
                SameRecoveryBookkeeping(s, t);
                Step(t, Ok(secretId))
  }

  /**
   * `submit_recovery_share`: a listed guardian stores (or replaces) its share for an open
   * request; the answer says whether the number of submitting guardians, cast to `u8`, has
   * reached the quorum. Nothing else changes: no owner change, no request closes.
   */
  function SubmitRecoveryShareStep(s: VaultStateV1, caller: Principal, recoveryId: nat, share: seq<Byte>): (out: Step<bool>)
    ensures s.guardian_state.None? ==> out == Step(s, Err(ErrNoGuardianState))
    ensures s.guardian_state.Some? && caller !in s.guardian_state.value.guardians ==>
      out == Step(s, Err(ErrOnlyGuardianSubmit))
    ensures s.guardian_state.Some? && caller in s.guardian_state.value.guardians && FirstIndex(s.recovery_reqs, recoveryId, true).None? ==>
      out == Step(s, Err(ErrNotFoundOrClosed))
    ensures out.result.Err? ==> out.state == s
    ensures out.result.Ok? ==>
      && s.guardian_state.Some?
      && caller in s.guardian_state.value.guardians
      && FirstIndex(s.recovery_reqs, recoveryId, true).Some?
      && out.state == s.(submitted_recovery_shares := out.state.submitted_recovery_shares)
      && out.state.submitted_recovery_shares == s.submitted_recovery_shares[recoveryId := SharesOf(s, recoveryId)[caller := share]]
      // a repeated submission replaces the share and does not add a submitter
      && |SharesOf(out.state, recoveryId)| == |SharesOf(s, recoveryId)| + (if caller in SharesOf(s, recoveryId) then 0 else 1)
      && (out.result.value <==> AsU8(|SharesOf(out.state, recoveryId)|) >= s.guardian_state.value.quorum)
    ensures Valid(s) ==> Valid(out.state)
    ensures Evolves(s, out.state)
  {
    SameRecoveryBookkeeping(s, s);
    if s.guardian_state.None? then Step(s, Err(ErrNoGuardianState))
    else
      var g := s.guardian_state.value;
      if caller !in g.guardians then Step(s, Err(ErrOnlyGuardianSubmit))
      else if FirstIndex(s.recovery_reqs, recoveryId, true).None? then Step(s, Err(ErrNotFoundOrClosed))
      else
        var shares := SharesOf(s, recoveryId)[caller := share];
        var t := s.(submitted_recovery_shares := s.submitted_recovery_shares[recoveryId := shares]);
        SameRecoveryBookkeeping(s, t);
        Step(t, Ok(AsU8(|shares|) >= g.quorum))
  }

  /**
   * `complete_recovery`: with shares recorded for an open request and enough of them for the
   * quorum, ownership passes to the request's candidate, the first request with that id is
   * closed and the id's shares are discarded. The caller is not consulted.
   */
  function CompleteRecoveryStep(s: VaultStateV1, recoveryId: nat): (out: Step<bool>)
    ensures recoveryId !in s.submitted_recovery_shares ==> out == Step(s, Err(ErrNoShares))
    ensures recoveryId in s.submitted_recovery_shares && FirstIndex(s.recovery_reqs, recoveryId, true).None? ==>
      out == Step(s, Err(ErrNotFoundOrClosed))
    ensures recoveryId in s.submitted_recovery_shares && FirstIndex(s.recovery_reqs, recoveryId, true).Some? && s.guardian_state.None? ==>
      out == Step(s, Err(ErrNoGuardianState))
    ensures recoveryId in s.submitted_recovery_shares && FirstIndex(s.recovery_reqs, recoveryId, true).Some? && s.guardian_state.Some? ==>
      (AsU8(|s.submitted_recovery_shares[recoveryId]|) < s.guardian_state.value.quorum ==> out == Step(s, Err(ErrInsufficientShares)))
    ensures out.result.Ok? <==>
      && recoveryId in s.submitted_recovery_shares
      && FirstIndex(s.recovery_reqs, recoveryId, true).Some?
      && s.guardian_state.Some?
      && AsU8(|s.submitted_recovery_shares[recoveryId]|) >= s.guardian_state.value.quorum
    ensures out.result.Err? ==> out.state == s
    ensures out.result.Ok? ==>
      && out.result.value
      && var k := FirstIndex(s.recovery_reqs, recoveryId, true).value;
      && var j := FirstIndex(s.recovery_reqs, recoveryId, false).value;
      && j <= k
      && out.state.guardian_state == Some(s.guardian_state.value.(owner := s.recovery_reqs[k].new_owner))
      && out.state.recovery_reqs == s.recovery_reqs[j := s.recovery_reqs[j].(open := false)]
      && out.state.submitted_recovery_shares == s.submitted_recovery_shares - {recoveryId}
      && out.state == s.(guardian_state := out.state.guardian_state, recovery_reqs := out.state.recovery_reqs,
                         submitted_recovery_shares := out.state.submitted_recovery_shares)
    ensures Valid(s) ==> Valid(out.state)
    ensures Evolves(s, out.state)
  {
    SameRecoveryBookkeeping(s, s);
    if recoveryId !in s.submitted_recovery_shares then Step(s, Err(ErrNoShares))
    else if FirstIndex(s.recovery_reqs, recoveryId, true).None? then Step(s, Err(ErrNotFoundOrClosed))
    else if s.guardian_state.None? then Step(s, Err(ErrNoGuardianState))
    else
      var g := s.guardian_state.value;
      var shares := s.submitted_recovery_shares[recoveryId];
      if AsU8(|shares|) < g.quorum then Step(s, Err(ErrInsufficientShares))
      else
        var k := FirstIndex(s.recovery_reqs, recoveryId, true).value;
        var j := FirstIndex(s.recovery_reqs, recoveryId, false).value;
        assert Matches(s.recovery_reqs[k], recoveryId, false);
        var t := s.(guardian_state := Some(g.(owner := s.recovery_reqs[k].new_owner)),
                    recovery_reqs := s.recovery_reqs[j := s.recovery_reqs[j].(open := false)],
                    submitted_recovery_shares := s.submitted_recovery_shares - {recoveryId});
        ReplaceRequestKeepsInvariants(s, j, s.recovery_reqs[j].(open := false), t);
        Step(t, Ok(true))
  }


  /** In a valid state the request `complete_recovery` closes is the open one whose candidate became owner. */
  lemma CompleteRecoveryClosesTheOpenRequest(s: VaultStateV1, recoveryId: nat)
    requires Valid(s)
    requires CompleteRecoveryStep(s, recoveryId).result.Ok?
    ensures var k := FirstIndex(s.recovery_reqs, recoveryId, true).value;
      && CompleteRecoveryStep(s, recoveryId).state.recovery_reqs == s.recovery_reqs[k := s.recovery_reqs[k].(open := false)]
      && CompleteRecoveryStep(s, recoveryId).state.guardian_state.value.owner == s.recovery_reqs[k].new_owner
  {
    var k := FirstIndex(s.recovery_reqs, recoveryId, true).value;
    FirstIndexUnique(s, recoveryId, k);
  }

  method CreateGuardianSharesChecks(cell: StateCell, caller: Principal, guardians: seq<Principal>) returns (r: Result<GuardianState>)
    ensures r == CreateGuardianSharesPrecheck(cell.state, caller, guardians)
  {
    var gs := cell.state.guardian_state;
    if gs.None? {
      return Err(ErrNoGuardianState);
    }
    if gs.value.owner != caller {
      return Err(ErrOnlyOwnerCreateShares);
    }
    if |guardians| == 0 || |guardians| != |gs.value.guardians| {
      return Err(ErrGuardianListMismatch);
    }
    r := Ok(gs.value);
  }

  /** The loop of `create_guardian_shares`: one encrypted-key call per listed guardian, stopping at the first failure. */
  method EncryptShares(s: VaultStateV1, guardians: seq<Principal>, secretId: seq<Byte>, replies: seq<CallResult<seq<Byte>>>)
    returns (r: Result<map<Principal, GuardianShare>>)
    requires s.config.Some?
    requires |replies| == |guardians|
    ensures r.Ok? <==> FirstRejected(replies).None?
    ensures r.Ok? ==> r.value == SharesUpTo(secretId, guardians, replies, |guardians|)
    ensures r.Err? ==> r == Err(VetKdEncryptedKey(s, replies[FirstRejected(replies).value]).error)
  {
    var shares: map<Principal, GuardianShare> := map[];
    var i := 0;
    while i < |guardians|
      invariant 0 <= i <= |guardians|
      invariant forall j :: 0 <= j < i ==> replies[j].Replied?
      invariant shares == SharesUpTo(secretId, guardians, replies, i)
    {
      var encrypted := VetKdEncryptedKey(s, replies[i]);
      if encrypted.Err? {
        assert FirstRejected(replies) == Some(i);
        return Err(encrypted.error);
      }
      assert replies[i].Replied?;
      var path := [secretId, guardians[i], [AsU8(i)]];
      shares := shares[guardians[i] := GuardianShare(guardians[i], encrypted.value, AsU8(i), path)];
      assert shares == SharesUpTo(secretId, guardians, replies, i + 1);
      i := i + 1;
    }
    r := Ok(shares);
  }

  /**
   * The endpoint itself. The time is read twice: `idTime` when `generate_secret_id` hashes it and
   * `now` for `created_at`; the secret id is the SHA-256 digest of `SecretIdInput`.
   */
  method CreateGuardianShares(cell: StateCell, caller: Principal, guardians: seq<Principal>, sha256: seq<Byte> -> Digest,
                              idTime: U64, now: U64, masterKey: CallResult<seq<Byte>>, replies: seq<CallResult<seq<Byte>>>)
    returns (r: Result<seq<Byte>>)
    requires |replies| == |guardians|
    modifies cell
    ensures Step(cell.state, r) ==
      CreateGuardianSharesStep(old(cell.state), caller, guardians, sha256(SecretIdInput(caller, guardians, idTime)), now, masterKey, replies)
  {
    var checked := CreateGuardianSharesChecks(cell, caller, guardians);
    if checked.Err? {
      return Err(checked.error);
    }
    var g := checked.value;
    var secretId: seq<Byte> := sha256(SecretIdInput(caller, guardians, idTime));
    var master := VetKdPublicKey(cell.state, masterKey);
    if master.Err? {
      return Err(master.error);
    }
    var shares := EncryptShares(cell.state, guardians, secretId, replies);
    if shares.Err? {
      return Err(shares.error);
    }
    var current := cell.state;
    current := current.(recovery_secrets := current.recovery_secrets[secretId := RecoverySecret(secretId, shares.value, g.quorum, now)]);
    cell.state := current;
    r := Ok(secretId);
  }

  /** `get_guardian_share`: the caller's own share of a stored secret, if any; it never fails. */
  method GetGuardianShare(cell: StateCell, caller: Principal, secretId: seq<Byte>) returns (r: Result<Option<GuardianShare>>)
    ensures r.Ok?
    ensures r.value.Some? <==>
      secretId in cell.state.recovery_secrets && caller in cell.state.recovery_secrets[secretId].guardian_shares
    ensures r.value.Some? ==> r.value.value == cell.state.recovery_secrets[secretId].guardian_shares[caller]
  {
    if secretId in cell.state.recovery_secrets {
      var secret := cell.state.recovery_secrets[secretId];
      if caller in secret.guardian_shares {
        return Ok(Some(secret.guardian_shares[caller]));
      }
      return Ok(None);
    }
    r := Ok(None);
  }

  /** `get_recovery_status_for_guardian`: the first request with the id, for listed guardians only. */
  method GetRecoveryStatusForGuardian(cell: StateCell, caller: Principal, recoveryId: nat) returns (r: Result<Option<RecoveryRequest>>)
    ensures r.Ok? <==> cell.state.guardian_state.Some? && caller in cell.state.guardian_state.value.guardians
    ensures cell.state.guardian_state.None? ==> r == Err(ErrNoGuardianState)
    ensures cell.state.guardian_state.Some? && caller !in cell.state.guardian_state.value.guardians ==>
      r == Err(ErrOnlyGuardianStatus)
    ensures r.Ok? && r.value.Some? ==> r.value.value.id == recoveryId && r.value.value in cell.state.recovery_reqs
    ensures r.Ok? && r.value.None? ==> forall q :: q in cell.state.recovery_reqs ==> q.id != recoveryId
    ensures r.Ok? && r.value.Some? ==>
      FirstIndex(cell.state.recovery_reqs, recoveryId, false).Some?
      && r.value.value == cell.state.recovery_reqs[FirstIndex(cell.state.recovery_reqs, recoveryId, false).value]
  {
    var gs := cell.state.guardian_state;
    if gs.None? {
      return Err(ErrNoGuardianState);
    }
    if caller !in gs.value.guardians {
      return Err(ErrOnlyGuardianStatus);
    }
    var k := Find(cell.state.recovery_reqs, recoveryId, false);
    if k.Some? {
      r := Ok(Some(cell.state.recovery_reqs[k.value]));
    } else {
      r := Ok(None);
    }
  }

  method SubmitRecoveryShare(cell: StateCell, caller: Principal, recoveryId: nat, secretId: seq<Byte>, decryptedShare: seq<Byte>)
    returns (r: Result<bool>)
    modifies cell
    ensures Step(cell.state, r) == SubmitRecoveryShareStep(old(cell.state), caller, recoveryId, decryptedShare)
  {
    var gs := cell.state.guardian_state;
    if gs.None? {
      return Err(ErrNoGuardianState);
    }
    var isGuardian, quorum := caller in gs.value.guardians, gs.value.quorum;
    if !isGuardian {
      return Err(ErrOnlyGuardianSubmit);
    }
    var k := Find(cell.state.recovery_reqs, recoveryId, true);
    if k.None? {
      return Err(ErrNotFoundOrClosed);
    }
    // the request's share map, created empty when absent, with the caller's share put in it
    var current := cell.state;
    var entry := if recoveryId in current.submitted_recovery_shares then current.submitted_recovery_shares[recoveryId] else map[];
    entry := entry[caller := decryptedShare];
    current := current.(submitted_recovery_shares := current.submitted_recovery_shares[recoveryId := entry]);
    cell.state := current;
    var sharesCount := if recoveryId in cell.state.submitted_recovery_shares then AsU8(|cell.state.submitted_recovery_shares[recoveryId]|) else 0;
    r := Ok(sharesCount >= quorum);
  }

  method CompleteRecovery(cell: StateCell, recoveryId: nat) returns (r: Result<bool>)
    modifies cell
    ensures Step(cell.state, r) == CompleteRecoveryStep(old(cell.state), recoveryId)
  {
    if recoveryId !in cell.state.submitted_recovery_shares {
      return Err(ErrNoShares);
    }
    var shares := cell.state.submitted_recovery_shares[recoveryId];
    var k := Find(cell.state.recovery_reqs, recoveryId, true);
    if k.None? {
      return Err(ErrNotFoundOrClosed);
    }
    var gs := cell.state.guardian_state;
    if gs.None? {
      return Err(ErrNoGuardianState);
    }
    if AsU8(|shares|) < gs.value.quorum {
      return Err(ErrInsufficientShares);
    }
    var newOwner := cell.state.recovery_reqs[k.value].new_owner;
    var current := cell.state;
    current := current.(guardian_state := Some(current.guardian_state.value.(owner := newOwner)));
    var j := Find(current.recovery_reqs, recoveryId, false);
    if j.Some? {
      current := current.(recovery_reqs := current.recovery_reqs[j.value := current.recovery_reqs[j.value].(open := false)]);
    }
    current := current.(submitted_recovery_shares := current.submitted_recovery_shares - {recoveryId});
    cell.state := current;
    r := Ok(true);
  }
}
