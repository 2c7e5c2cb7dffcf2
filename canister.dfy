/**
 * The canister as a whole: every update endpoint as one step on the state, and what holds for
 * any sequence of calls. The approval path (recovery.rs) and the share path (vetkd.rs) both close
 * requests in `recovery_reqs`; neither, nor any other endpoint, ever reopens one or reuses an id.
 */
module Canister {
  import opened Types
  import opened State
  import Configuration
  import Guardians
  import Recovery
  import VetKd
  import CkBtc
  import Ecdsa

  /** One call of an update endpoint, with its caller and everything it receives from outside. */
  datatype Call =
    | InitState(config: Config)
    | MigrateState
    | InitConfig(caller: Principal, ledger: Principal, minter: Principal, keyName: string)
    | SetConfig(caller: Principal, ledger: Principal, minter: Principal, keyName: string)
    | SetGuardians(caller: Principal, guardians: seq<Principal>, quorum: U8)
    | InitializeGuardians(owner: Principal)
    | RequestRecovery(caller: Principal, newOwner: Principal)
    | ApproveRecovery(caller: Principal, id: nat)
    | CreateGuardianShares(caller: Principal, guardians: seq<Principal>, sha256: seq<Byte> -> Digest, idTime: U64, now: U64,
                           masterKey: CallResult<seq<Byte>>, replies: seq<CallResult<seq<Byte>>>)
    | SubmitRecoveryShare(caller: Principal, recoveryId: nat, share: seq<Byte>)
    | CompleteRecovery(recoveryId: nat)
    | CreateSubaccount(caller: Principal, seed: string, hasher: string -> U64, toText: Principal -> string)
    | GetDepositAddress(caller: Principal, subaccount: Option<seq<Byte>>, reply: CallResult<Result<string>>)
    | GenerateBitcoinAddress(caller: Principal, keyReply: CallResult<seq<Byte>>, sha256: seq<Byte> -> Digest)
    | GetOrCreateBitcoinAddress(caller: Principal, keyReply: CallResult<seq<Byte>>, sha256: seq<Byte> -> Digest)

  /** A call that can happen: share creation gets one reply per guardian it asks for. */
  predicate WellFormed(c: Call) {
    c.CreateGuardianShares? ==> |c.replies| == |c.guardians|
  }

  /** The state after one call. */
  function Apply(s: VaultStateV1, c: Call): (t: VaultStateV1)
    requires WellFormed(c)
    ensures Valid(s) ==> Valid(t)
    ensures Evolves(s, t)
  {
    match c
      case InitState(config) =>
        SameRecoveryBookkeeping(s, InitStateStep(s, config).state);
        InitStateStep(s, config).state
      case MigrateState =>
        SameRecoveryBookkeeping(s, MigrateStep(s).state);
        MigrateStep(s).state
      case InitConfig(caller, ledger, minter, keyName) => Configuration.InitConfigStep(s, caller, ledger, minter, keyName).state
      case SetConfig(caller, ledger, minter, keyName) => Configuration.SetConfigStep(s, caller, ledger, minter, keyName).state
      case SetGuardians(caller, guardians, quorum) => Guardians.SetGuardiansStep(s, caller, guardians, quorum).state
      case InitializeGuardians(owner) => Guardians.InitializeGuardiansStep(s, owner).state
      case RequestRecovery(caller, newOwner) => Recovery.RequestRecoveryStep(s, caller, newOwner).state
      case ApproveRecovery(caller, id) => Recovery.ApproveRecoveryStep(s, caller, id).state
      case CreateGuardianShares(caller, guardians, sha256, idTime, now, masterKey, replies) =>
        var secretId := sha256(VetKd.SecretIdInput(caller, guardians, idTime));
        VetKd.CreateGuardianSharesStep(s, caller, guardians, secretId, now, masterKey, replies).state
      case SubmitRecoveryShare(caller, recoveryId, share) => VetKd.SubmitRecoveryShareStep(s, caller, recoveryId, share).state
      case CompleteRecovery(recoveryId) => VetKd.CompleteRecoveryStep(s, recoveryId).state
      case CreateSubaccount(caller, seed, hasher, toText) => CkBtc.CreateSubaccountStep(s, caller, seed, hasher, toText).0
      case GetDepositAddress(caller, subaccount, reply) => CkBtc.GetDepositAddressStep(s, caller, subaccount, reply).state
      case GenerateBitcoinAddress(caller, keyReply, sha256) => Ecdsa.GenerateBitcoinAddressStep(s, caller, keyReply, sha256).state
      case GetOrCreateBitcoinAddress(caller, keyReply, sha256) => Ecdsa.GetOrCreateBitcoinAddressStep(s, caller, keyReply, sha256).state
  }

  /** The state after a sequence of calls, one at a time. */
  function Run(s: VaultStateV1, calls: seq<Call>): VaultStateV1
    requires forall i :: 0 <= i < |calls| ==> WellFormed(calls[i])
    decreases |calls|
  {
    if calls == [] then s else Run(Apply(s, calls[0]), calls[1..])
  }

  /** Every sequence of calls keeps the invariant. */
  lemma {:induction false} RunPreservesValid(s: VaultStateV1, calls: seq<Call>)
    requires Valid(s)
    requires forall i :: 0 <= i < |calls| ==> WellFormed(calls[i])
    ensures Valid(Run(s, calls))
    decreases |calls|
  {
    if calls != [] {
      RunPreservesValid(Apply(s, calls[0]), calls[1..]);
    }
  }

  /** Every sequence of calls only lets the recovery bookkeeping evolve. */
  lemma {:induction false} RunEvolves(s: VaultStateV1, calls: seq<Call>)
    requires forall i :: 0 <= i < |calls| ==> WellFormed(calls[i])
    ensures Evolves(s, Run(s, calls))
    decreases |calls|
  {
    if calls == [] {
      EvolvesReflexive(s);
    } else {
      var t := Apply(s, calls[0]);
      RunEvolves(t, calls[1..]);
      EvolvesTransitive(s, t, Run(t, calls[1..]));
    }
  }

  /** Every state the canister can reach from installation satisfies the invariant. */
  lemma ReachableIsValid(installed: VaultStateV1, calls: seq<Call>)
    requires installed == DefaultState()
    requires forall i :: 0 <= i < |calls| ==> WellFormed(calls[i])
    ensures Valid(Run(installed, calls))
  {
    RunPreservesValid(installed, calls);
  }

  /** A closed request never reopens, by approvals, shares or anything else: it stays exactly as it was. */
  lemma ClosedNeverReopens(s: VaultStateV1, calls: seq<Call>, i: nat)
    requires forall j :: 0 <= j < |calls| ==> WellFormed(calls[j])
    requires i < |s.recovery_reqs| && !s.recovery_reqs[i].open
    ensures i < |Run(s, calls).recovery_reqs|
    ensures Run(s, calls).recovery_reqs[i] == s.recovery_reqs[i]
  {
    RunEvolves(s, calls);
  }

  /** A request opened later never carries the id of a request that existed before. */
  lemma IdsNeverReused(s: VaultStateV1, calls: seq<Call>, i: nat, k: nat)
    requires Valid(s)
    requires forall j :: 0 <= j < |calls| ==> WellFormed(calls[j])
    requires i < |s.recovery_reqs|
    requires |s.recovery_reqs| <= k < |Run(s, calls).recovery_reqs|
    ensures Run(s, calls).recovery_reqs[k].id != s.recovery_reqs[i].id
  {
    RunEvolves(s, calls);
  }

  /**
   * The quorum scenario of the recovery unit test: three guardians, quorum 2, one open request
   * with id 1. The first approval is recorded and leaves it open; the second closes it and
   * makes the candidate the owner.
   */
  lemma ApprovalQuorumScenario(owner: Principal, g1: Principal, g2: Principal, g3: Principal, newOwner: Principal)
    requires g1 != g2
    ensures var s0 := DefaultState().(
        guardian_state := Some(GuardianState([g1, g2, g3], 2, owner)),
        recovery_reqs := [RecoveryRequest(1, newOwner, [], true)]);
      var a1 := Recovery.ApproveRecoveryStep(s0, g1, 1);
      var a2 := Recovery.ApproveRecoveryStep(a1.state, g2, 1);
      && a1.result == Ok(false)
      && |a1.state.recovery_reqs[0].approvals| == 1 && a1.state.recovery_reqs[0].open
      && a2.result == Ok(true)
      && |a2.state.recovery_reqs[0].approvals| == 2 && !a2.state.recovery_reqs[0].open
      && a2.state.guardian_state.value.owner == newOwner
  {
    var s0 := DefaultState().(
        guardian_state := Some(GuardianState([g1, g2, g3], 2, owner)),
        recovery_reqs := [RecoveryRequest(1, newOwner, [], true)]);
    assert Recovery.FirstIndex(s0.recovery_reqs, 1, true) == Some(0);
    var a1 := Recovery.ApproveRecoveryStep(s0, g1, 1);
    assert Recovery.FirstIndex(a1.state.recovery_reqs, 1, true) == Some(0);
  }

  /**
   * The two ways to finish a recovery agree: once the approval path has closed a request, the
   * share path reports it as not open and changes nothing.
   */
  lemma SharePathCannotReuseClosedRequest(s: VaultStateV1, g: Principal, id: nat)
    requires Valid(s)
    requires Recovery.ApproveRecoveryStep(s, g, id).result == Ok(true)
    requires id in Recovery.ApproveRecoveryStep(s, g, id).state.submitted_recovery_shares
    ensures var t := Recovery.ApproveRecoveryStep(s, g, id).state;
      VetKd.CompleteRecoveryStep(t, id) == Step(t, Err(Recovery.ErrNotFoundOrClosed))
  {
    var t := Recovery.ApproveRecoveryStep(s, g, id).state;
    var k := Recovery.FirstIndex(s.recovery_reqs, id, true).value;
    Recovery.FirstIndexUnique(t, id, k);
  }
}
