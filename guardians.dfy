/** The guardian registry: owner, guardian list and `u8` quorum (guardians.rs). */
module Guardians {
  import opened Types
  import opened State

  const ErrOnlyOwnerSetGuardians := "only owner can set guardians"
  const ErrInvalidQuorum := "invalid quorum/guardians"
  const ErrGuardiansAlreadyInitialized := "Guardian state already initialized"

  /** The check both halves of `set_guardians` apply: a non-empty list and `1 <= quorum <= len`. */
  predicate AcceptableQuorum(guardians: seq<Principal>, quorum: U8) {
    !(|guardians| == 0 || quorum == 0 || quorum > |guardians|)
  }

  /** The guardian state `set_guardians` works on: the stored one, or else the caller as owner of nothing. */
  function GuardianStateOrInit(s: VaultStateV1, caller: Principal): (g: GuardianState)
    ensures s.guardian_state.Some? ==> g == s.guardian_state.value
    ensures s.guardian_state.None? ==> g.owner == caller && g.guardians == [] && g.quorum == 0
  {
    if s.guardian_state.Some? then s.guardian_state.value else GuardianState([], 0, caller)
  }

  /**
   * `set_guardians`. The update mutates first (installing the caller as owner when no guardian
   * state exists, then replacing list and quorum only for the owner's acceptable request), and the
   * answer is computed afterwards from what was STORED: so an owner's unacceptable request leaves
   * the list and quorum alone yet answers `Ok` when an acceptable configuration was already there.
   */
  function SetGuardiansStep(s: VaultStateV1, caller: Principal, guardians: seq<Principal>, quorum: U8): (out: Step<()>)
    // whatever happens, a guardian state is stored afterwards and only that field may change
    ensures out.state.guardian_state.Some?
    ensures out.state == s.(guardian_state := out.state.guardian_state)
    // the owner never changes; with no guardian state the first caller becomes the owner
    ensures out.state.guardian_state.value.owner == GuardianStateOrInit(s, caller).owner
    ensures s.guardian_state.None? ==> out.state.guardian_state.value.owner == caller
    // a caller who is not the owner changes nothing
    ensures GuardianStateOrInit(s, caller).owner != caller ==> out == Step(s, Err(ErrOnlyOwnerSetGuardians))
    // the owner's acceptable request replaces list and quorum exactly
    ensures GuardianStateOrInit(s, caller).owner == caller && AcceptableQuorum(guardians, quorum) ==>
      out == Step(s.(guardian_state := Some(GuardianState(guardians, quorum, caller))), Ok(()))
    // an unacceptable request leaves list and quorum as they were
    ensures !AcceptableQuorum(guardians, quorum) ==> out.state.guardian_state == Some(GuardianStateOrInit(s, caller))
    // the answer reflects the stored configuration, not the request
    ensures out.result.Ok? <==>
      out.state.guardian_state.value.owner == caller
      && AcceptableQuorum(out.state.guardian_state.value.guardians, out.state.guardian_state.value.quorum)
    ensures out.result.Err? && out.state.guardian_state.value.owner == caller ==> out.result.error == ErrInvalidQuorum
    ensures Valid(s) ==> Valid(out.state)
    ensures Evolves(s, out.state)
  {
    var g := GuardianStateOrInit(s, caller);
    var stored := if g.owner == caller && AcceptableQuorum(guardians, quorum) then g.(guardians := guardians, quorum := quorum) else g;
    var t := s.(guardian_state := Some(stored));
    SameRecoveryBookkeeping(s, t);
    var answer :=
      if stored.owner != caller then Err(ErrOnlyOwnerSetGuardians)
      else if !AcceptableQuorum(stored.guardians, stored.quorum) then Err(ErrInvalidQuorum)
      else Ok(());
    assert g.owner != caller ==> t == s;
    Step(t, answer)
  }

  /** The quirk made concrete: with an acceptable configuration stored, an empty request still answers `Ok`. */
  lemma SetGuardiansAcceptsStaleConfiguration(s: VaultStateV1, owner: Principal, g1: Principal)
    requires s.guardian_state == Some(GuardianState([g1], 1, owner))
    ensures SetGuardiansStep(s, owner, [], 0) == Step(s, Ok(()))
  {
  }

  /** A first call that is rejected still leaves the caller installed as owner. */
  lemma SetGuardiansRejectedFirstCallInstallsOwner(s: VaultStateV1, caller: Principal)
    requires s.guardian_state.None?
    ensures SetGuardiansStep(s, caller, [], 1).result == Err(ErrInvalidQuorum)
    ensures SetGuardiansStep(s, caller, [], 1).state.guardian_state == Some(GuardianState([], 0, caller))
  {
  }

  /** `initialize_guardians`: installs `owner` with no guardians once; the caller is not consulted. */
  function InitializeGuardiansStep(s: VaultStateV1, owner: Principal): (out: Step<()>)
    ensures out.result.Ok? <==> s.guardian_state.None?
    ensures out.result.Err? ==> out == Step(s, Err(ErrGuardiansAlreadyInitialized))
    ensures out.result.Ok? ==> out.state == s.(guardian_state := Some(GuardianState([], 0, owner)))
    ensures Valid(s) ==> Valid(out.state)
    ensures Evolves(s, out.state)
  {
    SameRecoveryBookkeeping(s, s);
    if s.guardian_state.Some? then Step(s, Err(ErrGuardiansAlreadyInitialized))
    else
      var t := s.(guardian_state := Some(GuardianState([], 0, owner)));
      SameRecoveryBookkeeping(s, t);
      Step(t, Ok(()))
  }

  method SetGuardians(cell: StateCell, caller: Principal, guardians: seq<Principal>, quorum: U8) returns (r: Result<()>)
    modifies cell
    ensures Step(cell.state, r) == SetGuardiansStep(old(cell.state), caller, guardians, quorum)
  {
    // update_state: mutate a copy and write it back
    var current := cell.state;
    if current.guardian_state.None? {
      current := current.(guardian_state := Some(GuardianState([], 0, caller)));
    }
    var g := current.guardian_state.value;
    if g.owner == caller && !(|guardians| == 0 || quorum == 0 || quorum > |guardians|) {
      g := g.(guardians := guardians);
      g := g.(quorum := quorum);
      current := current.(guardian_state := Some(g));
    }
    cell.state := current;
    // validate what was stored; the update above always leaves a guardian state behind,
    // so the "guardian state not initialized" answer of `set_guardians` cannot occur here
    var stored := cell.state.guardian_state.value;
    if stored.owner != caller {
      return Err(ErrOnlyOwnerSetGuardians);
    }
    if |stored.guardians| == 0 || stored.quorum == 0 || stored.quorum > |stored.guardians| {
      return Err(ErrInvalidQuorum);
    }
    r := Ok(());
  }

  /** `get_guardians`: a query. */
  method GetGuardians(cell: StateCell) returns (g: Option<GuardianState>)
    ensures g == cell.state.guardian_state
  {
    g := cell.state.guardian_state;
  }

  method InitializeGuardians(cell: StateCell, caller: Principal, owner: Principal) returns (r: Result<()>)
    modifies cell
    ensures Step(cell.state, r) == InitializeGuardiansStep(old(cell.state), owner)
  {
    if cell.state.guardian_state.Some? {
      return Err(ErrGuardiansAlreadyInitialized);
    }
    var current := cell.state;
    current := current.(guardian_state := Some(GuardianState([], 0, owner)));
    cell.state := current;
    r := Ok(());
  }
}
