/** The approval-based recovery state machine (recovery.rs). */
module Recovery {
  import opened Types
  import opened State

  const ErrOnlyOwnerOrGuardian := "only owner or guardian may open recovery"
  const ErrOnlyGuardianApprove := "only guardian may approve"
  const ErrNotFoundOrClosed := "recovery request not found or closed"

  /** What the `find` closures of recovery.rs and vetkd.rs test: the id, and openness when asked. */
  predicate Matches(r: RecoveryRequest, id: nat, openOnly: bool) {
    r.id == id && (r.open || !openOnly)
  }

  /** The first position at or after `from` whose request matches. */
  function FirstIndexFrom(reqs: seq<RecoveryRequest>, id: nat, openOnly: bool, from: nat): (k: Option<nat>)
    requires from <= |reqs|
    ensures k.Some? ==>
      && from <= k.value < |reqs|
      && Matches(reqs[k.value], id, openOnly)
      && (forall j :: from <= j < k.value ==> !Matches(reqs[j], id, openOnly))
    ensures k.None? ==> forall j :: from <= j < |reqs| ==> !Matches(reqs[j], id, openOnly)
    decreases |reqs| - from
  {
    if from == |reqs| then None
    else if Matches(reqs[from], id, openOnly) then Some(from)
    else FirstIndexFrom(reqs, id, openOnly, from + 1)
  }

  /** The position `iter().find(...)` stops at, if any. */
  function FirstIndex(reqs: seq<RecoveryRequest>, id: nat, openOnly: bool): (k: Option<nat>)
    ensures k.Some? ==>
      && k.value < |reqs|
      && Matches(reqs[k.value], id, openOnly)
      && (forall j :: 0 <= j < k.value ==> !Matches(reqs[j], id, openOnly))
    ensures k.None? ==> forall j :: 0 <= j < |reqs| ==> !Matches(reqs[j], id, openOnly)
  {
    FirstIndexFrom(reqs, id, openOnly, 0)
  }

  /** The linear scan `recovery_reqs.iter().find(...)` performs. */
  method Find(reqs: seq<RecoveryRequest>, id: nat, openOnly: bool) returns (k: Option<nat>)
    ensures k == FirstIndex(reqs, id, openOnly)
  {
    var i := 0;
    while i < |reqs|
      invariant 0 <= i <= |reqs|
      invariant FirstIndexFrom(reqs, id, openOnly, i) == FirstIndex(reqs, id, openOnly)
    {
      if Matches(reqs[i], id, openOnly) {
        return Some(i);
      }
      i := i + 1;
    }
    return None;
  }

  /** Ids are unique in a valid state, so an open request found by id is the only one with that id. */
  lemma {:induction false} FirstIndexUnique(s: VaultStateV1, id: nat, k: nat)
    requires Valid(s)
    requires k < |s.recovery_reqs| && s.recovery_reqs[k].id == id
    ensures FirstIndex(s.recovery_reqs, id, false) == Some(k)
    ensures s.recovery_reqs[k].open ==> FirstIndex(s.recovery_reqs, id, true) == Some(k)
  {
    var f := FirstIndex(s.recovery_reqs, id, false);
    assert f.Some?;
    var g := FirstIndex(s.recovery_reqs, id, true);
    assert s.recovery_reqs[k].open ==> g.Some?;
  }

  /** May `caller` open a recovery under guardian state `g`? */
  predicate OwnerOrGuardian(g: GuardianState, caller: Principal) {
    caller == g.owner || caller in g.guardians
  }

  /**
   * `request_recovery`: the owner or a listed guardian opens a request for `newOwner` under the
   * next id from the counter; several open requests may coexist.
   */
  function RequestRecoveryStep(s: VaultStateV1, caller: Principal, newOwner: Principal): (out: Step<nat>)
    ensures out.result.Ok? <==> s.guardian_state.Some? && OwnerOrGuardian(s.guardian_state.value, caller)
    ensures s.guardian_state.None? ==> out == Step(s, Err(ErrNoGuardianState))
    ensures s.guardian_state.Some? && !OwnerOrGuardian(s.guardian_state.value, caller) ==>
      out == Step(s, Err(ErrOnlyOwnerOrGuardian))
    ensures out.result.Ok? ==>
      && out.result.value == s.next_recovery_id
      && out.state.next_recovery_id == s.next_recovery_id + 1
      && out.state.recovery_reqs == s.recovery_reqs + [RecoveryRequest(out.result.value, newOwner, [], true)]
      && out.state == s.(next_recovery_id := out.state.next_recovery_id, recovery_reqs := out.state.recovery_reqs)
    // the id handed out belongs to no earlier request
    ensures Valid(s) && out.result.Ok? ==>
      forall i :: 0 <= i < |s.recovery_reqs| ==> s.recovery_reqs[i].id != out.result.value
    ensures Valid(s) ==> Valid(out.state)
    ensures Evolves(s, out.state)
  {
    SameRecoveryBookkeeping(s, s);
    if s.guardian_state.None? then Step(s, Err(ErrNoGuardianState))
    else if !OwnerOrGuardian(s.guardian_state.value, caller) then Step(s, Err(ErrOnlyOwnerOrGuardian))
    else
      var id := s.next_recovery_id;
      var t := s.(next_recovery_id := id + 1, recovery_reqs := s.recovery_reqs + [RecoveryRequest(id, newOwner, [], true)]);
      assert forall i :: 0 <= i < |s.recovery_reqs| ==> t.recovery_reqs[i] == s.recovery_reqs[i];
      EvolvesReflexive(s);
      Step(t, Ok(id))
  }

  /** `req.approvals` after `caller` approves: appended unless already present. */
  function WithApproval(approvals: seq<Principal>, caller: Principal): (r: seq<Principal>)
    ensures caller in r
    ensures |r| == if caller in approvals then |approvals| else |approvals| + 1
    ensures |approvals| <= |r| && r[..|approvals|] == approvals
    ensures NoDuplicates(approvals) ==> NoDuplicates(r)
  {
    if caller in approvals then approvals else approvals + [caller]
  }

  /**
   * `approve_recovery`: a listed guardian approves the first open request with that id. The
   * approval is recorded once; when the number of approvals (cast to `u8`) reaches the quorum,
   * ownership passes to the request's candidate and the request closes.
   */
  function ApproveRecoveryStep(s: VaultStateV1, caller: Principal, id: nat): (out: Step<bool>)
    ensures s.guardian_state.None? ==> out == Step(s, Err(ErrNoGuardianState))
    ensures s.guardian_state.Some? && caller !in s.guardian_state.value.guardians ==>
      out == Step(s, Err(ErrOnlyGuardianApprove))
    ensures s.guardian_state.Some? && caller in s.guardian_state.value.guardians && FirstIndex(s.recovery_reqs, id, true).None? ==>
      out == Step(s, Err(ErrNotFoundOrClosed))
    ensures out.result.Err? ==> out.state == s
    ensures out.result.Ok? ==>
      && s.guardian_state.Some?
      && caller in s.guardian_state.value.guardians
      && FirstIndex(s.recovery_reqs, id, true).Some?
      && var k, g := FirstIndex(s.recovery_reqs, id, true).value, s.guardian_state.value;
      && |out.state.recovery_reqs| == |s.recovery_reqs|
      && var before, after := s.recovery_reqs[k], out.state.recovery_reqs[k];
      && (forall j :: 0 <= j < |s.recovery_reqs| && j != k ==> out.state.recovery_reqs[j] == s.recovery_reqs[j])
      && after.id == id && after.new_owner == before.new_owner
      // the approval is recorded, and a repeated one does not grow the list
      && caller in after.approvals
      && |after.approvals| == (if caller in before.approvals then |before.approvals| else |before.approvals| + 1)
      // true exactly when the quorum is reached: then the owner changes and the request closes
      && (out.result.value <==> AsU8(|after.approvals|) >= g.quorum)
      && (out.result.value ==> !after.open && out.state.guardian_state == Some(g.(owner := before.new_owner)))
      && (!out.result.value ==> after.open && out.state.guardian_state == s.guardian_state)
      && out.state == s.(guardian_state := out.state.guardian_state, recovery_reqs := out.state.recovery_reqs)
    ensures Valid(s) ==> Valid(out.state)
    ensures Evolves(s, out.state)
  {
    SameRecoveryBookkeeping(s, s);
    if s.guardian_state.None? then Step(s, Err(ErrNoGuardianState))
    else
      var g := s.guardian_state.value;
      if caller !in g.guardians then Step(s, Err(ErrOnlyGuardianApprove))
      else match FirstIndex(s.recovery_reqs, id, true)
        case None => Step(s, Err(ErrNotFoundOrClosed))
        case Some(k) =>
          var req := s.recovery_reqs[k];
          var approvals := WithApproval(req.approvals, caller);
          var reached := AsU8(|approvals|) >= g.quorum;
          // `approve_recovery` re-checks that the owner it read before the update is still the owner;
          // the endpoint is synchronous, so nothing runs between the read and the update and that check always holds
          var req' := req.(approvals := approvals, open := !reached);
          var t := s.(guardian_state := if reached then Some(g.(owner := req.new_owner)) else s.guardian_state,
                      recovery_reqs := s.recovery_reqs[k := req']);
          ReplaceRequestKeepsInvariants(s, k, req', t);
          Step(t, Ok(reached))
  }

  /** Approving twice in a row with the same guardian records one approval. */
  lemma ApproveTwiceCountsOnce(s: VaultStateV1, guardian: Principal, id: nat)
    requires Valid(s)
    requires ApproveRecoveryStep(s, guardian, id).result == Ok(false)
    ensures var s1 := ApproveRecoveryStep(s, guardian, id).state;
      var s2 := ApproveRecoveryStep(s1, guardian, id);
      var k := FirstIndex(s.recovery_reqs, id, true).value;
      s2.result.Ok? && |s2.state.recovery_reqs[k].approvals| == |s1.recovery_reqs[k].approvals|
  {
    var s1 := ApproveRecoveryStep(s, guardian, id).state;
    var k := FirstIndex(s.recovery_reqs, id, true).value;
    FirstIndexUnique(s1, id, k);
  }

  /** `recovery_status`: the first request with that id, open or closed. */
  method RecoveryStatus(cell: StateCell, id: nat) returns (r: Option<RecoveryRequest>)
    ensures r.Some? ==> r.value.id == id && r.value in cell.state.recovery_reqs
    ensures r.None? ==> forall q :: q in cell.state.recovery_reqs ==> q.id != id
    ensures r.Some? ==>
      FirstIndex(cell.state.recovery_reqs, id, false).Some?
      && r.value == cell.state.recovery_reqs[FirstIndex(cell.state.recovery_reqs, id, false).value]
  {
    var k := Find(cell.state.recovery_reqs, id, false);
    if k.Some? {
      r := Some(cell.state.recovery_reqs[k.value]);
    } else {
      r := None;
    }
  }

  /**
   * `get_recovery_requests`: every request for the owner or a guardian, nothing for anyone else.
   * The principal asked about is the one the caller supplies, falling back to the caller itself.
   */
  method GetRecoveryRequests(cell: StateCell, caller: Principal, callerPrincipal: Option<Principal>) returns (r: seq<RecoveryRequest>)
    ensures var who := if callerPrincipal.Some? then callerPrincipal.value else caller;
      if cell.state.guardian_state.Some? && OwnerOrGuardian(cell.state.guardian_state.value, who)
      then r == cell.state.recovery_reqs
      else r == []
  {
    var who := if callerPrincipal.Some? then callerPrincipal.value else caller;
    var g := cell.state.guardian_state;
    if g.None? {
      return [];
    }
    if who == g.value.owner || who in g.value.guardians {
      r := cell.state.recovery_reqs;
    } else {
      r := [];
    }
  }

  method RequestRecovery(cell: StateCell, caller: Principal, newOwner: Principal) returns (r: Result<nat>)
    modifies cell
    ensures Step(cell.state, r) == RequestRecoveryStep(old(cell.state), caller, newOwner)
  {
    var g := cell.state.guardian_state;
    if g.None? {
      return Err(ErrNoGuardianState);
    }
    if caller != g.value.owner && caller !in g.value.guardians {
      return Err(ErrOnlyOwnerOrGuardian);
    }
    var id := cell.state.next_recovery_id;
    var current := cell.state;
    var recoveryId := current.next_recovery_id;
    current := current.(next_recovery_id := current.next_recovery_id + 1);
    current := current.(recovery_reqs := current.recovery_reqs + [RecoveryRequest(recoveryId, newOwner, [], true)]);
    cell.state := current;
    r := Ok(id);
  }

  method ApproveRecovery(cell: StateCell, caller: Principal, id: nat) returns (r: Result<bool>)
    modifies cell
    ensures Step(cell.state, r) == ApproveRecoveryStep(old(cell.state), caller, id)
  {
    var gs := cell.state.guardian_state;
    if gs.None? {
      return Err(ErrNoGuardianState);
    }
    if caller !in gs.value.guardians {
      return Err(ErrOnlyGuardianApprove);
    }
    var quorum, owner := gs.value.quorum, gs.value.owner;
    var completed := false;
    var current := cell.state;
    var k := Find(current.recovery_reqs, id, true);
    if k.None? {
      return Err(ErrNotFoundOrClosed);
    }
    var req := current.recovery_reqs[k.value];
    if caller !in req.approvals {
      req := req.(approvals := req.approvals + [caller]);
    }
    if AsU8(|req.approvals|) >= quorum {
      var g := current.guardian_state.value;
      if g.owner == owner {
        current := current.(guardian_state := Some(g.(owner := req.new_owner)));
      }
      req := req.(open := false);
      completed := true;
    }
    current := current.(recovery_reqs := current.recovery_reqs[k.value := req]);
    cell.state := current;
    r := Ok(completed);
  }
}
