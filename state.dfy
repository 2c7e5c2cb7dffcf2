/**
 * The canister's whole state (state.rs): one record, held in a stable cell.
 * Every update endpoint clones the record, mutates the clone and writes it back.
 */
module State {
  import opened Types

  const STATE_VERSION: nat := 1

  const ErrAlreadyInitialized := "State already initialized"

  /** The error every endpoint gives when no guardian state has been installed yet. */
  const ErrNoGuardianState := "guardian state not initialized"

  /** The error the endpoints that need the ledger, minter or key name give before any call. */
  const ErrNoConfig := "config not set"

  /**
   * The shape every management-canister forward shares: no call without a configuration, a
   * rejection reported as `<endpoint> failed: <reason>`, and the reply passed through.
   */
  function ConfiguredCall<T>(s: VaultStateV1, endpoint: string, reply: CallResult<T>): (r: Result<T>)
    ensures s.config.None? ==> r == Err(ErrNoConfig)
    ensures s.config.Some? && reply.Rejected? ==> r == Err(endpoint + " failed: " + reply.reason)
    ensures r.Ok? <==> s.config.Some? && reply.Replied?
    ensures r.Ok? ==> r.value == reply.reply
  {
    if s.config.None? then Err(ErrNoConfig)
    else match reply
      case Rejected(reason) => Err(endpoint + " failed: " + reason)
      case Replied(value) => Ok(value)
  }

  datatype TransactionStatus = Pending | Confirmed | Failed

  datatype TransactionRecord = TransactionRecord(
    id: U64,
    from: Principal,
    to: Principal,
    amount: U64,
    fee: U64,
    memo: Option<seq<Byte>>,
    timestamp: U64,
    status: TransactionStatus)

  datatype VaultStateV1 = VaultStateV1(
    version: nat,
    config: Option<Config>,
    guardian_state: Option<GuardianState>,
    next_recovery_id: nat,
    recovery_reqs: seq<RecoveryRequest>,
    subaccounts: map<Principal, seq<Byte>>,             // user -> subaccount
    recovery_secrets: map<seq<Byte>, RecoverySecret>,   // secret_id -> recovery secret
    submitted_recovery_shares: map<nat, map<Principal, seq<Byte>>>,  // recovery id -> guardian -> share
    btc_addresses: map<Principal, string>,              // user -> bitcoin address
    transaction_history: seq<TransactionRecord>)

  /** What an update endpoint leaves behind: the state it writes back and what it returns. */
  datatype Step<T> = Step(state: VaultStateV1, result: Result<T>)

  /** A stored guardian configuration whose quorum its guardian list can meet (or no guardians yet). */
  predicate QuorumSatisfiable(g: GuardianState) {
    |g.guardians| == 0 || 1 <= g.quorum <= |g.guardians|
  }

  /** The invariant every endpoint keeps. */
  predicate Valid(s: VaultStateV1) {
    && s.next_recovery_id >= 1
    && (forall i :: 0 <= i < |s.recovery_reqs| ==> s.recovery_reqs[i].id < s.next_recovery_id)
    && (forall i :: 0 <= i < |s.recovery_reqs| ==> NoDuplicates(s.recovery_reqs[i].approvals))
    && (forall i, j :: 0 <= i < j < |s.recovery_reqs| ==> s.recovery_reqs[i].id != s.recovery_reqs[j].id)
    && (s.guardian_state.Some? ==> QuorumSatisfiable(s.guardian_state.value))
  }

  /** How one recovery request may change: same id and candidate, approvals only grow, closed is frozen. */
  predicate RequestEvolves(a: RecoveryRequest, b: RecoveryRequest) {
    && b.id == a.id
    && b.new_owner == a.new_owner
    && |a.approvals| <= |b.approvals|
    && b.approvals[..|a.approvals|] == a.approvals
    && (!a.open ==> b == a)
  }

  /**
   * How the recovery bookkeeping may change from `s` to `t`: the counter never goes back,
   * requests are never removed or reordered, a closed request never reopens, and every
   * request added carries an id the counter had not yet issued.
   */
  predicate Evolves(s: VaultStateV1, t: VaultStateV1) {
    && s.next_recovery_id <= t.next_recovery_id
    && |s.recovery_reqs| <= |t.recovery_reqs|
    && (forall i :: 0 <= i < |s.recovery_reqs| ==> RequestEvolves(s.recovery_reqs[i], t.recovery_reqs[i]))
    && (forall i :: |s.recovery_reqs| <= i < |t.recovery_reqs| ==> s.next_recovery_id <= t.recovery_reqs[i].id)
  }

  lemma {:induction false} EvolvesReflexive(s: VaultStateV1)
    ensures Evolves(s, s)
  {
    forall i | 0 <= i < |s.recovery_reqs|
      ensures RequestEvolves(s.recovery_reqs[i], s.recovery_reqs[i])
    {
      var a := s.recovery_reqs[i].approvals;
      assert a[..|a|] == a;
    }
  }

  lemma {:induction false} EvolvesTransitive(s: VaultStateV1, t: VaultStateV1, u: VaultStateV1)
    requires Evolves(s, t) && Evolves(t, u)
    ensures Evolves(s, u)
  {
    forall i | 0 <= i < |s.recovery_reqs|
      ensures RequestEvolves(s.recovery_reqs[i], u.recovery_reqs[i])
    {
      var a, b, c := s.recovery_reqs[i], t.recovery_reqs[i], u.recovery_reqs[i];
      assert RequestEvolves(a, b) && RequestEvolves(b, c);
      assert c.approvals[..|a.approvals|] == c.approvals[..|b.approvals|][..|a.approvals|];
    }
    forall i | |s.recovery_reqs| <= i < |u.recovery_reqs|
      ensures s.next_recovery_id <= u.recovery_reqs[i].id
    {
      if i < |t.recovery_reqs| {
        assert RequestEvolves(t.recovery_reqs[i], u.recovery_reqs[i]);
      }
    }
  }

  /** A step that leaves the recovery bookkeeping as it was evolves trivially. */
  lemma SameRecoveryBookkeeping(s: VaultStateV1, t: VaultStateV1)
    requires t.recovery_reqs == s.recovery_reqs && t.next_recovery_id == s.next_recovery_id
    ensures Evolves(s, t)
  {
    EvolvesReflexive(s);
  }

  /** Replacing one request by an evolution of it keeps the invariant and the bookkeeping. */
  lemma ReplaceRequestKeepsInvariants(s: VaultStateV1, k: nat, req: RecoveryRequest, t: VaultStateV1)
    requires k < |s.recovery_reqs|
    requires RequestEvolves(s.recovery_reqs[k], req)
    requires NoDuplicates(s.recovery_reqs[k].approvals) ==> NoDuplicates(req.approvals)
    requires t.recovery_reqs == s.recovery_reqs[k := req] && t.next_recovery_id == s.next_recovery_id
    requires Valid(s) && t.guardian_state.Some? ==> QuorumSatisfiable(t.guardian_state.value)
    ensures Valid(s) ==> Valid(t)
    ensures Evolves(s, t)
  {
    EvolvesReflexive(s);
  }

  /** `VaultStateV1::default()`: the state of a freshly installed canister. */
  function DefaultState(): (s: VaultStateV1)
    ensures Valid(s)
    ensures MigrateStep(s) == Step(s, Ok(()))
    ensures forall c: Config :: InitStateStep(s, c).result.Ok?
  {
    VaultStateV1(
      version := STATE_VERSION,
      config := None,
      guardian_state := None,
      next_recovery_id := 1,
      recovery_reqs := [],
      subaccounts := map[],
      recovery_secrets := map[],
      submitted_recovery_shares := map[],
      btc_addresses := map[],
      transaction_history := [])
  }

  /** Decimal digits of `n`, as `format!("{}", n)` prints it. */
  function Decimal(n: nat): (r: string)
    ensures |r| >= 1
    ensures forall i :: 0 <= i < |r| ==> '0' <= r[i] <= '9'
  {
    var d := ['0' + (n % 10) as char];
    if n < 10 then d else Decimal(n / 10) + d
  }

  /** The value a string of decimal digits denotes, most significant digit first. */
  function DecimalValue(digits: string): nat
    decreases |digits|
  {
    if digits == [] then 0
    else
      var last := digits[|digits| - 1] as int - '0' as int;
      DecimalValue(digits[..|digits| - 1]) * 10 + (if 0 <= last < 10 then last else 0)
  }

  /** The digits `Decimal` prints denote `n` itself. */
  lemma {:induction false} DecimalDenotes(n: nat)
    ensures DecimalValue(Decimal(n)) == n
    decreases n
  {
    var d := ['0' + (n % 10) as char];
    if n >= 10 {
      DecimalDenotes(n / 10);
      var r := Decimal(n / 10) + d;
      assert r[..|r| - 1] == Decimal(n / 10);
    }
  }

  /** `migrate_state`: version 1 is current, a newer version cannot be downgraded, an older one is bumped. */
  function MigrateStep(s: VaultStateV1): (out: Step<()>)
    ensures out.result.Ok? <==> out.state.version == STATE_VERSION
    ensures s.version == STATE_VERSION ==> out.state == s
    ensures s.version > STATE_VERSION ==>
      out == Step(s, Err("Cannot downgrade from version " + Decimal(s.version) + " to " + Decimal(STATE_VERSION)))
    ensures s.version < STATE_VERSION ==> out == Step(s.(version := STATE_VERSION), Ok(()))
    ensures out.state == s.(version := out.state.version)
  {
    if s.version == STATE_VERSION then Step(s, Ok(()))
    else if s.version > STATE_VERSION then
      Step(s, Err("Cannot downgrade from version " + Decimal(s.version) + " to " + Decimal(STATE_VERSION)))
    else Step(s.(version := STATE_VERSION), Ok(()))
  }

  /** Running the migration on its own output changes nothing and answers the same. */
  lemma MigrateIdempotent(s: VaultStateV1)
    ensures MigrateStep(MigrateStep(s).state) == MigrateStep(s)
  {
  }

  /** `init_state`: installs the configuration once; no other field changes. */
  function InitStateStep(s: VaultStateV1, config: Config): (out: Step<()>)
    ensures out.result.Ok? <==> s.config.None?
    ensures out.result.Ok? ==> out.state == s.(config := Some(config))
    ensures s.config.Some? ==> out == Step(s, Err(ErrAlreadyInitialized))
  {
    if s.config.Some? then Step(s, Err(ErrAlreadyInitialized))
    else Step(s.(config := Some(config)), Ok(()))
  }

  /** The stable cell holding the state. */
  class StateCell {
    var state: VaultStateV1

    constructor ()
      ensures state == DefaultState()
    {
      state := DefaultState();
    }

    /** `with_state`: runs a read-only closure on the stored state. */
    method WithState<R>(f: VaultStateV1 -> R) returns (r: R)
      ensures r == f(state)
    {
      r := f(state);
    }

    /**
     * `with_state_mut`: runs the closure on a copy and writes the copy back. The closure's
     * in-place mutation is modelled as a function from the copy to its mutated value.
     */
    method WithStateMut<R>(f: VaultStateV1 -> (VaultStateV1, R)) returns (r: R)
      modifies this
      ensures state == f(old(state)).0
      ensures r == f(old(state)).1
    {
      var current := state;
      var outcome := f(current);
      current := outcome.0;
      state := current;
      r := outcome.1;
    }

    /** `update_state`: `with_state_mut` for a closure that returns nothing. */
    method UpdateState(f: VaultStateV1 -> VaultStateV1)
      modifies this
      ensures state == f(old(state))
    {
      var _ := WithStateMut((s: VaultStateV1) => (f(s), ()));
    }

    /** `state_mut`: a copy of the stored state; it reads only, so the stored state cannot change through it. */
    method StateMut() returns (copy: VaultStateV1)
      ensures copy == state
    {
      copy := state;
    }

    method MigrateState() returns (r: Result<()>)
      modifies this
      ensures Step(state, r) == MigrateStep(old(state))
    {
      var current := state;
      if current.version == STATE_VERSION {
        r := Ok(());
      } else if current.version > STATE_VERSION {
        r := Err("Cannot downgrade from version " + Decimal(current.version) + " to " + Decimal(STATE_VERSION));
      } else {
        current := current.(version := STATE_VERSION);
        r := Ok(());
      }
      state := current;
    }

    method InitState(config: Config) returns (r: Result<()>)
      modifies this
      ensures Step(state, r) == InitStateStep(old(state), config)
    {
      var current := state;
      if current.config.Some? {
        r := Err(ErrAlreadyInitialized);
      } else {
        current := current.(config := Some(config));
        r := Ok(());
      }
      state := current;
    }
  }
}
