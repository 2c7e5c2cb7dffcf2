/** One-time configuration of the ledger, minter and key name, and its owner-only update (config.rs). */
module Configuration {
  import opened Types
  import opened State

  const ErrConfigAlreadyInitialized := "Config already initialized"
  const ErrOnlyOwnerSetConfig := "only owner can set config"

  /**
   * `init_config`: the first call installs the configuration and makes the caller the owner of
   * an empty guardian state, replacing any guardian state that already existed.
   */
  function InitConfigStep(s: VaultStateV1, caller: Principal, ledger: Principal, minter: Principal, keyName: string): (out: Step<()>)
    ensures out.result.Ok? <==> s.config.None?
    ensures out.result.Err? ==> out == Step(s, Err(ErrConfigAlreadyInitialized))
    ensures out.result.Ok? ==>
      && out.state.config == Some(Config(ledger, minter, keyName))
      && out.state.guardian_state == Some(GuardianState([], 0, caller))
      && out.state == s.(config := out.state.config, guardian_state := out.state.guardian_state)
    ensures Valid(s) ==> Valid(out.state)
    ensures Evolves(s, out.state)
  {
    SameRecoveryBookkeeping(s, s);
    if s.config.Some? then Step(s, Err(ErrConfigAlreadyInitialized))
    else
      var t := s.(config := Some(Config(ledger, minter, keyName)), guardian_state := Some(GuardianState([], 0, caller)));
      SameRecoveryBookkeeping(s, t);
      Step(t, Ok(()))
  }

  /** `set_config`: only the owner of an existing guardian state may replace the configuration. */
  function SetConfigStep(s: VaultStateV1, caller: Principal, ledger: Principal, minter: Principal, keyName: string): (out: Step<()>)
    ensures out.result.Ok? <==> s.guardian_state.Some? && s.guardian_state.value.owner == caller
    ensures s.guardian_state.None? ==> out == Step(s, Err(ErrNoGuardianState))
    ensures s.guardian_state.Some? && s.guardian_state.value.owner != caller ==> out == Step(s, Err(ErrOnlyOwnerSetConfig))
    ensures out.result.Ok? ==> out.state == s.(config := Some(Config(ledger, minter, keyName)))
    ensures Valid(s) ==> Valid(out.state)
    ensures Evolves(s, out.state)
  {
    SameRecoveryBookkeeping(s, s);
    if s.guardian_state.None? then Step(s, Err(ErrNoGuardianState))
    else if s.guardian_state.value.owner != caller then Step(s, Err(ErrOnlyOwnerSetConfig))
    else
      var t := s.(config := Some(Config(ledger, minter, keyName)));
      SameRecoveryBookkeeping(s, t);
      Step(t, Ok(()))
  }

  /** A second `init_config` always fails, whoever calls it. */
  lemma InitConfigOnce(s: VaultStateV1, caller: Principal, other: Principal, ledger: Principal, minter: Principal, keyName: string)
    ensures InitConfigStep(InitConfigStep(s, caller, ledger, minter, keyName).state, other, ledger, minter, keyName).result.Err?
  {
  }

  method InitConfig(cell: StateCell, caller: Principal, ledger: Principal, minter: Principal, keyName: string) returns (r: Result<()>)
    modifies cell
    ensures Step(cell.state, r) == InitConfigStep(old(cell.state), caller, ledger, minter, keyName)
  {
    var alreadyInit := cell.state.config.Some?;
    if alreadyInit {
      return Err(ErrConfigAlreadyInitialized);
    }
    var current := cell.state;
    current := current.(config := Some(Config(ledger, minter, keyName)));
    current := current.(guardian_state := Some(GuardianState([], 0, caller)));
    cell.state := current;
    r := Ok(());
  }

  method SetConfig(cell: StateCell, caller: Principal, ledger: Principal, minter: Principal, keyName: string) returns (r: Result<()>)
    modifies cell
    ensures Step(cell.state, r) == SetConfigStep(old(cell.state), caller, ledger, minter, keyName)
  {
    var g := cell.state.guardian_state;
    if g.None? {
      return Err(ErrNoGuardianState);
    }
    if g.value.owner != caller {
      return Err(ErrOnlyOwnerSetConfig);
    }
    var current := cell.state;
    current := current.(config := Some(Config(ledger, minter, keyName)));
    cell.state := current;
    r := Ok(());
  }

  /** `get_config`: a query; it has no `modifies` clause, so it cannot change the state. */
  method GetConfig(cell: StateCell) returns (c: Option<Config>)
    ensures c == cell.state.config
  {
    c := cell.state.config;
  }
}
