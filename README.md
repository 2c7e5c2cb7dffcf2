# GuardianVault canister, modelled in Dafny

This project models the governance core of the GuardianVault canister (Rust, Internet Computer) and three pure helpers from its React front end.

The canister keeps all of its state in one record, `VaultStateV1`. That record holds:

- the ckBTC configuration;
- the guardian registry (owner, guardian list, `u8` quorum);
- the recovery requests and the recovery-id counter;
- the VetKD recovery secrets and the submitted recovery shares;
- the per-user subaccount and Bitcoin-address caches.

Every update endpoint clones the record, mutates the copy and writes it back.

The model follows that shape:

- `State.VaultStateV1` is a datatype. `State.StateCell` is a class with one mutable field `state` that stands for the stable cell.
- Each endpoint is a method `(cell, caller, arguments…) modifies cell`. Its `ensures` ties the new state and the result to a pure step function `XxxStep(old state, …)`.
- The step functions carry the properties the source promises: error cases, what changes, and what stays. Every step function also proves that it keeps the invariant `State.Valid` and only lets the recovery bookkeeping evolve (`State.Evolves`).
- `Canister.Apply`/`Canister.Run` compose all update endpoints. Lemmas over arbitrary call sequences show that every reachable state is valid. They also show that a closed recovery request never reopens and a request id is never reused.

What the canister receives from outside is passed in as a parameter:

- the caller principal;
- the replies of awaited management- and minter-canister calls, as `CallResult` (`Rejected(reason)` or `Replied(value)`);
- the SHA-256 and `DefaultHasher` functions, as function-typed parameters;
- `Principal::to_text`;
- the time.

Imperative code stays imperative:

- the `[0u8; 32]` buffer of `derive_subaccount_from_principal` is an `array` filled by a loop;
- `iter().find` is a loop method (`Recovery.Find`) proved against a recursive specification;
- the encrypted-share loop of `create_guardian_shares` is a loop method (`VetKd.EncryptShares`) proved against the map it builds.

Some behaviours of the code are easy to miss, and the model keeps them as written:

- The code starts recovery ids at 1.
- The owner or any listed guardian may open a recovery request.
- Several open requests may coexist.
- `set_guardians` mutates before it validates, so it can answer `Ok` for a rejected request (`Guardians.SetGuardiansAcceptsStaleConfiguration`).
- `init_config` resets any existing guardian state to the caller as owner.
- The canister keeps no ledger or UTXO accounting of its own.
- `create_guardian_shares` reads the time twice: once inside `generate_secret_id` and once for `created_at`. `VetKd.CreateGuardianShares` takes both readings as separate inputs.

Source paths below are relative to the repository root.

## Model

| member | source | states |
|---|---|---|
| Types.AsU8 | src/guardian-vault-backend/src/recovery.rs:56 | `len() as u8` equals the length below 256 and agrees with it modulo 256 |
| Types.ToBigEndian | src/guardian-vault-backend/src/vetkd.rs:304 | `to_be_bytes` of an n-byte integer is n bytes long |
| Types.BigEndianRoundTrip | src/guardian-vault-backend/src/ecdsa.rs:195 | reading back an n-byte big-endian encoding of a value below 256^n gives the value |
| Types.BigEndianInjective64 | src/guardian-vault-backend/src/vetkd.rs:304 | distinct `u64` values have distinct 8-byte big-endian encodings |
| Types.Pow256Values | src/guardian-vault-backend/src/vetkd.rs:304 | 4 and 8 bytes hold exactly the `u32` and `u64` ranges, so their big-endian encodings round-trip |
| State.DefaultState | src/guardian-vault-backend/src/state.rs:49-63 | the installed state (version 1, counter 1, nothing configured, empty collections) satisfies the invariant, migrates without change, and accepts any `init_state` |
| State.Decimal | src/guardian-vault-backend/src/state.rs:129 | the `{}` rendering of a version number is a non-empty string of decimal digits |
| State.DecimalDenotes | src/guardian-vault-backend/src/state.rs:129 | the digits printed for `n` denote `n` again; no other number prints the same text |
| State.MigrateStep | src/guardian-vault-backend/src/state.rs:121-140 | `Ok` exactly when the resulting version is 1; version 1 is left alone; a newer version `v` is refused unchanged with "Cannot downgrade from version `v` to 1", the numbers printed by `Decimal`; an older version becomes 1 with `Ok`; only the version field may change |
| State.MigrateIdempotent | src/guardian-vault-backend/src/state.rs:121-140 | migrating the migrated state changes nothing and gives the same answer |
| State.InitStateStep | src/guardian-vault-backend/src/state.rs:143-151 | `Ok` exactly when no config is set, then only the config is installed; otherwise "State already initialized" with nothing changed |
| State.StateCell.constructor | src/guardian-vault-backend/src/state.rs:82-87 | the cell starts with the default state |
| State.StateCell.WithState | src/guardian-vault-backend/src/state.rs:90-92 | the closure's result on the stored state |
| State.StateCell.WithStateMut | src/guardian-vault-backend/src/state.rs:94-102 | the stored state becomes exactly the closure's effect on a copy, and the closure's result is returned |
| State.StateCell.UpdateState | src/guardian-vault-backend/src/state.rs:113-118 | the stored state becomes the closure's effect |
| State.StateCell.StateMut | src/guardian-vault-backend/src/state.rs:109-111 | returns a copy equal to the stored state and modifies nothing |
| State.StateCell.MigrateState | src/guardian-vault-backend/src/state.rs:121-140 | new state and answer are those of `MigrateStep` |
| State.StateCell.InitState | src/guardian-vault-backend/src/state.rs:143-151 | new state and answer are those of `InitStateStep` |
| Configuration.InitConfigStep | src/guardian-vault-backend/src/config.rs:6-21 | fails unchanged once a config exists; otherwise sets the config and resets the guardian state to the caller as owner, no guardians, quorum 0 |
| Configuration.SetConfigStep | src/guardian-vault-backend/src/config.rs:24-42 | `Ok` exactly for the owner of an existing guardian state, who replaces the whole config; the two error cases leave everything unchanged |
| Configuration.InitConfigOnce | src/guardian-vault-backend/src/config.rs:10-13 | a second `init_config` fails, whoever calls it |
| Configuration.InitConfig | src/guardian-vault-backend/src/config.rs:6-21 | new state and answer are those of `InitConfigStep` |
| Configuration.SetConfig | src/guardian-vault-backend/src/config.rs:24-42 | new state and answer are those of `SetConfigStep` |
| Configuration.GetConfig | src/guardian-vault-backend/src/config.rs:45-47 | the stored config, with no state change |
| Guardians.GuardianStateOrInit | src/guardian-vault-backend/src/guardians.rs:11-19 | the stored guardian state, or the caller as owner of an empty list with quorum 0 |
| Guardians.SetGuardiansStep | src/guardian-vault-backend/src/guardians.rs:6-39 | the first caller is installed as owner; a non-owner changes nothing and gets "only owner…"; the owner's acceptable list and quorum replace the stored ones exactly; an unacceptable one leaves them; `Ok` exactly when the stored result is the caller's and acceptable |
| Guardians.SetGuardiansAcceptsStaleConfiguration | src/guardian-vault-backend/src/guardians.rs:23-37 | with an acceptable configuration stored, an empty request by the owner answers `Ok` and changes nothing |
| Guardians.SetGuardiansRejectedFirstCallInstallsOwner | src/guardian-vault-backend/src/guardians.rs:11-35 | a rejected first call still stores the caller as owner |
| Guardians.InitializeGuardiansStep | src/guardian-vault-backend/src/guardians.rs:47-66 | fails unchanged if a guardian state exists, otherwise installs the given owner with no guardians and quorum 0 |
| Guardians.SetGuardians | src/guardian-vault-backend/src/guardians.rs:6-39 | new state and answer are those of `SetGuardiansStep` |
| Guardians.GetGuardians | src/guardian-vault-backend/src/guardians.rs:42-44 | the stored guardian state, with no state change |
| Guardians.InitializeGuardians | src/guardian-vault-backend/src/guardians.rs:47-66 | new state and answer are those of `InitializeGuardiansStep` |
| Recovery.FirstIndexFrom | src/guardian-vault-backend/src/recovery.rs:51 | the first matching position at or after a start, or no match in the rest |
| Recovery.FirstIndex | src/guardian-vault-backend/src/recovery.rs:51 | the position `iter().find` stops at: it matches and no earlier one does; or none matches |
| Recovery.Find | src/guardian-vault-backend/src/recovery.rs:51 | the linear scan returns `FirstIndex` |
| Recovery.FirstIndexUnique | src/guardian-vault-backend/src/recovery.rs:19-28 | in a valid state a request with a given id is the one `find` returns |
| Recovery.RequestRecoveryStep | src/guardian-vault-backend/src/recovery.rs:6-31 | `Ok` exactly for the owner or a guardian; the id returned is the counter, which grows by one; an open request with no approvals for the candidate is appended; the id differs from every earlier request's; errors change nothing |
| Recovery.WithApproval | src/guardian-vault-backend/src/recovery.rs:52-54 | the caller is in the approvals afterwards, the list grows only if it was absent, and it keeps no duplicates |
| Recovery.ApproveRecoveryStep | src/guardian-vault-backend/src/recovery.rs:34-76 | non-guardians and unknown or closed ids fail unchanged; otherwise only the first open request with the id changes; `true` exactly when the `u8` approval count reaches the quorum, which makes the candidate owner and closes the request; otherwise it stays open |
| Recovery.ApproveTwiceCountsOnce | src/guardian-vault-backend/src/recovery.rs:190-212 | a repeated approval by the same guardian adds no approval |
| Recovery.RecoveryStatus | src/guardian-vault-backend/src/recovery.rs:79-81 | the first request with the id, as `find` returns it, or none when no request has it |
| Recovery.GetRecoveryRequests | src/guardian-vault-backend/src/recovery.rs:84-99 | all requests for the owner or a guardian (the supplied principal, else the caller); nothing for anyone else or without guardian state |
| Recovery.RequestRecovery | src/guardian-vault-backend/src/recovery.rs:6-31 | new state and answer are those of `RequestRecoveryStep` |
| Recovery.ApproveRecovery | src/guardian-vault-backend/src/recovery.rs:34-76 | new state and answer are those of `ApproveRecoveryStep` |
| VetKd.CreateGuardianSharesPrecheck | src/guardian-vault-backend/src/vetkd.rs:117-128 | passes exactly for the owner with a non-empty list as long as the stored one, and then yields the stored guardian state; otherwise "guardian state not initialized", "only owner can create guardian shares" or "guardian list mismatch", in that order |
| VetKd.CreateGuardianSharesComparesLengthOnly | src/guardian-vault-backend/src/vetkd.rs:126-128 | any principals of the right number pass the check |
| State.ConfiguredCall | src/guardian-vault-backend/src/vetkd.rs:60-81 | every management forward (`vetkd_public_key`, `vetkd_encrypted_key` at vetkd.rs:84-110, `ecdsa_public_key` at ecdsa.rs:74-95): "config not set" without a config, `<endpoint> failed: <reason>` on rejection, otherwise exactly the reply |
| VetKd.SecretIdInput | src/guardian-vault-backend/src/vetkd.rs:297-306 | the hashed bytes end with the 8-byte big-endian time |
| VetKd.SecretIdInputDependsOnTime | src/guardian-vault-backend/src/vetkd.rs:350-361 | calls at different times hash different bytes |
| VetKd.GuardianEncryptionKeyInput | src/guardian-vault-backend/src/vetkd.rs:308-315 | the hashed bytes are a 24-byte tag followed by the guardian |
| VetKd.SharesUpTo | src/guardian-vault-backend/src/vetkd.rs:140-169 | every share is filed under its guardian with the path secret id, guardian, index |
| VetKd.SharesUpToDomain | src/guardian-vault-backend/src/vetkd.rs:140-169 | after n steps the map holds exactly the first n guardians |
| VetKd.SharesUpToLastWins | src/guardian-vault-backend/src/vetkd.rs:142-168 | a guardian listed twice keeps the share built at its last position |
| VetKd.FirstRejected | src/guardian-vault-backend/src/vetkd.rs:155-159 | the first rejected reply, before which all replied; or none rejected |
| VetKd.CreateGuardianSharesStep | src/guardian-vault-backend/src/vetkd.rs:114-184 | precheck errors, then the master-key error ("config not set" or "vetkd_public_key failed: <reason>"), then the first rejected share call's "vetkd_encrypted_key failed: <reason>" are passed on, all without change; on success one secret is stored under the returned id with threshold = quorum and the time, holding exactly one share per listed guardian |
| VetKd.SubmitRecoveryShareStep | src/guardian-vault-backend/src/vetkd.rs:200-252 | non-guardians and missing or closed requests fail unchanged; otherwise only the caller's share for the id is set, a repeat adds no submitter, and `true` exactly when the `u8` submitter count reaches the quorum; owner and requests never change |
| VetKd.CompleteRecoveryStep | src/guardian-vault-backend/src/vetkd.rs:255-294 | fails unchanged, in this order, with "no recovery shares found", "recovery request not found or closed", "guardian state not initialized" or "insufficient recovery shares" (the `u8` count below the quorum); otherwise the candidate becomes owner, the first request with the id closes and the id's shares are dropped |
| VetKd.CompleteRecoveryClosesTheOpenRequest | src/guardian-vault-backend/src/vetkd.rs:262-287 | in a valid state the request closed is the open one whose candidate became owner |
| VetKd.CreateGuardianSharesChecks | src/guardian-vault-backend/src/vetkd.rs:115-128 | computes `CreateGuardianSharesPrecheck` |
| VetKd.EncryptShares | src/guardian-vault-backend/src/vetkd.rs:140-169 | the loop stops with the first rejected call's error, or returns the full share map `SharesUpTo` |
| VetKd.CreateGuardianShares | src/guardian-vault-backend/src/vetkd.rs:114-184 | new state and answer are those of `CreateGuardianSharesStep`, whose secret id is the SHA-256 digest of `SecretIdInput` at the first time reading (vetkd.rs:131, 297-306) and whose `created_at` is the second reading (vetkd.rs:176) |
| VetKd.GetGuardianShare | src/guardian-vault-backend/src/vetkd.rs:187-197 | never fails; the caller's share of the stored secret, if both exist |
| VetKd.GetRecoveryStatusForGuardian | src/guardian-vault-backend/src/vetkd.rs:318-330 | "guardian state not initialized" or "only guardians can check recovery status" first; for listed guardians the first request with the id, or none when no request has it |
| VetKd.SubmitRecoveryShare | src/guardian-vault-backend/src/vetkd.rs:200-252 | new state and answer are those of `SubmitRecoveryShareStep` |
| VetKd.CompleteRecovery | src/guardian-vault-backend/src/vetkd.rs:255-294 | new state and answer are those of `CompleteRecoveryStep` |
| CkBtc.PrincipalSubaccount | src/guardian-vault-backend/src/ckbtc.rs:24-31 | 32 bytes: min(length, 29), that many principal bytes, then zeros |
| CkBtc.SubaccountPrincipal | src/guardian-vault-backend/src/ckbtc.rs:27-29 | reads at most 29 principal bytes back from a length-prefixed subaccount |
| CkBtc.SubaccountRoundTrip | src/guardian-vault-backend/src/ckbtc.rs:27-29 | a principal of at most 29 bytes is recovered from its subaccount |
| CkBtc.SubaccountInjective | src/guardian-vault-backend/src/ckbtc.rs:27-29 | two such principals never share a subaccount |
| CkBtc.SubaccountTruncates | src/guardian-vault-backend/src/ckbtc.rs:27 | longer principals that agree on their first 29 bytes collide |
| CkBtc.DeriveSubaccountFromPrincipal | src/guardian-vault-backend/src/ckbtc.rs:24-31 | the buffer-filling loop yields `PrincipalSubaccount` |
| CkBtc.SeedSubaccount | src/guardian-vault-backend/src/ckbtc.rs:33-42 | 32 bytes: the 8-byte big-endian digest, then zeros |
| CkBtc.SeedSubaccountCarriesDigest | src/guardian-vault-backend/src/ckbtc.rs:38-40 | the first 8 bytes read back as the digest |
| CkBtc.CreateSubaccountStep | src/guardian-vault-backend/src/ckbtc.rs:199-208 | the returned subaccount is derived from "caller:seed" and stored under the caller, replacing any earlier one; other users' entries and all other fields are unchanged |
| CkBtc.UserSubaccount | src/guardian-vault-backend/src/ckbtc.rs:211-214 | the caller's stored subaccount, if any |
| CkBtc.CreateThenGetSubaccount | src/guardian-vault-backend/src/ckbtc.rs:199-214 | after `create_subaccount` the caller reads back what it returned; others read what they did before |
| CkBtc.GetDepositAddressStep | src/guardian-vault-backend/src/ckbtc.rs:93-119 | config errors, then call and minter errors, are reported unchanged; the address is returned, and the subaccount is recorded only when the minter answered with an address and a subaccount was supplied |
| CkBtc.NatToU128 | src/guardian-vault-backend/src/ckbtc.rs:223-228 | n below 2^128, else 0 |
| CkBtc.NatToU64 | src/guardian-vault-backend/src/ckbtc.rs:230-235 | n below 2^64, else 0 |
| CkBtc.CreateSubaccount | src/guardian-vault-backend/src/ckbtc.rs:199-208 | new state and result are those of `CreateSubaccountStep` |
| CkBtc.GetUserSubaccount | src/guardian-vault-backend/src/ckbtc.rs:211-214 | computes `UserSubaccount`, with no state change |
| CkBtc.GetPrincipalSubaccount | src/guardian-vault-backend/src/ckbtc.rs:217-220 | the caller's principal subaccount, from which a short principal is recoverable |
| CkBtc.GetDepositAddress | src/guardian-vault-backend/src/ckbtc.rs:93-119 | new state and answer are those of `GetDepositAddressStep` |
| Ecdsa.HexDigit | src/guardian-vault-backend/src/ecdsa.rs:298 | a lowercase hexadecimal digit |
| Ecdsa.HexValue | src/guardian-vault-backend/src/ecdsa.rs:298 | defined exactly on lowercase hex digits, inverting `HexDigit` |
| Ecdsa.ByteHex | src/guardian-vault-backend/src/ecdsa.rs:298 | `{:02x}`: two digits, high nibble first |
| Ecdsa.HexEncode | src/guardian-vault-backend/src/ecdsa.rs:296-300 | two lowercase hex digits per byte, high nibble first |
| Ecdsa.HexDecode | src/guardian-vault-backend/src/ecdsa.rs:296-300 | a decoded string has twice as many digits as bytes |
| Ecdsa.HexRoundTrip | src/guardian-vault-backend/src/ecdsa.rs:296-300 | decoding the encoding gives the bytes back |
| Ecdsa.UserDerivationPath | src/guardian-vault-backend/src/ecdsa.rs:229-234 | two components: the bytes of `guardian_vault`, then the principal's bytes |
| Ecdsa.UserDerivationPathInjective | src/guardian-vault-backend/src/ecdsa.rs:229-234 | distinct users have distinct paths |
| Ecdsa.EcdsaPublicKeyRequest | src/guardian-vault-backend/src/ecdsa.rs:77-84 | the request names the canister, the path, `secp256k1` and the configured key name |
| Ecdsa.ChildKeyPath | src/guardian-vault-backend/src/ecdsa.rs:194-195 | the user path plus one 4-byte big-endian component that reads back as the child index |
| Ecdsa.DeriveChildKey | src/guardian-vault-backend/src/ecdsa.rs:190-201 | a request with the child path is sent exactly when configured, and the answer is `EcdsaPublicKey`'s |
| Ecdsa.AddressHashInput | src/guardian-vault-backend/src/ecdsa.rs:249-251 | the hashed bytes are a 12-byte tag followed by the key |
| Ecdsa.BitcoinAddress | src/guardian-vault-backend/src/ecdsa.rs:236-258 | "Invalid public key length" unless the key has 33 or 65 bytes; otherwise "bc1q" and 40 lowercase hex digits that decode to the first 20 hash bytes |
| Ecdsa.BitcoinAddressKeyLengths | src/guardian-vault-backend/src/ecdsa.rs:316-333 | 33 bytes of 0x02 give a "bc1q…" address, 65 bytes of 0x04 are accepted, 32 zero bytes are refused |
| Ecdsa.GenerateBitcoinAddressStep | src/guardian-vault-backend/src/ecdsa.rs:126-144 | key and length errors are reported unchanged; on success the address is cached under the caller and nothing else changes |
| Ecdsa.GetOrCreateBitcoinAddressStep | src/guardian-vault-backend/src/ecdsa.rs:153-163 | a cached address is returned unchanged; otherwise it behaves as `generate_bitcoin_address`; a returned address is the cached one |
| Ecdsa.GetOrCreateIsStable | src/guardian-vault-backend/src/ecdsa.rs:153-163 | a second call returns the first call's address and changes nothing, whatever the key reply |
| Ecdsa.GenerateBitcoinAddress | src/guardian-vault-backend/src/ecdsa.rs:126-144 | new state and answer are those of `GenerateBitcoinAddressStep` |
| Ecdsa.GetOrCreateBitcoinAddress | src/guardian-vault-backend/src/ecdsa.rs:153-163 | new state and answer are those of `GetOrCreateBitcoinAddressStep` |
| Ecdsa.GetBitcoinAddress | src/guardian-vault-backend/src/ecdsa.rs:147-150 | the caller's cached address, if any |
| Ecdsa.GetWalletInfo | src/guardian-vault-backend/src/ecdsa.rs:204-218 | never fails; the caller, its cached address and subaccount, and its derivation path |
| Canister.Apply | src/guardian-vault-backend/src/state.rs:94-102 | every update endpoint keeps the invariant and only lets recovery bookkeeping evolve |
| Canister.RunPreservesValid | src/guardian-vault-backend/src/state.rs:94-102 | any sequence of calls keeps the invariant |
| Canister.RunEvolves | src/guardian-vault-backend/src/state.rs:94-102 | across any sequence of calls the counter never decreases, requests are never removed, and closed ones never change |
| Canister.ReachableIsValid | src/guardian-vault-backend/src/state.rs:49-63 | every state reachable from installation is valid |
| Canister.ClosedNeverReopens | src/guardian-vault-backend/src/vetkd.rs:284-287 | a closed request stays exactly as it is, by approvals, shares or anything else |
| Canister.IdsNeverReused | src/guardian-vault-backend/src/recovery.rs:19-28 | a request opened later never takes an earlier request's id |
| Canister.ApprovalQuorumScenario | src/guardian-vault-backend/src/recovery.rs:157-187 | with quorum 2 the first approval leaves the request open; the second closes it and makes the candidate owner |
| Canister.SharePathCannotReuseClosedRequest | src/guardian-vault-backend/src/vetkd.rs:262-264 | once approvals have closed a request, `complete_recovery` reports it not open and changes nothing |
| SendModal.ValidateAmount | src/guardian-vault-frontend/src/components/SendModal.jsx:52-61 | valid exactly when 0 < amount and amount + fee ≤ balance; the positivity error comes first, then the balance error |
| SendModal.MissingFeeIsZero | src/guardian-vault-frontend/src/components/SendModal.jsx:55 | a missing fee is judged as a fee of 0 |
| SendModal.ValidateAmountMonotone | src/guardian-vault-frontend/src/components/SendModal.jsx:57-58 | a smaller positive amount, a larger balance or a smaller fee keep a valid transfer valid |
| DepositModal.ToRadix16 | src/guardian-vault-frontend/src/components/DepositModal.jsx:59 | `toString(16)` of a value below 16 is its one digit, and of a byte of 16 or more its high and low hex digits |
| DepositModal.PadStart | src/guardian-vault-frontend/src/components/DepositModal.jsx:59 | `padStart` keeps the string at the end and pads in front up to the width |
| DepositModal.TxidHex | src/guardian-vault-frontend/src/components/DepositModal.jsx:59 | two characters per byte |
| DepositModal.SliceFromEnd | src/guardian-vault-frontend/src/components/DepositModal.jsx:60 | `slice(-n)`: the last min(n, length) characters |
| DepositModal.FormatTxid | src/guardian-vault-frontend/src/components/DepositModal.jsx:58-61 | 3 + min(8, hex length) + min(8, hex length) characters |
| DepositModal.TxidHexIsHexEncode | src/guardian-vault-frontend/src/components/DepositModal.jsx:59 | each byte becomes the same two lowercase, zero-padded digits as the back end's `hex::encode` |
| DepositModal.FormatTxidShape | src/guardian-vault-frontend/src/components/DepositModal.jsx:60 | for ids of 4 bytes or more: the first 8 hex digits, `...`, the last 8, all lowercase hex |
| DepositModal.FormatTxidLength32 | src/guardian-vault-frontend/src/components/DepositModal.jsx:59-60 | a 32-byte txid is shown in 19 characters |
| DepositModal.FormatShortTxid | src/guardian-vault-frontend/src/components/DepositModal.jsx:60 | an id of at most 4 bytes shows its full hex on both sides of `...` |
| DepositModal.LongHexShape | src/guardian-vault-frontend/src/components/DepositModal.jsx:60 | the shortening of a hex string of 8 or more digits is 19 characters: its first 8, `...`, its last 8 |
| DepositModal.ShortHexShowsAll | src/guardian-vault-frontend/src/components/DepositModal.jsx:60 | a hex string of at most 8 digits is shown whole on both sides of `...` |
| RecoveryPanel.Split | src/guardian-vault-frontend/src/components/RecoveryPanel.jsx:18 | `split(',')` yields at least one piece, none containing the separator |
| RecoveryPanel.SplitJoin | src/guardian-vault-frontend/src/components/RecoveryPanel.jsx:18 | joining the pieces with the separator gives the input back |
| RecoveryPanel.SplitAppend | src/guardian-vault-frontend/src/components/RecoveryPanel.jsx:18 | splitting `a,b` splits `a` and `b` on their own |
| RecoveryPanel.TrimStart | src/guardian-vault-frontend/src/components/RecoveryPanel.jsx:18 | a suffix of the input after leading white space, not starting with white space |
| RecoveryPanel.TrimEnd | src/guardian-vault-frontend/src/components/RecoveryPanel.jsx:18 | a prefix of the input before trailing white space, not ending with white space |
| RecoveryPanel.Trim | src/guardian-vault-frontend/src/components/RecoveryPanel.jsx:18 | no white space at either end; all-white-space input trims to empty |
| RecoveryPanel.TrimIntroducesNothing | src/guardian-vault-frontend/src/components/RecoveryPanel.jsx:18 | trimming adds no character the input lacked |
| RecoveryPanel.NonEmpty | src/guardian-vault-frontend/src/components/RecoveryPanel.jsx:18 | `filter(Boolean)` keeps only non-empty entries of the input, and every non-empty entry is kept |
| RecoveryPanel.NonEmptyAppend | src/guardian-vault-frontend/src/components/RecoveryPanel.jsx:18 | filtering distributes over concatenation, so order is kept |
| RecoveryPanel.TrimEach | src/guardian-vault-frontend/src/components/RecoveryPanel.jsx:18 | `map(trim)` trims each entry in place |
| RecoveryPanel.TrimEachAppend | src/guardian-vault-frontend/src/components/RecoveryPanel.jsx:18 | trimming distributes over concatenation |
| RecoveryPanel.ParseGuardianList | src/guardian-vault-frontend/src/components/RecoveryPanel.jsx:18 | every entry is non-empty, comma-free, and without white space at either end |
| RecoveryPanel.ParseKeepsOrder | src/guardian-vault-frontend/src/components/RecoveryPanel.jsx:18 | parsing `a,b` gives the entries of `a`, then those of `b` |
| RecoveryPanel.ParseKeepsEveryEntry | src/guardian-vault-frontend/src/components/RecoveryPanel.jsx:18 | every comma-separated piece that is not blank appears, trimmed, in the result |
| RecoveryPanel.SplitWithoutSeparator | src/guardian-vault-frontend/src/components/RecoveryPanel.jsx:18 | a string without a comma splits into itself alone |
| RecoveryPanel.ParseSingle | src/guardian-vault-frontend/src/components/RecoveryPanel.jsx:18 | a comma-free input gives exactly its trimmed text, or nothing when that is empty; with `ParseKeepsOrder` this fixes the parser's result on every input |
| RecoveryPanel.SplitOfBlank | src/guardian-vault-frontend/src/components/RecoveryPanel.jsx:18 | pieces of a string of commas and white space are white space only |
| RecoveryPanel.ParseBlankIsEmpty | src/guardian-vault-frontend/src/components/RecoveryPanel.jsx:18 | input of commas and white space only gives no guardians |
| RecoveryPanel.BlankPartsGiveNothing | src/guardian-vault-frontend/src/components/RecoveryPanel.jsx:18 | trimming and filtering pieces that are all white space leaves nothing |

## Left out

- Ledger and minter forwards (`ckbtc_balance_of`, `ckbtc_transfer`, `get_transaction_fee`, `retrieve_btc`, `retrieve_btc_with_approval`, `get_utxos`, `get_pending_utxos`): each is a single call into another canister with no canister-side state. For `get_deposit_address`, only the part after the call is modelled, with the minter's answer as input.
- `sign_with_ecdsa`, `sign_bitcoin_transaction` and `create_transaction_hash`: they only forward to the management canister and hash, and none touches the state.
- SHA-256, `DefaultHasher`, `Principal::to_text` and the time are parameters; nothing is assumed about their outputs beyond the SHA-256 digest being 32 bytes. The model states only which bytes are hashed.
- The `bc1q` address is the source's mock format, modelled as written, not as a Bitcoin encoding.
- Management-call arguments are modelled only for `ecdsa_public_key`, which `derive_child_key` uses. The VetKD and minter requests are not inspected, and they carry only the values already in the model. In particular, the transport key of each `vetkd_encrypted_key` request is the SHA-256 digest of `VetKd.GuardianEncryptionKeyInput`, but that request is not built, so the function describes the hashed bytes only.
- `Canister.Call.CreateGuardianShares` hashes the secret id as the endpoint does. The step function `VetKd.CreateGuardianSharesStep` takes the id as an input, so its lemmas hold for any id.
- `{:?}` renderings of call errors and minter errors are taken as given text.
- Each endpoint runs atomically. Interleaving of other calls across an `await` (in the VetKD, ECDSA and ckBTC endpoints) is not modelled. The owner re-check in `approve_recovery` (recovery.rs:59) is not modelled because it always holds in the code itself: `approve_recovery` is synchronous, with no `await` between its read of the owner (recovery.rs:38-44) and the update.
- Candid `Storable` encoding, the stable-memory plumbing and the lifecycle hooks in lib.rs (logging, trapping on a failed migration in `post_upgrade`) are not modelled.
- `next_recovery_id` and `version` are unbounded: a `u64` overflow after 2^64 requests is not modelled.
- `Principal::from_text`/`Principal.fromText` parsing is not modelled. Principals are byte strings, and front-end guardian entries stay strings.
- SendModal.ValidateAmount works on integers: `BigInt` throwing on non-integer text is not modelled, and neither is the floating-point conversion elsewhere in the dialog.
- DepositModal.FormatTxid takes the txid as bytes; other array-likes passed to `Array.from` are not modelled.
- The front end's React rendering, extension messaging, storage and the hooks are not modelled.
