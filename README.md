# CEP-18 rebalance token: a verified model of its ledger

This project models the token contract of a CEP-18 fork for the Casper network. The fork adds a bridge and a
redemption path. The model covers:

- balances, allowances and the total supply;
- the security badges (Admin, Minter, None) that gate privileged entry points;
- the mint-id record that makes each bridge mint happen once;
- the bridge-back requests, which lock tokens in the contract's own balance until an admin settles them;
- redemption, which mints this token for holders who burn an older token.

## Structure

- `State.Ledger` is the contract's stored state. It has one field per dictionary or named key.
- Every entry point is a method `Op(s: Ledger, stack, args) returns (r: Result<Ledger, Error>)`.
  - `stack` is the host's call stack, innermost frame last.
  - The method runs its guards in the source's order.
  - It either aborts with an `Error` or returns the new state. When it aborts, the host discards every write, so the
    stored state is still `s`.
- Each method's `ensures` gives the error chain in order. On success it gives the whole new state. Datatype-update
  equalities (`r.value.(balances := s.balances) == s`) say that nothing else changed.
- The effect on balances is stated pointwise by the ghost predicates `Moved`, `Minted`, `Burned` and `Settled`.

Supply conservation (`Supply.Conserved`: the balances add up to the total supply) is proved separately about
those effects:

- by `MovedConserves`, `BurnedConserves`, `SettledConserves`, `InitConserves` and, for redemption,
  `Redeem.RedeemedConserves`;
- also by `MintedConserves`, which shows the invariant's one real exception: minting to the fee receiver with a
  nonzero fee.

`Scenarios` composes entry points into call sequences and proves what they leave behind.

### Modules

| module | file | content |
|---|---|---|
| `Wrappers` | wrappers.dfy | `Option`, `Result` and `Outcome`, used with `:-` for aborting guards |
| `Uint` | uint.dfy | `u256` and `u8`, checked and saturating `U256` arithmetic |
| `Types` | types.dfy | `Key`, `CallStackElement`, `SecurityBadge`, `RequestInfo`, `Error` |
| `State` | state.dfy | `Ledger`, and the defaulting balance and allowance reads |
| `Supply` | supply.dfy | the sum of a balance map, and how updates change it |
| `Utils` | utils.dfy | cep18/src/utils.rs |
| `Cep18` | main.dfy | cep18/src/main.rs |
| `Redeem` | redeem.dfy | cep18/src/redeem.rs |
| `Scenarios` | scenarios.dfy | call sequences over the entry points |

### Assumptions about code this model does not include

- `transfer_balance` comes from cep18/src/balances.rs, which is not part of this model. It is taken to be the move of
  the upstream CEP-18 code:
  - nothing happens when the sender is the recipient or the amount is zero;
  - otherwise it fails `InsufficientBalance` when the sender is short;
  - and it fails `Overflow` when the recipient's balance would overflow.
- `check_supported_chain`, `read_request_info`, `save_request_info` and `get_self_key` are not part of this model either.
  They are modelled as follows:
  - `check_supported_chain` reads the chain's flag, which is false when absent;
  - `read_request_info` reads the record and aborts with the host's `None` error when it is absent;
  - `save_request_info` is a dictionary write;
  - `get_self_key` reads the package-hash key that `init` stores (`Ledger.selfKey`).
- `make_dictionary_item_key_for_contract` is not part of this model. The token `Key` itself is the key of the
  redeemable-token dictionary.

### Behaviour of the code that the model keeps as written

- `transfer_from` checks `owner == recipient` before it looks at a zero amount. So a zero-amount call to oneself still
  fails `CannotTargetSelfUser` (cep18/src/main.rs:163-169).
- `mint` accepts the Minter badge only (cep18/src/main.rs:194).
  - `init` applies the admin list after the minter list (cep18/src/main.rs:449-467).
  - So an account named both admin and minter at `init` ends up Admin and cannot mint.
  - `Scenarios.AdminAndMinterTogether` proves this. `Scenarios.EndToEnd` therefore uses separate admin and minter
    accounts.
- `change_security` aborts with `MintBurnDisabled` before it checks rights when the mint/burn flag is 0
  (cep18/src/main.rs:483-486).
- Replay protection of request ids does not cover the first request. It gets index 0, and a dictionary entry of 0
  reads as "unused" (cep18/src/main.rs:280-289).
- A request can be settled twice: nothing marks it settled (cep18/src/main.rs:340-377).
  `Scenarios.ReplayAndSettleTwice` replays the first request id and settles request 0 twice. Every call succeeds,
  and the second settlement burns the escrow of request 1.
- Conservation does not hold for a mint to the fee receiver with a nonzero fee. The recipient's write overwrites the
  fee credit (cep18/src/main.rs:252-253).
- `sec_check` aborts with the host's `None` error (not `InsufficientRights`) when the immediate caller is a contract.
  A contract key has no account hash to build the badge item key from (cep18/src/utils.rs:181-188, 235-236).
- Redemption cannot draw on an older token that runs this same code. The redeeming contract calls the older token's
  `burn` (cep18/src/redeem.rs:62-70), so on the older token's call stack the immediate caller is the redeeming
  contract, not the account. `burn` then refuses with `InvalidBurnTarget` (cep18/src/main.rs:385-387).
  `Redeem.RedeemFromThisCode` proves it.
- `mint` compares the `String` returned by `read_mintids` with `0` (cep18/src/main.rs:201-202). That does not
  type-check. The model reads the check as "the mint-id is already recorded".

## Model

| member | source | states |
|---|---|---|
| Utils.ToBytes | cep18/src/utils.rs:157-165 | a badge encodes as exactly `serialized_length` = 1 byte, its discriminant (Admin 0, Minter 1, None 2) |
| Utils.FromBytes | cep18/src/utils.rs:167-179 | decoding succeeds iff the first byte is 0, 1 or 2, yields the badge with that discriminant and an empty remainder, and otherwise fails `LeftOverBytes` |
| Utils.BadgeRoundTrip | cep18/src/utils.rs:143-179 | every badge decodes back from its encoding with nothing left over |
| Utils.FromBytesIgnoresTail | cep18/src/utils.rs:167-178 | bytes after the first never change the decoding |
| Utils.CallStackElementToAddress | cep18/src/utils.rs:45-58 | session and stored-session frames resolve to their account, stored-contract frames to their package hash |
| Utils.Reverse | cep18/src/utils.rs:65-67 | the reversed stack has the same length; position i holds the frame at len-1-i |
| Utils.GetImmediateCallerAddress | cep18/src/utils.rs:63-71 | fails `InvalidContext` iff the stack has fewer than two frames; otherwise the caller is the address of the frame at len-2 |
| Utils.AccountItemKey | cep18/src/utils.rs:235-244 | only an account key has a badge item key; a contract key aborts with the host's `None` error |
| Utils.SecCheck | cep18/src/utils.rs:181-193 | passes iff the immediate caller resolves, is an account, and has a stored badge in the allowed list; otherwise fails `InvalidContext` (short stack), the host's `None` error (contract caller) or `InsufficientRights` |
| Utils.ChangeSecBadge | cep18/src/utils.rs:195-200 | fails iff the map holds a contract key; otherwise exactly the map's keys get their badges and every other badge and every other field is unchanged |
| Utils.PutBadges | cep18/src/main.rs:449-467 | writing one badge over a key list fails iff the list holds a contract key; otherwise the listed keys get the badge and the rest are unchanged |
| Utils.WriteDictionaryValue | cep18/src/utils.rs:246-257 | the written key now holds the value, whatever it held before; every other key is unchanged |
| Utils.WriteDictionaryValueIdempotent | cep18/src/utils.rs:246-257 | writing the same value twice leaves the dictionary one write leaves |
| Utils.PutAll | cep18/src/main.rs:539-541 | after writing a value under each listed key, listed keys hold it and all others are unchanged |
| Utils.SaveMintIds | cep18/src/utils.rs:258-260 | the mint-id is recorded with itself as the value; other ids and all other fields are unchanged |
| Utils.ReadMintIds | cep18/src/utils.rs:262-264 | an unrecorded mint-id reads as the empty string |
| Utils.SaveRequestMap | cep18/src/utils.rs:265-267 | the request id now reads as the given index; other ids and all other fields are unchanged |
| Utils.ReadRequestMap | cep18/src/utils.rs:269-271 | an unknown request id reads as index 0 |
| Utils.SaveSwapFee | cep18/src/utils.rs:273-275 | the swap fee key exists afterwards and reads as the saved fee; nothing else changes |
| Utils.ReadSwapFee | cep18/src/utils.rs:277-279 | an absent swap fee reads as 0 |
| Utils.SaveFeeReceiver | cep18/src/utils.rs:280-282 | the fee receiver then reads as the saved key; nothing else changes |
| Utils.ReadFeeReceiver | cep18/src/utils.rs:284-286 | fails with the host's `None` error iff the key is absent |
| Utils.SaveRequestId | cep18/src/utils.rs:287-289 | the counter exists afterwards and reads as the saved value; nothing else changes |
| Utils.ReadRequestId | cep18/src/utils.rs:291-293 | an absent counter reads as 0 |
| Utils.SetKeyOverwrites | cep18/src/utils.rs:211-222 | a later `set_key` replaces an earlier one, and saving the same value twice equals saving it once |
| Supply.SumUpdate | cep18/src/main.rs:252-254 | writing v under k changes the sum of balances by v minus what k held |
| Supply.BalanceAtMostSupply | cep18/src/main.rs:392-408 | while the balances add up to the supply, no balance exceeds the supply |
| Cep18.TransferBalance | cep18/src/main.rs:150 | fails iff sender and recipient differ, the amount is nonzero and the sender is short (`InsufficientBalance`) or the recipient would overflow (`Overflow`); on success the amount has moved and only balances change |
| Cep18.MovedConserves | cep18/src/main.rs:158-186 | a balance move keeps the sum of balances, so it keeps conservation both ways |
| Cep18.InternalMint | cep18/src/main.rs:222-256 | fails `Overflow` on any overflow or a fee above the new balance, or with the host's `None` error when the fee receiver is unset; on success the supply grows by `amount`, the recipient by `amount - fee`, a distinct fee receiver by `fee`, and no one else |
| Cep18.MintedConserves | cep18/src/main.rs:244-254 | the balances grow by `amount`, less the fee when the recipient is the fee receiver; from a conserved state, conservation survives iff the recipient is not the fee receiver or the fee is zero |
| Cep18.BurnToken | cep18/src/main.rs:392-412 | fails `InsufficientBalance` when the balance is short, else `Overflow` when the supply is; on success exactly `amount` leaves the owner and the supply |
| Cep18.BurnedConserves | cep18/src/main.rs:392-412 | a burn takes the same amount out of the balances' sum and the supply, so it keeps conservation both ways |
| Cep18.BurnSupplyCovered | cep18/src/main.rs:402-408 | while conservation holds, a balance that covers a burn means the supply covers it too, so the supply-side `Overflow` never fires |
| Cep18.Approve | cep18/src/main.rs:85-99 | fails `InvalidContext` without a caller and `CannotTargetSelfUser` when the spender is the caller; otherwise the pair's allowance becomes `amount` and nothing else changes |
| Cep18.DecreaseAllowance | cep18/src/main.rs:102-119 | same guards; the allowance drops by `amount`, flooring at zero, never failing on arithmetic |
| Cep18.IncreaseAllowance | cep18/src/main.rs:122-139 | same guards; the allowance grows by `amount`, saturating at the largest U256, never failing on arithmetic |
| Cep18.Transfer | cep18/src/main.rs:141-156 | fails `InvalidContext`, then `CannotTargetSelfUser` when sending to oneself, then the move's error; on success exactly `amount` moves from caller to recipient and only balances change |
| Cep18.TransferFrom | cep18/src/main.rs:158-186 | fails `InvalidContext`, then `CannotTargetSelfUser` when owner is recipient; a zero amount returns the state unchanged; then `InsufficientAllowance`, then the move's error; on success the amount moves and the (owner, spender) allowance drops by exactly `amount` |
| Cep18.Mint | cep18/src/main.rs:188-220 | fails in order `MintBurnDisabled`, the Minter badge check, `AlreadyMint`, `InvalidFee`, `MintTooLow`, then `_mint`'s errors; on success the mint-id is recorded and `_mint`'s effect is made at the configured fee |
| Cep18.MintAtFee | cep18/src/main.rs:206-213 | the configured fee must equal the caller's (`InvalidFee`) and the amount must cover it (`MintTooLow`); then `_mint`'s outcome |
| Cep18.Burn | cep18/src/main.rs:379-390 | fails `MintBurnDisabled`, `InvalidContext`, `InvalidBurnTarget` unless the owner is the caller, then `burn_token`'s errors; on success only the owner's balance and the supply drop, by `amount` |
| Cep18.RequestBridgeBack | cep18/src/main.rs:258-327 | fails in order on an unsupported chain, a fee other than the swap fee, an id that is not 64 hex characters, an id mapped to a nonzero index, a counter that would overflow, no caller, an amount below the fee, and the move's errors; on success the counter goes n to n+1, the id maps to n, the record is stored at n and `amount` moves from the caller to the contract |
| Cep18.LockRequest | cep18/src/main.rs:290-316 | the escrow transfer and the record write of a request: `InvalidContext`, `RequestAmountTooLow`, the move's errors; on success the record is at its index and the amount is in escrow |
| Cep18.SetFeeRequestBridgeBack | cep18/src/main.rs:339-377 | Admin-only; a missing record aborts; `fee` + recorded fee overflowing panics; a total fee above the locked amount fails `RequestAmountTooLow`; on success the escrow pays the total fee to the fee receiver and the remainder is burnt from escrow and supply |
| Cep18.SettledConserves | cep18/src/main.rs:354-363 | settlement takes the burnt amount out of both the balances' sum and the supply, so it keeps conservation both ways |
| Cep18.Installed | cep18/src/main.rs:570-594 | the installer's named keys: the supply, the swap fee, the fee receiver and a request counter of 0, before `init` |
| Cep18.Init | cep18/src/main.rs:414-473 | fails `AlreadyInitialized` on a second call, aborts when a badge list names a contract, and otherwise gives the whole initial supply to the deployer, makes the deployer Admin, applies the minter then the admin list, and sets the listed chains supported |
| Cep18.InitConserves | cep18/src/main.rs:425-434 | the state `init` leaves is conserved: one balance holds the whole supply |
| Cep18.ChangeSecurity | cep18/src/main.rs:481-519 | fails `MintBurnDisabled`, then the Admin check, then aborts when a list names a contract; otherwise per account None beats Admin beats Minter, the caller's badge never changes and unlisted accounts keep theirs |
| Cep18.ChangeFeeReceiver | cep18/src/main.rs:521-526 | Admin-only; the fee receiver then reads as the given key and nothing else changes |
| Cep18.ChangeSwapFee | cep18/src/main.rs:527-532 | Admin-only; the swap fee then reads as the given fee and nothing else changes |
| Cep18.SetSupportedChains | cep18/src/main.rs:534-542 | Admin-only; every listed chain's flag becomes `isSupported` and the other chains keep theirs |
| Redeem.CheckRedeemSupport | cep18/src/redeem.rs:48-53 | passes iff the token's flag is stored as true; an absent entry fails `NotSupportedToken` |
| Redeem.SetRedeenTokens | cep18/src/redeem.rs:37-46 | Admin-only; every listed token's flag becomes `isSupported`, the others keep theirs, and nothing else changes |
| Redeem.RedeemToMultichainToken | cep18/src/redeem.rs:55-81 | fails `InvalidContext`, `NotSupportedToken`, a non-hash token, the older token's burn error, then `_mint`'s errors, all before any effect; on success the caller and the supply gain exactly `amount`, at no fee, no other balance changes, and the effect is `_mint`'s at fee 0 |
| Redeem.RedeemedConserves | cep18/src/redeem.rs:72-73 | a zero-fee mint grows the balances' sum by exactly the amount the supply grows by, so redemption keeps conservation both ways, even for the fee receiver |
| Redeem.RedeemFromThisCode | cep18/src/redeem.rs:55-70 | when the older token runs this code, its `burn` sees the redeeming contract as its immediate caller, so the redemption fails `InvalidBurnTarget` (or `MintBurnDisabled`) on both ledgers |
| Redeem.Migrate | tests/src/redeem.rs:200-227 | on success the caller's balance of the older token falls by `amount` and its balance here rises by `amount`, and so do the two supplies; a caller short on the older token cannot migrate |
| Scenarios.MintIdReplay | cep18/src/main.rs:200-205 | after a successful mint, the same mint-id is refused with `AlreadyMint`, whatever recipient, amount and fee the second call names |
| Scenarios.RequestIdReplay | cep18/src/main.rs:279-289 | after a successful request, the same id is refused with `RequestIdExist` when the counter was past 0; when it was 0, only the balance move can stop the replay |
| Scenarios.SettleTwice | cep18/src/main.rs:340-377 | after a successful settlement the same index passes every guard again; only the escrow's balance or the supply can stop it |
| Scenarios.ReplayFirstRequest | cep18/src/main.rs:279-289 | the same first request id sent twice is accepted twice: two records of 200, the id mapped to index 1, and 400 in escrow |
| Scenarios.SettleFirstTwice | cep18/src/main.rs:340-377 | settling request 0 twice succeeds twice; the second burns request 1's escrow while its record stays |
| Scenarios.ReplayAndSettleTwice | cep18/src/main.rs:259-377 | deploy, mint, replay the first request and settle it twice: every call succeeds, conservation holds, and the escrow ends empty |
| Scenarios.IncreaseThenDecrease | cep18/src/main.rs:102-139 | raising an allowance and lowering it by the same amount restores it, unless the raise saturated |
| Scenarios.ApproveThenSpend | cep18/src/main.rs:158-186 | an approval spent in full by `transfer_from` leaves a zero allowance and moves exactly the amount |
| Scenarios.DirectCall | cep18/src/utils.rs:63-71 | the stack of an account calling the token directly resolves to that account |
| Scenarios.SampleRequestId | cep18/src/main.rs:272-277 | a string of 64 hex digits passes the request-id format checks |
| Scenarios.Deploy | cep18/src/main.rs:414-473 | install and `init` leave a conserved state with the whole supply at the deployer |
| Scenarios.MintToHolder | tests/src/mint_and_burn.rs:41-48 | a Minter's mint of 500 at zero fee credits the holder and keeps conservation |
| Scenarios.HolderBurns | tests/src/mint_and_burn.rs:112-123 | the holder's self-burn lowers its balance and the supply together |
| Scenarios.SendBack | tests/src/mint_and_burn.rs:145-160 | a bridge-back request moves the holder's balance into escrow and records it at index 0 |
| Scenarios.Settle | cep18/src/main.rs:339-377 | settling at zero fee empties the escrow and returns the supply to its starting value |
| Scenarios.EndToEnd | tests/src/mint_and_burn.rs:17-175 | deploy, mint, burn, bridge back and settle: every call succeeds, conservation holds throughout, and the supply ends at 1,000,000 |
| Scenarios.AdminAndMinterTogether | cep18/src/main.rs:449-467 | an account in both the admin and the minter list at `init` is Admin only and its mint fails `InsufficientRights` |
| Scenarios.MintToFeeReceiver | cep18/src/main.rs:244-253 | from a conserved state, a mint to the fee receiver at a nonzero fee succeeds and breaks conservation |

## Left out

- Events (`record_event_dictionary`, `init_events`, main.rs `re_initialize_event`): they write only the event log.
  The model does not keep that log.
- `install_contract`, `call` and `migrate` in main.rs: contract packaging and upgrades. Only the named keys that
  the installer hands to `init` are modelled, as `Cep18.Installed`.
- The getters `name`, `symbol`, `decimals`, `total_supply`, `balance_of` and `allowance`: each is a read of one
  field. `State.Balance` and `State.Allowance` are those reads.
- Argument decoding (`get_named_arg_size`, `get_named_arg_with_user_errors`, host FFI): arguments are method
  parameters. An optional list that fails to decode arrives as `None`.
- `get_uref`, `read_from` and `get_key`'s aborts on a missing or mistyped uref: contract storage is assumed to be
  well formed. The named keys read through `get_key` are `Option` fields.
- Calls before `init`: every dictionary is taken to exist. `Ledger.initialized` only models `init`'s own guard.
- The badge dictionary's item key is the hex of the account hash. The model keys it by the account `Key`, and that
  encoding is injective.
- Unicode: a request id's length is counted in `char`s of a `seq<char>`, as `chars().count()` does. Hex decoding is
  taken to accept an even number of ASCII hex digits.
- Redeem.RedeemToMultichainToken: the older token's `burn` is a cross-contract call. It is a parameter holding that
  call's outcome, not an execution of the other contract.
- Redeem.Migrate: the older token's burn is taken to behave like this token's `burn_token`, without `burn`'s
  guards. This token's own `burn` would refuse the redeeming contract, because it is not the owner
  (`Redeem.RedeemFromThisCode`). So Migrate describes an older token whose `burn` accepts a contract burning
  for the account. That older token's code is not part of this model.
- Utils.FromBytes: an empty input makes the source panic on `bytes[0]`. The model requires a non-empty input rather
  than model that panic.
- BTreeMap iteration order in `change_security`: the order of the badge writes does not change the result, so the
  model writes them in any order.
