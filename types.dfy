/** The value types of the token: account keys, call-stack frames, security badges, bridge-back
    request records and the reasons a call aborts. */
module Types {
  import opened Uint

  /** An account or a contract package, as the host names them. */
  datatype Key = Account(accountHash: nat) | Hash(packageHash: nat)

  /** One frame of the host's call stack. */
  datatype CallStackElement =
    | Session(accountHash: nat)
    | StoredSession(accountHash: nat, contractPackageHash: nat, contractHash: nat)
    | StoredContract(contractPackageHash: nat, contractHash: nat)

  /** The privilege tier of an account; an account without a stored badge has no rights at all. */
  datatype SecurityBadge = Admin | Minter | None

  /** A bridge-back request as stored under its index. */
  datatype RequestInfo = RequestInfo(
    owner: Key,
    amount: u256,
    fee: u256,
    index: u256,
    receiverAddress: string,
    toChainId: u256)

  /** Why a call aborts. All but the last two are the contract's own `Cep18Error` codes; the last two
      are host-level reverts. */
  datatype Error =
    | InvalidContext
    | InsufficientBalance
    | InsufficientAllowance
    | Overflow
    | CannotTargetSelfUser
    | InsufficientRights
    | MintBurnDisabled
    | InvalidBurnTarget
    | AlreadyMint
    | InvalidFee
    | MintTooLow
    | UnsupportedChainIdForRequestBridgeBack
    | RequestIdIllFormatted
    | RequestIdExist
    | RequestAmountTooLow
    | NotSupportedToken
    | AlreadyInitialized
      /** `unwrap_or_revert` on an absent value (a missing named key or dictionary entry, a key that is not a hash). */
    | ApiErrorNone
      /** A plain `+` on `U256` that overflows: the contract panics. */
    | ArithmeticPanic
}
