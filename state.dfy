/** The contract's persistent state: its dictionaries and named keys, one field each. A dictionary is a
    `map` keyed by the account `Key`, chain id, request index or string the contract uses. */
module State {
  import opened Wrappers
  import opened Uint
  import opened Types

  datatype Ledger = Ledger(
    /** The `allowances` dictionary exists: `init` has run. */
    initialized: bool,
    /** The contract's own key (the package hash `init` stores), where bridge-back escrow is held. */
    selfKey: Key,
    enableMintBurn: u8,
    totalSupply: u256,
    balances: map<Key, u256>,
    allowances: map<(Key, Key), u256>,
    badges: map<Key, SecurityBadge>,
    mintIds: map<string, string>,
    requestMap: map<string, u256>,
    requestInfo: map<u256, RequestInfo>,
    supportedChains: map<u256, bool>,
    redeemTokens: map<Key, bool>,
    /** Named keys read through `get_key`: absent until written. */
    swapFee: Option<u256>,
    feeReceiver: Option<Key>,
    requestId: Option<u256>)

  /** What `k` holds in a balances dictionary: zero without an entry. */
  function Holding(m: map<Key, u256>, k: Key): u256 {
    if k in m then m[k] else 0
  }

  /** `read_balance_from`: an account without an entry holds zero. */
  function Balance(s: Ledger, owner: Key): u256 {
    Holding(s.balances, owner)
  }

  /** `read_allowance_from`: a pair without an entry may spend zero. */
  function Allowance(s: Ledger, owner: Key, spender: Key): u256 {
    Lookup(s.allowances, (owner, spender)).GetOr(0)
  }
}
