/** The token's entry points. Each one takes the stored state and the caller's call stack, runs its
    guards in the source's order, and either aborts with an `Error` (the host then discards every write
    the call made, so the stored state stays as it was) or returns the state it leaves behind. */
module Cep18 {
  import opened Wrappers
  import opened Uint
  import opened Types
  import opened State
  import opened Supply
  import opened Utils

  // ---------------------------------------------------------------------------------------------
  // What the internal helpers do to the balances

  /** `amount` has moved from `sender` to `recipient`; nothing moves when they are the same account. */
  ghost predicate Moved(s: Ledger, t: Ledger, sender: Key, recipient: Key, amount: u256) {
    && (sender != recipient ==>
          Balance(t, sender) == Balance(s, sender) - amount
          && Balance(t, recipient) == Balance(s, recipient) + amount)
    && (sender == recipient ==> Balance(t, sender) == Balance(s, sender))
    && (forall k :: k != sender && k != recipient ==> Balance(t, k) == Balance(s, k))
  }

  /** The move cannot be made: the sender is short or the recipient would overflow. */
  ghost predicate MoveAborts(s: Ledger, sender: Key, recipient: Key, amount: u256) {
    && sender != recipient
    && amount > 0
    && (Balance(s, sender) < amount || Balance(s, recipient) + amount > U256_MAX)
  }

  function MoveError(s: Ledger, sender: Key, amount: u256): Error {
    if Balance(s, sender) < amount then InsufficientBalance else Overflow
  }

  /** `_mint`'s effect: `amount` of new supply, `swapFee` of it credited to the fee receiver and the rest
      to the recipient. When the two are the same account only the recipient's credit survives. */
  ghost predicate Minted(s: Ledger, t: Ledger, feeReceiver: Key, recipient: Key, swapFee: u256, amount: u256) {
    && t.totalSupply == s.totalSupply + amount
    && Balance(t, recipient) == Balance(s, recipient) + amount - swapFee
    && (feeReceiver != recipient ==> Balance(t, feeReceiver) == Balance(s, feeReceiver) + swapFee)
    && (forall k :: k != recipient && k != feeReceiver ==> Balance(t, k) == Balance(s, k))
  }

  ghost predicate MintAborts(s: Ledger, recipient: Key, swapFee: u256, amount: u256) {
    || Balance(s, recipient) + amount > U256_MAX
    || Balance(s, recipient) + amount < swapFee
    || s.totalSupply + amount > U256_MAX
    || s.feeReceiver.None?
    || Balance(s, s.feeReceiver.value) + swapFee > U256_MAX
  }

  /** Every failed check in `_mint` is `Overflow`, except a missing fee receiver, read after the first three. */
  function MintError(s: Ledger, recipient: Key, swapFee: u256, amount: u256): Error {
    if && Balance(s, recipient) + amount <= U256_MAX
       && swapFee <= Balance(s, recipient) + amount
       && s.totalSupply + amount <= U256_MAX
       && s.feeReceiver.None?
    then ApiErrorNone
    else Overflow
  }

  /** `burn_token`'s effect: `amount` leaves `owner`'s balance and the total supply. */
  ghost predicate Burned(s: Ledger, t: Ledger, owner: Key, amount: u256) {
    && Balance(t, owner) == Balance(s, owner) - amount
    && t.totalSupply == s.totalSupply - amount
    && (forall k :: k != owner ==> Balance(t, k) == Balance(s, k))
  }

  /** Settlement's effect: `totalFee` moves from the escrow to the fee receiver, then `burnt` leaves the
      escrow and the total supply. */
  ghost predicate Settled(s: Ledger, t: Ledger, escrow: Key, receiver: Key, totalFee: u256, burnt: u256) {
    && t.totalSupply == s.totalSupply - burnt
    && (escrow != receiver ==>
          Balance(t, escrow) == Balance(s, escrow) - totalFee - burnt
          && Balance(t, receiver) == Balance(s, receiver) + totalFee)
    && (escrow == receiver ==> Balance(t, escrow) == Balance(s, escrow) - burnt)
    && (forall k :: k != escrow && k != receiver ==> Balance(t, k) == Balance(s, k))
  }

  /** The allowance of (`owner`, `spender`) is now `value`; every other pair's is unchanged. */
  ghost predicate AllowanceIs(s: Ledger, t: Ledger, owner: Key, spender: Key, value: u256) {
    && Allowance(t, owner, spender) == value
    && (forall o, p :: (o, p) != (owner, spender) ==> Allowance(t, o, p) == Allowance(s, o, p))
  }

  /** An optional account list, as the host passes it, contains `k`. */
  predicate InList(list: Option<seq<Key>>, k: Key) {
    list.Some? && k in list.value
  }

  /** An optional account list names a contract, which has no badge item key. */
  predicate ListsContract(list: Option<seq<Key>>) {
    list.Some? && exists k :: k in list.value && k.Hash?
  }

  // ---------------------------------------------------------------------------------------------
  // Supply conservation across each effect

  /** A move, as `transfer`, `transfer_from` and the bridge-back escrow make it, keeps the balances'
      sum, so it keeps the invariant. */
  lemma MovedConserves(s: Ledger, t: Ledger, sender: Key, recipient: Key, amount: u256)
    requires Moved(s, t, sender, recipient, amount) && t.totalSupply == s.totalSupply
    ensures Sum(t.balances) == Sum(s.balances)
    ensures Conserved(t) <==> Conserved(s)
  {
    forall k | k != sender && k != recipient
      ensures Holding(t.balances, k) == Holding(s.balances, k)
    {
      assert Balance(t, k) == Balance(s, k);
    }
    SumChangedAt(s.balances, t.balances, sender, recipient);
  }

  /** `_mint` adds `amount` to the supply. The balances grow by `amount` too, unless the recipient is
      the fee receiver: then the fee credit is overwritten and `swapFee` of the new supply is held by nobody. */
  lemma MintedConserves(s: Ledger, t: Ledger, feeReceiver: Key, recipient: Key, swapFee: u256, amount: u256)
    requires Minted(s, t, feeReceiver, recipient, swapFee, amount)
    ensures Sum(t.balances) + (if recipient == feeReceiver then swapFee else 0) == Sum(s.balances) + amount
    ensures Conserved(s) ==> (Conserved(t) <==> recipient != feeReceiver || swapFee == 0)
  {
    forall k | k != recipient && k != feeReceiver
      ensures Holding(t.balances, k) == Holding(s.balances, k)
    {
      assert Balance(t, k) == Balance(s, k);
    }
    SumChangedAt(s.balances, t.balances, feeReceiver, recipient);
  }

  /** `burn_token` takes the same amount out of the balances and out of the supply. */
  lemma BurnedConserves(s: Ledger, t: Ledger, owner: Key, amount: u256)
    requires Burned(s, t, owner, amount)
    ensures Sum(t.balances) + amount == Sum(s.balances)
    ensures Conserved(t) <==> Conserved(s)
  {
    forall k | k != owner
      ensures Holding(t.balances, k) == Holding(s.balances, k)
    {
      assert Balance(t, k) == Balance(s, k);
    }
    SumChangedAtOne(s.balances, t.balances, owner);
  }

  /** Settling a request burns what it does not pay out, so the invariant survives it. */
  lemma SettledConserves(s: Ledger, t: Ledger, escrow: Key, receiver: Key, totalFee: u256, burnt: u256)
    requires Settled(s, t, escrow, receiver, totalFee, burnt)
    ensures Sum(t.balances) + burnt == Sum(s.balances)
    ensures Conserved(t) <==> Conserved(s)
  {
    forall k | k != escrow && k != receiver
      ensures Holding(t.balances, k) == Holding(s.balances, k)
    {
      assert Balance(t, k) == Balance(s, k);
    }
    SumChangedAt(s.balances, t.balances, escrow, receiver);
  }

  /** A successful `burn` never hits the supply-underflow branch while the invariant holds: a balance
      that covers the amount means the supply does too. */
  lemma BurnSupplyCovered(s: Ledger, owner: Key, amount: u256)
    requires Conserved(s) && amount <= Balance(s, owner)
    ensures amount <= s.totalSupply
  {
    BalanceAtMostSupply(s, owner);
  }

  /** `init` gives the whole initial supply to one account; the invariant holds when the supply it is
      given is the one the installer stored. */
  lemma InitConserves(t: Ledger, deployer: nat, initialSupply: u256)
    requires t.balances == map[Account(deployer) := initialSupply] && t.totalSupply == initialSupply
    ensures Conserved(t)
  {
    SumSingleton(Account(deployer), initialSupply);
  }

  // ---------------------------------------------------------------------------------------------
  // Internal helpers

  /** `transfer_balance` from balances.rs, which is not part of this model: taken to be the checked move of
      the reference CEP-18 code, a no-op when sender and recipient coincide or the amount is zero. */
  method TransferBalance(s: Ledger, sender: Key, recipient: Key, amount: u256) returns (r: Result<Ledger, Error>)
    ensures r.Failure? <==> MoveAborts(s, sender, recipient, amount)
    ensures r.Failure? ==> r.error == MoveError(s, sender, amount)
    ensures r.Success? ==> Moved(s, r.value, sender, recipient, amount) && r.value.(balances := s.balances) == s
  {
    if sender == recipient || amount == 0 {
      return Success(s);
    }
    var newSenderBalance :- CheckedSub(Balance(s, sender), amount).ToResult(InsufficientBalance);
    var newRecipientBalance :- CheckedAdd(Balance(s, recipient), amount).ToResult(Overflow);
    var afterDebit := s.(balances := WriteDictionaryValue(s.balances, sender, newSenderBalance));
    var afterCredit := afterDebit.(balances := WriteDictionaryValue(afterDebit.balances, recipient, newRecipientBalance));
    r := Success(afterCredit);
  }

  /** `_mint`: unguarded minting, shared by `mint` and redemption. */
  method InternalMint(s: Ledger, recipient: Key, swapFee: u256, amount: u256) returns (r: Result<Ledger, Error>)
    ensures r.Failure? <==> MintAborts(s, recipient, swapFee, amount)
    ensures r.Failure? ==> r.error == MintError(s, recipient, swapFee, amount)
    ensures r.Success? ==> s.feeReceiver.Some? && Minted(s, r.value, s.feeReceiver.value, recipient, swapFee, amount)
    ensures r.Success? ==> r.value.(balances := s.balances, totalSupply := s.totalSupply) == s
  {
    var newBalance :- CheckedAdd(Balance(s, recipient), amount).ToResult(Overflow);
    newBalance :- CheckedSub(newBalance, swapFee).ToResult(Overflow);
    var newTotalSupply :- CheckedAdd(s.totalSupply, amount).ToResult(Overflow);
    var feeReceiver :- ReadFeeReceiver(s);
    var newDevBalance :- CheckedAdd(Balance(s, feeReceiver), swapFee).ToResult(Overflow);
    var afterFee := WriteDictionaryValue(s.balances, feeReceiver, newDevBalance);
    var afterRecipient := WriteDictionaryValue(afterFee, recipient, newBalance);
    r := Success(s.(balances := afterRecipient, totalSupply := newTotalSupply));
  }

  /** `burn_token`: takes `amount` out of `owner`'s balance and out of the total supply. */
  method BurnToken(s: Ledger, owner: Key, amount: u256) returns (r: Result<Ledger, Error>)
    ensures r.Failure? <==> Balance(s, owner) < amount || s.totalSupply < amount
    ensures r.Failure? ==> r.error == (if Balance(s, owner) < amount then InsufficientBalance else Overflow)
    ensures r.Success? ==> Burned(s, r.value, owner, amount)
    ensures r.Success? ==> r.value.(balances := s.balances, totalSupply := s.totalSupply) == s
  {
    var newBalance :- CheckedSub(Balance(s, owner), amount).ToResult(InsufficientBalance);
    var newTotalSupply :- CheckedSub(s.totalSupply, amount).ToResult(Overflow);
    r := Success(s.(balances := WriteDictionaryValue(s.balances, owner, newBalance), totalSupply := newTotalSupply));
  }

  // ---------------------------------------------------------------------------------------------
  // Allowances and transfers

  method Approve(s: Ledger, stack: seq<CallStackElement>, spender: Key, amount: u256) returns (r: Result<Ledger, Error>)
    ensures var caller := GetImmediateCallerAddress(stack);
            if caller.Failure? then r == Failure(InvalidContext)
            else if spender == caller.value then r == Failure(CannotTargetSelfUser)
            else r.Success? && r.value.(allowances := s.allowances) == s
                 && AllowanceIs(s, r.value, caller.value, spender, amount)
  {
    var owner :- GetImmediateCallerAddress(stack);
    if spender == owner {
      return Failure(CannotTargetSelfUser);
    }
    r := Success(s.(allowances := WriteDictionaryValue(s.allowances, (owner, spender), amount)));
  }

  /** Never fails on arithmetic: the new allowance saturates at the largest `U256`. */
  method IncreaseAllowance(s: Ledger, stack: seq<CallStackElement>, spender: Key, amount: u256)
    returns (r: Result<Ledger, Error>)
    ensures var caller := GetImmediateCallerAddress(stack);
            if caller.Failure? then r == Failure(InvalidContext)
            else if spender == caller.value then r == Failure(CannotTargetSelfUser)
            else
              var current := Allowance(s, caller.value, spender);
              r.Success? && r.value.(allowances := s.allowances) == s
              && AllowanceIs(s, r.value, caller.value, spender,
                             if current + amount <= U256_MAX then current + amount else U256_MAX)
  {
    var owner :- GetImmediateCallerAddress(stack);
    if spender == owner {
      return Failure(CannotTargetSelfUser);
    }
    var newAllowance := SaturatingAdd(Allowance(s, owner, spender), amount);
    r := Success(s.(allowances := WriteDictionaryValue(s.allowances, (owner, spender), newAllowance)));
  }

  /** Never fails on arithmetic: the new allowance floors at zero. */
  method DecreaseAllowance(s: Ledger, stack: seq<CallStackElement>, spender: Key, amount: u256)
    returns (r: Result<Ledger, Error>)
    ensures var caller := GetImmediateCallerAddress(stack);
            if caller.Failure? then r == Failure(InvalidContext)
            else if spender == caller.value then r == Failure(CannotTargetSelfUser)
            else
              var current := Allowance(s, caller.value, spender);
              r.Success? && r.value.(allowances := s.allowances) == s
              && AllowanceIs(s, r.value, caller.value, spender, if amount <= current then current - amount else 0)
  {
    var owner :- GetImmediateCallerAddress(stack);
    if spender == owner {
      return Failure(CannotTargetSelfUser);
    }
    var newAllowance := SaturatingSub(Allowance(s, owner, spender), amount);
    r := Success(s.(allowances := WriteDictionaryValue(s.allowances, (owner, spender), newAllowance)));
  }

  method Transfer(s: Ledger, stack: seq<CallStackElement>, recipient: Key, amount: u256) returns (r: Result<Ledger, Error>)
    ensures var caller := GetImmediateCallerAddress(stack);
            if caller.Failure? then r == Failure(InvalidContext)
            else if caller.value == recipient then r == Failure(CannotTargetSelfUser)
            else if MoveAborts(s, caller.value, recipient, amount) then r == Failure(MoveError(s, caller.value, amount))
            else r.Success? && r.value.(balances := s.balances) == s
                 && Moved(s, r.value, caller.value, recipient, amount)
  {
    var sender :- GetImmediateCallerAddress(stack);
    if sender == recipient {
      return Failure(CannotTargetSelfUser);
    }
    r := TransferBalance(s, sender, recipient, amount);
  }

  /** The spender is the immediate caller. A zero amount returns before the allowance is even read. On
      success the (owner, spender) allowance has dropped by exactly `amount`. */
  method TransferFrom(s: Ledger, stack: seq<CallStackElement>, owner: Key, recipient: Key, amount: u256)
    returns (r: Result<Ledger, Error>)
    ensures var caller := GetImmediateCallerAddress(stack);
            if caller.Failure? then r == Failure(InvalidContext)
            else if owner == recipient then r == Failure(CannotTargetSelfUser)
            else if amount == 0 then r == Success(s)
            else if Allowance(s, owner, caller.value) < amount then r == Failure(InsufficientAllowance)
            else if MoveAborts(s, owner, recipient, amount) then r == Failure(MoveError(s, owner, amount))
            else r.Success? && r.value.(balances := s.balances, allowances := s.allowances) == s
                 && Moved(s, r.value, owner, recipient, amount)
                 && AllowanceIs(s, r.value, owner, caller.value, Allowance(s, owner, caller.value) - amount)
  {
    var spender :- GetImmediateCallerAddress(stack);
    if owner == recipient {
      return Failure(CannotTargetSelfUser);
    }
    if amount == 0 {
      return Success(s);
    }
    var newSpenderAllowance :- CheckedSub(Allowance(s, owner, spender), amount).ToResult(InsufficientAllowance);
    var moved :- TransferBalance(s, owner, recipient, amount);
    r := Success(moved.(allowances := WriteDictionaryValue(moved.allowances, (owner, spender), newSpenderAllowance)));
  }

  // ---------------------------------------------------------------------------------------------
  // Minting and burning

  /** Only a Minter may mint, once per mint-id, at exactly the configured fee. The supply grows by `amount`;
      the balances grow by as much only when the recipient is not the fee receiver (or the fee is zero). */
  method Mint(s: Ledger, stack: seq<CallStackElement>, recipient: Key, amount: u256, swapFeeIn: u256, mintId: string)
    returns (r: Result<Ledger, Error>)
    ensures var guard := SecCheck(s, stack, [Minter]);
            var fee := ReadSwapFee(s);
            if s.enableMintBurn == 0 then r == Failure(MintBurnDisabled)
            else if guard.Fail? then r == Failure(guard.error)
            else if mintId in s.mintIds then r == Failure(AlreadyMint)
            else if swapFeeIn != fee then r == Failure(InvalidFee)
            else if amount < fee then r == Failure(MintTooLow)
            else if MintAborts(s, recipient, fee, amount) then r == Failure(MintError(s, recipient, fee, amount))
            else r.Success? && r.value.(balances := s.balances, totalSupply := s.totalSupply, mintIds := s.mintIds) == s
                 && mintId in r.value.mintIds && ReadMintIds(r.value, mintId) == mintId
                 && (forall other :: other != mintId ==> Lookup(r.value.mintIds, other) == Lookup(s.mintIds, other))
                 && Minted(s, r.value, s.feeReceiver.value, recipient, fee, amount)
  {
    if s.enableMintBurn == 0 {
      return Failure(MintBurnDisabled);
    }
    :- SecCheck(s, stack, [Minter]);
    if mintId in s.mintIds {
      return Failure(AlreadyMint);
    }
    var recorded := SaveMintIds(s, mintId);
    assert recorded.balances == s.balances && recorded.feeReceiver == s.feeReceiver;
    assert forall k :: Balance(s, k) == Balance(recorded, k);
    r := MintAtFee(recorded, recipient, amount, swapFeeIn);
  }

  /** The rest of `mint` once the id is recorded: the caller's fee must be the configured one and the
      amount must cover it. */
  method MintAtFee(s: Ledger, recipient: Key, amount: u256, swapFeeIn: u256) returns (r: Result<Ledger, Error>)
    ensures var fee := ReadSwapFee(s);
            if swapFeeIn != fee then r == Failure(InvalidFee)
            else if amount < fee then r == Failure(MintTooLow)
            else if MintAborts(s, recipient, fee, amount) then r == Failure(MintError(s, recipient, fee, amount))
            else r.Success? && r.value.(balances := s.balances, totalSupply := s.totalSupply) == s
                 && Minted(s, r.value, s.feeReceiver.value, recipient, fee, amount)
  {
    var swapFee := ReadSwapFee(s);
    if swapFee != swapFeeIn {
      return Failure(InvalidFee);
    }
    if amount < swapFee {
      return Failure(MintTooLow);
    }
    r := InternalMint(s, recipient, swapFee, amount);
  }

  /** Self-burn only: the owner must be the immediate caller. */
  method Burn(s: Ledger, stack: seq<CallStackElement>, owner: Key, amount: u256) returns (r: Result<Ledger, Error>)
    ensures var caller := GetImmediateCallerAddress(stack);
            if s.enableMintBurn == 0 then r == Failure(MintBurnDisabled)
            else if caller.Failure? then r == Failure(InvalidContext)
            else if owner != caller.value then r == Failure(InvalidBurnTarget)
            else if Balance(s, owner) < amount then r == Failure(InsufficientBalance)
            else if s.totalSupply < amount then r == Failure(Overflow)
            else r.Success? && r.value.(balances := s.balances, totalSupply := s.totalSupply) == s
                 && Burned(s, r.value, owner, amount)
  {
    if s.enableMintBurn == 0 {
      return Failure(MintBurnDisabled);
    }
    var caller :- GetImmediateCallerAddress(stack);
    if owner != caller {
      return Failure(InvalidBurnTarget);
    }
    r := BurnToken(s, owner, amount);
  }

  // ---------------------------------------------------------------------------------------------
  // Bridge back

  predicate IsHexDigit(c: char) {
    '0' <= c <= '9' || 'a' <= c <= 'f' || 'A' <= c <= 'F'
  }

  /** `hex::decode` accepts the string: an even number of hex digits. */
  predicate HexDecodes(id: string) {
    |id| % 2 == 0 && forall i :: 0 <= i < |id| ==> IsHexDigit(id[i])
  }

  /** A request id is 64 characters that decode as hex. */
  predicate WellFormedRequestId(id: string) {
    |id| == 64 && HexDecodes(id)
  }

  /** `check_supported_chain`, which is not part of this model's sources: the chain's flag, false when absent. */
  predicate CheckSupportedChain(s: Ledger, chain: u256) {
    Lookup(s.supportedChains, chain).GetOr(false)
  }

  /** The request is recorded: the counter has moved past `info.index`, `id` maps to that index, the
      index maps to `info`, and every other id and index is as it was. */
  ghost predicate Requested(s: Ledger, t: Ledger, id: string, info: RequestInfo) {
    && ReadRequestId(t) == info.index + 1
    && ReadRequestMap(t, id) == info.index
    && (forall other :: other != id ==> Lookup(t.requestMap, other) == Lookup(s.requestMap, other))
    && Lookup(t.requestInfo, info.index) == Some(info)
    && (forall i :: i != info.index ==> Lookup(t.requestInfo, i) == Lookup(s.requestInfo, i))
  }

  /** Locks `amount` of the caller's tokens in the contract's own balance and records the request under the
      next index. An id is refused as a duplicate only when it maps to a nonzero index, and the first
      index handed out is zero. */
  method RequestBridgeBack(
    s: Ledger, stack: seq<CallStackElement>, amount: u256, fee: u256, toChainId: u256, id: string, receiverAddress: string)
    returns (r: Result<Ledger, Error>)
    ensures var caller := GetImmediateCallerAddress(stack);
            var index := ReadRequestId(s);
            if !CheckSupportedChain(s, toChainId) then r == Failure(UnsupportedChainIdForRequestBridgeBack)
            else if fee != ReadSwapFee(s) then r == Failure(InvalidFee)
            else if !WellFormedRequestId(id) then r == Failure(RequestIdIllFormatted)
            else if ReadRequestMap(s, id) != 0 then r == Failure(RequestIdExist)
            else if index == U256_MAX then r == Failure(ArithmeticPanic)
            else if caller.Failure? then r == Failure(InvalidContext)
            else if amount < fee then r == Failure(RequestAmountTooLow)
            else if MoveAborts(s, caller.value, s.selfKey, amount) then r == Failure(MoveError(s, caller.value, amount))
            else
              r.Success?
              && r.value.(balances := s.balances, requestId := s.requestId, requestMap := s.requestMap, requestInfo := s.requestInfo) == s
              && Requested(s, r.value, id, RequestInfo(caller.value, amount, fee, index, receiverAddress, toChainId))
              && Moved(s, r.value, caller.value, s.selfKey, amount)
  {
    if !CheckSupportedChain(s, toChainId) {
      return Failure(UnsupportedChainIdForRequestBridgeBack);
    }
    if fee != ReadSwapFee(s) {
      return Failure(InvalidFee);
    }
    if |id| != 64 {
      return Failure(RequestIdIllFormatted);
    }
    if !HexDecodes(id) {
      return Failure(RequestIdIllFormatted);
    }
    if ReadRequestMap(s, id) != 0 {
      return Failure(RequestIdExist);
    }
    var index := ReadRequestId(s);
    if index == U256_MAX {
      return Failure(ArithmeticPanic);
    }
    var nextIndex := index + 1;
    var st := SaveRequestId(s, nextIndex);
    st := SaveRequestMap(st, id, index);
    assert st.balances == s.balances && st.selfKey == s.selfKey;
    assert forall k :: Balance(s, k) == Balance(st, k);
    r := LockRequest(st, stack, amount, fee, index, toChainId, receiverAddress);
  }

  /** The rest of `request_bridge_back`, once the counter and the id are saved: the caller's tokens
      go to the escrow and the request record is stored under `index`. */
  method LockRequest(
    s: Ledger, stack: seq<CallStackElement>, amount: u256, fee: u256, index: u256, toChainId: u256, receiverAddress: string)
    returns (r: Result<Ledger, Error>)
    ensures var caller := GetImmediateCallerAddress(stack);
            if caller.Failure? then r == Failure(InvalidContext)
            else if amount < fee then r == Failure(RequestAmountTooLow)
            else if MoveAborts(s, caller.value, s.selfKey, amount) then r == Failure(MoveError(s, caller.value, amount))
            else
              r.Success? && r.value.(balances := s.balances, requestInfo := s.requestInfo) == s
              && Lookup(r.value.requestInfo, index) == Some(RequestInfo(caller.value, amount, fee, index, receiverAddress, toChainId))
              && (forall i :: i != index ==> Lookup(r.value.requestInfo, i) == Lookup(s.requestInfo, i))
              && Moved(s, r.value, caller.value, s.selfKey, amount)
  {
    var owner :- GetImmediateCallerAddress(stack);
    var info := RequestInfo(owner, amount, fee, index, receiverAddress, toChainId);
    var _ :- CheckedSub(amount, fee).ToResult(RequestAmountTooLow);
    var locked :- TransferBalance(s, owner, s.selfKey, amount);
    var recorded := locked.(requestInfo := WriteDictionaryValue(locked.requestInfo, index, info));
    assert forall k :: Balance(recorded, k) == Balance(locked, k);
    r := Success(recorded);
  }

  /** Admin-only settlement of a request: the recorded fee plus `fee` goes from the escrow to the fee
      receiver and the rest of the locked amount is burnt. Nothing marks the request as settled. */
  method SetFeeRequestBridgeBack(s: Ledger, stack: seq<CallStackElement>, requestIndex: u256, fee: u256)
    returns (r: Result<Ledger, Error>)
    ensures var guard := SecCheck(s, stack, [Admin]);
            if guard.Fail? then r == Failure(guard.error)
            else if requestIndex !in s.requestInfo then r == Failure(ApiErrorNone)
            else
              var info := s.requestInfo[requestIndex];
              if fee + info.fee > U256_MAX then r == Failure(ArithmeticPanic)
              else
                var totalFee := fee + info.fee;
                var burnt := info.amount - totalFee;
                if info.amount < totalFee then r == Failure(RequestAmountTooLow)
                else if s.feeReceiver.None? then r == Failure(ApiErrorNone)
                else
                  var receiver := s.feeReceiver.value;
                  var escrowAfterFee := if s.selfKey != receiver then Balance(s, s.selfKey) - totalFee else Balance(s, s.selfKey);
                  if MoveAborts(s, s.selfKey, receiver, totalFee) then r == Failure(MoveError(s, s.selfKey, totalFee))
                  else if escrowAfterFee < burnt then r == Failure(InsufficientBalance)
                  else if s.totalSupply < burnt then r == Failure(Overflow)
                  else r.Success? && r.value.(balances := s.balances, totalSupply := s.totalSupply) == s
                       && Settled(s, r.value, s.selfKey, receiver, totalFee, burnt)
  {
    var guard := SecCheck(s, stack, [Admin]);
    if guard.Fail? {
      return Failure(guard.error);
    }
    var info :- Lookup(s.requestInfo, requestIndex).ToResult(ApiErrorNone);
    if fee + info.fee > U256_MAX {
      return Failure(ArithmeticPanic);
    }
    var totalFee: u256 := fee + info.fee;
    var afterFee :- CheckedSub(info.amount, totalFee).ToResult(RequestAmountTooLow);
    var receiver :- ReadFeeReceiver(s);
    var paid :- TransferBalance(s, s.selfKey, receiver, totalFee);
    r := BurnToken(paid, paid.selfKey, afterFee);
  }

  // ---------------------------------------------------------------------------------------------
  // Initialisation and administration

  /** The named keys the installer creates before it calls `init`: the initial supply, the mint/burn flag,
      the swap fee, the fee receiver and a request counter at zero. */
  function Installed(selfKey: Key, totalSupply: u256, enableMintBurn: u8, swapFee: u256, feeReceiver: Key): (s: Ledger)
    ensures !s.initialized && s.totalSupply == totalSupply && s.balances == map[]
    ensures ReadSwapFee(s) == swapFee && ReadFeeReceiver(s) == Success(feeReceiver) && ReadRequestId(s) == 0
  {
    Ledger(false, selfKey, enableMintBurn, totalSupply, map[], map[], map[], map[], map[], map[], map[], map[],
           Some(swapFee), Some(feeReceiver), Some(0))
  }

  /** `init`, once only: fresh dictionaries, the whole initial supply to the deploying account, which is
      made Admin; then the minter list, then the admin list (so a later list wins), then the supported
      chains. A contract key in either list aborts it. */
  method Init(
    s: Ledger, deployer: nat, packageHash: Key, initialSupply: u256,
    adminList: Option<seq<Key>>, minterList: Option<seq<Key>>, supportedChains: seq<u256>)
    returns (r: Result<Ledger, Error>)
    ensures s.initialized ==> r == Failure(AlreadyInitialized)
    ensures !s.initialized && (ListsContract(minterList) || ListsContract(adminList)) ==> r == Failure(ApiErrorNone)
    ensures !s.initialized && !ListsContract(minterList) && !ListsContract(adminList) ==> r.Success?
    ensures r.Success? ==>
              var t := r.value;
              && t.initialized && t.selfKey == packageHash
              && t.balances == map[Account(deployer) := initialSupply]
              && t.allowances == map[] && t.mintIds == map[] && t.requestMap == map[]
              && t.requestInfo == map[] && t.redeemTokens == map[]
              && (forall k :: Lookup(t.badges, k) ==
                    if InList(adminList, k) then Some(Admin)
                    else if InList(minterList, k) then Some(Minter)
                    else if k == Account(deployer) then Some(Admin)
                    else Option.None)
              && (forall c :: Lookup(t.supportedChains, c) == if c in supportedChains then Some(true) else Option.None)
              && t.totalSupply == s.totalSupply && t.enableMintBurn == s.enableMintBurn && t.swapFee == s.swapFee
              && t.feeReceiver == s.feeReceiver && t.requestId == s.requestId
  {
    if s.initialized {
      return Failure(AlreadyInitialized);
    }
    var caller := Account(deployer);
    var balances := WriteDictionaryValue(map[], caller, initialSupply);
    var badges := WriteDictionaryValue(map[], caller, Admin);
    if minterList.Some? {
      badges :- PutBadges(badges, minterList.value, Minter);
    }
    if adminList.Some? {
      badges :- PutBadges(badges, adminList.value, Admin);
    }
    var chains := PutAll(map[], supportedChains, true);
    assert balances == map[caller := initialSupply];
    r := Success(s.(initialized := true, selfKey := packageHash, balances := balances, allowances := map[],
                    badges := badges, mintIds := map[], requestMap := map[], requestInfo := map[],
                    supportedChains := chains, redeemTokens := map[]));
  }

  /** Admin-only bulk badge change, also gated by the mint/burn flag. Per account None beats Admin, which
      beats Minter; the caller's own badge never changes; accounts in no list keep theirs. A contract
      key in any list aborts the whole change. */
  method ChangeSecurity(
    s: Ledger, stack: seq<CallStackElement>,
    adminList: Option<seq<Key>>, minterList: Option<seq<Key>>, noneList: Option<seq<Key>>)
    returns (r: Result<Ledger, Error>)
    ensures var guard := SecCheck(s, stack, [Admin]);
            if s.enableMintBurn == 0 then r == Failure(MintBurnDisabled)
            else if guard.Fail? then r == Failure(guard.error)
            else if ListsContract(adminList) || ListsContract(minterList) || ListsContract(noneList) then
              r == Failure(ApiErrorNone)
            else
              var caller := GetImmediateCallerAddress(stack).value;
              r.Success? && r.value.(badges := s.badges) == s
              && forall k :: Lookup(r.value.badges, k) ==
                   if k == caller then Lookup(s.badges, k)
                   else if InList(noneList, k) then Some(SecurityBadge.None)
                   else if InList(adminList, k) then Some(Admin)
                   else if InList(minterList, k) then Some(Minter)
                   else Lookup(s.badges, k)
  {
    if s.enableMintBurn == 0 {
      return Failure(MintBurnDisabled);
    }
    :- SecCheck(s, stack, [Admin]);
    var badgeMap: map<Key, SecurityBadge> := map[];
    if minterList.Some? {
      badgeMap := PutAll(badgeMap, minterList.value, Minter);
    }
    if adminList.Some? {
      badgeMap := PutAll(badgeMap, adminList.value, Admin);
    }
    if noneList.Some? {
      badgeMap := PutAll(badgeMap, noneList.value, SecurityBadge.None);
    }
    var caller := GetImmediateCallerAddress(stack).value;
    badgeMap := badgeMap - {caller};
    r := ChangeSecBadge(s, badgeMap);
  }

  method ChangeFeeReceiver(s: Ledger, stack: seq<CallStackElement>, feeReceiver: Key) returns (r: Result<Ledger, Error>)
    ensures var guard := SecCheck(s, stack, [Admin]);
            if guard.Fail? then r == Failure(guard.error)
            else r.Success? && r.value.(feeReceiver := s.feeReceiver) == s && ReadFeeReceiver(r.value) == Success(feeReceiver)
  {
    var guard := SecCheck(s, stack, [Admin]);
    if guard.Fail? {
      return Failure(guard.error);
    }
    r := Success(SaveFeeReceiver(s, feeReceiver));
  }

  method ChangeSwapFee(s: Ledger, stack: seq<CallStackElement>, swapFee: u256) returns (r: Result<Ledger, Error>)
    ensures var guard := SecCheck(s, stack, [Admin]);
            if guard.Fail? then r == Failure(guard.error)
            else r.Success? && r.value.(swapFee := s.swapFee) == s && ReadSwapFee(r.value) == swapFee
  {
    var guard := SecCheck(s, stack, [Admin]);
    if guard.Fail? {
      return Failure(guard.error);
    }
    r := Success(SaveSwapFee(s, swapFee));
  }

  /** Admin-only: every listed chain's flag becomes `isSupported`; chains not listed keep theirs. */
  method SetSupportedChains(s: Ledger, stack: seq<CallStackElement>, chains: seq<u256>, isSupported: bool)
    returns (r: Result<Ledger, Error>)
    ensures var guard := SecCheck(s, stack, [Admin]);
            if guard.Fail? then r == Failure(guard.error)
            else r.Success? && r.value.(supportedChains := s.supportedChains) == s
                 && forall c :: Lookup(r.value.supportedChains, c) ==
                      if c in chains then Some(isSupported) else Lookup(s.supportedChains, c)
  {
    var guard := SecCheck(s, stack, [Admin]);
    if guard.Fail? {
      return Failure(guard.error);
    }
    var flags := PutAll(s.supportedChains, chains, isSupported);
    r := Success(s.(supportedChains := flags));
  }
}
