/** Redemption: holders of an older token burn it there and receive the same amount of this token.
    The older token is another contract; its `burn` is seen here only through its outcome. */
module Redeem {
  import opened Wrappers
  import opened Uint
  import opened Types
  import opened State
  import opened Supply
  import opened Utils
  import opened Cep18

  /** `check_redeem_support`: passes only for a token whose flag is stored as true. */
  function CheckRedeemSupport(s: Ledger, token: Key): (r: Outcome<Error>)
    ensures r.Pass? <==> token in s.redeemTokens && s.redeemTokens[token]
    ensures r.Fail? ==> r.error == NotSupportedToken
  {
    if !Lookup(s.redeemTokens, token).GetOr(false) then Fail(NotSupportedToken) else Pass
  }

  /** `set_redeen_tokens`: Admin-only; every listed token's flag becomes `isSupported`, the others keep theirs. */
  method SetRedeenTokens(s: Ledger, stack: seq<CallStackElement>, tokens: seq<Key>, isSupported: bool)
    returns (r: Result<Ledger, Error>)
    ensures var guard := SecCheck(s, stack, [Admin]);
            if guard.Fail? then r == Failure(guard.error)
            else r.Success? && r.value.(redeemTokens := s.redeemTokens) == s
                 && forall t :: Lookup(r.value.redeemTokens, t) ==
                      if t in tokens then Some(isSupported) else Lookup(s.redeemTokens, t)
  {
    var guard := SecCheck(s, stack, [Admin]);
    if guard.Fail? {
      return Failure(guard.error);
    }
    var flags := PutAll(s.redeemTokens, tokens, isSupported);
    r := Success(s.(redeemTokens := flags));
  }

  /** `redeem_to_multichain_token`. `sourceBurn` is how the older token's `burn` of (caller, amount)
      ended; when it reverts, the whole call reverts with its error. Otherwise this token mints `amount`
      to the caller at zero fee, without the mint flag, badge or mint-id checks of `mint`. */
  method RedeemToMultichainToken(
    s: Ledger, stack: seq<CallStackElement>, token: Key, amount: u256, sourceBurn: Outcome<Error>)
    returns (r: Result<Ledger, Error>)
    ensures var caller := GetImmediateCallerAddress(stack);
            if caller.Failure? then r == Failure(InvalidContext)
            else if CheckRedeemSupport(s, token).Fail? then r == Failure(NotSupportedToken)
            else if !token.Hash? then r == Failure(ApiErrorNone)
            else if sourceBurn.Fail? then r == Failure(sourceBurn.error)
            else if MintAborts(s, caller.value, 0, amount) then r == Failure(MintError(s, caller.value, 0, amount))
            else r.Success? && r.value.(balances := s.balances, totalSupply := s.totalSupply) == s
                 && Balance(r.value, caller.value) == Balance(s, caller.value) + amount
                 && r.value.totalSupply == s.totalSupply + amount
                 && (forall k :: k != caller.value ==> Balance(r.value, k) == Balance(s, k))
                 && Minted(s, r.value, s.feeReceiver.value, caller.value, 0, amount)
  {
    var caller :- GetImmediateCallerAddress(stack);
    :- CheckRedeemSupport(s, token);
    if !token.Hash? {
      return Failure(ApiErrorNone);
    }
    :- sourceBurn;
    r := InternalMint(s, caller, 0, amount);
  }

  /** A redemption mints at zero fee, so even a caller who is the fee receiver loses nothing: the
      balances grow by exactly the amount the supply grows by, and conservation survives it both ways. */
  lemma RedeemedConserves(s: Ledger, t: Ledger, feeReceiver: Key, caller: Key, amount: u256)
    requires Minted(s, t, feeReceiver, caller, 0, amount)
    ensures Sum(t.balances) == Sum(s.balances) + amount
    ensures Conserved(t) <==> Conserved(s)
  {
    MintedConserves(s, t, feeReceiver, caller, 0, amount);
  }

  /** Redemption from an older token that runs this same code. This token calls the older one's `burn`,
      so on the older token's stack this token's frame is the immediate caller: `burn` sees this
      contract, not the redeeming account, as the caller and refuses to burn the account's balance. When
      the older token has minting on, every such redemption fails `InvalidBurnTarget` and changes neither
      ledger; with minting off it fails `MintBurnDisabled`. */
  method RedeemFromThisCode(
    older: Ledger, s: Ledger, stack: seq<CallStackElement>, token: Key, amount: u256, olderContractHash: nat)
    returns (olderBurn: Result<Ledger, Error>, r: Result<Ledger, Error>)
    requires |stack| >= 2 && stack[|stack| - 1].StoredContract? && token.Hash?
    requires !stack[|stack| - 2].StoredContract?
    requires CheckRedeemSupport(s, token).Pass?
    ensures older.enableMintBurn != 0 ==> olderBurn == Failure(InvalidBurnTarget) && r == Failure(InvalidBurnTarget)
    ensures older.enableMintBurn == 0 ==> olderBurn == Failure(MintBurnDisabled) && r == Failure(MintBurnDisabled)
  {
    var caller := GetImmediateCallerAddress(stack).value;
    var nested := stack + [StoredContract(token.packageHash, olderContractHash)];
    assert nested[|nested| - 2] == stack[|stack| - 1];
    olderBurn := Burn(older, nested, caller, amount);
    var outcome := if olderBurn.Success? then Pass else Fail(olderBurn.error);
    r := RedeemToMultichainToken(s, stack, token, amount, outcome);
  }

  /** A whole migration as the host runs it: the older token's ledger (`source`) loses `amount` of the
      caller's balance and of its supply, then this token (`target`) redeems. Either both ledgers change
      or neither does. The older token's `burn` is taken to remove the amount as `burn_token` does,
      which describes an older token whose `burn` accepts this contract burning for the account; this
      code's own `burn` does not (`RedeemFromThisCode`). */
  method Migrate(source: Ledger, target: Ledger, stack: seq<CallStackElement>, token: Key, amount: u256)
    returns (r: Result<(Ledger, Ledger), Error>)
    ensures r.Success? ==>
              GetImmediateCallerAddress(stack).Success? &&
              var caller := GetImmediateCallerAddress(stack).value;
              && Balance(r.value.0, caller) == Balance(source, caller) - amount
              && Balance(r.value.1, caller) == Balance(target, caller) + amount
              && r.value.0.totalSupply == source.totalSupply - amount
              && r.value.1.totalSupply == target.totalSupply + amount
    ensures GetImmediateCallerAddress(stack).Success? && Balance(source, GetImmediateCallerAddress(stack).value) < amount
            ==> r.Failure?
  {
    var caller :- GetImmediateCallerAddress(stack);
    var burnt := BurnToken(source, caller, amount);
    var outcome := if burnt.Success? then Pass else Fail(burnt.error);
    var redeemed :- RedeemToMultichainToken(target, stack, token, amount, outcome);
    r := Success((burnt.value, redeemed));
  }
}
