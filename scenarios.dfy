/** Sequences of calls: what one entry point leaves behind decides what the next one does. */
module Scenarios {
  import opened Wrappers
  import opened Uint
  import opened Types
  import opened State
  import opened Supply
  import opened Utils
  import opened Cep18

  /** A mint-id is spent by the first successful mint: the same id never mints twice, whatever
      recipient, amount and fee the second call names. */
  method MintIdReplay(
    s: Ledger, stack: seq<CallStackElement>, recipient: Key, amount: u256, swapFee: u256, mintId: string,
    recipient2: Key, amount2: u256, swapFee2: u256)
    returns (first: Result<Ledger, Error>, second: Result<Ledger, Error>)
    ensures first.Success? ==> second == Failure(AlreadyMint)
  {
    first := Mint(s, stack, recipient, amount, swapFee, mintId);
    second := first;
    if first.Success? {
      second := Mint(first.value, stack, recipient2, amount2, swapFee2, mintId);
    }
  }

  /** Replaying a request id: refused once the counter has moved past zero, but not when the first
      request got index zero, because index zero reads the same as no entry. Then only the balance
      move can stop the second request. */
  method RequestIdReplay(
    s: Ledger, stack: seq<CallStackElement>, amount: u256, fee: u256, toChainId: u256, id: string, receiverAddress: string)
    returns (first: Result<Ledger, Error>, second: Result<Ledger, Error>)
    ensures first.Success? && ReadRequestId(s) > 0 ==> second == Failure(RequestIdExist)
    ensures first.Success? && ReadRequestId(s) == 0 ==>
              second.Failure? ==> second.error == InsufficientBalance || second.error == Overflow
  {
    first := RequestBridgeBack(s, stack, amount, fee, toChainId, id, receiverAddress);
    second := first;
    if first.Success? {
      second := RequestBridgeBack(first.value, stack, amount, fee, toChainId, id, receiverAddress);
    }
  }

  /** Nothing marks a request as settled: a second settlement of the same index passes every check of
      the first again, and only an escrow too small to pay it can stop it. */
  method SettleTwice(s: Ledger, stack: seq<CallStackElement>, requestIndex: u256, fee: u256)
    returns (first: Result<Ledger, Error>, second: Result<Ledger, Error>)
    ensures first.Success? ==> second.Failure? ==> second.error == InsufficientBalance || second.error == Overflow
  {
    first := SetFeeRequestBridgeBack(s, stack, requestIndex, fee);
    second := first;
    if first.Success? {
      second := SetFeeRequestBridgeBack(first.value, stack, requestIndex, fee);
    }
  }

  /** Raising an allowance and then lowering it by the same amount restores it, unless the raise saturated. */
  method IncreaseThenDecrease(s: Ledger, stack: seq<CallStackElement>, spender: Key, amount: u256)
    returns (r: Result<Ledger, Error>)
    requires GetImmediateCallerAddress(stack).Success? && spender != GetImmediateCallerAddress(stack).value
    ensures var owner := GetImmediateCallerAddress(stack).value;
            r.Success?
            && (Allowance(s, owner, spender) + amount <= U256_MAX ==>
                  Allowance(r.value, owner, spender) == Allowance(s, owner, spender))
            && (Allowance(s, owner, spender) + amount > U256_MAX ==>
                  Allowance(r.value, owner, spender) == U256_MAX - amount)
  {
    var raised := IncreaseAllowance(s, stack, spender, amount);
    r := DecreaseAllowance(raised.value, stack, spender, amount);
  }

  /** An approval spent in full by `transfer_from` leaves nothing to spend. */
  method ApproveThenSpend(s: Ledger, stack: seq<CallStackElement>, owner: Key, spenderFrame: nat, recipient: Key, amount: u256)
    returns (approved: Result<Ledger, Error>, spent: Result<Ledger, Error>)
    requires GetImmediateCallerAddress(stack) == Success(owner)
    requires owner != Account(spenderFrame) && owner != recipient && 0 < amount
    requires amount <= Balance(s, owner) && Balance(s, recipient) + amount <= U256_MAX
    ensures approved.Success? && spent.Success?
    ensures Allowance(spent.value, owner, Account(spenderFrame)) == 0
    ensures Balance(spent.value, owner) == Balance(s, owner) - amount
    ensures Balance(spent.value, recipient) == Balance(s, recipient) + amount
  {
    approved := Approve(s, stack, Account(spenderFrame), amount);
    assert Balance(approved.value, owner) == Balance(s, owner);
    assert Balance(approved.value, recipient) == Balance(s, recipient);
    spent := TransferFrom(approved.value, DirectCall(spenderFrame), owner, recipient, amount);
  }

  /** The call stack of a call made by account `a` straight to the token contract. */
  function DirectCall(a: nat): (stack: seq<CallStackElement>)
    ensures GetImmediateCallerAddress(stack) == Success(Account(a))
  {
    [Session(a), StoredContract(1000, 1001)]
  }

  const Contract: Key := Hash(1000)
  const Treasury: Key := Account(9)

  /** A request id of 64 hex digits. */
  function SampleRequestId(): (id: string)
    ensures WellFormedRequestId(id)
  {
    seq(64, _ => 'a')
  }

  const Admin1: Key := Account(1)
  const Holder: Key := Account(2)
  const Minter3: Key := Account(3)

  /** The configuration the stages below keep: minting on, no fee, the fee receiver set, account 1 an
      Admin, account 3 a Minter, chain 7 supported. */
  ghost predicate Ready(s: Ledger) {
    && s.enableMintBurn == 1 && s.selfKey == Contract && s.feeReceiver == Some(Treasury) && ReadSwapFee(s) == 0
    && Lookup(s.badges, Admin1) == Some(Admin) && Lookup(s.badges, Minter3) == Some(Minter)
    && CheckSupportedChain(s, 7)
  }

  /** Install and `init` with a supply of 1,000,000, then nothing else. */
  method Deploy() returns (s: Ledger)
    ensures Ready(s) && Conserved(s) && s.totalSupply == 1000000
    ensures Balance(s, Holder) == 0 && Balance(s, Contract) == 0 && Balance(s, Treasury) == 0
    ensures "x" !in s.mintIds && ReadRequestId(s) == 0 && ReadRequestMap(s, SampleRequestId()) == 0
  {
    var installed := Installed(Contract, 1000000, 1, 0, Treasury);
    var deployed := Init(installed, 1, Contract, 1000000, Some([Admin1]), Some([Minter3]), [7]);
    s := deployed.value;
    InitConserves(s, 1, 1000000);
  }

  /** The minter mints 500 to the holder under id "x". */
  method MintToHolder(s: Ledger) returns (t: Ledger)
    requires Ready(s) && Conserved(s) && s.totalSupply == 1000000
    requires Balance(s, Holder) == 0 && Balance(s, Contract) == 0 && Balance(s, Treasury) == 0
    requires "x" !in s.mintIds && ReadRequestId(s) == 0 && ReadRequestMap(s, SampleRequestId()) == 0
    ensures Ready(t) && Conserved(t) && t.totalSupply == 1000500
    ensures Balance(t, Holder) == 500 && Balance(t, Contract) == 0 && Balance(t, Treasury) == 0
    ensures ReadRequestId(t) == 0 && ReadRequestMap(t, SampleRequestId()) == 0
  {
    assert SecCheck(s, DirectCall(3), [Minter]).Pass?;
    var minted := Mint(s, DirectCall(3), Holder, 500, 0, "x");
    t := minted.value;
    MintedConserves(s, t, Treasury, Holder, 0, 500);
  }

  /** The holder burns 100 of its own balance. */
  method HolderBurns(s: Ledger) returns (t: Ledger)
    requires Ready(s) && Conserved(s) && s.totalSupply == 1000500
    requires Balance(s, Holder) == 500 && Balance(s, Contract) == 0 && Balance(s, Treasury) == 0
    requires ReadRequestId(s) == 0 && ReadRequestMap(s, SampleRequestId()) == 0
    ensures Ready(t) && Conserved(t) && t.totalSupply == 1000400
    ensures Balance(t, Holder) == 400 && Balance(t, Contract) == 0 && Balance(t, Treasury) == 0
    ensures ReadRequestId(t) == 0 && ReadRequestMap(t, SampleRequestId()) == 0
  {
    var burnt := Burn(s, DirectCall(2), Holder, 100);
    t := burnt.value;
    BurnedConserves(s, t, Holder, 100);
  }

  /** The holder sends all 400 back over the bridge to chain 7: the first request, at index zero. */
  method SendBack(s: Ledger) returns (t: Ledger)
    requires Ready(s) && Conserved(s) && s.totalSupply == 1000400
    requires Balance(s, Holder) == 400 && Balance(s, Contract) == 0 && Balance(s, Treasury) == 0
    requires ReadRequestId(s) == 0 && ReadRequestMap(s, SampleRequestId()) == 0
    ensures Ready(t) && Conserved(t) && t.totalSupply == 1000400
    ensures Balance(t, Holder) == 0 && Balance(t, Contract) == 400 && Balance(t, Treasury) == 0
    ensures Lookup(t.requestInfo, 0) == Some(RequestInfo(Holder, 400, 0, 0, "receiver", 7))
  {
    var requested := RequestBridgeBack(s, DirectCall(2), 400, 0, 7, SampleRequestId(), "receiver");
    t := requested.value;
    MovedConserves(s, t, Holder, Contract, 400);
  }

  /** The admin settles request 0 at no extra fee: the escrow is burnt. */
  method Settle(s: Ledger) returns (r: Result<Ledger, Error>)
    requires Ready(s) && Conserved(s) && s.totalSupply == 1000400
    requires Balance(s, Holder) == 0 && Balance(s, Contract) == 400 && Balance(s, Treasury) == 0
    requires Lookup(s.requestInfo, 0) == Some(RequestInfo(Holder, 400, 0, 0, "receiver", 7))
    ensures r.Success? && Conserved(r.value) && r.value.totalSupply == 1000000
    ensures Balance(r.value, Holder) == 0 && Balance(r.value, Contract) == 0
  {
    assert SecCheck(s, DirectCall(1), [Admin]).Pass?;
    r := SetFeeRequestBridgeBack(s, DirectCall(1), 0, 0);
    SettledConserves(s, r.value, Contract, Treasury, 0, 400);
  }

  /** A minter mints to a holder, the holder burns part and sends the rest back over the bridge, and
      the admin settles at no fee: the holder ends with nothing, the escrow is empty again and the
      supply is back where it started. */
  method EndToEnd() returns (r: Result<Ledger, Error>)
    ensures r.Success? && Conserved(r.value) && r.value.totalSupply == 1000000
    ensures Balance(r.value, Holder) == 0 && Balance(r.value, Contract) == 0
  {
    var s0 := Deploy();
    var s1 := MintToHolder(s0);
    var s2 := HolderBurns(s1);
    var s3 := SendBack(s2);
    r := Settle(s3);
  }

  /** The replay the counter's zero start allows: after the minter's mint of 500, the holder sends the
      same request twice, both succeed, and the one id ends up mapped to the second index. */
  method ReplayFirstRequest(s: Ledger) returns (first: Result<Ledger, Error>, second: Result<Ledger, Error>)
    requires Ready(s) && Conserved(s) && s.totalSupply == 1000500
    requires Balance(s, Holder) == 500 && Balance(s, Contract) == 0 && Balance(s, Treasury) == 0
    requires ReadRequestId(s) == 0 && ReadRequestMap(s, SampleRequestId()) == 0
    ensures first.Success? && second.Success?
    ensures Ready(second.value) && Conserved(second.value) && second.value.totalSupply == 1000500
    ensures Balance(second.value, Holder) == 100 && Balance(second.value, Contract) == 400
    ensures Balance(second.value, Treasury) == 0
    ensures ReadRequestMap(second.value, SampleRequestId()) == 1
    ensures Lookup(second.value.requestInfo, 0) == Some(RequestInfo(Holder, 200, 0, 0, "r", 7))
    ensures Lookup(second.value.requestInfo, 1) == Some(RequestInfo(Holder, 200, 0, 1, "r", 7))
  {
    first := RequestBridgeBack(s, DirectCall(2), 200, 0, 7, SampleRequestId(), "r");
    MovedConserves(s, first.value, Holder, Contract, 200);
    second := RequestBridgeBack(first.value, DirectCall(2), 200, 0, 7, SampleRequestId(), "r");
    MovedConserves(first.value, second.value, Holder, Contract, 200);
  }

  /** Settling request 0 twice: both settlements succeed, and the second burns the 200 that request 1
      still has locked, so request 1's record stands while its escrow is gone. */
  method SettleFirstTwice(s: Ledger) returns (first: Result<Ledger, Error>, second: Result<Ledger, Error>)
    requires Ready(s) && Conserved(s) && s.totalSupply == 1000500
    requires Balance(s, Holder) == 100 && Balance(s, Contract) == 400 && Balance(s, Treasury) == 0
    requires Lookup(s.requestInfo, 0) == Some(RequestInfo(Holder, 200, 0, 0, "r", 7))
    requires Lookup(s.requestInfo, 1) == Some(RequestInfo(Holder, 200, 0, 1, "r", 7))
    ensures first.Success? && second.Success?
    ensures Conserved(second.value) && second.value.totalSupply == 1000100
    ensures Balance(second.value, Holder) == 100 && Balance(second.value, Contract) == 0
    ensures Lookup(second.value.requestInfo, 1) == Some(RequestInfo(Holder, 200, 0, 1, "r", 7))
  {
    assert SecCheck(s, DirectCall(1), [Admin]).Pass?;
    first := SetFeeRequestBridgeBack(s, DirectCall(1), 0, 0);
    SettledConserves(s, first.value, Contract, Treasury, 0, 200);
    assert SecCheck(first.value, DirectCall(1), [Admin]).Pass?;
    second := SetFeeRequestBridgeBack(first.value, DirectCall(1), 0, 0);
    SettledConserves(first.value, second.value, Contract, Treasury, 0, 200);
  }

  /** Deploy, mint 500 to the holder, send the same first request twice and settle request 0 twice: every
      call succeeds, and the escrow of request 1 is burnt by request 0's second settlement. */
  method ReplayAndSettleTwice() returns (r: Ledger)
    ensures Conserved(r) && r.totalSupply == 1000100
    ensures Balance(r, Holder) == 100 && Balance(r, Contract) == 0
    ensures Lookup(r.requestInfo, 1) == Some(RequestInfo(Holder, 200, 0, 1, "r", 7))
  {
    var s0 := Deploy();
    var s1 := MintToHolder(s0);
    var firstRequest, secondRequest := ReplayFirstRequest(s1);
    var firstSettle, secondSettle := SettleFirstTwice(secondRequest.value);
    r := secondSettle.value;
  }

  /** An account named both admin and minter at `init` ends up Admin only (the admin list is applied
      last), and `mint` accepts Minter only, so that account cannot mint. */
  method AdminAndMinterTogether() returns (r: Result<Ledger, Error>)
    ensures r == Failure(InsufficientRights)
  {
    var installed := Installed(Contract, 1000000, 1, 0, Treasury);
    var deployed := Init(installed, 1, Contract, 1000000, Some([Admin1]), Some([Admin1]), [7]);
    r := Mint(deployed.value, DirectCall(1), Account(2), 500, 0, "x");
  }

  /** Minting to the fee receiver with a nonzero fee creates supply that no balance holds. */
  method MintToFeeReceiver() returns (before: Ledger, after: Result<Ledger, Error>)
    ensures Conserved(before)
    ensures after.Success? && !Conserved(after.value)
  {
    var installed := Installed(Contract, 1000000, 1, 10, Treasury);
    var deployed := Init(installed, 1, Contract, 1000000, Some([Admin1]), Some([Minter3]), [7]);
    before := deployed.value;
    InitConserves(before, 1, 1000000);
    assert SecCheck(before, DirectCall(3), [Minter]).Pass?;
    after := Mint(before, DirectCall(3), Treasury, 500, 10, "x");
    MintedConserves(before, after.value, Treasury, Treasury, 10, 500);
  }
}
