/** Access control and storage helpers: the one-byte badge encoding, who the immediate caller is,
    the badge guard, bulk badge changes, and the defaulting readers and the writers of the named keys
    and dictionaries. */
module Utils {
  import opened Wrappers
  import opened Uint
  import opened Types
  import opened State

  // ---------------------------------------------------------------------------------------------
  // SecurityBadge as one byte

  datatype BytesreprError = LeftOverBytes

  /** The discriminant of each badge. */
  function BadgeTag(b: SecurityBadge): u8 {
    match b
    case Admin => 0
    case Minter => 1
    case None => 2
  }

  function ToBytes(b: SecurityBadge): (r: seq<u8>)
    ensures |r| == SerializedLength(b)
    ensures r[0] == BadgeTag(b)
  {
    [BadgeTag(b)]
  }

  function SerializedLength(b: SecurityBadge): nat {
    1
  }

  /** Decodes the first byte; trailing bytes are ignored and the remainder returned is always empty.
      The source indexes the first byte without a length check, so it needs a non-empty input. */
  function FromBytes(bytes: seq<u8>): (r: Result<(SecurityBadge, seq<u8>), BytesreprError>)
    requires |bytes| > 0
    ensures r.Success? <==> bytes[0] <= 2
    ensures r.Success? ==> r.value.1 == [] && BadgeTag(r.value.0) == bytes[0]
    ensures r.Failure? ==> r.error == LeftOverBytes
  {
    match bytes[0]
    case 0 => Success((Admin, []))
    case 1 => Success((Minter, []))
    case 2 => Success((SecurityBadge.None, []))
    case _ => Failure(LeftOverBytes)
  }

  /** Every badge decodes back from its encoding, with nothing left over. */
  lemma BadgeRoundTrip(b: SecurityBadge)
    ensures FromBytes(ToBytes(b)) == Success((b, []))
  {
  }

  /** Decoding ignores everything after the first byte. */
  lemma FromBytesIgnoresTail(bytes: seq<u8>, tail: seq<u8>)
    requires |bytes| > 0
    ensures FromBytes(bytes + tail) == FromBytes(bytes[..1])
  {
  }

  // ---------------------------------------------------------------------------------------------
  // The immediate caller

  /** Session frames act for their account; a stored contract is addressed by its package hash. */
  function CallStackElementToAddress(e: CallStackElement): (k: Key)
    ensures k.Account? <==> !e.StoredContract?
    ensures k.Account? ==> k.accountHash == e.accountHash
    ensures k.Hash? ==> k.packageHash == e.contractPackageHash
  {
    match e
    case Session(account) => Account(account)
    case StoredSession(account, _, _) => Account(account)
    case StoredContract(package, _) => Hash(package)
  }

  /** `iter().rev()`: the frames from the innermost outwards. */
  function Reverse<T>(s: seq<T>): (r: seq<T>)
    ensures |r| == |s|
    ensures forall i :: 0 <= i < |s| ==> r[i] == s[|s| - 1 - i]
  {
    if s == [] then [] else [s[|s| - 1]] + Reverse(s[..|s| - 1])
  }

  /** `Iterator::nth`: the element at `n`, if there are that many. */
  function Nth<T>(s: seq<T>, n: nat): Option<T> {
    if n < |s| then Some(s[n]) else Option.None
  }

  /** The second frame from the top of the call stack: the direct invoker of this contract. */
  function GetImmediateCallerAddress(stack: seq<CallStackElement>): (r: Result<Key, Error>)
    ensures r.Failure? <==> |stack| < 2
    ensures r.Failure? ==> r.error == InvalidContext
    ensures r.Success? ==> r.value == CallStackElementToAddress(stack[|stack| - 2])
  {
    Nth(Reverse(stack), 1).ToResult(InvalidContext).MapValue(CallStackElementToAddress)
  }

  // ---------------------------------------------------------------------------------------------
  // Badges

  /** `make_dictionary_item_key_for_account`: the badge dictionary's item key is the hex of the key's account
      hash, so only an account key has one and a contract key aborts the call. The hex encoding is
      injective, so the model keys the badge dictionary by the account key itself. */
  function AccountItemKey(k: Key): (r: Result<Key, Error>)
    ensures r.Success? <==> k.Account?
    ensures r.Success? ==> r.value == k
    ensures r.Failure? ==> r.error == ApiErrorNone
  {
    match k
    case Account(_) => Success(k)
    case Hash(_) => Failure(ApiErrorNone)
  }

  /** `sec_check`: passes iff the immediate caller is an account with a stored badge that is one of
      `allowed`. A contract caller has no badge item key, so it aborts before the rights check. Reads only. */
  function SecCheck(s: Ledger, stack: seq<CallStackElement>, allowed: seq<SecurityBadge>): (r: Outcome<Error>)
    ensures r.Pass? <==> (GetImmediateCallerAddress(stack).Success?
                          && GetImmediateCallerAddress(stack).value.Account?
                          && GetImmediateCallerAddress(stack).value in s.badges
                          && s.badges[GetImmediateCallerAddress(stack).value] in allowed)
    ensures r.Fail? ==> r.error == (if |stack| < 2 then InvalidContext
                                    else if stack[|stack| - 2].StoredContract? then ApiErrorNone
                                    else InsufficientRights)
  {
    match GetImmediateCallerAddress(stack)
    case Failure(e) => Fail(e)
    case Success(caller) =>
      match AccountItemKey(caller)
      case Failure(e) => Fail(e)
      case Success(item) =>
        match Lookup(s.badges, item)
        case None => Fail(InsufficientRights)
        case Some(badge) => if badge in allowed then Pass else Fail(InsufficientRights)
  }

  /** `change_sec_badge`: stores every badge of `badgeMap` under its account. Iterating a map visits
      each key once, so the order of the writes does not matter; a contract key in the map aborts the
      call, and the host then discards the writes already made. */
  method ChangeSecBadge(s: Ledger, badgeMap: map<Key, SecurityBadge>) returns (r: Result<Ledger, Error>)
    ensures r.Failure? <==> exists k :: k in badgeMap && k.Hash?
    ensures r.Failure? ==> r.error == ApiErrorNone
    ensures r.Success? ==> r.value.(badges := s.badges) == s
    ensures r.Success? ==>
              forall k :: Lookup(r.value.badges, k) == if k in badgeMap then Some(badgeMap[k]) else Lookup(s.badges, k)
  {
    var badges := s.badges;
    var pending := badgeMap.Keys;
    while pending != {}
      invariant pending <= badgeMap.Keys
      invariant forall k :: k in badgeMap && k !in pending ==> k.Account?
      invariant forall k :: Lookup(badges, k) ==
                  if k in badgeMap && k !in pending then Some(badgeMap[k]) else Lookup(s.badges, k)
      decreases pending
    {
      var user :| user in pending;
      var item :- AccountItemKey(user);
      badges := badges[item := badgeMap[user]];
      pending := pending - {user};
    }
    r := Success(s.(badges := badges));
  }

  /** A loop of `dictionary_put`s of `badge` under each account of `keys`, in order, as `init` makes
      them; a contract key in the list aborts the call. */
  method PutBadges(badges: map<Key, SecurityBadge>, keys: seq<Key>, badge: SecurityBadge)
    returns (r: Result<map<Key, SecurityBadge>, Error>)
    ensures r.Failure? <==> exists k :: k in keys && k.Hash?
    ensures r.Failure? ==> r.error == ApiErrorNone
    ensures r.Success? ==> forall k :: Lookup(r.value, k) == if k in keys then Some(badge) else Lookup(badges, k)
  {
    var acc := badges;
    for i := 0 to |keys|
      invariant forall j :: 0 <= j < i ==> keys[j].Account?
      invariant forall k :: Lookup(acc, k) == if k in keys[..i] then Some(badge) else Lookup(badges, k)
    {
      var item :- AccountItemKey(keys[i]);
      acc := WriteDictionaryValue(acc, item, badge);
      assert keys[..i + 1] == keys[..i] + [keys[i]];
    }
    assert keys[..|keys|] == keys;
    r := Success(acc);
  }

  // ---------------------------------------------------------------------------------------------
  // Dictionaries and named keys

  /** `write_dictionary_value_from_key`: creates or overwrites the entry under `k` and nothing else. */
  function WriteDictionaryValue<K(!new), V>(d: map<K, V>, k: K, v: V): (r: map<K, V>)
    ensures Lookup(r, k) == Some(v)
    ensures forall j :: j != k ==> Lookup(r, j) == Lookup(d, j)
  {
    d[k := v]
  }

  /** Writing the same value twice leaves what one write leaves. */
  lemma WriteDictionaryValueIdempotent<K(!new), V>(d: map<K, V>, k: K, v: V)
    ensures WriteDictionaryValue(WriteDictionaryValue(d, k, v), k, v) == WriteDictionaryValue(d, k, v)
  {
  }

  /** A loop of `dictionary_put`s writing `v` under every key of `keys`, in order. */
  method PutAll<K(!new), V>(d: map<K, V>, keys: seq<K>, v: V) returns (r: map<K, V>)
    ensures forall k :: Lookup(r, k) == if k in keys then Some(v) else Lookup(d, k)
  {
    r := d;
    for i := 0 to |keys|
      invariant forall k :: Lookup(r, k) == if k in keys[..i] then Some(v) else Lookup(d, k)
    {
      r := WriteDictionaryValue(r, keys[i], v);
      assert keys[..i + 1] == keys[..i] + [keys[i]];
    }
    assert keys[..|keys|] == keys;
  }

  /** `save_mintids`: records the mint-id, storing the id itself as the value. */
  function SaveMintIds(s: Ledger, mintId: string): (r: Ledger)
    ensures ReadMintIds(r, mintId) == mintId && mintId in r.mintIds
    ensures forall other :: other != mintId ==> Lookup(r.mintIds, other) == Lookup(s.mintIds, other)
    ensures r.(mintIds := s.mintIds) == s
  {
    s.(mintIds := WriteDictionaryValue(s.mintIds, mintId, mintId))
  }

  /** `read_mintids`: the stored string, or the empty string for an unrecorded id. */
  function ReadMintIds(s: Ledger, mintId: string): (r: string)
    ensures mintId !in s.mintIds ==> r == ""
  {
    Lookup(s.mintIds, mintId).GetOr("")
  }

  /** `save_request_map`: maps a request id to its index. */
  function SaveRequestMap(s: Ledger, id: string, index: u256): (r: Ledger)
    ensures ReadRequestMap(r, id) == index
    ensures forall other :: other != id ==> Lookup(r.requestMap, other) == Lookup(s.requestMap, other)
    ensures r.(requestMap := s.requestMap) == s
  {
    s.(requestMap := WriteDictionaryValue(s.requestMap, id, index))
  }

  /** `read_request_map`: the index stored for a request id, zero when none is. */
  function ReadRequestMap(s: Ledger, id: string): (r: u256)
    ensures id !in s.requestMap ==> r == 0
  {
    Lookup(s.requestMap, id).GetOr(0)
  }

  /** `save_swap_fee` through `set_key`: creates or overwrites the named key. */
  function SaveSwapFee(s: Ledger, fee: u256): (r: Ledger)
    ensures ReadSwapFee(r) == fee && r.swapFee.Some?
    ensures r.(swapFee := s.swapFee) == s
  {
    s.(swapFee := Some(fee))
  }

  /** `read_swap_fee` through `get_key`: zero while the named key does not exist. */
  function ReadSwapFee(s: Ledger): (r: u256)
    ensures s.swapFee.None? ==> r == 0
  {
    s.swapFee.GetOr(0)
  }

  /** `save_fee_receiver` through `set_key`. */
  function SaveFeeReceiver(s: Ledger, receiver: Key): (r: Ledger)
    ensures ReadFeeReceiver(r) == Success(receiver)
    ensures r.(feeReceiver := s.feeReceiver) == s
  {
    s.(feeReceiver := Some(receiver))
  }

  /** `read_fee_receiver`: aborts when the named key does not exist. */
  function ReadFeeReceiver(s: Ledger): (r: Result<Key, Error>)
    ensures r.Failure? <==> s.feeReceiver.None?
    ensures r.Failure? ==> r.error == ApiErrorNone
  {
    s.feeReceiver.ToResult(ApiErrorNone)
  }

  /** `save_request_id` through `set_key`. */
  function SaveRequestId(s: Ledger, next: u256): (r: Ledger)
    ensures ReadRequestId(r) == next && r.requestId.Some?
    ensures r.(requestId := s.requestId) == s
  {
    s.(requestId := Some(next))
  }

  /** `read_request_id` through `get_key`: zero while the named key does not exist. */
  function ReadRequestId(s: Ledger): (r: u256)
    ensures s.requestId.None? ==> r == 0
  {
    s.requestId.GetOr(0)
  }

  /** `set_key` overwrites: saving a named key twice with the same value is the same as saving it once,
      and a later save replaces an earlier one. */
  lemma SetKeyOverwrites(s: Ledger, a: u256, b: u256, receiver: Key)
    ensures SaveSwapFee(SaveSwapFee(s, a), b) == SaveSwapFee(s, b)
    ensures SaveRequestId(SaveRequestId(s, a), b) == SaveRequestId(s, b)
    ensures SaveFeeReceiver(SaveFeeReceiver(s, receiver), receiver) == SaveFeeReceiver(s, receiver)
  {
  }
}
