/** The account helpers of the dApp (src/helpers/accountMethods.tsx): the nonce
    watermark merge, the choice of the active address, and the three hooks that
    write the shared store (refresh, nonce write, shard cache). */
module AccountMethods {
  import opened Common
  import opened JsNumbers

  /** The account record published in the shared store. `userName` is absent
      when the network reports an empty one. */
  datatype Account = Account(address: string, balance: string, nonce: nat, userName: Option<string>)

  /** What the network proxy's `getAccount` returns. */
  datatype AccountOnNetwork = AccountOnNetwork(balance: string, nonce: nat, userName: string)

  /** The local-storage entry under key "nonce": the number and its expiry (unix seconds). */
  datatype StoredNonce = StoredNonce(data: nat, expires: int)

  /** `moment().add(1, "hours")` measured in the seconds `unix()` returns. */
  const WatermarkLifetime: int := 3600

  function Max(a: int, b: int): (m: int) {
    if a >= b then a else b
  }

  // ---------------------------------------------------------------------------
  // getLatestNonce
  // ---------------------------------------------------------------------------

  /** `getLatestNonce`: the remote nonce merged with the stored watermark.
      `stored` is what `storage.local.getItem("nonce")` gave, as text; `None`
      when there is no (unexpired) entry. An empty string is falsy in the
      source's `lsNonce && ...` test. */
  function LatestNonce(stored: Option<string>, remote: nat): (r: nat)
    ensures r >= remote
    ensures r == remote || (stored.Some? && ParseInt(stored.value) == Some(r))
    ensures stored.Some? && ParseInt(stored.value).Some? ==> r >= ParseInt(stored.value).value
  {
    if stored.Some? && stored.value != "" && ParseInt(stored.value).Some? then
      var watermark := ParseInt(stored.value).value;
      if watermark > remote then watermark else remote
    else
      remote
  }

  /** A watermark that cannot be parsed is ignored: the remote nonce is used unchanged. */
  lemma UnparsableWatermarkIgnored(stored: Option<string>, remote: nat)
    requires stored.None? || ParseInt(stored.value).None?
    ensures LatestNonce(stored, remote) == remote
  {
    if stored.Some? {
      assert ParseInt(stored.value).None?;
    }
  }

  /** The watermark written by `SetNonce(n)` reads back as `n`, so the merge
      gives `max(n, remote)`. */
  lemma WatermarkReadBack(n: nat, remote: nat)
    ensures LatestNonce(Some(DecimalText(n)), remote) == Max(n, remote)
  {
    ParseDecimalText(n);
  }

  // ---------------------------------------------------------------------------
  // useGetAddress
  // ---------------------------------------------------------------------------

  /** What the address lookup does: settle with a known address, or call the
      provider's `getAddress()`. */
  datatype AddressLookup = Resolved(address: string) | AskProvider

  /** Everything the address choice reads: the provider type, the login state
      in the store, the session-storage `walletLogin` marker and the `address`
      query parameter with the verdict of `addressIsValid` on it. */
  datatype AddressContext = AddressContext(
    providerType: ProviderType,
    loginMethod: string,
    loggedIn: bool,
    address: string,
    walletLogin: bool,
    urlAddress: string,
    urlAddressValid: bool)

  /** In order, the values the `wallet` branch hands to `resolve`. */
  function WalletResolveCalls(c: AddressContext): (calls: seq<string>) {
    (if c.walletLogin && c.urlAddressValid then [c.urlAddress] else [])
    + (if c.loggedIn then [c.address] else [])
    + [""]
  }

  /** A Promise settles with the first value handed to `resolve`; later calls have no effect. */
  function FirstResolve(calls: seq<string>): (r: AddressLookup)
    requires calls != []
  {
    Resolved(calls[0])
  }

  /** The `switch (true)` of `useGetAddress`. */
  function LookupAddress(c: AddressContext): (r: AddressLookup)
    ensures c.providerType == Wallet ==>
      r == Resolved(if c.walletLogin && c.urlAddressValid then c.urlAddress
                    else if c.loggedIn then c.address
                    else "")
    ensures c.providerType != Wallet && (c.loginMethod == "extension" || c.providerType == Ledger) ==>
      r == (if c.loggedIn then Resolved(c.address) else AskProvider)
    ensures c.providerType != Wallet && c.loginMethod != "extension" && c.providerType != Ledger ==>
      r == AskProvider
  {
    if c.providerType == Wallet then
      FirstResolve(WalletResolveCalls(c))
    else if c.loginMethod == "extension" || c.providerType == Ledger then
      if c.loggedIn then FirstResolve(if c.loggedIn then [c.address] else []) else AskProvider
    else
      AskProvider
  }

  /** The address the returned Promise settles with; `provider` is how the
      provider's `getAddress()` settles, used only when it is asked. */
  function ResolveAddress(c: AddressContext, provider: Outcome<string>): (r: Outcome<string>)
    ensures c.providerType == Wallet ==> r.Success?
    ensures r.Failure? ==> r == provider
  {
    match LookupAddress(c)
    case Resolved(a) => Success(a)
    case AskProvider => provider
  }

  /** An invalid address in the URL is skipped, never an error: resolution
      falls through to the known address, then to "". */
  lemma InvalidUrlAddressFallsThrough(c: AddressContext, provider: Outcome<string>)
    requires c.providerType == Wallet && !c.urlAddressValid
    ensures ResolveAddress(c, provider) == Success(if c.loggedIn then c.address else "")
  {
  }

  /** Where the address is known without a round trip, how the provider would
      answer makes no difference. */
  lemma KnownAddressSkipsProvider(c: AddressContext, p1: Outcome<string>, p2: Outcome<string>)
    requires c.providerType == Wallet || (c.loggedIn && (c.loginMethod == "extension" || c.providerType == Ledger))
    ensures ResolveAddress(c, p1) == ResolveAddress(c, p2)
    ensures c.providerType != Wallet ==> ResolveAddress(c, p1) == Success(c.address)
  {
  }

  // ---------------------------------------------------------------------------
  // The shared store and its actions
  // ---------------------------------------------------------------------------

  /** The actions these helpers dispatch. */
  datatype Action =
    | SetAccountLoading(accountLoading: bool)
    | SetAccount(account: Account)
    | SetAccountError(accountError: Option<string>)
    | SetAccountShard(shard: Option<int>)

  /** The part of the shared store these helpers write. */
  datatype StoreState = StoreState(account: Account, accountLoading: bool, accountError: Option<string>, shard: Option<int>)

  /** Each action replaces the one field it names. */
  function Reduce(s: StoreState, a: Action): (t: StoreState) {
    match a
    case SetAccountLoading(l) => s.(accountLoading := l)
    case SetAccount(acc) => s.(account := acc)
    case SetAccountError(e) => s.(accountError := e)
    case SetAccountShard(sh) => s.(shard := sh)
  }

  /** The store after the actions, applied in order. */
  function ReduceAll(s: StoreState, acts: seq<Action>): (t: StoreState)
    decreases |acts|
  {
    if acts == [] then s else ReduceAll(Reduce(s, acts[0]), acts[1..])
  }

  lemma {:induction false} ReduceAllAppend(s: StoreState, acts: seq<Action>, a: Action)
    ensures ReduceAll(s, acts + [a]) == Reduce(ReduceAll(s, acts), a)
    decreases |acts|
  {
    if acts != [] {
      assert (acts + [a])[1..] == acts[1..] + [a];
      ReduceAllAppend(Reduce(s, acts[0]), acts[1..], a);
    }
  }

  // ---------------------------------------------------------------------------
  // useRefreshAccount, as actions
  // ---------------------------------------------------------------------------

  /** How the provider answers: `isInitialized()`, how `init()` settles, and
      how `getAddress()` settles. */
  datatype ProviderState = ProviderState(initialized: bool, init: Outcome<bool>, address: Outcome<string>)

  /** The refresh starts when the provider is initialised, or `init()` resolves true. */
  predicate ProviderReady(p: ProviderState) {
    p.initialized || p.init == Success(true)
  }

  /** The account record a successful refresh publishes. */
  function PublishedAccount(address: string, acc: AccountOnNetwork, storedNonce: Option<string>): (r: Account)
    ensures r.address == address && r.balance == acc.balance
    ensures r.nonce == LatestNonce(storedNonce, acc.nonce) && r.nonce >= acc.nonce
    ensures r.userName.None? <==> acc.userName == ""
    ensures r.userName.Some? ==> r.userName.value == acc.userName
  {
    Account(address, acc.balance, LatestNonce(storedNonce, acc.nonce),
            if acc.userName != "" then Some(acc.userName) else None)
  }

  /** The dispatches of the inner `setAccount`, in order. `fetched` is how
      `getAccount` settles for the resolved address. */
  function LoadActions(c: AddressContext, providerAddress: Outcome<string>, fetched: Outcome<AccountOnNetwork>,
                       storedNonce: Option<string>): (acts: seq<Action>)
    ensures |acts| >= 3 && acts[0] == SetAccountLoading(true)
    ensures SetAccountLoading(false) in acts[1..]
  {
    match ResolveAddress(c, providerAddress)
    case Failure(e) =>
      [SetAccountLoading(true), SetAccountLoading(false), SetAccountError(Some(e))]
    case Success(a) =>
      match fetched
      case Failure(e) =>
        [SetAccountLoading(true), SetAccountLoading(false), SetAccountError(Some(e))]
      case Success(acc) =>
        [SetAccountLoading(true), SetAccount(PublishedAccount(a, acc, storedNonce)),
         SetAccountLoading(false), SetAccountError(None)]
  }

  /** The dispatches of one refresh: none unless the provider is ready. */
  function RefreshActions(c: AddressContext, p: ProviderState, fetched: Outcome<AccountOnNetwork>,
                          storedNonce: Option<string>): (acts: seq<Action>)
    ensures !ProviderReady(p) ==> acts == []
    ensures ProviderReady(p) ==> |acts| >= 3 && acts[0] == SetAccountLoading(true)
    ensures ProviderReady(p) ==> SetAccountLoading(false) in acts[1..]
  {
    if ProviderReady(p) then LoadActions(c, p.address, fetched, storedNonce) else []
  }

  /** A refresh that gets an address and an account replaces the account,
      clears the error and ends with loading off; the shard is left alone. */
  lemma RefreshPublishes(s: StoreState, c: AddressContext, p: ProviderState,
                         acc: AccountOnNetwork, storedNonce: Option<string>)
    requires ProviderReady(p) && ResolveAddress(c, p.address).Success?
    ensures var t := ReduceAll(s, RefreshActions(c, p, Success(acc), storedNonce));
      t.account == PublishedAccount(ResolveAddress(c, p.address).value, acc, storedNonce) &&
      t.account.nonce >= acc.nonce &&
      t.accountError == None && !t.accountLoading && t.shard == s.shard
  {
    var pub := PublishedAccount(ResolveAddress(c, p.address).value, acc, storedNonce);
    var x0, x1, x2, x3 := SetAccountLoading(true), SetAccount(pub), SetAccountLoading(false), SetAccountError(None);
    ReduceAllAppend(s, [x0], x1);
    ReduceAllAppend(s, [x0, x1], x2);
    ReduceAllAppend(s, [x0, x1, x2], x3);
    assert [x0] + [x1] == [x0, x1];
    assert [x0, x1] + [x2] == [x0, x1, x2];
    assert [x0, x1, x2] + [x3] == RefreshActions(c, p, Success(acc), storedNonce);
  }

  /** A refresh whose address lookup or account fetch fails records that
      error, ends with loading off and leaves the previous account untouched. */
  lemma RefreshFailureKeepsAccount(s: StoreState, c: AddressContext, p: ProviderState,
                                   fetched: Outcome<AccountOnNetwork>, storedNonce: Option<string>)
    requires ProviderReady(p)
    requires ResolveAddress(c, p.address).Failure? || fetched.Failure?
    ensures var t := ReduceAll(s, RefreshActions(c, p, fetched, storedNonce));
      t.account == s.account && !t.accountLoading && t.shard == s.shard &&
      t.accountError == Some(if ResolveAddress(c, p.address).Failure?
                             then ResolveAddress(c, p.address).error else fetched.error)
  {
    var e := if ResolveAddress(c, p.address).Failure? then ResolveAddress(c, p.address).error else fetched.error;
    var x0, x1, x2 := SetAccountLoading(true), SetAccountLoading(false), SetAccountError(Some(e));
    ReduceAllAppend(s, [x0], x1);
    ReduceAllAppend(s, [x0, x1], x2);
    assert [x0] + [x1] == [x0, x1];
    assert [x0, x1] + [x2] == RefreshActions(c, p, fetched, storedNonce);
  }

  /** Refreshing twice with nothing changed in between publishes the same state
      as refreshing once. This rests on the reducer: every action overwrites
      the one field it names, so applying any list of actions twice equals
      applying it once; refresh adds nothing of its own to this. */
  lemma RefreshIdempotent(s: StoreState, c: AddressContext, p: ProviderState,
                          fetched: Outcome<AccountOnNetwork>, storedNonce: Option<string>)
    ensures var acts := RefreshActions(c, p, fetched, storedNonce);
      ReduceAll(ReduceAll(s, acts), acts) == ReduceAll(s, acts)
  {
    var acts := RefreshActions(c, p, fetched, storedNonce);
    var t := ReduceAll(s, acts);
    if ProviderReady(p) {
      if ResolveAddress(c, p.address).Failure? || fetched.Failure? {
        RefreshFailureKeepsAccount(s, c, p, fetched, storedNonce);
        RefreshFailureKeepsAccount(t, c, p, fetched, storedNonce);
      } else {
        RefreshPublishes(s, c, p, fetched.value, storedNonce);
        RefreshPublishes(t, c, p, fetched.value, storedNonce);
      }
    }
  }

  /** A refresh that reads back the watermark `n` written by `SetNonce`
      publishes `max(n, network nonce)`. */
  lemma RefreshMergesWrittenWatermark(s: StoreState, c: AddressContext, p: ProviderState,
                                      acc: AccountOnNetwork, n: nat)
    requires ProviderReady(p) && ResolveAddress(c, p.address).Success?
    ensures ReduceAll(s, RefreshActions(c, p, Success(acc), Some(DecimalText(n)))).account.nonce
            == Max(n, acc.nonce)
  {
    RefreshPublishes(s, c, p, acc, Some(DecimalText(n)));
    WatermarkReadBack(n, acc.nonce);
  }

  // ---------------------------------------------------------------------------
  // The store the hooks write
  // ---------------------------------------------------------------------------

  /** The provider type, the session-storage `walletLogin` marker and the URL
      query parameter `address`, with the verdict of `addressIsValid`. */
  datatype Surroundings = Surroundings(providerType: ProviderType, walletLogin: bool,
                                       urlAddress: string, urlAddressValid: bool)

  class AccountStore {
    // The fields of the shared store that the hooks write.
    var account: Account
    var accountLoading: bool
    var accountError: Option<string>
    var shard: Option<int>
    // The login state the hooks read; login and logout set it elsewhere.
    var address: string
    var loggedIn: bool
    var loginMethod: string
    // The local-storage entry under key "nonce".
    var nonceEntry: Option<StoredNonce>
    // Every `dispatch` call so far, in order.
    var dispatched: seq<Action>
    // The addresses `getAccount` was asked for, and those the API was asked the shard of.
    var accountRequests: seq<string>
    var shardRequests: seq<string>

    function State(): (s: StoreState)
      reads this
    {
      StoreState(account, accountLoading, accountError, shard)
    }

    function AddressInputs(env: Surroundings): (c: AddressContext)
      reads this
    {
      AddressContext(env.providerType, loginMethod, loggedIn, address,
                     env.walletLogin, env.urlAddress, env.urlAddressValid)
    }

    constructor (s: StoreState, address: string, loggedIn: bool, loginMethod: string,
                 nonceEntry: Option<StoredNonce>)
      ensures State() == s
      ensures this.address == address && this.loggedIn == loggedIn && this.loginMethod == loginMethod
      ensures this.nonceEntry == nonceEntry
      ensures dispatched == [] && accountRequests == [] && shardRequests == []
    {
      account, accountLoading, accountError, shard := s.account, s.accountLoading, s.accountError, s.shard;
      this.address, this.loggedIn, this.loginMethod := address, loggedIn, loginMethod;
      this.nonceEntry := nonceEntry;
      dispatched, accountRequests, shardRequests := [], [], [];
    }

    /** `dispatch(a)`: the store takes the action and the call is recorded. */
    method Dispatch(a: Action)
      modifies this`account, this`accountLoading, this`accountError, this`shard, this`dispatched
      ensures State() == Reduce(old(State()), a)
      ensures dispatched == old(dispatched) + [a]
    {
      match a {
        case SetAccountLoading(l) => accountLoading := l;
        case SetAccount(acc) => account := acc;
        case SetAccountError(e) => accountError := e;
        case SetAccountShard(sh) => shard := sh;
      }
      dispatched := dispatched + [a];
    }

    /** The function `useRefreshAccount` returns: start the inner `setAccount`
        once the provider is initialised, or once `init()` resolves true. */
    method Refresh(env: Surroundings, p: ProviderState, fetched: Outcome<AccountOnNetwork>,
                   storedNonce: Option<string>)
      modifies this`account, this`accountLoading, this`accountError, this`shard, this`dispatched,
               this`accountRequests
      ensures dispatched == old(dispatched) + RefreshActions(old(AddressInputs(env)), p, fetched, storedNonce)
      ensures State() == ReduceAll(old(State()), RefreshActions(old(AddressInputs(env)), p, fetched, storedNonce))
      ensures accountRequests == old(accountRequests) +
        (if ProviderReady(p) && ResolveAddress(old(AddressInputs(env)), p.address).Success?
         then [ResolveAddress(old(AddressInputs(env)), p.address).value] else [])
    {
      if !p.initialized {
        match p.init {
          case Failure(_) =>
            return;
          case Success(initialised) =>
            if !initialised {
              return;
            }
        }
      }
      LoadAccount(env, p.address, fetched, storedNonce);
    }

    /** The inner `setAccount` of `useRefreshAccount`: loading on, resolve the
        address, fetch the account, then publish it or the error. */
    method LoadAccount(env: Surroundings, providerAddress: Outcome<string>, fetched: Outcome<AccountOnNetwork>,
                       storedNonce: Option<string>)
      modifies this`account, this`accountLoading, this`accountError, this`shard, this`dispatched,
               this`accountRequests
      ensures dispatched == old(dispatched) + LoadActions(old(AddressInputs(env)), providerAddress, fetched, storedNonce)
      ensures State() == ReduceAll(old(State()), LoadActions(old(AddressInputs(env)), providerAddress, fetched, storedNonce))
      ensures accountRequests == old(accountRequests) +
        (if ResolveAddress(old(AddressInputs(env)), providerAddress).Success?
         then [ResolveAddress(old(AddressInputs(env)), providerAddress).value] else [])
    {
      ghost var s0 := State();
      var c := AddressInputs(env);
      Dispatch(SetAccountLoading(true));
      ReduceAllAppend(s0, [], SetAccountLoading(true));
      var resolved := ResolveAddress(c, providerAddress);
      if resolved.Success? {
        accountRequests := accountRequests + [resolved.value];
      }
      if resolved.Success? && fetched.Success? {
        var published := PublishedAccount(resolved.value, fetched.value, storedNonce);
        Publish(s0, published);
      } else {
        var e := if resolved.Failure? then resolved.error else fetched.error;
        Fail(s0, e);
      }
    }

    /** The dispatches after a successful fetch. */
    method Publish(ghost s0: StoreState, published: Account)
      requires State() == ReduceAll(s0, [SetAccountLoading(true)])
      modifies this`account, this`accountLoading, this`accountError, this`shard, this`dispatched
      ensures dispatched == old(dispatched) + [SetAccount(published), SetAccountLoading(false), SetAccountError(None)]
      ensures State() == ReduceAll(s0, [SetAccountLoading(true), SetAccount(published),
                                        SetAccountLoading(false), SetAccountError(None)])
    {
      var x0, x1, x2, x3 := SetAccountLoading(true), SetAccount(published), SetAccountLoading(false), SetAccountError(None);
      Dispatch(x1);
      ReduceAllAppend(s0, [x0], x1);
      assert [x0] + [x1] == [x0, x1];
      Dispatch(x2);
      ReduceAllAppend(s0, [x0, x1], x2);
      assert [x0, x1] + [x2] == [x0, x1, x2];
      Dispatch(x3);
      ReduceAllAppend(s0, [x0, x1, x2], x3);
      assert [x0, x1, x2] + [x3] == [x0, x1, x2, x3];
    }

    /** The dispatches of a `catch`: loading off, then the error. */
    method Fail(ghost s0: StoreState, e: string)
      requires State() == ReduceAll(s0, [SetAccountLoading(true)])
      modifies this`account, this`accountLoading, this`accountError, this`shard, this`dispatched
      ensures dispatched == old(dispatched) + [SetAccountLoading(false), SetAccountError(Some(e))]
      ensures State() == ReduceAll(s0, [SetAccountLoading(true), SetAccountLoading(false), SetAccountError(Some(e))])
    {
      var x0, x1, x2 := SetAccountLoading(true), SetAccountLoading(false), SetAccountError(Some(e));
      Dispatch(x1);
      ReduceAllAppend(s0, [x0], x1);
      assert [x0] + [x1] == [x0, x1];
      Dispatch(x2);
      ReduceAllAppend(s0, [x0, x1], x2);
      assert [x0, x1] + [x2] == [x0, x1, x2];
    }

    /** The function `useSetNonce` returns: write the watermark with a one-hour
        expiry and set the account's address and nonce, keeping its other fields. */
    method SetNonce(nonce: nat, now: int)
      modifies this`account, this`accountLoading, this`accountError, this`shard, this`dispatched,
               this`nonceEntry
      ensures nonceEntry == Some(StoredNonce(nonce, now + WatermarkLifetime))
      ensures account.address == address && account.nonce == nonce
      ensures account.balance == old(account.balance) && account.userName == old(account.userName)
      ensures State() == old(State()).(account := account)
      ensures dispatched == old(dispatched) + [SetAccount(account)]
    {
      nonceEntry := Some(StoredNonce(nonce, now + WatermarkLifetime));
      Dispatch(SetAccount(account.(address := address, nonce := nonce)));
    }

    /** The function `useGetAccountShard` returns: a one-slot cache in front of
        the API. `fetched` is the shard the API response carries, or the failure. */
    method GetAccountShard(fetched: Outcome<Option<int>>) returns (r: Option<int>)
      modifies this`account, this`accountLoading, this`accountError, this`shard, this`dispatched,
               this`shardRequests
      ensures old(shard).Some? ==>
        r == old(shard) && State() == old(State()) &&
        dispatched == old(dispatched) && shardRequests == old(shardRequests)
      ensures old(shard).None? ==> shardRequests == old(shardRequests) + [address]
      ensures old(shard).None? && fetched.Failure? ==>
        r == None && State() == old(State()) && dispatched == old(dispatched)
      ensures old(shard).None? && fetched.Success? ==>
        r == fetched.value && State() == old(State()).(shard := r) &&
        dispatched == old(dispatched) + [SetAccountShard(r)]
    {
      if shard.None? {
        shardRequests := shardRequests + [address];
        match fetched
        case Success(sh) =>
          Dispatch(SetAccountShard(sh));
          r := sh;
        case Failure(_) =>
          r := None;
      } else {
        r := shard;
      }
    }
  }
}
