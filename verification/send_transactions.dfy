/** The `SendTransactions` component (src/components/SendTransactions/index.tsx):
    it listens for "transactions" events, fetches the account, numbers the batch
    from the account's nonce and hands it to the web wallet or to the Ledger
    signing modal. */
module SendTransactionsComponent {
  import opened Common

  /** A transaction of the batch; `setNonce` changes only `nonce`. */
  datatype Transaction = Transaction(nonce: nat, receiver: string, value: string, data: string,
                                     gasPrice: nat, gasLimit: nat)

  /** The `cancelled` value of the send status; the other statuses are set elsewhere. */
  datatype TxStatus = Cancelled

  /** The object handed to `updateSendStatus`. */
  datatype SendStatus = SendStatus(loading: bool, status: Option<TxStatus>)

  const Loading := SendStatus(true, None)
  const CancelledStatus := SendStatus(false, Some(Cancelled))

  /** The message shown when there is no provider (its wording, typo included, is the source's). */
  const NoSignerMessage: string :=
    "You need a singer/valid signer to send a transaction, use either WalletProvider, LedgerProvider or WalletConnect"

  /** The arguments of one `walletSign` call. */
  datatype WalletSignCall = WalletSignCall(transactions: seq<Transaction>, callbackRoute: string, walletAddress: string)

  /** The `detail` of a "transactions" event: each key is `None` when absent. */
  datatype EventDetail = EventDetail(transactions: Option<array<Transaction>>, callbackRoute: Option<string>)

  /** The props handed to the signing modal. */
  datatype SendProps = SendProps(error: string, show: bool, transactions: seq<Transaction>,
                                 providerType: ProviderType, callbackRoute: string)

  /** The batch numbered from `base`: transaction `i` gets nonce `base + i`. */
  function WithNonces(txs: seq<Transaction>, base: nat): (r: seq<Transaction>)
    ensures |r| == |txs|
    ensures forall i :: 0 <= i < |r| ==> r[i] == txs[i].(nonce := base + i)
    decreases |txs|
  {
    if txs == [] then [] else [txs[0].(nonce := base)] + WithNonces(txs[1..], base + 1)
  }

  /** The nonces of a numbered batch, as values, strictly increase in batch
      order, so no two positions of the numbered sequence carry the same nonce. */
  lemma NoncesIncrease(txs: seq<Transaction>, base: nat, i: nat, j: nat)
    requires i < j < |txs|
    ensures WithNonces(txs, base)[i].nonce < WithNonces(txs, base)[j].nonce
  {
  }

  /** The `forEach` of `signTransactions`: number the batch in place from `base`. */
  method AssignNonces(txs: array<Transaction>, base: nat)
    modifies txs
    ensures txs[..] == WithNonces(old(txs[..]), base)
  {
    var i := 0;
    while i < txs.Length
      invariant 0 <= i <= txs.Length
      invariant forall k :: 0 <= k < i ==> txs[k] == old(txs[k]).(nonce := base + k)
      invariant forall k :: i <= k < txs.Length ==> txs[k] == old(txs[k])
    {
      txs[i] := txs[i].(nonce := base + i);
      i := i + 1;
    }
  }

  /** An event starts signing only when it has a detail carrying both keys. */
  predicate Accepts(detail: Option<EventDetail>) {
    detail.Some? && detail.value.transactions.Some? && detail.value.callbackRoute.Some?
  }

  class SendTransactions {
    // What the component reads from the context.
    const hasProvider: bool
    const providerType: ProviderType
    const address: string
    const walletAddress: string
    // Its React state.
    var showSignModal: bool
    var newTransactions: array?<Transaction>
    var newCallbackRoute: string
    var error: string
    // Every `updateSendStatus` call, `getAccount` request and `walletSign` call so far.
    var statusUpdates: seq<SendStatus>
    var accountRequests: seq<string>
    var walletSignCalls: seq<WalletSignCall>

    /** The pending batch; empty when none is pending (`newTransactions || []`). */
    function PendingTransactions(): (txs: seq<Transaction>)
      reads this, if newTransactions == null then {} else {newTransactions}
    {
      if newTransactions == null then [] else newTransactions[..]
    }

    /** `sendProps`. */
    function Props(): (p: SendProps)
      reads this, if newTransactions == null then {} else {newTransactions}
    {
      SendProps(error, showSignModal, PendingTransactions(), providerType, newCallbackRoute)
    }

    constructor (hasProvider: bool, providerType: ProviderType, address: string, walletAddress: string)
      ensures this.hasProvider == hasProvider && this.providerType == providerType
      ensures this.address == address && this.walletAddress == walletAddress
      ensures !showSignModal && newTransactions == null && newCallbackRoute == "" && error == ""
      ensures statusUpdates == [] && accountRequests == [] && walletSignCalls == []
    {
      this.hasProvider, this.providerType := hasProvider, providerType;
      this.address, this.walletAddress := address, walletAddress;
      showSignModal, newTransactions, newCallbackRoute, error := false, null, "", "";
      statusUpdates, accountRequests, walletSignCalls := [], [], [];
    }

    /** `handleClose`: drop the pending batch, route and error, hide the modal
        and mark the send cancelled. */
    method HandleClose()
      modifies this
      ensures newTransactions == null && newCallbackRoute == "" && error == "" && !showSignModal
      ensures Props().transactions == [] && !Props().show
      ensures statusUpdates == old(statusUpdates) + [CancelledStatus]
      ensures accountRequests == old(accountRequests) && walletSignCalls == old(walletSignCalls)
    {
      newTransactions := null;
      newCallbackRoute := "";
      error := "";
      showSignModal := false;
      statusUpdates := statusUpdates + [CancelledStatus];
    }

    /** What `signTransactions(txs, callbackRoute)` leaves behind, given how
        `getAccount` settles (`fetched`: the account nonce, or the error). */
    twostate predicate Signed(txs: array<Transaction>, callbackRoute: string, fetched: Outcome<nat>)
      reads this, txs
    {
      newCallbackRoute == callbackRoute &&
      // the route is recorded and loading set before any branch
      |statusUpdates| > |old(statusUpdates)| &&
      statusUpdates[..|old(statusUpdates)| + 1] == old(statusUpdates) + [Loading] &&
      (!hasProvider ==>
        showSignModal && error == NoSignerMessage &&
        statusUpdates == old(statusUpdates) + [Loading] &&
        accountRequests == old(accountRequests) && walletSignCalls == old(walletSignCalls) &&
        newTransactions == old(newTransactions) && txs[..] == old(txs[..])) &&
      (hasProvider ==> accountRequests == old(accountRequests) + [address]) &&
      (hasProvider && fetched.Failure? ==>
        showSignModal && error == fetched.error &&
        statusUpdates == old(statusUpdates) + [Loading, CancelledStatus] &&
        walletSignCalls == old(walletSignCalls) &&
        newTransactions == old(newTransactions) && txs[..] == old(txs[..])) &&
      (hasProvider && fetched.Success? ==>
        txs[..] == WithNonces(old(txs[..]), fetched.value) &&
        error == old(error) &&
        statusUpdates == old(statusUpdates) + [Loading] &&
        (providerType == Wallet ==>
          walletSignCalls == old(walletSignCalls) + [WalletSignCall(txs[..], callbackRoute, walletAddress)] &&
          newTransactions == old(newTransactions) && showSignModal == old(showSignModal)) &&
        (providerType == Ledger ==>
          newTransactions == txs && showSignModal &&
          walletSignCalls == old(walletSignCalls)) &&
        (providerType.OtherProvider? ==>
          newTransactions == old(newTransactions) && showSignModal == old(showSignModal) &&
          walletSignCalls == old(walletSignCalls)))
    }

    /** `signTransactions`. */
    method SignTransactions(txs: array<Transaction>, callbackRoute: string, fetched: Outcome<nat>)
      modifies this, txs
      ensures Signed(txs, callbackRoute, fetched)
      ensures hasProvider && fetched.Success? && providerType == Ledger ==>
        Props().show && Props().transactions == WithNonces(old(txs[..]), fetched.value) &&
        Props().callbackRoute == callbackRoute
    {
      newCallbackRoute := callbackRoute;
      statusUpdates := statusUpdates + [Loading];
      if hasProvider {
        accountRequests := accountRequests + [address];
        match fetched {
          case Success(base) =>
            AssignNonces(txs, base);
            match providerType {
              case Wallet =>
                walletSignCalls := walletSignCalls + [WalletSignCall(txs[..], callbackRoute, walletAddress)];
              case Ledger =>
                newTransactions := txs;
                showSignModal := true;
              case OtherProvider =>
            }
          case Failure(e) =>
            statusUpdates := statusUpdates + [CancelledStatus];
            showSignModal := true;
            error := e;
        }
      } else {
        showSignModal := true;
        error := NoSignerMessage;
      }
    }

    /** `send`, the "transactions" event listener. */
    method Send(detail: Option<EventDetail>, fetched: Outcome<nat>)
      modifies this, if Accepts(detail) then {detail.value.transactions.value} else {}
      ensures !Accepts(detail) ==> unchanged(this)
      ensures Accepts(detail) ==>
        Signed(detail.value.transactions.value, detail.value.callbackRoute.value, fetched)
    {
      if Accepts(detail) {
        SignTransactions(detail.value.transactions.value, detail.value.callbackRoute.value, fetched);
      }
    }
  }
}
