# Account nonces and transaction dispatch of an Elrond dApp, in Dafny

This project models two parts of a React dApp that signs blockchain
transactions through a web wallet or a Ledger device:

- **The account helpers** (`src/helpers/accountMethods.tsx`). `getLatestNonce`
  merges the network's account nonce with a nonce "watermark" kept in local
  storage. `useGetAddress` picks the active address by a priority decision.
  `useRefreshAccount` drives the shared store's `accountLoading`, `account` and
  `accountError` from the outcomes of provider init, address lookup and account
  fetch. `useSetNonce` writes the watermark and the account's address and nonce.
  `useGetAccountShard` is a one-slot cache in front of the API.
- **The `SendTransactions` component** (`src/components/SendTransactions/index.tsx`).
  It takes a "transactions" event and records the callback route. It sets the
  send status to loading and fetches the account. It numbers the batch in place
  from the account's nonce. It then hands the batch to `walletSign` (web wallet)
  or keeps it pending for the Ledger modal. `handleClose` resets all of this.

Files:

- `common.dfy`: `Option`, `Outcome` (how a Promise settles) and the provider type.
- `js_numbers.dfy`: JavaScript's `parseInt` and the decimal rendering of a
  non-negative number, with the round trip `parseInt(String(n)) == n`.
- `account_methods.dfy`: the nonce merge and the address choice as functions;
  the store as the class `AccountStore`, whose hooks are methods that issue
  `Dispatch` calls in the source's order; the reducer as `Reduce`/`ReduceAll`.
- `send_transactions.dfy`: the component as the class `SendTransactions`; the
  `forEach` that sets nonces is a loop over an `array<Transaction>`.

Everything the code calls but does not show is an input or a log. This covers
the network proxy, `fetch`, the provider's `init`/`getAddress`,
`getProviderType`, `addressIsValid`, the `storage` module, `moment`,
`walletSign` and `updateSendStatus`. How a call settles is a parameter
(`Outcome`). The provider type, the `walletLogin` marker and the URL `address`
parameter are inputs. The validity of that address is a boolean. The current
time is a number of unix seconds. Calls the code makes outward are recorded in
order: `dispatched`, `accountRequests`, `shardRequests`, `statusUpdates` and
`walletSignCalls`.

The model follows the code as written, including where one might expect
otherwise:

- `signTransactions` numbers the batch from the raw `account.nonce` the
  network returns (index.tsx:80). It does not use `getLatestNonce`, and it
  never writes the watermark. With a network nonce of 5 and a stored watermark
  of 9, a batch of two gets nonces 5 and 6, not 9 and 10.
- `handleClose` takes no argument and always sets the status to
  `{loading: false, status: "cancelled"}` (index.tsx:42-49).
- With no provider, the modal shows the fixed message and the loading status
  set at index.tsx:74 stays as it is. No cancelled status follows.
- A provider type other than `wallet` or `ledger` gets its batch numbered, and
  then nothing else happens.
- The account for numbering is fetched for the address held in the context,
  not for a freshly resolved one.

## Model

| member | source | states |
|---|---|---|
| `JsNumbers.ParseInt` | src/helpers/accountMethods.tsx:75-76 | `parseInt` with no radix yields a number only when the text holds a decimal digit; the lemmas below state how it reads |
| `JsNumbers.ParseSkipsWhiteSpace` | src/helpers/accountMethods.tsx:75-76 | a leading white-space character does not change what `parseInt` reads |
| `JsNumbers.ParseStopsAtNonDigit` | src/helpers/accountMethods.tsx:75-76 | the decimal text of `n` followed by a non-digit (one that does not turn a lone "0" into `0x`) reads as `n`: parsing stops at the first non-digit |
| `JsNumbers.ParseSignedText` | src/helpers/accountMethods.tsx:75-76 | one leading "-" negates the magnitude that follows and one leading "+" keeps it |
| `JsNumbers.ParseSigned` | src/helpers/accountMethods.tsx:75-76 | "-" before the decimal text of `n` reads as `-n`, "+" before it as `n` |
| `JsNumbers.ParseHex` | src/helpers/accountMethods.tsx:75-76 | "0x" followed by hexadecimal digits, up to the first non-digit, reads as their radix-16 value |
| `JsNumbers.DecimalText` | src/helpers/accountMethods.tsx:55-59 | the stored number's decimal text is non-empty, all digits, has no leading zero, and denotes exactly the number |
| `JsNumbers.ParseDecimalText` | src/helpers/accountMethods.tsx:55-76 | reading back a stored nonce's text with `parseInt` gives that nonce |
| `AccountMethods.LatestNonce` | src/helpers/accountMethods.tsx:72-79 | the merged nonce is never below the remote nonce, is at least the parsed watermark when there is one, and is one of the two |
| `AccountMethods.UnparsableWatermarkIgnored` | src/helpers/accountMethods.tsx:74-77 | with no watermark, or one `parseInt` rejects, the remote nonce is returned unchanged |
| `AccountMethods.WatermarkReadBack` | src/helpers/accountMethods.tsx:54-77 | after the watermark `n` is written, the merge gives `max(n, remote)` |
| `AccountMethods.LookupAddress` | src/helpers/accountMethods.tsx:19-48 | `wallet`: the URL address if `walletLogin` is set and the address is valid, else the known address if logged in, else ""; `extension` login or `ledger`: the known address if logged in, else ask the provider; otherwise ask the provider |
| `AccountMethods.ResolveAddress` | src/helpers/accountMethods.tsx:19-48 | the `wallet` branch always settles with an address, never an error; any failure is the provider's own |
| `AccountMethods.InvalidUrlAddressFallsThrough` | src/helpers/accountMethods.tsx:22-34 | an invalid URL address is skipped and the lookup falls through to the known address, then to "" |
| `AccountMethods.KnownAddressSkipsProvider` | src/helpers/accountMethods.tsx:35-43 | when the address is known without a round trip, the provider's answer cannot change the result; for `extension`/`ledger` it is the known address |
| `AccountMethods.PublishedAccount` | src/helpers/accountMethods.tsx:116-126 | the published account has the resolved address, the network balance, the merged nonce `LatestNonce(stored, network nonce)` (so never below the network's), and a `userName` exactly when the network's is non-empty |
| `AccountMethods.LoadActions` | src/helpers/accountMethods.tsx:110-141 | the inner `setAccount` dispatches loading true first, and loading false later, on every outcome |
| `AccountMethods.RefreshActions` | src/helpers/accountMethods.tsx:143-156 | nothing is dispatched unless the provider is initialised or `init()` resolves true; otherwise loading true comes first and loading false follows |
| `AccountMethods.RefreshPublishes` | src/helpers/accountMethods.tsx:113-128 | a refresh that gets an address and an account replaces the account, clears the error, ends with loading off and keeps the shard |
| `AccountMethods.RefreshFailureKeepsAccount` | src/helpers/accountMethods.tsx:130-140 | a failed address lookup or fetch records that error, ends with loading off and leaves the previous account untouched |
| `AccountMethods.RefreshIdempotent` | src/helpers/accountMethods.tsx:110-141 | refreshing twice with unchanged inputs leaves the store as refreshing once does |
| `AccountMethods.RefreshMergesWrittenWatermark` | src/helpers/accountMethods.tsx:54-121 | a refresh that reads back the watermark `n` written by `useSetNonce` publishes `max(n, network nonce)` |
| `AccountMethods.AccountStore.Refresh` | src/helpers/accountMethods.tsx:143-156 | the dispatches made are `RefreshActions`, and the store becomes their result; `getAccount` is asked only for a resolved address |
| `AccountMethods.AccountStore.LoadAccount` | src/helpers/accountMethods.tsx:110-141 | the dispatches made are `LoadActions`, in order, and the store becomes their result |
| `AccountMethods.AccountStore.Publish` | src/helpers/accountMethods.tsx:116-128 | on success: set the account, loading off, error cleared, in that order |
| `AccountMethods.AccountStore.Fail` | src/helpers/accountMethods.tsx:130-139 | on failure: loading off, then the error |
| `AccountMethods.AccountStore.SetNonce` | src/helpers/accountMethods.tsx:51-70 | the watermark is stored with a one-hour expiry; the account's address and nonce are set; balance, user name and the rest of the store are unchanged |
| `AccountMethods.AccountStore.GetAccountShard` | src/helpers/accountMethods.tsx:81-102 | a cached shard is returned with no request; otherwise the API is asked; a fetched shard is stored and returned; a failure returns none and changes nothing |
| `SendTransactionsComponent.WithNonces` | src/components/SendTransactions/index.tsx:79-81 | the numbered batch has the same length; transaction `i` is the original with nonce `base + i`, every other field unchanged |
| `SendTransactionsComponent.NoncesIncrease` | src/components/SendTransactions/index.tsx:79-81 | the nonces of a numbered batch strictly increase in batch order |
| `SendTransactionsComponent.AssignNonces` | src/components/SendTransactions/index.tsx:79-81 | the loop leaves the array equal to the numbered batch of its old contents |
| `SendTransactionsComponent.SendTransactions.SignTransactions` | src/components/SendTransactions/index.tsx:65-106 | route recorded and loading set before any branch; no provider: fixed message, no fetch, batch untouched; fetch fails: cancelled status, modal shows the error, no nonces; success: batch numbered, then `wallet` calls `walletSign` without the modal, `ledger` keeps the batch pending with the modal shown and the modal's list equal to the numbered batch, other types do nothing more |
| `SendTransactionsComponent.SendTransactions.Send` | src/components/SendTransactions/index.tsx:51-56 | an event without a detail carrying both `transactions` and `callbackRoute` changes nothing; otherwise it signs |
| `SendTransactionsComponent.SendTransactions.HandleClose` | src/components/SendTransactions/index.tsx:42-49 | no pending batch, route "" and error "", modal hidden and its list empty, and one cancelled status update |

## Left out

- AssignNonces: takes the batch's transactions to be distinct objects, because `Transaction` is a value. In the source, `tx.setNonce` changes each object in place (index.tsx:79-81). A batch holding the same object at several positions ends, in the source, with that object's nonce equal to `base` plus its last index. The model gives each position its own `base + i`.
- SignTransactions: its success clause `txs[..] == WithNonces(old(txs[..]), base)`, the batch handed to `walletSign` and the pending Ledger batch all rest on the same distinct-objects assumption as `AssignNonces`. Aliasing between transaction objects is not captured.
- `useGetAccount` (accountMethods.tsx:9-12) only forwards to the network proxy. How that call settles is the `fetched` parameter.
- Promise timing: each continuation runs at once, in order. Overlapping refreshes, superseded fetches and a Promise that never settles are not modelled.
- A rejected `provider.init()` is only logged. The model makes no dispatch for it and leaves out the `console` output.
- The `.catch` of `signTransactions` also catches exceptions thrown inside its `.then`, for example by `walletSign` or by a `transactions` value that is not an array. The model has no such exceptions.
- The `storage` module is not part of this model. Its expiry check decides whether the read in `getLatestNonce` returns anything, and that result is the `storedNonce` parameter. A stored number is taken to read back as its decimal text.
- `ParseInt` does not model digit strings too long for a JavaScript number (above 2^53 they lose precision), nor exponent forms. Nonces are unbounded naturals.
- The context reducer is not part of this model. Each action is taken to replace the one store field it names.
- `getProviderType`, `addressIsValid`, `walletSign`, `updateSendStatus` and `moment` are not part of this model. They become inputs, or logs of the calls made.
- src/helpers/useInitWalletConnect.tsx: the WalletConnect heartbeat and watchdog timers, window storage listeners, user-agent checks and navigation are timing and event interleaving, not sequential logic.
- src/components/SendTransactions/helpers/index.tsx only re-exports modules and declares `HandleCloseType`, which `handleClose` does not use.
- React plumbing is left out: registering and removing the event listener (index.tsx:58-63; `Send` is the listener itself), the unused `txHash` state, `useSearchTransactions`, `history`, `setError` passed to the modal, and the rendering of `SignWithLedgerModal`.
