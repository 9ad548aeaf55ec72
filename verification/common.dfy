/** Value types shared by the account helpers and the send-transactions component. */
module Common {

  /** A JavaScript value that may be `undefined`. */
  datatype Option<+T> = None | Some(value: T)

  /** How a Promise settles: resolved with a value or rejected with an error message. */
  datatype Outcome<+T> = Success(value: T) | Failure(error: string)

  /** What `getProviderType` reports for the active provider; only `wallet` and
      `ledger` are distinguished by the code modelled here. */
  datatype ProviderType = Wallet | Ledger | OtherProvider
}
