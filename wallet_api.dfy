/**
 * The client side of the wallet: `addWalletAmount(userId, amount)` posts a
 * new TOTAL balance, not a delta. The server-side wallet controller is not
 * part of this model, so the wallet is the log of totals sent.
 */
module WalletApi {
  import opened Domain

  /** A JavaScript number as the screens see it: `NaN`, or a finite value. */
  datatype JsNumber = NaN | Num(value: real)

  /** One wallet write: the user and the new total it posts, which may be `NaN`. */
  datatype WalletWrite = WalletWrite(userId: UserId, newTotal: JsNumber)

  class WalletClient {
    var requests: seq<WalletWrite>

    constructor ()
      ensures requests == []
    {
      requests := [];
    }

    method AddWalletAmount(userId: UserId, amount: JsNumber)
      modifies this
      ensures requests == old(requests) + [WalletWrite(userId, amount)]
    {
      requests := requests + [WalletWrite(userId, amount)];
    }
  }
}
