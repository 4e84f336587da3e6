/**
 * `OrderSummaryScreen`: the wallet-payment decision and the handlers of its
 * three modals (back, insufficient funds, success).
 */
module OrderSummaryScreen {
  import opened Domain
  import opened WalletApi
  import CartContext

  /** Screens the handlers navigate to. */
  datatype Route = MealsCategory | PsgWallet

  /** The outcome of paying by wallet: raise the insufficient-funds modal, or post a new total. */
  datatype WalletPayment = InsufficientFunds | Paid(newTotal: JsNumber)

  /**
   * The balance as the screen holds it after `fetchWalletBalance`: the
   * fetched number, or `undefined` when the request failed. In the
   * comparison and the subtraction of the payment `undefined` behaves
   * as `NaN`, so it is `NaN` here.
   */
  function LoadedBalance(fetched: Option<real>): (b: JsNumber)
    ensures fetched.Some? <==> b.Num?
    ensures fetched.Some? ==> b.value == fetched.value
  {
    match fetched
    case Some(v) => Num(v)
    case None => NaN
  }

  /**
   * Pay unless `balance < total` holds, leaving the difference as the new
   * total. A `NaN` balance is never less than the total, so it pays and
   * posts `NaN`.
   */
  function PayFromWallet(balance: JsNumber, total: real): (p: WalletPayment)
    ensures p.InsufficientFunds? <==> balance.Num? && balance.value < total
    ensures p.Paid? && balance.Num? ==> p.newTotal.Num? && p.newTotal.value + total == balance.value
    ensures balance.NaN? ==> p == Paid(NaN)
  {
    match balance
    case NaN => Paid(NaN)
    case Num(b) => if b < total then InsufficientFunds else Paid(Num(b - total))
  }

  /** A payment from a number never leaves a negative balance, and an exact balance pays down to zero. */
  lemma PaymentNeverNegative(balance: real, total: real)
    ensures PayFromWallet(Num(balance), total).Paid? ==> PayFromWallet(Num(balance), total).newTotal == Num(balance - total)
    ensures PayFromWallet(Num(balance), total).Paid? ==> PayFromWallet(Num(balance), total).newTotal.value >= 0.0
    ensures balance == total ==> PayFromWallet(Num(balance), total) == Paid(Num(0.0))
  {
  }

  /** After a failed balance fetch, paying by wallet goes through and posts `NaN` as the new total. */
  lemma FailedFetchPostsNaN(total: real)
    ensures PayFromWallet(LoadedBalance(None), total) == Paid(NaN)
  {
  }

  class OrderSummary {
    /** From the route parameters and the two contexts. */
    const totalPrice: real
    const userId: UserId
    const cartContext: CartContext.CartProvider
    const wallet: WalletClient

    var showBackModal: bool
    var showInsufficientFundsModal: bool
    var showSuccessModal: bool
    var walletBalance: JsNumber
    /** The last `navigation.navigate` target, if any. */
    var navigatedTo: Option<Route>

    constructor (totalPrice: real, userId: UserId, cartContext: CartContext.CartProvider, wallet: WalletClient)
      ensures this.totalPrice == totalPrice && this.userId == userId
      ensures this.cartContext == cartContext && this.wallet == wallet
      ensures !showBackModal && !showInsufficientFundsModal && !showSuccessModal
      ensures walletBalance == Num(0.0) && navigatedTo == None
    {
      this.totalPrice := totalPrice;
      this.userId := userId;
      this.cartContext := cartContext;
      this.wallet := wallet;
      showBackModal := false;
      showInsufficientFundsModal := false;
      showSuccessModal := false;
      walletBalance := Num(0.0);
      navigatedTo := None;
    }

    /**
     * `loadWalletBalance` on focus, with what `fetchWalletBalance` returned
     * as input: the balance, or `None` for the `undefined` of a failed request.
     */
    method LoadWalletBalance(fetched: Option<real>)
      modifies this`walletBalance
      ensures walletBalance == LoadedBalance(fetched)
    {
      match fetched {
        case Some(v) => walletBalance := Num(v);
        case None => walletBalance := NaN;
      }
    }

    /** The hardware back button opens the back modal. */
    method OnBackPress()
      modifies this`showBackModal
      ensures showBackModal
    {
      showBackModal := true;
    }

    /** `handleUpiPayment` only logs. */
    method HandleUpiPayment()
      ensures unchanged(this, cartContext, wallet)
    {
    }

    /**
     * `handlePsgWalletPayment`: short of funds, only the insufficient-funds
     * modal opens; otherwise the difference is posted as the new wallet
     * total, becomes the local balance, and the success modal opens.
     */
    method HandlePsgWalletPayment()
      modifies this`showInsufficientFundsModal, this`showSuccessModal, this`walletBalance, wallet
      ensures PayFromWallet(old(walletBalance), totalPrice) == InsufficientFunds ==>
        && showInsufficientFundsModal
        && showSuccessModal == old(showSuccessModal)
        && walletBalance == old(walletBalance)
        && wallet.requests == old(wallet.requests)
      ensures PayFromWallet(old(walletBalance), totalPrice).Paid? ==>
        var newTotal := PayFromWallet(old(walletBalance), totalPrice).newTotal;
        && wallet.requests == old(wallet.requests) + [WalletWrite(userId, newTotal)]
        && walletBalance == newTotal
        && showSuccessModal
        && showInsufficientFundsModal == old(showInsufficientFundsModal)
    {
      if walletBalance.Num? && walletBalance.value < totalPrice {
        showInsufficientFundsModal := true;
      } else {
        var deductedAmount := if walletBalance.Num? then Num(walletBalance.value - totalPrice) else NaN;
        wallet.AddWalletAmount(userId, deductedAmount);
        walletBalance := deductedAmount;
        showSuccessModal := true;
      }
    }

    /** Confirming the back modal closes it, empties the cart and returns to the categories. */
    method HandleConfirmBack()
      modifies this`showBackModal, this`navigatedTo, cartContext
      ensures !showBackModal && cartContext.cart == map[] && navigatedTo == Some(MealsCategory)
    {
      showBackModal := false;
      cartContext.ClearCart();
      navigatedTo := Some(MealsCategory);
    }

    /** Cancelling the back modal only closes it. */
    method HandleCancelBack()
      modifies this`showBackModal
      ensures !showBackModal
    {
      showBackModal := false;
    }

    /** Going to the wallet closes the insufficient-funds modal. */
    method HandleGoToWalletScreen()
      modifies this`showInsufficientFundsModal, this`navigatedTo
      ensures !showInsufficientFundsModal && navigatedTo == Some(PsgWallet)
    {
      showInsufficientFundsModal := false;
      navigatedTo := Some(PsgWallet);
    }

    /** The insufficient-funds modal's Cancel button and its request to close. */
    method CloseInsufficientFunds()
      modifies this`showInsufficientFundsModal
      ensures !showInsufficientFundsModal
    {
      showInsufficientFundsModal := false;
    }

    /** The success modal's OK button closes it, empties the cart and returns to the categories. */
    method HandleSuccessOk()
      modifies this`showSuccessModal, this`navigatedTo, cartContext
      ensures !showSuccessModal && cartContext.cart == map[] && navigatedTo == Some(MealsCategory)
    {
      showSuccessModal := false;
      cartContext.ClearCart();
      navigatedTo := Some(MealsCategory);
    }

    /** The success modal's request to close only closes it; the cart stays. */
    method CloseSuccessModal()
      modifies this`showSuccessModal
      ensures !showSuccessModal
    {
      showSuccessModal := false;
    }
  }
}
