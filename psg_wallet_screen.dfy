/**
 * `PSGWalletScreen`: loading the balance and recharging it. A recharge posts
 * the current balance plus the amount as the new total.
 */
module PsgWalletScreen {
  import opened Domain
  import opened WalletApi

  const MinRecharge: real := 100.0
  const MaxRecharge: real := 2000.0
  const LoadError := "Failed to load balance"

  /** The accepted recharge for `Number(rechargeAmount)`: not NaN, and between 100 and 2000 inclusive. */
  function AcceptedRecharge(n: JsNumber): (r: Option<real>)
    ensures r.Some? <==> n.Num? && MinRecharge <= n.value <= MaxRecharge
    ensures r.Some? ==> r.value == n.value
  {
    if n.NaN? || n.value < 100.0 || n.value > 2000.0 then None else Some(n.value)
  }

  /** Both bounds are accepted; just outside them is not. */
  lemma RechargeBounds()
    ensures AcceptedRecharge(Num(100.0)) == Some(100.0)
    ensures AcceptedRecharge(Num(2000.0)) == Some(2000.0)
    ensures AcceptedRecharge(Num(99.99)).None? && AcceptedRecharge(Num(2000.01)).None?
    ensures AcceptedRecharge(NaN).None?
  {
  }

  class PsgWallet {
    const userId: UserId
    const wallet: WalletClient

    var loading: bool
    var error: Option<string>
    var modalVisible: bool
    var successModalVisible: bool
    var rechargeAmount: string
    var walletBalance: real
    var lastRechargeAmount: Option<real>

    constructor (userId: UserId, wallet: WalletClient)
      ensures this.userId == userId && this.wallet == wallet
      ensures loading && error == None && !modalVisible && !successModalVisible
      ensures rechargeAmount == "" && walletBalance == 0.0 && lastRechargeAmount == None
    {
      this.userId := userId;
      this.wallet := wallet;
      loading := true;
      error := None;
      modalVisible := false;
      successModalVisible := false;
      rechargeAmount := "";
      walletBalance := 0.0;
      lastRechargeAmount := None;
    }

    /**
     * `loadBalance`, with `Number(balance)` of the fetched balance as input:
     * a number becomes the balance and clears the error, NaN sets the error
     * and keeps the balance; loading ends on both paths.
     */
    method LoadBalance(fetched: JsNumber)
      modifies this`loading, this`walletBalance, this`error
      ensures !loading
      ensures fetched.Num? ==> walletBalance == fetched.value && error == None
      ensures fetched.NaN? ==> walletBalance == old(walletBalance) && error == Some(LoadError)
    {
      loading := true;
      if fetched.Num? {
        walletBalance := fetched.value;
        error := None;
      } else {
        error := Some(LoadError);
      }
      loading := false;
    }

    /** The recharge button opens the input modal. */
    method HandleRecharge()
      modifies this`modalVisible
      ensures modalVisible
    {
      modalVisible := true;
    }

    /** The input modal's Cancel button and its request to close. */
    method CloseRechargeModal()
      modifies this`modalVisible
      ensures !modalVisible
    {
      modalVisible := false;
    }

    /** `onChangeText` of the amount input. */
    method SetRechargeAmount(text: string)
      modifies this`rechargeAmount
      ensures rechargeAmount == text
    {
      rechargeAmount := text;
    }

    method HandleSuccessModalClose()
      modifies this`successModalVisible
      ensures !successModalVisible
    {
      successModalVisible := false;
    }

    /**
     * `handleAddAmount`, with JavaScript's `Number` as `toNumber` and the
     * balance re-read by `loadBalance` as `reloaded`. A rejected amount
     * changes nothing and posts nothing.
     */
    method HandleAddAmount(toNumber: string -> JsNumber, reloaded: JsNumber) returns (accepted: bool)
      modifies this, wallet
      ensures accepted <==> AcceptedRecharge(toNumber(old(rechargeAmount))).Some?
      ensures !accepted ==> unchanged(this) && wallet.requests == old(wallet.requests)
      ensures accepted ==>
        var amount := AcceptedRecharge(toNumber(old(rechargeAmount))).value;
        && wallet.requests == old(wallet.requests) + [WalletWrite(userId, Num(old(walletBalance) + amount))]
        && lastRechargeAmount == Some(amount)
        && successModalVisible
        && !modalVisible
        && rechargeAmount == ""
        && !loading
        && (reloaded.Num? ==> walletBalance == reloaded.value && error == None)
        && (reloaded.NaN? ==> walletBalance == old(walletBalance) && error == Some(LoadError))
    {
      var amount := toNumber(rechargeAmount);
      if amount.NaN? || amount.value < 100.0 || amount.value > 2000.0 {
        return false;
      }
      var newBalance := walletBalance + amount.value;
      wallet.AddWalletAmount(userId, Num(newBalance));
      lastRechargeAmount := Some(amount.value);
      successModalVisible := true;
      LoadBalance(reloaded);
      modalVisible := false;
      rechargeAmount := "";
      accepted := true;
    }
  }
}
