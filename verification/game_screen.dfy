/** The state and event handlers of the coin-flip game screen: the balance
    fetch run when the account changes, and the flip handler that validates
    a bet, settles it with one transfer and updates what the screen shows.
    Every call into the wallet library and every random draw is a parameter. */
module GameScreen {
  import opened Wrappers
  import opened JsNumber
  import opened Ether

  /** The two faces of the coin; a prediction and a flip result are both one. */
  datatype Side = Heads | Tails

  function SideName(side: Side): string
  {
    match side
    case Heads => "heads"
    case Tails => "tails"
  }

  /** The balance slot: `Unfetched` is the initial numeric `0` (shown as
      "Loading..."), `Fetched` holds the last balance read from the network. */
  datatype Balance = Unfetched | Fetched(wei: nat)

  /** `parseFloat(balance)`: the initial `0` reads as zero, a fetched balance
      as its exact ether value. */
  function BalanceNumber(b: Balance): (r: Number)
    ensures r.Finite? && r.value >= 0.0
    ensures b.Unfetched? ==> r == Finite(0.0)
    ensures b.Fetched? ==> r.value * WeiPerEther as real == b.wei as real
  {
    match b
    case Unfetched => Finite(0.0)
    case Fetched(w) => Finite(EtherOf(w))
  }

  /** What the screen shows: the balance, the error line, the result line and
      whether the result is styled as a win. */
  datatype UiState = UiState(balance: Balance, errorMessage: string, result: string, isWin: bool)

  /** The state when the screen is first shown. */
  const Initial := UiState(Unfetched, "", "", true)

  const EmptyBetMessage := "Please enter bet amount."
  const ExceedsBalanceMessage := "Bet amount exceeds your current ETH balance!"
  const TransferFailedMessage := "Transaction failed. Please try again."

  /** The messages the error line can hold. */
  predicate KnownMessage(m: string)
  {
    m in {"", EmptyBetMessage, ExceedsBalanceMessage, TransferFailedMessage}
  }

  /** The fixed address a lost bet is sent to (a placeholder in the program). */
  const ForfeitAddress := "0xYourContractOrOwnerAddressHere"

  const WonPrefix := "You won! It was "
  const LostPrefix := "You lost! It was "

  /** The result line shown after a confirmed transfer. */
  function ResultText(won: bool, flip: Side): string
  {
    (if won then WonPrefix else LostPrefix) + SideName(flip) + "."
  }

  /** A transfer handed to the wallet: destination address and value in wei. */
  datatype Transfer = Transfer(to: string, value: int)

  /** The outcome of every external step one flip may reach, in order:
      the random flip, building the provider from the injected wallet, the
      `sendTransaction` call, the `wait` for confirmation, and the balance
      read afterwards (`None` when that read fails). */
  datatype Effects = Effects(
    flip: Side,
    providerReady: bool,
    sent: bool,
    confirmed: bool,
    requery: Option<nat>)

  /** The screen state after a flip and the transfer submitted, if any. */
  datatype FlipResult = FlipResult(state: UiState, transfer: Option<Transfer>)

  /** Whether the bet text passes the two validation guards. */
  predicate Accepted(s: UiState, bet: string, parse: string -> Number)
  {
    |bet| != 0 && !GreaterThan(parse(bet), BalanceNumber(s.balance))
  }

  /** The verdict of the validation gate: the message of the first guard
      that fails, or the parsed bet amount. */
  datatype Validation = Rejected(message: string) | Passed(amount: Number)

  /** The validation gate: an empty bet text first, then a parsed amount
      greater than the balance. The parser is consulted only for a
      non-empty text, and a NaN amount is not greater than any balance. */
  function Validate(s: UiState, bet: string, parse: string -> Number): (r: Validation)
    ensures r == Rejected(EmptyBetMessage) <==> |bet| == 0
    ensures r == Rejected(ExceedsBalanceMessage) <==>
              |bet| != 0 && GreaterThan(parse(bet), BalanceNumber(s.balance))
    ensures r.Rejected? ==> r.message in {EmptyBetMessage, ExceedsBalanceMessage}
    ensures r.Passed? <==> Accepted(s, bet, parse)
    ensures r.Passed? ==> r.amount == parse(bet)
  {
    if |bet| == 0 then
      Rejected(EmptyBetMessage)
    else
      var amount := parse(bet);
      if GreaterThan(amount, BalanceNumber(s.balance)) then
        Rejected(ExceedsBalanceMessage)
      else
        Passed(amount)
  }

  /** The transfer a flip builds: double the bet back to the player on a win,
      the bet to the forfeit address on a loss. `None` when the value cannot
      be converted to wei. */
  function BuildTransfer(account: string, amount: Number, won: bool): (r: Option<Transfer>)
    ensures r.Some? && won ==>
              amount.Finite? && r.value.to == account && EtherOf(r.value.value) == 2.0 * amount.value
    ensures r.Some? && !won ==>
              amount.Finite? && r.value.to == ForfeitAddress && EtherOf(r.value.value) == amount.value
    ensures r.None? <==> !amount.Finite? || !WholeWei(if won then 2.0 * amount.value else amount.value)
  {
    if won then
      match ToWei(Double(amount))
      case Some(w) => Some(Transfer(account, w))
      case None => None
    else
      match ToWei(amount)
      case Some(w) => Some(Transfer(ForfeitAddress, w))
      case None => None
  }

  /** The settlement after a bet passed the gate, starting from the state
      with the error line cleared: flip, build and send one transfer, wait
      for it, then show the result and read the balance again. Any failure
      ends in the one generic failure message. */
  function Settle(cleared: UiState, amount: Number, prediction: Side, account: string,
                  fx: Effects): (r: FlipResult)
    requires cleared.errorMessage == ""
    ensures r.transfer.Some? <==> fx.providerReady && BuildTransfer(account, amount, fx.flip == prediction).Some?
    ensures r.transfer.Some? ==> r.transfer == BuildTransfer(account, amount, fx.flip == prediction)
    ensures !(fx.providerReady && r.transfer.Some? && fx.sent && fx.confirmed) ==>
              r.state == cleared.(errorMessage := TransferFailedMessage)
    ensures fx.providerReady && r.transfer.Some? && fx.sent && fx.confirmed ==>
              && r.state.isWin == (fx.flip == prediction)
              && r.state.result == ResultText(fx.flip == prediction, fx.flip)
              && r.state.errorMessage == (if fx.requery.Some? then "" else TransferFailedMessage)
              && r.state.balance == (if fx.requery.Some? then Fetched(fx.requery.value) else cleared.balance)
  {
    var failed := cleared.(errorMessage := TransferFailedMessage);
    if !fx.providerReady then
      FlipResult(failed, None)
    else
      var won := fx.flip == prediction;
      match BuildTransfer(account, amount, won)
      case None => FlipResult(failed, None)
      case Some(t) =>
        if !fx.sent || !fx.confirmed then
          FlipResult(failed, Some(t))
        else
          var settled := cleared.(isWin := won, result := ResultText(won, fx.flip));
          match fx.requery
          case None => FlipResult(settled.(errorMessage := TransferFailedMessage), Some(t))
          case Some(w) => FlipResult(settled.(balance := Fetched(w)), Some(t))
  }

  /** The flip handler. `bet` is the bet text, `prediction` the chosen side,
      `account` the connected account, `parse` the bet-text parser and `fx`
      the outcomes of the external steps. */
  function FlipCoin(s: UiState, bet: string, prediction: Side, account: string,
                    parse: string -> Number, fx: Effects): (r: FlipResult)
    // A rejected bet changes only the error line and builds no transfer.
    ensures !Accepted(s, bet, parse) ==>
              r.transfer.None? && r.state == s.(errorMessage := if |bet| == 0 then EmptyBetMessage else ExceedsBalanceMessage)
    ensures r.state.errorMessage == EmptyBetMessage <==> |bet| == 0
    ensures r.state.errorMessage == ExceedsBalanceMessage <==>
              |bet| != 0 && GreaterThan(parse(bet), BalanceNumber(s.balance))
    // At most one transfer, and only for an accepted bet.
    ensures r.transfer.Some? ==> Accepted(s, bet, parse) && fx.providerReady
    ensures (Accepted(s, bet, parse) && fx.providerReady
             && BuildTransfer(account, parse(bet), fx.flip == prediction).Some?) ==> r.transfer.Some?
    ensures r.transfer.Some? ==> r.transfer == BuildTransfer(account, parse(bet), fx.flip == prediction)
    // Without a confirmed transfer, result, styling and balance stay as they were.
    ensures !(r.transfer.Some? && fx.sent && fx.confirmed) ==>
              r.state.result == s.result && r.state.isWin == s.isWin && r.state.balance == s.balance
    ensures Accepted(s, bet, parse) && !(r.transfer.Some? && fx.sent && fx.confirmed) ==>
              r.state.errorMessage == TransferFailedMessage
    // After a confirmed transfer: the result line, and a refreshed balance or the failure message.
    ensures r.transfer.Some? && fx.sent && fx.confirmed ==>
              && r.state.isWin == (fx.flip == prediction)
              && r.state.result == ResultText(fx.flip == prediction, fx.flip)
              && (r.state.errorMessage == "" <==> fx.requery.Some?)
              && r.state.balance == (if fx.requery.Some? then Fetched(fx.requery.value) else s.balance)
    ensures KnownMessage(r.state.errorMessage)
  {
    match Validate(s, bet, parse)
    case Rejected(message) => FlipResult(s.(errorMessage := message), None)
    case Passed(amount) => Settle(s.(errorMessage := ""), amount, prediction, account, fx)
  }

  /** Whether a JavaScript value used as a condition is truthy: an absent
      account or an empty address is falsy. */
  predicate Present(account: Option<string>)
  {
    account.Some? && account.value != ""
  }

  /** The balance fetch run when the account changes. It does nothing unless
      an account and an injected wallet are present; a failed read has no
      handler, so it leaves the state as it was. */
  function FetchBalance(s: UiState, account: Option<string>, walletPresent: bool,
                        fetched: Option<nat>): (r: UiState)
    ensures r.errorMessage == s.errorMessage && r.result == s.result && r.isWin == s.isWin
    ensures r != s ==> Present(account) && walletPresent && fetched.Some?
    ensures r.balance == s.balance || r.balance == Fetched(fetched.value)
    ensures Present(account) && walletPresent && fetched.Some? ==> r.balance == Fetched(fetched.value)
  {
    if Present(account) && walletPresent then
      match fetched
      case Some(w) => s.(balance := Fetched(w))
      case None => s
    else
      s
  }
}
