/** Consequences of the flip handler's contract for particular kinds of bet
    text, and the worked examples of a won, a lost, a rejected and a failed
    flip. */
module FlipProperties {
  import opened Wrappers
  import opened JsNumber
  import opened Ether
  import opened GameScreen

  /** An empty bet text only sets the "enter an amount" message; it is never
      reported as exceeding the balance, whatever the balance. */
  lemma EmptyBetRejected(s: UiState, bet: string, prediction: Side, account: string,
                         parse: string -> Number, fx: Effects)
    requires |bet| == 0
    ensures FlipCoin(s, bet, prediction, account, parse, fx)
              == FlipResult(s.(errorMessage := EmptyBetMessage), None)
    ensures FlipCoin(s, bet, prediction, account, parse, fx).state.errorMessage != ExceedsBalanceMessage
  {
  }

  /** A bet equal to the balance passes the gate. */
  lemma BetEqualToBalanceAccepted(s: UiState, bet: string, parse: string -> Number)
    requires |bet| != 0 && parse(bet) == BalanceNumber(s.balance)
    ensures Validate(s, bet, parse) == Passed(BalanceNumber(s.balance))
  {
  }

  /** A bet text that parses to NaN is not caught by the balance guard (NaN
      is not greater than anything), but it cannot be converted to wei, so the
      flip ends in the failure message with no transfer and nothing else
      changed. */
  lemma NaNBetPassesGateThenFails(s: UiState, bet: string, prediction: Side, account: string,
                                  parse: string -> Number, fx: Effects)
    requires |bet| != 0 && parse(bet) == NaN
    ensures Validate(s, bet, parse) == Passed(NaN)
    ensures FlipCoin(s, bet, prediction, account, parse, fx)
              == FlipResult(s.(errorMessage := TransferFailedMessage), None)
  {
  }

  /** Before the first balance fetch the balance reads as zero, so every
      positive bet is rejected as exceeding it. */
  lemma UnfetchedBalanceRejectsPositiveBet(s: UiState, bet: string, parse: string -> Number)
    requires s.balance == Unfetched && |bet| != 0
    requires parse(bet).PosInfinity? || (parse(bet).Finite? && parse(bet).value > 0.0)
    ensures Validate(s, bet, parse) == Rejected(ExceedsBalanceMessage)
  {
  }

  /** The parser used by the worked examples: "0.5" is half an ether. */
  function HalfParser(t: string): Number
  {
    if t == "0.5" then Finite(0.5) else NaN
  }

  /** Balance 1 ether, bet "0.5" on heads, heads comes up: one ether goes to
      the player and the result line reports the win. */
  lemma WonFlipExample(s: UiState, account: string, fx: Effects)
    requires s.balance == Fetched(WeiPerEther as nat)
    requires fx == Effects(Heads, true, true, true, Some(WeiPerEther as nat))
    ensures FlipCoin(s, "0.5", Heads, account, HalfParser, fx)
              == FlipResult(UiState(Fetched(WeiPerEther as nat), "", "You won! It was heads.", true),
                            Some(Transfer(account, WeiPerEther)))
  {
  }

  /** Balance 1 ether, bet "0.5" on heads, tails comes up: half an ether
      goes to the forfeit address and the result line reports the loss. */
  lemma LostFlipExample(s: UiState, account: string, fx: Effects)
    requires s.balance == Fetched(WeiPerEther as nat)
    requires fx == Effects(Tails, true, true, true, Some(WeiPerEther as nat / 2))
    ensures FlipCoin(s, "0.5", Heads, account, HalfParser, fx)
              == FlipResult(UiState(Fetched(WeiPerEther as nat / 2), "", "You lost! It was tails.", false),
                            Some(Transfer(ForfeitAddress, WeiPerEther / 2)))
  {
  }

  /** Balance 0.2 ether, bet "0.5": rejected before any transfer is built. */
  lemma OverBalanceExample(s: UiState, prediction: Side, account: string, fx: Effects)
    requires s.balance == Fetched(WeiPerEther as nat / 5)
    ensures FlipCoin(s, "0.5", prediction, account, HalfParser, fx)
              == FlipResult(s.(errorMessage := ExceedsBalanceMessage), None)
  {
  }

  /** The transfer is sent but its confirmation fails: the failure message,
      balance and result as before, although a transfer was handed over. */
  lemma UnconfirmedExample(s: UiState, account: string, fx: Effects)
    requires s.balance == Fetched(WeiPerEther as nat)
    requires fx.providerReady && fx.sent && !fx.confirmed
    ensures FlipCoin(s, "0.5", Heads, account, HalfParser, fx).state
              == s.(errorMessage := TransferFailedMessage)
    ensures FlipCoin(s, "0.5", Heads, account, HalfParser, fx).transfer.Some?
  {
  }
}
