# Coin-flip game screen: bet resolution

A Dafny model of the bet-resolution logic of the coin-flip game screen
(`src/Components/GameScreen.js`). A player has a connected wallet account
and enters a bet amount (as text) and a prediction (heads or tails). A click
on "Flip Coin" runs the handler. It rejects an empty bet, then a bet greater
than the displayed balance, and otherwise clears the error line. It then
flips the coin and builds one transfer: twice the bet to the player's own
account on a win, or the bet to a fixed forfeit address on a loss. It sends
the transfer, waits for confirmation, shows "You won! It was heads." (or
lost, or tails), and reads the balance again. Any failure in that chain
shows one generic message. A separate effect fetches the balance when the
account changes, but only when an account and an injected wallet are present.

The model is functional. `GameScreen.UiState` is the displayed state
(balance, error line, result line, win styling). `GameScreen.FlipCoin` and
`GameScreen.FetchBalance` are pure transitions of it. Everything external
is a parameter:

- the random flip and the outcome of each wallet call are fields of
  `GameScreen.Effects`: the provider could be built, `sendTransaction`
  resolved, `wait` resolved, and the balance read afterwards (or failed);
- `parseFloat` of the bet text is an arbitrary function `string -> Number`;
- the connected account is an argument.

Numbers are exact. `JsNumber.Number` is NaN, a finite real or one of the
two infinities, and `JsNumber.GreaterThan` is JavaScript's `>` on them.
Balances are whole wei (`GameScreen.Balance`). The initial `useState(0)`
is the separate value `Unfetched`, which reads as zero and is displayed as
"Loading...". `parseEther(x.toString())` is the partial `Ether.ToWei`: it
succeeds only for a finite amount that is a whole number of wei. Otherwise
it throws inside the handler's `try` block, which ends in the failure
message.

`ResultLine.ReadResult` reads a result line back. It is the partner of
`GameScreen.ResultText`, and the two are shown to be inverse. `Session.Run`
folds a sequence of handler invocations. From the initial screen, after every
completed fetch or flip the win/lose styling agrees with the result line.
(Inside one flip the two are set by separate state updates.) The displayed balance
is always one reported by a read that actually happened.

The model keeps these details of the code:

- The empty-bet guard tests only `betAmount.length === 0`. A text of
  spaces is not treated as missing.
- A bet text that parses to NaN passes the balance guard, because the
  comparison with NaN is false. It then fails inside the `try` block when it
  is converted to wei (`FlipProperties.NaNBetPassesGateThenFails`).
- The win payout is sent by the wallet's own signer to `account`. The code
  contains no house account that pays out.
- If the balance read after a confirmed transfer fails, the result line and
  the styling have already been updated. The error line then shows the
  failure message and the balance keeps its old value.
- A failed balance fetch in the effect has no handler. It leaves the state
  unchanged.

## Model

| member | source | states |
|---|---|---|
| JsNumber.Double | src/Components/GameScreen.js:55 | `betAmountInEther * 2` keeps NaN and the infinities and doubles a finite amount |
| JsNumber.GreaterThanIsRankOrder | src/Components/GameScreen.js:34 | on non-NaN numbers, `>` orders the infinities around the finite values and compares finite values as reals |
| JsNumber.NaNIncomparable | src/Components/GameScreen.js:34 | a NaN on either side of `>` makes the comparison false |
| JsNumber.GreaterThanStrictOrder | src/Components/GameScreen.js:34 | `>` is irreflexive and transitive |
| Ether.EtherOf | src/Components/GameScreen.js:19 | the ether value of a balance is positive exactly when the wei amount is, and times 10^18 gives the wei back |
| Ether.ToWei | src/Components/GameScreen.js:55 | the wei value of a transfer exists exactly for a finite amount with at most eighteen decimals, and it equals that amount |
| Ether.ToWeiEtherOf | src/Components/GameScreen.js:19 | a wei amount read as ether converts back to the same wei amount |
| GameScreen.BalanceNumber | src/Components/GameScreen.js:7 | the balance compared against a bet is a finite non-negative number, zero before the first fetch, and the fetched wei amount in ether after it |
| GameScreen.Validate | src/Components/GameScreen.js:26-37 | the gate rejects with the empty-bet message exactly for an empty text, and with the exceeds message exactly for a non-empty text whose parsed amount is greater than the balance; otherwise it passes the parsed amount |
| GameScreen.BuildTransfer | src/Components/GameScreen.js:51-66 | a win builds a transfer of twice the bet to the player's account, a loss one of the bet to the forfeit address; none exactly when the value is not a whole number of wei |
| GameScreen.Settle | src/Components/GameScreen.js:42-80 | a transfer is built exactly when the provider is available and the value converts. Any failure before confirmation leaves only the failure message. After confirmation the styling is the win, the result line names the flip, and the balance is the re-read value or, if that read failed, the old one with the failure message |
| GameScreen.FlipCoin | src/Components/GameScreen.js:25-81 | a rejected bet changes only the error line and builds no transfer. The exceeds message appears exactly for a non-empty bet over the balance. The empty-bet message appears exactly for an empty bet. A transfer is built only for an accepted bet, and it is always built for an accepted bet when the provider is available and the value converts; it is the payout transfer. Result, styling and balance change only after a confirmed transfer. An accepted bet ends with an empty error line exactly when the transfer was confirmed and the balance re-read |
| GameScreen.FetchBalance | src/Components/GameScreen.js:14-23 | the fetch changes nothing unless the account is non-empty, a wallet is injected and the read succeeds; it then replaces only the balance |
| ResultLine.ReadSideName | src/Components/GameScreen.js:48 | a side name with its full stop reads back as that side |
| ResultLine.ReadResultText | src/Components/GameScreen.js:60 | every result line the handler shows reads back as the win or loss and the side it reports |
| ResultLine.ResultTextOfRead | src/Components/GameScreen.js:70 | any text that reads as a result line is exactly that handler's line |
| ResultLine.ResultTextInjective | src/Components/GameScreen.js:60-70 | different win/loss outcomes or sides give different result lines |
| Session.ApplyKeeps | src/Components/GameScreen.js:14-81 | one fetch or flip keeps the error line to the four known messages and the result line in agreement with the styling, and takes any new balance from a read that step performed |
| Session.Run | src/Components/GameScreen.js:7-12 | along any sequence of fetches and flips the screen stays well formed and the balance shown is the starting one or one reported by a read that actually happened: a guarded fetch that succeeded, or the re-read after a confirmed transfer |
| Session.ReachableWellFormed | src/Components/GameScreen.js:10-11 | from the initial screen the state after every completed fetch or flip is well formed, and any fetched balance shown was reported by a read that actually happened |
| FlipProperties.EmptyBetRejected | src/Components/GameScreen.js:26-29 | an empty bet sets only the empty-bet message, builds no transfer, and is never reported as exceeding the balance |
| FlipProperties.BetEqualToBalanceAccepted | src/Components/GameScreen.js:34 | a bet equal to the balance passes the gate |
| FlipProperties.NaNBetPassesGateThenFails | src/Components/GameScreen.js:31-55 | a NaN bet passes the gate but ends in the failure message with no transfer and nothing else changed |
| FlipProperties.UnfetchedBalanceRejectsPositiveBet | src/Components/GameScreen.js:7 | before the first fetch every positive bet is rejected as exceeding the balance |
| FlipProperties.WonFlipExample | src/Components/GameScreen.js:51-60 | balance 1 ether, bet "0.5" on heads, heads: one ether to the player and "You won! It was heads." |
| FlipProperties.LostFlipExample | src/Components/GameScreen.js:61-70 | balance 1 ether, bet "0.5" on heads, tails: half an ether to the forfeit address and "You lost! It was tails." |
| FlipProperties.OverBalanceExample | src/Components/GameScreen.js:34-36 | balance 0.2 ether, bet "0.5": rejected with the exceeds message and no transfer |
| FlipProperties.UnconfirmedExample | src/Components/GameScreen.js:57-79 | a sent but unconfirmed transfer shows only the failure message, although the transfer was handed over |

## Left out

- Rendering, inline styles, the navigation bar and the "Loading..." text (`GameScreen.js:83-188`) are presentation. `Balance.Unfetched` records when "Loading..." would show.
- The `ethers` provider, signer, `sendTransaction`, `wait` and `getBalance` are library calls. They are parameters: success or failure of each, and the balance read.
- `Math.random` is nondeterministic. The flip result is a parameter.
- `parseFloat` of the bet text is an arbitrary parameter. Its exact grammar (leading whitespace, prefixes, exponents) is not modelled.
- Rounding to IEEE-754 doubles is not modelled: bets, doubling and balances are exact reals. So is the exponent form that `toString` gives very small or very large numbers, which `parseEther` would reject.
- `parseFloat(balance)` of the `formatEther` text is taken to be exactly the wei amount in ether.
- Whether `sendTransaction` accepts a negative or zero value is part of the `sent` parameter.
- Overlapping asynchronous flips are not modelled: each handler invocation is one atomic step.
- The console log of the caught error is not modelled.
- The `WalletContext` account source is not part of this model. The account is an argument, and the flip handler assumes one is connected.
