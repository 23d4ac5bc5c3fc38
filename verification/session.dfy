/** The screen over its lifetime: a sequence of balance fetches and flips
    applied one after another to the same state, each as one atomic step. */
module Session {
  import opened Wrappers
  import opened JsNumber
  import opened GameScreen
  import opened ResultLine

  /** One handler invocation: a balance fetch after the account changed, or a
      click on "Flip Coin" with the bet text and prediction of that moment. */
  datatype Event =
    | AccountChanged(account: Option<string>, walletPresent: bool, fetched: Option<nat>)
    | Flip(bet: string, prediction: Side, player: string, fx: Effects)

  function Apply(s: UiState, e: Event, parse: string -> Number): UiState
  {
    match e
    case AccountChanged(account, present, fetched) => FetchBalance(s, account, present, fetched)
    case Flip(bet, prediction, player, fx) => FlipCoin(s, bet, prediction, player, parse, fx).state
  }

  /** What the screen may show: a known error line, and a result line that is
      empty or reports the same win or loss its styling shows. */
  predicate WellFormed(s: UiState)
  {
    && KnownMessage(s.errorMessage)
    && (s.result == "" || (ReadResult(s.result).Some? && ReadResult(s.result).value.won == s.isWin))
  }

  /** The balance read that event `e` actually performs from state `s`: a
      fetch whose guard holds and whose read succeeds, or the re-read after
      a flip whose transfer was confirmed. */
  function ReadIn(s: UiState, e: Event, parse: string -> Number): set<nat>
  {
    match e
    case AccountChanged(account, present, fetched) =>
      if Present(account) && present && fetched.Some? then {fetched.value} else {}
    case Flip(bet, prediction, player, fx) =>
      var r := FlipCoin(s, bet, prediction, player, parse, fx);
      if r.transfer.Some? && fx.sent && fx.confirmed && fx.requery.Some? then {fx.requery.value} else {}
  }

  /** Every balance the network reported by a read that actually happened
      while running `events` from `s`. */
  function Reported(s: UiState, events: seq<Event>, parse: string -> Number): set<nat>
    decreases |events|
  {
    if |events| == 0 then {}
    else ReadIn(s, events[0], parse) + Reported(Apply(s, events[0], parse), events[1..], parse)
  }

  /** One step keeps the screen well formed and takes its balance, if it
      changes it, from a read the step performed. */
  lemma ApplyKeeps(s: UiState, e: Event, parse: string -> Number)
    ensures WellFormed(s) ==> WellFormed(Apply(s, e, parse))
    ensures Apply(s, e, parse).balance == s.balance
            || (Apply(s, e, parse).balance.Fetched? && Apply(s, e, parse).balance.wei in ReadIn(s, e, parse))
  {
    var s' := Apply(s, e, parse);
    if e.Flip? && s'.result != s.result {
      ReadResultText(e.fx.flip == e.prediction, e.fx.flip);
    }
  }

  /** Running a sequence of events from a state: the screen stays well
      formed, and the balance shown is the starting one or one a read along
      the way reported. */
  function Run(s: UiState, events: seq<Event>, parse: string -> Number): (r: UiState)
    ensures WellFormed(s) ==> WellFormed(r)
    ensures r.balance == s.balance || (r.balance.Fetched? && r.balance.wei in Reported(s, events, parse))
    decreases |events|
  {
    if |events| == 0 then s
    else
      var next := Apply(s, events[0], parse);
      ApplyKeeps(s, events[0], parse);
      Run(next, events[1..], parse)
  }

  /** From the first screen, the state after every completed fetch or flip
      is well formed: the win/lose styling agrees with the result line. */
  lemma {:induction false} ReachableWellFormed(events: seq<Event>, parse: string -> Number)
    ensures WellFormed(Run(Initial, events, parse))
    ensures Run(Initial, events, parse).balance.Fetched? ==>
              Run(Initial, events, parse).balance.wei in Reported(Initial, events, parse)
  {
  }
}
