/** Reading a result line back: the partner of `GameScreen.ResultText`. It
    shows that the text alone determines whether the flip was won and which
    side came up, so the win/lose styling can be checked against it. */
module ResultLine {
  import opened Wrappers
  import opened GameScreen

  /** What a result line says: won or lost, and the side that came up. */
  datatype Line = Line(won: bool, flip: Side)

  function ReadSide(u: string): (r: Option<Side>)
    ensures r.Some? ==> u == SideName(r.value) + "."
  {
    if u == "heads." then Some(Heads)
    else if u == "tails." then Some(Tails)
    else None
  }

  /** The side name followed by the full stop reads back as that side. */
  lemma ReadSideName(flip: Side)
    ensures ReadSide(SideName(flip) + ".") == Some(flip)
  {
    match flip
    case Heads => assert SideName(flip) + "." == "heads.";
    case Tails => assert SideName(flip) + "." == "tails.";
  }

  /** Parses "You won! It was <side>." and "You lost! It was <side>.". */
  function ReadResult(t: string): Option<Line>
  {
    if |WonPrefix| <= |t| && t[..|WonPrefix|] == WonPrefix then
      match ReadSide(t[|WonPrefix|..])
      case Some(f) => Some(Line(true, f))
      case None => None
    else if |LostPrefix| <= |t| && t[..|LostPrefix|] == LostPrefix then
      match ReadSide(t[|LostPrefix|..])
      case Some(f) => Some(Line(false, f))
      case None => None
    else
      None
  }

  /** Every result line the handler shows reads back as what it reports. */
  lemma ReadResultText(won: bool, flip: Side)
    ensures ReadResult(ResultText(won, flip)) == Some(Line(won, flip))
  {
    var t := ResultText(won, flip);
    var tail := SideName(flip) + ".";
    ReadSideName(flip);
    if won {
      assert t == WonPrefix + tail;
      assert t[..|WonPrefix|] == WonPrefix;
      assert t[|WonPrefix|..] == tail;
    } else {
      assert t == LostPrefix + tail;
      assert t[..|WonPrefix|] != WonPrefix by {
        assert t[..|WonPrefix|][4] == t[4] == 'l' != WonPrefix[4];
      }
      assert t[..|LostPrefix|] == LostPrefix;
      assert t[|LostPrefix|..] == tail;
    }
  }

  /** Every text that reads as a result line is exactly that line. */
  lemma ResultTextOfRead(t: string)
    requires ReadResult(t).Some?
    ensures t == ResultText(ReadResult(t).value.won, ReadResult(t).value.flip)
  {
  }

  /** Distinct outcomes give distinct result lines. */
  lemma ResultTextInjective(w1: bool, f1: Side, w2: bool, f2: Side)
    ensures ResultText(w1, f1) == ResultText(w2, f2) ==> w1 == w2 && f1 == f2
  {
    ReadResultText(w1, f1);
    ReadResultText(w2, f2);
  }
}
