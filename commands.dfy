/** The text commands the client writes to the drone's command port, as a
    grammar of space-separated words. Every movement helper of the client
    formats one of these; `Parse` is the reading a receiver of the text would
    apply, and `ParseFormat` is the round trip. */
module Commands {
  import opened Text

  datatype Direction = Up | Down | Forward | Back | Right | Left

  datatype FlipSide = FlipLeft | FlipRight | FlipForward | FlipBack

  datatype Command =
    | SdkMode                                  // "command"
    | Takeoff | Land | Stop
    | StreamOn | StreamOff
    | FpsLow                                   // "setfps low"
    | BatteryQuery | TimeQuery                 // "battery?", "time?"
    | Speed(n: int)                            // "speed n"
    | Rc(lr: int, fb: int, ud: int, yaw: int)  // "rc lr fb ud yaw"
    | Flip(side: FlipSide)                     // "flip l|r|f|b"
    | Move(dir: Direction, cm: int)            // "up 20", "forward 40", ...
    | Clockwise(deg: int)                      // "cw 90"
    | CounterClockwise(deg: int)               // "ccw 90"

  function DirectionWord(d: Direction): string {
    match d
    case Up => "up"
    case Down => "down"
    case Forward => "forward"
    case Back => "back"
    case Right => "right"
    case Left => "left"
  }

  function FlipLetter(f: FlipSide): string {
    match f
    case FlipLeft => "l"
    case FlipRight => "r"
    case FlipForward => "f"
    case FlipBack => "b"
  }

  /** The words of a command, in order. */
  function Words(c: Command): (ws: seq<string>)
    ensures |ws| > 0
    ensures forall i :: 0 <= i < |ws| ==> ' ' !in ws[i]
  {
    match c
    case SdkMode => ["command"]
    case Takeoff => ["takeoff"]
    case Land => ["land"]
    case Stop => ["stop"]
    case StreamOn => ["streamon"]
    case StreamOff => ["streamoff"]
    case FpsLow => ["setfps", "low"]
    case BatteryQuery => ["battery?"]
    case TimeQuery => ["time?"]
    case Speed(n) => ["speed", IntToString(n)]
    case Rc(lr, fb, ud, yaw) =>
      ["rc", IntToString(lr), IntToString(fb), IntToString(ud), IntToString(yaw)]
    case Flip(f) => ["flip", FlipLetter(f)]
    case Move(d, cm) => [DirectionWord(d), IntToString(cm)]
    case Clockwise(deg) => ["cw", IntToString(deg)]
    case CounterClockwise(deg) => ["ccw", IntToString(deg)]
  }

  /** The datagram text of a command: its words joined by single spaces. */
  function Format(c: Command): string {
    Join(Words(c))
  }

  lemma FormatTwoWords(c: Command)
    requires |Words(c)| == 2
    ensures Format(c) == Words(c)[0] + " " + Words(c)[1]
  {
    var ws := Words(c);
    assert ws == [ws[0], ws[1]];
    JoinPair(ws[0], ws[1]);
  }

  /** The f-string `f"rc {a} {b} {c} {d}"` both RC helpers of the client
      build. */
  function RcText(a: int, b: int, c: int, d: int): (s: string)
    ensures s == Format(Rc(a, b, c, d))
  {
    JoinFive("rc", IntToString(a), IntToString(b), IntToString(c), IntToString(d));
    "rc " + IntToString(a) + " " + IntToString(b) + " " + IntToString(c) + " " + IntToString(d)
  }

  lemma JoinFive(w0: string, w1: string, w2: string, w3: string, w4: string)
    ensures Join([w0, w1, w2, w3, w4]) == w0 + " " + w1 + " " + w2 + " " + w3 + " " + w4
  {
    JoinPair(w3, w4);
    JoinCons(w2, [w3, w4]);
    assert [w2] + [w3, w4] == [w2, w3, w4];
    JoinCons(w1, [w2, w3, w4]);
    assert [w1] + [w2, w3, w4] == [w1, w2, w3, w4];
    JoinCons(w0, [w1, w2, w3, w4]);
    assert [w0] + [w1, w2, w3, w4] == [w0, w1, w2, w3, w4];
  }

  function KeywordCommand(w: string): Option<Command> {
    if w == "command" then Some(SdkMode)
    else if w == "takeoff" then Some(Takeoff)
    else if w == "land" then Some(Land)
    else if w == "stop" then Some(Stop)
    else if w == "streamon" then Some(StreamOn)
    else if w == "streamoff" then Some(StreamOff)
    else if w == "battery?" then Some(BatteryQuery)
    else if w == "time?" then Some(TimeQuery)
    else None
  }

  function DirectionOf(w: string): Option<Direction> {
    if w == "up" then Some(Up)
    else if w == "down" then Some(Down)
    else if w == "forward" then Some(Forward)
    else if w == "back" then Some(Back)
    else if w == "right" then Some(Right)
    else if w == "left" then Some(Left)
    else None
  }

  function FlipOf(w: string): Option<FlipSide> {
    if w == "l" then Some(FlipLeft)
    else if w == "r" then Some(FlipRight)
    else if w == "f" then Some(FlipForward)
    else if w == "b" then Some(FlipBack)
    else None
  }

  function WithArgument(head: string, n: int): Option<Command> {
    if head == "speed" then Some(Speed(n))
    else if head == "cw" then Some(Clockwise(n))
    else if head == "ccw" then Some(CounterClockwise(n))
    else match DirectionOf(head)
      case Some(d) => Some(Move(d, n))
      case None => None
  }

  function FromWords(ws: seq<string>): Option<Command> {
    if |ws| == 1 then KeywordCommand(ws[0])
    else if |ws| == 2 then
      if ws[0] == "setfps" then (if ws[1] == "low" then Some(FpsLow) else None)
      else if ws[0] == "flip" then
        match FlipOf(ws[1])
        case Some(f) => Some(Flip(f))
        case None => None
      else
        match ParseInt(ws[1])
        case Some(n) => WithArgument(ws[0], n)
        case None => None
    else if |ws| == 5 && ws[0] == "rc" then
      var (a, b, c, d) := (ParseInt(ws[1]), ParseInt(ws[2]), ParseInt(ws[3]), ParseInt(ws[4]));
      if a.Some? && b.Some? && c.Some? && d.Some? then Some(Rc(a.value, b.value, c.value, d.value))
      else None
    else None
  }

  /** Reads a datagram text back as a command, splitting it on spaces. */
  function Parse(s: string): Option<Command> {
    FromWords(Split(s))
  }

  /** A two-word command whose second word is a formatted integer. */
  lemma FromWordsOfPair(head: string, n: int)
    requires head != "setfps" && head != "flip"
    ensures FromWords([head, IntToString(n)]) == WithArgument(head, n)
  {
    ParseIntToString(n);
  }

  lemma DirectionRoundTrip(d: Direction)
    ensures DirectionOf(DirectionWord(d)) == Some(d)
    ensures var w := DirectionWord(d);
            w != "setfps" && w != "flip" && w != "speed" && w != "cw" && w != "ccw"
  {
  }

  lemma FromWordsOfArgument(c: Command)
    requires c.Speed? || c.Move? || c.Clockwise? || c.CounterClockwise?
    ensures FromWords(Words(c)) == Some(c)
  {
    match c
    case Speed(n) => FromWordsOfPair("speed", n);
    case Move(dir, cm) =>
      DirectionRoundTrip(dir);
      FromWordsOfPair(DirectionWord(dir), cm);
    case Clockwise(deg) => FromWordsOfPair("cw", deg);
    case CounterClockwise(deg) => FromWordsOfPair("ccw", deg);
  }

  lemma FromWordsOfKeyword(c: Command)
    requires c.SdkMode? || c.Takeoff? || c.Land? || c.Stop? || c.StreamOn? || c.StreamOff?
          || c.BatteryQuery? || c.TimeQuery?
    ensures FromWords(Words(c)) == Some(c)
  {
    match c
    case SdkMode =>
    case Takeoff =>
    case Land =>
    case Stop =>
    case StreamOn =>
    case StreamOff =>
    case BatteryQuery =>
    case TimeQuery =>
  }

  lemma FromWordsOfRc(a: int, b: int, c: int, d: int)
    ensures FromWords(Words(Rc(a, b, c, d))) == Some(Rc(a, b, c, d))
  {
    ParseIntToString(a); ParseIntToString(b); ParseIntToString(c); ParseIntToString(d);
    FromWordsOfFive(IntToString(a), IntToString(b), IntToString(c), IntToString(d));
  }

  lemma FromWordsOfFive(w1: string, w2: string, w3: string, w4: string)
    ensures var (a, b, c, d) := (ParseInt(w1), ParseInt(w2), ParseInt(w3), ParseInt(w4));
            FromWords(["rc", w1, w2, w3, w4]) ==
            if a.Some? && b.Some? && c.Some? && d.Some? then Some(Rc(a.value, b.value, c.value, d.value)) else None
  {
  }

  lemma FromWordsOfWords(c: Command)
    ensures FromWords(Words(c)) == Some(c)
  {
    match c
    case Speed(_) => FromWordsOfArgument(c);
    case Move(_, _) => FromWordsOfArgument(c);
    case Clockwise(_) => FromWordsOfArgument(c);
    case CounterClockwise(_) => FromWordsOfArgument(c);
    case Rc(a, b, x, d) => FromWordsOfRc(a, b, x, d);
    case Flip(f) =>
    case FpsLow =>
    case SdkMode => FromWordsOfKeyword(c);
    case Takeoff => FromWordsOfKeyword(c);
    case Land => FromWordsOfKeyword(c);
    case Stop => FromWordsOfKeyword(c);
    case StreamOn => FromWordsOfKeyword(c);
    case StreamOff => FromWordsOfKeyword(c);
    case BatteryQuery => FromWordsOfKeyword(c);
    case TimeQuery => FromWordsOfKeyword(c);
  }

  /** Every command text the client formats reads back as the same command,
      arguments included. */
  lemma ParseFormat(c: Command)
    ensures Parse(Format(c)) == Some(c)
  {
    SplitJoin(Words(c));
    FromWordsOfWords(c);
  }

  /** Distinct commands are written as distinct texts. */
  lemma FormatInjective(c: Command, d: Command)
    ensures Format(c) == Format(d) ==> c == d
  {
    ParseFormat(c);
    ParseFormat(d);
  }

  /** The four RC values are recovered exactly from the RC text. */
  lemma RcTextRoundTrip(a: int, b: int, c: int, d: int)
    ensures Parse(RcText(a, b, c, d)) == Some(Rc(a, b, c, d))
  {
    ParseFormat(Rc(a, b, c, d));
  }

  /** The worked example of an RC command with mixed signs. */
  lemma RcExample()
    ensures RcText(-50, 0, 25, 100) == "rc -50 0 25 100"
    ensures Parse("rc -50 0 25 100") == Some(Rc(-50, 0, 25, 100))
  {
    ExampleText();
    RcTextRoundTrip(-50, 0, 25, 100);
  }

  lemma ExampleText()
    ensures RcText(-50, 0, 25, 100) == "rc -50 0 25 100"
  {
    ExampleLiterals();
    assert RcText(-50, 0, 25, 100) == "rc " + "-50" + " " + "0" + " " + "25" + " " + "100";
  }

  lemma ExampleLiterals()
    ensures IntToString(-50) == "-50" && IntToString(0) == "0"
    ensures IntToString(25) == "25" && IntToString(100) == "100"
  {
    assert NatToString(50) == NatToString(5) + [DigitChar(0)];
    assert NatToString(25) == NatToString(2) + [DigitChar(5)];
    assert NatToString(100) == NatToString(10) + [DigitChar(0)];
    assert NatToString(10) == NatToString(1) + [DigitChar(0)];
  }

  /** Decimal text of the constant arguments the movement helpers use. */
  lemma ArgumentLiterals()
    ensures IntToString(20) == "20" && IntToString(40) == "40"
    ensures IntToString(90) == "90" && IntToString(0) == "0"
  {
    assert NatToString(20) == NatToString(2) + [DigitChar(0)];
    assert NatToString(40) == NatToString(4) + [DigitChar(0)];
    assert NatToString(90) == NatToString(9) + [DigitChar(0)];
  }

  /** The socket's send: a datagram joins the log of transmitted texts
      exactly when `sendto` succeeds; a failure leaves the log as it was. */
  function Transmit(log: seq<string>, text: string, ok: bool): seq<string> {
    if ok then log + [text] else log
  }
}
