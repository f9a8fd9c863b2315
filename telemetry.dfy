/** Classification of the drone's telemetry replies and the three display
    texts they update. The three receivers of the client share this rule;
    two of them test the trailing 's' with a slice instead of `endswith`,
    and `SliceClassifierAgrees` shows that this changes nothing. */
module Telemetry {
  import opened Text

  /** One attempt of a receiver to read a datagram: the text it decoded, or
      a socket or decoding error. */
  datatype Datagram = Payload(raw: string) | Failure

  /** Which display text a reply updates. */
  datatype Kind = Battery | FlightTime | Status

  /** The display texts: battery, flight time and status. */
  datatype Texts = Texts(battery: string, time: string, status: string)

  /** The rule of `TelloNetworking.udp_receiver`: all decimal digits is a
      battery level, otherwise a trailing 's' is a flight time, and anything
      else is a status reply. */
  function Classify(resp: string): Kind {
    if IsDecimal(resp) then Battery
    else if EndsWithS(resp) then FlightTime
    else Status
  }

  /** The same rule in the receivers that test `resp[-1:] == "s"`. */
  function ClassifyBySlice(resp: string): Kind {
    if IsDecimal(resp) then Battery
    else if LastSlice(resp) == "s" then FlightTime
    else Status
  }

  lemma SliceClassifierAgrees(resp: string)
    ensures ClassifyBySlice(resp) == Classify(resp)
  {
    LastSliceIsEndsWith(resp);
  }

  /** The text a reply of a kind is displayed as. */
  function Render(k: Kind, resp: string): string {
    match k
    case Battery => "Battery:" + resp + "%"
    case FlightTime => "Time:" + resp
    case Status => "Status:" + resp
  }

  function Field(t: Texts, k: Kind): string {
    match k
    case Battery => t.battery
    case FlightTime => t.time
    case Status => t.status
  }

  function Store(t: Texts, k: Kind, text: string): Texts {
    match k
    case Battery => t.(battery := text)
    case FlightTime => t.(time := text)
    case Status => t.(status := text)
  }

  /** The display texts after the (trimmed) reply `resp` arrives. */
  function Publish(t: Texts, resp: string): Texts {
    var k := Classify(resp);
    Store(t, k, Render(k, resp))
  }

  /** The same update as the slice-testing receivers write it. */
  function PublishBySlice(t: Texts, resp: string): Texts {
    var k := ClassifyBySlice(resp);
    Store(t, k, Render(k, resp))
  }

  lemma PublishBySliceAgrees(t: Texts, resp: string)
    ensures PublishBySlice(t, resp) == Publish(t, resp)
  {
    SliceClassifierAgrees(resp);
  }

  /** A reply overwrites exactly the field of its kind with the rendering of
      the reply and leaves the other two fields as they were. */
  lemma PublishUpdatesOneField(t: Texts, resp: string)
    ensures Field(Publish(t, resp), Classify(resp)) == Render(Classify(resp), resp)
    ensures forall k :: k != Classify(resp) ==> Field(Publish(t, resp), k) == Field(t, k)
  {
  }

  /** The rendering of a reply keeps the reply itself: different replies of
      one kind are displayed differently. */
  lemma RenderInjective(k: Kind, a: string, b: string)
    ensures Render(k, a) == Render(k, b) ==> a == b
  {
    if Render(k, a) == Render(k, b) {
      match k
      case Battery =>
        assert a == Render(k, a)[8..|Render(k, a)| - 1];
        assert b == Render(k, b)[8..|Render(k, b)| - 1];
      case FlightTime =>
        assert a == Render(k, a)[5..];
        assert b == Render(k, b)[5..];
      case Status =>
        assert a == Render(k, a)[7..];
        assert b == Render(k, b)[7..];
    }
  }

  /** The status text becomes "Status:ok" from another value only when the
      reply is exactly "ok". */
  lemma StatusOkOnlyFromOk(t: Texts, resp: string)
    ensures Publish(t, resp).status == "Status:ok" <==>
            resp == "ok" || (t.status == "Status:ok" && Classify(resp) != Status)
  {
    assert Render(Status, "ok") == "Status:ok";
    OkIsStatus();
    if Classify(resp) == Status {
      RenderInjective(Status, resp, "ok");
    }
  }

  lemma OkIsStatus()
    ensures Classify("ok") == Status
  {
    assert !IsDigit("ok"[0]);
  }

  /** Typical replies from the drone: a battery level, a flight time, an
      acknowledgement, and the empty reply, which is a status. */
  lemma ClassifyExamples()
    ensures Classify("87") == Battery
    ensures Classify("12s") == FlightTime
    ensures Classify("ok") == Status
    ensures Classify("") == Status
    ensures ClassifyBySlice("") == Status
  {
    assert IsDigit("87"[0]) && IsDigit("87"[1]);
    assert !IsDigit("12s"[2]) && EndsWithS("12s");
    OkIsStatus();
  }

  /** The two telemetry queries the pollers send. */
  predicate IsQuery(c: string) {
    c == "battery?" || c == "time?"
  }

  /** A log with the pollers' queries taken out: what the rest of the
      program sent, in its order. */
  function WithoutQueries(log: seq<string>): seq<string>
    decreases |log|
  {
    if |log| == 0 then []
    else
      var last := log[|log| - 1];
      WithoutQueries(log[..|log| - 1]) + (if IsQuery(last) then [] else [last])
  }

  /** Appending one datagram to the log: a query vanishes, anything else
      is kept at the end. */
  lemma WithoutQueriesSnoc(log: seq<string>, c: string)
    ensures WithoutQueries(log + [c]) == WithoutQueries(log) + (if IsQuery(c) then [] else [c])
  {
    assert (log + [c])[..|log|] == log;
  }

  lemma {:induction false} WithoutQueriesAppend(a: seq<string>, b: seq<string>)
    ensures WithoutQueries(a + b) == WithoutQueries(a) + WithoutQueries(b)
    decreases |b|
  {
    if |b| == 0 {
      assert a + b == a;
    } else {
      var init, last := b[..|b| - 1], b[|b| - 1];
      assert b == init + [last];
      assert a + b == (a + init) + [last];
      WithoutQueriesAppend(a, init);
      WithoutQueriesSnoc(a + init, last);
      WithoutQueriesSnoc(init, last);
    }
  }

  /** A longer log keeps the commands of a shorter one in front. */
  lemma WithoutQueriesPrefix(a: seq<string>, b: seq<string>)
    requires a <= b
    ensures WithoutQueries(a) <= WithoutQueries(b)
  {
    assert b == a + b[|a|..];
    WithoutQueriesAppend(a, b[|a|..]);
  }
}
