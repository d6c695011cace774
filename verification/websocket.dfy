/**
 * The websocket ingestion loop (`websocket` in src/main.rs): best effort.
 * Text and binary frames are decoded as JSON events and sent; other frames
 * and read errors produce nothing; a failed send is only logged.  The one way
 * out of the loop is a data frame that does not decode.
 *
 * The frames read are a finite sequence: once it is used up the loop is
 * still waiting for the next frame.  JSON decoding is the `Decoders` oracle;
 * building the request and connecting is the oracle `connected`.
 */
module WebsocketPipeline {
  import opened Wrappers
  import opened Config
  import opened Forwarding
  import opened Startup

  /** What one read from the socket gives. */
  datatype Frame = Text(text: string) | Binary(bytes: seq<bv8>) | Ping | Pong | Close | ReadError

  /** JSON decoding of events, by a library outside the model. */
  datatype Decoders = Decoders(text: string -> Option<Event>, binary: seq<bv8> -> Option<Event>)

  datatype Decoded = NoEvent | Decoded(event: Event) | Malformed

  /** The event a frame carries: data frames must decode, other frames and read errors carry none. */
  function DecodeFrame(frame: Frame, decoders: Decoders): (d: Decoded)
    ensures d.NoEvent? <==> !frame.Text? && !frame.Binary?
    ensures frame.Text? ==> d == (if decoders.text(frame.text).Some? then Decoded(decoders.text(frame.text).value) else Malformed)
    ensures frame.Binary? ==> d == (if decoders.binary(frame.bytes).Some? then Decoded(decoders.binary(frame.bytes).value) else Malformed)
  {
    match frame
    case Text(t) => (match decoders.text(t) case Some(e) => Decoded(e) case None => Malformed)
    case Binary(b) => (match decoders.binary(b) case Some(e) => Decoded(e) case None => Malformed)
    case _ => NoEvent
  }

  /** How `websocket` ends: the first two are its error returns. */
  datatype WsOutcome = ConnectFailed | DecodeFailed(at: nat) | StillReading

  /** The events sent, what each send returned, and how the loop ended. */
  datatype WsRun = WsRun(forwarded: seq<Event>, results: seq<SendResult>, exit: WsOutcome)

  /** The loop from frame `i` on: the reference definition of the loop in `Websocket`. */
  function ReadFrom(s: Sender, frames: seq<Frame>, decoders: Decoders, sink: Sink, i: nat): WsRun
    requires i <= |frames|
    decreases |frames| - i
  {
    if i == |frames| then WsRun([], [], StillReading)
    else
      match DecodeFrame(frames[i], decoders)
      case Malformed => WsRun([], [], DecodeFailed(i))
      case NoEvent => ReadFrom(s, frames, decoders, sink, i + 1)
      case Decoded(event) =>
        var rest := ReadFrom(s, frames, decoders, sink, i + 1);
        WsRun([event] + rest.forwarded, [Delivery(s, event, sink, i)] + rest.results, rest.exit)
  }

  /** One turn of the loop, on frame `i`. */
  lemma ReadStep(s: Sender, frames: seq<Frame>, decoders: Decoders, sink: Sink, i: nat)
    requires i < |frames|
    ensures var run := ReadFrom(s, frames, decoders, sink, i);
      var rest := ReadFrom(s, frames, decoders, sink, i + 1);
      var d := DecodeFrame(frames[i], decoders);
      && (d.Malformed? ==> run == WsRun([], [], DecodeFailed(i)))
      && (d.NoEvent? ==> run == rest)
      && (d.Decoded? ==> run == WsRun([d.event] + rest.forwarded, [Delivery(s, d.event, sink, i)] + rest.results, rest.exit))
  {
  }

  /** The read loop of `websocket`: read, decode and send frame after frame. */
  method ReadLoop(s: Sender, frames: seq<Frame>, decoders: Decoders, sink: Sink)
    returns (outcome: WsOutcome, forwarded: seq<Event>, results: seq<SendResult>)
    ensures WsRun(forwarded, results, outcome) == ReadFrom(s, frames, decoders, sink, 0)
  {
    forwarded, results := [], [];
    var i := 0;
    ghost var whole := ReadFrom(s, frames, decoders, sink, 0);
    while i < |frames|
      invariant 0 <= i <= |frames|
      invariant whole.forwarded == forwarded + ReadFrom(s, frames, decoders, sink, i).forwarded
      invariant whole.results == results + ReadFrom(s, frames, decoders, sink, i).results
      invariant whole.exit == ReadFrom(s, frames, decoders, sink, i).exit
      decreases |frames| - i
    {
      var decoded := DecodeFrame(frames[i], decoders);
      ReadStep(s, frames, decoders, sink, i);
      if decoded.Malformed? {
        return DecodeFailed(i), forwarded, results;
      }
      if decoded.Decoded? {
        var result, _ := Send(s, decoded.event, sink.encodes(decoded.event), sink.replies(i));
        // success and failure are only logged
        ghost var rest := ReadFrom(s, frames, decoders, sink, i + 1);
        assert whole.forwarded == (forwarded + [decoded.event]) + rest.forwarded by {
          assert whole.forwarded == forwarded + ([decoded.event] + rest.forwarded);
        }
        assert whole.results == (results + [result]) + rest.results by {
          assert whole.results == results + ([result] + rest.results);
        }
        forwarded, results := forwarded + [decoded.event], results + [result];
      }
      i := i + 1;
    }
    outcome := StillReading;
  }

  /** `websocket`: connect to the URL, then run the read loop. */
  method Websocket(config: WebsocketConfig, s: Sender, connected: bool,
                   frames: seq<Frame>, decoders: Decoders, sink: Sink)
    returns (outcome: WsOutcome, url: string, forwarded: seq<Event>, results: seq<SendResult>)
    ensures url == WebsocketUrl(config)
    ensures !connected ==> outcome == ConnectFailed && forwarded == [] && results == []
    ensures connected ==> WsRun(forwarded, results, outcome) == ReadFrom(s, frames, decoders, sink, 0)
  {
    url := WebsocketUrl(config);
    if !connected {
      return ConnectFailed, url, [], [];
    }
    outcome, forwarded, results := ReadLoop(s, frames, decoders, sink);
  }

  // ---------------------------------------------------------------------------
  // Properties of the loop

  /** The first data frame from `i` on that does not decode, or the end of the frames. */
  function FirstMalformed(frames: seq<Frame>, decoders: Decoders, i: nat): (e: nat)
    requires i <= |frames|
    ensures i <= e <= |frames|
    ensures forall j :: i <= j < e ==> !DecodeFrame(frames[j], decoders).Malformed?
    ensures e < |frames| ==> DecodeFrame(frames[e], decoders).Malformed?
    decreases |frames| - i
  {
    if i == |frames| || DecodeFrame(frames[i], decoders).Malformed? then i
    else FirstMalformed(frames, decoders, i + 1)
  }

  /** The events carried by `frames`, in order. */
  function DecodedEvents(frames: seq<Frame>, decoders: Decoders): seq<Event> {
    if frames == [] then []
    else
      (if DecodeFrame(frames[0], decoders).Decoded? then [DecodeFrame(frames[0], decoders).event] else [])
      + DecodedEvents(frames[1..], decoders)
  }

  /**
   * The loop sends the event of every frame that carries one, in order, up
   * to the first data frame that does not decode, and stops there with an
   * error; without such a frame it keeps reading.  Each send's result is
   * recorded, whatever it is.
   */
  lemma {:induction false} ReadFromShape(s: Sender, frames: seq<Frame>, decoders: Decoders, sink: Sink, i: nat)
    requires i <= |frames|
    ensures var e := FirstMalformed(frames, decoders, i);
      var run := ReadFrom(s, frames, decoders, sink, i);
      && run.forwarded == DecodedEvents(frames[i..e], decoders)
      && |run.results| == |run.forwarded|
      && run.exit == (if e == |frames| then StillReading else DecodeFailed(e))
    decreases |frames| - i
  {
    var e := FirstMalformed(frames, decoders, i);
    if i == e {
      assert frames[i..e] == [];
    } else {
      ReadFromShape(s, frames, decoders, sink, i + 1);
      assert frames[i..e][0] == frames[i];
      assert frames[i..e][1..] == frames[i + 1..e];
    }
  }

  /** The positions in `[i, e)` of the frames that carry an event, in increasing order. */
  function EventPositions(frames: seq<Frame>, decoders: Decoders, i: nat, e: nat): (ps: seq<nat>)
    requires i <= e <= |frames|
    ensures forall j :: 0 <= j < |ps| ==> i <= ps[j] < e && DecodeFrame(frames[ps[j]], decoders).Decoded?
    ensures forall j1, j2 :: 0 <= j1 < j2 < |ps| ==> ps[j1] < ps[j2]
    decreases e - i
  {
    if i == e then []
    else if DecodeFrame(frames[i], decoders).Decoded? then
      var rest := EventPositions(frames, decoders, i + 1, e);
      assert forall j :: 0 <= j < |rest| ==> ([i] + rest)[j + 1] == rest[j];
      [i] + rest
    else EventPositions(frames, decoders, i + 1, e)
  }

  /** Every frame in `[i, e)` that carries an event has its position listed. */
  lemma {:induction false} EventPositionsComplete(frames: seq<Frame>, decoders: Decoders, i: nat, e: nat, k: nat)
    requires i <= k < e <= |frames| && DecodeFrame(frames[k], decoders).Decoded?
    ensures k in EventPositions(frames, decoders, i, e)
    decreases e - i
  {
    if k != i {
      EventPositionsComplete(frames, decoders, i + 1, e, k);
    }
  }

  /**
   * The `j`-th send of the loop is that of the `j`-th frame carrying an event
   * before the first malformed one: it forwards that frame's event, and its
   * result is what delivering that event gives on the replies of that frame.
   */
  lemma {:induction false} ReadFromResults(s: Sender, frames: seq<Frame>, decoders: Decoders, sink: Sink, i: nat)
    requires i <= |frames|
    ensures var ps := EventPositions(frames, decoders, i, FirstMalformed(frames, decoders, i));
      var run := ReadFrom(s, frames, decoders, sink, i);
      && |ps| == |run.forwarded| == |run.results|
      && forall j :: 0 <= j < |ps| ==>
           && run.forwarded[j] == DecodeFrame(frames[ps[j]], decoders).event
           && run.results[j] == Delivery(s, run.forwarded[j], sink, ps[j])
    decreases |frames| - i
  {
    var e := FirstMalformed(frames, decoders, i);
    if i < e {
      ReadFromResults(s, frames, decoders, sink, i + 1);
      if DecodeFrame(frames[i], decoders).Decoded? {
        ReadFromResultsStep(s, frames, decoders, sink, i);
      }
    }
  }

  /** The inductive step of `ReadFromResults` on a frame carrying an event. */
  lemma ReadFromResultsStep(s: Sender, frames: seq<Frame>, decoders: Decoders, sink: Sink, i: nat)
    requires i < |frames| && DecodeFrame(frames[i], decoders).Decoded?
    requires var ps' := EventPositions(frames, decoders, i + 1, FirstMalformed(frames, decoders, i + 1));
      var rest := ReadFrom(s, frames, decoders, sink, i + 1);
      && |ps'| == |rest.forwarded| == |rest.results|
      && forall j :: 0 <= j < |ps'| ==>
           && rest.forwarded[j] == DecodeFrame(frames[ps'[j]], decoders).event
           && rest.results[j] == Delivery(s, rest.forwarded[j], sink, ps'[j])
    ensures var ps := EventPositions(frames, decoders, i, FirstMalformed(frames, decoders, i));
      var run := ReadFrom(s, frames, decoders, sink, i);
      && |ps| == |run.forwarded| == |run.results|
      && forall j :: 0 <= j < |ps| ==>
           && run.forwarded[j] == DecodeFrame(frames[ps[j]], decoders).event
           && run.results[j] == Delivery(s, run.forwarded[j], sink, ps[j])
  {
    var e := FirstMalformed(frames, decoders, i);
    assert FirstMalformed(frames, decoders, i + 1) == e;
    var ps', rest := EventPositions(frames, decoders, i + 1, e), ReadFrom(s, frames, decoders, sink, i + 1);
    var ps, run := EventPositions(frames, decoders, i, e), ReadFrom(s, frames, decoders, sink, i);
    var d := DecodeFrame(frames[i], decoders);
    assert ps == [i] + ps';
    assert run.forwarded == [d.event] + rest.forwarded;
    assert run.results == [Delivery(s, d.event, sink, i)] + rest.results;
    forall j | 1 <= j < |ps|
      ensures run.forwarded[j] == DecodeFrame(frames[ps[j]], decoders).event
      ensures run.results[j] == Delivery(s, run.forwarded[j], sink, ps[j])
    {
      assert ps[j] == ps'[j - 1];
      assert run.forwarded[j] == rest.forwarded[j - 1];
      assert run.results[j] == rest.results[j - 1];
    }
  }

  /**
   * A failed send never changes what is read or forwarded next: with any two
   * sinks the loop forwards the same events and ends the same way.
   */
  lemma {:induction false} SendFailuresDoNotStop(s: Sender, frames: seq<Frame>, decoders: Decoders, sink1: Sink, sink2: Sink, i: nat)
    requires i <= |frames|
    ensures ReadFrom(s, frames, decoders, sink1, i).forwarded == ReadFrom(s, frames, decoders, sink2, i).forwarded
    ensures ReadFrom(s, frames, decoders, sink1, i).exit == ReadFrom(s, frames, decoders, sink2, i).exit
    decreases |frames| - i
  {
    if i < |frames| && !DecodeFrame(frames[i], decoders).Malformed? {
      SendFailuresDoNotStop(s, frames, decoders, sink1, sink2, i + 1);
    }
  }

  /**
   * Only a data frame that does not decode ends the loop: the loop ends
   * exactly when there is one, at the first of them.
   */
  lemma OnlyMalformedFrameEnds(s: Sender, frames: seq<Frame>, decoders: Decoders, sink: Sink)
    ensures ReadFrom(s, frames, decoders, sink, 0).exit.DecodeFailed? <==>
              exists j :: 0 <= j < |frames| && DecodeFrame(frames[j], decoders).Malformed?
    ensures ReadFrom(s, frames, decoders, sink, 0).exit.DecodeFailed? ==>
              var e := ReadFrom(s, frames, decoders, sink, 0).exit.at;
              e < |frames| && DecodeFrame(frames[e], decoders).Malformed? &&
              forall j :: 0 <= j < e ==> !DecodeFrame(frames[j], decoders).Malformed?
  {
    ReadFromShape(s, frames, decoders, sink, 0);
  }

  /**
   * A text frame that is not an event ends the loop with an error; the frame
   * after it is never read.
   */
  lemma MalformedTextEndsLoop(s: Sender, bad: string, next: Frame, decoders: Decoders, sink: Sink)
    requires decoders.text(bad).None?
    ensures ReadFrom(s, [Text(bad), next], decoders, sink, 0) == WsRun([], [], DecodeFailed(0))
  {
  }

  /**
   * A control frame between two events is ignored, and a send that gives up
   * on the first event does not keep the second from being sent.
   */
  lemma SendFailureThenNextFrame(s: Sender, t1: string, e1: Event, t2: string, e2: Event, decoders: Decoders, sink: Sink)
    requires decoders.text(t1) == Some(e1) && decoders.text(t2) == Some(e2)
    requires Delivery(s, e1, sink, 0).GaveUp?
    ensures var run := ReadFrom(s, [Text(t1), Ping, Text(t2)], decoders, sink, 0);
      && run.forwarded == [e1, e2]
      && run.results == [Delivery(s, e1, sink, 0), Delivery(s, e2, sink, 2)]
      && run.exit == StillReading
  {
    var frames := [Text(t1), Ping, Text(t2)];
    assert ReadFrom(s, frames, decoders, sink, 3) == WsRun([], [], StillReading);
    assert ReadFrom(s, frames, decoders, sink, 2) == WsRun([e2], [Delivery(s, e2, sink, 2)], StillReading);
    assert ReadFrom(s, frames, decoders, sink, 1) == ReadFrom(s, frames, decoders, sink, 2);
  }
}
