/**
 * The Kafka ingestion loop (`kafka` in src/main.rs): each message whose
 * event is delivered has its offset stored for the next commit; a message
 * that cannot be decoded is skipped; any other failure ends the loop, and
 * the offset of the message that failed is not stored.
 *
 * The stream is a finite sequence of items (its end is the end of the
 * stream); the client's verdict on storing the offset of item `i` is the
 * oracle `storeAccepted(i)`.
 */
module KafkaPipeline {
  import opened Wrappers
  import opened Config
  import opened Forwarding
  import opened Startup

  /** The position of a message in its partition. */
  datatype Offset = Offset(partition: nat, offset: nat)

  /** One item pulled from the stream. */
  datatype StreamItem = ReceiveError | DecodeError | Message(offset: Offset, event: Event)

  /** Why the loop ended; `kafka` logs it and returns success in every case. */
  datatype LoopExit = EndOfStream | ReceiveFailed(at: nat) | DeliveryFailed(at: nat) | StoreFailed(at: nat)

  datatype KafkaError = ClientFailed

  /** The consumer state the application controls: the offsets stored so far, in storing order. */
  class Consumer {
    var stored: seq<Offset>

    constructor ()
      ensures stored == []
    {
      stored := [];
    }

    /** Stores `offset` for the next commit when the client accepts it. */
    method StoreOffset(offset: Offset, accepted: bool) returns (ok: bool)
      modifies this
      ensures ok == accepted
      ensures stored == if accepted then old(stored) + [offset] else old(stored)
    {
      ok := accepted;
      if accepted {
        stored := stored + [offset];
      }
    }
  }

  datatype KafkaRun = KafkaRun(stored: seq<Offset>, sent: seq<Event>, exit: LoopExit)

  /** The loop from item `i` on: the reference definition of `Consume`. */
  function ConsumeFrom(s: Sender, items: seq<StreamItem>, sink: Sink, storeAccepted: nat -> bool, i: nat): KafkaRun
    requires i <= |items|
    decreases |items| - i
  {
    if i == |items| then KafkaRun([], [], EndOfStream)
    else
      match items[i]
      case ReceiveError => KafkaRun([], [], ReceiveFailed(i))
      case DecodeError => ConsumeFrom(s, items, sink, storeAccepted, i + 1)
      case Message(offset, event) =>
        if Delivery(s, event, sink, i).GaveUp? then KafkaRun([], [event], DeliveryFailed(i))
        else if !storeAccepted(i) then KafkaRun([], [event], StoreFailed(i))
        else
          var rest := ConsumeFrom(s, items, sink, storeAccepted, i + 1);
          KafkaRun([offset] + rest.stored, [event] + rest.sent, rest.exit)
  }

  /** One turn of the loop on a message item. */
  lemma ConsumeStep(s: Sender, items: seq<StreamItem>, sink: Sink, storeAccepted: nat -> bool, i: nat)
    requires i < |items| && items[i].Message?
    ensures var run := ConsumeFrom(s, items, sink, storeAccepted, i);
      var event := items[i].event;
      if Delivery(s, event, sink, i).GaveUp? then run == KafkaRun([], [event], DeliveryFailed(i))
      else if !storeAccepted(i) then run == KafkaRun([], [event], StoreFailed(i))
      else
        var rest := ConsumeFrom(s, items, sink, storeAccepted, i + 1);
        run == KafkaRun([items[i].offset] + rest.stored, [event] + rest.sent, rest.exit)
  {
  }

  /**
   * The loop's bookkeeping after a message was delivered and its offset
   * stored: what is still to come is the run from the next item.
   */
  lemma ConsumeAdvance(s: Sender, items: seq<StreamItem>, sink: Sink, storeAccepted: nat -> bool, i: nat,
                       whole: KafkaRun, added: seq<Offset>, sent: seq<Event>)
    requires i < |items| && items[i].Message?
    requires Delivery(s, items[i].event, sink, i).Done? && storeAccepted(i)
    requires whole.stored == added + ConsumeFrom(s, items, sink, storeAccepted, i).stored
    requires whole.sent == sent + ConsumeFrom(s, items, sink, storeAccepted, i).sent
    requires whole.exit == ConsumeFrom(s, items, sink, storeAccepted, i).exit
    ensures whole.stored == (added + [items[i].offset]) + ConsumeFrom(s, items, sink, storeAccepted, i + 1).stored
    ensures whole.sent == (sent + [items[i].event]) + ConsumeFrom(s, items, sink, storeAccepted, i + 1).sent
    ensures whole.exit == ConsumeFrom(s, items, sink, storeAccepted, i + 1).exit
  {
    var rest := ConsumeFrom(s, items, sink, storeAccepted, i + 1);
    ConsumeStep(s, items, sink, storeAccepted, i);
    assert added + ([items[i].offset] + rest.stored) == (added + [items[i].offset]) + rest.stored;
    assert sent + ([items[i].event] + rest.sent) == (sent + [items[i].event]) + rest.sent;
  }

  /** The stream loop: pull, decode, send, store the offset. */
  method Consume(consumer: Consumer, s: Sender, items: seq<StreamItem>, sink: Sink, storeAccepted: nat -> bool)
    returns (exit: LoopExit, sent: seq<Event>)
    modifies consumer
    ensures var run := ConsumeFrom(s, items, sink, storeAccepted, 0);
      consumer.stored == old(consumer.stored) + run.stored && sent == run.sent && exit == run.exit
  {
    var i := 0;
    sent := [];
    ghost var added: seq<Offset> := [];
    ghost var storedBefore := consumer.stored;
    ghost var whole := ConsumeFrom(s, items, sink, storeAccepted, 0);
    while true
      invariant 0 <= i <= |items|
      invariant consumer.stored == storedBefore + added
      invariant whole.stored == added + ConsumeFrom(s, items, sink, storeAccepted, i).stored
      invariant whole.sent == sent + ConsumeFrom(s, items, sink, storeAccepted, i).sent
      invariant whole.exit == ConsumeFrom(s, items, sink, storeAccepted, i).exit
      decreases |items| - i
    {
      if i == |items| {
        exit := EndOfStream;
        break;
      }
      var item := items[i];
      if item.ReceiveError? {
        exit := ReceiveFailed(i);
        break;
      }
      if item.DecodeError? {
        i := i + 1;
        continue;
      }
      var result, _ := Send(s, item.event, sink.encodes(item.event), sink.replies(i));
      ConsumeStep(s, items, sink, storeAccepted, i);
      ghost var sentBefore := sent;
      sent := sent + [item.event];
      if result.GaveUp? {
        exit := DeliveryFailed(i);
        break;
      }
      var ok := consumer.StoreOffset(item.offset, storeAccepted(i));
      if !ok {
        exit := StoreFailed(i);
        break;
      }
      ConsumeAdvance(s, items, sink, storeAccepted, i, whole, added, sentBefore);
      added := added + [item.offset];
      i := i + 1;
    }
  }

  /**
   * `kafka`: the client configuration is built, the consumer created and
   * subscribed (whether the client accepts that is `clientOk`), then the
   * stream is consumed.  Once the loop has started the result is success,
   * whichever way the loop ended.
   */
  method Kafka(config: KafkaConfig, s: Sender, order: seq<string>, clientOk: bool,
               items: seq<StreamItem>, sink: Sink, storeAccepted: nat -> bool)
    returns (r: Result<(), KafkaError>, client: ClientConfig, consumer: Consumer?, exit: Option<LoopExit>)
    requires IsOrderOf(config.properties, order)
    ensures fresh(client) && client.entries == ClientProperties(config, order)
    ensures r.Err? <==> !clientOk
    ensures !clientOk ==> consumer == null && exit == None
    ensures clientOk ==> var run := ConsumeFrom(s, items, sink, storeAccepted, 0);
      consumer != null && fresh(consumer) && consumer.stored == run.stored && exit == Some(run.exit)
  {
    client := KafkaClientConfig(config, order);
    if !clientOk {
      return Err(ClientFailed), client, null, None;
    }
    consumer := new Consumer();
    var loopExit, _ := Consume(consumer, s, items, sink, storeAccepted);
    exit := Some(loopExit);
    r := Ok(());
  }

  // ---------------------------------------------------------------------------
  // Properties of the loop

  /** Whether item `j` ends the loop. */
  predicate Stops(s: Sender, items: seq<StreamItem>, sink: Sink, storeAccepted: nat -> bool, j: nat)
    requires j < |items|
  {
    || items[j].ReceiveError?
    || (items[j].Message? && (Delivery(s, items[j].event, sink, j).GaveUp? || !storeAccepted(j)))
  }

  /** The index of the first item from `i` on that ends the loop, or the end of the stream. */
  function FirstStop(s: Sender, items: seq<StreamItem>, sink: Sink, storeAccepted: nat -> bool, i: nat): (e: nat)
    requires i <= |items|
    ensures i <= e <= |items|
    ensures forall j :: i <= j < e ==> !Stops(s, items, sink, storeAccepted, j)
    ensures e < |items| ==> Stops(s, items, sink, storeAccepted, e)
    decreases |items| - i
  {
    if i == |items| || Stops(s, items, sink, storeAccepted, i) then i
    else FirstStop(s, items, sink, storeAccepted, i + 1)
  }

  /** The offsets of the messages among `items`, in stream order. */
  function MessageOffsets(items: seq<StreamItem>): seq<Offset> {
    if items == [] then []
    else (if items[0].Message? then [items[0].offset] else []) + MessageOffsets(items[1..])
  }

  /** The events of the messages among `items`, in stream order. */
  function MessageEvents(items: seq<StreamItem>): seq<Event> {
    if items == [] then []
    else (if items[0].Message? then [items[0].event] else []) + MessageEvents(items[1..])
  }

  /** How the loop ends when it stops at item `e`. */
  function ExitAt(items: seq<StreamItem>, sink: Sink, s: Sender, e: nat): LoopExit
    requires e <= |items|
  {
    if e == |items| then EndOfStream
    else if items[e].ReceiveError? then ReceiveFailed(e)
    else if items[e].Message? && Delivery(s, items[e].event, sink, e).GaveUp? then DeliveryFailed(e)
    else StoreFailed(e)
  }

  lemma MessageOffsetsStep(items: seq<StreamItem>, i: nat, e: nat)
    requires i < e <= |items|
    ensures MessageOffsets(items[i..e]) ==
              (if items[i].Message? then [items[i].offset] else []) + MessageOffsets(items[i + 1..e])
    ensures MessageEvents(items[i..e]) ==
              (if items[i].Message? then [items[i].event] else []) + MessageEvents(items[i + 1..e])
  {
    assert items[i..e][0] == items[i];
    assert items[i..e][1..] == items[i + 1..e];
  }

  /**
   * The loop from item `i`: it stores the offsets and sends the events of
   * the messages up to the first stopping item `e`, sends the event of the
   * message at `e` (if it is one) without storing its offset, and ends as
   * item `e` dictates.
   */
  lemma {:induction false} ConsumeFromShape(s: Sender, items: seq<StreamItem>, sink: Sink, storeAccepted: nat -> bool, i: nat)
    requires i <= |items|
    ensures var e := FirstStop(s, items, sink, storeAccepted, i);
      var run := ConsumeFrom(s, items, sink, storeAccepted, i);
      && run.stored == MessageOffsets(items[i..e])
      && run.sent == MessageEvents(items[i..e]) + (if e < |items| && items[e].Message? then [items[e].event] else [])
      && run.exit == ExitAt(items, sink, s, e)
    decreases |items| - i
  {
    var e := FirstStop(s, items, sink, storeAccepted, i);
    if i == e {
      assert items[i..e] == [];
    } else {
      ConsumeFromShape(s, items, sink, storeAccepted, i + 1);
      MessageOffsetsStep(items, i, e);
      assert FirstStop(s, items, sink, storeAccepted, i + 1) == e;
    }
  }

  /**
   * The at-least-once guarantee of the loop: it stops at the first item `e`
   * that fails fatally (or at the end of the stream); the stored offsets are
   * exactly those of the messages before `e`, in stream order; each of those
   * messages was delivered (its send returned success) and its offset store
   * accepted; items that did not decode were skipped; and the message at `e`,
   * if any, has its offset not stored.
   */
  lemma StoredOffsetsFollowDelivery(s: Sender, items: seq<StreamItem>, sink: Sink, storeAccepted: nat -> bool)
    ensures var e := FirstStop(s, items, sink, storeAccepted, 0);
      var run := ConsumeFrom(s, items, sink, storeAccepted, 0);
      && run.stored == MessageOffsets(items[..e])
      && (forall j :: 0 <= j < e && items[j].Message? ==>
            Delivery(s, items[j].event, sink, j) == Done && storeAccepted(j))
      && (forall j :: 0 <= j < e ==> !items[j].ReceiveError?)
      && (run.exit == EndOfStream <==> e == |items|)
      && (e < |items| ==> run.exit.at == e)
      && (run.exit.DeliveryFailed? ==> items[e].Message? && Delivery(s, items[e].event, sink, e).GaveUp?)
      && (run.exit.ReceiveFailed? ==> items[e].ReceiveError?)
  {
    var e := FirstStop(s, items, sink, storeAccepted, 0);
    ConsumeFromShape(s, items, sink, storeAccepted, 0);
    assert items[0..e] == items[..e];
    forall j | 0 <= j < e
      ensures !items[j].ReceiveError?
      ensures items[j].Message? ==> Delivery(s, items[j].event, sink, j) == Done && storeAccepted(j)
    {
      assert !Stops(s, items, sink, storeAccepted, j);
    }
  }

  /**
   * Three messages, the second of which does not decode: the loop runs to the
   * end of the stream and the offsets of the first and third are stored.
   */
  lemma UndecodableMessageSkipped(s: Sender, o1: Offset, e1: Event, o3: Offset, e3: Event, sink: Sink, storeAccepted: nat -> bool)
    requires Delivery(s, e1, sink, 0) == Done && Delivery(s, e3, sink, 2) == Done
    requires storeAccepted(0) && storeAccepted(2)
    ensures ConsumeFrom(s, [Message(o1, e1), DecodeError, Message(o3, e3)], sink, storeAccepted, 0)
            == KafkaRun([o1, o3], [e1, e3], EndOfStream)
  {
    var items := [Message(o1, e1), DecodeError, Message(o3, e3)];
    assert ConsumeFrom(s, items, sink, storeAccepted, 3) == KafkaRun([], [], EndOfStream);
    assert ConsumeFrom(s, items, sink, storeAccepted, 2) == KafkaRun([o3], [e3], EndOfStream);
    assert ConsumeFrom(s, items, sink, storeAccepted, 1) == KafkaRun([o3], [e3], EndOfStream);
  }

  /**
   * The first message is delivered and the second exhausts its retries: the
   * loop ends there with only the first offset stored, so the second message
   * is consumed again after a restart.
   */
  lemma ExhaustedMessageNotStored(s: Sender, o1: Offset, e1: Event, o2: Offset, e2: Event,
                                  rest: seq<StreamItem>, sink: Sink, storeAccepted: nat -> bool)
    requires Delivery(s, e1, sink, 0) == Done && storeAccepted(0)
    requires sink.encodes(e2)
    requires forall a :: 1 <= a <= s.config.retries + 1 ==> IsTemporary(sink.replies(1)(a))
    ensures ConsumeFrom(s, [Message(o1, e1), Message(o2, e2)] + rest, sink, storeAccepted, 0)
            == KafkaRun([o1], [e1, e2], DeliveryFailed(1))
  {
    GivesUpWhenAllTemporary(s, e2, sink.replies(1));
  }
}
