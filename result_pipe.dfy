/**
 The result channel listener: a pipe attached to a room's `data_received`
 event that keeps packets on three topics, decodes them into `ModelResult`s
 and emits one `message_received` event for each.

 The room is not modelled: being registered with it is the `subscribed` flag,
 a delivered packet is a call of `DataReceived`, publishing appends to
 `outbox`, and the emitted events are the `events` log. `json.loads` is the
 oracle `parse`, fixed when the pipe is built.
 */
module Pipe {
  import opened Wrappers
  import opened Json
  import opened Records

  const ClassifierResultTopic: string := "classifier-result-topic"
  const DetectorResultTopic: string := "detector-result-topic"
  const TrackerResultTopic: string := "tracker-result-topic"
  const TopicsList: seq<string> := [ClassifierResultTopic, DetectorResultTopic, TrackerResultTopic]

  /** `topic in TOPICS_LIST`: exactly the three result topics. */
  predicate IsRecognisedTopic(topic: string)
    ensures IsRecognisedTopic(topic) <==>
              topic == "classifier-result-topic" || topic == "detector-result-topic" || topic == "tracker-result-topic"
  {
    topic in TopicsList
  }

  /** Each of the three result topics is recognised; `unrelated-topic` is not. */
  lemma RecognisedTopics()
    ensures IsRecognisedTopic(ClassifierResultTopic)
    ensures IsRecognisedTopic(DetectorResultTopic)
    ensures IsRecognisedTopic(TrackerResultTopic)
    ensures !IsRecognisedTopic("unrelated-topic")
  {
  }

  /** One packet as the room hands it over, with the clock and id oracles of that moment. */
  datatype Delivery = Delivery(topic: string, data: string, now: int, freshId: string)

  /** Why the handler raises instead of emitting. */
  datatype PacketError =
    | PayloadNotJson                 // json.loads(pkt.data) fails
    | PayloadNotObject               // the payload has no .get
    | BadRecord(cause: DecodeError)  // from_jsondict raises
    | MessageNotText                 // json.loads(result.message) on a non-string
    | MessageNotJson                 // the message text does not parse
    | BadMetadataTimestamp       // ["metadata"]["timestamp"] missing, or no number a float can hold

  datatype HandlerOutcome = Ignored | Emitted(record: ModelResult) | Raised(error: PacketError)

  /** `v[k1][k2]...`: None when a step meets something that is not a dict, or a missing key. */
  function Path(v: Value, keys: seq<string>): (found: Option<Value>)
    decreases |keys|
  {
    if keys == [] then Some(v)
    else if v.JObj? && keys[0] in v.fields then Path(v.fields[keys[0]], keys[1..])
    else None
  }

  /**
   The message body carries a `metadata.timestamp` that float arithmetic
   accepts: the lookup `body["metadata"]["timestamp"]` and the latency
   subtraction `time.time() - ts` do not raise.
   */
  predicate HasMetadataTimestamp(body: Value)
    ensures HasMetadataTimestamp(body) <==>
              Path(body, ["metadata", "timestamp"]).Some? && ConvertsToFloat(Path(body, ["metadata", "timestamp"]).value)
    ensures HasMetadataTimestamp(body) ==> IsNumber(body.fields["metadata"].fields["timestamp"])
  {
    && body.JObj?
    && "metadata" in body.fields
    && body.fields["metadata"].JObj?
    && "timestamp" in body.fields["metadata"].fields
    && ConvertsToFloat(body.fields["metadata"].fields["timestamp"])
  }

  /** The message text parses to a body that carries `metadata.timestamp`. */
  predicate MessageCarriesMetadata(message: Value, parse: string -> Option<Value>) {
    message.JStr? && parse(message.s).Some? && HasMetadataTimestamp(parse(message.s).value)
  }

  /** The record a packet's data decodes to, when it decodes. */
  predicate DecodesTo(p: Delivery, parse: string -> Option<Value>, r: ModelResult) {
    && parse(p.data).Some?
    && parse(p.data).value.JObj?
    && FromJsonDict(parse(p.data).value.fields, p.now, p.freshId) == Ok(r)
  }

  /**
   `_on_data_received`: a packet off the three topics is ignored; one on them is
   decoded, its message's metadata is checked (the latency report), and the
   record is emitted, unless one of those steps raises first.
   */
  function OnDataReceived(p: Delivery, parse: string -> Option<Value>): (o: HandlerOutcome)
    ensures o.Ignored? <==> !IsRecognisedTopic(p.topic)
    ensures o.Emitted? ==> DecodesTo(p, parse, o.record) && MessageCarriesMetadata(o.record.message, parse)
  {
    if !IsRecognisedTopic(p.topic) then Ignored
    else match parse(p.data)
      case None => Raised(PayloadNotJson)
      case Some(payload) =>
        if !payload.JObj? then Raised(PayloadNotObject)
        else match FromJsonDict(payload.fields, p.now, p.freshId)
          case Err(e) => Raised(BadRecord(e))
          case Ok(result) =>
            if !result.message.JStr? then Raised(MessageNotText)
            else match parse(result.message.s)
              case None => Raised(MessageNotJson)
              case Some(body) =>
                if HasMetadataTimestamp(body) then Emitted(result) else Raised(BadMetadataTimestamp)
  }

  /** A packet on a recognised topic whose data decodes, with metadata in its message, is emitted as decoded. */
  lemma AcceptedPacketIsEmitted(p: Delivery, parse: string -> Option<Value>, r: ModelResult)
    requires IsRecognisedTopic(p.topic)
    requires DecodesTo(p, parse, r)
    requires MessageCarriesMetadata(r.message, parse)
    ensures OnDataReceived(p, parse) == Emitted(r)
  {
  }

  /**
   A decoded packet whose message carries an integer `metadata.timestamp` too
   large for a float raises in the latency subtraction: nothing is emitted.
   */
  lemma HugeMetadataTimestampRaises(p: Delivery, parse: string -> Option<Value>, r: ModelResult, body: Value, i: int)
    requires IsRecognisedTopic(p.topic)
    requires DecodesTo(p, parse, r)
    requires r.message.JStr? && parse(r.message.s) == Some(body)
    requires Path(body, ["metadata", "timestamp"]) == Some(JInt(i))
    requires i >= FloatOverflowBound || i <= -FloatOverflowBound
    ensures OnDataReceived(p, parse) == Raised(BadMetadataTimestamp)
  {
  }

  /** The events one handler run emits. */
  function Emission(o: HandlerOutcome): (e: seq<ModelResult>) {
    if o.Emitted? then [o.record] else []
  }

  /** The events emitted for the packets `ps`, delivered in order to an attached pipe. */
  function Trace(ps: seq<Delivery>, parse: string -> Option<Value>): (t: seq<ModelResult>)
    ensures |t| <= |ps|
  {
    if ps == [] then []
    else Trace(ps[..|ps| - 1], parse) + Emission(OnDataReceived(ps[|ps| - 1], parse))
  }

  /** A packet published with `publish_data`: its topic and the dictionary serialised as payload. */
  datatype Publication = Publication(topic: string, payload: Object)

  class ResultPipe {
    const parse: string -> Option<Value>
    var subscribed: bool
    var events: seq<ModelResult>
    var outbox: seq<Publication>
    // the packets the room delivered while the handler was registered
    ghost var heard: seq<Delivery>

    ghost predicate Valid()
      reads this
    {
      events == Trace(heard, parse)
    }

    /** `__init__`: registers the handler with the room. */
    constructor (parse: string -> Option<Value>)
      ensures Valid()
      ensures this.parse == parse
      ensures subscribed && events == [] && outbox == [] && heard == []
    {
      this.parse := parse;
      subscribed := true;
      events := [];
      outbox := [];
      heard := [];
    }

    /** `close`: unregisters the handler; a detached pipe never attaches again. */
    method Close()
      requires Valid()
      modifies this
      ensures Valid()
      ensures !subscribed
      ensures events == old(events) && outbox == old(outbox) && heard == old(heard)
    {
      subscribed := false;
    }

    /** `send_message`: builds a local record and publishes its wire form on `topic`. */
    method SendMessage(message: string, topic: string, now: int, freshId: string) returns (datum: ModelResult)
      requires IsRecognisedTopic(topic)
      requires Valid()
      modifies this
      ensures Valid()
      ensures datum.message == JStr(message) && datum.isLocal && datum.id == JStr(freshId)
      ensures datum.timestamp == now && datum.deleted == JBool(false)
      ensures outbox == old(outbox) + [Publication(topic, AsJsonDict(datum))]
      ensures subscribed == old(subscribed) && events == old(events) && heard == old(heard)
    {
      datum := NewLocalResult(message, now, freshId);
      outbox := outbox + [Publication(topic, AsJsonDict(datum))];
    }

    /**
     The room delivers packet `p`: the handler runs only while registered, and
     `outcome` is what it did (None when it was not called).
     */
    method DataReceived(p: Delivery) returns (outcome: Option<HandlerOutcome>)
      requires Valid()
      modifies this
      ensures Valid()
      ensures outcome == if old(subscribed) then Some(OnDataReceived(p, parse)) else None
      ensures heard == old(heard) + (if old(subscribed) then [p] else [])
      ensures events == old(events) + (if old(subscribed) then Emission(OnDataReceived(p, parse)) else [])
      ensures subscribed == old(subscribed) && outbox == old(outbox)
    {
      if subscribed {
        var o := OnDataReceived(p, parse);
        outcome := Some(o);
        events := events + Emission(o);
        heard := heard + [p];
        assert heard[..|heard| - 1] == old(heard);
      } else {
        outcome := None;
      }
    }
  }

  /** Events of consecutive batches of packets come out in the order of the batches. */
  lemma {:induction false} TraceAppend(ps: seq<Delivery>, qs: seq<Delivery>, parse: string -> Option<Value>)
    ensures Trace(ps + qs, parse) == Trace(ps, parse) + Trace(qs, parse)
    decreases |qs|
  {
    if qs == [] {
      assert ps + qs == ps;
    } else {
      var last := qs[|qs| - 1];
      var front := qs[..|qs| - 1];
      assert (ps + qs)[..|ps + qs| - 1] == ps + front;
      TraceAppend(ps, front, parse);
    }
  }

  /** Packets on unrecognised topics alone emit nothing. */
  lemma {:induction false} TraceIgnoresUnrecognised(ps: seq<Delivery>, parse: string -> Option<Value>)
    requires forall i :: 0 <= i < |ps| ==> !IsRecognisedTopic(ps[i].topic)
    ensures Trace(ps, parse) == []
  {
    if ps != [] {
      TraceIgnoresUnrecognised(ps[..|ps| - 1], parse);
    }
  }

  /** The events for a batch are the events for its prefix followed by the one for packet `i`. */
  lemma TracePrefix(ps: seq<Delivery>, i: nat, parse: string -> Option<Value>)
    requires i < |ps|
    ensures Trace(ps[..i + 1], parse) == Trace(ps[..i], parse) + Emission(OnDataReceived(ps[i], parse))
  {
    assert ps[..i + 1][..i] == ps[..i];
  }

  /** The record emitted for packet `i` sits right after the events of the packets before it. */
  lemma EmittedAt(ps: seq<Delivery>, i: nat, parse: string -> Option<Value>)
    requires i < |ps|
    requires OnDataReceived(ps[i], parse).Emitted?
    ensures |Trace(ps[..i], parse)| < |Trace(ps[..i + 1], parse)| <= |Trace(ps, parse)|
    ensures Trace(ps, parse)[|Trace(ps[..i], parse)|] == OnDataReceived(ps[i], parse).record
  {
    var rec := OnDataReceived(ps[i], parse).record;
    TracePrefix(ps, i, parse);
    SplitTrace(ps, i + 1, parse);
    PrefixThenElement(Trace(ps[..i], parse), rec, Trace(ps[i + 1..], parse));
  }

  /** Splitting a batch at `k` splits its events. */
  lemma SplitTrace(ps: seq<Delivery>, k: nat, parse: string -> Option<Value>)
    requires k <= |ps|
    ensures Trace(ps, parse) == Trace(ps[..k], parse) + Trace(ps[k..], parse)
  {
    SliceJoin(ps, k);
    TraceAppend(ps[..k], ps[k..], parse);
  }

  // split out of SplitTrace so that the TraceOrder proof stays within the resource limit
  lemma SliceJoin<T>(s: seq<T>, k: nat)
    requires k <= |s|
    ensures s[..k] + s[k..] == s
  {
  }

  // split out of EmittedAt so that the TraceOrder proof stays within the resource limit
  lemma PrefixThenElement<T>(s: seq<T>, x: T, u: seq<T>)
    ensures (s + [x] + u)[|s|] == x
  {
  }

  /**
   Ordering: when packets `i < j` both emit, the record of `i` comes before the
   record of `j` among the emitted events.
   */
  lemma TraceOrder(ps: seq<Delivery>, i: nat, j: nat, parse: string -> Option<Value>)
    requires i < j < |ps|
    requires OnDataReceived(ps[i], parse).Emitted? && OnDataReceived(ps[j], parse).Emitted?
    ensures exists a, b :: 0 <= a < b < |Trace(ps, parse)|
                          && Trace(ps, parse)[a] == OnDataReceived(ps[i], parse).record
                          && Trace(ps, parse)[b] == OnDataReceived(ps[j], parse).record
  {
    EmittedAt(ps, i, parse);
    EmittedAt(ps, j, parse);
    var pj := ps[..j];
    EmittedAt(pj, i, parse);
    assert pj[..i] == ps[..i] && pj[..i + 1] == ps[..i + 1];
    var a := |Trace(ps[..i], parse)|;
    var b := |Trace(ps[..j], parse)|;
    assert a < b;
  }

  /**
   A sent plain-text message such as "hello" decodes with `from_jsondict`, but
   the handler then runs `json.loads` on its text; when that fails it raises
   and emits nothing, even on a recognised topic.
   */
  lemma PlainTextMessageIsNotEmitted(p: Delivery, parse: string -> Option<Value>, message: string, now: int, freshId: string)
    requires IsRecognisedTopic(p.topic)
    requires parse(p.data) == Some(JObj(AsJsonDict(NewLocalResult(message, now, freshId))))
    requires parse(message) == None
    ensures OnDataReceived(p, parse) == Raised(MessageNotJson)
    ensures Emission(OnDataReceived(p, parse)) == []
  {
    SentRecordDecodes(message, now, freshId, p.now, p.freshId);
  }

  /**
   A packet on a recognised topic whose data is the wire form of a record with
   JSON-text metadata is emitted as that record, decoded.
   */
  lemma SentRecordIsEmitted(p: Delivery, parse: string -> Option<Value>, r: ModelResult)
    requires IsRecognisedTopic(p.topic)
    requires WellFormed(r) && MillisOf(r.timestamp) != 0
    requires parse(p.data) == Some(JObj(AsJsonDict(r)))
    requires MessageCarriesMetadata(r.message, parse)
    ensures OnDataReceived(p, parse) == Emitted(r.(timestamp := MillisOf(r.timestamp) * 1000, isLocal := false))
  {
    RoundTripWellFormed(r, p.now, p.freshId);
  }
}
