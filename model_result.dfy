/**
 The `ModelResult` record and its sparse JSON-dictionary wire form.

 `id`, `message` and `deleted` hold whatever JSON value the wire carried: the
 record's type hints are not enforced, so `d.get("deleted", False)` keeps a
 `"yes"` or a `null` as it is. `timestamp` is the record's point in time as an
 integer number of microseconds since the epoch, the resolution of a Python
 `datetime`. The `participant` field is not modelled.
 */
module Records {
  import opened Wrappers
  import opened Json

  datatype ModelResult = ModelResult(
    message: Value,
    id: Value,
    timestamp: int,
    deleted: Value,
    isLocal: bool)

  /** What `from_jsondict` raises on: a truthy `timestamp` that is not a number. */
  datatype DecodeError = TimestampNotNumber(found: Value)

  /** A record as this program builds it: a non-empty id and a boolean `deleted`. */
  predicate WellFormed(r: ModelResult) {
    Truthy(r.id) && r.deleted.JBool?
  }

  /**
   `int(t.timestamp() * 1000)` for a time `us` microseconds after the epoch:
   the milliseconds, truncated toward zero as Python's `int` does.
   */
  function MillisOf(us: int): (ms: int)
    ensures us >= 0 ==> 0 <= us - 1000 * ms < 1000
    ensures us < 0 ==> -1000 < us - 1000 * ms <= 0
    ensures us >= 0 ==> ms >= 0
    ensures us < 0 ==> ms <= 0
  {
    if us >= 0 then us / 1000 else -((-us) / 1000)
  }

  /** The rounding `datetime.fromtimestamp` applies to microseconds: to nearest, ties to even. */
  function RoundHalfEven(y: real): (n: int)
    ensures -0.5 <= y - n as real <= 0.5
    ensures (y - n as real == 0.5 || y - n as real == -0.5) ==> n % 2 == 0
  {
    var f := y.Floor;
    var frac := y - f as real;
    if frac < 0.5 then f
    else if frac > 0.5 then f + 1
    else if f % 2 == 0 then f
    else f + 1
  }

  /** `datetime.fromtimestamp(v / 1000.0)` for a truthy wire timestamp `v`, in microseconds. */
  function MicrosOfWire(v: Value): (r: Result<int, DecodeError>)
    ensures r.Ok? <==> IsNumber(v)
    ensures r.Err? ==> r.error == TimestampNotNumber(v)
    ensures v.JInt? ==> r == Ok(v.i * 1000)
    ensures v == JBool(true) ==> r == Ok(1000)
    ensures v.JFloat? ==> r.Ok? && -0.5 <= v.x * 1000.0 - r.value as real <= 0.5
  {
    match v
    case JInt(i) => Ok(i * 1000)
    case JBool(b) => Ok(if b then 1000 else 0)
    case JFloat(x) => Ok(RoundHalfEven(x * 1000.0))
    case _ => Err(TimestampNotNumber(v))
  }

  /**
   `update_from_jsondict`: `message` becomes the wire value (None when the key
   is absent) and `deleted` the wire value (False when absent); nothing else moves.
   */
  function UpdateFromJsonDict(r: ModelResult, d: Object): (u: ModelResult)
    ensures "message" in d ==> u.message == d["message"]
    ensures "message" !in d ==> u.message == JNull
    ensures "deleted" in d ==> u.deleted == d["deleted"]
    ensures "deleted" !in d ==> u.deleted == JBool(false)
    ensures u.id == r.id && u.timestamp == r.timestamp && u.isLocal == r.isLocal
  {
    r.(message := Get(d, "message", JNull), deleted := Get(d, "deleted", JBool(false)))
  }

  /**
   `from_jsondict` with the clock reading `now` and the id `freshId` that
   `get_unique_id` would return, both taken as inputs.
   */
  function FromJsonDict(d: Object, now: int, freshId: string): (r: Result<ModelResult, DecodeError>)
    // the only failure: a truthy timestamp that is no number
    ensures r.Err? <==> "timestamp" in d && Truthy(d["timestamp"]) && !IsNumber(d["timestamp"])
    ensures r.Err? ==> r.error == TimestampNotNumber(d["timestamp"])
    // a present, truthy id is kept; otherwise the fresh one is used
    ensures r.Ok? && "id" in d && Truthy(d["id"]) ==> r.value.id == d["id"]
    ensures r.Ok? && ("id" !in d || !Truthy(d["id"])) ==> r.value.id == JStr(freshId)
    // the timestamp is the wire milliseconds when truthy, and now otherwise (0 included)
    ensures r.Ok? && ("timestamp" !in d || !Truthy(d["timestamp"])) ==> r.value.timestamp == now
    ensures "timestamp" in d && d["timestamp"].JInt? && d["timestamp"].i != 0 ==>
              r.Ok? && r.value.timestamp == d["timestamp"].i * 1000
    ensures "timestamp" in d && d["timestamp"] == JBool(true) ==> r.Ok? && r.value.timestamp == 1000
    ensures "timestamp" in d && d["timestamp"].JFloat? && d["timestamp"].x != 0.0 ==>
              r.Ok? && -0.5 <= d["timestamp"].x * 1000.0 - r.value.timestamp as real <= 0.5
    // message and deleted as update_from_jsondict sets them; a decoded record is remote
    ensures r.Ok? ==> r.value.message == Get(d, "message", JNull)
    ensures r.Ok? ==> r.value.deleted == Get(d, "deleted", JBool(false))
    ensures r.Ok? ==> !r.value.isLocal
  {
    var wireId := Get(d, "id", JNull);
    var id := if Truthy(wireId) then wireId else JStr(freshId);
    var wireStamp := Get(d, "timestamp", JNull);
    if Truthy(wireStamp) then
      match MicrosOfWire(wireStamp)
      case Ok(us) => Ok(UpdateFromJsonDict(ModelResult(JNull, id, us, JBool(false), false), d))
      case Err(e) => Err(e)
    else
      Ok(UpdateFromJsonDict(ModelResult(JNull, id, now, JBool(false), false), d))
  }

  /**
   `asjsondict`: always `id`, `message` and the integer `timestamp` in
   milliseconds; `deleted` only when the record's flag is truthy, and then `True`.
   */
  function AsJsonDict(r: ModelResult): (d: Object)
    ensures d.Keys == {"id", "message", "timestamp"} + (if Truthy(r.deleted) then {"deleted"} else {})
    ensures d["id"] == r.id && d["message"] == r.message
    ensures d["timestamp"].JInt?
    ensures 0 <= (r.timestamp - 1000 * d["timestamp"].i) * (if r.timestamp < 0 then -1 else 1) < 1000
    ensures "deleted" in d ==> d["deleted"] == JBool(true)
  {
    var base := map["id" := r.id, "message" := r.message, "timestamp" := JInt(MillisOf(r.timestamp))];
    if Truthy(r.deleted) then base["deleted" := JBool(true)] else base
  }

  /** The record `send_message` builds: the given text, a fresh id, the current time, local. */
  function NewLocalResult(message: string, now: int, freshId: string): (r: ModelResult)
    ensures r.message == JStr(message) && r.timestamp == now && r.isLocal
    ensures !Truthy(r.deleted) && r.deleted.JBool?
    ensures r.id == JStr(freshId)
    ensures freshId != [] ==> WellFormed(r)
  {
    ModelResult(JStr(message), JStr(freshId), now, JBool(false), true)
  }

  /** A dictionary of exactly the shape `asjsondict` writes, with a non-zero timestamp. */
  predicate CanonicalWire(d: Object) {
    && (d.Keys == {"id", "message", "timestamp"} || d.Keys == {"id", "message", "timestamp", "deleted"})
    && Truthy(d["id"])
    && d["timestamp"].JInt? && d["timestamp"].i != 0
    && ("deleted" in d ==> d["deleted"] == JBool(true))
  }

  /** Whole milliseconds survive the microsecond round trip. */
  lemma MillisOfScaled(ms: int)
    ensures MillisOf(ms * 1000) == ms
  {
  }

  /**
   Decoding an encoded record gives back its `message`, its `id` when truthy,
   `deleted` as a boolean (False when the key was left out) and its time at
   millisecond precision, unless that millisecond count is 0, which decodes as now.
   */
  lemma RoundTrip(r: ModelResult, now: int, freshId: string)
    ensures
      var w := AsJsonDict(r);
      var back := FromJsonDict(w, now, freshId);
      && back.Ok?
      && back.value.message == r.message
      && back.value.id == (if Truthy(r.id) then r.id else JStr(freshId))
      && back.value.deleted == JBool(Truthy(r.deleted))
      && back.value.timestamp == (if w["timestamp"].i != 0 then w["timestamp"].i * 1000 else now)
      && !back.value.isLocal
  {
  }

  /**
   For a well-formed record the round trip is exact up to the truncation of the
   time to whole milliseconds, and `is_local`, which is not transmitted.
   */
  lemma RoundTripWellFormed(r: ModelResult, now: int, freshId: string)
    requires WellFormed(r)
    requires MillisOf(r.timestamp) != 0
    ensures FromJsonDict(AsJsonDict(r), now, freshId)
         == Ok(r.(timestamp := MillisOf(r.timestamp) * 1000, isLocal := false))
    ensures -1000 < r.timestamp - MillisOf(r.timestamp) * 1000 < 1000
  {
    RoundTrip(r, now, freshId);
  }

  /** Decoding then re-encoding gives back every dictionary of the canonical shape. */
  lemma WireRoundTrip(d: Object, now: int, freshId: string)
    requires CanonicalWire(d)
    ensures FromJsonDict(d, now, freshId).Ok?
    ensures AsJsonDict(FromJsonDict(d, now, freshId).value) == d
  {
    MillisOfScaled(d["timestamp"].i);
  }

  /** Encoding a record with a truthy id and a non-zero millisecond count yields the canonical shape. */
  lemma EncodeIsCanonical(r: ModelResult)
    requires Truthy(r.id) && MillisOf(r.timestamp) != 0
    ensures CanonicalWire(AsJsonDict(r))
  {
  }

  /** Applying the same wire dictionary twice changes nothing more. */
  lemma UpdateIdempotent(r: ModelResult, d: Object)
    ensures UpdateFromJsonDict(UpdateFromJsonDict(r, d), d) == UpdateFromJsonDict(r, d)
  {
  }

  /**
   What `send_message` publishes: no `deleted` key, the given text, and a
   receiver that decodes it gets that text back with `deleted` False.
   */
  lemma SentRecordDecodes(message: string, now: int, freshId: string, laterNow: int, otherId: string)
    ensures
      var w := AsJsonDict(NewLocalResult(message, now, freshId));
      && w.Keys == {"id", "message", "timestamp"}
      && w["message"] == JStr(message)
      && FromJsonDict(w, laterNow, otherId).Ok?
      && FromJsonDict(w, laterNow, otherId).value.message == JStr(message)
      && FromJsonDict(w, laterNow, otherId).value.deleted == JBool(false)
      && (freshId != [] ==> FromJsonDict(w, laterNow, otherId).value.id == JStr(freshId))
  {
    RoundTrip(NewLocalResult(message, now, freshId), laterNow, otherId);
  }
}
