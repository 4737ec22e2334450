/** The two dataclasses the backend sends over a chat WebSocket: WebSocketMessage(type,
    content, timestamp) and its subclass ProgressMessage, which adds progress_type. Field
    values are whatever the caller passed, so they are decoded JSON values, not only strings. */
module Schema {
  import opened Wrappers
  import opened JsonData
  import opened PyValues
  import JsonParse

  /** A constructed message. `extra` holds attributes assigned after construction, such as
      reasoning_steps on the relay's final answer. */
  datatype Frame =
    | Message(kind: Json, content: Json, timestamp: Json, extra: map<string, Json>)
    | Progress(kind: Json, content: Json, timestamp: Json, progressType: Json, extra: map<string, Json>)

  /** The dataclass fields, in declaration order: the generated __init__'s parameters. */
  const MessageFields: seq<string> := ["type", "content", "timestamp"]
  const ProgressFields: seq<string> := ["type", "content", "timestamp", "progress_type"]

  /** The timestamp default is `datetime.now().isoformat()` written in the class body, so it is
      computed once, when the class is created (`classTime`), not per message. */
  function MessageDefaults(classTime: string): map<string, Json> {
    map["timestamp" := JStr(classTime)]
  }

  function ProgressDefaults(classTime: string): map<string, Json> {
    map["timestamp" := JStr(classTime), "progress_type" := JStr("unknown")]
  }

  /** __post_init__: a timestamp passed as None becomes the current time. */
  function PostInit(timestamp: Json, now: string): (t: Json)
    ensures timestamp == JNull ==> t == JStr(now)
    ensures timestamp != JNull ==> t == timestamp
  {
    if timestamp == JNull then JStr(now) else timestamp
  }

  lemma FieldsListed()
    ensures "type" in MessageFields && "content" in MessageFields && "timestamp" in MessageFields
    ensures "type" in ProgressFields && "content" in ProgressFields && "timestamp" in ProgressFields
    ensures "progress_type" in ProgressFields
  {
    assert MessageFields[0] == "type" && MessageFields[1] == "content" && MessageFields[2] == "timestamp";
    assert ProgressFields[0] == "type" && ProgressFields[1] == "content" && ProgressFields[2] == "timestamp";
    assert ProgressFields[3] == "progress_type";
  }

  /** WebSocketMessage(**kwargs); a keyword the dataclass does not declare raises TypeError. */
  function NewMessage(kwargs: seq<(string, Json)>, classTime: string, now: string): Result<Frame, CallError> {
    match Bind(MessageFields, MessageDefaults(classTime), kwargs)
    case Failure(e) => Failure(e)
    case Success(b) =>
      FieldsListed();
      Success(Message(b["type"], b["content"], PostInit(b["timestamp"], now), map[]))
  }

  /** ProgressMessage(**kwargs). */
  function NewProgress(kwargs: seq<(string, Json)>, classTime: string, now: string): Result<Frame, CallError> {
    match Bind(ProgressFields, ProgressDefaults(classTime), kwargs)
    case Failure(e) => Failure(e)
    case Success(b) =>
      FieldsListed();
      Success(Progress(b["type"], b["content"], PostInit(b["timestamp"], now), b["progress_type"], map[]))
  }

  /** to_dict(): the declared fields only, in declaration order. */
  function ToDict(f: Frame): Json {
    match f
    case Message(k, c, t, _) => JObj([("type", k), ("content", c), ("timestamp", t)])
    case Progress(k, c, t, p, _) => JObj([("type", k), ("content", c), ("timestamp", t), ("progress_type", p)])
  }

  /** What the socket carries for a frame: json.dumps(frame.to_dict()). */
  function WireText(f: Frame): string { Dumps(ToDict(f)) }

  /** The texts of several frames, in order. */
  function Wire(fs: seq<Frame>): (w: seq<string>)
    ensures |w| == |fs|
  {
    seq(|fs|, i requires 0 <= i < |fs| => WireText(fs[i]))
  }

  /** texts are the wire texts of frames, in order. The trigger keeps the encoding of a frame out
      of the proofs that never name that frame's text. */
  predicate Carries(texts: seq<string>, frames: seq<Frame>) {
    |texts| == |frames|
    && forall j {:trigger WireText(frames[j])} :: 0 <= j < |frames| ==> texts[j] == WireText(frames[j])
  }

  lemma CarriesWire(texts: seq<string>, frames: seq<Frame>)
    requires Carries(texts, frames)
    ensures texts == Wire(frames)
  {
    forall j | 0 <= j < |frames|
      ensures texts[j] == Wire(frames)[j]
    {
      assert texts[j] == WireText(frames[j]);
    }
  }

  lemma CarriesConcat(t1: seq<string>, f1: seq<Frame>, t2: seq<string>, f2: seq<Frame>)
    requires Carries(t1, f1) && Carries(t2, f2)
    ensures Carries(t1 + t2, f1 + f2)
  {
    forall j | 0 <= j < |f1 + f2|
      ensures (t1 + t2)[j] == WireText((f1 + f2)[j])
    {
      if j < |f1| {
        assert (f1 + f2)[j] == f1[j] && WireText(f1[j]) == t1[j];
      } else {
        assert (f1 + f2)[j] == f2[j - |f1|] && WireText(f2[j - |f1|]) == t2[j - |f1|];
      }
    }
  }

  /** Reading a dictionary back as a frame: the inverse of ToDict, up to the extra attributes. */
  function FromDict(v: Json): Option<Frame> {
    match v
    case JObj(ms) =>
      if Keys(ms) == MessageFields then Some(Message(ms[0].1, ms[1].1, ms[2].1, map[]))
      else if Keys(ms) == ProgressFields then Some(Progress(ms[0].1, ms[1].1, ms[2].1, ms[3].1, map[]))
      else None
    case _ => None
  }

  /** The member names of an object, in order. */
  function Keys(ms: seq<(string, Json)>): (ks: seq<string>)
    ensures |ks| == |ms| && forall i :: 0 <= i < |ms| ==> ks[i] == ms[i].0
  {
    seq(|ms|, i requires 0 <= i < |ms| => ms[i].0)
  }

  /** to_dict() has exactly the declared keys, each holding the field's value unchanged. */
  lemma ToDictFields(f: Frame)
    ensures ToDict(f).JObj?
    ensures f.Message? ==> Keys(ToDict(f).members) == MessageFields
    ensures f.Progress? ==> Keys(ToDict(f).members) == ProgressFields
    ensures Lookup(ToDict(f).members, "type") == Some(f.kind)
    ensures Lookup(ToDict(f).members, "content") == Some(f.content)
    ensures Lookup(ToDict(f).members, "timestamp") == Some(f.timestamp)
    ensures f.Progress? ==> Lookup(ToDict(f).members, "progress_type") == Some(f.progressType)
    ensures f.Message? ==> Lookup(ToDict(f).members, "progress_type").None?
  {
    if f.Message? {
      MessageDictFields(f.kind, f.content, f.timestamp);
    } else {
      ProgressDictFields(f.kind, f.content, f.timestamp, f.progressType);
    }
  }

  lemma KeysOf3(ms: seq<(string, Json)>)
    requires |ms| == 3 && ms[0].0 == "type" && ms[1].0 == "content" && ms[2].0 == "timestamp"
    ensures Keys(ms) == MessageFields
  {
    var ks := Keys(ms);
    assert ks == [ks[0], ks[1], ks[2]];
  }

  lemma KeysOf4(ms: seq<(string, Json)>)
    requires |ms| == 4 && ms[0].0 == "type" && ms[1].0 == "content" && ms[2].0 == "timestamp"
    requires ms[3].0 == "progress_type"
    ensures Keys(ms) == ProgressFields
  {
    var ks := Keys(ms);
    assert ks == [ks[0], ks[1], ks[2], ks[3]];
  }

  lemma MessageDictFields(k: Json, c: Json, t: Json)
    ensures var ms := [("type", k), ("content", c), ("timestamp", t)];
      Keys(ms) == MessageFields && Lookup(ms, "type") == Some(k) && Lookup(ms, "content") == Some(c)
      && Lookup(ms, "timestamp") == Some(t) && Lookup(ms, "progress_type").None?
  {
    var ms := [("type", k), ("content", c), ("timestamp", t)];
    KeysOf3(ms);
    LookupAt(ms, 0);
    LookupAt(ms, 1);
    LookupAt(ms, 2);
  }

  lemma ProgressDictFields(k: Json, c: Json, t: Json, p: Json)
    ensures var ms := [("type", k), ("content", c), ("timestamp", t), ("progress_type", p)];
      Keys(ms) == ProgressFields && Lookup(ms, "type") == Some(k) && Lookup(ms, "content") == Some(c)
      && Lookup(ms, "timestamp") == Some(t) && Lookup(ms, "progress_type") == Some(p)
  {
    var ms := [("type", k), ("content", c), ("timestamp", t), ("progress_type", p)];
    KeysOf4(ms);
    LookupAt(ms, 0);
    LookupAt(ms, 1);
    LookupAt(ms, 2);
    LookupAt(ms, 3);
  }

  /** Attributes attached after construction never reach the wire. */
  lemma ExtraNotSerialised(f: Frame, extra: map<string, Json>)
    ensures ToDict(f.(extra := extra)) == ToDict(f)
    ensures WireText(f.(extra := extra)) == WireText(f)
  {
  }

  /** Reading the dictionary back gives the frame without its extra attributes. */
  lemma FromToDict(f: Frame)
    ensures FromDict(ToDict(f)) == Some(f.(extra := map[]))
  {
    var ms := ToDict(f).members;
    assert Keys(ms) == if f.Message? then MessageFields else ProgressFields;
    assert MessageFields != ProgressFields by { assert |MessageFields| != |ProgressFields|; }
  }

  /** What a client receives decodes back to the frame's fields, whichever encoder sent it. */
  lemma WireRoundTrip(f: Frame)
    ensures match JsonParse.Parse(WireText(f)) case Some(v) => FromDict(v) == Some(f.(extra := map[])) case None => false
  {
    JsonParse.EncodeParseRoundTrip(ToDict(f), Py);
    FromToDict(f);
  }

  lemma WireConcat(a: seq<Frame>, b: seq<Frame>)
    ensures Wire(a + b) == Wire(a) + Wire(b)
  {
  }

  /** A message built without a timestamp carries the class-creation time, whatever the
      current time is; an explicit None is replaced by the current time; any other value is kept. */
  lemma MessageTimestamp(kind: Json, content: Json, ts: Option<Json>, classTime: string, now: string)
    ensures var kw := [("type", kind), ("content", content)] + (if ts.Some? then [("timestamp", ts.value)] else []);
      NewMessage(kw, classTime, now)
      == Success(Message(kind, content,
                         if ts.None? then JStr(classTime) else if ts.value == JNull then JStr(now) else ts.value,
                         map[]))
  {
    var kw := [("type", kind), ("content", content)] + (if ts.Some? then [("timestamp", ts.value)] else []);
    assert kw[0].0 == "type" && Given(kw, "type");
    assert kw[1].0 == "content" && Given(kw, "content");
    LookupAt(kw, 0);
    LookupAt(kw, 1);
    if ts.Some? {
      assert kw[2].0 == "timestamp" && Given(kw, "timestamp");
      LookupAt(kw, 2);
    } else {
      assert !Given(kw, "timestamp");
    }
  }

  /** progress_type defaults to "unknown". */
  lemma ProgressTypeDefault(kind: Json, content: Json, ts: Json, classTime: string, now: string)
    ensures var kw := [("type", kind), ("content", content), ("timestamp", ts)];
      NewProgress(kw, classTime, now).Success?
      && NewProgress(kw, classTime, now).value.progressType == JStr("unknown")
  {
    var kw := [("type", kind), ("content", content), ("timestamp", ts)];
    assert kw[0].0 == "type" && kw[1].0 == "content" && kw[2].0 == "timestamp";
    assert !Given(kw, "progress_type");
  }

  /** ProgressMessage(type=k, content=c, progress_type=p): stamped with the class-creation time. */
  lemma ProgressOf(k: Json, c: Json, p: Json, classTime: string, now: string)
    ensures NewProgress([("type", k), ("content", c), ("progress_type", p)], classTime, now)
         == Success(Progress(k, c, JStr(classTime), p, map[]))
  {
    var kw := [("type", k), ("content", c), ("progress_type", p)];
    assert kw[0].0 == "type" && Given(kw, "type");
    assert kw[1].0 == "content" && Given(kw, "content");
    assert kw[2].0 == "progress_type" && Given(kw, "progress_type");
    assert !Given(kw, "timestamp");
    LookupAt(kw, 0);
    LookupAt(kw, 1);
    LookupAt(kw, 2);
  }

  /** A keyword the class does not declare, such as tool_name, makes construction fail. */
  lemma UndeclaredKeywordRejected(kwargs: seq<(string, Json)>, i: nat, classTime: string, now: string)
    requires i < |kwargs| && kwargs[i].0 !in ProgressFields
    ensures NewProgress(kwargs, classTime, now).Failure?
    ensures NewProgress(kwargs, classTime, now).error.UnexpectedKeyword?
    ensures NewMessage(kwargs, classTime, now).Failure?
  {
    assert kwargs[i].0 !in MessageFields;
  }
}
