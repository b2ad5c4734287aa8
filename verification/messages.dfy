/**
 * The HUB-CLOUD message vocabulary: message kinds, MQTT topics, message tags,
 * the common message envelope and its ten concrete message classes, and the
 * textual form of a message, which leaves the topic out.
 */
module Messages {
  import opened Wrappers

  // ---------------------------------------------------------------------------
  // Message kinds
  // ---------------------------------------------------------------------------

  /** The kind of a message: a request, the response to a request, or a signal. */
  datatype MessageType = REQUEST | RESPONSE | SIGNAL

  /** The integer value of a kind, as stored in a message and sent on the wire. */
  function TypeValue(t: MessageType): (v: int)
    ensures 0x00 <= v <= 0x02
    ensures v == 0x00 <==> t == REQUEST
  {
    match t
    case REQUEST => 0x00
    case RESPONSE => 0x01
    case SIGNAL => 0x02
  }

  // ---------------------------------------------------------------------------
  // MQTT topics
  // ---------------------------------------------------------------------------

  /** The five logical channels a message travels on. */
  datatype MqttTopic = CONFIG | MEASUREMENTS | CUBE_STATE | NETWORK | ERROR

  /** The channel name of a topic; every name starts with a slash. */
  function TopicValue(t: MqttTopic): (v: string)
    ensures |v| > 1 && v[0] == '/'
  {
    match t
    case CONFIG => "/config"
    case MEASUREMENTS => "/measurement"
    case CUBE_STATE => "/cube"
    case NETWORK => "/network"
    case ERROR => "/error"
  }

  /** The topic member whose value is `value`, if there is one (the enumeration's value map). */
  function TopicOf(value: string): (r: Option<MqttTopic>)
    ensures r.Some? ==> TopicValue(r.value) == value
    ensures r.None? ==> forall t :: TopicValue(t) != value
  {
    if value == "/config" then Some(CONFIG)
    else if value == "/measurement" then Some(MEASUREMENTS)
    else if value == "/cube" then Some(CUBE_STATE)
    else if value == "/network" then Some(NETWORK)
    else if value == "/error" then Some(ERROR)
    else None
  }

  /** `MqttTopic.has`: whether `value` is the value of some topic; anything else is simply absent. */
  function TopicHas(value: string): (b: bool)
    ensures b <==> exists t :: TopicValue(t) == value
  {
    TopicOf(value).Some?
  }

  /** Exactly the five channel names are topics. */
  lemma TopicHasExactly(value: string)
    ensures TopicHas(value) <==>
      value == "/config" || value == "/measurement" || value == "/cube" ||
      value == "/network" || value == "/error"
  {
  }

  /** Looking a topic up by its own value gives the topic back, so distinct topics have distinct values. */
  lemma {:induction false} TopicRoundTrip(t: MqttTopic)
    ensures TopicOf(TopicValue(t)) == Some(t)
  {
    match t
    case CONFIG =>
    case MEASUREMENTS =>
      assert TopicValue(t) != "/config";
    case CUBE_STATE =>
      assert TopicValue(t) != "/config" && TopicValue(t) != "/measurement";
    case NETWORK =>
      assert TopicValue(t) != "/config" && TopicValue(t) != "/measurement" && TopicValue(t) != "/cube";
    case ERROR =>
      assert TopicValue(t) != "/config" && TopicValue(t) != "/measurement" && TopicValue(t) != "/cube";
      assert TopicValue(t) != "/network";
  }

  lemma TopicValuesDistinct(t1: MqttTopic, t2: MqttTopic)
    ensures TopicValue(t1) == TopicValue(t2) <==> t1 == t2
  {
    TopicRoundTrip(t1);
    TopicRoundTrip(t2);
  }

  // ---------------------------------------------------------------------------
  // Message tags
  // ---------------------------------------------------------------------------

  /** The twelve message tags; unique across the whole protocol, not only within a topic. */
  datatype MessageTag =
    | CUBE_JOINED
    | CUBE_DISCONNECTED
    | SENSOR_DATA
    | SENSOR_DATA_PERIOD_REQ
    | SENSOR_DATA_PERIOD_RES
    | CUBE_FLIPPED
    | CUBE_SIDE_CONFIG
    | CUBE_UPDATE_CONFIG_REQ
    | CUBE_UPDATE_CONFIG_RES
    | CUBE_HARDWARE_ERROR
    | HUB_HARDWARE_ERROR
    | MQTT_UNKNOWN_MESSAGE_ERROR

  /** The integer value of a tag. */
  function TagValue(t: MessageTag): (v: int)
    ensures 0x01 <= v <= 0x0C
  {
    match t
    case CUBE_JOINED => 0x01
    case CUBE_DISCONNECTED => 0x02
    case SENSOR_DATA => 0x03
    case SENSOR_DATA_PERIOD_REQ => 0x04
    case SENSOR_DATA_PERIOD_RES => 0x05
    case CUBE_FLIPPED => 0x06
    case CUBE_SIDE_CONFIG => 0x07
    case CUBE_UPDATE_CONFIG_REQ => 0x08
    case CUBE_UPDATE_CONFIG_RES => 0x09
    case CUBE_HARDWARE_ERROR => 0x0A
    case HUB_HARDWARE_ERROR => 0x0B
    case MQTT_UNKNOWN_MESSAGE_ERROR => 0x0C
  }

  /** The tag member whose value is `value`, if there is one (the enumeration's value map). */
  function TagOf(value: int): (r: Option<MessageTag>)
    ensures r.Some? ==> TagValue(r.value) == value
    ensures r.None? ==> forall t :: TagValue(t) != value
  {
    if value == 0x01 then Some(CUBE_JOINED)
    else if value == 0x02 then Some(CUBE_DISCONNECTED)
    else if value == 0x03 then Some(SENSOR_DATA)
    else if value == 0x04 then Some(SENSOR_DATA_PERIOD_REQ)
    else if value == 0x05 then Some(SENSOR_DATA_PERIOD_RES)
    else if value == 0x06 then Some(CUBE_FLIPPED)
    else if value == 0x07 then Some(CUBE_SIDE_CONFIG)
    else if value == 0x08 then Some(CUBE_UPDATE_CONFIG_REQ)
    else if value == 0x09 then Some(CUBE_UPDATE_CONFIG_RES)
    else if value == 0x0A then Some(CUBE_HARDWARE_ERROR)
    else if value == 0x0B then Some(HUB_HARDWARE_ERROR)
    else if value == 0x0C then Some(MQTT_UNKNOWN_MESSAGE_ERROR)
    else None
  }

  /** `MessageTag.has`: whether `value` is the value of some tag. */
  function TagHas(value: int): (b: bool)
    ensures b <==> exists t :: TagValue(t) == value
  {
    TagOf(value).Some?
  }

  /** The tags are exactly the integers 0x01 to 0x0C. */
  lemma TagHasRange(value: int)
    ensures TagHas(value) <==> 0x01 <= value <= 0x0C
  {
  }

  /** Looking a tag up by its own value gives the tag back. */
  lemma TagRoundTrip(t: MessageTag)
    ensures TagOf(TagValue(t)) == Some(t)
  {
  }

  /** The twelve tag values are pairwise distinct. */
  lemma TagValuesDistinct(t1: MessageTag, t2: MessageTag)
    ensures TagValue(t1) == TagValue(t2) <==> t1 == t2
  {
    TagRoundTrip(t1);
    TagRoundTrip(t2);
  }

  // ---------------------------------------------------------------------------
  // The message envelope
  // ---------------------------------------------------------------------------

  /**
   * The fields a concrete message class stores besides the common ones;
   * `Plain` is a message built from the base class itself.
   */
  datatype Payload =
    | Plain
    | CubeJoined(cube_id: int)
    | CubeDisconnected(cube_id: int)
    | Measurements(temp: int, humid: int)
    | MeasurementsPeriod
    | CubeFlipped(cube_id: int, old_side: int, new_side: int)
    | SideConfig(side_idx: int, cube_id: int)
    | ConfigUpdate(cube_id: int)
    | CubeFault(cube_id: int)
    | HubFault(cube_id: int)
    | UnknownMessage

  /**
   * A message: the kind as its integer value, the tag, the construction time
   * (an opaque value supplied by the caller), the topic as its channel name,
   * and the class-specific payload.
   */
  datatype Message = Message(mtype: int, tag: MessageTag, timestamp: int, mtopic: string, payload: Payload)

  /** The class a message was built from. */
  function ClassName(p: Payload): string
  {
    match p
    case Plain => "Message"
    case CubeJoined(_) => "CubeJoinedSignal"
    case CubeDisconnected(_) => "CubeDisconnectedSignal"
    case Measurements(_, _) => "MeasurementsSignal"
    case MeasurementsPeriod => "MeasurementsPeriodResponse"
    case CubeFlipped(_, _, _) => "CubeFlippedSignal"
    case SideConfig(_, _) => "CubeConfigIndication"
    case ConfigUpdate(_) => "CubeConfigUpdateResponse"
    case CubeFault(_) => "CubeHardwareError"
    case HubFault(_) => "HubHardwareError"
    case UnknownMessage => "MqttUnknownMessageError"
  }

  /** The (kind, topic, tag) of a message in the values that are stored and sent. */
  datatype Header = Header(mtype: int, topic: string, tag: int)

  /**
   * The header each concrete class fixes, whatever its arguments; the base
   * class fixes none.
   */
  function ClassHeader(p: Payload): Option<Header>
  {
    match p
    case Plain => None
    case CubeJoined(_) => Some(Header(2, "/network", 0x01))
    case CubeDisconnected(_) => Some(Header(2, "/network", 0x02))
    case Measurements(_, _) => Some(Header(2, "/measurement", 0x03))
    case MeasurementsPeriod => Some(Header(1, "/measurement", 0x05))
    case CubeFlipped(_, _, _) => Some(Header(2, "/cube", 0x06))
    case SideConfig(_, _) => Some(Header(2, "/config", 0x07))
    case ConfigUpdate(_) => Some(Header(1, "/config", 0x09))
    case CubeFault(_) => Some(Header(2, "/error", 0x0A))
    case HubFault(_) => Some(Header(2, "/error", 0x0B))
    case UnknownMessage => Some(Header(2, "/error", 0x0C))
  }

  /** A message carries the header its class fixes. */
  predicate Conforms(m: Message)
  {
    match ClassHeader(m.payload)
    case None => true
    case Some(h) => m.mtype == h.mtype && m.mtopic == h.topic && TagValue(m.tag) == h.tag
  }

  /**
   * The common initialisation of every message, applied to an object whose
   * class-specific fields are already set: the kind and the topic are stored
   * as their values, the tag as it is.
   */
  function Init(mtype: MessageType, mtopic: MqttTopic, tag: MessageTag, timestamp: int, payload: Payload): (m: Message)
    ensures TopicOf(m.mtopic) == Some(mtopic) && TopicHas(m.mtopic)
    ensures 0x00 <= m.mtype <= 0x02 && (m.mtype == 0x00 <==> mtype == REQUEST)
    ensures TagOf(TagValue(m.tag)) == Some(tag)
    ensures m.mtype == TypeValue(mtype) && m.mtopic == TopicValue(mtopic) && m.tag == tag
    ensures m.timestamp == timestamp && m.payload == payload
  {
    TopicRoundTrip(mtopic);
    TagRoundTrip(tag);
    Message(TypeValue(mtype), tag, timestamp, TopicValue(mtopic), payload)
  }

  /** A message of the base class, with any kind, topic and tag. */
  function NewMessage(mtype: MessageType, mtopic: MqttTopic, tag: MessageTag, timestamp: int): (m: Message)
    ensures TopicOf(m.mtopic) == Some(mtopic)
    ensures m.mtype == TypeValue(mtype) && m.tag == tag && m.timestamp == timestamp
    ensures m.payload == Plain && Conforms(m)
  {
    Init(mtype, mtopic, tag, timestamp, Plain)
  }

  // ---------------------------------------------------------------------------
  // The ten concrete message classes
  // ---------------------------------------------------------------------------

  /** A new cube joined the network. */
  function CubeJoinedSignal(cube_id: int, timestamp: int): (m: Message)
    ensures Conforms(m) && m.payload == CubeJoined(cube_id) && m.timestamp == timestamp
  {
    Init(SIGNAL, NETWORK, CUBE_JOINED, timestamp, CubeJoined(cube_id))
  }

  /** A cube left the network. */
  function CubeDisconnectedSignal(cube_id: int, timestamp: int): (m: Message)
    ensures Conforms(m) && m.payload == CubeDisconnected(cube_id) && m.timestamp == timestamp
  {
    Init(SIGNAL, NETWORK, CUBE_DISCONNECTED, timestamp, CubeDisconnected(cube_id))
  }

  /** A temperature and humidity reading. */
  function MeasurementsSignal(temp: int, humid: int, timestamp: int): (m: Message)
    ensures Conforms(m) && m.payload == Measurements(temp, humid) && m.timestamp == timestamp
  {
    Init(SIGNAL, MEASUREMENTS, SENSOR_DATA, timestamp, Measurements(temp, humid))
  }

  /** The response to a request that sets the measurement period. */
  function MeasurementsPeriodResponse(timestamp: int): (m: Message)
    ensures Conforms(m) && m.payload == MeasurementsPeriod && m.timestamp == timestamp
  {
    Init(RESPONSE, MEASUREMENTS, SENSOR_DATA_PERIOD_RES, timestamp, MeasurementsPeriod)
  }

  /**
   * A cube was flipped from side `from` to side `to` (the arguments `old` and
   * `new`, stored as `old_side` and `new_side`).
   */
  function CubeFlippedSignal(cube_id: int, from: int, to: int, timestamp: int): (m: Message)
    ensures Conforms(m) && m.payload == CubeFlipped(cube_id, from, to) && m.timestamp == timestamp
  {
    Init(SIGNAL, CUBE_STATE, CUBE_FLIPPED, timestamp, CubeFlipped(cube_id, from, to))
  }

  /** The configuration of one side of a cube. */
  function CubeConfigIndication(side_idx: int, cube_id: int, timestamp: int): (m: Message)
    ensures Conforms(m) && m.payload == SideConfig(side_idx, cube_id) && m.timestamp == timestamp
  {
    Init(SIGNAL, CONFIG, CUBE_SIDE_CONFIG, timestamp, SideConfig(side_idx, cube_id))
  }

  /** The response to a configuration change of a cube. */
  function CubeConfigUpdateResponse(cube_id: int, timestamp: int): (m: Message)
    ensures Conforms(m) && m.payload == ConfigUpdate(cube_id) && m.timestamp == timestamp
  {
    Init(RESPONSE, CONFIG, CUBE_UPDATE_CONFIG_RES, timestamp, ConfigUpdate(cube_id))
  }

  /** A hardware fault of a cube. */
  function CubeHardwareError(cube_id: int, timestamp: int): (m: Message)
    ensures Conforms(m) && m.payload == CubeFault(cube_id) && m.timestamp == timestamp
  {
    Init(SIGNAL, ERROR, CUBE_HARDWARE_ERROR, timestamp, CubeFault(cube_id))
  }

  /** A hardware fault of the hub; it too carries a cube id. */
  function HubHardwareError(cube_id: int, timestamp: int): (m: Message)
    ensures Conforms(m) && m.payload == HubFault(cube_id) && m.timestamp == timestamp
  {
    Init(SIGNAL, ERROR, HUB_HARDWARE_ERROR, timestamp, HubFault(cube_id))
  }

  /** An MQTT message that could not be understood was received. */
  function MqttUnknownMessageError(timestamp: int): (m: Message)
    ensures Conforms(m) && m.payload == UnknownMessage && m.timestamp == timestamp
  {
    Init(SIGNAL, ERROR, MQTT_UNKNOWN_MESSAGE_ERROR, timestamp, UnknownMessage)
  }

  // ---------------------------------------------------------------------------
  // Facts about the class taxonomy
  // ---------------------------------------------------------------------------

  /** Every class header uses a known topic, a known tag and a kind other than REQUEST. */
  lemma ClassHeadersWellFormed(p: Payload)
    requires ClassHeader(p).Some?
    ensures var h := ClassHeader(p).value;
      TopicHas(h.topic) && TagHas(h.tag) && (h.mtype == 0x01 || h.mtype == 0x02)
  {
  }

  /** The tag alone identifies the class: two classes with the same tag are the same class. */
  lemma ClassTagsDistinct(p1: Payload, p2: Payload)
    requires ClassHeader(p1).Some? && ClassHeader(p2).Some?
    ensures ClassHeader(p1).value.tag == ClassHeader(p2).value.tag <==> ClassName(p1) == ClassName(p2)
  {
  }

  /** No class has kind REQUEST, and the two request tags belong to no class. */
  lemma NoRequestClass(p: Payload)
    requires ClassHeader(p).Some?
    ensures ClassHeader(p).value.mtype != TypeValue(REQUEST)
    ensures ClassHeader(p).value.tag != TagValue(SENSOR_DATA_PERIOD_REQ)
    ensures ClassHeader(p).value.tag != TagValue(CUBE_UPDATE_CONFIG_REQ)
  {
  }

  /** Every tag other than the two request tags belongs to some class. */
  lemma {:induction false} EveryOtherTagHasClass(t: MessageTag)
    requires t != SENSOR_DATA_PERIOD_REQ && t != CUBE_UPDATE_CONFIG_REQ
    ensures exists p :: ClassHeader(p).Some? && ClassHeader(p).value.tag == TagValue(t)
  {
    var p := match t
      case CUBE_JOINED => CubeJoined(0)
      case CUBE_DISCONNECTED => CubeDisconnected(0)
      case SENSOR_DATA => Measurements(0, 0)
      case SENSOR_DATA_PERIOD_RES => MeasurementsPeriod
      case CUBE_FLIPPED => CubeFlipped(0, 0, 0)
      case CUBE_SIDE_CONFIG => SideConfig(0, 0)
      case CUBE_UPDATE_CONFIG_RES => ConfigUpdate(0)
      case CUBE_HARDWARE_ERROR => CubeFault(0)
      case HUB_HARDWARE_ERROR => HubFault(0)
      case _ => UnknownMessage;
    assert ClassHeader(p).value.tag == TagValue(t);
  }

  /** Two conforming messages of concrete classes with the same tag share their kind and topic. */
  lemma TagDeterminesKindAndTopic(m1: Message, m2: Message)
    requires Conforms(m1) && Conforms(m2)
    requires !m1.payload.Plain? && !m2.payload.Plain?
    requires m1.tag == m2.tag
    ensures m1.mtype == m2.mtype && m1.mtopic == m2.mtopic && ClassName(m1.payload) == ClassName(m2.payload)
  {
    ClassTagsDistinct(m1.payload, m2.payload);
  }

  // ---------------------------------------------------------------------------
  // Textual form
  // ---------------------------------------------------------------------------

  /** A value of a message field. */
  datatype Value = Int(i: int) | Tag(t: MessageTag) | Str(s: string)

  /** A field dictionary, as its (key, value) entries in insertion order. */
  type Fields = seq<(string, Value)>

  /** The keys of a field dictionary, in order. */
  function Keys(fields: Fields): (ks: seq<string>)
    ensures |ks| == |fields|
  {
    if fields == [] then [] else [fields[0].0] + Keys(fields[1..])
  }

  /** The keys of a concatenation are the keys of its parts. */
  lemma {:induction false} KeysAppend(a: Fields, b: Fields)
    ensures Keys(a + b) == Keys(a) + Keys(b)
  {
    if a == [] {
      assert a + b == b;
    } else {
      assert (a + b)[0] == a[0] && (a + b)[1..] == a[1..] + b;
      KeysAppend(a[1..], b);
    }
  }

  /** No key occurs twice. */
  predicate DistinctKeys(fields: Fields)
  {
    forall i, j :: 0 <= i < j < |fields| ==> fields[i].0 != fields[j].0
  }

  /** The value stored under `key`, if any; the first entry under it wins. */
  function Lookup(fields: Fields, key: string): (r: Option<Value>)
    ensures r.None? <==> key !in Keys(fields)
    ensures r.Some? ==> (key, r.value) in fields
  {
    if fields == [] then None
    else if fields[0].0 == key then Some(fields[0].1)
    else Lookup(fields[1..], key)
  }

  /** `del d[key]` on a copy of the dictionary: every entry under `key` goes, the rest keep their order. */
  function Delete(fields: Fields, key: string): (r: Fields)
    ensures forall k :: k in Keys(r) <==> k in Keys(fields) && k != key
    ensures forall e :: e in r ==> e in fields
    ensures key !in Keys(fields) ==> r == fields
  {
    if fields == [] then []
    else if fields[0].0 == key then Delete(fields[1..], key)
    else
      KeysAppend([fields[0]], Delete(fields[1..], key));
      [fields[0]] + Delete(fields[1..], key)
  }

  /** Deleting from a concatenation deletes from each part. */
  lemma {:induction false} DeleteAppend(a: Fields, b: Fields, key: string)
    ensures Delete(a + b, key) == Delete(a, key) + Delete(b, key)
  {
    if a == [] {
      assert a + b == b;
    } else {
      assert (a + b)[0] == a[0] && (a + b)[1..] == a[1..] + b;
      DeleteAppend(a[1..], b, key);
    }
  }

  /** The class-specific fields of a message, in the order the class assigns them. */
  function PayloadFields(p: Payload): (fields: Fields)
    ensures DistinctKeys(fields)
    ensures forall k :: k in Keys(fields) ==> k !in ["mtype", "tag", "timestamp", "mtopic"]
  {
    match p
    case Plain => []
    case CubeJoined(id) => [("cube_id", Int(id))]
    case CubeDisconnected(id) => [("cube_id", Int(id))]
    case Measurements(temp, humid) => [("temp", Int(temp)), ("humid", Int(humid))]
    case MeasurementsPeriod => []
    case CubeFlipped(id, from, to) =>
      var fields := [("cube_id", Int(id)), ("old_side", Int(from)), ("new_side", Int(to))];
      assert Keys(fields) == ["cube_id"] + Keys(fields[1..]);
      fields
    case SideConfig(idx, id) => [("side_idx", Int(idx)), ("cube_id", Int(id))]
    case ConfigUpdate(id) => [("cube_id", Int(id))]
    case CubeFault(id) => [("cube_id", Int(id))]
    case HubFault(id) => [("cube_id", Int(id))]
    case UnknownMessage => []
  }

  /** The common fields a message stores, in the order the base class assigns them. */
  function CommonFields(m: Message): Fields
  {
    [("mtype", Int(m.mtype)), ("tag", Tag(m.tag)), ("timestamp", Int(m.timestamp))]
  }

  lemma CommonKeys(m: Message)
    ensures Keys(CommonFields(m)) == ["mtype", "tag", "timestamp"]
  {
    var c := CommonFields(m);
    assert Keys(c[2..]) == ["timestamp"];
    assert Keys(c[1..]) == ["tag"] + Keys(c[2..]);
  }

  /**
   * The instance dictionary of a message: the class-specific fields first (each
   * class sets them before calling the base initialisation), then the common
   * fields, then the topic.
   */
  function FieldsOf(m: Message): (fields: Fields)
    ensures DistinctKeys(fields)
    ensures Lookup(fields, "mtopic") == Some(Str(m.mtopic))
  {
    var p, c, t := PayloadFields(m.payload), CommonFields(m), [("mtopic", Str(m.mtopic))];
    CommonKeys(m);
    KeysAppend(p, c);
    DistinctKeysAppend(p, c);
    DistinctKeysAppend(p + c, t);
    LookupAfter(p + c, t, "mtopic");
    p + c + t
  }

  /** The i-th key is the key of the i-th entry. */
  lemma {:induction false} KeysAt(fields: Fields, i: nat)
    requires i < |fields|
    ensures Keys(fields)[i] == fields[i].0
  {
    if i > 0 {
      KeysAt(fields[1..], i - 1);
    }
  }

  /** Joining two dictionaries with distinct keys and no key in common gives distinct keys. */
  lemma DistinctKeysAppend(a: Fields, b: Fields)
    requires DistinctKeys(a) && DistinctKeys(b)
    requires forall k :: k in Keys(a) ==> k !in Keys(b)
    ensures DistinctKeys(a + b)
  {
    forall i, j | 0 <= i < j < |a + b|
      ensures (a + b)[i].0 != (a + b)[j].0
    {
      if i < |a| <= j {
        KeysAt(a, i);
        KeysAt(b, j - |a|);
        assert Keys(a)[i] in Keys(a);
      }
    }
  }

  /** Looking up a key that only the second part holds. */
  lemma {:induction false} LookupAfter(a: Fields, b: Fields, key: string)
    requires key !in Keys(a)
    ensures Lookup(a + b, key) == Lookup(b, key)
  {
    if a == [] {
      assert a + b == b;
    } else {
      assert (a + b)[0] == a[0] && (a + b)[1..] == a[1..] + b;
      LookupAfter(a[1..], b, key);
    }
  }

  /** `str(message)`: the instance dictionary, copied, with the topic deleted. */
  function Render(m: Message): (r: Fields)
    ensures "mtopic" !in Keys(r)
  {
    Delete(FieldsOf(m), "mtopic")
  }

  /** `message()`: the same text as `str(message)`. */
  function Call(m: Message): (r: Fields)
    ensures r == Render(m) && "mtopic" !in Keys(r)
    ensures FieldsOf(m) == r + [("mtopic", Str(m.mtopic))]
  {
    RenderDropsOnlyTopic(m);
    Render(m)
  }

  /**
   * The rendered form is the instance dictionary minus its last entry, the topic:
   * the class-specific fields, then kind, tag and timestamp, in that order.
   */
  lemma RenderDropsOnlyTopic(m: Message)
    ensures Render(m) == PayloadFields(m.payload) + CommonFields(m)
    ensures FieldsOf(m) == Render(m) + [("mtopic", Str(m.mtopic))]
  {
    var p, c := PayloadFields(m.payload), CommonFields(m);
    var t: Fields := [("mtopic", Str(m.mtopic))];
    DeleteAppend(p + c, t, "mtopic");
    DeleteAppend(p, c, "mtopic");
    assert Delete(t, "mtopic") == [];
  }

  /** The common fields after class-specific fields that do not share their keys. */
  lemma LookupCommon(p: Fields, m: Message)
    requires forall k :: k in Keys(p) ==> k !in ["mtype", "tag", "timestamp", "mtopic"]
    ensures Lookup(p + CommonFields(m), "mtype") == Some(Int(m.mtype))
    ensures Lookup(p + CommonFields(m), "tag") == Some(Tag(m.tag))
    ensures Lookup(p + CommonFields(m), "timestamp") == Some(Int(m.timestamp))
  {
    var c := CommonFields(m);
    LookupAfter(p, c, "mtype");
    LookupAfter(p, c, "tag");
    LookupAfter(p, c, "timestamp");
    assert c[1..] == [("tag", Tag(m.tag)), ("timestamp", Int(m.timestamp))];
    assert c[1..][1..] == [("timestamp", Int(m.timestamp))];
  }

  /** The rendered form holds the kind, tag and timestamp of the message, and no topic. */
  lemma RenderCommonFields(m: Message)
    ensures Lookup(Render(m), "mtype") == Some(Int(m.mtype))
    ensures Lookup(Render(m), "tag") == Some(Tag(m.tag))
    ensures Lookup(Render(m), "timestamp") == Some(Int(m.timestamp))
    ensures Lookup(Render(m), "mtopic") == None
  {
    RenderDropsOnlyTopic(m);
    LookupCommon(PayloadFields(m.payload), m);
  }

  /**
   * The keys of the rendered form are distinct: the class-specific keys, then
   * mtype, tag and timestamp.
   */
  lemma RenderKeys(m: Message)
    ensures Keys(Render(m)) == Keys(PayloadFields(m.payload)) + ["mtype", "tag", "timestamp"]
    ensures DistinctKeys(Render(m))
  {
    RenderDropsOnlyTopic(m);
    KeysAppend(PayloadFields(m.payload), CommonFields(m));
    CommonKeys(m);
    var r, f := Render(m), FieldsOf(m);
    assert forall i :: 0 <= i < |r| ==> r[i] == f[i];
  }

  /** Messages of one class with the same class-specific fields have the same payload. */
  lemma PayloadFieldsInjective(p1: Payload, p2: Payload)
    requires ClassName(p1) == ClassName(p2)
    requires PayloadFields(p1) == PayloadFields(p2)
    ensures p1 == p2
  {
    match p1
    case CubeFlipped(_, _, _) =>
      assert PayloadFields(p1)[1] == PayloadFields(p2)[1] && PayloadFields(p1)[2] == PayloadFields(p2)[2];
    case Measurements(_, _) =>
      assert PayloadFields(p1)[1] == PayloadFields(p2)[1];
    case SideConfig(_, _) =>
      assert PayloadFields(p1)[1] == PayloadFields(p2)[1];
    case _ =>
  }

  /**
   * Nothing but the topic is lost: two messages of the same class that travel on
   * the same topic and render alike are equal.
   */
  lemma RenderInjective(m1: Message, m2: Message)
    requires ClassName(m1.payload) == ClassName(m2.payload)
    requires m1.mtopic == m2.mtopic
    requires Render(m1) == Render(m2)
    ensures m1 == m2
  {
    RenderDropsOnlyTopic(m1);
    RenderDropsOnlyTopic(m2);
    var p1, p2 := PayloadFields(m1.payload), PayloadFields(m2.payload);
    var c1, c2 := CommonFields(m1), CommonFields(m2);
    assert |p1| == |p2| by {
      assert |p1 + c1| == |p2 + c2|;
    }
    assert p1 == (p1 + c1)[..|p1|] && p2 == (p2 + c2)[..|p2|];
    assert c1 == (p1 + c1)[|p1|..] && c2 == (p2 + c2)[|p2|..];
    PayloadFieldsInjective(m1.payload, m2.payload);
    assert c1[0] == c2[0] && c1[1] == c2[1] && c1[2] == c2[2];
  }
}
