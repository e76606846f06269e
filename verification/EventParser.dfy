/** `app/events/parser.py`: from a Pub/Sub push envelope to the keys that ingestion works on. */
module EventParser {
  import opened Wrappers
  import opened Text
  import Ingestion

  datatype Json =
    | Null
    | Bool(b: bool)
    | Num(n: int)
    | Str(s: string)
    | List(items: seq<Json>)
    | Object(fields: map<string, Json>)

  datatype ParseError = MissingMessage | MissingMessageId | MissingData | InvalidPayload | NotAnObject

  datatype MeetEvent = MeetEvent(
    messageId: Json,
    eventType: Json,
    subscriptionName: Option<string>,
    recordName: Option<string>,
    transcriptName: Option<string>)

  /** `Unhandled` is an AttributeError or TypeError that the parser lets escape. */
  datatype Outcome = Parsed(event: MeetEvent) | Invalid(error: ParseError) | Unhandled

  const MARKER := "/subscriptions/"
  const RECORDS := "conferenceRecords"

  /** `dict.get` */
  function Get(fields: map<string, Json>, key: string): Json {
    if key in fields then fields[key] else Null
  }

  predicate Truthy(j: Json)
    ensures Truthy(j) <==> j !in {Null, Bool(false), Num(0), Str(""), List([]), Object(map[])}
  {
    match j
    case Null => false
    case Bool(b) => b
    case Num(n) => n != 0
    case Str(s) => s != ""
    case List(items) => items != []
    case Object(fields) => fields != map[]
  }

  /** `_subscription_name_from_source`, on a string. */
  function SubscriptionNameFrom(source: string): Option<string> {
    var at := Find(source, MARKER);
    if at.None? then None else Some("subscriptions/" + source[at.value + |MARKER|..])
  }

  /** `_conference_record_from` */
  function ConferenceRecordFrom(name: string): Option<string> {
    var parts := Split(name, '/');
    if |parts| >= 2 && parts[0] == RECORDS then Some(parts[0] + "/" + parts[1]) else None
  }

  /** The resource name inside `data[key]`, if `data[key]` is an object with one. */
  function NameIn(data: map<string, Json>, key: string): Option<Json> {
    var x := Get(data, key);
    if x.Object? && Truthy(Get(x.fields, "name")) then Some(Get(x.fields, "name")) else None
  }

  /** The transcript and record names of a payload; `None` when a name is not a string. */
  function Names(data: map<string, Json>): Option<(Option<string>, Option<string>)> {
    var t := NameIn(data, "transcript");
    if t.Some? && !t.value.Str? then None
    else
      var transcript := if t.Some? then Some(t.value.s) else None;
      var fromTranscript := if t.Some? then ConferenceRecordFrom(t.value.s) else None;
      var r := NameIn(data, "conferenceRecord");
      if fromTranscript.Some? || r.None? then Some((transcript, fromTranscript))
      else if !r.value.Str? then None
      else Some((transcript, ConferenceRecordFrom(r.value.s)))
  }

  /** `decode` is base64 and JSON decoding together; `None` is what either of them rejects. */
  function ParsePush(envelope: map<string, Json>, decode: string -> Option<Json>): Outcome {
    var message := Get(envelope, "message");
    if !message.Object? then Invalid(MissingMessage)
    else
      var m := message.fields;
      var id := if Truthy(Get(m, "messageId")) then Get(m, "messageId") else Get(m, "message_id");
      var raw := Get(m, "data");
      if !Truthy(id) then Invalid(MissingMessageId)
      else if !Truthy(raw) then Invalid(MissingData)
      else if !raw.Str? then Unhandled
      else if decode(raw.s).None? then Invalid(InvalidPayload)
      else if !decode(raw.s).value.Object? then Invalid(NotAnObject)
      else SelectFields(id, Get(m, "attributes"), decode(raw.s).value.fields)
  }

  /** The field selection of `parse_push` once the payload is decoded. */
  function SelectFields(id: Json, attributes: Json, data: map<string, Json>): Outcome {
    var known := if Truthy(attributes) then attributes else Object(map[]);
    if !known.Object? then Unhandled
    else
      var eventType := if "ce-type" in known.fields then known.fields["ce-type"] else Str("");
      var source := Get(known.fields, "ce-source");
      var names := Names(data);
      if (Truthy(source) && !source.Str?) || names.None? then Unhandled
      else
        Parsed(MeetEvent(id, eventType, if Truthy(source) then SubscriptionNameFrom(source.s) else None,
                         names.value.1, names.value.0))
  }

  // ---------------------------------------------------------------- what is refused

  predicate Filled(fields: map<string, Json>, key: string) {
    key in fields && Truthy(fields[key])
  }

  /** The checks of `parse_push` in their order: which pushes are refused, with which error. */
  lemma RefusedIff(envelope: map<string, Json>, decode: string -> Option<Json>)
    ensures var o := ParsePush(envelope, decode);
            && (o == Invalid(MissingMessage) <==> !("message" in envelope && envelope["message"].Object?))
            && (o != Invalid(MissingMessage) ==>
                  var m := envelope["message"].fields;
                  && (o == Invalid(MissingMessageId) <==> !Filled(m, "messageId") && !Filled(m, "message_id"))
                  && (o != Invalid(MissingMessageId) ==>
                        && (o == Invalid(MissingData) <==> !Filled(m, "data"))
                        && (o == Invalid(InvalidPayload) <==> Filled(m, "data") && m["data"].Str? && decode(m["data"].s) == None)
                        && (o == Invalid(NotAnObject) <==>
                              Filled(m, "data") && m["data"].Str? && decode(m["data"].s).Some? && !decode(m["data"].s).value.Object?)))
  {
  }

  /** A parsed push has a decodable object as its payload, and its fields are taken from there
      and from the attributes. */
  lemma ParsedFields(envelope: map<string, Json>, decode: string -> Option<Json>)
    requires ParsePush(envelope, decode).Parsed?
    ensures "message" in envelope && envelope["message"].Object?
    ensures var m, e := envelope["message"].fields, ParsePush(envelope, decode).event;
            && Filled(m, "data") && m["data"].Str? && decode(m["data"].s).Some? && decode(m["data"].s).value.Object?
            && (var id := if Filled(m, "messageId") then "messageId" else "message_id"; Filled(m, id) && e.messageId == m[id])
            && (var data := decode(m["data"].s).value.fields;
                forall name :: e.transcriptName == Some(name) <==>
                                 && "transcript" in data && data["transcript"].Object?
                                 && Filled(data["transcript"].fields, "name") && data["transcript"].fields["name"] == Str(name))
            && (var data := decode(m["data"].s).value.fields;
                e.recordName ==
                  if e.transcriptName.Some? && ConferenceRecordFrom(e.transcriptName.value).Some? then ConferenceRecordFrom(e.transcriptName.value)
                  else if "conferenceRecord" in data && data["conferenceRecord"].Object? && Filled(data["conferenceRecord"].fields, "name")
                  then ConferenceRecordFrom(data["conferenceRecord"].fields["name"].s) else None)
            && (if Filled(m, "attributes") then
                  && m["attributes"].Object?
                  && (var a := m["attributes"].fields;
                      && e.eventType == (if "ce-type" in a then a["ce-type"] else Str(""))
                      && (e.subscriptionName.Some? <==> Filled(a, "ce-source") && exists i: nat :: OccursAt(a["ce-source"].s, "/subscriptions/", i)))
                else e.eventType == Str("") && e.subscriptionName.None?)
  {
  }

  // ---------------------------------------------------------------- record names

  /** The name of a conference record itself. */
  predicate IsRecordName(r: string) {
    |RECORDS| + 1 <= |r| && r[..|RECORDS| + 1] == RECORDS + "/" && '/' !in r[|RECORDS| + 1..]
  }

  /** A record's name, and the name of anything below it, give back exactly that record. */
  lemma RecordOfPath(r: string, rest: string)
    requires IsRecordName(r)
    ensures ConferenceRecordFrom(r) == Some(r)
    ensures ConferenceRecordFrom(r + "/" + rest) == Some(r)
  {
    var id := r[|RECORDS| + 1..];
    assert r == RECORDS + "/" + id;
    SplitJoin([RECORDS, id], '/');
    assert Join([RECORDS, id], "/") == r;
    var parts := [RECORDS, id] + Split(rest, '/');
    SplitParts(rest, '/');
    SplitJoin(parts, '/');
    JoinAppend([RECORDS, id], Split(rest, '/'), "/");
    JoinSplit(rest, '/');
    assert Join(parts, "/") == r + "/" + rest;
  }

  /** Only records and what lies below them give a record, so a record name is never made up. */
  lemma RecordIff(name: string, r: string)
    ensures ConferenceRecordFrom(name) == Some(r) <==>
              IsRecordName(r) && (name == r || (exists rest :: name == r + "/" + rest))
  {
    if ConferenceRecordFrom(name) == Some(r) {
      var parts := Split(name, '/');
      SplitParts(name, '/');
      JoinSplit(name, '/');
      assert r == RECORDS + "/" + parts[1];
      assert r[|RECORDS| + 1..] == parts[1];
      assert parts == [parts[0], parts[1]] + parts[2..];
      if |parts| > 2 {
        JoinAppend([parts[0], parts[1]], parts[2..], "/");
        assert Join([parts[0], parts[1]], "/") == r;
        assert name == r + "/" + Join(parts[2..], "/");
      }
    } else if IsRecordName(r) {
      if name == r { RecordOfPath(r, ""); }
      if rest :| name == r + "/" + rest { RecordOfPath(r, rest); }
    }
  }

  /** Every event of a conference carries the same key: one that names the record itself and
      one that names a transcript below it meet in the same row. */
  lemma SameConferenceSameKey(r: string, rest: string, d1: map<string, Json>, d2: map<string, Json>)
    requires IsRecordName(r)
    requires NameIn(d1, "transcript").None? && NameIn(d1, "conferenceRecord") == Some(Str(r))
    requires NameIn(d2, "transcript") == Some(Str(r + "/" + rest))
    ensures Names(d1) == Some((None, Some(r)))
    ensures Names(d2) == Some((Some(r + "/" + rest), Some(r)))
  {
    RecordOfPath(r, rest);
  }

  /** A parsed record name is canonical, and it agrees with the transcript name whenever the
      transcript names a record. */
  lemma ParsedKeys(envelope: map<string, Json>, decode: string -> Option<Json>)
    requires ParsePush(envelope, decode).Parsed?
    ensures var e := ParsePush(envelope, decode).event;
            && Truthy(e.messageId)
            && (e.recordName.Some? ==> IsRecordName(e.recordName.value))
            && (e.transcriptName.Some? ==> e.transcriptName.value != "")
            && (e.transcriptName.Some? && ConferenceRecordFrom(e.transcriptName.value).Some? ==>
                  e.recordName == ConferenceRecordFrom(e.transcriptName.value))
            && (e.subscriptionName.Some? ==> "subscriptions/" <= e.subscriptionName.value)
  {
    var e := ParsePush(envelope, decode).event;
    var data := decode(Get(envelope["message"].fields, "data").s).value.fields;
    assert Names(data) == Some((e.transcriptName, e.recordName));
    if e.recordName.Some? {
      var t, c := NameIn(data, "transcript"), NameIn(data, "conferenceRecord");
      if t.Some? && ConferenceRecordFrom(t.value.s).Some? {
        RecordIff(t.value.s, e.recordName.value);
      } else {
        RecordIff(c.value.s, e.recordName.value);
      }
    }
  }

  // ---------------------------------------------------------------- subscription names

  const HOST := "//workspaceevents.googleapis.com"

  lemma OccursThere(hay: string, needle: string, i: nat)
    ensures OccursAt(hay, needle, i) ==> forall k :: 0 <= k < |needle| ==> hay[i + k] == needle[k]
  {
    if OccursAt(hay, needle, i) {
      assert forall k :: 0 <= k < |needle| ==> hay[i..i + |needle|][k] == needle[k];
    }
  }

  /** A host in which no slash is followed by the marker's second letter does not contain
      the marker's beginning. */
  lemma MarkerAfter(host: string, marker: string, id: string)
    requires |marker| >= 2 && marker[0] == '/'
    requires forall i :: 0 <= i < |host| && host[i] == '/' ==> i + 1 < |host| && host[i + 1] != marker[1]
    ensures Find(host + marker + id, marker) == Some(|host|)
  {
    var source := host + marker + id;
    assert source[|host|..|host| + |marker|] == marker;
    assert OccursAt(source, marker, |host|);
    forall i: nat | i < |host|
      ensures !OccursAt(source, marker, i)
    {
      OccursThere(source, marker, i);
      assert source[i] == host[i];
      assert i + 1 < |host| ==> source[i + 1] == host[i + 1];
    }
  }

  /** In a source of the provider the marker first occurs right after the host. */
  lemma MarkerAfterHost(id: string)
    ensures Find(HOST + MARKER + id, MARKER) == Some(|HOST|)
  {
    forall i | 0 <= i < |HOST| && HOST[i] == '/'
      ensures i + 1 < |HOST| && HOST[i + 1] != 's'
    {
      assert i <= 1;
    }
    MarkerAfter(HOST, MARKER, id);
  }

  /** The name under which the provider created a subscription is the name its events carry. */
  lemma SubscriptionRoundTrip(name: string)
    requires "subscriptions/" <= name
    ensures SubscriptionNameFrom(HOST + "/" + name) == Some(name)
  {
    var id := name[|"subscriptions/"|..];
    assert name == "subscriptions/" + id;
    assert "/" + "subscriptions/" == MARKER;
    assert HOST + "/" + name == HOST + MARKER + id;
    MarkerAfterHost(id);
    assert (HOST + MARKER + id)[|HOST| + |MARKER|..] == id;
  }

  // ---------------------------------------------------------------- the whole push

  /** The event that ingestion handles. */
  function ToEvent(e: MeetEvent): Option<Ingestion.Event> {
    if e.messageId.Str? then Some(Ingestion.Event(e.messageId.s, e.recordName, e.subscriptionName, e.transcriptName)) else None
  }

  function DataOf(transcript: Option<string>, record: string): map<string, Json> {
    if transcript.Some? then map["transcript" := Object(map["name" := Str(transcript.value)])]
    else map["conferenceRecord" := Object(map["name" := Str(record)])]
  }

  function Attributes(eventType: string, subscription: string): map<string, Json> {
    map["ce-type" := Str(eventType), "ce-source" := Str(HOST + "/" + subscription)]
  }

  /** The push that the provider sends for an event; Pub/Sub spells the id either way. */
  function PushOf(message: string, snakeCase: bool, eventType: string, subscription: string, raw: string): map<string, Json> {
    map["message" := Object(map[
      (if snakeCase then "message_id" else "messageId") := Str(message),
      "data" := Str(raw),
      "attributes" := Object(Attributes(eventType, subscription))])]
  }

  lemma AttributesSelect(id: Json, eventType: string, subscription: string, data: map<string, Json>)
    requires Names(data).Some?
    ensures SelectFields(id, Object(Attributes(eventType, subscription)), data) ==
              Parsed(MeetEvent(id, Str(eventType), SubscriptionNameFrom(HOST + "/" + subscription),
                               Names(data).value.1, Names(data).value.0))
  {
    var known := Attributes(eventType, subscription);
    assert "ce-type" in known;
    assert Get(known, "ce-source") == Str(HOST + "/" + subscription);
  }

  lemma PushSelects(message: string, snakeCase: bool, eventType: string, subscription: string, raw: string, decode: string -> Option<Json>)
    requires message != "" && raw != "" && decode(raw).Some? && decode(raw).value.Object?
    ensures ParsePush(PushOf(message, snakeCase, eventType, subscription, raw), decode) ==
              SelectFields(Str(message), Object(Attributes(eventType, subscription)), decode(raw).value.fields)
  {
    var m := Get(PushOf(message, snakeCase, eventType, subscription, raw), "message").fields;
    assert Get(m, "data") == Str(raw) && Get(m, "attributes") == Object(Attributes(eventType, subscription));
    assert Get(m, if snakeCase then "message_id" else "messageId") == Str(message);
    assert snakeCase ==> Get(m, "messageId") == Null;
  }

  /** Parsing undoes sending: a push for a conference record, or for a transcript below one,
      arrives as that event. */
  lemma PushRoundTrip(e: Ingestion.Event, snakeCase: bool, eventType: string, raw: string, decode: string -> Option<Json>)
    requires e.message != "" && raw != ""
    requires e.subscription.Some? && "subscriptions/" <= e.subscription.value
    requires e.record.Some? && IsRecordName(e.record.value)
    requires e.transcript.Some? ==> exists rest :: e.transcript.value == e.record.value + "/" + rest
    requires decode(raw) == Some(Object(DataOf(e.transcript, e.record.value)))
    ensures var o := ParsePush(PushOf(e.message, snakeCase, eventType, e.subscription.value, raw), decode);
            o.Parsed? && o.event.eventType == Str(eventType) && ToEvent(o.event) == Some(e)
  {
    SubscriptionRoundTrip(e.subscription.value);
    var data := DataOf(e.transcript, e.record.value);
    if e.transcript.Some? {
      var rest :| e.transcript.value == e.record.value + "/" + rest;
      RecordOfPath(e.record.value, rest);
      assert NameIn(data, "transcript") == Some(Str(e.transcript.value));
    } else {
      RecordOfPath(e.record.value, "");
      assert NameIn(data, "transcript").None? && NameIn(data, "conferenceRecord") == Some(Str(e.record.value));
    }
    assert Names(data) == Some((e.transcript, e.record));
    PushSelects(e.message, snakeCase, eventType, e.subscription.value, raw, decode);
    AttributesSelect(Str(e.message), eventType, e.subscription.value, data);
  }
}
