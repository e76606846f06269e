/** Ingestion one event at a time: the reference behaviour, its closed form, and
    exactly when the order of delivery does not matter. */
module IngestionSerial {
  import opened Wrappers
  import opened Ingestion

  /** The event names a record and comes from a known subscription. */
  predicate Routed(t: Tables, e: Event) {
    e.record.Some? && e.subscription.Some? && e.subscription.value in t.subscriptions
  }

  function ConnectionOf(t: Tables, e: Event): string
    requires Routed(t, e)
  {
    t.subscriptions[e.subscription.value]
  }

  predicate About(t: Tables, e: Event, record: string) {
    Routed(t, e) && e.record.value == record
  }

  predicate Names(t: Tables, e: Event, record: string) {
    About(t, e, record) && e.transcript.Some?
  }

  /** One event handled with nobody else around. */
  function Handle(t: Tables, e: Event): (Tables, Outcome) {
    if e.message in t.ledger then (t, Duplicate)
    else
      var t1 := t.(ledger := t.ledger + {e.message});
      if !Routed(t, e) then (t1, Ignored)
      else
        var record, connection := e.record.value, ConnectionOf(t, e);
        if record in t.conferences then
          (if e.transcript.Some? then SetTranscript(t1, record, e.transcript) else t1, Enqueued(t.conferences[record].id))
        else if connection in t.connections then
          (Insert(t1, record, connection, e.transcript), Enqueued(t.nextId))
        else (t1, Ignored)
  }

  function HandleAll(t: Tables, es: seq<Event>): Tables {
    if |es| == 0 then t else Handle(HandleAll(t, es[..|es| - 1]), es[|es| - 1]).0
  }

  predicate Carries(es: seq<Event>, message: string) {
    exists i :: 0 <= i < |es| && es[i].message == message
  }

  /** The answer to the i-th event of the stream. */
  function OutcomeAt(t: Tables, es: seq<Event>, i: nat): Outcome
    requires i < |es|
  {
    Handle(HandleAll(t, es[..i]), es[i]).1
  }

  /** A conference row with its id abstracted. */
  datatype Conference = Conference(connection: string, transcript: Option<string>)

  function Content(t: Tables, record: string): Option<Conference> {
    if record in t.conferences
    then Some(Conference(t.conferences[record].connection, t.conferences[record].transcript))
    else None
  }

  ghost predicate SameConferences(t: Tables, u: Tables) {
    forall r: string :: Content(t, r) == Content(u, r)
  }

  /** All messages are new and no message occurs twice. */
  ghost predicate Fresh(t: Tables, es: seq<Event>) {
    && (forall i :: 0 <= i < |es| ==> es[i].message !in t.ledger)
    && (forall i, j :: 0 <= i < j < |es| ==> es[i].message != es[j].message)
  }

  // ---------------------------------------------------------------- closed form

  /** Transcript name of the last event that names one for `record`. */
  function LastName(t: Tables, es: seq<Event>, record: string): Option<string> {
    if |es| == 0 then None
    else
      var e := es[|es| - 1];
      if Names(t, e, record) then e.transcript else LastName(t, es[..|es| - 1], record)
  }

  /** Connection of the first event about `record`. */
  function FirstConnection(t: Tables, es: seq<Event>, record: string): Option<string> {
    if |es| == 0 then None
    else
      var f := FirstConnection(t, es[..|es| - 1], record);
      var e := es[|es| - 1];
      if f.Some? then f else if About(t, e, record) then Some(ConnectionOf(t, e)) else None
  }

  /** What a stream of new messages leaves of one record: the first mention decides the
      connection, the last name decides the transcript. */
  function Expected(t: Tables, es: seq<Event>, record: string): Option<Conference> {
    var name := LastName(t, es, record);
    if record in t.conferences then
      Some(Conference(t.conferences[record].connection, if name.Some? then name else t.conferences[record].transcript))
    else if FirstConnection(t, es, record).Some? then
      Some(Conference(FirstConnection(t, es, record).value, name))
    else None
  }

  lemma HandleKeeps(t: Tables, e: Event)
    requires Sound(t)
    ensures var t' := Handle(t, e).0;
            && Sound(t') && t'.subscriptions == t.subscriptions && t'.connections == t.connections
            && t'.ledger == t.ledger + {e.message}
            && forall r :: r in t.conferences ==> HasRow(t', r, t.conferences[r].id)
  {
    if Routed(t, e) && e.message !in t.ledger {
      var t1 := t.(ledger := t.ledger + {e.message});
      if e.record.value in t.conferences {
        if e.transcript.Some? { SetTranscriptKeeps(t1, e.record.value, e.transcript); }
      } else {
        InsertKeeps(t1, e.record.value, ConnectionOf(t, e), e.transcript);
      }
    }
  }

  lemma {:induction false} SerialFrame(t: Tables, es: seq<Event>)
    requires Sound(t)
    ensures var t' := HandleAll(t, es);
            && Sound(t') && t'.subscriptions == t.subscriptions && t'.connections == t.connections
            && forall m :: m in t'.ledger <==> m in t.ledger || Carries(es, m)
  {
    if |es| > 0 {
      var n := |es| - 1;
      SerialFrame(t, es[..n]);
      HandleKeeps(HandleAll(t, es[..n]), es[n]);
      forall m: string ensures Carries(es, m) <==> Carries(es[..n], m) || es[n].message == m {
        if Carries(es[..n], m) {
          var i :| 0 <= i < n && es[..n][i].message == m;
          assert es[i].message == m;
        }
        if Carries(es, m) && es[n].message != m {
          var i :| 0 <= i < |es| && es[i].message == m;
          assert es[..n][i].message == m;
        }
      }
    }
  }

  /** What one new message does to one record. */
  lemma HandleContent(t: Tables, e: Event, record: string)
    requires Sound(t) && e.message !in t.ledger
    ensures var before, after := Content(t, record), Content(Handle(t, e).0, record);
            if !About(t, e, record) then after == before
            else if before.None? then after == Some(Conference(ConnectionOf(t, e), e.transcript))
            else after == Some(Conference(before.value.connection, if e.transcript.Some? then e.transcript else before.value.transcript))
  {
  }

  /** A stream of new messages leaves exactly the expected conferences. */
  lemma {:induction false} SerialForm(t: Tables, es: seq<Event>, record: string)
    requires Sound(t) && Fresh(t, es)
    ensures Content(HandleAll(t, es), record) == Expected(t, es, record)
  {
    if |es| > 0 {
      var n := |es| - 1;
      SerialForm(t, es[..n], record);
      SerialFrame(t, es[..n]);
      NameIsMention(t, es[..n], record);
      ExpectedStep(t, es, record);
      HandleContent(HandleAll(t, es[..n]), es[n], record);
    }
  }

  lemma {:induction false} NameIsMention(t: Tables, es: seq<Event>, record: string)
    ensures LastName(t, es, record).Some? ==> FirstConnection(t, es, record).Some?
  {
    if |es| > 0 { NameIsMention(t, es[..|es| - 1], record); }
  }

  lemma ExpectedStep(t: Tables, es: seq<Event>, record: string)
    requires |es| > 0
    requires LastName(t, es[..|es| - 1], record).Some? ==> FirstConnection(t, es[..|es| - 1], record).Some?
    ensures var e := es[|es| - 1];
            var before, after := Expected(t, es[..|es| - 1], record), Expected(t, es, record);
            if !About(t, e, record) then after == before
            else if before.None? then after == Some(Conference(ConnectionOf(t, e), e.transcript))
            else after == Some(Conference(before.value.connection, if e.transcript.Some? then e.transcript else before.value.transcript))
  {
  }

  lemma {:induction false} LastNameIndex(t: Tables, es: seq<Event>, record: string) returns (i: int)
    ensures LastName(t, es, record).None? ==> forall j :: 0 <= j < |es| ==> !Names(t, es[j], record)
    ensures LastName(t, es, record).Some? ==>
              && 0 <= i < |es| && Names(t, es[i], record) && es[i].transcript == LastName(t, es, record)
              && forall j :: i < j < |es| ==> !Names(t, es[j], record)
  {
    i := -1;
    if |es| > 0 {
      var n := |es| - 1;
      if Names(t, es[n], record) { i := n; } else { i := LastNameIndex(t, es[..n], record); }
    }
  }

  lemma {:induction false} FirstConnectionIndex(t: Tables, es: seq<Event>, record: string) returns (i: int)
    ensures FirstConnection(t, es, record).None? ==> forall j :: 0 <= j < |es| ==> !About(t, es[j], record)
    ensures FirstConnection(t, es, record).Some? ==>
              && 0 <= i < |es| && About(t, es[i], record) && Some(ConnectionOf(t, es[i])) == FirstConnection(t, es, record)
              && forall j :: 0 <= j < i ==> !About(t, es[j], record)
  {
    i := -1;
    if |es| > 0 {
      var n := |es| - 1;
      i := FirstConnectionIndex(t, es[..n], record);
      if FirstConnection(t, es[..n], record).None? { i := n; }
    }
  }

  // ---------------------------------------------------------------- order

  /** Two events tell the same story: about one record they do not name different
      transcripts, nor, unless the row already exists, different connections. */
  ghost predicate Agree(t: Tables, e: Event, f: Event) {
    Routed(t, e) && Routed(t, f) && e.record == f.record ==>
      && (e.transcript.Some? && f.transcript.Some? ==> e.transcript == f.transcript)
      && (e.record.value !in t.conferences ==> ConnectionOf(t, e) == ConnectionOf(t, f))
  }

  ghost predicate OneStory(t: Tables, es: seq<Event>) {
    forall i, j :: 0 <= i < |es| && 0 <= j < |es| && es[i].message !in t.ledger && es[j].message !in t.ledger ==>
      Agree(t, es[i], es[j])
  }

  ghost predicate SameEvents(es: seq<Event>, fs: seq<Event>) {
    forall e: Event :: e in es <==> e in fs
  }

  lemma SameExpected(t: Tables, es: seq<Event>, fs: seq<Event>, record: string)
    requires Fresh(t, es) && SameEvents(es, fs) && OneStory(t, es)
    ensures Expected(t, es, record) == Expected(t, fs, record)
  {
    var i := LastNameIndex(t, es, record);
    var k := LastNameIndex(t, fs, record);
    var a := FirstConnectionIndex(t, es, record);
    var b := FirstConnectionIndex(t, fs, record);
    if 0 <= i < |es| { assert es[i] in fs; }
    if 0 <= a < |es| { assert es[a] in fs; }
    if 0 <= k < |fs| { assert fs[k] in es; }
    if 0 <= b < |fs| { assert fs[b] in es; }
  }

  lemma SameEventsSameTables(t: Tables, es: seq<Event>, fs: seq<Event>)
    requires Sound(t) && Fresh(t, es) && Fresh(t, fs) && SameEvents(es, fs) && OneStory(t, es)
    ensures SameConferences(HandleAll(t, es), HandleAll(t, fs))
  {
    forall r: string ensures Content(HandleAll(t, es), r) == Content(HandleAll(t, fs), r) {
      SerialForm(t, es, r);
      SerialForm(t, fs, r);
      SameExpected(t, es, fs, r);
    }
  }

  ghost predicate OrderIndependent(t: Tables, es: seq<Event>) {
    forall fs: seq<Event> :: multiset(fs) == multiset(es) ==> SameConferences(HandleAll(t, fs), HandleAll(t, es))
  }

  lemma FreshPermutation(t: Tables, es: seq<Event>, fs: seq<Event>)
    requires Fresh(t, es) && multiset(fs) == multiset(es)
    ensures Fresh(t, fs) && SameEvents(es, fs)
  {
    forall e: Event ensures e in es <==> e in fs {
      assert e in es <==> e in multiset(es);
      assert e in fs <==> e in multiset(fs);
    }
    forall i | 0 <= i < |fs| ensures fs[i].message !in t.ledger {
      assert fs[i] in es;
    }
    forall i, j | 0 <= i < j < |fs| ensures fs[i].message != fs[j].message {
      assert fs[i] in es && fs[j] in es;
      TwoOccurrences(fs, i, j);
      SingleOccurrence(es, fs[i]);
    }
  }

  lemma TwoOccurrences(fs: seq<Event>, i: nat, j: nat)
    requires i < j < |fs|
    ensures fs[i] == fs[j] ==> multiset(fs)[fs[i]] >= 2
  {
    assert fs == fs[..j] + [fs[j]] + fs[j + 1..];
    assert fs[..j][i] == fs[i];
    assert fs[i] in multiset(fs[..j]);
  }

  lemma SingleOccurrence(es: seq<Event>, e: Event)
    requires forall i, j :: 0 <= i < j < |es| ==> es[i].message != es[j].message
    ensures multiset(es)[e] <= 1
  {
    if |es| > 0 {
      var n := |es| - 1;
      assert es == es[..n] + [es[n]];
      SingleOccurrence(es[..n], e);
      if es[n] == e { assert e !in es[..n]; assert e !in multiset(es[..n]); }
    }
  }

  /** `es` with its i-th event moved to the end, or to the front. */
  function MovedLast(es: seq<Event>, i: nat): seq<Event>
    requires i < |es|
  {
    es[..i] + es[i + 1..] + [es[i]]
  }

  function MovedFirst(es: seq<Event>, i: nat): seq<Event>
    requires i < |es|
  {
    [es[i]] + es[..i] + es[i + 1..]
  }

  lemma MovedIsPermutation(es: seq<Event>, i: nat)
    requires i < |es|
    ensures multiset(MovedLast(es, i)) == multiset(es) == multiset(MovedFirst(es, i))
  {
    assert es == es[..i] + [es[i]] + es[i + 1..];
  }

  lemma FirstConnectionOfHead(t: Tables, e: Event, rest: seq<Event>, record: string)
    requires About(t, e, record)
    ensures FirstConnection(t, [e] + rest, record) == Some(ConnectionOf(t, e))
  {
    var i := FirstConnectionIndex(t, [e] + rest, record);
    assert ([e] + rest)[0] == e;
  }

  lemma MovedContents(t: Tables, es: seq<Event>, i: nat, record: string)
    requires Sound(t) && Fresh(t, es) && i < |es| && About(t, es[i], record)
    ensures es[i].transcript.Some? ==>
              Content(HandleAll(t, MovedLast(es, i)), record).Some?
              && Content(HandleAll(t, MovedLast(es, i)), record).value.transcript == es[i].transcript
    ensures record !in t.conferences ==>
              Content(HandleAll(t, MovedFirst(es, i)), record).Some?
              && Content(HandleAll(t, MovedFirst(es, i)), record).value.connection == ConnectionOf(t, es[i])
  {
    MovedIsPermutation(es, i);
    FreshPermutation(t, es, MovedLast(es, i));
    FreshPermutation(t, es, MovedFirst(es, i));
    SerialForm(t, MovedLast(es, i), record);
    SerialForm(t, MovedFirst(es, i), record);
    assert MovedFirst(es, i) == [es[i]] + (es[..i] + es[i + 1..]);
    FirstConnectionOfHead(t, es[i], es[..i] + es[i + 1..], record);
  }

  /** The design promises order-independent ingestion. It holds for a set of new
      messages exactly when no record gets two transcript names or, as a new row, two
      connections: the last name and the first connection win. */
  lemma OrderIndependentIffOneStory(t: Tables, es: seq<Event>)
    requires Sound(t) && Fresh(t, es)
    ensures OrderIndependent(t, es) <==> OneStory(t, es)
  {
    if OneStory(t, es) {
      forall fs: seq<Event> | multiset(fs) == multiset(es) ensures SameConferences(HandleAll(t, fs), HandleAll(t, es)) {
        FreshPermutation(t, es, fs);
        SameEventsSameTables(t, es, fs);
      }
    }
    if OrderIndependent(t, es) {
      forall i, j | 0 <= i < |es| && 0 <= j < |es| ensures Agree(t, es[i], es[j]) {
        if Routed(t, es[i]) && Routed(t, es[j]) && es[i].record == es[j].record {
          var record := es[i].record.value;
          MovedContents(t, es, i, record);
          MovedContents(t, es, j, record);
          MovedIsPermutation(es, i);
          MovedIsPermutation(es, j);
          assert SameConferences(HandleAll(t, MovedLast(es, i)), HandleAll(t, es));
          assert SameConferences(HandleAll(t, MovedLast(es, j)), HandleAll(t, es));
          assert SameConferences(HandleAll(t, MovedFirst(es, i)), HandleAll(t, es));
          assert SameConferences(HandleAll(t, MovedFirst(es, j)), HandleAll(t, es));
        }
      }
    }
  }

  // ---------------------------------------------------------------- duplicates

  /** A message id stands for one message. */
  ghost predicate IdsIdentify(es: seq<Event>) {
    forall i, j :: 0 <= i < |es| && 0 <= j < |es| && es[i].message == es[j].message ==> es[i] == es[j]
  }

  /** The stream without redeliveries. */
  function Distinct(t: Tables, es: seq<Event>): seq<Event> {
    if |es| == 0 then []
    else
      var d, e := Distinct(t, es[..|es| - 1]), es[|es| - 1];
      if e.message in t.ledger || Carries(d, e.message) then d else d + [e]
  }

  lemma {:induction false} DistinctIsFresh(t: Tables, es: seq<Event>)
    ensures Fresh(t, Distinct(t, es))
    ensures forall e :: e in Distinct(t, es) ==> e in es
  {
    if |es| > 0 {
      var n := |es| - 1;
      DistinctIsFresh(t, es[..n]);
      assert es == es[..n] + [es[n]];
    }
  }

  lemma CarriesMore(d: seq<Event>, e: Event, message: string)
    ensures Carries(d + [e], e.message)
    ensures Carries(d, message) ==> Carries(d + [e], message)
  {
    assert (d + [e])[|d|].message == e.message;
    if i :| 0 <= i < |d| && d[i].message == message { assert (d + [e])[i].message == message; }
  }

  lemma {:induction false} DistinctCarries(t: Tables, es: seq<Event>, i: nat)
    requires i < |es| && es[i].message !in t.ledger
    ensures Carries(Distinct(t, es), es[i].message)
  {
    var n := |es| - 1;
    CarriesMore(Distinct(t, es[..n]), es[n], es[i].message);
    if i < n { DistinctCarries(t, es[..n], i); }
  }

  /** Redeliveries change nothing, whatever they carry. */
  lemma {:induction false} RedeliveriesVanish(t: Tables, es: seq<Event>)
    requires Sound(t)
    ensures HandleAll(t, es) == HandleAll(t, Distinct(t, es))
  {
    if |es| > 0 {
      var n := |es| - 1;
      var d, e := Distinct(t, es[..n]), es[n];
      RedeliveriesVanish(t, es[..n]);
      SerialFrame(t, d);
      assert (d + [e])[..|d|] == d;
    }
  }

  lemma DistinctEvents(t: Tables, es: seq<Event>, e: Event)
    requires Sound(t) && IdsIdentify(es)
    ensures e in Distinct(t, es) <==> e in es && e.message !in t.ledger
  {
    DistinctIsFresh(t, es);
    if e in es && e.message !in t.ledger {
      var i :| 0 <= i < |es| && es[i] == e;
      DistinctCarries(t, es, i);
      var k :| 0 <= k < |Distinct(t, es)| && Distinct(t, es)[k].message == e.message;
      assert Distinct(t, es)[k] in es;
    }
  }

  /** At-least-once, out-of-order delivery is harmless: two streams of the same events,
      each in any order and with any repetitions, leave the same conferences. */
  lemma DeliveryDoesNotMatter(t: Tables, es: seq<Event>, fs: seq<Event>)
    requires Sound(t) && IdsIdentify(es) && SameEvents(es, fs) && OneStory(t, es)
    ensures SameConferences(HandleAll(t, es), HandleAll(t, fs))
    ensures HandleAll(t, es).ledger == HandleAll(t, fs).ledger
  {
    var d, f := Distinct(t, es), Distinct(t, fs);
    RedeliveriesVanish(t, es);
    RedeliveriesVanish(t, fs);
    DistinctIsFresh(t, es);
    DistinctIsFresh(t, fs);
    forall i, j | 0 <= i < |fs| && 0 <= j < |fs| && fs[i].message == fs[j].message ensures fs[i] == fs[j] {
      assert fs[i] in es && fs[j] in es;
    }
    forall e: Event ensures e in d <==> e in f {
      DistinctEvents(t, es, e);
      DistinctEvents(t, fs, e);
    }
    forall i, j | 0 <= i < |d| && 0 <= j < |d| ensures Agree(t, d[i], d[j]) {
      assert d[i] in es && d[j] in es;
    }
    SameEventsSameTables(t, d, f);
    SameLedger(t, es, fs);
  }

  lemma SameLedger(t: Tables, es: seq<Event>, fs: seq<Event>)
    requires Sound(t) && SameEvents(es, fs)
    ensures HandleAll(t, es).ledger == HandleAll(t, fs).ledger
  {
    SerialFrame(t, es);
    SerialFrame(t, fs);
    forall m: string ensures Carries(es, m) <==> Carries(fs, m) {
      if i :| 0 <= i < |es| && es[i].message == m { assert es[i] in fs; }
      if i :| 0 <= i < |fs| && fs[i].message == m { assert fs[i] in es; }
    }
  }
}
