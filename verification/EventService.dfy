/** `handle_event` in its own imperative form: a session over shared tables that other
    workers may change at every await. */
module EventService {
  import opened Wrappers
  import opened Ingestion
  import opened IngestionSerial

  /** What the other workers make of the tables while this handler waits for the k-th time. */
  type Interference = (nat, Tables) -> Tables

  /** The protocol's handler, step by step, with the interference in between. */
  function Interleaved(t: Tables, e: Event, pc: Pc, others: Interference, k: nat): (Tables, Outcome)
    decreases Rank(pc)
  {
    if pc.Done? then (t, pc.outcome)
    else
      var turn := Advance(others(k, t), e, pc);
      Interleaved(turn.tables, e, turn.pc, others, k + 1)
  }

  class Database {
    var ledger: set<string>
    var connections: set<string>
    var subscriptions: map<string, string>
    var conferences: map<string, Row>
    var nextId: nat
    var queue: seq<nat>

    constructor (t: Tables)
      ensures Now() == t && queue == []
    {
      ledger, connections, subscriptions := t.ledger, t.connections, t.subscriptions;
      conferences, nextId, queue := t.conferences, t.nextId, [];
    }

    function Now(): Tables
      reads this
    {
      Tables(ledger, connections, subscriptions, conferences, nextId)
    }

    /** Waiting: the other workers take their steps. */
    method Await(others: Interference, k: nat)
      modifies this
      ensures Now() == others(k, old(Now())) && queue == old(queue)
    {
      var t := others(k, Now());
      ledger, connections, subscriptions := t.ledger, t.connections, t.subscriptions;
      conferences, nextId := t.conferences, t.nextId;
    }

    /** `UPDATE conferences SET transcript_resource_name = ... WHERE id = ...`; false when no row matches. */
    method UpdateTranscript(record: string, id: nat, transcript: Option<string>) returns (matched: bool)
      modifies this
      ensures matched == HasRow(old(Now()), record, id)
      ensures Now() == if matched then SetTranscript(old(Now()), record, transcript) else old(Now())
      ensures queue == old(queue)
    {
      matched := record in conferences && conferences[record].id == id;
      if matched {
        conferences := conferences[record := conferences[record].(transcript := transcript)];
      }
    }

    method HandleEvent(e: Event, others: Interference) returns (r: Outcome)
      modifies this
      ensures (Now(), r) == Interleaved(old(Now()), e, Checking, others, 0)
      ensures queue == old(queue) + if r.Enqueued? then [r.id] else []
    {
      ghost var final := Interleaved(Now(), e, Checking, others, 0);
      Await(others, 0);
      if e.message in ledger {
        return Duplicate;
      }
      assert final == Interleaved(Now(), e, Recording, others, 1);
      Await(others, 1);
      if e.message in ledger {
        return Duplicate;  // the unique message id rejects the insert
      }
      ledger := ledger + {e.message};
      if e.record.None? || e.subscription.None? {
        return Ignored;
      }
      assert final == Interleaved(Now(), e, Routing, others, 2);
      Await(others, 2);
      if e.subscription.value !in subscriptions {
        return Ignored;
      }
      var connection := subscriptions[e.subscription.value];
      assert final == Interleaved(Now(), e, Looking(connection), others, 3);
      r := Conclude(e, connection, others);
    }

    /** From the conference lookup to the answer. */
    method Conclude(e: Event, connection: string, others: Interference) returns (r: Outcome)
      requires e.record.Some? && e.subscription.Some?
      modifies this
      ensures (Now(), r) == Interleaved(old(Now()), e, Looking(connection), others, 3)
      ensures queue == old(queue) + if r.Enqueued? then [r.id] else []
    {
      ghost var final := Interleaved(Now(), e, Looking(connection), others, 3);
      var record := e.record.value;
      var id: nat;
      Await(others, 3);
      if record in conferences {
        id := conferences[record].id;
        var seen := conferences[record].transcript;
        assert final == Interleaved(Now(), e, Updating(id, seen), others, 4);
        Await(others, 4);
        if e.transcript.Some? && e.transcript != seen {
          var matched := UpdateTranscript(record, id, e.transcript);
          assert final == Interleaved(Now(), e, if matched then Refreshing(id) else Done(Failed), others, 5);
          if !matched {
            return Failed;
          }
        }
      } else {
        assert final == Interleaved(Now(), e, Inserting(connection), others, 4);
        Await(others, 4);
        if record !in conferences && connection in connections {
          id := nextId;
          conferences := conferences[record := Row(nextId, connection, e.transcript)];
          nextId := nextId + 1;
        } else {
          assert final == Interleaved(Now(), e, Reloading, others, 5);
          r := Reload(e, others);
          return;
        }
      }
      assert final == Interleaved(Now(), e, Refreshing(id), others, 5);
      r := Enqueue(e, id, others, 5);
    }

    /** The conflict path: another worker inserted the conference. */
    method Reload(e: Event, others: Interference) returns (r: Outcome)
      requires e.record.Some? && e.subscription.Some?
      modifies this
      ensures (Now(), r) == Interleaved(old(Now()), e, Reloading, others, 5)
      ensures queue == old(queue) + if r.Enqueued? then [r.id] else []
    {
      ghost var final := Interleaved(Now(), e, Reloading, others, 5);
      var record := e.record.value;
      Await(others, 5);
      if record !in conferences {
        return Ignored;
      }
      var id := conferences[record].id;
      var k := 6;
      if e.transcript.Some? && conferences[record].transcript.None? {
        assert final == Interleaved(Now(), e, Repairing(id), others, 6);
        Await(others, 6);
        var matched := UpdateTranscript(record, id, e.transcript);
        assert final == Interleaved(Now(), e, if matched then Refreshing(id) else Done(Failed), others, 7);
        if !matched {
          return Failed;
        }
        k := 7;
      }
      assert final == Interleaved(Now(), e, Refreshing(id), others, k);
      r := Enqueue(e, id, others, k);
    }

    /** `session.refresh` and `enqueue_notes_pipeline`. */
    method Enqueue(e: Event, id: nat, others: Interference, k: nat) returns (r: Outcome)
      requires e.record.Some?
      modifies this
      ensures (Now(), r) == Interleaved(old(Now()), e, Refreshing(id), others, k)
      ensures queue == old(queue) + if r.Enqueued? then [r.id] else []
    {
      ghost var final := Interleaved(Now(), e, Refreshing(id), others, k);
      Await(others, k);
      if e.record.value !in conferences || conferences[e.record.value].id != id {
        return Failed;  // nothing left to refresh
      }
      assert final == Interleaved(Now(), e, Enqueuing(id), others, k + 1);
      Await(others, k + 1);
      assert final == Interleaved(Now(), e, Done(Enqueued(id)), others, k + 2);
      queue := queue + [id];
      return Enqueued(id);
    }
  }

  /** Undisturbed, a handler does what the sequential reference says. */
  lemma UndisturbedIsHandle(t: Tables, e: Event)
    requires Sound(t)
    ensures Interleaved(t, e, Checking, (k, u) => u, 0) == Handle(t, e)
  {
    var quiet: Interference := (k, u) => u;
    if e.message !in t.ledger {
      var t1 := t.(ledger := t.ledger + {e.message});
      assert Interleaved(t, e, Checking, quiet, 0) == Interleaved(t, e, Recording, quiet, 1);
      if e.record.Some? && e.subscription.Some? {
        assert Interleaved(t, e, Recording, quiet, 1) == Interleaved(t1, e, Routing, quiet, 2);
        if Routed(t, e) {
          UndisturbedConclude(t1, e, ConnectionOf(t, e));
        }
      }
    }
  }

  lemma UndisturbedConclude(t: Tables, e: Event, c: string)
    requires e.record.Some? && c in t.connections
    ensures var r := e.record.value;
            Interleaved(t, e, Looking(c), (k, u) => u, 3) ==
              if r in t.conferences
              then (if e.transcript.Some? then SetTranscript(t, r, e.transcript) else t, Enqueued(t.conferences[r].id))
              else (Insert(t, r, c, e.transcript), Enqueued(t.nextId))
  {
    var quiet: Interference := (k, u) => u;
    var r := e.record.value;
    if r in t.conferences {
      var row := t.conferences[r];
      if e.transcript.Some? { assert row.transcript == e.transcript ==> SetTranscript(t, r, e.transcript) == t; }
      var u := if e.transcript.Some? then SetTranscript(t, r, e.transcript) else t;
      assert Interleaved(t, e, Looking(c), quiet, 3) == Interleaved(t, e, Updating(row.id, row.transcript), quiet, 4)
             == Interleaved(u, e, Refreshing(row.id), quiet, 5) == Interleaved(u, e, Enqueuing(row.id), quiet, 6)
             == Interleaved(u, e, Done(Enqueued(row.id)), quiet, 7);
    } else {
      var u := Insert(t, r, c, e.transcript);
      assert Interleaved(t, e, Looking(c), quiet, 3) == Interleaved(t, e, Inserting(c), quiet, 4)
             == Interleaved(u, e, Refreshing(t.nextId), quiet, 5) == Interleaved(u, e, Enqueuing(t.nextId), quiet, 6)
             == Interleaved(u, e, Done(Enqueued(t.nextId)), quiet, 7);
    }
  }
}
