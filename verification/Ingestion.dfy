/** Event ingestion (`app/services/event_service.py`) as a concurrent protocol.

    A handler is a program counter that moves from one await point to the next;
    between two awaits it touches the shared tables atomically. The unique columns
    on `message_id` and `conference_record_name` are the only synchronisation. */
module Ingestion {
  import opened Wrappers

  /** A parsed push message (`MeetEvent`). */
  datatype Event = Event(message: string, record: Option<string>, subscription: Option<string>, transcript: Option<string>)

  /** A row of `conferences`, keyed in the table by its unique record name. */
  datatype Row = Row(id: nat, connection: string, transcript: Option<string>)

  /** The committed tables. Keys are the unique columns; row ids are never reused. */
  datatype Tables = Tables(
    ledger: set<string>,
    connections: set<string>,
    subscriptions: map<string, string>,
    conferences: map<string, Row>,
    nextId: nat)

  datatype Outcome = Duplicate | Ignored | Enqueued(id: nat) | Failed

  /** Where a handler waits. `seen` is the transcript name it loaded with the row. */
  datatype Pc =
    | Checking
    | Recording
    | Routing
    | Looking(connection: string)
    | Inserting(connection: string)
    | Updating(id: nat, seen: Option<string>)
    | Reloading
    | Repairing(id: nat)
    | Refreshing(id: nat)
    | Enqueuing(id: nat)
    | Done(outcome: Outcome)

  /** `marks` tells that the step is one at which the handler's place in the
      equivalent sequential order is (re)decided: the ledger commit and every write. */
  datatype Turn = Turn(tables: Tables, pc: Pc, marks: bool)

  predicate HasRow(t: Tables, record: string, id: nat) {
    record in t.conferences && t.conferences[record].id == id
  }

  function SetTranscript(t: Tables, record: string, transcript: Option<string>): Tables
    requires record in t.conferences
  {
    t.(conferences := t.conferences[record := t.conferences[record].(transcript := transcript)])
  }

  function Insert(t: Tables, record: string, connection: string, transcript: Option<string>): Tables {
    t.(conferences := t.conferences[record := Row(t.nextId, connection, transcript)], nextId := t.nextId + 1)
  }

  function Write(t: Tables, record: string, id: nat, transcript: Option<string>): Turn {
    if HasRow(t, record, id) then
      Turn(SetTranscript(t, record, transcript), Refreshing(id), true)
    else
      Turn(t, Done(Failed), false)  // the UPDATE matches no row
  }

  /** One atomic step of a handler. */
  function Advance(t: Tables, e: Event, pc: Pc): Turn {
    var record := e.record.GetOr("");
    match pc
    case Checking =>
      Turn(t, if e.message in t.ledger then Done(Duplicate) else Recording, false)
    case Recording =>
      if e.message in t.ledger then Turn(t, Done(Duplicate), false)
      else
        Turn(t.(ledger := t.ledger + {e.message}),
             if e.record.None? || e.subscription.None? then Done(Ignored) else Routing, true)
    case Routing =>
      var subscription := e.subscription.GetOr("");
      Turn(t, if subscription in t.subscriptions then Looking(t.subscriptions[subscription]) else Done(Ignored), false)
    case Looking(connection) =>
      Turn(t, if record in t.conferences
           then Updating(t.conferences[record].id, t.conferences[record].transcript)
           else Inserting(connection), false)
    case Inserting(connection) =>
      // The unique record name or the foreign key to the connection may reject the row.
      if record in t.conferences || connection !in t.connections then Turn(t, Reloading, false)
      else
        Turn(Insert(t, record, connection, e.transcript), Refreshing(t.nextId), true)
    case Updating(id, seen) =>
      // Assigning the value that was loaded leaves the row clean: no UPDATE is sent.
      if e.transcript.None? || e.transcript == seen then Turn(t, Refreshing(id), false)
      else Write(t, record, id, e.transcript)
    case Reloading =>
      if record !in t.conferences then Turn(t, Done(Ignored), false)
      else
        var row := t.conferences[record];
        Turn(t, if e.transcript.Some? && row.transcript.None? then Repairing(row.id) else Refreshing(row.id), false)
    case Repairing(id) =>
      Write(t, record, id, e.transcript)
    case Refreshing(id) =>
      Turn(t, if HasRow(t, record, id) then Enqueuing(id) else Done(Failed), false)
    case Enqueuing(id) =>
      Turn(t, Done(Enqueued(id)), false)
    case Done(_) =>
      Turn(t, pc, false)
  }

  /** A handler takes at most so many further steps. */
  function Rank(pc: Pc): nat {
    match pc
    case Checking => 9
    case Recording => 8
    case Routing => 7
    case Looking(_) => 6
    case Inserting(_) => 5
    case Updating(_, _) => 5
    case Reloading => 4
    case Repairing(_) => 3
    case Refreshing(_) => 2
    case Enqueuing(_) => 1
    case Done(_) => 0
  }

  // ---------------------------------------------------------------- the protocol

  /** `stamp` is an auxiliary variable: the time of the last marked step. No step reads it. */
  datatype Handler = Handler(event: Event, pc: Pc, stamp: Option<nat>)

  datatype Job = Job(handler: nat, id: nat)

  datatype State = State(tables: Tables, handlers: map<nat, Handler>, queue: seq<Job>, clock: nat)

  /** What may happen next: Pub/Sub delivers a message (again), a handler takes a step
      or dies, and the rest of the application changes connections and subscriptions.
      A label that cannot happen leaves the state alone, so every list of labels is a run. */
  datatype Label =
    | Deliver(handler: nat, event: Event)
    | Step(handler: nat)
    | Crash(handler: nat)
    | Connect(connection: string)
    | Subscribe(subscription: string, connection: string)
    | Unsubscribe(subscription: string)
    | Disconnect(connection: string)

  /** Deleting a connection cascades to its subscriptions and conferences. */
  function DropConnection(t: Tables, connection: string): Tables {
    t.(connections := t.connections - {connection},
       subscriptions := map s | s in t.subscriptions && t.subscriptions[s] != connection :: t.subscriptions[s],
       conferences := map r | r in t.conferences && t.conferences[r].connection != connection :: t.conferences[r])
  }

  predicate Running(s: State, h: nat) {
    h in s.handlers && !s.handlers[h].pc.Done?
  }

  function StepHandler(s: State, h: nat): State
    requires Running(s, h)
  {
    var me := s.handlers[h];
    var turn := Advance(s.tables, me.event, me.pc);
    State(turn.tables,
          s.handlers[h := Handler(me.event, turn.pc, if turn.marks then Some(s.clock) else me.stamp)],
          if me.pc.Enqueuing? then s.queue + [Job(h, me.pc.id)] else s.queue,
          s.clock + 1)
  }

  function Next(s: State, l: Label): State {
    match l
    case Deliver(h, e) =>
      if h in s.handlers then s
      else s.(handlers := s.handlers[h := Handler(e, Checking, None)], clock := s.clock + 1)
    case Step(h) =>
      if Running(s, h) then StepHandler(s, h) else s
    case Crash(h) =>
      if Running(s, h) then s.(handlers := s.handlers[h := s.handlers[h].(pc := Done(Failed))], clock := s.clock + 1) else s
    case Connect(c) =>
      s.(tables := s.tables.(connections := s.tables.connections + {c}))
    case Subscribe(n, c) =>
      if c in s.tables.connections then s.(tables := s.tables.(subscriptions := s.tables.subscriptions[n := c])) else s
    case Unsubscribe(n) =>
      s.(tables := s.tables.(subscriptions := s.tables.subscriptions - {n}))
    case Disconnect(c) =>
      s.(tables := DropConnection(s.tables, c))
  }

  function Exec(s: State, ls: seq<Label>): State {
    if |ls| == 0 then s else Next(Exec(s, ls[..|ls| - 1]), ls[|ls| - 1])
  }

  // ---------------------------------------------------------------- invariants over every run

  /** Foreign keys hold, ids are below the sequence, no two rows share one. */
  ghost predicate Sound(t: Tables) {
    && (forall n :: n in t.subscriptions ==> t.subscriptions[n] in t.connections)
    && (forall r :: r in t.conferences ==> t.conferences[r].connection in t.connections && t.conferences[r].id < t.nextId)
    && (forall r, q :: r in t.conferences && q in t.conferences && t.conferences[r].id == t.conferences[q].id ==> r == q)
  }

  ghost predicate Initial(s: State) {
    Sound(s.tables) && s.handlers == map[] && s.queue == [] && s.clock == 0
  }

  function IdOf(pc: Pc): Option<nat> {
    match pc
    case Updating(id, _) => Some(id)
    case Repairing(id) => Some(id)
    case Refreshing(id) => Some(id)
    case Enqueuing(id) => Some(id)
    case Done(Enqueued(id)) => Some(id)
    case _ => None
  }

  /** The conference row is written; what remains is refresh and enqueue. */
  predicate Settled(pc: Pc) {
    pc.Refreshing? || pc.Enqueuing? || (pc.Done? && pc.outcome.Enqueued?)
  }

  predicate BeforeLedger(pc: Pc) {
    pc.Checking? || pc.Recording? || (pc.Done? && pc.outcome.Duplicate?)
  }

  /** A handler carries a stamp exactly from its ledger commit on. */
  ghost predicate StampOk(t: Tables, clock: nat, x: Handler) {
    && (BeforeLedger(x.pc) ==> x.stamp.None?)
    && (!BeforeLedger(x.pc) && x.pc != Done(Failed) ==> x.stamp.Some?)
    && (x.stamp.Some? ==> x.stamp.value < clock && x.event.message in t.ledger)
  }

  /** Some transcript name has been seen in, or written to, the row a handler works on. */
  predicate Claims(x: Handler) {
    || (Settled(x.pc) && x.event.transcript.Some?)
    || (x.pc.Updating? && x.pc.seen.Some?)
  }

  /** The id a handler works with can only be the id of its own record. */
  ghost predicate IdOk(t: Tables, x: Handler) {
    && (x.pc.Routing? || x.pc.Looking? || x.pc.Inserting? || x.pc.Reloading? || IdOf(x.pc).Some? ==>
          x.event.record.Some? && x.event.subscription.Some?)
    && (x.pc.Repairing? ==> x.event.transcript.Some?)
    && (IdOf(x.pc).Some? ==> IdOf(x.pc).value < t.nextId)
    && (IdOf(x.pc).Some? ==>
          forall r :: r in t.conferences && t.conferences[r].id == IdOf(x.pc).value ==>
            && r == x.event.record.value
            && (Claims(x) ==> t.conferences[r].transcript.Some?))
  }

  ghost predicate HandlerOk(t: Tables, clock: nat, x: Handler) {
    StampOk(t, clock, x) && IdOk(t, x)
  }

  /** Handlers past the ledger differ in message and in stamp. */
  ghost predicate StampsApart(s: State) {
    forall h, k :: h in s.handlers && k in s.handlers && h != k && s.handlers[h].stamp.Some? && s.handlers[k].stamp.Some? ==>
      s.handlers[h].event.message != s.handlers[k].event.message && s.handlers[h].stamp != s.handlers[k].stamp
  }

  /** Every job was enqueued by a handler of its own, which answered with that id. */
  ghost predicate JobsOk(s: State) {
    && (forall i :: 0 <= i < |s.queue| ==>
          s.queue[i].handler in s.handlers && s.handlers[s.queue[i].handler].pc == Done(Enqueued(s.queue[i].id)))
    && (forall i, j :: 0 <= i < j < |s.queue| ==> s.queue[i].handler != s.queue[j].handler)
  }

  ghost predicate Inv(s: State) {
    && Sound(s.tables)
    && (forall h :: h in s.handlers ==> HandlerOk(s.tables, s.clock, s.handlers[h]))
    && StampsApart(s)
    && JobsOk(s)
  }

  /** How a step may change the tables: rows keep their ids and names, and a set
      transcript name stays set. */
  ghost predicate Grows(t: Tables, t': Tables) {
    && t.ledger <= t'.ledger && t.nextId <= t'.nextId
    && forall r :: r in t'.conferences && t'.conferences[r].id < t.nextId ==>
         && HasRow(t, r, t'.conferences[r].id)
         && (t.conferences[r].transcript.Some? ==> t'.conferences[r].transcript.Some?)
  }

  lemma InsertKeeps(t: Tables, record: string, connection: string, transcript: Option<string>)
    requires Sound(t) && record !in t.conferences && connection in t.connections
    ensures Sound(Insert(t, record, connection, transcript)) && Grows(t, Insert(t, record, connection, transcript))
  {
  }

  lemma SetTranscriptKeeps(t: Tables, record: string, transcript: Option<string>)
    requires Sound(t) && record in t.conferences && transcript.Some?
    ensures Sound(SetTranscript(t, record, transcript)) && Grows(t, SetTranscript(t, record, transcript))
  {
  }

  lemma DropConnectionKeeps(t: Tables, connection: string)
    requires Sound(t)
    ensures Sound(DropConnection(t, connection)) && Grows(t, DropConnection(t, connection))
  {
  }

  lemma AdvanceTables(t: Tables, clock: nat, x: Handler)
    requires Sound(t) && HandlerOk(t, clock, x) && !x.pc.Done?
    ensures var t' := Advance(t, x.event, x.pc).tables; Sound(t') && Grows(t, t')
  {
    var record := x.event.record.GetOr("");
    match x.pc
    case Inserting(c) =>
      if record !in t.conferences && c in t.connections { InsertKeeps(t, record, c, x.event.transcript); }
    case Updating(id, seen) =>
      if record in t.conferences && x.event.transcript.Some? { SetTranscriptKeeps(t, record, x.event.transcript); }
    case Repairing(id) =>
      if record in t.conferences { SetTranscriptKeeps(t, record, x.event.transcript); }
    case _ =>
  }

  lemma AdvanceId(t: Tables, x: Handler)
    requires Sound(t) && IdOk(t, x) && !x.pc.Done?
    ensures var turn := Advance(t, x.event, x.pc); IdOk(turn.tables, x.(pc := turn.pc))
  {
  }

  lemma AdvanceStamp(t: Tables, clock: nat, x: Handler)
    requires StampOk(t, clock, x) && !x.pc.Done?
    ensures var turn := Advance(t, x.event, x.pc);
            StampOk(turn.tables, clock + 1, Handler(x.event, turn.pc, if turn.marks then Some(clock) else x.stamp))
  {
  }

  lemma GrowsKeepsHandler(t: Tables, t': Tables, clock: nat, clock': nat, x: Handler)
    requires HandlerOk(t, clock, x) && Grows(t, t') && clock <= clock'
    ensures HandlerOk(t', clock', x)
  {
  }

  lemma NextTables(s: State, l: Label)
    requires Inv(s)
    ensures Sound(Next(s, l).tables) && Grows(s.tables, Next(s, l).tables)
  {
    if l.Step? && Running(s, l.handler) {
      AdvanceTables(s.tables, s.clock, s.handlers[l.handler]);
    } else if l.Disconnect? {
      DropConnectionKeeps(s.tables, l.connection);
    }
  }

  lemma NextHandlers(s: State, l: Label)
    requires Inv(s)
    ensures var s' := Next(s, l); forall h :: h in s'.handlers ==> HandlerOk(s'.tables, s'.clock, s'.handlers[h])
  {
    var s' := Next(s, l);
    NextTables(s, l);
    forall h | h in s'.handlers ensures HandlerOk(s'.tables, s'.clock, s'.handlers[h]) {
      if l.Step? && l.handler == h && Running(s, h) {
        AdvanceStamp(s.tables, s.clock, s.handlers[h]);
        AdvanceId(s.tables, s.handlers[h]);
      } else if h in s.handlers {
        GrowsKeepsHandler(s.tables, s'.tables, s.clock, s'.clock, s.handlers[h]);
      }
    }
  }

  /** A step gives its handler a stamp only for a message no other stamped handler has. */
  lemma StampIsFresh(s: State, h: nat, k: nat)
    requires Inv(s) && Running(s, h) && k in s.handlers && k != h && s.handlers[k].stamp.Some?
    requires StepHandler(s, h).handlers[h].stamp.Some?
    ensures s.handlers[k].event.message != s.handlers[h].event.message
    ensures StepHandler(s, h).handlers[h].stamp != s.handlers[k].stamp
  {
    assert HandlerOk(s.tables, s.clock, s.handlers[k]);
    assert HandlerOk(s.tables, s.clock, s.handlers[h]);
  }

  lemma StepStamps(s: State, h: nat)
    requires Inv(s) && Running(s, h)
    ensures StampsApart(StepHandler(s, h))
  {
    var s' := StepHandler(s, h);
    forall k | k in s.handlers && k != h && s'.handlers[h].stamp.Some? && s'.handlers[k].stamp.Some?
      ensures s'.handlers[h].event.message != s'.handlers[k].event.message && s'.handlers[h].stamp != s'.handlers[k].stamp
    {
      StampIsFresh(s, h, k);
    }
  }

  lemma StepJobs(s: State, h: nat)
    requires JobsOk(s) && Running(s, h)
    ensures JobsOk(StepHandler(s, h))
  {
  }

  lemma NextKeeps(s: State, l: Label)
    requires Inv(s)
    ensures Inv(Next(s, l))
    ensures Grows(s.tables, Next(s, l).tables)
  {
    NextTables(s, l);
    NextHandlers(s, l);
    if l.Step? && Running(s, l.handler) {
      StepStamps(s, l.handler);
      StepJobs(s, l.handler);
    }
  }

  /** Every run keeps the invariant: interleavings, redeliveries, crashes and
      disconnects included. */
  lemma {:induction false} EveryRunKeeps(s: State, ls: seq<Label>)
    requires Initial(s)
    ensures Inv(Exec(s, ls))
  {
    if |ls| > 0 {
      EveryRunKeeps(s, ls[..|ls| - 1]);
      NextKeeps(Exec(s, ls[..|ls| - 1]), ls[|ls| - 1]);
    }
  }

  /** At most once: no two jobs stem from one message, no two handlers pass the ledger
      with one message, and a handler enqueues at most once. */
  lemma AtMostOncePerMessage(s: State, ls: seq<Label>)
    requires Initial(s)
    ensures var f := Exec(s, ls);
            && (forall h, k :: h in f.handlers && k in f.handlers && h != k && f.handlers[h].stamp.Some? && f.handlers[k].stamp.Some? ==>
                  f.handlers[h].event.message != f.handlers[k].event.message)
            && (forall i :: 0 <= i < |f.queue| ==> f.queue[i].handler in f.handlers)
            && (forall i, j :: 0 <= i < j < |f.queue| ==>
                  f.handlers[f.queue[i].handler].event.message != f.handlers[f.queue[j].handler].event.message)
  {
    EveryRunKeeps(s, ls);
  }

  /** An enqueued id never names a conference of another record: as long as a row has
      that id, it is the one row of the record the event was about. If the event named
      a transcript, so does the row. */
  lemma EnqueuedNamesTheConference(s: State, ls: seq<Label>, i: nat)
    requires Initial(s) && i < |Exec(s, ls).queue|
    ensures var f := Exec(s, ls);
            var job := f.queue[i];
            && job.handler in f.handlers
            && (var e := f.handlers[job.handler].event;
                forall r :: r in f.tables.conferences && f.tables.conferences[r].id == job.id ==>
                  && e.record == Some(r)
                  && (e.transcript.Some? ==> f.tables.conferences[r].transcript.Some?))
  {
    EveryRunKeeps(s, ls);
  }

  /** While a row lives its transcript name never goes from set to unset. */
  lemma {:induction false} TranscriptNeverUnset(s: State, before: seq<Label>, after: seq<Label>, record: string, id: nat)
    requires Initial(s)
    requires HasRow(Exec(s, before).tables, record, id)
    requires Exec(s, before).tables.conferences[record].transcript.Some?
    requires HasRow(Exec(s, before + after).tables, record, id)
    ensures Exec(s, before + after).tables.conferences[record].transcript.Some?
  {
    var a, f := Exec(s, before), Exec(s, before + after);
    RunGrows(s, before, after);
    EveryRunKeeps(s, before);
  }

  lemma GrowsTransitive(t: Tables, u: Tables, v: Tables)
    requires Grows(t, u) && Grows(u, v)
    ensures Grows(t, v)
  {
  }

  lemma {:induction false} RunGrows(s: State, before: seq<Label>, after: seq<Label>)
    requires Initial(s)
    ensures Grows(Exec(s, before).tables, Exec(s, before + after).tables)
  {
    if |after| == 0 {
      assert before + after == before;
    } else {
      var n := |after| - 1;
      RunGrows(s, before, after[..n]);
      assert (before + after)[..|before| + n] == before + after[..n];
      EveryRunKeeps(s, before + after[..n]);
      NextKeeps(Exec(s, before + after[..n]), after[n]);
      GrowsTransitive(Exec(s, before).tables, Exec(s, before + after[..n]).tables, Exec(s, before + after).tables);
    }
  }

  /** The row a handler works on is live. */
  ghost predicate RowLives(t: Tables, x: Handler) {
    IdOf(x.pc).Some? ==> x.event.record.Some? && HasRow(t, x.event.record.value, IdOf(x.pc).value)
  }

  lemma AdvanceRowLives(t: Tables, clock: nat, x: Handler)
    requires Sound(t) && HandlerOk(t, clock, x) && !x.pc.Done? && RowLives(t, x)
    ensures RowLives(Advance(t, x.event, x.pc).tables, x.(pc := Advance(t, x.event, x.pc).pc))
  {
  }

  lemma NextRowLives(s: State, l: Label, h: nat)
    requires Inv(s) && !l.Disconnect?
    requires h in s.handlers ==> RowLives(s.tables, s.handlers[h])
    requires h in Next(s, l).handlers
    ensures RowLives(Next(s, l).tables, Next(s, l).handlers[h])
  {
    if l.Step? && Running(s, l.handler) && l.handler == h {
      AdvanceRowLives(s.tables, s.clock, s.handlers[h]);
    }
  }

  /** Without a disconnect nothing is lost: every enqueued id has its live row. */
  lemma {:induction false} EnqueuedRowLives(s: State, ls: seq<Label>, h: nat)
    requires Initial(s)
    requires forall i :: 0 <= i < |ls| ==> !ls[i].Disconnect?
    requires h in Exec(s, ls).handlers
    ensures RowLives(Exec(s, ls).tables, Exec(s, ls).handlers[h])
  {
    if |ls| > 0 {
      var n := |ls| - 1;
      EveryRunKeeps(s, ls[..n]);
      if h in Exec(s, ls[..n]).handlers {
        EnqueuedRowLives(s, ls[..n], h);
      }
      NextRowLives(Exec(s, ls[..n]), ls[n], h);
    }
  }
}
