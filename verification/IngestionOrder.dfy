/** Concurrent ingestion equals a sequential run. Runs here consist of deliveries and
    handler steps only: subscriptions stay fixed and no handler dies. */
module IngestionOrder {
  import opened Wrappers
  import opened Ingestion
  import opened IngestionSerial

  predicate Quiet(l: Label) {
    l.Deliver? || l.Step?
  }

  predicate AllQuiet(ls: seq<Label>) {
    forall i :: 0 <= i < |ls| ==> Quiet(ls[i])
  }

  predicate AllDone(s: State) {
    forall h :: h in s.handlers ==> s.handlers[h].pc.Done?
  }

  predicate SettledOn(s: State, k: nat, record: string) {
    k in s.handlers && Settled(s.handlers[k].pc) && s.handlers[k].event.record == Some(record)
  }

  predicate NamedOn(s: State, k: nat, record: string) {
    SettledOn(s, k, record) && s.handlers[k].event.transcript.Some?
  }

  function StampOf(s: State, h: nat): int {
    if h in s.handlers && s.handlers[h].stamp.Some? then s.handlers[h].stamp.value else -1
  }

  /** A settled handler that named a transcript for `record` comes after `h`. */
  ghost predicate Overtaken(s: State, h: nat, record: string) {
    exists k :: NamedOn(s, k, record) && StampOf(s, k) > StampOf(s, h)
  }

  ghost predicate LastNamed(s: State, k: nat, record: string) {
    NamedOn(s, k, record) && forall j :: NamedOn(s, j, record) ==> StampOf(s, j) <= StampOf(s, k)
  }

  /** The row carries the name given by the latest settled handler that named one. */
  ghost predicate NameOk(t0: Tables, s: State, record: string)
    requires record in s.tables.conferences
  {
    var name := s.tables.conferences[record].transcript;
    || (exists k :: LastNamed(s, k, record) && s.handlers[k].event.transcript == name)
    || (&& (forall k :: !NamedOn(s, k, record))
        && name == if record in t0.conferences then t0.conferences[record].transcript else None)
  }

  ghost predicate RowOk(t0: Tables, s: State, record: string)
    requires record in s.tables.conferences
  {
    && NameOk(t0, s, record)
    && (record in t0.conferences ==> s.tables.conferences[record].connection == t0.conferences[record].connection)
    && (record !in t0.conferences ==>
          exists k :: SettledOn(s, k, record) && Routed(t0, s.handlers[k].event)
                      && s.tables.conferences[record].connection == ConnectionOf(t0, s.handlers[k].event))
  }

  /** Where a handler stands, seen from the initial tables `t0`. */
  ghost predicate PlaceOk(t0: Tables, s: State, h: nat)
    requires h in s.handlers
  {
    var x := s.handlers[h];
    var record := x.event.record.GetOr("");
    && x.pc != Done(Failed)
    && (x.pc == Done(Duplicate) ==> x.event.message in s.tables.ledger)
    && (x.pc == Done(Ignored) ==> !Routed(t0, x.event))
    && (x.pc.Repairing? ==> x.event.transcript.Some?)
    && (x.pc.Routing? ==> x.event.record.Some? && x.event.subscription.Some?)
    && (x.pc.Looking? || x.pc.Inserting? || x.pc.Reloading? || IdOf(x.pc).Some? ==> Routed(t0, x.event))
    && (x.pc.Looking? || x.pc.Inserting? ==> x.pc.connection == ConnectionOf(t0, x.event))
    && (IdOf(x.pc).Some? ==> HasRow(s.tables, record, IdOf(x.pc).value))
    && (x.pc.Reloading? ==> record in s.tables.conferences)
    && (x.pc.Inserting? || x.pc.Reloading? ==>
          && record !in t0.conferences
          && (record in s.tables.conferences && s.tables.conferences[record].transcript.Some? ==> Overtaken(s, h, record)))
    && (x.pc.Updating? && x.pc.seen != s.tables.conferences[record].transcript ==> Overtaken(s, h, record))
  }

  ghost predicate LedgerOk(t0: Tables, s: State) {
    && t0.ledger <= s.tables.ledger
    && (forall m :: m in s.tables.ledger && m !in t0.ledger ==>
          exists k :: k in s.handlers && s.handlers[k].stamp.Some? && s.handlers[k].event.message == m)
    && (forall k :: k in s.handlers && s.handlers[k].stamp.Some? ==> s.handlers[k].event.message !in t0.ledger)
  }

  ghost predicate OrderInv(t0: Tables, s: State) {
    && Inv(s)
    && s.tables.subscriptions == t0.subscriptions && s.tables.connections == t0.connections
    && LedgerOk(t0, s)
    && (forall r :: r in t0.conferences ==> r in s.tables.conferences)
    && (forall r {:trigger RowOk(t0, s, r)} :: r in s.tables.conferences ==> RowOk(t0, s, r))
    && (forall h {:trigger PlaceOk(t0, s, h)} :: h in s.handlers ==> PlaceOk(t0, s, h))
  }

  // ---------------------------------------------------------------- rows under change

  /** Whoever had settled on `record` still has, with the same event and stamp; nobody
      but `h` settles anew. */
  ghost predicate SettledGrows(s: State, s': State, h: nat, record: string) {
    && (forall k :: SettledOn(s, k, record) ==>
          SettledOn(s', k, record) && s'.handlers[k].event == s.handlers[k].event && s'.handlers[k].stamp == s.handlers[k].stamp)
    && (forall k :: SettledOn(s', k, record) ==> SettledOn(s, k, record) || k == h)
  }

  ghost predicate SameRow(s: State, s': State, record: string) {
    && record in s.tables.conferences && record in s'.tables.conferences
    && s'.tables.conferences[record] == s.tables.conferences[record]
  }

  lemma OvertakenStays(s: State, s': State, h: nat, k: nat, record: string)
    requires SettledGrows(s, s', h, record) && Overtaken(s, k, record) && StampOf(s', k) == StampOf(s, k)
    ensures Overtaken(s', k, record)
  {
    var j :| NamedOn(s, j, record) && StampOf(s, j) > StampOf(s, k);
    assert SettledOn(s, j, record);
    assert NamedOn(s', j, record) && StampOf(s', j) > StampOf(s', k);
  }

  lemma SettlerStays(t0: Tables, s: State, s': State, h: nat, record: string)
    requires SettledGrows(s, s', h, record) && record in s.tables.conferences && record in s'.tables.conferences
    requires RowOk(t0, s, record)
    requires s'.tables.conferences[record].connection == s.tables.conferences[record].connection
    requires NameOk(t0, s', record)
    ensures RowOk(t0, s', record)
  {
    if record !in t0.conferences {
      var k :| SettledOn(s, k, record) && Routed(t0, s.handlers[k].event)
               && s.tables.conferences[record].connection == ConnectionOf(t0, s.handlers[k].event);
      assert SettledOn(s', k, record);
    }
  }

  lemma LastNamedStays(s: State, s': State, h: nat, k: nat, record: string)
    requires SettledGrows(s, s', h, record) && LastNamed(s, k, record)
    requires NamedOn(s', h, record) ==> StampOf(s', h) <= StampOf(s, k)
    ensures LastNamed(s', k, record) && s'.handlers[k].event == s.handlers[k].event
  {
    assert SettledOn(s, k, record);
    forall j | NamedOn(s', j, record) ensures StampOf(s', j) <= StampOf(s', k) {
      assert SettledOn(s', j, record);
      if j != h { assert NamedOn(s, j, record); }
    }
  }

  /** Nobody with a name settles on the record: its row stays right. */
  lemma QuietRow(t0: Tables, s: State, s': State, h: nat, record: string)
    requires SettledGrows(s, s', h, record) && SameRow(s, s', record) && RowOk(t0, s, record)
    requires NamedOn(s', h, record) ==> NamedOn(s, h, record)
    ensures RowOk(t0, s', record)
  {
    if k :| LastNamed(s, k, record) && s.handlers[k].event.transcript == s.tables.conferences[record].transcript {
      if NamedOn(s', h, record) { assert SettledOn(s, h, record); }
      LastNamedStays(s, s', h, k, record);
    } else {
      forall k ensures !NamedOn(s', k, record) {
        if NamedOn(s', k, record) { assert SettledOn(s', k, record); assert NamedOn(s, k, record); }
      }
    }
    SettlerStays(t0, s, s', h, record);
  }

  /** A handler settles without writing: its name is overtaken or already in the row. */
  lemma SettleRow(t0: Tables, s: State, s': State, h: nat, record: string)
    requires SettledGrows(s, s', h, record) && SameRow(s, s', record) && RowOk(t0, s, record)
    requires NamedOn(s', h, record) && !SettledOn(s, h, record) && StampOf(s', h) == StampOf(s, h)
    requires Overtaken(s, h, record) || s.tables.conferences[record].transcript == s'.handlers[h].event.transcript
    ensures RowOk(t0, s', record)
  {
    if Overtaken(s, h, record) {
      var j :| NamedOn(s, j, record) && StampOf(s, j) > StampOf(s, h);
      var k :| LastNamed(s, k, record) && s.handlers[k].event.transcript == s.tables.conferences[record].transcript;
      LastNamedStays(s, s', h, k, record);
    } else {
      forall j | NamedOn(s', j, record) ensures StampOf(s', j) <= StampOf(s', h) {
        assert SettledOn(s', j, record);
        if j != h { assert NamedOn(s, j, record); }
      }
      assert LastNamed(s', h, record);
    }
    SettlerStays(t0, s, s', h, record);
  }

  /** A write puts its handler last, and its name into the row. */
  lemma WriteRow(t0: Tables, s: State, s': State, h: nat, record: string)
    requires SettledGrows(s, s', h, record) && record in s'.tables.conferences
    requires SettledOn(s', h, record) && Routed(t0, s'.handlers[h].event)
    requires record in s.tables.conferences ==>
               RowOk(t0, s, record)
               && s'.tables.conferences[record].connection == s.tables.conferences[record].connection
               && s'.handlers[h].event.transcript.Some?
    requires record !in s.tables.conferences ==>
               record !in t0.conferences
               && s'.tables.conferences[record].connection == ConnectionOf(t0, s'.handlers[h].event)
               && forall k :: !SettledOn(s, k, record)
    requires forall k :: SettledOn(s, k, record) ==> StampOf(s, k) <= StampOf(s', h)
    requires s'.tables.conferences[record].transcript == s'.handlers[h].event.transcript
    ensures RowOk(t0, s', record)
  {
    if s'.handlers[h].event.transcript.Some? {
      forall j | NamedOn(s', j, record) ensures StampOf(s', j) <= StampOf(s', h) {
        assert SettledOn(s', j, record);
      }
      assert LastNamed(s', h, record);
    } else {
      assert forall k :: NamedOn(s', k, record) ==> SettledOn(s', k, record);
    }
    if record in s.tables.conferences { SettlerStays(t0, s, s', h, record); }
  }

  // ---------------------------------------------------------------- one step

  /** The parts of the invariant a step of `h` relies on. */
  ghost predicate Ready(t0: Tables, s: State, h: nat) {
    Running(s, h) && PlaceOk(t0, s, h) && Sound(s.tables) && s.tables.connections == t0.connections
    && s.tables.subscriptions == t0.subscriptions
  }

  /** A step that marks a settling handler: the row is its own work. */
  ghost predicate Writes(t0: Tables, s: State, s': State, h: nat, record: string)
    requires h in s.handlers && h in s'.handlers
  {
    var x, y := s.handlers[h], s'.handlers[h];
    && !Settled(x.pc) && Settled(y.pc) && y.stamp == Some(s.clock) && About(t0, x.event, record)
    && record in s'.tables.conferences
    && s'.tables.conferences[record].transcript == x.event.transcript
    && (record in s.tables.conferences ==>
          s'.tables.conferences[record].connection == s.tables.conferences[record].connection && x.event.transcript.Some?)
    && (record !in s.tables.conferences ==>
          s'.tables.conferences[record].connection == ConnectionOf(t0, x.event) && x.pc.Inserting?)
  }

  /** A step that settles a handler without a write. */
  ghost predicate SettlesClean(t0: Tables, s: State, s': State, h: nat, record: string)
    requires h in s.handlers && h in s'.handlers
  {
    var x, y := s.handlers[h], s'.handlers[h];
    && !Settled(x.pc) && Settled(y.pc) && y.stamp == x.stamp && About(t0, x.event, record)
    && SameRow(s, s', record)
    && (x.event.transcript.Some? ==>
          s.tables.conferences[record].transcript == x.event.transcript || Overtaken(s, h, record))
  }

  ghost predicate SettlesNobody(s: State, s': State, h: nat)
    requires h in s.handlers && h in s'.handlers
  {
    var x, y := s.handlers[h], s'.handlers[h];
    && s'.tables.conferences == s.tables.conferences
    && (Settled(y.pc) <==> Settled(x.pc)) && (Settled(x.pc) ==> y.stamp == x.stamp)
  }

  /** All that is used of a step of `h` from `s` to `s'`. */
  ghost predicate Stepped(t0: Tables, s: State, s': State, h: nat) {
    && h in s.handlers && s'.handlers.Keys == s.handlers.Keys
    && (forall k :: k in s.handlers && k != h ==> s'.handlers[k] == s.handlers[k])
    && (var x := s.handlers[h];
        var record := x.event.record.GetOr("");
        && s'.handlers[h].event == x.event
        && (s'.handlers[h].stamp == x.stamp || s'.handlers[h].stamp == Some(s.clock))
        && (forall r :: r != record ==> (r in s'.tables.conferences <==> r in s.tables.conferences))
        && (forall r :: r != record && r in s.tables.conferences ==> SameRow(s, s', r))
        && (Writes(t0, s, s', h, record) || SettlesClean(t0, s, s', h, record) || SettlesNobody(s, s', h)))
  }

  lemma StepKinds(t0: Tables, s: State, h: nat)
    requires Ready(t0, s, h)
    ensures Stepped(t0, s, StepHandler(s, h), h)
  {
  }

  /** Stamps lie before the clock. */
  ghost predicate Stamped(s: State) {
    forall k :: k in s.handlers ==> StampOf(s, k) < s.clock
  }

  lemma SteppedSettled(t0: Tables, s: State, s': State, h: nat, record: string)
    requires Stepped(t0, s, s', h)
    ensures SettledGrows(s, s', h, record)
  {
    forall k | SettledOn(s', k, record) && k != h ensures SettledOn(s, k, record) {
      assert s'.handlers[k] == s.handlers[k];
    }
  }

  lemma StepRow(t0: Tables, s: State, s': State, h: nat, record: string)
    requires Stepped(t0, s, s', h) && Stamped(s)
    requires record in s'.tables.conferences
    requires record in s.tables.conferences ==> RowOk(t0, s, record)
    requires record in t0.conferences ==> record in s.tables.conferences
    requires forall k :: SettledOn(s, k, record) ==> record in s.tables.conferences
    ensures RowOk(t0, s', record)
  {
    var x := s.handlers[h];
    SteppedSettled(t0, s, s', h, record);
    if x.event.record.GetOr("") != record {
      QuietRow(t0, s, s', h, record);
    } else if Writes(t0, s, s', h, record) {
      forall k | SettledOn(s, k, record) ensures StampOf(s, k) <= StampOf(s', h) { }
      WriteRow(t0, s, s', h, record);
    } else if SettlesClean(t0, s, s', h, record) && x.event.transcript.Some? {
      SettleRow(t0, s, s', h, record);
    } else {
      QuietRow(t0, s, s', h, record);
    }
  }

  // ---------------------------------------------------------------- places under change

  /** A waiting handler of a written record is overtaken by the writer. */
  lemma OtherPlace(t0: Tables, s: State, s': State, h: nat, k: nat)
    requires Stepped(t0, s, s', h) && Stamped(s)
    requires k in s.handlers && k != h && PlaceOk(t0, s, k)
    requires s.tables.ledger <= s'.tables.ledger
    requires IdOf(s.handlers[k].pc).Some? ==> HasRow(s'.tables, s.handlers[k].event.record.GetOr(""), IdOf(s.handlers[k].pc).value)
    requires s.handlers[k].event.record.GetOr("") in s.tables.conferences ==> s.handlers[k].event.record.GetOr("") in s'.tables.conferences
    ensures PlaceOk(t0, s', k)
  {
    var record := s.handlers[k].event.record.GetOr("");
    SteppedSettled(t0, s, s', h, record);
    if Overtaken(s, k, record) {
      OvertakenStays(s, s', h, k, record);
    } else if Writes(t0, s, s', h, record) && s.handlers[h].event.transcript.Some? {
      assert NamedOn(s', h, record) && StampOf(s', h) > StampOf(s', k);
    }
  }

  lemma OwnOvertaken(t0: Tables, s: State, h: nat, record: string)
    requires Ready(t0, s, h) && Overtaken(s, h, record)
    requires StepHandler(s, h).handlers[h].stamp == s.handlers[h].stamp
    ensures Overtaken(StepHandler(s, h), h, record)
  {
    StepKinds(t0, s, h);
    SteppedSettled(t0, s, StepHandler(s, h), h, record);
    OvertakenStays(s, StepHandler(s, h), h, h, record);
  }

  lemma OwnPlaceConflict(t0: Tables, s: State, h: nat)
    requires Ready(t0, s, h) && s.handlers[h].pc.Inserting?
    requires s.handlers[h].event.record.GetOr("") in s.tables.conferences
    ensures PlaceOk(t0, StepHandler(s, h), h)
  {
    var record := s.handlers[h].event.record.GetOr("");
    if Overtaken(s, h, record) { OwnOvertaken(t0, s, h, record); }
  }

  lemma OwnPlace(t0: Tables, s: State, h: nat)
    requires Ready(t0, s, h)
    requires forall r :: r in t0.conferences ==> r in s.tables.conferences
    requires forall n :: n in t0.subscriptions ==> t0.subscriptions[n] in t0.connections
    ensures PlaceOk(t0, StepHandler(s, h), h)
  {
    if s.handlers[h].pc.Inserting? && s.handlers[h].event.record.GetOr("") in s.tables.conferences {
      OwnPlaceConflict(t0, s, h);
    }
  }

  // ---------------------------------------------------------------- every quiet run

  lemma InvFacts(s: State)
    requires Inv(s)
    ensures Stamped(s)
  {
    forall k | k in s.handlers ensures StampOf(s, k) < s.clock {
      assert HandlerOk(s.tables, s.clock, s.handlers[k]);
    }
  }

  /** Steps never remove a row, nor touch connections and subscriptions. */
  lemma AdvanceFrame(t: Tables, e: Event, pc: Pc)
    ensures var t' := Advance(t, e, pc).tables;
            && t'.connections == t.connections && t'.subscriptions == t.subscriptions && t.ledger <= t'.ledger
            && forall r :: r in t.conferences ==> HasRow(t', r, t.conferences[r].id)
  {
  }

  lemma LedgerStep(t0: Tables, s: State, h: nat)
    requires LedgerOk(t0, s) && Running(s, h) && StampOk(s.tables, s.clock, s.handlers[h])
    ensures LedgerOk(t0, StepHandler(s, h))
  {
    var s' := StepHandler(s, h);
    forall m | m in s'.tables.ledger && m !in t0.ledger
      ensures exists k :: k in s'.handlers && s'.handlers[k].stamp.Some? && s'.handlers[k].event.message == m
    {
      if m in s.tables.ledger {
        var k :| k in s.handlers && s.handlers[k].stamp.Some? && s.handlers[k].event.message == m;
        assert s'.handlers[k].stamp.Some?;
      } else {
        assert s'.handlers[h].stamp.Some?;
      }
    }
  }

  lemma StepRows(t0: Tables, s: State, h: nat)
    requires OrderInv(t0, s) && Running(s, h)
    ensures forall r :: r in StepHandler(s, h).tables.conferences ==> RowOk(t0, StepHandler(s, h), r)
  {
    var s' := StepHandler(s, h);
    InvFacts(s);
    StepKinds(t0, s, h);
    forall r | r in s'.tables.conferences ensures RowOk(t0, s', r) {
      forall k | SettledOn(s, k, r) ensures r in s.tables.conferences {
        assert PlaceOk(t0, s, k);
      }
      StepRow(t0, s, s', h, r);
    }
  }

  lemma StepPlaces(t0: Tables, s: State, h: nat)
    requires OrderInv(t0, s) && Running(s, h)
    requires forall n :: n in t0.subscriptions ==> t0.subscriptions[n] in t0.connections
    ensures forall k :: k in StepHandler(s, h).handlers ==> PlaceOk(t0, StepHandler(s, h), k)
  {
    var s' := StepHandler(s, h);
    InvFacts(s);
    StepKinds(t0, s, h);
    OwnPlace(t0, s, h);
    forall k | k in s.handlers && k != h ensures PlaceOk(t0, s', k) {
      RowsLive(t0, s, h, k);
      OtherPlace(t0, s, s', h, k);
    }
  }

  lemma RowsLive(t0: Tables, s: State, h: nat, k: nat)
    requires Running(s, h) && k in s.handlers && PlaceOk(t0, s, k)
    ensures var s' := StepHandler(s, h);
            var record := s.handlers[k].event.record.GetOr("");
            && s.tables.ledger <= s'.tables.ledger
            && (record in s.tables.conferences ==> record in s'.tables.conferences)
            && (IdOf(s.handlers[k].pc).Some? ==> HasRow(s'.tables, record, IdOf(s.handlers[k].pc).value))
  {
    AdvanceFrame(s.tables, s.handlers[h].event, s.handlers[h].pc);
  }

  lemma StepKeeps(t0: Tables, s: State, h: nat)
    requires OrderInv(t0, s) && Running(s, h)
    requires forall n :: n in t0.subscriptions ==> t0.subscriptions[n] in t0.connections
    ensures OrderInv(t0, StepHandler(s, h))
  {
    var s' := StepHandler(s, h);
    StepInv(s, h);
    assert HandlerOk(s.tables, s.clock, s.handlers[h]);
    LedgerStep(t0, s, h);
    StepRows(t0, s, h);
    StepPlaces(t0, s, h);
    StepFrame(t0, s, h);
  }

  lemma StepInv(s: State, h: nat)
    requires Inv(s) && Running(s, h)
    ensures Inv(StepHandler(s, h))
  {
    NextKeeps(s, Step(h));
  }

  lemma StepFrame(t0: Tables, s: State, h: nat)
    requires Running(s, h)
    requires s.tables.subscriptions == t0.subscriptions && s.tables.connections == t0.connections
    requires forall r :: r in t0.conferences ==> r in s.tables.conferences
    ensures var t := StepHandler(s, h).tables;
            && t.subscriptions == t0.subscriptions && t.connections == t0.connections
            && forall r :: r in t0.conferences ==> r in t.conferences
  {
    AdvanceFrame(s.tables, s.handlers[h].event, s.handlers[h].pc);
    assert forall r :: r in t0.conferences ==> HasRow(StepHandler(s, h).tables, r, s.tables.conferences[r].id);
  }

  lemma DeliverSettled(s: State, h: nat, e: Event, record: string)
    requires h !in s.handlers
    ensures SettledGrows(s, Next(s, Deliver(h, e)), h, record)
  {
    var s' := Next(s, Deliver(h, e));
    forall k | SettledOn(s', k, record) ensures SettledOn(s, k, record) || k == h { }
  }

  lemma DeliverPlace(t0: Tables, s: State, h: nat, e: Event, k: nat)
    requires h !in s.handlers && k in s.handlers && PlaceOk(t0, s, k)
    ensures PlaceOk(t0, Next(s, Deliver(h, e)), k)
  {
    var r := s.handlers[k].event.record.GetOr("");
    DeliverSettled(s, h, e, r);
    if Overtaken(s, k, r) { OvertakenStays(s, Next(s, Deliver(h, e)), h, k, r); }
  }

  lemma DeliverLedger(t0: Tables, s: State, h: nat, e: Event)
    requires h !in s.handlers && LedgerOk(t0, s)
    ensures LedgerOk(t0, Next(s, Deliver(h, e)))
  {
    var s' := Next(s, Deliver(h, e));
    forall m | m in s'.tables.ledger && m !in t0.ledger
      ensures exists k :: k in s'.handlers && s'.handlers[k].stamp.Some? && s'.handlers[k].event.message == m
    {
      var k :| k in s.handlers && s.handlers[k].stamp.Some? && s.handlers[k].event.message == m;
      assert s'.handlers[k].stamp.Some?;
    }
  }

  /** A delivery only adds a handler that has not settled. */
  lemma DeliverKeeps(t0: Tables, s: State, h: nat, e: Event)
    requires OrderInv(t0, s) && h !in s.handlers
    ensures OrderInv(t0, Next(s, Deliver(h, e)))
  {
    var s' := Next(s, Deliver(h, e));
    NextKeeps(s, Deliver(h, e));
    DeliverLedger(t0, s, h, e);
    forall r | r in s'.tables.conferences ensures RowOk(t0, s', r) {
      DeliverSettled(s, h, e, r);
      QuietRow(t0, s, s', h, r);
    }
    forall k | k in s.handlers ensures PlaceOk(t0, s', k) {
      DeliverPlace(t0, s, h, e, k);
    }
  }

  lemma InitialOrder(s: State)
    requires Initial(s)
    ensures OrderInv(s.tables, s)
  {
    forall r | r in s.tables.conferences ensures NameOk(s.tables, s, r) {
      assert forall k :: !NamedOn(s, k, r);
    }
  }

  lemma {:induction false} QuietRunKeeps(s: State, ls: seq<Label>)
    requires Initial(s) && AllQuiet(ls)
    ensures OrderInv(s.tables, Exec(s, ls))
  {
    if |ls| == 0 {
      InitialOrder(s);
    } else {
      var n := |ls| - 1;
      QuietRunKeeps(s, ls[..n]);
      var a := Exec(s, ls[..n]);
      assert Quiet(ls[n]);
      match ls[n]
      case Step(h) => if Running(a, h) { StepKeeps(s.tables, a, h); }
      case Deliver(h, e) => if h !in a.handlers { DeliverKeeps(s.tables, a, h, e); }
      case _ =>
    }
  }
}
