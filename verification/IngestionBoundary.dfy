/** Exactly when concurrent ingestion is serialisable: a condition on the events alone,
    sufficient for every schedule and broken by a schedule whenever it fails. */
module IngestionBoundary {
  import opened Wrappers
  import opened Ingestion
  import opened IngestionSerial
  import opened IngestionOrder
  import opened IngestionTheorems

  /** `a` is another new event about the record of `b`. */
  predicate Rival(t: Tables, es: seq<Event>, a: Event, b: Event) {
    a in es && a.message !in t.ledger && a.message != b.message && b.record.Some? && About(t, a, b.record.value)
  }

  /** Somebody else shares the connection or the name of `b`, or nobody names another. */
  ghost predicate Shared(t: Tables, es: seq<Event>, b: Event)
    requires Routed(t, b)
  {
    || (exists a :: Rival(t, es, a, b) && ConnectionOf(t, a) == ConnectionOf(t, b))
    || (exists a :: Rival(t, es, a, b) && a.transcript == b.transcript)
    || (forall a :: Rival(t, es, a, b) ==> a.transcript.None? || a.transcript == b.transcript)
  }

  /** `b` names a transcript for a record that has no row yet. */
  predicate NamesNew(t: Tables, es: seq<Event>, b: Event) {
    b in es && b.message !in t.ledger && Routed(t, b) && b.transcript.Some? && b.record.value !in t.conferences
  }

  /** No event can win both columns of a new row against all others. */
  ghost predicate NoLoneWinner(t: Tables, es: seq<Event>) {
    forall b :: NamesNew(t, es, b) ==> Shared(t, es, b)
  }

  function Start(t: Tables): State {
    State(t, map[], [], 0)
  }

  /** Every entry of the stream is delivered once. */
  ghost predicate Delivers(f: State, es: seq<Event>) {
    exists order :: Lists(f, order) && EventsOf(f, order) == es
  }

  ghost predicate Complete(t: Tables, ls: seq<Label>) {
    AllQuiet(ls) && AllDone(Exec(Start(t), ls))
  }

  /** Every complete interleaving of the stream's deliveries is replayed by some order. */
  ghost predicate Serialisable(t: Tables, es: seq<Event>) {
    forall ls :: Complete(t, ls) && Delivers(Exec(Start(t), ls), es) ==>
      exists order :: Replays(t, Exec(Start(t), ls), order)
  }

  // ---------------------------------------------------------------- the condition suffices

  /** `a` may come first and `z` last among the events about `r`: then the row has the
      connection of `a` and the name of `z`. */
  ghost predicate Ends(t0: Tables, f: State, r: string, a: nat, z: nat)
    requires r in f.tables.conferences
  {
    var row := f.tables.conferences[r];
    && (r !in t0.conferences ==>
          && SettledOn(f, a, r) && Routed(t0, f.handlers[a].event)
          && row.connection == ConnectionOf(t0, f.handlers[a].event)
          && (a == z ==> forall k :: NamedOn(f, k, r) ==> k == a))
    && (|| (NamedOn(f, z, r) && f.handlers[z].event.transcript == row.transcript)
        || (&& (forall k :: !NamedOn(f, k, r))
            && row.transcript == if r in t0.conferences then t0.conferences[r].transcript else None))
  }

  /** What is known of a finished run over `es`. */
  ghost predicate Over(t0: Tables, f: State, es: seq<Event>) {
    OrderInv(t0, f) && AllDone(f) && Sound(t0) && DeliveredAre(f, es) && IdsIdentify(es)
  }

  /** A rival's message got past the ledger in the hands of some handler. */
  lemma RivalHandler(t0: Tables, f: State, es: seq<Event>, b: Event, a: Event) returns (h: nat)
    requires Over(t0, f, es) && b.record.Some? && Rival(t0, es, a, b)
    ensures SettledOn(f, h, b.record.value) && f.handlers[h].event == a
  {
    var k :| k in f.handlers && f.handlers[k].event == a;
    DoneKinds(t0, f, k);
    assert PlaceOk(t0, f, k);
    assert HandlerOk(f.tables, f.clock, f.handlers[k]);
    h :| h in f.handlers && f.handlers[h].stamp.Some? && f.handlers[h].event.message == a.message;
    assert f.handlers[h].event in es;
    DoneKinds(t0, f, h);
  }

  lemma HandlerRival(t0: Tables, f: State, es: seq<Event>, r: string, b: nat, h: nat)
    requires Over(t0, f, es) && SettledOn(f, b, r) && SettledOn(f, h, r) && h != b
    ensures Rival(t0, es, f.handlers[h].event, f.handlers[b].event)
  {
    SettledIsAbout(t0, f, b, r);
    SettledIsAbout(t0, f, h, r);
  }

  /** The inserter is also the one whose name is in the row. */
  lemma LoneEnds(t0: Tables, f: State, es: seq<Event>, r: string, b: nat)
    requires Over(t0, f, es) && NoLoneWinner(t0, es) && r in f.tables.conferences && r !in t0.conferences
    requires NamedOn(f, b, r) && f.handlers[b].event.transcript == f.tables.conferences[r].transcript
    requires Routed(t0, f.handlers[b].event) && f.tables.conferences[r].connection == ConnectionOf(t0, f.handlers[b].event)
    ensures exists a, z :: Ends(t0, f, r, a, z)
  {
    var e := f.handlers[b].event;
    SettledIsAbout(t0, f, b, r);
    assert NamesNew(t0, es, e);
    if a :| Rival(t0, es, a, e) && ConnectionOf(t0, a) == ConnectionOf(t0, e) {
      var h := RivalHandler(t0, f, es, e, a);
      assert Ends(t0, f, r, h, b);
    } else if a :| Rival(t0, es, a, e) && a.transcript == e.transcript {
      var h := RivalHandler(t0, f, es, e, a);
      assert Ends(t0, f, r, b, h);
    } else {
      forall k | NamedOn(f, k, r) ensures k == b {
        if k != b { HandlerRival(t0, f, es, r, b, k); }
      }
      assert Ends(t0, f, r, b, b);
    }
  }

  lemma EndsExist(t0: Tables, f: State, es: seq<Event>, r: string)
    requires Over(t0, f, es) && NoLoneWinner(t0, es) && r in f.tables.conferences
    ensures exists a, z :: Ends(t0, f, r, a, z)
  {
    assert RowOk(t0, f, r);
    var row := f.tables.conferences[r];
    var a: nat := 0;
    if r !in t0.conferences {
      a :| SettledOn(f, a, r) && Routed(t0, f.handlers[a].event) && row.connection == ConnectionOf(t0, f.handlers[a].event);
    }
    if k :| LastNamed(f, k, r) && f.handlers[k].event.transcript == row.transcript {
      if r in t0.conferences || k != a {
        assert Ends(t0, f, r, a, k);
      } else {
        LoneEnds(t0, f, es, r, a);
      }
    } else {
      assert Ends(t0, f, r, a, a);
    }
  }

  ghost function EndsOf(t0: Tables, f: State, r: string): (nat, nat) {
    if r in f.tables.conferences && exists a, z :: Ends(t0, f, r, a, z) then
      var a, z :| Ends(t0, f, r, a, z);
      (a, z)
    else (0, 0)
  }

  /** The handler opens, or closes, the story of its record. */
  ghost predicate Opens(t0: Tables, f: State, h: nat) {
    && PastLedger(f, h) && Routed(t0, f.handlers[h].event)
    && f.handlers[h].event.record.value !in t0.conferences
    && EndsOf(t0, f, f.handlers[h].event.record.value).0 == h
  }

  ghost predicate Closes(t0: Tables, f: State, h: nat) {
    && PastLedger(f, h) && Routed(t0, f.handlers[h].event) && !Opens(t0, f, h)
    && EndsOf(t0, f, f.handlers[h].event.record.value).1 == h
  }

  /** First those who open, last those who close. */
  ghost predicate Placed(t0: Tables, f: State, xs: seq<nat>, ys: seq<nat>, zs: seq<nat>) {
    && (forall h :: h in xs <==> Opens(t0, f, h))
    && (forall h :: h in zs <==> Closes(t0, f, h))
    && Winners(t0, f, xs + ys + zs)
  }

  lemma {:induction false} PlaceAll(t0: Tables, f: State) returns (xs: seq<nat>, ys: seq<nat>, zs: seq<nat>)
    requires OrderInv(t0, f) && AllDone(f) && Sound(t0)
    ensures Placed(t0, f, xs, ys, zs)
  {
    var first := set h | h in f.handlers && Opens(t0, f, h);
    var last := set h | h in f.handlers && Closes(t0, f, h);
    var rest := set h | h in f.handlers && PastLedger(f, h) && h !in first && h !in last;
    xs := Enumerate(first);
    ys := Enumerate(rest);
    zs := Enumerate(last);
    var order := xs + ys + zs;
    forall h ensures h in order <==> PastLedger(f, h) {
      assert h in order <==> h in xs || h in ys || h in zs;
    }
    forall i | 0 <= i < |order| ensures PastLedger(f, order[i]) { assert order[i] in order; }
    Apart(xs, ys);
    Apart(xs + ys, zs);
  }

  lemma Apart(a: seq<nat>, b: seq<nat>)
    requires forall i, j :: 0 <= i < j < |a| ==> a[i] != a[j]
    requires forall i, j :: 0 <= i < j < |b| ==> b[i] != b[j]
    requires forall h :: h in a ==> h !in b
    ensures forall i, j :: 0 <= i < j < |a + b| ==> (a + b)[i] != (a + b)[j]
  {
    forall i, j | 0 <= i < j < |a + b| ensures (a + b)[i] != (a + b)[j] {
      if i < |a| && j >= |a| { assert (a + b)[i] in a && (a + b)[j] in b; }
    }
  }

  lemma MatchConnection(t0: Tables, f: State, xs: seq<nat>, ys: seq<nat>, zs: seq<nat>, r: string)
    requires Placed(t0, f, xs, ys, zs) && r in f.tables.conferences && r !in t0.conferences
    requires exists a, z :: Ends(t0, f, r, a, z)
    ensures FirstConnection(t0, EventsOf(f, xs + ys + zs), r) == Some(f.tables.conferences[r].connection)
  {
    var order := xs + ys + zs;
    var es := EventsOf(f, order);
    var a := EndsOf(t0, f, r).0;
    SettledIsAbout(t0, f, a, r);
    assert a in xs;
    var p :| 0 <= p < |xs| && xs[p] == a;
    assert order[p] == a && About(t0, es[p], r);
    var i := FirstConnectionIndex(t0, es, r);
    assert order[i] == xs[i] && xs[i] in xs;
  }

  /** Nobody who names the record comes after its closer. */
  lemma CloserIsLast(t0: Tables, f: State, xs: seq<nat>, ys: seq<nat>, zs: seq<nat>, r: string, z: nat, i: nat)
    requires Placed(t0, f, xs, ys, zs) && i < |xs + ys + zs| && Closes(t0, f, z) && Names(t0, f.handlers[z].event, r)
    requires var order := xs + ys + zs;
             && Names(t0, f.handlers[order[i]].event, r)
             && forall j :: i < j < |order| ==> !Names(t0, f.handlers[order[j]].event, r)
    ensures (xs + ys + zs)[i] == z
  {
    var order := xs + ys + zs;
    assert z in zs;
    var w :| 0 <= w < |zs| && zs[w] == z;
    assert order[|xs + ys| + w] == z;
    assert order[i] == zs[i - |xs + ys|];
    assert order[i] in zs;
  }

  lemma NamerIsListed(t0: Tables, f: State, order: seq<nat>, r: string, z: nat)
    requires Winners(t0, f, order) && NamedOn(f, z, r)
    ensures LastName(t0, EventsOf(f, order), r).Some? && Names(t0, f.handlers[z].event, r) && PastLedger(f, z)
  {
    var es := EventsOf(f, order);
    var i := LastNameIndex(t0, es, r);
    var q := Position(t0, f, order, z, r);
    assert Names(t0, es[q], r);
  }

  lemma MatchName(t0: Tables, f: State, xs: seq<nat>, ys: seq<nat>, zs: seq<nat>, r: string)
    requires Placed(t0, f, xs, ys, zs) && r in f.tables.conferences
    requires exists a, z :: Ends(t0, f, r, a, z)
    ensures var name := LastName(t0, EventsOf(f, xs + ys + zs), r);
            f.tables.conferences[r].transcript ==
              if name.Some? then name else if r in t0.conferences then t0.conferences[r].transcript else None
  {
    var order := xs + ys + zs;
    var z := EndsOf(t0, f, r).1;
    var i := LastNameIndex(t0, EventsOf(f, order), r);
    if LastName(t0, EventsOf(f, order), r).Some? {
      SettledIsAbout(t0, f, order[i], r);
      assert NamedOn(f, order[i], r);
    }
    if NamedOn(f, z, r) {
      NamerIsListed(t0, f, order, r, z);
      if !Opens(t0, f, z) { CloserIsLast(t0, f, xs, ys, zs, r, z, i); }
    }
  }

  lemma MatchRow(t0: Tables, f: State, xs: seq<nat>, ys: seq<nat>, zs: seq<nat>, r: string)
    requires Placed(t0, f, xs, ys, zs)
    requires r in f.tables.conferences ==> exists a, z :: Ends(t0, f, r, a, z)
    ensures Content(f.tables, r) == Expected(t0, EventsOf(f, xs + ys + zs), r)
  {
    var order := xs + ys + zs;
    if r in f.tables.conferences {
      MatchName(t0, f, xs, ys, zs, r);
      if r in t0.conferences { OldRowKeepsConnection(t0, f, r); }
      else { MatchConnection(t0, f, xs, ys, zs, r); }
    } else {
      var i := FirstConnectionIndex(t0, EventsOf(f, order), r);
      if FirstConnection(t0, EventsOf(f, order), r).Some? { MentionedHasRow(t0, f, order, r, i); }
    }
  }

  /** Under the condition every complete run, whatever was redelivered, is replayed by an
      order: per record somebody with the row's connection first, and somebody with the
      row's name last. */
  lemma NoLoneWinnerSuffices(t: Tables, ls: seq<Label>, es: seq<Event>) returns (order: seq<nat>)
    requires Sound(t) && Complete(t, ls) && IdsIdentify(es) && DeliveredAre(Exec(Start(t), ls), es)
    requires NoLoneWinner(t, es)
    ensures Replays(t, Exec(Start(t), ls), order)
  {
    var f := Exec(Start(t), ls);
    QuietRunKeeps(Start(t), ls);
    var xs, ys, zs := PlaceAll(t, f);
    forall r: string ensures Content(f.tables, r) == Expected(t, EventsOf(f, xs + ys + zs), r) {
      if r in f.tables.conferences { EndsExist(t, f, es, r); }
      MatchRow(t, f, xs, ys, zs, r);
    }
    DuplicatesAreLosers(Start(t), ls);
    ReplayFrom(t, f, xs + ys + zs, Duplicates(Start(t), ls));
    order := xs + ys + zs + Duplicates(Start(t), ls);
  }
}
