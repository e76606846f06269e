/** What concurrent ingestion amounts to: a sequential run, in an order that respects
    real time, and for one-story streams a result that no schedule can change. */
module IngestionTheorems {
  import opened Wrappers
  import opened Ingestion
  import opened IngestionSerial
  import opened IngestionOrder

  predicate PastLedger(s: State, h: nat) {
    h in s.handlers && s.handlers[h].stamp.Some?
  }

  /** Events about one new record agree on its connection. */
  ghost predicate OneConnection(t: Tables, s: State) {
    forall h, k :: PastLedger(s, h) && PastLedger(s, k) && Routed(t, s.handlers[h].event) && Routed(t, s.handlers[k].event)
                   && s.handlers[h].event.record == s.handlers[k].event.record
                   && s.handlers[h].event.record.value !in t.conferences ==>
                     ConnectionOf(t, s.handlers[h].event) == ConnectionOf(t, s.handlers[k].event)
  }

  /** Two handlers past the ledger bring different connections for a new record. */
  ghost predicate Contested(t: Tables, s: State, r: string) {
    && r !in t.conferences
    && exists h, k ::
         (&& PastLedger(s, h) && PastLedger(s, k)
          && About(t, s.handlers[h].event, r) && About(t, s.handlers[k].event, r)
          && ConnectionOf(t, s.handlers[h].event) != ConnectionOf(t, s.handlers[k].event))
  }

  function EventsOf(s: State, order: seq<nat>): (es: seq<Event>)
    requires forall i :: 0 <= i < |order| ==> order[i] in s.handlers
    ensures |es| == |order| && forall i :: 0 <= i < |order| ==> es[i] == s.handlers[order[i]].event
  {
    seq(|order|, i requires 0 <= i < |order| => s.handlers[order[i]].event)
  }

  /** `order` lists `hs` once each, by increasing stamp. */
  ghost predicate SortedBy(s: State, order: seq<nat>, hs: set<nat>) {
    && (forall h :: h in order <==> h in hs)
    && (forall i :: 0 <= i < |order| ==> PastLedger(s, order[i]))
    && (forall i, j :: 0 <= i < j < |order| ==> StampOf(s, order[i]) < StampOf(s, order[j]))
  }

  lemma {:induction false} LatestOf(s: State, hs: set<nat>) returns (m: nat)
    requires hs != {}
    ensures m in hs && forall h :: h in hs ==> StampOf(s, h) <= StampOf(s, m)
    decreases hs
  {
    var h :| h in hs;
    m := h;
    if hs != {h} {
      var k := LatestOf(s, hs - {h});
      if StampOf(s, h) < StampOf(s, k) { m := k; }
    }
  }

  lemma {:induction false} SortByStamp(s: State, hs: set<nat>) returns (order: seq<nat>)
    requires StampsApart(s) && forall h :: h in hs ==> PastLedger(s, h)
    ensures SortedBy(s, order, hs)
    decreases hs
  {
    if hs == {} {
      order := [];
    } else {
      var m := LatestOf(s, hs);
      var rest := SortByStamp(s, hs - {m});
      order := rest + [m];
      forall i, j | 0 <= i < j < |order| ensures StampOf(s, order[i]) < StampOf(s, order[j]) {
        assert order[i] in rest;
      }
    }
  }

  lemma {:induction false} Enumerate(hs: set<nat>) returns (order: seq<nat>)
    ensures forall h :: h in order <==> h in hs
    ensures forall i, j :: 0 <= i < j < |order| ==> order[i] != order[j]
    decreases hs
  {
    if hs == {} {
      order := [];
    } else {
      var m :| m in hs;
      var rest := Enumerate(hs - {m});
      order := rest + [m];
      forall i, j | 0 <= i < j < |order| ensures order[i] != order[j] {
        assert order[i] in rest;
      }
    }
  }

  /** A finished run: everybody done, every handler past the ledger listed once. */
  ghost predicate Winners(t0: Tables, s: State, order: seq<nat>) {
    && OrderInv(t0, s) && AllDone(s) && Sound(t0)
    && (forall h :: h in order <==> PastLedger(s, h))
    && (forall i :: 0 <= i < |order| ==> PastLedger(s, order[i]))
    && (forall i, j :: 0 <= i < j < |order| ==> order[i] != order[j])
  }

  /** The same, listed by stamp. */
  ghost predicate Finished(t0: Tables, s: State, order: seq<nat>) {
    && Winners(t0, s, order)
    && (forall i, j :: 0 <= i < j < |order| ==> StampOf(s, order[i]) < StampOf(s, order[j]))
  }

  /** Every row is what the closed form makes of the winners in this order. */
  ghost predicate RowsMatch(t0: Tables, s: State, order: seq<nat>)
    requires forall i :: 0 <= i < |order| ==> order[i] in s.handlers
  {
    forall r: string :: Content(s.tables, r) == Expected(t0, EventsOf(s, order), r)
  }

  /** In the end a handler is past the ledger and routed exactly if it enqueued. */
  lemma DoneKinds(t0: Tables, s: State, h: nat)
    requires OrderInv(t0, s) && AllDone(s) && h in s.handlers
    ensures var x := s.handlers[h];
            && (x.stamp.None? <==> x.pc == Done(Duplicate))
            && (x.stamp.Some? && !Routed(t0, x.event) <==> x.pc == Done(Ignored))
            && (x.stamp.Some? && Routed(t0, x.event) <==> Settled(x.pc))
  {
    assert PlaceOk(t0, s, h) && HandlerOk(s.tables, s.clock, s.handlers[h]);
  }

  lemma SettledIsAbout(t0: Tables, s: State, h: nat, record: string)
    requires OrderInv(t0, s) && AllDone(s)
    ensures SettledOn(s, h, record) <==> PastLedger(s, h) && About(t0, s.handlers[h].event, record)
  {
    if h in s.handlers { DoneKinds(t0, s, h); }
  }

  lemma WinnersFresh(t0: Tables, s: State, order: seq<nat>)
    requires Winners(t0, s, order)
    ensures Fresh(t0, EventsOf(s, order))
  {
    forall i, j | 0 <= i < j < |order| ensures s.handlers[order[i]].event.message != s.handlers[order[j]].event.message {
      assert order[i] != order[j];
    }
  }

  lemma Position(t0: Tables, s: State, order: seq<nat>, k: nat, record: string) returns (j: nat)
    requires Winners(t0, s, order) && SettledOn(s, k, record)
    ensures j < |order| && order[j] == k && About(t0, s.handlers[k].event, record)
  {
    SettledIsAbout(t0, s, k, record);
    assert k in order;
    j :| 0 <= j < |order| && order[j] == k;
  }

  lemma LatestIsLast(t0: Tables, s: State, order: seq<nat>, record: string, i: nat, k: nat)
    requires Finished(t0, s, order) && i < |order| && LastNamed(s, k, record)
    requires Names(t0, s.handlers[order[i]].event, record)
    requires forall j :: i < j < |order| ==> !Names(t0, s.handlers[order[j]].event, record)
    ensures k == order[i]
  {
    SettledIsAbout(t0, s, order[i], record);
    assert NamedOn(s, order[i], record);
    var j := Position(t0, s, order, k, record);
    assert StampOf(s, order[i]) <= StampOf(s, order[j]);
  }

  /** The last name in stamp order is the one in the row. */
  lemma FinalName(t0: Tables, s: State, order: seq<nat>, record: string)
    requires Finished(t0, s, order) && record in s.tables.conferences
    ensures var name := LastName(t0, EventsOf(s, order), record);
            s.tables.conferences[record].transcript ==
              if name.Some? then name else if record in t0.conferences then t0.conferences[record].transcript else None
  {
    var es := EventsOf(s, order);
    var i := LastNameIndex(t0, es, record);
    assert RowOk(t0, s, record);
    var name := s.tables.conferences[record].transcript;
    if LastName(t0, es, record).Some? {
      SettledIsAbout(t0, s, order[i], record);
      assert NamedOn(s, order[i], record);
    }
    if k :| LastNamed(s, k, record) && s.handlers[k].event.transcript == name {
      var j := Position(t0, s, order, k, record);
      assert Names(t0, es[j], record);
      LatestIsLast(t0, s, order, record, i, k);
    }
  }

  /** A mentioned record has a row, and a new row comes from a mention. */
  lemma MentionedHasRow(t0: Tables, s: State, order: seq<nat>, record: string, i: nat)
    requires Winners(t0, s, order) && i < |order| && About(t0, s.handlers[order[i]].event, record)
    ensures record in s.tables.conferences
  {
    SettledIsAbout(t0, s, order[i], record);
    assert PlaceOk(t0, s, order[i]);
  }

  lemma NewRowIsMentioned(t0: Tables, s: State, order: seq<nat>, record: string) returns (j: nat)
    requires Winners(t0, s, order) && record in s.tables.conferences && record !in t0.conferences
    ensures j < |order| && About(t0, s.handlers[order[j]].event, record)
    ensures s.tables.conferences[record].connection == ConnectionOf(t0, s.handlers[order[j]].event)
  {
    assert RowOk(t0, s, record);
    var k :| SettledOn(s, k, record) && Routed(t0, s.handlers[k].event)
             && s.tables.conferences[record].connection == ConnectionOf(t0, s.handlers[k].event);
    SettledIsAbout(t0, s, k, record);
    assert k in order;
    j :| 0 <= j < |order| && order[j] == k;
  }

  lemma OldRowKeepsConnection(t0: Tables, s: State, record: string)
    requires OrderInv(t0, s) && record in t0.conferences
    ensures record in s.tables.conferences && s.tables.conferences[record].connection == t0.conferences[record].connection
  {
    assert RowOk(t0, s, record);
  }

  /** A row exists and has its connection as the closed form says. */
  lemma FinalConnection(t0: Tables, s: State, order: seq<nat>, record: string)
    requires Winners(t0, s, order) && !Contested(t0, s, record)
    ensures var first := FirstConnection(t0, EventsOf(s, order), record);
            && (record in s.tables.conferences <==> record in t0.conferences || first.Some?)
            && (record in t0.conferences ==> s.tables.conferences[record].connection == t0.conferences[record].connection)
            && (record in s.tables.conferences && record !in t0.conferences ==>
                  Some(s.tables.conferences[record].connection) == first)
  {
    var es := EventsOf(s, order);
    var i := FirstConnectionIndex(t0, es, record);
    if record in t0.conferences {
      OldRowKeepsConnection(t0, s, record);
    } else {
      if FirstConnection(t0, es, record).Some? { MentionedHasRow(t0, s, order, record, i); }
      if record in s.tables.conferences {
        var j := NewRowIsMentioned(t0, s, order, record);
        assert About(t0, es[j], record);
      }
    }
  }

  lemma FinalRow(t0: Tables, s: State, order: seq<nat>, record: string)
    requires Finished(t0, s, order) && OneConnection(t0, s)
    ensures Content(s.tables, record) == Expected(t0, EventsOf(s, order), record)
  {
    FinalConnection(t0, s, order, record);
    if record in s.tables.conferences {
      FinalName(t0, s, order, record);
    }
  }

  lemma FinalLedger(t0: Tables, s: State, order: seq<nat>)
    requires Winners(t0, s, order)
    ensures HandleAll(t0, EventsOf(s, order)).ledger == s.tables.ledger
  {
    var es := EventsOf(s, order);
    SerialFrame(t0, es);
    forall m: string ensures m in HandleAll(t0, es).ledger <==> m in s.tables.ledger {
      if i :| 0 <= i < |es| && es[i].message == m {
        assert HandlerOk(s.tables, s.clock, s.handlers[order[i]]);
      }
      if m in s.tables.ledger && m !in t0.ledger {
        var k :| k in s.handlers && s.handlers[k].stamp.Some? && s.handlers[k].event.message == m;
        assert PastLedger(s, k) && k in order;
        var i :| 0 <= i < |order| && order[i] == k;
        assert es[i].message == m;
      }
    }
  }

  /** The string `handle_event` returns. */
  function Answer(o: Outcome): string {
    match o
    case Duplicate => "duplicate"
    case Ignored => "ignored"
    case Enqueued(_) => "enqueued"
    case Failed => "raises"
  }

  lemma FinalAnswer(t0: Tables, s: State, order: seq<nat>, i: nat)
    requires Winners(t0, s, order) && i < |order|
    ensures Answer(OutcomeAt(t0, EventsOf(s, order), i)) == Answer(s.handlers[order[i]].pc.outcome)
  {
    var es := EventsOf(s, order);
    WinnersFresh(t0, s, order);
    SerialFrame(t0, es[..i]);
    DoneKinds(t0, s, order[i]);
  }

  lemma {:induction false} DuplicatesChangeNothing(t: Tables, es: seq<Event>, dups: seq<Event>)
    requires forall i :: 0 <= i < |dups| ==> dups[i].message in HandleAll(t, es).ledger
    ensures HandleAll(t, es + dups) == HandleAll(t, es)
  {
    if |dups| == 0 {
      assert es + dups == es;
    } else {
      var n := |dups| - 1;
      DuplicatesChangeNothing(t, es, dups[..n]);
      assert (es + dups)[..|es| + n] == es + dups[..n];
    }
  }

  lemma AnswersOfPrefix(t: Tables, es: seq<Event>, dups: seq<Event>, i: nat)
    requires i < |es| + |dups|
    requires forall k :: 0 <= k < |dups| ==> dups[k].message in HandleAll(t, es).ledger
    ensures OutcomeAt(t, es + dups, i) == if i < |es| then OutcomeAt(t, es, i) else Duplicate
  {
    if i < |es| {
      assert (es + dups)[..i] == es[..i];
    } else {
      var k := i - |es|;
      assert (es + dups)[..i] == es + dups[..k];
      DuplicatesChangeNothing(t, es, dups[..k]);
    }
  }

  /** `order` lists every delivery of `f` once. */
  ghost predicate Lists(f: State, order: seq<nat>) {
    && (forall h :: h in order <==> h in f.handlers)
    && (forall i :: 0 <= i < |order| ==> order[i] in f.handlers)
    && (forall i, j :: 0 <= i < j < |order| ==> order[i] != order[j])
  }

  /** Handling the events one after another in this order leaves the conferences and the
      ledger of `f` and gives every delivery the answer it got. */
  ghost predicate Replays(t0: Tables, f: State, order: seq<nat>) {
    && Lists(f, order) && AllDone(f)
    && var es := EventsOf(f, order);
       && SameConferences(f.tables, HandleAll(t0, es))
       && f.tables.ledger == HandleAll(t0, es).ledger
       && forall i :: 0 <= i < |order| ==> Answer(OutcomeAt(t0, es, i)) == Answer(f.handlers[order[i]].pc.outcome)
  }

  lemma DuplicateDone(t0: Tables, f: State, h: nat)
    requires OrderInv(t0, f) && AllDone(f) && h in f.handlers && !PastLedger(f, h)
    ensures f.handlers[h].event.message in f.tables.ledger && f.handlers[h].pc == Done(Duplicate)
  {
    DoneKinds(t0, f, h);
    assert PlaceOk(t0, f, h);
  }

  lemma WinnersRun(t0: Tables, f: State, first: seq<nat>)
    requires Winners(t0, f, first) && RowsMatch(t0, f, first)
    ensures SameConferences(f.tables, HandleAll(t0, EventsOf(f, first)))
    ensures f.tables.ledger == HandleAll(t0, EventsOf(f, first)).ledger
  {
    WinnersFresh(t0, f, first);
    FinalLedger(t0, f, first);
    forall r: string ensures Content(f.tables, r) == Content(HandleAll(t0, EventsOf(f, first)), r) {
      SerialForm(t0, EventsOf(f, first), r);
    }
  }

  /** The run of the winners followed by all the others. */
  lemma EventsConcat(f: State, first: seq<nat>, last: seq<nat>)
    requires forall i :: 0 <= i < |first| ==> first[i] in f.handlers
    requires forall i :: 0 <= i < |last| ==> last[i] in f.handlers
    ensures forall i :: 0 <= i < |first + last| ==> (first + last)[i] in f.handlers
    ensures EventsOf(f, first + last) == EventsOf(f, first) + EventsOf(f, last)
  {
  }

  lemma SequentialRun(t0: Tables, f: State, first: seq<nat>, last: seq<nat>)
    requires Winners(t0, f, first) && RowsMatch(t0, f, first)
    requires forall i :: 0 <= i < |last| ==> last[i] in f.handlers && !PastLedger(f, last[i])
    ensures forall i :: 0 <= i < |first + last| ==> (first + last)[i] in f.handlers
    ensures var es := EventsOf(f, first + last);
            && SameConferences(f.tables, HandleAll(t0, es))
            && f.tables.ledger == HandleAll(t0, es).ledger
  {
    EventsConcat(f, first, last);
    WinnersRun(t0, f, first);
    DuplicatesListed(t0, f, first, last);
    DuplicatesChangeNothing(t0, EventsOf(f, first), EventsOf(f, last));
  }

  lemma DuplicatesListed(t0: Tables, f: State, first: seq<nat>, last: seq<nat>)
    requires Winners(t0, f, first) && RowsMatch(t0, f, first)
    requires forall i :: 0 <= i < |last| ==> last[i] in f.handlers && !PastLedger(f, last[i])
    ensures forall i :: 0 <= i < |last| ==>
              && EventsOf(f, last)[i].message in HandleAll(t0, EventsOf(f, first)).ledger
              && f.handlers[last[i]].pc == Done(Duplicate)
  {
    WinnersRun(t0, f, first);
    forall i | 0 <= i < |last| ensures EventsOf(f, last)[i].message in f.tables.ledger && f.handlers[last[i]].pc == Done(Duplicate) {
      DuplicateDone(t0, f, last[i]);
    }
  }

  lemma SequentialAnswer(t0: Tables, f: State, first: seq<nat>, last: seq<nat>, i: nat)
    requires Winners(t0, f, first) && RowsMatch(t0, f, first)
    requires forall i :: 0 <= i < |last| ==> last[i] in f.handlers && !PastLedger(f, last[i])
    requires i < |first + last|
    requires forall i :: 0 <= i < |first + last| ==> (first + last)[i] in f.handlers
    ensures f.handlers[(first + last)[i]].pc.Done?
    ensures Answer(OutcomeAt(t0, EventsOf(f, first + last), i)) == Answer(f.handlers[(first + last)[i]].pc.outcome)
  {
    EventsConcat(f, first, last);
    DuplicatesListed(t0, f, first, last);
    AnswersOfPrefix(t0, EventsOf(f, first), EventsOf(f, last), i);
    if i < |first| { FinalAnswer(t0, f, first, i); }
  }

  /** `last` lists once everybody who did not get past the ledger. */
  ghost predicate Losers(f: State, last: seq<nat>) {
    && (forall h :: h in last <==> h in f.handlers && !PastLedger(f, h))
    && (forall i :: 0 <= i < |last| ==> last[i] in f.handlers && !PastLedger(f, last[i]))
    && (forall i, j :: 0 <= i < j < |last| ==> last[i] != last[j])
  }

  /** The winners in an order that matches the rows, and then everybody else in any order. */
  lemma ReplayFrom(t0: Tables, f: State, first: seq<nat>, last: seq<nat>)
    requires Winners(t0, f, first) && RowsMatch(t0, f, first)
    requires Losers(f, last)
    ensures Replays(t0, f, first + last)
  {
    var order := first + last;
    forall i, j | 0 <= i < j < |order| ensures order[i] != order[j] {
      if i < |first| && j >= |first| { assert order[i] in first && order[j] in last; }
    }
    SequentialRun(t0, f, first, last);
    forall i | 0 <= i < |order|
      ensures Answer(OutcomeAt(t0, EventsOf(f, order), i)) == Answer(f.handlers[order[i]].pc.outcome)
    {
      SequentialAnswer(t0, f, first, last, i);
    }
  }

  // ---------------------------------------------------------------- real time

  lemma {:induction false} LaterStamps(s: State, before: seq<Label>, after: seq<Label>, h: nat)
    ensures var a, f := Exec(s, before), Exec(s, before + after);
            && a.clock <= f.clock
            && (h in a.handlers ==> h in f.handlers)
            && (h in a.handlers && a.handlers[h].pc.Done? ==> f.handlers[h] == a.handlers[h])
            && (h !in a.handlers && PastLedger(f, h) ==> StampOf(f, h) >= a.clock)
  {
    if |after| == 0 {
      assert before + after == before;
    } else {
      var n := |after| - 1;
      assert (before + after)[..|before| + n] == before + after[..n];
      LaterStamps(s, before, after[..n], h);
    }
  }

  /** Stamps respect real time: a handler that had answered before another was even
      delivered has the smaller one. */
  lemma StampsRespectRealTime(s: State, before: seq<Label>, after: seq<Label>, h: nat, k: nat)
    requires Initial(s)
    requires h in Exec(s, before).handlers && Exec(s, before).handlers[h].pc.Done?
    requires k !in Exec(s, before).handlers
    requires PastLedger(Exec(s, before + after), h) && PastLedger(Exec(s, before + after), k)
    ensures StampOf(Exec(s, before + after), h) < StampOf(Exec(s, before + after), k)
  {
    LaterStamps(s, before, after, h);
    LaterStamps(s, before, after, k);
    EveryRunKeeps(s, before);
    InvFacts(Exec(s, before));
  }

  /** The handlers that answered "duplicate", in the order in which they did. */
  function Duplicates(s: State, ls: seq<Label>): seq<nat> {
    if |ls| == 0 then []
    else
      var n := |ls| - 1;
      var a, f := Exec(s, ls[..n]), Exec(s, ls);
      if ls[n].Step? && Running(a, ls[n].handler) && f.handlers[ls[n].handler].pc == Done(Duplicate)
      then Duplicates(s, ls[..n]) + [ls[n].handler] else Duplicates(s, ls[..n])
  }

  lemma {:induction false} DuplicatesAre(s: State, ls: seq<Label>)
    requires s.handlers == map[]
    ensures forall h :: h in Duplicates(s, ls) <==> h in Exec(s, ls).handlers && Exec(s, ls).handlers[h].pc == Done(Duplicate)
    ensures forall i, j :: 0 <= i < j < |Duplicates(s, ls)| ==> Duplicates(s, ls)[i] != Duplicates(s, ls)[j]
  {
    if |ls| > 0 {
      var n := |ls| - 1;
      DuplicatesAre(s, ls[..n]);
      DuplicateStep(Exec(s, ls[..n]), ls[n]);
    }
  }

  lemma DuplicateStep(a: State, l: Label)
    ensures var f := Next(a, l);
            && (forall h :: h in a.handlers && a.handlers[h].pc == Done(Duplicate) ==> h in f.handlers && f.handlers[h].pc == Done(Duplicate))
            && (forall h :: h in f.handlers && f.handlers[h].pc == Done(Duplicate) ==>
                  || (h in a.handlers && a.handlers[h].pc == Done(Duplicate))
                  || (l == Step(h) && Running(a, h)))
  {
  }

  lemma OneMoreDuplicate(s: State, ls: seq<Label>)
    requires |ls| > 0
    ensures var before, after := Duplicates(s, ls[..|ls| - 1]), Duplicates(s, ls);
            |before| <= |after| && after[..|before|] == before
  {
  }

  lemma {:induction false} DuplicatesGrow(s: State, ls: seq<Label>, n: nat)
    requires n <= |ls|
    ensures |Duplicates(s, ls[..n])| <= |Duplicates(s, ls)|
    ensures Duplicates(s, ls)[..|Duplicates(s, ls[..n])|] == Duplicates(s, ls[..n])
  {
    if n == |ls| {
      assert ls[..n] == ls;
    } else {
      var m := |ls| - 1;
      DuplicatesGrow(s, ls[..m], n);
      assert ls[..m][..n] == ls[..n];
      OneMoreDuplicate(s, ls);
      PrefixOfPrefix(Duplicates(s, ls[..n]), Duplicates(s, ls[..m]), Duplicates(s, ls));
    }
  }

  lemma PrefixOfPrefix(a: seq<nat>, b: seq<nat>, c: seq<nat>)
    requires |a| <= |b| <= |c| && b[..|a|] == a && c[..|b|] == b
    ensures c[..|a|] == a
  {
    assert c[..|a|] == c[..|b|][..|a|];
  }

  /** `h` had answered before `k` was delivered. */
  ghost predicate Precedes(s: State, ls: seq<Label>, h: nat, k: nat) {
    exists n :: 0 <= n <= |ls| && Answered(Exec(s, ls[..n]), h) && k !in Exec(s, ls[..n]).handlers
  }

  predicate Answered(s: State, h: nat) {
    h in s.handlers && s.handlers[h].pc.Done?
  }

  /** The order never puts `h` behind `k` when `h` had answered before `k` was delivered,
      unless `h` is a duplicate and `k` is not. */
  ghost predicate RespectsTime(s: State, ls: seq<Label>, order: seq<nat>) {
    forall i, j :: 0 <= i < j < |order| && Precedes(s, ls, order[j], order[i]) ==>
      !PastLedger(Exec(s, ls), order[j]) && PastLedger(Exec(s, ls), order[i])
  }

  lemma EarlierDuplicate(s: State, ls: seq<Label>, n: nat, i: nat, j: nat)
    requires s.handlers == map[] && n <= |ls| && i < j < |Duplicates(s, ls)|
    requires Answered(Exec(s, ls[..n]), Duplicates(s, ls)[j])
    ensures Duplicates(s, ls)[i] in Exec(s, ls[..n]).handlers
  {
    var last, before := Duplicates(s, ls), Duplicates(s, ls[..n]);
    DuplicatesAre(s, ls);
    DuplicatesAre(s, ls[..n]);
    DuplicatesGrow(s, ls, n);
    assert ls[..n] + ls[n..] == ls;
    LaterStamps(s, ls[..n], ls[n..], last[j]);
    assert last[j] in last && last[j] in before;
    var k :| 0 <= k < |before| && before[k] == last[j];
    assert last[k] == before[k] && last[i] == before[i];
  }

  lemma DuplicatesInTime(s: State, ls: seq<Label>, i: nat, j: nat)
    requires s.handlers == map[] && i < j < |Duplicates(s, ls)|
    ensures !Precedes(s, ls, Duplicates(s, ls)[j], Duplicates(s, ls)[i])
  {
    forall n | 0 <= n <= |ls| && Answered(Exec(s, ls[..n]), Duplicates(s, ls)[j])
      ensures Duplicates(s, ls)[i] in Exec(s, ls[..n]).handlers
    {
      EarlierDuplicate(s, ls, n, i, j);
    }
  }

  lemma WinnersInTime(s: State, ls: seq<Label>, h: nat, k: nat)
    requires Initial(s) && PastLedger(Exec(s, ls), h) && PastLedger(Exec(s, ls), k) && Precedes(s, ls, h, k)
    ensures StampOf(Exec(s, ls), h) < StampOf(Exec(s, ls), k)
  {
    var n :| 0 <= n <= |ls| && Answered(Exec(s, ls[..n]), h) && k !in Exec(s, ls[..n]).handlers;
    assert ls[..n] + ls[n..] == ls;
    StampsRespectRealTime(s, ls[..n], ls[n..], h, k);
  }

  // ---------------------------------------------------------------- serialisability

  /** An order that replays the run lists those past the ledger by their stamps. */
  ghost predicate Explains(t0: Tables, f: State, order: seq<nat>) {
    && Replays(t0, f, order)
    && (forall i, j :: 0 <= i < j < |order| && PastLedger(f, order[i]) && PastLedger(f, order[j]) ==>
          StampOf(f, order[i]) < StampOf(f, order[j]))
  }

  ghost predicate InTime(s: State, ls: seq<Label>, order: seq<nat>) {
    forall i, j :: 0 <= i < j < |order| ==> !Precedes(s, ls, order[j], order[i])
  }

  lemma StampsInTime(s: State, ls: seq<Label>, first: seq<nat>)
    requires Initial(s) && forall i :: 0 <= i < |first| ==> PastLedger(Exec(s, ls), first[i])
    requires forall i, j :: 0 <= i < j < |first| ==> StampOf(Exec(s, ls), first[i]) < StampOf(Exec(s, ls), first[j])
    ensures InTime(s, ls, first)
  {
    forall i, j | 0 <= i < j < |first| ensures !Precedes(s, ls, first[j], first[i]) {
      if Precedes(s, ls, first[j], first[i]) { WinnersInTime(s, ls, first[j], first[i]); }
    }
  }

  lemma AnswersInTime(s: State, ls: seq<Label>)
    requires s.handlers == map[]
    ensures InTime(s, ls, Duplicates(s, ls))
  {
    forall i, j | 0 <= i < j < |Duplicates(s, ls)| ensures !Precedes(s, ls, Duplicates(s, ls)[j], Duplicates(s, ls)[i]) {
      DuplicatesInTime(s, ls, i, j);
    }
  }

  lemma OrderInTime(s: State, ls: seq<Label>, first: seq<nat>, last: seq<nat>)
    requires InTime(s, ls, first) && InTime(s, ls, last) && Losers(Exec(s, ls), last)
    requires forall i :: 0 <= i < |first| ==> PastLedger(Exec(s, ls), first[i])
    ensures RespectsTime(s, ls, first + last)
  {
    var order := first + last;
    forall i, j | 0 <= i < j < |order| && (j < |first| || |first| <= i)
      ensures !Precedes(s, ls, order[j], order[i])
    {
      if j < |first| {
        assert !Precedes(s, ls, first[j], first[i]);
      } else {
        assert !Precedes(s, ls, last[j - |first|], last[i - |first|]);
      }
    }
  }

  lemma DuplicatesAreLosers(s: State, ls: seq<Label>)
    requires s.handlers == map[] && OrderInv(s.tables, Exec(s, ls)) && AllDone(Exec(s, ls))
    ensures Losers(Exec(s, ls), Duplicates(s, ls))
  {
    var f, last := Exec(s, ls), Duplicates(s, ls);
    DuplicatesAre(s, ls);
    forall h ensures h in last <==> h in f.handlers && !PastLedger(f, h) {
      if h in f.handlers { DoneKinds(s.tables, f, h); }
    }
    forall i | 0 <= i < |last| ensures last[i] in f.handlers && !PastLedger(f, last[i]) {
      assert last[i] in last;
    }
  }

  lemma FinishedRows(t0: Tables, f: State, first: seq<nat>)
    requires Finished(t0, f, first) && OneConnection(t0, f)
    ensures RowsMatch(t0, f, first)
  {
    forall r: string ensures Content(f.tables, r) == Expected(t0, EventsOf(f, first), r) {
      FinalRow(t0, f, first, r);
    }
  }

  lemma StampOrder(t0: Tables, f: State) returns (first: seq<nat>)
    requires OrderInv(t0, f) && AllDone(f) && Sound(t0)
    ensures Finished(t0, f, first)
  {
    first := SortByStamp(f, set h | h in f.handlers && PastLedger(f, h));
  }

  lemma StampsExplain(t0: Tables, f: State, first: seq<nat>, last: seq<nat>)
    requires Finished(t0, f, first) && OneConnection(t0, f) && Losers(f, last)
    ensures Explains(t0, f, first + last)
  {
    FinishedRows(t0, f, first);
    ReplayFrom(t0, f, first, last);
  }

  /** Serialisability by stamps: when events about one new record agree on the connection,
      once every handler has answered the order of the deciding steps explains the outcome.
      It keeps real time except for a duplicate before a later winner. */
  lemma StampOrderIsSequential(s: State, ls: seq<Label>) returns (order: seq<nat>)
    requires Initial(s) && AllQuiet(ls) && AllDone(Exec(s, ls)) && OneConnection(s.tables, Exec(s, ls))
    ensures Explains(s.tables, Exec(s, ls), order)
    ensures RespectsTime(s, ls, order)
  {
    var f := Exec(s, ls);
    QuietRunKeeps(s, ls);
    var first := StampOrder(s.tables, f);
    DuplicatesAreLosers(s, ls);
    StampsExplain(s.tables, f, first, Duplicates(s, ls));
    StampsInTime(s, ls, first);
    AnswersInTime(s, ls);
    OrderInTime(s, ls, first, Duplicates(s, ls));
    order := first + Duplicates(s, ls);
  }

  // ---------------------------------------------------------------- confluence

  ghost predicate DeliveredAre(f: State, es: seq<Event>) {
    forall e: Event :: e in es <==> exists h :: h in f.handlers && f.handlers[h].event == e
  }

  lemma OneStoryOneConnection(t0: Tables, f: State, es: seq<Event>)
    requires OneStory(t0, es) && DeliveredAre(f, es) && LedgerOk(t0, f)
    ensures OneConnection(t0, f)
  {
    forall h, k | PastLedger(f, h) && PastLedger(f, k) ensures Agree(t0, f.handlers[h].event, f.handlers[k].event) {
      var e, g := f.handlers[h].event, f.handlers[k].event;
      assert e in es && g in es;
      var i :| 0 <= i < |es| && es[i] == e;
      var j :| 0 <= j < |es| && es[j] == g;
      assert Agree(t0, es[i], es[j]);
    }
  }

  lemma ListedAreDelivered(f: State, order: seq<nat>, es: seq<Event>)
    requires forall h :: h in order <==> h in f.handlers
    requires forall i :: 0 <= i < |order| ==> order[i] in f.handlers
    requires DeliveredAre(f, es)
    ensures SameEvents(es, EventsOf(f, order))
  {
    var fs := EventsOf(f, order);
    forall e: Event ensures e in es <==> e in fs {
      if h :| h in f.handlers && f.handlers[h].event == e {
        assert h in order;
        var i :| 0 <= i < |order| && order[i] == h;
        assert fs[i] == e;
      }
      if i :| 0 <= i < |fs| && fs[i] == e {
        assert order[i] in f.handlers && f.handlers[order[i]].event == e;
      }
    }
  }

  /** No schedule matters: when ids identify messages and the events tell one story,
      every complete interleaving of the deliveries, duplicates included, leaves the
      conferences and the ledger of any sequential pass over the same events. */
  lemma EveryScheduleAgrees(s: State, ls: seq<Label>, es: seq<Event>)
    requires Initial(s) && AllQuiet(ls) && AllDone(Exec(s, ls))
    requires IdsIdentify(es) && OneStory(s.tables, es) && DeliveredAre(Exec(s, ls), es)
    ensures SameConferences(Exec(s, ls).tables, HandleAll(s.tables, es))
    ensures Exec(s, ls).tables.ledger == HandleAll(s.tables, es).ledger
  {
    var f := Exec(s, ls);
    QuietRunKeeps(s, ls);
    OneStoryOneConnection(s.tables, f, es);
    var order := StampOrderIsSequential(s, ls);
    ListedAreDelivered(f, order, es);
    DeliveryDoesNotMatter(s.tables, es, EventsOf(f, order));
  }

  /** New events about one new record agree on the connection. */
  ghost predicate AgreeOnConnection(t: Tables, es: seq<Event>) {
    forall e, g ::
      (&& e in es && g in es && e.message !in t.ledger && g.message !in t.ledger
       && Routed(t, e) && Routed(t, g) && e.record == g.record && e.record.value !in t.conferences) ==>
        ConnectionOf(t, e) == ConnectionOf(t, g)
  }

  lemma AgreedWinners(t0: Tables, f: State, es: seq<Event>)
    requires AgreeOnConnection(t0, es) && DeliveredAre(f, es) && LedgerOk(t0, f)
    ensures OneConnection(t0, f)
  {
    forall h | PastLedger(f, h) ensures f.handlers[h].event in es && f.handlers[h].event.message !in t0.ledger {
    }
  }
}
