/** A sequential order in real time for records on whose connection events disagree. All
    events about such a record that decided before its row was inserted overlap the insert;
    at that moment they may act in any order. */
module IngestionContest {
  import opened Wrappers
  import opened Ingestion
  import opened IngestionSerial
  import opened IngestionOrder
  import opened IngestionTheorems
  import opened IngestionRealTime

  // ---------------------------------------------------------------- the insert

  /** Clock of the step that inserted the row of `r`, and the handler that took it. */
  function InsertAt(s: State, ls: seq<Label>, r: string): int {
    if |ls| == 0 then 0
    else
      var a := Exec(s, ls[..|ls| - 1]);
      if r in a.tables.conferences then InsertAt(s, ls[..|ls| - 1], r) else a.clock
  }

  function Inserter(s: State, ls: seq<Label>, r: string): nat {
    if |ls| == 0 then 0
    else
      var n := |ls| - 1;
      if r in Exec(s, ls[..n]).tables.conferences then Inserter(s, ls[..n], r)
      else if ls[n].Step? then ls[n].handler else 0
  }

  /** The inserter settled at the insert, and the row still has its connection. */
  ghost predicate InsertedBy(t0: Tables, f: State, r: string, h: nat, c: int) {
    && SettledOn(f, h, r) && Routed(t0, f.handlers[h].event) && StampOf(f, h) == c
    && r in f.tables.conferences && f.tables.conferences[r].connection == ConnectionOf(t0, f.handlers[h].event)
  }

  lemma InsertNow(t0: Tables, a: State, l: Label, r: string)
    requires OrderInv(t0, a) && Quiet(l) && r !in a.tables.conferences && r in Next(a, l).tables.conferences
    ensures l.Step? && InsertedBy(t0, Next(a, l), r, l.handler, a.clock) && a.clock < Next(a, l).clock
  {
    assert Running(a, l.handler) && PlaceOk(t0, a, l.handler);
  }

  lemma InsertStays(t0: Tables, a: State, l: Label, r: string, h: nat, c: int)
    requires Quiet(l) && InsertedBy(t0, a, r, h, c) && PlaceOk(t0, a, h)
    ensures InsertedBy(t0, Next(a, l), r, h, c) && a.clock <= Next(a, l).clock
  {
  }

  lemma {:induction false} InserterFacts(s: State, ls: seq<Label>, r: string)
    requires Initial(s) && AllQuiet(ls) && r !in s.tables.conferences && r in Exec(s, ls).tables.conferences
    ensures InsertedBy(s.tables, Exec(s, ls), r, Inserter(s, ls, r), InsertAt(s, ls, r))
    ensures InsertAt(s, ls, r) < Exec(s, ls).clock
  {
    var n := |ls| - 1;
    var a := Exec(s, ls[..n]);
    assert Quiet(ls[n]);
    QuietRunKeeps(s, ls[..n]);
    if r in a.tables.conferences {
      InserterFacts(s, ls[..n], r);
      InsertStays(s.tables, a, ls[n], r, Inserter(s, ls[..n], r), InsertAt(s, ls[..n], r));
    } else {
      InsertNow(s.tables, a, ls[n], r);
    }
  }

  lemma {:induction false} InsertIsFixed(s: State, ls: seq<Label>, n: nat, r: string)
    requires n <= |ls| && AllQuiet(ls) && r in Exec(s, ls[..n]).tables.conferences
    ensures r in Exec(s, ls).tables.conferences && InsertAt(s, ls, r) == InsertAt(s, ls[..n], r)
  {
    if n == |ls| {
      assert ls[..n] == ls;
    } else {
      var m := |ls| - 1;
      assert ls[..m][..n] == ls[..n];
      InsertIsFixed(s, ls[..m], n, r);
      OneMoreStep(s, ls, r);
    }
  }

  lemma OneMoreStep(s: State, ls: seq<Label>, r: string)
    requires |ls| > 0 && Quiet(ls[|ls| - 1]) && r in Exec(s, ls[..|ls| - 1]).tables.conferences
    ensures r in Exec(s, ls).tables.conferences && InsertAt(s, ls, r) == InsertAt(s, ls[..|ls| - 1], r)
  {
    RowStays(Exec(s, ls[..|ls| - 1]), ls[|ls| - 1], r);
  }

  lemma RowStays(a: State, l: Label, r: string)
    requires Quiet(l) && r in a.tables.conferences
    ensures r in Next(a, l).tables.conferences
  {
  }

  /** Whoever is about the record and past the ledger answers after the insert. */
  lemma AnswersAfterInsert(s: State, ls: seq<Label>, n: nat, h: nat, r: string)
    requires Initial(s) && AllQuiet(ls) && n <= |ls| && r !in s.tables.conferences
    requires Answered(Exec(s, ls[..n]), h) && PastLedger(Exec(s, ls[..n]), h)
    requires About(s.tables, Exec(s, ls[..n]).handlers[h].event, r)
    ensures InsertAt(s, ls, r) < Exec(s, ls[..n]).clock
  {
    var a := Exec(s, ls[..n]);
    QuietRunKeeps(s, ls[..n]);
    AnsweredHasRow(s.tables, a, h, r);
    InserterFacts(s, ls[..n], r);
    InsertIsFixed(s, ls, n, r);
  }

  lemma AnsweredHasRow(t0: Tables, a: State, h: nat, r: string)
    requires OrderInv(t0, a) && Answered(a, h) && PastLedger(a, h) && About(t0, a.handlers[h].event, r)
    ensures r in a.tables.conferences
  {
    assert PlaceOk(t0, a, h) && HandlerOk(a.tables, a.clock, a.handlers[h]);
  }

  // ---------------------------------------------------------------- who acts first and last at the insert

  /** Somebody names the record by a step after the insert. */
  ghost predicate NamedLater(f: State, r: string, c: int) {
    exists k :: NamedOn(f, k, r) && StampOf(f, k) > c
  }

  /** At the insert `a` may act first and `z` last. */
  ghost predicate Ends(t0: Tables, f: State, r: string, c: int, a: nat, z: nat)
    requires r in f.tables.conferences
  {
    var row := f.tables.conferences[r];
    && SettledOn(f, a, r) && Routed(t0, f.handlers[a].event) && StampOf(f, a) <= c
    && row.connection == ConnectionOf(t0, f.handlers[a].event)
    && (|| NamedLater(f, r, c)
        || (&& NamedOn(f, z, r) && f.handlers[z].event.transcript == row.transcript
            && (a == z ==> forall k :: NamedOn(f, k, r) ==> k == a))
        || ((forall k :: !NamedOn(f, k, r)) && row.transcript == None))
  }

  /** The handler shares its connection, or its name, with another that names the record, or
      nobody names another. */
  ghost predicate NotAlone(t0: Tables, f: State, r: string, b: nat)
    requires b in f.handlers && Routed(t0, f.handlers[b].event)
  {
    var e := f.handlers[b].event;
    || (exists k :: k != b && NamedOn(f, k, r) && Routed(t0, f.handlers[k].event)
          && (ConnectionOf(t0, f.handlers[k].event) == ConnectionOf(t0, e) || f.handlers[k].event.transcript == e.transcript))
    || (forall k :: k != b ==> !NamedOn(f, k, r))
  }

  /** If nobody names the record after the insert, all who do decided by then. */
  lemma EndsAtInsert(t0: Tables, f: State, r: string, c: int, i: nat)
    requires OrderInv(t0, f) && InsertedBy(t0, f, r, i, c) && r !in t0.conferences
    requires NamedOn(f, i, r) ==> NotAlone(t0, f, r, i)
    ensures exists a, z :: Ends(t0, f, r, c, a, z)
  {
    assert RowOk(t0, f, r);
    var row := f.tables.conferences[r];
    if NamedLater(f, r, c) || forall k :: !NamedOn(f, k, r) {
      assert Ends(t0, f, r, c, i, i);
    } else {
      var z :| LastNamed(f, z, r) && f.handlers[z].event.transcript == row.transcript;
      if z != i {
        assert Ends(t0, f, r, c, i, z);
      } else {
        LoneEnds(t0, f, r, c, i);
      }
    }
  }

  lemma LoneEnds(t0: Tables, f: State, r: string, c: int, i: nat)
    requires InsertedBy(t0, f, r, i, c) && NamedOn(f, i, r) && NotAlone(t0, f, r, i) && !NamedLater(f, r, c)
    requires f.handlers[i].event.transcript == f.tables.conferences[r].transcript
    ensures exists a, z :: Ends(t0, f, r, c, a, z)
  {
    var e := f.handlers[i].event;
    if k :| k != i && NamedOn(f, k, r) && Routed(t0, f.handlers[k].event)
            && (ConnectionOf(t0, f.handlers[k].event) == ConnectionOf(t0, e) || f.handlers[k].event.transcript == e.transcript) {
      assert StampOf(f, k) <= c;
      if ConnectionOf(t0, f.handlers[k].event) == ConnectionOf(t0, e) {
        assert Ends(t0, f, r, c, k, i);
      } else {
        assert Ends(t0, f, r, c, i, k);
      }
    } else {
      assert Ends(t0, f, r, c, i, i);
    }
  }

  ghost function EndsOf(t0: Tables, f: State, r: string, c: int): (nat, nat) {
    if r in f.tables.conferences && exists a, z :: Ends(t0, f, r, c, a, z) then
      var a, z :| Ends(t0, f, r, c, a, z);
      (a, z)
    else (0, 0)
  }

  // ---------------------------------------------------------------- points

  ghost predicate AboutContested(t0: Tables, f: State, h: nat) {
    && PastLedger(f, h) && Routed(t0, f.handlers[h].event)
    && Contested(t0, f, f.handlers[h].event.record.value)
  }

  /** Three times the clock, so that at the insert there is room for a first and a last. */
  ghost function FinePoint(s: State, ls: seq<Label>, h: nat): int {
    var f := Exec(s, ls);
    if AboutContested(s.tables, f, h) then
      var r := f.handlers[h].event.record.value;
      var c := InsertAt(s, ls, r);
      var ends := EndsOf(s.tables, f, r, c);
      if StampOf(f, h) > c then 3 * StampOf(f, h) + 1
      else if h == ends.0 then 3 * c
      else if h == ends.1 then 3 * c + 2
      else 3 * c + 1
    else 3 * PointOf(s, ls, h) + 1
  }

  /** The list goes by points. */
  ghost predicate Fine(s: State, ls: seq<Label>, w: seq<nat>) {
    forall i, j :: 0 <= i < j < |w| ==> FinePoint(s, ls, w[i]) <= FinePoint(s, ls, w[j])
  }

  lemma NotLater(s: State, ls: seq<Label>, w: seq<nat>, j: nat, i: nat)
    requires Fine(s, ls, w) && j <= i < |w|
    ensures FinePoint(s, ls, w[j]) <= FinePoint(s, ls, w[i])
  {
  }

  lemma ContestedPointInTime(s: State, ls: seq<Label>, n: nat, h: nat)
    requires Initial(s) && AllQuiet(ls) && n <= |ls| && AboutContested(s.tables, Exec(s, ls), h)
    ensures h !in Exec(s, ls[..n]).handlers ==> FinePoint(s, ls, h) >= 3 * Exec(s, ls[..n]).clock
    ensures Answered(Exec(s, ls[..n]), h) ==> FinePoint(s, ls, h) < 3 * Exec(s, ls[..n]).clock
  {
    var a, f := Exec(s, ls[..n]), Exec(s, ls);
    var r := f.handlers[h].event.record.value;
    assert ls[..n] + ls[n..] == ls;
    LaterStamps(s, ls[..n], ls[n..], h);
    if Answered(a, h) {
      EveryRunKeeps(s, ls[..n]);
      InvFacts(a);
      AnswersAfterInsert(s, ls, n, h, r);
    }
  }

  lemma FinePointInTime(s: State, ls: seq<Label>, n: nat, h: nat)
    requires Initial(s) && AllQuiet(ls) && n <= |ls| && Answered(Exec(s, ls), h)
    requires !ClashingDuplicate(s.tables, Exec(s, ls), h)
    ensures h !in Exec(s, ls[..n]).handlers ==> FinePoint(s, ls, h) >= 3 * Exec(s, ls[..n]).clock
    ensures Answered(Exec(s, ls[..n]), h) ==> FinePoint(s, ls, h) < 3 * Exec(s, ls[..n]).clock
  {
    if AboutContested(s.tables, Exec(s, ls), h) {
      ContestedPointInTime(s, ls, n, h);
    } else {
      PointInTime(s, ls, n, h);
    }
  }

  lemma FinePointsInTime(s: State, ls: seq<Label>, order: seq<nat>)
    requires Initial(s) && AllQuiet(ls) && AllDone(Exec(s, ls)) && forall i :: 0 <= i < |order| ==> order[i] in Exec(s, ls).handlers
    requires forall d :: !ClashingDuplicate(s.tables, Exec(s, ls), d)
    requires Fine(s, ls, order)
    ensures InTime(s, ls, order)
  {
    forall i, j | 0 <= i < j < |order| ensures !Precedes(s, ls, order[j], order[i]) {
      forall n | 0 <= n <= |ls| && Answered(Exec(s, ls[..n]), order[j]) ensures order[i] in Exec(s, ls[..n]).handlers {
        FinePointInTime(s, ls, n, order[i]);
        FinePointInTime(s, ls, n, order[j]);
      }
    }
  }

  // ---------------------------------------------------------------- the rows by points

  lemma ContestedFirst(s: State, ls: seq<Label>, f: State, w: seq<nat>, r: string, i: nat, q: nat)
    requires f == Exec(s, ls) && Contested(s.tables, f, r) && r in f.tables.conferences
    requires exists a, z :: Ends(s.tables, f, r, InsertAt(s, ls, r), a, z)
    requires i <= q < |w| && (i < q ==> FinePoint(s, ls, w[i]) <= FinePoint(s, ls, w[q]))
    requires PastLedger(f, w[i]) && About(s.tables, f.handlers[w[i]].event, r)
    requires w[q] == EndsOf(s.tables, f, r, InsertAt(s, ls, r)).0 && PastLedger(f, w[q]) && About(s.tables, f.handlers[w[q]].event, r)
    ensures w[i] == w[q]
  {
  }

  lemma ContestedConnection(s: State, ls: seq<Label>, f: State, w: seq<nat>, r: string)
    requires f == Exec(s, ls) && Winners(s.tables, f, w) && Contested(s.tables, f, r) && r in f.tables.conferences
    requires exists a, z :: Ends(s.tables, f, r, InsertAt(s, ls, r), a, z)
    requires Fine(s, ls, w)
    ensures FirstConnection(s.tables, EventsOf(f, w), r) == Some(f.tables.conferences[r].connection)
  {
    var a := EndsOf(s.tables, f, r, InsertAt(s, ls, r)).0;
    var q := Position(s.tables, f, w, a, r);
    ContestedFirstAt(s, ls, f, w, r, q);
  }

  lemma ContestedFirstAt(s: State, ls: seq<Label>, f: State, w: seq<nat>, r: string, q: nat)
    requires f == Exec(s, ls) && Contested(s.tables, f, r) && r in f.tables.conferences && Fine(s, ls, w)
    requires forall i :: 0 <= i < |w| ==> PastLedger(f, w[i])
    requires exists a, z :: Ends(s.tables, f, r, InsertAt(s, ls, r), a, z)
    requires q < |w| && w[q] == EndsOf(s.tables, f, r, InsertAt(s, ls, r)).0 && About(s.tables, f.handlers[w[q]].event, r)
    ensures FirstConnection(s.tables, EventsOf(f, w), r) == Some(f.tables.conferences[r].connection)
  {
    var es := EventsOf(f, w);
    assert About(s.tables, es[q], r);
    var i := FirstConnectionIndex(s.tables, es, r);
    ContestedFirst(s, ls, f, w, r, i, q);
  }

  /** The latest point of a namer belongs to the one whose name is in the row. */
  lemma ContestedLast(s: State, ls: seq<Label>, f: State, r: string, h: nat, k: nat, c: int)
    requires f == Exec(s, ls) && c == InsertAt(s, ls, r) && StampsApart(f) && Contested(s.tables, f, r) && r in f.tables.conferences
    requires exists a, z :: Ends(s.tables, f, r, c, a, z)
    requires PastLedger(f, h) && PastLedger(f, k) && NamedOn(f, h, r) && LastNamed(f, k, r)
    requires About(s.tables, f.handlers[h].event, r) && About(s.tables, f.handlers[k].event, r)
    requires StampOf(f, k) > c && FinePoint(s, ls, k) <= FinePoint(s, ls, h)
    ensures h == k
  {
    assert StampOf(f, h) <= StampOf(f, k);
    if StampOf(f, h) > c { LatestNamer(f, r, h, k); }
  }

  lemma ContestedName(s: State, ls: seq<Label>, w: seq<nat>, r: string)
    requires Winners(s.tables, Exec(s, ls), w) && Contested(s.tables, Exec(s, ls), r) && r in Exec(s, ls).tables.conferences
    requires exists a, z :: Ends(s.tables, Exec(s, ls), r, InsertAt(s, ls, r), a, z)
    requires Fine(s, ls, w)
    ensures Exec(s, ls).tables.conferences[r].transcript == LastName(s.tables, EventsOf(Exec(s, ls), w), r)
  {
    var f := Exec(s, ls);
    if k :| NamedOn(f, k, r) {
      var z := RowNamer(s, ls, r);
      NamedByRowNamer(s, ls, f, w, r, z);
    } else {
      NoNamer(s.tables, f, w, r);
    }
  }

  lemma NamedByRowNamer(s: State, ls: seq<Label>, f: State, w: seq<nat>, r: string, z: nat)
    requires f == Exec(s, ls) && Winners(s.tables, f, w) && StampsApart(f) && Contested(s.tables, f, r)
    requires IsRowNamer(s, ls, r, z) && Fine(s, ls, w)
    requires exists a, z :: Ends(s.tables, f, r, InsertAt(s, ls, r), a, z)
    ensures LastName(s.tables, EventsOf(f, w), r) == f.tables.conferences[r].transcript
  {
    var i, j := NamerIndex(s.tables, f, w, r, z);
    NotLater(s, ls, w, j, i);
    RowNamerIsLast(s, ls, r, w[i], z);
  }

  /** The handler that names the record last, by points. */
  ghost predicate IsRowNamer(s: State, ls: seq<Label>, r: string, z: nat) {
    var f, c := Exec(s, ls), InsertAt(s, ls, r);
    && r in f.tables.conferences && NamedOn(f, z, r) && f.handlers[z].event.transcript == f.tables.conferences[r].transcript
    && if NamedLater(f, r, c) then LastNamed(f, z, r) && StampOf(f, z) > c else z == EndsOf(s.tables, f, r, c).1
  }

  lemma RowNamer(s: State, ls: seq<Label>, r: string) returns (z: nat)
    requires OrderInv(s.tables, Exec(s, ls)) && r in Exec(s, ls).tables.conferences && exists k :: NamedOn(Exec(s, ls), k, r)
    requires exists a, z :: Ends(s.tables, Exec(s, ls), r, InsertAt(s, ls, r), a, z)
    ensures IsRowNamer(s, ls, r, z)
  {
    var f, c := Exec(s, ls), InsertAt(s, ls, r);
    if NamedLater(f, r, c) {
      z := LatestOnRow(s.tables, f, r);
      LaterBeats(s.tables, f, r, c, z);
    } else {
      z := EndsOf(s.tables, f, r, c).1;
    }
  }

  lemma RowNamerIsLast(s: State, ls: seq<Label>, r: string, h: nat, z: nat)
    requires IsRowNamer(s, ls, r, z) && StampsApart(Exec(s, ls)) && Contested(s.tables, Exec(s, ls), r)
    requires exists a, z :: Ends(s.tables, Exec(s, ls), r, InsertAt(s, ls, r), a, z)
    requires PastLedger(Exec(s, ls), h) && PastLedger(Exec(s, ls), z) && NamedOn(Exec(s, ls), h, r)
    requires About(s.tables, Exec(s, ls).handlers[h].event, r) && About(s.tables, Exec(s, ls).handlers[z].event, r)
    requires FinePoint(s, ls, z) <= FinePoint(s, ls, h)
    ensures h == z
  {
    var f, c := Exec(s, ls), InsertAt(s, ls, r);
    if NamedLater(f, r, c) {
      ContestedLast(s, ls, f, r, h, z, c);
    } else {
      ContestedEnd(s, ls, f, r, h, z, c);
    }
  }

  ghost function LatestOnRow(t0: Tables, f: State, r: string): (k: nat)
    requires OrderInv(t0, f) && r in f.tables.conferences && exists k :: NamedOn(f, k, r)
    ensures LastNamed(f, k, r) && f.handlers[k].event.transcript == f.tables.conferences[r].transcript
  {
    assert RowOk(t0, f, r);
    var k :| LastNamed(f, k, r) && f.handlers[k].event.transcript == f.tables.conferences[r].transcript;
    k
  }

  lemma LaterBeats(t0: Tables, f: State, r: string, c: int, z: nat)
    requires NamedLater(f, r, c) && LastNamed(f, z, r)
    ensures StampOf(f, z) > c
  {
  }

  lemma NoNamer(t0: Tables, f: State, w: seq<nat>, r: string)
    requires Winners(t0, f, w) && r in f.tables.conferences && r !in t0.conferences && forall k :: !NamedOn(f, k, r)
    ensures LastName(t0, EventsOf(f, w), r) == f.tables.conferences[r].transcript == None
  {
    assert RowOk(t0, f, r);
    var i := LastNameIndex(t0, EventsOf(f, w), r);
    if LastName(t0, EventsOf(f, w), r).Some? {
      SettledIsAbout(t0, f, w[i], r);
      assert NamedOn(f, w[i], r);
    }
  }

  /** The last namer in the list, at `i`; the namer `z` stands at `j`, not behind it. */
  lemma NamerIndex(t0: Tables, f: State, w: seq<nat>, r: string, z: nat) returns (i: nat, j: nat)
    requires Winners(t0, f, w) && NamedOn(f, z, r)
    ensures j <= i < |w| && w[j] == z
    ensures NamedOn(f, w[i], r) && PastLedger(f, w[i]) && About(t0, f.handlers[w[i]].event, r)
    ensures LastName(t0, EventsOf(f, w), r) == f.handlers[w[i]].event.transcript
    ensures PastLedger(f, z) && About(t0, f.handlers[z].event, r)
  {
    var es := EventsOf(f, w);
    j := Position(t0, f, w, z, r);
    assert Names(t0, es[j], r);
    var l := LastNameIndex(t0, es, r);
    i := l;
    SettledIsAbout(t0, f, w[i], r);
    SettledIsAbout(t0, f, z, r);
  }

  lemma ContestedEnd(s: State, ls: seq<Label>, f: State, r: string, h: nat, z: nat, c: int)
    requires f == Exec(s, ls) && c == InsertAt(s, ls, r) && Contested(s.tables, f, r) && r in f.tables.conferences
    requires exists a, z :: Ends(s.tables, f, r, c, a, z)
    requires z == EndsOf(s.tables, f, r, c).1 && !NamedLater(f, r, c)
    requires PastLedger(f, h) && PastLedger(f, z) && NamedOn(f, h, r) && NamedOn(f, z, r)
    requires About(s.tables, f.handlers[h].event, r) && About(s.tables, f.handlers[z].event, r)
    requires FinePoint(s, ls, z) <= FinePoint(s, ls, h)
    ensures h == z
  {
    assert StampOf(f, h) <= c && StampOf(f, z) <= c;
  }

  /** The record is not contested, or its row has somebody to act first and somebody last. */
  ghost predicate Resolved(s: State, ls: seq<Label>, r: string) {
    Contested(s.tables, Exec(s, ls), r) && r in Exec(s, ls).tables.conferences ==>
      exists a, z :: Ends(s.tables, Exec(s, ls), r, InsertAt(s, ls, r), a, z)
  }

  lemma UncontestedPoints(s: State, ls: seq<Label>, w: seq<nat>, r: string)
    requires Winners(s.tables, Exec(s, ls), w) && !Contested(s.tables, Exec(s, ls), r)
    requires Fine(s, ls, w)
    ensures forall i, j :: 0 <= i < j < |w| && NamedOn(Exec(s, ls), w[i], r) && NamedOn(Exec(s, ls), w[j], r) ==>
              PointOf(s, ls, w[i]) <= PointOf(s, ls, w[j])
  {
    var f := Exec(s, ls);
    forall i, j | 0 <= i < j < |w| && NamedOn(f, w[i], r) && NamedOn(f, w[j], r)
      ensures PointOf(s, ls, w[i]) <= PointOf(s, ls, w[j])
    {
      assert !AboutContested(s.tables, f, w[i]) && !AboutContested(s.tables, f, w[j]);
      assert FinePoint(s, ls, w[i]) <= FinePoint(s, ls, w[j]);
    }
  }

  lemma FineRow(s: State, ls: seq<Label>, w: seq<nat>, r: string)
    requires Winners(s.tables, Exec(s, ls), w) && Resolved(s, ls, r)
    requires Fine(s, ls, w)
    ensures Content(Exec(s, ls).tables, r) == Expected(s.tables, EventsOf(Exec(s, ls), w), r)
  {
    var f := Exec(s, ls);
    if !Contested(s.tables, f, r) {
      FinalConnection(s.tables, f, w, r);
      if r in f.tables.conferences {
        UncontestedPoints(s, ls, w, r);
        PointName(s, ls, w, r);
      }
    } else if r in f.tables.conferences {
      ContestedConnection(s, ls, f, w, r);
      ContestedName(s, ls, w, r);
    } else {
      var i := FirstConnectionIndex(s.tables, EventsOf(f, w), r);
      if FirstConnection(s.tables, EventsOf(f, w), r).Some? { MentionedHasRow(s.tables, f, w, r, i); }
    }
  }

  /** No redelivery of an event about a contested record. */
  ghost predicate ContestedOnce(t0: Tables, f: State) {
    forall d, w :: d in f.handlers && !PastLedger(f, d) && AboutContested(t0, f, w) ==>
      f.handlers[d].event.message != f.handlers[w].event.message
  }

  lemma FineOriginalsFirst(s: State, ls: seq<Label>, order: seq<nat>)
    requires Initial(s) && AllQuiet(ls) && AllDone(Exec(s, ls)) && Lists(Exec(s, ls), order)
    requires ContestedOnce(s.tables, Exec(s, ls))
    requires Fine(s, ls, order)
    ensures OriginalsFirst(s.tables, Exec(s, ls), order)
  {
    var f := Exec(s, ls);
    forall i | 0 <= i < |order| && !PastLedger(f, order[i])
      ensures f.handlers[order[i]].event.message in s.tables.ledger || OriginalBefore(f, order, i)
    {
      if f.handlers[order[i]].event.message !in s.tables.ledger {
        var w := OriginalPoint(s, ls, order[i]);
        assert FinePoint(s, ls, w) < FinePoint(s, ls, order[i]);
        assert w in order;
        var j :| 0 <= j < |order| && order[j] == w;
        assert j < i;
      }
    }
  }

  /** A complete run whose contested records are resolved and delivered once, and that has no
      clashing duplicate, is replayed by an order that keeps real time. */
  lemma ResolvedIsSequential(s: State, ls: seq<Label>) returns (order: seq<nat>)
    requires Initial(s) && AllQuiet(ls) && AllDone(Exec(s, ls))
    requires forall r :: Resolved(s, ls, r)
    requires ContestedOnce(s.tables, Exec(s, ls)) && forall d :: !ClashingDuplicate(s.tables, Exec(s, ls), d)
    ensures Replays(s.tables, Exec(s, ls), order) && InTime(s, ls, order)
  {
    var f := Exec(s, ls);
    QuietRunKeeps(s, ls);
    ghost var p := (h: nat) => FinePoint(s, ls, h);
    order := SortByPoint(p, f.handlers.Keys);
    assert Lists(f, order) by { assert forall i :: 0 <= i < |order| ==> order[i] in order; }
    assert forall i, j :: 0 <= i < j < |order| ==> p(order[i]) <= p(order[j]);
    PastByPoints(f, p, order);
    WinnersOf(s.tables, f, order);
    FineRows(s, ls, Past(f, order));
    FineOriginalsFirst(s, ls, order);
    ReplayInPlace(s.tables, f, order);
    FinePointsInTime(s, ls, order);
  }

  lemma FineRows(s: State, ls: seq<Label>, w: seq<nat>)
    requires Winners(s.tables, Exec(s, ls), w) && forall r :: Resolved(s, ls, r)
    requires Fine(s, ls, w)
    ensures RowsMatch(s.tables, Exec(s, ls), w)
  {
    forall r: string ensures Content(Exec(s, ls).tables, r) == Expected(s.tables, EventsOf(Exec(s, ls), w), r) {
      assert Resolved(s, ls, r);
      FineRow(s, ls, w, r);
    }
  }
}
