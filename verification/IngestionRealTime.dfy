/** A sequential order in real time. Every handler has a point in time between its delivery
    and its answer at which it may be thought to act: the ledger commit, if the names given
    for its record agree; the deciding step, if they clash; the answer, for a duplicate. */
module IngestionRealTime {
  import opened Wrappers
  import opened Ingestion
  import opened IngestionSerial
  import opened IngestionOrder
  import opened IngestionTheorems

  // ---------------------------------------------------------------- points in time

  /** Clock of the step by which `h` got past the ledger. */
  function CommitAt(s: State, ls: seq<Label>, h: nat): int {
    if |ls| == 0 then 0
    else
      var a := Exec(s, ls[..|ls| - 1]);
      if PastLedger(a, h) then CommitAt(s, ls[..|ls| - 1], h) else a.clock
  }

  /** Clock of the step by which `h` answered. */
  function AnswerAt(s: State, ls: seq<Label>, h: nat): int {
    if |ls| == 0 then 0
    else
      var a := Exec(s, ls[..|ls| - 1]);
      if Answered(a, h) then AnswerAt(s, ls[..|ls| - 1], h) else a.clock
  }

  lemma StepTimes(a: State, l: Label, h: nat)
    ensures var f := Next(a, l);
            && a.clock <= f.clock && (h in a.handlers ==> h in f.handlers)
            && (PastLedger(a, h) ==> PastLedger(f, h) && (StampOf(f, h) == StampOf(a, h) || StampOf(f, h) == a.clock))
            && (!PastLedger(a, h) && PastLedger(f, h) ==> StampOf(f, h) == a.clock && a.clock < f.clock)
            && (Answered(a, h) ==> f.handlers[h] == a.handlers[h])
            && (!Answered(a, h) && Answered(f, h) ==> a.clock < f.clock)
            && (h !in a.handlers ==> !PastLedger(f, h) && !Answered(f, h))
  {
  }

  /** The commit is not before the delivery and not after the last deciding step. */
  lemma {:induction false} CommitBounds(s: State, ls: seq<Label>, h: nat)
    requires Initial(s) && PastLedger(Exec(s, ls), h)
    ensures 0 <= CommitAt(s, ls, h) <= StampOf(Exec(s, ls), h) < Exec(s, ls).clock
  {
    if |ls| > 0 {
      var n := |ls| - 1;
      var a := Exec(s, ls[..n]);
      StepTimes(a, ls[n], h);
      EveryRunKeeps(s, ls);
      EveryRunKeeps(s, ls[..n]);
      InvFacts(Exec(s, ls));
      if PastLedger(a, h) { CommitBounds(s, ls[..n], h); }
    }
  }

  lemma {:induction false} CommitStays(s: State, ls: seq<Label>, n: nat, h: nat)
    requires n <= |ls|
    ensures var a, f := Exec(s, ls[..n]), Exec(s, ls);
            && a.clock <= f.clock
            && (PastLedger(a, h) ==> PastLedger(f, h) && CommitAt(s, ls, h) == CommitAt(s, ls[..n], h))
            && (!PastLedger(a, h) && PastLedger(f, h) ==> CommitAt(s, ls, h) >= a.clock)
  {
    if n == |ls| {
      assert ls[..n] == ls;
    } else {
      var m := |ls| - 1;
      assert ls[..m][..n] == ls[..n];
      CommitStays(s, ls[..m], n, h);
      StepTimes(Exec(s, ls[..m]), ls[m], h);
    }
  }

  lemma {:induction false} AnswerStays(s: State, ls: seq<Label>, n: nat, h: nat)
    requires n <= |ls|
    ensures var a, f := Exec(s, ls[..n]), Exec(s, ls);
            && a.clock <= f.clock
            && (Answered(a, h) ==> Answered(f, h) && f.handlers[h] == a.handlers[h] && AnswerAt(s, ls, h) == AnswerAt(s, ls[..n], h))
            && (!Answered(a, h) && Answered(f, h) ==> AnswerAt(s, ls, h) >= a.clock)
  {
    if n == |ls| {
      assert ls[..n] == ls;
    } else {
      var m := |ls| - 1;
      assert ls[..m][..n] == ls[..n];
      AnswerStays(s, ls[..m], n, h);
      StepTimes(Exec(s, ls[..m]), ls[m], h);
    }
  }

  lemma {:induction false} AnswerBounds(s: State, ls: seq<Label>, h: nat)
    requires Initial(s) && Answered(Exec(s, ls), h)
    ensures 0 <= AnswerAt(s, ls, h) < Exec(s, ls).clock
  {
    if |ls| > 0 {
      var n := |ls| - 1;
      var a := Exec(s, ls[..n]);
      StepTimes(a, ls[n], h);
      if Answered(a, h) { AnswerBounds(s, ls[..n], h); }
      else { ClockIsNatural(s, ls[..n]); }
    }
  }

  lemma ClockIsNatural(s: State, ls: seq<Label>)
    ensures Exec(s, ls).clock >= 0
  {
  }

  /** The message of a duplicate was on the ledger already, or its original had got past the
      ledger before the duplicate answered. */
  ghost predicate HasOriginal(s: State, ls: seq<Label>, h: nat, w: nat) {
    && h in Exec(s, ls).handlers && PastLedger(Exec(s, ls), w)
    && Exec(s, ls).handlers[w].event.message == Exec(s, ls).handlers[h].event.message
    && CommitAt(s, ls, w) < AnswerAt(s, ls, h)
  }

  lemma OriginalNow(s: State, ls: seq<Label>, h: nat) returns (w: nat)
    requires Initial(s) && AllQuiet(ls) && |ls| > 0 && Running(Exec(s, ls[..|ls| - 1]), h)
    requires h in Exec(s, ls).handlers && Exec(s, ls).handlers[h].pc == Done(Duplicate)
    requires Exec(s, ls).handlers[h].event.message !in s.tables.ledger
    ensures HasOriginal(s, ls, h, w)
  {
    var n := |ls| - 1;
    var a := Exec(s, ls[..n]);
    QuietRunKeeps(s, ls[..n]);
    DuplicateMeets(a, ls[n], h);
    w :| w in a.handlers && a.handlers[w].stamp.Some? && a.handlers[w].event.message == a.handlers[h].event.message;
    CommitStays(s, ls, n, w);
    CommitBounds(s, ls[..n], w);
    EventsStay(a, ls[n], w);
  }

  lemma DuplicateMeets(a: State, l: Label, h: nat)
    requires Running(a, h) && h in Next(a, l).handlers && Next(a, l).handlers[h].pc == Done(Duplicate)
    ensures a.handlers[h].event.message in a.tables.ledger && Next(a, l).handlers[h].event == a.handlers[h].event
  {
  }

  lemma EventsStay(a: State, l: Label, h: nat)
    requires h in a.handlers
    ensures h in Next(a, l).handlers && Next(a, l).handlers[h].event == a.handlers[h].event
  {
  }

  lemma {:induction false} OriginalOf(s: State, ls: seq<Label>, h: nat) returns (w: nat)
    requires Initial(s) && AllQuiet(ls) && h in Exec(s, ls).handlers && Exec(s, ls).handlers[h].pc == Done(Duplicate)
    requires Exec(s, ls).handlers[h].event.message !in s.tables.ledger
    ensures HasOriginal(s, ls, h, w)
  {
    var n := |ls| - 1;
    var a := Exec(s, ls[..n]);
    StepTimes(a, ls[n], h);
    if Answered(a, h) {
      w := OriginalOf(s, ls[..n], h);
      CommitStays(s, ls, n, w);
      AnswerStays(s, ls, n, h);
      EventsStay(a, ls[n], w);
    } else {
      FreshDeliveryRuns(a, ls[n], h);
      w := OriginalNow(s, ls, h);
    }
  }

  lemma FreshDeliveryRuns(a: State, l: Label, h: nat)
    requires !Answered(a, h) && h in Next(a, l).handlers && Next(a, l).handlers[h].pc == Done(Duplicate)
    ensures Running(a, h)
  {
  }

  // ---------------------------------------------------------------- duplicates in between

  /** The handlers past the ledger, in the order given. */
  function Past(f: State, order: seq<nat>): seq<nat> {
    if |order| == 0 then []
    else
      var n := |order| - 1;
      Past(f, order[..n]) + if PastLedger(f, order[n]) then [order[n]] else []
  }

  lemma {:induction false} PastIs(f: State, order: seq<nat>)
    ensures forall h :: h in Past(f, order) <==> h in order && PastLedger(f, h)
    ensures forall i :: 0 <= i < |Past(f, order)| ==> PastLedger(f, Past(f, order)[i])
  {
    if |order| > 0 {
      var n := |order| - 1;
      PastIs(f, order[..n]);
      assert order == order[..n] + [order[n]];
    }
  }

  lemma {:induction false} PastDistinct(f: State, order: seq<nat>)
    requires forall i, j :: 0 <= i < j < |order| ==> order[i] != order[j]
    ensures forall i, j :: 0 <= i < j < |Past(f, order)| ==> Past(f, order)[i] != Past(f, order)[j]
  {
    if |order| > 0 {
      var n := |order| - 1;
      PastDistinct(f, order[..n]);
      PastIs(f, order[..n]);
      var before := Past(f, order[..n]);
      assert order[n] !in order[..n];
      assert forall i :: 0 <= i < |before| ==> before[i] in before;
    }
  }

  /** Every duplicate comes after its original. */
  ghost predicate OriginalsFirst(t0: Tables, f: State, order: seq<nat>)
    requires forall i :: 0 <= i < |order| ==> order[i] in f.handlers
  {
    forall i :: 0 <= i < |order| && !PastLedger(f, order[i]) ==>
      || f.handlers[order[i]].event.message in t0.ledger
      || OriginalBefore(f, order, i)
  }

  ghost predicate OriginalBefore(f: State, order: seq<nat>, i: nat)
    requires i < |order| && forall i :: 0 <= i < |order| ==> order[i] in f.handlers
  {
    exists j :: 0 <= j < i && PastLedger(f, order[j]) && f.handlers[order[j]].event.message == f.handlers[order[i]].event.message
  }

  /** Messages past the ledger are new, and no two are the same. */
  ghost predicate MessagesApart(t0: Tables, f: State) {
    && (forall h :: PastLedger(f, h) ==> f.handlers[h].event.message !in t0.ledger)
    && (forall h, k :: PastLedger(f, h) && PastLedger(f, k) && h != k ==> f.handlers[h].event.message != f.handlers[k].event.message)
  }

  lemma PastCarries(f: State, order: seq<nat>, m: string)
    requires forall i :: 0 <= i < |order| ==> order[i] in f.handlers
    requires forall i :: 0 <= i < |Past(f, order)| ==> Past(f, order)[i] in f.handlers
    ensures Carries(EventsOf(f, Past(f, order)), m) <==>
              exists j :: 0 <= j < |order| && PastLedger(f, order[j]) && f.handlers[order[j]].event.message == m
  {
    PastIs(f, order);
    var past := Past(f, order);
    if j :| 0 <= j < |order| && PastLedger(f, order[j]) && f.handlers[order[j]].event.message == m {
      assert order[j] in past;
      var i :| 0 <= i < |past| && past[i] == order[j];
      assert EventsOf(f, past)[i].message == m;
    }
    if i :| 0 <= i < |past| && EventsOf(f, past)[i].message == m {
      assert past[i] in order;
    }
  }

  lemma OriginalsFirstBefore(t0: Tables, f: State, order: seq<nat>)
    requires |order| > 0 && (forall i :: 0 <= i < |order| ==> order[i] in f.handlers) && OriginalsFirst(t0, f, order)
    ensures OriginalsFirst(t0, f, order[..|order| - 1])
  {
    var before := order[..|order| - 1];
    forall i | 0 <= i < |before| && !PastLedger(f, before[i])
      ensures f.handlers[before[i]].event.message in t0.ledger || OriginalBefore(f, before, i)
    {
      if OriginalBefore(f, order, i) {
        var j :| 0 <= j < i && PastLedger(f, order[j]) && f.handlers[order[j]].event.message == f.handlers[order[i]].event.message;
        assert before[j] == order[j];
      }
    }
  }

  /** The last delivery's message is on the ledger or carried by the winners before it
      exactly if it is a duplicate. */
  lemma LastIsKnown(t0: Tables, f: State, order: seq<nat>, past: seq<nat>)
    requires |order| > 0 && (forall i :: 0 <= i < |order| ==> order[i] in f.handlers)
    requires forall i, j :: 0 <= i < j < |order| ==> order[i] != order[j]
    requires MessagesApart(t0, f) && OriginalsFirst(t0, f, order)
    requires past == Past(f, order[..|order| - 1]) && forall i :: 0 <= i < |past| ==> past[i] in f.handlers
    ensures var n := |order| - 1;
            var m := f.handlers[order[n]].event.message;
            !PastLedger(f, order[n]) <==> m in t0.ledger || Carries(EventsOf(f, past), m)
  {
    var n := |order| - 1;
    var before, e := order[..n], f.handlers[order[n]].event;
    PastCarries(f, before, e.message);
    if !PastLedger(f, order[n]) && e.message !in t0.ledger {
      assert OriginalBefore(f, order, n);
      var j :| 0 <= j < n && PastLedger(f, order[j]) && f.handlers[order[j]].event.message == e.message;
      assert before[j] == order[j];
    }
  }

  /** Without the redeliveries the stream is that of the handlers past the ledger. */
  lemma {:induction false} DistinctIsPast(t0: Tables, f: State, order: seq<nat>)
    requires forall i :: 0 <= i < |order| ==> order[i] in f.handlers
    requires forall i, j :: 0 <= i < j < |order| ==> order[i] != order[j]
    requires MessagesApart(t0, f) && OriginalsFirst(t0, f, order)
    ensures forall i :: 0 <= i < |Past(f, order)| ==> Past(f, order)[i] in f.handlers
    ensures Distinct(t0, EventsOf(f, order)) == EventsOf(f, Past(f, order))
  {
    PastIs(f, order);
    if |order| > 0 {
      var n := |order| - 1;
      OriginalsFirstBefore(t0, f, order);
      DistinctIsPast(t0, f, order[..n]);
      assert EventsOf(f, order)[..n] == EventsOf(f, order[..n]);
      LastIsKnown(t0, f, order, Past(f, order[..n]));
    }
  }

  /** A delivery past the ledger is the first of its message. */
  lemma FirstOfMessage(t0: Tables, f: State, order: seq<nat>, i: nat, j: nat)
    requires Lists(f, order) && MessagesApart(t0, f) && OriginalsFirst(t0, f, order)
    requires j < i < |order| && PastLedger(f, order[i])
    ensures f.handlers[order[j]].event.message != f.handlers[order[i]].event.message
  {
    if !PastLedger(f, order[j]) && OriginalBefore(f, order, j) {
      var k :| 0 <= k < j && PastLedger(f, order[k]) && f.handlers[order[k]].event.message == f.handlers[order[j]].event.message;
      assert order[k] != order[i];
    }
  }

  /** At its place a delivery's message is known exactly if it is a duplicate. */
  lemma KnownInPlace(t0: Tables, f: State, order: seq<nat>, es: seq<Event>, i: nat)
    requires Lists(f, order) && MessagesApart(t0, f) && OriginalsFirst(t0, f, order) && i < |order|
    requires |es| == i && forall j :: 0 <= j < i ==> es[j] == f.handlers[order[j]].event
    ensures var m := f.handlers[order[i]].event.message; !PastLedger(f, order[i]) <==> m in t0.ledger || Carries(es, m)
  {
    if PastLedger(f, order[i]) {
      forall j | 0 <= j < i ensures es[j].message != f.handlers[order[i]].event.message {
        FirstOfMessage(t0, f, order, i, j);
      }
    } else if OriginalBefore(f, order, i) {
      var j :| 0 <= j < i && PastLedger(f, order[j]) && f.handlers[order[j]].event.message == f.handlers[order[i]].event.message;
      assert es[j].message == f.handlers[order[i]].event.message;
    }
  }

  lemma AnswerInPlace(t0: Tables, f: State, order: seq<nat>, i: nat)
    requires OrderInv(t0, f) && AllDone(f) && Sound(t0) && Lists(f, order)
    requires MessagesApart(t0, f) && OriginalsFirst(t0, f, order) && i < |order|
    ensures Answer(OutcomeAt(t0, EventsOf(f, order), i)) == Answer(f.handlers[order[i]].pc.outcome)
  {
    var es := EventsOf(f, order);
    KnownInPlace(t0, f, order, es[..i], i);
    AnswerFrom(t0, f, es[..i], order[i]);
  }

  lemma AnswerFrom(t0: Tables, f: State, before: seq<Event>, h: nat)
    requires OrderInv(t0, f) && AllDone(f) && Sound(t0) && h in f.handlers
    requires var m := f.handlers[h].event.message; !PastLedger(f, h) <==> m in t0.ledger || Carries(before, m)
    ensures Answer(Handle(HandleAll(t0, before), f.handlers[h].event).1) == Answer(f.handlers[h].pc.outcome)
  {
    SerialFrame(t0, before);
    DoneKinds(t0, f, h);
  }

  lemma InvApart(t0: Tables, f: State)
    requires OrderInv(t0, f)
    ensures MessagesApart(t0, f)
  {
  }

  /** The duplicates may stand anywhere behind their originals. */
  lemma ReplayInPlace(t0: Tables, f: State, order: seq<nat>)
    requires OrderInv(t0, f) && AllDone(f) && Sound(t0) && Lists(f, order) && OriginalsFirst(t0, f, order)
    requires Winners(t0, f, Past(f, order)) && RowsMatch(t0, f, Past(f, order))
    ensures Replays(t0, f, order)
  {
    InvApart(t0, f);
    DistinctIsPast(t0, f, order);
    RedeliveriesVanish(t0, EventsOf(f, order));
    WinnersRun(t0, f, Past(f, order));
    forall i | 0 <= i < |order|
      ensures Answer(OutcomeAt(t0, EventsOf(f, order), i)) == Answer(f.handlers[order[i]].pc.outcome)
    {
      AnswerInPlace(t0, f, order, i);
    }
  }

  // ---------------------------------------------------------------- the order by points

  /** Another name is given for the record that `h` names. */
  ghost predicate Clashes(t0: Tables, f: State, h: nat) {
    && PastLedger(f, h) && f.handlers[h].event.record.Some?
    && Names(t0, f.handlers[h].event, f.handlers[h].event.record.value)
    && exists k :: PastLedger(f, k) && Names(t0, f.handlers[k].event, f.handlers[h].event.record.value)
         && f.handlers[k].event.transcript != f.handlers[h].event.transcript
  }

  /** A duplicate whose original clashes. */
  ghost predicate ClashingDuplicate(t0: Tables, f: State, d: nat) {
    && d in f.handlers && !PastLedger(f, d)
    && exists w :: Clashes(t0, f, w) && f.handlers[w].event.message == f.handlers[d].event.message
  }

  ghost function PointOf(s: State, ls: seq<Label>, h: nat): int {
    var f := Exec(s, ls);
    if PastLedger(f, h) then (if Clashes(s.tables, f, h) then StampOf(f, h) else CommitAt(s, ls, h))
    else if ClashingDuplicate(s.tables, f, h) then f.clock + AnswerAt(s, ls, h)
    else AnswerAt(s, ls, h)
  }

  /** The point of `h` lies between its delivery and its answer, unless it is a clashing duplicate. */
  lemma PointInTime(s: State, ls: seq<Label>, n: nat, h: nat)
    requires Initial(s) && n <= |ls| && h in Exec(s, ls).handlers && Answered(Exec(s, ls), h)
    ensures h !in Exec(s, ls[..n]).handlers ==> PointOf(s, ls, h) >= Exec(s, ls[..n]).clock
    ensures Answered(Exec(s, ls[..n]), h) && !ClashingDuplicate(s.tables, Exec(s, ls), h) ==>
              PointOf(s, ls, h) < Exec(s, ls[..n]).clock
  {
    var a := Exec(s, ls[..n]);
    CommitStays(s, ls, n, h);
    AnswerStays(s, ls, n, h);
    AnswerBounds(s, ls, h);
    if PastLedger(Exec(s, ls), h) { CommitBounds(s, ls, h); }
    if Answered(a, h) {
      AnswerBounds(s, ls[..n], h);
      if PastLedger(a, h) { CommitBounds(s, ls[..n], h); }
    }
  }

  /** A duplicate's point is behind that of its original. */
  lemma OriginalPoint(s: State, ls: seq<Label>, d: nat) returns (w: nat)
    requires Initial(s) && AllQuiet(ls) && AllDone(Exec(s, ls)) && d in Exec(s, ls).handlers && !PastLedger(Exec(s, ls), d)
    requires Exec(s, ls).handlers[d].event.message !in s.tables.ledger
    ensures PastLedger(Exec(s, ls), w) && Exec(s, ls).handlers[w].event.message == Exec(s, ls).handlers[d].event.message
    ensures PointOf(s, ls, w) < PointOf(s, ls, d)
  {
    var f := Exec(s, ls);
    QuietRunKeeps(s, ls);
    DoneKinds(s.tables, f, d);
    w := OriginalOf(s, ls, d);
    CommitBounds(s, ls, w);
    AnswerBounds(s, ls, d);
  }

  lemma {:induction false} LatestPoint(p: nat -> int, hs: set<nat>) returns (m: nat)
    requires hs != {}
    ensures m in hs && forall h :: h in hs ==> p(h) <= p(m)
    decreases hs
  {
    var h :| h in hs;
    m := h;
    if hs != {h} {
      var k := LatestPoint(p, hs - {h});
      if p(h) < p(k) { m := k; }
    }
  }

  /** `order` lists `hs` once each, by points. */
  ghost predicate ByPoints(p: nat -> int, order: seq<nat>, hs: set<nat>) {
    && (forall h :: h in order <==> h in hs)
    && (forall i, j :: 0 <= i < j < |order| ==> order[i] != order[j] && p(order[i]) <= p(order[j]))
  }

  lemma {:induction false} SortByPoint(p: nat -> int, hs: set<nat>) returns (order: seq<nat>)
    ensures ByPoints(p, order, hs)
    decreases hs
  {
    if hs == {} {
      order := [];
    } else {
      var m := LatestPoint(p, hs);
      var rest := SortByPoint(p, hs - {m});
      order := rest + [m];
      forall i, j | 0 <= i < j < |order| ensures order[i] != order[j] && p(order[i]) <= p(order[j]) {
        assert order[i] in rest;
      }
    }
  }

  lemma {:induction false} PastByPoints(f: State, p: nat -> int, order: seq<nat>)
    requires forall i, j :: 0 <= i < j < |order| ==> order[i] != order[j] && p(order[i]) <= p(order[j])
    ensures forall i, j :: 0 <= i < j < |Past(f, order)| ==> p(Past(f, order)[i]) <= p(Past(f, order)[j])
  {
    if |order| > 0 {
      var n := |order| - 1;
      PastByPoints(f, p, order[..n]);
      PastIs(f, order[..n]);
      var before := Past(f, order[..n]);
      forall i | 0 <= i < |before| ensures p(before[i]) <= p(order[n]) {
        assert before[i] in order[..n];
      }
    }
  }

  lemma AllClash(t0: Tables, f: State, h: nat, k: nat, r: string)
    requires PastLedger(f, h) && PastLedger(f, k) && Names(t0, f.handlers[h].event, r) && Names(t0, f.handlers[k].event, r)
    ensures f.handlers[h].event.transcript != f.handlers[k].event.transcript ==> Clashes(t0, f, h) && Clashes(t0, f, k)
  {
  }

  lemma ClashPoint(s: State, ls: seq<Label>, h: nat)
    requires Clashes(s.tables, Exec(s, ls), h)
    ensures PointOf(s, ls, h) == StampOf(Exec(s, ls), h)
  {
  }

  lemma LatestNamer(f: State, r: string, h: nat, k: nat)
    requires StampsApart(f) && LastNamed(f, k, r) && NamedOn(f, h, r) && PastLedger(f, h) && PastLedger(f, k)
    requires StampOf(f, k) <= StampOf(f, h)
    ensures h == k
  {
  }

  /** Two names of one record are equal, or both their handlers clash. */
  lemma LastPointNames(s: State, ls: seq<Label>, f: State, r: string, h: nat, k: nat)
    requires f == Exec(s, ls) && StampsApart(f) && PastLedger(f, h) && PastLedger(f, k)
    requires Names(s.tables, f.handlers[h].event, r) && Names(s.tables, f.handlers[k].event, r)
    requires LastNamed(f, k, r) && NamedOn(f, h, r) && PointOf(s, ls, k) <= PointOf(s, ls, h)
    ensures f.handlers[h].event.transcript == f.handlers[k].event.transcript
  {
    AllClash(s.tables, f, h, k, r);
    if Clashes(s.tables, f, h) && Clashes(s.tables, f, k) {
      ClashPoint(s, ls, h);
      ClashPoint(s, ls, k);
      LatestNamer(f, r, h, k);
    }
  }

  /** By points the last name of a record is the one in its row. */
  lemma PointName(s: State, ls: seq<Label>, w: seq<nat>, r: string)
    requires Winners(s.tables, Exec(s, ls), w) && r in Exec(s, ls).tables.conferences
    requires forall i, j :: 0 <= i < j < |w| && NamedOn(Exec(s, ls), w[i], r) && NamedOn(Exec(s, ls), w[j], r) ==>
               PointOf(s, ls, w[i]) <= PointOf(s, ls, w[j])
    ensures var f, name := Exec(s, ls), LastName(s.tables, EventsOf(Exec(s, ls), w), r);
            f.tables.conferences[r].transcript ==
              if name.Some? then name else if r in s.tables.conferences then s.tables.conferences[r].transcript else None
  {
    var f := Exec(s, ls);
    var es := EventsOf(f, w);
    var i := LastNameIndex(s.tables, es, r);
    assert RowOk(s.tables, f, r);
    var name := f.tables.conferences[r].transcript;
    if LastName(s.tables, es, r).Some? {
      SettledIsAbout(s.tables, f, w[i], r);
      assert NamedOn(f, w[i], r);
    }
    if k :| LastNamed(f, k, r) && f.handlers[k].event.transcript == name {
      var j := Position(s.tables, f, w, k, r);
      assert Names(s.tables, es[j], r);
      LastPointNames(s, ls, f, r, w[i], k);
    }
  }

  lemma PointRows(s: State, ls: seq<Label>, w: seq<nat>)
    requires Winners(s.tables, Exec(s, ls), w) && OneConnection(s.tables, Exec(s, ls))
    requires forall i, j :: 0 <= i < j < |w| ==> PointOf(s, ls, w[i]) <= PointOf(s, ls, w[j])
    ensures RowsMatch(s.tables, Exec(s, ls), w)
  {
    var f := Exec(s, ls);
    forall r: string ensures Content(f.tables, r) == Expected(s.tables, EventsOf(f, w), r) {
      FinalConnection(s.tables, f, w, r);
      if r in f.tables.conferences { PointName(s, ls, w, r); }
    }
  }

  /** Real time is kept, except that a clashing duplicate may come late. */
  ghost predicate InTimeButClashes(s: State, ls: seq<Label>, order: seq<nat>) {
    forall i, j :: 0 <= i < j < |order| && Precedes(s, ls, order[j], order[i]) ==>
      ClashingDuplicate(s.tables, Exec(s, ls), order[j])
  }

  lemma PointsInTime(s: State, ls: seq<Label>, order: seq<nat>)
    requires Initial(s) && AllDone(Exec(s, ls)) && forall i :: 0 <= i < |order| ==> order[i] in Exec(s, ls).handlers
    requires forall i, j :: 0 <= i < j < |order| ==> PointOf(s, ls, order[i]) <= PointOf(s, ls, order[j])
    ensures InTimeButClashes(s, ls, order)
  {
    forall i, j | 0 <= i < j < |order| && Precedes(s, ls, order[j], order[i])
      ensures ClashingDuplicate(s.tables, Exec(s, ls), order[j])
    {
      var n :| 0 <= n <= |ls| && Answered(Exec(s, ls[..n]), order[j]) && order[i] !in Exec(s, ls[..n]).handlers;
      PointInTime(s, ls, n, order[i]);
      PointInTime(s, ls, n, order[j]);
    }
  }

  lemma PointsPutOriginalsFirst(s: State, ls: seq<Label>, order: seq<nat>)
    requires Initial(s) && AllQuiet(ls) && AllDone(Exec(s, ls)) && Lists(Exec(s, ls), order)
    requires forall i, j :: 0 <= i < j < |order| ==> PointOf(s, ls, order[i]) <= PointOf(s, ls, order[j])
    ensures OriginalsFirst(s.tables, Exec(s, ls), order)
  {
    var f := Exec(s, ls);
    forall i | 0 <= i < |order| && !PastLedger(f, order[i])
      ensures f.handlers[order[i]].event.message in s.tables.ledger || OriginalBefore(f, order, i)
    {
      if f.handlers[order[i]].event.message !in s.tables.ledger {
        var w := OriginalPoint(s, ls, order[i]);
        assert w in order;
        var j :| 0 <= j < |order| && order[j] == w;
        assert j < i;
      }
    }
  }

  lemma WinnersOf(t0: Tables, f: State, order: seq<nat>)
    requires OrderInv(t0, f) && AllDone(f) && Sound(t0) && Lists(f, order)
    ensures Winners(t0, f, Past(f, order))
  {
    PastIs(f, order);
    PastDistinct(f, order);
  }

  /** Serialisability in real time: when the events past the ledger agree on the connection
      of each new record, once every handler has answered there is a sequential order that
      replays the run and keeps every delivery in real time, unless it is a duplicate of an
      event whose name for its record clashes with another. */
  lemma ConcurrentIsSequential(s: State, ls: seq<Label>) returns (order: seq<nat>)
    requires Initial(s) && AllQuiet(ls) && AllDone(Exec(s, ls)) && OneConnection(s.tables, Exec(s, ls))
    ensures Replays(s.tables, Exec(s, ls), order)
    ensures InTimeButClashes(s, ls, order)
  {
    var f := Exec(s, ls);
    QuietRunKeeps(s, ls);
    ghost var p := (h: nat) => PointOf(s, ls, h);
    order := SortByPoint(p, f.handlers.Keys);
    assert Lists(f, order) by { assert forall i :: 0 <= i < |order| ==> order[i] in order; }
    assert forall i, j :: 0 <= i < j < |order| ==> p(order[i]) <= p(order[j]);
    PastByPoints(f, p, order);
    WinnersOf(s.tables, f, order);
    PointRows(s, ls, Past(f, order));
    PointsPutOriginalsFirst(s, ls, order);
    ReplayInPlace(s.tables, f, order);
    PointsInTime(s, ls, order);
  }

  /** The same with the condition put on the events before they are delivered. */
  lemma AgreedEventsAreSequential(s: State, ls: seq<Label>, es: seq<Event>) returns (order: seq<nat>)
    requires Initial(s) && AllQuiet(ls) && AllDone(Exec(s, ls)) && DeliveredAre(Exec(s, ls), es)
    requires AgreeOnConnection(s.tables, es)
    ensures Replays(s.tables, Exec(s, ls), order)
    ensures InTimeButClashes(s, ls, order)
  {
    QuietRunKeeps(s, ls);
    AgreedWinners(s.tables, Exec(s, ls), es);
    order := ConcurrentIsSequential(s, ls);
  }
}
