/** Runs in which handlers may die, looked at in any moment. A handler that died is like one
    that never moved again, so the conferences are still those of a sequential run: of the
    handlers that have settled, before they died or not. */
module IngestionCrash {
  import opened Wrappers
  import opened Ingestion
  import opened IngestionSerial
  import opened IngestionOrder
  import opened IngestionTheorems

  predicate AllCalm(ls: seq<Label>) {
    forall i :: 0 <= i < |ls| ==> Quiet(ls[i]) || ls[i].Crash?
  }

  predicate SettledNow(s: State, h: nat) {
    h in s.handlers && Settled(s.handlers[h].pc)
  }

  /** At some moment of the run `h` had written its row, or found nothing to write. */
  ghost predicate HasSettled(s: State, ls: seq<Label>, h: nat) {
    exists n :: 0 <= n <= |ls| && SettledNow(Exec(s, ls[..n]), h)
  }

  lemma SettledBefore(s: State, ls: seq<Label>, h: nat)
    requires |ls| > 0
    ensures HasSettled(s, ls, h) <==> HasSettled(s, ls[..|ls| - 1], h) || SettledNow(Exec(s, ls), h)
  {
    var before := ls[..|ls| - 1];
    assert ls[..|ls|] == ls;
    assert forall n :: 0 <= n < |ls| ==> ls[..n] == before[..n];
    if HasSettled(s, before, h) {
      var n :| 0 <= n <= |before| && SettledNow(Exec(s, before[..n]), h);
      assert SettledNow(Exec(s, ls[..n]), h);
    }
  }

  // ---------------------------------------------------------------- the run without the deaths

  predicate SameButSlow(x: Handler, y: Handler) {
    y.event == x.event && (y.stamp.Some? <==> x.stamp.Some?) && (y.pc == x.pc || x.pc == Done(Failed))
  }

  ghost predicate SameOrder(a: State, q: State) {
    forall h: nat, k: nat :: StampOf(a, h) < StampOf(a, k) <==> StampOf(q, h) < StampOf(q, k)
  }

  /** `q` is `a`, except that in `q` the dead are merely slow, and clocks run apart. */
  ghost predicate Shadow(a: State, q: State) {
    && q.tables == a.tables && q.handlers.Keys == a.handlers.Keys
    && (forall h :: h in a.handlers ==> SameButSlow(a.handlers[h], q.handlers[h]))
    && SameOrder(a, q)
  }

  /** The stamp of `h` alone has changed, and it is the latest in both. */
  lemma LatestInBoth(a: State, a': State, q: State, q': State, h: nat)
    requires SameOrder(a, q)
    requires forall k: nat :: StampOf(a, k) < a.clock && StampOf(q, k) < q.clock
    requires forall k: nat :: k != h ==> StampOf(a', k) == StampOf(a, k) && StampOf(q', k) == StampOf(q, k)
    requires || (StampOf(a', h) == StampOf(a, h) && StampOf(q', h) == StampOf(q, h))
             || (StampOf(a', h) == a.clock && StampOf(q', h) == q.clock)
    ensures SameOrder(a', q')
  {
    forall k: nat, l: nat ensures StampOf(a', k) < StampOf(a', l) <==> StampOf(q', k) < StampOf(q', l) {
      assert StampOf(a, k) < StampOf(a, l) <==> StampOf(q, k) < StampOf(q, l);
    }
  }

  lemma StepStamp(a: State, h: nat)
    requires Running(a, h) && Stamped(a)
    ensures var a' := Next(a, Step(h));
            && (forall k: nat :: StampOf(a, k) < a.clock)
            && (forall k: nat :: k != h ==> StampOf(a', k) == StampOf(a, k))
            && StampOf(a', h) == if Advance(a.tables, a.handlers[h].event, a.handlers[h].pc).marks then a.clock else StampOf(a, h)
  {
  }

  lemma ShadowStep(a: State, q: State, h: nat)
    requires Shadow(a, q) && Running(a, h) && Stamped(a) && Stamped(q)
    ensures Running(q, h) && Shadow(Next(a, Step(h)), Next(q, Step(h)))
  {
    var a', q' := Next(a, Step(h)), Next(q, Step(h));
    assert SameButSlow(a.handlers[h], q.handlers[h]);
    StepStamp(a, h);
    StepStamp(q, h);
    LatestInBoth(a, a', q, q', h);
    ShadowHandlers(a, q, h);
  }

  lemma ShadowHandlers(a: State, q: State, h: nat)
    requires Running(a, h) && Running(q, h) && q.tables == a.tables && q.handlers.Keys == a.handlers.Keys
    requires forall k :: k in a.handlers ==> SameButSlow(a.handlers[k], q.handlers[k])
    ensures var a', q' := Next(a, Step(h)), Next(q, Step(h));
            && q'.tables == a'.tables && q'.handlers.Keys == a'.handlers.Keys
            && forall k :: k in a'.handlers ==> SameButSlow(a'.handlers[k], q'.handlers[k])
  {
    assert SameButSlow(a.handlers[h], q.handlers[h]);
  }

  lemma ShadowDeliver(a: State, q: State, h: nat, e: Event)
    requires Shadow(a, q)
    ensures Shadow(Next(a, Deliver(h, e)), Next(q, Deliver(h, e)))
  {
    var a', q' := Next(a, Deliver(h, e)), Next(q, Deliver(h, e));
    SameStamps(a, a', q, q');
  }

  lemma SameStamps(a: State, a': State, q: State, q': State)
    requires SameOrder(a, q) && forall k: nat :: StampOf(a', k) == StampOf(a, k) && StampOf(q', k) == StampOf(q, k)
    ensures SameOrder(a', q')
  {
  }

  lemma ShadowCrash(a: State, q: State, h: nat)
    requires Shadow(a, q)
    ensures Shadow(Next(a, Crash(h)), q)
  {
    SameStamps(a, Next(a, Crash(h)), q, q);
  }

  /** A handler that has settled stays so, unless it dies. */
  lemma SettledMoves(t0: Tables, q: State, l: Label, h: nat)
    requires OrderInv(t0, q) && Quiet(l) && SettledNow(q, h)
    ensures SettledNow(Next(q, l), h)
  {
    assert PlaceOk(t0, q, h);
  }

  /** The quiet run behind `ls`. */
  ghost predicate Behind(s: State, ls: seq<Label>, qs: seq<Label>) {
    && AllQuiet(qs) && Shadow(Exec(s, ls), Exec(s, qs))
    && forall h: nat :: SettledNow(Exec(s, qs), h) <==> HasSettled(s, ls, h)
  }

  lemma Both(s: State, ls: seq<Label>, qs: seq<Label>)
    requires Initial(s) && AllQuiet(qs)
    ensures Stamped(Exec(s, ls)) && Stamped(Exec(s, qs)) && OrderInv(s.tables, Exec(s, qs))
  {
    EveryRunKeeps(s, ls);
    EveryRunKeeps(s, qs);
    InvFacts(Exec(s, ls));
    InvFacts(Exec(s, qs));
    QuietRunKeeps(s, qs);
  }

  /** The shadow makes the same step. */
  lemma BehindStep(s: State, ls: seq<Label>, qs: seq<Label>, l: Label)
    requires Initial(s) && |ls| > 0 && Behind(s, ls[..|ls| - 1], qs) && l == ls[|ls| - 1]
    requires l.Deliver? || (l.Step? && Running(Exec(s, ls[..|ls| - 1]), l.handler))
    ensures Behind(s, ls, qs + [l])
  {
    var a, q := Exec(s, ls[..|ls| - 1]), Exec(s, qs);
    assert (qs + [l])[..|qs|] == qs;
    Both(s, ls[..|ls| - 1], qs);
    if l.Step? { ShadowStep(a, q, l.handler); } else { ShadowDeliver(a, q, l.handler, l.event); }
    forall h: nat ensures SettledNow(Next(q, l), h) <==> HasSettled(s, ls, h) {
      SettledBefore(s, ls, h);
      if SettledNow(q, h) { SettledMoves(s.tables, q, l, h); }
      SameSettling(a, q, l, h);
    }
  }

  /** Who settles in the one settles in the other. */
  lemma SameSettling(a: State, q: State, l: Label, h: nat)
    requires Shadow(a, q) && (l.Deliver? || (l.Step? && Running(a, l.handler)))
    ensures !SettledNow(q, h) ==> (SettledNow(Next(q, l), h) <==> SettledNow(Next(a, l), h))
    ensures SettledNow(a, h) ==> SettledNow(q, h)
  {
  }

  /** The shadow waits. */
  lemma BehindWait(s: State, ls: seq<Label>, qs: seq<Label>, l: Label)
    requires |ls| > 0 && Behind(s, ls[..|ls| - 1], qs) && l == ls[|ls| - 1]
    requires l.Crash? || (l.Step? && !Running(Exec(s, ls[..|ls| - 1]), l.handler))
    ensures Behind(s, ls, qs)
  {
    var a, q := Exec(s, ls[..|ls| - 1]), Exec(s, qs);
    if l.Crash? { ShadowCrash(a, q, l.handler); }
    forall h: nat ensures SettledNow(q, h) <==> HasSettled(s, ls, h) {
      SettledBefore(s, ls, h);
      assert SettledNow(Next(a, l), h) ==> SettledNow(a, h);
      assert SettledNow(a, h) ==> SettledNow(q, h);
    }
  }

  lemma BehindStart(s: State)
    requires Initial(s)
    ensures Behind(s, [], [])
  {
    forall h: nat ensures !HasSettled(s, [], h) {
    }
  }

  /** Leaving out the deaths and what the dead no longer do gives a quiet run. */
  lemma {:induction false} RunBehind(s: State, ls: seq<Label>) returns (qs: seq<Label>)
    requires Initial(s) && AllCalm(ls)
    ensures Behind(s, ls, qs)
  {
    if |ls| == 0 {
      BehindStart(s);
      qs := [];
    } else {
      var n := |ls| - 1;
      qs := RunBehind(s, ls[..n]);
      assert Quiet(ls[n]) || ls[n].Crash?;
      if ls[n].Deliver? || (ls[n].Step? && Running(Exec(s, ls[..n]), ls[n].handler)) {
        BehindStep(s, ls, qs, ls[n]);
        qs := qs + [ls[n]];
      } else {
        BehindWait(s, ls, qs, ls[n]);
      }
    }
  }

  // ---------------------------------------------------------------- the settled alone

  /** The state with the settled handlers only, as if they had answered and nobody else had
      been delivered. */
  function OnlySettled(t0: Tables, q: State): State {
    var hs := map h | h in q.handlers && Settled(q.handlers[h].pc) ::
                q.handlers[h].(pc := Done(Enqueued(IdOf(q.handlers[h].pc).GetOr(0))));
    q.(handlers := hs, queue := [],
       tables := q.tables.(ledger := t0.ledger + set h | h in hs :: hs[h].event.message))
  }

  lemma SettledRows(t0: Tables, q: State, r: string)
    requires r in q.tables.conferences && RowOk(t0, q, r)
    ensures RowOk(t0, OnlySettled(t0, q), r)
  {
    var u := OnlySettled(t0, q);
    forall k ensures SettledOn(u, k, r) <==> SettledOn(q, k, r) {}
    forall k ensures SettledOn(u, k, r) ==> u.handlers[k].event == q.handlers[k].event && StampOf(u, k) == StampOf(q, k) {}
    forall k ensures LastNamed(q, k, r) ==> LastNamed(u, k, r) {}
    if r !in t0.conferences {
      var k :| SettledOn(q, k, r) && Routed(t0, q.handlers[k].event)
               && q.tables.conferences[r].connection == ConnectionOf(t0, q.handlers[k].event);
      assert SettledOn(u, k, r);
    }
  }

  lemma SettledPlace(t0: Tables, q: State, h: nat)
    requires SettledNow(q, h) && PlaceOk(t0, q, h) && HandlerOk(q.tables, q.clock, q.handlers[h])
    ensures var u := OnlySettled(t0, q); PlaceOk(t0, u, h) && HandlerOk(u.tables, u.clock, u.handlers[h])
  {
  }

  lemma SettledLedger(t0: Tables, q: State)
    requires OrderInv(t0, q)
    ensures LedgerOk(t0, OnlySettled(t0, q)) && StampsApart(OnlySettled(t0, q))
  {
    var u := OnlySettled(t0, q);
    forall h | h in u.handlers ensures u.handlers[h].stamp.Some? && u.handlers[h].stamp == q.handlers[h].stamp {
      assert HandlerOk(q.tables, q.clock, q.handlers[h]);
    }
  }

  lemma SettledInv(t0: Tables, q: State)
    requires OrderInv(t0, q)
    ensures OrderInv(t0, OnlySettled(t0, q)) && AllDone(OnlySettled(t0, q))
  {
    SettledLedger(t0, q);
    SettledPlaces(t0, q);
    forall r | r in q.tables.conferences ensures RowOk(t0, OnlySettled(t0, q), r) {
      SettledRows(t0, q, r);
    }
  }

  lemma SettledPlaces(t0: Tables, q: State)
    requires Inv(q) && forall h :: h in q.handlers ==> PlaceOk(t0, q, h)
    ensures var u := OnlySettled(t0, q);
            AllDone(u) && forall h :: h in u.handlers ==> PlaceOk(t0, u, h) && HandlerOk(u.tables, u.clock, u.handlers[h])
  {
    var u := OnlySettled(t0, q);
    forall h | h in u.handlers ensures u.handlers[h].pc.Done? && PlaceOk(t0, u, h) && HandlerOk(u.tables, u.clock, u.handlers[h]) {
      SettledPlace(t0, q, h);
    }
  }

  // ---------------------------------------------------------------- serialisability with deaths

  /** `order` lists those who have settled, once each. */
  ghost predicate ListsSettled(s: State, ls: seq<Label>, order: seq<nat>) {
    && (forall h :: h in order <==> HasSettled(s, ls, h))
    && (forall i :: 0 <= i < |order| ==> PastLedger(Exec(s, ls), order[i]))
    && (forall i, j :: 0 <= i < j < |order| ==> order[i] != order[j])
  }

  /** In a quiet state the settled, by their stamps, explain the conferences. */
  lemma SettledExplain(t0: Tables, q: State) returns (order: seq<nat>)
    requires OrderInv(t0, q) && Sound(t0) && OneConnection(t0, q)
    ensures SortedBy(q, order, set h | h in q.handlers && SettledNow(q, h))
    ensures SameConferences(q.tables, HandleAll(t0, EventsOf(q, order)))
    ensures forall i :: 0 <= i < |order| ==> OutcomeAt(t0, EventsOf(q, order), i).Enqueued?
  {
    var u := OnlySettled(t0, q);
    SettledInv(t0, q);
    order := StampOrder(t0, u);
    AllSettledSorted(t0, u, order);
    SettledAre(t0, q, u, order);
    FinishedEnqueued(t0, u, order);
    SameContents(q.tables, u.tables, HandleAll(t0, EventsOf(q, order)));
  }

  lemma SettledAre(t0: Tables, q: State, u: State, order: seq<nat>)
    requires u == OnlySettled(t0, q) && SortedBy(u, order, set h | h in u.handlers) && OneConnection(t0, q)
    ensures SortedBy(q, order, set h | h in q.handlers && SettledNow(q, h))
    ensures EventsOf(u, order) == EventsOf(q, order) && OneConnection(t0, u)
    ensures forall h :: h in u.handlers ==> u.handlers[h].pc.Done? && u.handlers[h].pc.outcome.Enqueued?
  {
    forall i | 0 <= i < |order| ensures PastLedger(q, order[i]) && StampOf(u, order[i]) == StampOf(q, order[i]) {
      assert PastLedger(u, order[i]);
    }
    forall h, k | PastLedger(u, h) && PastLedger(u, k) ensures PastLedger(q, h) && PastLedger(q, k) {}
  }

  lemma AllSettledSorted(t0: Tables, u: State, order: seq<nat>)
    requires Finished(t0, u, order) && forall h :: h in u.handlers ==> Settled(u.handlers[h].pc)
    ensures SortedBy(u, order, set h | h in u.handlers)
  {
    forall h | h in u.handlers ensures PastLedger(u, h) { assert HandlerOk(u.tables, u.clock, u.handlers[h]); }
  }

  lemma FinishedEnqueued(t0: Tables, u: State, order: seq<nat>)
    requires Finished(t0, u, order) && OneConnection(t0, u)
    requires forall h :: h in u.handlers ==> u.handlers[h].pc.Done? && u.handlers[h].pc.outcome.Enqueued?
    ensures SameConferences(u.tables, HandleAll(t0, EventsOf(u, order)))
    ensures forall i :: 0 <= i < |order| ==> OutcomeAt(t0, EventsOf(u, order), i).Enqueued?
  {
    FinishedRows(t0, u, order);
    WinnersRun(t0, u, order);
    forall i | 0 <= i < |order| ensures OutcomeAt(t0, EventsOf(u, order), i).Enqueued? {
      FinalAnswer(t0, u, order, i);
    }
  }

  lemma SameContents(t: Tables, u: Tables, v: Tables)
    requires u.conferences == t.conferences && SameConferences(u, v)
    ensures SameConferences(t, v)
  {
    forall r: string ensures Content(t, r) == Content(v, r) {
      assert Content(u, r) == Content(v, r);
    }
  }

  lemma LedgerOfPast(t0: Tables, q: State)
    requires OrderInv(t0, q)
    ensures q.tables.ledger == t0.ledger + set h | h in q.handlers && PastLedger(q, h) :: q.handlers[h].event.message
  {
    forall m ensures m in q.tables.ledger <==> m in t0.ledger || exists h :: PastLedger(q, h) && q.handlers[h].event.message == m {
    }
  }

  /** With deaths, and at any moment: the conferences are those of the sequential run, in an
      order that keeps real time, of the handlers that have settled, and the ledger is that of
      all handlers past it. */
  lemma CrashedRunsAreSequential(s: State, ls: seq<Label>) returns (order: seq<nat>)
    requires Initial(s) && AllCalm(ls) && OneConnection(s.tables, Exec(s, ls))
    ensures ListsSettled(s, ls, order) && InTime(s, ls, order)
    ensures var f := Exec(s, ls);
            && SameConferences(f.tables, HandleAll(s.tables, EventsOf(f, order)))
            && f.tables.ledger == s.tables.ledger + (set h | h in f.handlers && PastLedger(f, h) :: f.handlers[h].event.message)
            && forall i :: 0 <= i < |order| ==> OutcomeAt(s.tables, EventsOf(f, order), i).Enqueued?
  {
    var qs := RunBehind(s, ls);
    Both(s, ls, qs);
    var f, q := Exec(s, ls), Exec(s, qs);
    ShadowConnection(s.tables, f, q);
    order := SettledExplain(s.tables, q);
    ShadowOrder(f, q, order);
    LedgerOfPast(s.tables, q);
    StampsInTime(s, ls, order);
  }

  lemma ShadowConnection(t0: Tables, f: State, q: State)
    requires Shadow(f, q) && OneConnection(t0, f)
    ensures OneConnection(t0, q)
    ensures (set h | h in f.handlers && PastLedger(f, h) :: f.handlers[h].event.message)
            == set h | h in q.handlers && PastLedger(q, h) :: q.handlers[h].event.message
  {
    forall h ensures PastLedger(q, h) <==> PastLedger(f, h) {}
    forall h ensures PastLedger(q, h) ==> q.handlers[h].event == f.handlers[h].event {}
  }

  lemma ShadowOrder(f: State, q: State, order: seq<nat>)
    requires Shadow(f, q) && SortedBy(q, order, set h | h in q.handlers && SettledNow(q, h))
    ensures SortedBy(f, order, set h | h in q.handlers && SettledNow(q, h))
    ensures EventsOf(f, order) == EventsOf(q, order)
  {
    forall i | 0 <= i < |order| ensures PastLedger(f, order[i]) { assert PastLedger(q, order[i]); }
  }
}
