/** Exactly when sequential orders can keep real time: the schedules that break it through a
    clash of connections or a lone namer, and the condition on the events they amount to. */
module IngestionTimeBoundary {
  import opened Wrappers
  import opened Ingestion
  import opened IngestionSerial
  import opened IngestionOrder
  import opened IngestionTheorems
  import opened IngestionBoundary
  import opened IngestionRace
  import opened IngestionRealTime
  import opened IngestionClash

  // ---------------------------------------------------------------- rows keep their connection

  lemma ConnectionStep(a: State, l: Label, r: string)
    requires Quiet(l) && r in a.tables.conferences
    ensures r in Next(a, l).tables.conferences
    ensures Next(a, l).tables.conferences[r].connection == a.tables.conferences[r].connection
  {
  }

  lemma {:induction false} ConnectionStays(s: State, ls: seq<Label>, r: string)
    requires AllQuiet(ls) && r in s.tables.conferences
    ensures r in Exec(s, ls).tables.conferences
    ensures Exec(s, ls).tables.conferences[r].connection == s.tables.conferences[r].connection
  {
    if |ls| > 0 {
      var n := |ls| - 1;
      ConnectionStays(s, ls[..n], r);
      assert Quiet(ls[n]);
      ConnectionStep(Exec(s, ls[..n]), ls[n], r);
    }
  }

  /** Whatever follows, the first event of a stream decides the connection of its new record. */
  lemma {:induction false} HeadDecides(t: Tables, es: seq<Event>, r: string)
    requires Sound(t) && |es| > 0 && About(t, es[0], r) && es[0].message !in t.ledger && r !in t.conferences
    ensures Content(HandleAll(t, es), r).Some? && Content(HandleAll(t, es), r).value.connection == ConnectionOf(t, es[0])
  {
    var n := |es| - 1;
    if n == 0 {
      assert HandleAll(t, es[..0]) == t;
      HandleContent(t, es[0], r);
    } else {
      HeadDecides(t, es[..n], r);
      SerialFrame(t, es[..n]);
      var u := HandleAll(t, es[..n]);
      if es[n].message !in u.ledger { HandleContent(u, es[n], r); }
    }
  }

  // ---------------------------------------------------------------- the schedule of a connection clash

  /** Only the copies of entry `i` have been delivered; `i` is past the ledger, the others
      have answered. */
  ghost predicate CopiesDone(t: Tables, es: seq<Event>, s: State, i: nat) {
    && i < |es| && SameRoutes(t, s)
    && s.tables.conferences == t.conferences && s.tables.ledger == t.ledger + {es[i].message}
    && (forall h: nat :: h in s.handlers <==> h < |es| && es[h].message == es[i].message)
    && (forall h: nat :: h in s.handlers ==> s.handlers[h].event == es[h])
    && PastLedger(s, i)
    && (forall h: nat :: h in s.handlers && h != i ==> s.handlers[h].pc.Done?)
  }

  lemma DeliverCopies(t: Tables, es: seq<Event>, i: nat) returns (ls: seq<Label>)
    requires i < |es| && Routed(t, es[i]) && es[i].message !in t.ledger
    ensures AllQuiet(ls) && CopiesDone(t, es, Exec(Start(t), ls), i)
  {
    var all := set h: nat | h < |es| && es[h].message == es[i].message;
    var add := AddAll(Start(t), es, all, |es|);
    var s1 := Exec(Start(t), add);
    assert i in all;
    var rest := PassAndDropAll(t, s1, all, i, |es|);
    ExecAppend(Start(t), add, rest);
    ls := add + rest;
  }

  /** One of the new copies gets past the ledger, the others are dropped. */
  lemma PassAndDropAll(t: Tables, s: State, all: set<nat>, i: nat, n: nat) returns (ls: seq<Label>)
    requires s.handlers.Keys == all && i in all && Routed(t, s.handlers[i].event)
    requires s.handlers[i].event.message !in s.tables.ledger
    requires forall h :: h in all ==> h < n && s.handlers[h].event.message == s.handlers[i].event.message && s.handlers[h].pc.Checking?
    ensures AllQuiet(ls)
    ensures var s' := Exec(s, ls);
            && s'.handlers.Keys == all && PastLedger(s', i)
            && s'.tables == s.tables.(ledger := s.tables.ledger + {s.handlers[i].event.message})
            && (forall h: nat :: h in all ==> s'.handlers[h].event == s.handlers[h].event)
            && (forall h: nat :: h in all && h != i ==> s'.handlers[h].pc.Done?)
  {
    var pass := PassLedger(t, s, i);
    var s1 := Exec(s, pass);
    var drop := DropAll(s1, all - {i}, n);
    ExecAppend(s, pass, drop);
    ls := pass + drop;
  }

  /** Everything has been delivered, and the row of the record comes from entry `k`. */
  ghost predicate RowTaken(t: Tables, es: seq<Event>, s: State, k: nat, r: string) {
    && k < |es| && Carried(s, es) && Routed(t, es[k])
    && r in s.tables.conferences && s.tables.conferences[r].connection == ConnectionOf(t, es[k])
  }

  lemma TakeRow(t: Tables, es: seq<Event>, s: State, i: nat, k: nat, r: string) returns (ls: seq<Label>)
    requires Sound(t) && CopiesDone(t, es, s, i) && k < |es| && About(t, es[k], r)
    requires es[k].message !in t.ledger && es[k].message != es[i].message && r !in t.conferences
    ensures AllQuiet(ls) && RowTaken(t, es, Exec(s, ls), k, r)
  {
    var rest := set h: nat | h < |es| && es[h].message != es[i].message;
    var add := AddAll(s, es, rest, |es|);
    var s1 := Exec(s, add);
    forall h: nat | h < |es| ensures h in s1.handlers && s1.handlers[h].event == es[h] {
      if es[h].message != es[i].message { assert h in rest; }
    }
    assert k in rest;
    var win := Win(t, s1, k, r);
    ExecAppend(s, add, win);
    ls := add + win;
  }

  lemma RunToEnd(t: Tables, es: seq<Event>, s: State, k: nat, r: string) returns (ls: seq<Label>)
    requires RowTaken(t, es, s, k, r)
    ensures AllQuiet(ls) && RowTaken(t, es, Exec(s, ls), k, r) && AllDone(Exec(s, ls))
  {
    ls := RunOutAll(s, s.handlers.Keys, |es|, {});
    ConnectionStays(s, ls, r);
  }

  lemma TakeRowAndEnd(t: Tables, es: seq<Event>, s: State, i: nat, k: nat, r: string) returns (ls: seq<Label>)
    requires Sound(t) && CopiesDone(t, es, s, i) && k < |es| && About(t, es[k], r)
    requires es[k].message !in t.ledger && es[k].message != es[i].message && r !in t.conferences
    ensures AllQuiet(ls) && RowTaken(t, es, Exec(s, ls), k, r) && AllDone(Exec(s, ls))
  {
    var take := TakeRow(t, es, s, i, k, r);
    var run := RunToEnd(t, es, Exec(s, take), k, r);
    ExecAppend(s, take, run);
    ls := take + run;
  }

  /** The other copies of `i` had answered before anything else was delivered. */
  ghost predicate CopiesPrecede(s: State, ls: seq<Label>, es: seq<Event>, i: nat)
    requires i < |es|
  {
    forall j: nat, h: nat :: j < |es| && h < |es| && j != i && es[j].message == es[i].message && es[h].message != es[i].message ==>
      Precedes(s, ls, j, h)
  }

  lemma CopiesAreEarly(t: Tables, es: seq<Event>, i: nat, before: seq<Label>, after: seq<Label>)
    requires CopiesDone(t, es, Exec(Start(t), before), i)
    ensures CopiesPrecede(Start(t), before + after, es, i)
  {
    var ls := before + after;
    assert ls[..|before|] == before;
    forall j: nat, h: nat | j < |es| && h < |es| && j != i && es[j].message == es[i].message && es[h].message != es[i].message
      ensures Precedes(Start(t), ls, j, h)
    {
      assert Answered(Exec(Start(t), ls[..|before|]), j) && h !in Exec(Start(t), ls[..|before|]).handlers;
    }
  }

  /** A routed handler that once got past the ledger has enqueued in the end. */
  lemma PastLedgerEnqueues(t: Tables, before: seq<Label>, after: seq<Label>, i: nat)
    requires Sound(t) && AllQuiet(before + after) && AllDone(Exec(Start(t), before + after))
    requires PastLedger(Exec(Start(t), before), i) && i in Exec(Start(t), before + after).handlers
    requires Routed(t, Exec(Start(t), before + after).handlers[i].event)
    ensures Exec(Start(t), before + after).handlers[i].pc.Done?
    ensures Exec(Start(t), before + after).handlers[i].pc.outcome.Enqueued?
  {
    var ls := before + after;
    assert ls[..|before|] == before;
    CommitStays(Start(t), ls, |before|, i);
    QuietRunKeeps(Start(t), ls);
    DoneKinds(t, Exec(Start(t), ls), i);
  }

  lemma ConnectionRun(t: Tables, es: seq<Event>, i: nat, k: nat, r: string) returns (ls: seq<Label>)
    requires Sound(t) && i < |es| && k < |es| && About(t, es[i], r) && About(t, es[k], r) && r !in t.conferences
    requires es[i].message !in t.ledger && es[k].message !in t.ledger && es[i].message != es[k].message
    ensures Complete(t, ls) && RowTaken(t, es, Exec(Start(t), ls), k, r) && CopiesPrecede(Start(t), ls, es, i)
    ensures Exec(Start(t), ls).handlers[i].pc.outcome.Enqueued?
  {
    var copies := DeliverCopies(t, es, i);
    var rest := TakeRowAndEnd(t, es, Exec(Start(t), copies), i, k, r);
    ExecAppend(Start(t), copies, rest);
    ls := copies + rest;
    CopiesAreEarly(t, es, i, copies, rest);
    PastLedgerEnqueues(t, copies, rest, i);
  }

  /** In an order that keeps real time entry `i` comes first of all. */
  lemma FirstOfAll(s: State, ls: seq<Label>, es: seq<Event>, f: State, i: nat, j: nat, order: seq<nat>, p: nat)
    requires Carried(f, es) && Lists(f, order) && InTime(s, ls, order) && i < |es| && j < |es| && j != i && es[j] == es[i]
    requires CopiesPrecede(s, ls, es, i) && p < |order| && order[p] == i && CopiesFollow(f, order, p)
    ensures p == 0
  {
    assert j in order;
    var q :| 0 <= q < |order| && order[q] == j;
    assert !Precedes(s, ls, order[q], order[0]);
  }

  ghost predicate CopiesFollow(f: State, order: seq<nat>, p: nat)
    requires Lists(f, order) && p < |order|
  {
    forall q :: 0 <= q < |order| && q != p && f.handlers[order[q]].event.message == f.handlers[order[p]].event.message ==> p < q
  }

  lemma CopiesFollowEnqueued(t: Tables, f: State, order: seq<nat>, p: nat)
    requires Sound(t) && Lists(f, order) && Replays(t, f, order) && p < |order| && f.handlers[order[p]].pc.outcome.Enqueued?
    ensures CopiesFollow(f, order, p)
  {
    forall q | 0 <= q < |order| && q != p && f.handlers[order[q]].event.message == f.handlers[order[p]].event.message ensures p < q {
      EnqueuedIsFirst(t, f, order, p, q);
    }
  }

  /** Nor does it leave the row of entry `k`. */
  lemma OtherConnection(t: Tables, es: seq<Event>, f: State, fs: seq<Event>, k: nat, r: string)
    requires Sound(t) && RowTaken(t, es, f, k, r) && r !in t.conferences
    requires |fs| > 0 && About(t, fs[0], r) && fs[0].message !in t.ledger && ConnectionOf(t, fs[0]) != ConnectionOf(t, es[k])
    ensures !SameConferences(f.tables, HandleAll(t, fs))
  {
    HeadDecides(t, fs, r);
    assert Content(f.tables, r) != Content(HandleAll(t, fs), r);
  }

  lemma ConnectionClashBreaksTime(t: Tables, es: seq<Event>, s: State, ls: seq<Label>, f: State, i: nat, j: nat, k: nat, r: string,
                                  order: seq<nat>, p: nat)
    requires Sound(t) && RowTaken(t, es, f, k, r) && i < |es| && CopiesPrecede(s, ls, es, i) && j < |es| && j != i && es[j] == es[i]
    requires About(t, es[i], r) && es[i].message !in t.ledger && r !in t.conferences && ConnectionOf(t, es[i]) != ConnectionOf(t, es[k])
    requires Lists(f, order) && SameConferences(f.tables, HandleAll(t, EventsOf(f, order)))
    requires p < |order| && order[p] == i && CopiesFollow(f, order, p)
    ensures !InTime(s, ls, order)
  {
    if InTime(s, ls, order) {
      FirstOfAll(s, ls, es, f, i, j, order, p);
      OtherConnection(t, es, f, EventsOf(f, order), k, r);
    }
  }

  lemma EntryAt(f: State, es: seq<Event>, order: seq<nat>, i: nat) returns (p: nat)
    requires Carried(f, es) && Lists(f, order) && i < |es|
    ensures p < |order| && order[p] == i
  {
    assert i in order;
    p :| 0 <= p < |order| && order[p] == i;
  }

  /** A connection clash has a schedule that no order replays in real time. */
  lemma ConnectionClashBreaks(t: Tables, es: seq<Event>, i: nat, j: nat, k: nat) returns (ls: seq<Label>)
    requires Sound(t) && IdsIdentify(es) && ConnectionClash(t, es, i, j, k)
    ensures var f := Exec(Start(t), ls);
            && Complete(t, ls) && Delivers(f, es)
            && forall order :: Replays(t, f, order) ==> !InTime(Start(t), ls, order)
  {
    var r := es[i].record.value;
    ls := ConnectionRun(t, es, i, k, r);
    var f := Exec(Start(t), ls);
    CarriedIsDelivered(f, es);
    forall order | Replays(t, f, order) ensures !InTime(Start(t), ls, order) {
      ReplayParts(t, f, order);
      var p := EntryAt(f, es, order, i);
      CopiesFollowEnqueued(t, f, order, p);
      ConnectionClashBreaksTime(t, es, Start(t), ls, f, i, j, k, r, order, p);
    }
  }

  // ---------------------------------------------------------------- a lone namer

  predicate Silent(t: Tables, e: Event, r: string) {
    About(t, e, r) && e.transcript.None?
  }

  /** Every event that is about the record without naming it has message `m` before it. */
  ghost predicate SilentAfter(t: Tables, es: seq<Event>, r: string, m: string) {
    forall q :: 0 <= q < |es| && Silent(t, es[q], r) ==> Carries(es[..q], m)
  }

  lemma SilentPrefix(t: Tables, es: seq<Event>, r: string, m: string, n: nat)
    requires n <= |es| && SilentAfter(t, es, r, m)
    ensures SilentAfter(t, es[..n], r, m)
  {
    forall q | 0 <= q < n && Silent(t, es[..n][q], r) ensures Carries(es[..n][..q], m) {
      assert es[..n][..q] == es[..q];
    }
  }

  lemma {:induction false} DistinctSilentAfter(t: Tables, es: seq<Event>, r: string, m: string)
    requires SilentAfter(t, es, r, m) && m !in t.ledger
    ensures SilentAfter(t, Distinct(t, es), r, m)
  {
    if |es| > 0 {
      var n := |es| - 1;
      SilentPrefix(t, es, r, m, n);
      DistinctSilentAfter(t, es[..n], r, m);
      if Silent(t, es[n], r) {
        var p :| 0 <= p < n && es[..n][p].message == m;
        DistinctCarries(t, es[..n], p);
      }
      SilentAppend(t, Distinct(t, es[..n]), es[n], r, m);
    }
  }

  lemma SilentAppend(t: Tables, d: seq<Event>, e: Event, r: string, m: string)
    requires SilentAfter(t, d, r, m) && (Silent(t, e, r) ==> Carries(d, m))
    ensures SilentAfter(t, d + [e], r, m)
  {
    forall q | 0 <= q < |d + [e]| && Silent(t, (d + [e])[q], r) ensures Carries((d + [e])[..q], m) {
      assert (d + [e])[..q] == d[..q];
      assert d[..|d|] == d;
    }
  }

  /** When whoever does not name the record comes after `b`, its first mention names it. */
  lemma FirstMentionNames(t: Tables, d: seq<Event>, b: Event, i: nat)
    requires NamesNew(t, d, b) && Fresh(t, d) && SilentAfter(t, d, b.record.value, b.message)
    requires i < |d| && About(t, d[i], b.record.value) && forall j :: 0 <= j < i ==> !About(t, d[j], b.record.value)
    ensures d[i].transcript.Some?
  {
    var q :| 0 <= q < |d| && d[q] == b;
    forall p | 0 <= p < i ensures d[..i][p].message != b.message {
      assert d[..i][p] == d[p] && p != q;
    }
  }

  lemma WonByNamers(t: Tables, d: seq<Event>, b: Event)
    requires NamesNew(t, d, b) && Fresh(t, d) && SilentAfter(t, d, b.record.value, b.message)
    requires Expected(t, d, b.record.value) == Some(WonBy(t, b))
    ensures SharedByNamers(t, d, b)
  {
    var r := b.record.value;
    var i := FirstConnectionIndex(t, d, r);
    var k := LastNameIndex(t, d, r);
    FirstMentionNames(t, d, b, i);
    if d[i].message != b.message {
      assert Rival(t, d, d[i], b);
    } else if d[k].message != b.message {
      assert Rival(t, d, d[k], b);
    } else {
      assert i == k;
      forall a | Rival(t, d, a, b) ensures a.transcript.None? {
        var j :| 0 <= j < |d| && d[j] == a;
        assert j > i;
      }
    }
  }

  lemma SharedByNamersOfSame(t: Tables, es: seq<Event>, d: seq<Event>, b: Event)
    requires Routed(t, b) && SharedByNamers(t, d, b)
    requires forall e :: e in d <==> e in es && e.message !in t.ledger
    ensures SharedByNamers(t, es, b)
  {
    forall a ensures Rival(t, es, a, b) <==> Rival(t, d, a, b) {}
  }

  lemma NamersComeFirst(t: Tables, es: seq<Event>, s: State, ls: seq<Label>, f: State, order: seq<nat>, r: string, i: nat)
    requires Carried(f, es) && Lists(f, order) && InTime(s, ls, order)
    requires NamersPrecede(t, es, s, ls, r) && i < |es| && Names(t, es[i], r)
    ensures SilentAfter(t, EventsOf(f, order), r, es[i].message)
  {
    var fs := EventsOf(f, order);
    assert i in order;
    var p :| 0 <= p < |order| && order[p] == i;
    forall q | 0 <= q < |fs| && Silent(t, fs[q], r) ensures Carries(fs[..q], es[i].message) {
      assert Precedes(s, ls, order[p], order[q]);
      assert p < q && fs[..q][p].message == es[i].message;
    }
  }

  /** No order in real time leaves the row of a lone namer. */
  lemma LoneNamerBreaksTime(t: Tables, es: seq<Event>, s: State, ls: seq<Label>, f: State, i: nat, order: seq<nat>)
    requires Sound(t) && IdsIdentify(es) && i < |es| && NamesNew(t, es, es[i]) && !SharedByNamers(t, es, es[i])
    requires Carried(f, es) && Delivers(f, es) && Content(f.tables, es[i].record.value) == Some(WonBy(t, es[i]))
    requires NamersPrecede(t, es, s, ls, es[i].record.value)
    requires Lists(f, order) && SameConferences(f.tables, HandleAll(t, EventsOf(f, order)))
    ensures !InTime(s, ls, order)
  {
    if InTime(s, ls, order) {
      var b, r := es[i], es[i].record.value;
      var fs := EventsOf(f, order);
      NamersComeFirst(t, es, s, ls, f, order, r, i);
      SameDelivered(f, es, order);
      assert Content(f.tables, r) == Content(HandleAll(t, fs), r);
      forall e ensures e in Distinct(t, fs) <==> e in es && e.message !in t.ledger {
        DistinctEvents(t, fs, e);
      }
      RowInOrder(t, fs, b);
      SharedByNamersOfSame(t, es, Distinct(t, fs), b);
    }
  }

  /** A sequential run that leaves the row of `b` has somebody sharing a column with it. */
  lemma RowInOrder(t: Tables, fs: seq<Event>, b: Event)
    requires Sound(t) && IdsIdentify(fs) && NamesNew(t, fs, b) && SilentAfter(t, fs, b.record.value, b.message)
    requires Content(HandleAll(t, fs), b.record.value) == Some(WonBy(t, b))
    ensures SharedByNamers(t, Distinct(t, fs), b)
  {
    var d := Distinct(t, fs);
    DistinctIsFresh(t, fs);
    DistinctEvents(t, fs, b);
    DistinctSilentAfter(t, fs, b.record.value, b.message);
    RedeliveriesVanish(t, fs);
    SerialForm(t, d, b.record.value);
    WonByNamers(t, d, b);
  }

  /** A lone namer has a schedule that no order replays in real time. */
  lemma LoneNamerBreaks(t: Tables, es: seq<Event>, b: Event) returns (ls: seq<Label>)
    requires Sound(t) && IdsIdentify(es) && NamesNew(t, es, b) && !SharedByNamers(t, es, b)
    ensures var f := Exec(Start(t), ls);
            && Complete(t, ls) && Delivers(f, es)
            && forall order :: Replays(t, f, order) ==> !InTime(Start(t), ls, order)
  {
    var i :| 0 <= i < |es| && es[i] == b;
    ls := RaceRun(t, es, i);
    var f := Exec(Start(t), ls);
    forall order | Replays(t, f, order) ensures !InTime(Start(t), ls, order) {
      ReplayParts(t, f, order);
      LoneNamerBreaksTime(t, es, Start(t), ls, f, i, order);
    }
  }

  // ---------------------------------------------------------------- the boundary

  lemma NotInTime(t: Tables, es: seq<Event>, ls: seq<Label>)
    requires Complete(t, ls) && Delivers(Exec(Start(t), ls), es)
    requires forall order :: Replays(t, Exec(Start(t), ls), order) ==> !InTime(Start(t), ls, order)
    ensures !SerialisableInTime(t, es)
  {
  }

  /** Each of the three failures alone breaks real time. */
  lemma RealTimeNeeds(t: Tables, es: seq<Event>)
    requires Sound(t) && IdsIdentify(es) && SerialisableInTime(t, es)
    ensures NoClash(t, es) && NoConnectionClash(t, es) && NoLoneNamer(t, es)
  {
    if i, j, k :| Clash(t, es, i, j, k) {
      var ls := ClashBreaks(t, es, i, j, k);
      NotInTime(t, es, ls);
    }
    if i, j, k :| ConnectionClash(t, es, i, j, k) {
      var ls := ConnectionClashBreaks(t, es, i, j, k);
      NotInTime(t, es, ls);
    }
    if b :| NamesNew(t, es, b) && !SharedByNamers(t, es, b) {
      var ls := LoneNamerBreaks(t, es, b);
      NotInTime(t, es, ls);
    }
  }

  /** The boundary: every complete interleaving of a stream of deliveries is replayed by an
      order that keeps real time if and only if no redelivered event clashes with another in
      its name or its connection and no event can be alone among those who name a record. */
  lemma SerialisableInTimeIff(t: Tables, es: seq<Event>)
    requires Sound(t) && IdsIdentify(es)
    ensures SerialisableInTime(t, es) <==> NoClash(t, es) && NoConnectionClash(t, es) && NoLoneNamer(t, es)
  {
    if NoClash(t, es) && NoConnectionClash(t, es) && NoLoneNamer(t, es) {
      forall ls | Complete(t, ls) && Delivers(Exec(Start(t), ls), es)
        ensures exists order :: Replays(t, Exec(Start(t), ls), order) && InTime(Start(t), ls, order)
      {
        var order := NoClashesSuffice(t, ls, es);
      }
    }
    if SerialisableInTime(t, es) { RealTimeNeeds(t, es); }
  }

  lemma AgreementLeavesClashes(t: Tables, es: seq<Event>)
    requires AgreeOnConnection(t, es)
    ensures NoConnectionClash(t, es) && NoLoneNamer(t, es)
  {
    forall b | NamesNew(t, es, b) ensures SharedByNamers(t, es, b) {
      if a :| Rival(t, es, a, b) && a.transcript.Some? {
        assert ConnectionOf(t, a) == ConnectionOf(t, b);
      }
    }
  }

  /** When the events agree on the connection of each new record, only clashing names of
      redelivered events stand against real time. */
  lemma AgreedInTimeIffNoClash(t: Tables, es: seq<Event>)
    requires Sound(t) && IdsIdentify(es) && AgreeOnConnection(t, es)
    ensures SerialisableInTime(t, es) <==> NoClash(t, es)
  {
    AgreementLeavesClashes(t, es);
    SerialisableInTimeIff(t, es);
  }

  const LATE_FIRST := Event("1", Some("r"), Some("sa"), Some("x"))
  const LATE_LAST := Event("2", Some("r"), Some("sa"), Some("y"))

  /** An instance: a redelivered name and a later one for the same record. */
  lemma LateDuplicate() returns (ls: seq<Label>)
    ensures var f := Exec(Start(RACE_TABLES), ls);
            && Complete(RACE_TABLES, ls) && Delivers(f, [LATE_FIRST, LATE_FIRST, LATE_LAST])
            && (exists order :: Replays(RACE_TABLES, f, order))
            && forall order :: Replays(RACE_TABLES, f, order) ==> !InTime(Start(RACE_TABLES), ls, order)
  {
    var es := [LATE_FIRST, LATE_FIRST, LATE_LAST];
    LateShown(es);
    ls := ClashesButReplays(RACE_TABLES, es, 0, 1, 2);
  }

  lemma LateShown(es: seq<Event>)
    requires es == [LATE_FIRST, LATE_FIRST, LATE_LAST]
    ensures IdsIdentify(es) && AgreeOnConnection(RACE_TABLES, es) && Clash(RACE_TABLES, es, 0, 1, 2)
  {
  }

  /** A clash among events that agree on the connection costs only the real time. */
  lemma ClashesButReplays(t: Tables, es: seq<Event>, i: nat, j: nat, k: nat) returns (ls: seq<Label>)
    requires Sound(t) && IdsIdentify(es) && AgreeOnConnection(t, es) && Clash(t, es, i, j, k)
    ensures var f := Exec(Start(t), ls);
            && Complete(t, ls) && Delivers(f, es)
            && (exists order :: Replays(t, f, order))
            && forall order :: Replays(t, f, order) ==> !InTime(Start(t), ls, order)
  {
    ls := ClashBreaks(t, es, i, j, k);
    DeliversAre(Exec(Start(t), ls), es);
    AgreementIsEnough(t, es);
    var order := NoLoneWinnerSuffices(t, ls, es);
  }
}
