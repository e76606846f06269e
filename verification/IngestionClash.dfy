/** When sequential orders can keep real time: the condition on the events, that it is
    enough, and the schedule that breaks real time when the names of a redelivered event and
    of another one clash. */
module IngestionClash {
  import opened Wrappers
  import opened Ingestion
  import opened IngestionSerial
  import opened IngestionOrder
  import opened IngestionTheorems
  import opened IngestionBoundary
  import opened IngestionRace
  import opened IngestionRealTime
  import IngestionContest

  /** Entries `i` and `j` are one new event, delivered twice, that names a transcript for a
      record for which the new entry `k` names another. */
  predicate Clash(t: Tables, es: seq<Event>, i: int, j: int, k: int) {
    && 0 <= i < |es| && 0 <= j < |es| && 0 <= k < |es| && i != j && es[i] == es[j]
    && es[i].message !in t.ledger && es[k].message !in t.ledger
    && es[i].record.Some? && Names(t, es[i], es[i].record.value) && Names(t, es[k], es[i].record.value)
    && es[k].transcript != es[i].transcript
  }

  ghost predicate NoClash(t: Tables, es: seq<Event>) {
    forall i, j, k :: !Clash(t, es, i, j, k)
  }

  /** The same for the connections that two events bring for a new record; here the events
      need not name a transcript. */
  predicate ConnectionClash(t: Tables, es: seq<Event>, i: int, j: int, k: int) {
    && 0 <= i < |es| && 0 <= j < |es| && 0 <= k < |es| && i != j && es[i] == es[j]
    && es[i].message !in t.ledger && es[k].message !in t.ledger
    && es[i].record.Some? && es[i].record.value !in t.conferences
    && About(t, es[i], es[i].record.value) && About(t, es[k], es[i].record.value)
    && ConnectionOf(t, es[i]) != ConnectionOf(t, es[k])
  }

  ghost predicate NoConnectionClash(t: Tables, es: seq<Event>) {
    forall i, j, k :: !ConnectionClash(t, es, i, j, k)
  }

  /** Among those who name the record somebody else shares the connection or the name of `b`,
      or nobody names another. */
  ghost predicate SharedByNamers(t: Tables, es: seq<Event>, b: Event)
    requires Routed(t, b)
  {
    || (exists a :: Rival(t, es, a, b) && a.transcript.Some? && ConnectionOf(t, a) == ConnectionOf(t, b))
    || (exists a :: Rival(t, es, a, b) && a.transcript == b.transcript)
    || (forall a :: Rival(t, es, a, b) ==> a.transcript.None? || a.transcript == b.transcript)
  }

  ghost predicate NoLoneNamer(t: Tables, es: seq<Event>) {
    forall b :: NamesNew(t, es, b) ==> SharedByNamers(t, es, b)
  }

  /** Every complete interleaving of the stream's deliveries is replayed by some order that
      keeps real time. */
  ghost predicate SerialisableInTime(t: Tables, es: seq<Event>) {
    forall ls :: Complete(t, ls) && Delivers(Exec(Start(t), ls), es) ==>
      exists order :: Replays(t, Exec(Start(t), ls), order) && InTime(Start(t), ls, order)
  }

  // ---------------------------------------------------------------- the condition suffices

  lemma EntryOf(f: State, es: seq<Event>, order: seq<nat>, h: nat) returns (i: nat)
    requires Lists(f, order) && EventsOf(f, order) == es && h in f.handlers
    ensures i < |es| && order[i] == h && es[i] == f.handlers[h].event
  {
    assert h in order;
    i :| 0 <= i < |order| && order[i] == h;
  }

  /** A clash between handlers is one between the entries they carry. */
  lemma ClashFound(t: Tables, f: State, es: seq<Event>, order: seq<nat>, w: nat, d: nat, x: nat) returns (i: nat, j: nat, k: nat)
    requires IdsIdentify(es) && Lists(f, order) && EventsOf(f, order) == es
    requires w in f.handlers && d in f.handlers && x in f.handlers && d != w
    requires f.handlers[w].event.message !in t.ledger && f.handlers[x].event.message !in t.ledger
    requires f.handlers[d].event.message == f.handlers[w].event.message && f.handlers[w].event.record.Some?
    requires Names(t, f.handlers[w].event, f.handlers[w].event.record.value)
    requires Names(t, f.handlers[x].event, f.handlers[w].event.record.value)
    requires f.handlers[x].event.transcript != f.handlers[w].event.transcript
    ensures Clash(t, es, i, j, k)
  {
    i := EntryOf(f, es, order, w);
    j := EntryOf(f, es, order, d);
    k := EntryOf(f, es, order, x);
  }

  lemma NoClashNoLateDuplicate(t: Tables, f: State, es: seq<Event>, d: nat)
    requires IdsIdentify(es) && NoClash(t, es) && Delivers(f, es) && MessagesApart(t, f)
    ensures !ClashingDuplicate(t, f, d)
  {
    if ClashingDuplicate(t, f, d) {
      var order :| Lists(f, order) && EventsOf(f, order) == es;
      var w :| Clashes(t, f, w) && f.handlers[w].event.message == f.handlers[d].event.message;
      var x :| PastLedger(f, x) && Names(t, f.handlers[x].event, f.handlers[w].event.record.value)
               && f.handlers[x].event.transcript != f.handlers[w].event.transcript;
      var i, j, k := ClashFound(t, f, es, order, w, d, x);
    }
  }

  lemma ConnectionClashFound(t: Tables, f: State, es: seq<Event>, order: seq<nat>, w: nat, d: nat, x: nat) returns (i: nat, j: nat, k: nat)
    requires IdsIdentify(es) && Lists(f, order) && EventsOf(f, order) == es
    requires w in f.handlers && d in f.handlers && x in f.handlers && d != w
    requires f.handlers[w].event.message !in t.ledger && f.handlers[x].event.message !in t.ledger
    requires f.handlers[d].event.message == f.handlers[w].event.message
    requires Routed(t, f.handlers[w].event) && f.handlers[w].event.record.value !in t.conferences
    requires About(t, f.handlers[x].event, f.handlers[w].event.record.value)
    requires ConnectionOf(t, f.handlers[x].event) != ConnectionOf(t, f.handlers[w].event)
    ensures ConnectionClash(t, es, i, j, k)
  {
    i := EntryOf(f, es, order, w);
    j := EntryOf(f, es, order, d);
    k := EntryOf(f, es, order, x);
  }

  /** One of two that disagree disagrees with `w`. */
  lemma Dissenter(t: Tables, f: State, w: nat) returns (x: nat)
    requires IngestionContest.AboutContested(t, f, w)
    ensures PastLedger(f, x) && About(t, f.handlers[x].event, f.handlers[w].event.record.value)
    ensures ConnectionOf(t, f.handlers[x].event) != ConnectionOf(t, f.handlers[w].event)
  {
    var r := f.handlers[w].event.record.value;
    var h: nat, k: nat :| PastLedger(f, h) && PastLedger(f, k) && About(t, f.handlers[h].event, r) && About(t, f.handlers[k].event, r)
                && ConnectionOf(t, f.handlers[h].event) != ConnectionOf(t, f.handlers[k].event);
    x := if ConnectionOf(t, f.handlers[h].event) != ConnectionOf(t, f.handlers[w].event) then h else k;
  }

  lemma NoConnectionClashOnce(t: Tables, f: State, es: seq<Event>)
    requires IdsIdentify(es) && NoConnectionClash(t, es) && Delivers(f, es) && MessagesApart(t, f)
    ensures IngestionContest.ContestedOnce(t, f)
  {
    forall d, w | d in f.handlers && !PastLedger(f, d) && IngestionContest.AboutContested(t, f, w)
      ensures f.handlers[d].event.message != f.handlers[w].event.message
    {
      if f.handlers[d].event.message == f.handlers[w].event.message {
        var order :| Lists(f, order) && EventsOf(f, order) == es;
        var x := Dissenter(t, f, w);
        var i, j, k := ConnectionClashFound(t, f, es, order, w, d, x);
      }
    }
  }

  lemma NotAloneAmongNamers(t: Tables, f: State, es: seq<Event>, r: string, b: nat)
    requires Over(t, f, es) && NoLoneNamer(t, es) && r !in t.conferences && NamedOn(f, b, r) && Routed(t, f.handlers[b].event)
    ensures IngestionContest.NotAlone(t, f, r, b)
  {
    var e := f.handlers[b].event;
    SettledIsAbout(t, f, b, r);
    assert NamesNew(t, es, e);
    if a :| Rival(t, es, a, e) && a.transcript.Some? && ConnectionOf(t, a) == ConnectionOf(t, e) {
      var h := RivalHandler(t, f, es, e, a);
    } else if a :| Rival(t, es, a, e) && a.transcript == e.transcript {
      var h := RivalHandler(t, f, es, e, a);
    } else {
      forall k | k != b ensures !NamedOn(f, k, r) {
        if NamedOn(f, k, r) { HandlerRival(t, f, es, r, b, k); }
      }
    }
  }

  lemma AllResolved(t: Tables, ls: seq<Label>, es: seq<Event>, r: string)
    requires Sound(t) && Complete(t, ls) && Over(t, Exec(Start(t), ls), es) && NoLoneNamer(t, es)
    ensures IngestionContest.Resolved(Start(t), ls, r)
  {
    var s := Start(t);
    var f := Exec(s, ls);
    if Contested(t, f, r) && r in f.tables.conferences {
      IngestionContest.InserterFacts(s, ls, r);
      var i := IngestionContest.Inserter(s, ls, r);
      if NamedOn(f, i, r) { NotAloneAmongNamers(t, f, es, r, i); }
      IngestionContest.EndsAtInsert(t, f, r, IngestionContest.InsertAt(s, ls, r), i);
    }
  }

  /** Under the three conditions every complete run is replayed by an order in real time. */
  lemma NoClashesSuffice(t: Tables, ls: seq<Label>, es: seq<Event>) returns (order: seq<nat>)
    requires Sound(t) && IdsIdentify(es) && NoClash(t, es) && NoConnectionClash(t, es) && NoLoneNamer(t, es)
    requires Complete(t, ls) && Delivers(Exec(Start(t), ls), es)
    ensures Replays(t, Exec(Start(t), ls), order) && InTime(Start(t), ls, order)
  {
    var f := Exec(Start(t), ls);
    DeliversAre(f, es);
    QuietRunKeeps(Start(t), ls);
    InvApart(t, f);
    forall d: nat ensures !ClashingDuplicate(t, f, d) {
      NoClashNoLateDuplicate(t, f, es, d);
    }
    NoConnectionClashOnce(t, f, es);
    forall r: string ensures IngestionContest.Resolved(Start(t), ls, r) {
      AllResolved(t, ls, es, r);
    }
    order := IngestionContest.ResolvedIsSequential(Start(t), ls);
  }

  // ---------------------------------------------------------------- many handlers at once

  /** A handler can always run to its answer, alone. */
  lemma {:induction false} RunOut(s: State, h: nat, bad: set<string>) returns (ls: seq<Label>)
    requires h in s.handlers && s.handlers[h].event.message !in bad && s.tables.ledger !! bad
    ensures AllQuiet(ls)
    ensures var s' := Exec(s, ls); Only(s, s', h) && s'.handlers[h].pc.Done? && s'.tables.ledger !! bad
    decreases Rank(s.handlers[h].pc)
  {
    ls := [];
    if Running(s, h) {
      StepOnly(s, h);
      StepLedger(s, h);
      var rest := RunOut(Next(s, Step(h)), h, bad);
      ls := [Step(h)] + rest;
      ExecCons(s, Step(h), rest);
    }
  }

  lemma StepLedger(s: State, h: nat)
    requires Running(s, h)
    ensures Next(s, Step(h)).tables.ledger <= s.tables.ledger + {s.handlers[h].event.message}
  {
  }

  lemma {:induction false} RunOutAll(s: State, sel: set<nat>, n: nat, bad: set<string>) returns (ls: seq<Label>)
    requires sel <= s.handlers.Keys && s.tables.ledger !! bad
    requires forall h :: h in sel ==> s.handlers[h].event.message !in bad
    ensures AllQuiet(ls) && RanOut(s, Exec(s, ls), sel, n) && Exec(s, ls).tables.ledger !! bad
  {
    ls := [];
    if n > 0 {
      var before := RunOutAll(s, sel, n - 1, bad);
      ls := before;
      if n - 1 in sel {
        var more := RunOut(Exec(s, before), n - 1, bad);
        ExecAppend(s, before, more);
        ls := before + more;
      }
    }
  }

  lemma DropOne(s: State, h: nat)
    requires h in s.handlers && s.handlers[h].event.message in s.tables.ledger && s.handlers[h].pc.Checking?
    ensures var s' := Next(s, Step(h)); Only(s, s', h) && s'.handlers[h].pc.Done? && s'.tables == s.tables
  {
  }

  /** Redeliveries of a recorded message are dropped at once. */
  lemma {:induction false} DropAll(s: State, sel: set<nat>, n: nat) returns (ls: seq<Label>)
    requires sel <= s.handlers.Keys
    requires forall h :: h in sel ==> s.handlers[h].event.message in s.tables.ledger && s.handlers[h].pc.Checking?
    ensures AllQuiet(ls) && RanOut(s, Exec(s, ls), sel, n) && Exec(s, ls).tables == s.tables
  {
    ls := [];
    if n > 0 {
      var before := DropAll(s, sel, n - 1);
      var s1 := Exec(s, before);
      ls := before;
      if n - 1 in sel {
        assert s1.handlers[n - 1] == s.handlers[n - 1];
        DropOne(s1, n - 1);
        OneMore(s, s1, Next(s1, Step(n - 1)), sel, n - 1);
        ls := before + [Step(n - 1)];
        assert ls[..|before|] == before;
      }
    }
  }

  // ---------------------------------------------------------------- one handler names the record

  /** `h` is on its way to give the row of `r` its name. */
  ghost predicate Naming(t: Tables, s: State, h: nat, r: string) {
    && h in s.handlers && Names(t, s.handlers[h].event, r) && SameRoutes(t, s)
    && var x := s.handlers[h];
       var m := x.event.message;
       match x.pc
       case Checking => m !in s.tables.ledger
       case Recording => m !in s.tables.ledger
       case Routing => m in s.tables.ledger
       case Looking(c) => m in s.tables.ledger && c == ConnectionOf(t, x.event)
       case Inserting(c) => m in s.tables.ledger && c == ConnectionOf(t, x.event) && r !in s.tables.conferences
       case Updating(id, seen) => m in s.tables.ledger && HasRow(s.tables, r, id) && s.tables.conferences[r].transcript == seen
       case Refreshing(id) => m in s.tables.ledger && HasRow(s.tables, r, id) && s.tables.conferences[r].transcript == x.event.transcript
       case Enqueuing(id) => m in s.tables.ledger && HasRow(s.tables, r, id) && s.tables.conferences[r].transcript == x.event.transcript
       case Done(o) => m in s.tables.ledger && o.Enqueued? && r in s.tables.conferences && s.tables.conferences[r].transcript == x.event.transcript
       case _ => false
  }

  lemma NameStep(t: Tables, s: State, h: nat, r: string)
    requires Sound(t) && Naming(t, s, h, r) && Running(s, h)
    ensures Naming(t, Next(s, Step(h)), h, r)
  {
  }

  /** Undisturbed, a handler that names the record leaves it with that name. */
  lemma {:induction false} NameAlone(t: Tables, s: State, h: nat, r: string) returns (ls: seq<Label>)
    requires Sound(t) && Naming(t, s, h, r)
    ensures AllQuiet(ls)
    ensures var s' := Exec(s, ls); Only(s, s', h) && s'.handlers[h].pc.Done? && Naming(t, s', h, r)
    decreases Rank(s.handlers[h].pc)
  {
    ls := [];
    if Running(s, h) {
      StepOnly(s, h);
      NameStep(t, s, h, r);
      var rest := NameAlone(t, Next(s, Step(h)), h, r);
      ls := [Step(h)] + rest;
      ExecCons(s, Step(h), rest);
    }
  }

  /** `h` is on its way to overwrite the name that the row of `r` has. */
  ghost predicate Renaming(t: Tables, s: State, h: nat, r: string) {
    && h in s.handlers && Names(t, s.handlers[h].event, r) && SameRoutes(t, s) && r in s.tables.conferences
    && var x := s.handlers[h];
       var row := s.tables.conferences[r];
       match x.pc
       case Routing => row.transcript != x.event.transcript
       case Looking(_) => row.transcript != x.event.transcript
       case Updating(id, seen) => id == row.id && seen == row.transcript != x.event.transcript
       case Refreshing(id) => id == row.id && row.transcript == x.event.transcript
       case Enqueuing(id) => row.transcript == x.event.transcript
       case Done(o) => o.Enqueued? && row.transcript == x.event.transcript
       case _ => false
  }

  lemma RenameStep(t: Tables, s: State, h: nat, r: string)
    requires Renaming(t, s, h, r) && Running(s, h)
    ensures Renaming(t, Next(s, Step(h)), h, r)
  {
  }

  lemma {:induction false} Rename(t: Tables, s: State, h: nat, r: string) returns (ls: seq<Label>)
    requires Renaming(t, s, h, r)
    ensures AllQuiet(ls)
    ensures var s' := Exec(s, ls); Only(s, s', h) && s'.handlers[h].pc.Done? && Renaming(t, s', h, r)
    decreases Rank(s.handlers[h].pc)
  {
    ls := [];
    if Running(s, h) {
      StepOnly(s, h);
      RenameStep(t, s, h, r);
      var rest := Rename(t, Next(s, Step(h)), h, r);
      ls := [Step(h)] + rest;
      ExecCons(s, Step(h), rest);
    }
  }

  /** A new routed handler gets past the ledger and no further. */
  lemma PassLedger(t: Tables, s: State, h: nat) returns (ls: seq<Label>)
    requires h in s.handlers && Routed(t, s.handlers[h].event) && s.handlers[h].pc.Checking?
    requires s.handlers[h].event.message !in s.tables.ledger
    ensures AllQuiet(ls)
    ensures var s' := Exec(s, ls);
            && Only(s, s', h) && s'.handlers[h].pc.Routing? && s'.handlers[h].stamp.Some?
            && s'.tables == s.tables.(ledger := s.tables.ledger + {s.handlers[h].event.message})
  {
    var s1 := Next(s, Step(h));
    assert s1.handlers[h].pc.Recording?;
    ls := [Step(h)] + ([Step(h)] + []);
    ExecCons(s, Step(h), [Step(h)] + []);
    ExecCons(s1, Step(h), []);
  }

  // ---------------------------------------------------------------- the schedule

  /** Everything but message `m` has been delivered and has answered, except that handler `i`
      waits right behind the ledger. */
  ghost predicate Waiting(t: Tables, es: seq<Event>, s: State, i: nat, m: string) {
    && i < |es| && SameRoutes(t, s) && m !in s.tables.ledger && es[i].message in s.tables.ledger
    && (forall h: nat :: h in s.handlers <==> h < |es| && es[h].message != m)
    && (forall h: nat :: h in s.handlers ==> s.handlers[h].event == es[h])
    && es[i].message != m && s.handlers[i].pc.Routing?
    && (forall h: nat :: h in s.handlers && h != i ==> s.handlers[h].pc.Done?)
  }

  /** After the others have answered: the copies of entry `i` are untouched. */
  ghost predicate Ready(t: Tables, es: seq<Event>, s: State, i: nat, m: string) {
    && i < |es| && SameRoutes(t, s) && s.tables.ledger !! {m, es[i].message}
    && (forall h: nat :: h in s.handlers <==> h < |es| && es[h].message != m)
    && (forall h: nat :: h in s.handlers ==> s.handlers[h].event == es[h])
    && (forall h: nat :: h in s.handlers ==> if es[h].message == es[i].message then s.handlers[h].pc.Checking? else s.handlers[h].pc.Done?)
  }

  lemma RunOthers(t: Tables, es: seq<Event>, i: nat, m: string) returns (ls: seq<Label>)
    requires i < |es| && t.ledger !! {m, es[i].message} && es[i].message != m
    ensures AllQuiet(ls) && Ready(t, es, Exec(Start(t), ls), i, m)
  {
    var first := set h: nat | h < |es| && es[h].message != m;
    var others := set h: nat | h < |es| && es[h].message != m && es[h].message != es[i].message;
    var add := AddAll(Start(t), es, first, |es|);
    var s1 := Exec(Start(t), add);
    var run := RunOutAll(s1, others, |es|, {m, es[i].message});
    ExecAppend(Start(t), add, run);
    ls := add + run;
  }

  lemma PassAndDrop(t: Tables, es: seq<Event>, s: State, i: nat, m: string) returns (ls: seq<Label>)
    requires Ready(t, es, s, i, m) && es[i].message != m
    requires es[i].record.Some? && Names(t, es[i], es[i].record.value)
    ensures AllQuiet(ls) && Waiting(t, es, Exec(s, ls), i, m)
  {
    var pass := PassLedger(t, s, i);
    var s1 := Exec(s, pass);
    var copies := set h: nat | h < |es| && es[h].message == es[i].message && h != i;
    forall h | h in copies ensures h in s1.handlers && s1.handlers[h] == s.handlers[h] { assert h in s.handlers; }
    var drop := DropAll(s1, copies, |es|);
    ExecAppend(s, pass, drop);
    ls := pass + drop;
  }

  lemma Wait(t: Tables, es: seq<Event>, i: nat, m: string) returns (ls: seq<Label>)
    requires i < |es| && t.ledger !! {m, es[i].message} && es[i].message != m
    requires es[i].record.Some? && Names(t, es[i], es[i].record.value)
    ensures AllQuiet(ls) && Waiting(t, es, Exec(Start(t), ls), i, m)
  {
    var run := RunOthers(t, es, i, m);
    var drop := PassAndDrop(t, es, Exec(Start(t), run), i, m);
    ExecAppend(Start(t), run, drop);
    ls := run + drop;
  }

  /** The end: handler `k` has come and gone, and handler `i` wrote last. */
  ghost predicate WroteLast(t: Tables, es: seq<Event>, f: State, i: nat, k: nat, r: string) {
    && i < |es| && k < |es| && Carried(f, es) && AllDone(f)
    && f.handlers[i].pc.outcome.Enqueued? && f.handlers[k].pc.outcome.Enqueued?
    && r in f.tables.conferences && f.tables.conferences[r].transcript == es[i].transcript
  }

  /** Handler `k` has named the record, its copies are dropped, and `i` still waits. */
  ghost predicate Named(t: Tables, es: seq<Event>, s: State, i: nat, k: nat, r: string) {
    && i < |es| && k < |es| && i != k && Carried(s, es)
    && (forall h: nat :: h < |es| && h != i ==> s.handlers[h].pc.Done?)
    && Renaming(t, s, i, r) && s.handlers[k].pc.outcome.Enqueued?
  }

  lemma DeliverLater(t: Tables, es: seq<Event>, s: State, i: nat, k: nat, r: string) returns (ls: seq<Label>)
    requires Sound(t) && k < |es| && Waiting(t, es, s, i, es[k].message) && Names(t, es[k], r)
    ensures AllQuiet(ls)
    ensures var s' := Exec(s, ls);
            && Carried(s', es) && Naming(t, s', k, r) && SameRoutes(t, s') && s'.handlers[i] == s.handlers[i]
            && (forall h: nat :: h < |es| && h != i ==>
                  if es[h].message == es[k].message then s'.handlers[h].pc.Checking? else s'.handlers[h].pc.Done?)
  {
    var later := set h: nat | h < |es| && es[h].message == es[k].message;
    ls := AddAll(s, es, later, |es|);
    var s' := Exec(s, ls);
    forall h: nat | h < |es| ensures h in s'.handlers && s'.handlers[h].event == es[h] {
      if es[h].message == es[k].message { assert h in later; }
    }
  }

  lemma NameLater(t: Tables, es: seq<Event>, s: State, i: nat, k: nat, r: string) returns (ls: seq<Label>)
    requires Sound(t) && i < |es| && k < |es| && Carried(s, es) && Naming(t, s, k, r) && SameRoutes(t, s)
    requires Names(t, es[i], r) && es[i].transcript != es[k].transcript && es[i].message != es[k].message
    requires s.handlers[i].pc.Routing?
    requires forall h: nat :: h < |es| && h != i ==>
               if es[h].message == es[k].message then s.handlers[h].pc.Checking? else s.handlers[h].pc.Done?
    ensures AllQuiet(ls) && Named(t, es, Exec(s, ls), i, k, r)
  {
    var name := NameAlone(t, s, k, r);
    var s1 := Exec(s, name);
    var copies := set h: nat | h < |es| && es[h].message == es[k].message && h != k;
    forall h: nat | h < |es| && h != k ensures h in s1.handlers && s1.handlers[h] == s.handlers[h] { assert h in s.handlers; }
    var drop := DropAll(s1, copies, |es|);
    ExecAppend(s, name, drop);
    ls := name + drop;
  }

  lemma WriteLast(t: Tables, es: seq<Event>, s: State, i: nat, k: nat, r: string) returns (ls: seq<Label>)
    requires Named(t, es, s, i, k, r)
    ensures AllQuiet(ls) && WroteLast(t, es, Exec(s, ls), i, k, r)
  {
    ls := Rename(t, s, i, r);
    var f := Exec(s, ls);
    forall h: nat | h in s.handlers && h != i ensures f.handlers[h] == s.handlers[h] { }
  }

  /** The clash is used: the second part of the schedule. */
  lemma ClashLater(t: Tables, es: seq<Event>, s: State, i: nat, k: nat, r: string) returns (ls: seq<Label>)
    requires Sound(t) && k < |es| && Waiting(t, es, s, i, es[k].message)
    requires Names(t, es[i], r) && Names(t, es[k], r) && es[i].transcript != es[k].transcript
    ensures AllQuiet(ls) && WroteLast(t, es, Exec(s, ls), i, k, r)
  {
    var add := DeliverLater(t, es, s, i, k, r);
    var s1 := Exec(s, add);
    var name := NameLater(t, es, s1, i, k, r);
    var write := WriteLast(t, es, Exec(s1, name), i, k, r);
    Chain(s, add, name, write);
    ls := add + name + write;
  }

  // ---------------------------------------------------------------- no order replays it in time

  lemma ReplayParts(t: Tables, f: State, order: seq<nat>)
    requires Replays(t, f, order)
    ensures Lists(f, order) && SameConferences(f.tables, HandleAll(t, EventsOf(f, order)))
  {
  }

  lemma ReplayAnswers(t: Tables, f: State, order: seq<nat>, p: nat)
    requires Replays(t, f, order) && p < |order| && f.handlers[order[p]].pc.outcome.Enqueued?
    ensures OutcomeAt(t, EventsOf(f, order), p) != Duplicate
  {
    assert Answer(OutcomeAt(t, EventsOf(f, order), p)) == "enqueued";
  }

  lemma NotDuplicateIsFirst(t: Tables, es: seq<Event>, p: nat)
    requires Sound(t) && p < |es| && OutcomeAt(t, es, p) != Duplicate
    ensures forall q :: 0 <= q < p ==> es[q].message != es[p].message
  {
    SerialFrame(t, es[..p]);
    forall q | 0 <= q < p ensures es[q].message != es[p].message {
      assert es[..p][q].message == es[q].message;
    }
  }

  /** A delivery that was not dropped is the first of its message in every replay. */
  lemma EnqueuedIsFirst(t: Tables, f: State, order: seq<nat>, p: nat, q: nat)
    requires Sound(t) && Replays(t, f, order) && p < |order| && f.handlers[order[p]].pc.outcome.Enqueued?
    requires q < |order| && q != p && f.handlers[order[q]].event.message == f.handlers[order[p]].event.message
    ensures p < q
  {
    ReplayAnswers(t, f, order, p);
    NotDuplicateIsFirst(t, EventsOf(f, order), p);
  }

  /** The first delivery of a message that names the record leaves it with that name. */
  lemma NamesLast(t: Tables, before: seq<Event>, e: Event, r: string)
    requires Sound(t) && Names(t, e, r) && e.message !in t.ledger
    requires forall q :: 0 <= q < |before| ==> before[q].message != e.message
    ensures var u := HandleAll(t, before + [e]);
            e.message in u.ledger && Content(u, r).Some? && Content(u, r).value.transcript == e.transcript
  {
    var u := HandleAll(t, before);
    SerialFrame(t, before);
    HandleContent(u, e, r);
    assert (before + [e])[..|before|] == before;
  }

  /** Redeliveries that come later do not matter. */
  lemma NamesFromHere(t: Tables, es: seq<Event>, p: nat, r: string)
    requires Sound(t) && p < |es| && Names(t, es[p], r) && es[p].message !in t.ledger
    requires forall q :: 0 <= q < p ==> es[q].message != es[p].message
    requires forall q :: p < q < |es| ==> es[q].message == es[p].message
    ensures Content(HandleAll(t, es), r).Some? && Content(HandleAll(t, es), r).value.transcript == es[p].transcript
  {
    NamesLast(t, es[..p], es[p], r);
    DuplicatesChangeNothing(t, es[..p] + [es[p]], es[p + 1..]);
    assert es == es[..p] + [es[p]] + es[p + 1..];
  }

  /** What real time says of the schedule: all that had answered while `i` waited precedes `k`. */
  ghost predicate OthersPrecede(s: State, ls: seq<Label>, es: seq<Event>, i: nat, k: nat)
    requires k < |es|
  {
    forall h: nat :: h < |es| && h != i && es[h].message != es[k].message ==> Precedes(s, ls, h, k)
  }

  lemma WaitersPrecede(t: Tables, es: seq<Event>, i: nat, k: nat, before: seq<Label>, after: seq<Label>)
    requires k < |es| && Waiting(t, es, Exec(Start(t), before), i, es[k].message)
    ensures OthersPrecede(Start(t), before + after, es, i, k)
  {
    var ls := before + after;
    assert ls[..|before|] == before;
    forall h: nat | h < |es| && h != i && es[h].message != es[k].message ensures Precedes(Start(t), ls, h, k) {
      assert Answered(Exec(Start(t), ls[..|before|]), h) && k !in Exec(Start(t), ls[..|before|]).handlers;
    }
  }

  /** Between handler `i` and the later `k` stands a redelivery of `i`. */
  lemma OriginalBeforeLater(t: Tables, es: seq<Event>, s: State, ls: seq<Label>, f: State, i: nat, j: nat, k: nat, r: string,
                            order: seq<nat>, pi: nat, pk: nat)
    requires Sound(t) && WroteLast(t, es, f, i, k, r) && Replays(t, f, order) && Lists(f, order) && InTime(s, ls, order)
    requires OthersPrecede(s, ls, es, i, k) && j < |es| && j != i && es[j] == es[i] && es[i].message != es[k].message
    requires pi < |order| && order[pi] == i && pk < |order| && order[pk] == k
    ensures pi < pk
  {
    assert j in order;
    var pj :| 0 <= pj < |order| && order[pj] == j;
    EnqueuedIsFirst(t, f, order, pi, pj);
    assert Precedes(s, ls, j, k);
  }

  /** In an order that keeps real time nothing but redeliveries comes after `k`. */
  lemma LaterIsLast(t: Tables, es: seq<Event>, s: State, ls: seq<Label>, f: State, i: nat, j: nat, k: nat, r: string, order: seq<nat>,
                    pk: nat, q: nat)
    requires Sound(t) && WroteLast(t, es, f, i, k, r) && Replays(t, f, order) && Lists(f, order) && InTime(s, ls, order)
    requires OthersPrecede(s, ls, es, i, k) && j < |es| && j != i && es[j] == es[i] && es[i].message != es[k].message
    requires pk < |order| && order[pk] == k && pk < q < |order|
    ensures es[order[q]].message == es[k].message
  {
    assert !Precedes(s, ls, order[q], k);
    if order[q] == i {
      OriginalBeforeLater(t, es, s, ls, f, i, j, k, r, order, q, pk);
    }
  }

  /** No replay of the schedule keeps real time. */
  lemma ClashBreaksTime(t: Tables, es: seq<Event>, s: State, ls: seq<Label>, f: State, i: nat, j: nat, k: nat, r: string, order: seq<nat>)
    requires Sound(t) && WroteLast(t, es, f, i, k, r) && OthersPrecede(s, ls, es, i, k)
    requires j < |es| && j != i && es[j] == es[i] && es[i].message != es[k].message
    requires es[k].message !in t.ledger && Names(t, es[k], r) && es[k].transcript != es[i].transcript
    requires Replays(t, f, order)
    ensures !InTime(s, ls, order)
  {
    if InTime(s, ls, order) {
      ReplayParts(t, f, order);
      var fs := EventsOf(f, order);
      assert k in order;
      var p :| 0 <= p < |order| && order[p] == k;
      assert Content(f.tables, r) == Content(HandleAll(t, fs), r);
      ReplayAnswers(t, f, order, p);
      NotDuplicateIsFirst(t, fs, p);
      forall q | p < q < |fs| ensures fs[q].message == fs[p].message {
        LaterIsLast(t, es, s, ls, f, i, j, k, r, order, p, q);
      }
      NamesFromHere(t, fs, p, r);
    }
  }

  lemma ClashRun(t: Tables, es: seq<Event>, i: nat, j: nat, k: nat) returns (ls: seq<Label>)
    requires Sound(t) && IdsIdentify(es) && Clash(t, es, i, j, k)
    ensures AllQuiet(ls) && WroteLast(t, es, Exec(Start(t), ls), i, k, es[i].record.value)
    ensures OthersPrecede(Start(t), ls, es, i, k)
  {
    var before := Wait(t, es, i, es[k].message);
    var after := ClashLater(t, es, Exec(Start(t), before), i, k, es[i].record.value);
    ls := before + after;
    ExecAppend(Start(t), before, after);
    WaitersPrecede(t, es, i, k, before, after);
  }

  /** A clash has a schedule that no order replays in real time. */
  lemma ClashBreaks(t: Tables, es: seq<Event>, i: nat, j: nat, k: nat) returns (ls: seq<Label>)
    requires Sound(t) && IdsIdentify(es) && Clash(t, es, i, j, k)
    ensures var f := Exec(Start(t), ls);
            && Complete(t, ls) && Delivers(f, es)
            && forall order :: Replays(t, f, order) ==> !InTime(Start(t), ls, order)
  {
    ls := ClashRun(t, es, i, j, k);
    var f := Exec(Start(t), ls);
    CarriedIsDelivered(f, es);
    forall order | Replays(t, f, order) ensures !InTime(Start(t), ls, order) {
      ClashBreaksTime(t, es, Start(t), ls, f, i, j, k, es[i].record.value, order);
    }
  }
}
