/** The schedule by which one event wins both columns of a new row against all others:
    every other event that names the record is held just before its insert, the winner runs
    to its end, the others meet the conflict, and only then everything else is delivered. */
module IngestionRace {
  import opened Wrappers
  import opened Ingestion
  import opened IngestionSerial
  import opened IngestionOrder
  import opened IngestionTheorems
  import opened IngestionBoundary

  lemma {:induction false} ExecAppend(s: State, a: seq<Label>, b: seq<Label>)
    ensures Exec(s, a + b) == Exec(Exec(s, a), b)
  {
    if |b| == 0 {
      assert a + b == a;
    } else {
      var n := |b| - 1;
      ExecAppend(s, a, b[..n]);
      assert (a + b)[..|a| + n] == a + b[..n];
    }
  }

  lemma ExecCons(s: State, l: Label, ls: seq<Label>)
    ensures Exec(s, [l] + ls) == Exec(Next(s, l), ls)
  {
    ExecAppend(s, [l], ls);
    assert [l][..0] == [];
  }

  /** Only `h` has moved. */
  ghost predicate Only(s: State, s': State, h: nat) {
    && h in s.handlers && s'.handlers.Keys == s.handlers.Keys
    && (forall k :: k in s.handlers && k != h ==> s'.handlers[k] == s.handlers[k])
    && s'.handlers[h].event == s.handlers[h].event
    && s'.tables.subscriptions == s.tables.subscriptions && s'.tables.connections == s.tables.connections
  }

  lemma StepOnly(s: State, h: nat)
    requires Running(s, h)
    ensures var s' := Next(s, Step(h));
            Only(s, s', h) && Rank(s'.handlers[h].pc) < Rank(s.handlers[h].pc) && s.tables.ledger <= s'.tables.ledger
  {
  }

  // ---------------------------------------------------------------- deliveries and runs of many handlers

  /** Handler i carries entry i of the stream. */
  ghost predicate Carried(s: State, es: seq<Event>) {
    && (forall h: nat :: h in s.handlers <==> h < |es|)
    && (forall i :: 0 <= i < |es| ==> s.handlers[i].event == es[i])
  }

  /** The tables that schedules leave alone. */
  predicate SameRoutes(t: Tables, s: State) {
    s.tables.subscriptions == t.subscriptions && s.tables.connections == t.connections
  }

  /** The handlers of `sel` below `n` have been delivered on top of `s`. */
  ghost predicate Added(s: State, s': State, es: seq<Event>, sel: set<nat>, n: nat)
    requires n <= |es|
  {
    && s'.tables == s.tables
    && (forall h: nat :: h in s'.handlers <==> h in s.handlers || (h in sel && h < n))
    && (forall h: nat :: h in s.handlers ==> s'.handlers[h] == s.handlers[h])
    && (forall h: nat :: h in sel && h < n ==> s'.handlers[h] == Handler(es[h], Checking, None))
  }

  lemma {:induction false} AddAll(s: State, es: seq<Event>, sel: set<nat>, n: nat) returns (ls: seq<Label>)
    requires n <= |es| && forall h :: h in sel ==> h !in s.handlers
    ensures AllQuiet(ls) && Added(s, Exec(s, ls), es, sel, n)
  {
    ls := [];
    if n > 0 {
      var before := AddAll(s, es, sel, n - 1);
      ls := before;
      if n - 1 in sel {
        ls := before + [Deliver(n - 1, es[n - 1])];
        assert ls[..|before|] == before;
      }
    }
  }

  /** The handlers of `sel` below `n` have answered, and nobody else has moved. */
  ghost predicate RanOut(s: State, s': State, sel: set<nat>, n: nat) {
    && s'.handlers.Keys == s.handlers.Keys
    && s'.tables.subscriptions == s.tables.subscriptions && s'.tables.connections == s.tables.connections
    && (forall h: nat :: h in s.handlers ==> s'.handlers[h].event == s.handlers[h].event)
    && (forall h: nat :: h in s.handlers && !(h in sel && h < n) ==> s'.handlers[h] == s.handlers[h])
    && (forall h: nat :: h in s.handlers && h in sel && h < n ==> s'.handlers[h].pc.Done?)
  }

  lemma OneMore(s: State, s1: State, s2: State, sel: set<nat>, n: nat)
    requires RanOut(s, s1, sel, n) && n in sel && Only(s1, s2, n) && s2.handlers[n].pc.Done?
    ensures RanOut(s, s2, sel, n + 1)
  {
  }

  // ---------------------------------------------------------------- the others are held

  predicate Early(pc: Pc) {
    pc.Checking? || pc.Recording? || pc.Routing? || pc.Looking?
  }

  predicate Held(pc: Pc) {
    pc.Inserting? || pc.Done?
  }

  lemma HoldStep(t: Tables, s: State, h: nat, r: string)
    requires Running(s, h) && Early(s.handlers[h].pc) && About(t, s.handlers[h].event, r) && r !in s.tables.conferences
    ensures var s' := Next(s, Step(h));
            && s'.tables.conferences == s.tables.conferences
            && s'.tables.ledger <= s.tables.ledger + {s.handlers[h].event.message}
            && (Early(s'.handlers[h].pc) || Held(s'.handlers[h].pc))
  {
  }

  /** A handler of a new record runs up to its insert, or answers before. */
  lemma {:induction false} Hold(t: Tables, s: State, h: nat, r: string) returns (ls: seq<Label>)
    requires h in s.handlers && (Early(s.handlers[h].pc) || Held(s.handlers[h].pc))
    requires About(t, s.handlers[h].event, r) && r !in s.tables.conferences
    ensures AllQuiet(ls)
    ensures var s' := Exec(s, ls);
            && Only(s, s', h) && Held(s'.handlers[h].pc)
            && s'.tables.conferences == s.tables.conferences
            && s'.tables.ledger <= s.tables.ledger + {s.handlers[h].event.message}
    decreases Rank(s.handlers[h].pc)
  {
    ls := [];
    if Early(s.handlers[h].pc) {
      StepOnly(s, h);
      HoldStep(t, s, h, r);
      var rest := Hold(t, Next(s, Step(h)), h, r);
      ls := [Step(h)] + rest;
      ExecCons(s, Step(h), rest);
    }
  }

  /** The handlers of `sel` below `n` are held, and nobody else has moved. */
  ghost predicate HeldBack(s: State, s': State, sel: set<nat>, n: nat) {
    && s'.handlers.Keys == s.handlers.Keys && s'.tables.conferences == s.tables.conferences
    && s'.tables.subscriptions == s.tables.subscriptions && s'.tables.connections == s.tables.connections
    && (forall h: nat :: h in s.handlers ==> s'.handlers[h].event == s.handlers[h].event)
    && (forall h: nat :: h in s.handlers && !(h in sel && h < n) ==> s'.handlers[h] == s.handlers[h])
    && (forall h: nat :: h in s.handlers && h in sel && h < n ==> Held(s'.handlers[h].pc))
  }

  lemma {:induction false} HoldAll(t: Tables, s: State, sel: set<nat>, n: nat, r: string, m: string) returns (ls: seq<Label>)
    requires sel <= s.handlers.Keys && m !in s.tables.ledger && r !in s.tables.conferences
    requires forall h :: h in sel ==> About(t, s.handlers[h].event, r) && s.handlers[h].event.message != m && s.handlers[h].pc.Checking?
    ensures AllQuiet(ls) && HeldBack(s, Exec(s, ls), sel, n) && m !in Exec(s, ls).tables.ledger
  {
    ls := [];
    if n > 0 {
      var before := HoldAll(t, s, sel, n - 1, r, m);
      var s1 := Exec(s, before);
      ls := before;
      if n - 1 in sel {
        assert s1.handlers[n - 1] == s.handlers[n - 1];
        var more := Hold(t, s1, n - 1, r);
        HoldMore(s, s1, Exec(s1, more), sel, n - 1);
        ExecAppend(s, before, more);
        ls := before + more;
      }
    }
  }

  lemma HoldMore(s: State, s1: State, s2: State, sel: set<nat>, n: nat)
    requires HeldBack(s, s1, sel, n) && n in sel && Only(s1, s2, n) && Held(s2.handlers[n].pc)
    requires s2.tables.conferences == s1.tables.conferences
    ensures HeldBack(s, s2, sel, n + 1)
  {
  }

  // ---------------------------------------------------------------- the winner runs

  /** The row `e` makes when it wins. */
  function WonBy(t: Tables, e: Event): Conference
    requires Routed(t, e)
  {
    Conference(ConnectionOf(t, e), e.transcript)
  }

  ghost predicate Winning(t: Tables, s: State, h: nat, r: string) {
    && h in s.handlers && About(t, s.handlers[h].event, r)
    && s.tables.subscriptions == t.subscriptions && s.tables.connections == t.connections
    && var x := s.handlers[h];
       match x.pc
       case Checking => r !in s.tables.conferences && x.event.message !in s.tables.ledger
       case Recording => r !in s.tables.conferences && x.event.message !in s.tables.ledger
       case Routing => r !in s.tables.conferences && x.event.message in s.tables.ledger
       case Looking(c) => r !in s.tables.conferences && x.event.message in s.tables.ledger && c == ConnectionOf(t, x.event)
       case Inserting(c) => r !in s.tables.conferences && x.event.message in s.tables.ledger && c == ConnectionOf(t, x.event)
       case Refreshing(id) => Content(s.tables, r) == Some(WonBy(t, x.event)) && HasRow(s.tables, r, id) && x.event.message in s.tables.ledger
       case Enqueuing(id) => Content(s.tables, r) == Some(WonBy(t, x.event)) && x.event.message in s.tables.ledger
       case Done(_) => Content(s.tables, r) == Some(WonBy(t, x.event)) && x.event.message in s.tables.ledger
       case _ => false
  }

  lemma WinStep(t: Tables, s: State, h: nat, r: string)
    requires Sound(t) && Winning(t, s, h, r) && Running(s, h)
    ensures Winning(t, Next(s, Step(h)), h, r)
  {
  }

  lemma {:induction false} Win(t: Tables, s: State, h: nat, r: string) returns (ls: seq<Label>)
    requires Sound(t) && Winning(t, s, h, r)
    ensures AllQuiet(ls)
    ensures var s' := Exec(s, ls); Only(s, s', h) && s'.handlers[h].pc.Done? && Winning(t, s', h, r)
    decreases Rank(s.handlers[h].pc)
  {
    ls := [];
    if Running(s, h) {
      StepOnly(s, h);
      WinStep(t, s, h, r);
      var rest := Win(t, Next(s, Step(h)), h, r);
      ls := [Step(h)] + rest;
      ExecCons(s, Step(h), rest);
    }
  }

  // ---------------------------------------------------------------- the others finish

  /** Once the row has its name, this handler will not change it. */
  predicate Spent(t: Tables, s: State, k: nat, r: string)
    requires k in s.handlers
  {
    var x := s.handlers[k];
    if x.event.record.GetOr("") != r then true
    else if About(t, x.event, r) then
      || (x.event.transcript.None? && !x.pc.Repairing?)
      || x.pc.Inserting? || x.pc.Reloading? || x.pc.Refreshing? || x.pc.Enqueuing? || x.pc.Done?
      || ((x.pc.Checking? || x.pc.Recording?) && x.event.message in s.tables.ledger)
    else
      || x.pc.Checking? || x.pc.Recording? || x.pc.Done?
      || (x.pc.Routing? && x.event.record.Some? && x.event.subscription.Some?)
  }

  /** The row of `r` is named for good. */
  ghost predicate Sealed(t: Tables, s: State, r: string, row: Conference) {
    && s.tables.subscriptions == t.subscriptions
    && Content(s.tables, r) == Some(row) && row.transcript.Some?
    && forall k :: k in s.handlers ==> Spent(t, s, k, r)
  }

  lemma SpentStep(t: Tables, s: State, h: nat, r: string, row: Conference)
    requires Running(s, h) && Spent(t, s, h, r) && s.tables.subscriptions == t.subscriptions
    requires Content(s.tables, r) == Some(row) && row.transcript.Some?
    ensures var s' := Next(s, Step(h)); Content(s'.tables, r) == Some(row) && Spent(t, s', h, r)
  {
  }

  lemma SealedStep(t: Tables, s: State, h: nat, r: string, row: Conference)
    requires Sealed(t, s, r, row) && Running(s, h)
    ensures Sealed(t, Next(s, Step(h)), r, row)
  {
    var s' := Next(s, Step(h));
    StepOnly(s, h);
    SpentStep(t, s, h, r, row);
    forall k | k in s'.handlers && k != h ensures Spent(t, s', k, r) {
      assert Spent(t, s, k, r);
    }
  }

  lemma {:induction false} FinishOne(t: Tables, s: State, h: nat, r: string, row: Conference) returns (ls: seq<Label>)
    requires Sealed(t, s, r, row) && h in s.handlers
    ensures AllQuiet(ls)
    ensures var s' := Exec(s, ls); Only(s, s', h) && s'.handlers[h].pc.Done? && Sealed(t, s', r, row)
    decreases Rank(s.handlers[h].pc)
  {
    ls := [];
    if Running(s, h) {
      StepOnly(s, h);
      SealedStep(t, s, h, r, row);
      var rest := FinishOne(t, Next(s, Step(h)), h, r, row);
      ls := [Step(h)] + rest;
      ExecCons(s, Step(h), rest);
    }
  }

  lemma {:induction false} FinishAll(t: Tables, s: State, sel: set<nat>, n: nat, r: string, row: Conference) returns (ls: seq<Label>)
    requires sel <= s.handlers.Keys && Sealed(t, s, r, row)
    ensures AllQuiet(ls) && RanOut(s, Exec(s, ls), sel, n) && Sealed(t, Exec(s, ls), r, row)
  {
    ls := [];
    if n > 0 {
      var before := FinishAll(t, s, sel, n - 1, r, row);
      var s1 := Exec(s, before);
      ls := before;
      if n - 1 in sel {
        var more := FinishOne(t, s1, n - 1, r, row);
        OneMore(s, s1, Exec(s1, more), sel, n - 1);
        ExecAppend(s, before, more);
        ls := before + more;
      }
    }
  }

  // ---------------------------------------------------------------- the whole schedule

  lemma CarriedIsDelivered(f: State, es: seq<Event>)
    requires Carried(f, es)
    ensures Delivers(f, es)
  {
    var order := seq(|es|, i requires 0 <= i < |es| => i);
    forall h: nat ensures h in order <==> h in f.handlers {
      if h < |es| { assert order[h] == h; }
    }
    assert Lists(f, order);
    assert EventsOf(f, order) == es;
  }

  /** The entries that name the record have been delivered, the others not. */
  ghost predicate OnlyNamers(t: Tables, es: seq<Event>, s: State, r: string) {
    && SameRoutes(t, s)
    && (forall h: nat :: h in s.handlers <==> h < |es| && Names(t, es[h], r))
    && (forall h: nat :: h in s.handlers ==> s.handlers[h].event == es[h])
  }

  lemma HoldNamers(t: Tables, es: seq<Event>, r: string, m: string) returns (ls: seq<Label>)
    requires r !in t.conferences && m !in t.ledger
    ensures AllQuiet(ls)
    ensures var s := Exec(Start(t), ls);
            && OnlyNamers(t, es, s, r) && r !in s.tables.conferences && m !in s.tables.ledger
            && (forall h: nat :: h in s.handlers ==> if es[h].message == m then s.handlers[h].pc.Checking? else Held(s.handlers[h].pc))
  {
    var namers := set h: nat | h < |es| && Names(t, es[h], r);
    var others := set h: nat | h < |es| && Names(t, es[h], r) && es[h].message != m;
    var add := AddAll(Start(t), es, namers, |es|);
    var s1 := Exec(Start(t), add);
    var hold := HoldAll(t, s1, others, |es|, r, m);
    ExecAppend(Start(t), add, hold);
    ls := add + hold;
  }

  lemma WinAmongNamers(t: Tables, es: seq<Event>, s: State, b: nat, r: string) returns (ls: seq<Label>)
    requires Sound(t) && b < |es| && Names(t, es[b], r) && OnlyNamers(t, es, s, r)
    requires r !in s.tables.conferences && es[b].message !in s.tables.ledger
    requires forall h: nat :: h in s.handlers ==> if es[h].message == es[b].message then s.handlers[h].pc.Checking? else Held(s.handlers[h].pc)
    ensures AllQuiet(ls) && OnlyNamers(t, es, Exec(s, ls), r) && Sealed(t, Exec(s, ls), r, WonBy(t, es[b]))
  {
    ls := Win(t, s, b, r);
    var s' := Exec(s, ls);
    forall k | k in s'.handlers ensures Spent(t, s', k, r) && s'.handlers[k].event == es[k] {
      assert k != b ==> s'.handlers[k] == s.handlers[k];
    }
  }

  /** The namers have answered and nothing else is delivered. */
  ghost predicate NamersDone(t: Tables, es: seq<Event>, s: State, r: string) {
    OnlyNamers(t, es, s, r) && AllDone(s)
  }

  lemma RunNamers(t: Tables, es: seq<Event>, b: nat, r: string) returns (ls: seq<Label>)
    requires Sound(t) && b < |es| && NamesNew(t, es, es[b]) && r == es[b].record.value
    ensures AllQuiet(ls) && NamersDone(t, es, Exec(Start(t), ls), r) && Sealed(t, Exec(Start(t), ls), r, WonBy(t, es[b]))
  {
    var hold := HoldNamers(t, es, r, es[b].message);
    var s := Exec(Start(t), hold);
    var win := WinAmongNamers(t, es, s, b, r);
    var s1 := Exec(s, win);
    var namers := set h: nat | h < |es| && Names(t, es[h], r);
    var finish := FinishAll(t, s1, namers, |es|, r, WonBy(t, es[b]));
    Chain(Start(t), hold, win, finish);
    ls := hold + win + finish;
  }

  lemma RunRest(t: Tables, es: seq<Event>, s: State, r: string, row: Conference) returns (ls: seq<Label>)
    requires NamersDone(t, es, s, r) && Sealed(t, s, r, row)
    ensures AllQuiet(ls)
    ensures var f := Exec(s, ls); AllDone(f) && Carried(f, es) && Content(f.tables, r) == Some(row)
  {
    var rest := set h: nat | h < |es| && !Names(t, es[h], r);
    var add := AddAll(s, es, rest, |es|);
    var s1 := Exec(s, add);
    RestIsSealed(t, es, s, s1, r, row);
    var finish := FinishAll(t, s1, s1.handlers.Keys, |es|, r, row);
    ExecAppend(s, add, finish);
    ls := add + finish;
  }

  lemma RestIsSealed(t: Tables, es: seq<Event>, s: State, s1: State, r: string, row: Conference)
    requires NamersDone(t, es, s, r) && Sealed(t, s, r, row)
    requires Added(s, s1, es, set h: nat | h < |es| && !Names(t, es[h], r), |es|)
    ensures Sealed(t, s1, r, row) && Carried(s1, es)
  {
    var rest := set h: nat | h < |es| && !Names(t, es[h], r);
    forall h: nat | h in s1.handlers ensures h < |es| && s1.handlers[h].event == es[h] && Spent(t, s1, h, r) {
      if h in s.handlers { assert Spent(t, s, h, r); } else { assert h in rest; }
    }
    forall h: nat | h < |es| ensures h in s1.handlers {
      if h !in s.handlers { assert h in rest; }
    }
  }

  lemma Chain(s: State, a: seq<Label>, b: seq<Label>, c: seq<Label>)
    requires AllQuiet(a) && AllQuiet(b) && AllQuiet(c)
    ensures AllQuiet(a + b + c) && Exec(s, a + b + c) == Exec(Exec(Exec(s, a), b), c)
  {
    ExecAppend(s, a, b);
    ExecAppend(s, a + b, c);
  }

  /** Whoever names the record has answered before anybody else is delivered. */
  ghost predicate NamersPrecede(t: Tables, es: seq<Event>, s: State, ls: seq<Label>, r: string) {
    forall h: nat, k: nat :: h < |es| && k < |es| && Names(t, es[h], r) && !Names(t, es[k], r) ==> Precedes(s, ls, h, k)
  }

  lemma NamersAreEarly(t: Tables, es: seq<Event>, before: seq<Label>, after: seq<Label>, r: string)
    requires NamersDone(t, es, Exec(Start(t), before), r)
    ensures NamersPrecede(t, es, Start(t), before + after, r)
  {
    var ls := before + after;
    assert ls[..|before|] == before;
    forall h: nat, k: nat | h < |es| && k < |es| && Names(t, es[h], r) && !Names(t, es[k], r)
      ensures Precedes(Start(t), ls, h, k)
    {
      assert Answered(Exec(Start(t), ls[..|before|]), h) && k !in Exec(Start(t), ls[..|before|]).handlers;
    }
  }

  /** Whatever else is delivered, an event that names a transcript for a new record can win
      both columns of the row, before anything that does not name the record is delivered. */
  lemma RaceRun(t: Tables, es: seq<Event>, b: nat) returns (ls: seq<Label>)
    requires Sound(t) && b < |es| && NamesNew(t, es, es[b])
    ensures Complete(t, ls) && Carried(Exec(Start(t), ls), es) && Delivers(Exec(Start(t), ls), es)
    ensures Content(Exec(Start(t), ls).tables, es[b].record.value) == Some(WonBy(t, es[b]))
    ensures NamersPrecede(t, es, Start(t), ls, es[b].record.value)
  {
    var r := es[b].record.value;
    var before := RunNamers(t, es, b, r);
    var s := Exec(Start(t), before);
    var after := RunRest(t, es, s, r, WonBy(t, es[b]));
    ExecAppend(Start(t), before, after);
    NamersAreEarly(t, es, before, after, r);
    ls := before + after;
    CarriedIsDelivered(Exec(Start(t), ls), es);
  }

  // ---------------------------------------------------------------- no order leaves that row

  /** In a sequential run of new messages whose row is `WonBy(t, b)`, somebody shares a
      column with `b` or nobody names another transcript. */
  lemma WonSequentially(t: Tables, d: seq<Event>, b: Event)
    requires NamesNew(t, d, b) && Fresh(t, d) && Expected(t, d, b.record.value) == Some(WonBy(t, b))
    ensures Shared(t, d, b)
  {
    var r := b.record.value;
    var i := FirstConnectionIndex(t, d, r);
    var k := LastNameIndex(t, d, r);
    if d[i].message != b.message {
      assert Rival(t, d, d[i], b);
    } else if d[k].message != b.message {
      assert Rival(t, d, d[k], b);
    } else {
      assert i == k;
      forall a | Rival(t, d, a, b) ensures a.transcript.None? {
        var j :| 0 <= j < |d| && d[j] == a;
        assert j > i;
      }
    }
  }

  lemma SharedBySame(t: Tables, es: seq<Event>, d: seq<Event>, b: Event)
    requires Routed(t, b) && Shared(t, d, b)
    requires forall e :: e in d <==> e in es && e.message !in t.ledger
    ensures Shared(t, es, b)
  {
    forall a ensures Rival(t, es, a, b) <==> Rival(t, d, a, b) {}
  }

  /** A lone winner's row is that of no sequential order. */
  lemma LoneWinnerIsNotSequential(t: Tables, es: seq<Event>, b: Event, f: State, order: seq<nat>)
    requires Sound(t) && IdsIdentify(es) && NamesNew(t, es, b) && !Shared(t, es, b)
    requires Delivers(f, es) && Content(f.tables, b.record.value) == Some(WonBy(t, b)) && Lists(f, order)
    ensures !SameConferences(f.tables, HandleAll(t, EventsOf(f, order)))
  {
    var fs := EventsOf(f, order);
    var d := Distinct(t, fs);
    SameDelivered(f, es, order);
    DistinctIsFresh(t, fs);
    RedeliveriesVanish(t, fs);
    SerialForm(t, d, b.record.value);
    forall e ensures e in d <==> e in es && e.message !in t.ledger {
      DistinctEvents(t, fs, e);
    }
    if Expected(t, d, b.record.value) == Some(WonBy(t, b)) {
      WonSequentially(t, d, b);
      SharedBySame(t, es, d, b);
    }
  }

  lemma SameDelivered(f: State, es: seq<Event>, order: seq<nat>)
    requires Delivers(f, es) && Lists(f, order) && IdsIdentify(es)
    ensures SameEvents(es, EventsOf(f, order)) && IdsIdentify(EventsOf(f, order))
  {
    DeliversAre(f, es);
    ListedAreDelivered(f, order, es);
    SameIdentify(es, EventsOf(f, order));
  }

  lemma SameIdentify(es: seq<Event>, fs: seq<Event>)
    requires SameEvents(es, fs) && IdsIdentify(es)
    ensures IdsIdentify(fs)
  {
    forall i, j | 0 <= i < |fs| && 0 <= j < |fs| && fs[i].message == fs[j].message ensures fs[i] == fs[j] {
      assert fs[i] in es && fs[j] in es;
    }
  }

  lemma DeliversAre(f: State, es: seq<Event>)
    requires Delivers(f, es)
    ensures DeliveredAre(f, es)
  {
    var order :| Lists(f, order) && EventsOf(f, order) == es;
    forall e: Event ensures e in es <==> exists h :: h in f.handlers && f.handlers[h].event == e {
      if e in es {
        var i :| 0 <= i < |es| && es[i] == e;
        assert f.handlers[order[i]].event == e;
      }
      if h :| h in f.handlers && f.handlers[h].event == e {
        assert h in order;
        var i :| 0 <= i < |order| && order[i] == h;
        assert es[i] == e;
      }
    }
  }

  /** An event that shares neither column while others name another transcript has a
      schedule whose conferences no order of the same deliveries leaves. */
  lemma LoneWinnerBreaks(t: Tables, es: seq<Event>, b: Event) returns (ls: seq<Label>)
    requires Sound(t) && IdsIdentify(es) && NamesNew(t, es, b) && !Shared(t, es, b)
    ensures var f := Exec(Start(t), ls);
            && Complete(t, ls) && Delivers(f, es)
            && forall order :: Lists(f, order) ==> !SameConferences(f.tables, HandleAll(t, EventsOf(f, order)))
  {
    var i :| 0 <= i < |es| && es[i] == b;
    ls := RaceRun(t, es, i);
    var f := Exec(Start(t), ls);
    forall order | Lists(f, order) ensures !SameConferences(f.tables, HandleAll(t, EventsOf(f, order))) {
      LoneWinnerIsNotSequential(t, es, b, f, order);
    }
  }

  /** The boundary: every complete interleaving of a stream of deliveries is replayed by a
      sequential order if and only if no event can be a lone winner. */
  lemma SerialisableIffNoLoneWinner(t: Tables, es: seq<Event>)
    requires Sound(t) && IdsIdentify(es)
    ensures Serialisable(t, es) <==> NoLoneWinner(t, es)
  {
    if NoLoneWinner(t, es) {
      forall ls | Complete(t, ls) && Delivers(Exec(Start(t), ls), es)
        ensures exists order :: Replays(t, Exec(Start(t), ls), order)
      {
        DeliversAre(Exec(Start(t), ls), es);
        var order := NoLoneWinnerSuffices(t, ls, es);
      }
    } else {
      var b :| NamesNew(t, es, b) && !Shared(t, es, b);
      var ls := LoneWinnerBreaks(t, es, b);
      assert forall order :: Replays(t, Exec(Start(t), ls), order) ==> Lists(Exec(Start(t), ls), order);
    }
  }

  // ---------------------------------------------------------------- how far the condition reaches

  /** Agreement on the connection is one way to have no lone winner. */
  lemma AgreementIsEnough(t: Tables, es: seq<Event>)
    requires AgreeOnConnection(t, es)
    ensures NoLoneWinner(t, es)
  {
    forall b | NamesNew(t, es, b) ensures Shared(t, es, b) {
      if a :| Rival(t, es, a, b) {
        assert ConnectionOf(t, a) == ConnectionOf(t, b);
      }
    }
  }

  const RACE_TABLES := Tables({}, {"a", "b"}, map["sa" := "a", "sb" := "b"], map[], 0)
  const RACE_A := Event("1", Some("r"), Some("sa"), Some("x"))
  const RACE_B := Event("2", Some("r"), Some("sb"), Some("y"))

  /** But not the only way: two connections race harmlessly when one event names nothing. */
  lemma AgreementIsNotNeeded()
    ensures var es := [RACE_A.(transcript := None), RACE_B];
            NoLoneWinner(RACE_TABLES, es) && !AgreeOnConnection(RACE_TABLES, es)
  {
    var a, b := RACE_A.(transcript := None), RACE_B;
    assert a in [a, b] && b in [a, b];
    assert ConnectionOf(RACE_TABLES, a) == "a" && ConnectionOf(RACE_TABLES, b) == "b";
  }

  /** Two connections that race for one new record and name different transcripts can leave
      conferences that no sequential order of the two events leaves. */
  lemma TwoConnectionsAreNotSequential() returns (ls: seq<Label>)
    ensures var f := Exec(Start(RACE_TABLES), ls);
            && Complete(RACE_TABLES, ls) && Delivers(f, [RACE_A, RACE_B])
            && forall order :: Lists(f, order) ==> !SameConferences(f.tables, HandleAll(RACE_TABLES, EventsOf(f, order)))
  {
    var es := [RACE_A, RACE_B];
    assert RACE_A in es && RACE_B in es;
    assert Rival(RACE_TABLES, es, RACE_A, RACE_B);
    LoneWinnerShown(es);
    ls := LoneWinnerBreaks(RACE_TABLES, es, RACE_B);
  }

  lemma LoneWinnerShown(es: seq<Event>)
    requires es == [RACE_A, RACE_B]
    ensures NamesNew(RACE_TABLES, es, RACE_B) && !Shared(RACE_TABLES, es, RACE_B)
  {
    assert es[0] == RACE_A && es[1] == RACE_B;
    assert Rival(RACE_TABLES, es, RACE_A, RACE_B);
    forall a | Rival(RACE_TABLES, es, a, RACE_B) ensures a == RACE_A { }
  }
}
