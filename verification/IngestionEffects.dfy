/** What ingestion leaves in the queue and in the table over every run: jobs are exactly the
    answers, a vanished row is never enqueued, and rows go only with their connection. */
module IngestionEffects {
  import opened Wrappers
  import opened Ingestion
  import IngestionRace

  // ---------------------------------------------------------------- jobs

  /** The handler answered "enqueued" with this id. */
  predicate AnsweredWith(s: State, h: nat, id: nat) {
    h in s.handlers && s.handlers[h].pc == Done(Enqueued(id))
  }

  ghost predicate JobsAreAnswers(s: State) {
    forall h: nat, id: nat :: AnsweredWith(s, h, id) <==> Job(h, id) in s.queue
  }

  lemma NextJobs(s: State, l: Label)
    requires JobsAreAnswers(s)
    ensures JobsAreAnswers(Next(s, l))
  {
    var s' := Next(s, l);
    forall h: nat, id: nat ensures AnsweredWith(s', h, id) <==> Job(h, id) in s'.queue {
      assert AnsweredWith(s, h, id) <==> Job(h, id) in s.queue;
      if l.Step? && Running(s, l.handler) { StepJob(s, l.handler, h, id); }
    }
  }

  lemma StepJob(s: State, k: nat, h: nat, id: nat)
    requires Running(s, k) && (AnsweredWith(s, h, id) <==> Job(h, id) in s.queue)
    ensures var s' := StepHandler(s, k); AnsweredWith(s', h, id) <==> Job(h, id) in s'.queue
  {
    var x := s.handlers[k];
    if x.pc.Enqueuing? { assert forall j :: j in s.queue + [Job(k, x.pc.id)] <==> j in s.queue || j == Job(k, x.pc.id); }
  }

  /** Over every run the queue holds exactly one job for every handler that answered
      "enqueued", with the id it answered, and none besides. */
  lemma QueueIsTheAnswers(s: State, ls: seq<Label>)
    requires Initial(s)
    ensures var f := Exec(s, ls);
            && (forall h: nat, id: nat :: AnsweredWith(f, h, id) <==> Job(h, id) in f.queue)
            && (forall i, j :: 0 <= i < j < |f.queue| ==> f.queue[i] != f.queue[j])
  {
    EveryRunKeeps(s, ls);
    JobsFollow(s, ls);
  }

  lemma {:induction false} JobsFollow(s: State, ls: seq<Label>)
    requires Initial(s)
    ensures JobsAreAnswers(Exec(s, ls))
  {
    if |ls| > 0 {
      JobsFollow(s, ls[..|ls| - 1]);
      NextJobs(Exec(s, ls[..|ls| - 1]), ls[|ls| - 1]);
    }
  }

  // ---------------------------------------------------------------- vanished rows

  /** A handler about to refresh a row that is gone. */
  ghost predicate Stranded(s: State, h: nat, id: nat) {
    && Inv(s) && h in s.handlers && id < s.tables.nextId
    && (s.handlers[h].pc == Refreshing(id) || s.handlers[h].pc == Done(Failed))
    && forall r :: r in s.tables.conferences ==> s.tables.conferences[r].id != id
  }

  lemma StrandedStays(s: State, l: Label, h: nat, id: nat)
    requires Stranded(s, h, id)
    ensures Stranded(Next(s, l), h, id)
  {
    NextKeeps(s, l);
    assert Grows(s.tables, Next(s, l).tables);
  }

  /** A handler whose row has vanished before the refresh never enqueues it: ids do not
      return, so all it can do is fail. */
  lemma VanishedIsNotEnqueued(s: State, before: seq<Label>, after: seq<Label>, h: nat, id: nat)
    requires Initial(s) && h in Exec(s, before).handlers && Exec(s, before).handlers[h].pc == Refreshing(id)
    requires forall r :: r in Exec(s, before).tables.conferences ==> Exec(s, before).tables.conferences[r].id != id
    ensures var f := Exec(s, before + after);
            && h in f.handlers && (f.handlers[h].pc == Refreshing(id) || f.handlers[h].pc == Done(Failed))
            && forall k :: Job(h, k) !in f.queue
  {
    var a := Exec(s, before);
    EveryRunKeeps(s, before);
    assert HandlerOk(a.tables, a.clock, a.handlers[h]);
    StrandedRun(a, after, h, id);
    IngestionRace.ExecAppend(s, before, after);
    QueueIsTheAnswers(s, before + after);
    forall k: nat ensures Job(h, k) !in Exec(s, before + after).queue {
      assert !AnsweredWith(Exec(s, before + after), h, k);
    }
  }

  lemma {:induction false} StrandedRun(s: State, ls: seq<Label>, h: nat, id: nat)
    requires Stranded(s, h, id)
    ensures Stranded(Exec(s, ls), h, id)
  {
    if |ls| > 0 {
      StrandedRun(s, ls[..|ls| - 1], h, id);
      StrandedStays(Exec(s, ls[..|ls| - 1]), ls[|ls| - 1], h, id);
    }
  }

  /** A handler that dies enqueues nothing any more, whatever follows. */
  lemma DeadEnqueuesNothing(s: State, before: seq<Label>, after: seq<Label>, h: nat)
    requires Initial(s) && Running(Exec(s, before), h)
    ensures var f := Exec(s, before + [Crash(h)] + after);
            && h in f.handlers && f.handlers[h].pc == Done(Failed)
            && forall k :: Job(h, k) !in f.queue
  {
    var a := Exec(s, before + [Crash(h)]);
    assert (before + [Crash(h)])[..|before|] == before;
    assert a == Next(Exec(s, before), Crash(h));
    DoneStays(a, after, h);
    IngestionRace.ExecAppend(s, before + [Crash(h)], after);
    QueueIsTheAnswers(s, before + [Crash(h)] + after);
    forall k: nat ensures Job(h, k) !in Exec(s, before + [Crash(h)] + after).queue {
      assert !AnsweredWith(Exec(s, before + [Crash(h)] + after), h, k);
    }
  }

  lemma {:induction false} DoneStays(s: State, ls: seq<Label>, h: nat)
    requires h in s.handlers && s.handlers[h].pc.Done?
    ensures h in Exec(s, ls).handlers && Exec(s, ls).handlers[h] == s.handlers[h]
  {
    if |ls| > 0 { DoneStays(s, ls[..|ls| - 1], h); }
  }

  // ---------------------------------------------------------------- routes

  /** Connections and routes change by the rest of the application alone, never by a handler: a
      route starts with a subscription of a live connection, and ends when it is cancelled or
      its connection goes. */
  lemma RoutesIff(s: State, l: Label, n: string, c: string)
    ensures var t, t' := s.tables, Next(s, l).tables;
            && (c in t'.connections <==> l == Connect(c) || (c in t.connections && l != Disconnect(c)))
            && (n in t'.subscriptions && t'.subscriptions[n] == c <==>
                  || (l == Subscribe(n, c) && c in t.connections)
                  || (n in t.subscriptions && t.subscriptions[n] == c && l != Unsubscribe(n) && l != Disconnect(c)
                      && !(l.Subscribe? && l.subscription == n && l.connection in t.connections)))
  {
  }

  // ---------------------------------------------------------------- rows and connections

  lemma RowKept(s: State, l: Label, r: string)
    requires r in s.tables.conferences && l != Disconnect(s.tables.conferences[r].connection)
    ensures var row := s.tables.conferences[r];
            && HasRow(Next(s, l).tables, r, row.id)
            && Next(s, l).tables.conferences[r].connection == row.connection
  {
  }

  /** A conference goes only when its connection is disconnected, and keeps its connection
      until then, whatever events, redeliveries, deaths and other disconnects come in between. */
  lemma {:induction false} RowsLiveWithConnections(s: State, ls: seq<Label>, r: string)
    requires r in s.tables.conferences
    requires forall i :: 0 <= i < |ls| ==> ls[i] != Disconnect(s.tables.conferences[r].connection)
    ensures HasRow(Exec(s, ls).tables, r, s.tables.conferences[r].id)
    ensures Exec(s, ls).tables.conferences[r].connection == s.tables.conferences[r].connection
  {
    if |ls| > 0 {
      RowsLiveWithConnections(s, ls[..|ls| - 1], r);
      RowKept(Exec(s, ls[..|ls| - 1]), ls[|ls| - 1], r);
    }
  }

  /** And with its connection it goes, together with all others of that connection; nothing of
      another connection does. */
  lemma DisconnectTakesItsOwn(s: State, c: string)
    ensures var t, t' := s.tables, Next(s, Disconnect(c)).tables;
            && t'.ledger == t.ledger && t'.nextId == t.nextId && c !in t'.connections
            && (forall d :: d != c ==> (d in t'.connections <==> d in t.connections))
            && (forall r :: r in t'.conferences <==> r in t.conferences && t.conferences[r].connection != c)
            && (forall r :: r in t'.conferences ==> t'.conferences[r] == t.conferences[r])
            && (forall n :: n in t'.subscriptions <==> n in t.subscriptions && t.subscriptions[n] != c)
            && (forall n :: n in t'.subscriptions ==> t'.subscriptions[n] == t.subscriptions[n])
  {
  }
}
