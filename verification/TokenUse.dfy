/** What callers of the token cache may rely on under every interleaving: how old a returned
    token can be, when the provider is contacted, and what a refresh may overwrite. */
module TokenUse {
  import opened Wrappers
  import opened TokenCache

  /** The row holds this token with more than a minute left. */
  ghost predicate Lasts(row: Row, token: Option<string>, now: int) {
    token.Some? && row.access == token && exists expiry :: row.expiry == Some(expiry) && expiry > now + 60
  }

  /** At some moment of the run the row of `c` held the token with more than a minute left. */
  ghost predicate WasUsable(s0: State, ls: seq<Label>, c: string, token: Option<string>) {
    exists n :: 0 <= n <= |ls| && c in Exec(s0, ls[..n]).rows && Lasts(Exec(s0, ls[..n]).rows[c], token, Exec(s0, ls[..n]).now)
  }

  /** At some moment of the run this was the row of `c`. */
  ghost predicate WasRow(s0: State, ls: seq<Label>, c: string, row: Row) {
    exists n :: 0 <= n <= |ls| && c in Exec(s0, ls[..n]).rows && Exec(s0, ls[..n]).rows[c] == row
  }

  ghost predicate Called(s: State, t: nat) {
    exists i :: 0 <= i < |s.calls| && s.calls[i].task == t
  }

  /** The call was made by a step taken while the row held no token with more than a minute left. */
  ghost predicate WasNeeded(s0: State, ls: seq<Label>, x: Contact) {
    exists n :: 0 <= n < |ls| && ls[n] == Step(x.task) && x.connection in Exec(s0, ls[..n]).rows
                && (forall token :: !Lasts(Exec(s0, ls[..n]).rows[x.connection], token, Exec(s0, ls[..n]).now))
  }

  ghost predicate TaskHonest(s0: State, ls: seq<Label>, t: nat)
    requires t in Exec(s0, ls).tasks
  {
    var x := Exec(s0, ls).tasks[t];
    && (x.pc.Entering? ==> WasRow(s0, ls, x.connection, x.copy))
    && (Refreshing(x.pc) ==> Called(Exec(s0, ls), t))
    && (x.pc.Finished? && x.pc.result.Returned? ==>
          WasUsable(s0, ls, x.connection, x.pc.result.token) || Called(Exec(s0, ls), t))
  }

  ghost predicate Honest(s0: State, ls: seq<Label>) {
    && (forall t :: t in Exec(s0, ls).tasks ==> TaskHonest(s0, ls, t))
    && (forall i :: 0 <= i < |Exec(s0, ls).calls| ==> WasNeeded(s0, ls, Exec(s0, ls).calls[i]))
  }

  lemma FreshLasts(row: Row, now: int)
    ensures Fresh(row, now) ==> Lasts(row, row.access, now)
    ensures !Fresh(row, now) ==> forall token :: !Lasts(row, token, now)
  {
    if Fresh(row, now) { assert row.expiry == Some(row.expiry.value); }
  }

  lemma {:induction false} TimePasses(s0: State, ls: seq<Label>, n: nat)
    requires n <= |ls|
    ensures Exec(s0, ls[..n]).now <= Exec(s0, ls).now
  {
    if n == |ls| {
      assert ls[..n] == ls;
    } else {
      var m := |ls| - 1;
      assert ls[..m][..n] == ls[..n];
      TimePasses(s0, ls[..m], n);
    }
  }

  /** A copy that is still fresh was usable when it was the row. */
  lemma FreshCopy(s0: State, ls: seq<Label>, c: string, row: Row)
    requires WasRow(s0, ls, c, row) && Fresh(row, Exec(s0, ls).now)
    ensures WasUsable(s0, ls, c, row.access)
  {
    var n :| 0 <= n <= |ls| && c in Exec(s0, ls[..n]).rows && Exec(s0, ls[..n]).rows[c] == row;
    TimePasses(s0, ls, n);
    FreshLasts(row, Exec(s0, ls[..n]).now);
  }

  lemma NowIsMoment(s0: State, ls: seq<Label>, c: string)
    requires c in Exec(s0, ls).rows
    ensures WasRow(s0, ls, c, Exec(s0, ls).rows[c])
  {
    assert ls[..|ls|] == ls;
  }

  lemma MomentsStay(s0: State, ls: seq<Label>, l: Label, c: string, token: Option<string>, row: Row)
    ensures WasUsable(s0, ls, c, token) ==> WasUsable(s0, ls + [l], c, token)
    ensures WasRow(s0, ls, c, row) ==> WasRow(s0, ls + [l], c, row)
  {
    if n :| 0 <= n <= |ls| && c in Exec(s0, ls[..n]).rows && Lasts(Exec(s0, ls[..n]).rows[c], token, Exec(s0, ls[..n]).now) {
      assert (ls + [l])[..n] == ls[..n];
    }
    if n :| 0 <= n <= |ls| && c in Exec(s0, ls[..n]).rows && Exec(s0, ls[..n]).rows[c] == row {
      assert (ls + [l])[..n] == ls[..n];
    }
  }

  lemma NeedStays(s0: State, ls: seq<Label>, l: Label, x: Contact)
    requires WasNeeded(s0, ls, x)
    ensures WasNeeded(s0, ls + [l], x)
  {
    var n :| 0 <= n < |ls| && ls[n] == Step(x.task) && x.connection in Exec(s0, ls[..n]).rows
             && (forall token :: !Lasts(Exec(s0, ls[..n]).rows[x.connection], token, Exec(s0, ls[..n]).now));
    assert (ls + [l])[..n] == ls[..n];
  }

  // ---------------------------------------------------------------- one more label

  /** A task ends: nothing moves but it and its lock. */
  lemma LeaveDoes(s: State, t: nat, result: TokenCache.Result)
    requires t in s.tasks
    ensures var s' := Leave(s, t, result);
            && s'.rows == s.rows && s'.dead == s.dead && s'.calls == s.calls && s'.tasks.Keys == s.tasks.Keys
            && (forall u :: u in s.tasks && u != t ==> s'.tasks[u] == s.tasks[u])
            && s'.tasks[t] == s.tasks[t].(pc := Finished(result))
  {
  }

  lemma MoveDoes(s: State, t: nat, pc: Pc)
    requires t in s.tasks
    ensures var s' := Move(s, t, pc);
            && s'.rows == s.rows && s'.dead == s.dead && s'.calls == s.calls && s'.tasks.Keys == s.tasks.Keys
            && (forall u :: u in s.tasks && u != t ==> s'.tasks[u] == s.tasks[u])
            && s'.tasks[t] == s.tasks[t].(pc := pc)
  {
  }

  /** What a step can do to the rows. */
  lemma StepRows(s: State, t: nat)
    requires t in s.tasks
    ensures var x, s' := s.tasks[t], StepTask(s, t);
            || (s'.rows == s.rows && s'.dead == s.dead)
            || (x.pc.Revoking? && s'.rows == s.rows - {x.connection} && s'.dead == s.dead + {x.connection})
            || (&& x.connection in s.rows && s'.dead == s.dead
                && exists row: Row :: row.refreshEncrypted == s.rows[x.connection].refreshEncrypted && s'.rows == s.rows[x.connection := row])
  {
    var x := s.tasks[t];
    match x.pc
    case Entering => EnterRows(s, t);
    case Reloading(_) => LeaveDoes(s, t, Vanished);
    case Storing(_, token, expiry) =>
      var changed := x.copy.(access := Some(token), expiry := Some(expiry), status := Active);
      if x.connection in s.rows {
        assert StepTask(s, t).rows == s.rows[x.connection := Merged(s.rows[x.connection], x.copy, changed)];
      } else if changed != x.copy { LeaveDoes(s, t, Vanished); }
    case Rejecting(_) => RejectRows(s, t);
    case Rereading(_) => LeaveDoes(s, t, Vanished);
    case Popping => LeaveDoes(s.(locks := s.locks - {x.connection}), t, Deleted);
    case _ =>
  }

  lemma EnterRows(s: State, t: nat)
    requires t in s.tasks
    ensures Enter(s, t).rows == s.rows && Enter(s, t).dead == s.dead && Enter(s, t).calls == s.calls
    ensures Enter(s, t).tasks.Keys == s.tasks.Keys && forall u :: u in s.tasks && u != t ==> Enter(s, t).tasks[u] == s.tasks[u]
    ensures var x, x' := s.tasks[t], Enter(s, t).tasks[t];
            && x'.connection == x.connection && x'.copy == x.copy
            && (x'.pc.Waiting? || x'.pc == Finished(Permanent)
                || (Fresh(x.copy, s.now) && x'.pc == Finished(Returned(x.copy.access))))
  {
    var x := s.tasks[t];
    LeaveDoes(s, t, Permanent);
    LeaveDoes(s, t, Returned(x.copy.access));
    if x.connection in s.locks {
      MoveDoes(s, t, Waiting(s.locks[x.connection]));
    } else {
      MoveDoes(s.(locks := s.locks[x.connection := s.nextLock], owners := s.owners[s.nextLock := x.connection],
                  nextLock := s.nextLock + 1), t, Waiting(s.nextLock));
    }
  }

  lemma RejectRows(s: State, t: nat)
    requires t in s.tasks && s.tasks[t].pc.Rejecting?
    ensures var x, s' := s.tasks[t], StepTask(s, t);
            && s'.dead == s.dead && s'.calls == s.calls
            && (s'.rows == s.rows
                || (x.connection in s.rows && s'.rows == s.rows[x.connection := Merged(s.rows[x.connection], x.copy, x.copy.(status := NeedsReconnect))]))
            && (s'.tasks[t].pc == Finished(Vanished) || s'.tasks[t].pc == Finished(Permanent))
  {
    var x := s.tasks[t];
    LeaveDoes(s, t, Vanished);
    LeaveDoes(Flush(s, x.connection, x.copy, x.copy.(status := NeedsReconnect)), t, Permanent);
  }

  /** A step adds a call only where a reloading task finds no usable token. */
  lemma StepCalls(s: State, t: nat)
    requires t in s.tasks
    ensures var x, s' := s.tasks[t], StepTask(s, t);
            || s'.calls == s.calls
            || (&& x.pc.Reloading? && x.connection in s.rows && !Fresh(s.rows[x.connection], s.now)
                && s'.calls == s.calls + [Contact(t, x.connection)])
  {
    var x := s.tasks[t];
    match x.pc
    case Entering => EnterRows(s, t);
    case Reloading(l) =>
      LeaveDoes(s, t, Vanished);
      if x.connection in s.rows { LeaveDoes(s, t, Returned(s.rows[x.connection].access)); }
    case Storing(_, _, _) => LeaveDoes(s, t, Vanished);
    case Rejecting(_) => RejectRows(s, t);
    case Rereading(_) =>
      LeaveDoes(s, t, Vanished);
      if x.connection in s.rows { LeaveDoes(s, t, Returned(s.rows[x.connection].access)); }
    case Popping => LeaveDoes(s.(locks := s.locks - {x.connection}), t, Deleted);
    case _ =>
  }

  /** Calls are only added. */
  lemma CallsGrow(s: State, l: Label)
    ensures var s' := Next(s, l);
            || s'.calls == s.calls
            || (&& l.Step? && l.task in s.tasks && s.tasks[l.task].pc.Reloading? && s.tasks[l.task].connection in s.rows
                && !Fresh(s.rows[s.tasks[l.task].connection], s.now)
                && s'.calls == s.calls + [Contact(l.task, s.tasks[l.task].connection)])
  {
    match l
    case Step(t) => if t in s.tasks { StepCalls(s, t); }
    case Fail(t) => if t in s.tasks { LeaveDoes(s, t, Transient); }
    case Abort(t) => if t in s.tasks { LeaveDoes(s, t, Aborted); }
    case _ =>
  }

  lemma CalledStays(s: State, l: Label, t: nat)
    requires Called(s, t)
    ensures Called(Next(s, l), t)
  {
    CallsGrow(s, l);
    var i :| 0 <= i < |s.calls| && s.calls[i].task == t;
    assert Next(s, l).calls[i] == s.calls[i];
  }

  lemma RejectMoves(s: State, t: nat)
    requires t in s.tasks && s.tasks[t].pc.Rejecting?
    ensures var x, s' := s.tasks[t], StepTask(s, t);
            && s'.tasks.Keys == s.tasks.Keys && (forall u :: u in s.tasks && u != t ==> s'.tasks[u] == s.tasks[u])
            && s'.tasks[t].connection == x.connection
            && (s'.tasks[t].pc == Finished(Vanished) || s'.tasks[t].pc == Finished(Permanent))
  {
    var x := s.tasks[t];
    LeaveDoes(s, t, Vanished);
    LeaveDoes(Flush(s, x.connection, x.copy, x.copy.(status := NeedsReconnect)), t, Permanent);
  }

  lemma ReloadMoves(s: State, t: nat)
    requires t in s.tasks && s.tasks[t].pc.Reloading?
    ensures var x, s' := s.tasks[t], StepTask(s, t);
            && s'.tasks.Keys == s.tasks.Keys && (forall u :: u in s.tasks && u != t ==> s'.tasks[u] == s.tasks[u])
            && s'.tasks[t].connection == x.connection
            && (|| s'.tasks[t].pc == Finished(Vanished) || s'.tasks[t].pc.Contacting?
                || (&& x.connection in s.rows && Fresh(s.rows[x.connection], s.now)
                    && s'.tasks[t].pc == Finished(Returned(s.rows[x.connection].access))))
  {
    var x := s.tasks[t];
    LeaveDoes(s, t, Vanished);
    if x.connection in s.rows {
      LeaveDoes(s, t, Returned(s.rows[x.connection].access));
      MoveDoes(Load(s, t), t, Contacting(x.pc.lock));
    }
  }

  lemma StoreMoves(s: State, t: nat)
    requires t in s.tasks && s.tasks[t].pc.Storing?
    ensures var x, s' := s.tasks[t], StepTask(s, t);
            && s'.tasks.Keys == s.tasks.Keys && (forall u :: u in s.tasks && u != t ==> s'.tasks[u] == s.tasks[u])
            && s'.tasks[t].connection == x.connection
            && (s'.tasks[t].pc == Finished(Vanished) || s'.tasks[t].pc.Rereading?)
  {
    var x := s.tasks[t];
    var changed := x.copy.(access := Some(x.pc.token), expiry := Some(x.pc.expiry), status := Active);
    LeaveDoes(s, t, Vanished);
    MoveDoes(Flush(s, x.connection, x.copy, changed), t, Rereading(x.pc.lock));
  }

  /** Where a step takes its task. */
  lemma StepMoves(s: State, t: nat)
    requires t in s.tasks
    ensures var x, s' := s.tasks[t], StepTask(s, t);
            && s'.tasks.Keys == s.tasks.Keys && (forall u :: u in s.tasks && u != t ==> s'.tasks[u] == s.tasks[u])
            && var x' := s'.tasks[t];
               && x'.connection == x.connection && !x'.pc.Entering?
               && (x'.pc == Finished(Deleted) ==> x.pc.Popping? || x.pc == Finished(Deleted))
               && (Refreshing(x'.pc) ==> Refreshing(x.pc) || x.pc.Reloading?)
               && (x'.pc.Finished? && x'.pc.result.Returned? ==> ReturnsFrom(s, x, x'.pc.result.token))
  {
    var x := s.tasks[t];
    match x.pc
    case Entering => EnterRows(s, t);
    case Waiting(l) => MoveDoes(s.(holders := s.holders[l := t]), t, Reloading(l));
    case Reloading(l) => ReloadMoves(s, t);
    case Storing(_, _, _) => StoreMoves(s, t);
    case Rejecting(_) => RejectMoves(s, t);
    case Revoking => MoveDoes(s.(rows := s.rows - {x.connection}, dead := s.dead + {x.connection}), t, Popping);
    case Rereading(_) =>
      LeaveDoes(s, t, Vanished);
      if x.connection in s.rows { LeaveDoes(s, t, Returned(s.rows[x.connection].access)); }
    case Popping => LeaveDoes(s.(locks := s.locks - {x.connection}), t, Deleted);
    case _ =>
  }

  /** The labels that move no task by a step of its own. */
  lemma AnswerMoves(s: State, l: Label, t: nat)
    requires !l.Step? && t in Next(s, l).tasks
    ensures var x := Next(s, l).tasks[t];
            if t in s.tasks then
              && x.connection == s.tasks[t].connection
              && (x.pc.Entering? ==> x == s.tasks[t])
              && (Refreshing(x.pc) ==> Refreshing(s.tasks[t].pc))
              && (x.pc.Finished? ==> x == s.tasks[t] || x.pc.result.Transient? || x.pc.result.Aborted?)
            else
              x.connection in s.rows && x.copy == s.rows[x.connection] && (x.pc.Entering? || x.pc.Revoking?)
  {
    match l
    case Fail(u) => if u in s.tasks { LeaveDoes(s, u, Transient); }
    case Abort(u) => if u in s.tasks { LeaveDoes(s, u, Aborted); }
    case _ =>
  }

  /** How one label can bring a task to one of the places that promise something. */
  lemma TaskMoves(s: State, l: Label, t: nat)
    requires t in Next(s, l).tasks
    ensures var s' := Next(s, l);
            var x := s'.tasks[t];
            && (x.pc.Entering? ==> if t in s.tasks then x == s.tasks[t] else x.connection in s.rows && x.copy == s.rows[x.connection])
            && (t in s.tasks ==> x.connection == s.tasks[t].connection)
            && (Refreshing(x.pc) ==> t in s.tasks && (Refreshing(s.tasks[t].pc) || Called(s', t)))
            && (x.pc.Finished? && x.pc.result.Returned? ==> t in s.tasks && ReturnsFrom(s, s.tasks[t], x.pc.result.token))
  {
    if l.Step? {
      if l.task in s.tasks {
        StepMoves(s, l.task);
        CallsGrow(s, l);
        if s.tasks[l.task].pc.Reloading? && Refreshing(StepTask(s, l.task).tasks[l.task].pc) { ReloadCalls(s, l.task); }
      }
    } else {
      AnswerMoves(s, l, t);
    }
  }

  /** Where a returned token comes from. */
  ghost predicate ReturnsFrom(s: State, x: Task, token: Option<string>) {
    || (x.pc.Entering? && Fresh(x.copy, s.now) && token == x.copy.access)
    || (x.pc.Reloading? && x.connection in s.rows && Fresh(s.rows[x.connection], s.now) && token == s.rows[x.connection].access)
    || x.pc.Rereading?
    || (x.pc.Finished? && x.pc.result == Returned(token))
  }

  lemma ReloadCalls(s: State, t: nat)
    requires t in s.tasks && s.tasks[t].pc.Reloading? && Refreshing(StepTask(s, t).tasks[t].pc)
    ensures Called(StepTask(s, t), t)
  {
    LeaveDoes(s, t, Vanished);
    assert StepTask(s, t).calls[|s.calls|].task == t;
  }

  lemma ReturnHonest(s0: State, ls: seq<Label>, t: nat, token: Option<string>)
    requires t in Exec(s0, ls).tasks && TaskHonest(s0, ls, t) && ReturnsFrom(Exec(s0, ls), Exec(s0, ls).tasks[t], token)
    ensures WasUsable(s0, ls, Exec(s0, ls).tasks[t].connection, token) || Called(Exec(s0, ls), t)
  {
    var s := Exec(s0, ls);
    var x := s.tasks[t];
    if x.pc.Entering? {
      FreshCopy(s0, ls, x.connection, x.copy);
    } else if x.pc.Reloading? {
      NowIsMoment(s0, ls, x.connection);
      FreshCopy(s0, ls, x.connection, s.rows[x.connection]);
    }
  }

  lemma ExecSnoc(s0: State, ls: seq<Label>, l: Label)
    ensures Exec(s0, ls + [l]) == Next(Exec(s0, ls), l)
  {
    assert (ls + [l])[..|ls|] == ls;
  }

  lemma OneTaskHonest(s0: State, ls: seq<Label>, l: Label, t: nat)
    requires Honest(s0, ls) && t in Exec(s0, ls + [l]).tasks
    ensures TaskHonest(s0, ls + [l], t)
  {
    var s := Exec(s0, ls);
    ExecSnoc(s0, ls, l);
    TaskMoves(s, l, t);
    var x := Next(s, l).tasks[t];
    if t in s.tasks {
      assert TaskHonest(s0, ls, t);
      if Called(s, t) { CalledStays(s, l, t); }
      if x.pc.Finished? && x.pc.result.Returned? {
        ReturnHonest(s0, ls, t, x.pc.result.token);
        MomentsStay(s0, ls, l, x.connection, x.pc.result.token, x.copy);
      }
    } else if x.pc.Entering? {
      NowIsMoment(s0, ls, x.connection);
    }
    if x.pc.Entering? { MomentsStay(s0, ls, l, x.connection, None, x.copy); }
  }

  lemma OneCallNeeded(s0: State, ls: seq<Label>, l: Label, i: nat)
    requires Honest(s0, ls) && i < |Exec(s0, ls + [l]).calls|
    ensures WasNeeded(s0, ls + [l], Exec(s0, ls + [l]).calls[i])
  {
    var s := Exec(s0, ls);
    ExecSnoc(s0, ls, l);
    CallsGrow(s, l);
    if i < |s.calls| {
      NeedStays(s0, ls, l, s.calls[i]);
    } else {
      FreshLasts(s.rows[s.tasks[l.task].connection], s.now);
      assert (ls + [l])[..|ls|] == ls && (ls + [l])[|ls|] == l;
    }
  }

  lemma {:induction false} AlwaysHonest(s0: State, ls: seq<Label>)
    requires Initial(s0)
    ensures Honest(s0, ls)
  {
    if |ls| > 0 {
      var before, l := ls[..|ls| - 1], ls[|ls| - 1];
      AlwaysHonest(s0, before);
      assert ls == before + [l];
      forall t | t in Exec(s0, ls).tasks ensures TaskHonest(s0, ls, t) { OneTaskHonest(s0, before, l, t); }
      forall i | 0 <= i < |Exec(s0, ls).calls| ensures WasNeeded(s0, ls, Exec(s0, ls).calls[i]) { OneCallNeeded(s0, before, l, i); }
    }
  }

  /** Whatever interleaves, a task that returns a token either asked the provider itself or
      returns one that the row held, during the run, with more than a minute left. */
  lemma ReturnedTokenWasUsable(s0: State, ls: seq<Label>, t: nat)
    requires Initial(s0) && t in Exec(s0, ls).tasks
    requires Exec(s0, ls).tasks[t].pc.Finished? && Exec(s0, ls).tasks[t].pc.result.Returned?
    ensures var x := Exec(s0, ls).tasks[t];
            Called(Exec(s0, ls), t) || WasUsable(s0, ls, x.connection, x.pc.result.token)
  {
    AlwaysHonest(s0, ls);
    assert TaskHonest(s0, ls, t);
  }

  /** Every refresh was needed: when the provider was contacted, the row held no token with
      more than a minute left. */
  lemma EveryCallWasNeeded(s0: State, ls: seq<Label>, i: nat)
    requires Initial(s0) && i < |Exec(s0, ls).calls|
    ensures WasNeeded(s0, ls, Exec(s0, ls).calls[i])
  {
    AlwaysHonest(s0, ls);
  }

  // ---------------------------------------------------------------- what survives

  /** Only a consent replaces a refresh token: along any run without one for `c`, also amid
      refreshes and rejections under way, the row keeps its refresh token as long as it is there. */
  lemma {:induction false} RefreshTokenSurvives(s: State, ls: seq<Label>, c: string)
    requires c in s.rows && c in Exec(s, ls).rows && Inv(s)
    requires forall i :: 0 <= i < |ls| ==> !(ls[i].Upsert? && ls[i].connection == c)
    ensures Exec(s, ls).rows[c].refreshEncrypted == s.rows[c].refreshEncrypted
  {
    if |ls| > 0 {
      var n := |ls| - 1;
      InvStays(s, ls[..n]);
      if c in Exec(s, ls[..n]).rows {
        RefreshTokenSurvives(s, ls[..n], c);
      } else {
        GoneForGood(s, ls[..n], c);
      }
      KeepsRefreshToken(Exec(s, ls[..n]), ls[n], c);
    }
  }

  lemma {:induction false} InvStays(s: State, ls: seq<Label>)
    requires Inv(s)
    ensures Inv(Exec(s, ls))
  {
    if |ls| > 0 {
      InvStays(s, ls[..|ls| - 1]);
      NextKeeps(Exec(s, ls[..|ls| - 1]), ls[|ls| - 1]);
    }
  }

  /** A row that was there and is not any more is dead, and stays so. */
  lemma {:induction false} GoneForGood(s: State, ls: seq<Label>, c: string)
    requires Inv(s) && (c in s.rows || c in s.dead) && c !in Exec(s, ls).rows
    ensures c in Exec(s, ls).dead
  {
    if |ls| > 0 {
      var n := |ls| - 1;
      InvStays(s, ls[..n]);
      if c !in Exec(s, ls[..n]).rows { GoneForGood(s, ls[..n], c); }
      RowGoes(Exec(s, ls[..n]), ls[n], c);
    }
  }

  lemma RowGoes(s: State, l: Label, c: string)
    ensures c in s.rows && c !in Next(s, l).rows ==>
              c in Next(s, l).dead && l.Step? && l.task in s.tasks && s.tasks[l.task].pc.Revoking? && s.tasks[l.task].connection == c
    ensures c in s.dead ==> c in Next(s, l).dead
  {
    if l.Step? && l.task in s.tasks { StepRows(s, l.task); }
  }

  lemma KeepsRefreshToken(s: State, l: Label, c: string)
    requires !(l.Upsert? && l.connection == c) && c in Next(s, l).rows && (c in s.rows || c in s.dead)
    ensures c in s.rows && Next(s, l).rows[c].refreshEncrypted == s.rows[c].refreshEncrypted
  {
    if l.Step? && l.task in s.tasks { StepRows(s, l.task); }
  }

  /** A commit at the end of a refresh sends the columns that differ from the task's copy; what
      a consent has stored in the others meanwhile stays. */
  lemma FlushKeepsTheRest(s: State, t: nat)
    requires t in s.tasks && s.tasks[t].connection in s.rows && (s.tasks[t].pc.Storing? || s.tasks[t].pc.Rejecting?)
    ensures var x := s.tasks[t];
            var row, copy := s.rows[x.connection], x.copy;
            StepTask(s, t).rows == s.rows[x.connection :=
              if x.pc.Storing? then
                row.(access := if copy.access == Some(x.pc.token) then row.access else Some(x.pc.token),
                     expiry := if copy.expiry == Some(x.pc.expiry) then row.expiry else Some(x.pc.expiry),
                     status := if copy.status == Active then row.status else Active)
              else
                row.(status := if copy.status == NeedsReconnect then row.status else NeedsReconnect)]
  {
    var x := s.tasks[t];
    if x.pc.Rejecting? {
      LeaveDoes(Flush(s, x.connection, x.copy, x.copy.(status := NeedsReconnect)), t, Permanent);
    }
  }

  /** The last step of a disconnect takes the connection's lock out of the dictionary, and no
      other; no step but this one ever takes a lock out. */
  lemma OnlyDisconnectsPop(s: State, l: Label, c: string)
    requires c in s.locks
    ensures c !in Next(s, l).locks <==>
              l.Step? && l.task in s.tasks && s.tasks[l.task].pc.Popping? && s.tasks[l.task].connection == c
    ensures c in Next(s, l).locks ==> Next(s, l).locks[c] == s.locks[c]
  {
    match l
    case Step(t) => if t in s.tasks { StepLocks(s, t, c); }
    case Fail(t) => if t in s.tasks { LeaveLocks(s, t, Transient); }
    case Abort(t) => if t in s.tasks { LeaveLocks(s, t, Aborted); }
    case _ =>
  }

  lemma LeaveLocks(s: State, t: nat, result: TokenCache.Result)
    requires t in s.tasks
    ensures Leave(s, t, result).locks == s.locks
  {
  }

  lemma StepLocks(s: State, t: nat, c: string)
    requires t in s.tasks && c in s.locks
    ensures c !in StepTask(s, t).locks <==> s.tasks[t].pc.Popping? && s.tasks[t].connection == c
    ensures c in StepTask(s, t).locks ==> StepTask(s, t).locks[c] == s.locks[c]
  {
    var x := s.tasks[t];
    match x.pc
    case Entering =>
      LeaveLocks(s, t, Permanent);
      LeaveLocks(s, t, Returned(x.copy.access));
    case Popping => LeaveLocks(s.(locks := s.locks - {x.connection}), t, Deleted);
    case Rejecting(_) =>
      LeaveLocks(s, t, Vanished);
      LeaveLocks(Flush(s, x.connection, x.copy, x.copy.(status := NeedsReconnect)), t, Permanent);
    case _ =>
      LeaveLocks(s, t, Vanished);
      if x.connection in s.rows { LeaveLocks(s, t, Returned(s.rows[x.connection].access)); }
  }

  /** A disconnect that has finished has removed the row for good. */
  lemma {:induction false} DeletedIsGone(s0: State, ls: seq<Label>, t: nat)
    requires Initial(s0) && t in Exec(s0, ls).tasks && Exec(s0, ls).tasks[t].pc == Finished(Deleted)
    ensures Exec(s0, ls).tasks[t].connection !in Exec(s0, ls).rows
    ensures Exec(s0, ls).tasks[t].connection in Exec(s0, ls).dead
  {
    InvStays(s0, ls);
    if |ls| > 0 {
      var n := |ls| - 1;
      var s := Exec(s0, ls[..n]);
      InvStays(s0, ls[..n]);
      DeletedFrom(s, ls[n], t);
      if s.tasks[t].pc == Finished(Deleted) {
        DeletedIsGone(s0, ls[..n], t);
      } else {
        assert TaskOk(s, t);
      }
      RowGoes(s, ls[n], s.tasks[t].connection);
    }
  }

  lemma DeletedFrom(s: State, l: Label, t: nat)
    requires t in Next(s, l).tasks && Next(s, l).tasks[t].pc == Finished(Deleted)
    ensures t in s.tasks && Next(s, l).tasks[t].connection == s.tasks[t].connection
    ensures s.tasks[t].pc.Popping? || s.tasks[t].pc == Finished(Deleted)
  {
    if l.Step? {
      if l.task in s.tasks { StepMoves(s, l.task); }
    } else {
      AnswerMoves(s, l, t);
    }
  }
}
