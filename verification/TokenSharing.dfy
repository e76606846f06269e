/** One refresh serves every waiter. */
module TokenSharing {
  import opened Wrappers
  import opened TokenCache

  /** A task of connection `c`. */
  predicate On(s: State, c: string, t: nat) {
    t in s.tasks && s.tasks[t].connection == c
  }

  /** What may happen: anything to other connections; to `c` calls, their steps, successful
      replies that outlive the skew by more than `duration`, and the end of a caller that
      is not at the provider or storing its answer. */
  predicate Allowed(c: string, s: State, l: Label, duration: int) {
    match l
    case Disconnect(_, d) => d != c
    case Upsert(d, _) => d != c
    case Reply(t, _, expiresIn) => On(s, c, t) ==> expiresIn - EXPIRY_SKEW > duration
    case Reject(t) => !On(s, c, t)
    case Fail(t) => !On(s, c, t)
    case Abort(t) => On(s, c, t) ==> !AtWork(s.tasks[t].pc)
    case _ => true
  }

  /** The tasks of `c` that asked the provider, in order. */
  function Asked(calls: seq<Contact>, c: string): seq<nat> {
    if |calls| == 0 then []
    else
      var n := |calls| - 1;
      Asked(calls[..n], c) + if calls[n].connection == c then [calls[n].task] else []
  }

  lemma AskedSnoc(calls: seq<Contact>, x: Contact, c: string)
    ensures Asked(calls + [x], c) == Asked(calls, c) + if x.connection == c then [x.task] else []
  {
    assert (calls + [x])[..|calls|] == calls;
  }

  predicate AtWork(pc: Pc) {
    pc.Contacting? || pc.Storing?
  }

  predicate CallerTask(c: string, x: Task) {
    x.connection == c && !x.pc.Revoking? && !x.pc.Popping? && !x.pc.Rejecting?
  }

  ghost predicate Callers(c: string, s: State) {
    c in s.rows && forall t: nat :: On(s, c, t) ==> CallerTask(c, s.tasks[t])
  }

  /** A task before any token is stored; `asked` tells that it is the one that called. */
  predicate BeforeTask(row0: Row, bound: int, x: Task, asked: bool) {
    && x.copy == row0 && (x.pc.Finished? ==> x.pc.result.Aborted?) && !x.pc.Rereading?
    && (AtWork(x.pc) <==> asked)
    && (x.pc.Storing? ==> x.pc.expiry - EXPIRY_SKEW > bound)
  }

  /** A task after the token of `row` is stored. */
  predicate AfterTask(row0: Row, row: Row, x: Task) {
    && (x.copy == row0 || x.copy == row)
    && !AtWork(x.pc)
    && (x.pc.Finished? ==> x.pc.result.Aborted? || x.pc.result == Returned(row.access))
  }

  predicate StoredFor(row: Row, bound: int) {
    row.access.Some? && row.expiry.Some? && row.expiry.value - EXPIRY_SKEW > bound && row.status == Active
  }

  /** Nobody has stored a token yet: at most one call is out, and its task is at work. */
  ghost predicate Before(s0: State, c: string, bound: int, s: State)
    requires c in s0.rows && c in s.rows
  {
    var asked := Asked(s.calls, c);
    && s.rows[c] == s0.rows[c]
    && |asked| <= 1
    && (forall t: nat :: On(s, c, t) ==> BeforeTask(s0.rows[c], bound, s.tasks[t], asked == [t]))
    && (|asked| == 1 ==> On(s, c, asked[0]))
  }

  /** The token is stored and stays fresh: nobody calls again, everybody returns it. */
  ghost predicate Afterwards(s0: State, c: string, bound: int, s: State)
    requires c in s0.rows && c in s.rows
  {
    && |Asked(s.calls, c)| == 1
    && StoredFor(s.rows[c], bound)
    && forall t: nat :: On(s, c, t) ==> AfterTask(s0.rows[c], s.rows[c], s.tasks[t])
  }

  ghost predicate Sharing(s0: State, c: string, bound: int, s: State)
    requires c in s0.rows
  {
    && Inv(s) && Callers(c, s) && s0.now <= s.now
    && (Before(s0, c, bound, s) || Afterwards(s0, c, bound, s))
  }

  ghost predicate StaleStart(s0: State, c: string) {
    c in s0.rows && s0.rows[c].status == Active && !Fresh(s0.rows[c], s0.now)
  }

  // ---------------------------------------------------------------- other connections

  /** Nothing about `c` has changed. */
  ghost predicate Untouched(c: string, s: State, s': State) {
    && c in s.rows && c in s'.rows && s'.rows[c] == s.rows[c]
    && (forall t: nat :: On(s', c, t) <==> On(s, c, t))
    && (forall t: nat :: On(s, c, t) ==> s'.tasks[t] == s.tasks[t])
    && Asked(s'.calls, c) == Asked(s.calls, c)
  }

  lemma UntouchedSharing(s0: State, c: string, bound: int, s: State, s': State)
    requires c in s0.rows && Sharing(s0, c, bound, s) && Untouched(c, s, s') && Inv(s') && s.now <= s'.now
    ensures Sharing(s0, c, bound, s')
  {
    if Before(s0, c, bound, s) {
      assert Before(s0, c, bound, s');
    } else {
      assert Afterwards(s0, c, bound, s');
    }
  }

  lemma LeaveElsewhere(s: State, s1: State, c: string, t: nat, result: TokenCache.Result)
    requires c in s.rows && t in s.tasks && s.tasks[t].connection != c
    requires s1.tasks == s.tasks && s1.calls == s.calls && c in s1.rows && s1.rows[c] == s.rows[c]
    ensures Untouched(c, s, Leave(s1, t, result))
  {
  }

  lemma MoveElsewhere(s: State, s1: State, c: string, t: nat, pc: Pc)
    requires c in s.rows && t in s.tasks && s.tasks[t].connection != c
    requires s1.tasks == s.tasks && s1.calls == s.calls && c in s1.rows && s1.rows[c] == s.rows[c]
    ensures Untouched(c, s, Move(s1, t, pc))
  {
  }

  lemma EnterElsewhere(s: State, c: string, t: nat)
    requires c in s.rows && t in s.tasks && s.tasks[t].connection != c
    ensures Untouched(c, s, Enter(s, t))
  {
    var x := s.tasks[t];
    if x.copy.status == NeedsReconnect { LeaveElsewhere(s, s, c, t, Permanent); }
    else if Fresh(x.copy, s.now) { LeaveElsewhere(s, s, c, t, Returned(x.copy.access)); }
    else if x.connection in s.locks { MoveElsewhere(s, s, c, t, Waiting(s.locks[x.connection])); }
    else {
      MoveElsewhere(s, s.(locks := s.locks[x.connection := s.nextLock], owners := s.owners[s.nextLock := x.connection],
                          nextLock := s.nextLock + 1), c, t, Waiting(s.nextLock));
    }
  }

  lemma ReloadElsewhere(s: State, c: string, t: nat)
    requires c in s.rows && t in s.tasks && s.tasks[t].connection != c && s.tasks[t].pc.Reloading?
    ensures Untouched(c, s, StepTask(s, t))
  {
    var d := s.tasks[t].connection;
    AskedSnoc(s.calls, Contact(t, d), c);
    if d !in s.rows { LeaveElsewhere(s, s, c, t, Vanished); }
    else if Fresh(s.rows[d], s.now) { LeaveElsewhere(s, s, c, t, Returned(s.rows[d].access)); }
  }

  lemma StoreElsewhere(s: State, c: string, t: nat)
    requires c in s.rows && t in s.tasks && s.tasks[t].connection != c && s.tasks[t].pc.Storing?
    ensures Untouched(c, s, StepTask(s, t))
  {
    var x := s.tasks[t];
    var changed := x.copy.(access := Some(x.pc.token), expiry := Some(x.pc.expiry), status := Active);
    LeaveElsewhere(s, s, c, t, Vanished);
    MoveElsewhere(s, Flush(s, x.connection, x.copy, changed), c, t, Rereading(x.pc.lock));
  }

  lemma RejectElsewhere(s: State, c: string, t: nat)
    requires c in s.rows && t in s.tasks && s.tasks[t].connection != c && s.tasks[t].pc.Rejecting?
    ensures Untouched(c, s, StepTask(s, t))
  {
    var x := s.tasks[t];
    RejectIs(s, t);
    LeaveElsewhere(s, s, c, t, Vanished);
    LeaveElsewhere(s, Flush(s, x.connection, x.copy, x.copy.(status := NeedsReconnect)), c, t, Permanent);
  }

  lemma StepElsewhere(s: State, c: string, t: nat)
    requires c in s.rows && t in s.tasks && s.tasks[t].connection != c
    ensures Untouched(c, s, StepTask(s, t))
  {
    match s.tasks[t].pc
    case Entering => EnterElsewhere(s, c, t);
    case Waiting(l) => MoveElsewhere(s, s.(holders := s.holders[l := t]), c, t, Reloading(l));
    case Reloading(_) => ReloadElsewhere(s, c, t);
    case Storing(_, _, _) => StoreElsewhere(s, c, t);
    case Rejecting(_) => RejectElsewhere(s, c, t);
    case Rereading(_) =>
      var d := s.tasks[t].connection;
      LeaveElsewhere(s, s, c, t, if d !in s.rows then Vanished else Returned(s.rows[d].access));
    case Revoking =>
      var d := s.tasks[t].connection;
      MoveElsewhere(s, s.(rows := s.rows - {d}, dead := s.dead + {d}), c, t, Popping);
    case Popping => PopElsewhere(s, c, t);
    case _ =>
  }

  lemma PopElsewhere(s: State, c: string, t: nat)
    requires c in s.rows && t in s.tasks && s.tasks[t].connection != c && s.tasks[t].pc.Popping?
    ensures Untouched(c, s, StepTask(s, t))
  {
    var s1 := s.(locks := s.locks - {s.tasks[t].connection});
    LeaveElsewhere(s, s1, c, t, Deleted);
  }

  lemma AnswerElsewhere(s: State, c: string, l: Label)
    requires c in s.rows && (l.Reply? || l.Reject? || l.Fail? || l.Abort?) && !On(s, c, l.task)
    ensures Untouched(c, s, Next(s, l))
  {
    if l.task in s.tasks {
      match l
      case Reply(t, token, n) => if AtProvider(s, t) { MoveElsewhere(s, s, c, t, Storing(s.tasks[t].pc.lock, token, s.now + n)); }
      case Reject(t) => if AtProvider(s, t) { MoveElsewhere(s, s, c, t, Rejecting(s.tasks[t].pc.lock)); }
      case Fail(t) => LeaveElsewhere(s, s, c, t, Transient);
      case Abort(t) => LeaveElsewhere(s, s, c, t, Aborted);
    }
  }

  lemma SpawnElsewhere(s: State, c: string, l: Label)
    requires c in s.rows && (l.Call? || l.Disconnect?) && l.connection != c
    ensures Untouched(c, s, Next(s, l))
  {
  }

  lemma OtherElsewhere(s: State, c: string, l: Label)
    requires c in s.rows && (l.Tick? || l.Create? || (l.Upsert? && l.connection != c))
    ensures Untouched(c, s, Next(s, l))
  {
  }

  // ---------------------------------------------------------------- callers of `c`

  /** The lock keeps a second task from starting a refresh while one is at work. */
  lemma ReloadAlone(s: State, c: string, t: nat, u: nat)
    requires Inv(s) && Callers(c, s) && On(s, c, t) && On(s, c, u)
    requires s.tasks[t].pc.Reloading?
    ensures !AtWork(s.tasks[u].pc)
  {
    assert TaskOk(s, t) && TaskOk(s, u);
  }

  /** What a step of a caller leaves alone: the other tasks, the clock, and every row
      unless it stores. */
  ghost predicate Frame(s: State, s': State, c: string, t: nat)
    requires t in s.tasks
  {
    && s'.tasks.Keys == s.tasks.Keys && (forall u :: u in s.tasks && u != t ==> s'.tasks[u] == s.tasks[u])
    && CallerTask(c, s'.tasks[t]) && c in s'.rows && s'.now == s.now
    && (!s.tasks[t].pc.Storing? ==> s'.rows == s.rows)
    && (!s.tasks[t].pc.Reloading? ==> s'.calls == s.calls)
  }

  lemma MoveTouches(s: State, s1: State, c: string, t: nat, pc: Pc)
    requires t in s.tasks && CallerTask(c, s.tasks[t]) && c in s.rows
    requires s1.tasks == s.tasks && s1.now == s.now && s1.rows == s.rows && s1.calls == s.calls
    requires !pc.Revoking? && !pc.Popping? && !pc.Rejecting?
    ensures Frame(s, Move(s1, t, pc), c, t)
  {
  }

  lemma LeaveTouches(s: State, c: string, t: nat, result: TokenCache.Result)
    requires t in s.tasks && CallerTask(c, s.tasks[t]) && c in s.rows
    ensures Frame(s, Leave(s, t, result), c, t)
  {
  }

  lemma EnterTouches(s: State, c: string, t: nat)
    requires t in s.tasks && CallerTask(c, s.tasks[t]) && c in s.rows
    ensures Frame(s, Enter(s, t), c, t)
  {
    var x := s.tasks[t];
    if x.copy.status == NeedsReconnect { LeaveTouches(s, c, t, Permanent); }
    else if Fresh(x.copy, s.now) { LeaveTouches(s, c, t, Returned(x.copy.access)); }
    else if x.connection in s.locks { MoveTouches(s, s, c, t, Waiting(s.locks[x.connection])); }
    else {
      MoveTouches(s, s.(locks := s.locks[x.connection := s.nextLock], owners := s.owners[s.nextLock := x.connection],
                        nextLock := s.nextLock + 1), c, t, Waiting(s.nextLock));
    }
  }

  lemma ReloadTouches(s: State, c: string, t: nat)
    requires t in s.tasks && CallerTask(c, s.tasks[t]) && c in s.rows && s.tasks[t].pc.Reloading?
    ensures Frame(s, StepTask(s, t), c, t)
  {
    if Fresh(s.rows[c], s.now) { LeaveTouches(s, c, t, Returned(s.rows[c].access)); }
  }

  lemma StoreTouches(s: State, c: string, t: nat)
    requires t in s.tasks && CallerTask(c, s.tasks[t]) && c in s.rows && s.tasks[t].pc.Storing?
    ensures Frame(s, StepTask(s, t), c, t)
  {
  }

  /** A step changes one task only, and the row only when it stores. */
  lemma StepTouches(s: State, c: string, t: nat)
    requires t in s.tasks && CallerTask(c, s.tasks[t]) && c in s.rows
    ensures Frame(s, StepTask(s, t), c, t)
  {
    match s.tasks[t].pc
    case Entering => EnterTouches(s, c, t);
    case Waiting(l) => MoveTouches(s, s.(holders := s.holders[l := t]), c, t, Reloading(l));
    case Reloading(_) => ReloadTouches(s, c, t);
    case Storing(_, _, _) => StoreTouches(s, c, t);
    case Rereading(_) => LeaveTouches(s, c, t, Returned(s.rows[c].access));
    case _ =>
  }

  lemma EnterBefore(row0: Row, c: string, bound: int, s: State, t: nat, asked: bool)
    requires t in s.tasks && CallerTask(c, s.tasks[t]) && s.tasks[t].pc.Entering?
    requires !Fresh(row0, s.now) && row0.status == Active
    requires BeforeTask(row0, bound, s.tasks[t], asked)
    ensures BeforeTask(row0, bound, Enter(s, t).tasks[t], asked)
  {
  }

  lemma ReloadBefore(row0: Row, c: string, bound: int, s: State, t: nat)
    requires t in s.tasks && CallerTask(c, s.tasks[t]) && c in s.rows && s.rows[c] == row0
    requires !Fresh(row0, s.now) && s.tasks[t].pc.Reloading?
    ensures var s' := StepTask(s, t); BeforeTask(row0, bound, s'.tasks[t], true) && s'.calls == s.calls + [Contact(t, c)]
  {
  }

  lemma OwnBefore(row0: Row, c: string, bound: int, s: State, t: nat, asked: bool)
    requires t in s.tasks && CallerTask(c, s.tasks[t]) && c in s.rows && s.rows[c] == row0
    requires !Fresh(row0, s.now) && row0.status == Active
    requires BeforeTask(row0, bound, s.tasks[t], asked) && !s.tasks[t].pc.Storing? && !s.tasks[t].pc.Reloading?
    ensures BeforeTask(row0, bound, StepTask(s, t).tasks[t], asked)
  {
    match s.tasks[t].pc
    case Entering => EnterBefore(row0, c, bound, s, t, asked);
    case _ =>
  }

  /** The first caller through the lock finds the stale row and asks. */
  lemma StepAsks(s0: State, c: string, bound: int, s: State, t: nat)
    requires StaleStart(s0, c) && Inv(s) && Callers(c, s) && s0.now <= s.now && Before(s0, c, bound, s)
    requires On(s, c, t) && s.tasks[t].pc.Reloading?
    ensures Callers(c, StepTask(s, t)) && Before(s0, c, bound, StepTask(s, t))
  {
    var asked := Asked(s.calls, c);
    if |asked| == 1 {
      ReloadAlone(s, c, t, asked[0]);
    }
    assert asked == [];
    StepTouches(s, c, t);
    ReloadBefore(s0.rows[c], c, bound, s, t);
    AskedSnoc(s.calls, Contact(t, c), c);
  }

  lemma StepBefore(s0: State, c: string, bound: int, s: State, t: nat)
    requires StaleStart(s0, c) && Callers(c, s) && s0.now <= s.now && Before(s0, c, bound, s)
    requires On(s, c, t) && !s.tasks[t].pc.Storing? && !s.tasks[t].pc.Reloading?
    ensures Callers(c, StepTask(s, t)) && Before(s0, c, bound, StepTask(s, t))
  {
    StepTouches(s, c, t);
    OwnBefore(s0.rows[c], c, bound, s, t, Asked(s.calls, c) == [t]);
  }

  lemma StepStore(s0: State, c: string, bound: int, s: State, t: nat)
    requires StaleStart(s0, c) && Callers(c, s) && Before(s0, c, bound, s)
    requires On(s, c, t) && s.tasks[t].pc.Storing?
    ensures Callers(c, StepTask(s, t)) && Afterwards(s0, c, bound, StepTask(s, t))
  {
    StepTouches(s, c, t);
    StoreWrites(s, c, t);
  }

  /** The copy is the stored row, so the whole change is sent. */
  lemma StoreWrites(s: State, c: string, t: nat)
    requires On(s, c, t) && c in s.rows && s.tasks[t].copy == s.rows[c] && s.tasks[t].pc.Storing?
    ensures var x, s' := s.tasks[t], StepTask(s, t);
            && c in s'.rows && t in s'.tasks && s'.tasks[t] == x.(pc := Rereading(x.pc.lock))
            && s'.rows[c] == s.rows[c].(access := Some(x.pc.token), expiry := Some(x.pc.expiry), status := Active)
  {
  }

  lemma EnterAfter(row0: Row, c: string, bound: int, s: State, t: nat)
    requires t in s.tasks && CallerTask(c, s.tasks[t]) && c in s.rows && s.tasks[t].pc.Entering?
    requires !Fresh(row0, s.now) && row0.status == Active && StoredFor(s.rows[c], bound) && s.now <= bound
    requires AfterTask(row0, s.rows[c], s.tasks[t])
    ensures AfterTask(row0, s.rows[c], Enter(s, t).tasks[t])
  {
  }

  lemma ReloadAfter(row0: Row, c: string, bound: int, s: State, t: nat)
    requires t in s.tasks && CallerTask(c, s.tasks[t]) && c in s.rows && s.tasks[t].pc.Reloading?
    requires StoredFor(s.rows[c], bound) && s.now <= bound && AfterTask(row0, s.rows[c], s.tasks[t])
    ensures var s' := StepTask(s, t); AfterTask(row0, s.rows[c], s'.tasks[t]) && s'.calls == s.calls
  {
  }

  lemma OwnAfter(row0: Row, c: string, bound: int, s: State, t: nat)
    requires t in s.tasks && CallerTask(c, s.tasks[t]) && c in s.rows
    requires !Fresh(row0, s.now) && row0.status == Active && StoredFor(s.rows[c], bound) && s.now <= bound
    requires AfterTask(row0, s.rows[c], s.tasks[t])
    ensures var s' := StepTask(s, t);
            AfterTask(row0, s.rows[c], s'.tasks[t]) && (s.tasks[t].pc.Reloading? ==> s'.calls == s.calls)
  {
    match s.tasks[t].pc
    case Entering => EnterAfter(row0, c, bound, s, t);
    case Reloading(_) => ReloadAfter(row0, c, bound, s, t);
    case _ =>
  }

  lemma StepAfter(s0: State, c: string, bound: int, s: State, t: nat)
    requires StaleStart(s0, c) && Callers(c, s) && s0.now <= s.now <= bound && Afterwards(s0, c, bound, s)
    requires On(s, c, t)
    ensures Callers(c, StepTask(s, t)) && Afterwards(s0, c, bound, StepTask(s, t))
  {
    StepTouches(s, c, t);
    OwnAfter(s0.rows[c], c, bound, s, t);
  }

  lemma StepSharing(s0: State, c: string, bound: int, s: State, t: nat)
    requires StaleStart(s0, c) && Sharing(s0, c, bound, s) && s.now <= bound && On(s, c, t)
    ensures Sharing(s0, c, bound, StepTask(s, t))
  {
    NextKeeps(s, Step(t));
    if Afterwards(s0, c, bound, s) { StepAfter(s0, c, bound, s, t); }
    else if s.tasks[t].pc.Storing? { StepStore(s0, c, bound, s, t); }
    else if s.tasks[t].pc.Reloading? { StepAsks(s0, c, bound, s, t); }
    else { StepBefore(s0, c, bound, s, t); }
  }

  /** Only task `t` of `c` is new or has moved. */
  ghost predicate OneTask(c: string, s: State, s': State, t: nat) {
    && c in s.rows && c in s'.rows && s'.rows[c] == s.rows[c] && s'.calls == s.calls && s'.now == s.now
    && On(s', c, t) && CallerTask(c, s'.tasks[t])
    && (forall u: nat :: u != t ==> (On(s', c, u) <==> On(s, c, u)))
    && (forall u: nat :: u != t && On(s, c, u) ==> s'.tasks[u] == s.tasks[u])
  }

  lemma OneTaskBefore(s0: State, c: string, bound: int, s: State, s': State, t: nat)
    requires StaleStart(s0, c) && Callers(c, s) && OneTask(c, s, s', t) && Before(s0, c, bound, s)
    requires BeforeTask(s0.rows[c], bound, s'.tasks[t], Asked(s.calls, c) == [t])
    ensures Callers(c, s') && Before(s0, c, bound, s')
  {
  }

  lemma OneTaskAfter(s0: State, c: string, bound: int, s: State, s': State, t: nat)
    requires StaleStart(s0, c) && Callers(c, s) && OneTask(c, s, s', t) && Afterwards(s0, c, bound, s)
    requires AfterTask(s0.rows[c], s.rows[c], s'.tasks[t])
    ensures Callers(c, s') && Afterwards(s0, c, bound, s')
  {
  }

  lemma CallSharing(s0: State, c: string, bound: int, s: State, t: nat)
    requires StaleStart(s0, c) && Sharing(s0, c, bound, s)
    ensures Sharing(s0, c, bound, Next(s, Call(t, c)))
  {
    NextKeeps(s, Call(t, c));
    if t !in s.tasks {
      var s' := Next(s, Call(t, c));
      assert OneTask(c, s, s', t);
      if Before(s0, c, bound, s) { OneTaskBefore(s0, c, bound, s, s', t); }
      else { OneTaskAfter(s0, c, bound, s, s', t); }
    }
  }

  lemma ReplySharing(s0: State, c: string, bound: int, s: State, l: Label)
    requires StaleStart(s0, c) && Sharing(s0, c, bound, s) && l.Reply? && On(s, c, l.task) && l.expiresIn - EXPIRY_SKEW > bound - s0.now
    ensures Sharing(s0, c, bound, Next(s, l))
  {
    NextKeeps(s, l);
    if AtProvider(s, l.task) {
      assert CallerTask(c, s.tasks[l.task]);
      assert Before(s0, c, bound, s);
      assert Before(s0, c, bound, Next(s, l));
    }
  }

  lemma AbortIs(s: State, c: string, t: nat)
    requires On(s, c, t) && CallerTask(c, s.tasks[t]) && c in s.rows && !s.tasks[t].pc.Finished?
    ensures var s' := Next(s, Abort(t)); OneTask(c, s, s', t) && s'.tasks[t] == s.tasks[t].(pc := Finished(Aborted))
  {
  }

  lemma AbortSharing(s0: State, c: string, bound: int, s: State, t: nat)
    requires StaleStart(s0, c) && Sharing(s0, c, bound, s) && On(s, c, t) && !AtWork(s.tasks[t].pc)
    ensures Sharing(s0, c, bound, Next(s, Abort(t)))
  {
    NextKeeps(s, Abort(t));
    if !s.tasks[t].pc.Finished? {
      AbortIs(s, c, t);
      if Before(s0, c, bound, s) { OneTaskBefore(s0, c, bound, s, Next(s, Abort(t)), t); }
      else { OneTaskAfter(s0, c, bound, s, Next(s, Abort(t)), t); }
    }
  }

  lemma NextSharing(s0: State, c: string, bound: int, s: State, l: Label)
    requires StaleStart(s0, c) && Sharing(s0, c, bound, s) && s.now <= bound && Allowed(c, s, l, bound - s0.now)
    ensures Sharing(s0, c, bound, Next(s, l))
  {
    match l
    case Step(t) =>
      if On(s, c, t) { StepSharing(s0, c, bound, s, t); }
      else { ElsewhereSharing(s0, c, bound, s, l); }
    case Call(t, d) => if d == c { CallSharing(s0, c, bound, s, t); } else { ElsewhereSharing(s0, c, bound, s, l); }
    case Reply(t, _, _) => if On(s, c, t) { ReplySharing(s0, c, bound, s, l); } else { ElsewhereSharing(s0, c, bound, s, l); }
    case Abort(t) => if On(s, c, t) { AbortSharing(s0, c, bound, s, t); } else { ElsewhereSharing(s0, c, bound, s, l); }
    case _ => ElsewhereSharing(s0, c, bound, s, l);
  }

  /** A label that is not about `c`. */
  predicate Elsewhere(c: string, s: State, l: Label) {
    match l
    case Call(_, d) => d != c
    case Disconnect(_, d) => d != c
    case Upsert(d, _) => d != c
    case Create(_, _) => true
    case Tick(_) => true
    case _ => !On(s, c, l.task)
  }

  lemma ElsewhereSharing(s0: State, c: string, bound: int, s: State, l: Label)
    requires StaleStart(s0, c) && Sharing(s0, c, bound, s) && Elsewhere(c, s, l)
    ensures Sharing(s0, c, bound, Next(s, l))
  {
    NextKeeps(s, l);
    match l {
      case Step(t) => if t in s.tasks { StepElsewhere(s, c, t); }
      case Reply(_, _, _) => AnswerElsewhere(s, c, l);
      case Reject(_) => AnswerElsewhere(s, c, l);
      case Fail(_) => AnswerElsewhere(s, c, l);
      case Abort(_) => AnswerElsewhere(s, c, l);
      case Call(_, _) => SpawnElsewhere(s, c, l);
      case Disconnect(_, _) => SpawnElsewhere(s, c, l);
      case _ => OtherElsewhere(s, c, l);
    }
    UntouchedSharing(s0, c, bound, s, Next(s, l));
  }

  lemma {:induction false} RunSharing(s0: State, c: string, bound: int, ls: seq<Label>)
    requires Initial(s0) && StaleStart(s0, c) && Exec(s0, ls).now <= bound
    requires forall i :: 0 <= i < |ls| ==> Allowed(c, Exec(s0, ls[..i]), ls[i], bound - s0.now)
    ensures Sharing(s0, c, bound, Exec(s0, ls))
  {
    if |ls| > 0 {
      var n := |ls| - 1;
      assert Exec(s0, ls) == Next(Exec(s0, ls[..n]), ls[n]);
      assert forall i :: 0 <= i < n ==> ls[..n][..i] == ls[..i];
      RunSharing(s0, c, bound, ls[..n]);
      NextSharing(s0, c, bound, Exec(s0, ls[..n]), ls[n]);
    }
  }

  /** Any number of concurrent callers of an active, stale connection, whatever happens to
      other connections meanwhile: when every token granted to `c` outlives the run by more
      than the skew, the provider is asked for `c` at most once, and every caller of `c`
      that has finished returned one and the same token, unless it was cut off while it
      was not at work itself. */
  lemma OneRefreshServesAll(s0: State, c: string, ls: seq<Label>)
    requires Initial(s0) && StaleStart(s0, c)
    requires forall i :: 0 <= i < |ls| ==> Allowed(c, Exec(s0, ls[..i]), ls[i], Exec(s0, ls).now - s0.now)
    ensures var f := Exec(s0, ls);
            && c in f.rows && |Asked(f.calls, c)| <= 1
            && (forall t: nat :: On(f, c, t) && f.tasks[t].pc.Finished? ==>
                  || f.tasks[t].pc.result.Aborted?
                  || (&& |Asked(f.calls, c)| == 1 && f.rows[c].access.Some?
                      && f.tasks[t].pc.result == Returned(f.rows[c].access)))
  {
    RunSharing(s0, c, Exec(s0, ls).now, ls);
  }
}
