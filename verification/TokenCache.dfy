/** The single-flight access-token cache (`app/services/connection_service.py`): tasks
    of one process interleave at every await, a lock per connection lives in a
    dictionary, and a disconnect removes the lock. */
module TokenCache {
  import opened Wrappers

  datatype Status = Active | NeedsReconnect

  /** The columns of `oauth_connections` the cache reads and writes. */
  datatype Row = Row(refreshEncrypted: string, access: Option<string>, expiry: Option<int>, status: Status)

  /** Seconds before expiry at which a token is no longer used. */
  const EXPIRY_SKEW := 60

  /** `_is_fresh` */
  predicate Fresh(row: Row, now: int) {
    row.access.Some? && row.expiry.Some? && row.expiry.value - EXPIRY_SKEW > now
  }

  datatype Result = Returned(token: Option<string>) | Permanent | Transient | Vanished | Aborted | Deleted

  /** Where a task waits. All places with a lock but `Waiting` are inside the critical section. */
  datatype Pc =
    | Entering
    | Waiting(lock: nat)
    | Reloading(lock: nat)
    | Contacting(lock: nat)
    | Storing(lock: nat, token: string, expiry: int)
    | Rejecting(lock: nat)
    | Rereading(lock: nat)
    | Revoking
    | Popping
    | Finished(result: Result)

  /** A task with the copy of the row that its session holds. */
  datatype Task = Task(connection: string, copy: Row, pc: Pc)

  /** A refresh request sent to the provider. */
  datatype Contact = Contact(task: nat, connection: string)

  /** `owners` remembers whose lock each lock object was; no step reads it. */
  datatype State = State(
    rows: map<string, Row>,
    dead: set<string>,
    locks: map<string, nat>,
    holders: map<nat, nat>,
    owners: map<nat, string>,
    nextLock: nat,
    tasks: map<nat, Task>,
    calls: seq<Contact>,
    now: int)

  /** A label that cannot happen leaves the state alone, so every list is a run.
      Connection ids are fresh uuids: a deleted id never returns. */
  datatype Label =
    | Call(task: nat, connection: string)
    | Disconnect(task: nat, connection: string)
    | Step(task: nat)
    | Reply(task: nat, token: string, expiresIn: int)
    | Reject(task: nat)
    | Fail(task: nat)
    | Abort(task: nat)
    | Create(connection: string, row: Row)
    | Upsert(connection: string, row: Row)
    | Tick(seconds: nat)

  function LockOf(pc: Pc): Option<nat> {
    match pc
    case Waiting(l) => Some(l)
    case Reloading(l) => Some(l)
    case Contacting(l) => Some(l)
    case Storing(l, _, _) => Some(l)
    case Rejecting(l) => Some(l)
    case Rereading(l) => Some(l)
    case _ => None
  }

  predicate Holds(pc: Pc) {
    LockOf(pc).Some? && !pc.Waiting?
  }

  /** The refresh has started and the section is not yet left. */
  predicate Refreshing(pc: Pc) {
    pc.Contacting? || pc.Storing? || pc.Rejecting? || pc.Rereading?
  }

  function Move(s: State, t: nat, pc: Pc): State
    requires t in s.tasks
  {
    s.(tasks := s.tasks[t := s.tasks[t].(pc := pc)])
  }

  /** Leaving the `async with` block releases the lock. */
  function Leave(s: State, t: nat, result: Result): State
    requires t in s.tasks
  {
    var l := LockOf(s.tasks[t].pc);
    Move(if Holds(s.tasks[t].pc) then s.(holders := s.holders - {l.value}) else s, t, Finished(result))
  }

  function Load(s: State, t: nat): State
    requires t in s.tasks && s.tasks[t].connection in s.rows
  {
    s.(tasks := s.tasks[t := s.tasks[t].(copy := s.rows[s.tasks[t].connection])])
  }

  /** A flush sends the attributes that differ from the loaded copy, and nothing if none does. */
  function Merged(row: Row, copy: Row, changed: Row): Row {
    Row(if changed.refreshEncrypted == copy.refreshEncrypted then row.refreshEncrypted else changed.refreshEncrypted,
        if changed.access == copy.access then row.access else changed.access,
        if changed.expiry == copy.expiry then row.expiry else changed.expiry,
        if changed.status == copy.status then row.status else changed.status)
  }

  function Flush(s: State, c: string, copy: Row, changed: Row): State {
    if c in s.rows then s.(rows := s.rows[c := Merged(s.rows[c], copy, changed)]) else s
  }

  /** Status check, freshness check and `_lock_for`, without an await in between. */
  function Enter(s: State, t: nat): State
    requires t in s.tasks
  {
    var x := s.tasks[t];
    if x.copy.status == NeedsReconnect then Leave(s, t, Permanent)
    else if Fresh(x.copy, s.now) then Leave(s, t, Returned(x.copy.access))
    else if x.connection in s.locks then Move(s, t, Waiting(s.locks[x.connection]))
    else
      Move(s.(locks := s.locks[x.connection := s.nextLock],
              owners := s.owners[s.nextLock := x.connection],
              nextLock := s.nextLock + 1), t, Waiting(s.nextLock))
  }

  function StepTask(s: State, t: nat): (s': State)
    requires t in s.tasks
    ensures s'.now == s.now
  {
    var x := s.tasks[t];
    var c := x.connection;
    match x.pc
    case Entering => Enter(s, t)
    case Waiting(l) =>
      if l in s.holders then s else Move(s.(holders := s.holders[l := t]), t, Reloading(l))
    case Reloading(l) =>
      if c !in s.rows then Leave(s, t, Vanished)
      else if Fresh(s.rows[c], s.now) then Leave(s, t, Returned(s.rows[c].access))
      else Move(Load(s, t), t, Contacting(l)).(calls := s.calls + [Contact(t, c)])
    case Contacting(_) => s
    case Storing(l, token, expiry) =>
      var changed := x.copy.(access := Some(token), expiry := Some(expiry), status := Active);
      if c !in s.rows && changed != x.copy then Leave(s, t, Vanished)
      else Move(Flush(s, c, x.copy, changed), t, Rereading(l))
    case Rejecting(_) =>
      var changed := x.copy.(status := NeedsReconnect);
      if c !in s.rows && changed != x.copy then Leave(s, t, Vanished)
      else Leave(Flush(s, c, x.copy, changed), t, Permanent)
    case Rereading(_) =>
      if c !in s.rows then Leave(s, t, Vanished) else Leave(s, t, Returned(s.rows[c].access))
    case Revoking => Move(s.(rows := s.rows - {c}, dead := s.dead + {c}), t, Popping)
    case Popping => Leave(s.(locks := s.locks - {c}), t, Deleted)
    case Finished(_) => s
  }

  predicate AtProvider(s: State, t: nat) {
    t in s.tasks && s.tasks[t].pc.Contacting?
  }

  function Next(s: State, l: Label): (s': State)
    ensures s.now <= s'.now
  {
    match l
    case Call(t, c) =>
      if t in s.tasks || c !in s.rows then s else s.(tasks := s.tasks[t := Task(c, s.rows[c], Entering)])
    case Disconnect(t, c) =>
      if t in s.tasks || c !in s.rows then s else s.(tasks := s.tasks[t := Task(c, s.rows[c], Revoking)])
    case Step(t) =>
      if t in s.tasks then StepTask(s, t) else s
    case Reply(t, token, expiresIn) =>
      if AtProvider(s, t) then Move(s, t, Storing(s.tasks[t].pc.lock, token, s.now + expiresIn)) else s
    case Reject(t) =>
      if AtProvider(s, t) then Move(s, t, Rejecting(s.tasks[t].pc.lock)) else s
    case Fail(t) =>
      if AtProvider(s, t) then Leave(s, t, Transient) else s
    case Abort(t) =>
      if t in s.tasks && !s.tasks[t].pc.Finished? then Leave(s, t, Aborted) else s
    case Create(c, row) =>
      if c in s.rows || c in s.dead then s else s.(rows := s.rows[c := row])
    case Upsert(c, row) =>
      if c in s.rows then s.(rows := s.rows[c := row]) else s
    case Tick(n) => s.(now := s.now + n)
  }

  function Exec(s: State, ls: seq<Label>): State {
    if |ls| == 0 then s else Next(Exec(s, ls[..|ls| - 1]), ls[|ls| - 1])
  }

  // ---------------------------------------------------------------- single flight

  ghost predicate TaskOk(s: State, t: nat)
    requires t in s.tasks
  {
    var x := s.tasks[t];
    var l := LockOf(x.pc);
    && (x.connection in s.rows || x.connection in s.dead)
    && (x.pc.Popping? ==> x.connection in s.dead)
    && (l.Some? ==> l.value in s.owners && s.owners[l.value] == x.connection)
    && (l.Some? && x.connection in s.rows ==> x.connection in s.locks && s.locks[x.connection] == l.value)
    && (Holds(x.pc) ==> l.value in s.holders && s.holders[l.value] == t)
  }

  /** At most one task per connection is between the start and the end of a refresh. */
  ghost predicate SingleFlight(s: State) {
    forall t, u ::
      (&& t in s.tasks && u in s.tasks && Refreshing(s.tasks[t].pc) && Refreshing(s.tasks[u].pc)
       && s.tasks[t].connection == s.tasks[u].connection) ==> t == u
  }

  ghost predicate Inv(s: State) {
    && s.rows.Keys !! s.dead
    && (forall c :: c in s.locks ==> s.locks[c] in s.owners && s.owners[s.locks[c]] == c)
    && (forall l :: l in s.owners ==> l < s.nextLock)
    && (forall l :: l in s.holders ==> s.holders[l] in s.tasks && Holds(s.tasks[s.holders[l]].pc) && LockOf(s.tasks[s.holders[l]].pc) == Some(l))
    && (forall t :: t in s.tasks ==> TaskOk(s, t))
    && SingleFlight(s)
  }

  ghost predicate Initial(s: State) {
    s.tasks == map[] && s.locks == map[] && s.holders == map[] && s.owners == map[] && s.calls == [] && s.rows.Keys !! s.dead
  }

  lemma NewLockKeeps(s: State, c: string)
    requires Inv(s) && c !in s.locks
    ensures Inv(s.(locks := s.locks[c := s.nextLock], owners := s.owners[s.nextLock := c], nextLock := s.nextLock + 1))
  {
    var s' := s.(locks := s.locks[c := s.nextLock], owners := s.owners[s.nextLock := c], nextLock := s.nextLock + 1);
    forall u | u in s'.tasks ensures TaskOk(s', u) { assert TaskOk(s, u); }
  }

  lemma WaitKeeps(s: State, t: nat)
    requires Inv(s) && t in s.tasks && s.tasks[t].pc.Entering? && s.tasks[t].connection in s.locks
    ensures Inv(Move(s, t, Waiting(s.locks[s.tasks[t].connection])))
  {
    var s' := Move(s, t, Waiting(s.locks[s.tasks[t].connection]));
    forall u | u in s'.tasks ensures TaskOk(s', u) { assert TaskOk(s, u); }
  }

  lemma EnterKeeps(s: State, t: nat)
    requires Inv(s) && t in s.tasks && s.tasks[t].pc.Entering?
    ensures Inv(Enter(s, t))
  {
    var x := s.tasks[t];
    if x.copy.status == NeedsReconnect { LeaveKeeps(s, t, Permanent); }
    else if Fresh(x.copy, s.now) { LeaveKeeps(s, t, Returned(x.copy.access)); }
    else if x.connection in s.locks { WaitKeeps(s, t); }
    else { EnterNewKeeps(s, t); }
  }

  lemma EnterNewKeeps(s: State, t: nat)
    requires Inv(s) && t in s.tasks && s.tasks[t].pc.Entering? && s.tasks[t].connection !in s.locks
    requires s.tasks[t].copy.status == Active && !Fresh(s.tasks[t].copy, s.now)
    ensures Inv(Enter(s, t))
  {
    var c := s.tasks[t].connection;
    var s1 := s.(locks := s.locks[c := s.nextLock], owners := s.owners[s.nextLock := c], nextLock := s.nextLock + 1);
    NewLockKeeps(s, c);
    WaitKeeps(s1, t);
    assert Enter(s, t) == Move(s1, t, Waiting(s1.locks[c]));
  }

  lemma LeaveKeeps(s: State, t: nat, result: Result)
    requires Inv(s) && t in s.tasks
    ensures Inv(Leave(s, t, result))
  {
    var s' := Leave(s, t, result);
    forall u | u in s'.tasks ensures TaskOk(s', u) { assert TaskOk(s, u); }
  }

  lemma LoadKeeps(s: State, t: nat)
    requires Inv(s) && t in s.tasks && s.tasks[t].connection in s.rows
    ensures Inv(Load(s, t))
  {
    var s' := Load(s, t);
    forall u | u in s'.tasks ensures TaskOk(s', u) { assert TaskOk(s, u); }
  }

  lemma AcquireTask(s: State, t: nat, l: nat, u: nat)
    requires Inv(s) && t in s.tasks && s.tasks[t].pc == Waiting(l) && l !in s.holders && u in s.tasks
    ensures TaskOk(Move(s.(holders := s.holders[l := t]), t, Reloading(l)), u)
  {
    assert TaskOk(s, u);
  }

  lemma AcquireKeeps(s: State, t: nat, l: nat)
    requires Inv(s) && t in s.tasks && s.tasks[t].pc == Waiting(l) && l !in s.holders
    ensures Inv(Move(s.(holders := s.holders[l := t]), t, Reloading(l)))
  {
    var s' := Move(s.(holders := s.holders[l := t]), t, Reloading(l));
    forall u | u in s'.tasks ensures TaskOk(s', u) { AcquireTask(s, t, l, u); }
    assert SingleFlight(s');
  }

  /** A task starts a refresh only while the row lives; then everybody's lock is the one
      in the dictionary, and only one task can hold it. */
  lemma ContactKeeps(s: State, t: nat)
    requires Inv(s) && t in s.tasks && s.tasks[t].pc.Reloading? && s.tasks[t].connection in s.rows
    ensures Inv(Move(s, t, Contacting(s.tasks[t].pc.lock)))
  {
    var s' := Move(s, t, Contacting(s.tasks[t].pc.lock));
    assert TaskOk(s, t);
    forall u | u in s'.tasks ensures TaskOk(s', u) { assert TaskOk(s, u); }
    forall u | u in s.tasks && Refreshing(s.tasks[u].pc) && s.tasks[u].connection == s.tasks[t].connection ensures u == t {
      assert TaskOk(s, u);
    }
  }

  /** Moving on inside the section, the lock kept. */
  lemma ProceedKeeps(s: State, t: nat, pc: Pc)
    requires Inv(s) && t in s.tasks && Refreshing(s.tasks[t].pc) && Refreshing(pc) && LockOf(pc) == LockOf(s.tasks[t].pc)
    ensures Inv(Move(s, t, pc))
  {
    var s' := Move(s, t, pc);
    forall u | u in s'.tasks ensures TaskOk(s', u) { assert TaskOk(s, u); }
  }

  lemma RowKeeps(s: State, c: string, row: Row)
    requires Inv(s) && c in s.rows
    ensures Inv(s.(rows := s.rows[c := row]))
  {
    var s' := s.(rows := s.rows[c := row]);
    forall u | u in s'.tasks ensures TaskOk(s', u) { assert TaskOk(s, u); }
  }

  lemma CreateKeeps(s: State, c: string, row: Row)
    requires Inv(s) && c !in s.rows && c !in s.dead
    ensures Inv(s.(rows := s.rows[c := row]))
  {
    var s' := s.(rows := s.rows[c := row]);
    forall u | u in s'.tasks ensures TaskOk(s', u) { assert TaskOk(s, u); }
  }

  lemma SpawnKeeps(s: State, t: nat, c: string, pc: Pc)
    requires Inv(s) && t !in s.tasks && c in s.rows && (pc.Entering? || pc.Revoking?)
    ensures Inv(s.(tasks := s.tasks[t := Task(c, s.rows[c], pc)]))
  {
    var s' := s.(tasks := s.tasks[t := Task(c, s.rows[c], pc)]);
    forall u | u in s'.tasks ensures TaskOk(s', u) { if u != t { assert TaskOk(s, u); } }
  }

  /** The row goes first, the lock only afterwards. */
  lemma RevokeKeeps(s: State, t: nat)
    requires Inv(s) && t in s.tasks && s.tasks[t].pc.Revoking?
    ensures Inv(StepTask(s, t))
  {
    var s' := StepTask(s, t);
    forall u | u in s'.tasks ensures TaskOk(s', u) { assert TaskOk(s, u); }
  }

  lemma PopKeeps(s: State, c: string)
    requires Inv(s) && c in s.dead
    ensures Inv(s.(locks := s.locks - {c}))
  {
    var s' := s.(locks := s.locks - {c});
    forall u | u in s'.tasks ensures TaskOk(s', u) { assert TaskOk(s, u); }
  }

  lemma CallsKeep(s: State, calls: seq<Contact>)
    requires Inv(s)
    ensures Inv(s.(calls := calls))
  {
    var s' := s.(calls := calls);
    forall u | u in s'.tasks ensures TaskOk(s', u) { assert TaskOk(s, u); }
  }

  lemma ClockKeeps(s: State, now: int)
    requires Inv(s)
    ensures Inv(s.(now := now))
  {
    var s' := s.(now := now);
    forall u | u in s'.tasks ensures TaskOk(s', u) { assert TaskOk(s, u); }
  }

  lemma ReloadKeeps(s: State, t: nat)
    requires Inv(s) && t in s.tasks && s.tasks[t].pc.Reloading?
    ensures Inv(StepTask(s, t))
  {
    var c := s.tasks[t].connection;
    if c !in s.rows { LeaveKeeps(s, t, Vanished); }
    else {
      if Fresh(s.rows[c], s.now) { LeaveKeeps(s, t, Returned(s.rows[c].access)); }
      else {
        LoadKeeps(s, t);
        ContactKeeps(Load(s, t), t);
        CallsKeep(Move(Load(s, t), t, Contacting(s.tasks[t].pc.lock)), s.calls + [Contact(t, c)]);
      }
    }
  }

  lemma FlushKeeps(s: State, c: string, copy: Row, changed: Row)
    requires Inv(s)
    ensures Inv(Flush(s, c, copy, changed))
  {
    if c in s.rows { RowKeeps(s, c, Merged(s.rows[c], copy, changed)); }
  }

  lemma StoreKeeps(s: State, t: nat)
    requires Inv(s) && t in s.tasks && s.tasks[t].pc.Storing?
    ensures Inv(StepTask(s, t))
  {
    var x := s.tasks[t];
    var c := x.connection;
    var changed := x.copy.(access := Some(x.pc.token), expiry := Some(x.pc.expiry), status := Active);
    if c !in s.rows && changed != x.copy { LeaveKeeps(s, t, Vanished); }
    else {
      FlushKeeps(s, c, x.copy, changed);
      ProceedKeeps(Flush(s, c, x.copy, changed), t, Rereading(x.pc.lock));
    }
  }

  lemma RejectIs(s: State, t: nat)
    requires t in s.tasks && s.tasks[t].pc.Rejecting?
    ensures var x := s.tasks[t];
            var changed := x.copy.(status := NeedsReconnect);
            StepTask(s, t) == if x.connection !in s.rows && changed != x.copy then Leave(s, t, Vanished)
                              else Leave(Flush(s, x.connection, x.copy, changed), t, Permanent)
  {
  }

  lemma RejectKeeps(s: State, t: nat)
    requires Inv(s) && t in s.tasks && s.tasks[t].pc.Rejecting?
    ensures Inv(StepTask(s, t))
  {
    var x := s.tasks[t];
    var changed := x.copy.(status := NeedsReconnect);
    RejectIs(s, t);
    if x.connection !in s.rows && changed != x.copy { LeaveKeeps(s, t, Vanished); }
    else {
      FlushKeeps(s, x.connection, x.copy, changed);
      LeaveKeeps(Flush(s, x.connection, x.copy, changed), t, Permanent);
    }
  }

  lemma RereadKeeps(s: State, t: nat)
    requires Inv(s) && t in s.tasks && s.tasks[t].pc.Rereading?
    ensures Inv(StepTask(s, t))
  {
    var c := s.tasks[t].connection;
    LeaveKeeps(s, t, if c !in s.rows then Vanished else Returned(s.rows[c].access));
  }

  lemma PoppingKeeps(s: State, t: nat)
    requires Inv(s) && t in s.tasks && s.tasks[t].pc.Popping?
    ensures Inv(StepTask(s, t))
  {
    var c := s.tasks[t].connection;
    assert TaskOk(s, t);
    PopKeeps(s, c);
    LeaveKeeps(s.(locks := s.locks - {c}), t, Deleted);
  }

  lemma StepKeeps(s: State, t: nat)
    requires Inv(s) && t in s.tasks
    ensures Inv(StepTask(s, t))
  {
    match s.tasks[t].pc
    case Entering => EnterKeeps(s, t);
    case Waiting(l) => if l !in s.holders { AcquireKeeps(s, t, l); }
    case Reloading(_) => ReloadKeeps(s, t);
    case Storing(_, _, _) => StoreKeeps(s, t);
    case Rejecting(_) => RejectKeeps(s, t);
    case Rereading(_) => RereadKeeps(s, t);
    case Revoking => RevokeKeeps(s, t);
    case Popping => PoppingKeeps(s, t);
    case _ =>
  }

  lemma ReplyKeeps(s: State, t: nat, token: string, expiresIn: int)
    requires Inv(s)
    ensures Inv(Next(s, Reply(t, token, expiresIn)))
  {
    if AtProvider(s, t) { ProceedKeeps(s, t, Storing(s.tasks[t].pc.lock, token, s.now + expiresIn)); }
  }

  lemma RejectionKeeps(s: State, t: nat)
    requires Inv(s)
    ensures Inv(Next(s, Reject(t)))
  {
    if AtProvider(s, t) { ProceedKeeps(s, t, Rejecting(s.tasks[t].pc.lock)); }
  }

  lemma FailKeeps(s: State, t: nat)
    requires Inv(s)
    ensures Inv(Next(s, Fail(t)))
  {
    if AtProvider(s, t) { LeaveKeeps(s, t, Transient); }
  }

  lemma OtherKeeps(s: State, l: Label)
    requires Inv(s) && !l.Reply? && !l.Reject? && !l.Fail?
    ensures Inv(Next(s, l))
  {
    match l
    case Call(t, c) => if t !in s.tasks && c in s.rows { SpawnKeeps(s, t, c, Entering); }
    case Disconnect(t, c) => if t !in s.tasks && c in s.rows { SpawnKeeps(s, t, c, Revoking); }
    case Step(t) => if t in s.tasks { StepKeeps(s, t); }
    case Abort(t) => if t in s.tasks { LeaveKeeps(s, t, Aborted); }
    case Create(c, row) => if c !in s.rows && c !in s.dead { CreateKeeps(s, c, row); }
    case Upsert(c, row) => if c in s.rows { RowKeeps(s, c, row); }
    case Tick(n) => ClockKeeps(s, s.now + n);
    case _ =>
  }

  lemma NextKeeps(s: State, l: Label)
    requires Inv(s)
    ensures Inv(Next(s, l))
  {
    match l
    case Reply(t, token, n) => ReplyKeeps(s, t, token, n);
    case Reject(t) => RejectionKeeps(s, t);
    case Fail(t) => FailKeeps(s, t);
    case _ => OtherKeeps(s, l);
  }

  /** Single flight survives disconnects: under every interleaving of callers, replies,
      aborts, reconnects and `delete_connection`, at most one task per connection is
      inside a refresh. */
  lemma {:induction false} SingleFlightAlways(s: State, ls: seq<Label>)
    requires Initial(s)
    ensures Inv(Exec(s, ls)) && SingleFlight(Exec(s, ls))
  {
    if |ls| > 0 {
      SingleFlightAlways(s, ls[..|ls| - 1]);
      NextKeeps(Exec(s, ls[..|ls| - 1]), ls[|ls| - 1]);
    }
  }

  /** Why: once a connection has had a lock removed or replaced, its row is gone for good,
      so a task that holds a lock other than the dictionary's -- or a new lock beside an old
      one -- finds no row at its reload and never reaches the provider. */
  lemma StaleLockVanishes(s: State, ls: seq<Label>, t: nat)
    requires Initial(s) && t in Exec(s, ls).tasks && Exec(s, ls).tasks[t].pc.Reloading?
    requires var f := Exec(s, ls);
             var c := f.tasks[t].connection;
             || c !in f.locks || f.locks[c] != f.tasks[t].pc.lock
             || (exists u :: u in f.tasks && f.tasks[u].connection == c && LockOf(f.tasks[u].pc).Some? && LockOf(f.tasks[u].pc) != LockOf(f.tasks[t].pc))
    ensures var f := Exec(s, ls);
            && f.tasks[t].connection in f.dead
            && t in Next(f, Step(t)).tasks && Next(f, Step(t)).tasks[t].pc == Finished(Vanished)
            && Next(f, Step(t)).calls == f.calls
  {
    SingleFlightAlways(s, ls);
    var f := Exec(s, ls);
    assert TaskOk(f, t);
    if u :| u in f.tasks && f.tasks[u].connection == f.tasks[t].connection && LockOf(f.tasks[u].pc).Some?
            && LockOf(f.tasks[u].pc) != LockOf(f.tasks[t].pc) {
      assert TaskOk(f, u);
    }
  }
}
