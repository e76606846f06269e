/** A request that runs alone through the interleaved token cache does exactly what
    `get_valid_access_token` does serially. */
module TokenSerial {
  import opened Wrappers
  import opened TokenCache
  import ConnectionStore

  /** The provider's answer as a label of the machine. */
  function ReplyLabel(t: nat, reply: ConnectionStore.Reply): Label {
    match reply
    case Granted(b) => Label.Reply(t, b.access, b.expiresIn)
    case Garbled => Abort(t)
    case _ => if ConnectionStore.IsRejection(reply) then Reject(t) else Fail(t)
  }

  function ResultOf(answer: ConnectionStore.Answer): TokenCache.Result {
    match answer
    case Token(token) => Returned(Some(token))
    case PermanentError => Permanent
    case TransientError => Transient
    case OtherError => Aborted
    case NotConnected => Vanished
  }

  /** Up to the lock. */
  function Arrive(s: State, t: nat, c: string): State {
    Next(Next(s, Call(t, c)), Step(t))
  }

  /** Taking the lock and reloading the row. */
  function Enquire(s: State, t: nat): State {
    Next(Next(s, Step(t)), Step(t))
  }

  /** The answer, and the end of the task. */
  function Settle(s: State, t: nat, reply: ConnectionStore.Reply): State {
    Next(Next(Next(s, ReplyLabel(t, reply)), Step(t)), Step(t))
  }

  predicate LockFree(s: State, c: string) {
    c in s.locks ==> s.locks[c] !in s.holders
  }

  lemma ArriveDoes(s: State, t: nat, c: string)
    requires t !in s.tasks && c in s.rows && LockFree(s, c) && s.nextLock !in s.holders
    ensures var s' := Arrive(s, t, c);
            var row := s.rows[c];
            && s'.rows == s.rows && s'.now == s.now && t in s'.tasks && s'.tasks[t].connection == c && s'.tasks[t].copy == row
            && (if row.status == NeedsReconnect then s'.tasks[t].pc == Finished(Permanent)
                else if Fresh(row, s.now) then s'.tasks[t].pc == Finished(Returned(row.access))
                else s'.tasks[t].pc.Waiting? && s'.tasks[t].pc.lock !in s'.holders)
  {
  }

  lemma EnquireDoes(s: State, t: nat, c: string, x: Row)
    requires t in s.tasks && s.tasks[t].connection == c && c in s.rows && s.rows[c] == s.tasks[t].copy == x
    requires s.tasks[t].pc.Waiting? && s.tasks[t].pc.lock !in s.holders && x.status == Active
    ensures var s' := Enquire(s, t);
            && s'.now == s.now && s'.rows == s.rows
            && if Fresh(x, s.now) then EndsWith(s, s', t, c, x, Returned(x.access)) else AtProviderWith(s', t, c, x)
  {
    assert s.rows == s.rows[c := x];
    var s1 := Next(s, Step(t));
    assert s1.tasks[t].pc == Reloading(s.tasks[t].pc.lock) && s1.rows == s.rows && s1.now == s.now;
  }

  lemma DoneStays(s: State, t: nat, l: Label)
    requires t in s.tasks && s.tasks[t].pc.Finished?
    requires l.Step? || l.Reply? || l.Reject? || l.Fail? || l.Abort?
    requires l.task == t
    ensures Next(s, l) == s
  {
  }

  lemma SettleDone(s: State, t: nat, reply: ConnectionStore.Reply)
    requires t in s.tasks && s.tasks[t].pc.Finished?
    ensures Settle(s, t, reply) == s
  {
    DoneStays(s, t, ReplyLabel(t, reply));
    DoneStays(s, t, Step(t));
  }

  lemma EnquireDone(s: State, t: nat)
    requires t in s.tasks && s.tasks[t].pc.Finished?
    ensures Enquire(s, t) == s
  {
    DoneStays(s, t, Step(t));
  }

  /** A task at the provider whose copy is the stored row `x`. */
  predicate AtProviderWith(s: State, t: nat, c: string, x: Row) {
    && t in s.tasks && s.tasks[t].pc.Contacting? && s.tasks[t].connection == c
    && s.tasks[t].copy == x && c in s.rows && s.rows[c] == x && x.status == Active
  }

  /** The task has ended so, and the row is this. */
  predicate EndsWith(s: State, s': State, t: nat, c: string, x: Row, result: TokenCache.Result) {
    t in s'.tasks && s'.tasks[t].pc == Finished(result) && s'.rows == s.rows[c := x]
  }

  lemma GrantDoes(s: State, t: nat, c: string, x: Row, token: string, expiresIn: int)
    requires AtProviderWith(s, t, c, x)
    ensures EndsWith(s, Next(Next(Next(s, Label.Reply(t, token, expiresIn)), Step(t)), Step(t)), t, c,
                     x.(access := Some(token), expiry := Some(s.now + expiresIn)), Returned(Some(token)))
  {
    var s1 := Next(s, Label.Reply(t, token, expiresIn));
    assert s1.tasks[t].pc == Storing(s.tasks[t].pc.lock, token, s.now + expiresIn) && s1.tasks[t].copy == x && s1.rows == s.rows;
    var s2 := Next(s1, Step(t));
    assert s2.tasks[t].pc.Rereading? && s2.tasks[t].connection == c;
    assert s2.rows == s.rows[c := x.(access := Some(token), expiry := Some(s.now + expiresIn))];
  }

  lemma RejectDoes(s: State, t: nat, c: string, x: Row)
    requires AtProviderWith(s, t, c, x)
    ensures EndsWith(s, Next(Next(Next(s, Reject(t)), Step(t)), Step(t)), t, c, x.(status := NeedsReconnect), Permanent)
  {
    var s1 := Next(s, Reject(t));
    assert s1.tasks[t].pc.Rejecting? && s1.tasks[t].connection == c && s1.rows == s.rows;
    var s2 := Next(s1, Step(t));
    assert s2.tasks[t].pc == Finished(Permanent);
    DoneStays(s2, t, Step(t));
  }

  lemma LapseDoes(s: State, t: nat, c: string, x: Row, l: Label, result: TokenCache.Result)
    requires AtProviderWith(s, t, c, x)
    requires (l == Fail(t) && result == Transient) || (l == Abort(t) && result == Aborted)
    ensures EndsWith(s, Next(Next(Next(s, l), Step(t)), Step(t)), t, c, x, result)
  {
    var s1 := Next(s, l);
    assert s1.tasks[t].pc == Finished(result) && s1.rows == s.rows;
    DoneStays(s1, t, Step(t));
    assert s.rows == s.rows[c := x];
  }

  lemma SettleDoes(s: State, t: nat, c: string, x: ConnectionStore.Connection, clock: ConnectionStore.Clock, reply: ConnectionStore.Reply)
    requires s.now == clock.answered && AtProviderWith(s, t, c, x.tokens)
    ensures EndsWith(s, Settle(s, t, reply), t, c, ConnectionStore.Renewed(x, clock, reply).tokens, Outcome(reply))
  {
    match reply
    case Granted(b) => GrantDoes(s, t, c, x.tokens, b.access, b.expiresIn);
    case Garbled => LapseDoes(s, t, c, x.tokens, Abort(t), Aborted);
    case _ =>
      if ConnectionStore.IsRejection(reply) { RejectDoes(s, t, c, x.tokens); }
      else { LapseDoes(s, t, c, x.tokens, Fail(t), Transient); }
  }

  /** The end of a task that was at the provider. */
  function Outcome(reply: ConnectionStore.Reply): TokenCache.Result {
    match reply
    case Granted(b) => Returned(Some(b.access))
    case Garbled => Aborted
    case _ => if ConnectionStore.IsRejection(reply) then Permanent else Transient
  }

  /** The first half: either the request ends at a check, or it reaches the provider. */
  lemma Approach(s: State, t: nat, c: string, x: Row, wait: nat)
    requires c in s.rows && s.rows[c] == x
    requires t !in s.tasks && LockFree(s, c) && s.nextLock !in s.holders
    ensures var s2 := Enquire(Next(Arrive(s, t, c), Tick(wait)), t);
            Halfway(s, s2, t, c, x, wait)
  {
    ArriveDoes(s, t, c);
    var s1 := Arrive(s, t, c);
    var s1' := s1.(now := s.now + wait);
    assert Next(s1, Tick(wait)) == s1';
    assert s.rows == s.rows[c := x];
    if s1'.tasks[t].pc.Finished? {
      EnquireDone(s1', t);
    } else {
      EnquireDoes(s1', t, c, x);
    }
  }

  /** Where the first half leaves a request. */
  predicate Halfway(s: State, s2: State, t: nat, c: string, x: Row, wait: nat) {
    && s2.now == s.now + wait && s2.rows == s.rows
    && if x.status == NeedsReconnect then EndsWith(s, s2, t, c, x, Permanent)
       else if Fresh(x, s.now) || Fresh(x, s.now + wait) then EndsWith(s, s2, t, c, x, Returned(x.access))
       else AtProviderWith(s2, t, c, x)
  }

  lemma Conclude(k: ConnectionStore.Cipher, db: ConnectionStore.Db, user: string, wait: nat, trip: nat,
                 reply: ConnectionStore.Reply, s: State, s2: State, t: nat, c: string)
    requires user in db.rows && Halfway(s, s2, t, c, db.rows[user].tokens, wait)
    ensures var clock := ConnectionStore.Clock(s.now, s.now + wait, s.now + wait + trip);
            EndsWith(s, Settle(Next(s2, Tick(trip)), t, reply), t, c,
                     ConnectionStore.Asked(k, db, user, clock, reply).rows[user].tokens,
                     ResultOf(ConnectionStore.AnswerTo(db, user, clock, reply)))
  {
    var s2' := s2.(now := s2.now + trip);
    assert Next(s2, Tick(trip)) == s2';
    if AtProviderWith(s2, t, c, db.rows[user].tokens) {
      SettleDoes(s2', t, c, db.rows[user], ConnectionStore.Clock(s.now, s.now + wait, s.now + wait + trip), reply);
    } else {
      SettleDone(s2', t, reply);
    }
  }

  // ---------------------------------------------------------------- the run

  /** Up to the reloaded row, the lock taken after `wait`. */
  function Opening(t: nat, c: string, wait: nat): seq<Label> {
    [Call(t, c), Step(t), Tick(wait), Step(t), Step(t)]
  }

  /** The provider's answer after `trip`, and the end of the task. */
  function Closing(t: nat, trip: nat, reply: ConnectionStore.Reply): seq<Label> {
    [Tick(trip), ReplyLabel(t, reply), Step(t), Step(t)]
  }

  lemma {:induction false} ExecAppend(s: State, a: seq<Label>, b: seq<Label>)
    ensures Exec(s, a + b) == Exec(Exec(s, a), b)
  {
    if |b| == 0 {
      assert a + b == a;
    } else {
      var n := |b| - 1;
      var ls := a + b;
      assert ls[..|ls| - 1] == a + b[..n] && ls[|ls| - 1] == b[n];
      ExecAppend(s, a, b[..n]);
    }
  }

  lemma {:induction false} ExecCons(s: State, ls: seq<Label>)
    requires |ls| > 0
    ensures Exec(s, ls) == Exec(Next(s, ls[0]), ls[1..])
  {
    assert [ls[0]] + ls[1..] == ls;
    ExecAppend(s, [ls[0]], ls[1..]);
    assert [ls[0]][..0] == [];
  }

  lemma ExecFour(s: State, ls: seq<Label>)
    requires |ls| == 4
    ensures Exec(s, ls) == Next(Next(Next(Next(s, ls[0]), ls[1]), ls[2]), ls[3])
  {
    ExecCons(s, ls);
    ExecCons(Next(s, ls[0]), ls[1..]);
    ExecCons(Next(Next(s, ls[0]), ls[1]), ls[2..]);
    ExecCons(Next(Next(Next(s, ls[0]), ls[1]), ls[2]), ls[3..]);
  }

  lemma OpeningDoes(s: State, t: nat, c: string, x: Row, wait: nat)
    requires c in s.rows && s.rows[c] == x
    requires t !in s.tasks && LockFree(s, c) && s.nextLock !in s.holders
    ensures Halfway(s, Exec(s, Opening(t, c, wait)), t, c, x, wait)
  {
    Approach(s, t, c, x, wait);
    ExecCons(s, Opening(t, c, wait));
    ExecFour(Next(s, Call(t, c)), Opening(t, c, wait)[1..]);
  }

  /** With the lock free and nobody else moving, the machine takes the request from start to
      end, answers what the serial service answers and leaves the row the serial service leaves. */
  lemma AloneIsSerial(k: ConnectionStore.Cipher, db: ConnectionStore.Db, user: string, wait: nat, trip: nat,
                      reply: ConnectionStore.Reply, s: State, t: nat, c: string)
    requires user in db.rows && c in s.rows && s.rows[c] == db.rows[user].tokens
    requires t !in s.tasks && LockFree(s, c) && s.nextLock !in s.holders
    ensures var clock := ConnectionStore.Clock(s.now, s.now + wait, s.now + wait + trip);
            EndsWith(s, Exec(s, Opening(t, c, wait) + Closing(t, trip, reply)), t, c,
                     ConnectionStore.Asked(k, db, user, clock, reply).rows[user].tokens,
                     ResultOf(ConnectionStore.AnswerTo(db, user, clock, reply)))
  {
    OpeningDoes(s, t, c, db.rows[user].tokens, wait);
    var s2 := Exec(s, Opening(t, c, wait));
    Conclude(k, db, user, wait, trip, reply, s, s2, t, c);
    ExecFour(s2, Closing(t, trip, reply));
    ExecAppend(s, Opening(t, c, wait), Closing(t, trip, reply));
  }
}
