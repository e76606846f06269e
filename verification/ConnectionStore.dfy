/** `upsert_connection`, `get_valid_access_token` and `delete_connection` called one after
    another (`app/services/connection_service.py`): what is stored, what is sent to the
    provider, and when a connection refuses. */
module ConnectionStore {
  import opened Wrappers
  import opened Text
  import opened TokenCache

  /** `app/crypto.py`, of which only the round trip is used. */
  datatype Cipher = Cipher(encrypt: string -> string, decrypt: string -> string) {
    ghost predicate RoundTrips() {
      forall x :: decrypt(encrypt(x)) == x
    }
  }

  datatype Bundle = Bundle(access: string, expiresIn: int, scope: string, refreshToken: Option<string>)

  /** A row of `oauth_connections`; `tokens` are the columns the cache works on. */
  datatype Connection = Connection(id: nat, email: string, googleUserId: Option<string>, scopes: seq<string>, tokens: Row)

  /** What the token endpoint answers: a bundle, an HTTP error, no answer, or a body that cannot be read. */
  datatype Reply = Granted(bundle: Bundle) | Refused(code: int) | Unreachable | Garbled

  /** When the request starts, when it holds the lock and when the provider has answered. */
  datatype Clock = Clock(start: int, locked: int, answered: int)

  datatype Answer = Token(token: string) | PermanentError | TransientError | OtherError | NotConnected

  /** What was sent to the provider. */
  datatype Message = Refresh(user: string, token: string) | Revoke(user: string, token: string)

  /** The rows by their unique user, the ids with a lock in the dictionary, and all messages sent. */
  datatype Db = Db(rows: map<string, Connection>, locked: set<nat>, nextId: nat, sent: seq<Message>)

  datatype Op =
    | Connect(user: string, bundle: Bundle, email: string, googleUserId: Option<string>, now: int)
    | Ask(user: string, clock: Clock, reply: Reply)
    | Disconnect(user: string)

  predicate Given(token: Option<string>) {
    token.Some? && token.value != ""
  }

  predicate IsRejection(reply: Reply) {
    reply.Refused? && 400 <= reply.code < 500
  }

  /** The row after a consent; a new row without a refresh token violates NOT NULL. */
  function Consented(k: Cipher, db: Db, op: Op): Option<Connection>
    requires op.Connect?
  {
    var b := op.bundle;
    var known := op.user in db.rows;
    if !known && !Given(b.refreshToken) then None
    else
      Some(Connection(
        if known then db.rows[op.user].id else db.nextId,
        op.email,
        if known && op.googleUserId.None? then db.rows[op.user].googleUserId else op.googleUserId,
        Words(b.scope),
        Row(if Given(b.refreshToken) then k.encrypt(b.refreshToken.value) else db.rows[op.user].tokens.refreshEncrypted,
            Some(b.access), Some(op.now + b.expiresIn), Active)))
  }

  /** The request gets as far as the provider. */
  predicate Contacts(db: Db, user: string, clock: Clock) {
    && user in db.rows && db.rows[user].tokens.status == Active
    && !Fresh(db.rows[user].tokens, clock.start) && !Fresh(db.rows[user].tokens, clock.locked)
  }

  /** The row after the provider's answer. */
  function Renewed(c: Connection, clock: Clock, reply: Reply): Connection {
    match reply
    case Granted(b) =>
      c.(tokens := c.tokens.(access := Some(b.access), expiry := Some(clock.answered + b.expiresIn), status := Active),
         scopes := if b.scope != "" then Words(b.scope) else c.scopes)
    case _ => if IsRejection(reply) then c.(tokens := c.tokens.(status := NeedsReconnect)) else c
  }

  function AnswerTo(db: Db, user: string, clock: Clock, reply: Reply): Answer {
    if user !in db.rows then NotConnected
    else if db.rows[user].tokens.status == NeedsReconnect then PermanentError
    else if !Contacts(db, user, clock) then Token(db.rows[user].tokens.access.value)
    else
      match reply
      case Granted(b) => Token(b.access)
      case Refused(_) => if IsRejection(reply) then PermanentError else TransientError
      case Unreachable => TransientError
      case Garbled => OtherError
  }

  function Asked(k: Cipher, db: Db, user: string, clock: Clock, reply: Reply): Db {
    if user !in db.rows || db.rows[user].tokens.status == NeedsReconnect || Fresh(db.rows[user].tokens, clock.start) then db
    else
      var c := db.rows[user];
      var d := db.(locked := db.locked + {c.id});
      if Fresh(c.tokens, clock.locked) then d
      else d.(sent := d.sent + [Refresh(user, k.decrypt(c.tokens.refreshEncrypted))],
              rows := d.rows[user := Renewed(c, clock, reply)])
  }

  function Apply(k: Cipher, db: Db, op: Op): Db {
    match op
    case Connect(user, _, _, _, _) =>
      var row := Consented(k, db, op);
      if row.None? then db
      else db.(rows := db.rows[user := row.value], nextId := if user in db.rows then db.nextId else db.nextId + 1)
    case Ask(user, clock, reply) => Asked(k, db, user, clock, reply)
    case Disconnect(user) =>
      if user !in db.rows then db
      else
        var c := db.rows[user];
        db.(rows := db.rows - {user}, locked := db.locked - {c.id},
            sent := db.sent + [Revoke(user, k.decrypt(c.tokens.refreshEncrypted))])
  }

  function Run(k: Cipher, ops: seq<Op>): Db {
    if |ops| == 0 then Db(map[], {}, 0, []) else Apply(k, Run(k, ops[..|ops| - 1]), ops[|ops| - 1])
  }

  // ---------------------------------------------------------------- the service

  class Lock {
    constructor () {}
  }

  class ConnectionService {
    const cipher: Cipher
    var rows: map<string, Connection>
    var locks: map<nat, Lock>
    var nextId: nat
    ghost var sent: seq<Message>

    constructor (k: Cipher)
      ensures cipher == k && Now() == Run(k, [])
    {
      cipher, rows, locks, nextId, sent := k, map[], map[], 0, [];
    }

    ghost function Now(): Db
      reads this
    {
      Db(rows, locks.Keys, nextId, sent)
    }

    /** `_lock_for` */
    method LockFor(id: nat) returns (lock: Lock)
      modifies this`locks
      ensures locks == old(locks)[id := lock]
      ensures id in old(locks) ==> lock == old(locks)[id]
      ensures id !in old(locks) ==> fresh(lock)
    {
      if id in locks {
        lock := locks[id];
      } else {
        lock := new Lock();
        locks := locks[id := lock];
      }
    }

    method UpsertConnection(user: string, bundle: Bundle, email: string, googleUserId: Option<string>, now: int)
      returns (stored: bool)
      modifies this
      ensures Now() == Apply(cipher, old(Now()), Connect(user, bundle, email, googleUserId, now))
      ensures stored <==> user in rows
    {
      var isNew := user !in rows;
      if isNew && !Given(bundle.refreshToken) {
        return false;
      }
      var c := if isNew then Connection(nextId, email, None, [], Row("", None, None, Active)) else rows[user];
      c := c.(email := email);
      if googleUserId.Some? {
        c := c.(googleUserId := googleUserId);
      }
      if Given(bundle.refreshToken) {
        c := c.(tokens := c.tokens.(refreshEncrypted := cipher.encrypt(bundle.refreshToken.value)));
      }
      c := c.(tokens := c.tokens.(access := Some(bundle.access), expiry := Some(now + bundle.expiresIn), status := Active));
      c := c.(scopes := Words(bundle.scope));
      if isNew {
        nextId := nextId + 1;
      }
      rows := rows[user := c];
      return true;
    }

    method GetValidAccessToken(user: string, clock: Clock, reply: Reply) returns (answer: Answer)
      modifies this
      ensures answer == AnswerTo(old(Now()), user, clock, reply)
      ensures Now() == Asked(cipher, old(Now()), user, clock, reply)
      ensures user in old(rows) && old(rows)[user].tokens.status == Active ==>
                (sent == old(sent) <==> UsableAt(old(rows)[user].tokens, clock.start) || UsableAt(old(rows)[user].tokens, clock.locked))
    {
      if user !in rows {
        return NotConnected;
      }
      var c := rows[user];
      if c.tokens.status == NeedsReconnect {
        return PermanentError;
      }
      if Fresh(c.tokens, clock.start) {
        return Token(c.tokens.access.value);
      }
      var lock := LockFor(c.id);
      assert locks.Keys == old(locks).Keys + {c.id};
      if Fresh(c.tokens, clock.locked) {
        return Token(c.tokens.access.value);
      }
      sent := sent + [Refresh(user, cipher.decrypt(c.tokens.refreshEncrypted))];
      match reply {
        case Granted(bundle) =>
          c := c.(tokens := c.tokens.(access := Some(bundle.access)));
          c := c.(tokens := c.tokens.(expiry := Some(clock.answered + bundle.expiresIn)));
          if bundle.scope != "" {
            c := c.(scopes := Words(bundle.scope));
          }
          c := c.(tokens := c.tokens.(status := Active));
          answer := Token(bundle.access);
        case Refused(code) =>
          if 400 <= code < 500 {
            c := c.(tokens := c.tokens.(status := NeedsReconnect));
            answer := PermanentError;
          } else {
            answer := TransientError;
          }
        case Unreachable => answer := TransientError;
        case Garbled => answer := OtherError;
      }
      rows := rows[user := c];
    }

    /** The revocation may fail; nothing depends on its outcome. */
    method DeleteConnection(user: string)
      modifies this
      ensures Now() == Apply(cipher, old(Now()), Op.Disconnect(user))
    {
      if user !in rows {
        return;
      }
      var c := rows[user];
      sent := sent + [Revoke(user, cipher.decrypt(c.tokens.refreshEncrypted))];
      rows := rows - {user};
      locks := locks - {c.id};
    }
  }

  // ---------------------------------------------------------------- when the provider is asked

  /** At moment `m` the stored token has more than a minute left. */
  ghost predicate UsableAt(row: Row, m: int) {
    exists token: string, expiry: int :: row.access == Some(token) && row.expiry == Some(expiry) && expiry > m + 60
  }

  /** An active connection contacts the provider exactly when neither at the start nor under
      the lock the stored token has more than a minute left. If it has, that token is the
      answer; otherwise one refresh is sent, with the stored refresh token. */
  lemma RefreshIffStale(k: Cipher, db: Db, user: string, clock: Clock, reply: Reply)
    requires user in db.rows && db.rows[user].tokens.status == Active
    ensures var row, after := db.rows[user].tokens, Asked(k, db, user, clock, reply);
            if UsableAt(row, clock.start) || UsableAt(row, clock.locked)
            then after.sent == db.sent && after.rows == db.rows
                 && exists token :: row.access == Some(token) && AnswerTo(db, user, clock, reply) == Token(token)
            else after.sent == db.sent + [Refresh(user, k.decrypt(row.refreshEncrypted))] && after.locked == db.locked + {db.rows[user].id}
    ensures Contacts(db, user, clock) <==>
              !UsableAt(db.rows[user].tokens, clock.start) && !UsableAt(db.rows[user].tokens, clock.locked)
  {
    var row := db.rows[user].tokens;
    UsableIsFresh(row, clock.start);
    UsableIsFresh(row, clock.locked);
  }

  lemma UsableIsFresh(row: Row, m: int)
    ensures UsableAt(row, m) <==> Fresh(row, m)
  {
    if Fresh(row, m) { assert row.access == Some(row.access.value) && row.expiry == Some(row.expiry.value); }
  }

  /** A request that sends nothing to the provider answers with a token only if that token was
      stored with more than a minute left at one of the two moments. */
  lemma UnsentTokenWasUsable(k: Cipher, db: Db, user: string, clock: Clock, reply: Reply)
    requires AnswerTo(db, user, clock, reply).Token? && Asked(k, db, user, clock, reply).sent == db.sent
    ensures user in db.rows && db.rows[user].tokens.access == Some(AnswerTo(db, user, clock, reply).token)
    ensures var expiry := db.rows[user].tokens.expiry;
            expiry.Some? && (expiry.value > clock.start + 60 || expiry.value > clock.locked + 60)
  {
    RefreshIffStale(k, db, user, clock, reply);
  }

  // ---------------------------------------------------------------- whole histories

  /** The last non-empty refresh token the user consented to since the last disconnect. */
  function LastGiven(ops: seq<Op>, user: string): Option<string> {
    if |ops| == 0 then None
    else
      var op := ops[|ops| - 1];
      if op.user == user && op.Connect? && op.bundle.refreshToken !in {None, Some("")} then op.bundle.refreshToken
      else if op.user == user && op.Disconnect? then None
      else LastGiven(ops[..|ops| - 1], user)
  }

  /** A user has a row exactly when a refresh token was given since the last disconnect,
      and the row holds that one: later consents without a token, refreshes and failures
      never replace it. */
  lemma {:induction false} StoredRefreshToken(k: Cipher, ops: seq<Op>, user: string)
    requires k.RoundTrips()
    ensures var db := Run(k, ops);
            && (user in db.rows <==> LastGiven(ops, user).Some?)
            && (user in db.rows ==> k.decrypt(db.rows[user].tokens.refreshEncrypted) == LastGiven(ops, user).value)
  {
    if |ops| > 0 {
      StoredRefreshToken(k, ops[..|ops| - 1], user);
    }
  }

  /** An operation sends nothing, or one message about its user carrying the stored token;
      a refresh only when it gets as far as the provider. */
  lemma OneMessage(k: Cipher, db: Db, op: Op)
    ensures var sent := Apply(k, db, op).sent;
            || sent == db.sent
            || (exists x :: sent == db.sent + [x] && x.user == op.user && op.user in db.rows
                 && x.token == k.decrypt(db.rows[op.user].tokens.refreshEncrypted)
                 && (x.Refresh? ==> op.Ask? && Contacts(db, op.user, op.clock)))
  {
  }

  /** Operation `n` sent `x` as message number `i`, with the refresh token that was current. */
  ghost predicate SentBy(k: Cipher, ops: seq<Op>, n: nat, x: Message, i: nat) {
    && n < |ops| && |Run(k, ops[..n]).sent| == i && Run(k, ops[..n + 1]).sent == Run(k, ops[..n]).sent + [x]
    && x.user == ops[n].user && LastGiven(ops[..n], x.user) == Some(x.token)
  }

  lemma SentByExtends(k: Cipher, ops: seq<Op>, m: nat, n: nat, x: Message, i: nat)
    requires m <= |ops| && SentBy(k, ops[..m], n, x, i)
    ensures SentBy(k, ops, n, x, i)
  {
    assert ops[..m][..n] == ops[..n] && ops[..m][..n + 1] == ops[..n + 1];
  }

  /** Every refresh and every revocation ever sent carries the token that was current. */
  lemma {:induction false} SentTokenIsCurrent(k: Cipher, ops: seq<Op>, i: nat)
    requires k.RoundTrips() && i < |Run(k, ops).sent|
    ensures exists n: nat :: SentBy(k, ops, n, Run(k, ops).sent[i], i)
  {
    var n := |ops| - 1;
    var before := Run(k, ops[..n]);
    OneMessage(k, before, ops[n]);
    if i < |before.sent| {
      SentTokenIsCurrent(k, ops[..n], i);
      var m: nat :| SentBy(k, ops[..n], m, before.sent[i], i);
      SentByExtends(k, ops, n, m, before.sent[i], i);
    } else {
      StoredRefreshToken(k, ops[..n], ops[n].user);
      assert ops[..n + 1] == ops;
      assert SentBy(k, ops, n, Run(k, ops).sent[i], i);
    }
  }

  /** Operation `n` is a refresh that the provider rejects, with no consent and no
      disconnect of the user after it. */
  ghost predicate RejectedAt(k: Cipher, ops: seq<Op>, user: string, n: nat) {
    && n < |ops| && ops[n].Ask? && ops[n].user == user && ops[n].reply.Refused? && 400 <= ops[n].reply.code <= 499
    && Contacts(Run(k, ops[..n]), user, ops[n].clock)
    && forall m :: n < m < |ops| && ops[m].user == user ==> ops[m].Ask?
  }

  lemma RejectedExtends(k: Cipher, ops: seq<Op>, user: string, n: nat)
    requires n < |ops| - 1
    ensures var last := |ops| - 1;
            RejectedAt(k, ops, user, n) <==>
              RejectedAt(k, ops[..last], user, n) && (ops[last].user == user ==> ops[last].Ask?)
  {
    var last := |ops| - 1;
    assert ops[..last][..n] == ops[..n];
    assert forall m :: n < m < last ==> ops[..last][m] == ops[m];
  }

  /** What one operation does to "this connection needs a reconnect". */
  lemma OneOp(k: Cipher, db: Db, op: Op, user: string)
    ensures var after := Apply(k, db, op);
            (user in after.rows && after.rows[user].tokens.status == NeedsReconnect) <==>
              if op.user == user && !op.Ask? then false
              else if op.user == user && Contacts(db, user, op.clock) then IsRejection(op.reply)
              else user in db.rows && db.rows[user].tokens.status == NeedsReconnect
  {
  }

  /** A connection needs a reconnect exactly when the provider has rejected a refresh since
      the user last consented. */
  lemma {:induction false} NeedsReconnectIff(k: Cipher, ops: seq<Op>, user: string)
    ensures var db := Run(k, ops);
            (user in db.rows && db.rows[user].tokens.status == NeedsReconnect) <==> exists n: nat :: RejectedAt(k, ops, user, n)
  {
    if |ops| > 0 {
      var last := |ops| - 1;
      var before := ops[..last];
      NeedsReconnectIff(k, before, user);
      OneOp(k, Run(k, before), ops[last], user);
      forall n: nat | n < last
        ensures RejectedAt(k, ops, user, n) <==> RejectedAt(k, before, user, n) && (ops[last].user == user ==> ops[last].Ask?)
      {
        RejectedExtends(k, ops, user, n);
      }
      assert RejectedAt(k, ops, user, last) <==> (ops[last].Ask? && ops[last].user == user && IsRejection(ops[last].reply)
                                                  && Contacts(Run(k, before), user, ops[last].clock));
    }
  }

  // ---------------------------------------------------------------- what a row remembers

  /** Operation `n` is a refresh that reached the provider. */
  predicate Sends(k: Cipher, ops: seq<Op>, n: nat)
    requires n < |ops|
  {
    ops[n].Ask? && |Run(k, ops[..n + 1]).sent| > |Run(k, ops[..n]).sent|
  }

  /** The access token and its expiry from the last consent or granted refresh. */
  function LastGrant(k: Cipher, ops: seq<Op>, user: string): Option<(string, int)> {
    if |ops| == 0 then None
    else
      var n := |ops| - 1;
      var op := ops[n];
      if op.user != user then LastGrant(k, ops[..n], user)
      else
        match op
        case Connect(_, b, _, _, now) => Some((b.access, now + b.expiresIn))
        case Ask(_, clock, Granted(b)) =>
          if Sends(k, ops, n) then Some((b.access, clock.answered + b.expiresIn)) else LastGrant(k, ops[..n], user)
        case _ => LastGrant(k, ops[..n], user)
  }

  /** The scopes named by the last consent, or by a later refresh that names some. */
  function LastScope(k: Cipher, ops: seq<Op>, user: string): string {
    if |ops| == 0 then ""
    else
      var n := |ops| - 1;
      var op := ops[n];
      if op.user == user && op.Connect? then op.bundle.scope
      else if op.user == user && op.Ask? && op.reply.Granted? && op.reply.bundle.scope != "" && Sends(k, ops, n) then op.reply.bundle.scope
      else LastScope(k, ops[..n], user)
  }

  /** The address of the last consent, and the account id of the last stored consent with one. */
  function LastEmail(ops: seq<Op>, user: string): string {
    if |ops| == 0 then ""
    else if ops[|ops| - 1].user == user && ops[|ops| - 1].Connect? then ops[|ops| - 1].email
    else LastEmail(ops[..|ops| - 1], user)
  }

  function LastAccount(ops: seq<Op>, user: string): Option<string> {
    if |ops| == 0 then None
    else
      var op := ops[|ops| - 1];
      if op.user == user && op.Disconnect? then None
      else if op.user == user && op.Connect? && op.googleUserId.Some? && LastGiven(ops, user).Some? then op.googleUserId
      else LastAccount(ops[..|ops| - 1], user)
  }

  lemma WholeRun(k: Cipher, ops: seq<Op>)
    requires |ops| > 0
    ensures var n := |ops| - 1;
            ops[n].Ask? ==> (Sends(k, ops, n) <==> Contacts(Run(k, ops[..n]), ops[n].user, ops[n].clock))
  {
    assert ops[..|ops|] == ops;
  }

  predicate Grants(db: Db, op: Op) {
    op.Ask? && op.reply.Granted? && Contacts(db, op.user, op.clock)
  }

  /** What one operation makes of the columns a grant sets. */
  lemma GrantStep(k: Cipher, db: Db, op: Op, user: string)
    requires user in Apply(k, db, op).rows
    ensures var c := Apply(k, db, op).rows[user];
            if op.user == user && op.Connect? then
              && c.tokens.access == Some(op.bundle.access) && c.tokens.expiry == Some(op.now + op.bundle.expiresIn)
              && c.scopes == Words(op.bundle.scope) && c.email == op.email
            else
              && user in db.rows && c.email == db.rows[user].email
              && if op.user == user && Grants(db, op) then
                   && c.tokens.access == Some(op.reply.bundle.access)
                   && c.tokens.expiry == Some(op.clock.answered + op.reply.bundle.expiresIn)
                   && c.scopes == if op.reply.bundle.scope != "" then Words(op.reply.bundle.scope) else db.rows[user].scopes
                 else
                   && c.tokens.access == db.rows[user].tokens.access && c.tokens.expiry == db.rows[user].tokens.expiry
                   && c.scopes == db.rows[user].scopes
  {
  }

  /** Over every history a row holds the access token and expiry of the last consent or granted
      refresh, its scopes, and the address of the last consent. */
  lemma {:induction false} StoredGrant(k: Cipher, ops: seq<Op>, user: string)
    ensures var db := Run(k, ops);
            user in db.rows ==>
              && LastGrant(k, ops, user).Some?
              && db.rows[user].tokens.access == Some(LastGrant(k, ops, user).value.0)
              && db.rows[user].tokens.expiry == Some(LastGrant(k, ops, user).value.1)
              && db.rows[user].scopes == Words(LastScope(k, ops, user))
              && db.rows[user].email == LastEmail(ops, user)
  {
    if |ops| > 0 {
      StoredGrant(k, ops[..|ops| - 1], user);
      WholeRun(k, ops);
      if user in Run(k, ops).rows { GrantStep(k, Run(k, ops[..|ops| - 1]), ops[|ops| - 1], user); }
    }
  }

  /** The account id is that of the last stored consent with one since the last disconnect. */
  lemma {:induction false} StoredAccount(k: Cipher, ops: seq<Op>, user: string)
    requires k.RoundTrips()
    ensures var db := Run(k, ops);
            LastAccount(ops, user) == if user in db.rows then db.rows[user].googleUserId else None
  {
    StoredRefreshToken(k, ops, user);
    if |ops| > 0 {
      StoredAccount(k, ops[..|ops| - 1], user);
    }
  }

  /** Scopes are tokens of visible characters with single spaces between (section 3.3 of RFC
      6749); what is stored is exactly that list. */
  lemma ScopesSplit(scopes: seq<string>)
    requires forall i :: 0 <= i < |scopes| ==> scopes[i] != "" && forall j :: 0 <= j < |scopes[i]| ==> '!' <= scopes[i][j] <= '~'
    ensures Words(Join(scopes, " ")) == scopes
  {
    forall i | 0 <= i < |scopes| ensures IsWord(scopes[i]) {}
    WordsOfJoin(scopes);
  }

  /** A disconnect revokes the last refresh token given, once, and the row and its lock go. */
  lemma DisconnectRevokes(k: Cipher, ops: seq<Op>, user: string)
    requires k.RoundTrips() && LastGiven(ops, user).Some?
    ensures var before, after := Run(k, ops), Run(k, ops + [Op.Disconnect(user)]);
            && user in before.rows
            && after.sent == before.sent + [Revoke(user, LastGiven(ops, user).value)]
            && after.rows == before.rows - {user} && after.locked == before.locked - {before.rows[user].id}
  {
    StoredRefreshToken(k, ops, user);
    assert (ops + [Op.Disconnect(user)])[..|ops|] == ops;
  }

  function RefreshesOf(sent: seq<Message>, user: string): nat {
    if |sent| == 0 then 0
    else RefreshesOf(sent[..|sent| - 1], user) + if sent[|sent| - 1] == Refresh(user, sent[|sent| - 1].token) then 1 else 0
  }

  predicate Marked(db: Db, user: string) {
    user in db.rows ==> db.rows[user].tokens.status == NeedsReconnect
  }

  lemma RejectionMarks(k: Cipher, db: Db, op: Op, user: string)
    requires op.Ask? && op.user == user && IsRejection(op.reply) && Contacts(db, user, op.clock)
    ensures Marked(Apply(k, db, op), user)
  {
    OneOp(k, db, op, user);
  }

  lemma StillQuiet(k: Cipher, db: Db, op: Op, user: string)
    requires Marked(db, user)
    requires !(op.Connect? && op.user == user)
    ensures RefreshesOf(Apply(k, db, op).sent, user) == RefreshesOf(db.sent, user)
    ensures Marked(Apply(k, db, op), user)
  {
    OneOp(k, db, op, user);
    OneMessage(k, db, op);
    var sent := Apply(k, db, op).sent;
    if sent != db.sent {
      assert sent[..|sent| - 1] == db.sent;
    }
  }

  /** Until the next consent the mark stays and nothing is sent. */
  lemma {:induction false} MarkSticks(k: Cipher, ops: seq<Op>, user: string, n: nat)
    requires n <= |ops| && forall m :: n <= m < |ops| ==> !(ops[m].Connect? && ops[m].user == user)
    requires Marked(Run(k, ops[..n]), user)
    ensures Marked(Run(k, ops), user) && RefreshesOf(Run(k, ops).sent, user) == RefreshesOf(Run(k, ops[..n]).sent, user)
  {
    if n == |ops| {
      assert ops[..n] == ops;
    } else {
      var last := |ops| - 1;
      assert ops[..last][..n] == ops[..n];
      MarkSticks(k, ops[..last], user, n);
      StillQuiet(k, Run(k, ops[..last]), ops[last], user);
    }
  }

  /** After a rejected refresh, until the next consent, the provider is not asked again,
      and every request fails as permanent (or finds no connection after a disconnect). */
  lemma RejectionIsFinal(k: Cipher, ops: seq<Op>, user: string, n: nat, clock: Clock, reply: Reply)
    requires n < |ops| && ops[n].Ask? && ops[n].user == user && ops[n].reply.Refused? && 400 <= ops[n].reply.code <= 499
    requires Contacts(Run(k, ops[..n]), user, ops[n].clock)
    requires forall m :: n < m < |ops| ==> !(ops[m].Connect? && ops[m].user == user)
    ensures var db := Run(k, ops);
            && AnswerTo(db, user, clock, reply) == (if user in db.rows then PermanentError else NotConnected)
            && RefreshesOf(db.sent, user) == RefreshesOf(Run(k, ops[..n + 1]).sent, user)
  {
    assert ops[..n + 1][..n] == ops[..n];
    RejectionMarks(k, Run(k, ops[..n]), ops[n], user);
    MarkSticks(k, ops, user, n + 1);
  }

  /** A stored column changes only when the user consents or disconnects, or when the
      provider grants or rejects a refresh: a transient failure changes none. */
  lemma OnlyVerdictsChangeRows(k: Cipher, db: Db, op: Op)
    requires Apply(k, db, op).rows != db.rows
    ensures op.Ask? ==> Contacts(db, op.user, op.clock) && (op.reply.Granted? || IsRejection(op.reply))
  {
    if op.Ask? && op.user in db.rows {
      assert db.rows[op.user := db.rows[op.user]] == db.rows;
    }
  }

  /** A returned token is the stored one of an active connection, and it is either fresh by
      the clock or was granted in this very request. */
  lemma TokenIsUsable(k: Cipher, db: Db, user: string, clock: Clock, reply: Reply)
    requires AnswerTo(db, user, clock, reply).Token?
    ensures var token := AnswerTo(db, user, clock, reply).token;
            var after := Asked(k, db, user, clock, reply);
            && user in after.rows && after.rows[user].tokens.status == Active
            && after.rows[user].tokens.access == Some(token)
            && (|| Fresh(after.rows[user].tokens, clock.start) || Fresh(after.rows[user].tokens, clock.locked)
                || (reply.Granted? && reply.bundle.access == token
                    && after.rows[user].tokens.expiry == Some(clock.answered + reply.bundle.expiresIn)))
  {
  }

  /** Ids are unique, and the dictionary holds locks of living connections only. */
  ghost predicate Sound(db: Db) {
    && (forall u :: u in db.rows ==> db.rows[u].id < db.nextId)
    && (forall u, v :: u in db.rows && v in db.rows && db.rows[u].id == db.rows[v].id ==> u == v)
    && (forall id :: id in db.locked ==> exists u :: u in db.rows && db.rows[u].id == id)
  }

  lemma ApplyIds(k: Cipher, db: Db, op: Op)
    requires Sound(db)
    ensures var after := Apply(k, db, op);
            && db.nextId <= after.nextId
            && (forall u :: u in after.rows ==> after.rows[u].id == if u in db.rows then db.rows[u].id else db.nextId)
            && (forall u :: u in after.rows && u !in db.rows ==> u == op.user && after.nextId == db.nextId + 1)
            && (forall u :: u in db.rows && u !in after.rows ==> u == op.user && op.Disconnect?)
  {
  }

  lemma ApplyLocks(k: Cipher, db: Db, op: Op)
    ensures var after := Apply(k, db, op);
            && (forall id :: id in after.locked && id !in db.locked ==> op.user in after.rows && after.rows[op.user].id == id)
            && (op.Disconnect? && op.user in db.rows ==> db.rows[op.user].id !in after.locked)
  {
  }

  lemma ApplySound(k: Cipher, db: Db, op: Op)
    requires Sound(db)
    ensures Sound(Apply(k, db, op))
  {
    ApplyIds(k, db, op);
    ApplyLocks(k, db, op);
    var after := Apply(k, db, op);
    forall id | id in after.locked
      ensures exists u :: u in after.rows && after.rows[u].id == id
    {
      if id in db.locked {
        var u :| u in db.rows && db.rows[u].id == id;
        assert u in after.rows && after.rows[u].id == id;
      } else {
        assert op.user in after.rows && after.rows[op.user].id == id;
      }
    }
  }

  /** No lock outlives its connection. */
  lemma {:induction false} LocksAreBounded(k: Cipher, ops: seq<Op>)
    ensures Sound(Run(k, ops)) && |Run(k, ops).locked| <= |Run(k, ops).rows|
  {
    if |ops| > 0 {
      LocksAreBounded(k, ops[..|ops| - 1]);
      ApplySound(k, Run(k, ops[..|ops| - 1]), ops[|ops| - 1]);
    }
    var db := Run(k, ops);
    var ids := set u | u in db.rows :: db.rows[u].id;
    IdsBound(db.rows);
    assert db.locked <= ids;
    SubsetSize(db.locked, ids);
  }

  lemma {:induction false} IdsBound(rows: map<string, Connection>)
    ensures |set u | u in rows :: rows[u].id| <= |rows|
    decreases |rows|
  {
    if rows != map[] {
      var v :| v in rows;
      var rest := rows - {v};
      IdsBound(rest);
      assert rows.Keys == rest.Keys + {v};
      assert (set u | u in rows :: rows[u].id) == (set u | u in rest :: rest[u].id) + {rows[v].id} by {
        assert forall u :: u in rows ==> u == v || (u in rest && rest[u].id == rows[u].id);
        assert forall u :: u in rest ==> u in rows && rest[u].id == rows[u].id;
      }
    }
  }

  lemma {:induction false} SubsetSize<T>(a: set<T>, b: set<T>)
    requires a <= b
    ensures |a| <= |b|
  {
    if a != {} {
      var x :| x in a;
      SubsetSize(a - {x}, b - {x});
    }
  }
}
