/** The mirror of remote event subscriptions in local rows
    (`app/services/subscription_service.py`): what a whole history of connects, reconnects
    and disconnects can leave behind at the provider. */
module Subscriptions {
  import opened Wrappers

  /** A row of `event_subscriptions`. */
  datatype Subscription = Subscription(name: string, expires: Option<int>, state: string)

  /** The `expireTime` of a reply; one that cannot be parsed raises. */
  datatype Expiry = Missing | At(time: int) | Malformed

  /** A failed delete may have taken effect all the same. */
  datatype Removal = Removed | Failed(tookEffect: bool)

  /** A create: answered and then committed or not, performed with the answer lost, or refused. */
  datatype Creation = Created(name: string, expires: Expiry, committed: bool) | Unheard(name: string) | Refused

  datatype Op =
    | Create(connection: nat, googleUserId: Option<string>, topic: string, hasToken: bool, removal: Removal, creation: Creation)
    | Delete(connection: nat, hasToken: bool, removal: Removal, committed: bool)
    | Expire(name: string)

  /** Live remote subscriptions, all names ever issued, and the local row of each connection. */
  datatype State = State(remote: set<string>, issued: set<string>, local: map<nat, Subscription>)

  /** `_parse_time` on a readable value. */
  function Parsed(e: Expiry): Option<int>
    requires !e.Malformed?
  {
    if e.At? then Some(e.time) else None
  }

  /** `create_for_connection` gets past its two guards. */
  predicate Proceeds(op: Op) {
    op.Create? && op.googleUserId.Some? && op.googleUserId.value != "" && op.topic != "" && op.hasToken
  }

  /** The best-effort delete of the row's remote subscription. */
  function Dropped(s: State, c: nat, removal: Removal): State {
    if c in s.local && (removal.Removed? || removal.tookEffect) then s.(remote := s.remote - {s.local[c].name}) else s
  }

  /** The provider issues a new subscription; it never issues a name twice. */
  predicate Issues(s: State, creation: Creation) {
    !creation.Refused? && creation.name !in s.issued
  }

  /** The new name reaches the local row. */
  predicate Recorded(creation: Creation) {
    creation.Created? && creation.committed && !creation.expires.Malformed?
  }

  function Issued(s: State, c: nat, creation: Creation): State {
    if !Issues(s, creation) then s
    else
      s.(remote := s.remote + {creation.name}, issued := s.issued + {creation.name},
         local := if Recorded(creation)
                  then s.local[c := Subscription(creation.name, Parsed(creation.expires), "active")] else s.local)
  }

  function Apply(s: State, op: Op): State {
    match op
    case Create(c, _, _, _, removal, creation) =>
      if Proceeds(op) then Issued(Dropped(s, c, removal), c, creation) else s
    case Delete(c, hasToken, removal, committed) =>
      var s1 := if hasToken then Dropped(s, c, removal) else s;
      if committed then s1.(local := s1.local - {c}) else s1
    case Expire(name) => s.(remote := s.remote - {name})
  }

  const EMPTY := State({}, {}, map[])

  function Run(ops: seq<Op>): State {
    if |ops| == 0 then EMPTY else Apply(Run(ops[..|ops| - 1]), ops[|ops| - 1])
  }

  // ---------------------------------------------------------------- the service

  class EventsApi {
    var live: set<string>
    var issued: set<string>

    constructor ()
      ensures live == {} && issued == {}
    {
      live, issued := {}, {};
    }

    method DeleteSubscription(name: string, removal: Removal) returns (ok: bool)
      modifies this`live
      ensures ok == removal.Removed?
      ensures live == if removal.Removed? || removal.tookEffect then old(live) - {name} else old(live)
    {
      if removal.Removed? || removal.tookEffect {
        live := live - {name};
      }
      ok := removal.Removed?;
    }

    method CreateSubscription(creation: Creation) returns (answered: bool)
      modifies this
      ensures !creation.Refused? && creation.name !in old(issued) ==>
                live == old(live) + {creation.name} && issued == old(issued) + {creation.name} && answered == creation.Created?
      ensures creation.Refused? || creation.name in old(issued) ==>
                live == old(live) && issued == old(issued) && !answered
    {
      if creation.Refused? || creation.name in issued {
        return false;
      }
      live, issued := live + {creation.name}, issued + {creation.name};
      return creation.Created?;
    }
  }

  datatype Outcome = Skipped | Stored(row: Subscription) | Raised

  class SubscriptionService {
    const api: EventsApi
    var rows: map<nat, Subscription>

    constructor ()
      ensures fresh(api) && Now() == EMPTY
    {
      api := new EventsApi();
      rows := map[];
    }

    ghost function Now(): State
      reads this, api
    {
      State(api.live, api.issued, rows)
    }

    method CreateForConnection(c: nat, googleUserId: Option<string>, topic: string, hasToken: bool,
                               removal: Removal, creation: Creation) returns (r: Outcome)
      modifies this, api
      ensures Now() == Apply(old(Now()), Create(c, googleUserId, topic, hasToken, removal, creation))
      ensures r.Skipped? <==> googleUserId.None? || googleUserId.value == "" || topic == ""
      ensures r.Stored? <==> Proceeds(Create(c, googleUserId, topic, hasToken, removal, creation))
                             && Recorded(creation) && creation.name !in old(api.issued)
      ensures r.Stored? ==> c in rows && rows[c] == r.row && r.row.name in api.live
    {
      if googleUserId.None? || googleUserId.value == "" || topic == "" {
        return Skipped;
      }
      if !hasToken {
        return Raised;
      }
      if c in rows {
        var _ := api.DeleteSubscription(rows[c].name, removal);
      }
      var answered := api.CreateSubscription(creation);
      if !answered || creation.expires.Malformed? || !creation.committed {
        return Raised;
      }
      var row := if c in rows then rows[c] else Subscription("", None, "active");
      row := row.(name := creation.name, expires := Parsed(creation.expires), state := "active");
      rows := rows[c := row];
      return Stored(row);
    }

    method DeleteForConnection(c: nat, hasToken: bool, removal: Removal, committed: bool)
      modifies this, api
      ensures Now() == Apply(old(Now()), Delete(c, hasToken, removal, committed))
    {
      if c !in rows {
        assert rows - {c} == rows;
        return;
      }
      if hasToken {
        var _ := api.DeleteSubscription(rows[c].name, removal);
      }
      if committed {
        rows := rows - {c};
      }
    }

    method GetBySubscriptionName(name: string) returns (r: Option<nat>)
      ensures r.Some? <==> exists c :: Routes(Now(), name, c)
      ensures r.Some? ==> Routes(Now(), name, r.value)
    {
      if c :| c in rows && rows[c].name == name {
        assert Routes(Now(), name, c);
        return Some(c);
      }
      return None;
    }
  }

  // ---------------------------------------------------------------- the local rows

  /** What the operations leave locally for connection `c`: the subscription of the last create
      that was issued and committed, unless a committed delete came after it. */
  function LastRow(ops: seq<Op>, c: nat): Option<Subscription> {
    if |ops| == 0 then None
    else
      var before := ops[..|ops| - 1];
      match ops[|ops| - 1]
      case Delete(d, _, _, true) => if d == c then None else LastRow(before, c)
      case Create(d, Some(googleUserId), topic, true, _, Created(name, expires, true)) =>
        if d == c && googleUserId != "" && topic != "" && name !in Run(before).issued && !expires.Malformed?
        then Some(Subscription(name, if expires == Missing then None else Some(expires.time), "active"))
        else LastRow(before, c)
      case _ => LastRow(before, c)
  }

  /** A connection has a row exactly when its last committed operation was a create, and the
      row is what that create stored. */
  lemma {:induction false} LocalRowIs(ops: seq<Op>, c: nat)
    ensures c in Run(ops).local <==> LastRow(ops, c).Some?
    ensures c in Run(ops).local ==> Run(ops).local[c] == LastRow(ops, c).value
  {
    if |ops| > 0 { LocalRowIs(ops[..|ops| - 1], c); }
  }

  /** The operation ends the live subscription `n`: it expires, or it is its connection's own
      and the best-effort delete takes effect. */
  predicate Ends(s: State, op: Op, n: string) {
    match op
    case Expire(name) => name == n
    case Create(c, _, _, _, removal, _) => Proceeds(op) && Routes(s, n, c) && removal != Failed(false)
    case Delete(c, hasToken, removal, _) => hasToken && Routes(s, n, c) && removal != Failed(false)
  }

  /** A subscription starts when a create that proceeds is not refused, heard of or not. Names
      are never issued again, so one that has ended stays ended; and it ends in no other way. */
  lemma LiveIff(s: State, op: Op, n: string)
    requires Sound(s)
    ensures n in s.issued ==> (n in Apply(s, op).remote <==> n in s.remote && !Ends(s, op, n))
    ensures n !in s.issued ==>
              (n in Apply(s, op).remote <==> op.Create? && Proceeds(op) && op.creation != Refused && op.creation.name == n)
    ensures n in Apply(s, op).issued <==> n in s.issued || n in Apply(s, op).remote
  {
  }

  // ---------------------------------------------------------------- accounting

  /** Events of this subscription reach this connection. */
  predicate Routes(s: State, name: string, c: nat) {
    c in s.local && s.local[c].name == name
  }

  /** Live remote subscriptions that no local row names. */
  function Orphans(s: State): set<string> {
    set n | n in s.remote && forall c :: c in s.local ==> s.local[c].name != n
  }

  /** What went wrong in one operation: the name whose best-effort delete failed or was not
      tried for want of a token, and the name created but never recorded. */
  function LapsesOf(s: State, op: Op): seq<string> {
    match op
    case Create(c, _, _, _, removal, creation) =>
      if !Proceeds(op) then []
      else
        (if c in s.local && removal.Failed? then [s.local[c].name] else [])
        + (if Issues(s, creation) && !Recorded(creation) then [creation.name] else [])
    case Delete(c, hasToken, removal, _) =>
      if c in s.local && (!hasToken || removal.Failed?) then [s.local[c].name] else []
    case Expire(_) => []
  }

  function Lapses(ops: seq<Op>): seq<string> {
    if |ops| == 0 then []
    else Lapses(ops[..|ops| - 1]) + LapsesOf(Run(ops[..|ops| - 1]), ops[|ops| - 1])
  }

  ghost predicate Sound(s: State) {
    && s.remote <= s.issued
    && (forall c :: c in s.local ==> s.local[c].name in s.issued)
    && (forall c, d :: c in s.local && d in s.local && s.local[c].name == s.local[d].name ==> c == d)
  }

  lemma ApplySound(s: State, op: Op)
    requires Sound(s)
    ensures Sound(Apply(s, op))
  {
  }

  lemma RecordedIsOwned(s: State, op: Op)
    ensures op.Create? && Proceeds(op) && Issues(s, op.creation) && Recorded(op.creation) ==>
              Routes(Apply(s, op), op.creation.name, op.connection)
  {
  }

  /** One operation orphans only the names of its own lapses. */
  lemma ApplyOrphans(s: State, op: Op, n: string)
    requires Sound(s) && n in Orphans(Apply(s, op))
    ensures n in Orphans(s) || n in LapsesOf(s, op)
  {
    var s' := Apply(s, op);
    if n !in s.remote {
      assert op.Create? && n == op.creation.name;
      RecordedIsOwned(s, op);
      assert LapsesOf(s, op)[|LapsesOf(s, op)| - 1] == n;
    } else if n !in Orphans(s) {
      var c :| c in s.local && s.local[c].name == n;
      assert c !in s'.local || s'.local[c].name != n;
      assert !op.Expire? && op.connection == c;
      assert LapsesOf(s, op)[0] == n;
    }
  }

  /** Local rows have distinct names, whatever failed before. */
  lemma {:induction false} RunSound(ops: seq<Op>)
    ensures Sound(Run(ops))
  {
    if |ops| > 0 {
      RunSound(ops[..|ops| - 1]);
      ApplySound(Run(ops[..|ops| - 1]), ops[|ops| - 1]);
    }
  }

  /** Every orphan is accounted for by a lapse of its own name. */
  lemma {:induction false} OrphansAreLapses(ops: seq<Op>, n: string)
    requires n in Orphans(Run(ops))
    ensures n in Lapses(ops)
  {
    if |ops| > 0 {
      var before := ops[..|ops| - 1];
      RunSound(before);
      ApplyOrphans(Run(before), ops[|ops| - 1], n);
      if n in Orphans(Run(before)) {
        OrphansAreLapses(before, n);
      }
    }
  }

  lemma {:induction false} NamesBound(names: set<string>, lapses: seq<string>)
    requires forall n :: n in names ==> n in lapses
    ensures |names| <= |lapses|
  {
    if |lapses| == 0 {
      assert names == {};
    } else {
      var last := lapses[|lapses| - 1];
      NamesBound(names - {last}, lapses[..|lapses| - 1]);
      if last in names {
        assert |names - {last}| == |names| - 1;
      } else {
        assert names - {last} == names;
      }
    }
  }

  /** Over any history there are at most as many orphans as failed deletes and unrecorded
      creates together; when nothing fails there is none. */
  lemma OrphanBound(ops: seq<Op>)
    ensures |Orphans(Run(ops))| <= |Lapses(ops)|
  {
    forall n | n in Orphans(Run(ops)) ensures n in Lapses(ops) {
      OrphansAreLapses(ops, n);
    }
    NamesBound(Orphans(Run(ops)), Lapses(ops));
  }

  /** Routing is unambiguous: an event's subscription names at most one connection. */
  lemma RoutingIsUnambiguous(ops: seq<Op>, name: string, c: nat, d: nat)
    requires Routes(Run(ops), name, c) && Routes(Run(ops), name, d)
    ensures c == d
  {
    RunSound(ops);
  }

  // ---------------------------------------------------------------- histories in which all goes well

  /** Both remote calls succeed, and what they did is committed. */
  predicate Smooth(op: Op) {
    match op
    case Create(_, _, _, _, removal, creation) => removal.Removed? && (creation.Refused? || Recorded(creation))
    case Delete(_, hasToken, removal, _) => hasToken && removal.Removed?
    case Expire(_) => true
  }

  lemma {:induction false} SmoothHasNoLapses(ops: seq<Op>)
    requires forall i :: 0 <= i < |ops| ==> Smooth(ops[i])
    ensures Lapses(ops) == []
  {
    if |ops| > 0 {
      SmoothHasNoLapses(ops[..|ops| - 1]);
    }
  }

  /** When all remote calls succeed, every live remote subscription is named by exactly one
      local row. */
  lemma SmoothRunsLeaveNoOrphans(ops: seq<Op>, n: string)
    requires forall i :: 0 <= i < |ops| ==> Smooth(ops[i])
    requires n in Run(ops).remote
    ensures exists c :: Routes(Run(ops), n, c) && forall d :: Routes(Run(ops), n, d) ==> d == c
  {
    SmoothHasNoLapses(ops);
    if n in Orphans(Run(ops)) {
      OrphansAreLapses(ops, n);
    }
    var c :| c in Run(ops).local && Run(ops).local[c].name == n;
    assert Routes(Run(ops), n, c);
    RunSound(ops);
  }

  // ---------------------------------------------------------------- the bound is reached

  /** A reconnect whose best-effort delete fails. */
  function Reconnect(name: string): Op {
    Create(0, Some("user"), "topic", true, Failed(false), Created(name, Missing, true))
  }

  /** All names are live, and the last one is the local row's. */
  ghost predicate Piled(s: State, names: seq<string>) {
    && s.issued == s.remote && |s.remote| == |names| && (forall n :: n in s.remote <==> n in names)
    && s.local == if |names| == 0 then map[] else map[0 := Subscription(names[|names| - 1], None, "active")]
  }

  lemma ReconnectPiles(s: State, names: seq<string>, op: Op)
    requires |names| > 0 && Piled(s, names[..|names| - 1])
    requires names[|names| - 1] !in names[..|names| - 1] && op == Reconnect(names[|names| - 1])
    ensures Piled(Apply(s, op), names)
    ensures |LapsesOf(s, op)| == if |names| == 1 then 0 else 1
  {
    var before, last := names[..|names| - 1], names[|names| - 1];
    assert Apply(s, op).remote == s.remote + {last};
    assert names == before + [last];
    assert forall n :: n in names <==> n in before || n == last;
  }

  lemma {:induction false} ReconnectsPile(names: seq<string>, ops: seq<Op>)
    requires forall i :: 0 <= i < |names| ==> names[i] !in names[..i]
    requires |ops| == |names| && forall i :: 0 <= i < |ops| ==> ops[i] == Reconnect(names[i])
    ensures Piled(Run(ops), names)
    ensures |Lapses(ops)| == if |names| == 0 then 0 else |names| - 1
  {
    if |names| == 0 {
      assert Piled(Run(ops), names);
    } else {
      var n := |names| - 1;
      assert forall i :: 0 <= i < n ==> names[..n][..i] == names[..i];
      ReconnectsPile(names[..n], ops[..n]);
      ReconnectPiles(Run(ops[..n]), names, ops[n]);
    }
  }

  /** For every number there is a history with that many lapses and as many orphans. */
  lemma BoundIsTight(names: seq<string>, ops: seq<Op>)
    requires |names| > 0 && forall i :: 0 <= i < |names| ==> names[i] !in names[..i]
    requires |ops| == |names| && forall i :: 0 <= i < |ops| ==> ops[i] == Reconnect(names[i])
    ensures |Orphans(Run(ops))| == |Lapses(ops)| == |names| - 1
  {
    ReconnectsPile(names, ops);
    var s := Run(ops);
    assert s.local[0].name == names[|names| - 1];
    assert Orphans(s) == s.remote - {names[|names| - 1]};
  }
}
