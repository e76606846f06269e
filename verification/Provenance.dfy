/** Where ownership comes from and where it ends: the one user who may read a conference, what
    a fetch maps, and which requests take a row away. */
module Provenance {
  import opened Wrappers
  import opened MeetPages
  import opened Ownership

  // ---------------------------------------------------------------- the one owner

  /** Label `n` is the consent that issued the connection. */
  ghost predicate Issues(spaceOf: string -> Option<string>, ls: seq<Label>, n: int, connection: nat) {
    && 0 <= n < |ls| && ls[n].Connect?
    && connection !in Exec(spaceOf, ls[..n]).users && connection in Exec(spaceOf, ls[..n + 1]).users
  }

  /** Label `m` is the event that created the conference. */
  ghost predicate Creates(spaceOf: string -> Option<string>, ls: seq<Label>, m: int, c: nat) {
    && 0 <= m < |ls| && ls[m].Ingest?
    && c !in Exec(spaceOf, ls[..m]).conferences && c in Exec(spaceOf, ls[..m + 1]).conferences
  }

  ghost predicate IssuedTo(spaceOf: string -> Option<string>, ls: seq<Label>, n: int, connection: nat, user: string) {
    Issues(spaceOf, ls, n, connection) && ls[n].user == user
  }

  /** The conference stems from event `m`, whose connection was issued by consent `n`. */
  ghost predicate Stems(spaceOf: string -> Option<string>, ls: seq<Label>, c: nat, m: int, n: int) {
    && Creates(spaceOf, ls, m, c) && Issues(spaceOf, ls, n, ls[m].connection) && n < m
    && var s := Exec(spaceOf, ls);
       && c in s.conferences && s.conferences[c].connection == ls[m].connection && s.conferences[c].record == ls[m].record
       && ls[m].connection in s.users && s.users[ls[m].connection] == ls[n].user
  }

  lemma IssuesStays(spaceOf: string -> Option<string>, ls: seq<Label>, l: Label, n: int, connection: nat)
    requires Issues(spaceOf, ls, n, connection)
    ensures Issues(spaceOf, ls + [l], n, connection)
  {
    assert (ls + [l])[..n] == ls[..n] && (ls + [l])[..n + 1] == ls[..n + 1];
  }

  lemma CreatesStays(spaceOf: string -> Option<string>, ls: seq<Label>, l: Label, m: int, c: nat)
    requires Creates(spaceOf, ls, m, c)
    ensures Creates(spaceOf, ls + [l], m, c)
  {
    assert (ls + [l])[..m] == ls[..m] && (ls + [l])[..m + 1] == ls[..m + 1];
  }

  /** Rows that stay keep their keys; new ones come from a consent and from an event. */
  lemma RowsKeep(spaceOf: string -> Option<string>, s: State, l: Label)
    requires Inv(spaceOf, s)
    ensures var s' := Next(spaceOf, s, l);
            && (forall k :: k in s.users && k in s'.users ==> s'.users[k] == s.users[k])
            && (forall k :: k in s'.users && k !in s.users ==> l == Connect(s'.users[k]))
            && (forall c :: c in s.conferences && c in s'.conferences ==>
                  s'.conferences[c].connection == s.conferences[c].connection && s'.conferences[c].record == s.conferences[c].record)
            && (forall c :: c in s'.conferences && c !in s.conferences ==>
                  && l == Ingest(s'.conferences[c].connection, s'.conferences[c].record)
                  && s'.conferences[c].meeting.None? && s'.conferences[c].connection in s.users)
  {
  }

  lemma ExecSnoc(spaceOf: string -> Option<string>, ls: seq<Label>, l: Label)
    ensures Exec(spaceOf, ls + [l]) == Next(spaceOf, Exec(spaceOf, ls), l)
    ensures (ls + [l])[..|ls|] == ls && (ls + [l])[..|ls| + 1] == ls + [l]
  {
    assert (ls + [l])[..|ls|] == ls;
  }

  lemma {:induction false} UserOrigin(spaceOf: string -> Option<string>, ls: seq<Label>, k: nat) returns (n: int)
    requires k in Exec(spaceOf, ls).users
    ensures IssuedTo(spaceOf, ls, n, k, Exec(spaceOf, ls).users[k])
  {
    var before, l := ls[..|ls| - 1], ls[|ls| - 1];
    assert ls == before + [l];
    ExecSnoc(spaceOf, before, l);
    RunKeeps(spaceOf, before);
    RowsKeep(spaceOf, Exec(spaceOf, before), l);
    if k in Exec(spaceOf, before).users {
      n := UserOrigin(spaceOf, before, k);
      IssuesStays(spaceOf, before, l, n, k);
    } else {
      n := |before|;
    }
  }

  lemma {:induction false} Origin(spaceOf: string -> Option<string>, ls: seq<Label>, c: nat) returns (m: int, n: int)
    requires c in Exec(spaceOf, ls).conferences
    ensures Stems(spaceOf, ls, c, m, n)
  {
    var before, l := ls[..|ls| - 1], ls[|ls| - 1];
    assert ls == before + [l];
    var s := Exec(spaceOf, before);
    ExecSnoc(spaceOf, before, l);
    RunKeeps(spaceOf, before);
    RunKeeps(spaceOf, ls);
    RowsKeep(spaceOf, s, l);
    if c in s.conferences {
      m, n := Origin(spaceOf, before, c);
      CreatesStays(spaceOf, before, l, m, c);
      IssuesStays(spaceOf, before, l, n, ls[m].connection);
    } else {
      m := |before|;
      n := UserOrigin(spaceOf, before, ls[m].connection);
      IssuesStays(spaceOf, before, l, n, ls[m].connection);
    }
  }

  /** In every reachable database a conference, mapped or not, passes the check of exactly one
      user: the one whose consent issued the connection that the conference's event came over.
      A conference that is not there passes nobody's. */
  lemma OneOwner(spaceOf: string -> Option<string>, ls: seq<Label>, c: nat)
    ensures c in Exec(spaceOf, ls).conferences ==>
              exists m, n ::
                && Creates(spaceOf, ls, m, c) && ls[m].record == Exec(spaceOf, ls).conferences[c].record
                && Issues(spaceOf, ls, n, ls[m].connection) && n < m
                && forall user :: OwnsConference(Exec(spaceOf, ls), user, c) <==> user == ls[n].user
    ensures c !in Exec(spaceOf, ls).conferences ==> forall user :: !OwnsConference(Exec(spaceOf, ls), user, c)
  {
    if c in Exec(spaceOf, ls).conferences {
      var m, n := Origin(spaceOf, ls, c);
      assert Creates(spaceOf, ls, m, c) && Issues(spaceOf, ls, n, ls[m].connection);
    }
  }

  // ---------------------------------------------------------------- keys

  /** A user has at most one connection and a record at most one conference. */
  ghost predicate KeysUnique(s: State) {
    && (forall k, l :: k in s.users && l in s.users && s.users[k] == s.users[l] ==> k == l)
    && (forall c, d :: c in s.conferences && d in s.conferences && s.conferences[c].record == s.conferences[d].record ==> c == d)
  }

  lemma NextUnique(spaceOf: string -> Option<string>, s: State, l: Label)
    requires Inv(spaceOf, s) && KeysUnique(s)
    ensures KeysUnique(Next(spaceOf, s, l))
  {
    RowsKeep(spaceOf, s, l);
    var s' := Next(spaceOf, s, l);
    forall k, i | k in s'.users && i in s'.users && s'.users[k] == s'.users[i] ensures k == i {
      if k !in s.users || i !in s.users { assert l.Connect?; }
    }
    forall c, d | c in s'.conferences && d in s'.conferences && s'.conferences[c].record == s'.conferences[d].record ensures c == d {
      if c !in s.conferences || d !in s.conferences { assert l.Ingest?; }
    }
  }

  lemma {:induction false} KeysStayUnique(spaceOf: string -> Option<string>, ls: seq<Label>)
    ensures KeysUnique(Exec(spaceOf, ls))
  {
    if |ls| > 0 {
      KeysStayUnique(spaceOf, ls[..|ls| - 1]);
      RunKeeps(spaceOf, ls[..|ls| - 1]);
      NextUnique(spaceOf, Exec(spaceOf, ls[..|ls| - 1]), ls[|ls| - 1]);
    }
  }

  // ---------------------------------------------------------------- what goes, and when

  /** The label takes the conference away: its connection is disconnected, or its meeting is
      deleted by the meeting's own user. */
  predicate Takes(s: State, l: Label, c: nat)
    requires c in s.conferences
  {
    var x := s.conferences[c];
    || l == Disconnect(x.connection)
    || (l.DeleteMeeting? && x.meeting == Some(l.meeting) && l.meeting in s.meetings && s.meetings[l.meeting].user == l.user)
  }

  /** A connection goes exactly when it is disconnected, a meeting exactly when its own user
      deletes it, a conference exactly with its connection or its meeting, and its transcript
      and notes exactly with it. */
  lemma LossIff(spaceOf: string -> Option<string>, s: State, l: Label)
    requires Inv(spaceOf, s)
    ensures var s' := Next(spaceOf, s, l);
            && (forall k :: k in s.users ==> (k !in s'.users <==> l == Disconnect(k)))
            && (forall m :: m in s.meetings ==> (m !in s'.meetings <==> l == DeleteMeeting(s.meetings[m].user, m)))
            && (forall m :: m in s.meetings && m in s'.meetings ==> s'.meetings[m] == s.meetings[m])
            && (forall c :: c in s.conferences ==> (c !in s'.conferences <==> Takes(s, l, c)))
            && (forall c :: c in s.transcripts ==> (c !in s'.transcripts <==> Takes(s, l, c)))
            && (forall c :: c in s.notes ==> (c !in s'.notes <==> Takes(s, l, c)))
  {
  }

  /** A creation stores the meeting under a new id, with its space when notes could be enabled,
      and nothing else; an abandoned job is forgotten. */
  lemma CreationStores(spaceOf: string -> Option<string>, s: State, user: string, requested: bool, code: Option<string>,
                       enabling: Enabling, j: nat)
    requires Inv(spaceOf, s)
    ensures var s' := Next(spaceOf, s, CreateMeeting(user, requested, code, enabling));
            && s.next !in s.meetings && s'.meetings.Keys == s.meetings.Keys + {s.next}
            && (forall m :: m in s.meetings ==> s'.meetings[m] == s.meetings[m])
            && (var x := s'.meetings[s.next];
                && x.user == user
                && (forall space :: x.space == Some(space) <==> requested && Truthy(code) && enabling == Enabled(space)))
            && s'.conferences == s.conferences && s'.users == s.users
    ensures Next(spaceOf, s, Abort(j)) == s.(jobs := s.jobs - {j})
  {
  }

  // ---------------------------------------------------------------- what a fetch does

  function Fetched(spaceOf: string -> Option<string>, s: State, j: nat, c: nat, m: nat): State {
    Next(spaceOf, Next(spaceOf, Next(spaceOf, Next(spaceOf, s, Load(j, c)), Authorise(j)), Choose(j, m)), Commit(j))
  }

  /** An undisturbed fetch stores the transcript, and maps the conference exactly when it has
      no meeting yet and the chosen one is its owner's and held in its space. */
  lemma FetchMaps(spaceOf: string -> Option<string>, s: State, j: nat, c: nat, m: nat)
    requires Inv(spaceOf, s) && j !in s.jobs && c in s.conferences
    ensures var x, s' := s.conferences[c], Fetched(spaceOf, s, j, c, m);
            && s'.transcripts == s.transcripts + {c} && s'.meetings == s.meetings && s'.users == s.users && s'.notes == s.notes
            && s'.conferences == s.conferences[c := x.(meeting :=
                 if x.meeting.None? && spaceOf(x.record).Some? && spaceOf(x.record).value != ""
                    && m in s.meetings && s.meetings[m].space == spaceOf(x.record) && s.meetings[m].user == s.users[x.connection]
                 then Some(m) else x.meeting)]
  {
    var x := s.conferences[c];
    var s1 := Next(spaceOf, s, Load(j, c));
    var s2 := Next(spaceOf, s1, Authorise(j));
    assert s2.jobs[j] == Authorised(c, x, s.users[x.connection]);
    var s3 := Next(spaceOf, s2, Choose(j, m));
    assert s3.jobs[j].Chosen? && s3.jobs[j].id == c && s3.conferences == s.conferences && s3.transcripts == s.transcripts;
    assert s.conferences == s.conferences[c := x];
  }

  /** Notes are saved only beside a transcript, and then they are there. */
  lemma NotesNeedTranscript(spaceOf: string -> Option<string>, s: State, c: nat)
    requires Inv(spaceOf, s)
    ensures c in Next(spaceOf, s, SaveNotes(c)).notes <==> c in s.transcripts
  {
  }
}
