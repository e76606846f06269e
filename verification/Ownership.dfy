/** Who owns what: connections, meetings, conferences and their artifacts under
    interleaved requests, workers and cascading deletes. */
module Ownership {
  import opened Wrappers
  import opened MeetPages

  datatype Meeting = Meeting(user: string, space: Option<string>, notesEnabled: bool)

  datatype Conference = Conference(connection: nat, record: string, meeting: Option<nat>)

  /** How `create_meeting` fares with the Meet API after the calendar event exists. */
  datatype Enabling = Enabled(space: string) | HttpError

  /** A `fetch_transcript` call under way on conference `id`, with its session's copies of the
      rows read so far. */
  datatype Job =
    | Loaded(id: nat, copy: Conference)
    | Authorised(id: nat, copy: Conference, owner: string)
    | Chosen(id: nat, copy: Conference, mapped: Option<nat>)

  /** `users` maps each connection to its user; all ids come from one supply, so none returns. */
  datatype State = State(
    users: map<nat, string>,
    meetings: map<nat, Meeting>,
    conferences: map<nat, Conference>,
    transcripts: set<nat>,
    notes: set<nat>,
    jobs: map<nat, Job>,
    next: nat)

  /** A label that cannot happen leaves the state alone, so every list is a run. */
  datatype Label =
    | Connect(user: string)
    | Disconnect(connection: nat)
    | CreateMeeting(user: string, requested: bool, code: Option<string>, enabling: Enabling)
    | DeleteMeeting(user: string, meeting: nat)
    | Ingest(connection: nat, record: string)
    | Load(job: nat, conference: nat)
    | Authorise(job: nat)
    | Choose(job: nat, meeting: nat)
    | Commit(job: nat)
    | Abort(job: nat)
    | SaveNotes(conference: nat)

  // ---------------------------------------------------------------- the services

  /** The row that `create_meeting` stores. */
  function NewMeeting(user: string, requested: bool, code: Option<string>, enabling: Enabling): (m: Meeting)
    ensures m.notesEnabled <==> m.space.Some?
    ensures m.space.Some? <==> requested && Truthy(code) && enabling.Enabled?
    ensures m.user == user && (m.space.Some? ==> enabling == Enabled(m.space.value))
  {
    if !requested then Meeting(user, None, false)
    else if !Truthy(code) then Meeting(user, None, false)
    else
      match enabling
      case Enabled(space) => Meeting(user, Some(space), true)
      case HttpError => Meeting(user, None, false)
  }

  /** `ON DELETE CASCADE`: the conferences go, and their transcripts and notes with them. */
  function Cascade(s: State, gone: set<nat>): State {
    s.(conferences := s.conferences - gone, transcripts := s.transcripts - gone, notes := s.notes - gone)
  }

  /** `_owned_meeting` */
  predicate OwnsMeeting(s: State, user: string, m: nat) {
    m in s.meetings && s.meetings[m].user == user
  }

  /** `_owned_conference` */
  predicate OwnsConference(s: State, user: string, c: nat) {
    c in s.conferences && s.conferences[c].connection in s.users && s.users[s.conferences[c].connection] == user
  }

  /** `list_meeting_conferences`; `None` is the 404 answer. */
  function ListedUnder(s: State, user: string, m: nat): Option<set<nat>> {
    if OwnsMeeting(s, user, m) then Some(set c | c in s.conferences && s.conferences[c].meeting == Some(m)) else None
  }

  /** The query of `_map_meeting`. */
  predicate Matches(s: State, m: nat, space: Option<string>, owner: string) {
    && Truthy(space)
    && m in s.meetings && s.meetings[m].space == space && s.meetings[m].user == owner
  }

  function CommitJob(s: State, j: nat): State
    requires j in s.jobs && s.jobs[j].Chosen?
  {
    var x := s.jobs[j];
    var done := s.(jobs := s.jobs - {j});
    if x.id !in s.conferences then done
    else if x.mapped.Some? && x.mapped.value !in s.meetings then done
    else
      done.(transcripts := s.transcripts + {x.id},
            conferences := if x.mapped.None? then s.conferences
                           else s.conferences[x.id := s.conferences[x.id].(meeting := x.mapped)])
  }

  /** `spaceOf` is what the Meet API says of a conference record. */
  function Next(spaceOf: string -> Option<string>, s: State, l: Label): State {
    match l
    case Connect(user) =>
      if user in s.users.Values then s else s.(users := s.users[s.next := user], next := s.next + 1)
    case Disconnect(c) =>
      Cascade(s.(users := s.users - {c}), set k | k in s.conferences && s.conferences[k].connection == c)
    case CreateMeeting(user, requested, code, enabling) =>
      s.(meetings := s.meetings[s.next := NewMeeting(user, requested, code, enabling)], next := s.next + 1)
    case DeleteMeeting(user, m) =>
      if !OwnsMeeting(s, user, m) then s
      else Cascade(s.(meetings := s.meetings - {m}), set k | k in s.conferences && s.conferences[k].meeting == Some(m))
    case Ingest(c, record) =>
      if c !in s.users || (exists k :: k in s.conferences && s.conferences[k].record == record) then s
      else s.(conferences := s.conferences[s.next := Conference(c, record, None)], next := s.next + 1)
    case Load(j, c) =>
      if j in s.jobs || c !in s.conferences then s else s.(jobs := s.jobs[j := Loaded(c, s.conferences[c])])
    case Authorise(j) =>
      if j !in s.jobs || !s.jobs[j].Loaded? then s
      else if s.jobs[j].copy.connection !in s.users then s.(jobs := s.jobs - {j})
      else s.(jobs := s.jobs[j := Authorised(s.jobs[j].id, s.jobs[j].copy, s.users[s.jobs[j].copy.connection])])
    case Choose(j, m) =>
      if j !in s.jobs || !s.jobs[j].Authorised? then s
      else
        var x := s.jobs[j];
        var mapped := if x.copy.meeting.None? && Matches(s, m, spaceOf(x.copy.record), x.owner) then Some(m) else None;
        s.(jobs := s.jobs[j := Chosen(x.id, x.copy, mapped)])
    case Commit(j) =>
      if j in s.jobs && s.jobs[j].Chosen? then CommitJob(s, j) else s
    case Abort(j) => s.(jobs := s.jobs - {j})
    case SaveNotes(c) =>
      if c in s.conferences && c in s.transcripts then s.(notes := s.notes + {c}) else s
  }

  const EMPTY := State(map[], map[], map[], {}, {}, map[], 0)

  function Exec(spaceOf: string -> Option<string>, ls: seq<Label>): State {
    if |ls| == 0 then EMPTY else Next(spaceOf, Exec(spaceOf, ls[..|ls| - 1]), ls[|ls| - 1])
  }

  // ---------------------------------------------------------------- the invariant

  /** Meeting `m` is one that conference `x` may map to: its owner's, with notes, in its space. */
  ghost predicate Fits(spaceOf: string -> Option<string>, s: State, x: Conference, m: nat) {
    && x.connection in s.users && m in s.meetings
    && s.meetings[m].user == s.users[x.connection]
    && s.meetings[m].notesEnabled
    && Truthy(s.meetings[m].space) && s.meetings[m].space == spaceOf(x.record)
  }

  ghost predicate MappedRight(spaceOf: string -> Option<string>, s: State) {
    forall c :: c in s.conferences && s.conferences[c].meeting.Some? ==>
      Fits(spaceOf, s, s.conferences[c], s.conferences[c].meeting.value)
  }

  /** The foreign keys hold, and artifacts belong to conferences. */
  ghost predicate Referential(s: State) {
    && (forall c :: c in s.conferences ==> s.conferences[c].connection in s.users)
    && (forall c :: c in s.transcripts ==> c in s.conferences)
    && (forall c :: c in s.notes ==> c in s.transcripts)
  }

  ghost predicate SupplyOk(s: State) {
    && (forall k :: k in s.users ==> k < s.next)
    && (forall k :: k in s.meetings ==> k < s.next && (s.meetings[k].space.Some? <==> s.meetings[k].notesEnabled))
    && (forall k :: k in s.conferences ==> k < s.next)
    && (forall j :: j in s.jobs ==> s.jobs[j].id < s.next && (s.jobs[j].Chosen? && s.jobs[j].mapped.Some? ==> s.jobs[j].mapped.value < s.next))
  }

  /** What a job remembers is still true of whatever rows are left. */
  ghost predicate JobOk(spaceOf: string -> Option<string>, s: State, x: Job) {
    x.id in s.conferences ==>
      var row := s.conferences[x.id];
      && row.connection == x.copy.connection && row.record == x.copy.record
      && row.connection in s.users
      && (x.Authorised? ==> s.users[row.connection] == x.owner)
      && (x.Chosen? && x.mapped.Some? && x.mapped.value in s.meetings ==> Fits(spaceOf, s, row, x.mapped.value))
  }

  ghost predicate JobsOk(spaceOf: string -> Option<string>, s: State) {
    forall j :: j in s.jobs ==> JobOk(spaceOf, s, s.jobs[j])
  }

  ghost predicate Inv(spaceOf: string -> Option<string>, s: State) {
    MappedRight(spaceOf, s) && Referential(s) && SupplyOk(s) && JobsOk(spaceOf, s)
  }

  lemma DeletionKeeps(spaceOf: string -> Option<string>, s: State, l: Label)
    requires Inv(spaceOf, s) && (l.Disconnect? || l.DeleteMeeting?)
    ensures Inv(spaceOf, Next(spaceOf, s, l))
  {
    var s' := Next(spaceOf, s, l);
    forall j | j in s'.jobs ensures JobOk(spaceOf, s', s'.jobs[j]) { assert JobOk(spaceOf, s, s.jobs[j]); }
    forall c | c in s'.conferences && s'.conferences[c].meeting.Some?
      ensures Fits(spaceOf, s', s'.conferences[c], s'.conferences[c].meeting.value)
    {
      assert Fits(spaceOf, s, s.conferences[c], s.conferences[c].meeting.value);
    }
  }

  lemma CreationKeeps(spaceOf: string -> Option<string>, s: State, l: Label)
    requires Inv(spaceOf, s) && (l.Connect? || l.CreateMeeting?)
    ensures Inv(spaceOf, Next(spaceOf, s, l))
  {
    var s' := Next(spaceOf, s, l);
    forall j | j in s'.jobs ensures JobOk(spaceOf, s', s'.jobs[j]) { assert JobOk(spaceOf, s, s.jobs[j]); }
    forall c | c in s'.conferences && s'.conferences[c].meeting.Some?
      ensures Fits(spaceOf, s', s'.conferences[c], s'.conferences[c].meeting.value)
    {
      assert Fits(spaceOf, s, s.conferences[c], s.conferences[c].meeting.value);
    }
  }

  lemma ArtifactKeeps(spaceOf: string -> Option<string>, s: State, l: Label)
    requires Inv(spaceOf, s) && (l.Ingest? || l.SaveNotes?)
    ensures Inv(spaceOf, Next(spaceOf, s, l))
  {
    var s' := Next(spaceOf, s, l);
    forall j | j in s'.jobs ensures JobOk(spaceOf, s', s'.jobs[j]) { assert JobOk(spaceOf, s, s.jobs[j]); }
    forall c | c in s'.conferences && s'.conferences[c].meeting.Some?
      ensures Fits(spaceOf, s', s'.conferences[c], s'.conferences[c].meeting.value)
    {
      assert Fits(spaceOf, s, s.conferences[c], s.conferences[c].meeting.value);
    }
  }

  lemma JobKeeps(spaceOf: string -> Option<string>, s: State, l: Label)
    requires Inv(spaceOf, s) && (l.Load? || l.Abort?)
    ensures Inv(spaceOf, Next(spaceOf, s, l))
  {
    var s' := Next(spaceOf, s, l);
    forall j | j in s'.jobs ensures JobOk(spaceOf, s', s'.jobs[j]) {
      if j in s.jobs { assert JobOk(spaceOf, s, s.jobs[j]); }
    }
  }

  lemma SetJobKeeps(spaceOf: string -> Option<string>, s: State, j: nat, x: Job)
    requires Inv(spaceOf, s) && JobOk(spaceOf, s, x)
    requires x.id < s.next && (x.Chosen? && x.mapped.Some? ==> x.mapped.value < s.next)
    ensures Inv(spaceOf, s.(jobs := s.jobs[j := x]))
  {
    var s' := s.(jobs := s.jobs[j := x]);
    assert JobOk(spaceOf, s', x);
    forall i | i in s'.jobs && i != j ensures JobOk(spaceOf, s', s'.jobs[i]) { assert JobOk(spaceOf, s, s.jobs[i]); }
  }

  lemma AuthoriseKeeps(spaceOf: string -> Option<string>, s: State, j: nat)
    requires Inv(spaceOf, s) && j in s.jobs && s.jobs[j].Loaded?
    ensures Inv(spaceOf, Next(spaceOf, s, Authorise(j)))
  {
    var x := s.jobs[j];
    assert JobOk(spaceOf, s, x);
    if x.copy.connection in s.users {
      SetJobKeeps(spaceOf, s, j, Authorised(x.id, x.copy, s.users[x.copy.connection]));
    } else {
      JobKeeps(spaceOf, s, Abort(j));
    }
  }

  lemma ChooseKeeps(spaceOf: string -> Option<string>, s: State, j: nat, m: nat)
    requires Inv(spaceOf, s) && j in s.jobs && s.jobs[j].Authorised?
    ensures Inv(spaceOf, Next(spaceOf, s, Choose(j, m)))
  {
    var x := s.jobs[j];
    assert JobOk(spaceOf, s, x);
    var mapped := if x.copy.meeting.None? && Matches(s, m, spaceOf(x.copy.record), x.owner) then Some(m) else None;
    SetJobKeeps(spaceOf, s, j, Chosen(x.id, x.copy, mapped));
  }

  lemma CommitKeeps(spaceOf: string -> Option<string>, s: State, j: nat)
    requires Inv(spaceOf, s) && j in s.jobs && s.jobs[j].Chosen?
    ensures Inv(spaceOf, CommitJob(s, j))
  {
    var s' := CommitJob(s, j);
    assert JobOk(spaceOf, s, s.jobs[j]);
    forall i | i in s'.jobs ensures JobOk(spaceOf, s', s'.jobs[i]) { assert JobOk(spaceOf, s, s.jobs[i]); }
  }

  /** In every reachable database a mapped conference's connection has the meeting's user, and
      the meeting has notes enabled and is held in the conference's space. */
  lemma {:induction false} RunKeeps(spaceOf: string -> Option<string>, ls: seq<Label>)
    ensures Inv(spaceOf, Exec(spaceOf, ls))
  {
    if |ls| > 0 {
      var s, l := Exec(spaceOf, ls[..|ls| - 1]), ls[|ls| - 1];
      RunKeeps(spaceOf, ls[..|ls| - 1]);
      match l
      case Disconnect(_) => DeletionKeeps(spaceOf, s, l);
      case DeleteMeeting(_, _) => DeletionKeeps(spaceOf, s, l);
      case Commit(j) => if j in s.jobs && s.jobs[j].Chosen? { CommitKeeps(spaceOf, s, j); }
      case Load(_, _) => JobKeeps(spaceOf, s, l);
      case Authorise(j) => if j in s.jobs && s.jobs[j].Loaded? { AuthoriseKeeps(spaceOf, s, j); }
      case Choose(j, m) => if j in s.jobs && s.jobs[j].Authorised? { ChooseKeeps(spaceOf, s, j, m); }
      case Abort(_) => JobKeeps(spaceOf, s, l);
      case Ingest(_, _) => ArtifactKeeps(spaceOf, s, l);
      case SaveNotes(_) => ArtifactKeeps(spaceOf, s, l);
      case _ => CreationKeeps(spaceOf, s, l);
    }
  }

  // ---------------------------------------------------------------- the two ownership checks agree

  /** For a mapped conference the check on the conference passes exactly when the check on
      its meeting passes. */
  lemma ChecksAgree(spaceOf: string -> Option<string>, ls: seq<Label>, user: string, c: nat)
    requires var s := Exec(spaceOf, ls); c in s.conferences && s.conferences[c].meeting.Some?
    ensures var s := Exec(spaceOf, ls);
            OwnsConference(s, user, c) <==> OwnsMeeting(s, user, s.conferences[c].meeting.value)
  {
    RunKeeps(spaceOf, ls);
  }

  /** Every conference listed under a user's meeting is that user's own, and a stranger is
      refused the list. */
  lemma ListingIsOwned(spaceOf: string -> Option<string>, ls: seq<Label>, user: string, m: nat)
    ensures var s := Exec(spaceOf, ls);
            match ListedUnder(s, user, m)
            case None => !(m in s.meetings && s.meetings[m].user == user) && forall c :: c in s.conferences && s.conferences[c].meeting == Some(m) ==> !OwnsConference(s, user, c)
            case Some(listed) =>
              && m in s.meetings && s.meetings[m].user == user
              && (forall c :: c in listed <==> c in s.conferences && s.conferences[c].meeting == Some(m))
              && (forall c :: c in listed ==> OwnsConference(s, user, c) && s.meetings[m].notesEnabled)
  {
    RunKeeps(spaceOf, ls);
  }

  /** Cascades leave nothing behind: in every reachable database notes belong to a
      transcript, and a transcript to a conference whose connection, and whose meeting if it
      is mapped, still exist. */
  lemma ArtifactsHaveOwners(spaceOf: string -> Option<string>, ls: seq<Label>, c: nat)
    requires c in Exec(spaceOf, ls).transcripts || c in Exec(spaceOf, ls).notes
    ensures var s := Exec(spaceOf, ls);
            && c in s.transcripts && c in s.conferences && s.conferences[c].connection in s.users
            && (s.conferences[c].meeting.Some? ==> s.conferences[c].meeting.value in s.meetings)
  {
    RunKeeps(spaceOf, ls);
  }
}
