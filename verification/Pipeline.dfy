/** The resumable notes pipeline (`app/services/pipeline.py`) as a state machine over
    its commit points. Runs are serial; each may raise or crash between any two commits. */
module Pipeline {
  import opened Wrappers
  import opened Text
  import opened MeetPages
  import opened Transcripts
  import opened Summaries

  /** A Fernet token: the plaintext under a random nonce. */
  datatype Token = Token(nonce: nat, payload: string)

  function Encrypt(nonce: nat, text: string): Token { Token(nonce, text) }

  function Decrypt(token: Token): string { token.payload }

  datatype Conference = Conference(
    state: string,
    attempts: nat,
    lastError: Option<string>,
    meeting: Option<string>,
    transcriptName: Option<string>)

  datatype Transcript = Transcript(fullText: Option<Token>, language: Option<string>, speakers: map<string, string>)

  datatype Notes = Notes(title: string, content: NotesContent, model: string)

  /** The rows of one conference; `conference_id` is unique in both other tables. */
  datatype Db = Db(conference: Option<Conference>, transcript: Option<Transcript>, notes: Option<Notes>)

  datatype Meeting = Meeting(id: string, user: string, title: string, space: Option<string>)

  /** What every run sees alike: the owner of the connection, the meetings table in row
      order, the Meet API's answers, the summariser and the settings. */
  datatype Setting = Setting(
    owner: Option<string>,
    meetings: seq<Meeting>,
    space: Option<string>,
    participants: seq<Participant>,
    entries: seq<Entry>,
    summarizer: Summarizer,
    model: string,
    chunkThreshold: int,
    defaultTitle: string)

  const EMPTY_SUMMARY := "No content was captured for this meeting."

  /** `_ORDER.get(state, -1)` */
  function Order(state: string): int {
    if state == "pending" then 0
    else if state == "transcript_fetched" then 1
    else if state == "notes_generated" then 2
    else -1
  }

  predicate Reached(state: string, target: string) {
    Order(state) >= Order(target)
  }

  // ---------------------------------------------------------------- the two stages

  /** First meeting of that user in that space. */
  function FindMeeting(meetings: seq<Meeting>, space: string, user: string): Option<string> {
    if |meetings| == 0 then None
    else if meetings[0].space == Some(space) && meetings[0].user == user then Some(meetings[0].id)
    else FindMeeting(meetings[1..], space, user)
  }

  /** `_map_meeting`: a mapped conference stays mapped. */
  function MapMeeting(env: Setting, meeting: Option<string>): Option<string> {
    if meeting.Some? || !Truthy(env.space) || env.owner.None? then meeting
    else FindMeeting(env.meetings, env.space.value, env.owner.value)
  }

  /** `fetch_transcript` gets past its own checks. */
  predicate CanFetch(env: Setting, c: Conference) {
    Truthy(c.transcriptName) && env.owner.Some?
  }

  function TranscriptOf(env: Setting, nonce: nat): Transcript {
    var speakers := SpeakerMap(env.participants);
    Transcript(Some(Encrypt(nonce, FullText(env.entries, speakers))), Language(env.entries), speakers)
  }

  function TitleFor(env: Setting, meeting: Option<string>): string {
    if meeting.None? then env.defaultTitle else TitleOf(env.meetings, meeting.value, env.defaultTitle)
  }

  function TitleOf(meetings: seq<Meeting>, id: string, default: string): string {
    if |meetings| == 0 then default
    else if meetings[0].id == id then (if meetings[0].title != "" then meetings[0].title else default)
    else TitleOf(meetings[1..], id, default)
  }

  function PlainText(t: Transcript): string {
    if t.fullText.Some? then Decrypt(t.fullText.value) else ""
  }

  /** `generate_notes` */
  function NotesOf(env: Setting, meeting: Option<string>, text: string): Notes {
    var content := if IsBlank(text) then NotesContent(EMPTY_SUMMARY, [], [])
                   else SummarizeText(env.summarizer, text, env.chunkThreshold).content;
    Notes(TitleFor(env, meeting), content, env.model)
  }

  /** Meeting `i` is the first of the owner's meetings in the conference's space. */
  ghost predicate FirstInSpace(env: Setting, i: int) {
    && env.owner.Some? && env.space.Some? && env.space.value != ""
    && 0 <= i < |env.meetings|
    && env.meetings[i].space == env.space && env.meetings[i].user == env.owner.value
    && forall j :: 0 <= j < i ==> !(env.meetings[j].space == env.space && env.meetings[j].user == env.owner.value)
  }

  /** Some meeting is the owner's and held in the conference's space. */
  ghost predicate HasMatch(env: Setting) {
    && env.owner.Some? && env.space.Some? && env.space.value != ""
    && exists i :: 0 <= i < |env.meetings| && env.meetings[i].space == env.space && env.meetings[i].user == env.owner.value
  }

  lemma {:induction false} FindMeetingFirst(meetings: seq<Meeting>, space: string, user: string) returns (i: int)
    ensures FindMeeting(meetings, space, user).None? <==> i < 0
    ensures i >= 0 ==>
              && i < |meetings| && FindMeeting(meetings, space, user) == Some(meetings[i].id)
              && meetings[i].space == Some(space) && meetings[i].user == user
    ensures forall j :: 0 <= j < |meetings| && (i < 0 || j < i) ==> !(meetings[j].space == Some(space) && meetings[j].user == user)
  {
    i := -1;
    if |meetings| > 0 {
      if meetings[0].space == Some(space) && meetings[0].user == user {
        i := 0;
      } else {
        var k := FindMeetingFirst(meetings[1..], space, user);
        if k >= 0 { i := k + 1; }
        forall j | 0 <= j < |meetings| && (i < 0 || j < i) ensures !(meetings[j].space == Some(space) && meetings[j].user == user) {
          if j > 0 { assert meetings[1..][j - 1] == meetings[j]; }
        }
      }
    }
  }

  /** A mapped conference keeps its meeting. An unmapped one gets the owner's first meeting in
      its space, and none exactly when there is no such meeting. */
  lemma MeetingIs(env: Setting, meeting: Option<string>)
    ensures meeting.Some? ==> MapMeeting(env, meeting) == meeting
    ensures meeting.None? ==>
              && (forall x :: MapMeeting(env, meeting) == Some(x) <==> exists i :: FirstInSpace(env, i) && env.meetings[i].id == x)
              && (MapMeeting(env, meeting).None? <==> !HasMatch(env))
  {
    if meeting.None? && Truthy(env.space) && env.owner.Some? {
      var i := FindMeetingFirst(env.meetings, env.space.value, env.owner.value);
      if i >= 0 {
        assert FirstInSpace(env, i);
        forall k | FirstInSpace(env, k) ensures k == i {}
      }
    }
  }

  /** Meeting `i` is the first with that id. */
  ghost predicate FirstWithId(meetings: seq<Meeting>, id: string, i: int) {
    0 <= i < |meetings| && meetings[i].id == id && forall j :: 0 <= j < i ==> meetings[j].id != id
  }

  /** The title of the meeting, or the default when there is no meeting or it has no title. */
  ghost predicate Titled(env: Setting, meeting: Option<string>, title: string) {
    if exists i :: meeting.Some? && FirstWithId(env.meetings, meeting.value, i) && env.meetings[i].title != ""
    then exists i :: FirstWithId(env.meetings, meeting.value, i) && title == env.meetings[i].title
    else title == env.defaultTitle
  }

  lemma {:induction false} TitleOfFirst(meetings: seq<Meeting>, id: string, default: string) returns (i: int)
    ensures i >= 0 ==> FirstWithId(meetings, id, i)
                       && TitleOf(meetings, id, default) == if meetings[i].title != "" then meetings[i].title else default
    ensures i < 0 ==> TitleOf(meetings, id, default) == default && forall j :: 0 <= j < |meetings| ==> meetings[j].id != id
  {
    i := -1;
    if |meetings| > 0 {
      if meetings[0].id == id {
        i := 0;
      } else {
        var k := TitleOfFirst(meetings[1..], id, default);
        if k >= 0 { i := k + 1; }
        forall j | 0 <= j < |meetings| && (i < 0 || j < i) ensures meetings[j].id != id {
          if j > 0 { assert meetings[1..][j - 1] == meetings[j]; }
        }
      }
    }
  }

  lemma TitleIs(env: Setting, meeting: Option<string>)
    ensures Titled(env, meeting, TitleFor(env, meeting))
  {
    if meeting.Some? {
      var i := TitleOfFirst(env.meetings, meeting.value, env.defaultTitle);
      forall k | FirstWithId(env.meetings, meeting.value, k) ensures k == i {}
    }
  }

  // ---------------------------------------------------------------- the machine

  datatype Pc = Idle | AtFetch | AtMarkFetched | AtGenerate | AtMarkGenerated | AtRecord(message: string)

  /** What has happened so far; no step reads it. */
  datatype Tally = Tally(fetches: nat, raises: nat, crashes: nat, recorded: nat)

  datatype State = State(db: Db, pc: Pc, tally: Tally)

  /** `Commit` is the next commit point of the active run, and `Lose` is one that takes
      effect and then raises (a lost acknowledgement, a failing refresh after it). The other
      labels are a new run, an exception, a crash, a `:regenerate` request and a cascading
      delete. A label that cannot happen leaves the state alone, so every list is a history. */
  datatype Label =
    | Begin
    | Commit(nonce: nat)
    | Lose(nonce: nat, message: string)
    | Raise(message: string)
    | Crash
    | Regenerate
    | Delete

  function Truncate(message: string): (kept: string)
    ensures kept <= message && |kept| == if |message| < 2000 then |message| else 2000
  {
    if |message| <= 2000 then message else message[..2000]
  }

  function BeginRun(s: State): State {
    if s.pc != Idle || s.db.conference.None? then s
    else
      var state := s.db.conference.value.state;
      if Reached(state, "notes_generated") then s
      else if Reached(state, "transcript_fetched") then s.(pc := AtGenerate)
      else s.(pc := AtFetch, tally := s.tally.(fetches := s.tally.fetches + 1))
  }

  /** The next commit of the active run goes through unless a check of its own fails. */
  predicate CanCommit(env: Setting, s: State) {
    && s.db.conference.Some?
    && (s.pc.AtFetch? ==> CanFetch(env, s.db.conference.value))
    && (s.pc.AtGenerate? ==> s.db.transcript.Some?)
  }

  function CommitNext(env: Setting, s: State, nonce: nat): State
    requires CanCommit(env, s)
  {
    var c := s.db.conference.value;
    match s.pc
    case Idle => s
    case AtFetch =>
      s.(db := Db(Some(c.(meeting := MapMeeting(env, c.meeting))), Some(TranscriptOf(env, nonce)), s.db.notes), pc := AtMarkFetched)
    case AtMarkFetched =>
      s.(db := s.db.(conference := Some(c.(state := "transcript_fetched", lastError := None))), pc := AtGenerate)
    case AtGenerate =>
      s.(db := s.db.(notes := Some(NotesOf(env, c.meeting, PlainText(s.db.transcript.value)))), pc := AtMarkGenerated)
    case AtMarkGenerated =>
      s.(db := s.db.(conference := Some(c.(state := "notes_generated", lastError := None))), pc := Idle)
    case AtRecord(message) =>
      s.(db := s.db.(conference := Some(c.(state := "failed", attempts := c.attempts + 1, lastError := Some(Truncate(message))))),
         pc := Idle,
         tally := s.tally.(recorded := s.tally.recorded + 1))
  }

  function Next(env: Setting, s: State, l: Label): State {
    match l
    case Begin => BeginRun(s)
    case Commit(nonce) =>
      if CanCommit(env, s) then CommitNext(env, s, nonce)
      else if s.pc.AtRecord? then s.(pc := Idle)  // the row is gone: nothing to record
      else s
    case Lose(nonce, message) =>
      if s.pc.Idle? || !CanCommit(env, s) then s
      else if s.pc.AtRecord? then CommitNext(env, s, nonce)  // the new exception ends the run
      else
        var s' := CommitNext(env, s, nonce);
        s'.(pc := AtRecord(message), tally := s'.tally.(raises := s'.tally.raises + 1))
    case Raise(message) =>
      if s.pc.Idle? then s
      else if s.pc.AtRecord? then s.(pc := Idle)
      else s.(pc := AtRecord(message), tally := s.tally.(raises := s.tally.raises + 1))
    case Crash =>
      if s.pc.Idle? then s else s.(pc := Idle, tally := s.tally.(crashes := s.tally.crashes + 1))
    case Regenerate =>
      if s.db.conference.Some? && s.db.transcript.Some? && s.db.transcript.value.fullText.Some? then
        s.(db := s.db.(notes := Some(NotesOf(env, s.db.conference.value.meeting, PlainText(s.db.transcript.value)))))
      else s
    case Delete => s.(db := Db(None, None, None))
  }

  function Exec(env: Setting, s: State, ls: seq<Label>): State {
    if |ls| == 0 then s else Next(env, Exec(env, s, ls[..|ls| - 1]), ls[|ls| - 1])
  }

  function Start(db: Db): State { State(db, Idle, Tally(0, 0, 0, 0)) }

  /** One uninterrupted run. */
  function CleanRun(n: nat): seq<Label> {
    [Begin, Commit(n), Commit(n), Commit(n), Commit(n)]
  }

  // ---------------------------------------------------------------- retry is safe

  /** The data a conference ends with, ciphertext and bookkeeping abstracted. */
  datatype Data = Data(text: Option<string>, language: Option<string>, speakers: map<string, string>,
                       notes: Option<Notes>, meeting: Option<string>, lastError: Option<string>)

  function DataOf(db: Db): Data
    requires db.conference.Some? && db.transcript.Some?
  {
    var t, c := db.transcript.value, db.conference.value;
    Data(Some(PlainText(t)), t.language, t.speakers, db.notes, c.meeting, c.lastError)
  }

  /** What the pipeline is for, stated without any run: the assembled transcript, its
      notes, the mapped meeting. */
  function Target(env: Setting, meeting: Option<string>): Data {
    var speakers := SpeakerMap(env.participants);
    var text := FullText(env.entries, speakers);
    var m := MapMeeting(env, meeting);
    Data(Some(text), Language(env.entries), speakers, Some(NotesOf(env, m, text)), m, None)
  }

  /** The content is the summariser's last answer to the calls made for this text. */
  ghost predicate SummaryOf(env: Setting, text: string, content: NotesContent) {
    exists calls :: LastCallDecides(env.summarizer, text, env.chunkThreshold, Summarized(content, calls))
  }

  lemma NotesAre(env: Setting, meeting: Option<string>, text: string)
    ensures NotesFor(env, meeting, text, NotesOf(env, meeting, text))
  {
    TitleIs(env, meeting);
    BlankIff(text);
    var s := SummarizeText(env.summarizer, text, env.chunkThreshold);
    CallsAndContent(env.summarizer, text, env.chunkThreshold);
    assert LastCallDecides(env.summarizer, text, env.chunkThreshold, Summarized(s.content, s.calls));
  }

  /** The notes are those of this text, spelt out. */
  ghost predicate NotesFor(env: Setting, meeting: Option<string>, text: string, n: Notes) {
    && n.model == env.model && Titled(env, meeting, n.title)
    && if Words(text) == [] then n.content == NotesContent("No content was captured for this meeting.", [], [])
       else SummaryOf(env, text, n.content)
  }

  /** The target spelt out: the lines of all entries, the owner's first meeting in the space,
      its title, and the summariser's last answer, or a fixed summary when nobody spoke. */
  lemma TargetIs(env: Setting, meeting: Option<string>)
    ensures var d := Target(env, meeting);
            && d.text.Some? && d.notes.Some? && d.lastError.None? && NotesFor(env, d.meeting, d.text.value, d.notes.value)
            && (exists lines: seq<string> ::
                  && |lines| == |env.entries| && Spells(d.text.value, lines, "\n")
                  && forall k :: 0 <= k < |lines| ==> LineOf(env.participants, env.entries[k].participant, env.entries[k].text, lines[k]))
    ensures meeting.Some? ==> Target(env, meeting).meeting == meeting
    ensures meeting.None? ==> forall x :: Target(env, meeting).meeting == Some(x) <==> exists i :: FirstInSpace(env, i) && env.meetings[i].id == x
  {
    var d := Target(env, meeting);
    LinesAre(env.entries, env.participants);
    MeetingIs(env, meeting);
    NotesAre(env, d.meeting, d.text.value);
  }

  /** The transcript and the mapping are those of the target. */
  ghost predicate FetchedRight(env: Setting, m0: Option<string>, db: Db) {
    && db.transcript.Some?
    && PlainText(db.transcript.value) == FullText(env.entries, SpeakerMap(env.participants))
    && db.transcript.value.language == Language(env.entries)
    && db.transcript.value.speakers == SpeakerMap(env.participants)
    && db.conference.Some? && db.conference.value.meeting == MapMeeting(env, m0)
  }

  ghost predicate GeneratedRight(env: Setting, m0: Option<string>, db: Db) {
    FetchedRight(env, m0, db) && db.notes == Target(env, m0).notes
  }

  /** Holds along every history that starts from `c0`, a conference not yet fetched. */
  ghost predicate Progress(env: Setting, c0: Conference, s: State) {
    s.db.conference.Some? ==>
      var c := s.db.conference.value;
      && c.transcriptName == c0.transcriptName
      && (c.meeting == c0.meeting || c.meeting == MapMeeting(env, c0.meeting))
      && (Reached(c.state, "transcript_fetched") || s.pc.AtMarkFetched? || s.pc.AtGenerate? || s.pc.AtMarkGenerated? ==>
            FetchedRight(env, c0.meeting, s.db) && CanFetch(env, c0))
      && (s.pc.AtMarkGenerated? ==> GeneratedRight(env, c0.meeting, s.db))
      && (Reached(c.state, "notes_generated") ==> GeneratedRight(env, c0.meeting, s.db) && c.lastError == None && (s.pc.Idle? || s.pc.AtRecord?))
  }

  lemma FindMeetingTwice(env: Setting, meeting: Option<string>)
    ensures MapMeeting(env, MapMeeting(env, meeting)) == MapMeeting(env, meeting)
  {
  }

  lemma NextProgress(env: Setting, c0: Conference, s: State, l: Label)
    requires Progress(env, c0, s)
    ensures Progress(env, c0, Next(env, s, l))
  {
    FindMeetingTwice(env, c0.meeting);
  }

  lemma {:induction false} HistoryProgress(env: Setting, db: Db, ls: seq<Label>)
    requires db.conference.Some? && !Reached(db.conference.value.state, "transcript_fetched")
    ensures Progress(env, db.conference.value, Exec(env, Start(db), ls))
  {
    if |ls| > 0 {
      HistoryProgress(env, db, ls[..|ls| - 1]);
      NextProgress(env, db.conference.value, Exec(env, Start(db), ls[..|ls| - 1]), ls[|ls| - 1]);
    }
  }

  lemma CleanRunFrom(env: Setting, s: State, n: nat)
    requires s.pc.Idle? && s.db.conference.Some? && CanFetch(env, s.db.conference.value)
    requires s.db.conference.value.state == "transcript_fetched" ==> s.db.transcript.Some?
    ensures var f := Exec(env, s, CleanRun(n));
            f.pc.Idle? && f.db.conference.Some? && f.db.conference.value.state == "notes_generated"
            && f.db.conference.value.attempts == s.db.conference.value.attempts
  {
    var ls := CleanRun(n);
    assert ls[..4][..3] == ls[..3] && ls[..3][..2] == ls[..2] && ls[..2][..1] == ls[..1] && ls[..1][..0] == [];
    var s1 := BeginRun(s);
    assert Exec(env, s, ls[..1]) == s1;
    var s2 := Next(env, s1, Commit(n));
    assert Exec(env, s, ls[..2]) == s2;
    var s3 := Next(env, s2, Commit(n));
    assert Exec(env, s, ls[..3]) == s3;
    var s4 := Next(env, s3, Commit(n));
    assert Exec(env, s, ls[..4]) == s4;
  }

  /** Retry is safe: any history of runs, exceptions, crashes and regenerations that
      reaches `notes_generated` leaves the target data -- exactly what one uninterrupted
      run from the same start leaves. Only `attempts` may differ. */
  lemma RetryIsSafe(env: Setting, db: Db, ls: seq<Label>, n: nat)
    requires db.conference.Some? && !Reached(db.conference.value.state, "transcript_fetched")
    requires var f := Exec(env, Start(db), ls).db;
             f.conference.Some? && f.conference.value.state == "notes_generated"
    ensures var f, clean := Exec(env, Start(db), ls).db, Exec(env, Start(db), CleanRun(n)).db;
            && f.transcript.Some? && clean.conference.Some? && clean.transcript.Some?
            && clean.conference.value.state == "notes_generated"
            && DataOf(f) == Target(env, db.conference.value.meeting) == DataOf(clean)
  {
    HistoryProgress(env, db, ls);
    HistoryProgress(env, db, CleanRun(n));
    CleanRunFrom(env, Start(db), n);
  }

  lemma {:induction false} ExecAppend(env: Setting, s: State, a: seq<Label>, b: seq<Label>)
    ensures Exec(env, s, a + b) == Exec(env, Exec(env, s, a), b)
  {
    if |b| == 0 {
      assert a + b == a;
    } else {
      var n := |b| - 1;
      ExecAppend(env, s, a, b[..n]);
      assert (a + b)[..|a| + n] == a + b[..n];
    }
  }

  /** Retry suffices: whatever came before, one more uninterrupted run of a conference
      that still exists and can be fetched ends in the target data. */
  lemma RetrySuffices(env: Setting, db: Db, ls: seq<Label>, n: nat)
    requires db.conference.Some? && !Reached(db.conference.value.state, "transcript_fetched")
    requires CanFetch(env, db.conference.value)
    requires Exec(env, Start(db), ls).pc.Idle? && Exec(env, Start(db), ls).db.conference.Some?
    ensures var f := Exec(env, Start(db), ls + CleanRun(n)).db;
            && f.conference.Some? && f.transcript.Some? && f.conference.value.state == "notes_generated"
            && DataOf(f) == Target(env, db.conference.value.meeting)
  {
    HistoryProgress(env, db, ls);
    CleanRunFrom(env, Exec(env, Start(db), ls), n);
    ExecAppend(env, Start(db), ls, CleanRun(n));
    HistoryProgress(env, db, ls + CleanRun(n));
  }

  // ---------------------------------------------------------------- regeneration and deletion

  /** A regeneration of a conference with a transcript leaves the notes of that transcript under
      the meeting's title, and touches nothing else. */
  lemma RegenerateRewrites(env: Setting, s: State)
    requires s.db.conference.Some? && s.db.transcript.Some? && s.db.transcript.value.fullText.Some?
    ensures exists n ::
              && NotesFor(env, s.db.conference.value.meeting, PlainText(s.db.transcript.value), n)
              && Next(env, s, Regenerate) == s.(db := s.db.(notes := Some(n)))
  {
    var meeting, text := s.db.conference.value.meeting, PlainText(s.db.transcript.value);
    RegenerateStep(env, s, meeting, text);
    NotesAre(env, meeting, text);
  }

  lemma RegenerateStep(env: Setting, s: State, meeting: Option<string>, text: string)
    requires s.db.conference.Some? && s.db.conference.value.meeting == meeting
    requires s.db.transcript.Some? && s.db.transcript.value.fullText.Some? && PlainText(s.db.transcript.value) == text
    ensures Next(env, s, Regenerate) == s.(db := s.db.(notes := Some(NotesOf(env, meeting, text))))
  {
  }

  /** A transcript row without a text is summarised like a silent meeting: without the summariser. */
  lemma NoTextNoContent(env: Setting, meeting: Option<string>, t: Transcript)
    requires t.fullText.None?
    ensures NotesOf(env, meeting, PlainText(t)).content == NotesContent("No content was captured for this meeting.", [], [])
  {
  }

  ghost predicate Empty(db: Db) {
    db.conference.None? && db.transcript.None? && db.notes.None?
  }

  /** What is deleted stays deleted, whatever run is still under way. */
  lemma {:induction false} DeletedStaysDeleted(env: Setting, s: State, after: seq<Label>)
    ensures Empty(Exec(env, Next(env, s, Delete), after).db)
  {
    if |after| > 0 { DeletedStaysDeleted(env, s, after[..|after| - 1]); }
  }

  // ---------------------------------------------------------------- rows and states

  /** The state promises rows. */
  ghost predicate RowsFor(s: State) {
    s.db.conference.Some? ==>
      var c := s.db.conference.value;
      && (Reached(c.state, "transcript_fetched") || s.pc.AtMarkFetched? || s.pc.AtGenerate? || s.pc.AtMarkGenerated? ==> s.db.transcript.Some?)
      && (Reached(c.state, "notes_generated") || s.pc.AtMarkGenerated? ==> s.db.notes.Some?)
  }

  lemma NextRows(env: Setting, s: State, l: Label)
    requires RowsFor(s)
    ensures RowsFor(Next(env, s, l))
  {
  }

  /** In every reachable database, regenerations and deletions included,
      `transcript_fetched` has its transcript and `notes_generated` has both rows. */
  lemma {:induction false} StateImpliesRows(env: Setting, db: Db, ls: seq<Label>)
    requires RowsFor(Start(db))
    ensures RowsFor(Exec(env, Start(db), ls))
  {
    if |ls| > 0 {
      StateImpliesRows(env, db, ls[..|ls| - 1]);
      NextRows(env, Exec(env, Start(db), ls[..|ls| - 1]), ls[|ls| - 1]);
    }
  }

  /** Bookkeeping of a conference that ingestion has just created. */
  ghost predicate Accounts(s: State) {
    && (s.db.conference.Some? ==>
          var c := s.db.conference.value;
          && c.attempts == s.tally.recorded
          && (c.lastError.None? <==> c.state != "failed")
          && (c.state == "notes_generated" ==> s.pc.Idle? || s.pc.AtRecord?))
    && s.tally.recorded + (if s.pc.AtRecord? then 1 else 0) <= s.tally.raises
    && s.tally.fetches <= s.tally.raises + s.tally.crashes +
         (if !s.pc.AtRecord?
             && (s.pc.AtFetch? || s.pc.AtMarkFetched? || s.db.conference.None?
                 || Reached(s.db.conference.value.state, "transcript_fetched")) then 1 else 0)
  }

  lemma NextAccounts(env: Setting, s: State, l: Label)
    requires Accounts(s)
    ensures Accounts(Next(env, s, l))
  {
  }

  /** Over every serial history: `attempts` counts the recorded failures, `last_error`
      is null exactly outside `failed`, and the first stage runs at most once more than
      there were failures and crashes. */
  lemma {:induction false} FailureAccounting(env: Setting, db: Db, ls: seq<Label>)
    requires db.conference.Some? && db.conference.value.state == "pending"
    requires db.conference.value.attempts == 0 && db.conference.value.lastError == None
    ensures Accounts(Exec(env, Start(db), ls))
    ensures Exec(env, Start(db), ls).tally.fetches <= 1 + Exec(env, Start(db), ls).tally.raises + Exec(env, Start(db), ls).tally.crashes
  {
    if |ls| > 0 {
      FailureAccounting(env, db, ls[..|ls| - 1]);
      NextAccounts(env, Exec(env, Start(db), ls[..|ls| - 1]), ls[|ls| - 1]);
    }
  }

  /** A conference that ingestion has just created. */
  predicate Pending(db: Db) {
    && db.conference.Some? && db.conference.value.state == "pending"
    && db.conference.value.attempts == 0 && db.conference.value.lastError == None
  }

  predicate Generated(s: State) {
    s.db.conference.Some? && s.db.conference.value.state == "notes_generated"
  }

  /** No later label changes the row again, except a delete. */
  ghost predicate Final(env: Setting, s: State) {
    forall after :: Exec(env, s, after).db.conference.None? || Exec(env, s, after).db.conference == s.db.conference
  }

  lemma {:induction false} IdleStays(env: Setting, s: State, after: seq<Label>)
    requires Generated(s) && s.pc.Idle?
    ensures var f := Exec(env, s, after);
            f.pc.Idle? && (f.db.conference.None? || f.db.conference == s.db.conference)
  {
    if |after| > 0 {
      IdleStays(env, s, after[..|after| - 1]);
    }
  }

  /** Unless the acknowledgement of a commit is lost, a run that has generated is over. */
  lemma {:induction false} GeneratedIsIdle(env: Setting, db: Db, ls: seq<Label>)
    requires Pending(db) && forall i :: 0 <= i < |ls| ==> !ls[i].Lose?
    ensures Generated(Exec(env, Start(db), ls)) ==> Exec(env, Start(db), ls).pc.Idle?
  {
    if |ls| > 0 {
      GeneratedIsIdle(env, db, ls[..|ls| - 1]);
      FailureAccounting(env, db, ls[..|ls| - 1]);
    }
  }

  /** `notes_generated` is absorbing in every history whose commits are acknowledged: nothing
      but a delete changes the row again, whatever follows. */
  lemma GeneratedIsAbsorbing(env: Setting, db: Db, before: seq<Label>, after: seq<Label>)
    requires Pending(db) && forall i :: 0 <= i < |before| ==> !before[i].Lose?
    requires Generated(Exec(env, Start(db), before))
    ensures var f := Exec(env, Start(db), before + after).db.conference;
            f.None? || f == Exec(env, Start(db), before).db.conference
  {
    GeneratedIsIdle(env, db, before);
    IdleStays(env, Exec(env, Start(db), before), after);
    ExecAppend(env, Start(db), before, after);
  }

  /** In all histories: a generated conference is final exactly when its run is over. If the
      final commit took effect and then raised, the failure is still to be recorded and
      overwrites the state. */
  lemma GeneratedIsFinalIff(env: Setting, db: Db, ls: seq<Label>)
    requires Pending(db) && Generated(Exec(env, Start(db), ls))
    ensures Final(env, Exec(env, Start(db), ls)) <==> Exec(env, Start(db), ls).pc.Idle?
  {
    var s := Exec(env, Start(db), ls);
    FailureAccounting(env, db, ls);
    if s.pc.Idle? {
      forall after ensures Exec(env, s, after).db.conference.None? || Exec(env, s, after).db.conference == s.db.conference {
        IdleStays(env, s, after);
      }
    } else {
      assert [Commit(0)][..0] == [];
      assert Exec(env, s, [Commit(0)]) == CommitNext(env, s, 0);
    }
  }

  /** Such histories exist: a run of a conference that can be fetched whose last commit
      loses its acknowledgement. */
  lemma LostAcknowledgement(env: Setting, db: Db, n: nat, message: string)
    requires Pending(db) && CanFetch(env, db.conference.value)
    ensures var s := Exec(env, Start(db), CleanRun(n)[..4] + [Lose(n, message)]); Generated(s) && !Final(env, s)
  {
    var ls := CleanRun(n)[..4];
    assert ls[..3][..2] == ls[..2] && ls[..2][..1] == ls[..1] && ls[..1][..0] == [];
    var s1 := BeginRun(Start(db));
    assert Exec(env, Start(db), ls[..1]) == s1;
    var s2 := Next(env, s1, Commit(n));
    assert Exec(env, Start(db), ls[..2]) == s2;
    var s3 := Next(env, s2, Commit(n));
    assert Exec(env, Start(db), ls[..3]) == s3;
    var s4 := Next(env, s3, Commit(n));
    assert Exec(env, Start(db), ls) == s4;
    assert (ls + [Lose(n, message)])[..4] == ls;
    GeneratedIsFinalIff(env, db, ls + [Lose(n, message)]);
  }
}
