/** `:regenerate` requests (`app/api/routes/notes.py`) beside the pipeline. A request loads the
    conference, reads the transcript, looks for the notes row and writes it at different
    moments; in between the pipeline and other requests go on. */
module Regeneration {
  import opened Wrappers
  import opened Text
  import opened Transcripts
  import opened Summaries
  import opened Pipeline

  /** What the session of a request holds: the conference, the text of its transcript, and in
      the end the new notes and the notes row as it was found. */
  datatype Request =
    | Loaded(meeting: Option<string>)
    | HasText(meeting: Option<string>, text: string)
    | Looked(notes: Notes, seen: Option<Notes>)

  datatype Service = Service(run: Pipeline.State, requests: map<nat, Request>)

  /** The pipeline goes on as before; a request may be abandoned at any moment. */
  datatype Move =
    | Run(step: Pipeline.Label)
    | Load(q: nat)
    | Read(q: nat)
    | Look(q: nat)
    | Write(q: nat)
    | Drop(q: nat)

  /** The UPDATE names the columns that differ from the row as it was found. */
  function Updated(row: Notes, seen: Notes, notes: Notes): Notes {
    Notes(if notes.title != seen.title then notes.title else row.title,
          NotesContent(if notes.content.summary != seen.content.summary then notes.content.summary else row.content.summary,
                       if notes.content.decisions != seen.content.decisions then notes.content.decisions else row.content.decisions,
                       if notes.content.actionItems != seen.content.actionItems then notes.content.actionItems else row.content.actionItems),
          if notes.model != seen.model then notes.model else row.model)
  }

  /** The notes after the commit of a request. An INSERT fails on the unique conference or on
      the missing one, an UPDATE on the missing row. */
  function Written(db: Db, notes: Notes, seen: Option<Notes>): Option<Notes> {
    if seen.None? then (if db.notes.None? && db.conference.Some? then Some(notes) else db.notes)
    else if db.notes.Some? then Some(Updated(db.notes.value, seen.value, notes))
    else None
  }

  function Advance(env: Setting, db: Db, x: Request): Option<Request> {
    match x
    case Loaded(meeting) =>
      if db.transcript.Some? && db.transcript.value.fullText.Some? then Some(HasText(meeting, PlainText(db.transcript.value)))
      else None
    case HasText(meeting, text) =>
      // The second query finds the transcript that the session holds, if it is still there.
      if db.transcript.Some? then Some(Looked(NotesOf(env, meeting, text), db.notes)) else None
    case Looked(_, _) => Some(x)
  }

  function Go(env: Setting, s: Service, q: nat): Service
    requires q in s.requests
  {
    var x := Advance(env, s.run.db, s.requests[q]);
    s.(requests := if x.Some? then s.requests[q := x.value] else s.requests - {q})
  }

  function Next(env: Setting, s: Service, m: Move): Service {
    match m
    case Run(l) => if l.Regenerate? then s else s.(run := Pipeline.Next(env, s.run, l))
    case Load(q) =>
      if q !in s.requests && s.run.db.conference.Some?
      then s.(requests := s.requests[q := Loaded(s.run.db.conference.value.meeting)]) else s
    case Read(q) => if q in s.requests && s.requests[q].Loaded? then Go(env, s, q) else s
    case Look(q) => if q in s.requests && s.requests[q].HasText? then Go(env, s, q) else s
    case Write(q) =>
      if q in s.requests && s.requests[q].Looked? then
        Service(s.run.(db := s.run.db.(notes := Written(s.run.db, s.requests[q].notes, s.requests[q].seen))), s.requests - {q})
      else s
    case Drop(q) => s.(requests := s.requests - {q})
  }

  function Exec(env: Setting, s: Service, ms: seq<Move>): Service {
    if |ms| == 0 then s else Next(env, Exec(env, s, ms[..|ms| - 1]), ms[|ms| - 1])
  }

  function Start(db: Db): Service { Service(Pipeline.Start(db), map[]) }

  // ---------------------------------------------------------------- one request

  /** A request that nobody disturbs replaces the notes by those of its meeting and text, and
      changes nothing else. */
  lemma UndisturbedRequest(env: Setting, s: Service, q: nat)
    requires q !in s.requests && s.run.db.conference.Some?
    requires s.run.db.transcript.Some? && s.run.db.transcript.value.fullText.Some?
    ensures var db := s.run.db;
            Next(env, Next(env, Next(env, Next(env, s, Load(q)), Read(q)), Look(q)), Write(q)) ==
              s.(run := s.run.(db := db.(notes :=
                Some(NotesOf(env, db.conference.value.meeting, PlainText(db.transcript.value))))))
  {
    var s1 := Next(env, s, Load(q));
    var s2 := Next(env, s1, Read(q));
    assert s2.requests[q] == HasText(s.run.db.conference.value.meeting, PlainText(s.run.db.transcript.value));
    var s3 := Next(env, s2, Look(q));
    assert s3.requests[q].Looked? && s3.run == s.run && s3.requests - {q} == s.requests;
  }

  /** What a request wrote over a row that has changed since it looked is, column by column,
      its own value where that differs from what it saw, and the row's otherwise. A row that
      was not there when it looked is never overwritten, and one that is gone never returns. */
  lemma DisturbedWrite(env: Setting, s: Service, q: nat)
    requires q in s.requests && s.requests[q].Looked?
    ensures var db, mine, seen := s.run.db, s.requests[q].notes, s.requests[q].seen;
            var after := Next(env, s, Write(q)).run.db.notes;
            && (db.notes.Some? && seen.None? ==> after == db.notes)
            && (db.notes.None? && (seen.Some? || db.conference.None?) ==> after.None?)
            && (db.notes.Some? && seen.Some? ==>
                  && after.Some?
                  && after.value.title == (if mine.title == seen.value.title then db.notes.value.title else mine.title)
                  && after.value.model == (if mine.model == seen.value.model then db.notes.value.model else mine.model)
                  && after.value.content.summary == (if mine.content.summary == seen.value.content.summary then db.notes.value.content.summary else mine.content.summary)
                  && after.value.content.decisions == (if mine.content.decisions == seen.value.content.decisions then db.notes.value.content.decisions else mine.content.decisions)
                  && after.value.content.actionItems == (if mine.content.actionItems == seen.value.content.actionItems then db.notes.value.content.actionItems else mine.content.actionItems))
  {
  }

  /** An abandoned request is forgotten and has written nothing. */
  lemma DropForgets(env: Setting, s: Service, q: nat)
    ensures Next(env, s, Drop(q)).run == s.run
    ensures forall p :: p in Next(env, s, Drop(q)).requests <==> p in s.requests && p != q
    ensures forall p :: p in s.requests && p != q ==> Next(env, s, Drop(q)).requests[p] == s.requests[p]
  {
  }

  /** Notes never outlive their conference, whatever request is still under way. */
  lemma {:induction false} NotesHaveConference(env: Setting, db: Db, ms: seq<Move>)
    requires db.notes.Some? || db.transcript.Some? ==> db.conference.Some?
    ensures var d := Exec(env, Start(db), ms).run.db; d.notes.Some? || d.transcript.Some? ==> d.conference.Some?
  {
    if |ms| > 0 {
      NotesHaveConference(env, db, ms[..|ms| - 1]);
      NotesStep(env, Exec(env, Start(db), ms[..|ms| - 1]), ms[|ms| - 1]);
    }
  }

  lemma NotesStep(env: Setting, s: Service, m: Move)
    requires s.run.db.notes.Some? || s.run.db.transcript.Some? ==> s.run.db.conference.Some?
    ensures var d := Next(env, s, m).run.db; d.notes.Some? || d.transcript.Some? ==> d.conference.Some?
  {
  }

  // ---------------------------------------------------------------- what requests cannot touch

  function TextOf(env: Setting): string {
    FullText(env.entries, SpeakerMap(env.participants))
  }

  /** The notes of the target. */
  function Right(env: Setting, m0: Option<string>): Notes {
    NotesOf(env, MapMeeting(env, m0), TextOf(env))
  }

  predicate KnownMeeting(env: Setting, m0: Option<string>, m: Option<string>) {
    m == m0 || m == MapMeeting(env, m0)
  }

  /** Along every history: the pipeline's progress, the notes left aside. */
  ghost predicate Underway(env: Setting, c0: Conference, s: Pipeline.State) {
    && (s.db.transcript.Some? ==> PlainText(s.db.transcript.value) == TextOf(env))
    && (s.db.conference.Some? ==>
          var c := s.db.conference.value;
          && c.transcriptName == c0.transcriptName && KnownMeeting(env, c0.meeting, c.meeting)
          && (Reached(c.state, "transcript_fetched") || s.pc.AtMarkFetched? || s.pc.AtGenerate? || s.pc.AtMarkGenerated? ==>
                FetchedRight(env, c0.meeting, s.db) && CanFetch(env, c0))
          && (Reached(c.state, "notes_generated") ==> c.lastError == None && (s.pc.Idle? || s.pc.AtRecord?)))
  }

  /** What a request holds is what the pipeline has shown at some moment. */
  ghost predicate Holds(env: Setting, m0: Option<string>, x: Request) {
    match x
    case Loaded(meeting) => KnownMeeting(env, m0, meeting)
    case HasText(meeting, text) => KnownMeeting(env, m0, meeting) && text == TextOf(env)
    case Looked(notes, _) => exists m :: KnownMeeting(env, m0, m) && notes == NotesOf(env, m, TextOf(env))
  }

  ghost predicate Sane(env: Setting, c0: Conference, s: Service) {
    Underway(env, c0, s.run) && forall q :: q in s.requests ==> Holds(env, c0.meeting, s.requests[q])
  }

  lemma RunUnderway(env: Setting, c0: Conference, s: Pipeline.State, l: Pipeline.Label)
    requires Underway(env, c0, s)
    ensures Underway(env, c0, Pipeline.Next(env, s, l))
  {
    FindMeetingTwice(env, c0.meeting);
  }

  lemma AdvanceHolds(env: Setting, c0: Conference, s: Pipeline.State, x: Request)
    requires Underway(env, c0, s) && Holds(env, c0.meeting, x)
    ensures Advance(env, s.db, x).Some? ==> Holds(env, c0.meeting, Advance(env, s.db, x).value)
  {
  }

  lemma NextSane(env: Setting, c0: Conference, s: Service, m: Move)
    requires Sane(env, c0, s)
    ensures Sane(env, c0, Next(env, s, m))
  {
    match m
    case Run(l) => RunUnderway(env, c0, s.run, l);
    case Read(q) => if q in s.requests { AdvanceHolds(env, c0, s.run, s.requests[q]); }
    case Look(q) => if q in s.requests { AdvanceHolds(env, c0, s.run, s.requests[q]); }
    case _ =>
  }

  /** Requests disturb neither the transcript nor the mapping, and what they write is the
      notes of the target under one of two titles. */
  lemma {:induction false} HistoryIsSane(env: Setting, db: Db, ms: seq<Move>)
    requires Pending(db) && db.transcript.None?
    ensures Sane(env, db.conference.value, Exec(env, Start(db), ms))
  {
    if |ms| > 0 {
      HistoryIsSane(env, db, ms[..|ms| - 1]);
      NextSane(env, db.conference.value, Exec(env, Start(db), ms[..|ms| - 1]), ms[|ms| - 1]);
    }
  }

  // ---------------------------------------------------------------- when the titles agree

  predicate TitlesAgree(env: Setting, m0: Option<string>) {
    TitleFor(env, m0) == TitleFor(env, MapMeeting(env, m0))
  }

  /** The notes row is as in the beginning or right, and what a request has found is still
      there or replaced by the right one. */
  ghost predicate NotesRight(env: Setting, m0: Option<string>, first: Option<Notes>, s: Service) {
    s.run.db.conference.Some? ==>
      var right := Some(Right(env, m0));
      && (s.run.db.notes == first || s.run.db.notes == right)
      && (s.run.pc.AtMarkGenerated? || Reached(s.run.db.conference.value.state, "notes_generated") ==> s.run.db.notes == right)
      && forall q :: q in s.requests && s.requests[q].Looked? ==> s.requests[q].seen == s.run.db.notes || s.run.db.notes == right
  }

  lemma OneTitle(env: Setting, m0: Option<string>, m: Option<string>)
    requires TitlesAgree(env, m0) && KnownMeeting(env, m0, m)
    ensures NotesOf(env, m, TextOf(env)) == Right(env, m0)
  {
  }

  lemma RunNotes(env: Setting, c0: Conference, first: Option<Notes>, s: Service, l: Pipeline.Label)
    requires Sane(env, c0, s) && NotesRight(env, c0.meeting, first, s) && TitlesAgree(env, c0.meeting)
    ensures NotesRight(env, c0.meeting, first, Next(env, s, Run(l)))
  {
    if s.run.db.conference.Some? && s.run.db.transcript.Some? {
      OneTitle(env, c0.meeting, s.run.db.conference.value.meeting);
    }
  }

  lemma WriteNotes(env: Setting, c0: Conference, first: Option<Notes>, s: Service, q: nat)
    requires Sane(env, c0, s) && NotesRight(env, c0.meeting, first, s) && TitlesAgree(env, c0.meeting)
    requires q in s.requests && s.requests[q].Looked?
    ensures NotesRight(env, c0.meeting, first, Next(env, s, Write(q)))
  {
    var notes := s.requests[q].notes;
    assert Holds(env, c0.meeting, s.requests[q]);
    var m :| KnownMeeting(env, c0.meeting, m) && notes == NotesOf(env, m, TextOf(env));
    OneTitle(env, c0.meeting, m);
  }

  lemma NextNotes(env: Setting, c0: Conference, first: Option<Notes>, s: Service, m: Move)
    requires Sane(env, c0, s) && NotesRight(env, c0.meeting, first, s) && TitlesAgree(env, c0.meeting)
    ensures NotesRight(env, c0.meeting, first, Next(env, s, m))
  {
    match m
    case Run(l) => RunNotes(env, c0, first, s, l);
    case Write(q) => if q in s.requests && s.requests[q].Looked? { WriteNotes(env, c0, first, s, q); }
    case _ =>
  }

  lemma {:induction false} HistoryNotes(env: Setting, db: Db, ms: seq<Move>)
    requires Pending(db) && db.transcript.None? && TitlesAgree(env, db.conference.value.meeting)
    ensures NotesRight(env, db.conference.value.meeting, db.notes, Exec(env, Start(db), ms))
  {
    if |ms| > 0 {
      HistoryNotes(env, db, ms[..|ms| - 1]);
      HistoryIsSane(env, db, ms[..|ms| - 1]);
      NextNotes(env, db.conference.value, db.notes, Exec(env, Start(db), ms[..|ms| - 1]), ms[|ms| - 1]);
    }
  }

  /** The data of a generated conference are those of the target. */
  ghost predicate OnTarget(env: Setting, m0: Option<string>, db: Db) {
    db.conference.Some? && db.transcript.Some? && DataOf(db) == Target(env, m0)
  }

  /** If mapping does not change the title, no schedule of requests does any harm. */
  lemma AgreedTitlesAreSafe(env: Setting, db: Db, ms: seq<Move>)
    requires Pending(db) && db.transcript.None? && TitlesAgree(env, db.conference.value.meeting)
    requires Generated(Exec(env, Start(db), ms).run)
    ensures OnTarget(env, db.conference.value.meeting, Exec(env, Start(db), ms).run.db)
  {
    HistoryIsSane(env, db, ms);
    HistoryNotes(env, db, ms);
  }

  // ---------------------------------------------------------------- when they differ

  function Runs(ls: seq<Pipeline.Label>): seq<Move> {
    seq(|ls|, i requires 0 <= i < |ls| => Run(ls[i]))
  }

  lemma {:induction false} ExecRuns(env: Setting, s: Service, ls: seq<Pipeline.Label>)
    requires forall i :: 0 <= i < |ls| ==> !ls[i].Regenerate?
    ensures Exec(env, s, Runs(ls)) == Service(Pipeline.Exec(env, s.run, ls), s.requests)
  {
    if |ls| > 0 {
      ExecRuns(env, s, ls[..|ls| - 1]);
      assert Runs(ls)[..|ls| - 1] == Runs(ls[..|ls| - 1]);
    }
  }

  lemma {:induction false} ExecAppend(env: Setting, s: Service, a: seq<Move>, b: seq<Move>)
    ensures Exec(env, s, a + b) == Exec(env, Exec(env, s, a), b)
  {
    if |b| == 0 {
      assert a + b == a;
    } else {
      var n := |b| - 1;
      ExecAppend(env, s, a, b[..n]);
      assert (a + b)[..|a| + n] == a + b[..n];
    }
  }

  /** The request loads first and goes on when the run is over. */
  function Overlap(n: nat): seq<Move> {
    [Load(0)] + Runs(CleanRun(n)) + [Read(0), Look(0), Write(0)]
  }

  /** The rest of a request whose conference was loaded before the run. */
  lemma LateWrite(env: Setting, s: Service, m: Option<string>)
    requires s.requests == map[0 := Loaded(m)]
    requires s.run.db.conference.Some? && s.run.db.transcript.Some? && s.run.db.transcript.value.fullText.Some? && s.run.db.notes.Some?
    ensures var f := Exec(env, s, [Read(0), Look(0), Write(0)]);
            && f.requests == map[] && f.run.db.conference == s.run.db.conference && f.run.db.notes.Some?
            && f.run.db.notes.value.title == TitleFor(env, m)
  {
    var ms := [Read(0), Look(0), Write(0)];
    assert ms[..2][..1] == ms[..1] && ms[..1][..0] == [];
    var s1 := Next(env, s, Read(0));
    assert Exec(env, s, ms[..1]) == s1;
    var s2 := Next(env, s1, Look(0));
    assert Exec(env, s, ms[..2]) == s2;
  }

  lemma RunAlone(env: Setting, db: Db, n: nat)
    requires Pending(db) && db.transcript.None? && CanFetch(env, db.conference.value)
    ensures var f := Pipeline.Exec(env, Pipeline.Start(db), CleanRun(n));
            Generated(f) && f.db.transcript.Some? && f.db.transcript.value.fullText.Some? && f.db.notes.Some?
  {
    CleanRunFrom(env, Pipeline.Start(db), n);
    HistoryProgress(env, db, CleanRun(n));
    TextStays(env, db, CleanRun(n));
  }

  /** A transcript that the pipeline has stored has a text. */
  lemma {:induction false} TextStays(env: Setting, db: Db, ls: seq<Pipeline.Label>)
    requires db.transcript.Some? ==> db.transcript.value.fullText.Some?
    ensures var t := Pipeline.Exec(env, Pipeline.Start(db), ls).db.transcript; t.Some? ==> t.value.fullText.Some?
  {
    if |ls| > 0 { TextStays(env, db, ls[..|ls| - 1]); }
  }

  /** A request that overlaps the run ends in a generated conference whose notes carry the
      title from before the mapping. */
  lemma StaleTitle(env: Setting, db: Db, n: nat)
    requires Pending(db) && db.transcript.None? && CanFetch(env, db.conference.value)
    ensures var f := Exec(env, Start(db), Overlap(n));
            && Generated(f.run) && f.requests == map[] && f.run.db.notes.Some?
            && f.run.db.notes.value.title == TitleFor(env, db.conference.value.meeting)
  {
    var s1 := Next(env, Start(db), Load(0));
    var last := [Read(0), Look(0), Write(0)];
    assert [Load(0)][..0] == [] && Exec(env, Start(db), [Load(0)]) == s1;
    ExecAppend(env, Start(db), [Load(0)], Runs(CleanRun(n)));
    ExecAppend(env, Start(db), [Load(0)] + Runs(CleanRun(n)), last);
    ExecRuns(env, s1, CleanRun(n));
    RunAlone(env, db, n);
    LateWrite(env, Exec(env, s1, Runs(CleanRun(n))), db.conference.value.meeting);
  }

  /** An uninterrupted run that has something to do leaves the notes of what it has stored. */
  lemma RunWritesNotes(env: Setting, s: Pipeline.State, n: nat)
    requires s.pc.Idle? && s.db.conference.Some? && CanFetch(env, s.db.conference.value) && !Reached(s.db.conference.value.state, "notes_generated")
    requires Reached(s.db.conference.value.state, "transcript_fetched") ==> s.db.transcript.Some?
    ensures var f := Pipeline.Exec(env, s, CleanRun(n));
            && Generated(f) && f.db.transcript.Some?
            && f.db.notes == Some(NotesOf(env, f.db.conference.value.meeting, PlainText(f.db.transcript.value)))
  {
    var ls := CleanRun(n);
    assert ls[..4][..3] == ls[..3] && ls[..3][..2] == ls[..2] && ls[..2][..1] == ls[..1] && ls[..1][..0] == [];
    var s1 := BeginRun(s);
    assert Pipeline.Exec(env, s, ls[..1]) == s1;
    var s2 := Pipeline.Next(env, s1, Commit(n));
    assert Pipeline.Exec(env, s, ls[..2]) == s2;
    var s3 := Pipeline.Next(env, s2, Commit(n));
    assert Pipeline.Exec(env, s, ls[..3]) == s3;
    var s4 := Pipeline.Next(env, s3, Commit(n));
    assert Pipeline.Exec(env, s, ls[..4]) == s4;
  }

  /** Retry repairs what requests have written, whatever the titles: one more uninterrupted
      run of a conference not yet generated ends in the target data. */
  lemma RetryRepairs(env: Setting, db: Db, ms: seq<Move>, n: nat)
    requires Pending(db) && db.transcript.None? && CanFetch(env, db.conference.value)
    requires var s := Exec(env, Start(db), ms).run; s.pc.Idle? && s.db.conference.Some? && !Reached(s.db.conference.value.state, "notes_generated")
    ensures var f := Exec(env, Start(db), ms + Runs(CleanRun(n))).run;
            Generated(f) && OnTarget(env, db.conference.value.meeting, f.db)
  {
    var s := Exec(env, Start(db), ms);
    HistoryIsSane(env, db, ms);
    RunWritesNotes(env, s.run, n);
    ExecAppend(env, Start(db), ms, Runs(CleanRun(n)));
    ExecRuns(env, s, CleanRun(n));
    HistoryIsSane(env, db, ms + Runs(CleanRun(n)));
  }

  /** Every history that ends generated, with no request under way, has the target data. */
  ghost predicate RegenerationSafe(env: Setting, db: Db)
    requires Pending(db)
  {
    forall ms :: Generated(Exec(env, Start(db), ms).run) && Exec(env, Start(db), ms).requests == map[] ==>
      OnTarget(env, db.conference.value.meeting, Exec(env, Start(db), ms).run.db)
  }

  lemma NeverGenerated(env: Setting, db: Db, ms: seq<Move>)
    requires Pending(db) && db.transcript.None? && !CanFetch(env, db.conference.value)
    ensures !Generated(Exec(env, Start(db), ms).run)
  {
    HistoryIsSane(env, db, ms);
  }

  /** Regeneration beside the pipeline is safe if and only if mapping the conference does not
      change its title, or it cannot be fetched at all. */
  lemma RegenerationIsSafeIff(env: Setting, db: Db)
    requires Pending(db) && db.transcript.None?
    ensures RegenerationSafe(env, db) <==> (CanFetch(env, db.conference.value) ==> TitlesAgree(env, db.conference.value.meeting))
  {
    var c := db.conference.value;
    if CanFetch(env, c) && !TitlesAgree(env, c.meeting) {
      StaleTitle(env, db, 0);
    } else {
      forall ms | Generated(Exec(env, Start(db), ms).run) ensures OnTarget(env, c.meeting, Exec(env, Start(db), ms).run.db) {
        if CanFetch(env, c) { AgreedTitlesAreSafe(env, db, ms); } else { NeverGenerated(env, db, ms); }
      }
    }
  }
}
