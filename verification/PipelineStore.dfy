/** `run_pipeline`, `fetch_transcript` and `generate_notes` in their imperative form: the
    rows are fields, uncommitted changes are locals, and each stretch up to a commit may
    go through, raise or be cut off by a crash. */
module PipelineStore {
  import opened Wrappers
  import opened Text
  import opened MeetPages
  import opened Summaries
  import opened Pipeline
  import Transcripts

  /** What happens on the way to the k-th commit of a run; `Lost` takes effect and then raises. */
  datatype Weather = Fine(nonce: nat) | Lost(nonce: nat, message: string) | Raises(message: string) | Dies

  /** The commit takes effect. */
  predicate Lands(w: Weather) {
    w.Fine? || w.Lost?
  }

  /** No commit takes effect and raises all the same. */
  ghost predicate Acknowledged(weather: nat -> Weather) {
    forall k :: !weather(k).Lost?
  }

  /** How a stretch, or a whole run, ended. */
  datatype Ending = Finished | Raised(message: string) | Died

  /** How a stretch ends whose own checks pass. */
  function EndOf(w: Weather): Ending {
    match w
    case Fine(_) => Finished
    case Lost(_, message) => Raised(message)
    case Raises(message) => Raised(message)
    case Dies => Died
  }

  /** The message of the exception a stage raises by itself. */
  function OwnError(env: Setting, s: State): string {
    if s.pc.AtGenerate? && s.db.conference.Some? then "no transcript to summarize"
    else if s.pc.AtFetch? && s.db.conference.Some? then
      if !Truthy(s.db.conference.value.transcriptName) then "conference has no transcript resource yet"
      else "conference has no connection"
    else "row not found"
  }

  /** The label of the machine that a stretch of a run amounts to. */
  function LabelFor(env: Setting, s: State, w: Weather): Label {
    match w
    case Dies => Crash
    case Raises(message) => Raise(message)
    case Fine(nonce) => if CanCommit(env, s) || s.pc.AtRecord? then Commit(nonce) else Raise(OwnError(env, s))
    case Lost(nonce, message) =>
      if CanCommit(env, s) then Lose(nonce, message)
      else if s.pc.AtRecord? then Commit(nonce) else Raise(OwnError(env, s))
  }

  function Rank(pc: Pc): nat {
    match pc
    case AtFetch => 5
    case AtMarkFetched => 4
    case AtGenerate => 3
    case AtMarkGenerated => 2
    case AtRecord(_) => 1
    case Idle => 0
  }

  /** A whole run of the machine under the given weather. */
  function Drive(env: Setting, s: State, weather: nat -> Weather, k: nat): State
    decreases Rank(s.pc)
  {
    if s.pc.Idle? then s
    else Drive(env, Next(env, s, LabelFor(env, s, weather(k))), weather, k + 1)
  }

  /** The row after a recorded failure. */
  function Failed(c: Conference, message: string): Conference {
    c.(state := "failed", attempts := c.attempts + 1, lastError := Some(Truncate(message)))
  }

  /** The machine after a stretch that ended so, `next` being its place when all went well. */
  function After(db: Db, e: Ending, next: Pc, t: Tally): State {
    match e
    case Finished => State(db, next, t)
    case Raised(message) => State(db, AtRecord(message), t.(raises := t.raises + 1))
    case Died => State(db, Idle, t.(crashes := t.crashes + 1))
  }

  lemma RecordDrive(env: Setting, db: Db, message: string, tally: Tally, weather: nat -> Weather, k: nat)
    ensures Drive(env, State(db, AtRecord(message), tally), weather, k).db ==
              if Lands(weather(k)) && db.conference.Some?
              then db.(conference := Some(Failed(db.conference.value, message))) else db
  {
    var s := State(db, AtRecord(message), tally);
    var s' := Next(env, s, LabelFor(env, s, weather(k)));
    assert s'.pc.Idle? && Drive(env, s', weather, k + 1) == s';
  }

  class Store {
    var conference: Option<Conference>
    var transcript: Option<Transcript>
    var notes: Option<Notes>

    constructor (db: Db)
      ensures Now() == db
    {
      conference, transcript, notes := db.conference, db.transcript, db.notes;
    }

    function Now(): Db
      reads this
    {
      Db(conference, transcript, notes)
    }

    /** `fetch_transcript`: the mapping and the transcript row share one commit. */
    method FetchTranscript(env: Setting, w: Weather) returns (e: Ending)
      requires conference.Some?
      modifies this
      ensures w.Dies? ==> e == Died && Now() == old(Now())
      ensures w.Raises? ==> e == Raised(w.message) && Now() == old(Now())
      ensures Lands(w) && CanFetch(env, old(conference).value) ==>
                e == EndOf(w)
                && conference == Some(old(conference).value.(meeting := MapMeeting(env, old(conference).value.meeting)))
                && transcript == Some(TranscriptOf(env, w.nonce)) && notes == old(notes)
      ensures Lands(w) && CanFetch(env, old(conference).value) && old(conference).value.meeting.None? ==>
                && (forall x :: conference.value.meeting == Some(x) <==> exists i :: FirstInSpace(env, i) && env.meetings[i].id == x)
                && (conference.value.meeting.None? <==> !HasMatch(env))
      ensures Lands(w) && !CanFetch(env, old(conference).value) ==>
                e.Raised? && Now() == old(Now())
                && e.message == (if Truthy(old(conference).value.transcriptName) then "conference has no connection"
                                 else "conference has no transcript resource yet")
    {
      MeetingIs(env, conference.value.meeting);
      match w {
        case Dies => return Died;
        case Raises(message) => return Raised(message);
        case _ =>
      }
      if !Truthy(conference.value.transcriptName) {
        return Raised("conference has no transcript resource yet");
      }
      if env.owner.None? {
        return Raised("conference has no connection");
      }
      var meeting := conference.value.meeting;
      if meeting.None? && Truthy(env.space) {
        meeting := FindMeeting(env.meetings, env.space.value, env.owner.value);
      }
      var speakers := Transcripts.SpeakerMap(env.participants);
      var fullText, language := Transcripts.Assemble(env.entries, speakers);
      conference := Some(conference.value.(meeting := meeting));
      transcript := Some(Transcript(Some(Encrypt(w.nonce, fullText)), language, speakers));
      return EndOf(w);
    }

    /** `generate_notes` */
    method GenerateNotes(env: Setting, w: Weather) returns (e: Ending)
      requires conference.Some?
      modifies this
      ensures w.Dies? ==> e == Died && Now() == old(Now())
      ensures w.Raises? ==> e == Raised(w.message) && Now() == old(Now())
      ensures Lands(w) && old(transcript).None? ==> e == Raised("no transcript to summarize") && Now() == old(Now())
      ensures Lands(w) && old(transcript).Some? ==>
                e == EndOf(w) && conference == old(conference) && transcript == old(transcript)
                && notes == Some(NotesOf(env, conference.value.meeting, PlainText(transcript.value)))
    {
      match w {
        case Dies => return Died;
        case Raises(message) => return Raised(message);
        case _ =>
      }
      if transcript.None? {
        return Raised("no transcript to summarize");
      }
      var text := PlainText(transcript.value);
      var content := NotesContent(EMPTY_SUMMARY, [], []);
      if !IsBlank(text) {
        var calls;
        content, calls := Summarize(env.summarizer, text, env.chunkThreshold);
      }
      notes := Some(Notes(TitleFor(env, conference.value.meeting), content, env.model));
      return EndOf(w);
    }

    /** The first guarded block of `run_pipeline`, up to its second commit. */
    method FetchStage(env: Setting, weather: nat -> Weather, ghost t: Tally) returns (e: Ending, k: nat)
      requires conference.Some?
      modifies this
      ensures Drive(env, State(old(Now()), AtFetch, t), weather, 0).db == Drive(env, After(Now(), e, AtGenerate, t), weather, k).db
      ensures conference.Some?
      ensures e.Finished? ==> conference.value.state == "transcript_fetched"
      ensures !e.Finished? && Acknowledged(weather) ==> conference.value.state == old(conference).value.state
    {
      ghost var final := Drive(env, State(Now(), AtFetch, t), weather, 0).db;
      e := FetchTranscript(env, weather(0));
      k := 1;
      assert final == Drive(env, After(Now(), e, AtMarkFetched, t), weather, 1).db;
      if e.Finished? {
        e := Mark("transcript_fetched", weather(1));
        k := 2;
      }
    }

    /** The second guarded block. */
    method GenerateStage(env: Setting, weather: nat -> Weather, k: nat, ghost t: Tally) returns (e: Ending, k': nat)
      requires conference.Some?
      modifies this
      ensures Drive(env, State(old(Now()), AtGenerate, t), weather, k).db == Drive(env, After(Now(), e, Idle, t), weather, k').db
      ensures e.Finished? ==> conference.Some? && conference.value.state == "notes_generated"
      ensures !e.Finished? && Acknowledged(weather) ==> conference == old(conference)
    {
      ghost var final := Drive(env, State(Now(), AtGenerate, t), weather, k).db;
      e := GenerateNotes(env, weather(k));
      k' := k + 1;
      assert final == Drive(env, After(Now(), e, AtMarkGenerated, t), weather, k').db;
      if e.Finished? {
        e := Mark("notes_generated", weather(k'));
        k' := k' + 1;
      }
    }

    /** `run_pipeline` is one run of the machine: whatever the weather, it leaves the rows
        that the machine leaves, and so every theorem about histories covers it. */
    method RunPipeline(env: Setting, weather: nat -> Weather) returns (e: Ending)
      modifies this
      ensures Now() == Drive(env, BeginRun(Start(old(Now()))), weather, 0).db
      ensures e.Finished? ==> conference.None? || Reached(conference.value.state, "notes_generated")
      ensures (conference.None? || Reached(conference.value.state, "notes_generated")) && Acknowledged(weather) ==> e.Finished?
    {
      ghost var final := Drive(env, BeginRun(Start(Now())), weather, 0).db;
      ghost var tally := BeginRun(Start(Now())).tally;
      if conference.None? {
        return Finished;
      }
      if Reached(conference.value.state, "notes_generated") {
        return Finished;
      }
      var k := 0;
      e := Finished;
      if !Reached(conference.value.state, "transcript_fetched") {
        e, k := FetchStage(env, weather, tally);
      }
      if e.Finished? {
        e, k := GenerateStage(env, weather, k, tally);
      }
      if e.Raised? {
        RecordDrive(env, Now(), e.message, tally.(raises := tally.raises + 1), weather, k);
        RecordFailure(e.message, weather(k));
      }
    }

    /** `pipeline_state = ...; last_error = None; commit()` */
    method Mark(state: string, w: Weather) returns (e: Ending)
      requires conference.Some?
      modifies this
      ensures transcript == old(transcript) && notes == old(notes)
      ensures e == EndOf(w)
      ensures conference == if Lands(w) then Some(old(conference).value.(state := state, lastError := None)) else old(conference)
    {
      match w {
        case Dies => return Died;
        case Raises(message) => return Raised(message);
        case _ =>
      }
      conference := Some(conference.value.(state := state, lastError := None));
      return EndOf(w);
    }

    /** The except path: the failure is recorded on a clean transaction. */
    method RecordFailure(message: string, w: Weather)
      modifies this
      ensures transcript == old(transcript) && notes == old(notes)
      ensures conference ==
                if Lands(w) && old(conference).Some? then Some(Failed(old(conference).value, message)) else old(conference)
    {
      if Lands(w) && conference.Some? {
        var c := conference.value;
        conference := Some(c.(state := "failed", attempts := c.attempts + 1, lastError := Some(Truncate(message))));
      }
    }
  }

  /** The labels a run amounts to, so that a sequence of runs is a history of the machine. */
  function Labels(env: Setting, s: State, weather: nat -> Weather, k: nat): seq<Label>
    decreases Rank(s.pc)
  {
    if s.pc.Idle? then []
    else
      var l := LabelFor(env, s, weather(k));
      [l] + Labels(env, Next(env, s, l), weather, k + 1)
  }

  lemma {:induction false} DriveIsExec(env: Setting, s: State, weather: nat -> Weather, k: nat)
    ensures Drive(env, s, weather, k) == Exec(env, s, Labels(env, s, weather, k))
    ensures Drive(env, s, weather, k).pc.Idle?
    decreases Rank(s.pc)
  {
    if !s.pc.Idle? {
      var l := LabelFor(env, s, weather(k));
      DriveIsExec(env, Next(env, s, l), weather, k + 1);
      ExecAppend(env, s, [l], Labels(env, Next(env, s, l), weather, k + 1));
      assert [l][..0] == [];
    }
  }

  /** Any number of runs under any weather is a history; if the last state is
      `notes_generated`, the target data is there. */
  lemma {:induction false} RunsAreSafe(env: Setting, db: Db, weathers: seq<nat -> Weather>)
    requires db.conference.Some? && !Reached(db.conference.value.state, "transcript_fetched")
    ensures exists ls :: Exec(env, Start(db), ls) == RunAll(env, Start(db), weathers)
    ensures var f := RunAll(env, Start(db), weathers);
            f.pc.Idle? && f.db.conference.Some?
            && (f.db.conference.value.state == "notes_generated" ==>
                  f.db.transcript.Some? && DataOf(f.db) == Target(env, db.conference.value.meeting))
  {
    if |weathers| == 0 {
      assert Exec(env, Start(db), []) == Start(db);
    } else {
      var n := |weathers| - 1;
      RunsAreSafe(env, db, weathers[..n]);
      var s := RunAll(env, Start(db), weathers[..n]);
      var ls :| Exec(env, Start(db), ls) == s;
      DriveIsExec(env, BeginRun(s), weathers[n], 0);
      var more := [Begin] + Labels(env, BeginRun(s), weathers[n], 0);
      assert [Begin][..0] == [];
      ExecAppend(env, s, [Begin], Labels(env, BeginRun(s), weathers[n], 0));
      ExecAppend(env, Start(db), ls, more);
      HistoryProgress(env, db, ls + more);
      ConferenceStays(env, BeginRun(s), weathers[n], 0);
    }
  }

  function RunAll(env: Setting, s: State, weathers: seq<nat -> Weather>): State {
    if |weathers| == 0 then s
    else Drive(env, BeginRun(RunAll(env, s, weathers[..|weathers| - 1])), weathers[|weathers| - 1], 0)
  }

  lemma {:induction false} ConferenceStays(env: Setting, s: State, weather: nat -> Weather, k: nat)
    requires s.db.conference.Some?
    ensures Drive(env, s, weather, k).db.conference.Some?
    decreases Rank(s.pc)
  {
    if !s.pc.Idle? {
      ConferenceStays(env, Next(env, s, LabelFor(env, s, weather(k))), weather, k + 1);
    }
  }
}
