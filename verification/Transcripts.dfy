/** Transcript assembly (`_assemble` of `app/services/transcript_service.py`). */
module Transcripts {
  import opened Wrappers
  import opened Text
  import opened MeetPages
  import opened Summaries

  /** `{p.name: p.display_name for p in participants}`: a later participant replaces an earlier one. */
  function SpeakerMap(participants: seq<Participant>): map<string, string> {
    if |participants| == 0 then map[]
    else
      var n := |participants| - 1;
      SpeakerMap(participants[..n])[participants[n].name := participants[n].displayName]
  }

  function Speaker(speakers: map<string, string>, participant: Option<string>): string {
    if !Truthy(participant) then "Unknown"
    else if participant.value in speakers then speakers[participant.value]
    else "Unknown"
  }

  function Line(e: Entry, speakers: map<string, string>): string {
    Speaker(speakers, e.participant) + ": " + e.text
  }

  /** One rendered item per entry. */
  function Lines(entries: seq<Entry>, speakers: map<string, string>): (lines: seq<string>)
    ensures |lines| == |entries|
  {
    seq(|entries|, i requires 0 <= i < |entries| => Line(entries[i], speakers))
  }

  function FullText(entries: seq<Entry>, speakers: map<string, string>): string {
    Join(Lines(entries, speakers), "\n")
  }

  /** Language code of the first entry that has one. */
  function Language(entries: seq<Entry>): (r: Option<string>)
    ensures r.None? <==> forall e <- entries :: !Truthy(e.languageCode)
    ensures r.Some? ==> exists i :: 0 <= i < |entries| && entries[i].languageCode == r && Truthy(r)
                                    && forall j :: 0 <= j < i ==> !Truthy(entries[j].languageCode)
  {
    if |entries| == 0 then None
    else if Truthy(entries[0].languageCode) then entries[0].languageCode
    else Language(entries[1..])
  }

  /** `_assemble` */
  method Assemble(entries: seq<Entry>, speakers: map<string, string>) returns (text: string, language: Option<string>)
    ensures text == FullText(entries, speakers)
    ensures language == Language(entries)
  {
    var lines: seq<string> := [];
    language := None;
    for i := 0 to |entries|
      invariant lines == Lines(entries, speakers)[..i]
      invariant Language(entries) == if language.None? then Language(entries[i..]) else language
    {
      var e := entries[i];
      assert entries[i..][0] == e && entries[i..][1..] == entries[i + 1..];
      if language.None? && Truthy(e.languageCode) {
        language := e.languageCode;
      }
      TakeSnoc([], Lines(entries, speakers), i);
      lines := lines + [Line(e, speakers)];
    }
    assert Lines(entries, speakers)[..|entries|] == Lines(entries, speakers);
    text := Join(lines, "\n");
  }

  /** Participant `i` is the last listed one of that name. */
  ghost predicate LastListed(participants: seq<Participant>, name: string, i: int) {
    && 0 <= i < |participants|
    && participants[i].name == name
    && forall j :: i < j < |participants| ==> participants[j].name != name
  }

  /** An entry is attributed to the last listed participant of that name. */
  lemma {:induction false} LastListedSpeaker(participants: seq<Participant>, name: string, i: nat)
    requires name != "" && LastListed(participants, name, i)
    ensures Speaker(SpeakerMap(participants), Some(name)) == participants[i].displayName
  {
    var n := |participants| - 1;
    if i < n {
      LastListedSpeaker(participants[..n], name, i);
    }
  }

  /** An entry whose participant is not listed is attributed to "Unknown". */
  lemma {:induction false} UnlistedSpeaker(participants: seq<Participant>, name: string)
    requires forall j :: 0 <= j < |participants| ==> participants[j].name != name
    ensures Speaker(SpeakerMap(participants), Some(name)) == "Unknown"
    ensures name !in SpeakerMap(participants)
  {
    if |participants| > 0 {
      UnlistedSpeaker(participants[..|participants| - 1], name);
    }
  }

  /** Who speaks: the last listed participant of that name, or "Unknown". */
  ghost predicate SpokenBy(participants: seq<Participant>, participant: Option<string>, name: string) {
    if participant.Some? && participant.value != "" && exists i :: LastListed(participants, participant.value, i)
    then exists i :: LastListed(participants, participant.value, i) && name == participants[i].displayName
    else name == "Unknown"
  }

  lemma {:induction false} SomebodyLast(participants: seq<Participant>, name: string) returns (i: int)
    ensures i >= 0 ==> LastListed(participants, name, i)
    ensures i < 0 ==> forall j :: 0 <= j < |participants| ==> participants[j].name != name
  {
    var n := |participants| - 1;
    i := n;
    if n >= 0 && participants[n].name != name { i := SomebodyLast(participants[..n], name); }
  }

  lemma SpeakerIs(participants: seq<Participant>, participant: Option<string>)
    ensures SpokenBy(participants, participant, Speaker(SpeakerMap(participants), participant))
  {
    if participant.Some? && participant.value != "" {
      var i := SomebodyLast(participants, participant.value);
      if i >= 0 { LastListedSpeaker(participants, participant.value, i); }
      else { UnlistedSpeaker(participants, participant.value); }
    }
  }

  /** The line of an entry, written out: who speaks, a colon and a space, and the whole text. */
  ghost predicate LineOf(participants: seq<Participant>, participant: Option<string>, text: string, line: string) {
    exists name :: SpokenBy(participants, participant, name) && line == name + ": " + text
  }

  /** Entry `k` has line `k`, and the transcript spells the lines. */
  lemma LinesAre(entries: seq<Entry>, participants: seq<Participant>)
    ensures var lines := Lines(entries, SpeakerMap(participants));
            && Spells(FullText(entries, SpeakerMap(participants)), lines, "\n")
            && forall k :: 0 <= k < |entries| ==> LineOf(participants, entries[k].participant, entries[k].text, lines[k])
  {
    var speakers := SpeakerMap(participants);
    JoinSpells(Lines(entries, speakers), "\n");
    forall k | 0 <= k < |entries|
      ensures LineOf(participants, entries[k].participant, entries[k].text, Lines(entries, speakers)[k])
    {
      SpeakerIs(participants, entries[k].participant);
      assert Lines(entries, speakers)[k] == Speaker(speakers, entries[k].participant) + ": " + entries[k].text;
    }
  }

  /** `lines` holds the written-out line of every entry of every page, in order, and no other. */
  ghost predicate LinesOf(pages: seq<Reply<RawEntry>>, participants: seq<Participant>, lines: seq<string>) {
    && |lines| == Total(pages) == |Listing(pages)|
    && forall k :: 0 <= k < |lines| ==>
         var raw := Listing(pages)[k];
         LineOf(participants, raw.participant, if raw.text.Some? then raw.text.value else "", lines[k])
  }

  lemma PagesHaveLines(pages: seq<Reply<RawEntry>>, participants: seq<Participant>)
    ensures LinesOf(pages, participants, Lines(Mapped(ToEntry, Listing(pages)), SpeakerMap(participants)))
  {
    var entries := Mapped(ToEntry, Listing(pages));
    ListingLength(pages);
    LinesAre(entries, participants);
    var lines := Lines(entries, SpeakerMap(participants));
    forall k | 0 <= k < |lines|
      ensures var raw := Listing(pages)[k];
              LineOf(participants, raw.participant, if raw.text.Some? then raw.text.value else "", lines[k])
    {
      assert LineOf(participants, entries[k].participant, entries[k].text, lines[k]);
    }
  }

  /** The written-out lines reach the summariser: the texts of the map calls, joined and
      stripped of newlines, are the lines of all entries of all pages, in order and stripped of
      newlines. */
  lemma ContentPreserved(summarizer: Summarizer, pages: seq<Reply<RawEntry>>, participants: seq<Participant>, chunkThreshold: int)
    ensures var text := FullText(Mapped(ToEntry, Listing(pages)), SpeakerMap(participants));
            var calls := SummarizeText(summarizer, text, chunkThreshold).calls;
            var n := if |calls| == 1 then 1 else |calls| - 1;
            && |calls| > 0
            && exists lines: seq<string> ::
                 LinesOf(pages, participants, lines) && Without(Join(calls[..n], "\n"), '\n') == Without(Concat(lines), '\n')
  {
    PagesHaveLines(pages, participants);
    RenderedPreserved(summarizer, pages, SpeakerMap(participants), chunkThreshold);
  }

  /** The texts of the map calls, joined and stripped of newlines, are the rendered items of
      every entry of every page, in order and stripped of newlines. */
  lemma RenderedPreserved(summarizer: Summarizer, pages: seq<Reply<RawEntry>>, speakers: map<string, string>, chunkThreshold: int)
    ensures var entries := Mapped(ToEntry, Listing(pages));
            var text := FullText(entries, speakers);
            var calls := SummarizeText(summarizer, text, chunkThreshold).calls;
            var n := if |calls| == 1 then 1 else |calls| - 1;
            && |Lines(entries, speakers)| == |Listing(pages)|
            && |calls| > 0
            && Without(Join(calls[..n], "\n"), '\n') == Without(Concat(Lines(entries, speakers)), '\n')
  {
    var entries := Mapped(ToEntry, Listing(pages));
    var text := FullText(entries, speakers);
    WithoutJoin(Lines(entries, speakers), '\n');
    if summarizer.countTokens(text) > chunkThreshold {
      MapReduceCalls(summarizer, text, chunkThreshold);
    } else {
      assert [text][..1] == [text];
    }
  }
}
