/** Map-reduce summarisation (`_summarize_text` of `app/services/notes_service.py`). */
module Summaries {
  import opened Text
  import Chunker

  datatype ActionItem = ActionItem(who: string, what: string)

  datatype NotesContent = NotesContent(summary: string, decisions: seq<string>, actionItems: seq<ActionItem>)

  /** The summariser is the Gemini service: deterministic here, its failures belong to the pipeline. */
  datatype Summarizer = Summarizer(countTokens: string -> int, summarize: string -> NotesContent)

  /** A result together with every text that was sent to `summarize`, in order. */
  datatype Summarized = Summarized(content: NotesContent, calls: seq<string>)

  function Decimal(n: nat): string {
    if n < 10 then ["0123456789"[n]] else Decimal(n / 10) + Decimal(n % 10)
  }

  function RenderItem(item: ActionItem): string {
    if item.who != "" then item.who + ": " + item.what else item.what
  }

  function RenderItems(items: seq<ActionItem>): (rendered: seq<string>)
    ensures |rendered| == |items|
    ensures forall j :: 0 <= j < |items| ==>
              rendered[j] == if items[j].who == "" then items[j].what else items[j].who + ": " + items[j].what
  {
    seq(|items|, i requires 0 <= i < |items| => RenderItem(items[i]))
  }

  function Section(i: nat, p: NotesContent): string {
    "Section " + Decimal(i + 1) + " summary: " + p.summary + "\n"
    + "Decisions: " + Join(p.decisions, "; ") + "\n"
    + "Action items: " + Join(RenderItems(p.actionItems), "; ")
  }

  function Sections(partials: seq<NotesContent>): seq<string> {
    seq(|partials|, i requires 0 <= i < |partials| => Section(i, partials[i]))
  }

  function Combine(partials: seq<NotesContent>): string {
    Join(Sections(partials), "\n\n")
  }

  function SummarizeEach(summarizer: Summarizer, texts: seq<string>): seq<NotesContent> {
    seq(|texts|, i requires 0 <= i < |texts| => summarizer.summarize(texts[i]))
  }

  /** The character budget of one chunk, four characters to a token. */
  function Budget(chunkThreshold: int): (r: nat)
    ensures r >= 1000 && r >= 4 * chunkThreshold && (r == 1000 || r == 4 * chunkThreshold)
  {
    if chunkThreshold * 4 > 1000 then chunkThreshold * 4 else 1000
  }

  function SummarizeText(summarizer: Summarizer, text: string, chunkThreshold: int): Summarized {
    if summarizer.countTokens(text) <= chunkThreshold then
      Summarized(summarizer.summarize(text), [text])
    else
      var chunks := Chunker.Chunks(text, Budget(chunkThreshold));
      var combined := Combine(SummarizeEach(summarizer, chunks));
      Summarized(summarizer.summarize(combined), chunks + [combined])
  }

  // ---------------------------------------------------------------- what the reduce call is sent

  predicate IsNumeral(numeral: string) {
    numeral != "" && forall i :: 0 <= i < |numeral| ==> '0' <= numeral[i] <= '9'
  }

  /** The number a numeral stands for. */
  function Value(numeral: string): nat
    requires forall i :: 0 <= i < |numeral| ==> '0' <= numeral[i] <= '9'
  {
    if numeral == "" then 0
    else 10 * Value(numeral[..|numeral| - 1]) + (numeral[|numeral| - 1] - '0') as nat
  }

  lemma {:induction false} DecimalValue(n: nat)
    ensures IsNumeral(Decimal(n)) && Value(Decimal(n)) == n
    ensures n > 0 ==> Decimal(n)[0] != '0'
  {
    if n >= 10 {
      DecimalValue(n / 10);
      DecimalValue(n % 10);
      assert |Decimal(n % 10)| == 1;
      assert Decimal(n)[..|Decimal(n)| - 1] == Decimal(n / 10);
    } else {
      assert Decimal(n)[..0] == "";
    }
  }

  /** The section of partial number `number`, written out: its number, its summary, all its
      decisions and all its action items. */
  ghost predicate IsSection(section: string, number: nat, p: NotesContent) {
    exists numeral: string, decisions: string, items: string ::
      && IsNumeral(numeral) && numeral[0] != '0' && Value(numeral) == number
      && Spells(decisions, p.decisions, "; ") && Spells(items, RenderItems(p.actionItems), "; ")
      && section == "Section " + numeral + " summary: " + p.summary + "\n"
                    + "Decisions: " + decisions + "\n"
                    + "Action items: " + items
  }

  /** The reduce prompt is the sections of the partial results of these texts, in order, with
      an empty line between any two, and nothing else. */
  ghost predicate ReducePrompt(summarizer: Summarizer, texts: seq<string>, prompt: string) {
    exists sections: seq<string> ::
      && |sections| == |texts|
      && (forall i :: 0 <= i < |texts| ==> IsSection(sections[i], i + 1, summarizer.summarize(texts[i])))
      && Spells(prompt, sections, "\n\n")
  }

  lemma SectionIs(i: nat, p: NotesContent)
    ensures IsSection(Section(i, p), i + 1, p)
  {
    DecimalValue(i + 1);
    JoinSpells(p.decisions, "; ");
    JoinSpells(RenderItems(p.actionItems), "; ");
  }

  lemma CombineIs(summarizer: Summarizer, texts: seq<string>)
    ensures ReducePrompt(summarizer, texts, Combine(SummarizeEach(summarizer, texts)))
  {
    var sections := Sections(SummarizeEach(summarizer, texts));
    JoinSpells(sections, "\n\n");
    forall i | 0 <= i < |texts| ensures IsSection(sections[i], i + 1, summarizer.summarize(texts[i])) {
      SectionIs(i, summarizer.summarize(texts[i]));
    }
  }

  /** The content is the answer to the last call. Within the threshold that is the only call,
      on the text itself; beyond it the last call is sent the sections of all the others. */
  ghost predicate LastCallDecides(summarizer: Summarizer, text: string, chunkThreshold: int, s: Summarized) {
    var n := |s.calls| - 1;
    && n >= 0 && s.content == summarizer.summarize(s.calls[n])
    && (n == 0 <==> summarizer.countTokens(text) <= chunkThreshold)
    && (n == 0 ==> s.calls == [text])
    && (n > 0 ==> ReducePrompt(summarizer, s.calls[..n], s.calls[n]))
  }

  lemma CallsAndContent(summarizer: Summarizer, text: string, chunkThreshold: int)
    ensures LastCallDecides(summarizer, text, chunkThreshold, SummarizeText(summarizer, text, chunkThreshold))
  {
    if summarizer.countTokens(text) > chunkThreshold {
      var chunks := Chunker.Chunks(text, Budget(chunkThreshold));
      Chunker.ChunkBound(text, Budget(chunkThreshold));
      CombineIs(summarizer, chunks);
      LongPath(summarizer, text, chunkThreshold, chunks, Combine(SummarizeEach(summarizer, chunks)));
    }
  }

  lemma LongPath(summarizer: Summarizer, text: string, chunkThreshold: int, chunks: seq<string>, combined: string)
    requires summarizer.countTokens(text) > chunkThreshold && |chunks| > 0 && ReducePrompt(summarizer, chunks, combined)
    ensures LastCallDecides(summarizer, text, chunkThreshold, Summarized(summarizer.summarize(combined), chunks + [combined]))
  {
    assert (chunks + [combined])[..|chunks|] == chunks;
  }

  /** `_summarize_text` with its calls in order: the method runs the chunker and maps it. */
  method Summarize(summarizer: Summarizer, text: string, chunkThreshold: int) returns (content: NotesContent, calls: seq<string>)
    ensures Summarized(content, calls) == SummarizeText(summarizer, text, chunkThreshold)
  {
    if summarizer.countTokens(text) <= chunkThreshold {
      return summarizer.summarize(text), [text];
    }
    var chunks := Chunker.Chunk(text, Budget(chunkThreshold));
    var partials: seq<NotesContent> := [];
    for i := 0 to |chunks|
      invariant partials == SummarizeEach(summarizer, chunks)[..i]
    {
      TakeSnoc([], SummarizeEach(summarizer, chunks), i);
      partials := partials + [summarizer.summarize(chunks[i])];
    }
    assert SummarizeEach(summarizer, chunks)[..|chunks|] == SummarizeEach(summarizer, chunks);
    var combined := Combine(partials);
    return summarizer.summarize(combined), chunks + [combined];
  }

  /** An over-threshold text costs n map calls and one reduce call; every map call
      stays within the budget, n is bounded by the text, and the map calls carry the
      whole text in order up to newlines. */
  lemma MapReduceCalls(summarizer: Summarizer, text: string, chunkThreshold: int)
    requires summarizer.countTokens(text) > chunkThreshold
    ensures var calls := SummarizeText(summarizer, text, chunkThreshold).calls;
            var b := Budget(chunkThreshold);
            var n := |calls| - 1;
            && n >= 1
            && (forall c <- calls[..n] :: |c| <= b)
            && n / 2 * b + (n - 1) <= |text| + Chunker.ExtraSplits(text, b)
            && Without(Join(calls[..n], "\n"), '\n') == Without(text, '\n')
            && calls[n] == Combine(SummarizeEach(summarizer, calls[..n]))
            && ReducePrompt(summarizer, calls[..n], calls[n])
            && SummarizeText(summarizer, text, chunkThreshold).content == summarizer.summarize(calls[n])
  {
    CallsAndContent(summarizer, text, chunkThreshold);
    var b := Budget(chunkThreshold);
    var chunks := Chunker.Chunks(text, b);
    var calls := SummarizeText(summarizer, text, chunkThreshold).calls;
    assert calls[..|calls| - 1] == chunks;
    Chunker.ChunkBound(text, b);
    Chunker.ChunkCountBound(text, b);
    Chunker.ChunksLossless(text, b);
  }
}
