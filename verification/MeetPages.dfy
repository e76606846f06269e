/** The pagination loops of `app/google/meet_client.py`. The server is a function
    from the page token to a reply; a finite listing is a chain of such replies. */
module MeetPages {
  import opened Wrappers

  datatype Reply<+T> = Page(items: seq<T>, next: Option<string>) | HttpError

  type Server<T> = Option<string> -> Reply<T>

  datatype RawEntry = RawEntry(participant: Option<string>, text: Option<string>, languageCode: Option<string>)

  datatype Entry = Entry(participant: Option<string>, text: string, languageCode: Option<string>)

  /** One of the three user fields of a participant; an empty JSON object is falsy. */
  datatype UserField = Missing | Empty | Filled(displayName: Option<string>)

  datatype RawParticipant = RawParticipant(name: Option<string>, signedin: UserField, anonymous: UserField, phone: UserField)

  datatype Participant = Participant(name: string, displayName: string)

  datatype ListError = HttpFailure

  function ToEntry(raw: RawEntry): Entry {
    Entry(raw.participant, raw.text.GetOr(""), raw.languageCode)
  }

  function DisplayName(p: RawParticipant): string {
    if p.signedin.Filled? then p.signedin.displayName.GetOr("")
    else if p.anonymous.Filled? then p.anonymous.displayName.GetOr("")
    else if p.phone.Filled? then p.phone.displayName.GetOr("")
    else ""
  }

  function ToParticipant(raw: RawParticipant): Participant {
    Participant(raw.name.GetOr(""), DisplayName(raw))
  }

  /** `if page_token:` -- a missing and an empty token both count as none. */
  predicate Truthy(token: Option<string>) {
    token.Some? && token.value != ""
  }

  predicate Last<T>(reply: Reply<T>) {
    reply.HttpError? || !Truthy(reply.next)
  }

  /** `chain` is what the server answers when asked page after page, up to the end or the first error. */
  ghost predicate Chain<T(!new)>(server: Server<T>, chain: seq<Reply<T>>) {
    && |chain| > 0
    && chain[0] == server(None)
    && (forall i :: 0 <= i < |chain| - 1 ==> !Last(chain[i]) && chain[i + 1] == server(chain[i].next))
    && Last(chain[|chain| - 1])
  }

  /** Every item of every page, in order. */
  function Listing<T>(chain: seq<Reply<T>>): seq<T> {
    if |chain| == 0 then []
    else Listing(chain[..|chain| - 1]) + (if chain[|chain| - 1].Page? then chain[|chain| - 1].items else [])
  }

  function Mapped<T, U>(f: T -> U, items: seq<T>): seq<U> {
    seq(|items|, i requires 0 <= i < |items| => f(items[i]))
  }

  /** Earlier items come first: an item of page i is at the total length of the pages before it. */
  lemma {:induction false} ListingAt<T>(chain: seq<Reply<T>>, i: nat, k: nat)
    requires i < |chain| && chain[i].Page? && k < |chain[i].items|
    ensures |Listing(chain[..i])| + k < |Listing(chain)|
    ensures Listing(chain)[|Listing(chain[..i])| + k] == chain[i].items[k]
    decreases |chain|
  {
    var n := |chain| - 1;
    if i < n {
      ListingAt(chain[..n], i, k);
      assert chain[..n][..i] == chain[..i];
    }
  }

  /** Number of items on all pages. */
  function Total<T>(chain: seq<Reply<T>>): nat {
    if |chain| == 0 then 0 else (if chain[0].Page? then |chain[0].items| else 0) + Total(chain[1..])
  }

  lemma {:induction false} TotalSnoc<T>(chain: seq<Reply<T>>, last: Reply<T>)
    ensures Total(chain + [last]) == Total(chain) + if last.Page? then |last.items| else 0
  {
    if |chain| == 0 {
      assert chain + [last] == [last] && [last][1..] == [];
    } else {
      assert (chain + [last])[1..] == chain[1..] + [last];
      TotalSnoc(chain[1..], last);
    }
  }

  /** The listing holds nothing but the items of the pages. */
  lemma {:induction false} ListingLength<T>(chain: seq<Reply<T>>)
    ensures |Listing(chain)| == Total(chain)
  {
    if |chain| > 0 {
      var n := |chain| - 1;
      ListingLength(chain[..n]);
      TotalSnoc(chain[..n], chain[n]);
      assert chain == chain[..n] + [chain[n]];
    }
  }

  /** Entry `k` of page `i` keeps its fields; a missing text is empty. */
  lemma EntryAt(chain: seq<Reply<RawEntry>>, i: nat, k: nat)
    requires i < |chain| && chain[i].Page? && k < |chain[i].items|
    ensures var entries, raw := Mapped(ToEntry, Listing(chain)), chain[i].items[k];
            var at := |Listing(chain[..i])| + k;
            && at < |entries| && entries[at].participant == raw.participant && entries[at].languageCode == raw.languageCode
            && entries[at].text == if raw.text.Some? then raw.text.value else ""
  {
    ListingAt(chain, i, k);
    var at := |Listing(chain[..i])| + k;
    assert Mapped(ToEntry, Listing(chain))[at] == ToEntry(Listing(chain)[at]);
  }

  /** Of the three user fields the first filled one gives the name. */
  ghost predicate NamedAs(raw: RawParticipant, name: string) {
    var fields := [raw.signedin, raw.anonymous, raw.phone];
    if exists i :: 0 <= i < 3 && fields[i].Filled? then
      exists i :: 0 <= i < 3 && fields[i].Filled? && (forall j :: 0 <= j < i ==> !fields[j].Filled?)
                  && name == if fields[i].displayName.Some? then fields[i].displayName.value else ""
    else name == ""
  }

  lemma FirstFilledNames(raw: RawParticipant)
    ensures NamedAs(raw, DisplayName(raw))
  {
    var fields := [raw.signedin, raw.anonymous, raw.phone];
    assert fields[0] == raw.signedin && fields[1] == raw.anonymous && fields[2] == raw.phone;
  }

  /** Participant `k` of page `i` keeps its resource name and is named by its first filled field. */
  lemma ParticipantAt(chain: seq<Reply<RawParticipant>>, i: nat, k: nat)
    requires i < |chain| && chain[i].Page? && k < |chain[i].items|
    ensures var participants, raw := Mapped(ToParticipant, Listing(chain)), chain[i].items[k];
            var at := |Listing(chain[..i])| + k;
            && at < |participants| && NamedAs(raw, participants[at].displayName)
            && participants[at].name == if raw.name.Some? then raw.name.value else ""
  {
    ListingAt(chain, i, k);
    var at := |Listing(chain[..i])| + k;
    assert Mapped(ToParticipant, Listing(chain))[at] == ToParticipant(Listing(chain)[at]);
    FirstFilledNames(chain[i].items[k]);
  }

  method ListTranscriptEntries(server: Server<RawEntry>, ghost chain: seq<Reply<RawEntry>>)
    returns (r: Result<seq<Entry>, ListError>)
    requires Chain(server, chain)
    ensures r == if chain[|chain| - 1].HttpError? then Err(HttpFailure) else Ok(Mapped(ToEntry, Listing(chain)))
  {
    var entries: seq<Entry> := [];
    var pageToken: Option<string> := None;
    ghost var i := 0;
    while true
      invariant 0 <= i < |chain|
      invariant entries == Mapped(ToEntry, Listing(chain[..i]))
      invariant chain[i] == if Truthy(pageToken) then server(pageToken) else server(None)
      decreases |chain| - i
    {
      var reply := if Truthy(pageToken) then server(pageToken) else server(None);
      if reply.HttpError? {
        return Err(HttpFailure);
      }
      ghost var before := entries;
      for k := 0 to |reply.items|
        invariant entries == before + Mapped(ToEntry, reply.items[..k])
      {
        entries := entries + [ToEntry(reply.items[k])];
      }
      assert chain[..i + 1][..i] == chain[..i] && reply.items[..|reply.items|] == reply.items;
      assert entries == Mapped(ToEntry, Listing(chain[..i + 1]));
      pageToken := reply.next;
      if !Truthy(pageToken) {
        assert chain[..|chain|] == chain;
        return Ok(entries);
      }
      i := i + 1;
    }
  }

  method ListParticipants(server: Server<RawParticipant>, ghost chain: seq<Reply<RawParticipant>>)
    returns (r: Result<seq<Participant>, ListError>)
    requires Chain(server, chain)
    ensures r == if chain[|chain| - 1].HttpError? then Err(HttpFailure) else Ok(Mapped(ToParticipant, Listing(chain)))
  {
    var participants: seq<Participant> := [];
    var pageToken: Option<string> := None;
    ghost var i := 0;
    while true
      invariant 0 <= i < |chain|
      invariant participants == Mapped(ToParticipant, Listing(chain[..i]))
      invariant chain[i] == if Truthy(pageToken) then server(pageToken) else server(None)
      decreases |chain| - i
    {
      var reply := if Truthy(pageToken) then server(pageToken) else server(None);
      if reply.HttpError? {
        return Err(HttpFailure);
      }
      ghost var before := participants;
      for k := 0 to |reply.items|
        invariant participants == before + Mapped(ToParticipant, reply.items[..k])
      {
        participants := participants + [ToParticipant(reply.items[k])];
      }
      assert chain[..i + 1][..i] == chain[..i] && reply.items[..|reply.items|] == reply.items;
      assert participants == Mapped(ToParticipant, Listing(chain[..i + 1]));
      pageToken := reply.next;
      if !Truthy(pageToken) {
        assert chain[..|chain|] == chain;
        return Ok(participants);
      }
      i := i + 1;
    }
  }
}
