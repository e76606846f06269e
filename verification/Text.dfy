/** Strings as the services use them: `sep.join(parts)`, `text.split(sep)`,
    `str.find`, `str.strip`, and the erasure of one character. */
module Text {
  import opened Wrappers

  function Join(parts: seq<string>, sep: string): string {
    if |parts| == 0 then ""
    else if |parts| == 1 then parts[0]
    else parts[0] + sep + Join(parts[1..], sep)
  }

  /** Splits at every occurrence of `sep`; the text "" gives one empty part. */
  function Split(text: string, sep: char): (parts: seq<string>)
    ensures |parts| > 0
  {
    if |text| == 0 then [""]
    else
      var rest := Split(text[1..], sep);
      if text[0] == sep then [""] + rest
      else [[text[0]] + rest[0]] + rest[1..]
  }

  function Concat(parts: seq<string>): string {
    if |parts| == 0 then "" else parts[0] + Concat(parts[1..])
  }

  function Flatten<T>(groups: seq<seq<T>>): seq<T> {
    if |groups| == 0 then [] else groups[0] + Flatten(groups[1..])
  }

  /** The text with every occurrence of `c` erased. */
  function Without(text: string, c: char): string {
    if |text| == 0 then ""
    else (if text[0] == c then "" else [text[0]]) + Without(text[1..], c)
  }

  /** `needle` occurs in `hay` at index `i`. */
  predicate OccursAt(hay: string, needle: string, i: nat) {
    i + |needle| <= |hay| && hay[i..i + |needle|] == needle
  }

  /** Index of the first occurrence of `needle`, if any. */
  function Find(hay: string, needle: string): (r: Option<nat>)
    ensures r.Some? ==> OccursAt(hay, needle, r.value)
    ensures forall i: nat :: OccursAt(hay, needle, i) ==> r.Some? && r.value <= i
  {
    FindFrom(hay, needle, 0)
  }

  function FindFrom(hay: string, needle: string, from: nat): (r: Option<nat>)
    ensures r.Some? ==> from <= r.value && OccursAt(hay, needle, r.value)
    ensures forall i: nat :: from <= i && OccursAt(hay, needle, i) ==> r.Some? && r.value <= i
    decreases |hay| - from
  {
    if from + |needle| > |hay| then None
    else if OccursAt(hay, needle, from) then Some(from)
    else FindFrom(hay, needle, from + 1)
  }

  /** The characters `str.strip()` removes. */
  predicate IsSpace(c: char) {
    || '\t' <= c <= '\r'
    || '\U{1C}' <= c <= ' '
    || c in {'\U{85}', '\U{A0}', '\U{1680}', '\U{2028}', '\U{2029}', '\U{202F}', '\U{205F}', '\U{3000}'}
    || '\U{2000}' <= c <= '\U{200A}'
  }

  /** `not text.strip()` */
  predicate IsBlank(text: string) {
    forall i :: 0 <= i < |text| ==> IsSpace(text[i])
  }

  /** Index of the first white-space character at or after `from`. */
  function WordEnd(text: string, from: nat): (end: nat)
    requires from <= |text|
    ensures from <= end <= |text| && (end < |text| ==> IsSpace(text[end]))
    ensures forall i :: from <= i < end ==> !IsSpace(text[i])
    decreases |text| - from
  {
    if from == |text| || IsSpace(text[from]) then from else WordEnd(text, from + 1)
  }

  /** `text.split()`: the maximal runs of characters that are not white space. */
  function Words(text: string): (words: seq<string>)
    ensures forall w :: w in words ==> w != "" && forall i :: 0 <= i < |w| ==> !IsSpace(w[i])
  {
    if text == "" then []
    else if IsSpace(text[0]) then Words(text[1..])
    else
      var end := WordEnd(text, 0);
      [text[..end]] + Words(text[end..])
  }

  // ---------------------------------------------------------------- join / split

  lemma {:induction false} JoinAppend(a: seq<string>, b: seq<string>, sep: string)
    requires |a| > 0 && |b| > 0
    ensures Join(a + b, sep) == Join(a, sep) + sep + Join(b, sep)
  {
    var rest := (a + b)[1..];
    assert |a + b| > 1 && (a + b)[0] == a[0];
    assert Join(a + b, sep) == a[0] + sep + Join(rest, sep);
    if |a| == 1 {
      assert rest == b;
    } else {
      assert rest == a[1..] + b;
      JoinAppend(a[1..], b, sep);
      assert Join(a, sep) == a[0] + sep + Join(a[1..], sep);
    }
  }

  /** Splitting loses nothing: joining the parts gives the text back. */
  lemma {:induction false} JoinSplit(text: string, sep: char)
    ensures Join(Split(text, sep), [sep]) == text
  {
    if |text| > 0 {
      JoinSplit(text[1..], sep);
      var rest := Split(text[1..], sep);
      if text[0] == sep {
        JoinAppend([""], rest, [sep]);
      } else if |rest| > 1 {
        var parts := [[text[0]] + rest[0]] + rest[1..];
        assert parts[1..] == rest[1..];
        assert Join(parts, [sep]) == [text[0]] + Join(rest, [sep]);
      } else {
        assert Split(text, sep) == [[text[0]] + rest[0]];
      }
    }
  }

  /** No part contains the separator. */
  lemma {:induction false} SplitParts(text: string, sep: char)
    ensures forall k :: 0 <= k < |Split(text, sep)| ==> sep !in Split(text, sep)[k]
  {
    if |text| > 0 {
      SplitParts(text[1..], sep);
    }
  }

  /** Splitting undoes joining when no part contains the separator. */
  lemma {:induction false} SplitJoin(parts: seq<string>, sep: char)
    requires |parts| > 0
    requires forall k :: 0 <= k < |parts| ==> sep !in parts[k]
    ensures Split(Join(parts, [sep]), sep) == parts
    decreases |parts|, |parts[0]|
  {
    var text := Join(parts, [sep]);
    if |parts[0]| > 0 {
      var tail := [parts[0][1..]] + parts[1..];
      assert tail[1..] == parts[1..];
      assert text[0] == parts[0][0] && text[1..] == Join(tail, [sep]);
      SplitJoin(tail, sep);
      assert [text[0]] + tail[0] == parts[0];
      assert [[text[0]] + tail[0]] + tail[1..] == parts;
    } else if |parts| > 1 {
      assert text == [sep] + Join(parts[1..], [sep]);
      assert text[1..] == Join(parts[1..], [sep]);
      SplitJoin(parts[1..], sep);
      assert [""] + parts[1..] == parts;
    }
  }

  /** Where part `i` begins when the parts are joined. */
  function PartStart(parts: seq<string>, sep: string, i: nat): nat
    requires i <= |parts|
  {
    if i == 0 then 0 else PartStart(parts, sep, i - 1) + |parts[i - 1]| + |sep|
  }

  /** Part `i` stands at its place, behind a separator unless it is the first. */
  ghost predicate PartAt(text: string, parts: seq<string>, sep: string, i: nat)
    requires i < |parts|
  {
    && OccursAt(text, parts[i], PartStart(parts, sep, i))
    && (i > 0 ==> OccursAt(text, sep, PartStart(parts, sep, i) - |sep|))
  }

  /** The text is made of the parts in order, the separator between any two, and nothing else. */
  ghost predicate Spells(text: string, parts: seq<string>, sep: string) {
    && |text| == (if parts == [] then 0 else PartStart(parts, sep, |parts|) - |sep|)
    && forall i :: 0 <= i < |parts| ==> PartAt(text, parts, sep, i)
  }

  lemma {:induction false} PartStartOfPrefix(parts: seq<string>, more: seq<string>, sep: string, i: nat)
    requires i <= |parts|
    ensures PartStart(parts + more, sep, i) == PartStart(parts, sep, i)
  {
    if i > 0 { PartStartOfPrefix(parts, more, sep, i - 1); }
  }

  lemma OccursBefore(before: string, needle: string, after: string, i: nat)
    requires OccursAt(before, needle, i)
    ensures OccursAt(before + after, needle, i)
  {
    assert (before + after)[i..i + |needle|] == before[i..i + |needle|];
  }

  lemma PartStays(text: string, parts: seq<string>, sep: string, last: string, i: nat)
    requires i < |parts| && PartAt(text, parts, sep, i)
    ensures PartAt(text + (sep + last), parts + [last], sep, i)
  {
    PartStartOfPrefix(parts, [last], sep, i);
    OccursBefore(text, parts[i], sep + last, PartStart(parts, sep, i));
    if i > 0 { OccursBefore(text, sep, sep + last, PartStart(parts, sep, i) - |sep|); }
  }

  lemma OccursLast(text: string, sep: string, last: string)
    ensures OccursAt(text + (sep + last), sep, |text|) && OccursAt(text + (sep + last), last, |text| + |sep|)
  {
    var whole := text + (sep + last);
    assert whole[|text|..|text| + |sep|] == sep;
    assert whole[|text| + |sep|..|text| + |sep| + |last|] == last;
  }

  lemma PartStartOfLast(parts: seq<string>, sep: string, last: string)
    ensures PartStart(parts + [last], sep, |parts|) == PartStart(parts, sep, |parts|)
    ensures PartStart(parts + [last], sep, |parts| + 1) == PartStart(parts, sep, |parts|) + |last| + |sep|
  {
    PartStartOfPrefix(parts, [last], sep, |parts|);
  }

  lemma LastPart(text: string, parts: seq<string>, sep: string, last: string)
    requires parts != [] && |text| == PartStart(parts, sep, |parts|) - |sep|
    ensures PartAt(text + (sep + last), parts + [last], sep, |parts|)
    ensures |text + (sep + last)| == PartStart(parts + [last], sep, |parts| + 1) - |sep|
  {
    PartStartOfLast(parts, sep, last);
    OccursLast(text, sep, last);
  }

  lemma OneMorePart(text: string, parts: seq<string>, sep: string, last: string)
    requires parts != [] && Spells(text, parts, sep)
    ensures Spells(text + (sep + last), parts + [last], sep)
  {
    LastPart(text, parts, sep, last);
    forall i | 0 <= i < |parts| ensures PartAt(text + (sep + last), parts + [last], sep, i) {
      PartStays(text, parts, sep, last, i);
    }
  }

  /** A join spells its parts. */
  lemma {:induction false} JoinSpells(parts: seq<string>, sep: string)
    ensures Spells(Join(parts, sep), parts, sep)
  {
    if |parts| == 1 {
      assert PartStart(parts, sep, 1) == PartStart(parts, sep, 0) + |parts[0]| + |sep|;
    } else if |parts| > 1 {
      var n := |parts| - 1;
      JoinSpells(parts[..n], sep);
      OneMorePart(Join(parts[..n], sep), parts[..n], sep, parts[n]);
      assert parts == parts[..n] + [parts[n]];
      JoinAppend(parts[..n], [parts[n]], sep);
      assert Join([parts[n]], sep) == parts[n];
      assert Join(parts[..n], sep) + (sep + parts[n]) == Join(parts, sep);
    }
  }

  // ---------------------------------------------------------------- words

  /** A word without white space. */
  predicate IsWord(w: string) {
    w != "" && forall i :: 0 <= i < |w| ==> !IsSpace(w[i])
  }

  lemma WordThenSpace(w: string, rest: string)
    requires IsWord(w)
    ensures Words(w + " " + rest) == [w] + Words(rest)
    ensures Words(w) == [w]
  {
    var text := w + " " + rest;
    assert w[..|w|] == w && w[|w|..] == "" && Words("") == [];
    assert text[0] == w[0] && text[|w|] == ' ';
    assert forall i :: 0 <= i < |w| ==> text[i] == w[i];
    assert WordEnd(text, 0) == |w| && WordEnd(w, 0) == |w|;
    assert text[|w|..] == " " + rest && (" " + rest)[1..] == rest;
    assert text[..|w|] == w;
  }

  /** Splitting at white space undoes joining by single spaces. */
  lemma {:induction false} WordsOfJoin(words: seq<string>)
    requires forall k :: 0 <= k < |words| ==> IsWord(words[k])
    ensures Words(Join(words, " ")) == words
  {
    if |words| > 0 {
      WordsOfJoin(words[1..]);
      WordThenSpace(words[0], Join(words[1..], " "));
    }
  }

  /** A text is blank exactly when it has no words. */
  lemma {:induction false} BlankIff(text: string)
    ensures IsBlank(text) <==> Words(text) == []
  {
    if text != "" && IsSpace(text[0]) {
      BlankIff(text[1..]);
      assert IsBlank(text) <==> IsBlank(text[1..]);
    }
  }

  // ---------------------------------------------------------------- erasure

  /** Erasure takes away the character and nothing else. */
  lemma {:induction false} ErasesOnly(text: string, c: char)
    ensures multiset(Without(text, c)) == multiset(text)[c := 0]
    ensures c !in text ==> Without(text, c) == text
  {
    if |text| > 0 {
      var rest := text[1..];
      ErasesOnly(rest, c);
      assert text == [text[0]] + rest;
      assert multiset(text) == multiset{text[0]} + multiset(rest);
      if text[0] == c {
        assert Without(text, c) == Without(rest, c);
      } else {
        assert Without(text, c) == [text[0]] + Without(rest, c);
      }
    }
  }

  lemma WithoutAppend(a: string, b: string, c: char)
    ensures Without(a + b, c) == Without(a, c) + Without(b, c)
  {
    if |a| == 0 {
      assert a + b == b;
    } else {
      assert (a + b)[1..] == a[1..] + b;
      WithoutAppend(a[1..], b, c);
    }
  }

  /** Erasing the separator from a join leaves the concatenation of the erased parts. */
  lemma WithoutJoin(parts: seq<string>, c: char)
    ensures Without(Join(parts, [c]), c) == Without(Concat(parts), c)
  {
    if |parts| > 1 {
      WithoutJoin(parts[1..], c);
      WithoutAppend(parts[0] + [c], Join(parts[1..], [c]), c);
      WithoutAppend(parts[0], [c], c);
      WithoutAppend(parts[0], Concat(parts[1..]), c);
    } else if |parts| == 1 {
      assert Concat(parts) == parts[0] + "";
      assert parts[0] + "" == parts[0];
    }
  }

  lemma ConcatAppend(a: seq<string>, b: seq<string>)
    ensures Concat(a + b) == Concat(a) + Concat(b)
  {
    if |a| == 0 {
      assert a + b == b;
    } else {
      assert (a + b)[1..] == a[1..] + b;
      ConcatAppend(a[1..], b);
    }
  }

  /** Extending a prefix by one element. */
  lemma TakeSnoc<T>(before: seq<T>, s: seq<T>, i: nat)
    requires i < |s|
    ensures s[..i] + [s[i]] == s[..i + 1]
    ensures (before + s[..i]) + [s[i]] == before + s[..i + 1]
  {
  }

  lemma FlattenAppend<T>(a: seq<seq<T>>, b: seq<seq<T>>)
    ensures Flatten(a + b) == Flatten(a) + Flatten(b)
  {
    if |a| == 0 {
      assert a + b == b;
    } else {
      assert (a + b)[1..] == a[1..] + b;
      FlattenAppend(a[1..], b);
    }
  }
}
