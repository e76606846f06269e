/** The transcript chunker of `app/services/notes_service.py`: long lines are cut
    into slices, and the resulting pieces are packed greedily under a budget. */
module Chunker {
  import opened Text

  /** `_split_long_line`: the line itself, or its consecutive slices of `maxChars`. */
  function SplitLongLine(line: string, maxChars: nat): (parts: seq<string>)
    requires maxChars > 0
    ensures |parts| > 0
    ensures forall k :: 0 <= k < |parts| ==> |parts[k]| <= maxChars
    ensures |parts| == 1 <==> |line| <= maxChars
    decreases |line|
  {
    if |line| <= maxChars then [line]
    else [line[..maxChars]] + SplitLongLine(line[maxChars..], maxChars)
  }

  function PiecesOfLines(lines: seq<string>, maxChars: nat): seq<string>
    requires maxChars > 0
  {
    if |lines| == 0 then []
    else SplitLongLine(lines[0], maxChars) + PiecesOfLines(lines[1..], maxChars)
  }

  /** The in-order list of pieces that the packer sees. */
  function Pieces(text: string, maxChars: nat): seq<string>
    requires maxChars > 0
  {
    PiecesOfLines(Split(text, '\n'), maxChars)
  }

  /** Length of a group once its pieces are joined by newlines. */
  function JoinedLength(group: seq<string>): nat {
    |Join(group, "\n")|
  }

  /** What the running counter `size` adds up to: every piece plus one separator. */
  function Size(group: seq<string>): nat {
    if |group| == 0 then 0 else Size(group[..|group| - 1]) + |group[|group| - 1]| + 1
  }

  function JoinAll(groups: seq<seq<string>>): (chunks: seq<string>)
    ensures |chunks| == |groups|
    ensures forall i :: 0 <= i < |groups| ==> chunks[i] == Join(groups[i], "\n")
  {
    seq(|groups|, i requires 0 <= i < |groups| => Join(groups[i], "\n"))
  }

  /** `groups` cuts `pieces` into consecutive non-empty runs. */
  ghost predicate Cuts(groups: seq<seq<string>>, pieces: seq<string>) {
    && Flatten(groups) == pieces
    && forall i :: 0 <= i < |groups| ==> |groups[i]| > 0
  }

  ghost predicate Fits(groups: seq<seq<string>>, maxChars: nat) {
    forall i :: 0 <= i < |groups| ==> JoinedLength(groups[i]) <= maxChars
  }

  /** No group could have taken the first piece of its successor. */
  ghost predicate Tight(groups: seq<seq<string>>, maxChars: nat)
    requires forall i :: 0 <= i < |groups| ==> |groups[i]| > 0
  {
    forall i :: 0 <= i < |groups| - 1 ==> JoinedLength(groups[i] + [groups[i + 1][0]]) > maxChars
  }

  /** Length of the longest run of pieces, at least `k` of them, that still fits. */
  function Reach(pieces: seq<string>, maxChars: nat, k: nat): (r: nat)
    requires 1 <= k <= |pieces|
    ensures k <= r <= |pieces|
    ensures JoinedLength(pieces[..k]) <= maxChars ==> JoinedLength(pieces[..r]) <= maxChars
    ensures r < |pieces| ==> JoinedLength(pieces[..r + 1]) > maxChars
    decreases |pieces| - k
  {
    if k < |pieces| && JoinedLength(pieces[..k + 1]) <= maxChars then Reach(pieces, maxChars, k + 1) else k
  }

  /** Reference definition of greedy packing: repeatedly take the longest run that fits. */
  function Greedy(pieces: seq<string>, maxChars: nat): seq<seq<string>>
    decreases |pieces|
  {
    if |pieces| == 0 then []
    else
      var k := Reach(pieces, maxChars, 1);
      [pieces[..k]] + Greedy(pieces[k..], maxChars)
  }

  /** The chunks a text is sent in. */
  function Chunks(text: string, maxChars: nat): seq<string>
    requires maxChars > 0
  {
    JoinAll(Greedy(Pieces(text, maxChars), maxChars))
  }

  // ---------------------------------------------------------------- lengths

  lemma JoinedLengthOfAppend(a: seq<string>, b: seq<string>)
    requires |a| > 0 && |b| > 0
    ensures JoinedLength(a + b) == JoinedLength(a) + 1 + JoinedLength(b)
  {
    JoinAppend(a, b, "\n");
  }

  lemma SizeIsJoinedLength(group: seq<string>)
    requires |group| > 0
    ensures Size(group) == JoinedLength(group) + 1
  {
    var n := |group| - 1;
    assert group == group[..n] + [group[n]];
    if n > 0 {
      SizeIsJoinedLength(group[..n]);
      JoinedLengthOfAppend(group[..n], [group[n]]);
    }
  }

  /** A contiguous part of a group is never longer than the group. */
  lemma PartNotLonger(a: seq<string>, b: seq<string>, c: seq<string>)
    ensures JoinedLength(b) <= JoinedLength(a + b + c)
  {
    if |b| > 0 {
      if |c| > 0 { JoinedLengthOfAppend(b, c); } else { assert b + c == b; }
      assert a + b + c == a + (b + c);
      if |a| > 0 { JoinedLengthOfAppend(a, b + c); } else { assert a + (b + c) == b + c; }
    }
  }

  lemma PiecesAppend(a: seq<string>, b: seq<string>, maxChars: nat)
    requires maxChars > 0
    ensures PiecesOfLines(a + b, maxChars) == PiecesOfLines(a, maxChars) + PiecesOfLines(b, maxChars)
  {
    if |a| == 0 {
      assert a + b == b;
    } else {
      assert (a + b)[1..] == a[1..] + b;
      PiecesAppend(a[1..], b, maxChars);
    }
  }

  /** Number of pieces of the first `i` lines. */
  function PieceCount(lines: seq<string>, i: nat, maxChars: nat): nat
    requires maxChars > 0 && i <= |lines|
  {
    |PiecesOfLines(lines[..i], maxChars)|
  }

  /** The pieces of line `i` follow those of the lines before it. */
  lemma PiecesOfLine(lines: seq<string>, i: nat, maxChars: nat)
    requires maxChars > 0 && i < |lines|
    ensures var pieces, parts, n := PiecesOfLines(lines, maxChars), SplitLongLine(lines[i], maxChars), PieceCount(lines, i, maxChars);
            && n + |parts| == PieceCount(lines, i + 1, maxChars) <= |pieces|
            && forall j :: 0 <= j < |parts| ==> pieces[n + j] == parts[j]
  {
    assert lines[..i + 1] == lines[..i] + [lines[i]];
    PiecesAppend(lines[..i], [lines[i]], maxChars);
    assert PiecesOfLines([lines[i]], maxChars) == SplitLongLine(lines[i], maxChars) + [];
    assert lines == lines[..i + 1] + lines[i + 1..];
    PiecesAppend(lines[..i + 1], lines[i + 1..], maxChars);
  }

  lemma PiecesAreShort(lines: seq<string>, maxChars: nat)
    requires maxChars > 0
    ensures forall k :: 0 <= k < |PiecesOfLines(lines, maxChars)| ==> |PiecesOfLines(lines, maxChars)[k]| <= maxChars
    ensures |lines| <= |PiecesOfLines(lines, maxChars)|
  {
  }

  /** The k-th slice is `line[k * maxChars : (k + 1) * maxChars]`, as the source's comprehension says. */
  lemma {:induction false} SliceAt(line: string, maxChars: nat, k: nat)
    requires maxChars > 0 && k < |SplitLongLine(line, maxChars)|
    ensures k * maxChars <= |line|
    ensures SplitLongLine(line, maxChars)[k] ==
            line[k * maxChars..if (k + 1) * maxChars <= |line| then (k + 1) * maxChars else |line|]
    decreases |line|
  {
    if |line| > maxChars && k > 0 {
      SliceAt(line[maxChars..], maxChars, k - 1);
      assert k * maxChars == (k - 1) * maxChars + maxChars;
      assert (k + 1) * maxChars == k * maxChars + maxChars;
    }
  }

  lemma TightTail(groups: seq<seq<string>>, maxChars: nat)
    requires |groups| > 0 && forall i :: 0 <= i < |groups| ==> |groups[i]| > 0
    requires Tight(groups, maxChars)
    ensures Tight(groups[1..], maxChars)
  {
    var rest := groups[1..];
    forall i | 0 <= i < |rest| - 1 ensures JoinedLength(rest[i] + [rest[i + 1][0]]) > maxChars {
      assert rest[i] == groups[i + 1] && rest[i + 1] == groups[i + 2];
    }
  }

  // ---------------------------------------------------------------- greedy packing

  /** Greedy packing is a tight cut that fits. */
  lemma {:induction false} GreedyIsTight(pieces: seq<string>, maxChars: nat)
    requires forall k :: 0 <= k < |pieces| ==> |pieces[k]| <= maxChars
    ensures Cuts(Greedy(pieces, maxChars), pieces)
    ensures Fits(Greedy(pieces, maxChars), maxChars)
    ensures Tight(Greedy(pieces, maxChars), maxChars)
    decreases |pieces|
  {
    if |pieces| > 0 {
      var k := Reach(pieces, maxChars, 1);
      GreedyIsTight(pieces[k..], maxChars);
      var rest := Greedy(pieces[k..], maxChars);
      assert Join(pieces[..1], "\n") == pieces[0];
      if |rest| > 0 {
        assert rest[0][0] == Flatten(rest)[0] == pieces[k];
        assert pieces[..k] + [pieces[k]] == pieces[..k + 1];
      }
      var all := [pieces[..k]] + rest;
      forall i | 0 <= i < |all| - 1 ensures JoinedLength(all[i] + [all[i + 1][0]]) > maxChars {
        if i > 0 {
          assert all[i] == rest[i - 1] && all[i + 1] == rest[i];
        }
      }
      assert pieces == pieces[..k] + pieces[k..];
    }
  }

  /** Greedy stays ahead: a tight cut of a shorter suffix needs no more groups than
      any fitting cut of a longer one. */
  lemma {:induction false} StaysAhead(tight: seq<seq<string>>, other: seq<seq<string>>, lead: seq<string>, maxChars: nat)
    requires forall i :: 0 <= i < |tight| ==> |tight[i]| > 0
    requires forall i :: 0 <= i < |other| ==> |other[i]| > 0
    requires Tight(tight, maxChars) && Fits(other, maxChars)
    requires Flatten(other) == lead + Flatten(tight)
    ensures |tight| <= |other|
    decreases |tight|
  {
    if |tight| > 0 {
      assert |Flatten(other)| > 0;
      var t, o := tight[0], other[0];
      var whole := Flatten(other);
      assert whole == o + Flatten(other[1..]);
      assert whole == (lead + t) + Flatten(tight[1..]);
      if |o| <= |lead + t| {
        var lead' := (lead + t)[|o|..];
        assert lead + t == o + lead' by { assert (lead + t) == whole[..|lead + t|]; assert o == whole[..|o|]; }
        assert whole == o + (lead' + Flatten(tight[1..]));
        assert Flatten(other[1..]) == whole[|o|..] == lead' + Flatten(tight[1..]);
        TightTail(tight, maxChars);
        StaysAhead(tight[1..], other[1..], lead', maxChars);
      } else {
        // `o` would hold `t` and the first piece of the next tight group: too long.
        var next := tight[1][0];
        assert Flatten(tight[1..])[0] == next;
        var n := |lead + t|;
        assert o == lead + (t + [next]) + o[n + 1..] by {
          assert o == whole[..|o|];
          assert whole[..n + 1] == lead + (t + [next]);
        }
        PartNotLonger(lead, t + [next], o[n + 1..]);
        assert false;
      }
    }
  }

  /** Of all ways to cut the pieces into fitting non-empty groups, greedy uses the fewest. */
  lemma GreedyIsOptimal(pieces: seq<string>, other: seq<seq<string>>, maxChars: nat)
    requires forall k :: 0 <= k < |pieces| ==> |pieces[k]| <= maxChars
    requires Cuts(other, pieces) && Fits(other, maxChars)
    ensures |Greedy(pieces, maxChars)| <= |other|
  {
    GreedyIsTight(pieces, maxChars);
    assert pieces == [] + pieces;
    StaysAhead(Greedy(pieces, maxChars), other, [], maxChars);
  }

  /** Tightness determines the cut: the only fitting tight cut is the greedy one. */
  lemma {:induction false} TightIsGreedy(groups: seq<seq<string>>, pieces: seq<string>, maxChars: nat)
    requires Cuts(groups, pieces) && Fits(groups, maxChars) && Tight(groups, maxChars)
    ensures groups == Greedy(pieces, maxChars)
    decreases |groups|
  {
    if |groups| > 0 {
      var g, rest := groups[0], groups[1..];
      var k := Reach(pieces, maxChars, 1);
      assert pieces == g + Flatten(rest);
      if k < |g| {
        assert g == [] + pieces[..k + 1] + g[k + 1..];
        PartNotLonger([], pieces[..k + 1], g[k + 1..]);
        assert false;
      } else if k > |g| {
        assert pieces[|g|] == Flatten(rest)[0] == rest[0][0];
        assert pieces[..k] == [] + (g + [rest[0][0]]) + pieces[|g| + 1..k];
        ReachFits(pieces, maxChars, groups);
        PartNotLonger([], g + [rest[0][0]], pieces[|g| + 1..k]);
        assert false;
      }
      assert pieces[k..] == Flatten(rest);
      TightTail(groups, maxChars);
      TightIsGreedy(rest, pieces[k..], maxChars);
    }
  }

  lemma ReachFits(pieces: seq<string>, maxChars: nat, groups: seq<seq<string>>)
    requires |groups| > 0 && Cuts(groups, pieces) && Fits(groups, maxChars)
    ensures |pieces| > 0 && JoinedLength(pieces[..Reach(pieces, maxChars, 1)]) <= maxChars
  {
    var g := groups[0];
    assert pieces == g + Flatten(groups[1..]);
    PartNotLonger([], pieces[..1], g[1..]);
    assert g == [] + pieces[..1] + g[1..];
  }

  // ---------------------------------------------------------------- the loop

  /** The packer's state between pieces: the closed groups and the open one. */
  ghost predicate Packing(groups: seq<seq<string>>, current: seq<string>, maxChars: nat) {
    && |current| > 0
    && (forall i :: 0 <= i < |groups| ==> |groups[i]| > 0)
    && Fits(groups + [current], maxChars)
    && Tight(groups + [current], maxChars)
  }

  lemma StartPacking(piece: string, maxChars: nat)
    requires |piece| <= maxChars
    ensures Packing([], [piece], maxChars)
  {
    assert [] + [[piece]] == [[piece]];
  }

  /** A piece that overflows the open group closes it. */
  lemma CloseGroup(groups: seq<seq<string>>, current: seq<string>, piece: string, maxChars: nat)
    requires Packing(groups, current, maxChars)
    requires |piece| <= maxChars && Size(current) + |piece| > maxChars
    ensures Packing(groups + [current], [piece], maxChars)
  {
    SizeIsJoinedLength(current);
    JoinedLengthOfAppend(current, [piece]);
    var before := groups + [current];
    var after := before + [[piece]];
    forall i | 0 <= i < |after| - 1 ensures JoinedLength(after[i] + [after[i + 1][0]]) > maxChars {
      if i < |before| - 1 {
        assert after[i] == before[i] && after[i + 1] == before[i + 1];
      } else {
        assert after[i] == current;
      }
    }
  }

  /** A piece that does not overflow joins the open group. */
  lemma GrowGroup(groups: seq<seq<string>>, current: seq<string>, piece: string, maxChars: nat)
    requires Packing(groups, current, maxChars)
    requires Size(current) + |piece| <= maxChars
    ensures Packing(groups, current + [piece], maxChars)
  {
    SizeIsJoinedLength(current);
    JoinedLengthOfAppend(current, [piece]);
    var before := groups + [current];
    var after := groups + [current + [piece]];
    forall i | 0 <= i < |after| ensures JoinedLength(after[i]) <= maxChars {
      if i < |groups| { assert after[i] == before[i]; }
    }
    forall i | 0 <= i < |after| - 1 ensures JoinedLength(after[i] + [after[i + 1][0]]) > maxChars {
      assert after[i] == before[i] && after[i + 1][0] == before[i + 1][0];
    }
  }

  datatype Packer = Packer(groups: seq<seq<string>>, current: seq<string>)

  /** One decision of the packer. */
  function PackOne(p: Packer, piece: string, maxChars: nat): Packer {
    if Size(p.current) + |piece| > maxChars && |p.current| > 0
    then Packer(p.groups + [p.current], [piece])
    else Packer(p.groups, p.current + [piece])
  }

  /** The packer after a run of pieces. */
  function Pack(pieces: seq<string>, maxChars: nat): Packer {
    if |pieces| == 0 then Packer([], [])
    else PackOne(Pack(pieces[..|pieces| - 1], maxChars), pieces[|pieces| - 1], maxChars)
  }

  lemma FlattenSnoc(groups: seq<seq<string>>, group: seq<string>)
    ensures Flatten(groups + [group]) == Flatten(groups) + group
  {
    FlattenAppend(groups, [group]);
    assert Flatten([group]) == group + [];
  }

  lemma JoinAllSnoc(groups: seq<seq<string>>, group: seq<string>)
    ensures JoinAll(groups + [group]) == JoinAll(groups) + [Join(group, "\n")]
  {
  }

  lemma SizeSnoc(group: seq<string>, piece: string)
    ensures Size(group + [piece]) == Size(group) + |piece| + 1
  {
    assert (group + [piece])[..|group|] == group;
  }

  lemma PackOneKeeps(p: Packer, piece: string, maxChars: nat)
    requires |piece| <= maxChars
    requires Packing(p.groups, p.current, maxChars)
    ensures var q := PackOne(p, piece, maxChars); Packing(q.groups, q.current, maxChars)
  {
    if Size(p.current) + |piece| > maxChars {
      CloseGroup(p.groups, p.current, piece, maxChars);
    } else {
      GrowGroup(p.groups, p.current, piece, maxChars);
    }
  }

  lemma PackOneContent(p: Packer, piece: string, maxChars: nat)
    ensures var q := PackOne(p, piece, maxChars);
            Flatten(q.groups) + q.current == Flatten(p.groups) + p.current + [piece]
  {
    FlattenSnoc(p.groups, p.current);
  }

  lemma {:induction false} PackIsPacking(pieces: seq<string>, maxChars: nat)
    requires |pieces| > 0
    requires forall k :: 0 <= k < |pieces| ==> |pieces[k]| <= maxChars
    ensures Packing(Pack(pieces, maxChars).groups, Pack(pieces, maxChars).current, maxChars)
  {
    var n := |pieces| - 1;
    if n == 0 {
      assert Pack(pieces[..0], maxChars) == Packer([], []);
      assert [] + [pieces[0]] == [pieces[0]];
      StartPacking(pieces[0], maxChars);
    } else {
      PackIsPacking(pieces[..n], maxChars);
      PackOneKeeps(Pack(pieces[..n], maxChars), pieces[n], maxChars);
    }
  }

  lemma {:induction false} PackContent(pieces: seq<string>, maxChars: nat)
    ensures var p := Pack(pieces, maxChars); Flatten(p.groups) + p.current == pieces
  {
    if |pieces| > 0 {
      var n := |pieces| - 1;
      PackContent(pieces[..n], maxChars);
      PackOneContent(Pack(pieces[..n], maxChars), pieces[n], maxChars);
      assert pieces == pieces[..n] + [pieces[n]];
    }
  }

  /** Closing the last group gives the greedy cut. */
  lemma PackIsGreedy(pieces: seq<string>, maxChars: nat)
    requires |pieces| > 0
    requires forall k :: 0 <= k < |pieces| ==> |pieces[k]| <= maxChars
    ensures var p := Pack(pieces, maxChars);
            |p.current| > 0 && p.groups + [p.current] == Greedy(pieces, maxChars)
  {
    PackIsPacking(pieces, maxChars);
    PackContent(pieces, maxChars);
    var p := Pack(pieces, maxChars);
    FlattenSnoc(p.groups, p.current);
    TightIsGreedy(p.groups + [p.current], pieces, maxChars);
  }

  /** The loop's variables: the closed chunks, the open group and its size. */
  datatype Loop = Loop(chunks: seq<string>, current: seq<string>, size: nat)

  /** One turn of the inner loop. */
  function Turn(l: Loop, line: string, maxChars: nat): Loop {
    if l.size + |line| > maxChars && |l.current| > 0
    then Loop(l.chunks + [Join(l.current, "\n")], [line], |line| + 1)
    else Loop(l.chunks, l.current + [line], l.size + |line| + 1)
  }

  ghost function LoopAfter(pieces: seq<string>, maxChars: nat): Loop {
    if |pieces| == 0 then Loop([], [], 0)
    else Turn(LoopAfter(pieces[..|pieces| - 1], maxChars), pieces[|pieces| - 1], maxChars)
  }

  lemma LoopTurn(pieces: seq<string>, n: nat, maxChars: nat)
    requires n < |pieces|
    ensures LoopAfter(pieces[..n + 1], maxChars) == Turn(LoopAfter(pieces[..n], maxChars), pieces[n], maxChars)
  {
    assert pieces[..n + 1][..n] == pieces[..n];
  }

  lemma LoopIsPack(pieces: seq<string>, maxChars: nat)
    ensures var p := Pack(pieces, maxChars);
            LoopAfter(pieces, maxChars) == Loop(JoinAll(p.groups), p.current, Size(p.current))
  {
    if |pieces| > 0 {
      var n := |pieces| - 1;
      LoopIsPack(pieces[..n], maxChars);
      var p := Pack(pieces[..n], maxChars);
      JoinAllSnoc(p.groups, p.current);
      SizeSnoc(p.current, pieces[n]);
      SizeSnoc([], pieces[n]);
      assert [] + [pieces[n]] == [pieces[n]];
    }
  }

  lemma LoopWhole(text: string, maxChars: nat)
    requires maxChars > 0
    ensures var l := LoopAfter(Pieces(text, maxChars), maxChars);
            |l.current| > 0 && l.chunks + [Join(l.current, "\n")] == Chunks(text, maxChars)
  {
    var pieces := Pieces(text, maxChars);
    var p := Pack(pieces, maxChars);
    PiecesAreShort(Split(text, '\n'), maxChars);
    PackIsGreedy(pieces, maxChars);
    LoopIsPack(pieces, maxChars);
    JoinAllSnoc(p.groups, p.current);
  }

  /** `_chunk`: the running counter `size` packs exactly as the reference definition does. */
  method Chunk(text: string, maxChars: nat) returns (chunks: seq<string>)
    requires maxChars > 0
    ensures chunks == Chunks(text, maxChars)
  {
    chunks := [];
    var current: seq<string> := [];
    var size: nat := 0;
    var lines := Split(text, '\n');
    ghost var pieces := Pieces(text, maxChars);
    ghost var n := 0;
    for i := 0 to |lines|
      invariant n == PieceCount(lines, i, maxChars) <= |pieces|
      invariant Loop(chunks, current, size) == LoopAfter(pieces[..n], maxChars)
    {
      var parts := SplitLongLine(lines[i], maxChars);
      PiecesOfLine(lines, i, maxChars);
      for j := 0 to |parts|
        invariant n == PieceCount(lines, i, maxChars) + j <= |pieces|
        invariant Loop(chunks, current, size) == LoopAfter(pieces[..n], maxChars)
      {
        var line := parts[j];
        LoopTurn(pieces, n, maxChars);
        ghost var before := Loop(chunks, current, size);
        if size + |line| > maxChars && |current| > 0 {
          chunks := chunks + [Join(current, "\n")];
          current := [];
          size := 0;
          assert current + [line] == [line];
        }
        current := current + [line];
        size := size + |line| + 1;
        n := n + 1;
        assert Loop(chunks, current, size) == Turn(before, line, maxChars);
      }
    }
    assert lines[..|lines|] == lines && pieces[..n] == pieces;
    LoopWhole(text, maxChars);
    if |current| > 0 {
      chunks := chunks + [Join(current, "\n")];
    }
    if |chunks| == 0 {
      chunks := [text];
    }
  }

  // ---------------------------------------------------------------- what the chunks promise

  /** No chunk is empty-handed or over budget, and the `[text]` fallback is never needed. */
  lemma ChunkBound(text: string, maxChars: nat)
    requires maxChars > 0
    ensures |Chunks(text, maxChars)| > 0
    ensures forall c <- Chunks(text, maxChars) :: |c| <= maxChars
  {
    PiecesAreShort(Split(text, '\n'), maxChars);
    GreedyIsTight(Pieces(text, maxChars), maxChars);
  }

  lemma JoinOfGroups(groups: seq<seq<string>>)
    requires forall i :: 0 <= i < |groups| ==> |groups[i]| > 0
    ensures Join(JoinAll(groups), "\n") == Join(Flatten(groups), "\n")
  {
    if |groups| > 1 {
      JoinOfGroups(groups[1..]);
      assert JoinAll(groups)[1..] == JoinAll(groups[1..]);
      JoinAppend(groups[0], Flatten(groups[1..]), "\n");
    } else if |groups| == 1 {
      assert Flatten(groups) == groups[0] + [] == groups[0];
    }
  }

  lemma SlicesConcat(line: string, maxChars: nat)
    requires maxChars > 0
    ensures Concat(SplitLongLine(line, maxChars)) == line
    decreases |line|
  {
    if |line| > maxChars {
      SlicesConcat(line[maxChars..], maxChars);
      assert SplitLongLine(line, maxChars)[1..] == SplitLongLine(line[maxChars..], maxChars);
    } else {
      assert Concat([line]) == line + "";
    }
  }

  lemma PiecesConcat(lines: seq<string>, maxChars: nat)
    requires maxChars > 0
    ensures Concat(PiecesOfLines(lines, maxChars)) == Concat(lines)
  {
    if |lines| > 0 {
      PiecesConcat(lines[1..], maxChars);
      SlicesConcat(lines[0], maxChars);
      ConcatAppend(SplitLongLine(lines[0], maxChars), PiecesOfLines(lines[1..], maxChars));
    }
  }

  /** Joined length is content plus one separator between neighbours. */
  lemma JoinedLengthIsContent(parts: seq<string>)
    requires |parts| > 0
    ensures JoinedLength(parts) == |Concat(parts)| + |parts| - 1
  {
    if |parts| > 1 {
      JoinedLengthIsContent(parts[1..]);
    }
  }

  lemma MorePiecesIffLongLine(lines: seq<string>, maxChars: nat)
    requires maxChars > 0
    ensures |PiecesOfLines(lines, maxChars)| == |lines| <==> forall l <- lines :: |l| <= maxChars
    ensures (forall l <- lines :: |l| <= maxChars) ==> PiecesOfLines(lines, maxChars) == lines
  {
    if |lines| > 0 {
      MorePiecesIffLongLine(lines[1..], maxChars);
      PiecesAreShort(lines[1..], maxChars);
      assert lines == [lines[0]] + lines[1..];
    }
  }

  /** Lossless: the chunks rejoin to the pieces; erasing newlines they are the text;
      and they rejoin to the text itself exactly when no line is over budget. */
  lemma ChunksLossless(text: string, maxChars: nat)
    requires maxChars > 0
    ensures Join(Chunks(text, maxChars), "\n") == Join(Pieces(text, maxChars), "\n")
    ensures Without(Join(Chunks(text, maxChars), "\n"), '\n') == Without(text, '\n')
    ensures Join(Chunks(text, maxChars), "\n") == text <==> forall l <- Split(text, '\n') :: |l| <= maxChars
  {
    var lines, pieces := Split(text, '\n'), Pieces(text, maxChars);
    PiecesAreShort(lines, maxChars);
    GreedyIsTight(pieces, maxChars);
    JoinOfGroups(Greedy(pieces, maxChars));
    JoinSplit(text, '\n');
    PiecesConcat(lines, maxChars);
    WithoutJoin(pieces, '\n');
    WithoutJoin(lines, '\n');
    MorePiecesIffLongLine(lines, maxChars);
    JoinedLengthIsContent(pieces);
    JoinedLengthIsContent(lines);
  }

  /** Optimality stated for texts. */
  lemma ChunksFewest(text: string, maxChars: nat, other: seq<seq<string>>)
    requires maxChars > 0
    requires Cuts(other, Pieces(text, maxChars)) && Fits(other, maxChars)
    ensures |Chunks(text, maxChars)| <= |other|
  {
    PiecesAreShort(Split(text, '\n'), maxChars);
    GreedyIsOptimal(Pieces(text, maxChars), other, maxChars);
  }

  /** Any two neighbours and their separator exceed the budget. */
  lemma NeighboursExceed(text: string, maxChars: nat, i: nat)
    requires maxChars > 0 && i + 1 < |Chunks(text, maxChars)|
    ensures |Chunks(text, maxChars)[i]| + 1 + |Chunks(text, maxChars)[i + 1]| > maxChars
  {
    var groups := Greedy(Pieces(text, maxChars), maxChars);
    PiecesAreShort(Split(text, '\n'), maxChars);
    GreedyIsTight(Pieces(text, maxChars), maxChars);
    var g, h := groups[i], groups[i + 1];
    assert JoinedLength(g + [h[0]]) > maxChars;
    JoinedLengthOfAppend(g, h);
    PartNotLonger([], g + [h[0]], h[1..]);
    assert g + h == [] + (g + [h[0]]) + h[1..];
  }

  lemma {:induction false} NeighbourSum(chunks: seq<string>, maxChars: nat)
    requires forall i :: 0 <= i < |chunks| - 1 ==> |chunks[i]| + 1 + |chunks[i + 1]| > maxChars
    ensures |chunks| / 2 * maxChars <= |Concat(chunks)|
    decreases |chunks|
  {
    if |chunks| >= 2 {
      var rest := chunks[2..];
      forall i | 0 <= i < |rest| - 1 ensures |rest[i]| + 1 + |rest[i + 1]| > maxChars {
        assert rest[i] == chunks[i + 2] && rest[i + 1] == chunks[i + 3];
      }
      NeighbourSum(rest, maxChars);
      assert chunks[1..][1..] == rest;
      assert Concat(chunks) == chunks[0] + (chunks[1] + Concat(rest));
      assert |chunks| / 2 == |rest| / 2 + 1;
      assert (|rest| / 2 + 1) * maxChars == |rest| / 2 * maxChars + maxChars;
    }
  }

  /** Number of cuts inside lines. */
  function ExtraSplits(text: string, maxChars: nat): int
    requires maxChars > 0
  {
    |Pieces(text, maxChars)| - |Split(text, '\n')|
  }

  /** With n chunks, floor(n/2) * maxChars + (n - 1) is at most the text length plus the extra splits. */
  lemma ChunkCountBound(text: string, maxChars: nat)
    requires maxChars > 0
    ensures var n := |Chunks(text, maxChars)|;
            n / 2 * maxChars + (n - 1) <= |text| + ExtraSplits(text, maxChars)
  {
    var chunks, lines, pieces := Chunks(text, maxChars), Split(text, '\n'), Pieces(text, maxChars);
    forall i | 0 <= i < |chunks| - 1 ensures |chunks[i]| + 1 + |chunks[i + 1]| > maxChars {
      NeighboursExceed(text, maxChars, i);
    }
    NeighbourSum(chunks, maxChars);
    ChunkBound(text, maxChars);
    ChunksLossless(text, maxChars);
    PiecesAreShort(lines, maxChars);
    PiecesConcat(lines, maxChars);
    JoinSplit(text, '\n');
    JoinedLengthIsContent(chunks);
    JoinedLengthIsContent(pieces);
    JoinedLengthIsContent(lines);
  }
}
