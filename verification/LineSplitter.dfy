/** The splitter behind the scp progress display: bytes arrive in chunks, and each read takes out the
    pieces that end in a carriage return or a line feed.  The carriage return is searched first. */
module LineSplitter {
  import opened Sequences

  predicate IsSeparator(c: char) { c == '\r' || c == '\n' }

  function Find(s: string, c: char): (i: int)
    ensures -1 <= i < |s|
  {
    if s == "" then -1
    else if s[0] == c then 0
    else if Find(s[1..], c) < 0 then -1
    else Find(s[1..], c) + 1
  }

  /** Find is the first index of the character, or -1 if it does not occur. */
  lemma {:induction false} FindIsFirst(s: string, c: char, i: int)
    requires -1 <= i < |s|
    ensures Find(s, c) == i
       <==> if i < 0 then forall j | 0 <= j < |s| :: s[j] != c
            else s[i] == c && forall j | 0 <= j < i :: s[j] != c
  {
    if s != "" {
      var t := s[1..];
      if i > 0 {
        FindIsFirst(t, c, i - 1);
        assert forall j | 0 < j < |s| :: s[j] == t[j - 1];
      } else {
        FindIsFirst(t, c, -1);
        assert forall j | 0 <= j < |t| :: t[j] == s[j + 1];
      }
    }
  }

  function FirstBreak(s: string): (i: int)
    ensures -1 <= i < |s|
  {
    if Find(s, '\r') >= 0 then Find(s, '\r') else Find(s, '\n')
  }

  lemma BreakIsSeparator(s: string)
    ensures FirstBreak(s) >= 0 ==> IsSeparator(s[FirstBreak(s)])
    ensures FirstBreak(s) < 0 <==> forall j | 0 <= j < |s| :: !IsSeparator(s[j])
  {
    FindIsFirst(s, '\r', Find(s, '\r'));
    FindIsFirst(s, '\n', Find(s, '\n'));
  }

  datatype Piece = Piece(line: string, separator: char)
  datatype Split = Split(pieces: seq<Piece>, residue: string)

  /** What one call of the extraction loop leaves, from the buffer it starts with. */
  function SplitOf(buffer: string): Split
    decreases |buffer|
  {
    var i := FirstBreak(buffer);
    if i < 0 then Split([], buffer)
    else
      var rest := SplitOf(buffer[i + 1..]);
      Split([Piece(buffer[..i], buffer[i])] + rest.pieces, rest.residue)
  }

  /** The bytes the pieces came from. */
  function Glued(pieces: seq<Piece>): string {
    if pieces == [] then ""
    else pieces[0].line + [pieces[0].separator] + Glued(pieces[1..])
  }

  lemma Unfold(buffer: string)
    requires FirstBreak(buffer) >= 0
    ensures var i := FirstBreak(buffer);
      && SplitOf(buffer).pieces == [Piece(buffer[..i], buffer[i])] + SplitOf(buffer[i + 1..]).pieces
      && SplitOf(buffer).residue == SplitOf(buffer[i + 1..]).residue
  {
  }

  lemma PutBack(buffer: string, i: nat, glued: string, residue: string)
    requires i < |buffer| && glued + residue == buffer[i + 1..]
    ensures (buffer[..i] + [buffer[i]] + glued) + residue == buffer
  {
    assert buffer == buffer[..i] + [buffer[i]] + (glued + residue);
  }

  lemma GluedOneMore(piece: Piece, pieces: seq<Piece>)
    ensures Glued([piece] + pieces) == piece.line + [piece.separator] + Glued(pieces)
  {
    assert ([piece] + pieces)[1..] == pieces;
  }

  /** Nothing is lost, added or reordered, and the residue holds no separator. */
  lemma {:induction false} NothingIsLost(buffer: string)
    ensures Glued(SplitOf(buffer).pieces) + SplitOf(buffer).residue == buffer
    ensures FirstBreak(SplitOf(buffer).residue) < 0
    decreases |buffer|
  {
    var i := FirstBreak(buffer);
    if i < 0 {
      assert "" + buffer == buffer;
    } else {
      var rest := SplitOf(buffer[i + 1..]);
      NothingIsLost(buffer[i + 1..]);
      Unfold(buffer);
      GluedOneMore(Piece(buffer[..i], buffer[i]), rest.pieces);
      PutBack(buffer, i, Glued(rest.pieces), rest.residue);
    }
  }

  // ---- the object ----

  predicate IsSpace(c: char) {
    c == ' ' || c == '\t' || c == '\n' || c == '\r' || c == 11 as char || c == 12 as char
  }

  function Trimmed(s: string): string {
    if s == "" then ""
    else if IsSpace(s[0]) then Trimmed(s[1..])
    else if IsSpace(s[|s| - 1]) then Trimmed(s[..|s| - 1])
    else s
  }

  /** The lines handed to the progress match: trimmed, the empty ones skipped. */
  function Lines(pieces: seq<Piece>): seq<string> {
    if pieces == [] then []
    else
      var before, line := Lines(pieces[..|pieces| - 1]), Trimmed(pieces[|pieces| - 1].line);
      if line == "" then before else before + [line]
  }

  predicate Blank(s: string) {
    forall k | 0 <= k < |s| :: IsSpace(s[k])
  }

  /** Trimming takes spaces off the two ends, all of them, and nothing else. */
  lemma {:induction false} TrimmedIs(s: string, before: string, line: string, after: string)
    requires s == before + line + after && Blank(before) && Blank(after)
    requires line == "" || (!IsSpace(line[0]) && !IsSpace(line[|line| - 1]))
    ensures Trimmed(s) == line
    decreases |s|
  {
    if before != "" {
      assert s[0] == before[0] && s[1..] == before[1..] + line + after;
      TrimmedIs(s[1..], before[1..], line, after);
    } else if line == "" {
      if after != "" {
        assert s[0] == after[0] && s[1..] == "" + "" + after[1..];
        TrimmedIs(s[1..], "", "", after[1..]);
      }
    } else {
      assert s[0] == line[0];
      if after != "" {
        assert s[|s| - 1] == after[|after| - 1];
        assert s[..|s| - 1] == "" + line + after[..|after| - 1];
        TrimmedIs(s[..|s| - 1], "", line, after[..|after| - 1]);
      } else {
        assert s == line;
      }
    }
  }

  lemma OneMoreInFront(s: string, before: string, line: string, after: string)
    requires s != "" && IsSpace(s[0]) && s[1..] == before + line + after && Blank(before)
    ensures s == ([s[0]] + before) + line + after && Blank([s[0]] + before)
  {
    assert s == [s[0]] + s[1..];
  }

  lemma OneMoreAtTheEnd(s: string, before: string, line: string, after: string)
    requires s != "" && IsSpace(s[|s| - 1]) && s[..|s| - 1] == before + line + after && Blank(after)
    ensures s == before + line + (after + [s[|s| - 1]]) && Blank(after + [s[|s| - 1]])
  {
    assert s == s[..|s| - 1] + [s[|s| - 1]];
  }

  /** Every text is of that form. */
  lemma {:induction false} TrimmedParts(s: string) returns (before: string, after: string)
    ensures s == before + Trimmed(s) + after && Blank(before) && Blank(after)
    ensures Trimmed(s) == "" || (!IsSpace(Trimmed(s)[0]) && !IsSpace(Trimmed(s)[|Trimmed(s)| - 1]))
    decreases |s|
  {
    before, after := "", "";
    if s == "" {
      return;
    }
    hide IsSpace, Blank;
    NothingIsBlank();
    if IsSpace(s[0]) {
      before, after := TrimmedParts(s[1..]);
      OneMoreInFront(s, before, Trimmed(s), after);
      before := [s[0]] + before;
    } else if IsSpace(s[|s| - 1]) {
      before, after := TrimmedParts(s[..|s| - 1]);
      OneMoreAtTheEnd(s, before, Trimmed(s), after);
      after := after + [s[|s| - 1]];
    } else {
      assert s == "" + s + "";
    }
  }

  lemma NothingIsBlank()
    ensures Blank("")
  {
  }

  lemma BlankIff(s: string)
    ensures Blank(s) <==> Trimmed(s) == ""
  {
    hide Trimmed, IsSpace;
    if Blank(s) {
      TrimmedIs(s, s, "", "");
    } else {
      var before, after := TrimmedParts(s);
    }
  }

  lemma LinesOfOne(piece: Piece)
    ensures Lines([piece]) == if Blank(piece.line) then [] else [Trimmed(piece.line)]
  {
    hide Trimmed, Blank;
    BlankIff(piece.line);
    assert Lines([piece][..0]) == [];
  }

  /** The lines of a list of pieces are those of one part and then those of the other; one piece gives its trimmed
      line, or nothing if it is blank. */
  lemma {:induction false} LinesOfParts(a: seq<Piece>, b: seq<Piece>)
    ensures Lines(a + b) == Lines(a) + Lines(b)
    ensures |a| == 1 ==> Lines(a) == if Blank(a[0].line) then [] else [Trimmed(a[0].line)]
    decreases |b|
  {
    hide Trimmed, Blank;
    if |a| == 1 {
      LinesOfOne(a[0]);
    }
    if b == [] {
      assert a + b == a;
    } else {
      assert (a + b)[..|a + b| - 1] == a + b[..|b| - 1];
      LinesOfParts(a, b[..|b| - 1]);
    }
  }

  lemma LinesOneMore(before: seq<string>, pieces: seq<Piece>, piece: Piece)
    ensures var line := Trimmed(piece.line);
      before + Lines(pieces + [piece])
      == if line == "" then before + Lines(pieces) else before + Lines(pieces) + [line]
  {
    assert (pieces + [piece])[..|pieces|] == pieces;
    Regroup(before, Lines(pieces), [Trimmed(piece.line)]);
  }

  lemma TakeOne(taken: seq<Piece>, buffer: string)
    requires FirstBreak(buffer) >= 0
    ensures var i := FirstBreak(buffer);
      && taken + SplitOf(buffer).pieces
         == (taken + [Piece(buffer[..i], buffer[i])]) + SplitOf(buffer[i + 1..]).pieces
      && SplitOf(buffer).residue == SplitOf(buffer[i + 1..]).residue
  {
    var i := FirstBreak(buffer);
    Unfold(buffer);
    Regroup(taken, [Piece(buffer[..i], buffer[i])], SplitOf(buffer[i + 1..]).pieces);
  }

  lemma NoMorePieces(taken: seq<Piece>, buffer: string)
    requires FirstBreak(buffer) < 0
    ensures taken + SplitOf(buffer).pieces == taken && SplitOf(buffer).residue == buffer
  {
  }

  class StderrBuffer {
    var buffer: string
    var lines: seq<string>

    constructor ()
      ensures buffer == "" && lines == []
    {
      buffer, lines := "", [];
    }

    method IndexOf(c: char) returns (at: int)
      ensures at == Find(buffer, c)
    {
      for i := 0 to |buffer|
        invariant forall j | 0 <= j < i :: buffer[j] != c
      {
        if buffer[i] == c {
          FindIsFirst(buffer, c, i);
          return i;
        }
      }
      FindIsFirst(buffer, c, -1);
      return -1;
    }

    method ParseProgress(output: string)
      modifies this
      ensures var s := SplitOf(old(buffer) + output);
        buffer == s.residue && lines == old(lines) + Lines(s.pieces)
    {
      hide SplitOf, Trimmed, Find;
      buffer := buffer + output;
      ghost var start, taken := buffer, [];
      while true
        invariant SplitOf(start).pieces == taken + SplitOf(buffer).pieces
        invariant SplitOf(start).residue == SplitOf(buffer).residue
        invariant lines == old(lines) + Lines(taken)
        decreases |buffer|
      {
        var sep := IndexOf('\r');
        if sep < 0 {
          sep := IndexOf('\n');
        }
        if sep < 0 {
          NoMorePieces(taken, buffer);
          break;
        }
        TakeOne(taken, buffer);
        LinesOneMore(old(lines), taken, Piece(buffer[..sep], buffer[sep]));
        taken := taken + [Piece(buffer[..sep], buffer[sep])];
        var line := Trimmed(buffer[..sep]);
        buffer := buffer[sep + 1..];
        if line == "" {
          continue;
        }
        lines := lines + [line];
      }
    }
  }

  // ---- chunks ----

  function Concat(chunks: seq<string>): string {
    if chunks == [] then "" else Concat(chunks[..|chunks| - 1]) + chunks[|chunks| - 1]
  }

  /** The pieces and the residue once every chunk has been read. */
  function Fed(chunks: seq<string>): Split {
    if chunks == [] then Split([], "")
    else
      var before := Fed(chunks[..|chunks| - 1]);
      var s := SplitOf(before.residue + chunks[|chunks| - 1]);
      Split(before.pieces + s.pieces, s.residue)
  }

  lemma {:induction false} NothingIsLostInChunks(chunks: seq<string>)
    ensures Glued(Fed(chunks).pieces) + Fed(chunks).residue == Concat(chunks)
    ensures forall i | 0 <= i < |Fed(chunks).residue| :: !IsSeparator(Fed(chunks).residue[i])
  {
    if chunks != [] {
      var before, chunk := Fed(chunks[..|chunks| - 1]), chunks[|chunks| - 1];
      var s := SplitOf(before.residue + chunk);
      NothingIsLostInChunks(chunks[..|chunks| - 1]);
      NothingIsLost(before.residue + chunk);
      BreakIsSeparator(s.residue);
      GluedJoin(before.pieces, s.pieces);
      RegroupTail(Glued(before.pieces), Glued(s.pieces), s.residue, before.residue, chunk);
    }
  }

  lemma {:induction false} GluedJoin(a: seq<Piece>, b: seq<Piece>)
    ensures Glued(a + b) == Glued(a) + Glued(b)
  {
    if a == [] {
      assert a + b == b;
    } else {
      assert (a + b)[1..] == a[1..] + b;
      GluedJoin(a[1..], b);
    }
  }

  /** Every carriage return comes before every line feed: true of any stream with one kind only. */
  predicate ReturnsFirst(s: string) {
    forall i, j | 0 <= i < j < |s| :: !(s[i] == '\n' && s[j] == '\r')
  }

  lemma ReturnsFirstSuffix(s: string, k: nat)
    requires ReturnsFirst(s) && k <= |s|
    ensures ReturnsFirst(s[k..])
  {
    assert forall i | 0 <= i < |s[k..]| :: s[k..][i] == s[k + i];
  }

  lemma {:induction false} SplitInTwo(a: string, b: string)
    requires ReturnsFirst(a + b)
    ensures SplitOf(a + b).pieces == SplitOf(a).pieces + SplitOf(SplitOf(a).residue + b).pieces
    ensures SplitOf(a + b).residue == SplitOf(SplitOf(a).residue + b).residue
    decreases |a|
  {
    var i := FirstBreak(a);
    if i >= 0 {
      var piece, rest := Piece(a[..i], a[i]), a[i + 1..];
      FirstBreakStays(a, b);
      CutInside(a, b, i);
      ReturnsFirstSuffix(a + b, i + 1);
      SplitInTwo(rest, b);
      Unfold(a);
      Unfold(a + b);
      Regroup([piece], SplitOf(rest).pieces, SplitOf(SplitOf(rest).residue + b).pieces);
    } else {
      WithoutBreak(a, SplitOf(a + b).pieces);
    }
  }

  lemma WithoutBreak(a: string, pieces: seq<Piece>)
    requires FirstBreak(a) < 0
    ensures SplitOf(a).residue == a && SplitOf(a).pieces + pieces == pieces
  {
  }

  lemma FirstBreakStays(a: string, b: string)
    requires ReturnsFirst(a + b) && FirstBreak(a) >= 0
    ensures FirstBreak(a + b) == FirstBreak(a)
  {
    FindIsFirst(a, '\r', Find(a, '\r'));
    FindIsFirst(a, '\n', Find(a, '\n'));
    var i := FirstBreak(a);
    assert forall j | 0 <= j < |a| :: (a + b)[j] == a[j];
    FindIsFirst(a + b, a[i], i);
    if a[i] == '\n' {
      assert (a + b)[i] == '\n';
      FindIsFirst(a + b, '\r', -1);
    }
  }

  /** However such a stream is cut into chunks, the same pieces and residue come out. */
  lemma {:induction false} ChunksDoNotMatter(chunks: seq<string>)
    requires ReturnsFirst(Concat(chunks))
    ensures Fed(chunks) == SplitOf(Concat(chunks))
  {
    if chunks != [] {
      var front, chunk := chunks[..|chunks| - 1], chunks[|chunks| - 1];
      var whole := Concat(front);
      assert forall i | 0 <= i < |whole| :: whole[i] == Concat(chunks)[i];
      ChunksDoNotMatter(front);
      SplitInTwo(whole, chunk);
    }
  }

  // ---- streams that mix the separators the other way round ----

  function Count(s: string, c: char): nat {
    if s == "" then 0 else Count(s[..|s| - 1], c) + if s[|s| - 1] == c then 1 else 0
  }

  lemma {:induction false} CountJoin(a: string, b: string, c: char)
    ensures Count(a + b, c) == Count(a, c) + Count(b, c)
  {
    if b == "" {
      assert a + b == a;
    } else {
      assert (a + b)[..|a + b| - 1] == a + b[..|b| - 1];
      CountJoin(a, b[..|b| - 1], c);
    }
  }

  lemma {:induction false} CountOfAbsent(s: string, c: char)
    ensures Count(s, c) == 0 <==> c !in s
  {
    if s != "" {
      CountOfAbsent(s[..|s| - 1], c);
      assert s == s[..|s| - 1] + [s[|s| - 1]];
    }
  }

  /** What is left once the last carriage return is taken out. */
  function AfterReturns(s: string): string {
    if s == "" then ""
    else if s[|s| - 1] == '\r' then ""
    else AfterReturns(s[..|s| - 1]) + [s[|s| - 1]]
  }

  lemma {:induction false} AfterReturnsOfJoin(a: string, b: string)
    ensures AfterReturns(a + b) == if '\r' in b then AfterReturns(b) else AfterReturns(a) + b
  {
    if b == "" {
      assert a + b == a;
    } else {
      assert (a + b)[..|a + b| - 1] == a + b[..|b| - 1];
      assert b == b[..|b| - 1] + [b[|b| - 1]];
      AfterReturnsOfJoin(a, b[..|b| - 1]);
    }
  }

  lemma {:induction false} WithoutReturns(s: string)
    requires '\r' !in s
    ensures AfterReturns(s) == s
  {
    if s != "" {
      WithoutReturns(s[..|s| - 1]);
    }
  }

  lemma CountOfLine(s: string, i: nat, c: char)
    requires i < |s| && s[i] == c && forall j | 0 <= j < i :: s[j] != c
    ensures Count(s, c) == 1 + Count(s[i + 1..], c)
  {
    assert s == s[..i + 1] + s[i + 1..];
    assert s[..i + 1][..i] == s[..i];
    CountJoin(s[..i + 1], s[i + 1..], c);
    CountOfAbsent(s[..i], c);
  }

  /** One piece for each carriage return, and one for each line feed after the last of them. */
  lemma {:induction false} PieceCount(s: string)
    ensures |SplitOf(s).pieces| == Count(s, '\r') + Count(AfterReturns(s), '\n')
    decreases |s|
  {
    hide Count, AfterReturns, Find;
    var i, r, n := FirstBreak(s), Find(s, '\r'), Find(s, '\n');
    FindIsFirst(s, '\r', r);
    FindIsFirst(s, '\n', n);
    if i < 0 {
      CountOfAbsent(s, '\r');
      CountOfAbsent(s, '\n');
      WithoutReturns(s);
    } else {
      var rest := s[i + 1..];
      PieceCount(rest);
      CountOfLine(s, i, s[i]);
      AfterReturnsOfRest(s, i);
      if r < 0 {
        CountOfAbsent(s, '\r');
        CountOfAbsent(rest, '\r');
      }
    }
  }

  lemma AfterReturnsOfRest(s: string, i: nat)
    requires i < |s|
    ensures s[i] == '\r' ==> AfterReturns(s) == AfterReturns(s[i + 1..])
    ensures '\r' !in s ==> AfterReturns(s) == s && AfterReturns(s[i + 1..]) == s[i + 1..]
  {
    var head, rest := s[..i + 1], s[i + 1..];
    assert s == head + rest;
    AfterReturnsOfJoin(head, rest);
    if '\r' !in rest { WithoutReturns(rest); }
    if '\r' !in s { WithoutReturns(s); }
    if s[i] == '\r' {
      assert AfterReturns(head) == "";
      assert "" + rest == rest;
    }
  }

  lemma EndsInSeparator(s: string)
    requires s != "" && IsSeparator(s[|s| - 1])
    ensures SplitOf(s).residue == ""
  {
    NothingIsLost(s);
    BreakIsSeparator(SplitOf(s).residue);
    LastOfJoin(Glued(SplitOf(s).pieces), SplitOf(s).residue);
  }

  lemma LastOfJoin(a: string, b: string)
    ensures b != "" ==> (a + b)[|a + b| - 1] == b[|b| - 1]
  {
  }

  lemma OneMoreChunk(chunks: seq<string>, chunk: string)
    ensures Concat(chunks + [chunk]) == Concat(chunks) + chunk
    ensures var s := SplitOf(Fed(chunks).residue + chunk);
      Fed(chunks + [chunk]) == Split(Fed(chunks).pieces + s.pieces, s.residue)
  {
    assert (chunks + [chunk])[..|chunks|] == chunks;
  }

  lemma TwoChunks(a: string, b: string)
    requires SplitOf(a).residue == ""
    ensures Concat([a, b]) == a + b
    ensures Fed([a, b]).pieces == SplitOf(a).pieces + SplitOf(b).pieces
  {
    OneMoreChunk([], a);
    OneMoreChunk([a], b);
    assert [] + [a] == [a] && [a] + [b] == [a, b];
    assert "" + a == a && "" + b == b;
    assert [] + SplitOf(a).pieces == SplitOf(a).pieces;
  }

  lemma FeedsBeforeReturnsCount(a: string, b: string)
    requires a != "" && a[|a| - 1] == '\n' && '\r' in b
    ensures |SplitOf(a).pieces| + |SplitOf(b).pieces| > |SplitOf(a + b).pieces|
  {
    PieceCount(a);
    PieceCount(b);
    PieceCount(a + b);
    CountJoin(a, b, '\r');
    AfterReturnsOfJoin(a, b);
    LastFeedCounts(AfterReturns(a[..|a| - 1]));
  }

  lemma LastFeedCounts(s: string)
    ensures Count(s + ['\n'], '\n') >= 1
  {
    assert (s + ['\n'])[|s|] == '\n';
  }

  /** A line feed before a carriage return: cutting after the line feed gives more pieces. */
  lemma CutAfterFeed(s: string, i: nat, j: nat)
    requires i < j < |s| && s[i] == '\n' && s[j] == '\r'
    ensures Concat([s[..i + 1], s[i + 1..]]) == s
    ensures |Fed([s[..i + 1], s[i + 1..]]).pieces| > |SplitOf(s).pieces|
  {
    var a, b := s[..i + 1], s[i + 1..];
    assert a + b == s && b[j - i - 1] == '\r';
    EndsInSeparator(a);
    TwoChunks(a, b);
    FeedsBeforeReturnsCount(a, b);
  }

  ghost predicate ChunkingIsInvisible(s: string) {
    forall chunks | Concat(chunks) == s :: Fed(chunks) == SplitOf(s)
  }

  /** The exact streams on which chunking cannot be seen. */
  lemma ChunkingIsInvisibleIff(s: string)
    ensures ChunkingIsInvisible(s) <==> ReturnsFirst(s)
  {
    if ReturnsFirst(s) {
      forall chunks | Concat(chunks) == s ensures Fed(chunks) == SplitOf(s) {
        ChunksDoNotMatter(chunks);
      }
    } else {
      var i, j :| 0 <= i < j < |s| && s[i] == '\n' && s[j] == '\r';
      CutShows(s, [s[..i + 1], s[i + 1..]], i, j);
    }
  }

  lemma CutShows(s: string, chunks: seq<string>, i: nat, j: nat)
    requires i < j < |s| && s[i] == '\n' && s[j] == '\r'
    requires chunks == [s[..i + 1], s[i + 1..]]
    ensures !ChunkingIsInvisible(s)
  {
    CutAfterFeed(s, i, j);
    assert Concat(chunks) == s && Fed(chunks) != SplitOf(s);
  }
}
