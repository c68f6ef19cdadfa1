/** `DocumentChunker.chunk_text`: the stripped text is cut into windows
    that start at 0, `step`, `2*step`, ... (`step = chunk_size -
    chunk_overlap`); a window normally ends `chunk_size` characters after
    its start, but when that is inside the text its end moves to just
    after the last sentence separator found between `start +
    chunk_size // 2` and `end + 100`. Each non-blank stripped window
    becomes a chunk, numbered from 0 without gaps. */
module Chunking {
  import opened Common
  import opened Text
  import opened Records

  /** The separators tried, in this order; the first one that occurs
      decides the end. */
  const Separators: seq<string> := [". ", ".\n", "! ", "? ", "\n\n"]

  /** How far past `start + chunk_size` the separator search may look. */
  const Lookahead: nat := 100

  datatype DocumentChunker = DocumentChunker(chunkSize: int, chunkOverlap: int) {
    /** What `chunk_text` needs to terminate and to index the text only
        forwards: a positive size and a positive step. */
    predicate Valid() {
      0 < chunkSize && chunkOverlap < chunkSize
    }

    function Step(): int {
      chunkSize - chunkOverlap
    }

    /** `chunk_text(text, doc_id, source)`. */
    method ChunkText(text: string, docId: string, source: string, md5Hex: string -> string)
      returns (chunks: seq<Document>)
      requires Valid()
      ensures chunks == ChunkSpec(this, text, docId, source, md5Hex)
    {
      if IsBlank(text) {
        return [];
      }
      chunks := [];
      var t := Strip(text);
      var start: nat := 0;
      var chunkIndex: nat := 0;
      while start < |t|
        invariant chunkIndex == |chunks|
        invariant LoopInvariant(this, t, docId, source, md5Hex, chunks, start, chunkIndex)
        decreases |t| - start
      {
        var end := BreakPoint(t, start);
        var chunkText := Strip(Slice(t, start, end));
        assert WindowAt(this, t, start) == Window(end, chunkText);
        // `start + chunk_size - chunk_overlap`
        var next: nat := start + Step();
        if chunkText != [] {
          EmitKeepsInvariant(this, t, docId, source, md5Hex, chunks, start, chunkIndex, end, chunkText);
          chunks := chunks + [MakeChunk(docId, source, md5Hex, chunkIndex, start, end, chunkText)];
          chunkIndex := chunkIndex + 1;
        } else {
          SkipKeepsInvariant(this, t, docId, source, md5Hex, chunks, start, chunkIndex);
        }
        start := next;
        if start >= |t| {
          break;
        }
      }
    }

    /** The end of the window at `start`: `start + chunk_size`, moved to
        just after the last occurrence of the first separator found in
        `[start + chunk_size // 2, start + chunk_size + 100)` when
        `start + chunk_size` is inside the text. */
    method BreakPoint(t: string, start: nat) returns (end: int)
      requires Valid()
      ensures end == WindowEnd(this, t, start)
    {
      end := start + chunkSize;
      if end < |t| {
        var found := FindSeparatorEnd(t, start + chunkSize / 2, end + Lookahead);
        if found.Some? {
          end := found.value;
        }
      }
    }
  }

  /** The `for sep in separators` loop: the first separator that occurs in
      `[lo, hi)` decides, and the end is just after its last occurrence
      there. */
  method FindSeparatorEnd(t: string, lo: nat, hi: nat) returns (found: Option<int>)
    ensures AllSeparatorsHaveLengthTwo(Separators)
    ensures found == SeparatorEnd(t, lo, hi, Separators)
  {
    SeparatorsHaveLengthTwo();
    found := None;
    var i := 0;
    while i < |Separators|
      invariant 0 <= i <= |Separators|
      invariant SeparatorEnd(t, lo, hi, Separators) == SeparatorEnd(t, lo, hi, Separators[i..])
    {
      var sep := Separators[i];
      SeparatorEndStep(t, lo, hi, Separators, i);
      var lastSep := RFind(t, sep, lo, hi);
      if lastSep != -1 {
        return Some(lastSep + |sep|);
      }
      i := i + 1;
    }
    assert Separators[i..] == [];
  }

  /** The chunker `IngestionWorker` builds when none is configured. */
  const DefaultChunker := DocumentChunker(1000, 200)

  /** The string whose MD5 digest is a chunk's id: `f"{doc_id}_chunk_{i}"`. */
  function ChunkKey(docId: string, index: nat): string {
    docId + "_chunk_" + NatToString(index)
  }

  /** `f"{source} - Part {chunk_index + 1}"`. */
  function ChunkTitle(source: string, index: nat): string {
    source + " - Part " + NatToString(index + 1)
  }

  function MakeChunk(docId: string, source: string, md5Hex: string -> string,
                     index: nat, start: nat, end: int, content: string): Document
  {
    Document(
      md5Hex(ChunkKey(docId, index)),
      content,
      Some(ChunkTitle(source, index)),
      Some(source),
      Some(ChunkMetadata(docId, index, start, end, |content|)),
      None)
  }

  predicate AllSeparatorsHaveLengthTwo(seps: seq<string>) {
    forall i :: 0 <= i < |seps| ==> |seps[i]| == 2
  }

  lemma SeparatorsHaveLengthTwo()
    ensures AllSeparatorsHaveLengthTwo(Separators)
  {
  }

  /** The end the separator search yields: just after the last occurrence,
      in `[lo, hi)`, of the first separator of `seps` that occurs there
      at all, or `None` when none does. */
  function SeparatorEnd(t: string, lo: nat, hi: nat, seps: seq<string>): (r: Option<int>)
    requires AllSeparatorsHaveLengthTwo(seps)
    ensures r.Some? ==> lo + 2 <= r.value <= Min(hi, |t|)
  {
    if seps == [] then None
    else
      var p := RFind(t, seps[0], lo, hi);
      if p != -1 then Some(p + |seps[0]|)
      else SeparatorEnd(t, lo, hi, seps[1..])
  }

  /** The search over `seps[i..]` tries `seps[i]` first. */
  lemma SeparatorEndStep(t: string, lo: nat, hi: nat, seps: seq<string>, i: nat)
    requires AllSeparatorsHaveLengthTwo(seps) && i < |seps|
    ensures SeparatorEnd(t, lo, hi, seps[i..])
            == if RFind(t, seps[i], lo, hi) != -1 then Some(RFind(t, seps[i], lo, hi) + |seps[i]|)
               else SeparatorEnd(t, lo, hi, seps[i + 1..])
  {
    assert seps[i..][0] == seps[i];
    assert seps[i..][1..] == seps[i + 1..];
  }

  /** The search finds a separator exactly when one of `seps` occurs
      inside `[lo, hi)`, and the end it returns is just after such an
      occurrence. */
  lemma {:induction false} SeparatorEndMeaning(t: string, lo: nat, hi: nat, seps: seq<string>)
    requires AllSeparatorsHaveLengthTwo(seps)
    ensures var r := SeparatorEnd(t, lo, hi, seps);
      && (r.Some? ==> exists i :: 0 <= i < |seps| && IsAt(t, seps[i], r.value - 2))
      && (r.None? <==> forall i, j :: 0 <= i < |seps| && lo <= j && j + 2 <= Min(hi, |t|) ==> !IsAt(t, seps[i], j))
    decreases |seps|
  {
    if seps != [] {
      var p := RFind(t, seps[0], lo, hi);
      if p == -1 {
        SeparatorEndMeaning(t, lo, hi, seps[1..]);
        assert forall i :: 1 <= i < |seps| ==> seps[i] == seps[1..][i - 1];
      } else {
        assert IsAt(t, seps[0], p);
      }
    }
  }

  /** The end of the window that starts at `start`. */
  function WindowEnd(c: DocumentChunker, t: string, start: nat): (end: int)
    requires c.Valid()
    ensures start < end <= start + c.chunkSize + Lookahead
    ensures start + c.chunkSize >= |t| ==> end == start + c.chunkSize
    ensures end != start + c.chunkSize ==> start + c.chunkSize / 2 + 2 <= end <= |t|
  {
    var e := start + c.chunkSize;
    if e < |t| then
      match SeparatorEnd(t, start + c.chunkSize / 2, e + Lookahead, Separators)
      case Some(p) => p
      case None => e
    else e
  }

  /** The window starts the loop visits from `start` on: `start`,
      `start + step`, ... while below `n`. */
  function WindowStarts(n: nat, step: nat, start: nat): seq<nat>
    requires step > 0
    decreases n - start
  {
    if start >= n then [] else [start] + WindowStarts(n, step, start + step)
  }

  /** One window: where it ends and its stripped text. */
  datatype Window = Window(end: int, content: string)

  function WindowAt(c: DocumentChunker, t: string, start: nat): Window
    requires c.Valid()
  {
    var e := WindowEnd(c, t, start);
    Window(e, Strip(Slice(t, start, e)))
  }

  /** The window of `t` at each start. */
  function Windows(c: DocumentChunker, t: string): nat -> Window
    requires c.Valid()
  {
    (s: nat) => WindowAt(c, t, s)
  }

  /** A non-blank window, which the loop turns into a chunk. */
  datatype Piece = Piece(start: nat, end: int, content: string)

  /** The non-blank windows from `start` on, in text order, for any window
      function `win` over a text of length `n`. */
  function Pieces(n: nat, step: nat, win: nat -> Window, start: nat): seq<Piece>
    requires step > 0
    decreases n - start
  {
    if start >= n then []
    else
      var w := win(start);
      if w.content == [] then Pieces(n, step, win, start + step)
      else [Piece(start, w.end, w.content)] + Pieces(n, step, win, start + step)
  }

  /** The chunk documents of a list of pieces, numbered from `index`. */
  function Chunks(docId: string, source: string, md5Hex: string -> string,
                  ps: seq<Piece>, index: nat): (r: seq<Document>)
    ensures |r| == |ps|
  {
    if ps == [] then []
    else [MakeChunk(docId, source, md5Hex, index, ps[0].start, ps[0].end, ps[0].content)]
         + Chunks(docId, source, md5Hex, ps[1..], index + 1)
  }

  /** Chunk `k` is piece `k`'s, numbered `index + k`. */
  lemma {:induction false} ChunksAt(docId: string, source: string, md5Hex: string -> string,
                                    ps: seq<Piece>, index: nat, k: nat)
    requires k < |ps|
    ensures Chunks(docId, source, md5Hex, ps, index)[k]
            == MakeChunk(docId, source, md5Hex, index + k, ps[k].start, ps[k].end, ps[k].content)
    decreases k
  {
    if k > 0 {
      ChunksAt(docId, source, md5Hex, ps[1..], index + 1, k - 1);
    }
  }

  /** The first piece becomes chunk number `index`, the others follow from
      `index + 1`. */
  lemma ChunksCons(docId: string, source: string, md5Hex: string -> string,
                   p: Piece, ps: seq<Piece>, index: nat)
    ensures Chunks(docId, source, md5Hex, [p] + ps, index)
            == [MakeChunk(docId, source, md5Hex, index, p.start, p.end, p.content)]
               + Chunks(docId, source, md5Hex, ps, index + 1)
  {
    assert ([p] + ps)[0] == p;
    assert ([p] + ps)[1..] == ps;
  }

  /** The chunks the loop emits from window `start` on, numbering the
      first non-blank one `index`. */
  function ChunksFrom(c: DocumentChunker, t: string, docId: string, source: string,
                      md5Hex: string -> string, start: nat, index: nat): seq<Document>
    requires c.Valid()
  {
    Chunks(docId, source, md5Hex, Pieces(|t|, c.Step(), Windows(c, t), start), index)
  }

  /** What `chunk_text` returns: nothing for blank text, else the chunks of
      the stripped text from window 0 and chunk number 0. */
  function ChunkSpec(c: DocumentChunker, text: string, docId: string, source: string,
                     md5Hex: string -> string): seq<Document>
    requires c.Valid()
  {
    if IsBlank(text) then [] else ChunksFrom(c, Strip(text), docId, source, md5Hex, 0, 0)
  }

  /** A window whose stripped text is empty contributes no chunk: the loop
      goes on at `start + step` with the same chunk number. */
  lemma ChunksFromSkip(c: DocumentChunker, t: string, docId: string, source: string,
                       md5Hex: string -> string, start: nat, index: nat)
    requires c.Valid() && start < |t|
    requires WindowAt(c, t, start).content == []
    ensures ChunksFrom(c, t, docId, source, md5Hex, start, index)
            == ChunksFrom(c, t, docId, source, md5Hex, start + c.Step(), index)
  {
    assert Windows(c, t)(start) == WindowAt(c, t, start);
  }

  /** A window whose stripped text is not empty contributes the next
      chunk, numbered `index`. */
  lemma ChunksFromEmit(c: DocumentChunker, t: string, docId: string, source: string,
                       md5Hex: string -> string, start: nat, index: nat,
                       end: int, content: string)
    requires c.Valid() && start < |t|
    requires WindowAt(c, t, start) == Window(end, content) && content != []
    ensures ChunksFrom(c, t, docId, source, md5Hex, start, index)
            == [MakeChunk(docId, source, md5Hex, index, start, end, content)]
               + ChunksFrom(c, t, docId, source, md5Hex, start + c.Step(), index + 1)
  {
    assert Windows(c, t)(start) == Window(end, content);
    var rest := Pieces(|t|, c.Step(), Windows(c, t), start + c.Step());
    assert Pieces(|t|, c.Step(), Windows(c, t), start) == [Piece(start, end, content)] + rest;
    ChunksCons(docId, source, md5Hex, Piece(start, end, content), rest, index);
  }

  /** The loop invariant of `chunk_text`: the chunks emitted so far,
      followed by those the loop will emit from window `start` with chunk
      number `index`, are the chunks of the whole text. */
  predicate LoopInvariant(c: DocumentChunker, t: string, docId: string, source: string,
                          md5Hex: string -> string, done: seq<Document>, start: nat, index: nat)
    requires c.Valid()
  {
    ChunksFrom(c, t, docId, source, md5Hex, 0, 0) == done + ChunksFrom(c, t, docId, source, md5Hex, start, index)
  }

  /** The loop invariant survives emitting the chunk of a non-blank
      window. */
  lemma EmitKeepsInvariant(c: DocumentChunker, t: string, docId: string, source: string,
                           md5Hex: string -> string, done: seq<Document>, start: nat, index: nat,
                           end: int, content: string)
    requires c.Valid() && start < |t|
    requires WindowAt(c, t, start) == Window(end, content) && content != []
    requires LoopInvariant(c, t, docId, source, md5Hex, done, start, index)
    ensures LoopInvariant(c, t, docId, source, md5Hex,
                          done + [MakeChunk(docId, source, md5Hex, index, start, end, content)],
                          start + c.Step(), index + 1)
  {
    ChunksFromEmit(c, t, docId, source, md5Hex, start, index, end, content);
    var x := MakeChunk(docId, source, md5Hex, index, start, end, content);
    var rest := ChunksFrom(c, t, docId, source, md5Hex, start + c.Step(), index + 1);
    assert done + ([x] + rest) == (done + [x]) + rest;
  }

  /** The loop invariant survives skipping a blank window. */
  lemma SkipKeepsInvariant(c: DocumentChunker, t: string, docId: string, source: string,
                           md5Hex: string -> string, done: seq<Document>, start: nat, index: nat)
    requires c.Valid() && start < |t|
    requires WindowAt(c, t, start).content == []
    requires LoopInvariant(c, t, docId, source, md5Hex, done, start, index)
    ensures LoopInvariant(c, t, docId, source, md5Hex, done, start + c.Step(), index)
  {
    ChunksFromSkip(c, t, docId, source, md5Hex, start, index);
  }

  /** `p` is the piece of the non-blank window `win(p.start)`. */
  predicate PieceOf(n: nat, win: nat -> Window, p: Piece) {
    && p.start < n
    && win(p.start).content != []
    && p.end == win(p.start).end
    && p.content == win(p.start).content
  }

  lemma {:induction false} WindowStartsStep(n: nat, step: nat, start: nat, s: nat)
    requires step > 0
    requires start < n
    requires s in WindowStarts(n, step, start + step)
    ensures s in WindowStarts(n, step, start)
  {
    assert WindowStarts(n, step, start) == [start] + WindowStarts(n, step, start + step);
  }

  /** Every piece of `ps` is the piece of its own window, which is one of
      the window starts from `start` on. */
  predicate PiecesFrom(ps: seq<Piece>, n: nat, step: nat, win: nat -> Window, start: nat)
    requires step > 0
  {
    forall k :: 0 <= k < |ps| ==>
      PieceOf(n, win, ps[k]) && ps[k].start in WindowStarts(n, step, start) && ps[k].start >= start
  }

  /** The pieces of `ps` come in strictly increasing order of start. */
  predicate PiecesIncrease(ps: seq<Piece>) {
    forall i, j :: 0 <= i < j < |ps| ==> ps[i].start < ps[j].start
  }

  /** The piece, if any, that window `start` contributes. */
  function HeadPiece(win: nat -> Window, start: nat): (h: seq<Piece>)
    ensures |h| <= 1
    ensures h != [] <==> win(start).content != []
  {
    var w := win(start);
    if w.content == [] then [] else [Piece(start, w.end, w.content)]
  }

  /** The pieces from `start` are the first window's piece, if any,
      followed by the pieces from the next start on. */
  lemma PiecesSplit(n: nat, step: nat, win: nat -> Window, start: nat)
    requires step > 0 && start < n
    ensures Pieces(n, step, win, start) == HeadPiece(win, start) + Pieces(n, step, win, start + step)
  {
  }

  /** Putting the first window's piece in front of pieces from the later
      starts keeps every piece its window's and the starts increasing. */
  lemma ConsPieces(head: seq<Piece>, rest: seq<Piece>, n: nat, step: nat, win: nat -> Window, start: nat)
    requires step > 0 && start < n
    requires head == HeadPiece(win, start)
    requires PiecesFrom(rest, n, step, win, start + step) && PiecesIncrease(rest)
    ensures PiecesFrom(head + rest, n, step, win, start)
    ensures PiecesIncrease(head + rest)
  {
    assert WindowStarts(n, step, start) == [start] + WindowStarts(n, step, start + step);
    var r := head + rest;
    forall k | 0 <= k < |r|
      ensures PieceOf(n, win, r[k]) && r[k].start in WindowStarts(n, step, start) && r[k].start >= start
    {
      if k >= |head| {
        assert r[k] == rest[k - |head|];
      }
    }
    forall i, j | 0 <= i < j < |r|
      ensures r[i].start < r[j].start
    {
      assert r[j] == rest[j - |head|];
      if i >= |head| {
        assert r[i] == rest[i - |head|];
      }
    }
  }

  /** Every piece is the piece of one of the window starts from `start`
      on, and the pieces come in text order. */
  lemma {:induction false} PiecesShape(n: nat, step: nat, win: nat -> Window, start: nat)
    requires step > 0
    ensures PiecesFrom(Pieces(n, step, win, start), n, step, win, start)
    ensures PiecesIncrease(Pieces(n, step, win, start))
    decreases n - start
  {
    if start < n {
      PiecesSplit(n, step, win, start);
      PiecesShape(n, step, win, start + step);
      ConsPieces(HeadPiece(win, start), Pieces(n, step, win, start + step), n, step, win, start);
    }
  }

  /** Chunk `d` is the one the loop emits as number `index` from the
      stripped text `t`: its id and title are functions of the document
      id, the source and `index` alone, and its content is its own
      stripped window, never empty. */
  predicate WellFormedChunk(c: DocumentChunker, t: string, docId: string, source: string,
                            md5Hex: string -> string, d: Document, index: nat)
    requires c.Valid()
  {
    && d.metadata.Some?
    && var m := d.metadata.value;
    && m.docId == docId
    && m.chunkIndex == index
    && d.id == md5Hex(ChunkKey(docId, index))
    && d.title == Some(ChunkTitle(source, index))
    && d.source == Some(source)
    && d.contentVector.None?
    && m.charStart < |t|
    && m.charEnd == WindowEnd(c, t, m.charStart)
    && d.content == Strip(Slice(t, m.charStart, m.charEnd))
    && d.content != []
    && m.chunkSize == |d.content|
  }

  /** The chunk documents of pieces of `t`'s windows are well formed. */
  lemma PieceChunkIsWellFormed(c: DocumentChunker, t: string, docId: string, source: string,
                               md5Hex: string -> string, p: Piece, index: nat)
    requires c.Valid()
    requires PieceOf(|t|, Windows(c, t), p)
    ensures WellFormedChunk(c, t, docId, source, md5Hex,
                            MakeChunk(docId, source, md5Hex, index, p.start, p.end, p.content), index)
  {
    assert Windows(c, t)(p.start) == WindowAt(c, t, p.start);
  }

  /** The chunk list `r` of the stripped text `t`, stated chunk by chunk:
      chunk `k` is number `k`, carries the id derived from `(doc_id, k)`,
      the title "`source` - Part `k+1`" and its own stripped window, which
      starts at one of the loop's window starts; chunks come in text
      order. */
  predicate ChunkListShape(c: DocumentChunker, t: string, docId: string, source: string,
                           md5Hex: string -> string, r: seq<Document>)
    requires c.Valid()
  {
    && (forall k :: 0 <= k < |r| ==>
          && WellFormedChunk(c, t, docId, source, md5Hex, r[k], k)
          && r[k].metadata.value.charStart in WindowStarts(|t|, c.Step(), 0))
    && (forall i, j :: 0 <= i < j < |r| ==>
          r[i].metadata.Some? && r[j].metadata.Some? &&
          r[i].metadata.value.charStart < r[j].metadata.value.charStart)
  }

  /** The chunks of the pieces of `t`'s windows, numbered from 0, have
      that shape. */
  lemma PieceChunksShape(c: DocumentChunker, t: string, docId: string, source: string,
                         md5Hex: string -> string, ps: seq<Piece>)
    requires c.Valid()
    requires PiecesFrom(ps, |t|, c.Step(), Windows(c, t), 0) && PiecesIncrease(ps)
    ensures ChunkListShape(c, t, docId, source, md5Hex, Chunks(docId, source, md5Hex, ps, 0))
  {
    var r := Chunks(docId, source, md5Hex, ps, 0);
    forall k | 0 <= k < |r|
      ensures && WellFormedChunk(c, t, docId, source, md5Hex, r[k], k)
              && r[k].metadata.value.charStart in WindowStarts(|t|, c.Step(), 0)
    {
      ChunksAt(docId, source, md5Hex, ps, 0, k);
      PieceChunkIsWellFormed(c, t, docId, source, md5Hex, ps[k], k);
    }
    forall i, j | 0 <= i < j < |r|
      ensures r[i].metadata.Some? && r[j].metadata.Some? &&
              r[i].metadata.value.charStart < r[j].metadata.value.charStart
    {
      ChunksAt(docId, source, md5Hex, ps, 0, i);
      ChunksAt(docId, source, md5Hex, ps, 0, j);
    }
  }

  /** `chunk_text`'s result has that shape (an empty list, for blank
      text, trivially so). */
  lemma ChunkSpecShape(c: DocumentChunker, text: string, docId: string, source: string,
                       md5Hex: string -> string)
    requires c.Valid()
    ensures ChunkListShape(c, Strip(text), docId, source, md5Hex, ChunkSpec(c, text, docId, source, md5Hex))
  {
    if !IsBlank(text) {
      var t := Strip(text);
      var ps := Pieces(|t|, c.Step(), Windows(c, t), 0);
      assert ChunkSpec(c, text, docId, source, md5Hex) == Chunks(docId, source, md5Hex, ps, 0);
      PiecesShape(|t|, c.Step(), Windows(c, t), 0);
      PieceChunksShape(c, t, docId, source, md5Hex, ps);
    }
  }

  /** The converse: every window start whose stripped window is not
      blank yields a chunk starting there, ending where that window ends
      and holding its stripped text. */
  lemma ChunkSpecIncludesEveryWindow(c: DocumentChunker, text: string, docId: string, source: string,
                                     md5Hex: string -> string, s: nat)
    requires c.Valid()
    requires s in WindowStarts(|Strip(text)|, c.Step(), 0)
    requires WindowAt(c, Strip(text), s).content != []
    ensures var r := ChunkSpec(c, text, docId, source, md5Hex);
      exists k :: 0 <= k < |r| && r[k].metadata.Some?
                  && r[k].metadata.value.charStart == s
                  && r[k].metadata.value.charEnd == WindowEnd(c, Strip(text), s)
                  && r[k].content == WindowAt(c, Strip(text), s).content
  {
    var t := Strip(text);
    StripFacts(text);
    var ps := Pieces(|t|, c.Step(), Windows(c, t), 0);
    var r := Chunks(docId, source, md5Hex, ps, 0);
    assert ChunkSpec(c, text, docId, source, md5Hex) == r;
    assert Windows(c, t)(s) == WindowAt(c, t, s);
    PiecesInclude(|t|, c.Step(), Windows(c, t), 0, s);
    PiecesShape(|t|, c.Step(), Windows(c, t), 0);
    var k :| 0 <= k < |ps| && ps[k].start == s;
    assert PieceOf(|t|, Windows(c, t), ps[k]);
    ChunksAt(docId, source, md5Hex, ps, 0, k);
    assert r[k].metadata.value.charStart == s;
  }

  /** Chunk ids depend only on the document id and the chunk number: two
      runs with the same `doc_id`, on the same text or not, give the same
      id to every chunk number both produce. */
  lemma SameDocIdSameIds(c: DocumentChunker, text1: string, text2: string, docId: string,
                         source1: string, source2: string, md5Hex: string -> string)
    requires c.Valid()
    ensures var r1 := ChunkSpec(c, text1, docId, source1, md5Hex);
            var r2 := ChunkSpec(c, text2, docId, source2, md5Hex);
      forall k :: 0 <= k < |r1| && k < |r2| ==> r1[k].id == r2[k].id
  {
    ChunkSpecShape(c, text1, docId, source1, md5Hex);
    ChunkSpecShape(c, text2, docId, source2, md5Hex);
  }

  /** The loop's window starts from `start`: none when `start` is past the
      text; otherwise `start` first, each one `step` after the one before,
      the last one inside the text and the one after it past the end. */
  lemma {:induction false} WindowStartsShape(n: nat, step: nat, start: nat)
    requires step > 0
    ensures var w := WindowStarts(n, step, start);
      && (w == [] <==> start >= n)
      && (w != [] ==> w[0] == start && w[|w| - 1] < n <= w[|w| - 1] + step)
      && (forall j :: 0 <= j < |w| - 1 ==> w[j + 1] == w[j] + step)
    decreases n - start
  {
    if start < n {
      var rest := WindowStarts(n, step, start + step);
      WindowStartsShape(n, step, start + step);
      assert WindowStarts(n, step, start) == [start] + rest;
    }
  }

  /** The example of a 2500-character text with size 1000 and overlap
      200: the windows start at 0, 800, 1600 and 2400. */
  lemma ExampleWindowStarts()
    ensures WindowStarts(2500, 800, 0) == [0, 800, 1600, 2400]
  {
    assert WindowStarts(2500, 800, 3200) == [];
    assert WindowStarts(2500, 800, 2400) == [2400];
    assert WindowStarts(2500, 800, 1600) == [1600, 2400];
    assert WindowStarts(2500, 800, 800) == [800, 1600, 2400];
  }

  /** As written, a window can end before the next one starts, and the
      text between them is in no chunk: in "abcde. fghij" with size 10
      and overlap 2 the first window stops after ". " at 7 while the
      second starts at 8, so the "f" at 7 lies in no chunk's window. */
  lemma GapExample(docId: string, source: string, md5Hex: string -> string)
    ensures var c := DocumentChunker(10, 2);
            var t := "abcde. fghij";
            var r := ChunkSpec(c, t, docId, source, md5Hex);
      && c.Valid() && t[7] == 'f'
      && WindowEnd(c, t, 0) == 7 < 8 == c.Step()
      && forall k :: 0 <= k < |r| ==>
           r[k].metadata.Some? && !(r[k].metadata.value.charStart <= 7 < r[k].metadata.value.charEnd)
  {
    var c := DocumentChunker(10, 2);
    var t := "abcde. fghij";
    GapTextIsStripped();
    GapFirstWindowEnd();
    assert WindowStarts(12, 8, 16) == [];
    assert WindowStarts(12, 8, 0) == [0, 8];
    ChunkSpecShape(c, t, docId, source, md5Hex);
  }

  lemma GapTextIsStripped()
    ensures !IsBlank("abcde. fghij") && Strip("abcde. fghij") == "abcde. fghij"
  {
    var t := "abcde. fghij";
    assert !IsSpace(t[0]);
    assert SkipSpaces(t, 0) == 0;
    assert SkipSpacesBack(t, 12) == 12;
    assert t[0..12] == t;
  }

  lemma GapFirstWindowEnd()
    ensures WindowEnd(DocumentChunker(10, 2), "abcde. fghij", 0) == 7
  {
    var t := "abcde. fghij";
    assert IsAt(t, ". ", 5);
    assert !IsAt(t, ". ", 6) by { assert t[6..8][0] == ' '; }
    assert !IsAt(t, ". ", 7) by { assert t[7..9][0] == 'f'; }
    assert !IsAt(t, ". ", 8) by { assert t[8..10][0] == 'g'; }
    assert !IsAt(t, ". ", 9) by { assert t[9..11][0] == 'h'; }
    assert !IsAt(t, ". ", 10) by { assert t[10..12][0] == 'i'; }
    var p := RFind(t, ". ", 5, 110);
    assert p == 5;
    SeparatorsHaveLengthTwo();
    assert SeparatorEnd(t, 5, 110, Separators) == Some(7);
  }

  /** The corrected window end: the separator search never starts before
      the next window does, so a window ends at or after the start of the
      next one. */
  function CorrectedWindowEnd(c: DocumentChunker, t: string, start: nat): (end: int)
    requires c.Valid()
  {
    var e := start + c.chunkSize;
    if e < |t| then
      SeparatorsHaveLengthTwo();
      match SeparatorEnd(t, start + Max(c.chunkSize / 2, c.Step()), e + Lookahead, Separators)
      case Some(p) => p
      case None => e
    else e
  }

  function CorrectedWindows(c: DocumentChunker, t: string): nat -> Window
    requires c.Valid()
  {
    (s: nat) => var e := CorrectedWindowEnd(c, t, s); Window(e, Strip(Slice(t, s, e)))
  }

  /** `chunk_text` with the corrected window end. */
  function CorrectedChunkSpec(c: DocumentChunker, text: string, docId: string, source: string,
                              md5Hex: string -> string): seq<Document>
    requires c.Valid()
  {
    if IsBlank(text) then []
    else
      var t := Strip(text);
      Chunks(docId, source, md5Hex, Pieces(|t|, c.Step(), CorrectedWindows(c, t), 0), 0)
  }

  /** With a non-negative overlap every corrected window reaches the start
      of the next one. */
  lemma CorrectedWindowReachesNext(c: DocumentChunker, t: string, start: nat)
    requires c.Valid() && 0 <= c.chunkOverlap
    ensures CorrectedWindowEnd(c, t, start) >= start + c.Step()
  {
  }

  /** With the corrected end and a non-negative overlap, every character
      of the stripped text lies inside the window of some window start. */
  lemma {:induction false} CorrectedWindowsCover(c: DocumentChunker, t: string, start: nat, p: nat)
    requires c.Valid() && 0 <= c.chunkOverlap
    requires start <= p < |t|
    ensures exists s :: s in WindowStarts(|t|, c.Step(), start) && s <= p < CorrectedWindowEnd(c, t, s)
    decreases |t| - start
  {
    assert WindowStarts(|t|, c.Step(), start) == [start] + WindowStarts(|t|, c.Step(), start + c.Step());
    CorrectedWindowReachesNext(c, t, start);
    if p >= start + c.Step() {
      CorrectedWindowsCover(c, t, start + c.Step(), p);
      var s :| s in WindowStarts(|t|, c.Step(), start + c.Step()) && s <= p < CorrectedWindowEnd(c, t, s);
      assert s in WindowStarts(|t|, c.Step(), start);
    } else {
      assert start in WindowStarts(|t|, c.Step(), start);
    }
  }

  /** Some piece of `ps` starts at `s`. */
  predicate HasPieceAt(ps: seq<Piece>, s: nat) {
    exists k :: 0 <= k < |ps| && ps[k].start == s
  }

  /** Every window start whose window is not blank yields a piece. */
  lemma {:induction false} PiecesInclude(n: nat, step: nat, win: nat -> Window, start: nat, s: nat)
    requires step > 0
    requires s in WindowStarts(n, step, start) && win(s).content != []
    ensures HasPieceAt(Pieces(n, step, win, start), s)
    decreases n - start
  {
    var next := start + step;
    assert WindowStarts(n, step, start) == [start] + WindowStarts(n, step, next);
    var head := HeadPiece(win, start);
    var rest := Pieces(n, step, win, next);
    var r: seq<Piece> := head + rest;
    PiecesSplit(n, step, win, start);
    if s == start {
      assert r[0].start == s;
    } else {
      PiecesInclude(n, step, win, next, s);
      var k :| 0 <= k < |rest| && rest[k].start == s;
      assert r[|head| + k] == rest[k];
    }
  }

  /** With the corrected window end and a non-negative overlap, every
      non-whitespace character of the stripped text lies inside the window
      of one of the chunks. */
  lemma CorrectedChunksCover(c: DocumentChunker, text: string, docId: string, source: string,
                             md5Hex: string -> string, p: nat)
    requires c.Valid() && 0 <= c.chunkOverlap
    requires p < |Strip(text)| && !IsSpace(Strip(text)[p])
    ensures var r := CorrectedChunkSpec(c, text, docId, source, md5Hex);
      exists k :: 0 <= k < |r| && r[k].metadata.Some?
                  && r[k].metadata.value.charStart <= p < r[k].metadata.value.charEnd
  {
    var t := Strip(text);
    CorrectedWindowsCover(c, t, 0, p);
    var s :| s in WindowStarts(|t|, c.Step(), 0) && s <= p < CorrectedWindowEnd(c, t, s);
    CorrectedWindowNotBlank(c, t, s, p);
    StripFacts(text);
    var ps := Pieces(|t|, c.Step(), CorrectedWindows(c, t), 0);
    var r := Chunks(docId, source, md5Hex, ps, 0);
    assert CorrectedChunkSpec(c, text, docId, source, md5Hex) == r;
    PiecesInclude(|t|, c.Step(), CorrectedWindows(c, t), 0, s);
    PiecesShape(|t|, c.Step(), CorrectedWindows(c, t), 0);
    var k :| 0 <= k < |ps| && ps[k].start == s;
    assert PieceOf(|t|, CorrectedWindows(c, t), ps[k]);
    ChunksAt(docId, source, md5Hex, ps, 0, k);
    assert CorrectedWindows(c, t)(s).end == CorrectedWindowEnd(c, t, s);
    assert r[k].metadata.value.charStart == s && r[k].metadata.value.charEnd == CorrectedWindowEnd(c, t, s);
  }

  /** A corrected window that holds a non-whitespace character is not
      blank. */
  lemma CorrectedWindowNotBlank(c: DocumentChunker, t: string, s: nat, p: nat)
    requires c.Valid()
    requires s <= p < CorrectedWindowEnd(c, t, s) && p < |t| && !IsSpace(t[p])
    ensures CorrectedWindows(c, t)(s).content != []
  {
    var e := CorrectedWindowEnd(c, t, s);
    assert CorrectedWindows(c, t)(s) == Window(e, Strip(Slice(t, s, e)));
    assert Slice(t, s, e)[p - s] == t[p];
    StripFacts(Slice(t, s, e));
  }

  /** The value of `start` after `k` passes through the body of
      `chunk_text`'s loop, for any size and overlap: each pass adds
      `chunk_size - chunk_overlap`. */
  function StartAfter(c: DocumentChunker, k: nat): int {
    if k == 0 then 0 else StartAfter(c, k - 1) + c.chunkSize - c.chunkOverlap
  }

  /** For a valid chunker those are exactly the window starts the loop
      visits. */
  lemma {:induction false} StartsAreStartAfter(c: DocumentChunker, n: nat, k: nat)
    requires c.Valid()
    requires k < |WindowStarts(n, c.Step(), 0)|
    ensures WindowStarts(n, c.Step(), 0)[k] == StartAfter(c, k)
  {
    WindowStartsShape(n, c.Step(), 0);
    if k > 0 {
      StartsAreStartAfter(c, n, k - 1);
    }
  }

  /** Without a positive step `start` never moves past 0, so after any
      number of passes, on a non-blank text, both the loop condition
      `start < len(text)` holds and the `start >= len(text)` break is not
      taken: `chunk_text` never returns. */
  lemma {:induction false} NoProgressWithoutPositiveStep(c: DocumentChunker, text: string, k: nat)
    requires c.chunkOverlap >= c.chunkSize
    requires !IsBlank(text)
    ensures StartAfter(c, k) <= 0 < |Strip(text)|
  {
    StripFacts(text);
    if k > 0 {
      NoProgressWithoutPositiveStep(c, text, k - 1);
    }
  }
}
