/** A chunk stream is folded into an answer for the cache; a cached answer is printed as a
    chunk stream. Strings are sequences of Unicode scalar values, as in the code, which cuts
    at runes. */
module Replay {
  import opened Provider
  import P = Pipeline

  // ---- Folding a stream: streamStats ----

  datatype Stats = Stats(
    id: string, created: int, model: string, content: string, finishReason: string, prompt: int, output: int)

  const EMPTY := Stats("", 0, "", "", "", 0, 0)

  function ObserveChoice(s: Stats, ch: StreamChoice): Stats {
    s.(content := s.content + ch.delta.content,
       finishReason := if ch.finishReason != "" then ch.finishReason else s.finishReason)
  }

  function ObserveChoices(s: Stats, choices: seq<StreamChoice>): Stats {
    if choices == [] then s
    else ObserveChoice(ObserveChoices(s, choices[..|choices| - 1]), choices[|choices| - 1])
  }

  function ObserveHeader(s: Stats, c: Chunk): Stats {
    s.(id := if c.id != "" then c.id else s.id,
       created := if c.created != 0 then c.created else s.created,
       model := if c.model != "" then c.model else s.model,
       prompt := if c.usage.Some? && c.usage.value.prompt > 0 then c.usage.value.prompt else s.prompt,
       output := if c.usage.Some? && c.usage.value.completion > 0 then c.usage.value.completion else s.output)
  }

  function Observed(s: Stats, c: Chunk): Stats {
    ObserveChoices(ObserveHeader(s, c), c.choices)
  }

  function ObserveAll(s: Stats, chunks: seq<Chunk>): Stats {
    if chunks == [] then s
    else Observed(ObserveAll(s, chunks[..|chunks| - 1]), chunks[|chunks| - 1])
  }

  /** The accumulator the handler updates in place. */
  class StreamStats {
    var stats: Stats

    constructor ()
      ensures stats == EMPTY
    {
      stats := EMPTY;
    }

    method Observe(c: Option<Chunk>)
      modifies this
      ensures stats == if c.Some? then Observed(old(stats), c.value) else old(stats)
    {
      if c.None? {
        return;
      }
      ObserveFields(c.value);
      var choices := c.value.choices;
      var i := 0;
      while i < |choices|
        invariant 0 <= i <= |choices|
        invariant stats == ObserveChoices(ObserveHeader(old(stats), c.value), choices[..i])
      {
        var ch := choices[i];
        assert choices[..i + 1][..i] == choices[..i];
        if ch.delta.content != "" {
          stats := stats.(content := stats.content + ch.delta.content);
        }
        if ch.finishReason != "" {
          stats := stats.(finishReason := ch.finishReason);
        }
        i := i + 1;
      }
      assert choices[..i] == choices;
    }

    method ObserveFields(chunk: Chunk)
      modifies this
      ensures stats == ObserveHeader(old(stats), chunk)
    {
      if chunk.id != "" {
        stats := stats.(id := chunk.id);
      }
      if chunk.created != 0 {
        stats := stats.(created := chunk.created);
      }
      if chunk.model != "" {
        stats := stats.(model := chunk.model);
      }
      if chunk.usage.Some? {
        if chunk.usage.value.prompt > 0 {
          stats := stats.(prompt := chunk.usage.value.prompt);
        }
        if chunk.usage.value.completion > 0 {
          stats := stats.(output := chunk.usage.value.completion);
        }
      }
    }
  }

  /** toCachedResponse; `now` is the clock. */
  function ToCached(s: Stats, reqModel: string, now: int): Response {
    Response(
      if s.id == "" then "chatcmpl-stream" else s.id,
      if s.created == 0 then now else s.created,
      if s.model == "" then reqModel else s.model,
      [Choice(0, s.content, s.finishReason)],
      if s.prompt > 0 || s.output > 0 then Some(Usage(s.prompt, s.output, s.prompt + s.output)) else None)
  }

  /** The gate in front of every cache write. */
  method ShouldCacheResponse(r: Option<Response>, promptTok: int) returns (ok: bool)
    ensures ok <==> r.Some? && Cacheable(r.value, promptTok)
  {
    if r.None? || promptTok <= 0 || |r.value.choices| == 0 {
      return false;
    }
    if r.value.choices[0].finishReason != "stop" {
      return false;
    }
    var i := 0;
    while i < |r.value.choices|
      invariant 0 <= i <= |r.value.choices|
      invariant forall j :: 0 <= j < i ==> r.value.choices[j].content == ""
    {
      if r.value.choices[i].content != "" {
        return true;
      }
      i := i + 1;
    }
    return false;
  }

  ghost predicate Cacheable(r: Response, promptTok: int) {
    && promptTok > 0
    && r.choices != [] && r.choices[0].finishReason == "stop"
    && exists j :: 0 <= j < |r.choices| && r.choices[j].content != ""
  }

  // ---- Printing an answer: replayCachedStream ----

  const REPLAY_CHUNK_RUNES := 32

  /** The content of the pieces after the first `offset` runes. */
  function Pieces(content: string): seq<string>
    decreases |content|
  {
    if content == "" then []
    else if |content| <= REPLAY_CHUNK_RUNES then [content]
    else [content[..REPLAY_CHUNK_RUNES]] + Pieces(content[REPLAY_CHUNK_RUNES..])
  }

  datatype Header = Header(id: string, created: int, model: string)

  function HeaderOf(r: Response, reqId: string, now: int): Header {
    Header(
      if r.id == "" then "chatcmpl-cache-" + reqId else r.id,
      if r.created == 0 then now else r.created,
      r.model)
  }

  function MakeChunk(h: Header, choices: seq<StreamChoice>, usage: Option<Usage>): Chunk {
    Chunk(h.id, h.created, h.model, choices, usage)
  }

  function RoleChoices(choices: seq<Choice>): seq<StreamChoice> {
    if choices == [] then []
    else RoleChoices(choices[..|choices| - 1]) + [StreamChoice(choices[|choices| - 1].index, Delta("assistant", ""), "")]
  }

  function FinishChoices(choices: seq<Choice>): seq<StreamChoice> {
    if choices == [] then []
    else
      var last := choices[|choices| - 1];
      FinishChoices(choices[..|choices| - 1])
      + [StreamChoice(last.index, Delta("", ""), FinishOf(last))]
  }

  function PieceChunks(h: Header, index: int, pieces: seq<string>): seq<Chunk> {
    if pieces == [] then []
    else
      PieceChunks(h, index, pieces[..|pieces| - 1])
      + [MakeChunk(h, [StreamChoice(index, Delta("", pieces[|pieces| - 1]), "")], None)]
  }

  function ContentChunks(h: Header, choices: seq<Choice>): seq<Chunk> {
    if choices == [] then []
    else
      ContentChunks(h, choices[..|choices| - 1])
      + PieceChunks(h, choices[|choices| - 1].index, Pieces(choices[|choices| - 1].content))
  }

  /** The replayed stream: openers, content, closers. */
  function Chunks(r: Response, reqId: string, now: int): seq<Chunk> {
    var h := HeaderOf(r, reqId, now);
    [MakeChunk(h, RoleChoices(r.choices), None)]
    + ContentChunks(h, r.choices)
    + [MakeChunk(h, FinishChoices(r.choices), r.usage)]
  }

  function AsFrames(chunks: seq<Chunk>): seq<P.Frame> {
    if chunks == [] then [] else AsFrames(chunks[..|chunks| - 1]) + [P.DataFrame(chunks[|chunks| - 1])]
  }

  lemma {:induction false} ObserveAllAppend(s: Stats, a: seq<Chunk>, b: seq<Chunk>)
    ensures ObserveAll(s, a + b) == ObserveAll(ObserveAll(s, a), b)
  {
    if b == [] {
      assert a + b == a;
    } else {
      assert (a + b)[..|a + b| - 1] == a + b[..|b| - 1];
      ObserveAllAppend(s, a, b[..|b| - 1]);
    }
  }

  // ---- The replay loops ----

  lemma {:induction false} AsFramesAppend(a: seq<Chunk>, b: seq<Chunk>)
    ensures AsFrames(a + b) == AsFrames(a) + AsFrames(b)
  {
    if b == [] {
      assert a + b == a;
    } else {
      assert (a + b)[..|a + b| - 1] == a + b[..|b| - 1];
      AsFramesAppend(a, b[..|b| - 1]);
    }
  }

  lemma {:induction false} PieceChunksCons(h: Header, index: int, p: string, pieces: seq<string>)
    ensures PieceChunks(h, index, [p] + pieces) ==
            [MakeChunk(h, [StreamChoice(index, Delta("", p), "")], None)] + PieceChunks(h, index, pieces)
  {
    if pieces == [] {
      assert [p] + pieces == [p] && [p][..0] == [];
    } else {
      assert ([p] + pieces)[..|pieces|] == [p] + pieces[..|pieces| - 1];
      PieceChunksCons(h, index, p, pieces[..|pieces| - 1]);
    }
  }

  /** The SSE connection: a write either reaches the client or fails, and a failed write ends the replay. */
  class SseWriter {
    var frames: seq<P.Frame>
    var failed: bool

    constructor ()
      ensures frames == [] && !failed
    {
      frames, failed := [], false;
    }

    method WriteChunk(c: Chunk) returns (ok: bool)
      requires !failed
      modifies this
      ensures failed == !ok
      ensures frames == if ok then old(frames) + AsFrames([c]) else old(frames)
    {
      assert [c][..0] == [];
      ok := *;
      failed := !ok;
      if ok {
        frames := frames + [P.DataFrame(c)];
      }
    }

    method WriteDone()
      requires !failed
      modifies this
      ensures frames == if failed then old(frames) else old(frames) + [P.DoneFrame]
    {
      failed := *;
      if !failed {
        frames := frames + [P.DoneFrame];
      }
    }
  }

  /** `frames` got as far into `before + AsFrames(chunks)` as the connection allowed. */
  predicate Wrote(before: seq<P.Frame>, chunks: seq<Chunk>, frames: seq<P.Frame>, failed: bool) {
    before <= frames <= before + AsFrames(chunks) && (!failed ==> frames == before + AsFrames(chunks))
  }

  lemma WroteThen(before: seq<P.Frame>, a: seq<Chunk>, b: seq<Chunk>, mid: seq<P.Frame>, frames: seq<P.Frame>, failed: bool)
    requires Wrote(before, a, mid, false) && Wrote(mid, b, frames, failed)
    ensures Wrote(before, a + b, frames, failed)
  {
    AsFramesAppend(a, b);
    assert before + (AsFrames(a) + AsFrames(b)) == mid + AsFrames(b);
  }

  lemma WroteCut(before: seq<P.Frame>, a: seq<Chunk>, b: seq<Chunk>, frames: seq<P.Frame>)
    requires Wrote(before, a, frames, true)
    ensures Wrote(before, a + b, frames, true)
  {
    AsFramesAppend(a, b);
    assert before + (AsFrames(a) + AsFrames(b)) == (before + AsFrames(a)) + AsFrames(b);
  }

  /** The inner loop: one choice's content in pieces of 32 runes. */
  method ReplayContent(w: SseWriter, h: Header, ch: Choice) returns (ok: bool)
    requires !w.failed
    modifies w
    ensures w.failed == !ok
    ensures Wrote(old(w.frames), PieceChunks(h, ch.index, Pieces(ch.content)), w.frames, w.failed)
  {
    hide PieceChunks, Pieces, AsFrames;
    var runes, offset := ch.content, 0;
    ghost var all, done := PieceChunks(h, ch.index, Pieces(runes)), [];
    assert runes[0..] == runes;
    NothingWritten(w.frames);
    while offset < |runes|
      invariant 0 <= offset <= |runes|
      invariant !w.failed && Wrote(old(w.frames), done, w.frames, false)
      invariant all == done + PieceChunks(h, ch.index, Pieces(runes[offset..]))
    {
      var end := if offset + REPLAY_CHUNK_RUNES > |runes| then |runes| else offset + REPLAY_CHUNK_RUNES;
      var chunk := MakeChunk(h, [StreamChoice(ch.index, Delta("", runes[offset..end]), "")], None);
      NextPiece(h, ch.index, runes, offset, end);
      ghost var before, rest := w.frames, PieceChunks(h, ch.index, Pieces(runes[end..]));
      assert all == done + [chunk] + rest;
      ok := w.WriteChunk(chunk);
      WroteThen(old(w.frames), done, [chunk], before, w.frames, w.failed);
      if !ok {
        WroteCut(old(w.frames), done + [chunk], rest, w.frames);
        return false;
      }
      done := done + [chunk];
      offset := end;
    }
    NoPieces(h, ch.index, runes[offset..]);
    assert done + [] == done;
    return true;
  }

  lemma NothingWritten(frames: seq<P.Frame>)
    ensures Wrote(frames, [], frames, false)
  {
  }

  lemma NoPieces(h: Header, index: int, rest: string)
    requires rest == ""
    ensures PieceChunks(h, index, Pieces(rest)) == []
  {
  }

  lemma NextPiece(h: Header, index: int, runes: string, offset: nat, end: nat)
    requires offset < |runes|
    requires end == if offset + REPLAY_CHUNK_RUNES > |runes| then |runes| else offset + REPLAY_CHUNK_RUNES
    ensures PieceChunks(h, index, Pieces(runes[offset..])) ==
            [MakeChunk(h, [StreamChoice(index, Delta("", runes[offset..end]), "")], None)]
            + PieceChunks(h, index, Pieces(runes[end..]))
  {
    var rest := runes[offset..];
    assert rest[..end - offset] == runes[offset..end] && rest[end - offset..] == runes[end..];
    if |rest| <= REPLAY_CHUNK_RUNES {
      assert rest == runes[offset..end] && runes[end..] == "" && Pieces("") == [];
      assert Pieces(rest) == [rest] + [];
    }
    assert Pieces(rest) == [runes[offset..end]] + Pieces(runes[end..]);
    PieceChunksCons(h, index, runes[offset..end], Pieces(runes[end..]));
  }

  /** The middle of the replay: all choices' content, choice after choice. */
  method ReplayContents(w: SseWriter, h: Header, choices: seq<Choice>) returns (ok: bool)
    requires !w.failed
    modifies w
    ensures w.failed == !ok
    ensures Wrote(old(w.frames), ContentChunks(h, choices), w.frames, w.failed)
  {
    hide PieceChunks, Pieces, AsFrames, Wrote;
    NothingWritten(w.frames);
    var i := 0;
    while i < |choices|
      invariant 0 <= i <= |choices|
      invariant !w.failed && Wrote(old(w.frames), ContentChunks(h, choices[..i]), w.frames, false)
    {
      ghost var before, done := w.frames, ContentChunks(h, choices[..i]);
      ghost var piece := PieceChunks(h, choices[i].index, Pieces(choices[i].content));
      ok := ReplayContent(w, h, choices[i]);
      WroteThen(old(w.frames), done, piece, before, w.frames, w.failed);
      assert choices[..i + 1][..i] == choices[..i];
      assert ContentChunks(h, choices[..i + 1]) == done + piece;
      i := i + 1;
      if !ok {
        ghost var rest := ContentRest(h, choices, i);
        WroteCut(old(w.frames), done + piece, rest, w.frames);
        return false;
      }
    }
    assert choices[..i] == choices;
    return true;
  }

  /** The whole replay: the frames of `Chunks`, then `[DONE]`, as far as the connection lasts. */
  method ReplayCachedStream(w: SseWriter, cached: Option<Response>, reqId: string, now: int)
    requires w.frames == [] && !w.failed
    modifies w
    ensures cached.None? ==> w.frames == []
    ensures cached.Some? ==>
              var all := AsFrames(Chunks(cached.value, reqId, now)) + [P.DoneFrame];
              w.frames <= all && (!w.failed ==> w.frames == all)
  {
    hide AsFrames, ContentChunks, RoleChoices, FinishChoices, Wrote, Chunks, HeaderOf;
    if cached.None? {
      return;
    }
    var r := cached.value;
    var h := HeaderOf(r, reqId, now);
    var open := MakeChunk(h, RoleChoices(r.choices), None);
    var close := MakeChunk(h, FinishChoices(r.choices), r.usage);
    ghost var content := ContentChunks(h, r.choices);
    ChunksParts(r, reqId, now);
    NothingWritten(w.frames);
    var ok := w.WriteChunk(open);
    WroteOne([], open, w.frames, w.failed);
    if !ok {
      WroteCut([], [open], content + [close], w.frames);
      assert [open] + (content + [close]) == [open] + content + [close];
      WroteAll([open] + content + [close], w.frames, w.failed);
      return;
    }
    ghost var mid := w.frames;
    ok := ReplayContents(w, h, r.choices);
    WroteThen([], [open], content, mid, w.frames, w.failed);
    if !ok {
      WroteCut([], [open] + content, [close], w.frames);
      WroteAll([open] + content + [close], w.frames, w.failed);
      return;
    }
    ghost var late := w.frames;
    ok := w.WriteChunk(close);
    WroteOne(late, close, w.frames, w.failed);
    WroteThen([], [open] + content, [close], late, w.frames, w.failed);
    WroteAll([open] + content + [close], w.frames, w.failed);
    if ok {
      w.WriteDone();
    }
  }

  lemma ChunksParts(r: Response, reqId: string, now: int)
    ensures var h := HeaderOf(r, reqId, now);
            Chunks(r, reqId, now) ==
            [MakeChunk(h, RoleChoices(r.choices), None)] + ContentChunks(h, r.choices)
            + [MakeChunk(h, FinishChoices(r.choices), r.usage)]
  {
  }

  lemma WroteOne(before: seq<P.Frame>, c: Chunk, frames: seq<P.Frame>, failed: bool)
    requires frames == if failed then before else before + AsFrames([c])
    ensures Wrote(before, [c], frames, failed)
  {
  }

  lemma WroteAll(chunks: seq<Chunk>, frames: seq<P.Frame>, failed: bool)
    requires Wrote([], chunks, frames, failed)
    ensures frames <= AsFrames(chunks) + [P.DoneFrame]
    ensures !failed ==> frames == AsFrames(chunks)
  {
    assert [] + AsFrames(chunks) == AsFrames(chunks);
  }

  lemma {:induction false} ContentRest(h: Header, choices: seq<Choice>, i: nat) returns (rest: seq<Chunk>)
    requires i <= |choices|
    ensures ContentChunks(h, choices) == ContentChunks(h, choices[..i]) + rest
    decreases |choices|
  {
    if i == |choices| {
      rest := [];
      assert choices[..i] == choices;
    } else {
      var init, last := choices[..|choices| - 1], choices[|choices| - 1];
      rest := ContentRest(h, init, i);
      assert init[..i] == choices[..i];
      rest := rest + PieceChunks(h, last.index, Pieces(last.content));
    }
  }

  // ---- The round trip ----

  function Concat(pieces: seq<string>): string {
    if pieces == [] then "" else Concat(pieces[..|pieces| - 1]) + pieces[|pieces| - 1]
  }

  lemma {:induction false} ConcatCons(p: string, pieces: seq<string>)
    ensures Concat([p] + pieces) == p + Concat(pieces)
  {
    if pieces == [] {
      assert [p] + pieces == [p] && [p][..0] == [];
      assert Concat([p]) == Concat([]) + p;
    } else {
      assert ([p] + pieces)[..|pieces|] == [p] + pieces[..|pieces| - 1];
      assert Concat([p] + pieces) == Concat([p] + pieces[..|pieces| - 1]) + pieces[|pieces| - 1];
      ConcatCons(p, pieces[..|pieces| - 1]);
    }
  }

  /** The pieces are nonempty, 32 runes long but for a shorter last one, and add up to the content. */
  lemma {:induction false} PiecesExact(content: string)
    ensures Concat(Pieces(content)) == content
    ensures forall p :: p in Pieces(content) ==> 0 < |p| <= REPLAY_CHUNK_RUNES
    ensures forall i :: 0 <= i < |Pieces(content)| - 1 ==> |Pieces(content)[i]| == 32
    decreases |content|
  {
    if 0 < |content| <= REPLAY_CHUNK_RUNES {
      ConcatCons(content, []);
    } else if content != "" {
      PiecesExact(content[REPLAY_CHUNK_RUNES..]);
      ConcatCons(content[..REPLAY_CHUNK_RUNES], Pieces(content[REPLAY_CHUNK_RUNES..]));
    }
  }

  lemma ObserveOne(s: Stats, c: Chunk)
    ensures ObserveAll(s, [c]) == Observed(s, c)
  {
    assert [c][..0] == [];
  }

  /** A chunk with one choice. */
  lemma ObserveSingle(s: Stats, c: Chunk, ch: StreamChoice)
    requires c.choices == [ch]
    ensures Observed(s, c) == ObserveChoice(ObserveHeader(s, c), ch)
  {
    assert c.choices[..|c.choices| - 1] == [];
    assert ObserveChoices(ObserveHeader(s, c), []) == ObserveHeader(s, c);
  }

  /** A stream of chunks of this header has begun. */
  predicate Headed(s: Stats, h: Header) {
    s.id == h.id && h.id != "" && s.created == h.created && h.created != 0 && s.model == h.model
  }

  lemma {:induction false} ObservePieces(s: Stats, h: Header, index: int, pieces: seq<string>)
    requires Headed(s, h)
    ensures ObserveAll(s, PieceChunks(h, index, pieces)) == s.(content := s.content + Concat(pieces))
  {
    hide Observed;
    if pieces == [] {
      assert s.content + "" == s.content;
    } else {
      var chunks, piece := PieceChunks(h, index, pieces), pieces[|pieces| - 1];
      ObservePieces(s, h, index, pieces[..|pieces| - 1]);
      assert chunks[..|chunks| - 1] == PieceChunks(h, index, pieces[..|pieces| - 1]);
      var t := s.(content := s.content + Concat(pieces[..|pieces| - 1]));
      ObserveSingle(t, chunks[|chunks| - 1], StreamChoice(index, Delta("", piece), ""));
      assert t.content + piece == s.content + Concat(pieces);
    }
  }

  /** The opener sets the header and nothing else. */
  lemma ObserveOpener(h: Header, index: int)
    requires h.id != "" && h.created != 0
    ensures var open := MakeChunk(h, [StreamChoice(index, Delta("assistant", ""), "")], None);
            ObserveAll(EMPTY, [open]) == Stats(h.id, h.created, h.model, "", "", 0, 0)
  {
    var open := MakeChunk(h, [StreamChoice(index, Delta("assistant", ""), "")], None);
    ObserveOne(EMPTY, open);
    ObserveSingle(EMPTY, open, StreamChoice(index, Delta("assistant", ""), ""));
  }

  /** The closer sets the finish reason and the usage. */
  lemma ObserveCloser(s: Stats, h: Header, index: int, f: string, usage: Option<Usage>)
    requires Headed(s, h) && f != ""
    ensures var close := MakeChunk(h, [StreamChoice(index, Delta("", ""), f)], usage);
            ObserveAll(s, [close]) == ObserveHeader(s, close).(finishReason := f)
  {
    var close := MakeChunk(h, [StreamChoice(index, Delta("", ""), f)], usage);
    ObserveOne(s, close);
    ObserveSingle(s, close, StreamChoice(index, Delta("", ""), f));
    assert s.content + "" == s.content;
  }

  function FinishOf(c: Choice): string {
    if c.finishReason == "" then "stop" else c.finishReason
  }

  lemma SingleChoice(r: Response, reqId: string, now: int)
    requires |r.choices| == 1
    ensures var h, c := HeaderOf(r, reqId, now), r.choices[0];
            Chunks(r, reqId, now) ==
            [MakeChunk(h, [StreamChoice(c.index, Delta("assistant", ""), "")], None)]
            + PieceChunks(h, c.index, Pieces(c.content))
            + [MakeChunk(h, [StreamChoice(c.index, Delta("", ""), FinishOf(c))], r.usage)]
  {
    assert r.choices[..|r.choices| - 1] == [];
    var h, c := HeaderOf(r, reqId, now), r.choices[0];
    assert ContentChunks(h, r.choices) == [] + PieceChunks(h, c.index, Pieces(c.content));
    assert RoleChoices(r.choices) == [StreamChoice(r.choices[0].index, Delta("assistant", ""), "")];
    assert FinishChoices(r.choices) == [StreamChoice(r.choices[0].index, Delta("", ""), FinishOf(r.choices[0]))];
  }

  /** What one replayed answer with a single choice aggregates to. */
  lemma ObserveReplay(r: Response, reqId: string, now: int)
    requires |r.choices| == 1 && r.id != "" && r.created != 0
    ensures ObserveAll(EMPTY, Chunks(r, reqId, now)) ==
            ObserveHeader(
              Stats(
                r.id, r.created, r.model, r.choices[0].content,
                if r.choices[0].finishReason == "" then "stop" else r.choices[0].finishReason, 0, 0),
              Chunk(r.id, r.created, r.model, [], r.usage))
  {
    hide ObserveAll, Observed, PieceChunks, Pieces, Concat, Chunks;
    var h, c := HeaderOf(r, reqId, now), r.choices[0];
    SingleChoice(r, reqId, now);
    var open := MakeChunk(h, [StreamChoice(c.index, Delta("assistant", ""), "")], None);
    var mid := PieceChunks(h, c.index, Pieces(c.content));
    var close := MakeChunk(h, [StreamChoice(c.index, Delta("", ""), FinishOf(c))], r.usage);
    var s1 := Stats(r.id, r.created, r.model, "", "", 0, 0);
    ObserveOpener(h, c.index);
    PiecesExact(c.content);
    ObservePieces(s1, h, c.index, Pieces(c.content));
    ObserveAllAppend(EMPTY, [open], mid);
    ObserveAllAppend(EMPTY, [open] + mid, [close]);
    assert "" + c.content == c.content;
    ObserveCloser(s1.(content := c.content), h, c.index, FinishOf(c), r.usage);
  }

  lemma {:induction false} CountsNonNegative(chunks: seq<Chunk>)
    ensures var s := ObserveAll(EMPTY, chunks); s.prompt >= 0 && s.output >= 0
  {
    if chunks == [] {
    } else {
      CountsNonNegative(chunks[..|chunks| - 1]);
      var s, c := ObserveAll(EMPTY, chunks[..|chunks| - 1]), chunks[|chunks| - 1];
      ChoicesKeepCounts(ObserveHeader(s, c), c.choices);
    }
  }

  lemma {:induction false} ChoicesKeepCounts(s: Stats, choices: seq<StreamChoice>)
    ensures var t := ObserveChoices(s, choices); t.prompt == s.prompt && t.output == s.output
  {
    if choices == [] {
    } else {
      ChoicesKeepCounts(s, choices[..|choices| - 1]);
    }
  }

  /** What the cache holds for a stream, and what it holds after that entry was replayed and
      the replay aggregated in turn. */
  function Stored(chunks: seq<Chunk>, reqModel: string, now: int): Response {
    ToCached(ObserveAll(EMPTY, chunks), reqModel, now)
  }

  /** Replaying undoes aggregating exactly when the stream carried a finish reason. */
  lemma RoundTripExact(chunks: seq<Chunk>, reqModel: string, reqId: string, now: int, now': int, now'': int)
    requires now != 0
    ensures var r := Stored(chunks, reqModel, now);
            Stored(Chunks(r, reqId, now'), reqModel, now'') == r <==> r.choices[0].finishReason != ""
  {
    hide ObserveAll, Chunks;
    var r := Stored(chunks, reqModel, now);
    CountsNonNegative(chunks);
    ObserveReplay(r, reqId, now');
  }

  /** In particular for everything the gate lets into the cache. */
  lemma RoundTrip(
    chunks: seq<Chunk>, reqModel: string, promptTok: int, reqId: string, now: int, now': int, now'': int)
    requires now != 0
    requires Cacheable(Stored(chunks, reqModel, now), promptTok)
    ensures var r := Stored(chunks, reqModel, now);
            Stored(Chunks(r, reqId, now'), reqModel, now'') == r
  {
    RoundTripExact(chunks, reqModel, reqId, now, now', now'');
  }

  // ---- Several choices ----

  /** What a client collects for one choice index. */
  function CollectChoices(choices: seq<StreamChoice>, index: int): string {
    if choices == [] then ""
    else
      var last := choices[|choices| - 1];
      CollectChoices(choices[..|choices| - 1], index) + if last.index == index then last.delta.content else ""
  }

  function Collect(chunks: seq<Chunk>, index: int): string {
    if chunks == [] then ""
    else Collect(chunks[..|chunks| - 1], index) + CollectChoices(chunks[|chunks| - 1].choices, index)
  }

  lemma CollectOne(c: Chunk, index: int)
    ensures Collect([c], index) == CollectChoices(c.choices, index)
  {
    assert [c][..0] == [];
  }

  lemma {:induction false} CollectAppend(a: seq<Chunk>, b: seq<Chunk>, index: int)
    ensures Collect(a + b, index) == Collect(a, index) + Collect(b, index)
  {
    hide CollectChoices;
    if b == [] {
      assert a + b == a;
    } else {
      assert (a + b)[..|a + b| - 1] == a + b[..|b| - 1];
      CollectAppend(a, b[..|b| - 1], index);
    }
  }

  lemma {:induction false} CollectPieces(h: Header, i: int, pieces: seq<string>, index: int)
    ensures Collect(PieceChunks(h, i, pieces), index) == if i == index then Concat(pieces) else ""
  {
    if pieces == [] {
    } else {
      var chunks := PieceChunks(h, i, pieces);
      CollectPieces(h, i, pieces[..|pieces| - 1], index);
      assert chunks[..|chunks| - 1] == PieceChunks(h, i, pieces[..|pieces| - 1]);
      var ch := StreamChoice(i, Delta("", pieces[|pieces| - 1]), "");
      assert [ch][..0] == [];
      assert CollectChoices([ch], index) == if i == index then pieces[|pieces| - 1] else "";
    }
  }

  lemma {:induction false} NoContentCollected(choices: seq<Choice>, index: int)
    ensures CollectChoices(RoleChoices(choices), index) == ""
    ensures CollectChoices(FinishChoices(choices), index) == ""
  {
    if choices == [] {
    } else {
      var init := choices[..|choices| - 1];
      NoContentCollected(init, index);
      var r, f := RoleChoices(choices), FinishChoices(choices);
      assert r[..|r| - 1] == RoleChoices(init) && f[..|f| - 1] == FinishChoices(init);
    }
  }

  lemma {:induction false} CollectNothing(h: Header, choices: seq<Choice>, index: int)
    requires forall i :: 0 <= i < |choices| ==> choices[i].index != index
    ensures Collect(ContentChunks(h, choices), index) == ""
  {
    hide Collect, PieceChunks, Pieces;
    if choices == [] {
      CollectNone(index);
    } else {
      var init, last := choices[..|choices| - 1], choices[|choices| - 1];
      CollectNothing(h, init, index);
      CollectAppend(ContentChunks(h, init), PieceChunks(h, last.index, Pieces(last.content)), index);
      CollectPieces(h, last.index, Pieces(last.content), index);
    }
  }

  lemma CollectNone(index: int)
    ensures Collect([], index) == ""
  {
  }

  lemma {:induction false} CollectContent(h: Header, choices: seq<Choice>, k: nat)
    requires forall i, j :: 0 <= i < j < |choices| ==> choices[i].index != choices[j].index
    requires k < |choices|
    ensures Collect(ContentChunks(h, choices), choices[k].index) == choices[k].content
  {
    hide Collect, PieceChunks, Pieces, Concat;
    var index := choices[k].index;
    var init, last := choices[..|choices| - 1], choices[|choices| - 1];
    CollectAppend(ContentChunks(h, init), PieceChunks(h, last.index, Pieces(last.content)), index);
    CollectPieces(h, last.index, Pieces(last.content), index);
    PiecesExact(last.content);
    if k < |init| {
      CollectContent(h, init, k);
      assert init[k] == choices[k];
    } else {
      CollectNothing(h, init, index);
    }
  }

  /** With distinct choice indices, a client gets back each choice's own content. */
  lemma ReplayPerChoice(r: Response, reqId: string, now: int, k: nat)
    requires forall i, j :: 0 <= i < j < |r.choices| ==> r.choices[i].index != r.choices[j].index
    requires k < |r.choices|
    ensures Collect(Chunks(r, reqId, now), r.choices[k].index) == r.choices[k].content
  {
    hide Collect, CollectChoices, ContentChunks, RoleChoices, FinishChoices;
    var h, index := HeaderOf(r, reqId, now), r.choices[k].index;
    var open := MakeChunk(h, RoleChoices(r.choices), None);
    var close := MakeChunk(h, FinishChoices(r.choices), r.usage);
    NoContentCollected(r.choices, index);
    CollectContent(h, r.choices, k);
    CollectOne(open, index);
    CollectOne(close, index);
    CollectAppend([open], ContentChunks(h, r.choices), index);
    CollectAppend([open] + ContentChunks(h, r.choices), [close], index);
  }

  // ---- Several choices in one stream ----

  /** How much content choices other than this one carry. */
  function OthersInChunk(choices: seq<StreamChoice>, index: int): nat {
    if choices == [] then 0
    else
      var last := choices[|choices| - 1];
      OthersInChunk(choices[..|choices| - 1], index) + if last.index == index then 0 else |last.delta.content|
  }

  function Others(chunks: seq<Chunk>, index: int): nat {
    if chunks == [] then 0
    else Others(chunks[..|chunks| - 1], index) + OthersInChunk(chunks[|chunks| - 1].choices, index)
  }

  predicate OnlyInChunk(choices: seq<StreamChoice>, index: int) {
    forall j :: 0 <= j < |choices| && choices[j].index != index ==> choices[j].delta.content == ""
  }

  /** No choice but this one carries content. */
  predicate OnlyChoice(chunks: seq<Chunk>, index: int) {
    forall i :: 0 <= i < |chunks| ==> OnlyInChunk(chunks[i].choices, index)
  }

  lemma {:induction false} NoOthersInChunk(choices: seq<StreamChoice>, index: int)
    ensures OthersInChunk(choices, index) == 0 <==> OnlyInChunk(choices, index)
  {
    if choices == [] {
    } else {
      var init := choices[..|choices| - 1];
      NoOthersInChunk(init, index);
      assert forall j :: 0 <= j < |init| ==> init[j] == choices[j];
      assert OnlyInChunk(choices, index) ==> OnlyInChunk(init, index);
    }
  }

  lemma {:induction false} NoOthers(chunks: seq<Chunk>, index: int)
    ensures Others(chunks, index) == 0 <==> OnlyChoice(chunks, index)
  {
    hide OnlyInChunk;
    if chunks == [] {
    } else {
      var init := chunks[..|chunks| - 1];
      NoOthers(init, index);
      NoOthersInChunk(chunks[|chunks| - 1].choices, index);
      assert forall i :: 0 <= i < |init| ==> init[i] == chunks[i];
      assert OnlyChoice(chunks, index) ==> OnlyChoice(init, index);
    }
  }

  /** The accumulator's content is one choice's content with the others' mixed in. */
  lemma {:induction false} ContentOfChunk(s: Stats, choices: seq<StreamChoice>, index: int)
    ensures var t := ObserveChoices(s, choices).content;
            && |t| == |s.content| + |CollectChoices(choices, index)| + OthersInChunk(choices, index)
            && (OthersInChunk(choices, index) == 0 ==> t == s.content + CollectChoices(choices, index))
  {
    if choices == [] {
      assert s.content + "" == s.content;
    } else {
      var init, last := choices[..|choices| - 1], choices[|choices| - 1];
      ContentOfChunk(s, init, index);
      Reassociate(s.content, CollectChoices(init, index), last.delta.content);
      assert CollectChoices(init, index) + "" == CollectChoices(init, index);
    }
  }

  lemma Reassociate(a: string, b: string, c: string)
    ensures (a + b) + c == a + (b + c)
  {
  }

  lemma {:induction false} ContentOfStream(chunks: seq<Chunk>, index: int)
    ensures var t := ObserveAll(EMPTY, chunks).content;
            && |t| == |Collect(chunks, index)| + Others(chunks, index)
            && (Others(chunks, index) == 0 ==> t == Collect(chunks, index))
  {
    hide ObserveChoices, CollectChoices, OthersInChunk;
    if chunks == [] {
    } else {
      var init, c := chunks[..|chunks| - 1], chunks[|chunks| - 1];
      ContentOfStream(init, index);
      ContentOfChunk(ObserveHeader(ObserveAll(EMPTY, init), c), c.choices, index);
    }
  }

  /** A stream is stored as one choice with index 0. Its content is what the stream said for that
      choice exactly when no other choice carries content: the accumulator does not tell them
      apart, and a stream with several is stored mixed. */
  lemma StoredContentExact(chunks: seq<Chunk>, reqModel: string, now: int)
    ensures Stored(chunks, reqModel, now).choices[0].content == Collect(chunks, 0) <==> OnlyChoice(chunks, 0)
  {
    hide ObserveAll, Collect, Others, OnlyChoice;
    ContentOfStream(chunks, 0);
    NoOthers(chunks, 0);
  }

  /** Two choices that say "a" and "b" are stored, and replayed, as one that says "ab". */
  lemma ChoicesAreMixed(reqModel: string, now: int)
    ensures var a, b := StreamChoice(0, Delta("", "a"), "stop"), StreamChoice(1, Delta("", "b"), "stop");
            var chunk := Chunk("id", 1, "m", [a, b], None);
            Stored([chunk], reqModel, now).choices == [Choice(0, "ab", "stop")]
  {
    hide ObserveAll;
    var a, b := StreamChoice(0, Delta("", "a"), "stop"), StreamChoice(1, Delta("", "b"), "stop");
    var chunk := Chunk("id", 1, "m", [a, b], None);
    ObserveOne(EMPTY, chunk);
    var s := ObserveHeader(EMPTY, chunk);
    assert [a, b][..1] == [a] && [a][..0] == [];
    assert ObserveChoices(s, [a]) == ObserveChoice(s, a);
    assert ("" + "a") + "b" == "ab";
  }

  // ---- The ends of a replay ----

  lemma {:induction false} RoleChoicesAt(choices: seq<Choice>, i: nat)
    requires i < |choices|
    ensures |RoleChoices(choices)| == |choices|
    ensures RoleChoices(choices)[i] == StreamChoice(choices[i].index, Delta("assistant", ""), "")
  {
    var init := choices[..|choices| - 1];
    if |init| > 0 {
      RoleChoicesAt(init, if i < |init| then i else 0);
    }
  }

  lemma {:induction false} FinishChoicesAt(choices: seq<Choice>, i: nat)
    requires i < |choices|
    ensures |FinishChoices(choices)| == |choices|
    ensures FinishChoices(choices)[i] ==
            StreamChoice(choices[i].index, Delta("", ""),
              if choices[i].finishReason == "" then "stop" else choices[i].finishReason)
  {
    var init := choices[..|choices| - 1];
    if |init| > 0 {
      FinishChoicesAt(init, if i < |init| then i else 0);
    }
  }

  /** Every replay opens with one assistant role per choice and closes with one finish reason per
      choice, "stop" where the answer has none, and with the answer's usage; all chunks carry the
      answer's model, and its id and creation time or made-up ones. */
  lemma ReplayEnds(r: Response, reqId: string, now: int, i: nat)
    requires i < |r.choices|
    ensures var chunks := Chunks(r, reqId, now);
            && |chunks| >= 2
            && var first, last := chunks[0], chunks[|chunks| - 1];
               && |first.choices| == |last.choices| == |r.choices|
               && first.choices[i] == StreamChoice(r.choices[i].index, Delta("assistant", ""), "")
               && last.choices[i] ==
                  StreamChoice(r.choices[i].index, Delta("", ""),
                    if r.choices[i].finishReason == "" then "stop" else r.choices[i].finishReason)
               && first.usage == None && last.usage == r.usage
               && first.id == last.id == (if r.id == "" then "chatcmpl-cache-" + reqId else r.id)
               && first.created == last.created == (if r.created == 0 then now else r.created)
               && first.model == last.model == r.model
  {
    hide ContentChunks, RoleChoices, FinishChoices;
    RoleChoicesAt(r.choices, i);
    FinishChoicesAt(r.choices, i);
  }

  /** What is stored for a stream that left something out. */
  lemma StoredDefaults(reqModel: string, now: int)
    ensures Stored([], reqModel, now) == Response("chatcmpl-stream", now, reqModel, [Choice(0, "", "")], None)
  {
  }

  /** Of several chunks that name a field, the last one decides; a chunk that leaves it out, or
      counts no tokens, changes nothing. Here for a last chunk with one choice. */
  lemma LatestWins(chunks: seq<Chunk>, c: Chunk, ch: StreamChoice)
    requires c.choices == [ch]
    ensures var before, after := ObserveAll(EMPTY, chunks), ObserveAll(EMPTY, chunks + [c]);
            && after.id == (if c.id == "" then before.id else c.id)
            && after.created == (if c.created == 0 then before.created else c.created)
            && after.model == (if c.model == "" then before.model else c.model)
            && after.finishReason == (if ch.finishReason == "" then before.finishReason else ch.finishReason)
            && after.content == before.content + ch.delta.content
            && (c.usage.None? ==> after.prompt == before.prompt && after.output == before.output)
            && (c.usage.Some? ==>
                  && after.prompt == (if c.usage.value.prompt > 0 then c.usage.value.prompt else before.prompt)
                  && after.output == (if c.usage.value.completion > 0 then c.usage.value.completion else before.output))
  {
    hide ObserveAll, Observed;
    ObserveAllAppend(EMPTY, chunks, [c]);
    ObserveOne(ObserveAll(EMPTY, chunks), c);
    ObserveSingle(ObserveAll(EMPTY, chunks), c, ch);
  }
}
