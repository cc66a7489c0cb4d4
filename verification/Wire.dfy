/** The text the gateway writes to its client, and what the gateway's own OpenAI reader makes
    of it: a gateway behind a gateway. Heartbeat comments may fall between any two frames, and
    the connection may break after any character. */
module Wire {
  import opened Provider
  import opened Sse
  import P = Pipeline

  /** The JSON codec, and the body of an error frame. */
  datatype Codec = Codec(encode: Chunk -> string, errorBody: string, decode: string -> OpenAiPayload)

  predicate OneLine(s: string) {
    forall i :: 0 <= i < |s| ==> s[i] != '\n' && s[i] != '\r'
  }

  predicate JsonObject(s: string) {
    OneLine(s) && s != "" && s[0] == '{'
  }

  /** What JSON promises: chunks come back, error envelopes are told apart, both are objects
      on one line. */
  ghost predicate Faithful(x: Codec) {
    && (forall c :: JsonObject(x.encode(c)) && x.decode(x.encode(c)) == ChunkJson(c))
    && JsonObject(x.errorBody) && x.decode(x.errorBody).ErrorEnvelope?
  }

  // ---- The writer ----

  datatype Write = Data(frame: P.Frame) | Comment(text: string)

  function Payload(x: Codec, f: P.Frame): string {
    match f
    case DataFrame(c) => x.encode(c)
    case ErrorFrame => x.errorBody
    case DoneFrame => "[DONE]"
  }

  /** The one line that WriteData or WriteComment puts in front of the frame end. */
  function Line(x: Codec, w: Write): string {
    match w
    case Data(f) => "data: " + Payload(x, f)
    case Comment(text) => ": " + text
  }

  function Text(x: Codec, ws: seq<Write>): string {
    if ws == [] then "" else Line(x, ws[0]) + "\n" + "\n" + Text(x, ws[1..])
  }

  predicate CommentsOk(ws: seq<Write>) {
    forall i :: 0 <= i < |ws| && ws[i].Comment? ==> OneLine(ws[i].text)
  }

  /** The frames, without the heartbeats. */
  function Frames(ws: seq<Write>): seq<P.Frame> {
    if ws == [] then []
    else if ws[0].Data? then [ws[0].frame] + Frames(ws[1..])
    else Frames(ws[1..])
  }

  // ---- The reader's line scanner ----

  function DropCr(line: string): string {
    if line != "" && line[|line| - 1] == '\r' then line[..|line| - 1] else line
  }

  /** The position of the first line feed, or the length. */
  function LineEnd(text: string): (n: nat)
    ensures n <= |text| && (n < |text| ==> text[n] == '\n')
    ensures forall i :: 0 <= i < n ==> text[i] != '\n'
  {
    if text == "" || text[0] == '\n' then 0 else 1 + LineEnd(text[1..])
  }

  /** bufio.ScanLines: a last line without line feed counts unless it is empty. */
  function Lines(text: string): seq<string>
    decreases |text|
  {
    if text == "" then []
    else
      var n := LineEnd(text);
      [DropCr(text[..n])] + if n == |text| then [] else Lines(text[n + 1..])
  }

  lemma LinesCons(line: string, rest: string)
    requires OneLine(line)
    ensures Lines(line + "\n" + rest) == [line] + Lines(rest)
  {
    var text := line + "\n" + rest;
    assert text[|line|] == '\n';
    assert forall i :: 0 <= i < |line| ==> text[i] == line[i];
    assert LineEnd(text) == |line|;
    assert text[..|line|] == line && text[|line| + 1..] == rest;
  }

  lemma LastLine(line: string)
    requires OneLine(line) && line != ""
    ensures Lines(line) == [line]
  {
    assert LineEnd(line) == |line|;
    assert line[..|line|] == line;
  }

  // ---- What a written stream means ----

  function Meaning(frames: seq<P.Frame>): Transcript {
    if frames == [] then Transcript([ErrEvent(UPSTREAM_FAULT)], false)
    else
      match frames[0]
      case DataFrame(c) =>
        var rest := Meaning(frames[1..]);
        Transcript([ChunkEvent(c)] + rest.events, rest.complete)
      case ErrorFrame => Transcript([ErrEvent(UPSTREAM_FAULT)], false)
      case DoneFrame => Transcript([], true)
  }

  function Read(x: Codec, text: string): Transcript {
    ReadFrom(OpenAi(x.decode), NO_META, Lines(text))
  }

  lemma DataLine(payload: string)
    ensures DataOf("data: " + payload) == Some(payload)
  {
    var line := "data: " + payload;
    assert line[..5] == "data:" && line[0] != ':';
    assert line[5..] == " " + payload && line[5..][..1] == " " && line[5..][1..] == payload;
  }

  /** The action for one written line. */
  lemma LineAction(x: Codec, w: Write)
    requires Faithful(x)
    ensures var action := HandleLine(OpenAi(x.decode), NO_META, Line(x, w)).1;
            match w
            case Comment(_) => action == Skip
            case Data(DataFrame(c)) => action == Emit(c)
            case Data(ErrorFrame) => action == Fail(UPSTREAM_FAULT)
            case Data(DoneFrame) => action == Stop
    ensures HandleLine(OpenAi(x.decode), NO_META, Line(x, w)).0 == NO_META
  {
    if w.Data? {
      DataLine(Payload(x, w.frame));
      if w.frame.DataFrame? {
        assert x.encode(w.frame.chunk)[0] == '{';
      }
    } else {
      assert Line(x, w)[..1] == ":";
    }
  }

  lemma LineIsOne(x: Codec, w: Write)
    requires Faithful(x) && (w.Comment? ==> OneLine(w.text))
    ensures OneLine(Line(x, w)) && |Line(x, w)| >= 2
  {
    if w.Data? && w.frame.DataFrame? {
      assert OneLine(x.encode(w.frame.chunk));
    }
  }

  /** A line and the blank line after it, in front of any text. */
  lemma ReadWrite(x: Codec, w: Write, rest: string)
    requires Faithful(x) && (w.Comment? ==> OneLine(w.text))
    ensures var t, r := Read(x, Line(x, w) + "\n" + "\n" + rest), Read(x, rest);
            match w
            case Comment(_) => t == r
            case Data(DataFrame(c)) => t == Transcript([ChunkEvent(c)] + r.events, r.complete)
            case Data(ErrorFrame) => t == Transcript([ErrEvent(UPSTREAM_FAULT)], false)
            case Data(DoneFrame) => t == Transcript([], true)
  {
    hide HandleLine, Line, Lines;
    var v, line := OpenAi(x.decode), Line(x, w);
    LineIsOne(x, w);
    LineAction(x, w);
    assert line + "\n" + "\n" + rest == line + "\n" + ("" + "\n" + rest);
    LinesCons(line, "" + "\n" + rest);
    LinesCons("", rest);
    BlankSkipped(v, Lines(rest));
    assert ([line] + ([""] + Lines(rest)))[1..] == [""] + Lines(rest);
  }

  lemma BlankSkipped(v: Vendor, lines: seq<string>)
    ensures ReadFrom(v, NO_META, [""] + lines) == ReadFrom(v, NO_META, lines)
  {
    assert ([""] + lines)[1..] == lines;
  }

  /** The gateway's text, read by the gateway's OpenAI reader, is what its frames mean,
      wherever the heartbeats fell. */
  lemma {:induction false} WireRoundTrip(x: Codec, ws: seq<Write>)
    requires Faithful(x) && CommentsOk(ws)
    ensures Read(x, Text(x, ws)) == Meaning(Frames(ws))
  {
    hide Read, Line, Faithful;
    if ws == [] {
      EmptyRead(x);
    } else {
      WireRoundTrip(x, ws[1..]);
      ReadWrite(x, ws[0], Text(x, ws[1..]));
      if ws[0].Data? {
        assert Frames(ws)[1..] == Frames(ws[1..]);
      }
    }
  }

  lemma EmptyRead(x: Codec)
    ensures Read(x, "") == Transcript([ErrEvent(UPSTREAM_FAULT)], false)
  {
  }

  /** A line cut short is only the terminator if it is the whole terminator line. */
  lemma CutLine(x: Codec, w: Write, cut: string)
    requires Faithful(x) && (w.Comment? ==> OneLine(w.text)) && cut <= Line(x, w)
    ensures Read(x, cut).complete ==> w == Data(P.DoneFrame) && Read(x, cut).events == []
  {
    hide ReadFrom, Lines;
    if cut == "" {
      EmptyRead(x);
    } else {
      LineIsOne(x, w);
      LastLine(cut);
      SingleLine(x, cut);
      if w.Comment? {
        assert cut[..1] == ":";
      } else if Read(x, cut).complete {
        CutTerminator(Payload(x, w.frame), cut);
      }
    }
  }

  lemma SingleLine(x: Codec, line: string)
    ensures var t := ReadFrom(OpenAi(x.decode), NO_META, [line]);
            t.complete ==> DataOf(line) == Some("[DONE]") && t.events == []
  {
    assert [line][1..] == [];
    assert !ReadFrom(OpenAi(x.decode), NO_META, []).complete;
  }

  lemma CutTerminator(payload: string, cut: string)
    requires cut <= "data: " + payload && DataOf(cut) == Some("[DONE]")
    ensures payload != "" && payload[0] == '['
  {
    assert |cut| >= 11 && cut[..5] == "data:" && cut[5] == ' ';
    assert cut[5..][..1] == " ";
    assert cut[6] == cut[5..][1..][0] == '[';
    assert cut[6] == payload[0];
  }

  /** Wherever the connection breaks, the reader downstream takes the stream for complete only
      if it has read exactly what the frames mean, their terminator included. */
  lemma {:induction false} CutNeverLooksComplete(x: Codec, ws: seq<Write>, n: nat)
    requires Faithful(x) && CommentsOk(ws) && n <= |Text(x, ws)|
    ensures var t := Read(x, Text(x, ws)[..n]);
            t.complete ==> t == Meaning(Frames(ws))
  {
    hide Read, Line, Faithful;
    if ws == [] {
      EmptyRead(x);
      assert Text(x, ws)[..n] == "";
    } else {
      var line, rest := Line(x, ws[0]), Text(x, ws[1..]);
      var text := Text(x, ws);
      if n >= |line| + 2 {
        var m := n - |line| - 2;
        assert text[..n] == line + "\n" + "\n" + rest[..m];
        CutNeverLooksComplete(x, ws[1..], m);
        ReadWrite(x, ws[0], rest[..m]);
        if ws[0].Data? {
          assert Frames(ws)[1..] == Frames(ws[1..]);
        }
      } else if n == |line| + 1 {
        assert text[..n] == line + "\n";
        CutAtLineFeed(x, ws[0]);
        CutLine(x, ws[0], line);
      } else {
        assert text[..n] == line[..n];
        CutLine(x, ws[0], line[..n]);
      }
    }
  }

  lemma CutAtLineFeed(x: Codec, w: Write)
    requires Faithful(x) && (w.Comment? ==> OneLine(w.text))
    ensures Read(x, Line(x, w) + "\n") == Read(x, Line(x, w))
  {
    hide Lines, Line, Faithful;
    var line := Line(x, w);
    LineIsOne(x, w);
    LinesCons(line, "");
    LastLine(line);
    assert line + "\n" + "" == line + "\n";
    NoLines();
    assert [line] + [] == [line];
  }

  lemma NoLines()
    ensures Lines("") == []
  {
  }

  // ---- Composition with the pipeline ----

  lemma {:induction false} MeaningOfAnswer(events: seq<StreamEvent>)
    requires AllChunks(events)
    ensures Meaning(P.DataFrames(events) + [P.DoneFrame]) == Transcript(events, true)
  {
    var frames := P.DataFrames(events) + [P.DoneFrame];
    if events == [] {
    } else {
      MeaningOfAnswer(events[1..]);
      assert frames[1..] == P.DataFrames(events[1..]) + [P.DoneFrame];
    }
  }

  lemma {:induction false} MeaningOfFailure(events: seq<StreamEvent>)
    requires AllChunks(events)
    ensures Meaning(P.DataFrames(events) + [P.ErrorFrame]) == Transcript(events + [ErrEvent(UPSTREAM_FAULT)], false)
  {
    var frames := P.DataFrames(events) + [P.ErrorFrame];
    if events == [] {
    } else {
      MeaningOfFailure(events[1..]);
      assert frames[1..] == P.DataFrames(events[1..]) + [P.ErrorFrame];
    }
  }

  lemma {:induction false} CompleteNeedsDone(frames: seq<P.Frame>)
    requires Meaning(frames).complete
    ensures P.DoneFrame in frames
  {
    if frames[0].DoneFrame? {
    } else {
      CompleteNeedsDone(frames[1..]);
    }
  }

  /** End to end, through two gateways and a connection that may break anywhere: in every run
      without a failed client write, if the reader downstream takes what arrived for a complete
      stream, then the upstream's own stream was complete and the events are the same. */
  lemma CompleteMeansUpstreamComplete(
    x: Codec, cfg: P.Config, labels: seq<P.Label>, ws: seq<Write>, n: nat)
    requires Faithful(x) && CommentsOk(ws) && n <= |Text(x, ws)|
    requires Frames(ws) == P.Exec(cfg, labels).h.frames && !P.Exec(cfg, labels).h.writeFailed
    ensures var t := Read(x, Text(x, ws)[..n]);
            t.complete ==> t == P.Body(cfg)
  {
    hide Read, Faithful, P.Exec, P.Body, Text;
    var t := Read(x, Text(x, ws)[..n]);
    CutNeverLooksComplete(x, ws, n);
    if t.complete {
      CompleteNeedsDone(Frames(ws));
      P.DoneMeansComplete(cfg, labels);
      MeaningOfAnswer(P.Body(cfg).events);
    }
  }

  /** And nothing is lost on the way: when the handler is through, nothing failed and the whole
      text arrived, the reader downstream sees the upstream's own events; of a stream that failed
      all chunks and, in place of its error, the one error a reader has for an error frame. */
  lemma RelayIsExact(x: Codec, cfg: P.Config, labels: seq<P.Label>, ws: seq<Write>)
    requires Faithful(x) && CommentsOk(ws)
    requires var s := P.Exec(cfg, labels);
             Frames(ws) == s.h.frames && s.h.pc.Ended? && s.h.pc.why != P.EncodeErr && !s.cancelled && !s.h.writeFailed
    ensures var t := Read(x, Text(x, ws));
            var body := P.Body(cfg);
            if body.complete then t == body
            else
              && body.events != []
              && t == Transcript(body.events[..|body.events| - 1] + [ErrEvent(UPSTREAM_FAULT)], false)
  {
    hide Read, Faithful, P.Exec, P.Body, Text;
    WireRoundTrip(x, ws);
    P.FinishedRunIsExact(cfg, labels);
    if P.Body(cfg).complete {
      MeaningOfAnswer(P.Body(cfg).events);
    } else {
      MeaningOfFailure(P.Body(cfg).events[..|P.Body(cfg).events| - 1]);
    }
  }
}
