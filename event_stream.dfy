/// The chat stream on the wire: the server writes one `data: <json>\n\n`
/// frame per non-empty upstream token and a final `data: [DONE]\n\n` frame
/// (the `text/event-stream` format of the HTML Standard, section 9.2,
/// "Server-sent events"); the client splits each read into lines, keeps
/// the lines that start with `data: ` and appends each parsed `content`.
module EventStream {
  import opened Js
  import Json

  /** One upstream chunk's `choices[0]?.delta?.content`; `None` when absent. */
  type Delta = Option<string>

  const DataPrefix := "data: "
  const DoneMarker := "[DONE]"
  const DoneFrame := DataPrefix + DoneMarker + "\n\n"

  /** The text of every upstream chunk, a missing content counting as "". */
  function AllText(deltas: seq<Delta>): string {
    if deltas == [] then ""
    else AllText(deltas[..|deltas| - 1]) + OrDefault(deltas[|deltas| - 1], "")
  }

  /** The non-empty chunk contents, in upstream order: `content || ''` followed
      by `if (content)`. */
  function Tokens(deltas: seq<Delta>): (ts: seq<string>)
    ensures |ts| <= |deltas|
    ensures forall k :: 0 <= k < |ts| ==> ts[k] != ""
  {
    if deltas == [] then []
    else
      var last := OrDefault(deltas[|deltas| - 1], "");
      Tokens(deltas[..|deltas| - 1]) + (if last != "" then [last] else [])
  }

  /** A single chunk yields its content as one token when it is non-empty and
      nothing otherwise. */
  lemma TokensOne(d: Delta)
    ensures Tokens([d]) == if OrDefault(d, "") != "" then [OrDefault(d, "")] else []
  {
    assert [d][..0] == [];
  }

  /** Tokens are taken chunk by chunk: those of two runs of chunks are the
      tokens of the first run followed by those of the second, so no two
      chunks are ever merged into one token or split across two. */
  lemma {:induction false} TokensAppend(a: seq<Delta>, b: seq<Delta>)
    ensures Tokens(a + b) == Tokens(a) + Tokens(b)
    decreases |b|
  {
    if b == [] {
      assert a + b == a;
    } else {
      var init, last := b[..|b| - 1], b[|b| - 1];
      var tail := if OrDefault(last, "") != "" then [OrDefault(last, "")] else [];
      assert (a + b)[..|a + b| - 1] == a + init;
      assert (a + b)[|a + b| - 1] == last;
      assert Tokens(a + b) == Tokens(a + init) + tail;
      assert Tokens(b) == Tokens(init) + tail;
      TokensAppend(a, init);
    }
  }

  /** Skipping empty contents loses no text. */
  lemma {:induction false} TokensKeepText(deltas: seq<Delta>)
    ensures Concat(Tokens(deltas)) == AllText(deltas)
    decreases |deltas|
  {
    if deltas != [] {
      var init := deltas[..|deltas| - 1];
      var last := OrDefault(deltas[|deltas| - 1], "");
      TokensKeepText(init);
      ConcatAppend(Tokens(init), if last != "" then [last] else []);
    }
  }

  /** The frame the server writes for one token. */
  function ContentFrame(token: string): string {
    DataPrefix + Json.EncodeContent(token) + "\n\n"
  }

  function ContentFrames(tokens: seq<string>): seq<string> {
    if tokens == [] then []
    else ContentFrames(tokens[..|tokens| - 1]) + [ContentFrame(tokens[|tokens| - 1])]
  }

  /** Everything the chat handler writes for a stream of upstream chunks. */
  function EventStreamFrames(deltas: seq<Delta>): seq<string> {
    ContentFrames(Tokens(deltas)) + [DoneFrame]
  }

  /** The written frames are one content frame per non-empty token, in upstream
      order, followed by exactly one `[DONE]` frame, which no content frame
      equals. */
  lemma {:induction false} EventStreamShape(deltas: seq<Delta>)
    ensures var frames := EventStreamFrames(deltas);
      && |frames| == |Tokens(deltas)| + 1
      && frames[|frames| - 1] == DoneFrame
      && (forall k :: 0 <= k < |frames| - 1 ==> frames[k] == ContentFrame(Tokens(deltas)[k]))
      && (forall k :: 0 <= k < |frames| - 1 ==> frames[k] != DoneFrame)
  {
    ContentFramesAt(Tokens(deltas));
    forall t: string ensures ContentFrame(t) != DoneFrame {
      var e := Json.EncodeContent(t);
      assert ContentFrame(t)[|DataPrefix|] == e[0];
    }
  }

  lemma {:induction false} ContentFramesAt(tokens: seq<string>)
    ensures |ContentFrames(tokens)| == |tokens|
    ensures forall k :: 0 <= k < |tokens| ==> ContentFrames(tokens)[k] == ContentFrame(tokens[k])
    decreases |tokens|
  {
    if tokens != [] {
      var init := tokens[..|tokens| - 1];
      ContentFramesAt(init);
      var frames := ContentFrames(tokens);
      assert frames == ContentFrames(init) + [ContentFrame(tokens[|tokens| - 1])];
      forall k | 0 <= k < |tokens| ensures frames[k] == ContentFrame(tokens[k]) {
        if k < |init| {
          assert tokens[k] == init[k];
        }
      }
    }
  }

  /** The `for await` loop of the chat handler: it writes a frame for every
      non-empty chunk content and then the `[DONE]` frame. */
  method WriteEventStream(deltas: seq<Delta>) returns (frames: seq<string>)
    ensures frames == EventStreamFrames(deltas)
  {
    frames := [];
    var i := 0;
    while i < |deltas|
      invariant 0 <= i <= |deltas|
      invariant frames == ContentFrames(Tokens(deltas[..i]))
    {
      var content := OrDefault(deltas[i], "");
      ghost var before := Tokens(deltas[..i]);
      assert deltas[..i + 1][..i] == deltas[..i];
      assert Tokens(deltas[..i + 1]) == before + (if content != "" then [content] else []);
      if content != "" {
        assert (before + [content])[..|before|] == before;
        frames := frames + [ContentFrame(content)];
      } else {
        assert before + [] == before;
      }
      i := i + 1;
    }
    assert deltas[..i] == deltas;
    frames := frames + [DoneFrame];
  }

  /** What one line adds to the assistant's text: for a line starting with
      `data: ` whose payload is not `[DONE]` and parses, the parsed `content`;
      "" for every other line. `parse` stands for `JSON.parse(data).content`
      converted to a string, `None` when it throws. */
  function LineText(parse: string -> Option<string>, line: string): string {
    if StartsWith(line, DataPrefix) && line[|DataPrefix|..] != DoneMarker
       && parse(line[|DataPrefix|..]).Some?
    then parse(line[|DataPrefix|..]).value
    else ""
  }

  function LinesText(parse: string -> Option<string>, lines: seq<string>): string {
    if lines == [] then ""
    else LinesText(parse, lines[..|lines| - 1]) + LineText(parse, lines[|lines| - 1])
  }

  /** What one read adds: the text of its lines, split at `\n`. */
  function ChunkText(parse: string -> Option<string>, chunk: string): string {
    LinesText(parse, Split(chunk))
  }

  /** What a sequence of reads adds, each read split on its own. */
  function StreamText(parse: string -> Option<string>, chunks: seq<string>): string {
    if chunks == [] then ""
    else StreamText(parse, chunks[..|chunks| - 1]) + ChunkText(parse, chunks[|chunks| - 1])
  }

  /** Every read but the last ends at a line break, so that no line is cut
      across two reads. */
  predicate WholeLines(chunks: seq<string>) {
    forall k :: 0 <= k < |chunks| - 1 ==> EndsAtLineBreak(chunks[k])
  }

  lemma {:induction false} LinesTextAppend(parse: string -> Option<string>, a: seq<string>, b: seq<string>)
    ensures LinesText(parse, a + b) == LinesText(parse, a) + LinesText(parse, b)
    decreases |b|
  {
    if b == [] {
      assert a + b == a;
    } else {
      var init, last := b[..|b| - 1], b[|b| - 1];
      assert (a + b)[..|a + b| - 1] == a + init;
      assert (a + b)[|a + b| - 1] == last;
      assert LinesText(parse, a + b) == LinesText(parse, a + init) + LineText(parse, last);
      assert LinesText(parse, b) == LinesText(parse, init) + LineText(parse, last);
      LinesTextAppend(parse, a, init);
    }
  }

  /** Text on both sides of a line break is read line for line. */
  lemma ChunkTextAround(parse: string -> Option<string>, a: string, b: string)
    ensures ChunkText(parse, a + "\n" + b) == ChunkText(parse, a) + ChunkText(parse, b)
  {
    SplitAround(a, b);
    LinesTextAppend(parse, Split(a), Split(b));
  }

  lemma ChunkTextEmpty(parse: string -> Option<string>)
    ensures ChunkText(parse, "") == ""
  {
    assert Split("") == [""];
    assert LinesText(parse, [""]) == LinesText(parse, []) + LineText(parse, "");
  }

  /** A final line break adds no text. */
  lemma ChunkTextFinalBreak(parse: string -> Option<string>, a: string)
    ensures ChunkText(parse, a + "\n") == ChunkText(parse, a)
  {
    assert a + "\n" == a + "\n" + "";
    ChunkTextAround(parse, a, "");
    ChunkTextEmpty(parse);
  }

  /** Reading `a + b` at once gives the same text as reading `a`, then `b`, when
      `a` ends at a line break. */
  lemma ChunkTextAppend(parse: string -> Option<string>, a: string, b: string)
    requires EndsAtLineBreak(a)
    ensures ChunkText(parse, a + b) == ChunkText(parse, a) + ChunkText(parse, b)
  {
    if a == "" {
      assert a + b == b;
      ChunkTextEmpty(parse);
    } else {
      var a0 := a[..|a| - 1];
      assert a == a0 + "\n";
      assert a + b == a0 + "\n" + b;
      ChunkTextAround(parse, a0, b);
      ChunkTextFinalBreak(parse, a0);
    }
  }

  /** Reads that never cut a line give the text of their concatenation. */
  lemma {:induction false} StreamTextOfWholeLines(parse: string -> Option<string>, chunks: seq<string>)
    requires WholeLines(chunks)
    ensures StreamText(parse, chunks) == ChunkText(parse, Concat(chunks))
    decreases |chunks|
  {
    if chunks == [] {
      ChunkTextEmpty(parse);
    } else {
      var init := chunks[..|chunks| - 1];
      StreamTextOfWholeLines(parse, init);
      ConcatEndsAtLineBreak(init);
      ChunkTextAppend(parse, Concat(init), chunks[|chunks| - 1]);
    }
  }

  /** A line that starts with `data: ` and holds no line break reads as its payload. */
  lemma DataLineText(parse: string -> Option<string>, payload: string)
    requires '\n' !in payload
    ensures ChunkText(parse, DataPrefix + payload + "\n\n") == LineText(parse, DataPrefix + payload)
  {
    var line := DataPrefix + payload;
    assert '\n' !in line by {
      forall k | 0 <= k < |line| ensures line[k] != '\n' {
        if k >= |DataPrefix| {
          assert line[k] == payload[k - |DataPrefix|];
        }
      }
    }
    assert line + "\n\n" == (line + "\n") + "\n";
    ChunkTextFinalBreak(parse, line + "\n");
    ChunkTextFinalBreak(parse, line);
    SplitSingleLine(line);
    assert LinesText(parse, [line]) == LinesText(parse, []) + LineText(parse, line);
  }

  /** A content frame reads back as its token when `parse` inverts the encoding. */
  lemma ContentFrameText(parse: string -> Option<string>, t: string)
    requires parse(Json.EncodeContent(t)) == Some(t)
    ensures ChunkText(parse, ContentFrame(t)) == t
  {
    var e := Json.EncodeContent(t);
    DataLineText(parse, e);
    assert (DataPrefix + e)[|DataPrefix|..] == e;
    assert e[0] != DoneMarker[0];
  }

  /** The `[DONE]` frame adds nothing. */
  lemma DoneFrameText(parse: string -> Option<string>)
    ensures ChunkText(parse, DoneFrame) == ""
  {
    DataLineText(parse, DoneMarker);
    assert (DataPrefix + DoneMarker)[|DataPrefix|..] == DoneMarker;
  }

  lemma {:induction false} ContentFramesText(parse: string -> Option<string>, tokens: seq<string>)
    requires forall t :: parse(Json.EncodeContent(t)) == Some(t)
    ensures EndsAtLineBreak(Concat(ContentFrames(tokens)))
    ensures ChunkText(parse, Concat(ContentFrames(tokens))) == Concat(tokens)
    decreases |tokens|
  {
    if tokens != [] {
      var init := tokens[..|tokens| - 1];
      var t := tokens[|tokens| - 1];
      ContentFramesText(parse, init);
      ContentFrameText(parse, t);
      ChunkTextAppend(parse, Concat(ContentFrames(init)), ContentFrame(t));
    } else {
      ChunkTextEmpty(parse);
    }
  }

  /** The whole body the server writes chunks back, in one piece, as the
      concatenation of the tokens. */
  lemma FramesText(parse: string -> Option<string>, deltas: seq<Delta>)
    requires forall t :: parse(Json.EncodeContent(t)) == Some(t)
    ensures ChunkText(parse, Concat(EventStreamFrames(deltas))) == AllText(deltas)
  {
    var contents := ContentFrames(Tokens(deltas));
    ContentFramesText(parse, Tokens(deltas));
    ConcatAppend(contents, [DoneFrame]);
    assert Concat([DoneFrame]) == DoneFrame by {
      assert [DoneFrame][..0] == [];
    }
    ChunkTextAppend(parse, Concat(contents), DoneFrame);
    DoneFrameText(parse);
    TokensKeepText(deltas);
  }

  /** Round trip of the chat stream: when the client's parse chunks back the
      server's encoding and every read holds whole lines, the text the client
      accumulates is the concatenation of the upstream chunk contents. */
  lemma ChatRoundTrip(parse: string -> Option<string>, deltas: seq<Delta>, chunks: seq<string>)
    requires forall t :: parse(Json.EncodeContent(t)) == Some(t)
    requires Concat(chunks) == Concat(EventStreamFrames(deltas))
    requires WholeLines(chunks)
    ensures StreamText(parse, chunks) == AllText(deltas)
  {
    StreamTextOfWholeLines(parse, chunks);
    FramesText(parse, deltas);
  }

  /** The round trip with the reference decoder in place of `JSON.parse`, which
      shows the assumption on `parse` can be met. */
  lemma ChatRoundTripReference(deltas: seq<Delta>, chunks: seq<string>)
    requires Concat(chunks) == Concat(EventStreamFrames(deltas))
    requires WholeLines(chunks)
    ensures StreamText(Json.DecodeContent, chunks) == AllText(deltas)
  {
    forall t ensures Json.DecodeContent(Json.EncodeContent(t)) == Some(t) {
      Json.DecodeEncode(t);
    }
    ChatRoundTrip(Json.DecodeContent, deltas, chunks);
  }

  /** The frames themselves, read one per read, hold whole lines. */
  lemma FramesAreWholeLines(deltas: seq<Delta>)
    ensures WholeLines(EventStreamFrames(deltas))
  {
    var frames := EventStreamFrames(deltas);
    EventStreamShape(deltas);
    forall k | 0 <= k < |frames| - 1 ensures EndsAtLineBreak(frames[k]) {
      assert frames[k] == ContentFrame(Tokens(deltas)[k]);
    }
  }
}
