/// The chat panel: its send guard, the message list it keeps, and how it reads
/// the server's event stream into the assistant's reply.
module Chat {
  import opened Js
  import opened EventStream

  datatype Role = User | Assistant

  datatype Message = Message(role: Role, content: string)

  const ErrorReply := "Sorry, I encountered an error. Please try again."

  /** The body of the `POST /api/chat` request: `{ id, message }`. */
  datatype ChatRequest = ChatRequest(id: string, message: string)

  /** How the request settles: `fetch` rejects, the response is not ok, or the
      body is read as `chunks` (decoded), after which the next read either
      reports `done` or, when `readFailed`, rejects. */
  datatype ChatFetch = FetchThrew | NotOk | Streamed(chunks: seq<string>, readFailed: bool)

  /** The send guard: some non-blank input and no request in flight. */
  predicate CanSend(input: string, loading: bool) {
    Trim(input) != "" && !loading
  }

  class ChatPanel {
    /** The `extractedDataId` prop. */
    var extractedDataId: string
    var messages: seq<Message>
    var input: string
    var loading: bool

    constructor(extractedDataId: string)
      ensures this.extractedDataId == extractedDataId
      ensures messages == [] && input == "" && !loading
    {
      this.extractedDataId := extractedDataId;
      messages := [];
      input := "";
      loading := false;
    }

    /** A render with a new `extractedDataId` prop, after another extraction
        while the panel is open. The page renders the panel without a `key`, so
        it is not remounted: the conversation so far stays and later questions
        are sent about the new id. */
    method ReceiveExtractedDataId(id: string)
      modifies this`extractedDataId
      ensures extractedDataId == id
    {
      extractedDataId := id;
    }

    /** The input's `onChange`. */
    method SetInput(text: string)
      modifies this`input
      ensures input == text
    {
      input := text;
    }

    /** The synchronous start of `handleSend`. With blank input or a request in
        flight nothing changes and nothing is sent. Otherwise the trimmed input
        is appended as the user's message and sent, the input is cleared and
        `loading` is set. */
    method BeginSend() returns (request: Option<ChatRequest>)
      modifies this`messages, this`input, this`loading
      ensures !CanSend(old(input), old(loading)) ==>
        request.None? && messages == old(messages) && input == old(input) && loading == old(loading)
      ensures CanSend(old(input), old(loading)) ==>
        var userMessage := Trim(old(input));
        && request == Some(ChatRequest(extractedDataId, userMessage))
        && messages == old(messages) + [Message(User, userMessage)]
        && input == "" && loading
    {
      if Trim(input) == "" || loading {
        return None;
      }
      var userMessage := Trim(input);
      input := "";
      messages := messages + [Message(User, userMessage)];
      loading := true;
      request := Some(ChatRequest(extractedDataId, userMessage));
    }

    /** The rest of `handleSend`, once the request settles; `parse` stands for
        `JSON.parse(data).content`, `None` when that throws. A rejected fetch or
        a response that is not ok appends the error reply. A streamed response
        first appends an empty assistant message, then, line by line, adds the
        content of each `data: ` line to it; a read that rejects afterwards
        appends the error reply after it. `loading` ends false on every path. */
    method FinishSend(fetch: ChatFetch, parse: string -> Option<string>)
      modifies this`messages, this`loading
      ensures !loading
      ensures !fetch.Streamed? ==> messages == old(messages) + [Message(Assistant, ErrorReply)]
      ensures fetch.Streamed? ==>
        messages == old(messages) + [Message(Assistant, StreamText(parse, fetch.chunks))]
                    + (if fetch.readFailed then [Message(Assistant, ErrorReply)] else [])
    {
      if !fetch.Streamed? {
        messages := messages + [Message(Assistant, ErrorReply)];
        loading := false;
        return;
      }
      var chunks := fetch.chunks;
      var assistantMessage := "";
      messages := messages + [Message(Assistant, "")];
      var i := 0;
      while i < |chunks|
        invariant 0 <= i <= |chunks|
        invariant assistantMessage == StreamText(parse, chunks[..i])
        invariant messages == old(messages) + [Message(Assistant, assistantMessage)]
      {
        assistantMessage := ReadChunk(chunks[i], parse, assistantMessage);
        StreamTextStep(parse, chunks, i);
        i := i + 1;
      }
      assert chunks[..i] == chunks;
      if fetch.readFailed {
        messages := messages + [Message(Assistant, ErrorReply)];
      }
      loading := false;
    }

    /** The `for` loop over the lines of one read: each `data: ` line whose
        payload is not `[DONE]` and parses adds its content to the reply so far,
        which the last message then shows. */
    method ReadChunk(chunk: string, parse: string -> Option<string>, reply: string) returns (assistantMessage: string)
      requires messages != [] && messages[|messages| - 1] == Message(Assistant, reply)
      modifies this`messages
      ensures assistantMessage == reply + ChunkText(parse, chunk)
      ensures messages == old(messages)[..|old(messages)| - 1] + [Message(Assistant, assistantMessage)]
    {
      ghost var earlier := messages[..|messages| - 1];
      assert messages == earlier + [Message(Assistant, reply)];
      assistantMessage := reply;
      var lines := Split(chunk);
      var j := 0;
      while j < |lines|
        invariant 0 <= j <= |lines|
        invariant assistantMessage == reply + LinesText(parse, lines[..j])
        invariant messages == earlier + [Message(Assistant, assistantMessage)]
      {
        LinesTextStep(parse, lines, j);
        assistantMessage := ReadLine(lines[j], parse, assistantMessage);
        j := j + 1;
      }
      assert lines[..j] == lines;
    }

    /** The body of that loop for one line. */
    method ReadLine(line: string, parse: string -> Option<string>, reply: string) returns (assistantMessage: string)
      requires messages != [] && messages[|messages| - 1] == Message(Assistant, reply)
      modifies this`messages
      ensures assistantMessage == reply + LineText(parse, line)
      ensures messages == old(messages)[..|old(messages)| - 1] + [Message(Assistant, assistantMessage)]
    {
      ghost var earlier := messages[..|messages| - 1];
      assert messages == earlier + [Message(Assistant, reply)];
      assistantMessage := reply;
      if StartsWith(line, DataPrefix) {
        var data := line[|DataPrefix|..];
        if data != DoneMarker {
          var parsed := parse(data);
          if parsed.Some? {
            assistantMessage := assistantMessage + parsed.value;
            ReplaceLast(earlier, messages[|messages| - 1], Message(Assistant, assistantMessage));
            messages := messages[|messages| - 1 := Message(Assistant, assistantMessage)];
            return;
          }
        }
      }
      assert reply + LineText(parse, line) == reply;
    }
  }

  lemma ReplaceLast(earlier: seq<Message>, previous: Message, current: Message)
    ensures (earlier + [previous])[|earlier| := current] == earlier + [current]
  {
  }

  lemma LinesTextStep(parse: string -> Option<string>, lines: seq<string>, j: nat)
    requires j < |lines|
    ensures LinesText(parse, lines[..j + 1]) == LinesText(parse, lines[..j]) + LineText(parse, lines[j])
  {
    assert lines[..j + 1][..j] == lines[..j];
  }

  lemma StreamTextStep(parse: string -> Option<string>, chunks: seq<string>, i: nat)
    requires i < |chunks|
    ensures StreamText(parse, chunks[..i + 1]) == StreamText(parse, chunks[..i]) + ChunkText(parse, chunks[i])
  {
    assert chunks[..i + 1][..i] == chunks[..i];
  }

  /** What the panel shows for a streamed answer is the model's text: when the
      panel reads, in whole lines, the frames the server wrote for `deltas`, the
      assistant's reply is every non-empty delta, in order. */
  lemma ReplyIsModelText(deltas: seq<Delta>, chunks: seq<string>)
    requires Concat(chunks) == Concat(EventStreamFrames(deltas))
    requires WholeLines(chunks)
    ensures StreamText(Json.DecodeContent, chunks) == Concat(Tokens(deltas))
  {
    ChatRoundTripReference(deltas, chunks);
    TokensKeepText(deltas);
  }
}
