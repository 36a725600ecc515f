/// The Express server: an in-memory map from id to extraction result, and
/// the `/api/extract`, `/api/download/:id/:format` and `/api/chat` handlers.
/// The model API, PDF decoding, `JSON.parse` and the spreadsheet writers are
/// the opaque functions of `Collaborators`.
module Server {
  import opened Js
  import opened Extraction
  import EventStream

  datatype UploadedFile = UploadedFile(mimetype: string, buffer: seq<bv8>)

  datatype Body = TextBody(text: string) | BinaryBody(bytes: seq<bv8>)

  /** What a handler sends. */
  datatype Response =
    | Extracted(extraction: Extraction)                          // 200, JSON `{ id, data }`
    | Failure(status: nat, error: string)                        // the status, JSON `{ error }`
    | Attachment(contentType: string, disposition: string, body: Body)
    | EventStreamBody(frames: seq<string>)                       // 200, `text/event-stream`

  /** The calls the handlers make into code that is not part of this model. */
  datatype Collaborators = Collaborators(
    pdfToText: seq<bv8> -> Attempt<string>,                            // pdf-parse
    completeText: string -> Attempt<Option<string>>,                   // model call on PDF text
    completeImage: (seq<bv8>, string) -> Attempt<Option<string>>,      // model call on an image
    streamChat: (ExtractionResult, string) -> Attempt<seq<EventStream.Delta>>,  // streamed model call
    parseJson: string -> JsonParse,                                    // JSON.parse
    toCsv: seq<Row> -> string,                                         // Papaparse.unparse
    toXlsx: seq<Row> -> seq<bv8>)                                      // the XLSX workbook

  const NoFile := "No file uploaded"
  const UnsupportedType := "Unsupported file type"
  const ExtractFailed := "Failed to extract document"
  const NotFound := "Data not found"
  const InvalidFormat := "Invalid format"
  const ChatFailed := "Chat failed"
  const CsvType := "text/csv"
  const XlsxType := "application/vnd.openxmlformats-officedocument.spreadsheetml.sheet"
  const CsvDisposition := "attachment; filename=extracted.csv"
  const XlsxDisposition := "attachment; filename=extracted.xlsx"

  const DownloadPrefix := "/api/download/"

  /** The position of the first `c` in `s`. */
  function IndexOf(s: string, c: char): (k: Option<nat>)
    ensures k.None? ==> c !in s
    ensures k.Some? ==> k.value < |s| && s[k.value] == c && c !in s[..k.value]
  {
    if s == [] then None
    else if s[0] == c then Some(0)
    else
      var k := IndexOf(s[1..], c);
      if k.Some? then
        assert s[..k.value + 1] == [s[0]] + s[1..][..k.value];
        Some(k.value + 1)
      else None
  }

  /** A route parameter: a non-empty path segment. */
  predicate IsSegment(s: string) {
    s != "" && '/' !in s
  }

  /** `tail` without one trailing `/`, if it has one. */
  function DropTrailingSlash(tail: string): (format: string)
    ensures tail == format || tail == format + "/"
  {
    if tail != "" && tail[|tail| - 1] == '/' then
      assert tail == tail[..|tail| - 1] + "/";
      tail[..|tail| - 1]
    else tail
  }

  /** A character as a case-insensitive route match compares it: Express
      matches routes with the regular-expression flag `i`, under which an
      ASCII letter matches either case and no other character matches an
      ASCII letter. */
  function FoldCase(c: char): (f: char)
    ensures 'A' <= c <= 'Z' ==> f as int == c as int + 32
    ensures !('A' <= c <= 'Z') ==> f == c
  {
    if 'A' <= c <= 'Z' then (c as int + 32) as char else c
  }

  /** `s` and `t` are equal up to the case of ASCII letters. */
  predicate EqualIgnoringCase(s: string, t: string) {
    |s| == |t| && forall k :: 0 <= k < |s| ==> FoldCase(s[k]) == FoldCase(t[k])
  }

  /** The parts a download path is matched into make up what follows the
      prefix. */
  lemma DownloadPathParts(rest: string, k: nat, format: string)
    requires k < |rest| && rest[k] == '/'
    requires var tail := rest[k + 1..]; tail == format || tail == format + "/"
    ensures rest == rest[..k] + "/" + format || rest == rest[..k] + "/" + format + "/"
  {
    assert rest == rest[..k] + "/" + rest[k + 1..];
  }

  /** The `id` and `format` route parameters of a path matched against
      `/api/download/:id/:format`: the literal part matches in either case,
      each parameter is a non-empty segment, and one trailing `/` is allowed
      (Express routes are not strict). */
  function MatchDownloadPath(path: string): (m: Option<(string, string)>)
    ensures m.Some? ==>
      var (id, format) := m.value;
      && IsSegment(id) && IsSegment(format)
      && |DownloadPrefix| <= |path| && EqualIgnoringCase(path[..|DownloadPrefix|], DownloadPrefix)
      && var rest := path[|DownloadPrefix|..];
         rest == id + "/" + format || rest == id + "/" + format + "/"
  {
    if |path| < |DownloadPrefix| || !EqualIgnoringCase(path[..|DownloadPrefix|], DownloadPrefix) then None
    else
      var rest := path[|DownloadPrefix|..];
      match IndexOf(rest, '/')
      case None => None
      case Some(k) =>
        var id, format := rest[..k], DropTrailingSlash(rest[k + 1..]);
        DownloadPathParts(rest, k, format);
        if IsSegment(id) && IsSegment(format) then Some((id, format)) else None
  }

  /** A first occurrence found by other means is the one `IndexOf` finds. */
  lemma IndexOfFirst(s: string, c: char, k: nat)
    requires k < |s| && s[k] == c && c !in s[..k]
    ensures IndexOf(s, c) == Some(k)
  {
    assert s[k] in s;
    var r := IndexOf(s, c).value;
    assert r >= k by {
      assert forall j :: 0 <= j < k ==> s[..k][j] == s[j];
    }
    assert r <= k by {
      assert forall j :: 0 <= j < r ==> s[..r][j] == s[j];
    }
  }

  /** Every pair of segments is matched back from the path it makes, whatever
      the case of the literal part. */
  lemma MatchDownloadPathOf(prefix: string, id: string, format: string)
    requires EqualIgnoringCase(prefix, DownloadPrefix)
    requires IsSegment(id) && IsSegment(format)
    ensures MatchDownloadPath(prefix + id + "/" + format) == Some((id, format))
  {
    var path := prefix + id + "/" + format;
    assert path[..|DownloadPrefix|] == prefix;
    var rest := path[|DownloadPrefix|..];
    assert rest == id + "/" + format;
    assert rest[..|id|] == id;
    IndexOfFirst(rest, '/', |id|);
    assert rest[|id| + 1..] == format;
    assert format[|format| - 1] in format;
    assert DropTrailingSlash(format) == format;
  }

  class ExtractionServer {
    const lib: Collaborators
    /** `extractedData`: the store, only ever written by `Map.set`. */
    var extractedData: map<string, ExtractionResult>
    /** How many model-API calls the handlers have made. */
    ghost var modelCalls: nat

    constructor(lib: Collaborators)
      ensures this.lib == lib
      ensures extractedData == map[] && modelCalls == 0
    {
      this.lib := lib;
      extractedData := map[];
      modelCalls := 0;
    }

    /** `POST /api/extract`; `id` stands for `Date.now().toString()`. A missing
        file or an unsupported type answers 400 without calling the model or
        touching the store; a rejected call answers 500 and leaves the store
        alone; otherwise the result is stored under `id`, replacing any entry
        with that id, and sent back. */
    method Extract(file: Option<UploadedFile>, id: string) returns (res: Response)
      modifies this`extractedData, this`modelCalls
      ensures file.None? ==>
        res == Failure(400, NoFile) && modelCalls == old(modelCalls)
      ensures file.Some? && PathFor(file.value.mimetype) == Unsupported ==>
        res == Failure(400, UnsupportedType) && modelCalls == old(modelCalls)
      ensures res.Extracted? ==>
        res.extraction.id == id && extractedData == old(extractedData)[id := res.extraction.data]
      ensures !res.Extracted? ==> extractedData == old(extractedData)
      ensures file.Some? && PathFor(file.value.mimetype) == TextPath ==>
        match lib.pdfToText(file.value.buffer)
        case Threw => res == Failure(500, ExtractFailed) && modelCalls == old(modelCalls)
        case Returned(text) =>
          && modelCalls == old(modelCalls) + 1
          && res == match lib.completeText(text)
                    case Threw => Failure(500, ExtractFailed)
                    case Returned(reply) => Extracted(Extraction(id, TextResult(text, reply, lib.parseJson)))
      ensures file.Some? && PathFor(file.value.mimetype) == ImagePath ==>
        && modelCalls == old(modelCalls) + 1
        && res == match lib.completeImage(file.value.buffer, file.value.mimetype)
                  case Threw => Failure(500, ExtractFailed)
                  case Returned(reply) => Extracted(Extraction(id, ImageResult(reply, lib.parseJson)))
    {
      if file.None? {
        return Failure(400, NoFile);
      }
      var upload := file.value;
      var extracted: ExtractionResult;
      match PathFor(upload.mimetype) {
        case TextPath =>
          var pdfData := lib.pdfToText(upload.buffer);
          if pdfData.Threw? {
            return Failure(500, ExtractFailed);
          }
          modelCalls := modelCalls + 1;
          var reply := lib.completeText(pdfData.value);
          if reply.Threw? {
            return Failure(500, ExtractFailed);
          }
          extracted := TextResult(pdfData.value, reply.value, lib.parseJson);
        case ImagePath =>
          modelCalls := modelCalls + 1;
          var reply := lib.completeImage(upload.buffer, upload.mimetype);
          if reply.Threw? {
            return Failure(500, ExtractFailed);
          }
          extracted := ImageResult(reply.value, lib.parseJson);
        case Unsupported =>
          return Failure(400, UnsupportedType);
      }
      extractedData := extractedData[id := extracted];
      res := Extracted(Extraction(id, extracted));
    }

    /** `GET /api/download/:id/:format`. An id that is not stored answers 404
        before the format is looked at; otherwise the stored result's export
        rows go to the CSV writer for `csv` and to the XLSX writer for `xlsx`,
        with that format's content type and file name, and any other format
        answers 400. The store is only read. */
    method Download(id: string, format: string) returns (res: Response)
      ensures id !in extractedData ==> res == Failure(404, NotFound)
      ensures id in extractedData && format == "csv" ==>
        res == Attachment(CsvType, CsvDisposition, TextBody(lib.toCsv(ExportRows(extractedData[id]))))
      ensures id in extractedData && format == "xlsx" ==>
        res == Attachment(XlsxType, XlsxDisposition, BinaryBody(lib.toXlsx(ExportRows(extractedData[id]))))
      ensures id in extractedData && format != "csv" && format != "xlsx" ==>
        res == Failure(400, InvalidFormat)
    {
      if id !in extractedData {
        return Failure(404, NotFound);
      }
      var exportData := ExportRows(extractedData[id]);
      if format == "csv" {
        res := Attachment(CsvType, CsvDisposition, TextBody(lib.toCsv(exportData)));
      } else if format == "xlsx" {
        res := Attachment(XlsxType, XlsxDisposition, BinaryBody(lib.toXlsx(exportData)));
      } else {
        res := Failure(400, InvalidFormat);
      }
    }

    /** `POST /api/chat`. An id that is not stored answers 404 without calling
        the model; otherwise the model is called once with the stored result and
        the message, a rejected call answers 500, and a stream is written as one
        frame per non-empty chunk followed by the `[DONE]` frame. The store is
        only read. */
    method Chat(id: string, message: string) returns (res: Response)
      modifies this`modelCalls
      ensures id !in extractedData ==>
        res == Failure(404, NotFound) && modelCalls == old(modelCalls)
      ensures id in extractedData ==>
        && modelCalls == old(modelCalls) + 1
        && res == match lib.streamChat(extractedData[id], message)
                  case Threw => Failure(500, ChatFailed)
                  case Returned(deltas) => EventStreamBody(EventStream.EventStreamFrames(deltas))
    {
      if id !in extractedData {
        return Failure(404, NotFound);
      }
      var data := extractedData[id];
      modelCalls := modelCalls + 1;
      var stream := lib.streamChat(data, message);
      if stream.Threw? {
        return Failure(500, ChatFailed);
      }
      var frames := EventStream.WriteEventStream(stream.value);
      res := EventStreamBody(frames);
    }
  }
}
