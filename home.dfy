/// The home page: the uploaded files and the selected one, the extraction it
/// requests and keeps, downloads, and the highlighted field.
module Home {
  import opened Js
  import opened Extraction
  import opened Upload
  import Server

  datatype Format = Csv | Xlsx

  function FormatName(format: Format): string {
    match format
    case Csv => "csv"
    case Xlsx => "xlsx"
  }

  /** The request `handleDownload` makes and the name it saves the file under. */
  datatype DownloadRequest = DownloadRequest(url: string, filename: string)

  function DownloadUrl(id: string, format: Format): string {
    Server.DownloadPrefix + id + "/" + FormatName(format)
  }

  /** The page's download requests reach the download handler with the id and
      the format they were made with, and that format is one the handler
      serves, so it never answers "Invalid format". */
  lemma DownloadUrlRoutes(id: string, format: Format)
    requires Server.IsSegment(id)
    ensures Server.MatchDownloadPath(DownloadUrl(id, format)) == Some((id, FormatName(format)))
    ensures FormatName(format) == "csv" || FormatName(format) == "xlsx"
  {
    Server.MatchDownloadPathOf(Server.DownloadPrefix, id, FormatName(format));
  }

  /** How `POST /api/extract` settles for the page: the request or the body's
      JSON rejects, the response is ok with the extraction, or it is not ok
      with the body's `error`. */
  datatype ExtractReply = RequestThrew | Answered(extraction: Extraction) | Refused(error: Option<string>)

  const ExtractionFailed := "Extraction failed"
  const ExtractFailed := "Failed to extract document"

  /** The alert an extraction shows: none on success, the server's error (or a
      generic one when it has none) on a refusal, and a fixed one when the
      request rejects. */
  function ExtractAlert(reply: ExtractReply): (alert: Option<string>)
    ensures alert.None? <==> reply.Answered?
    ensures reply.Refused? && reply.error.Some? && reply.error.value != "" ==> alert == reply.error
    ensures reply.Refused? && (reply.error.None? || reply.error.value == "") ==> alert == Some(ExtractionFailed)
    ensures reply.RequestThrew? ==> alert == Some(ExtractFailed)
  {
    match reply
    case RequestThrew => Some(ExtractFailed)
    case Answered(_) => None
    case Refused(error) => Some(OrDefault(error, ExtractionFailed))
  }

  /** Which part of a field was clicked. */
  datatype HighlightType = LabelPart | ValuePart | BothParts

  function HighlightTypeName(t: HighlightType): string {
    match t
    case LabelPart => "label"
    case ValuePart => "value"
    case BothParts => "both"
  }

  /** `${type}` for a `type` that may be `undefined`: the part's name, or
      "undefined" when no part is given. */
  function HighlightTypeText(t: Option<HighlightType>): (text: string)
    ensures t.None? <==> text == "undefined"
    ensures t.Some? ==> text in {"label", "value", "both"}
  {
    match t
    case None => "undefined"
    case Some(part) => HighlightTypeName(part)
  }

  /** `{ ...field, highlightType: type }`, where `type` may be `undefined`. */
  datatype Highlight = Highlight(field: ExtractedField, highlightType: Option<HighlightType>)

  class HomePage {
    var files: seq<File>
    var selectedFile: Option<File>
    var extractedData: Option<Extraction>
    var loading: bool
    var highlightedField: Option<Highlight>

    /** The selected file is one of the listed files. */
    ghost predicate SelectionListed()
      reads this
    {
      selectedFile.Some? ==> selectedFile.value in files
    }

    constructor()
      ensures files == [] && selectedFile.None? && extractedData.None?
      ensures !loading && highlightedField.None?
      ensures SelectionListed()
    {
      files := [];
      selectedFile := None;
      extractedData := None;
      loading := false;
      highlightedField := None;
    }

    /** `handleFilesSelected`: the new files go after the old ones, in order,
        and the first of them becomes the selection when there is none. */
    method HandleFilesSelected(newFiles: seq<File>)
      modifies this`files, this`selectedFile
      ensures files == old(files) + newFiles
      ensures selectedFile ==
        if old(selectedFile).None? && |newFiles| > 0 then Some(newFiles[0]) else old(selectedFile)
      ensures old(SelectionListed()) ==> SelectionListed()
    {
      files := files + newFiles;
      if selectedFile.None? && |newFiles| > 0 {
        selectedFile := Some(newFiles[0]);
      }
    }

    /** A click on the thumbnail at `index`. */
    method SelectFile(index: nat)
      requires index < |files|
      modifies this`selectedFile
      ensures selectedFile == Some(files[index])
      ensures SelectionListed()
    {
      selectedFile := Some(files[index]);
    }

    /** The synchronous start of `handleExtract`: without a selection nothing
        happens; otherwise `loading` is set and the selected file is uploaded. */
    method BeginExtract() returns (upload: Option<File>)
      modifies this`loading
      ensures old(selectedFile).None? ==> upload.None? && loading == old(loading)
      ensures old(selectedFile).Some? ==> upload == selectedFile && loading
    {
      if selectedFile.None? {
        return None;
      }
      loading := true;
      upload := selectedFile;
    }

    /** The rest of `handleExtract`: an ok answer replaces the extracted data,
        a refusal or a rejection keeps it and alerts, and `loading` ends false
        on every path. */
    method FinishExtract(reply: ExtractReply) returns (alert: Option<string>)
      modifies this`extractedData, this`loading
      ensures extractedData == if reply.Answered? then Some(reply.extraction) else old(extractedData)
      ensures alert == ExtractAlert(reply)
      ensures !loading
    {
      alert := None;
      match reply {
        case Answered(extraction) =>
          extractedData := Some(extraction);
        case Refused(error) =>
          alert := Some(OrDefault(error, ExtractionFailed));
        case RequestThrew =>
          alert := Some(ExtractFailed);
      }
      loading := false;
    }

    /** `handleDownload`: nothing without extracted data; otherwise a request
        for that extraction's id in the chosen format, saved as
        `extracted.<format>`. */
    method HandleDownload(format: Format) returns (request: Option<DownloadRequest>)
      ensures extractedData.None? ==> request.None?
      ensures extractedData.Some? ==>
        && request.Some?
        && StartsWith(request.value.url, Server.DownloadPrefix + extractedData.value.id + "/")
        && request.value == DownloadRequest(DownloadUrl(extractedData.value.id, format), "extracted." + FormatName(format))
    {
      if extractedData.None? {
        return None;
      }
      var id := extractedData.value.id;
      var url := Server.DownloadPrefix + id + "/" + FormatName(format);
      assert url[..|Server.DownloadPrefix + id + "/"|] == Server.DownloadPrefix + id + "/";
      request := Some(DownloadRequest(url, "extracted." + FormatName(format)));
    }

    /** `handleFieldClick`: the clicked field, tagged with the `type` it is
        given (`undefined` when the caller passes none), becomes the
        highlighted field, and the alert names that type, the label and the
        value. */
    method HandleFieldClick(field: ExtractedField, highlightType: Option<HighlightType>) returns (alert: string)
      modifies this`highlightedField
      ensures highlightedField == Some(Highlight(field, highlightType))
      ensures alert == "Selected " + HighlightTypeText(highlightType) + ": " + field.labelText + " = " + field.value
    {
      highlightedField := Some(Highlight(field, highlightType));
      alert := "Selected " + HighlightTypeText(highlightType) + ": " + field.labelText + " = " + field.value;
    }

    /** A click on a field of the form as written: the form calls
        `onFieldClick(item)` with the field alone, so the page's handler gets
        no `type`. The highlight carries no part and the alert reads
        "Selected undefined: ...", whichever part was clicked. */
    method ClickFormField(field: ExtractedField) returns (alert: string)
      modifies this`highlightedField
      ensures highlightedField == Some(Highlight(field, None))
      ensures highlightedField.value.highlightType.None?
      ensures alert == "Selected undefined: " + field.labelText + " = " + field.value
    {
      alert := HandleFieldClick(field, None);
    }

    /** A click on a field of the form that passes the part clicked, as the
        handler's signature asks: the highlight is tagged with that part, and
        the alert names it, never "undefined". */
    method ClickFormFieldPart(field: ExtractedField, part: HighlightType) returns (alert: string)
      modifies this`highlightedField
      ensures highlightedField == Some(Highlight(field, Some(part)))
      ensures alert == "Selected " + HighlightTypeName(part) + ": " + field.labelText + " = " + field.value
      ensures HighlightTypeText(highlightedField.value.highlightType) != "undefined"
    {
      alert := HandleFieldClick(field, Some(part));
    }

    /** The form's `onUpdate`, which is `setExtractedData`. */
    method UpdateExtraction(update: Extraction)
      modifies this`extractedData
      ensures extractedData == Some(update)
    {
      extractedData := Some(update);
    }
  }
}
