/// The extraction result the server stores and the client edits, how the
/// server picks an extraction path from the MIME type, how it normalises the
/// model's reply into a result, and how a result becomes export rows.
module Extraction {
  import opened Js

  /** Fractions of the page, as the model estimates them. */
  datatype BoundingBox = BoundingBox(x: real, y: real, width: real, height: real)

  /** One label/value pair; `labelText` is the JSON key `label` and `fieldType` the key `type`. */
  datatype ExtractedField = ExtractedField(
    labelText: string,
    value: string,
    fieldType: Option<string>,
    position: Option<string>,
    confidence: real,
    boundingBox: Option<BoundingBox>)

  datatype Table = Table(position: Option<string>, headers: seq<string>, rows: seq<seq<string>>)

  datatype Logo = Logo(description: string, position: string, text: Option<string>)

  datatype Signature = Signature(description: string, position: string, signatory: Option<string>)

  /** The keys of a parsed model reply that the server reads. */
  datatype Reply = Reply(
    documentType: Option<string>,
    extractedFields: Option<seq<ExtractedField>>,
    tables: Option<seq<Table>>,
    logos: Option<seq<Logo>>,
    signatures: Option<seq<Signature>>,
    fullText: Option<string>,
    content: Option<string>)

  /** The outcome of `JSON.parse` on a reply: it throws, it yields `null`, or it
      yields a value whose known keys are read (any value other than an object
      has none of them). */
  datatype JsonParse = SyntaxError | JsonNull | JsonValue(reply: Reply)

  /** What the server stores under an id and sends back as `data`. */
  datatype ExtractionResult = ExtractionResult(
    documentType: Option<string>,
    extractedFields: Option<seq<ExtractedField>>,
    tables: Option<seq<Table>>,
    logos: Option<seq<Logo>>,
    signatures: Option<seq<Signature>>,
    fullText: Option<string>,
    content: string,
    rawResponse: Option<Reply>,
    error: Option<string>)

  /** The `{ id, data }` answer of a successful extraction, as the client keeps it. */
  datatype Extraction = Extraction(id: string, data: ExtractionResult)

  const PdfType := "application/pdf"
  const ImagePrefix := "image/"
  const ParseFailure := "Failed to parse structured data"

  datatype ExtractionPath = TextPath | ImagePath | Unsupported

  /** The extraction path for an upload's MIME type: exactly `application/pdf` goes
      to the text path, a type starting with `image/` to the image path, and
      every other type is unsupported. */
  function PathFor(mimetype: string): (path: ExtractionPath)
    ensures path == TextPath <==> mimetype == PdfType
    ensures path == ImagePath <==> StartsWith(mimetype, ImagePrefix)
    ensures path == Unsupported <==> mimetype != PdfType && !StartsWith(mimetype, ImagePrefix)
  {
    assert PdfType[..|ImagePrefix|][0] != ImagePrefix[0];
    if mimetype == PdfType then TextPath
    else if StartsWith(mimetype, ImagePrefix) then ImagePath
    else Unsupported
  }

  /** The result of the image path for the model's reply text (`None` when the
      reply has no content). A reply that parses to a value gives defaults of
      `[]` for the four lists and of `fullText` or "" for the content; one that
      does not parse, or parses to `null` (whose key lookup throws), keeps the
      reply text as content with empty fields and tables and none of the
      other keys. The image path never sets `fullText`. */
  function ImageResult(reply: Option<string>, parse: string -> JsonParse): (r: ExtractionResult)
    ensures r.extractedFields.Some? && r.tables.Some? && r.fullText.None?
    ensures parse(OrDefault(reply, "{}")).JsonValue? ==>
      var p := parse(OrDefault(reply, "{}")).reply;
      && r.documentType == p.documentType
      && r.extractedFields.value == p.extractedFields.GetOr([])
      && r.tables.value == p.tables.GetOr([])
      && r.logos == Some(p.logos.GetOr([]))
      && r.signatures == Some(p.signatures.GetOr([]))
      && r.content == OrDefault(p.fullText, "")
      && r.rawResponse == Some(p) && r.error.None?
    ensures !parse(OrDefault(reply, "{}")).JsonValue? ==>
      && r.extractedFields.value == [] && r.tables.value == []
      && r.content == OrDefault(reply, "")
      && r.error == Some(ParseFailure)
      && r.documentType.None? && r.logos.None? && r.signatures.None? && r.rawResponse.None?
  {
    match parse(OrDefault(reply, "{}"))
    case JsonValue(p) =>
      ExtractionResult(
        p.documentType, Some(p.extractedFields.GetOr([])), Some(p.tables.GetOr([])),
        Some(p.logos.GetOr([])), Some(p.signatures.GetOr([])), None,
        OrDefault(p.fullText, ""), Some(p), None)
    case _ =>
      ExtractionResult(None, Some([]), Some([]), None, None, None, OrDefault(reply, ""), None, Some(ParseFailure))
  }

  /** The result of the text path for the PDF's text and the model's reply: the
      content is always the PDF text, overriding a parsed `content`; a reply
      that parses keeps its own keys, and one that does not gives empty fields. */
  function TextResult(text: string, reply: Option<string>, parse: string -> JsonParse): (r: ExtractionResult)
    ensures r.content == text
    ensures r.rawResponse.None? && r.error.None?
    ensures parse(OrDefault(reply, "{}")).SyntaxError? ==> r.extractedFields == Some([])
    ensures parse(OrDefault(reply, "{}")).JsonNull? ==> r.extractedFields.None?
    ensures !parse(OrDefault(reply, "{}")).JsonValue? ==>
      r.documentType.None? && r.tables.None? && r.logos.None? && r.signatures.None? && r.fullText.None?
    ensures parse(OrDefault(reply, "{}")).JsonValue? ==>
      var p := parse(OrDefault(reply, "{}")).reply;
      && r.documentType == p.documentType && r.extractedFields == p.extractedFields
      && r.tables == p.tables && r.logos == p.logos && r.signatures == p.signatures
      && r.fullText == p.fullText
  {
    match parse(OrDefault(reply, "{}"))
    case JsonValue(p) =>
      ExtractionResult(p.documentType, p.extractedFields, p.tables, p.logos, p.signatures, p.fullText, text, None, None)
    case JsonNull =>
      ExtractionResult(None, None, None, None, None, None, text, None, None)
    case SyntaxError =>
      ExtractionResult(None, Some([]), None, None, None, None, text, None, None)
  }

  /** One flat export row, with the keys `Label`, `Value`, `Type` and `Confidence`. */
  datatype Row = Row(labelText: string, value: string, rowType: string, confidence: real)

  function ExportRow(f: ExtractedField): Row {
    Row(f.labelText, f.value, OrDefault(f.fieldType, "text"), f.confidence)
  }

  /** One row per field, in order. */
  function RowsOf(fields: seq<ExtractedField>): (rows: seq<Row>)
    ensures |rows| == |fields|
    ensures forall k :: 0 <= k < |rows| ==>
      && rows[k].labelText == fields[k].labelText
      && rows[k].value == fields[k].value
      && rows[k].confidence == fields[k].confidence
      && rows[k].rowType == OrDefault(fields[k].fieldType, "text")
  {
    if fields == [] then []
    else RowsOf(fields[..|fields| - 1]) + [ExportRow(fields[|fields| - 1])]
  }

  /** The rows a download exports: one per extracted field and in the same order,
      with label, value and confidence copied and the type defaulting to `text`;
      none when the result has no `extractedFields`. */
  function ExportRows(r: ExtractionResult): (rows: seq<Row>)
    ensures |rows| == |r.extractedFields.GetOr([])|
    ensures forall k :: 0 <= k < |rows| ==>
      var f := r.extractedFields.value[k];
      rows[k] == Row(f.labelText, f.value, OrDefault(f.fieldType, "text"), f.confidence)
  {
    if r.extractedFields.Some? then RowsOf(r.extractedFields.value) else []
  }
}
