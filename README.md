# IDP app: extraction store, event stream and client state, in Dafny

This project models the core of a small intelligent-document-processing web
application. An Express server accepts a PDF or an image and has a language
model extract label/value fields from it. It keeps each result in an
in-memory map under a generated id, exports a result's fields as CSV or XLSX
rows, and streams chat answers about a result as a `text/event-stream`.
A React client uploads files, shows and edits the extracted fields, pages
through the document, downloads exports and reads the chat stream back.

The modules follow the program's files:

- `Js` (js.dfy): JavaScript values and string operations the code relies on:
  `null`/`undefined`, settled promises, `s || d`, `trim`, `startsWith`,
  `split('\n')` and concatenation.
- `Json` (json.dfy): the one JSON text the chat handler writes,
  `JSON.stringify({ content })`, spelt out as ECMA-262 (JSON.stringify and
  QuoteJSONString) defines it, and a reference decoder for that shape.
- `Extraction` (extraction.dfy): the result records, the MIME-type dispatch,
  the normalisation of the model's reply on the image and text paths
  (`extractFromImage`, `extractFromText`), and the export rows.
- `EventStream` (event_stream.dfy): the server's framing loop
  (`data: <json>\n\n` per non-empty token, then `data: [DONE]\n\n`, a subset
  of the `text/event-stream` format of section 9.2 of the HTML Standard), the
  client's line-by-line reading of it, and the round trip between the two.
- `Server` (server.dfy): class `ExtractionServer` holding the `extractedData`
  map, with the `/api/extract`, `/api/download/:id/:format` and `/api/chat`
  handlers, and the download route's parameter matching.
- `Chat` (chat.dfy): class `ChatPanel`: the send guard, the message list and
  the loop that reads the stream into the assistant's message.
- `Upload` (upload.dfy), `Form` (form.dfy), `Viewer` (viewer.dfy),
  `Home` (home.dfy): the file picker's MIME filter, the form's single-entry
  edit and type icons, the viewer's page navigation, and the page's file
  list, extraction, download and highlight state.

Calls into code that is not modelled are parameters. These are the model API
(`completeText`, `completeImage`, `streamChat`), pdf-parse (`pdfToText`),
`JSON.parse` (`parseJson`, and `parse` on the client), and the CSV and XLSX
writers (`toCsv`, `toXlsx`). A call that may reject yields an
`Attempt` (`Returned(value)` or `Threw`). `Date.now().toString()` becomes the
`id` parameter of `Extract`. A ghost counter `modelCalls` records the
model-API calls, so the handlers' contracts can say when none is made.

The chat round trip (`EventStream.ChatRoundTrip`) rests on two assumptions.
First, the client's parser inverts the server's encoding:
`parse(Json.EncodeContent(t)) == Some(t)`. `ChatRoundTripReference` shows this
is satisfiable by discharging it for the reference decoder. Second, every read
but the last ends at a line break (`WholeLines`). The client does not buffer a
line cut across two reads, so nothing is claimed without this. That the
encoded payload holds no line break, and that no content frame reads as
`[DONE]`, are proved from the encoder rather than assumed.

## Model

| member | source | states |
|---|---|---|
| Js.Trim | app/components/chat-panel.tsx:33-35 | `input.trim()` is empty exactly when the input is all ECMAScript white space; otherwise it starts and ends with a non-white-space character; it is the input without its leading white space, cut where only white space follows, so everything between its ends is kept |
| Js.Split | app/components/chat-panel.tsx:60 | `chunk.split('\n')` yields at least one piece, and no piece holds a line break |
| Js.JoinSplit | app/components/chat-panel.tsx:60 | joining the pieces of a split with `\n` gives the chunk back |
| Js.SplitAround | app/components/chat-panel.tsx:60 | a line break splits a text into the lines before it followed by the lines after it |
| Json.Escape | server/server.ts:271 | the body of the JSON string literal for any text never holds a line break |
| Json.EncodeContent | server/server.ts:271 | `JSON.stringify({ content })` is a single line starting with `{`, so it can never be the payload `[DONE]` |
| Json.UnescapeEscape | server/server.ts:271 | reading the escaped string literal body back gives the original text |
| Json.DecodeEncode | server/server.ts:271 | the reference decoder reads back every text the chat handler encodes |
| Extraction.PathFor | server/server.ts:191-198 | exactly `application/pdf` takes the text path, a type starting with `image/` the image path, and every other type is unsupported (each an if-and-only-if) |
| Extraction.ImageResult | server/server.ts:125-146 | a reply that parses keeps `documentType`, defaults the four lists to `[]` and the content to `fullText` or `''`, keeps the parsed reply as `rawResponse` and has no error; a reply that fails to parse, or parses to `null`, has empty fields and tables, the raw reply (or `''`) as content, the error "Failed to parse structured data", and no `documentType`, `logos`, `signatures` or `rawResponse`; `fullText` is never set |
| Extraction.TextResult | server/server.ts:169-180 | the content is always the PDF text, overriding any parsed `content`; a parse failure gives `extractedFields = []` and `null` no fields, and neither has any of the other parsed keys; a parsed reply's keys are copied |
| Extraction.ExportRows | server/server.ts:218-223 | one row per extracted field in the same order, with `Label`, `Value` and `Confidence` copied and `Type` defaulting to `text` (also for `''`); no rows without `extractedFields` |
| EventStream.Tokens | server/server.ts:268-270 | the tokens written are the non-empty upstream contents, never more of them than chunks |
| EventStream.TokensOne | server/server.ts:268-270 | one chunk yields its content as a token exactly when the content is present and non-empty |
| EventStream.TokensAppend | server/server.ts:268-270 | tokens are taken chunk by chunk: the tokens of two runs of chunks are those of the first followed by those of the second, so no chunks are merged or split |
| EventStream.TokensKeepText | server/server.ts:268-270 | dropping missing and empty contents loses no text: the tokens concatenate to the whole upstream text |
| EventStream.EventStreamShape | server/server.ts:268-275 | one content frame per token, in order, followed by exactly one `data: [DONE]` frame, which no content frame equals |
| EventStream.WriteEventStream | server/server.ts:268-275 | the frames the handler's loop writes are exactly the specified frame sequence |
| EventStream.ChunkTextAppend | app/components/chat-panel.tsx:59-77 | when a text ends at a line break, reading it and what follows in one read gives the same content as reading them separately |
| EventStream.StreamTextOfWholeLines | app/components/chat-panel.tsx:55-78 | when every read but the last ends at a line break, the content read is that of the concatenated reads |
| EventStream.ContentFrameText | app/components/chat-panel.tsx:62-75 | a content frame read by the client contributes exactly its token, given a parser that inverts the encoding |
| EventStream.DoneFrameText | app/components/chat-panel.tsx:65 | the `[DONE]` frame contributes nothing |
| EventStream.ChatRoundTrip | app/components/chat-panel.tsx:55-78 | reading the frames `server/server.ts:268-274` writes, in whole-line reads, yields the whole upstream text in order |
| EventStream.ChatRoundTripReference | app/components/chat-panel.tsx:55-78 | the round trip holds for the reference JSON decoder, so its assumption on the parser can be met |
| EventStream.FramesAreWholeLines | server/server.ts:271-274 | every frame the server writes ends at a line break, so reads that deliver whole frames meet the round trip's assumption |
| Server.MatchDownloadPath | server/server.ts:210-211 | a matched download path is the literal `/api/download/` in any letter case, a non-empty `id` segment, `/`, and a non-empty `format` segment, with at most one trailing `/` |
| Server.MatchDownloadPathOf | server/server.ts:210-211 | every pair of non-empty segments is matched back from the path it forms, whatever the letter case of the literal part |
| Server.ExtractionServer.constructor | server/server.ts:38 | the store starts empty and no model call has been made |
| Server.ExtractionServer.Extract | server/server.ts:183-208 | no file, or an unsupported type, gives 400 with no model call and no store change; pdf-parse or model failure gives 500 with the store unchanged; success stores the result under `id`, overwriting any entry with that id and changing no other, and returns that id and exactly that data |
| Server.ExtractionServer.Download | server/server.ts:210-241 | an unknown id gives 404 before the format is looked at; `csv` and `xlsx` send their writer's output of the export rows with their content type and file name; any other format gives 400; the store is only read |
| Server.ExtractionServer.Chat | server/server.ts:243-279 | an unknown id gives 404 with no model call; otherwise one model call with the stored result and the message, 500 when it rejects, and otherwise the event-stream frames of its tokens; the store is only read |
| Chat.ChatPanel.constructor | app/components/chat-panel.tsx:19-21 | no messages, empty input, not loading |
| Chat.ChatPanel.ReceiveExtractedDataId | app/components/chat-panel.tsx:18 | a new `extractedDataId` prop without a remount (no `key` at `app/page.tsx:202-205`) changes the id later questions are sent about and keeps the conversation |
| Chat.ChatPanel.SetInput | app/components/chat-panel.tsx:118 | the input takes the typed text |
| Chat.ChatPanel.BeginSend | app/components/chat-panel.tsx:32-38 | blank input or a request in flight changes nothing and sends nothing; otherwise exactly one user message with the trimmed input is appended, the input is cleared, loading is set, and the request carries the panel's id and the trimmed input |
| Chat.ChatPanel.FinishSend | app/components/chat-panel.tsx:40-88 | a rejected fetch or a response that is not ok appends one error reply; a stream appends one assistant message whose content is the text read, followed by the error reply when a read rejects; earlier messages are unchanged; loading ends false on every path |
| Chat.ChatPanel.ReadChunk | app/components/chat-panel.tsx:59-77 | after the lines of one read the last message shows the reply so far followed by this read's content, and every earlier message is unchanged |
| Chat.ChatPanel.ReadLine | app/components/chat-panel.tsx:63-76 | a `data: ` line whose payload is not `[DONE]` and parses adds its content to the last message; any other line changes nothing |
| Chat.ReplyIsModelText | app/components/chat-panel.tsx:62-73 | the assistant's reply, read in whole lines from the server's frames, is the concatenation of the non-empty upstream tokens |
| Upload.ValidFiles | app/components/file-upload.tsx:16-19 | a file is kept exactly when it was chosen and its type is `application/pdf` or starts with `image/`; never more files than chosen |
| Upload.ValidFilesAppend | app/components/file-upload.tsx:16-19 | filtering keeps the original order: the kept files of a concatenation are those of each part in turn |
| Upload.ValidFilesOfAccepted | app/components/file-upload.tsx:16-19 | a list of accepted files passes the filter unchanged |
| Upload.ValidFilesIdempotent | app/components/file-upload.tsx:16-19 | filtering the kept list again returns it unchanged |
| Upload.AcceptedIsExtractable | app/components/file-upload.tsx:16-19 | the picker accepts exactly the types the server's dispatch (`server/server.ts:191-198`) does not refuse |
| Upload.FileUpload.HandleFileChange | app/components/file-upload.tsx:14-29 | the callback gets the kept files, and is invoked exactly when at least one is kept; the input is reset to `''` in every case |
| Form.TypeIcon | app/components/extraction-form.tsx:50-61 | `logo`, `signature` and `stamp` map to the image, pen and stamp icons, and every other type, or none, to the text icon (each an if-and-only-if) |
| Form.EditField | app/components/extraction-form.tsx:37-38 | an edit keeps the number of fields and every other entry; in the edited entry the named key takes the new text, and the other key, `type`, `position`, `confidence` and `boundingBox` are untouched |
| Form.EditUndo | app/components/extraction-form.tsx:37-38 | typing the old text back restores the list |
| Form.EditOverwrites | app/components/extraction-form.tsx:37-38 | of two edits of the same key of the same entry only the last counts |
| Form.EditsCommute | app/components/extraction-form.tsx:37-38 | edits of different entries commute |
| Form.ExtractionForm.constructor | app/components/extraction-form.tsx:34 | the form's list starts as the extraction's `extractedFields` |
| Form.ExtractionForm.ReceiveData | app/components/extraction-form.tsx:33-34 | a new `data` prop without a remount (no `key` at `app/page.tsx:186-190`) replaces the prop and leaves the form's list as it was |
| Form.ExtractionForm.ReceiveDataKeyed | app/components/extraction-form.tsx:33-34 | the corrected render, keyed by id: another extraction resets the list to that extraction's fields, so the form shows what it edits; the form's own update passed back keeps the list |
| Form.ExtractionForm.HandleChange | app/components/extraction-form.tsx:36-48 | the edited list becomes the form's state, and `onUpdate` gets the same id and other data with that list as `extractedFields`; when the list is the shown extraction's fields, the update is that extraction with one entry edited |
| Form.StaleFormEditsOldFields | app/components/extraction-form.tsx:34-47 | after extraction `1` with field `Total` and then extraction `2` with field `Name`, an edit sends extraction `2` holding the edited `Total` field |
| Form.KeyedFormEditsNewFields | app/components/extraction-form.tsx:34-47 | with the keyed form the same steps send extraction `2` holding its own edited `Name` field |
| Form.ExtractionForm.ShowsNoFieldsMessage | app/components/extraction-form.tsx:143 | "No fields extracted" is shown exactly when the form's fields would export no rows |
| Viewer.DocumentViewer.constructor | app/components/document-viewer.tsx:25-26 | page and page count both start at 1 |
| Viewer.DocumentViewer.Previous | app/components/document-viewer.tsx:97-103 | the page becomes `max(1, p - 1)`, so it never goes below 1 and a valid state stays valid; when enabled it moves back exactly one page, and when disabled the page would not change |
| Viewer.DocumentViewer.Next | app/components/document-viewer.tsx:107-113 | the page becomes `min(numPages, p + 1)`, so it never passes the count and a valid state stays valid; when enabled it moves on exactly one page, and when disabled the page would not change |
| Viewer.DocumentViewer.OnLoadSuccess | app/components/document-viewer.tsx:83 | the count is replaced and the page kept; the state stays valid exactly when the new count is at least the page shown |
| Viewer.DocumentViewer.OnLoadSuccessClamped | app/components/document-viewer.tsx:83 | the corrected load: the page is clamped into the new document, so any document with at least one page leaves the viewer valid, and a page that still exists is kept |
| Viewer.ShorterDocumentOverrunsPage | app/components/document-viewer.tsx:83 | page 3 of a five-page PDF, then a two-page PDF, leaves the viewer on page 3 of 2 |
| Viewer.ShorterDocumentClampsPage | app/components/document-viewer.tsx:83 | with the corrected load the same steps leave the viewer on page 2 of 2 |
| Home.DownloadUrlRoutes | app/page.tsx:83 | the page's download URL reaches the download route (`server/server.ts:210`) with the same id and format, and the format is always one the handler serves |
| Home.ExtractAlert | app/page.tsx:66-74 | no alert on success; on a refusal the server's error, or "Extraction failed" when it has none; on a rejection "Failed to extract document" |
| Home.HomePage.constructor | app/page.tsx:40-45 | no files, no selection, no extracted data, not loading, nothing highlighted |
| Home.HomePage.HandleFilesSelected | app/page.tsx:47-52 | the list becomes the old files followed by the new ones in order; the first new file becomes the selection only when there was none and some file is new; a selection among the files stays among them |
| Home.HomePage.SelectFile | app/page.tsx:143 | the clicked thumbnail's file becomes the selection |
| Home.HomePage.BeginExtract | app/page.tsx:54-59 | without a selection nothing happens; otherwise loading is set and the selected file is sent |
| Home.HomePage.FinishExtract | app/page.tsx:61-77 | an ok answer replaces the extracted data; a refusal or rejection keeps it and alerts; loading ends false on every path |
| Home.HomePage.HandleDownload | app/page.tsx:80-91 | nothing without extracted data; otherwise a request for `/api/download/<id>/<format>` saved as `extracted.<format>` |
| Home.HighlightTypeText | app/page.tsx:101 | the `type` in the alert reads `undefined` exactly when none is passed, and otherwise is `label`, `value` or `both` |
| Home.HomePage.HandleFieldClick | app/page.tsx:93-102 | the highlighted field becomes the clicked field tagged with the given `type`, possibly `undefined`, and the alert names that type, the label and the value |
| Home.HomePage.ClickFormField | app/components/extraction-form.tsx:94 | a click on a form field as written passes no `type`: the highlight carries no part and the alert reads "Selected undefined: <label> = <value>" |
| Home.HomePage.ClickFormFieldPart | app/components/extraction-form.tsx:94 | the corrected click passes the part clicked: the highlight is tagged with it and the alert names it, never `undefined` |
| Home.HomePage.UpdateExtraction | app/page.tsx:188 | the form's update replaces the extracted data |

## Left out

- The model-API calls and prompt texts (server/server.ts:41-123, 151-167, 252-262) are network calls: they are the opaque collaborator functions, and a model call's outcome is a parameter.
- pdf-parse, sharp, Papaparse, and XLSX workbook writing are libraries not shown: `pdfToText`, `toCsv` and `toXlsx` are opaque functions of the buffer and the rows.
- `JSON.parse` is not modelled in general. Only the shape of a parsed reply that the handlers read is kept (`Reply`), plus the three outcomes that matter: a syntax error, `null`, or a value. On the client, `parse` stands for `JSON.parse(data).content` converted to a string. A parsed value without `content` therefore appends whatever text the parser yields, such as "undefined".
- Extraction.TextResult: keys of a parsed reply other than the seven the model names are not carried into the result, although the object spread in `extractFromText` would copy them.
- Express, multer, cors and dotenv setup, `app.listen`, and console logging (server/server.ts:1-35, 281-284) are plumbing. Express's percent-decoding of route parameters is also not modelled.
- The Next.js route appended to server/server.ts:286-299 is dead code that uses a different client.
- `Date.now().toString()` is clock-dependent: the id is a parameter of `Extract`, so two extractions in the same millisecond overwrite each other, as the `Map.set` contract shows.
- Server.ExtractionServer.Chat: an upstream error in the middle of a stream, after headers have been sent, is not modelled. The model API's stream is the sequence of its chunk contents.
- `ReadableStream` reads, `TextDecoder` and async interleaving are transport concerns. A read is its decoded text, and `handleSend` is split at its `await` into `BeginSend` and `FinishSend`, so interleaved sends are not modelled. The UI's disabled Send button is not modelled either; `BeginSend` guards itself.
- Floating-point display logic (zoom scale, the confidence percentage, the size in KB) is left out. Confidence and bounding boxes are `real`s that the model only copies.
- Browser and DOM side effects are left out: rendering, styling, `scrollIntoView`, object URLs, anchor clicks, and showing an `alert`. Alert texts are returned as values instead.
- Form.ExtractionForm.constructor requires `extractedFields`: without it the component fails on its first render (`formData.map`), and that failure is not modelled.
- Form.ExtractionForm.HandleChange requires an index within the list. Every caller passes the index of a rendered entry; the array growth a larger index would cause is not modelled.
- Edits in the form stay in the page's state (`app/page.tsx:188`). A download asks the server (`app/page.tsx:83`), which exports its own stored result (`server/server.ts:212-223`), so an edit never reaches an export. No member states anything about edited exports.
- Chat.ChatPanel.ReceiveExtractedDataId: after another extraction the open panel keeps the earlier conversation and sends later questions about the new id. This is modelled as written and not flagged as a defect, since the server answers each question on its own.
- Server.MatchDownloadPath: the path is the request's pathname; a query string and Express's percent-decoding of parameters are not modelled.
- Home.HomePage.SelectFile compares files by value, whereas the page compares them by identity (`===`).
- Upload.FileUpload.HandleFileChange assumes the input element is mounted (`inputRef.current` is not null).
- The chat toggle (`showChat`), the close button and the viewer's image branch only switch what is shown.
- app/components/document-viewer_BU.tsx holds only zoom and overlay rendering. next.config.js is build configuration.
- The line-oriented fallback parser and the rounded `Confidence%` column exist only in the unused backup route `app/api/[...path]/route_BU.ts`, which is not part of this model.

## Findings

| source | as written | input that shows it | evidently intended | confidence | as-written member | corrected member |
|---|---|---|---|---|---|---|
| app/components/document-viewer.tsx:83 | `onLoadSuccess` replaces `numPages` but keeps `pageNumber`. The page renders one `DocumentViewer` without a `key`, so selecting another file keeps the page number | view page 3 of a five-page PDF, then select a two-page PDF: the viewer shows "Page 3 of 2" and asks for a page the document does not have | the page is clamped into the new document, so `1 <= pageNumber <= numPages` always holds | medium; not executed | Viewer.ShorterDocumentOverrunsPage | Viewer.DocumentViewer.OnLoadSuccessClamped |
| app/components/extraction-form.tsx:94 | the form calls `onFieldClick?.(item)` with the field alone, but the page's `handleFieldClick(field, type)` (`app/page.tsx:93-101`) expects the part clicked, so `type` is `undefined` | click any field of the form: the highlight's `highlightType` is `undefined` and the alert reads "Selected undefined: Total = 10" | the click passes the part clicked, so the highlight is tagged with it and the alert names it | high; not executed | Home.HomePage.ClickFormField | Home.HomePage.ClickFormFieldPart |
| app/components/extraction-form.tsx:34 | `useState(data.data.extractedFields)` reads the prop only on mount, and the page renders the form without a `key` (`app/page.tsx:186-190`), so a new extraction does not reach the form's list | extract one file, then another: editing a field sends the second extraction's id with the first extraction's fields, and `setExtractedData` replaces the second extraction's fields with them | the form starts again from each new extraction's fields (a `key` of the extraction's id), so an edit changes the extraction shown | high; not executed | Form.StaleFormEditsOldFields | Form.ExtractionForm.ReceiveDataKeyed |
