# Paper reader: history and page navigation

A model of the two state machines of the paper reader's browser front end, with proofs.

- **Text simplifier panel** (`TextSimplifier.Simplifier`). It holds:
  - the selected text, the simplified text on display, the reading level and a loading flag;
  - a browser-style history of past simplifications with a cursor, which starts at -1.

  A successful simplification discards every entry after the cursor, appends the new entry
  and moves the cursor onto it. Previous and Next move the cursor by one and copy the entry's
  fields into the view. Both do nothing at the edges, which is exactly where their buttons are
  disabled (`PreviousDisabled`, `NextDisabled`). The Simplify button is disabled without a
  selection or while a request is pending (`SimplifyDisabled`). The handler is split at its
  `await`: `BeginSimplify` returns the request, capturing the selection and level;
  `FinishSimplify` takes that request and the service's `Outcome`; `HandleSimplify` runs both
  back to back. The selection handler keeps a selection only if it has non-blank text. Blank
  means the characters that ECMAScript's `String.prototype.trim` removes (module `JsText`,
  after sections 12.2 and 12.3 of the ECMAScript language specification).
- **PDF viewer** (`PdfViewer.Viewer`). It holds the chosen file, the page count (`None` until
  the document loads), the current page (starts at 1) and the last load error. The "<" and ">"
  buttons clamp the page with `max(1, page - 1)` and `min(numPages, page + 1)`. The ">" button
  compares against `null` before loading, which JavaScript treats as 0, so it is disabled then.
  Choosing a new file keeps the old page count until the new document loads, so the page can
  end up past the new document's last page (`StalePageCountAfterFileChange`).

Both classes are sequential: each handler runs to completion before the next event.

## Model

| member | source | states |
|---|---|---|
| JsText.TrimStart | frontend/src/components/TextSimplifier.js:17 | the result is a suffix of the input, has no leading white space, and only white space was removed |
| JsText.TrimEnd | frontend/src/components/TextSimplifier.js:17 | the result is a prefix of the input, has no trailing white space, and only white space was removed |
| JsText.Trim | frontend/src/components/TextSimplifier.js:17 | the trimmed selection is empty or starts and ends with a non-white-space character |
| JsText.TrimWindow | frontend/src/components/TextSimplifier.js:17 | the trimmed selection is a contiguous window of the raw selection, with only white space outside it |
| JsText.TrimEmptyIff | frontend/src/components/TextSimplifier.js:17-18 | the trimmed selection is empty exactly when the raw selection is all white space |
| JsText.TrimClean | frontend/src/components/TextSimplifier.js:17 | a string with no white space at either end is unchanged by trimming |
| JsText.TrimIdempotent | frontend/src/components/TextSimplifier.js:17 | trimming twice equals trimming once |
| TextSimplifier.Append | frontend/src/components/TextSimplifier.js:48 | entries up to the cursor are kept, the new entry follows them, and it is the last one (length cursor + 2) |
| TextSimplifier.AppendKeepsCursorInRange | frontend/src/components/TextSimplifier.js:48-49 | after an append the advanced cursor is in range and on the last entry |
| TextSimplifier.AppendAtTail | frontend/src/components/TextSimplifier.js:48 | with the cursor on the last entry nothing is discarded |
| TextSimplifier.AppendAfterGoingBack | frontend/src/components/TextSimplifier.js:48-49 | [A, B, C] with the cursor at 1, appending D, gives [A, B, D] with the cursor at 2 |
| TextSimplifier.PositionOf | frontend/src/components/TextSimplifier.js:104 | the label reads (cursor + 1) / length: 0 / 0 when empty, otherwise between 1 and the length |
| TextSimplifier.SucceedAsWritten | frontend/src/components/TextSimplifier.js:48-49 | as written: the history keeps the entries up to the cursor captured at send time (all of them if that cursor is past the end), then the new entry; the cursor is incremented from its current value |
| TextSimplifier.SucceedAsWrittenWithoutNavigation | frontend/src/components/TextSimplifier.js:48-49 | when the cursor does not move while the request is pending, the code as written equals the one-cursor append |
| TextSimplifier.StaleCursorEscapesHistory | frontend/src/components/TextSimplifier.js:48-49 | as written, pressing Next while a request is pending leaves the cursor past the end of the history |
| TextSimplifier.Simplifier.constructor | frontend/src/components/TextSimplifier.js:8-13 | empty selection and text, level medium, not loading, empty history, cursor -1 |
| TextSimplifier.Simplifier.HandleTextSelection | frontend/src/components/TextSimplifier.js:15-21 | the selection becomes the trimmed text when that is non-empty; otherwise the old selection stays; nothing else changes |
| TextSimplifier.Simplifier.SelectLevel | frontend/src/components/TextSimplifier.js:82-85 | the level becomes the chosen option; nothing else changes |
| TextSimplifier.Simplifier.BeginSimplify | frontend/src/components/TextSimplifier.js:30-41 | with no selection no request is made and no state changes; otherwise loading starts, the Simplify button is disabled, and the request carries the selection and level |
| TextSimplifier.Simplifier.FinishSimplify | frontend/src/components/TextSimplifier.js:42-56 | success: the history is the browser-history append of the captured selection, the returned text and the captured level, the cursor is on it, and the text is shown verbatim; failure: history and cursor unchanged, the fixed failure message shown; loading ends either way; the success count grows by one only on success; the cursor invariant holds |
| TextSimplifier.Simplifier.HandleSimplify | frontend/src/components/TextSimplifier.js:30-57 | the whole handler: a request is sent exactly when there is a selection, with the outcomes above |
| TextSimplifier.Simplifier.GoToPrevious | frontend/src/components/TextSimplifier.js:59-67 | a no-op exactly when Previous is disabled (line 100); otherwise the cursor moves back one and the view shows that entry; the history is unchanged |
| TextSimplifier.Simplifier.GoToNext | frontend/src/components/TextSimplifier.js:69-77 | a no-op exactly when Next is disabled (line 107); otherwise the cursor moves forward one and the view shows that entry; the history is unchanged |
| TextSimplifier.Simplifier.PreviousThenNext | frontend/src/components/TextSimplifier.js:59-77 | Previous then Next returns the cursor to the same entry and shows it, without changing the history |
| PdfViewer.StepBack | frontend/src/components/PDFViewer.js:59 | the page never drops below 1; it goes back one when "<" is enabled and stays put on page 1 |
| PdfViewer.StepForward | frontend/src/components/PDFViewer.js:66 | the page never exceeds the page count; it goes forward one when ">" is enabled and stays put on the last page |
| PdfViewer.StepsStayInBounds | frontend/src/components/PDFViewer.js:59-66 | from a page between 1 and the page count, both steps stay between 1 and the page count |
| PdfViewer.StepsAreInverse | frontend/src/components/PDFViewer.js:58-68 | where the button was enabled, forward undoes back and back undoes forward |
| PdfViewer.NextEnabledOnlyAfterLoad | frontend/src/components/PDFViewer.js:67 | ">" is enabled only once the page count is known and the page is before the last one |
| PdfViewer.Viewer.constructor | frontend/src/components/PDFViewer.js:9-13 | no file, no page count, page 1, no error |
| PdfViewer.Viewer.HandleFileChange | frontend/src/components/PDFViewer.js:15-19 | the file is recorded and the page is back to 1; the page count and any load error are untouched |
| PdfViewer.Viewer.OnDocumentLoadSuccess | frontend/src/components/PDFViewer.js:21-23 | the page count is set and nothing else changes |
| PdfViewer.Viewer.OnDocumentLoadError | frontend/src/components/PDFViewer.js:25-28 | the error message is recorded and nothing else changes |
| PdfViewer.Viewer.GoToPreviousPage | frontend/src/components/PDFViewer.js:58-61 | the page becomes max(1, page - 1), a no-op exactly where "<" is disabled, and stays in bounds |
| PdfViewer.Viewer.GoToNextPage | frontend/src/components/PDFViewer.js:65-68 | the page becomes min(count, page + 1), a no-op exactly where ">" is disabled, and stays in bounds |
| PdfViewer.Viewer.StalePageCountAfterFileChange | frontend/src/components/PDFViewer.js:15-23 | a 5-page file, then a 2-page file with ">" pressed four times before it loads, ends on page 5 of 2, out of bounds |

## Left out

- The backend (`backend/server.js`): PDF text extraction, the call to the language-model API and the server start-up. It is I/O over external libraries. Its request ignores `context` and `level`, so there is no per-level prompt to model.
- The request to the simplification service (frontend/src/components/TextSimplifier.js:37-41). It is a network call; its outcome is the `Outcome` parameter of `FinishSimplify`.
- The `mouseup` listener, `window.getSelection`, `alert`, `console.error` and the clipboard button. They are browser APIs; a selection arrives as a string parameter.
- Rendering: Markdown display, the react-pdf `Document` and `Page`, and the worker and character-map settings.
- The zoom scale of the PDF viewer. It is floating-point arithmetic in unbounded steps of 0.1.
- `App.js`, which only composes the two components.
- HandleTextSelection: characters are Unicode scalar values; JavaScript's UTF-16 code units are not modelled.
- GoToNextPage: requires the page count to be known. Before load, JavaScript's `Math.min(null, page + 1)` gives 0, which is not meaningful; the button is disabled then anyway (`NextEnabledOnlyAfterLoad`).
- FinishSimplify: uses the current cursor both to cut the history and as the base of the increment. The source uses the cursor captured at send time for the cut, so the two differ if the user navigates while a request is pending (see Findings).
- React's deferred state updates are not modelled: each handler's updates take effect at once and in order.

## Findings

| source | as written | input that shows it | evidently intended | confidence | as-written member | corrected member |
|---|---|---|---|---|---|---|
| frontend/src/components/TextSimplifier.js:48-49 | the history is cut at the cursor captured when the request was sent, but the cursor is incremented from its value when the response arrives | history [A, B], cursor on A, Simplify, then Next while pending (cursor on B), success with D: history [A, D], cursor 2, label "3 / 2" | cut and increment at the same cursor, leaving the cursor on the new last entry | medium, not executed | TextSimplifier.StaleCursorEscapesHistory | TextSimplifier.Simplifier.FinishSimplify |
