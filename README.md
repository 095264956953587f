# OCR batch client: queue reconciliation and box overlay, in Dafny

This project models the client-side logic of a React front end that sends
batches of images to an OCR-to-PDF backend. It covers three parts.

- **Reconciliation engine** (`src/App.js`). The processing queue, the
  `isProcessing` flag, the active tab and the batch size are the fields of
  the class `App.Engine`. These transitions change them:
  - submitting a batch;
  - the optimistic "processing" step;
  - merging the upload response, by file name with a fallback to position;
  - failing every item on a transport error;
  - the polling tick, with its batch-completion test;
  - restoring the persisted UI state.

  Each method applies a pure function from module `Queue` or
  `Persistence`, and the lemmas are proved about those functions.
- **Overlay renderer** (`src/components/ReviewGallery.js`).
  `ReviewGallery.Canvas.DrawBoundingBoxes` resizes and clears the surface.
  It then loops over the detail record's blocks and draws an outline and a
  1-based label for each well-formed box. The box is scaled from the
  image's natural size to its displayed size in exact `real` arithmetic.
  The gallery's index moves with previous, next and thumbnail clicks over
  the successful results.
- **Queue view** (`src/components/ProcessingQueue.js`). The summary counts
  and each row's status text, progress bar and time.

Module `Types` holds the server record, the queue item, JavaScript
truthiness and `find` by file name. Module `Decimal` holds `String(n)` for
naturals, which builds the item ids and the box labels.

In several places the code behaves differently from what one might expect
of a batch client; the model follows the code:
- The poll merge re-examines every item, terminal ones included. A server
  record can therefore reopen a finished item (`Queue.PollMergeReopensTerminal`).
- `handleFilesUpload` has no guard against an empty file list. The caller
  in `FileUpload.js` checks for one, so the model accepts any list.
- Take three files where the upload response has no record for `c.png`.
  One might expect `c.png` to succeed on a later poll. In the code the
  positional fallback finds no record for it, so
  `c.png` fails, and the `finally` clause clears `isProcessing`, so no poll
  follows (`App.UploadScenario`).
- The batch size is not clamped to 1–10 anywhere in this code.
- The code never checks that a loaded image has a non-zero natural size
  before it divides by that size. `DrawBoundingBoxes` states this as a
  precondition.
- `skipped` is terminal for the engine (`src/App.js:99`), but the queue view
  counts it as pending. `ProcessingQueue.SkippedShownAsPending` proves that a
  finished batch shows exactly its skipped items under "Pending".

## Model

| member | source | states |
|---|---|---|
| `Types.FindIndex` | src/App.js:88 | `find` by `original_filename`: the index of the first record with the name, and none exactly when no record has it |
| `Types.FindByName` | src/App.js:88 | the record found is the first in the list that carries the name; `None` exactly when no record carries the name |
| `Decimal.Show` | src/App.js:135 | `String(n)`: a non-empty string of decimal digits, a single digit exactly for `n < 10`, with no leading zero except for 0 itself; with `Decimal.ParseShow` this is the canonical numeral |
| `Decimal.ShowInjective` | src/App.js:135 | distinct numbers print as distinct decimal strings (through the parse round trip `Decimal.ParseShow`) |
| `Decimal.ParseShow` | src/App.js:135 | reading back the decimal text of `n` gives `n` |
| `Queue.ItemId` | src/App.js:135 | `${Date.now()}-${index}`: the time's digits, a dash, then digits that read back as the index |
| `Queue.ItemIdInjective` | src/App.js:135 | `<time>-<index>` ids with the same time are equal only for equal indices |
| `Queue.NewQueue` | src/App.js:134-139 | one item per file in file order, each pending at 0% with no result or error, ids distinct within the batch |
| `Queue.MarkProcessing` | src/App.js:154-156 | every item becomes `processing` at 50%, length and everything else kept |
| `Queue.MarkProcessingNotDone` | src/App.js:154-156 | a non-empty batch in the processing step is never wholly terminal |
| `Queue.UploadMatch` | src/App.js:169-171 | when some record carries the name, the first such record; otherwise the record at the item's position, or nothing past the end of the list; always a record of the response |
| `Queue.UploadStatus` | src/App.js:175 | a record with a truthy status gives exactly that status; no record, or one whose status is missing or empty, gives `failed`; never empty |
| `Queue.UploadMerge` | src/App.js:167-179 | length kept; each item keeps id, name and error, reaches 100%, stores the first record with its name, else the record at its position, else nothing; status is that record's status or `failed` |
| `Queue.UploadMergeJoinsByName` | src/App.js:169-171 | when some record carries an item's name, the item is joined with the first such record, wherever it stands |
| `Queue.UploadMergeStatusFromRecord` | src/App.js:175 | an item that does not end `failed` has a stored record that reported exactly that status |
| `Queue.UploadMergeInOrder` | src/App.js:168-171 | when the response lists the same distinct names in submission order, item `i` gets record `i`, so the join by name and the fallback by position agree |
| `Queue.UploadMergeForeignRecord` | src/App.js:169-175 | the positional fallback attaches another file's record and copies its `success` onto the item |
| `Queue.MarkFailed` | src/App.js:196-202 | every item becomes `failed` with the error message, nothing else changes, and the queue is wholly terminal |
| `Queue.PollMergeItem` | src/App.js:88-97 | id, name and error kept; an item without a record of its name is returned unchanged; otherwise it stores the first record of its name; a truthy record status is taken with progress 100, and a missing or empty one keeps the item's status and progress |
| `Queue.PollMerge` | src/App.js:87-98 | length, order, ids, names and errors kept; an item with no matching record is unchanged; a matched item stores the first match, takes its status if it has one (else keeps its own), and 100% only in that case |
| `Queue.PollMergeIdempotent` | src/App.js:87-98 | merging twice with the same server list equals merging once |
| `Queue.PollMergeReopensTerminal` | src/App.js:87-98 | a `success` item matched to a record saying `processing` goes back to `processing` |
| `Queue.AllTerminal` | src/App.js:99 | the `every` completion test: a batch that passes has no pending or processing item, and an empty queue passes vacuously |
| `Queue.PollTick` | src/App.js:85-105 | an empty queue is returned as is and never completes; otherwise the merged queue, and completion exactly when it is non-empty and every status is `success`, `failed` or `skipped` |
| `Queue.ResumeCompletes` | src/App.js:79-105 | a restored non-empty queue, whatever its mix of statuses, completes in one tick when the first record with each item's name reports a terminal status; other records in the list do not matter |
| `Queue.ResumeIgnoresOtherRecords` | src/App.js:83-100 | a still-processing record for another file in the server's list does not stop a batch whose own file is done |
| `Persistence.Restore` | src/App.js:52-66 | no saved value, or one that is not an object, gives the defaults `'upload'`, `[]`, `false`, `5`; a saved object installs each field only when it has the expected shape |
| `Persistence.Snapshot` | src/App.js:69-76 | the persisted payload is an object with exactly the four keys, each of the shape restore accepts |
| `Persistence.RestoreSnapshot` | src/App.js:54-76 | restoring the persisted tuple returns the same state, except that an empty tab name restores as `'upload'` |
| `Persistence.RestorePartial` | src/App.js:58-61 | a `batchSize` that is not a number, whatever else it is, falls back to 5 and does not affect the other fields |
| `App.ResultsOrEmpty` | src/App.js:84 | the response's `results` list, or the empty list when it has none |
| `App.GivenSize` | src/App.js:130-131 | JavaScript truthiness of the batch size: a missing size or 0 is not given, any other number is |
| `App.Engine.constructor` | src/App.js:52-66 | on mount the engine state is the restore of what was saved |
| `App.Engine.HandleFilesUpload` | src/App.js:128-216 | `isProcessing` is false afterwards on both paths; the tab is `processing`; a given non-zero batch size is adopted and sent; the queue is the upload merge of the fresh items, or the processing-step queue when the response has no `results`, or that queue all failed on an error; the results switch is scheduled only on success |
| `App.Engine.ResultsSwitchTimerFired` | src/App.js:188-190 | the delayed switch opens the results tab |
| `App.Engine.PollTick` | src/App.js:81-108 | a failed fetch changes nothing; otherwise the queue is the tick's queue, and on completion processing stops and the results tab opens; the length never changes; if the flag goes from true to false, the queue is non-empty and wholly terminal |
| `App.Engine.ClearConfirmed` | src/App.js:226-230 | a confirmed, successful clear empties the queue |
| `App.Engine.SelectTab` | src/App.js:275 | a tab click sets the active tab |
| `App.ResumeAfterReload` | src/App.js:79-111 | an engine restored from an in-flight snapshot, under any tab name, finishes with one tick when each item's first record is terminal: not processing, on the results tab, same length, ids and names, every item terminal |
| `App.UploadScenario` | src/App.js:166-215 | files a, b, c with records for a (success) and b (failed) only: the statuses are success, failed, failed, c has no result, and processing has stopped |
| `ReviewGallery.Readiness` | src/components/ReviewGallery.js:61-73 | something is drawn or deferred exactly when data, blocks, canvas and image are all present; drawn exactly when, in addition, the image has loaded |
| `ReviewGallery.Scale` | src/components/ReviewGallery.js:86-87 | displayed over natural size: the factor that maps the natural size onto the displayed one, never negative, and zero exactly when the displayed size is zero |
| `ReviewGallery.BoxCommands` | src/components/ReviewGallery.js:94-113 | nothing for a missing or wrong-length box; otherwise an outline, a 30x20 tile whose bottom-left corner is the outline's top-left, and the label `index+1` placed inside the tile |
| `ReviewGallery.Overlay` | src/components/ReviewGallery.js:93-114 | whole groups of three commands, at most three per block |
| `ReviewGallery.OverlayStep` | src/components/ReviewGallery.js:93 | the overlay of the first `i+1` blocks is that of the first `i` followed by block `i`'s commands, in the order the `forEach` visits them |
| `ReviewGallery.OverlayLength` | src/components/ReviewGallery.js:93-95 | three commands per block with a 4-element box and none for a missing or wrong-length box |
| `ReviewGallery.OverlayAt` | src/components/ReviewGallery.js:93-113 | each well-formed block `i` is drawn, whatever blocks precede it: outline `(x*sx, y*sy, w*sx, h*sy)`, tile `(x, y-20, 30, 20)`, label text `i+1` at `(x+8, y-6)`, right after the commands of the earlier well-formed blocks |
| `ReviewGallery.BoxRectCount` | src/components/ReviewGallery.js:95-106 | a block yields one outline if its box has four components, else none |
| `ReviewGallery.OverlayRectCount` | src/components/ReviewGallery.js:93-106 | the number of outlines equals the number of 4-element boxes |
| `ReviewGallery.HalfScale` | src/components/ReviewGallery.js:86-87 | an image shown at half its natural size is scaled by 1/2 |
| `ReviewGallery.HalfSizeExample` | src/components/ReviewGallery.js:86-106 | natural (2w, 2h), displayed (w, h), box [10,20,30,40]: the outline is (5, 10, 15, 20) |
| `ReviewGallery.MalformedBoxExample` | src/components/ReviewGallery.js:93-113 | a 3-element box followed by a good one: one outline, labelled "2" |
| `ReviewGallery.Canvas.constructor` | src/components/ReviewGallery.js:207-210 | the `<canvas>` before any draw: the HTML default size 300x150 and an empty picture |
| `ReviewGallery.Canvas.DrawBlock` | src/components/ReviewGallery.js:93-114 | one `forEach` step appends exactly that block's commands to the surface: none for a missing or wrong-length box |
| `ReviewGallery.Canvas.DrawBoundingBoxes` | src/components/ReviewGallery.js:60-115 | nothing changes when data, blocks, canvas or image is missing, or when the image is still loading (then the call waits for `onload`); otherwise the surface takes the displayed size and shows exactly the overlay of all blocks |
| `ReviewGallery.RedrawTwice` | src/components/ReviewGallery.js:80-90 | two draws with the same inputs leave the same picture |
| `ReviewGallery.SuccessResults` | src/components/ReviewGallery.js:21 | the filter holds exactly the results whose status is `success`, and no more of them than the input |
| `ReviewGallery.SuccessResultsAppend` | src/components/ReviewGallery.js:21 | the filter keeps the original order (it distributes over concatenation) |
| `ReviewGallery.SelectedResult` | src/components/ReviewGallery.js:23-27 | the record whose detail loads is `successResults[selectedIndex]`, a successful result of the list; there is none exactly when the index is past the filtered list |
| `ReviewGallery.PreviousIndex` | src/components/ReviewGallery.js:130-134 | steps back by one exactly when the index is positive, else stays |
| `ReviewGallery.NextIndex` | src/components/ReviewGallery.js:136-140 | steps forward by one exactly when the index is below `len-1`, else stays |
| `ReviewGallery.NavigateInRange` | src/components/ReviewGallery.js:130-140 | from an index in `[0, len-1]`, any run of previous/next clicks and clicks on shown thumbnails stays in range |
| `ReviewGallery.Gallery.constructor` | src/components/ReviewGallery.js:5-6 | the gallery starts on the first result (`useState(0)`) with the given results list |
| `ReviewGallery.Gallery.HandlePrevious` | src/components/ReviewGallery.js:130-134 | the index becomes `PreviousIndex` of the old one |
| `ReviewGallery.Gallery.HandleNext` | src/components/ReviewGallery.js:136-140 | the index becomes `NextIndex` of the old one over the successful results |
| `ReviewGallery.Gallery.SelectThumbnail` | src/components/ReviewGallery.js:242 | a click on thumbnail `k` selects `k` |
| `ReviewGallery.Gallery.ReceiveResults` | src/components/ReviewGallery.js:21-27 | a new results list does not reset the index |
| `ProcessingQueue.CountStatus` | src/components/ProcessingQueue.js:21-22 | a status count never exceeds the queue length; it is zero exactly when no item has the status, and the full length exactly when every item has it |
| `ProcessingQueue.SuccessFiles` | src/components/ProcessingQueue.js:21 | `successFiles`: at most the queue length, and zero exactly when no item succeeded |
| `ProcessingQueue.FailedFiles` | src/components/ProcessingQueue.js:22 | `failedFiles`: at most the queue length, and zero exactly when no item failed |
| `ProcessingQueue.CompletedFiles` | src/components/ProcessingQueue.js:20 | the completed count never exceeds the queue length |
| `ProcessingQueue.PendingFiles` | src/components/ProcessingQueue.js:55 | the pending figure lies between 0 and the queue length |
| `ProcessingQueue.CompletedIsSuccessPlusFailed` | src/components/ProcessingQueue.js:20-22 | completed = success + failed |
| `ProcessingQueue.PendingIsUnfinished` | src/components/ProcessingQueue.js:19-55 | pending counts the items that are neither success nor failed: with the five known statuses, the pending, processing and skipped ones |
| `ProcessingQueue.SkippedShownAsPending` | src/components/ProcessingQueue.js:20-55 | for a wholly terminal queue the pending figure equals the number of skipped items |
| `ProcessingQueue.StatusText` | src/components/ProcessingQueue.js:85-90 | text only for pending, processing, success and failed: "Waiting...", "Processing...", "Completed successfully", and for a failed item its error if non-empty, else "Processing failed" |
| `ProcessingQueue.ProgressBar` | src/components/ProcessingQueue.js:93-103 | a bar, with the item's progress, exactly for `processing` items |
| `ProcessingQueue.ProcessingTime` | src/components/ProcessingQueue.js:105-109 | a time is shown exactly when the stored result has a non-zero one, and it is that time |
| `ProcessingQueue.RenderRow` | src/components/ProcessingQueue.js:60-110 | a row keyed by the item's id shows its name, the status line `StatusText` gives (present exactly for the four known statuses), a bar with the item's progress exactly while processing, and the time `ProcessingTime` gives, present exactly when the result has a non-zero one |
| `ProcessingQueue.Render` | src/components/ProcessingQueue.js:4-113 | the empty state exactly for an empty queue; otherwise total = length, completed = success + failed ≤ total, pending = total − completed ≥ 0, the spinner follows `isProcessing`, and one row per item in order, each row rendered from its own item by `RenderRow` |

## Left out

- Network calls (`src/services/api.js`) are not modelled. Their outcomes (a record list, a missing `results`, or an error) are parameters of the engine methods.
- Timers and scheduling are not modelled: the polling interval, the two-second switch to results, the 100 ms initial draw and the resize listener. One tick, one timer firing or one draw is one method call.
- App.Engine.HandleFilesUpload: runs without interruption, so poll ticks that the source can run while the upload is awaited are not interleaved.
- App.Engine.HandleFilesUpload: upload-progress events (`Math.round` over float event data) are not modelled. On the error path the model's items keep 50% where the source keeps the last reported percentage.
- `localStorage` and JSON text are not modelled. `Persistence.Restore` receives the decoded value, or `None` for a missing key, an empty string or text that fails to parse. `Persistence.Snapshot` is the payload the persist effect writes. Write failures are ignored in the source and absent here.
- Persistence.Restore: a truthy `activeTab` that is not a string is installed verbatim by the source but keeps the default tab here. A saved array is taken to hold queue items.
- `loadData`, the `results` and `statistics` state, and the refresh when processing stops are not modelled. The gallery receives its results list as an input.
- The modal dialogs and the clear-results confirmation flow are not modelled, beyond the queue being emptied after a successful clear.
- ReviewGallery.Canvas.DrawBoundingBoxes: colours, fonts, line width, the CSS size and pixel rounding are not modelled. Box components that are not numbers (NaN arithmetic) are not modelled. A `null` entry in `blocks` throws at `block.bbox` and ends the `forEach`, so the source draws no block after it; the model has no `null` block and claims every later well-formed box is drawn. The `onload` registration appears as the `AwaitingLoad` outcome.
- The server's record lists (the upload response's `results`, the `GET /results` list) and a detail record's `blocks` are taken to hold objects. A `null` entry makes `find` throw at `r.original_filename` when no earlier record carries the item's name. On upload, the catch then fails the whole batch; on a poll tick, the throw escapes the queue update. The model has no `null` record.
- Queue.NewQueue: reads the clock once per batch, while the source calls `Date.now()` once per item inside the `map`. Ids stay distinct either way, because the index suffix differs.
- The detail fetch (`loadImageData`) and its error modal are not modelled.
- Icons, CSS classes and `toFixed` formatting in the queue view are not modelled.
- `ResultsGallery.js`, `Statistics.js`, `FileUpload.js`, `PDFViewer.js`, `Header.js` and `config-overrides.js` are not part of this model: they are download plumbing, display formatting, a drop-zone wrapper and static markup.
