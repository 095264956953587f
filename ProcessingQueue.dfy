/** The processing-queue view of src/components/ProcessingQueue.js: the
    summary counts derived from the queue and what each row shows. The
    component holds no state; everything here is a function of the queue. */
module ProcessingQueue {
  import opened Types
  import Queue

  /** `queue.filter(item => item.status === status).length` */
  function CountStatus(q: seq<Item>, status: string): (n: nat)
    ensures n <= |q|
    ensures n == 0 <==> forall i :: 0 <= i < |q| ==> q[i].status != status
    ensures n == |q| <==> forall i :: 0 <= i < |q| ==> q[i].status == status
  {
    if |q| == 0 then 0
    else (if q[0].status == status then 1 else 0) + CountStatus(q[1..], status)
  }

  predicate IsCompleted(item: Item) {
    item.status == "success" || item.status == "failed"
  }

  /** `completedFiles`: the items whose status is `success` or `failed`. */
  function CompletedFiles(q: seq<Item>): (n: nat)
    ensures n <= |q|
  {
    if |q| == 0 then 0
    else (if IsCompleted(q[0]) then 1 else 0) + CompletedFiles(q[1..])
  }

  /** `successFiles` */
  function SuccessFiles(q: seq<Item>): (n: nat)
    ensures n <= |q|
    ensures n == 0 <==> forall i :: 0 <= i < |q| ==> q[i].status != "success"
  {
    CountStatus(q, "success")
  }

  /** `failedFiles` */
  function FailedFiles(q: seq<Item>): (n: nat)
    ensures n <= |q|
    ensures n == 0 <==> forall i :: 0 <= i < |q| ==> q[i].status != "failed"
  {
    CountStatus(q, "failed")
  }

  /** The "Pending" figure: `totalFiles - completedFiles`. */
  function PendingFiles(q: seq<Item>): (n: int)
    ensures 0 <= n <= |q|
  {
    |q| - CompletedFiles(q)
  }

  /** The completed figure is the sum of the success and failed figures. */
  lemma {:induction false} CompletedIsSuccessPlusFailed(q: seq<Item>)
    ensures CompletedFiles(q) == SuccessFiles(q) + FailedFiles(q)
  {
    if |q| > 0 {
      CompletedIsSuccessPlusFailed(q[1..]);
    }
  }

  /** Items whose status is neither `success` nor `failed`. */
  function Unfinished(q: seq<Item>): (n: nat) {
    if |q| == 0 then 0
    else (if IsCompleted(q[0]) then 0 else 1) + Unfinished(q[1..])
  }

  /** "Pending" counts every item that is not completed: with the five known
      statuses, the pending, processing and skipped items. */
  lemma {:induction false} PendingIsUnfinished(q: seq<Item>)
    ensures PendingFiles(q) == Unfinished(q)
    ensures (forall i :: 0 <= i < |q| ==> q[i].status in {"pending", "processing", "success", "failed", "skipped"}) ==>
      PendingFiles(q) == CountStatus(q, "pending") + CountStatus(q, "processing") + CountStatus(q, "skipped")
  {
    if |q| > 0 {
      PendingIsUnfinished(q[1..]);
    }
  }

  /** The two components disagree about `skipped`: once the engine has
      declared a batch done (every item terminal), the "Pending" figure shows
      exactly the skipped items. */
  lemma {:induction false} SkippedShownAsPending(q: seq<Item>)
    requires Queue.AllTerminal(q)
    ensures PendingFiles(q) == CountStatus(q, "skipped")
  {
    PendingIsUnfinished(q);
    if |q| > 0 {
      assert Queue.AllTerminal(q[1..]) by {
        forall i | 0 <= i < |q[1..]| ensures Queue.IsTerminal(q[1..][i].status) {
          assert q[1..][i] == q[i + 1];
        }
      }
      SkippedShownAsPending(q[1..]);
    }
  }

  /** The line under an item's name; `skipped` and unknown statuses show none. */
  function StatusText(item: Item): (t: Option<string>)
    ensures t.Some? <==> item.status in {"pending", "processing", "success", "failed"}
    ensures item.status == "pending" ==> t == Some("Waiting...")
    ensures item.status == "processing" ==> t == Some("Processing...")
    ensures item.status == "success" ==> t == Some("Completed successfully")
    ensures item.status == "failed" ==>
      t == Some(if Truthy(item.error) then item.error.value else "Processing failed")
  {
    if item.status == "pending" then Some("Waiting...")
    else if item.status == "processing" then Some("Processing...")
    else if item.status == "success" then Some("Completed successfully")
    else if item.status == "failed" then Some(if Truthy(item.error) then item.error.value else "Processing failed")
    else None
  }

  /** The progress bar and its percentage, shown only while processing. */
  function ProgressBar(item: Item): (p: Option<int>)
    ensures p.Some? <==> item.status == "processing"
    ensures p.Some? ==> p.value == item.progress
  {
    if item.status == "processing" then Some(item.progress) else None
  }

  /** The processing time, shown when the stored result has a non-zero one. */
  function ProcessingTime(item: Item): (t: Option<real>)
    ensures t.Some? ==> t.value != 0.0 && item.result.Some? && item.result.value.processingTime == t
    ensures (item.result.Some? && item.result.value.processingTime.Some? &&
             item.result.value.processingTime.value != 0.0) ==> t.Some?
  {
    if item.result.Some? && item.result.value.processingTime.Some? && item.result.value.processingTime.value != 0.0
    then item.result.value.processingTime
    else None
  }

  datatype Row = Row(key: string, name: string, statusText: Option<string>, progress: Option<int>, time: Option<real>)

  datatype View =
    | EmptyState
    | QueueView(completed: nat, total: nat, success: nat, failed: nat, pending: int, spinner: bool, rows: seq<Row>)

  /** One row: the item's id as key, its name, and the status line,
      progress bar and time the item calls for. */
  function RenderRow(item: Item): (r: Row)
    ensures r.key == item.id && r.name == item.name
    ensures r.statusText == StatusText(item) && r.time == ProcessingTime(item)
    ensures r.statusText.Some? <==> item.status in {"pending", "processing", "success", "failed"}
    ensures r.progress == (if item.status == "processing" then Some(item.progress) else None)
    ensures r.time.Some? <==>
      (item.result.Some? && item.result.value.processingTime.Some? &&
       item.result.value.processingTime.value != 0.0)
  {
    Row(item.id, item.name, StatusText(item), ProgressBar(item), ProcessingTime(item))
  }

  /** `ProcessingQueue({queue, isProcessing})`: the empty state for an empty
      queue; otherwise the header and counts, and one row per item in
      queue order. */
  function Render(queue: seq<Item>, isProcessing: bool): (v: View)
    ensures v.EmptyState? <==> |queue| == 0
    ensures v.QueueView? ==>
      v.total == |queue| && v.completed == v.success + v.failed && v.completed <= v.total &&
      v.pending == v.total - v.completed && v.pending >= 0 && v.spinner == isProcessing &&
      v.success == CountStatus(queue, "success") && v.failed == CountStatus(queue, "failed")
    ensures v.QueueView? ==> |v.rows| == |queue|
    ensures v.QueueView? ==> forall i :: 0 <= i < |queue| ==>
      v.rows[i].key == queue[i].id && v.rows[i].name == queue[i].name &&
      (v.rows[i].progress.Some? <==> queue[i].status == "processing")
    ensures v.QueueView? ==> forall i :: 0 <= i < |queue| ==> v.rows[i] == RenderRow(queue[i])
  {
    if |queue| == 0 then EmptyState
    else
      CompletedIsSuccessPlusFailed(queue);
      QueueView(CompletedFiles(queue), |queue|, SuccessFiles(queue), FailedFiles(queue),
                PendingFiles(queue), isProcessing,
                seq(|queue|, i requires 0 <= i < |queue| => RenderRow(queue[i])))
  }
}
