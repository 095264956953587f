/** The reconciliation engine of src/App.js: the four state cells the
    component keeps with `useState` become the fields of `Engine`, and each
    handler or effect that writes them becomes a method. The methods apply
    the pure transitions of module Queue and module Persistence. Network
    calls arrive as their outcome, passed in as a parameter. */
module App {
  import opened Types
  import opened Queue
  import opened Persistence

  /** What `api.uploadFiles` settled with: a response whose `results` may be
      missing, or a thrown error with its message. */
  datatype UploadOutcome = UploadResponse(results: Option<seq<ServerRecord>>) | UploadError(message: string)

  /** What `api.getResults` settled with on one poll tick. */
  datatype PollOutcome = PollResponse(results: Option<seq<ServerRecord>>) | PollError

  /** `resultsData.results || []` */
  function ResultsOrEmpty(results: Option<seq<ServerRecord>>): (latest: seq<ServerRecord>)
    ensures results.None? ==> latest == []
    ensures results.Some? ==> latest == results.value
  {
    match results
    case Some(rs) => rs
    case None => []
  }

  /** `uiBatchSize` is truthy: given and not zero. */
  function GivenSize(size: Option<real>): (given: bool)
    ensures size.None? ==> !given
    ensures size == Some(0.0) ==> !given
    ensures size.Some? && size.value != 0.0 ==> given
  {
    size.Some? && size.value != 0.0
  }

  class Engine {
    var activeTab: string
    var processingQueue: seq<Item>
    var isProcessing: bool
    var batchSize: real

    /** The persisted tuple. */
    function State(): UiState
      reads this
    {
      UiState(activeTab, processingQueue, isProcessing, batchSize)
    }

    /** Mount: the `useState` defaults, then the restore of whatever was
        saved under `ba_ui_state_v1`. */
    constructor (saved: Option<Value>)
      ensures State() == Restore(saved)
    {
      var s := Restore(saved);
      activeTab := s.activeTab;
      processingQueue := s.processingQueue;
      isProcessing := s.isProcessing;
      batchSize := s.batchSize;
    }

    /** `handleFilesUpload(files, uiBatchSize)`: start processing, adopt a
        given batch size, build the queue and switch to the processing tab,
        mark every item processing, then either merge the response into the
        freshly built items or fail every item; the `finally` clause clears
        `isProcessing` on both paths. Returns the `batch_size` sent to the
        backend and whether the delayed switch to the results tab was
        scheduled (success path only). */
    method HandleFilesUpload(files: seq<string>, uiBatchSize: Option<real>, now: nat, outcome: UploadOutcome)
      returns (sentBatchSize: real, resultsSwitchScheduled: bool)
      modifies this
      ensures !isProcessing
      ensures activeTab == "processing"
      ensures batchSize == if GivenSize(uiBatchSize) then uiBatchSize.value else old(batchSize)
      ensures sentBatchSize == batchSize
      ensures |processingQueue| == |files|
      ensures outcome.UploadResponse? && outcome.results.Some? ==>
        processingQueue == UploadMerge(NewQueue(files, now), outcome.results.value)
      ensures outcome.UploadResponse? && outcome.results.None? ==>
        processingQueue == MarkProcessing(NewQueue(files, now))
      ensures outcome.UploadError? ==>
        processingQueue == MarkFailed(MarkProcessing(NewQueue(files, now)), outcome.message)
      ensures resultsSwitchScheduled <==> outcome.UploadResponse?
    {
      isProcessing := true;
      if GivenSize(uiBatchSize) && uiBatchSize.value != batchSize {
        batchSize := uiBatchSize.value;
      }
      sentBatchSize := if GivenSize(uiBatchSize) then uiBatchSize.value else batchSize;

      var queueItems := NewQueue(files, now);
      processingQueue := queueItems;
      activeTab := "processing";

      processingQueue := MarkProcessing(processingQueue);

      match outcome {
        case UploadResponse(results) =>
          if results.Some? {
            processingQueue := UploadMerge(queueItems, results.value);
          }
          resultsSwitchScheduled := true;
        case UploadError(message) =>
          processingQueue := MarkFailed(processingQueue, message);
          resultsSwitchScheduled := false;
      }

      isProcessing := false;
    }

    /** The two-second timer scheduled on a successful upload. */
    method ResultsSwitchTimerFired()
      modifies this`activeTab
      ensures activeTab == "results"
    {
      activeTab := "results";
    }

    /** One tick of the polling interval. A failed fetch changes nothing. A
        response is merged into the current queue; when the merged queue is
        non-empty and wholly terminal, processing stops and the results tab
        opens. */
    method PollTick(outcome: PollOutcome)
      modifies this
      ensures batchSize == old(batchSize)
      ensures outcome.PollError? ==>
        processingQueue == old(processingQueue) && isProcessing == old(isProcessing) &&
        activeTab == old(activeTab)
      ensures outcome.PollResponse? ==>
        var t := Queue.PollTick(old(processingQueue), ResultsOrEmpty(outcome.results));
        processingQueue == t.queue &&
        isProcessing == (if t.completed then false else old(isProcessing)) &&
        activeTab == (if t.completed then "results" else old(activeTab))
      ensures |processingQueue| == |old(processingQueue)|
      ensures old(isProcessing) && !isProcessing ==> |processingQueue| > 0 && AllTerminal(processingQueue)
    {
      match outcome {
        case PollError =>
        case PollResponse(results) =>
          var latest := ResultsOrEmpty(results);
          var t := Queue.PollTick(processingQueue, latest);
          processingQueue := t.queue;
          if t.completed {
            isProcessing := false;
            activeTab := "results";
          }
      }
    }

    /** A confirmed "Clear All Results" that the server accepted empties the queue. */
    method ClearConfirmed()
      modifies this`processingQueue
      ensures processingQueue == []
    {
      processingQueue := [];
    }

    /** A click on a navigation tab. */
    method SelectTab(tab: string)
      modifies this`activeTab
      ensures activeTab == tab
    {
      activeTab := tab;
    }
  }

  /** Resume after a reload: an engine restored from a snapshot of an
      in-flight batch finishes it with a single poll tick once the server
      reports a terminal status for every item's name, with no re-upload. */
  method ResumeAfterReload(s: UiState, latest: seq<ServerRecord>) returns (e: Engine)
    requires s.isProcessing && |s.processingQueue| > 0
    requires forall i :: 0 <= i < |s.processingQueue| ==> ReportedDone(latest, s.processingQueue[i].name)
    ensures !e.isProcessing && e.activeTab == "results"
    ensures |e.processingQueue| == |s.processingQueue| && AllTerminal(e.processingQueue)
    ensures forall i :: 0 <= i < |s.processingQueue| ==>
      e.processingQueue[i].id == s.processingQueue[i].id && e.processingQueue[i].name == s.processingQueue[i].name
  {
    ResumeCompletes(s.processingQueue, latest);
    RestoreSnapshot(s);
    e := new Engine(Some(Snapshot(s)));
    e.PollTick(PollResponse(Some(latest)));
  }

  /** Three files `a.png`, `b.png`, `c.png`; the upload response reports
      `a.png` as success and `b.png` as failed and has no record for
      `c.png`. With no record at position 2, `c.png` fails, and the batch
      is over when the upload returns: no poll follows. */
  method UploadScenario(e: Engine, now: nat)
    modifies e
    ensures !e.isProcessing
    ensures |e.processingQueue| == 3
    ensures e.processingQueue[0].status == "success"
    ensures e.processingQueue[1].status == "failed"
    ensures e.processingQueue[2].status == "failed" && e.processingQueue[2].result.None?
  {
    var a := ServerRecord("a.png", Some("success"), "a", None, None);
    var b := ServerRecord("b.png", Some("failed"), "b", None, None);
    var files := ["a.png", "b.png", "c.png"];
    assert "c.png"[0] != "a.png"[0] && "c.png"[0] != "b.png"[0];
    assert "b.png"[0] != "a.png"[0];
    var sent, scheduled := e.HandleFilesUpload(files, Some(2.0), now, UploadResponse(Some([a, b])));
    assert FindByName([a, b], "c.png").None?;
    assert [a, b][1..] == [b];
    assert FindIndex([b], "b.png") == Some(0);
    assert FindByName([a, b], "b.png") == Some(b);
  }
}
