/** The pure queue transitions of the reconciliation engine (src/App.js):
    building a batch, the optimistic "processing" step, merging the upload
    response, failing a batch on a transport error, and the poll merge with
    its completion test. Each is a `map` over the queue in the source. */
module Queue {
  import opened Types
  import Decimal

  /** `success`, `failed` and `skipped` end an item's lifecycle (the test the
      poll tick applies before it declares the batch done). */
  predicate IsTerminal(status: string) {
    status == "success" || status == "failed" || status == "skipped"
  }

  /** `updated.every(it => it.status === 'success' || ... === 'skipped')`.
      A batch that passes has no item still pending or processing, and an
      empty queue passes vacuously, which is why the tick also requires a
      non-empty queue. */
  function AllTerminal(q: seq<Item>): (all: bool)
    ensures all ==> forall i :: 0 <= i < |q| ==> q[i].status != "pending" && q[i].status != "processing"
    ensures |q| == 0 ==> all
  {
    forall i :: 0 <= i < |q| ==> IsTerminal(q[i].status)
  }

  // ---------------------------------------------------------------------------
  // Submission

  /** `${Date.now()}-${index}`: the time's digits, a dash, then digits from
      which the index reads back. */
  function ItemId(now: nat, index: nat): (id: string)
    ensures |Decimal.Show(now)| < |id| && id[..|Decimal.Show(now)|] == Decimal.Show(now)
    ensures id[|Decimal.Show(now)|] == '-'
    ensures Decimal.IsDigits(id[|Decimal.Show(now)| + 1..])
    ensures Decimal.Parse(id[|Decimal.Show(now)| + 1..]) == index
  {
    var t := Decimal.Show(now);
    var id := t + "-" + Decimal.Show(index);
    assert id[|t| + 1..] == Decimal.Show(index);
    Decimal.ParseShow(index);
    id
  }

  lemma ItemIdInjective(now: nat, i: nat, j: nat)
    requires ItemId(now, i) == ItemId(now, j)
    ensures i == j
  {
    var prefix := Decimal.Show(now) + "-";
    assert ItemId(now, i) == prefix + Decimal.Show(i);
    assert ItemId(now, j) == prefix + Decimal.Show(j);
    assert Decimal.Show(i) == ItemId(now, i)[|prefix|..];
    assert Decimal.Show(j) == ItemId(now, j)[|prefix|..];
    Decimal.ShowInjective(i, j);
  }

  /** The queue built on submission: one pending item per file, in file
      order, with ids that differ within the batch. */
  function NewQueue(files: seq<string>, now: nat): (q: seq<Item>)
    ensures |q| == |files|
    ensures forall i :: 0 <= i < |q| ==>
      q[i].name == files[i] && q[i].status == "pending" && q[i].progress == 0 &&
      q[i].result.None? && q[i].error.None?
    ensures forall i, j :: 0 <= i < |q| && 0 <= j < |q| && q[i].id == q[j].id ==> i == j
  {
    var q := seq(|files|, i requires 0 <= i < |files| =>
      Item(ItemId(now, i), files[i], "pending", 0, None, None));
    forall i, j | 0 <= i < |q| && 0 <= j < |q| && q[i].id == q[j].id
      ensures i == j
    {
      ItemIdInjective(now, i, j);
    }
    q
  }

  /** Every item becomes `processing` at 50% just before the request is sent. */
  function MarkProcessing(q: seq<Item>): (r: seq<Item>)
    ensures |r| == |q|
    ensures forall i :: 0 <= i < |q| ==>
      r[i] == q[i].(status := "processing", progress := 50)
  {
    seq(|q|, i requires 0 <= i < |q| => q[i].(status := "processing", progress := 50))
  }

  /** While the upload is in flight no item is terminal, so a non-empty batch
      cannot be declared done before the server reports on it. */
  lemma MarkProcessingNotDone(q: seq<Item>)
    requires |q| > 0
    ensures !AllTerminal(MarkProcessing(q))
  {
    assert MarkProcessing(q)[0].status == "processing";
  }

  // ---------------------------------------------------------------------------
  // Upload response

  /** `response.results.find(r => r.original_filename === item.name) ||
      response.results[index]`: the first record with the item's name, else
      the record at the item's own position, else nothing. */
  function UploadMatch(results: seq<ServerRecord>, name: string, index: nat): (m: Option<ServerRecord>)
    ensures (exists j :: 0 <= j < |results| && results[j].originalFilename == name) ==>
      m == FindByName(results, name) && m.Some? && m.value.originalFilename == name
    ensures (forall j :: 0 <= j < |results| ==> results[j].originalFilename != name) ==>
      m == (if index < |results| then Some(results[index]) else None)
    ensures m.Some? ==> m.value in results
  {
    match FindByName(results, name)
    case Some(r) => Some(r)
    case None => if index < |results| then Some(results[index]) else None
  }

  /** `result?.status || 'failed'` */
  function UploadStatus(m: Option<ServerRecord>): (status: string)
    ensures status != ""
    ensures m.None? ==> status == "failed"
    ensures m.Some? && Truthy(m.value.status) ==> status == m.value.status.value
    ensures m.Some? && !Truthy(m.value.status) ==> status == "failed"
    ensures status != "failed" ==> m.Some? && m.value.status == Some(status)
  {
    if m.Some? && Truthy(m.value.status) then m.value.status.value else "failed"
  }

  /** The queue after a successful upload: every item is joined with its
      record (by name, else by position), takes that record's status or
      `failed`, reaches 100% and keeps the record. */
  function UploadMerge(items: seq<Item>, results: seq<ServerRecord>): (r: seq<Item>)
    ensures |r| == |items|
    ensures forall i :: 0 <= i < |items| ==>
      r[i].id == items[i].id && r[i].name == items[i].name && r[i].error == items[i].error &&
      r[i].progress == 100 && r[i].result == UploadMatch(results, items[i].name, i)
    ensures forall i :: 0 <= i < |items| ==>
      r[i].status == UploadStatus(UploadMatch(results, items[i].name, i))
  {
    seq(|items|, i requires 0 <= i < |items| =>
      var m := UploadMatch(results, items[i].name, i);
      items[i].(status := UploadStatus(m), progress := 100, result := m))
  }

  /** An item is joined by name whenever some record carries its name, and
      then to the first such record, wherever it stands in the response. */
  lemma UploadMergeJoinsByName(items: seq<Item>, results: seq<ServerRecord>, i: nat, k: nat)
    requires i < |items| && k < |results|
    requires results[k].originalFilename == items[i].name
    requires forall j :: 0 <= j < k ==> results[j].originalFilename != items[i].name
    ensures UploadMerge(items, results)[i].result == Some(results[k])
  {
  }

  /** A status other than `failed` can only come from the record the item
      was joined with. */
  lemma UploadMergeStatusFromRecord(items: seq<Item>, results: seq<ServerRecord>, i: nat)
    requires i < |items|
    requires UploadMerge(items, results)[i].status != "failed"
    ensures UploadMerge(items, results)[i].result.Some?
    ensures UploadMerge(items, results)[i].result.value.status == Some(UploadMerge(items, results)[i].status)
  {
  }

  /** When the server answers in submission order with the same names, the
      join by name and the positional fallback pick the same record. */
  lemma UploadMergeInOrder(items: seq<Item>, results: seq<ServerRecord>)
    requires |results| == |items|
    requires forall i :: 0 <= i < |items| ==> results[i].originalFilename == items[i].name
    requires forall i, j :: 0 <= i < j < |items| ==> items[i].name != items[j].name
    ensures forall i :: 0 <= i < |items| ==> UploadMerge(items, results)[i].result == Some(results[i])
  {
  }

  /** The positional fallback can attach another file's record: with no
      record named `a.png`, the record for `x.png` at position 0 is taken and
      its status `success` is copied onto `a.png`. */
  lemma UploadMergeForeignRecord()
    ensures
      var a := Item("1-0", "a.png", "pending", 0, None, None);
      var x := ServerRecord("x.png", Some("success"), "x", None, None);
      var r := UploadMerge([a], [x]);
      r[0].status == "success" && r[0].result == Some(x)
  {
  }

  // ---------------------------------------------------------------------------
  // Transport failure

  /** On an upload error every item fails with the error's message; nothing
      else about it changes. */
  function MarkFailed(q: seq<Item>, message: string): (r: seq<Item>)
    ensures |r| == |q|
    ensures forall i :: 0 <= i < |q| ==>
      r[i] == q[i].(status := "failed", error := Some(message))
    ensures AllTerminal(r)
  {
    seq(|q|, i requires 0 <= i < |q| => q[i].(status := "failed", error := Some(message)))
  }

  // ---------------------------------------------------------------------------
  // Polling

  /** One item against the latest server list: the first record with its name,
      if any, overwrites the status when it has one (then progress is 100)
      and is stored as the result; otherwise the item is returned as is. */
  function PollMergeItem(item: Item, latest: seq<ServerRecord>): (r: Item)
    ensures r.id == item.id && r.name == item.name && r.error == item.error
    ensures FindByName(latest, item.name).None? ==> r == item
    ensures FindByName(latest, item.name).Some? ==> r.result == FindByName(latest, item.name)
    ensures FindByName(latest, item.name).Some? ==>
      var m := FindByName(latest, item.name).value;
      r.status == (if Truthy(m.status) then m.status.value else item.status) &&
      r.progress == (if Truthy(m.status) then 100 else item.progress)
    ensures r.status != item.status ==>
      r.result.Some? && r.result.value.originalFilename == item.name &&
      r.result.value.status == Some(r.status) && r.progress == 100
  {
    match FindByName(latest, item.name)
    case None => item
    case Some(m) =>
      item.(status := if Truthy(m.status) then m.status.value else item.status,
            progress := if Truthy(m.status) then 100 else item.progress,
            result := Some(m))
  }

  /** The poll merge: every item is re-examined, terminal ones included. */
  function PollMerge(current: seq<Item>, latest: seq<ServerRecord>): (u: seq<Item>)
    ensures |u| == |current|
    ensures forall i :: 0 <= i < |current| ==>
      u[i].id == current[i].id && u[i].name == current[i].name && u[i].error == current[i].error
    ensures forall i :: 0 <= i < |current| && FindByName(latest, current[i].name).None? ==>
      u[i] == current[i]
    ensures forall i :: 0 <= i < |current| && FindByName(latest, current[i].name).Some? ==>
      var m := FindByName(latest, current[i].name).value;
      u[i].result == Some(m) &&
      u[i].status == (if Truthy(m.status) then m.status.value else current[i].status) &&
      u[i].progress == (if Truthy(m.status) then 100 else current[i].progress)
  {
    seq(|current|, i requires 0 <= i < |current| => PollMergeItem(current[i], latest))
  }

  /** Polling twice against an unchanged server snapshot changes nothing more
      than polling once. */
  lemma PollMergeIdempotent(current: seq<Item>, latest: seq<ServerRecord>)
    ensures PollMerge(PollMerge(current, latest), latest) == PollMerge(current, latest)
  {
  }

  /** Terminal items are not protected: a server record that still says
      `processing` reopens an item that had succeeded. */
  lemma PollMergeReopensTerminal()
    ensures
      var done := Item("1-0", "a.png", "success", 100, None, None);
      var rec := ServerRecord("a.png", Some("processing"), "a", None, None);
      PollMerge([done], [rec])[0].status == "processing"
  {
  }

  datatype TickResult = TickResult(queue: seq<Item>, completed: bool)

  /** One poll tick on the queue: an empty queue is left alone; otherwise
      the merged queue, and whether the whole batch has reached a terminal
      status (which ends processing and switches to the results tab). */
  function PollTick(current: seq<Item>, latest: seq<ServerRecord>): (t: TickResult)
    ensures |t.queue| == |current|
    ensures |current| == 0 ==> t.queue == current
    ensures |current| > 0 ==> t.queue == PollMerge(current, latest)
    ensures t.completed <==> |t.queue| > 0 && AllTerminal(t.queue)
  {
    if |current| == 0 then TickResult(current, false)
    else
      var updated := PollMerge(current, latest);
      TickResult(updated, AllTerminal(updated))
  }

  /** The record the poll merge joins with this item's name has a truthy,
      terminal status. */
  predicate ReportedDone(latest: seq<ServerRecord>, name: string) {
    var m := FindByName(latest, name);
    m.Some? && Truthy(m.value.status) && IsTerminal(m.value.status.value)
  }

  /** Resuming a batch: whatever mix of terminal and pending items a restored
      queue holds, one tick completes the batch once the first record with
      each item's name reports a terminal status. Other records of the
      server's list, unfinished ones included, do not matter. */
  lemma ResumeCompletes(current: seq<Item>, latest: seq<ServerRecord>)
    requires |current| > 0
    requires forall i :: 0 <= i < |current| ==> ReportedDone(latest, current[i].name)
    ensures PollTick(current, latest).completed
  {
  }

  /** `GET /results` lists the whole corpus: a record for another file that
      is still processing does not hold back the batch. */
  lemma ResumeIgnoresOtherRecords()
    ensures
      var a := Item("1-0", "a.png", "processing", 50, None, None);
      var done := ServerRecord("a.png", Some("success"), "a", None, None);
      var other := ServerRecord("z.png", Some("processing"), "z", None, None);
      PollTick([a], [done, other]).completed
  {
    var done := ServerRecord("a.png", Some("success"), "a", None, None);
    var other := ServerRecord("z.png", Some("processing"), "z", None, None);
    assert FindByName([done, other], "a.png") == Some(done);
    ResumeCompletes([Item("1-0", "a.png", "processing", 50, None, None)], [done, other]);
  }
}
