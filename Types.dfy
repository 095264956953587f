/** The values the reconciliation engine works on: the server's result
    records and the client's queue items, plus JavaScript truthiness and
    `Array.prototype.find` by file name, which every merge uses. */
module Types {

  datatype Option<T> = None | Some(value: T)

  /** A result record as the backend reports it, from `GET /results` or in
      the response of `POST /upload`. A field the server leaves out (or sends
      as `null`) is `None`. Counters the client never inspects are omitted. */
  datatype ServerRecord = ServerRecord(
    originalFilename: string,
    status: Option<string>,
    stem: string,
    processingTime: Option<real>,
    error: Option<string>)

  /** One submitted file's entry in the processing queue. `result` and
      `error` are absent (`None`) until a merge or a failure sets them. */
  datatype Item = Item(
    id: string,
    name: string,
    status: string,
    progress: int,
    result: Option<ServerRecord>,
    error: Option<string>)

  /** JavaScript truthiness of an optional string: present and non-empty. */
  predicate Truthy(s: Option<string>) {
    s.Some? && s.value != ""
  }

  /** The index `records.find(r => r.original_filename === name)` stops at:
      the first record carrying that name, if any. */
  function FindIndex(records: seq<ServerRecord>, name: string): (k: Option<nat>)
    ensures k.Some? ==> k.value < |records| && records[k.value].originalFilename == name
    ensures k.Some? ==> forall j :: 0 <= j < k.value ==> records[j].originalFilename != name
    ensures k.None? <==> forall j :: 0 <= j < |records| ==> records[j].originalFilename != name
  {
    if |records| == 0 then None
    else if records[0].originalFilename == name then Some(0)
    else
      match FindIndex(records[1..], name)
      case None => None
      case Some(k) => Some(k + 1)
  }

  /** The record `find` returns (`undefined` is `None`). */
  function FindByName(records: seq<ServerRecord>, name: string): (r: Option<ServerRecord>)
    ensures r.Some? ==> r.value in records && r.value.originalFilename == name
    ensures r.Some? ==>
      exists k :: 0 <= k < |records| && r.value == records[k] &&
        (forall j :: 0 <= j < k ==> records[j].originalFilename != name)
    ensures r.None? <==> forall j :: 0 <= j < |records| ==> records[j].originalFilename != name
  {
    match FindIndex(records, name)
    case None => None
    case Some(k) => Some(records[k])
  }
}
