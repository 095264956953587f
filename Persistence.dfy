/** The UI state the engine persists under the key `ba_ui_state_v1` and
    restores on start (src/App.js:54-76). Storage access and JSON text are
    outside the model: `Restore` receives what `JSON.parse` produced, or
    `None` when nothing was stored or the text did not parse. */
module Persistence {
  import opened Types

  /** A decoded JSON value as far as restore inspects it. A saved queue is
      an array of items. */
  datatype Value =
    | Null
    | Bool(b: bool)
    | Num(n: real)
    | Str(s: string)
    | Array(items: seq<Item>)
    | Object(fields: map<string, Value>)

  /** The four persisted cells: `{activeTab, processingQueue, isProcessing, batchSize}`. */
  datatype UiState = UiState(activeTab: string, processingQueue: seq<Item>, isProcessing: bool, batchSize: real)

  /** The `useState` initial values. */
  const Defaults := UiState("upload", [], false, 5.0)

  /** JavaScript truthiness of a decoded value. */
  predicate TruthyValue(v: Value) {
    match v
    case Null => false
    case Bool(b) => b
    case Num(n) => n != 0.0
    case Str(s) => s != ""
    case Array(_) => true
    case Object(_) => true
  }

  /** Restore: each field of a saved object is installed only when its value
      has the expected shape (`activeTab` truthy, `processingQueue` an array,
      `isProcessing` a boolean, `batchSize` a number); anything that is not
      an object leaves every default in place. */
  function Restore(saved: Option<Value>): (s: UiState)
    ensures saved.None? ==> s == Defaults
    ensures saved.Some? && !saved.value.Object? ==> s == Defaults
    ensures saved.Some? && saved.value.Object? ==>
      var f := saved.value.fields;
      (s.activeTab == if "activeTab" in f && f["activeTab"].Str? && f["activeTab"].s != ""
                      then f["activeTab"].s else Defaults.activeTab) &&
      (s.processingQueue == if "processingQueue" in f && f["processingQueue"].Array?
                            then f["processingQueue"].items else Defaults.processingQueue) &&
      (s.isProcessing == if "isProcessing" in f && f["isProcessing"].Bool?
                         then f["isProcessing"].b else Defaults.isProcessing) &&
      (s.batchSize == if "batchSize" in f && f["batchSize"].Num?
                      then f["batchSize"].n else Defaults.batchSize)
  {
    match saved
    case Some(Object(f)) =>
      var tab := if "activeTab" in f && TruthyValue(f["activeTab"]) && f["activeTab"].Str?
                 then f["activeTab"].s else Defaults.activeTab;
      var queue := if "processingQueue" in f && f["processingQueue"].Array?
                   then f["processingQueue"].items else Defaults.processingQueue;
      var processing := if "isProcessing" in f && f["isProcessing"].Bool?
                        then f["isProcessing"].b else Defaults.isProcessing;
      var size := if "batchSize" in f && f["batchSize"].Num?
                  then f["batchSize"].n else Defaults.batchSize;
      UiState(tab, queue, processing, size)
    case _ => Defaults
  }

  /** The payload written after every change, as `JSON.parse` reads it back. */
  function Snapshot(s: UiState): (v: Value)
    ensures v.Object? && v.fields.Keys == {"activeTab", "processingQueue", "isProcessing", "batchSize"}
    ensures v.fields["activeTab"].Str? && v.fields["processingQueue"].Array? &&
      v.fields["isProcessing"].Bool? && v.fields["batchSize"].Num?
  {
    Object(map[
      "activeTab" := Str(s.activeTab),
      "processingQueue" := Array(s.processingQueue),
      "isProcessing" := Bool(s.isProcessing),
      "batchSize" := Num(s.batchSize)])
  }

  /** Restoring what was persisted gives back the same state, except that an
      empty tab name is falsy and restores as the default tab. This is what
      lets an in-flight batch (`isProcessing` true) resume after a reload. */
  lemma RestoreSnapshot(s: UiState)
    ensures Restore(Some(Snapshot(s))) ==
      if s.activeTab == "" then s.(activeTab := Defaults.activeTab) else s
  {
  }

  /** A saved object with the wrong shape in one field loses only that field:
      a `batchSize` that is not a number (a string such as "5", a boolean,
      `null`, ...) falls back to the default and the other fields restore as
      if it were absent. */
  lemma RestorePartial(f: map<string, Value>)
    requires "batchSize" in f && !f["batchSize"].Num?
    ensures Restore(Some(Object(f))).batchSize == 5.0
    ensures Restore(Some(Object(f))).activeTab == Restore(Some(Object(f - {"batchSize"}))).activeTab
    ensures Restore(Some(Object(f))).processingQueue == Restore(Some(Object(f - {"batchSize"}))).processingQueue
    ensures Restore(Some(Object(f))).isProcessing == Restore(Some(Object(f - {"batchSize"}))).isProcessing
  {
  }
}
