/** `AddMetadataToItemFromFile` and `PrintMetadata` of
    BoxCLI/Commands/MetadataSubCommands/MetadataSubCommandBase.cs: adding
    metadata to many files and folders from a CSV file. A record with an
    unsupported item type, or whose creation fails, is reported and
    skipped; a record with no item type at all aborts the rest of the run
    and the report. */
module MetadataBatch {
  import opened Wrappers
  import opened CommandBase
  import opened Batch
  import opened MetadataValues
  import opened MetadataConsole

  const UntypedItem: string := "Must have a Box Item type of file or folder"
  const UnsupportedType: string := "Metadata currently only supported on files and folders."
  const AddFailed: string := "Couldn't add metadata..."

  /** One CSV record (`BoxMetadataForCsv`): the template, the item it goes
      on and the metadata. A null ItemType is `None`; an empty string is
      `Some("")`, which the dispatch refuses as an unsupported type. */
  datatype MetadataForCsv = MetadataForCsv(templateKey: string, scope: string, itemId: string,
                                           itemType: Option<string>, metadata: seq<Entry>)

  /** What the command outputs: a created metadata dictionary (as JSON),
      or a report row. */
  datatype MetadataOutput = Created(metadata: seq<Entry>) | Row(row: MetadataForCsv)

  /** `CreateFileMetadataAsync` and `CreateFolderMetadataAsync`, each given
      the item id, the metadata, the scope and the template key. */
  datatype MetadataApi = MetadataApi(createFile: (string, seq<Entry>, string, string) -> Outcome<seq<Entry>>,
                                     createFolder: (string, seq<Entry>, string, string) -> Outcome<seq<Entry>>)

  /** Every record names an item type. */
  predicate Typed(reqs: seq<MetadataForCsv>) {
    forall i :: 0 <= i < |reqs| ==> reqs[i].itemType.Some?
  }

  /** The index of the first record without an item type, or the number of
      records when every record has one. */
  function FirstUntyped(reqs: seq<MetadataForCsv>): (k: nat)
    ensures k <= |reqs|
    ensures Typed(reqs[..k])
    ensures k < |reqs| ==> reqs[k].itemType.None?
    decreases |reqs|
  {
    if |reqs| == 0 then 0
    else if reqs[0].itemType.None? then 0
    else
      var k := 1 + FirstUntyped(reqs[1..]);
      assert forall i :: 1 <= i < k ==> reqs[..k][i] == reqs[1..][..k - 1][i - 1];
      k
  }

  /** The creation call a record makes: files and folders go to their own
      endpoint (the type is compared case-sensitively), any other type is
      refused before anything is sent. */
  function CreateMetadata(req: MetadataForCsv, t: string, api: MetadataApi): (r: Outcome<seq<Entry>>)
    ensures t == "file" ==> r == api.createFile(req.itemId, req.metadata, req.scope, req.templateKey)
    ensures t == "folder" ==> r == api.createFolder(req.itemId, req.metadata, req.scope, req.templateKey)
    ensures t != "file" && t != "folder" ==> r == Err(UnsupportedType)
  {
    if t == "file" then api.createFile(req.itemId, req.metadata, req.scope, req.templateKey)
    else if t == "folder" then api.createFolder(req.itemId, req.metadata, req.scope, req.templateKey)
    else Err(UnsupportedType)
  }

  /** The row saved for a record: the record's template, scope and item with
      the metadata the service returned. */
  function SavedRow(req: MetadataForCsv, created: seq<Entry>): MetadataOutput {
    Row(MetadataForCsv(req.templateKey, req.scope, req.itemId, req.itemType, created))
  }

  /** One record of type `t`: a failure is two error lines and no value; a
      success is the row to save. */
  function AddOne(req: MetadataForCsv, t: string, api: MetadataApi): (r: RecordResult<MetadataOutput>)
    ensures r.value.Some? <==> CreateMetadata(req, t, api).Ok?
    ensures r.value.Some? ==> r.errors == [] && r.value.value == SavedRow(req, CreateMetadata(req, t, api).value)
    ensures r.value.None? ==> r.errors == [AddFailed, CreateMetadata(req, t, api).msg]
  {
    match CreateMetadata(req, t, api)
    case Ok(created) => RecordResult(Some(SavedRow(req, created)), [])
    case Err(m) => RecordResult(None, [AddFailed, m])
  }

  /** The results of the records, each with its own item type. */
  function AddResults(reqs: seq<MetadataForCsv>, api: MetadataApi): (rs: seq<RecordResult<MetadataOutput>>)
    requires Typed(reqs)
    ensures |rs| == |reqs| && forall i :: 0 <= i < |reqs| ==> rs[i] == AddOne(reqs[i], reqs[i].itemType.value, api)
  {
    seq(|reqs|, i requires 0 <= i < |reqs| => AddOne(reqs[i], reqs[i].itemType.value, api))
  }

  /** `PrintMetadata(md, json)`: the dictionary as JSON, or one information
      line `key: value` per entry, in order. */
  function PrintMetadata(md: seq<Entry>, json: bool): (r: seq<Emit<MetadataOutput>>)
    ensures json ==> r == [Json(Created(md))]
    ensures !json ==> |r| == |md| && forall i :: 0 <= i < |md| ==> r[i] == Info(md[i].key + ": " + Render(md[i].value))
  {
    if json then [Json(Created(md))]
    else seq(|md|, i requires 0 <= i < |md| => Info(md[i].key + ": " + Render(md[i].value)))
  }

  /** The console effects of one record: its error lines, then the created
      metadata. */
  function MetadataRecordEvents(r: RecordResult<MetadataOutput>, json: bool): seq<Emit<MetadataOutput>> {
    Errors(r.errors) + (if r.value.Some? && r.value.value.Row? then PrintMetadata(r.value.value.row.metadata, json) else [])
  }

  /** The console effects of the record loop, record after record. */
  function MetadataRunEvents(rs: seq<RecordResult<MetadataOutput>>, json: bool): seq<Emit<MetadataOutput>> {
    if |rs| == 0 then [] else MetadataRunEvents(rs[..|rs| - 1], json) + MetadataRecordEvents(rs[|rs| - 1], json)
  }

  /** The run over the records read: the records up to the first untyped
      one are processed; an untyped record ends the run with one error line
      and no report, and a run without one ends with the report step. */
  function AddRun(reqs: seq<MetadataForCsv>, api: MetadataApi, json: bool, keep: bool,
                  plan: ReportPlan, write: (ReportPlan, seq<MetadataOutput>) -> Outcome<string>)
    : seq<Emit<MetadataOutput>>
  {
    var k := FirstUntyped(reqs);
    var rs := AddResults(reqs[..k], api);
    MetadataRunEvents(rs, json)
      + if k < |reqs| then [ErrorLine(UntypedItem)] else ReportEvents(keep, plan, Saved(rs, keep), write)
  }

  /** A whole run: a failing read is one error line, anything else the run
      over the records read. */
  function AddFromFile(read: Outcome<seq<MetadataForCsv>>, api: MetadataApi, json: bool, keep: bool,
                       plan: ReportPlan, write: (ReportPlan, seq<MetadataOutput>) -> Outcome<string>)
    : seq<Emit<MetadataOutput>>
  {
    match read
    case Err(m) => [ErrorLine(m)]
    case Ok(reqs) => AddRun(reqs, api, json, keep, plan, write)
  }

  /** The first untyped record is at `k` when everything before it is typed. */
  lemma {:induction false} FirstUntypedAt(reqs: seq<MetadataForCsv>, k: nat)
    requires k <= |reqs| && Typed(reqs[..k])
    requires k < |reqs| ==> reqs[k].itemType.None?
    ensures FirstUntyped(reqs) == k
    decreases |reqs|
  {
    if k > 0 {
      assert reqs[0] == reqs[..k][0];
      assert reqs[1..][..k - 1] == reqs[..k][1..];
      FirstUntypedAt(reqs[1..], k - 1);
    }
  }

  /** The creation step of the loop body. */
  method AddRecord(req: MetadataForCsv, t: string, api: MetadataApi)
    returns (value: Option<MetadataOutput>, errors: seq<string>)
    ensures RecordResult(value, errors) == AddOne(req, t, api)
  {
    var created: Option<seq<Entry>> := None;
    errors := [];
    var outcome: Outcome<seq<Entry>>;
    if t == "file" {
      outcome := api.createFile(req.itemId, req.metadata, req.scope, req.templateKey);
    } else if t == "folder" {
      outcome := api.createFolder(req.itemId, req.metadata, req.scope, req.templateKey);
    } else {
      outcome := Err(UnsupportedType);
    }
    if outcome.Err? {
      errors := [AddFailed, outcome.msg];
    } else {
      created := Some(outcome.value);
    }
    value := None;
    if created.Some? {
      value := Some(SavedRow(req, created.value));
    }
  }

  /** The output step of the loop body: error lines, the printed metadata,
      and the row kept for the report when one was requested. */
  method ShowRecord(value: Option<MetadataOutput>, errors: seq<string>, json: bool, keep: bool)
    returns (shown: seq<Emit<MetadataOutput>>, kept: seq<MetadataOutput>)
    requires value.Some? ==> value.value.Row?
    ensures shown == MetadataRecordEvents(RecordResult(value, errors), json)
    ensures kept == if keep && value.Some? then [value.value] else []
  {
    shown := Errors(errors);
    kept := [];
    if value.Some? {
      var md := value.value.row.metadata;
      if json {
        shown := shown + [Json(Created(md))];
      } else {
        var i := 0;
        var lines: seq<Emit<MetadataOutput>> := [];
        while i < |md|
          invariant 0 <= i <= |md|
          invariant lines == PrintMetadata(md[..i], false)
        {
          lines := lines + [Info(md[i].key + ": " + Render(md[i].value))];
          i := i + 1;
        }
        assert md[..i] == md;
        shown := shown + lines;
      }
      if keep {
        kept := [value.value];
      }
    }
  }

  lemma AddResultsStep(reqs: seq<MetadataForCsv>, i: nat, api: MetadataApi)
    requires i < |reqs| && Typed(reqs[..i + 1])
    ensures Typed(reqs[..i])
    ensures AddResults(reqs[..i + 1], api) == AddResults(reqs[..i], api) + [AddOne(reqs[i], reqs[i].itemType.value, api)]
  {
    assert forall j :: 0 <= j < i ==> reqs[..i][j] == reqs[..i + 1][j];
    assert reqs[..i + 1][i] == reqs[i];
  }

  /** The record loop: each typed record is added, printed and kept; an
      untyped record ends the loop with one error line (the exception the
      command's outer handler reports). */
  method AddRecords(metadataRequests: seq<MetadataForCsv>, api: MetadataApi, json: bool, keep: bool)
    returns (events: seq<Emit<MetadataOutput>>, saveCreated: seq<MetadataOutput>, aborted: bool)
    ensures var k := FirstUntyped(metadataRequests);
      && aborted == (k < |metadataRequests|)
      && events == MetadataRunEvents(AddResults(metadataRequests[..k], api), json)
                   + (if aborted then [ErrorLine(UntypedItem)] else [])
      && saveCreated == Saved(AddResults(metadataRequests[..k], api), keep)
  {
    saveCreated := [];
    events := [];
    var i := 0;
    while i < |metadataRequests|
      invariant 0 <= i <= |metadataRequests|
      invariant Typed(metadataRequests[..i])
      invariant events == MetadataRunEvents(AddResults(metadataRequests[..i], api), json)
      invariant saveCreated == Saved(AddResults(metadataRequests[..i], api), keep)
    {
      var req := metadataRequests[i];
      if req.itemType.None? {
        FirstUntypedAt(metadataRequests, i);
        events := events + [ErrorLine(UntypedItem)];
        aborted := true;
        return;
      }
      assert Typed(metadataRequests[..i + 1]) by {
        assert forall j :: 0 <= j < i ==> metadataRequests[..i + 1][j] == metadataRequests[..i][j];
      }
      var value, errors := AddRecord(req, req.itemType.value, api);
      var shown, kept := ShowRecord(value, errors, json, keep);
      ghost var done := AddResults(metadataRequests[..i], api);
      ghost var r := RecordResult(value, errors);
      AddResultsStep(metadataRequests, i, api);
      assert (done + [r])[..|done|] == done;
      events := events + shown;
      saveCreated := saveCreated + kept;
      i := i + 1;
    }
    assert metadataRequests[..i] == metadataRequests;
    FirstUntypedAt(metadataRequests, i);
    aborted := false;
  }

  /** `AddMetadataToItemFromFile(path, type, save, overrideSavePath,
      overrideSaveFileFormat, json)`: the run, then (when saving and no
      record aborted it) the report named after the metadata create command. */
  method AddMetadataToItemFromFile(path: string, save: bool, overridePath: string, overrideFormat: string,
                                   json: bool, settings: Settings, names: Names, timestamp: string,
                                   files: Files<MetadataForCsv, MetadataOutput>, api: MetadataApi)
    returns (events: seq<Emit<MetadataOutput>>)
    ensures events == AddFromFile(files.read(InputPath(path, files.translate)), api, json,
                                  SaveRequested(save, overridePath, settings),
                                  ResolvePlan(settings, overridePath, overrideFormat, names.metadata, names.create, timestamp),
                                  files.write)
  {
    var p := path;
    if p != "" {
      p := files.translate(p);
    }
    var read := files.read(p);
    if read.Err? {
      events := [ErrorLine(read.msg)];
      return;
    }
    var keep := SaveRequested(save, overridePath, settings);
    var saveCreated, aborted;
    events, saveCreated, aborted := AddRecords(read.value, api, json, keep);
    ghost var plan0 := ResolvePlan(settings, overridePath, overrideFormat, names.metadata, names.create, timestamp);
    ghost var run := AddRun(read.value, api, json, keep, plan0, files.write);
    assert AddFromFile(read, api, json, keep, plan0, files.write) == run;
    if !aborted && keep {
      var plan := ReportPlanFor(settings, overridePath, overrideFormat, names.metadata, names.create, timestamp);
      var tail := WriteReport(plan, saveCreated, files.write);
      events := events + tail;
    }
    assert events == run;
  }

  /** The record loop never calls the report writer. */
  lemma {:induction false} MetadataRunHasNoReport(rs: seq<RecordResult<MetadataOutput>>, json: bool)
    ensures forall i :: 0 <= i < |MetadataRunEvents(rs, json)| ==> !MetadataRunEvents(rs, json)[i].Report?
    decreases |rs|
  {
    if |rs| > 0 {
      MetadataRunHasNoReport(rs[..|rs| - 1], json);
    }
  }

  /** Failure isolation: the loop over `a + b` is the loop over `a` followed
      by the loop over `b`. */
  lemma {:induction false} MetadataRunSplit(a: seq<RecordResult<MetadataOutput>>, b: seq<RecordResult<MetadataOutput>>, json: bool)
    ensures MetadataRunEvents(a + b, json) == MetadataRunEvents(a, json) + MetadataRunEvents(b, json)
    decreases |b|
  {
    if |b| == 0 {
      assert a + b == a;
    } else {
      var init, last := b[..|b| - 1], b[|b| - 1];
      assert (a + b)[..|a + b| - 1] == a + init;
      assert (a + b)[|a + b| - 1] == last;
      MetadataRunSplit(a, init, json);
    }
  }

  /** A record of any type other than `file` or `folder` is refused without
      a call: two error lines, nothing printed and nothing saved. */
  lemma UnsupportedTypeRefused(req: MetadataForCsv, t: string, api: MetadataApi, json: bool)
    requires t != "file" && t != "folder"
    ensures AddOne(req, t, api) == RecordResult(None, [AddFailed, UnsupportedType])
    ensures MetadataRecordEvents(AddOne(req, t, api), json) == [ErrorLine(AddFailed), ErrorLine(UnsupportedType)]
  {
  }

  /** A record without an item type aborts the run: the records after it
      are never processed, the run ends with one error line and the report
      writer is not called, whether or not a report was requested. */
  lemma UntypedAborts(reqs: seq<MetadataForCsv>, more: seq<MetadataForCsv>, api: MetadataApi, json: bool, keep: bool,
                      plan: ReportPlan, write: (ReportPlan, seq<MetadataOutput>) -> Outcome<string>)
    requires !Typed(reqs)
    ensures AddRun(reqs + more, api, json, keep, plan, write) == AddRun(reqs, api, json, keep, plan, write)
    ensures var ev := AddRun(reqs, api, json, keep, plan, write);
      && |ev| > 0 && ev[|ev| - 1] == ErrorLine(UntypedItem)
      && forall i :: 0 <= i < |ev| ==> !ev[i].Report?
  {
    var k := FirstUntyped(reqs);
    assert k < |reqs|;
    var all := reqs + more;
    assert all[..k] == reqs[..k];
    FirstUntypedAt(all, k);
    MetadataRunHasNoReport(AddResults(reqs[..k], api), json);
  }

  /** When every record is typed, the report writer is called if and only
      if a report was requested, even when no record succeeded; the call
      carries the saved rows in input order. */
  lemma TypedReportIffRequested(reqs: seq<MetadataForCsv>, api: MetadataApi, json: bool, keep: bool,
                                plan: ReportPlan, write: (ReportPlan, seq<MetadataOutput>) -> Outcome<string>)
    requires Typed(reqs)
    ensures var ev := AddRun(reqs, api, json, keep, plan, write);
      (exists i :: 0 <= i < |ev| && ev[i].Report?) <==> keep
    ensures var ev := AddRun(reqs, api, json, keep, plan, write);
      var run := MetadataRunEvents(AddResults(reqs, api), json);
      keep ==> |ev| > |run| && ev[|run|] == Report(plan, Successes(AddResults(reqs, api)))
  {
    var rs := AddResults(reqs, api);
    FirstUntypedAt(reqs, |reqs|);
    assert reqs[..|reqs|] == reqs;
    var ev := AddRun(reqs, api, json, keep, plan, write);
    var run := MetadataRunEvents(rs, json);
    assert ev == run + ReportEvents(keep, plan, Saved(rs, keep), write);
    MetadataRunHasNoReport(rs, json);
    SavedIsSuccesses(rs, keep);
    if keep {
      assert ev[|run|].Report?;
    } else {
      assert ev == run;
    }
  }

  /** When every creation succeeds and a report was requested, the report
      has one row per record, and row `i` carries record `i`'s template,
      scope, item id and item type with the metadata the service returned. */
  lemma SavedRowsCopyRequests(reqs: seq<MetadataForCsv>, api: MetadataApi)
    requires Typed(reqs)
    requires forall i :: 0 <= i < |reqs| ==> CreateMetadata(reqs[i], reqs[i].itemType.value, api).Ok?
    ensures var rows := Saved(AddResults(reqs, api), true);
      && |rows| == |reqs|
      && forall i :: 0 <= i < |reqs| ==>
           rows[i] == Row(MetadataForCsv(reqs[i].templateKey, reqs[i].scope, reqs[i].itemId, reqs[i].itemType,
                                         CreateMetadata(reqs[i], reqs[i].itemType.value, api).value))
  {
    var rs := AddResults(reqs, api);
    SavedAllSucceed(rs);
  }
}
